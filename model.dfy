/** The controlled vocabularies and records shared by the scrapers and the
    merger: job types, sites, countries, compensation intervals, the job
    record and the (mutable, shared) scraper input. */
module Model {
  import opened Wrappers
  import opened Text

  /** Job types, in declaration order (the order `for job_type in JobType` visits). */
  datatype JobType =
    | FullTime | PartTime | Contract | Temporary | Internship
    | PerDiem | Nights | Other | Summer | Volunteer

  const AllJobTypes: seq<JobType> :=
    [FullTime, PartTime, Contract, Temporary, Internship, PerDiem, Nights, Other, Summer, Volunteer]

  lemma AllJobTypesComplete(t: JobType)
    ensures t in AllJobTypes
  {
  }

  /** The value tuple of each job type: its accepted spellings. The first one
      is the canonical spelling written into merged rows and filters. */
  function JobTypeValues(t: JobType): (vs: seq<string>)
    ensures |vs| >= 1
  {
    match t
    case FullTime => ["fulltime", "vollzeit", "tempsplein", "tiempocompleto", "heltid"]
    case PartTime => ["parttime", "teilzeit", "deltid"]
    case Contract => ["contract", "contractor"]
    case Temporary => ["temporary"]
    case Internship => ["internship", "praktikum", "praktik"]
    case PerDiem => ["perdiem"]
    case Nights => ["nights"]
    case Other => ["other"]
    case Summer => ["summer"]
    case Volunteer => ["volunteer"]
  }

  /** Supported sources, in declaration order (the order `list(Site)` gives). */
  datatype Site = LinkedIn | Indeed | ZipRecruiter | Glassdoor | Google | Bayt | Naukri | BdJobs

  const AllSites: seq<Site> := [LinkedIn, Indeed, ZipRecruiter, Glassdoor, Google, Bayt, Naukri, BdJobs]

  /** The enum member name, as `Site[name]` looks it up. */
  function SiteName(s: Site): string {
    match s
    case LinkedIn => "LINKEDIN"
    case Indeed => "INDEED"
    case ZipRecruiter => "ZIP_RECRUITER"
    case Glassdoor => "GLASSDOOR"
    case Google => "GOOGLE"
    case Bayt => "BAYT"
    case Naukri => "NAUKRI"
    case BdJobs => "BDJOBS"
  }

  /** The enum value, written into the `site` column. */
  function SiteValue(s: Site): string {
    match s
    case LinkedIn => "linkedin"
    case Indeed => "indeed"
    case ZipRecruiter => "zip_recruiter"
    case Glassdoor => "glassdoor"
    case Google => "google"
    case Bayt => "bayt"
    case Naukri => "naukri"
    case BdJobs => "bdjobs"
  }

  lemma SiteValueInjective(a: Site, b: Site)
    requires SiteValue(a) == SiteValue(b)
    ensures a == b
  {
  }

  /** Countries the core distinguishes; every other country is `OtherCountry`. */
  datatype Country = Usa | Canada | OtherCountry(name: string)

  /** Compensation intervals and their string values. */
  datatype CompensationInterval = Yearly | Monthly | Weekly | Daily | Hourly

  function IntervalValue(i: CompensationInterval): string {
    match i
    case Yearly => "yearly"
    case Monthly => "monthly"
    case Weekly => "weekly"
    case Daily => "daily"
    case Hourly => "hourly"
  }

  /** Coercion of a string to the interval enum, as the record validation does:
      a string that is no interval's value is rejected. */
  function IntervalFromValue(v: string): (r: Option<CompensationInterval>)
    ensures r.Some? ==> IntervalValue(r.value) == v
    ensures r.None? ==> forall i: CompensationInterval :: IntervalValue(i) != v
  {
    if v == "yearly" then Some(Yearly)
    else if v == "monthly" then Some(Monthly)
    else if v == "weekly" then Some(Weekly)
    else if v == "daily" then Some(Daily)
    else if v == "hourly" then Some(Hourly)
    else None
  }

  datatype Compensation = Compensation(
    interval: Option<CompensationInterval>,
    minAmount: Option<int>,
    maxAmount: Option<int>,
    currency: Option<string>)

  /** A location's country is either a free-text name or a country enum. */
  datatype LocationCountry = CountryText(text: string) | CountryEnum(country: Country)

  datatype Location = Location(city: Option<string>, state: Option<string>, country: Option<LocationCountry>)

  /** Date values are day numbers; `today - n` is the date n days before today. */
  type Date = int

  /** Column values of a job record once it is turned into a dictionary. */
  datatype Cell =
    | CStr(s: string)
    | CInt(i: int)
    | CBool(b: bool)
    | CDate(d: Date)
    | CJobTypes(types: seq<JobType>)
    | CStrs(items: seq<string>)
    | CLocation(loc: Location)
    | CCompensation(comp: Compensation)

  /** The dictionary keys a job record can carry: the record's own fields,
      the columns the merger adds, and the output columns. */
  datatype Column =
    | Id | SiteCol | JobUrl | JobUrlDirect | Title | Company | LocationCol | DatePosted
    | JobTypeCol | SalarySource | Interval | MinAmount | MaxAmount | Currency | IsRemote
    | JobLevel | JobFunction | ListingType | Emails | Description | CompanyIndustry
    | CompanyUrl | CompanyLogo | CompanyUrlDirect | CompanyAddresses | CompanyNumEmployees
    | CompanyRevenue | CompanyDescription | Skills | ExperienceRange | CompanyRating
    | CompanyReviewsCount | VacancyCount | WorkFromHomeType | CompanyName | CompensationCol

  /** The key string each column stands for. */
  function ColumnName(c: Column): string {
    match c
    case Id => "id"
    case SiteCol => "site"
    case JobUrl => "job_url"
    case JobUrlDirect => "job_url_direct"
    case Title => "title"
    case Company => "company"
    case LocationCol => "location"
    case DatePosted => "date_posted"
    case JobTypeCol => "job_type"
    case SalarySource => "salary_source"
    case Interval => "interval"
    case MinAmount => "min_amount"
    case MaxAmount => "max_amount"
    case Currency => "currency"
    case IsRemote => "is_remote"
    case JobLevel => "job_level"
    case JobFunction => "job_function"
    case ListingType => "listing_type"
    case Emails => "emails"
    case Description => "description"
    case CompanyIndustry => "company_industry"
    case CompanyUrl => "company_url"
    case CompanyLogo => "company_logo"
    case CompanyUrlDirect => "company_url_direct"
    case CompanyAddresses => "company_addresses"
    case CompanyNumEmployees => "company_num_employees"
    case CompanyRevenue => "company_revenue"
    case CompanyDescription => "company_description"
    case Skills => "skills"
    case ExperienceRange => "experience_range"
    case CompanyRating => "company_rating"
    case CompanyReviewsCount => "company_reviews_count"
    case VacancyCount => "vacancy_count"
    case WorkFromHomeType => "work_from_home_type"
    case CompanyName => "company_name"
    case CompensationCol => "compensation"
  }

  /** A row (a job record as a dictionary): column to value, `None` for null. */
  type Row = map<Column, Option<Cell>>

  /** Python truthiness of a dictionary value. */
  predicate Truthy(v: Option<Cell>) {
    match v
    case None => false
    case Some(c) =>
      match c
      case CStr(s) => s != ""
      case CInt(i) => i != 0
      case CBool(b) => b
      case CDate(_) => true
      case CJobTypes(ts) => ts != []
      case CStrs(xs) => xs != []
      case CLocation(_) => true
      case CCompensation(_) => true
  }

  /** Python truthiness of an optional string. */
  predicate TruthyStr(s: Option<string>) {
    s.Some? && s.value != ""
  }

  /** Record fields that only scrapers outside this model fill in; the merger
      passes them through. */
  const OtherFields: set<Column> := {
    JobLevel, JobFunction, CompanyIndustry, CompanyUrlDirect, CompanyAddresses,
    CompanyNumEmployees, CompanyRevenue, CompanyDescription, ExperienceRange,
    CompanyRating, CompanyReviewsCount, VacancyCount, WorkFromHomeType}

  /** One normalised job listing. */
  datatype JobPost = JobPost(
    id: string,
    title: string,
    companyName: Option<string>,
    jobUrl: Option<string>,
    jobUrlDirect: Option<string>,
    location: Option<Location>,
    description: Option<string>,
    companyUrl: Option<string>,
    companyLogo: Option<string>,
    jobType: Option<seq<JobType>>,
    compensation: Option<Compensation>,
    datePosted: Option<Date>,
    emails: Option<seq<string>>,
    isRemote: Option<bool>,
    listingType: Option<string>,
    skills: Option<seq<string>>,
    others: map<Column, Cell>)

  /** A record with every optional field left at its default. */
  function NewPost(id: string, title: string, jobUrl: Option<string>): (p: JobPost)
    ensures p.id == id && p.title == title && p.jobUrl == jobUrl
  {
    JobPost(id, title, None, jobUrl, None, None, None, None, None, None, None, None, None,
            None, None, None, map[])
  }

  /** What the scrapers and the merger take from the environment: the date of
      today, the email scanner (a regular-expression search this model leaves
      uninterpreted), the HTML-to-Markdown converter and the record's
      `display_location` rendering. */
  datatype Env = Env(
    today: Date,
    scanEmails: string -> seq<string>,
    toMarkdown: string -> string,
    displayLocation: Location -> string)

  /** `extract_emails_from_text`: `None` on falsy input, otherwise the scanner's findings. */
  function ExtractEmails(env: Env, text: Option<string>): (r: Option<seq<string>>)
    ensures (text.None? || text == Some("")) <==> r.None?
  {
    if text.None? || text.value == "" then None else Some(env.scanEmails(text.value))
  }

  datatype DescriptionFormat = Markdown | Html | Plain

  /** The request shared by every scraper of one invocation. Scrapers may
      clamp `resultsWanted` in place; every other field is fixed. */
  class ScraperInput {
    const siteType: seq<Site>
    const country: Country
    const searchTerm: Option<string>
    const googleSearchTerm: Option<string>
    const location: Option<string>
    const isRemote: bool
    const jobType: Option<JobType>
    const easyApply: bool
    const descriptionFormat: DescriptionFormat
    const offset: nat
    const hoursOld: Option<int>
    var resultsWanted: nat

    constructor (siteType: seq<Site>, country: Country, searchTerm: Option<string>,
                 googleSearchTerm: Option<string>, location: Option<string>, isRemote: bool,
                 jobType: Option<JobType>, easyApply: bool, descriptionFormat: DescriptionFormat,
                 resultsWanted: nat, offset: nat, hoursOld: Option<int>)
      ensures this.siteType == siteType && this.country == country
      ensures this.searchTerm == searchTerm && this.googleSearchTerm == googleSearchTerm
      ensures this.location == location && this.isRemote == isRemote
      ensures this.jobType == jobType && this.easyApply == easyApply
      ensures this.descriptionFormat == descriptionFormat
      ensures this.resultsWanted == resultsWanted && this.offset == offset
      ensures this.hoursOld == hoursOld
    {
      this.siteType := siteType;
      this.country := country;
      this.searchTerm := searchTerm;
      this.googleSearchTerm := googleSearchTerm;
      this.location := location;
      this.isRemote := isRemote;
      this.jobType := jobType;
      this.easyApply := easyApply;
      this.descriptionFormat := descriptionFormat;
      this.resultsWanted := resultsWanted;
      this.offset := offset;
      this.hoursOld := hoursOld;
    }
  }

  /** The job URLs of a list of records, in order. */
  function Urls(jobs: seq<JobPost>): (us: seq<Option<string>>)
    ensures |us| == |jobs|
    ensures forall k :: 0 <= k < |jobs| ==> us[k] == jobs[k].jobUrl
  {
    seq(|jobs|, k requires 0 <= k < |jobs| => jobs[k].jobUrl)
  }

  /** No two records of the list share a job URL. */
  predicate DistinctUrls(jobs: seq<JobPost>) {
    forall i, j :: 0 <= i < j < |jobs| ==> jobs[i].jobUrl != jobs[j].jobUrl
  }

  /** The ceiling Google and Glassdoor put on `results_wanted`. */
  const MaxResults: nat := 900

  /** `min(900, results_wanted)` */
  function ClampWanted(n: nat): (m: nat)
    ensures m <= MaxResults && m <= n
    ensures n <= MaxResults ==> m == n
    ensures n > MaxResults ==> m == MaxResults
  {
    if n < MaxResults then n else MaxResults
  }

  /** Python's `xs[lo:hi]` for non-negative bounds: indices past the end
      are clipped. */
  function PySlice<T>(xs: seq<T>, lo: nat, hi: nat): (r: seq<T>)
    ensures |r| <= hi - lo || (hi < lo && r == [])
    ensures lo <= hi <= |xs| ==> r == xs[lo..hi]
    ensures lo >= |xs| ==> r == []
    ensures lo <= |xs| <= hi ==> r == xs[lo..]
  {
    var b := if hi < |xs| then hi else |xs|;
    if lo < b then xs[lo..b] else []
  }

  /** Python's `xs[:n]` */
  function Prefix<T>(xs: seq<T>, n: nat): (r: seq<T>)
    ensures |r| <= n && |r| <= |xs|
    ensures n <= |xs| ==> r == xs[..n]
    ensures n >= |xs| ==> r == xs
  {
    if n <= |xs| then xs[..n] else xs
  }

  /** Slices of a list with distinct URLs keep them distinct. */
  lemma DistinctUrlsSlice(jobs: seq<JobPost>, lo: nat, hi: nat)
    requires DistinctUrls(jobs)
    ensures DistinctUrls(PySlice(jobs, lo, hi))
    ensures DistinctUrls(Prefix(jobs, hi))
  {
    var b := if hi < |jobs| then hi else |jobs|;
    if lo < b {
      var r := jobs[lo..b];
      forall i, j | 0 <= i < j < |r|
        ensures r[i].jobUrl != r[j].jobUrl
      {
        assert r[i] == jobs[lo + i] && r[j] == jobs[lo + j];
      }
    }
  }

  /** Every URL of `jobs` is in `seen`. */
  predicate UrlsWithin(jobs: seq<JobPost>, seen: set<Option<string>>) {
    forall k :: 0 <= k < |jobs| ==> jobs[k].jobUrl in seen
  }

  /** Cutting a list to its first `n` records keeps its URLs distinct and seen. */
  lemma PrefixKeepsUrls(jobs: seq<JobPost>, n: nat, seen: set<Option<string>>)
    requires DistinctUrls(jobs) && UrlsWithin(jobs, seen)
    ensures DistinctUrls(Prefix(jobs, n)) && UrlsWithin(Prefix(jobs, n), seen)
  {
    DistinctUrlsSlice(jobs, 0, n);
    var r := Prefix(jobs, n);
    assert forall k :: 0 <= k < |r| ==> r[k] == jobs[k];
  }

  /** Python's slice of a list keeps its URLs distinct and seen. */
  lemma SliceKeepsUrls(jobs: seq<JobPost>, lo: nat, hi: nat, seen: set<Option<string>>)
    requires DistinctUrls(jobs) && UrlsWithin(jobs, seen)
    ensures DistinctUrls(PySlice(jobs, lo, hi)) && UrlsWithin(PySlice(jobs, lo, hi), seen)
  {
    DistinctUrlsSlice(jobs, lo, hi);
    var r := PySlice(jobs, lo, hi);
    forall k | 0 <= k < |r|
      ensures r[k].jobUrl in seen
    {
      assert r[k] == jobs[lo + k];
    }
  }

  /** A batch of records a dedup step released: pairwise distinct URLs, none
      seen before, each recorded as seen now, and nothing else recorded. */
  predicate FreshBatch(jobs: seq<JobPost>, before: set<Option<string>>, after: set<Option<string>>) {
    && DistinctUrls(jobs)
    && (forall k :: 0 <= k < |jobs| ==> jobs[k].jobUrl !in before)
    && UrlsWithin(jobs, after)
    && before <= after
    && |after| == |before| + |jobs|
  }

  /** A batch stays fresh when one more record with a URL not seen so far
      is released and its URL recorded. */
  lemma FreshBatchSnoc(jobs: seq<JobPost>, p: JobPost, before: set<Option<string>>, mid: set<Option<string>>)
    requires FreshBatch(jobs, before, mid) && p.jobUrl !in mid
    ensures FreshBatch(jobs + [p], before, mid + {p.jobUrl})
  {
    var all := jobs + [p];
    forall i, j | 0 <= i < j < |all|
      ensures all[i].jobUrl != all[j].jobUrl
    {
      assert all[i] == jobs[i];
      if j < |jobs| {
        assert all[j] == jobs[j];
      }
    }
    forall k | 0 <= k < |all|
      ensures all[k].jobUrl !in before && all[k].jobUrl in mid + {p.jobUrl}
    {
      if k < |jobs| {
        assert all[k] == jobs[k];
      }
    }
  }

  /** Appending a fresh batch to a list whose URLs were all seen keeps the
      URLs distinct and seen. */
  lemma AppendFreshBatch(list: seq<JobPost>, jobs: seq<JobPost>, before: set<Option<string>>, after: set<Option<string>>)
    requires DistinctUrls(list) && UrlsWithin(list, before)
    requires FreshBatch(jobs, before, after)
    ensures DistinctUrls(list + jobs) && UrlsWithin(list + jobs, after)
  {
    var all := list + jobs;
    forall i, j | 0 <= i < j < |all|
      ensures all[i].jobUrl != all[j].jobUrl
    {
      if j < |list| {
        assert all[i] == list[i] && all[j] == list[j];
      } else if i < |list| {
        assert all[i] == list[i] && all[j] == jobs[j - |list|];
      } else {
        assert all[i] == jobs[i - |list|] && all[j] == jobs[j - |list|];
      }
    }
    forall k | 0 <= k < |all|
      ensures all[k].jobUrl in after
    {
      if k < |list| {
        assert all[k] == list[k];
      } else {
        assert all[k] == jobs[k - |list|];
      }
    }
  }
}
