/** `scrape_jobs`: resolving the requested sites, collecting what each
    site's scraper returned, flattening every record into a row, forcing the
    fixed output columns, and the final order by site and date. */
module Merge {
  import opened Wrappers
  import opened Text
  import opened Model
  import opened Salary
  import opened SalaryProperties
  import opened Normalise
  import opened Columns
  import opened Output

  // ---------------------------------------------------------------------
  // get_site_type

  /** An element of a `site_name` list: a name, or a site member. */
  datatype SiteItem = ItemName(name: string) | ItemSite(site: Site)

  /** The `site_name` argument. `AnySite` stands for `None` and for any value
      that is neither a string, a site member nor a list. */
  datatype SiteArg = AnySite | NameArg(name: string) | SiteMember(site: Site) | ItemList(items: seq<SiteItem>)

  /** One list element: a name is looked up, a site is kept. */
  function ResolveItem(item: SiteItem): (r: Result<Site>)
    ensures item.ItemSite? ==> r == Ok(item.site)
    ensures item.ItemName? ==> r == MapStrToSite(item.name)
  {
    match item
    case ItemName(n) => MapStrToSite(n)
    case ItemSite(s) => Ok(s)
  }

  /** The list comprehension over a `site_name` list: every element resolved,
      in order; the first name that is no site's raises. */
  function ResolveItems(items: seq<SiteItem>): (r: Result<seq<Site>>)
    ensures r.Ok? <==> forall k :: 0 <= k < |items| ==> ResolveItem(items[k]).Ok?
    ensures r.Ok? ==> |r.value| == |items|
    ensures r.Ok? ==> forall k :: 0 <= k < |items| ==> r.value[k] == ResolveItem(items[k]).value
    ensures r.Err? ==> exists k :: 0 <= k < |items| && ResolveItem(items[k]) == Err(r.error)
                                   && forall j :: 0 <= j < k ==> ResolveItem(items[j]).Ok?
    decreases |items|
  {
    if items == [] then Ok([])
    else
      match ResolveItem(items[0])
      case Err(e) => Err(e)
      case Ok(s) =>
        var rest := ResolveItems(items[1..]);
        assert forall k :: 1 <= k < |items| ==> items[k] == items[1..][k - 1];
        match rest
        case Err(e) =>
          (var k :| 0 <= k < |items[1..]| && ResolveItem(items[1..][k]) == Err(e)
                    && forall j :: 0 <= j < k ==> ResolveItem(items[1..][j]).Ok?;
           assert ResolveItem(items[k + 1]) == Err(e);
           Err(e))
        case Ok(sites) => Ok([s] + sites)
  }

  /** `get_site_type()`: every site for `None`, one site for a name or a
      member, and a list resolved element by element. Only a name can make it
      raise. */
  function GetSiteType(arg: SiteArg): (r: Result<seq<Site>>)
    ensures arg.AnySite? ==> r == Ok(AllSites)
    ensures arg.SiteMember? ==> r == Ok([arg.site])
    ensures arg.NameArg? ==> (r.Ok? <==> MapStrToSite(arg.name).Ok?)
    ensures arg.NameArg? && r.Ok? ==> r.value == [MapStrToSite(arg.name).value]
    ensures arg.ItemList? ==> r == ResolveItems(arg.items)
  {
    match arg
    case AnySite => Ok(AllSites)
    case NameArg(name) =>
      (match MapStrToSite(name)
       case Ok(site) => Ok([site])
       case Err(e) => Err(e))
    case SiteMember(site) => Ok([site])
    case ItemList(items) => ResolveItems(items)
  }

  /** A list of the sites' own value strings selects exactly those sites, in
      the order given. */
  lemma SiteValuesSelectSites(sites: seq<Site>)
    ensures GetSiteType(ItemList(seq(|sites|, k requires 0 <= k < |sites| => ItemName(SiteValue(sites[k]))))) == Ok(sites)
  {
    var items := seq(|sites|, k requires 0 <= k < |sites| => ItemName(SiteValue(sites[k])));
    forall k | 0 <= k < |items|
      ensures ResolveItem(items[k]) == Ok(sites[k])
    {
      MapStrToSiteValue(sites[k]);
    }
    assert ResolveItems(items).value == sites;
  }

  // ---------------------------------------------------------------------
  // The fan-in into site_to_jobs_dict

  /** What each site's scraper does on this invocation's input: returns its
      records, or raises. */
  type Outcomes = Site -> Result<seq<JobPost>>

  /** `site_to_jobs_dict` once the outcomes of `sites` have been collected in
      that order: a scraper that returned stores its records under its site,
      one that raised is only logged. */
  function Collected(sites: seq<Site>, scrape: Outcomes): map<Site, seq<JobPost>> {
    if sites == [] then map[]
    else
      var prev := Collected(sites[..|sites| - 1], scrape);
      var s := sites[|sites| - 1];
      if scrape(s).Ok? then prev[s := scrape(s).value] else prev
  }

  /** The key order of that dictionary: a key is placed when it is first
      stored, and storing it again keeps its place. */
  function Succeeded(sites: seq<Site>, scrape: Outcomes): seq<Site> {
    if sites == [] then []
    else
      var init := sites[..|sites| - 1];
      var s := sites[|sites| - 1];
      if scrape(s).Ok? && s !in Collected(init, scrape) then Succeeded(init, scrape) + [s]
      else Succeeded(init, scrape)
  }

  /** The dictionary has an entry exactly for the listed sites whose scraper
      returned, holding what it returned; a site that raised leaves no entry
      and does not keep the others out. */
  lemma {:induction false} CollectedSpec(sites: seq<Site>, scrape: Outcomes)
    ensures forall s :: s in Collected(sites, scrape) <==> s in sites && scrape(s).Ok?
    ensures forall s :: s in Collected(sites, scrape) ==> Collected(sites, scrape)[s] == scrape(s).value
    decreases |sites|
  {
    if sites != [] {
      var init := sites[..|sites| - 1];
      CollectedSpec(init, scrape);
      assert sites == init + [sites[|sites| - 1]];
    }
  }

  /** The key order lists every key of the dictionary once. */
  lemma {:induction false} SucceededSpec(sites: seq<Site>, scrape: Outcomes)
    ensures forall s :: s in Succeeded(sites, scrape) <==> s in Collected(sites, scrape)
    ensures forall i, j :: 0 <= i < j < |Succeeded(sites, scrape)| ==> Succeeded(sites, scrape)[i] != Succeeded(sites, scrape)[j]
    decreases |sites|
  {
    if sites != [] {
      var init := sites[..|sites| - 1];
      SucceededSpec(init, scrape);
    }
  }

  /** The `as_completed` loop, with the scrapers run one after another in
      list order. */
  method CollectResults(sites: seq<Site>, scrape: Outcomes) returns (order: seq<Site>, jobs: map<Site, seq<JobPost>>)
    ensures jobs == Collected(sites, scrape) && order == Succeeded(sites, scrape)
    ensures forall s :: s in jobs <==> s in sites && scrape(s).Ok?
    ensures forall s :: s in order <==> s in jobs
  {
    order := [];
    jobs := map[];
    var k := 0;
    while k < |sites|
      invariant 0 <= k <= |sites|
      invariant jobs == Collected(sites[..k], scrape)
      invariant order == Succeeded(sites[..k], scrape)
    {
      var site := sites[k];
      assert sites[..k + 1][..k] == sites[..k];
      var outcome := scrape(site);
      if outcome.Ok? {
        if site !in jobs {
          order := order + [site];
        }
        jobs := jobs[site := outcome.value];
      }
      k := k + 1;
    }
    assert sites[..k] == sites;
    CollectedSpec(sites, scrape);
    SucceededSpec(sites, scrape);
  }

  // ---------------------------------------------------------------------
  // job.dict()

  function StrCell(o: Option<string>): Option<Cell> {
    match o
    case None => None
    case Some(x) => Some(CStr(x))
  }

  function IntCell(o: Option<int>): Option<Cell> {
    match o
    case None => None
    case Some(x) => Some(CInt(x))
  }

  function StrsCell(o: Option<seq<string>>): Option<Cell> {
    match o
    case None => None
    case Some(xs) => Some(CStrs(xs))
  }

  /** The fields of a job record, as dictionary keys. */
  const RecordFields: set<Column> :=
    {Id, Title, CompanyName, JobUrl, JobUrlDirect, LocationCol, Description, CompanyUrl,
     CompanyLogo, JobTypeCol, CompensationCol, DatePosted, Emails, IsRemote, ListingType,
     Skills} + OtherFields

  /** The value `job.dict()` holds for column `c`. */
  function FieldCell(p: JobPost, c: Column): Option<Cell> {
    match c
    case Id => Some(CStr(p.id))
    case Title => Some(CStr(p.title))
    case CompanyName => StrCell(p.companyName)
    case JobUrl => StrCell(p.jobUrl)
    case JobUrlDirect => StrCell(p.jobUrlDirect)
    case LocationCol => if p.location.Some? then Some(CLocation(p.location.value)) else None
    case Description => StrCell(p.description)
    case CompanyUrl => StrCell(p.companyUrl)
    case CompanyLogo => StrCell(p.companyLogo)
    case JobTypeCol => if p.jobType.Some? then Some(CJobTypes(p.jobType.value)) else None
    case CompensationCol => if p.compensation.Some? then Some(CCompensation(p.compensation.value)) else None
    case DatePosted => if p.datePosted.Some? then Some(CDate(p.datePosted.value)) else None
    case Emails => StrsCell(p.emails)
    case IsRemote => if p.isRemote.Some? then Some(CBool(p.isRemote.value)) else None
    case ListingType => StrCell(p.listingType)
    case Skills => StrsCell(p.skills)
    case _ => if c in p.others then Some(p.others[c]) else None
  }

  /** The record's fields in declaration order. */
  const FieldOrder: seq<Column> :=
    [Id, Title, CompanyName, JobUrl, JobUrlDirect, LocationCol, Description, CompanyUrl,
     CompanyLogo, JobTypeCol, CompensationCol, DatePosted, Emails, IsRemote, ListingType,
     Skills, JobLevel, JobFunction, CompanyIndustry, CompanyUrlDirect, CompanyAddresses,
     CompanyNumEmployees, CompanyRevenue, CompanyDescription, ExperienceRange,
     CompanyRating, CompanyReviewsCount, VacancyCount, WorkFromHomeType]

  /** The dictionary of the listed fields, built field by field. */
  function Fields(cols: seq<Column>, p: JobPost): Row {
    if cols == [] then map[]
    else Fields(cols[..|cols| - 1], p)[cols[|cols| - 1] := FieldCell(p, cols[|cols| - 1])]
  }

  /** Each listed field sits in the dictionary under its own key, and
      nothing else does. */
  lemma {:induction false} FieldsSpec(cols: seq<Column>, p: JobPost)
    ensures forall c :: c in Fields(cols, p) <==> c in cols
    ensures forall c :: c in cols ==> Fields(cols, p)[c] == FieldCell(p, c)
  {
    if cols != [] {
      FieldsSpec(cols[..|cols| - 1], p);
      assert forall c :: c in cols <==> c in cols[..|cols| - 1] || c == cols[|cols| - 1];
    }
  }

  /** `job.dict()`: one entry per field of the record. */
  function PostRow(p: JobPost): Row {
    Fields(FieldOrder, p)
  }

  /** Each field of the record sits in `job.dict()` under its own key. */
  lemma PostRowCell(p: JobPost, c: Column)
    requires c in RecordFields
    ensures c in PostRow(p) && PostRow(p)[c] == FieldCell(p, c)
  {
    FieldsSpec(FieldOrder, p);
    FieldOrderFields(c);
  }

  /** The declaration order lists exactly the record's fields. */
  lemma FieldOrderFields(c: Column)
    ensures c in FieldOrder <==> c in RecordFields
  {
  }

  /** The compensation `job.dict()` holds is the record's. */
  lemma PostRowComp(p: JobPost)
    ensures CompOf(PostRow(p)) == p.compensation
  {
    PostRowCell(p, CompensationCol);
    CompOfField(PostRow(p), p);
  }

  lemma CompOfField(r: Row, p: JobPost)
    requires CompensationCol in r && r[CompensationCol] == FieldCell(p, CompensationCol)
    ensures CompOf(r) == p.compensation
  {
  }

  /** A record has no salary fields of its own: those live in its
      compensation. */
  lemma RecordFieldsNoSalary()
    ensures SalaryColumns !! RecordFields
  {
  }

  /** `job.dict()` has exactly the record's fields as keys. */
  lemma PostRowKeys(p: JobPost)
    ensures PostRow(p).Keys == RecordFields
    ensures LabelKeys <= PostRow(p).Keys
    ensures SalaryColumns !! PostRow(p).Keys
  {
    FieldsSpec(FieldOrder, p);
    forall c
      ensures c in PostRow(p) <==> c in RecordFields
    {
      FieldOrderFields(c);
    }
    RecordFieldsNoSalary();
  }

  // ---------------------------------------------------------------------
  // Per-record flattening

  /** The canonical (first) spelling of each job type. */
  function TypeNames(ts: seq<JobType>): (ns: seq<string>)
    ensures |ns| == |ts|
    ensures forall k :: 0 <= k < |ts| ==> ns[k] == JobTypeValues(ts[k])[0]
  {
    seq(|ts|, k requires 0 <= k < |ts| => JobTypeValues(ts[k])[0])
  }

  /** `", ".join(t.value[0] for t in job_type)` when there are types, else null. */
  function JobTypesText(v: Option<Cell>): Option<Cell> {
    match v
    case Some(CJobTypes(ts)) => if ts == [] then None else Some(CStr(Join(", ", TypeNames(ts))))
    case _ => None
  }

  /** `", ".join(xs)` when the list is non-empty, else null. */
  function JoinedText(v: Option<Cell>): Option<Cell> {
    match v
    case Some(CStrs(xs)) => if xs == [] then None else Some(CStr(Join(", ", xs)))
    case _ => None
  }

  /** `Location(**location).display_location()` */
  function Displayed(env: Env, v: Option<Cell>): Option<Cell> {
    match v
    case Some(CLocation(l)) => Some(CStr(env.displayLocation(l)))
    case _ => v
  }

  /** The columns the first flattening steps write. */
  const LabelColumns: set<Column> := {SiteCol, Company, JobTypeCol, Emails, LocationCol}

  /** The keys the first flattening steps read with `job_data[...]`. */
  const LabelKeys: set<Column> := {JobUrl, CompanyName, JobTypeCol, Emails, LocationCol}

  /** Site, company, job types, emails and location. */
  function Labelled(r: Row, site: Site, env: Env): Row
    requires LabelKeys <= r.Keys
  {
    var r1 := r[SiteCol := Some(CStr(SiteValue(site)))];
    var r2 := r1[Company := r1[CompanyName]];
    var r3 := r2[JobTypeCol := JobTypesText(r2[JobTypeCol])];
    var r4 := r3[Emails := JoinedText(r3[Emails])];
    if Truthy(r4[LocationCol]) then r4[LocationCol := Displayed(env, r4[LocationCol])] else r4
  }

  /** The columns the compensation step writes. */
  const SalaryColumns: set<Column> := {Interval, MinAmount, MaxAmount, Currency, SalarySource}

  /** The `salary_source` values of the two salary branches. */
  const DirectData: string := "direct_data"
  const FromDescription: string := "description"

  /** `job_data.get("compensation")` when it is a compensation dictionary. */
  function CompOf(r: Row): Option<Compensation> {
    if CompensationCol !in r then None
    else
      match r[CompensationCol]
      case Some(CCompensation(c)) => Some(c)
      case _ => None
  }

  function IntervalCell(i: Option<CompensationInterval>): Option<Cell> {
    match i
    case None => None
    case Some(v) => Some(CStr(IntervalValue(v)))
  }

  /** The string a cell holds, if it holds one. */
  function StrOf(v: Option<Cell>): Option<string> {
    match v
    case Some(CStr(s)) => Some(s)
    case _ => None
  }

  /** The guard of `convert_to_annual` in the direct-data branch. */
  predicate AnnualiseWanted(r: Row, enforceAnnual: bool)
    requires Interval in r && MinAmount in r && MaxAmount in r
  {
    && enforceAnnual
    && Truthy(r[Interval]) && r[Interval] != Some(CStr("yearly"))
    && Truthy(r[MinAmount]) && Truthy(r[MaxAmount])
  }

  /** The compensation dictionary copied into the row, then possibly
      annualised. */
  function DirectSalary(r: Row, c: Compensation, enforceAnnual: bool): Row {
    var r1 := r[Interval := IntervalCell(c.interval)][MinAmount := IntCell(c.minAmount)]
               [MaxAmount := IntCell(c.maxAmount)][Currency := StrCell(c.currency)]
               [SalarySource := Some(CStr(DirectData))];
    if AnnualiseWanted(r1, enforceAnnual) then Annualised(r1) else r1
  }

  /** The four values `extract_salary` returns, as cells. */
  function SalaryCells(s: Option<SalaryRange>): (Option<Cell>, Option<Cell>, Option<Cell>, Option<Cell>) {
    match s
    case None => (None, None, None, None)
    case Some(v) => (Some(CStr(IntervalValue(v.interval))), Some(CInt(v.minAmount)), Some(CInt(v.maxAmount)), Some(CStr(v.currency)))
  }

  /** The salary found in the description. */
  function DescriptionSalary(r: Row, enforceAnnual: bool): Row {
    var (interval, minAmount, maxAmount, currency) := SalaryCells(ExtractSalary(StrOf(Get(r, Description)), enforceAnnual));
    r[Interval := interval][MinAmount := minAmount][MaxAmount := maxAmount][Currency := currency]
     [SalarySource := Some(CStr(FromDescription))]
  }

  /** The compensation step: direct data when there is a compensation
      dictionary, otherwise the description for the USA and nothing else. */
  function WithSalary(r: Row, country: Country, enforceAnnual: bool): Row {
    match CompOf(r)
    case Some(c) => DirectSalary(r, c, enforceAnnual)
    case None => if country == Usa then DescriptionSalary(r, enforceAnnual) else r
  }

  /** `salary_source` is kept only next to a truthy `min_amount` (both
      salary branches store the two entries together). */
  function SourceChecked(r: Row): Row {
    r[SalarySource := if MinAmount in r && Truthy(r[MinAmount]) then Get(r, SalarySource) else None]
  }

  /** The skills join and the Naukri-specific passthrough. */
  function WithNaukri(r: Row): Row {
    var r1 := r[Skills := JoinedText(Get(r, Skills))];
    var r2 := r1[ExperienceRange := Get(r1, ExperienceRange)];
    var r3 := r2[CompanyRating := Get(r2, CompanyRating)];
    var r4 := r3[CompanyReviewsCount := Get(r3, CompanyReviewsCount)];
    var r5 := r4[VacancyCount := Get(r4, VacancyCount)];
    r5[WorkFromHomeType := Get(r5, WorkFromHomeType)]
  }

  /** The row the loop body of `scrape_jobs` builds from a record's
      dictionary. */
  function FlatRow(fields: Row, site: Site, country: Country, enforceAnnual: bool, env: Env): Row
    requires LabelKeys <= fields.Keys
  {
    var labelled := Labelled(fields, site, env);
    var salaried := WithSalary(labelled, country, enforceAnnual);
    WithNaukri(SourceChecked(salaried))
  }

  /** Lines that label the record: site, company, job types, emails and
      location, overwritten in place. */
  method LabelRecord(rec: Record, site: Site, env: Env)
    requires LabelKeys <= rec.data.Keys
    modifies rec
    ensures rec.data == Labelled(old(rec.data), site, env)
  {
    rec.data := rec.data[SiteCol := Some(CStr(SiteValue(site)))];
    rec.data := rec.data[Company := rec.data[CompanyName]];
    rec.data := rec.data[JobTypeCol := JobTypesText(rec.data[JobTypeCol])];
    rec.data := rec.data[Emails := JoinedText(rec.data[Emails])];
    if Truthy(rec.data[LocationCol]) {
      rec.data := rec.data[LocationCol := Displayed(env, rec.data[LocationCol])];
    }
  }

  /** The direct-data branch: the compensation dictionary copied in, then
      `convert_to_annual` when asked for and the guard holds. */
  method CopyCompensation(rec: Record, c: Compensation, enforceAnnual: bool)
    modifies rec
    ensures rec.data == DirectSalary(old(rec.data), c, enforceAnnual)
  {
    rec.data := rec.data[Interval := IntervalCell(c.interval)];
    rec.data := rec.data[MinAmount := IntCell(c.minAmount)];
    rec.data := rec.data[MaxAmount := IntCell(c.maxAmount)];
    rec.data := rec.data[Currency := StrCell(c.currency)];
    rec.data := rec.data[SalarySource := Some(CStr(DirectData))];
    if AnnualiseWanted(rec.data, enforceAnnual) {
      ConvertToAnnual(rec);
    }
  }

  /** The compensation step, in place. */
  method AddSalary(rec: Record, country: Country, enforceAnnual: bool)
    modifies rec
    ensures rec.data == WithSalary(old(rec.data), country, enforceAnnual)
  {
    var comp := CompOf(rec.data);
    if comp.Some? {
      CopyCompensation(rec, comp.value, enforceAnnual);
    } else if country == Usa {
      var (interval, minAmount, maxAmount, currency) := SalaryCells(ExtractSalary(StrOf(Get(rec.data, Description)), enforceAnnual));
      rec.data := rec.data[Interval := interval][MinAmount := minAmount][MaxAmount := maxAmount][Currency := currency];
      rec.data := rec.data[SalarySource := Some(CStr(FromDescription))];
    }
  }

  /** The `salary_source` check, the skills join and the Naukri passthrough,
      in place. */
  method FinishRecord(rec: Record)
    modifies rec
    ensures rec.data == WithNaukri(SourceChecked(old(rec.data)))
  {
    rec.data := rec.data[SalarySource := if MinAmount in rec.data && Truthy(rec.data[MinAmount]) then Get(rec.data, SalarySource) else None];
    rec.data := rec.data[Skills := JoinedText(Get(rec.data, Skills))];
    rec.data := rec.data[ExperienceRange := Get(rec.data, ExperienceRange)];
    rec.data := rec.data[CompanyRating := Get(rec.data, CompanyRating)];
    rec.data := rec.data[CompanyReviewsCount := Get(rec.data, CompanyReviewsCount)];
    rec.data := rec.data[VacancyCount := Get(rec.data, VacancyCount)];
    rec.data := rec.data[WorkFromHomeType := Get(rec.data, WorkFromHomeType)];
  }

  /** The row built for one record. */
  function FlatPost(p: JobPost, site: Site, country: Country, enforceAnnual: bool, env: Env): Row {
    PostRowKeys(p);
    FlatRow(PostRow(p), site, country, enforceAnnual, env)
  }

  /** One pass of the inner loop: `job_data = job.dict()`, then overwritten
      stage by stage. */
  method FlattenJob(job: JobPost, site: Site, country: Country, enforceAnnual: bool, env: Env) returns (row: Row)
    ensures row == FlatPost(job, site, country, enforceAnnual, env)
  {
    PostRowKeys(job);
    var rec := new Record(PostRow(job));
    LabelRecord(rec, site, env);
    AddSalary(rec, country, enforceAnnual);
    FinishRecord(rec);
    row := rec.data;
  }

  // ---------------------------------------------------------------------
  // What a flattened row holds

  predicate NonZero(o: Option<int>) {
    o.Some? && o.value != 0
  }

  /** What the labelling step writes. */
  lemma LabelledCells(r: Row, site: Site, env: Env)
    requires LabelKeys <= r.Keys
    ensures var l := Labelled(r, site, env);
      && l[SiteCol] == Some(CStr(SiteValue(site)))
      && l[Company] == r[CompanyName]
      && l[JobTypeCol] == JobTypesText(r[JobTypeCol])
      && l[Emails] == JoinedText(r[Emails])
      && l[LocationCol] == (if Truthy(r[LocationCol]) then Displayed(env, r[LocationCol]) else r[LocationCol])
  {
  }

  /** The labelling step leaves every other entry alone. */
  lemma LabelledFrame(r: Row, site: Site, env: Env, c: Column)
    requires LabelKeys <= r.Keys
    requires c in r && c !in LabelColumns
    ensures c in Labelled(r, site, env) && Labelled(r, site, env)[c] == r[c]
  {
  }

  /** The compensation step leaves every entry but the salary ones alone. */
  lemma WithSalaryFrame(r: Row, country: Country, enforceAnnual: bool, c: Column)
    requires c in r && c !in SalaryColumns
    ensures c in WithSalary(r, country, enforceAnnual) && WithSalary(r, country, enforceAnnual)[c] == r[c]
  {
  }

  /** The last steps leave every entry but `salary_source` and `skills` alone. */
  lemma FinishFrame(r: Row, c: Column)
    requires c in r && c != SalarySource && c != Skills
    ensures c in WithNaukri(SourceChecked(r)) && WithNaukri(SourceChecked(r))[c] == r[c]
  {
  }

  /** The labelling step adds no salary entry. */
  lemma LabelledAbsent(r: Row, site: Site, env: Env, c: Column)
    requires LabelKeys <= r.Keys && c !in r && c in SalaryColumns
    ensures c !in Labelled(r, site, env)
  {
  }

  /** The last steps add no salary entry but `salary_source`. */
  lemma FinishAbsent(r: Row, c: Column)
    requires c !in r && c in SalaryColumns && c != SalarySource
    ensures c !in WithNaukri(SourceChecked(r))
  {
  }

  /** What the last steps write. */
  lemma FinishCells(r: Row)
    ensures var n := WithNaukri(SourceChecked(r));
      && SalarySource in n
      && n[SalarySource] == (if MinAmount in r && Truthy(r[MinAmount]) then Get(r, SalarySource) else None)
      && Skills in n && n[Skills] == JoinedText(Get(r, Skills))
  {
  }

  /** Whatever the labelling step wrote survives the later steps. */
  lemma FlatRowKeepsLabel(fields: Row, site: Site, country: Country, enforceAnnual: bool, env: Env, c: Column)
    requires LabelKeys <= fields.Keys && c in LabelColumns
    ensures var row := FlatRow(fields, site, country, enforceAnnual, env);
      c in row && row[c] == Labelled(fields, site, env)[c]
  {
    var l := Labelled(fields, site, env);
    LabelledCells(fields, site, env);
    assert c in l;
    WithSalaryFrame(l, country, enforceAnnual, c);
    FinishFrame(WithSalary(l, country, enforceAnnual), c);
  }

  /** The flattened row's site and company: the site's value, and the
      company name copied to `company`. */
  lemma FlatRowSite(fields: Row, site: Site, country: Country, enforceAnnual: bool, env: Env)
    requires LabelKeys <= fields.Keys
    ensures var row := FlatRow(fields, site, country, enforceAnnual, env);
      && SiteCol in row && row[SiteCol] == Some(CStr(SiteValue(site)))
      && Company in row && row[Company] == fields[CompanyName]
  {
    LabelledCells(fields, site, env);
    FlatRowKeepsLabel(fields, site, country, enforceAnnual, env, SiteCol);
    FlatRowKeepsLabel(fields, site, country, enforceAnnual, env, Company);
  }

  /** The flattened row's job types and emails joined by ", " (null when
      there are none), and its location rendered for display when there is
      one. */
  lemma FlatRowLabels(fields: Row, site: Site, country: Country, enforceAnnual: bool, env: Env)
    requires LabelKeys <= fields.Keys
    ensures var row := FlatRow(fields, site, country, enforceAnnual, env);
      && JobTypeCol in row && row[JobTypeCol] == JobTypesText(fields[JobTypeCol])
      && Emails in row && row[Emails] == JoinedText(fields[Emails])
      && LocationCol in row
      && row[LocationCol] == (if Truthy(fields[LocationCol]) then Displayed(env, fields[LocationCol]) else fields[LocationCol])
  {
    LabelledCells(fields, site, env);
    FlatRowKeepsLabel(fields, site, country, enforceAnnual, env, JobTypeCol);
    FlatRowKeepsLabel(fields, site, country, enforceAnnual, env, Emails);
    FlatRowKeepsLabel(fields, site, country, enforceAnnual, env, LocationCol);
  }

  /** The flattened row's skills, joined by ", " (null when there are none). */
  lemma FlatRowSkills(fields: Row, site: Site, country: Country, enforceAnnual: bool, env: Env)
    requires LabelKeys <= fields.Keys && Skills in fields
    ensures var row := FlatRow(fields, site, country, enforceAnnual, env);
      Skills in row && row[Skills] == JoinedText(fields[Skills])
  {
    var l := Labelled(fields, site, env);
    LabelledFrame(fields, site, env, Skills);
    assert Skills in l && l[Skills] == fields[Skills];
    var w := WithSalary(l, country, enforceAnnual);
    WithSalaryFrame(l, country, enforceAnnual, Skills);
    assert Get(w, Skills) == fields[Skills];
    FinishCells(w);
    assert FlatRow(fields, site, country, enforceAnnual, env) == WithNaukri(SourceChecked(w));
  }

  /** Every other entry of the record's dictionary reaches the row
      unchanged. */
  lemma FlatRowKeeps(fields: Row, site: Site, country: Country, enforceAnnual: bool, env: Env, c: Column)
    requires LabelKeys <= fields.Keys
    requires c in fields && c !in LabelColumns && c !in SalaryColumns && c != Skills
    ensures var row := FlatRow(fields, site, country, enforceAnnual, env);
      c in row && row[c] == fields[c]
  {
    var l := Labelled(fields, site, env);
    LabelledFrame(fields, site, env, c);
    WithSalaryFrame(l, country, enforceAnnual, c);
    FinishFrame(WithSalary(l, country, enforceAnnual), c);
  }

  /** The salary entries the compensation step wrote, other than
      `salary_source`, survive the later steps. */
  lemma FlatRowKeepsSalary(fields: Row, site: Site, country: Country, enforceAnnual: bool, env: Env, c: Column)
    requires LabelKeys <= fields.Keys && c in SalaryColumns && c != SalarySource
    requires c in WithSalary(Labelled(fields, site, env), country, enforceAnnual)
    ensures var row := FlatRow(fields, site, country, enforceAnnual, env);
      c in row && row[c] == WithSalary(Labelled(fields, site, env), country, enforceAnnual)[c]
  {
    FinishFrame(WithSalary(Labelled(fields, site, env), country, enforceAnnual), c);
  }

  /** The labelling step does not touch the compensation entry. */
  lemma LabelledComp(fields: Row, site: Site, env: Env)
    requires LabelKeys <= fields.Keys
    ensures CompOf(Labelled(fields, site, env)) == CompOf(fields)
  {
    if CompensationCol in fields {
      LabelledFrame(fields, site, env, CompensationCol);
    } else {
      LabelledCells(fields, site, env);
    }
  }

  /** The direct-data branch: the compensation entries copied in and tagged
      as direct data; with annual amounts requested, a known non-yearly
      interval and truthy amounts, both amounts are multiplied by the
      interval's number of units per year and the interval becomes yearly. */
  lemma DirectSalaryCells(r: Row, c: Compensation, enforceAnnual: bool)
    ensures var d := DirectSalary(r, c, enforceAnnual);
      var scaled := enforceAnnual && c.interval.Some? && c.interval.value != Yearly && NonZero(c.minAmount) && NonZero(c.maxAmount);
      && SalaryColumns <= d.Keys
      && (scaled ==>
            && d[Interval] == Some(CStr("yearly"))
            && d[MinAmount] == Some(CInt(c.minAmount.value * UnitsPerYear(c.interval.value)))
            && d[MaxAmount] == Some(CInt(c.maxAmount.value * UnitsPerYear(c.interval.value))))
      && (!scaled ==>
            d[Interval] == IntervalCell(c.interval) && d[MinAmount] == IntCell(c.minAmount) && d[MaxAmount] == IntCell(c.maxAmount))
      && d[Currency] == StrCell(c.currency)
      && d[SalarySource] == Some(CStr(DirectData))
  {
    var r1 := r[Interval := IntervalCell(c.interval)][MinAmount := IntCell(c.minAmount)]
               [MaxAmount := IntCell(c.maxAmount)][Currency := StrCell(c.currency)]
               [SalarySource := Some(CStr(DirectData))];
    var scaled := enforceAnnual && c.interval.Some? && c.interval.value != Yearly && NonZero(c.minAmount) && NonZero(c.maxAmount);
    if c.interval.Some? {
      var i := c.interval.value;
      assert IntervalValue(i) == "yearly" <==> i == Yearly;
    }
    assert AnnualiseWanted(r1, enforceAnnual) <==> scaled;
    if scaled {
      AnnualisedTable(r1, c.interval.value, c.minAmount.value, c.maxAmount.value);
    }
  }

  /** In the direct-data branch the minimum ends up truthy exactly when the
      dictionary's minimum is (annualising keeps a non-zero minimum
      non-zero). */
  lemma DirectSalaryMinimum(r: Row, c: Compensation, enforceAnnual: bool)
    ensures var d := DirectSalary(r, c, enforceAnnual);
      && MinAmount in d && SalarySource in d && d[SalarySource] == Some(CStr(DirectData))
      && (Truthy(d[MinAmount]) <==> NonZero(c.minAmount))
  {
    DirectSalaryCells(r, c, enforceAnnual);
    if c.interval.Some? {
      assert UnitsPerYear(c.interval.value) >= 1;
    }
  }

  /** A record with a compensation dictionary, annualised: with annual
      amounts requested, a known non-yearly interval and truthy amounts,
      the row holds both amounts multiplied by the interval's number of
      units per year, a yearly interval, and direct data as the salary's
      source. */
  lemma FlatRowDirectScaled(fields: Row, site: Site, country: Country, enforceAnnual: bool, env: Env)
    requires LabelKeys <= fields.Keys
    requires CompOf(fields).Some?
    requires var c := CompOf(fields).value;
      enforceAnnual && c.interval.Some? && c.interval.value != Yearly && NonZero(c.minAmount) && NonZero(c.maxAmount)
    ensures var row := FlatRow(fields, site, country, enforceAnnual, env);
      var c := CompOf(fields).value;
      && SalaryColumns <= row.Keys
      && row[Interval] == Some(CStr("yearly"))
      && row[MinAmount] == Some(CInt(c.minAmount.value * UnitsPerYear(c.interval.value)))
      && row[MaxAmount] == Some(CInt(c.maxAmount.value * UnitsPerYear(c.interval.value)))
  {
    var l := Labelled(fields, site, env);
    LabelledComp(fields, site, env);
    DirectSalaryCells(l, CompOf(fields).value, enforceAnnual);
    FlatRowKeepsSalary(fields, site, country, enforceAnnual, env, Interval);
    FlatRowKeepsSalary(fields, site, country, enforceAnnual, env, MinAmount);
    FlatRowKeepsSalary(fields, site, country, enforceAnnual, env, MaxAmount);
  }

  /** A record with a compensation dictionary, not annualised: the row
      holds the dictionary's interval and amounts as they are, and direct
      data as the salary's source exactly when the minimum is truthy. */
  lemma FlatRowDirectCopied(fields: Row, site: Site, country: Country, enforceAnnual: bool, env: Env)
    requires LabelKeys <= fields.Keys
    requires CompOf(fields).Some?
    requires var c := CompOf(fields).value;
      !(enforceAnnual && c.interval.Some? && c.interval.value != Yearly && NonZero(c.minAmount) && NonZero(c.maxAmount))
    ensures var row := FlatRow(fields, site, country, enforceAnnual, env);
      var c := CompOf(fields).value;
      && SalaryColumns <= row.Keys
      && row[Interval] == IntervalCell(c.interval)
      && row[MinAmount] == IntCell(c.minAmount)
      && row[MaxAmount] == IntCell(c.maxAmount)
  {
    var l := Labelled(fields, site, env);
    LabelledComp(fields, site, env);
    DirectSalaryCells(l, CompOf(fields).value, enforceAnnual);
    FlatRowKeepsSalary(fields, site, country, enforceAnnual, env, Interval);
    FlatRowKeepsSalary(fields, site, country, enforceAnnual, env, MinAmount);
    FlatRowKeepsSalary(fields, site, country, enforceAnnual, env, MaxAmount);
  }

  /** A record with a compensation dictionary: direct data is the salary's
      source exactly when the minimum is truthy (annualising keeps a
      non-zero minimum non-zero). */
  lemma FlatRowDirectSource(fields: Row, site: Site, country: Country, enforceAnnual: bool, env: Env)
    requires LabelKeys <= fields.Keys
    requires CompOf(fields).Some?
    ensures var row := FlatRow(fields, site, country, enforceAnnual, env);
      var c := CompOf(fields).value;
      SalarySource in row && row[SalarySource] == (if NonZero(c.minAmount) then Some(CStr(DirectData)) else None)
  {
    var l := Labelled(fields, site, env);
    LabelledComp(fields, site, env);
    DirectSalaryMinimum(l, CompOf(fields).value, enforceAnnual);
    FinishCells(WithSalary(l, country, enforceAnnual));
  }

  /** A record with a compensation dictionary: its currency is copied. */
  lemma FlatRowDirectCurrency(fields: Row, site: Site, country: Country, enforceAnnual: bool, env: Env)
    requires LabelKeys <= fields.Keys
    requires CompOf(fields).Some?
    ensures var row := FlatRow(fields, site, country, enforceAnnual, env);
      Currency in row && row[Currency] == StrCell(CompOf(fields).value.currency)
  {
    var l := Labelled(fields, site, env);
    LabelledComp(fields, site, env);
    DirectSalaryCells(l, CompOf(fields).value, enforceAnnual);
    FlatRowKeepsSalary(fields, site, country, enforceAnnual, env, Currency);
  }

  /** The description branch: the four values `extract_salary` found (all
      null when it found none), tagged as coming from the description; the
      minimum is truthy exactly when a salary was found. */
  lemma DescriptionSalaryCells(r: Row, enforceAnnual: bool)
    ensures var d := DescriptionSalary(r, enforceAnnual);
      var s := ExtractSalary(StrOf(Get(r, Description)), enforceAnnual);
      && SalaryColumns <= d.Keys
      && (d[Interval], d[MinAmount], d[MaxAmount], d[Currency]) == SalaryCells(s)
      && d[SalarySource] == Some(CStr(FromDescription))
      && (Truthy(d[MinAmount]) <==> s.Some?)
  {
    var s := ExtractSalary(StrOf(Get(r, Description)), enforceAnnual);
    if s.Some? {
      ExtractSalaryWindow(StrOf(Get(r, Description)).value, enforceAnnual);
      assert Annualise(s.value.interval, 0) == 0;
    }
  }

  /** The labelling step does not touch the description. */
  lemma LabelledDescription(fields: Row, site: Site, env: Env)
    requires LabelKeys <= fields.Keys && Description in fields
    ensures Get(Labelled(fields, site, env), Description) == fields[Description]
  {
    LabelledFrame(fields, site, env, Description);
  }

  /** A record without compensation, for the USA: the salary found in the
      description fills the four salary columns (all null when none is
      found); the currency is always dollars. */
  lemma FlatRowDescriptionSalary(fields: Row, site: Site, country: Country, enforceAnnual: bool, env: Env)
    requires LabelKeys <= fields.Keys && Description in fields
    requires CompOf(fields).None? && country == Usa
    ensures var row := FlatRow(fields, site, country, enforceAnnual, env);
      var s := ExtractSalary(StrOf(fields[Description]), enforceAnnual);
      && SalaryColumns <= row.Keys
      && (row[Interval], row[MinAmount], row[MaxAmount], row[Currency]) == SalaryCells(s)
      && (s.Some? ==> row[Currency] == Some(CStr("USD")))
  {
    var l := Labelled(fields, site, env);
    LabelledComp(fields, site, env);
    LabelledDescription(fields, site, env);
    DescriptionSalaryCells(l, enforceAnnual);
    FlatRowKeepsSalary(fields, site, country, enforceAnnual, env, Interval);
    FlatRowKeepsSalary(fields, site, country, enforceAnnual, env, MinAmount);
    FlatRowKeepsSalary(fields, site, country, enforceAnnual, env, MaxAmount);
    FlatRowKeepsSalary(fields, site, country, enforceAnnual, env, Currency);
  }

  /** A record without compensation, for the USA: the description is the
      salary's source exactly when a salary was found in it. */
  lemma FlatRowDescriptionSource(fields: Row, site: Site, country: Country, enforceAnnual: bool, env: Env)
    requires LabelKeys <= fields.Keys && Description in fields
    requires CompOf(fields).None? && country == Usa
    ensures var row := FlatRow(fields, site, country, enforceAnnual, env);
      var s := ExtractSalary(StrOf(fields[Description]), enforceAnnual);
      SalarySource in row && row[SalarySource] == (if s.Some? then Some(CStr(FromDescription)) else None)
  {
    var l := Labelled(fields, site, env);
    LabelledComp(fields, site, env);
    LabelledDescription(fields, site, env);
    DescriptionSalaryCells(l, enforceAnnual);
    FinishCells(WithSalary(l, country, enforceAnnual));
  }

  /** A record without compensation outside the USA gets no salary columns,
      and a null `salary_source`. */
  lemma FlatRowNoSalary(fields: Row, site: Site, country: Country, enforceAnnual: bool, env: Env)
    requires LabelKeys <= fields.Keys && SalaryColumns !! fields.Keys
    requires CompOf(fields).None? && country != Usa
    ensures var row := FlatRow(fields, site, country, enforceAnnual, env);
      && Interval !in row && MinAmount !in row && MaxAmount !in row && Currency !in row
      && SalarySource in row && row[SalarySource] == None
  {
    var l := Labelled(fields, site, env);
    LabelledComp(fields, site, env);
    assert WithSalary(l, country, enforceAnnual) == l;
    FinishCells(l);
    forall c | c in SalaryColumns && c != SalarySource
      ensures c !in FlatRow(fields, site, country, enforceAnnual, env)
    {
      LabelledAbsent(fields, site, env, c);
      FinishAbsent(l, c);
    }
  }

  /** `salary_source` is never set without a truthy `min_amount` beside it. */
  lemma FlatRowSourceNeedsMinimum(fields: Row, site: Site, country: Country, enforceAnnual: bool, env: Env)
    requires LabelKeys <= fields.Keys
    ensures var row := FlatRow(fields, site, country, enforceAnnual, env);
      SalarySource in row && (row[SalarySource].Some? ==> MinAmount in row && Truthy(row[MinAmount]))
  {
    var w := WithSalary(Labelled(fields, site, env), country, enforceAnnual);
    FinishCells(w);
    if MinAmount in w {
      FinishFrame(w, MinAmount);
    }
  }

  // ---------------------------------------------------------------------
  // The rows of all sites

  /** The per-record flattening of each site, as a function value. */
  function Flattener(country: Country, enforceAnnual: bool, env: Env): Site -> JobPost -> Row {
    site => p => FlatPost(p, site, country, enforceAnnual, env)
  }

  /** The rows of one site's records, in the records' order. */
  function SiteRows(posts: seq<JobPost>, flat: JobPost -> Row): seq<Row> {
    if posts == [] then []
    else SiteRows(posts[..|posts| - 1], flat) + [flat(posts[|posts| - 1])]
  }

  /** One row per record, in order. */
  lemma {:induction false} SiteRowsSpec(posts: seq<JobPost>, flat: JobPost -> Row)
    ensures |SiteRows(posts, flat)| == |posts|
    ensures forall k :: 0 <= k < |posts| ==> SiteRows(posts, flat)[k] == flat(posts[k])
  {
    if posts != [] {
      SiteRowsSpec(posts[..|posts| - 1], flat);
    }
  }

  /** The rows of every site that returned, site after site in the order
      the results were collected. */
  function AllRows(order: seq<Site>, jobs: map<Site, seq<JobPost>>, flat: Site -> JobPost -> Row): seq<Row>
    requires forall s :: s in order ==> s in jobs
  {
    if order == [] then []
    else
      var last := order[|order| - 1];
      AllRows(order[..|order| - 1], jobs, flat) + SiteRows(jobs[last], flat(last))
  }

  /** Every row comes from a record of a site that returned, flattened for
      that site; every record of every such site gives a row. */
  lemma {:induction false} AllRowsSpec(order: seq<Site>, jobs: map<Site, seq<JobPost>>, flat: Site -> JobPost -> Row)
    requires forall s :: s in order ==> s in jobs
    ensures forall row :: row in AllRows(order, jobs, flat) ==>
      exists s, k :: s in order && 0 <= k < |jobs[s]| && row == flat(s)(jobs[s][k])
    ensures forall s, k :: s in order && 0 <= k < |jobs[s]| ==> flat(s)(jobs[s][k]) in AllRows(order, jobs, flat)
  {
    if order != [] {
      var init := order[..|order| - 1];
      var last := order[|order| - 1];
      assert forall s :: s in init ==> s in order;
      AllRowsSpec(init, jobs, flat);
      var here := SiteRows(jobs[last], flat(last));
      SiteRowsSpec(jobs[last], flat(last));
      assert forall s :: s in order ==> s in init || s == last;
      forall row | row in AllRows(order, jobs, flat)
        ensures exists s, k :: s in order && 0 <= k < |jobs[s]| && row == flat(s)(jobs[s][k])
      {
        if row !in AllRows(init, jobs, flat) {
          var k :| 0 <= k < |here| && here[k] == row;
          assert last in order;
        }
      }
      forall s, k | s in order && 0 <= k < |jobs[s]|
        ensures flat(s)(jobs[s][k]) in AllRows(order, jobs, flat)
      {
        if s == last {
          assert here[k] == flat(s)(jobs[s][k]);
        }
      }
    }
  }

  /** The inner loop of the flattening: one row per record of one site. */
  method BuildSiteRows(posts: seq<JobPost>, flat: JobPost -> Row) returns (rows: seq<Row>)
    ensures rows == SiteRows(posts, flat)
  {
    rows := [];
    var j := 0;
    while j < |posts|
      invariant 0 <= j <= |posts|
      invariant rows == SiteRows(posts[..j], flat)
    {
      assert posts[..j + 1][..j] == posts[..j];
      rows := rows + [flat(posts[j])];
      j := j + 1;
    }
    assert posts[..j] == posts;
  }

  /** The outer loop of the flattening, site after site. */
  method BuildRows(order: seq<Site>, jobs: map<Site, seq<JobPost>>, flat: Site -> JobPost -> Row)
    returns (rows: seq<Row>)
    requires forall s :: s in order ==> s in jobs
    ensures rows == AllRows(order, jobs, flat)
  {
    rows := [];
    var i := 0;
    while i < |order|
      invariant 0 <= i <= |order|
      invariant rows == AllRows(order[..i], jobs, flat)
    {
      var site := order[i];
      var siteRows := BuildSiteRows(jobs[site], flat(site));
      assert order[..i + 1][..i] == order[..i];
      rows := rows + siteRows;
      i := i + 1;
    }
    assert order[..i] == order;
  }
}
