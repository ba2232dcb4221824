/** Field normalisers of the utility module: in-place annualisation of a job
    record, keyword job-type classification, the job-type and site lookups,
    and the fixed output column order. */
module Normalise {
  import opened Wrappers
  import opened Text
  import opened Model

  // ---------------------------------------------------------------------
  // convert_to_annual

  /** A job record as the mutable dictionary the merger works on. */
  class Record {
    var data: Row

    constructor (data: Row)
      ensures this.data == data
    {
      this.data := data;
    }
  }

  /** The factor `convert_to_annual` multiplies both amounts by, for the
      value found under `interval`. */
  function Multiplier(interval: Option<Cell>): (f: nat)
    ensures f >= 1
  {
    if interval == Some(CStr("hourly")) then 2080
    else if interval == Some(CStr("monthly")) then 12
    else if interval == Some(CStr("weekly")) then 52
    else if interval == Some(CStr("daily")) then 260
    else 1
  }

  /** The reference table: how many units of each interval make a year. */
  function UnitsPerYear(i: CompensationInterval): nat {
    match i
    case Yearly => 1
    case Monthly => 12
    case Weekly => 52
    case Daily => 260
    case Hourly => 2080
  }

  predicate IsInt(v: Option<Cell>) {
    v.Some? && v.value.CInt?
  }

  /** The keys whose values `convert_to_annual` may rewrite. */
  const AnnualisedKeys: set<Column> := {Interval, MinAmount, MaxAmount}

  /** What `convert_to_annual` needs in order not to raise: an `interval`
      entry, and integer amounts whenever they are multiplied. */
  predicate Annualisable(r: Row) {
    && Interval in r
    && (Multiplier(r[Interval]) != 1 ==>
          MinAmount in r && MaxAmount in r && IsInt(r[MinAmount]) && IsInt(r[MaxAmount]))
  }

  /** The record `convert_to_annual` leaves behind. */
  function Annualised(r: Row): (a: Row)
    requires Annualisable(r)
    ensures a.Keys == r.Keys
    ensures a[Interval] == Some(CStr("yearly"))
    ensures forall k :: k in r && k !in AnnualisedKeys ==> a[k] == r[k]
  {
    var f := Multiplier(r[Interval]);
    var scaled :=
      if f == 1 then r
      else r[MinAmount := Some(CInt(r[MinAmount].value.i * f))]
            [MaxAmount := Some(CInt(r[MaxAmount].value.i * f))];
    scaled[Interval := Some(CStr("yearly"))]
  }

  /** `convert_to_annual(job_data)`: one test per known interval, then the
      interval is relabelled as yearly. */
  method ConvertToAnnual(rec: Record)
    requires Annualisable(rec.data)
    modifies rec
    ensures rec.data == Annualised(old(rec.data))
  {
    if rec.data[Interval] == Some(CStr("hourly")) {
      rec.data := rec.data[MinAmount := Some(CInt(rec.data[MinAmount].value.i * 2080))];
      rec.data := rec.data[MaxAmount := Some(CInt(rec.data[MaxAmount].value.i * 2080))];
    }
    if rec.data[Interval] == Some(CStr("monthly")) {
      rec.data := rec.data[MinAmount := Some(CInt(rec.data[MinAmount].value.i * 12))];
      rec.data := rec.data[MaxAmount := Some(CInt(rec.data[MaxAmount].value.i * 12))];
    }
    if rec.data[Interval] == Some(CStr("weekly")) {
      rec.data := rec.data[MinAmount := Some(CInt(rec.data[MinAmount].value.i * 52))];
      rec.data := rec.data[MaxAmount := Some(CInt(rec.data[MaxAmount].value.i * 52))];
    }
    if rec.data[Interval] == Some(CStr("daily")) {
      rec.data := rec.data[MinAmount := Some(CInt(rec.data[MinAmount].value.i * 260))];
      rec.data := rec.data[MaxAmount := Some(CInt(rec.data[MaxAmount].value.i * 260))];
    }
    rec.data := rec.data[Interval := Some(CStr("yearly"))];
  }

  /** Each interval's amounts are multiplied by its number of units per year. */
  lemma AnnualisedTable(r: Row, i: CompensationInterval, min: int, max: int)
    requires Interval in r && r[Interval] == Some(CStr(IntervalValue(i)))
    requires MinAmount in r && r[MinAmount] == Some(CInt(min))
    requires MaxAmount in r && r[MaxAmount] == Some(CInt(max))
    ensures Annualisable(r)
    ensures Annualised(r)[MinAmount] == Some(CInt(min * UnitsPerYear(i)))
    ensures Annualised(r)[MaxAmount] == Some(CInt(max * UnitsPerYear(i)))
    ensures Annualised(r)[Interval] == Some(CStr("yearly"))
  {
    match i
    case Yearly =>
    case Monthly =>
    case Weekly =>
    case Daily =>
    case Hourly =>
  }

  /** A yearly or unrecognised interval leaves every entry but `interval`
      as it was, and still relabels the interval as yearly. */
  lemma AnnualisedUnknownInterval(r: Row)
    requires Interval in r
    requires r[Interval] !in {Some(CStr("hourly")), Some(CStr("monthly")), Some(CStr("weekly")), Some(CStr("daily"))}
    ensures Annualisable(r)
    ensures Annualised(r) == r[Interval := Some(CStr("yearly"))]
  {
  }

  /** Converting twice is converting once. */
  lemma AnnualisedIdempotent(r: Row)
    requires Annualisable(r)
    ensures Annualisable(Annualised(r))
    ensures Annualised(Annualised(r)) == Annualised(r)
  {
    var a := Annualised(r);
    assert Multiplier(a[Interval]) == 1;
    assert a[Interval := Some(CStr("yearly"))] == a;
  }

  lemma ExampleMonthly(r: Row)
    requires r == map[Interval := Some(CStr("monthly")), MinAmount := Some(CInt(5000)), MaxAmount := Some(CInt(7000))]
    ensures Annualisable(r)
    ensures Annualised(r) == map[Interval := Some(CStr("yearly")), MinAmount := Some(CInt(60000)), MaxAmount := Some(CInt(84000))]
  {
    AnnualisedTable(r, Monthly, 5000, 7000);
  }

  // ---------------------------------------------------------------------
  // extract_job_type

  /** A keyword pattern: `head`, then one optional whitespace character when
      `optSpace`, then `tail`; matched ignoring case. Both parts are lower case. */
  datatype Keyword = Keyword(head: string, optSpace: bool, tail: string)

  /** The keyword table in its declaration order: `full\s?time`,
      `part\s?time`, `internship`, `contract`. */
  const Keywords: seq<(JobType, Keyword)> := [
    (FullTime, Keyword("full", true, "time")),
    (PartTime, Keyword("part", true, "time")),
    (Internship, Keyword("internship", false, "")),
    (Contract, Keyword("contract", false, ""))]

  /** The lower-case word `w` occurs in `s` at `i`, ignoring ASCII case. */
  predicate CaseFoldAt(s: string, i: nat, w: string) {
    i + |w| <= |s| && forall k :: 0 <= k < |w| ==> LowerChar(s[i + k]) == w[k]
  }

  /** The keyword pattern matches `s` at position `i`. */
  predicate KeywordAt(s: string, i: nat, kw: Keyword) {
    && CaseFoldAt(s, i, kw.head)
    && (|| CaseFoldAt(s, i + |kw.head|, kw.tail)
        || (&& kw.optSpace && i + |kw.head| < |s| && IsSpace(s[i + |kw.head|])
            && CaseFoldAt(s, i + |kw.head| + 1, kw.tail)))
  }

  /** `re.search(pattern, s, re.IGNORECASE)` finds the keyword. */
  predicate KeywordIn(s: string, kw: Keyword) {
    exists i :: 0 <= i <= |s| && KeywordAt(s, i, kw)
  }

  /** The job types of `kws` whose keyword occurs in `s`, in table order. */
  function MatchingTypes(s: string, kws: seq<(JobType, Keyword)>): (ts: seq<JobType>)
    ensures |ts| <= |kws|
  {
    if kws == [] then []
    else (if KeywordIn(s, kws[0].1) then [kws[0].0] else []) + MatchingTypes(s, kws[1..])
  }

  /** What `extract_job_type` returns: `[]` (here `Some([])`) for an empty
      or missing description, `None` when no keyword occurs, otherwise the
      matching types in table order. */
  function JobTypesFound(description: Option<string>): (r: Option<seq<JobType>>)
    ensures (description.None? || description == Some("")) ==> r == Some([])
    ensures r == None <==> description.Some? && description != Some("") && MatchingTypes(description.value, Keywords) == []
    ensures r.Some? && description.Some? && description != Some("") ==> r.value == MatchingTypes(description.value, Keywords)
  {
    if description.None? || description.value == "" then Some([])
    else if MatchingTypes(description.value, Keywords) == [] then None
    else Some(MatchingTypes(description.value, Keywords))
  }

  /** `extract_job_type(description)`, visiting the keyword table in order. */
  method ExtractJobType(description: Option<string>) returns (r: Option<seq<JobType>>)
    ensures r == JobTypesFound(description)
  {
    if description.None? || description.value == "" {
      return Some([]);
    }
    var listingTypes := CollectMatching(description.value, Keywords);
    r := if listingTypes == [] then None else Some(listingTypes);
  }

  /** The loop of `extract_job_type` over a keyword table: append each type
      whose pattern is found. */
  method CollectMatching(d: string, kws: seq<(JobType, Keyword)>) returns (listingTypes: seq<JobType>)
    ensures listingTypes == MatchingTypes(d, kws)
  {
    listingTypes := [];
    var k := 0;
    while k < |kws|
      invariant 0 <= k <= |kws|
      invariant listingTypes + MatchingTypes(d, kws[k..]) == MatchingTypes(d, kws)
    {
      assert kws[k..][1..] == kws[k + 1..];
      if KeywordIn(d, kws[k].1) {
        listingTypes := listingTypes + [kws[k].0];
      }
      k := k + 1;
    }
    assert kws[k..] == [];
    assert listingTypes + [] == listingTypes;
  }

  /** Position of a type in the fixed order full time, part time,
      internship, contract. */
  function KeywordRank(t: JobType): nat {
    match t
    case FullTime => 0
    case PartTime => 1
    case Internship => 2
    case Contract => 3
    case _ => 4
  }

  lemma {:induction false} MatchingTypesMembers(s: string, kws: seq<(JobType, Keyword)>, t: JobType)
    ensures t in MatchingTypes(s, kws) <==> exists k :: 0 <= k < |kws| && kws[k].0 == t && KeywordIn(s, kws[k].1)
  {
    if kws != [] {
      MatchingTypesMembers(s, kws[1..], t);
      if t in MatchingTypes(s, kws[1..]) {
        var k :| 0 <= k < |kws[1..]| && kws[1..][k].0 == t && KeywordIn(s, kws[1..][k].1);
        assert kws[k + 1] == kws[1..][k];
      }
      if exists k :: 0 <= k < |kws| && kws[k].0 == t && KeywordIn(s, kws[k].1) {
        var k :| 0 <= k < |kws| && kws[k].0 == t && KeywordIn(s, kws[k].1);
        if k > 0 {
          assert kws[1..][k - 1] == kws[k];
        }
      }
    }
  }

  /** The ranks along a sequence of types strictly increase. */
  predicate RankIncreasing(ts: seq<JobType>) {
    forall i, j :: 0 <= i < j < |ts| ==> KeywordRank(ts[i]) < KeywordRank(ts[j])
  }

  lemma {:induction false} MatchingTypesOrdered(s: string, kws: seq<(JobType, Keyword)>)
    requires forall i, j :: 0 <= i < j < |kws| ==> KeywordRank(kws[i].0) < KeywordRank(kws[j].0)
    ensures RankIncreasing(MatchingTypes(s, kws))
  {
    if kws != [] {
      var rest := MatchingTypes(s, kws[1..]);
      MatchingTypesOrdered(s, kws[1..]);
      forall t | t in rest
        ensures KeywordRank(kws[0].0) < KeywordRank(t)
      {
        MatchingTypesMembers(s, kws[1..], t);
        var k :| 0 <= k < |kws[1..]| && kws[1..][k].0 == t && KeywordIn(s, kws[1..][k].1);
        assert kws[1..][k] == kws[k + 1];
      }
      if KeywordIn(s, kws[0].1) {
        var ts := [kws[0].0] + rest;
        forall i, j | 0 <= i < j < |ts|
          ensures KeywordRank(ts[i]) < KeywordRank(ts[j])
        {
          assert ts[j] == rest[j - 1] && rest[j - 1] in rest;
          if i > 0 {
            assert ts[i] == rest[i - 1];
          }
        }
      }
    }
  }

  /** The classification the keywords give: each of the four types is
      reported exactly when its keyword occurs, no other type ever is, and
      the reported types are distinct and in the fixed order. */
  lemma MatchingTypesSpec(s: string)
    ensures var ts := MatchingTypes(s, Keywords);
      && (FullTime in ts <==> KeywordIn(s, Keyword("full", true, "time")))
      && (PartTime in ts <==> KeywordIn(s, Keyword("part", true, "time")))
      && (Internship in ts <==> KeywordIn(s, Keyword("internship", false, "")))
      && (Contract in ts <==> KeywordIn(s, Keyword("contract", false, "")))
      && (forall t :: t in ts ==> KeywordRank(t) < 4)
      && RankIncreasing(ts)
  {
    var ts := MatchingTypes(s, Keywords);
    assert Keywords[0] == (FullTime, Keyword("full", true, "time"));
    assert Keywords[1] == (PartTime, Keyword("part", true, "time"));
    assert Keywords[2] == (Internship, Keyword("internship", false, ""));
    assert Keywords[3] == (Contract, Keyword("contract", false, ""));
    MatchingTypesMembers(s, Keywords, FullTime);
    MatchingTypesMembers(s, Keywords, PartTime);
    MatchingTypesMembers(s, Keywords, Internship);
    MatchingTypesMembers(s, Keywords, Contract);
    forall t | t in ts
      ensures KeywordRank(t) < 4
    {
      MatchingTypesMembers(s, Keywords, t);
    }
    MatchingTypesOrdered(s, Keywords);
  }

  /** `full\s?time` accepts one whitespace character between the words, or
      none, in any letter case. */
  lemma FullTimeSpellings(s: string)
    requires s == "Full Time" || s == "FULLTIME"
    ensures KeywordIn(s, Keyword("full", true, "time"))
  {
    assert KeywordAt(s, 0, Keyword("full", true, "time"));
  }

  // ---------------------------------------------------------------------
  // get_enum_from_job_type, get_enum_from_value

  /** The declaration index of a job type. */
  function TypeIndex(t: JobType): (k: nat)
    ensures k < |AllJobTypes| && AllJobTypes[k] == t
  {
    match t
    case FullTime => 0
    case PartTime => 1
    case Contract => 2
    case Temporary => 3
    case Internship => 4
    case PerDiem => 5
    case Nights => 6
    case Other => 7
    case Summer => 8
    case Volunteer => 9
  }

  /** `get_enum_from_job_type(s)`: the last type, in declaration order, whose
      value tuple holds `s`; `None` when there is none. */
  method GetEnumFromJobType(s: string) returns (r: Option<JobType>)
    ensures r.Some? ==> s in JobTypeValues(r.value)
    ensures r.Some? ==> forall k :: TypeIndex(r.value) < k < |AllJobTypes| ==> s !in JobTypeValues(AllJobTypes[k])
    ensures r.None? <==> forall t: JobType :: s !in JobTypeValues(t)
  {
    r := None;
    var k := 0;
    while k < |AllJobTypes|
      invariant 0 <= k <= |AllJobTypes|
      invariant r.Some? ==> s in JobTypeValues(r.value) && TypeIndex(r.value) < k
      invariant r.Some? ==> forall j :: TypeIndex(r.value) < j < k ==> s !in JobTypeValues(AllJobTypes[j])
      invariant r.None? ==> forall j :: 0 <= j < k ==> s !in JobTypeValues(AllJobTypes[j])
    {
      if s in JobTypeValues(AllJobTypes[k]) {
        r := Some(AllJobTypes[k]);
      }
      k := k + 1;
    }
    if r.None? {
      forall t: JobType
        ensures s !in JobTypeValues(t)
      {
        assert AllJobTypes[TypeIndex(t)] == t;
      }
    }
  }

  /** `get_enum_from_value(s)`: the first type, in declaration order, whose
      value tuple holds `s`; otherwise the "Invalid job type" error. */
  method GetEnumFromValue(s: string) returns (r: Result<JobType>)
    ensures r.Ok? ==> s in JobTypeValues(r.value)
    ensures r.Ok? ==> forall k :: 0 <= k < TypeIndex(r.value) ==> s !in JobTypeValues(AllJobTypes[k])
    ensures r.Err? <==> forall t: JobType :: s !in JobTypeValues(t)
    ensures r.Err? ==> r.error == "Invalid job type: " + s
  {
    var k := 0;
    while k < |AllJobTypes|
      invariant 0 <= k <= |AllJobTypes|
      invariant forall j :: 0 <= j < k ==> s !in JobTypeValues(AllJobTypes[j])
    {
      if s in JobTypeValues(AllJobTypes[k]) {
        assert TypeIndex(AllJobTypes[k]) == k;
        return Ok(AllJobTypes[k]);
      }
      k := k + 1;
    }
    forall t: JobType
      ensures s !in JobTypeValues(t)
    {
      assert AllJobTypes[TypeIndex(t)] == t;
    }
    return Err("Invalid job type: " + s);
  }

  // ---------------------------------------------------------------------
  // map_str_to_site

  /** `Site[name]`: the member with that enum name, if any. */
  function SiteFromName(name: string): (r: Option<Site>)
    ensures r.Some? ==> SiteName(r.value) == name
    ensures r.None? ==> forall s: Site :: SiteName(s) != name
  {
    if name == "LINKEDIN" then Some(LinkedIn)
    else if name == "INDEED" then Some(Indeed)
    else if name == "ZIP_RECRUITER" then Some(ZipRecruiter)
    else if name == "GLASSDOOR" then Some(Glassdoor)
    else if name == "GOOGLE" then Some(Google)
    else if name == "BAYT" then Some(Bayt)
    else if name == "NAUKRI" then Some(Naukri)
    else if name == "BDJOBS" then Some(BdJobs)
    else None
  }

  /** The enum name `map_str_to_site` looks up: the upper-cased input, with
      the underscore-free spelling of ZipRecruiter rewritten. */
  function SiteKey(name: string): string {
    var upper := Upper(name);
    if upper == "ZIPRECRUITER" then "ZIP_RECRUITER" else upper
  }

  /** `map_str_to_site(name)`; a name that is no member's raises `KeyError`. */
  function MapStrToSite(name: string): (r: Result<Site>)
    ensures r.Ok? ==> SiteName(r.value) == SiteKey(name)
    ensures r.Err? <==> forall s: Site :: SiteName(s) != SiteKey(name)
  {
    match SiteFromName(SiteKey(name))
    case Some(site) => Ok(site)
    case None => Err("KeyError: " + SiteKey(name))
  }

  lemma UpperOfLower(s: string)
    ensures Upper(Lower(s)) == Upper(s)
  {
  }

  /** The lookup ignores letter case. */
  lemma MapStrToSiteIgnoresCase(name: string)
    ensures MapStrToSite(Lower(name)) == MapStrToSite(name)
  {
    UpperOfLower(name);
  }

  lemma UpperOfValue(s: Site)
    ensures Upper(SiteValue(s)) == SiteName(s)
  {
    match s
    case LinkedIn =>
    case Indeed =>
    case ZipRecruiter =>
    case Glassdoor =>
    case Google =>
    case Bayt =>
    case Naukri =>
    case BdJobs =>
  }

  /** Every site's value string (the one written into the `site` column)
      maps back to the site. */
  lemma MapStrToSiteValue(s: Site)
    ensures MapStrToSite(SiteValue(s)) == Ok(s)
  {
    UpperOfValue(s);
  }

  /** "ziprecruiter", in any letter case, names ZipRecruiter. */
  lemma MapStrToSiteCompactZip(name: string)
    requires Upper(name) == "ZIPRECRUITER"
    ensures MapStrToSite(name) == Ok(ZipRecruiter)
  {
  }
}

/** `desired_order`: the fixed column order of the merged table. */
module Columns {
  import opened Model

  /** Output columns for the posting itself. */
  const OrderPosting: seq<Column> := [Id, SiteCol, JobUrl, JobUrlDirect, Title, Company, LocationCol, DatePosted, JobTypeCol]

  /** Output columns for salary, remoteness, level and listing type. */
  const OrderSalary: seq<Column> := [SalarySource, Interval, MinAmount, MaxAmount, Currency, IsRemote, JobLevel, JobFunction, ListingType]

  /** Output columns for contact, description and company. */
  const OrderCompany: seq<Column> := [Emails, Description, CompanyIndustry, CompanyUrl, CompanyLogo, CompanyUrlDirect, CompanyAddresses, CompanyNumEmployees, CompanyRevenue, CompanyDescription]

  /** Output columns for the Naukri-specific fields. */
  const OrderNaukri: seq<Column> := [Skills, ExperienceRange, CompanyRating, CompanyReviewsCount, VacancyCount, WorkFromHomeType]

  /** The output columns, in order. */
  const DesiredOrder: seq<Column> := OrderPosting + OrderSalary + OrderCompany + OrderNaukri

  /** The position of each output column in the order; 34 for the two
      record fields the merger replaces. */
  function OrderRank(c: Column): nat {
    match c
    case Id => 0
    case SiteCol => 1
    case JobUrl => 2
    case JobUrlDirect => 3
    case Title => 4
    case Company => 5
    case LocationCol => 6
    case DatePosted => 7
    case JobTypeCol => 8
    case SalarySource => 9
    case Interval => 10
    case MinAmount => 11
    case MaxAmount => 12
    case Currency => 13
    case IsRemote => 14
    case JobLevel => 15
    case JobFunction => 16
    case ListingType => 17
    case Emails => 18
    case Description => 19
    case CompanyIndustry => 20
    case CompanyUrl => 21
    case CompanyLogo => 22
    case CompanyUrlDirect => 23
    case CompanyAddresses => 24
    case CompanyNumEmployees => 25
    case CompanyRevenue => 26
    case CompanyDescription => 27
    case Skills => 28
    case ExperienceRange => 29
    case CompanyRating => 30
    case CompanyReviewsCount => 31
    case VacancyCount => 32
    case WorkFromHomeType => 33
    case CompanyName => 34
    case CompensationCol => 34
  }

  lemma RankOfPosting()
    ensures |OrderPosting| == 9
    ensures forall i :: 0 <= i < |OrderPosting| ==> OrderRank(OrderPosting[i]) == 0 + i
  {
  }

  lemma RankOfSalary()
    ensures |OrderSalary| == 9
    ensures forall i :: 0 <= i < |OrderSalary| ==> OrderRank(OrderSalary[i]) == 9 + i
  {
  }

  lemma RankOfCompany()
    ensures |OrderCompany| == 10
    ensures forall i :: 0 <= i < |OrderCompany| ==> OrderRank(OrderCompany[i]) == 18 + i
  {
  }

  lemma RankOfNaukri()
    ensures |OrderNaukri| == 6
    ensures forall i :: 0 <= i < |OrderNaukri| ==> OrderRank(OrderNaukri[i]) == 28 + i
  {
  }

  /** Every output column stands at its rank. */
  lemma RankOfDesiredOrder()
    ensures |DesiredOrder| == 34
    ensures forall i :: 0 <= i < |DesiredOrder| ==> OrderRank(DesiredOrder[i]) == i
  {
    RankOfPosting();
    RankOfSalary();
    RankOfCompany();
    RankOfNaukri();
  }

  /** 34 columns, none listed twice, and neither of the record fields the
      merger replaces (`company_name`, `compensation`). */
  lemma DesiredOrderDistinct()
    ensures |DesiredOrder| == 34
    ensures forall i, j :: 0 <= i < j < |DesiredOrder| ==> DesiredOrder[i] != DesiredOrder[j]
    ensures CompanyName !in DesiredOrder && CompensationCol !in DesiredOrder
  {
    RankOfDesiredOrder();
  }
}
