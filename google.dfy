/** The Google Jobs scraper: query assembly, acceptance of the direct search
    response, parsing of the initial-page records and of the async job cards
    with URL dedup, and the cursor-driven pagination loop. HTML lookups,
    the cursor regular expression and the HTTP requests are oracles. */
module GoogleJobs {
  import opened Wrappers
  import opened Text
  import opened Model
  import Salary
  import Normalise

  /** `MIN_RESPONSE_LENGTH` */
  const MinResponseLength: nat := 1000
  /** The marker only a result page with job data carries. */
  const JobDataMarker: string := "520084652"

  // ---------------------------------------------------------------------
  // Query construction

  /** The four windows of the time filter, narrowest first. */
  const TimeLabels: seq<string> := ["since yesterday", "in the last 3 days", "in the last week", "in the last month"]

  /** How many days each window covers. */
  function LabelDays(window: string): nat {
    if window == "since yesterday" then 1
    else if window == "in the last 3 days" then 3
    else if window == "in the last week" then 7
    else 30
  }

  /** `get_time_range(hours_old)` */
  function GetTimeRange(hoursOld: int): (r: string)
    ensures r in TimeLabels
  {
    if hoursOld <= 24 then "since yesterday"
    else if hoursOld <= 72 then "in the last 3 days"
    else if hoursOld <= 168 then "in the last week"
    else "in the last month"
  }

  /** The chosen window is the narrowest of the four that covers postings
      `hoursOld` hours old; the month window takes everything older. */
  lemma TimeRangeNarrowest(hoursOld: int)
    ensures var r := GetTimeRange(hoursOld);
      && (hoursOld <= 24 * LabelDays(r) || r == "in the last month")
      && (forall l :: l in TimeLabels && LabelDays(l) < LabelDays(r) ==> hoursOld > 24 * LabelDays(l))
  {
  }

  /** Older postings never get a narrower window. */
  lemma TimeRangeMonotone(a: int, b: int)
    requires a <= b
    ensures LabelDays(GetTimeRange(a)) <= LabelDays(GetTimeRange(b))
  {
  }

  /** `job_type_mapping`: the words added to the query for four job types. */
  function JobTypeLabel(t: Option<JobType>): (r: Option<string>)
    ensures r.Some? <==> t in {Some(FullTime), Some(PartTime), Some(Internship), Some(Contract)}
  {
    match t
    case Some(FullTime) => Some("Full time")
    case Some(PartTime) => Some("Part time")
    case Some(Internship) => Some("Internship")
    case Some(Contract) => Some("Contract")
    case _ => None
  }

  /** `f"{search_term}"`: a missing term is written as "None". */
  function TermText(t: Option<string>): string {
    if t.Some? then t.value else "None"
  }

  predicate HoursTruthy(h: Option<int>) {
    h.Some? && h.value != 0
  }

  /** The parts appended after "<term> jobs": job type, location, time
      window and the remote flag, each empty when its option is unset. */
  function TypePart(input: ScraperInput): string {
    if JobTypeLabel(input.jobType).Some? then " " + JobTypeLabel(input.jobType).value else ""
  }

  function NearPart(input: ScraperInput): string {
    if TruthyStr(input.location) then " near " + input.location.value else ""
  }

  function TimePart(input: ScraperInput): string {
    if HoursTruthy(input.hoursOld) then " " + GetTimeRange(input.hoursOld.value) else ""
  }

  function RemotePart(input: ScraperInput): string {
    if input.isRemote then " remote" else ""
  }

  /** The query the scraper sends, part by part. */
  function QueryFor(input: ScraperInput): (q: string) {
    if TruthyStr(input.googleSearchTerm) then input.googleSearchTerm.value
    else TermText(input.searchTerm) + " jobs" + TypePart(input) + NearPart(input) + TimePart(input) + RemotePart(input)
  }

  /** The query assembly of `_get_initial_cursor_and_jobs`, by successive
      appends and a final override. */
  method BuildQuery(input: ScraperInput) returns (query: string)
    ensures query == QueryFor(input)
  {
    query := TermText(input.searchTerm) + " jobs";
    var typePart, nearPart, timePart, remotePart := "", "", "", "";
    var typeWords := JobTypeLabel(input.jobType);
    if typeWords.Some? {
      typePart := " " + typeWords.value;
    }
    if TruthyStr(input.location) {
      nearPart := " near " + input.location.value;
    }
    if HoursTruthy(input.hoursOld) {
      timePart := " " + GetTimeRange(input.hoursOld.value);
    }
    if input.isRemote {
      remotePart := " remote";
    }
    assert typePart == TypePart(input) && nearPart == NearPart(input);
    assert timePart == TimePart(input) && remotePart == RemotePart(input);
    query := query + typePart + nearPart + timePart + remotePart;
    if TruthyStr(input.googleSearchTerm) {
      query := input.googleSearchTerm.value;
    }
  }

  /** A non-empty `google_search_term` replaces the assembled query; otherwise
      the query opens with "<term> jobs", and a remote search ends in " remote". */
  lemma QueryShape(input: ScraperInput)
    ensures TruthyStr(input.googleSearchTerm) ==> QueryFor(input) == input.googleSearchTerm.value
    ensures !TruthyStr(input.googleSearchTerm) ==> TermText(input.searchTerm) + " jobs" <= QueryFor(input)
    ensures !TruthyStr(input.googleSearchTerm) && input.isRemote ==>
      var q := QueryFor(input); |q| >= 7 && q[|q| - 7..] == " remote"
  {
    if !TruthyStr(input.googleSearchTerm) {
      ConcatEnds(TermText(input.searchTerm) + " jobs", TypePart(input), NearPart(input), TimePart(input), RemotePart(input));
    }
  }

  /** The first and the last of five concatenated strings stay at the ends. */
  lemma ConcatEnds(head: string, a: string, b: string, c: string, tail: string)
    ensures head <= head + a + b + c + tail
    ensures var q := head + a + b + c + tail; |q| >= |tail| && q[|q| - |tail|..] == tail
  {
    var q := head + a + b + c + tail;
    assert q == head + (a + b + c + tail);
    assert q == (head + a + b + c) + tail;
  }

  // ---------------------------------------------------------------------
  // The initial search response

  /** A response: status code and body text. */
  datatype Response = Response(status: int, text: string)

  /** The direct answer is used only when it is a 200 with at least 1000
      characters that carries the job-data marker. */
  predicate DirectAccepted(r: Response) {
    r.status == 200 && |r.text| >= MinResponseLength && Contains(r.text, JobDataMarker)
  }

  /** The response text as written: a rejected direct answer reaches
      `fs_result["response"]`, but `flaresolverr_get` returns a tuple (also
      `(None, None)` when FlareSolverr is not configured), which is never
      `None` and cannot be indexed by a string, so the lookup raises. */
  function InitialTextAsWritten(direct: Response, fallback: Option<string>): (r: Result<Option<string>>)
    ensures r.Ok? <==> DirectAccepted(direct)
  {
    if DirectAccepted(direct) then Ok(Some(direct.text))
    else Err("TypeError")
  }

  /** As written, a blocked direct request makes the scraper raise even when
      FlareSolverr is not configured, instead of yielding no jobs. */
  lemma AsWrittenBlockedRequestRaises()
    ensures InitialTextAsWritten(Response(429, ""), None).Err?
  {
  }

  /** The response text as intended: the direct answer when accepted,
      otherwise whatever FlareSolverr fetched (`None` when it is not
      configured or failed). */
  function InitialText(direct: Response, fallback: Option<string>): (r: Option<string>)
    ensures DirectAccepted(direct) ==> r == Some(direct.text)
    ensures !DirectAccepted(direct) ==> r == fallback
  {
    if DirectAccepted(direct) then Some(direct.text) else fallback
  }

  /** `not response_text or len(response_text) < MIN_RESPONSE_LENGTH` fails. */
  predicate UsableText(t: Option<string>) {
    t.Some? && |t.value| >= MinResponseLength
  }

  /** With the intended fallback, a rejected direct answer and no FlareSolverr
      give no text to parse (the scraper then returns no jobs), and a usable
      text is either an accepted direct answer or a long enough fallback. */
  lemma InitialTextIntended(direct: Response, fallback: Option<string>)
    ensures !DirectAccepted(direct) && fallback.None? ==> !UsableText(InitialText(direct, fallback))
    ensures UsableText(InitialText(direct, fallback)) <==>
      DirectAccepted(direct) || (fallback.Some? && |fallback.value| >= MinResponseLength)
  {
  }

  // ---------------------------------------------------------------------
  // Records of the initial page (`_parse_job`)

  /** `job_info[12]`: a string, or a value of another type. */
  datatype DaysField = DaysText(text: string) | DaysOther

  /** The fields `_parse_job` reads from one record of the initial page:
      the URL (`job_info[3][0][0]`, absent when empty), title, company,
      location text, the age field, description and key (`job_info[28]`).
      A title or description that is null (or not a string) is `None`. */
  datatype JobInfo = JobInfo(
    url: Option<string>,
    title: Option<string>,
    company: Option<string>,
    location: Option<string>,
    days: DaysField,
    description: Option<string>,
    key: string)

  /** Index of the first digit at or after `i`, or `|s|` when there is none. */
  function FirstDigit(s: string, i: nat): (k: nat)
    requires i <= |s|
    ensures i <= k <= |s| && (k < |s| ==> IsDigit(s[k]))
    ensures forall j :: i <= j < k ==> !IsDigit(s[j])
    decreases |s| - i
  {
    if i == |s| || IsDigit(s[i]) then i else FirstDigit(s, i + 1)
  }

  /** `re.search(r"\d+", s)` from position `i`: the value of the first run
      of digits. */
  function FirstNumberFrom(s: string, i: nat): (r: Option<nat>)
    requires i <= |s|
    ensures r.None? <==> forall k :: i <= k < |s| ==> !IsDigit(s[k])
    ensures r.Some? ==> r.value == Salary.RunValue(s, FirstDigit(s, i))
    decreases |s| - i
  {
    if i == |s| then None
    else if IsDigit(s[i]) then Some(Salary.RunValue(s, i))
    else FirstNumberFrom(s, i + 1)
  }

  /** The posting date of a record: `today - N` for the first number of a
      string age; a string age without a number reaches `timedelta(days=None)`,
      which raises; an age of another type leaves the date unset. */
  function InfoDate(today: Date, days: DaysField): (r: Result<Option<Date>>)
    ensures r.Err? <==> days.DaysText? && forall k :: 0 <= k < |days.text| ==> !IsDigit(days.text[k])
    ensures days.DaysOther? ==> r == Ok(None)
    ensures r.Ok? && r.value.Some? ==> r.value.value <= today
    ensures days.DaysText? && FirstNumberFrom(days.text, 0).Some? ==>
      r == Ok(Some(today - FirstNumberFrom(days.text, 0).value))
  {
    match days
    case DaysOther => Ok(None)
    case DaysText(t) =>
      match FirstNumberFrom(t, 0)
      case Some(n) => Ok(Some(today - n))
      case None => Err("TypeError")
  }

  /** The location of a record: with a comma, the stripped comma-separated
      parts are city, state and (when there is a third) country; otherwise
      the whole text is the city. */
  function InfoLocation(loc: Option<string>): (l: Location)
    ensures !(loc.Some? && ',' in loc.value) ==> l == Location(loc, None, None)
    ensures loc.Some? && ',' in loc.value ==>
      && l.city.Some? && l.state.Some?
      && ',' !in l.city.value && ',' !in l.state.value
      && (l.city.value == [] || !IsSpace(l.city.value[0]))
      && (l.country.Some? <==> |Split(loc.value, ',')| > 2)
    ensures loc.Some? && ',' in loc.value ==>
      var rest := AfterFirst(loc.value, ',');
      && l.city == Some(Strip(FirstField(loc.value, ',')))
      && l.state == Some(Strip(FirstField(rest, ',')))
      && l.country == (if ',' in rest then Some(CountryText(Strip(FirstField(AfterFirst(rest, ','), ',')))) else None)
  {
    if loc.Some? && ',' in loc.value then
      var parts := Split(loc.value, ',');
      SplitParts(loc.value, ',');
      var country := if |parts| > 2 then Some(CountryText(Strip(parts[2]))) else None;
      Location(Some(Strip(parts[0])), Some(Strip(parts[1])), country)
    else Location(loc, None, None)
  }

  /** "remote" or "wfh" occurs in the lower-cased description. */
  predicate MentionsRemote(description: string) {
    Contains(Lower(description), "remote") || Contains(Lower(description), "wfh")
  }

  /** The record `_parse_job` builds for a URL not seen before. The age is
      read first; then `description.lower()` raises `AttributeError` for a
      null description; then constructing the record rejects a null title. */
  function JobFromInfo(env: Env, info: JobInfo): (r: Result<JobPost>)
    ensures r.Err? <==>
      InfoDate(env.today, info.days).Err? || info.description.None? || info.title.None?
    ensures InfoDate(env.today, info.days).Err? ==> r == Err(InfoDate(env.today, info.days).error)
    ensures InfoDate(env.today, info.days).Ok? && info.description.None? ==> r == Err("AttributeError")
    ensures InfoDate(env.today, info.days).Ok? && info.description.Some? && info.title.None? ==>
      r == Err("ValidationError")
    ensures r.Ok? ==> r.value.id == "go-" + info.key && r.value.jobUrl == info.url
    ensures r.Ok? ==> Some(r.value.title) == info.title && r.value.description == info.description
    ensures r.Ok? ==> r.value.location == Some(InfoLocation(info.location))
    ensures r.Ok? ==> r.value.datePosted == InfoDate(env.today, info.days).value
    ensures r.Ok? ==> r.value.isRemote == Some(MentionsRemote(info.description.value))
  {
    match InfoDate(env.today, info.days)
    case Err(e) => Err(e)
    case Ok(date) =>
      match info.description
      case None => Err("AttributeError")
      case Some(d) =>
        match info.title
        case None => Err("ValidationError")
        case Some(title) =>
          Ok(JobPost(
            "go-" + info.key, title, info.company, info.url, None,
            Some(InfoLocation(info.location)), Some(d), None, None,
            Normalise.JobTypesFound(Some(d)), None, date, ExtractEmails(env, Some(d)),
            Some(MentionsRemote(d)), None, None, map[]))
  }

  // ---------------------------------------------------------------------
  // Job cards of the async pages (`_parse_job_card_html`)

  /** What `_parse_job_card_html` reads from one card: the `id` of the inner
      `qodLAe` element (`None` when that element is missing), the share URL
      (`""` when absent), and the texts of the title, company, location and
      date elements and of the description. */
  datatype Card = Card(
    innerId: Option<string>,
    shareUrl: string,
    title: string,
    company: Option<string>,
    locText: string,
    dateText: Option<string>,
    description: string)

  const HtidocidKey: string := "htidocid="
  const JobPageUrl: string := "https://www.google.com/search?ibp=htl;jobs&q&htidocid="

  /** Length of the run of characters other than `&` starting at `i`. */
  function NonAmpRun(s: string, i: nat): (n: nat)
    requires i <= |s|
    ensures i + n <= |s|
    ensures forall k :: i <= k < i + n ==> s[k] != '&'
    ensures i + n == |s| || s[i + n] == '&'
    decreases |s| - i
  {
    if i < |s| && s[i] != '&' then 1 + NonAmpRun(s, i + 1) else 0
  }

  /** `htidocid=([^&]+)` matches at position `i`. */
  predicate HtidocidAt(s: string, i: nat) {
    i + |HtidocidKey| < |s| && s[i..i + |HtidocidKey|] == HtidocidKey && s[i + |HtidocidKey|] != '&'
  }

  /** `re.search(r"htidocid=([^&]+)", s)` from position `i`: the group of the
      leftmost match. */
  function HtidocidFrom(s: string, i: nat): (r: Option<string>)
    requires i <= |s|
    ensures r.Some? ==> r.value != [] && '&' !in r.value
    ensures r.None? <==> forall k :: i <= k <= |s| ==> !HtidocidAt(s, k)
    ensures r.Some? ==> exists k :: i <= k <= |s| && HtidocidAt(s, k) && (forall j :: i <= j < k ==> !HtidocidAt(s, j))
                                    && r.value == s[k + |HtidocidKey|..k + |HtidocidKey| + NonAmpRun(s, k + |HtidocidKey|)]
    decreases |s| - i
  {
    if HtidocidAt(s, i) then
      var start := i + |HtidocidKey|;
      var g := s[start..start + NonAmpRun(s, start)];
      assert forall k :: 0 <= k < |g| ==> g[k] == s[start + k];
      Some(g)
    else if i < |s| then HtidocidFrom(s, i + 1)
    else None
  }

  /** The URL of a card: rebuilt from `htidocid` when the share URL has one,
      otherwise the share URL itself. */
  function CardUrl(shareUrl: string): (u: string)
    ensures HtidocidFrom(shareUrl, 0).None? ==> u == shareUrl
    ensures HtidocidFrom(shareUrl, 0).Some? ==> u == JobPageUrl + HtidocidFrom(shareUrl, 0).value
  {
    match HtidocidFrom(shareUrl, 0)
    case Some(id) => JobPageUrl + id
    case None => shareUrl
  }

  predicate IsLocationDelimiter(c: char) {
    c == '(' || c == '\U{2022}'
  }

  /** Position of the first `(` or bullet, or the length when there is none. */
  function DelimiterIndex(s: string): (i: nat)
    ensures i <= |s|
    ensures forall k :: 0 <= k < i ==> !IsLocationDelimiter(s[k])
    ensures i == |s| || IsLocationDelimiter(s[i])
  {
    if s == [] || IsLocationDelimiter(s[0]) then 0 else 1 + DelimiterIndex(s[1..])
  }

  /** `re.split(r"\s*\(|\s*•", s)[0].strip()`: the stripped text before the
      first `(` or bullet (the whitespace the pattern takes in front of the
      delimiter is removed by the strip either way). */
  function LocationHead(s: string): (h: string)
    ensures forall k :: 0 <= k < |h| ==> !IsLocationDelimiter(h[k])
    ensures h == [] || (!IsSpace(h[0]) && !IsSpace(h[|h| - 1]))
    ensures h == Strip(s[..DelimiterIndex(s)])
  {
    var before := s[..DelimiterIndex(s)];
    var h := Strip(before);
    StripChars(before);
    h
  }

  /** The location of a card: city and state only when the head of the
      location text has a comma; the country is never set. */
  function CardLocation(locText: string): (l: Location)
    ensures l.country.None?
    ensures l.city.Some? <==> ',' in LocationHead(locText)
    ensures l.state.Some? <==> ',' in LocationHead(locText)
    ensures l.city.Some? ==> ',' !in l.city.value
    ensures var h := LocationHead(locText);
      ',' in h ==>
        && l.city == Some(Strip(FirstField(h, ',')))
        && l.state == Some(Strip(FirstField(AfterFirst(h, ','), ',')))
  {
    var head := LocationHead(locText);
    if head != "" && ',' in head then
      var parts := Split(head, ',');
      SplitParts(head, ',');
      Location(Some(Strip(parts[0])), Some(Strip(parts[1])), None)
    else Location(None, None, None)
  }

  /** A record location of three comma-free fields gives each field
      stripped. */
  lemma InfoLocationFields(loc: string, a: string, b: string, c: string)
    requires ',' !in a && ',' !in b && ',' !in c
    requires loc == a + [','] + b + [','] + c
    ensures InfoLocation(Some(loc)) == Location(Some(Strip(a)), Some(Strip(b)), Some(CountryText(Strip(c))))
  {
    TwoFieldsAppend(a, ',', b, c);
  }

  /** A record location "<city>, <state>, <country>" of parts without
      commas or surrounding whitespace gives exactly those three parts. */
  lemma InfoLocationParts(city: string, state: string, country: string)
    requires ',' !in city && ',' !in state && ',' !in country
    requires city == [] || (!IsSpace(city[0]) && !IsSpace(city[|city| - 1]))
    requires state == [] || (!IsSpace(state[0]) && !IsSpace(state[|state| - 1]))
    requires country == [] || (!IsSpace(country[0]) && !IsSpace(country[|country| - 1]))
    ensures InfoLocation(Some(city + ", " + state + ", " + country))
      == Location(Some(city), Some(state), Some(CountryText(country)))
  {
    var s := city + ", " + state + ", " + country;
    assert s == city + [','] + ([' '] + state) + [','] + ([' '] + country);
    InfoLocationFields(s, city, [' '] + state, [' '] + country);
    StripPlain(city);
    StripSpaced(state);
    StripSpaced(country);
  }

  lemma ExampleInfoLocation()
    ensures InfoLocation(Some("Austin" + ", " + "TX" + ", " + "US")) == Location(Some("Austin"), Some("TX"), Some(CountryText("US")))
  {
    InfoLocationParts("Austin", "TX", "US");
  }

  /** The head of a location text that is `before`, without a delimiter,
      followed by a delimiter is the stripped `before`. */
  lemma LocationHeadBefore(t: string, before: string, tail: string)
    requires forall k :: 0 <= k < |before| ==> !IsLocationDelimiter(before[k])
    requires tail != [] && IsLocationDelimiter(tail[0])
    requires t == before + tail
    ensures LocationHead(t) == Strip(before)
  {
    assert forall k | 0 <= k < |before| :: t[k] == before[k];
    assert t[|before|] == tail[0] && t[..|before|] == before;
  }

  /** A card whose location head is two comma-free fields gives each field
      stripped. */
  lemma CardLocationFields(locText: string, a: string, b: string)
    requires ',' !in a && ',' !in b
    requires LocationHead(locText) == a + [','] + b
    ensures CardLocation(locText) == Location(Some(Strip(a)), Some(Strip(b)), None)
  {
    FirstFieldAppend(a, ',', b);
  }

  /** "<city>, <state> " has no delimiter, and without its last space it
      has no surrounding whitespace. */
  lemma CardHead(city: string, state: string)
    requires forall k :: 0 <= k < |city| ==> !IsLocationDelimiter(city[k])
    requires forall k :: 0 <= k < |state| ==> !IsLocationDelimiter(state[k])
    requires city == [] || (!IsSpace(city[0]) && !IsSpace(city[|city| - 1]))
    requires state != [] && !IsSpace(state[0]) && !IsSpace(state[|state| - 1])
    ensures var head := city + [','] + ([' '] + state);
      && (forall k :: 0 <= k < |head + [' ']| ==> !IsLocationDelimiter((head + [' '])[k]))
      && !IsSpace(head[0]) && !IsSpace(head[|head| - 1])
  {
    var head := city + [','] + ([' '] + state);
    var before := head + [' '];
    forall k | 0 <= k < |before|
      ensures !IsLocationDelimiter(before[k])
    {
      if k < |city| {
        assert before[k] == city[k];
      } else if |city| + 2 <= k < |before| - 1 {
        assert before[k] == state[k - |city| - 2];
      }
    }
    assert head[0] == (if city == [] then ',' else city[0]);
    assert head[|head| - 1] == state[|state| - 1];
  }

  /** The card location of `city + ", " + state + " " + tail`, built up
      by its separators. */
  lemma CardLocationSpaced(t: string, city: string, state: string, tail: string)
    requires ',' !in city && ',' !in state
    requires forall k :: 0 <= k < |city| ==> !IsLocationDelimiter(city[k])
    requires forall k :: 0 <= k < |state| ==> !IsLocationDelimiter(state[k])
    requires city == [] || (!IsSpace(city[0]) && !IsSpace(city[|city| - 1]))
    requires state != [] && !IsSpace(state[0]) && !IsSpace(state[|state| - 1])
    requires tail != [] && IsLocationDelimiter(tail[0])
    requires t == city + [','] + ([' '] + state) + [' '] + tail
    ensures CardLocation(t) == Location(Some(city), Some(state), None)
  {
    var head := city + [','] + ([' '] + state);
    CardHead(city, state);
    LocationHeadBefore(t, head + [' '], tail);
    StripTrailingSpace(head);
    CardLocationFields(t, city, [' '] + state);
    StripPlain(city);
    StripSpaced(state);
  }

  /** A card location "<city>, <state> " followed by a `(` or bullet, for
      parts without commas, delimiters or surrounding whitespace and a
      non-empty state, gives that city and state. */
  lemma CardLocationParts(city: string, state: string, tail: string)
    requires ',' !in city && ',' !in state
    requires forall k :: 0 <= k < |city| ==> !IsLocationDelimiter(city[k])
    requires forall k :: 0 <= k < |state| ==> !IsLocationDelimiter(state[k])
    requires city == [] || (!IsSpace(city[0]) && !IsSpace(city[|city| - 1]))
    requires state != [] && !IsSpace(state[0]) && !IsSpace(state[|state| - 1])
    requires tail != [] && IsLocationDelimiter(tail[0])
    ensures CardLocation(city + ", " + state + " " + tail) == Location(Some(city), Some(state), None)
  {
    var t := city + ", " + state + " " + tail;
    assert t == city + [','] + ([' '] + state) + [' '] + tail;
    CardLocationSpaced(t, city, state, tail);
  }

  /** The card location of the source's own comment, "Fresno, CA (+1 other)
      • via Talent.com", is Fresno, CA, with no country. */
  lemma ExampleCardLocation()
    ensures CardLocation("Fresno" + ", " + "CA" + " " + "(+1 other) \U{2022} via Talent.com")
      == Location(Some("Fresno"), Some("CA"), None)
  {
    CardLocationParts("Fresno", "CA", "(+1 other) \U{2022} via Talent.com");
  }

  /** `(\d+)\s+day` matches at `i`: the number of days. */
  function DaysAgoAt(s: string, i: nat): (r: Option<nat>)
    requires i <= |s|
    ensures r.Some? ==> i < |s| && IsDigit(s[i])
    ensures r.Some? ==> r.value == Salary.RunValue(s, i)
    ensures r.Some? ==> var e := i + Salary.DigitRun(s, i); Salary.SpaceRun(s, e) > 0 && "day" <= s[e + Salary.SpaceRun(s, e)..]
  {
    var a := Salary.DigitRun(s, i);
    if a == 0 then None
    else
      var w := Salary.SpaceRun(s, i + a);
      if w > 0 && "day" <= s[i + a + w..] then Some(Salary.RunValue(s, i))
      else None
  }

  /** Leftmost position at or after `i` where "N day" matches, or `|s|`. */
  function FirstDaysAgo(s: string, i: nat): (k: nat)
    requires i <= |s|
    ensures i <= k <= |s|
    ensures forall j :: i <= j < k ==> DaysAgoAt(s, j).None?
    decreases |s| - i
  {
    if i == |s| || DaysAgoAt(s, i).Some? then i else FirstDaysAgo(s, i + 1)
  }

  /** `re.search(r"(\d+)\s+day", s)` from position `i`. */
  function DaysAgoFrom(s: string, i: nat): (r: Option<nat>)
    requires i <= |s|
    ensures r.None? <==> forall k :: i <= k <= |s| ==> DaysAgoAt(s, k).None?
    decreases |s| - i
  {
    if DaysAgoAt(s, i).Some? then DaysAgoAt(s, i)
    else if i < |s| then DaysAgoFrom(s, i + 1)
    else None
  }

  /** The match `DaysAgoFrom` finds is the leftmost one. */
  lemma {:induction false} DaysAgoFromLeftmost(s: string, i: nat)
    requires i <= |s|
    ensures DaysAgoFrom(s, i) == DaysAgoAt(s, FirstDaysAgo(s, i))
    decreases |s| - i
  {
    if DaysAgoAt(s, i).None? && i < |s| {
      DaysAgoFromLeftmost(s, i + 1);
    }
  }

  /** The date a card's age text gives when it has no "N day": yesterday
      for "yesterday", today for "today" or an hour count, otherwise unset. */
  function RelativeDay(today: Date, t: string): (r: Option<Date>)
    ensures r.Some? ==> r.value <= today
    ensures Contains(Lower(t), "yesterday") ==> r == Some(today - 1)
    ensures !Contains(Lower(t), "yesterday") && (Contains(Lower(t), "today") || Contains(Lower(t), "hour")) ==>
      r == Some(today)
    ensures !Contains(Lower(t), "yesterday") && !Contains(Lower(t), "today") && !Contains(Lower(t), "hour") ==>
      r.None?
  {
    var l := Lower(t);
    if Contains(l, "yesterday") then Some(today - 1)
    else if Contains(l, "today") || Contains(l, "hour") then Some(today)
    else None
  }

  /** The posting date of a card: `today - N` for the first "N day(s)",
      otherwise the date `RelativeDay` reads from the words. */
  function CardDate(today: Date, dateText: Option<string>): (r: Option<Date>)
    ensures dateText.None? ==> r.None?
    ensures r.Some? ==> r.value <= today
    ensures dateText.Some? && DaysAgoFrom(dateText.value, 0).Some? ==>
      r == Some(today - DaysAgoFrom(dateText.value, 0).value)
    ensures dateText.Some? && DaysAgoFrom(dateText.value, 0).None? ==> r == RelativeDay(today, dateText.value)
  {
    if dateText.None? then None
    else
      var d := DaysAgoFrom(dateText.value, 0);
      if d.Some? then Some(today - d.value) else RelativeDay(today, dateText.value)
  }

  /** The record `_parse_job_card_html` builds for a card with an id whose
      URL was not seen before. */
  function CardPost(env: Env, card: Card, id: string): (p: JobPost)
    ensures p.id == "go-" + id && p.jobUrl == Some(CardUrl(card.shareUrl))
    ensures p.location == Some(CardLocation(card.locText))
    ensures p.datePosted == CardDate(env.today, card.dateText)
    ensures p.isRemote == Some(MentionsRemote(card.description))
  {
    var d := card.description;
    JobPost(
      "go-" + id, card.title, card.company, Some(CardUrl(card.shareUrl)), None,
      Some(CardLocation(card.locText)), Some(d), None, None,
      Normalise.JobTypesFound(Some(d)), None, CardDate(env.today, card.dateText),
      ExtractEmails(env, Some(d)), Some(MentionsRemote(d)), None, None, map[])
  }

  // ---------------------------------------------------------------------
  // Pagination

  /** What the initial-page extraction yields: the forward cursor (`None`
      when the `Yust4d` element is missing) and the raw records. */
  datatype InitialPage = InitialPage(cursor: Option<string>, infos: seq<JobInfo>)

  /** One async page fetch: it raised, or it returned the cards and the
      next cursor. */
  datatype PageFetch = FetchRaised | Fetched(cards: seq<Card>, cursor: Option<string>)

  /** The forward cursor the initial step ends with, for given oracles. */
  function InitialCursor(input: ScraperInput, direct: string -> Response, fallback: string -> Option<string>,
                         initialPage: string -> InitialPage): Option<string>
  {
    var q := QueryFor(input);
    var t := InitialText(direct(q), fallback(q));
    if UsableText(t) then initialPage(t.value).cursor else None
  }

  /** Every record that `FromInfos` produced came from one of the raw records. */
  predicate FromInfos(env: Env, posts: seq<JobPost>, infos: seq<JobInfo>) {
    forall k :: 0 <= k < |posts| ==> exists i :: 0 <= i < |infos| && JobFromInfo(env, infos[i]) == Ok(posts[k])
  }

  /** Every record that the card loop produced is the `CardPost` of one of
      the cards, built with that card's id. */
  predicate FromCards(env: Env, posts: seq<JobPost>, cards: seq<Card>) {
    forall k :: 0 <= k < |posts| ==> posts[k] in CardPosts(env, cards)
  }

  /** The record of every card that carries an id, in card order. */
  function CardPosts(env: Env, cards: seq<Card>): seq<JobPost>
    decreases |cards|
  {
    if cards == [] then []
    else
      var c := cards[|cards| - 1];
      CardPosts(env, cards[..|cards| - 1]) + (if c.innerId.Some? then [CardPost(env, c, c.innerId.value)] else [])
  }

  /** The card loop of `_parse_jobs` from seen-set `seen`: the records of the
      cards with an id whose URL was not seen yet, in card order, and the
      seen-set afterwards. */
  function ParsedCards(env: Env, cards: seq<Card>, seen: set<Option<string>>): (seq<JobPost>, set<Option<string>>)
    decreases |cards|
  {
    if cards == [] then ([], seen)
    else CardStep(env, ParsedCards(env, cards[..|cards| - 1], seen), cards[|cards| - 1])
  }

  /** One step of the card loop: a card without an id, or whose URL was
      seen, changes nothing; otherwise its URL is recorded and its record
      appended. */
  function CardStep(env: Env, acc: (seq<JobPost>, set<Option<string>>), c: Card): (seq<JobPost>, set<Option<string>>)
  {
    var (jobs, s) := acc;
    if c.innerId.None? || c.innerId.value == "" || Some(CardUrl(c.shareUrl)) in s then acc
    else (jobs + [CardPost(env, c, c.innerId.value)], s + {Some(CardUrl(c.shareUrl))})
  }

  /** The card loop releases a fresh batch, at most one record per card. */
  lemma {:induction false} ParsedCardsFresh(env: Env, cards: seq<Card>, seen: set<Option<string>>)
    ensures FreshBatch(ParsedCards(env, cards, seen).0, seen, ParsedCards(env, cards, seen).1)
    ensures |ParsedCards(env, cards, seen).0| <= |cards|
    decreases |cards|
  {
    if cards != [] {
      var init := cards[..|cards| - 1];
      ParsedCardsFresh(env, init, seen);
      var (jobs, s) := ParsedCards(env, init, seen);
      var c := cards[|cards| - 1];
      if !(c.innerId.None? || c.innerId.value == "" || Some(CardUrl(c.shareUrl)) in s) {
        FreshBatchSnoc(jobs, CardPost(env, c, c.innerId.value), seen, s);
      }
    }
  }

  /** Each record of the card loop is the record of one of the cards. */
  lemma {:induction false} ParsedCardsFromCards(env: Env, cards: seq<Card>, seen: set<Option<string>>)
    ensures FromCards(env, ParsedCards(env, cards, seen).0, cards)
    decreases |cards|
  {
    if cards != [] {
      var init := cards[..|cards| - 1];
      ParsedCardsFromCards(env, init, seen);
      var jobs := ParsedCards(env, init, seen).0;
      var c := cards[|cards| - 1];
      var out := ParsedCards(env, cards, seen).0;
      var all := CardPosts(env, cards);
      assert CardPosts(env, init) <= all;
      forall k | 0 <= k < |out|
        ensures out[k] in all
      {
        if k < |jobs| {
          assert out[k] == jobs[k] && jobs[k] in CardPosts(env, init);
        } else {
          assert out == jobs + [CardPost(env, c, c.innerId.value)];
          assert all[|all| - 1] == out[k];
        }
      }
    }
  }

  /** The record loop of `_get_initial_cursor_and_jobs` from seen-set `seen`:
      the records of the URLs not seen yet, in order, or the first error;
      the URL of the record that raised is already recorded. */
  function ParsedInfos(env: Env, infos: seq<JobInfo>, seen: set<Option<string>>): (Result<seq<JobPost>>, set<Option<string>>)
    decreases |infos|
  {
    if infos == [] then (Ok([]), seen)
    else InfoStep(env, ParsedInfos(env, infos[..|infos| - 1], seen), infos[|infos| - 1])
  }

  /** One step of the record loop: after an error, or for a URL already
      seen, nothing changes; otherwise the URL is recorded and the record
      is appended or its error ends the loop. */
  function InfoStep(env: Env, acc: (Result<seq<JobPost>>, set<Option<string>>), info: JobInfo)
    : (Result<seq<JobPost>>, set<Option<string>>)
  {
    var (r, s) := acc;
    if r.Err? || info.url in s then acc
    else
      match JobFromInfo(env, info)
      case Err(e) => (Err(e), s + {info.url})
      case Ok(p) => (Ok(r.value + [p]), s + {info.url})
  }

  /** Once a record raised, the records after it change nothing. */
  lemma {:induction false} ParsedInfosErrorSticks(env: Env, infos: seq<JobInfo>, k: nat, seen: set<Option<string>>)
    requires k <= |infos| && ParsedInfos(env, infos[..k], seen).0.Err?
    ensures ParsedInfos(env, infos, seen) == ParsedInfos(env, infos[..k], seen)
    decreases |infos|
  {
    if k < |infos| {
      var init := infos[..|infos| - 1];
      assert init[..k] == infos[..k];
      ParsedInfosErrorSticks(env, init, k, seen);
    } else {
      assert infos[..k] == infos;
    }
  }

  /** Without an error the record loop releases a fresh batch, at most one
      record per raw record, each built from one of them. */
  lemma {:induction false} ParsedInfosFresh(env: Env, infos: seq<JobInfo>, seen: set<Option<string>>)
    ensures ParsedInfos(env, infos, seen).0.Ok? ==>
      && FreshBatch(ParsedInfos(env, infos, seen).0.value, seen, ParsedInfos(env, infos, seen).1)
      && FromInfos(env, ParsedInfos(env, infos, seen).0.value, infos)
      && |ParsedInfos(env, infos, seen).0.value| <= |infos|
    decreases |infos|
  {
    if infos != [] {
      var init := infos[..|infos| - 1];
      ParsedInfosFresh(env, init, seen);
      var (r, s) := ParsedInfos(env, init, seen);
      var info := infos[|infos| - 1];
      var out := ParsedInfos(env, infos, seen).0;
      if out.Ok? {
        assert r.Ok?;
        if !(info.url in s) {
          var p := JobFromInfo(env, info).value;
          FreshBatchSnoc(r.value, p, seen, s);
        }
        forall k | 0 <= k < |out.value|
          ensures exists i :: 0 <= i < |infos| && JobFromInfo(env, infos[i]) == Ok(out.value[k])
        {
          if k < |r.value| {
            var i :| 0 <= i < |init| && JobFromInfo(env, init[i]) == Ok(r.value[k]);
            assert infos[i] == init[i];
          } else {
            assert infos[|infos| - 1] == info;
          }
        }
      }
    }
  }

  /** `_get_initial_cursor_and_jobs` from seen-set `seen`: no usable text
      gives no cursor and no jobs; otherwise the record loop's error, or the
      page's cursor and the records. */
  function InitialResult(input: ScraperInput, env: Env, direct: string -> Response, fallback: string -> Option<string>,
                         initialPage: string -> InitialPage, seen: set<Option<string>>)
    : (Result<(Option<string>, seq<JobPost>)>, set<Option<string>>)
  {
    var q := QueryFor(input);
    var t := InitialText(direct(q), fallback(q));
    if !UsableText(t) then (Ok((None, [])), seen)
    else
      var page := initialPage(t.value);
      var (r, s) := ParsedInfos(env, page.infos, seen);
      if r.Err? then (Err(r.error), s) else (Ok((page.cursor, r.value)), s)
  }

  /** A slice of what the cursor loop returns keeps its URLs distinct and seen. */
  lemma PagedSliceKeepsUrls(env: Env, fetch: string -> PageFetch, wanted: nat, cursor: Option<string>,
                            jobList: seq<JobPost>, seen: set<Option<string>>, lo: nat, hi: nat)
    requires DistinctUrls(jobList) && UrlsWithin(jobList, seen)
    ensures var paged := Paged(env, fetch, wanted, cursor, jobList, seen);
      DistinctUrls(PySlice(paged.0, lo, hi)) && UrlsWithin(PySlice(paged.0, lo, hi), paged.1)
  {
    PagedKeepsUrls(env, fetch, wanted, cursor, jobList, seen);
    var paged := Paged(env, fetch, wanted, cursor, jobList, seen);
    SliceKeepsUrls(paged.0, lo, hi, paged.1);
  }

  /** The initial step: no usable text gives no cursor and no jobs and
      records nothing; otherwise it fails exactly when the record loop
      fails, and its jobs are a fresh batch built from the page's records,
      returned with the page's cursor. */
  lemma {:induction false} InitialResultCases(input: ScraperInput, env: Env, direct: string -> Response,
                                              fallback: string -> Option<string>, initialPage: string -> InitialPage,
                                              seen: set<Option<string>>)
    ensures var t := InitialText(direct(QueryFor(input)), fallback(QueryFor(input)));
      !UsableText(t) ==> InitialResult(input, env, direct, fallback, initialPage, seen) == (Ok((None, [])), seen)
    ensures var t := InitialText(direct(QueryFor(input)), fallback(QueryFor(input)));
      UsableText(t) ==>
        (InitialResult(input, env, direct, fallback, initialPage, seen).0.Err? <==>
         ParsedInfos(env, initialPage(t.value).infos, seen).0.Err?)
    ensures var t := InitialText(direct(QueryFor(input)), fallback(QueryFor(input)));
      var first := InitialResult(input, env, direct, fallback, initialPage, seen);
      UsableText(t) && first.0.Ok? ==>
        && first.0.value.0 == initialPage(t.value).cursor
        && FromInfos(env, first.0.value.1, initialPage(t.value).infos)
        && FreshBatch(first.0.value.1, seen, first.1)
  {
    var t := InitialText(direct(QueryFor(input)), fallback(QueryFor(input)));
    if UsableText(t) {
      ParsedInfosFresh(env, initialPage(t.value).infos, seen);
    }
  }

  /** The cursor loop of `Google.scrape` from the given cursor, list and
      seen-set: it stops once `wanted` URLs were seen, when the cursor is
      missing or empty, when a fetch raises, or when a page brings no new
      job; otherwise it appends the page's jobs and fetches with the cursor
      that page returned. Earlier jobs are kept. */
  function Paged(env: Env, fetch: string -> PageFetch, wanted: nat, cursor: Option<string>,
                 jobList: seq<JobPost>, seen: set<Option<string>>): (r: (seq<JobPost>, set<Option<string>>))
    ensures jobList <= r.0
    decreases wanted - |seen|
  {
    if |seen| >= wanted || cursor.None? || cursor.value == "" then (jobList, seen)
    else
      match fetch(cursor.value)
      case FetchRaised => (jobList, seen)
      case Fetched(cards, next) =>
        var (jobs, s) := ParsedCards(env, cards, seen);
        if jobs == [] then (jobList, s)
        else
          ParsedCardsFresh(env, cards, seen);
          var r := Paged(env, fetch, wanted, next, jobList + jobs, s);
          assert jobList <= jobList + jobs;
          r
  }

  /** The cursor loop keeps the URLs of the list distinct and seen. */
  lemma {:induction false} PagedKeepsUrls(env: Env, fetch: string -> PageFetch, wanted: nat, cursor: Option<string>,
                                          jobList: seq<JobPost>, seen: set<Option<string>>)
    requires DistinctUrls(jobList) && UrlsWithin(jobList, seen)
    ensures DistinctUrls(Paged(env, fetch, wanted, cursor, jobList, seen).0)
    ensures UrlsWithin(Paged(env, fetch, wanted, cursor, jobList, seen).0, Paged(env, fetch, wanted, cursor, jobList, seen).1)
    decreases wanted - |seen|
  {
    if !(|seen| >= wanted || cursor.None? || cursor.value == "") && fetch(cursor.value).Fetched? {
      var cards := fetch(cursor.value).cards;
      var (jobs, s) := ParsedCards(env, cards, seen);
      ParsedCardsFresh(env, cards, seen);
      if jobs == [] {
        forall k | 0 <= k < |jobList|
          ensures jobList[k].jobUrl in s
        {
        }
      } else {
        AppendFreshBatch(jobList, jobs, seen, s);
        PagedKeepsUrls(env, fetch, wanted, fetch(cursor.value).cursor, jobList + jobs, s);
      }
    }
  }

  /** `Google.scrape` from seen-set `seen` with the clamped `results_wanted`
      `rw`: the initial step's error; its jobs when it found no cursor;
      otherwise the slice `[offset : offset + rw]` of what the cursor loop
      returns when it runs until `rw + offset` URLs were seen. The seen-set
      afterwards comes with it. */
  function ScrapeOutcome(input: ScraperInput, env: Env, direct: string -> Response, fallback: string -> Option<string>,
                         initialPage: string -> InitialPage, fetch: string -> PageFetch, rw: nat,
                         seen: set<Option<string>>): (Result<seq<JobPost>>, set<Option<string>>)
  {
    var first := InitialResult(input, env, direct, fallback, initialPage, seen);
    match first.0
    case Err(e) => (Err(e), first.1)
    case Ok((cursor, jobs)) =>
      if cursor.None? then (Ok(jobs), first.1)
      else
        var paged := Paged(env, fetch, rw + input.offset, cursor, jobs, first.1);
        (Ok(PySlice(paged.0, input.offset, input.offset + rw)), paged.1)
  }

  /** `ScrapeOutcome` for each outcome of the initial step. */
  lemma ScrapeOutcomeSteps(input: ScraperInput, env: Env, direct: string -> Response, fallback: string -> Option<string>,
                           initialPage: string -> InitialPage, fetch: string -> PageFetch, rw: nat,
                           seen: set<Option<string>>, first: (Result<(Option<string>, seq<JobPost>)>, set<Option<string>>))
    requires first == InitialResult(input, env, direct, fallback, initialPage, seen)
    ensures first.0.Err? ==> ScrapeOutcome(input, env, direct, fallback, initialPage, fetch, rw, seen) == (Err(first.0.error), first.1)
    ensures first.0.Ok? && first.0.value.0.None? ==>
      ScrapeOutcome(input, env, direct, fallback, initialPage, fetch, rw, seen) == (Ok(first.0.value.1), first.1)
    ensures first.0.Ok? && first.0.value.0.Some? ==>
      var paged := Paged(env, fetch, rw + input.offset, first.0.value.0, first.0.value.1, first.1);
      ScrapeOutcome(input, env, direct, fallback, initialPage, fetch, rw, seen) ==
        (Ok(PySlice(paged.0, input.offset, input.offset + rw)), paged.1)
  {
  }

  /** The jobs `Google.scrape` returns have distinct URLs, all of them seen. */
  lemma ScrapeOutcomeKeepsUrls(input: ScraperInput, env: Env, direct: string -> Response, fallback: string -> Option<string>,
                               initialPage: string -> InitialPage, fetch: string -> PageFetch, rw: nat,
                               seen: set<Option<string>>)
    ensures var out := ScrapeOutcome(input, env, direct, fallback, initialPage, fetch, rw, seen);
      out.0.Ok? ==> DistinctUrls(out.0.value) && UrlsWithin(out.0.value, out.1)
  {
    InitialResultCases(input, env, direct, fallback, initialPage, seen);
    var first := InitialResult(input, env, direct, fallback, initialPage, seen);
    if first.0.Ok? && first.0.value.0.Some? {
      PagedSliceKeepsUrls(env, fetch, rw + input.offset, first.0.value.0, first.0.value.1, first.1,
                          input.offset, input.offset + rw);
    }
  }

  /** With a cursor on the initial page, `Google.scrape` returns at most `rw` jobs. */
  lemma ScrapeOutcomeBound(input: ScraperInput, env: Env, direct: string -> Response, fallback: string -> Option<string>,
                           initialPage: string -> InitialPage, fetch: string -> PageFetch, rw: nat,
                           seen: set<Option<string>>)
    ensures var out := ScrapeOutcome(input, env, direct, fallback, initialPage, fetch, rw, seen);
      InitialCursor(input, direct, fallback, initialPage).Some? && out.0.Ok? ==> |out.0.value| <= rw
  {
    InitialResultCases(input, env, direct, fallback, initialPage, seen);
  }

  class GoogleScraper {
    /** `seen_urls` */
    var seenUrls: set<Option<string>>

    constructor ()
      ensures seenUrls == {}
    {
      seenUrls := {};
    }

    /** `_parse_job(job_info)`: `None` for a URL already seen; otherwise the
        URL is recorded before the record is built. */
    method ParseJob(env: Env, info: JobInfo) returns (r: Result<Option<JobPost>>)
      modifies this
      ensures info.url in old(seenUrls) ==> r == Ok(None) && seenUrls == old(seenUrls)
      ensures info.url !in old(seenUrls) ==> seenUrls == old(seenUrls) + {info.url}
      ensures info.url !in old(seenUrls) ==>
        r == match JobFromInfo(env, info) case Ok(p) => Ok(Some(p)) case Err(e) => Err(e)
    {
      if info.url in seenUrls {
        return Ok(None);
      }
      seenUrls := seenUrls + {info.url};
      var date := InfoDate(env.today, info.days);
      if date.Err? {
        return Err(date.error);
      }
      if info.description.None? {
        return Err("AttributeError");
      }
      var d := info.description.value;
      if info.title.None? {
        return Err("ValidationError");
      }
      var jobType := Normalise.ExtractJobType(Some(d));
      var post := JobPost(
        "go-" + info.key, info.title.value, info.company, info.url, None,
        Some(InfoLocation(info.location)), Some(d), None, None,
        jobType, None, date.value, ExtractEmails(env, Some(d)),
        Some(MentionsRemote(d)), None, None, map[]);
      return Ok(Some(post));
    }

    /** The loop of `_get_initial_cursor_and_jobs` over the raw records; a
        record that raises ends it and the exception propagates. */
    method ParseInfos(env: Env, infos: seq<JobInfo>) returns (r: Result<seq<JobPost>>)
      modifies this
      ensures (r, seenUrls) == ParsedInfos(env, infos, old(seenUrls))
      ensures r.Ok? ==> FreshBatch(r.value, old(seenUrls), seenUrls)
      ensures r.Ok? ==> FromInfos(env, r.value, infos) && |r.value| <= |infos|
    {
      var jobs: seq<JobPost> := [];
      var k := 0;
      while k < |infos|
        invariant 0 <= k <= |infos|
        invariant (Ok(jobs), seenUrls) == ParsedInfos(env, infos[..k], old(seenUrls))
      {
        ghost var step := InfoStep(env, (Ok(jobs), seenUrls), infos[k]);
        assert ParsedInfos(env, infos[..k + 1], old(seenUrls)) == step by {
          assert infos[..k + 1][..k] == infos[..k];
        }
        var post := ParseJob(env, infos[k]);
        if post.Err? {
          ParsedInfosErrorSticks(env, infos, k + 1, old(seenUrls));
          return Err(post.error);
        }
        if post.value.Some? {
          jobs := jobs + [post.value.value];
        }
        k := k + 1;
      }
      assert infos[..k] == infos;
      ParsedInfosFresh(env, infos, old(seenUrls));
      return Ok(jobs);
    }

    /** `_parse_job_card_html(card)`: `None` without an id or for a URL
        already seen; otherwise the URL is recorded first. */
    method ParseCard(env: Env, card: Card) returns (r: Option<JobPost>)
      modifies this
      ensures (card.innerId.None? || card.innerId == Some("")) ==> r.None? && seenUrls == old(seenUrls)
      ensures card.innerId.Some? && card.innerId != Some("") && Some(CardUrl(card.shareUrl)) in old(seenUrls) ==>
        r.None? && seenUrls == old(seenUrls)
      ensures card.innerId.Some? && card.innerId != Some("") && Some(CardUrl(card.shareUrl)) !in old(seenUrls) ==>
        seenUrls == old(seenUrls) + {Some(CardUrl(card.shareUrl))} && r == Some(CardPost(env, card, card.innerId.value))
    {
      if card.innerId.None? || card.innerId.value == "" {
        return None;
      }
      var url := CardUrl(card.shareUrl);
      if Some(url) in seenUrls {
        return None;
      }
      seenUrls := seenUrls + {Some(url)};
      var jobType := Normalise.ExtractJobType(Some(card.description));
      r := Some(JobPost(
        "go-" + card.innerId.value, card.title, card.company, Some(url), None,
        Some(CardLocation(card.locText)), Some(card.description), None, None,
        jobType, None, CardDate(env.today, card.dateText),
        ExtractEmails(env, Some(card.description)), Some(MentionsRemote(card.description)),
        None, None, map[]));
    }

    /** The card loop of `_parse_jobs`. */
    method ParseCards(env: Env, cards: seq<Card>) returns (jobs: seq<JobPost>)
      modifies this
      ensures (jobs, seenUrls) == ParsedCards(env, cards, old(seenUrls))
      ensures FreshBatch(jobs, old(seenUrls), seenUrls)
      ensures |jobs| <= |cards| && FromCards(env, jobs, cards)
    {
      jobs := [];
      var k := 0;
      while k < |cards|
        invariant 0 <= k <= |cards|
        invariant (jobs, seenUrls) == ParsedCards(env, cards[..k], old(seenUrls))
      {
        var post := ParseCard(env, cards[k]);
        if post.Some? {
          jobs := jobs + [post.value];
        }
        assert cards[..k + 1][..k] == cards[..k];
        k := k + 1;
      }
      assert cards[..k] == cards;
      ParsedCardsFresh(env, cards, old(seenUrls));
      ParsedCardsFromCards(env, cards, old(seenUrls));
    }

    /** `_get_initial_cursor_and_jobs` with the intended FlareSolverr
        fallback: no usable text gives no cursor and no jobs. */
    method InitialCursorAndJobs(input: ScraperInput, env: Env, direct: string -> Response,
                                fallback: string -> Option<string>, initialPage: string -> InitialPage)
      returns (r: Result<(Option<string>, seq<JobPost>)>)
      modifies this
      ensures (r, seenUrls) == InitialResult(input, env, direct, fallback, initialPage, old(seenUrls))
      ensures r.Ok? ==> r.value.0 == InitialCursor(input, direct, fallback, initialPage)
      ensures r.Ok? ==> FreshBatch(r.value.1, old(seenUrls), seenUrls)
    {
      var query := BuildQuery(input);
      var text := InitialText(direct(query), fallback(query));
      if !UsableText(text) {
        return Ok((None, []));
      }
      var page := initialPage(text.value);
      var jobs := ParseInfos(env, page.infos);
      if jobs.Err? {
        return Err(jobs.error);
      }
      return Ok((page.cursor, jobs.value));
    }

    /** The cursor loop of `Google.scrape`. */
    method FollowCursor(env: Env, fetch: string -> PageFetch, wanted: nat, cursor: Option<string>, jobList: seq<JobPost>)
      returns (jobs: seq<JobPost>)
      modifies this
      ensures (jobs, seenUrls) == Paged(env, fetch, wanted, cursor, jobList, old(seenUrls))
    {
      var c := cursor;
      jobs := jobList;
      while |seenUrls| < wanted && c.Some? && c.value != ""
        invariant Paged(env, fetch, wanted, c, jobs, seenUrls) == Paged(env, fetch, wanted, cursor, jobList, old(seenUrls))
        decreases wanted - |seenUrls|
      {
        var page := fetch(c.value);
        match page {
          case FetchRaised =>
            break;
          case Fetched(cards, next) =>
            var batch := ParseCards(env, cards);
            c := next;
            if batch == [] {
              break;
            }
            jobs := jobs + batch;
        }
      }
    }

    /** `Google.scrape`: clamp `results_wanted` in the shared input, take the
        initial page, then follow the cursor until enough URLs were seen, the
        cursor runs out, a fetch raises or a page brings no new job; finally
        slice `[offset : offset + results_wanted]`. */
    method Scrape(input: ScraperInput, env: Env, direct: string -> Response, fallback: string -> Option<string>,
                  initialPage: string -> InitialPage, fetch: string -> PageFetch)
      returns (r: Result<seq<JobPost>>)
      modifies this, input
      ensures input.resultsWanted == ClampWanted(old(input.resultsWanted))
      ensures (r, seenUrls) == ScrapeOutcome(input, env, direct, fallback, initialPage, fetch, input.resultsWanted, old(seenUrls))
      ensures r.Ok? ==> DistinctUrls(r.value) && UrlsWithin(r.value, seenUrls)
      ensures r.Ok? && InitialCursor(input, direct, fallback, initialPage).Some? ==>
        |r.value| <= input.resultsWanted
    {
      var rw := ClampWanted(input.resultsWanted);
      input.resultsWanted := rw;
      ghost var seen := seenUrls;
      ScrapeOutcomeKeepsUrls(input, env, direct, fallback, initialPage, fetch, rw, seen);
      ScrapeOutcomeBound(input, env, direct, fallback, initialPage, fetch, rw, seen);
      var initial := InitialCursorAndJobs(input, env, direct, fallback, initialPage);
      ScrapeOutcomeSteps(input, env, direct, fallback, initialPage, fetch, rw, seen, (initial, seenUrls));
      if initial.Err? {
        r := Err(initial.error);
      } else if initial.value.0.None? {
        r := Ok(initial.value.1);
      } else {
        var jobList := FollowCursor(env, fetch, rw + input.offset, initial.value.0, initial.value.1);
        r := Ok(PySlice(jobList, input.offset, input.offset + rw));
      }
      assert (r, seenUrls) == ScrapeOutcome(input, env, direct, fallback, initialPage, fetch, rw, seen);
      assert input.resultsWanted == rw;
    }
  }
}
