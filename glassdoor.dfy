/** The Glassdoor scraper: the location lookup and its fallback, the search
    payload, the dedup and field rules of one listing, the page-level error
    contract and the page-range loop that feeds each page's cursor to the
    next. The GraphQL requests, the description fetch, `parse_location`,
    `parse_compensation` and `get_cursor_for_page` are oracles. */
module GlassdoorJobs {
  import opened Wrappers
  import opened Text
  import opened Model

  /** `jobs_per_page` */
  const JobsPerPage: nat := 30
  /** `max_pages` */
  const MaxPages: nat := 30

  // ---------------------------------------------------------------------
  // Location lookup (`_get_location`)

  /** One entry of the popular-locations answer. */
  datatype LocationItem = LocationItem(locationType: string, locationId: int)

  /** The answer of the popular-locations lookup: status and items. */
  datatype LocationResponse = LocationResponse(status: int, items: seq<LocationItem>)

  /** The location every failure falls back to: remote, as a state. */
  const FallbackLocation: (int, string) := (11047, "STATE")

  /** The one-letter location codes and their spelled-out forms; any other
      code is kept as it is. */
  function MapLocationType(code: string): (t: string)
    ensures code == "C" ==> t == "CITY"
    ensures code == "S" ==> t == "STATE"
    ensures code == "N" ==> t == "COUNTRY"
    ensures code !in {"C", "S", "N"} ==> t == code
  {
    if code == "C" then "CITY"
    else if code == "S" then "STATE"
    else if code == "N" then "COUNTRY"
    else code
  }

  /** Mapping a mapped type changes nothing more, so no one-letter code
      survives the mapping. */
  lemma MapLocationTypeIdempotent(code: string)
    ensures MapLocationType(MapLocationType(code)) == MapLocationType(code)
    ensures MapLocationType(code) !in {"C", "S", "N"}
  {
    assert "CITY"[0] == 'C' && |"CITY"| == 4;
    assert "STATE"[0] == 'S' && |"STATE"| == 5;
    assert "COUNTRY"[0] == 'C' && |"COUNTRY"| == 7;
  }

  /** `_get_location(location, is_remote)`: the remote fallback for no
      location, a remote search, a failed lookup or an empty answer;
      otherwise the first item's id and mapped type. */
  function GetLocation(location: Option<string>, isRemote: bool, lookup: string -> LocationResponse): (r: (int, string))
    ensures location.None? || location == Some("") || isRemote ==> r == FallbackLocation
    ensures location.Some? && location != Some("") && !isRemote ==>
      var res := lookup(location.value);
      && (res.status != 200 || res.items == [] ==> r == FallbackLocation)
      && (res.status == 200 && res.items != [] ==>
            r == (res.items[0].locationId, MapLocationType(res.items[0].locationType)))
  {
    if location.None? || location.value == "" || isRemote then FallbackLocation
    else
      var res := lookup(location.value);
      if res.status != 200 then FallbackLocation
      else if res.items == [] then FallbackLocation
      else (res.items[0].locationId, MapLocationType(res.items[0].locationType))
  }

  /** Whatever the lookup answers, the location is either the fallback or
      the first item of a successful answer, and never a one-letter code. */
  lemma GetLocationOutcomes(location: Option<string>, isRemote: bool, lookup: string -> LocationResponse)
    ensures var r := GetLocation(location, isRemote, lookup);
      || r == FallbackLocation
      || (location.Some? && lookup(location.value).status == 200 && lookup(location.value).items != []
          && r.0 == lookup(location.value).items[0].locationId)
    ensures GetLocation(location, isRemote, lookup).1 !in {"C", "S", "N"}
  {
    assert "STATE"[0] == 'S' && |"STATE"| == 5;
    if location.Some? && location.value != "" && !isRemote {
      var res := lookup(location.value);
      if res.status == 200 && res.items != [] {
        MapLocationTypeIdempotent(res.items[0].locationType);
      }
    }
  }

  // ---------------------------------------------------------------------
  // Search payload (`_add_payload`)

  /** The keys of `filterParams`, in the order they are appended. */
  datatype FilterKey = ApplicationType | FromAge | JobTypeKey

  function FilterKeyName(k: FilterKey): string {
    match k
    case ApplicationType => "applicationType"
    case FromAge => "fromAge"
    case JobTypeKey => "jobType"
  }

  /** One entry of `filterParams`. */
  datatype Filter = Filter(filterKey: FilterKey, values: string)

  /** The variables of the `JobSearchResultsQuery` request that vary; every
      request also carries `numJobsToShow` 30, `sort` "date", an empty
      `excludeJobListingIds` and the fixed query text. */
  datatype Payload = Payload(
    filterParams: seq<Filter>,
    keyword: Option<string>,
    locationType: string,
    locationId: int,
    pageNumber: int,
    pageCursor: Option<string>,
    fromage: Option<int>)

  /** `parameterUrlInput`, rendered from the location of the payload. */
  function ParameterUrlInput(p: Payload): string {
    "IL.0,12_I" + p.locationType + IntToString(p.locationId)
  }

  /** `max(hours_old // 24, 1)` when `hours_old` is set and non-zero. Python's
      floor division agrees with Dafny's `/` for the positive divisor. */
  function Fromage(hoursOld: Option<int>): (r: Option<int>)
    ensures r.Some? <==> hoursOld.Some? && hoursOld.value != 0
    ensures r.Some? ==> r.value >= 1
    ensures r.Some? && hoursOld.value >= 24 ==> 24 * r.value <= hoursOld.value < 24 * (r.value + 1)
    ensures r.Some? && hoursOld.value < 48 ==> r.value == 1
  {
    if hoursOld.Some? && hoursOld.value != 0 then
      var days := hoursOld.value / 24;
      Some(if days > 1 then days else 1)
    else None
  }

  /** The filter each option contributes. */
  function ApplicationFilter(input: ScraperInput): seq<Filter> {
    if input.easyApply then [Filter(ApplicationType, "1")] else []
  }

  function AgeFilter(input: ScraperInput): seq<Filter> {
    var fromage := Fromage(input.hoursOld);
    if fromage.Some? then [Filter(FromAge, IntToString(fromage.value))] else []
  }

  function TypeFilter(input: ScraperInput): seq<Filter> {
    if input.jobType.Some? then [Filter(JobTypeKey, JobTypeValues(input.jobType.value)[0])] else []
  }

  /** The filters, in the order they are appended. */
  function FiltersFor(input: ScraperInput): (fs: seq<Filter>) {
    ApplicationFilter(input) + AgeFilter(input) + TypeFilter(input)
  }

  /** The payload for one page. */
  function PayloadFor(input: ScraperInput, loc: (int, string), page: int, cursor: Option<string>): Payload {
    Payload(FiltersFor(input), input.searchTerm, loc.1, loc.0, page, cursor, Fromage(input.hoursOld))
  }

  /** The position of each filter key in the fixed order. */
  function FilterRank(key: FilterKey): nat {
    match key
    case ApplicationType => 0
    case FromAge => 1
    case JobTypeKey => 2
  }

  /** Each filter is present exactly when its option is set, with the
      value the option gives, and the filters keep the fixed order
      applicationType, fromAge, jobType. */
  lemma FiltersSpec(input: ScraperInput)
    ensures var fs := FiltersFor(input);
      && (forall i, j :: 0 <= i < j < |fs| ==> FilterRank(fs[i].filterKey) < FilterRank(fs[j].filterKey))
      && (Filter(ApplicationType, "1") in fs <==> input.easyApply)
      && ((exists v :: Filter(FromAge, v) in fs) <==> input.hoursOld.Some? && input.hoursOld.value != 0)
      && (input.jobType.Some? ==> Filter(JobTypeKey, JobTypeValues(input.jobType.value)[0]) in fs)
      && (input.jobType.None? ==> forall f :: f in fs ==> f.filterKey != JobTypeKey)
      && |fs| <= 3
  {
    var a, b, c := ApplicationFilter(input), AgeFilter(input), TypeFilter(input);
    var fromage := Fromage(input.hoursOld);
    var fs := FiltersFor(input);
    assert fs == a + b + c;
    assert forall f :: f in fs <==> f in a || f in b || f in c;
    if fromage.Some? {
      assert Filter(FromAge, IntToString(fromage.value)) in fs;
    }
  }

  /** The location reaches the payload both as its fields and inside
      `parameterUrlInput`. */
  lemma PayloadLocation(input: ScraperInput, loc: (int, string), page: int, cursor: Option<string>)
    ensures var p := PayloadFor(input, loc, page, cursor);
      && p.locationId == loc.0 && p.locationType == loc.1
      && ParameterUrlInput(p) == "IL.0,12_I" + loc.1 + IntToString(loc.0)
      && p.pageNumber == page && p.pageCursor == cursor
  {
  }

  /** `_add_payload(location_id, location_type, page_num, cursor)`: the
      filters are appended one option at a time. */
  method AddPayload(input: ScraperInput, loc: (int, string), page: int, cursor: Option<string>) returns (p: Payload)
    ensures p == PayloadFor(input, loc, page, cursor)
    ensures p.pageNumber == page && p.pageCursor == cursor
  {
    var fromage := Fromage(input.hoursOld);
    var filters: seq<Filter> := [];
    if input.easyApply {
      filters := filters + [Filter(ApplicationType, "1")];
    }
    assert filters == ApplicationFilter(input);
    if fromage.Some? {
      filters := filters + [Filter(FromAge, IntToString(fromage.value))];
    }
    assert filters == ApplicationFilter(input) + AgeFilter(input);
    if input.jobType.Some? {
      filters := filters + [Filter(JobTypeKey, JobTypeValues(input.jobType.value)[0])];
    }
    assert filters == FiltersFor(input);
    p := Payload(filters, input.searchTerm, loc.1, loc.0, page, cursor, fromage);
  }

  // ---------------------------------------------------------------------
  // One listing (`_process_job`)

  /** What `_process_job` reads from one search result: the listing id,
      title, employer name and id, location name and type (`""` when
      absent), age in days, what `parse_compensation` makes of the header,
      the square logo and the sponsorship level (`""` when absent). */
  datatype Listing = Listing(
    listingId: string,
    title: string,
    companyName: Option<string>,
    employerId: Option<int>,
    locationName: string,
    locationType: string,
    ageInDays: Option<int>,
    compensation: Option<Compensation>,
    squareLogo: Option<string>,
    sponsorship: string)

  /** The collaborators of one job: `parse_location` (which may give
      `None`) and the description fetch (`None` when it fails), already
      converted per `description_format`. */
  datatype Collaborators = Collaborators(
    parseLocation: string -> Option<Location>,
    fetchDescription: string -> Option<string>)

  /** The dedup key and URL of a listing. */
  function ListingUrl(baseUrl: string, l: Listing): string {
    baseUrl + "job-listing/j?jl=" + l.listingId
  }

  /** The record `_process_job` builds for a URL not seen before. The age
      goes through `timedelta` before its `None` test, so a missing age
      raises. */
  function ListingPost(env: Env, co: Collaborators, baseUrl: string, l: Listing): (r: Result<JobPost>)
    ensures r.Err? <==> l.ageInDays.None?
    ensures r.Ok? ==> r.value.jobUrl == Some(ListingUrl(baseUrl, l))
  {
    match l.ageInDays
    case None => Err("TypeError")
    case Some(age) =>
      var remote := l.locationType == "S";
      var location := if remote then None else co.parseLocation(l.locationName);
      var description := co.fetchDescription(l.listingId);
      var companyUrl :=
        if l.employerId.Some? && l.employerId.value != 0
        then Some(baseUrl + "Overview/W-EI_IE" + IntToString(l.employerId.value) + ".htm")
        else None;
      Ok(JobPost(
        "gd-" + l.listingId, l.title, l.companyName, Some(ListingUrl(baseUrl, l)), None,
        location, description, companyUrl, l.squareLogo, None, l.compensation,
        Some(env.today - age), ExtractEmails(env, description), Some(remote),
        Some(Lower(l.sponsorship)), None, map[]))
  }

  /** The field rules of a listing's record: the `gd-` id, the age turned
      into a date, a listing of type "S" is remote and has no location while
      every other one has whatever `parse_location` gives, the company page only for a truthy employer
      id, the lower-cased sponsorship level, and emails from the fetched
      description. */
  lemma ListingPostFields(env: Env, co: Collaborators, baseUrl: string, l: Listing)
    requires l.ageInDays.Some?
    ensures var p := ListingPost(env, co, baseUrl, l).value;
      && p.id == "gd-" + l.listingId
      && p.datePosted == Some(env.today - l.ageInDays.value)
      && p.isRemote == Some(l.locationType == "S")
      && (l.locationType == "S" ==> p.location.None?)
      && (l.locationType != "S" ==> p.location == co.parseLocation(l.locationName))
      && (p.companyUrl.Some? <==> l.employerId.Some? && l.employerId.value != 0)
      && p.listingType == Some(Lower(l.sponsorship))
      && p.description == co.fetchDescription(l.listingId)
      && p.emails == ExtractEmails(env, co.fetchDescription(l.listingId))
      && p.compensation == l.compensation && p.companyLogo == l.squareLogo
  {
  }

  // ---------------------------------------------------------------------
  // Pages

  /** The answer of one search request: the request phase failed (bad
      status, an `errors` key, an exception), or the listings with the
      cursor `get_cursor_for_page` finds for the next page. */
  datatype SearchResponse = RequestFailed | Listings(listings: seq<Listing>, nextCursor: Option<string>)

  /** Some listing of the page has no age. */
  predicate HasAgeless(listings: seq<Listing>) {
    exists k :: 0 <= k < |listings| && listings[k].ageInDays.None?
  }

  /** A listing without age in the first `k + 1`, given one in the first
      `k` or at position `k`. */
  lemma AgelessPrefixGrows(listings: seq<Listing>, k: nat)
    requires k < |listings|
    requires HasAgeless(listings[..k]) || listings[k].ageInDays.None?
    ensures HasAgeless(listings[..k + 1])
  {
    var p := listings[..k + 1];
    if listings[k].ageInDays.None? {
      assert p[k] == listings[k];
    } else {
      var i :| 0 <= i < k && listings[..k][i].ageInDays.None?;
      assert p[i] == listings[..k][i];
    }
  }

  /** The cursor a page hands to the next one: none after a failed request. */
  function CursorAfter(res: SearchResponse): Option<string> {
    match res
    case RequestFailed => None
    case Listings(_, c) => c
  }

  /** The first and the exclusive last page of the range. */
  function RangeStart(offset: nat): nat {
    1 + offset / JobsPerPage
  }

  function RangeEnd(resultsWanted: nat): nat {
    var total := resultsWanted / JobsPerPage + 2;
    if total < MaxPages + 1 then total else MaxPages + 1
  }

  /** How many pages the range holds. */
  function PageCount(resultsWanted: nat, offset: nat): nat {
    if RangeStart(offset) < RangeEnd(resultsWanted) then RangeEnd(resultsWanted) - RangeStart(offset) else 0
  }

  /** At most thirty pages are fetched; without an offset, and for a clamped
      `results_wanted`, full pages would be enough to reach the target. */
  lemma PageRangeBounds(resultsWanted: nat, offset: nat)
    ensures PageCount(resultsWanted, offset) <= MaxPages
    ensures offset == 0 && resultsWanted <= MaxResults ==> JobsPerPage * PageCount(resultsWanted, offset) >= resultsWanted
    ensures offset >= JobsPerPage * MaxPages ==> PageCount(resultsWanted, offset) == 0
  {
  }

  /** Requests sent for consecutive pages from `start`, the first with
      `cursor` and each later one with the cursor the answer before it gave. */
  predicate Chained(sent: seq<Payload>, start: nat, cursor: Option<string>, post: Payload -> SearchResponse) {
    && (forall k :: 0 <= k < |sent| ==> sent[k].pageNumber == start + k)
    && (|sent| > 0 ==> sent[0].pageCursor == cursor)
    && (forall k :: 0 <= k < |sent| - 1 ==> sent[k + 1].pageCursor == CursorAfter(post(sent[k])))
  }

  // ---------------------------------------------------------------------
  // The job loop and the page loop, as functions of what they are given

  /** What the job loop of `_fetch_jobs_page` carries: the records released,
      the message of the first exception, and `seen_urls`. */
  type ListingsState = (seq<JobPost>, Option<string>, set<Option<string>>)

  /** One turn of the job loop: a listing whose URL was seen changes
      nothing; otherwise its URL is recorded and either its record is
      released or, when it has no age, the exception is kept (only the
      first one counts, and no record is released after it). */
  function ListingStep(env: Env, co: Collaborators, baseUrl: string, acc: ListingsState, l: Listing): ListingsState {
    var url := Some(ListingUrl(baseUrl, l));
    if url in acc.2 then acc
    else
      match ListingPost(env, co, baseUrl, l)
      case Err(e) => (acc.0, if acc.1.None? then Some("GlassdoorException: " + e) else acc.1, acc.2 + {url})
      case Ok(p) => (if acc.1.None? then acc.0 + [p] else acc.0, acc.1, acc.2 + {url})
  }

  /** The job loop over `listings` from seen-set `seen`. */
  function ProcessedListings(env: Env, co: Collaborators, baseUrl: string, listings: seq<Listing>,
                             seen: set<Option<string>>): ListingsState
    decreases |listings|
  {
    if listings == [] then ([], None, seen)
    else
      ListingStep(env, co, baseUrl, ProcessedListings(env, co, baseUrl, listings[..|listings| - 1], seen),
                  listings[|listings| - 1])
  }

  /** The URLs of the listings. */
  function ListingUrls(baseUrl: string, listings: seq<Listing>): set<Option<string>>
    decreases |listings|
  {
    if listings == [] then {}
    else ListingUrls(baseUrl, listings[..|listings| - 1]) + {Some(ListingUrl(baseUrl, listings[|listings| - 1]))}
  }

  /** The job loop records the URL of every listing, released or not. */
  lemma {:induction false} ProcessedListingsSeen(env: Env, co: Collaborators, baseUrl: string, listings: seq<Listing>,
                                                 seen: set<Option<string>>)
    ensures ProcessedListings(env, co, baseUrl, listings, seen).2 == seen + ListingUrls(baseUrl, listings)
    decreases |listings|
  {
    if listings != [] {
      ProcessedListingsSeen(env, co, baseUrl, listings[..|listings| - 1], seen);
    }
  }

  /** Without an exception the job loop releases a fresh batch, at most one
      record per listing. */
  lemma {:induction false} ProcessedListingsFresh(env: Env, co: Collaborators, baseUrl: string, listings: seq<Listing>,
                                                  seen: set<Option<string>>)
    ensures var out := ProcessedListings(env, co, baseUrl, listings, seen);
      && (out.1.None? ==> FreshBatch(out.0, seen, out.2))
      && |out.0| <= |listings|
    decreases |listings|
  {
    if listings != [] {
      var init := listings[..|listings| - 1];
      ProcessedListingsFresh(env, co, baseUrl, init, seen);
      var acc := ProcessedListings(env, co, baseUrl, init, seen);
      var l := listings[|listings| - 1];
      var url := Some(ListingUrl(baseUrl, l));
      if url !in acc.2 && acc.1.None? && ListingPost(env, co, baseUrl, l).Ok? {
        FreshBatchSnoc(acc.0, ListingPost(env, co, baseUrl, l).value, seen, acc.2);
      }
    }
  }

  /** The job loop raises only for a listing without age. */
  lemma {:induction false} ProcessedListingsRaises(env: Env, co: Collaborators, baseUrl: string, listings: seq<Listing>,
                                                   seen: set<Option<string>>)
    ensures ProcessedListings(env, co, baseUrl, listings, seen).1.Some? ==> HasAgeless(listings)
    decreases |listings|
  {
    if listings != [] {
      var k := |listings| - 1;
      var init := listings[..k];
      ProcessedListingsRaises(env, co, baseUrl, init, seen);
      if ProcessedListings(env, co, baseUrl, listings, seen).1.Some? {
        assert HasAgeless(listings[..k]) || listings[k].ageInDays.None?;
        AgelessPrefixGrows(listings, k);
        assert listings[..k + 1] == listings;
      }
    }
  }

  /** A URL that no listing has is not among the listings' URLs. */
  lemma {:induction false} NotInListingUrls(baseUrl: string, listings: seq<Listing>, u: Option<string>)
    requires forall i :: 0 <= i < |listings| ==> Some(ListingUrl(baseUrl, listings[i])) != u
    ensures u !in ListingUrls(baseUrl, listings)
    decreases |listings|
  {
    if listings != [] {
      var init := listings[..|listings| - 1];
      forall i | 0 <= i < |init| ensures Some(ListingUrl(baseUrl, init[i])) != u {
        assert init[i] == listings[i];
      }
      NotInListingUrls(baseUrl, init, u);
    }
  }

  /** When every listing has an age and a URL that is new and no other
      listing has, nothing is dropped: the records are those of all the
      listings, in order. */
  lemma {:induction false} AllNewListingsKept(env: Env, co: Collaborators, baseUrl: string, listings: seq<Listing>,
                                              seen: set<Option<string>>)
    requires !HasAgeless(listings)
    requires forall k :: 0 <= k < |listings| ==> Some(ListingUrl(baseUrl, listings[k])) !in seen
    requires forall i, k :: 0 <= i < k < |listings| ==> ListingUrl(baseUrl, listings[i]) != ListingUrl(baseUrl, listings[k])
    ensures var out := ProcessedListings(env, co, baseUrl, listings, seen);
      && out.1.None? && |out.0| == |listings|
      && forall k :: 0 <= k < |listings| ==> ListingPost(env, co, baseUrl, listings[k]) == Ok(out.0[k])
    decreases |listings|
  {
    if listings != [] {
      var n := |listings| - 1;
      var init := listings[..n];
      var l := listings[n];
      forall i | 0 <= i < |init|
        ensures init[i].ageInDays.Some? && Some(ListingUrl(baseUrl, init[i])) !in seen
        ensures Some(ListingUrl(baseUrl, init[i])) != Some(ListingUrl(baseUrl, l))
      {
        assert init[i] == listings[i];
      }
      forall i, k | 0 <= i < k < |init| ensures ListingUrl(baseUrl, init[i]) != ListingUrl(baseUrl, init[k]) {
        assert init[i] == listings[i] && init[k] == listings[k];
      }
      AllNewListingsKept(env, co, baseUrl, init, seen);
      ProcessedListingsSeen(env, co, baseUrl, init, seen);
      NotInListingUrls(baseUrl, init, Some(ListingUrl(baseUrl, l)));
      var acc := ProcessedListings(env, co, baseUrl, init, seen);
      assert l.ageInDays.Some?;
      var out := ProcessedListings(env, co, baseUrl, listings, seen);
      assert out.0 == acc.0 + [ListingPost(env, co, baseUrl, l).value];
      forall k | 0 <= k < |listings|
        ensures ListingPost(env, co, baseUrl, listings[k]) == Ok(out.0[k])
      {
        if k < n {
          assert listings[k] == init[k] && out.0[k] == acc.0[k];
        }
      }
    }
  }

  /** `_fetch_jobs_page` on the answer `res` from seen-set `seen`: a failed
      request gives no jobs and no cursor; otherwise the job loop runs and
      the page raises its first exception, or yields the records and the
      next cursor. */
  function FetchedPage(env: Env, co: Collaborators, baseUrl: string, res: SearchResponse, seen: set<Option<string>>)
    : (Result<(seq<JobPost>, Option<string>)>, set<Option<string>>)
  {
    match res
    case RequestFailed => (Ok(([], None)), seen)
    case Listings(listings, next) =>
      var out := ProcessedListings(env, co, baseUrl, listings, seen);
      (if out.1.Some? then Err(out.1.value) else Ok((out.0, next)), out.2)
  }

  /** The page-level contract: a failed request yields nothing; a page that
      does not raise yields a fresh batch and the cursor of its answer; a
      page raises only when a listing has no age. */
  lemma FetchedPageFacts(env: Env, co: Collaborators, baseUrl: string, res: SearchResponse, seen: set<Option<string>>)
    ensures var f := FetchedPage(env, co, baseUrl, res, seen);
      && seen <= f.1
      && (res.RequestFailed? ==> f == (Ok(([], None)), seen))
      && (f.0.Ok? ==> f.0.value.1 == CursorAfter(res) && FreshBatch(f.0.value.0, seen, f.1))
      && (f.0.Err? ==> res.Listings? && HasAgeless(res.listings))
      && (res.Listings? && !HasAgeless(res.listings) ==> f.0.Ok?)
  {
    if res.Listings? {
      ProcessedListingsSeen(env, co, baseUrl, res.listings, seen);
      ProcessedListingsFresh(env, co, baseUrl, res.listings, seen);
      ProcessedListingsRaises(env, co, baseUrl, res.listings, seen);
    }
  }

  /** Why the page loop ended: the range ran out, a page raised, a page
      brought no jobs, or the target was reached. */
  datatype Stop = RangeDone | Raised | NoJobs | TargetReached

  /** What the page loop leaves: the job list, `seen_urls`, the payloads
      sent and why it ended. */
  datatype Paging = Paging(jobs: seq<JobPost>, seen: set<Option<string>>, sent: seq<Payload>, stop: Stop)

  /** What fetching one page does, given the payload and `seen_urls`. */
  type PageFetch = (Payload, set<Option<string>>) -> (Result<(seq<JobPost>, Option<string>)>, set<Option<string>>)

  /** `_fetch_jobs_page` with the search answer `post` gives to a payload. */
  function PageFetcher(env: Env, co: Collaborators, baseUrl: string, post: Payload -> SearchResponse): PageFetch {
    (p: Payload, s: set<Option<string>>) => FetchedPage(env, co, baseUrl, post(p), s)
  }

  /** `fetch` is the page fetch of `_fetch_jobs_page` with the search answer
      `post` gives to each payload. */
  ghost predicate FetchesPages(fetch: PageFetch, env: Env, co: Collaborators, baseUrl: string,
                               post: Payload -> SearchResponse)
  {
    forall p: Payload, s: set<Option<string>> {:trigger FetchedPage(env, co, baseUrl, post(p), s)} ::
      fetch(p, s) == FetchedPage(env, co, baseUrl, post(p), s)
  }

  /** The page-level contract the page loop relies on: for every payload
      and seen-set, fetching only adds to `seen_urls`; a failed request
      yields nothing; a page that does not raise is a fresh batch and
      carries the cursor of its answer; a page raises only when a listing
      of its answer has no age, and always yields when none lacks one. */
  ghost predicate PageLaws(fetch: PageFetch, post: Payload -> SearchResponse) {
    forall p: Payload, s: set<Option<string>> ::
      var f := fetch(p, s);
      var res := post(p);
      && s <= f.1
      && (res.RequestFailed? ==> f.0 == Ok(([], None)))
      && (f.0.Ok? ==> f.0.value.1 == CursorAfter(res) && FreshBatch(f.0.value.0, s, f.1))
      && (f.0.Err? ==> res.Listings? && HasAgeless(res.listings))
      && (res.Listings? && !HasAgeless(res.listings) ==> f.0.Ok?)
  }

  /** `_fetch_jobs_page` keeps the page-level contract. */
  lemma FetcherLaws(env: Env, co: Collaborators, baseUrl: string, post: Payload -> SearchResponse)
    ensures PageLaws(PageFetcher(env, co, baseUrl, post), post)
  {
    forall p: Payload, s: set<Option<string>>
      ensures var f := PageFetcher(env, co, baseUrl, post)(p, s);
        var res := post(p);
        && s <= f.1
        && (res.RequestFailed? ==> f.0 == Ok(([], None)))
        && (f.0.Ok? ==> f.0.value.1 == CursorAfter(res) && FreshBatch(f.0.value.0, s, f.1))
        && (f.0.Err? ==> res.Listings? && HasAgeless(res.listings))
        && (res.Listings? && !HasAgeless(res.listings) ==> f.0.Ok?)
    {
      assert PageFetcher(env, co, baseUrl, post)(p, s) == FetchedPage(env, co, baseUrl, post(p), s);
      FetchedPageFacts(env, co, baseUrl, post(p), s);
    }
  }

  /** The page loop of `Glassdoor.scrape` from page `page` of the range
      ending before `end`, with `cursor`, the job list so far and `seen`: a
      page that raises ends it with the list as it was; a page with no
      jobs, or one that brings the list to `wanted`, ends it with the list
      cut to `wanted`; any other page hands its cursor to the next. */
  function PagesFrom(input: ScraperInput, loc: (int, string), fetch: PageFetch, page: nat, end: nat, wanted: nat,
                     cursor: Option<string>, jobList: seq<JobPost>, seen: set<Option<string>>): Paging
    decreases end - page
  {
    if page >= end then Paging(jobList, seen, [], RangeDone)
    else
      var payload := PayloadFor(input, loc, page, cursor);
      var fetched := fetch(payload, seen);
      match fetched.0
      case Err(_) => Paging(jobList, fetched.1, [payload], Raised)
      case Ok((jobs, next)) =>
        var all := jobList + jobs;
        if jobs == [] then Paging(Prefix(all, wanted), fetched.1, [payload], NoJobs)
        else if |all| >= wanted then Paging(Prefix(all, wanted), fetched.1, [payload], TargetReached)
        else
          var rest := PagesFrom(input, loc, fetch, page + 1, end, wanted, next, all, fetched.1);
          Paging(rest.jobs, rest.seen, [payload] + rest.sent, rest.stop)
  }

  /** A page of the loop that raises ends it with the list as it was. */
  lemma PagesStepRaised(input: ScraperInput, loc: (int, string), fetch: PageFetch, page: nat, end: nat, wanted: nat,
                        cursor: Option<string>, jobList: seq<JobPost>, seen: set<Option<string>>,
                        fetched: (Result<(seq<JobPost>, Option<string>)>, set<Option<string>>))
    requires page < end && fetched.0.Err? && fetched == fetch(PayloadFor(input, loc, page, cursor), seen)
    ensures PagesFrom(input, loc, fetch, page, end, wanted, cursor, jobList, seen)
      == Paging(jobList, fetched.1, [PayloadFor(input, loc, page, cursor)], Raised)
  {
  }

  /** A page of the loop with no jobs, or one reaching `wanted`, ends it
      with the list cut to `wanted`. */
  lemma PagesStepStops(input: ScraperInput, loc: (int, string), fetch: PageFetch, page: nat, end: nat, wanted: nat,
                       cursor: Option<string>, jobList: seq<JobPost>, seen: set<Option<string>>, jobs: seq<JobPost>,
                       next: Option<string>, after: set<Option<string>>)
    requires page < end && (jobs == [] || |jobList + jobs| >= wanted)
    requires (Ok((jobs, next)), after) == fetch(PayloadFor(input, loc, page, cursor), seen)
    ensures var r := PagesFrom(input, loc, fetch, page, end, wanted, cursor, jobList, seen);
      r.jobs == Prefix(jobList + jobs, wanted) && r.seen == after && r.sent == [PayloadFor(input, loc, page, cursor)]
  {
  }

  /** Any other page hands its cursor and the longer list to the next page. */
  lemma PagesStepContinues(input: ScraperInput, loc: (int, string), fetch: PageFetch, page: nat, end: nat,
                           wanted: nat, cursor: Option<string>, jobList: seq<JobPost>, seen: set<Option<string>>,
                           jobs: seq<JobPost>, next: Option<string>, after: set<Option<string>>)
    requires page < end && !(jobs == [] || |jobList + jobs| >= wanted)
    requires (Ok((jobs, next)), after) == fetch(PayloadFor(input, loc, page, cursor), seen)
    ensures var r := PagesFrom(input, loc, fetch, page, end, wanted, cursor, jobList, seen);
      var rest := PagesFrom(input, loc, fetch, page + 1, end, wanted, next, jobList + jobs, after);
      r.jobs == rest.jobs && r.seen == rest.seen && r.sent == [PayloadFor(input, loc, page, cursor)] + rest.sent
  {
  }

  /** The page loop keeps the URLs of its list distinct and seen, keeps the
      jobs it started with, never passes `wanted` and only adds to `seen`. */
  lemma {:induction false} PagesKeepsUrls(input: ScraperInput, loc: (int, string), fetch: PageFetch,
                                          post: Payload -> SearchResponse, page: nat, end: nat, wanted: nat,
                                          cursor: Option<string>, jobList: seq<JobPost>, seen: set<Option<string>>)
    requires PageLaws(fetch, post)
    requires DistinctUrls(jobList) && UrlsWithin(jobList, seen) && |jobList| <= wanted
    ensures var r := PagesFrom(input, loc, fetch, page, end, wanted, cursor, jobList,
                               seen);
      && DistinctUrls(r.jobs) && UrlsWithin(r.jobs, r.seen)
      && jobList <= r.jobs && |r.jobs| <= wanted && seen <= r.seen
    decreases end - page
  {
    if page < end {
      var payload := PayloadFor(input, loc, page, cursor);
      var fetched := fetch(payload, seen);
      if fetched.0.Ok? {
        var (jobs, next) := fetched.0.value;
        var all := jobList + jobs;
        AppendFreshBatch(jobList, jobs, seen, fetched.1);
        if jobs == [] || |all| >= wanted {
          PrefixKeepsUrls(all, wanted, fetched.1);
          assert Prefix(all, wanted)[..|jobList|] == jobList;
        } else {
          PagesKeepsUrls(input, loc, fetch, post, page + 1, end, wanted, next, all, fetched.1);
        }
      } else {
        assert forall k :: 0 <= k < |jobList| ==> jobList[k].jobUrl in fetched.1;
      }
    }
  }

  /** The requests of the page loop: consecutive pages from `page`, the
      first with `cursor` and each later one with the cursor the answer
      before it gave; one per page of the range at most, and at least one
      when the range is not empty. */
  lemma {:induction false} PagesChain(input: ScraperInput, loc: (int, string), fetch: PageFetch,
                                      post: Payload -> SearchResponse, page: nat, end: nat, wanted: nat,
                                      cursor: Option<string>, jobList: seq<JobPost>, seen: set<Option<string>>)
    requires PageLaws(fetch, post)
    ensures var r := PagesFrom(input, loc, fetch, page, end, wanted, cursor, jobList,
                               seen);
      && Chained(r.sent, page, cursor, post)
      && |r.sent| <= (if page < end then end - page else 0)
      && (page < end ==> |r.sent| >= 1)
    decreases end - page
  {
    if page < end {
      var payload := PayloadFor(input, loc, page, cursor);
      var fetched := fetch(payload, seen);
      if fetched.0.Ok? {
        var (jobs, next) := fetched.0.value;
        var all := jobList + jobs;
        if !(jobs == [] || |all| >= wanted) {
          PagesChain(input, loc, fetch, post, page + 1, end, wanted, next, all, fetched.1);
          var rest := PagesFrom(input, loc, fetch, page + 1, end, wanted, next, all,
                                fetched.1);
          var sent := [payload] + rest.sent;
          assert next == CursorAfter(post(payload));
          forall k | 0 <= k < |sent| - 1
            ensures sent[k + 1].pageCursor == CursorAfter(post(sent[k]))
          {
            if k > 0 {
              assert sent[k] == rest.sent[k - 1] && sent[k + 1] == rest.sent[k];
            }
          }
          forall k | 0 <= k < |sent|
            ensures sent[k].pageNumber == page + k
          {
            if k > 0 {
              assert sent[k] == rest.sent[k - 1];
            }
          }
        }
      }
    }
  }

  /** The target is reached exactly when the page loop ends with `wanted`
      jobs. */
  lemma {:induction false} PagesTarget(input: ScraperInput, loc: (int, string), fetch: PageFetch, page: nat,
                                       end: nat, wanted: nat, cursor: Option<string>, jobList: seq<JobPost>,
                                       seen: set<Option<string>>)
    requires |jobList| < wanted || jobList == []
    ensures var r := PagesFrom(input, loc, fetch, page, end, wanted, cursor, jobList, seen);
      && (r.stop == TargetReached ==> |r.jobs| == wanted)
      && (r.stop != TargetReached ==> |r.jobs| < wanted || r.jobs == [])
    decreases end - page
  {
    if page < end {
      var fetched := fetch(PayloadFor(input, loc, page, cursor), seen);
      if fetched.0.Ok? {
        var (jobs, next) := fetched.0.value;
        var all := jobList + jobs;
        if !(jobs == [] || |all| >= wanted) {
          PagesTarget(input, loc, fetch, page + 1, end, wanted, next, all, fetched.1);
        }
      }
    }
  }

  /** Running out of range means every page of it was requested. */
  lemma {:induction false} PagesRangeDone(input: ScraperInput, loc: (int, string), fetch: PageFetch, page: nat,
                                          end: nat, wanted: nat, cursor: Option<string>, jobList: seq<JobPost>,
                                          seen: set<Option<string>>)
    ensures var r := PagesFrom(input, loc, fetch, page, end, wanted, cursor, jobList, seen);
      r.stop == RangeDone ==> |r.sent| == (if page < end then end - page else 0)
    decreases end - page
  {
    if page < end {
      var fetched := fetch(PayloadFor(input, loc, page, cursor), seen);
      if fetched.0.Ok? {
        var (jobs, next) := fetched.0.value;
        var all := jobList + jobs;
        if !(jobs == [] || |all| >= wanted) {
          PagesRangeDone(input, loc, fetch, page + 1, end, wanted, next, all, fetched.1);
        }
      }
    }
  }

  /** A page that raises is the last one requested, and one of its listings
      has no age. */
  lemma {:induction false} PagesRaised(input: ScraperInput, loc: (int, string), fetch: PageFetch,
                                       post: Payload -> SearchResponse, page: nat, end: nat, wanted: nat,
                                       cursor: Option<string>, jobList: seq<JobPost>, seen: set<Option<string>>)
    requires PageLaws(fetch, post)
    ensures var r := PagesFrom(input, loc, fetch, page, end, wanted, cursor, jobList,
                               seen);
      r.stop == Raised ==>
        |r.sent| > 0 && post(r.sent[|r.sent| - 1]).Listings? && HasAgeless(post(r.sent[|r.sent| - 1]).listings)
    decreases end - page
  {
    if page < end {
      var payload := PayloadFor(input, loc, page, cursor);
      var fetched := fetch(payload, seen);
      if fetched.0.Ok? {
        var (jobs, next) := fetched.0.value;
        var all := jobList + jobs;
        if !(jobs == [] || |all| >= wanted) {
          PagesRaised(input, loc, fetch, post, page + 1, end, wanted, next, all, fetched.1);
          var rest := PagesFrom(input, loc, fetch, page + 1, end, wanted, next, all,
                                fetched.1);
          if rest.stop == Raised {
            assert ([payload] + rest.sent)[|rest.sent|] == rest.sent[|rest.sent| - 1];
          }
        }
      }
    }
  }

  /** `Glassdoor.scrape` with `rw` as the clamped `results_wanted`: the page
      loop over the whole range, from no cursor and an empty list. */
  function ScrapeOutcome(input: ScraperInput, env: Env, co: Collaborators, baseUrl: string,
                         lookup: string -> LocationResponse, post: Payload -> SearchResponse, rw: nat,
                         seen: set<Option<string>>): Paging
  {
    PagesFrom(input, GetLocation(input.location, input.isRemote, lookup), PageFetcher(env, co, baseUrl, post),
              RangeStart(input.offset), RangeEnd(rw), rw, None, [], seen)
  }

  /** What `Glassdoor.scrape` returns has at most `rw` jobs with distinct,
      seen URLs; its requests are chained from the first page of the range,
      without a cursor, one per page at most. */
  lemma ScrapeOutcomeFacts(input: ScraperInput, env: Env, co: Collaborators, baseUrl: string,
                           lookup: string -> LocationResponse, post: Payload -> SearchResponse, rw: nat,
                           seen: set<Option<string>>)
    ensures var r := ScrapeOutcome(input, env, co, baseUrl, lookup, post, rw, seen);
      && |r.jobs| <= rw && DistinctUrls(r.jobs) && UrlsWithin(r.jobs, r.seen)
      && |r.sent| <= PageCount(rw, input.offset)
      && Chained(r.sent, RangeStart(input.offset), None, post)
  {
    var loc := GetLocation(input.location, input.isRemote, lookup);
    var fetch := PageFetcher(env, co, baseUrl, post);
    FetcherLaws(env, co, baseUrl, post);
    PagesKeepsUrls(input, loc, fetch, post, RangeStart(input.offset), RangeEnd(rw), rw, None, [], seen);
    PagesChain(input, loc, fetch, post, RangeStart(input.offset), RangeEnd(rw), rw, None, [], seen);
  }

  class GlassdoorScraper {
    /** `seen_urls` */
    var seenUrls: set<Option<string>>
    /** The payloads sent so far, in order. */
    ghost var requests: seq<Payload>

    constructor ()
      ensures seenUrls == {} && requests == []
    {
      seenUrls := {};
      requests := [];
    }

    /** `_process_job(job)`: `None` for a URL already seen; otherwise the URL
        is recorded before the record is built. */
    method ProcessJob(env: Env, co: Collaborators, baseUrl: string, l: Listing) returns (r: Result<Option<JobPost>>)
      modifies this
      ensures requests == old(requests)
      ensures Some(ListingUrl(baseUrl, l)) in old(seenUrls) ==> r == Ok(None) && seenUrls == old(seenUrls)
      ensures Some(ListingUrl(baseUrl, l)) !in old(seenUrls) ==>
        && seenUrls == old(seenUrls) + {Some(ListingUrl(baseUrl, l))}
        && r == match ListingPost(env, co, baseUrl, l) case Ok(p) => Ok(Some(p)) case Err(e) => Err(e)
      ensures r.Err? ==> l.ageInDays.None? && old(seenUrls) <= seenUrls
      ensures r.Ok? && r.value.None? ==> seenUrls == old(seenUrls)
      ensures r.Ok? && r.value.Some? ==>
        r.value.value.jobUrl !in old(seenUrls) && seenUrls == old(seenUrls) + {r.value.value.jobUrl}
    {
      var url := ListingUrl(baseUrl, l);
      if Some(url) in seenUrls {
        return Ok(None);
      }
      seenUrls := seenUrls + {Some(url)};
      match ListingPost(env, co, baseUrl, l) {
        case Ok(p) => r := Ok(Some(p));
        case Err(e) => r := Err(e);
      }
    }

    /** The job loop of `_fetch_jobs_page`: every listing is processed; the
        first exception is what the page raises once all are done. */
    method ProcessListings(env: Env, co: Collaborators, baseUrl: string, listings: seq<Listing>)
      returns (jobs: seq<JobPost>, failure: Option<string>)
      modifies this
      ensures (jobs, failure, seenUrls) == ProcessedListings(env, co, baseUrl, listings, old(seenUrls))
      ensures requests == old(requests)
      ensures seenUrls == old(seenUrls) + ListingUrls(baseUrl, listings)
      ensures failure.None? ==> FreshBatch(jobs, old(seenUrls), seenUrls)
      ensures failure.Some? ==> HasAgeless(listings)
      ensures !HasAgeless(listings) ==> failure.None?
    {
      jobs := [];
      failure := None;
      var k := 0;
      while k < |listings|
        invariant 0 <= k <= |listings|
        invariant requests == old(requests)
        invariant (jobs, failure, seenUrls) == ProcessedListings(env, co, baseUrl, listings[..k], old(seenUrls))
      {
        ghost var step := ListingStep(env, co, baseUrl, (jobs, failure, seenUrls), listings[k]);
        assert ProcessedListings(env, co, baseUrl, listings[..k + 1], old(seenUrls)) == step by {
          assert listings[..k + 1][..k] == listings[..k];
        }
        var job := ProcessJob(env, co, baseUrl, listings[k]);
        match job {
          case Err(e) =>
            if failure.None? {
              failure := Some("GlassdoorException: " + e);
            }
          case Ok(p) =>
            if p.Some? && failure.None? {
              jobs := jobs + [p.value];
            }
        }
        k := k + 1;
      }
      assert listings[..k] == listings;
      ProcessedListingsSeen(env, co, baseUrl, listings, old(seenUrls));
      ProcessedListingsFresh(env, co, baseUrl, listings, old(seenUrls));
      ProcessedListingsRaises(env, co, baseUrl, listings, old(seenUrls));
    }

    /** `_fetch_jobs_page`: a failed request gives no jobs and no cursor;
        otherwise every listing is processed, and a listing that raises
        makes the page raise. What it returns and the new `seen_urls` are
        `FetchedPage` of the answer to its payload, which `fetch` is. */
    method FetchJobsPage(input: ScraperInput, env: Env, co: Collaborators, baseUrl: string,
                         loc: (int, string), page: nat, cursor: Option<string>,
                         post: Payload -> SearchResponse, ghost fetch: PageFetch)
      returns (r: Result<(seq<JobPost>, Option<string>)>)
      requires FetchesPages(fetch, env, co, baseUrl, post)
      modifies this
      ensures requests == old(requests) + [PayloadFor(input, loc, page, cursor)]
      ensures (r, seenUrls) == fetch(PayloadFor(input, loc, page, cursor), old(seenUrls))
      ensures old(seenUrls) <= seenUrls
      ensures var res := post(PayloadFor(input, loc, page, cursor));
        && (res.RequestFailed? ==> r == Ok(([], None)))
        && (r.Ok? ==> r.value.1 == CursorAfter(res) && FreshBatch(r.value.0, old(seenUrls), seenUrls))
        && (r.Err? ==> res.Listings? && HasAgeless(res.listings))
        && (res.Listings? && !HasAgeless(res.listings) ==> r.Ok?)
    {
      ghost var expected := FetchedPage(env, co, baseUrl, post(PayloadFor(input, loc, page, cursor)), seenUrls);
      FetchedPageFacts(env, co, baseUrl, post(PayloadFor(input, loc, page, cursor)), seenUrls);
      var payload := AddPayload(input, loc, page, cursor);
      requests := requests + [payload];
      var res := post(payload);
      if res.RequestFailed? {
        return Ok(([], None));
      }
      var jobs, failure := ProcessListings(env, co, baseUrl, res.listings);
      if failure.Some? {
        return Err(failure.value);
      }
      return Ok((jobs, res.nextCursor));
    }

    /** The page loop of `Glassdoor.scrape`, from page `start` to before
        `end`, with `fetch` the page fetch `_fetch_jobs_page` performs. */
    method FollowPages(input: ScraperInput, env: Env, co: Collaborators, baseUrl: string, loc: (int, string),
                       post: Payload -> SearchResponse, ghost fetch: PageFetch, start: nat, end: nat, wanted: nat)
      returns (jobList: seq<JobPost>)
      requires FetchesPages(fetch, env, co, baseUrl, post)
      modifies this
      ensures var r := PagesFrom(input, loc, fetch, start, end, wanted, None, [], old(seenUrls));
        jobList == r.jobs && seenUrls == r.seen && requests == old(requests) + r.sent
    {
      ghost var total := PagesFrom(input, loc, fetch, start, end, wanted, None, [], seenUrls);
      jobList := [];
      var cursor: Option<string> := None;
      var page := start;
      while page < end
        invariant var rest := PagesFrom(input, loc, fetch, page, end, wanted, cursor, jobList, seenUrls);
          rest.jobs == total.jobs && rest.seen == total.seen && requests + rest.sent == old(requests) + total.sent
        decreases if page < end then end - page else 0
      {
        ghost var payload := PayloadFor(input, loc, page, cursor);
        ghost var before := seenUrls;
        ghost var sentBefore := requests;
        ghost var here := PagesFrom(input, loc, fetch, page, end, wanted, cursor, jobList, seenUrls);
        var result := FetchJobsPage(input, env, co, baseUrl, loc, page, cursor, post, fetch);
        if result.Err? {
          PagesStepRaised(input, loc, fetch, page, end, wanted, cursor, jobList, before, (result, seenUrls));
          break;
        }
        var (jobs, next) := result.value;
        if jobs == [] || |jobList + jobs| >= wanted {
          PagesStepStops(input, loc, fetch, page, end, wanted, cursor, jobList, before, jobs, next, seenUrls);
          jobList := Prefix(jobList + jobs, wanted);
          break;
        }
        PagesStepContinues(input, loc, fetch, page, end, wanted, cursor, jobList, before, jobs, next, seenUrls);
        ghost var rest := PagesFrom(input, loc, fetch, page + 1, end, wanted, next, jobList + jobs, seenUrls);
        calc {
          requests + rest.sent;
          (sentBefore + [payload]) + rest.sent;
          sentBefore + ([payload] + rest.sent);
          sentBefore + here.sent;
          old(requests) + total.sent;
        }
        cursor := next;
        jobList := jobList + jobs;
        page := page + 1;
      }
    }

    /** `Glassdoor.scrape`: clamp `results_wanted` in the shared input, then
        fetch the pages of the range in order, each with the cursor of the
        one before, until a page brings no jobs, the target is reached (the
        list is then cut to it) or a page raises (the jobs so far are kept). */
    method Scrape(input: ScraperInput, env: Env, co: Collaborators, baseUrl: string,
                  lookup: string -> LocationResponse, post: Payload -> SearchResponse)
      returns (jobList: seq<JobPost>)
      modifies this, input
      ensures input.resultsWanted == ClampWanted(old(input.resultsWanted))
      ensures var out := ScrapeOutcome(input, env, co, baseUrl, lookup, post, input.resultsWanted, old(seenUrls));
        jobList == out.jobs && seenUrls == out.seen && requests == old(requests) + out.sent
      ensures |jobList| <= input.resultsWanted
      ensures DistinctUrls(jobList) && UrlsWithin(jobList, seenUrls)
      ensures old(requests) <= requests
      ensures |requests| - |old(requests)| <= PageCount(input.resultsWanted, input.offset)
      ensures Chained(requests[|old(requests)|..], RangeStart(input.offset), None, post)
    {
      var rw := ClampWanted(input.resultsWanted);
      input.resultsWanted := rw;
      ghost var req0 := requests;
      ScrapeOutcomeFacts(input, env, co, baseUrl, lookup, post, rw, seenUrls);
      var loc := GetLocation(input.location, input.isRemote, lookup);
      assert FetchesPages(PageFetcher(env, co, baseUrl, post), env, co, baseUrl, post);
      jobList := FollowPages(input, env, co, baseUrl, loc, post, PageFetcher(env, co, baseUrl, post),
                             RangeStart(input.offset), RangeEnd(rw), rw);
      assert requests[|req0|..] == ScrapeOutcome(input, env, co, baseUrl, lookup, post, rw, old(seenUrls)).sent;
      assert input.resultsWanted == rw;
    }
  }
}
