/** The ZipRecruiter scraper: the field mapping and dedup of one job, the
    page-level error contract and the continue-token loop. The API
    requests, the job page (`_get_descr`) and `get_job_type_enum` are
    oracles. */
module ZipRecruiterJobs {
  import opened Wrappers
  import opened Text
  import opened Model

  /** `jobs_per_page` */
  const JobsPerPage: nat := 20
  /** The prefix of every job URL: `base_url` followed by the job path. */
  const JobUrlPrefix: string := "https://www.ziprecruiter.com/jobs//j?lvk="

  // ---------------------------------------------------------------------
  // Field mapping (`_process_job`)

  /** What `_process_job` reads from one job of the API answer: listing
      key, `name`, `job_description` and `buyer_type` (`""` when absent),
      the hiring company's name, country, city and state, `employment_type`
      (`""` when absent), the posting time (`None` when it does not parse as
      an ISO date), the interval and currency (`None` when absent) and the
      two amounts. */
  datatype ZrJob = ZrJob(
    listingKey: string,
    name: string,
    jobDescription: string,
    buyerType: string,
    company: Option<string>,
    country: Option<string>,
    city: Option<string>,
    state: Option<string>,
    employmentType: string,
    postedTime: Option<Date>,
    compInterval: Option<string>,
    compMin: Amount,
    compMax: Amount,
    currency: Option<string>)

  /** A compensation amount of the answer: the key is absent, present with
      a null, or present with a number. */
  datatype Amount = Absent | Null | Number(value: int)

  /** The amount the record stores: `None` for an absent key. */
  function AmountValue(a: Amount): (r: Option<int>)
    ensures a.Absent? ==> r.None?
    ensures a.Number? ==> r == Some(a.value)
  {
    match a
    case Number(v) => Some(v)
    case _ => None
  }

  /** `_process_job` raises for this job once its URL is new: its posting
      time does not parse, or `int()` meets a null amount. */
  predicate Unbuildable(j: ZrJob) {
    j.postedTime.None? || j.compMin.Null? || j.compMax.Null?
  }

  /** The collaborators of one job: `get_job_type_enum` and the job page,
      which gives the full description (already converted per
      `description_format`) and the direct URL. */
  datatype Collaborators = Collaborators(
    jobTypeOf: string -> Option<seq<JobType>>,
    jobPage: string -> (Option<string>, Option<string>))

  /** The dedup key and URL of a job. */
  function ListingUrl(j: ZrJob): string {
    JobUrlPrefix + j.listingKey
  }

  /** `"yearly" if comp_interval == "annual" else comp_interval` */
  function IntervalName(interval: Option<string>): (r: Option<string>)
    ensures interval == Some("annual") ==> r == Some("yearly")
    ensures interval != Some("annual") ==> r == interval
  {
    if interval == Some("annual") then Some("yearly") else interval
  }

  /** The interval once the record coerces the name to the enum; a name no
      interval has is left unset. */
  function CompInterval(interval: Option<string>): (r: Option<CompensationInterval>)
    ensures interval == Some("annual") ==> r == Some(Yearly)
    ensures r.Some? ==> IntervalName(interval) == Some(IntervalValue(r.value))
  {
    match IntervalName(interval)
    case None => None
    case Some(v) => IntervalFromValue(v)
  }

  /** "US" is the United States, anything else (including no country)
      Canada. */
  function JobCountry(country: Option<string>): (c: Country)
    ensures c == Usa <==> country == Some("US")
    ensures c.Usa? || c.Canada?
  {
    if country == Some("US") then Usa else Canada
  }

  /** The short description: stripped, then converted for Markdown output. */
  function ShortDescription(env: Env, format: DescriptionFormat, j: ZrJob): string {
    var d := Strip(j.jobDescription);
    if format == Markdown then env.toMarkdown(d) else d
  }

  /** The record `_process_job` builds for a URL not seen before; a posting
      time that does not parse raises first, and a null amount raises when
      `int()` reads it. */
  function JobPostOf(env: Env, co: Collaborators, format: DescriptionFormat, j: ZrJob): (r: Result<JobPost>)
    ensures r.Err? <==> Unbuildable(j)
    ensures j.postedTime.None? ==> r == Err("ValueError")
    ensures j.postedTime.Some? && Unbuildable(j) ==> r == Err("TypeError")
    ensures r.Ok? ==> r.value.jobUrl == Some(ListingUrl(j))
  {
    match j.postedTime
    case None => Err("ValueError")
    case Some(date) =>
      if j.compMin.Null? || j.compMax.Null? then Err("TypeError")
      else
      var short := ShortDescription(env, format, j);
      var full := co.jobPage(ListingUrl(j)).0;
      var description := if TruthyStr(full) then full.value else short;
      Ok(JobPost(
        "zr-" + j.listingKey, j.name, j.company, Some(ListingUrl(j)), co.jobPage(ListingUrl(j)).1,
        Some(Location(j.city, j.state, Some(CountryEnum(JobCountry(j.country))))),
        Some(description), None, None,
        co.jobTypeOf(Lower(Remove(j.employmentType, '_'))),
        Some(Compensation(CompInterval(j.compInterval), AmountValue(j.compMin), AmountValue(j.compMax), j.currency)),
        Some(date), ExtractEmails(env, Some(short)), None, Some(j.buyerType), None, map[]))
  }

  /** The field rules of a job's record: the `zr-` id, the location with
      the mapped country, the full description when the job page gave a
      non-empty one and the short one otherwise, emails from the short
      description, amounts only when the answer has them, and the job type
      looked up from the employment type without underscores, lower-cased. */
  lemma JobPostFields(env: Env, co: Collaborators, format: DescriptionFormat, j: ZrJob)
    requires !Unbuildable(j)
    ensures var p := JobPostOf(env, co, format, j).value;
      var full := co.jobPage(ListingUrl(j)).0;
      && p.id == "zr-" + j.listingKey
      && p.location == Some(Location(j.city, j.state, Some(CountryEnum(JobCountry(j.country)))))
      && (TruthyStr(full) ==> p.description == full)
      && (!TruthyStr(full) ==> p.description == Some(ShortDescription(env, format, j)))
      && p.emails == ExtractEmails(env, Some(ShortDescription(env, format, j)))
      && p.jobUrlDirect == co.jobPage(ListingUrl(j)).1
      && p.compensation.Some?
      && p.compensation.value.minAmount == AmountValue(j.compMin)
      && p.compensation.value.maxAmount == AmountValue(j.compMax)
      && p.compensation.value.interval == CompInterval(j.compInterval)
      && p.jobType == co.jobTypeOf(Lower(Remove(j.employmentType, '_')))
      && p.datePosted == j.postedTime && p.listingType == Some(j.buyerType)
  {
  }

  // ---------------------------------------------------------------------
  // Pages

  /** The answer of one jobs request: it failed (a status outside 200-399
      or an exception), or it carries the jobs and the `continue` token. */
  datatype ZrResponse = RequestFailed | JobsPage(jobs: seq<ZrJob>, next: Option<string>)

  /** The `continue_from` parameter a request carries: only a truthy token. */
  function ContinueParam(token: Option<string>): (p: Option<string>)
    ensures p.Some? <==> TruthyStr(token)
    ensures p.Some? ==> p == token
  {
    if TruthyStr(token) then token else None
  }

  /** `math.ceil(results_wanted / jobs_per_page)` */
  function MaxPages(resultsWanted: nat): nat {
    (resultsWanted + JobsPerPage - 1) / JobsPerPage
  }

  /** The page limit is the least number of full pages that holds the
      target. */
  lemma MaxPagesIsCeiling(resultsWanted: nat)
    ensures JobsPerPage * MaxPages(resultsWanted) >= resultsWanted
    ensures MaxPages(resultsWanted) > 0 ==> JobsPerPage * (MaxPages(resultsWanted) - 1) < resultsWanted
    ensures resultsWanted == 0 <==> MaxPages(resultsWanted) == 0
  {
  }

  /** Some job of the page would raise in `_process_job`. */
  predicate HasUnbuildable(jobs: seq<ZrJob>) {
    exists k :: 0 <= k < |jobs| && Unbuildable(jobs[k])
  }

  lemma UnbuildablePrefixGrows(jobs: seq<ZrJob>, k: nat)
    requires k < |jobs|
    requires HasUnbuildable(jobs[..k]) || Unbuildable(jobs[k])
    ensures HasUnbuildable(jobs[..k + 1])
  {
    var p := jobs[..k + 1];
    if Unbuildable(jobs[k]) {
      assert p[k] == jobs[k];
    } else {
      var i :| 0 <= i < k && Unbuildable(jobs[..k][i]);
      assert p[i] == jobs[..k][i];
    }
  }

  /** Requests of one scrape, by their `continue_from` parameter: the first
      carries `first`, and each later one the truthy token of the answer
      before it, which was a page of jobs. */
  predicate Chained(sent: seq<Option<string>>, first: Option<string>, get: Option<string> -> ZrResponse) {
    && (|sent| > 0 ==> sent[0] == first)
    && (forall k :: 0 <= k < |sent| - 1 ==>
          get(sent[k]).JobsPage? && TruthyStr(get(sent[k]).next) && sent[k + 1] == get(sent[k]).next)
  }

  // ---------------------------------------------------------------------
  // The job loop and the page loop, as functions of what they are given

  /** What the job loop of `_find_jobs_in_page` carries: the records
      released, the first exception, and `seen_urls`. */
  type JobsState = (seq<JobPost>, Option<string>, set<Option<string>>)

  /** What `_process_job` builds for a job whose URL is new. */
  type JobBuilder = ZrJob -> Result<JobPost>

  /** `_process_job`'s record builder for the given collaborators. */
  function JobPoster(env: Env, co: Collaborators, format: DescriptionFormat): JobBuilder {
    (j: ZrJob) => JobPostOf(env, co, format, j)
  }

  /** What the job loop relies on of the record builder: it raises exactly
      for an unbuildable job, and a record's URL is the
      job's URL. */
  ghost predicate Poster(post: JobBuilder) {
    forall j: ZrJob :: (post(j).Err? <==> Unbuildable(j)) && (post(j).Ok? ==> post(j).value.jobUrl == Some(ListingUrl(j)))
  }

  lemma JobPosterPosts(env: Env, co: Collaborators, format: DescriptionFormat)
    ensures Poster(JobPoster(env, co, format))
  {
    forall j: ZrJob
      ensures var r := JobPoster(env, co, format)(j);
        (r.Err? <==> Unbuildable(j)) && (r.Ok? ==> r.value.jobUrl == Some(ListingUrl(j)))
    {
      assert JobPoster(env, co, format)(j) == JobPostOf(env, co, format, j);
    }
  }

  /** One turn of the job loop: a job whose URL was seen changes nothing;
      otherwise its URL is recorded and either its record is released or,
      when building it raises, the exception is kept (only the first one
      counts, and no record is released after it). */
  function JobStep(post: JobBuilder, acc: JobsState, j: ZrJob): JobsState {
    var url := Some(ListingUrl(j));
    if url in acc.2 then acc
    else
      match post(j)
      case Err(e) => (acc.0, if acc.1.None? then Some(e) else acc.1, acc.2 + {url})
      case Ok(p) => (if acc.1.None? then acc.0 + [p] else acc.0, acc.1, acc.2 + {url})
  }

  /** The job loop over `jobs` from seen-set `seen`. */
  function ProcessedJobs(post: JobBuilder, jobs: seq<ZrJob>, seen: set<Option<string>>): JobsState
    decreases |jobs|
  {
    if jobs == [] then ([], None, seen)
    else JobStep(post, ProcessedJobs(post, jobs[..|jobs| - 1], seen), jobs[|jobs| - 1])
  }

  /** The URLs of the jobs. */
  function JobUrls(jobs: seq<ZrJob>): set<Option<string>>
    decreases |jobs|
  {
    if jobs == [] then {} else JobUrls(jobs[..|jobs| - 1]) + {Some(ListingUrl(jobs[|jobs| - 1]))}
  }

  /** The job loop records the URL of every job, released or not. */
  lemma {:induction false} ProcessedJobsSeen(post: JobBuilder, jobs: seq<ZrJob>, seen: set<Option<string>>)
    ensures ProcessedJobs(post, jobs, seen).2 == seen + JobUrls(jobs)
    decreases |jobs|
  {
    if jobs != [] {
      ProcessedJobsSeen(post, jobs[..|jobs| - 1], seen);
    }
  }

  /** Without an exception the job loop releases a fresh batch, at most one
      record per job. */
  lemma {:induction false} ProcessedJobsFresh(post: JobBuilder, jobs: seq<ZrJob>, seen: set<Option<string>>)
    requires Poster(post)
    ensures var out := ProcessedJobs(post, jobs, seen);
      && (out.1.None? ==> FreshBatch(out.0, seen, out.2))
      && |out.0| <= |jobs|
    decreases |jobs|
  {
    if jobs != [] {
      var init := jobs[..|jobs| - 1];
      ProcessedJobsFresh(post, init, seen);
      var acc := ProcessedJobs(post, init, seen);
      var j := jobs[|jobs| - 1];
      if Some(ListingUrl(j)) !in acc.2 && acc.1.None? && post(j).Ok? {
        FreshBatchSnoc(acc.0, post(j).value, seen, acc.2);
      }
    }
  }

  /** The job loop raises only for an unbuildable job. */
  lemma {:induction false} ProcessedJobsRaises(post: JobBuilder, jobs: seq<ZrJob>, seen: set<Option<string>>)
    requires Poster(post)
    ensures ProcessedJobs(post, jobs, seen).1.Some? ==> HasUnbuildable(jobs)
    decreases |jobs|
  {
    if jobs != [] {
      var k := |jobs| - 1;
      ProcessedJobsRaises(post, jobs[..k], seen);
      if ProcessedJobs(post, jobs, seen).1.Some? {
        assert HasUnbuildable(jobs[..k]) || Unbuildable(jobs[k]);
        UnbuildablePrefixGrows(jobs, k);
        assert jobs[..k + 1] == jobs;
      }
    }
  }

  /** A URL that no job has is not among the jobs' URLs. */
  lemma {:induction false} NotInJobUrls(jobs: seq<ZrJob>, u: Option<string>)
    requires forall i :: 0 <= i < |jobs| ==> Some(ListingUrl(jobs[i])) != u
    ensures u !in JobUrls(jobs)
    decreases |jobs|
  {
    if jobs != [] {
      var init := jobs[..|jobs| - 1];
      forall i | 0 <= i < |init| ensures Some(ListingUrl(init[i])) != u {
        assert init[i] == jobs[i];
      }
      NotInJobUrls(init, u);
    }
  }

  /** When every job is buildable and has a URL that is new and no other
      job has, nothing is dropped: the records are those of all the jobs, in
      order, as the record builder makes them. */
  lemma {:induction false} AllNewJobsKept(post: JobBuilder, jobs: seq<ZrJob>, seen: set<Option<string>>)
    requires Poster(post)
    requires !HasUnbuildable(jobs)
    requires forall k :: 0 <= k < |jobs| ==> Some(ListingUrl(jobs[k])) !in seen
    requires forall i, k :: 0 <= i < k < |jobs| ==> ListingUrl(jobs[i]) != ListingUrl(jobs[k])
    ensures var out := ProcessedJobs(post, jobs, seen);
      && out.1.None? && |out.0| == |jobs|
      && forall k :: 0 <= k < |jobs| ==> post(jobs[k]) == Ok(out.0[k])
    decreases |jobs|
  {
    if jobs != [] {
      var n := |jobs| - 1;
      var init := jobs[..n];
      var j := jobs[n];
      forall i | 0 <= i < |init|
        ensures !Unbuildable(init[i]) && Some(ListingUrl(init[i])) !in seen
        ensures Some(ListingUrl(init[i])) != Some(ListingUrl(j))
      {
        assert init[i] == jobs[i];
      }
      forall i, k | 0 <= i < k < |init| ensures ListingUrl(init[i]) != ListingUrl(init[k]) {
        assert init[i] == jobs[i] && init[k] == jobs[k];
      }
      AllNewJobsKept(post, init, seen);
      ProcessedJobsSeen(post, init, seen);
      NotInJobUrls(init, Some(ListingUrl(j)));
      var acc := ProcessedJobs(post, init, seen);
      assert !Unbuildable(j);
      var out := ProcessedJobs(post, jobs, seen);
      assert post(j).Ok? && out.0 == acc.0 + [post(j).value];
      forall k | 0 <= k < |jobs|
        ensures post(jobs[k]) == Ok(out.0[k])
      {
        if k < n {
          assert jobs[k] == init[k] && out.0[k] == acc.0[k];
        }
      }
    }
  }

  /** `_find_jobs_in_page` on the answer `res` from seen-set `seen`: a
      failed request gives no jobs and the empty token; otherwise the job
      loop runs and the page raises its first exception, or yields the
      records and the `continue` token. */
  function FoundPage(post: JobBuilder, res: ZrResponse, seen: set<Option<string>>)
    : (Result<(seq<JobPost>, Option<string>)>, set<Option<string>>)
  {
    match res
    case RequestFailed => (Ok(([], Some(""))), seen)
    case JobsPage(jobs, next) =>
      var out := ProcessedJobs(post, jobs, seen);
      (if out.1.Some? then Err(out.1.value) else Ok((out.0, next)), out.2)
  }

  /** The page-level contract: a failed request yields nothing; a page that
      does not raise yields a fresh batch, at most one record per job, and
      the token of its answer; a page raises only when a job is
      unbuildable. */
  lemma FoundPageFacts(post: JobBuilder, res: ZrResponse, seen: set<Option<string>>)
    requires Poster(post)
    ensures var f := FoundPage(post, res, seen);
      && seen <= f.1
      && (res.RequestFailed? ==> f == (Ok(([], Some(""))), seen))
      && (f.0.Ok? ==> FreshBatch(f.0.value.0, seen, f.1))
      && (f.0.Ok? && res.JobsPage? ==> f.0.value.1 == res.next && |f.0.value.0| <= |res.jobs|)
      && (f.0.Err? ==> res.JobsPage? && HasUnbuildable(res.jobs))
      && (res.JobsPage? && !HasUnbuildable(res.jobs) ==> f.0.Ok?)
  {
    if res.JobsPage? {
      ProcessedJobsSeen(post, res.jobs, seen);
      ProcessedJobsFresh(post, res.jobs, seen);
      ProcessedJobsRaises(post, res.jobs, seen);
    }
  }

  /** What fetching one page does, given the token and `seen_urls`. */
  type PageFetch = (Option<string>, set<Option<string>>) -> (Result<(seq<JobPost>, Option<string>)>, set<Option<string>>)

  /** `_find_jobs_in_page` with the answers `get` gives to each
      `continue_from` parameter. */
  function PageFetcher(post: JobBuilder, get: Option<string> -> ZrResponse): PageFetch {
    (t: Option<string>, s: set<Option<string>>) => FoundPage(post, get(ContinueParam(t)), s)
  }

  /** `fetch` is the page fetch of `_find_jobs_in_page` with record builder
      `post` and the answers `get` gives. */
  ghost predicate FetchesPages(fetch: PageFetch, post: JobBuilder, get: Option<string> -> ZrResponse) {
    forall t: Option<string>, s: set<Option<string>> {:trigger FoundPage(post, get(ContinueParam(t)), s)} ::
      fetch(t, s) == FoundPage(post, get(ContinueParam(t)), s)
  }

  /** The page-level contract the page loop relies on: for every token
      and seen-set, fetching only adds to `seen_urls`; a page that does not
      raise is a fresh batch, empty for a failed request, and carries the
      token of its answer; a page raises only when a job of its answer is
      unbuildable, and always yields when none is. */
  ghost predicate PageLaws(fetch: PageFetch, get: Option<string> -> ZrResponse) {
    forall t: Option<string>, s: set<Option<string>> ::
      var f := fetch(t, s);
      var res := get(ContinueParam(t));
      && s <= f.1
      && (res.RequestFailed? ==> f.0 == Ok(([], Some(""))))
      && (f.0.Ok? ==> FreshBatch(f.0.value.0, s, f.1))
      && (f.0.Ok? && res.JobsPage? ==> f.0.value.1 == res.next)
      && (f.0.Err? ==> res.JobsPage? && HasUnbuildable(res.jobs))
      && (res.JobsPage? && !HasUnbuildable(res.jobs) ==> f.0.Ok?)
  }

  /** `_find_jobs_in_page` keeps the page-level contract. */
  lemma FetcherLaws(post: JobBuilder, get: Option<string> -> ZrResponse)
    requires Poster(post)
    ensures PageLaws(PageFetcher(post, get), get)
  {
    forall t: Option<string>, s: set<Option<string>>
      ensures var f := PageFetcher(post, get)(t, s);
        var res := get(ContinueParam(t));
        && s <= f.1
        && (res.RequestFailed? ==> f.0 == Ok(([], Some(""))))
        && (f.0.Ok? ==> FreshBatch(f.0.value.0, s, f.1))
        && (f.0.Ok? && res.JobsPage? ==> f.0.value.1 == res.next)
        && (f.0.Err? ==> res.JobsPage? && HasUnbuildable(res.jobs))
        && (res.JobsPage? && !HasUnbuildable(res.jobs) ==> f.0.Ok?)
    {
      assert PageFetcher(post, get)(t, s) == FoundPage(post, get(ContinueParam(t)), s);
      FoundPageFacts(post, get(ContinueParam(t)), s);
    }
  }

  /** Why the page loop ended: the page limit ran out, the target was
      reached before a fetch, a page raised, a page brought no jobs, or a
      page brought no token. */
  datatype Stop = RangeDone | TargetReached | Raised(error: string) | NoJobs | NoToken

  /** What the page loop leaves: the job list before the final cut,
      `seen_urls`, the `continue_from` parameters sent and why it ended. */
  datatype Paging = Paging(jobs: seq<JobPost>, seen: set<Option<string>>, sent: seq<Option<string>>, stop: Stop)

  /** The page loop of `ZipRecruiter.scrape` from page `page` up to
      `maxPages`, with `token`, the job list so far and `seen`: it stops
      before a fetch once the list holds `wanted` jobs; a page that raises
      ends it; a page without jobs ends it with the list as it was; a page
      with jobs extends the list and, without a truthy token, ends it. */
  function PagesFrom(fetch: PageFetch, page: nat, maxPages: nat, wanted: nat, token: Option<string>,
                     jobList: seq<JobPost>, seen: set<Option<string>>): Paging
    decreases maxPages + 1 - page
  {
    if page > maxPages then Paging(jobList, seen, [], RangeDone)
    else if |jobList| >= wanted then Paging(jobList, seen, [], TargetReached)
    else
      var fetched := fetch(token, seen);
      match fetched.0
      case Err(e) => Paging(jobList, fetched.1, [ContinueParam(token)], Raised(e))
      case Ok((jobs, next)) =>
        if jobs == [] then Paging(jobList, fetched.1, [ContinueParam(token)], NoJobs)
        else if !TruthyStr(next) then Paging(jobList + jobs, fetched.1, [ContinueParam(token)], NoToken)
        else
          var rest := PagesFrom(fetch, page + 1, maxPages, wanted, next, jobList + jobs, fetched.1);
          Paging(rest.jobs, rest.seen, [ContinueParam(token)] + rest.sent, rest.stop)
  }

  /** A page of the loop that raises ends it. */
  lemma PagesStepRaised(fetch: PageFetch, page: nat, maxPages: nat, wanted: nat, token: Option<string>,
                        jobList: seq<JobPost>, seen: set<Option<string>>,
                        fetched: (Result<(seq<JobPost>, Option<string>)>, set<Option<string>>))
    requires page <= maxPages && |jobList| < wanted && fetched.0.Err? && fetched == fetch(token, seen)
    ensures PagesFrom(fetch, page, maxPages, wanted, token, jobList, seen)
      == Paging(jobList, fetched.1, [ContinueParam(token)], Raised(fetched.0.error))
  {
  }

  /** A page of the loop without jobs, or without a truthy token, ends it. */
  lemma PagesStepStops(fetch: PageFetch, page: nat, maxPages: nat, wanted: nat, token: Option<string>,
                       jobList: seq<JobPost>, seen: set<Option<string>>, jobs: seq<JobPost>, next: Option<string>,
                       after: set<Option<string>>)
    requires page <= maxPages && |jobList| < wanted && (jobs == [] || !TruthyStr(next))
    requires (Ok((jobs, next)), after) == fetch(token, seen)
    ensures var r := PagesFrom(fetch, page, maxPages, wanted, token, jobList, seen);
      r.jobs == jobList + jobs && r.seen == after && r.sent == [ContinueParam(token)] && !r.stop.Raised?
  {
  }

  /** Any other page hands its token and the longer list to the next page. */
  lemma PagesStepContinues(fetch: PageFetch, page: nat, maxPages: nat, wanted: nat, token: Option<string>,
                           jobList: seq<JobPost>, seen: set<Option<string>>, jobs: seq<JobPost>,
                           next: Option<string>, after: set<Option<string>>)
    requires page <= maxPages && |jobList| < wanted && jobs != [] && TruthyStr(next)
    requires (Ok((jobs, next)), after) == fetch(token, seen)
    ensures var r := PagesFrom(fetch, page, maxPages, wanted, token, jobList, seen);
      var rest := PagesFrom(fetch, page + 1, maxPages, wanted, next, jobList + jobs, after);
      r.jobs == rest.jobs && r.seen == rest.seen && r.stop == rest.stop
      && r.sent == [ContinueParam(token)] + rest.sent
  {
  }

  /** The page loop keeps the URLs of its list distinct and seen, keeps the
      jobs it started with and only adds to `seen`. */
  lemma {:induction false} PagesKeepsUrls(fetch: PageFetch, get: Option<string> -> ZrResponse, page: nat,
                                          maxPages: nat, wanted: nat, token: Option<string>, jobList: seq<JobPost>,
                                          seen: set<Option<string>>)
    requires PageLaws(fetch, get)
    requires DistinctUrls(jobList) && UrlsWithin(jobList, seen)
    ensures var r := PagesFrom(fetch, page, maxPages, wanted, token, jobList, seen);
      && DistinctUrls(r.jobs) && UrlsWithin(r.jobs, r.seen) && jobList <= r.jobs && seen <= r.seen
    decreases maxPages + 1 - page
  {
    if page <= maxPages && |jobList| < wanted {
      var res := get(ContinueParam(token));
      var fetched := fetch(token, seen);
      if fetched.0.Ok? {
        var (jobs, next) := fetched.0.value;
        AppendFreshBatch(jobList, jobs, seen, fetched.1);
        if jobs != [] && TruthyStr(next) {
          PagesKeepsUrls(fetch, get, page + 1, maxPages, wanted, next, jobList + jobs, fetched.1);
        }
      } else {
        assert forall k :: 0 <= k < |jobList| ==> jobList[k].jobUrl in fetched.1;
      }
    }
  }

  /** The requests of the page loop: the first carries the parameter of
      `token`, each later one the truthy token of the answer before it; one
      per page up to `maxPages` at most, and none once the list holds
      `wanted` jobs. */
  lemma {:induction false} PagesChain(fetch: PageFetch, get: Option<string> -> ZrResponse, page: nat, maxPages: nat,
                                      wanted: nat, token: Option<string>, jobList: seq<JobPost>,
                                      seen: set<Option<string>>)
    requires PageLaws(fetch, get)
    ensures var r := PagesFrom(fetch, page, maxPages, wanted, token, jobList, seen);
      && Chained(r.sent, ContinueParam(token), get)
      && |r.sent| <= (if page <= maxPages then maxPages + 1 - page else 0)
      && (|jobList| >= wanted ==> r.sent == [])
    decreases maxPages + 1 - page
  {
    if page <= maxPages && |jobList| < wanted {
      var res := get(ContinueParam(token));
      var fetched := fetch(token, seen);
      if fetched.0.Ok? {
        var (jobs, next) := fetched.0.value;
        if jobs != [] && TruthyStr(next) {
          PagesChain(fetch, get, page + 1, maxPages, wanted, next, jobList + jobs, fetched.1);
          var rest := PagesFrom(fetch, page + 1, maxPages, wanted, next, jobList + jobs,
                                fetched.1);
          var sent := [ContinueParam(token)] + rest.sent;
          assert res.JobsPage? && next == res.next;
          forall k | 0 <= k < |sent| - 1
            ensures get(sent[k]).JobsPage? && TruthyStr(get(sent[k]).next) && sent[k + 1] == get(sent[k]).next
          {
            if k > 0 {
              assert sent[k] == rest.sent[k - 1] && sent[k + 1] == rest.sent[k];
            }
          }
        }
      }
    }
  }

  /** A page that raises is the last one requested, and one of its jobs is
      unbuildable. */
  lemma {:induction false} PagesRaised(fetch: PageFetch, get: Option<string> -> ZrResponse, page: nat, maxPages: nat,
                                       wanted: nat, token: Option<string>, jobList: seq<JobPost>,
                                       seen: set<Option<string>>)
    requires PageLaws(fetch, get)
    ensures var r := PagesFrom(fetch, page, maxPages, wanted, token, jobList, seen);
      r.stop.Raised? ==>
        |r.sent| > 0 && get(r.sent[|r.sent| - 1]).JobsPage? && HasUnbuildable(get(r.sent[|r.sent| - 1]).jobs)
    decreases maxPages + 1 - page
  {
    if page <= maxPages && |jobList| < wanted {
      var res := get(ContinueParam(token));
      var fetched := fetch(token, seen);
      if fetched.0.Ok? {
        var (jobs, next) := fetched.0.value;
        if jobs != [] && TruthyStr(next) {
          PagesRaised(fetch, get, page + 1, maxPages, wanted, next, jobList + jobs, fetched.1);
          var rest := PagesFrom(fetch, page + 1, maxPages, wanted, next, jobList + jobs,
                                fetched.1);
          if rest.stop.Raised? {
            assert ([ContinueParam(token)] + rest.sent)[|rest.sent|] == rest.sent[|rest.sent| - 1];
          }
        }
      }
    }
  }

  /** When no answer to a request of the loop is a page with an unbuildable
      job, the loop does not raise. */
  lemma {:induction false} PagesBuildableNeverRaise(fetch: PageFetch, get: Option<string> -> ZrResponse, page: nat,
                                                maxPages: nat, wanted: nat, token: Option<string>,
                                                jobList: seq<JobPost>, seen: set<Option<string>>)
    requires PageLaws(fetch, get)
    ensures var r := PagesFrom(fetch, page, maxPages, wanted, token, jobList, seen);
      (forall k :: 0 <= k < |r.sent| ==> get(r.sent[k]).JobsPage? ==> !HasUnbuildable(get(r.sent[k]).jobs))
        ==> !r.stop.Raised?
    decreases maxPages + 1 - page
  {
    if page <= maxPages && |jobList| < wanted {
      var res := get(ContinueParam(token));
      var fetched := fetch(token, seen);
      var r := PagesFrom(fetch, page, maxPages, wanted, token, jobList, seen);
      if fetched.0.Ok? {
        var (jobs, next) := fetched.0.value;
        if jobs != [] && TruthyStr(next) {
          PagesBuildableNeverRaise(fetch, get, page + 1, maxPages, wanted, next, jobList + jobs, fetched.1);
          var rest := PagesFrom(fetch, page + 1, maxPages, wanted, next, jobList + jobs,
                                fetched.1);
          if forall k :: 0 <= k < |r.sent| ==> get(r.sent[k]).JobsPage? ==> !HasUnbuildable(get(r.sent[k]).jobs) {
            forall k | 0 <= k < |rest.sent| ensures get(rest.sent[k]).JobsPage? ==> !HasUnbuildable(get(rest.sent[k]).jobs) {
              assert rest.sent[k] == r.sent[k + 1];
            }
          }
        }
      } else {
        assert r.sent[0] == ContinueParam(token);
      }
    }
  }

  /** `ZipRecruiter.scrape` with record builder `post` and `results_wanted`
      `rw`: the page loop from page 1 without a token and with an
      empty list; a page that raises makes the scrape raise, and otherwise
      the list is cut to `rw`. Besides the result, the new `seen_urls` and
      the parameters sent. */
  function ScrapeOutcome(post: JobBuilder, rw: nat, get: Option<string> -> ZrResponse, seen: set<Option<string>>)
    : (Result<seq<JobPost>>, set<Option<string>>, seq<Option<string>>)
  {
    var p := PagesFrom(PageFetcher(post, get), 1, MaxPages(rw), rw, None, [], seen);
    (if p.stop.Raised? then Err(p.stop.error) else Ok(Prefix(p.jobs, rw)), p.seen, p.sent)
  }

  /** What `ZipRecruiter.scrape` returns has at most `results_wanted` jobs
      with distinct, seen URLs; its requests are chained from one without
      `continue_from`, one per page of the limit at most; it raises only after
      a page with an unbuildable job, and never when no answer has one. */
  lemma ScrapeOutcomeFacts(post: JobBuilder, rw: nat, get: Option<string> -> ZrResponse, seen: set<Option<string>>)
    requires Poster(post)
    ensures var out := ScrapeOutcome(post, rw, get, seen);
      && (out.0.Ok? ==> |out.0.value| <= rw)
      && (out.0.Ok? ==> DistinctUrls(out.0.value) && UrlsWithin(out.0.value, out.1))
      && |out.2| <= MaxPages(rw)
      && Chained(out.2, None, get)
      && (out.0.Err? ==> |out.2| > 0 && get(out.2[|out.2| - 1]).JobsPage?
                         && HasUnbuildable(get(out.2[|out.2| - 1]).jobs))
      && ((forall k :: 0 <= k < |out.2| ==> get(out.2[k]).JobsPage? ==> !HasUnbuildable(get(out.2[k]).jobs))
            ==> out.0.Ok?)
  {
    var fetch := PageFetcher(post, get);
    FetcherLaws(post, get);
    PagesKeepsUrls(fetch, get, 1, MaxPages(rw), rw, None, [], seen);
    PagesChain(fetch, get, 1, MaxPages(rw), rw, None, [], seen);
    PagesRaised(fetch, get, 1, MaxPages(rw), rw, None, [], seen);
    PagesBuildableNeverRaise(fetch, get, 1, MaxPages(rw), rw, None, [], seen);
    var p := PagesFrom(fetch, 1, MaxPages(rw), rw, None, [], seen);
    PrefixKeepsUrls(p.jobs, rw, p.seen);
  }

  // ---------------------------------------------------------------------
  // The FlareSolverr step of the constructor (`_get_cookies`)

  /** What `flaresolverr_get` returns: the page text and the cookies as
      name/value pairs, both `None` when FlareSolverr is not configured or
      its request failed. It is a pair, never `None`. */
  datatype SolverResult = SolverResult(response: Option<string>, cookies: Option<seq<(string, string)>>)

  /** The cookie step as written: `fs_result is not None` always holds and
      `fs_result["cookies"]` indexes the pair by a string, which raises, so
      the constructor fails whatever FlareSolverr returned. */
  function SolverCookiesAsWritten(fs: SolverResult): (r: Result<map<string, string>>)
    ensures r.Err?
  {
    Err("TypeError")
  }

  /** As written, the scraper cannot be built even when FlareSolverr is not
      configured, so ZipRecruiter never contributes a job. */
  lemma AsWrittenUnconfiguredSolverRaises()
    ensures SolverCookiesAsWritten(SolverResult(None, None)).Err?
  {
  }

  /** The cookie jar after `cookies.set(name, value)` for each pair in turn. */
  function Jar(cookies: seq<(string, string)>): map<string, string> {
    if cookies == [] then map[]
    else Jar(cookies[..|cookies| - 1])[cookies[|cookies| - 1].0 := cookies[|cookies| - 1].1]
  }

  /** The jar holds exactly the names set, each with the value of the last
      pair of that name. */
  lemma {:induction false} JarSpec(cookies: seq<(string, string)>)
    ensures forall n :: n in Jar(cookies) <==> exists k :: 0 <= k < |cookies| && cookies[k].0 == n
    ensures forall k :: 0 <= k < |cookies| && (forall j :: k < j < |cookies| ==> cookies[j].0 != cookies[k].0) ==>
      Jar(cookies)[cookies[k].0] == cookies[k].1
  {
    if cookies != [] {
      var init := cookies[..|cookies| - 1];
      var last := cookies[|cookies| - 1];
      JarSpec(init);
      forall n
        ensures n in Jar(cookies) <==> exists k :: 0 <= k < |cookies| && cookies[k].0 == n
      {
        if n in Jar(init) {
          var k :| 0 <= k < |init| && init[k].0 == n;
          assert cookies[k] == init[k];
        }
        if exists k :: 0 <= k < |cookies| && cookies[k].0 == n {
          var k :| 0 <= k < |cookies| && cookies[k].0 == n;
          if k < |init| {
            assert init[k] == cookies[k];
          }
        }
      }
      forall k | 0 <= k < |cookies| && (forall j :: k < j < |cookies| ==> cookies[j].0 != cookies[k].0)
        ensures Jar(cookies)[cookies[k].0] == cookies[k].1
      {
        if k < |init| {
          assert init[k] == cookies[k];
          forall j | k < j < |init|
            ensures init[j].0 != init[k].0
          {
            assert init[j] == cookies[j];
          }
        }
      }
    }
  }

  /** The cookie step as intended: the cookies FlareSolverr returned are
      set, and nothing is set when it returned none. */
  function SolverJar(fs: SolverResult): (r: map<string, string>)
    ensures fs.cookies.None? ==> r == map[]
  {
    if fs.cookies.None? then map[] else Jar(fs.cookies.value)
  }

  /** With the intended step the constructor succeeds, and the session
      holds exactly the cookie names FlareSolverr returned. */
  lemma SolverJarIntended(fs: SolverResult)
    ensures forall n :: n in SolverJar(fs) <==>
      fs.cookies.Some? && exists k :: 0 <= k < |fs.cookies.value| && fs.cookies.value[k].0 == n
  {
    if fs.cookies.Some? {
      JarSpec(fs.cookies.value);
    }
  }

  class ZipRecruiterScraper {
    /** `seen_urls` */
    var seenUrls: set<Option<string>>
    /** The session's cookies, by name. */
    var cookies: map<string, string>
    /** The `continue_from` parameters of the requests sent so far. */
    ghost var requests: seq<Option<string>>

    /** A fresh scraper with the intended cookie step; `fs` stands for what
        `flaresolverr_get(base_url)` returned. The session-event request
        that follows is not part of this model. */
    constructor (fs: SolverResult)
      ensures seenUrls == {} && requests == [] && cookies == SolverJar(fs)
    {
      seenUrls := {};
      cookies := SolverJar(fs);
      requests := [];
    }

    /** `_process_job(job)`: `None` for a URL already seen; otherwise the URL
        is recorded before the record is built. */
    method ProcessJob(env: Env, co: Collaborators, format: DescriptionFormat, j: ZrJob)
      returns (r: Result<Option<JobPost>>)
      modifies this
      ensures requests == old(requests)
      ensures Some(ListingUrl(j)) in old(seenUrls) ==> r == Ok(None) && seenUrls == old(seenUrls)
      ensures Some(ListingUrl(j)) !in old(seenUrls) ==>
        && seenUrls == old(seenUrls) + {Some(ListingUrl(j))}
        && r == match JobPostOf(env, co, format, j) case Ok(p) => Ok(Some(p)) case Err(e) => Err(e)
      ensures r.Err? ==> Unbuildable(j) && old(seenUrls) <= seenUrls
      ensures r.Ok? && r.value.None? ==> seenUrls == old(seenUrls)
      ensures r.Ok? && r.value.Some? ==>
        r.value.value.jobUrl !in old(seenUrls) && seenUrls == old(seenUrls) + {r.value.value.jobUrl}
    {
      var url := ListingUrl(j);
      if Some(url) in seenUrls {
        return Ok(None);
      }
      seenUrls := seenUrls + {Some(url)};
      match JobPostOf(env, co, format, j) {
        case Ok(p) => r := Ok(Some(p));
        case Err(e) => r := Err(e);
      }
    }

    /** The job loop of `_find_jobs_in_page`: every job is processed, the
        `None` results are filtered out, and the first exception in list
        order is what the page raises. */
    method ProcessJobs(env: Env, co: Collaborators, format: DescriptionFormat, jobs: seq<ZrJob>)
      returns (posts: seq<JobPost>, failure: Option<string>)
      modifies this
      ensures (posts, failure, seenUrls) == ProcessedJobs(JobPoster(env, co, format), jobs, old(seenUrls))
      ensures requests == old(requests)
      ensures seenUrls == old(seenUrls) + JobUrls(jobs)
      ensures failure.None? ==> FreshBatch(posts, old(seenUrls), seenUrls) && |posts| <= |jobs|
      ensures failure.Some? ==> HasUnbuildable(jobs)
      ensures !HasUnbuildable(jobs) ==> failure.None?
    {
      ghost var builder := JobPoster(env, co, format);
      posts := [];
      failure := None;
      var k := 0;
      while k < |jobs|
        invariant 0 <= k <= |jobs|
        invariant requests == old(requests)
        invariant (posts, failure, seenUrls) == ProcessedJobs(builder, jobs[..k], old(seenUrls))
      {
        ghost var step := JobStep(builder, (posts, failure, seenUrls), jobs[k]);
        assert ProcessedJobs(builder, jobs[..k + 1], old(seenUrls)) == step by {
          assert jobs[..k + 1][..k] == jobs[..k];
        }
        assert builder(jobs[k]) == JobPostOf(env, co, format, jobs[k]);
        var post := ProcessJob(env, co, format, jobs[k]);
        match post {
          case Err(e) =>
            if failure.None? {
              failure := Some(e);
            }
          case Ok(p) =>
            if p.Some? && failure.None? {
              posts := posts + [p.value];
            }
        }
        k := k + 1;
      }
      assert jobs[..k] == jobs;
      JobPosterPosts(env, co, format);
      ProcessedJobsSeen(builder, jobs, old(seenUrls));
      ProcessedJobsFresh(builder, jobs, old(seenUrls));
      ProcessedJobsRaises(builder, jobs, old(seenUrls));
    }

    /** `_find_jobs_in_page(scraper_input, continue_token)`: a failed request
        gives no jobs and the empty token; otherwise the new jobs of the page
        and its `continue` token. What it returns and the new `seen_urls`
        are `FoundPage` of the answer to its parameter, which `fetch` is. */
    method FindJobsInPage(env: Env, co: Collaborators, format: DescriptionFormat, token: Option<string>,
                          get: Option<string> -> ZrResponse, ghost fetch: PageFetch)
      returns (r: Result<(seq<JobPost>, Option<string>)>)
      requires FetchesPages(fetch, JobPoster(env, co, format), get)
      modifies this
      ensures requests == old(requests) + [ContinueParam(token)]
      ensures (r, seenUrls) == fetch(token, old(seenUrls))
      ensures old(seenUrls) <= seenUrls
      ensures var res := get(ContinueParam(token));
        && (res.RequestFailed? ==> r == Ok(([], Some(""))))
        && (r.Ok? ==> FreshBatch(r.value.0, old(seenUrls), seenUrls))
        && (r.Ok? && res.JobsPage? ==> r.value.1 == res.next && |r.value.0| <= |res.jobs|)
        && (r.Err? ==> res.JobsPage? && HasUnbuildable(res.jobs))
        && (res.JobsPage? && !HasUnbuildable(res.jobs) ==> r.Ok?)
    {
      ghost var expected := FoundPage(JobPoster(env, co, format), get(ContinueParam(token)), seenUrls);
      JobPosterPosts(env, co, format);
      FoundPageFacts(JobPoster(env, co, format), get(ContinueParam(token)), seenUrls);
      var param := if TruthyStr(token) then token else None;
      requests := requests + [param];
      var res := get(param);
      if res.RequestFailed? {
        return Ok(([], Some("")));
      }
      var posts, failure := ProcessJobs(env, co, format, res.jobs);
      if failure.Some? {
        return Err(failure.value);
      }
      return Ok((posts, res.next));
    }

    /** The page loop of `ZipRecruiter.scrape` up to page `maxPages`, with
        `fetch` the page fetch `_find_jobs_in_page` performs: the list
        before the final cut, or the exception of a page. */
    method FollowPages(env: Env, co: Collaborators, format: DescriptionFormat, get: Option<string> -> ZrResponse,
                       ghost fetch: PageFetch, maxPages: nat, wanted: nat)
      returns (r: Result<seq<JobPost>>)
      requires FetchesPages(fetch, JobPoster(env, co, format), get)
      modifies this
      ensures var p := PagesFrom(fetch, 1, maxPages, wanted, None, [], old(seenUrls));
        && r == (if p.stop.Raised? then Err(p.stop.error) else Ok(p.jobs))
        && seenUrls == p.seen && requests == old(requests) + p.sent
    {
      ghost var total := PagesFrom(fetch, 1, maxPages, wanted, None, [], seenUrls);
      var jobList: seq<JobPost> := [];
      var token: Option<string> := None;
      var page := 1;
      while page <= maxPages
        invariant 1 <= page <= maxPages + 1
        invariant var rest := PagesFrom(fetch, page, maxPages, wanted, token, jobList, seenUrls);
          && rest.jobs == total.jobs && rest.seen == total.seen && rest.stop == total.stop
          && requests + rest.sent == old(requests) + total.sent
        decreases maxPages + 1 - page
      {
        if |jobList| >= wanted {
          break;
        }
        ghost var before := seenUrls;
        ghost var sentBefore := requests;
        ghost var here := PagesFrom(fetch, page, maxPages, wanted, token, jobList, seenUrls);
        var result := FindJobsInPage(env, co, format, token, get, fetch);
        if result.Err? {
          PagesStepRaised(fetch, page, maxPages, wanted, token, jobList, before, (result, seenUrls));
          return Err(result.error);
        }
        var (jobs, next) := result.value;
        if jobs == [] || !TruthyStr(next) {
          PagesStepStops(fetch, page, maxPages, wanted, token, jobList, before, jobs, next, seenUrls);
          jobList := jobList + jobs;
          break;
        }
        PagesStepContinues(fetch, page, maxPages, wanted, token, jobList, before, jobs, next, seenUrls);
        ghost var rest := PagesFrom(fetch, page + 1, maxPages, wanted, next, jobList + jobs, seenUrls);
        calc {
          requests + rest.sent;
          (sentBefore + [ContinueParam(token)]) + rest.sent;
          sentBefore + ([ContinueParam(token)] + rest.sent);
          sentBefore + here.sent;
          old(requests) + total.sent;
        }
        token := next;
        jobList := jobList + jobs;
        page := page + 1;
      }
      return Ok(jobList);
    }

    /** `ZipRecruiter.scrape`: up to `ceil(results_wanted / 20)` pages, each
        after the first with the token of the one before; it stops before a
        fetch once the target is reached, after a page without new jobs and
        after a page without a token, and cuts the list to the target. An
        exception of a job propagates. */
    method Scrape(input: ScraperInput, env: Env, co: Collaborators, get: Option<string> -> ZrResponse)
      returns (r: Result<seq<JobPost>>)
      modifies this
      ensures var out := ScrapeOutcome(JobPoster(env, co, input.descriptionFormat), input.resultsWanted, get,
                                       old(seenUrls));
        r == out.0 && seenUrls == out.1 && requests == old(requests) + out.2
      ensures r.Ok? ==> |r.value| <= input.resultsWanted
      ensures r.Ok? ==> DistinctUrls(r.value) && UrlsWithin(r.value, seenUrls)
      ensures old(requests) <= requests
      ensures |requests| - |old(requests)| <= MaxPages(input.resultsWanted)
      ensures Chained(requests[|old(requests)|..], None, get)
      ensures r.Err? ==> |requests| > |old(requests)| && get(requests[|requests| - 1]).JobsPage?
                         && HasUnbuildable(get(requests[|requests| - 1]).jobs)
    {
      var wanted := input.resultsWanted;
      var format := input.descriptionFormat;
      ghost var builder := JobPoster(env, co, format);
      ghost var req0 := requests;
      JobPosterPosts(env, co, format);
      ScrapeOutcomeFacts(builder, wanted, get, seenUrls);
      assert FetchesPages(PageFetcher(builder, get), builder, get);
      var found := FollowPages(env, co, format, get, PageFetcher(builder, get), MaxPages(wanted), wanted);
      if found.Err? {
        r := Err(found.error);
      } else {
        r := Ok(Prefix(found.value, wanted));
      }
      assert requests[|req0|..] == ScrapeOutcome(builder, wanted, get, old(seenUrls)).2;
    }
  }
}
