/** `scrape_jobs` from end to end: the job type and the site list checked,
    the scraper input built, every requested site's outcome collected, the
    records flattened and the result table assembled and sorted. */
module Scrape {
  import opened Wrappers
  import opened Model
  import opened Normalise
  import opened Merge
  import opened Output
  import opened Columns

  /** A `job_type` argument the lookup rejects: a non-empty string that is
      none of the job types' values. `None` and `""` are never looked up. */
  predicate JobTypeInvalid(jobType: Option<string>) {
    jobType.Some? && jobType.value != "" && forall t: JobType :: jobType.value !in JobTypeValues(t)
  }

  /** The rows built from what the listed sites returned: the sites whose
      scraper returned, in the order `site_to_jobs_dict` keeps them, each
      with its records in order. */
  function ScrapedRows(sites: seq<Site>, scrape: Outcomes, flat: Site -> JobPost -> Row): seq<Row> {
    SucceededSpec(sites, scrape);
    AllRows(Succeeded(sites, scrape), Collected(sites, scrape), flat)
  }

  /** Every row built comes from a record that a listed site returned, and
      every record a listed site returned gives a row. */
  lemma ScrapedRowsSpec(sites: seq<Site>, scrape: Outcomes, flat: Site -> JobPost -> Row)
    ensures forall row :: row in ScrapedRows(sites, scrape, flat) ==>
      exists s, k :: s in sites && scrape(s).Ok? && 0 <= k < |scrape(s).value| && row == flat(s)(scrape(s).value[k])
    ensures forall s, k :: s in sites && scrape(s).Ok? && 0 <= k < |scrape(s).value| ==>
      flat(s)(scrape(s).value[k]) in ScrapedRows(sites, scrape, flat)
  {
    var order := Succeeded(sites, scrape);
    var jobs := Collected(sites, scrape);
    SucceededSpec(sites, scrape);
    CollectedSpec(sites, scrape);
    AllRowsSpec(order, jobs, flat);
  }

  /** The value `scrape_jobs` returns for its flattened rows: an empty frame
      when there are none, otherwise the output columns in order and every
      row sorted by site and date. */
  function MergedTable(rows: seq<Row>): Table {
    if rows == [] then Table([], []) else Table(DesiredOrder, SortRows(TableOf(rows).rows))
  }

  /** The merged table holds one row per flattened row, each showing that
      row's value or null under every output column, and its rows are in
      sort order. */
  lemma MergedTableSpec(rows: seq<Row>)
    ensures rows == [] ==> MergedTable(rows) == Table([], [])
    ensures rows != [] ==> MergedTable(rows).columns == DesiredOrder
    ensures |MergedTable(rows).rows| == |rows|
    ensures Sorted(MergedTable(rows).rows)
    ensures forall v :: v in MergedTable(rows).rows <==> exists k :: 0 <= k < |rows| && v == Values(rows[k], DesiredOrder)
  {
    var t := TableOf(rows);
    SortRowsSpec(t.rows);
    if rows != [] {
      forall v
        ensures v in SortRows(t.rows) <==> exists k :: 0 <= k < |rows| && v == Values(rows[k], DesiredOrder)
      {
        assert v in SortRows(t.rows) <==> v in multiset(SortRows(t.rows));
        if v in t.rows {
          var k :| 0 <= k < |t.rows| && t.rows[k] == v;
          assert v == Values(rows[k], DesiredOrder);
        }
        if exists k :: 0 <= k < |rows| && v == Values(rows[k], DesiredOrder) {
          var k :| 0 <= k < |rows| && v == Values(rows[k], DesiredOrder);
          assert t.rows[k] == v;
        }
      }
    }
  }

  /** The result of a call whose arguments pass both checks: one row per
      record that a listed site returned, each showing the flattened
      record's values, all output columns present, and the rows sorted. */
  lemma ScrapeTableSpec(sites: seq<Site>, scrape: Outcomes, flat: Site -> JobPost -> Row)
    ensures Sorted(MergedTable(ScrapedRows(sites, scrape, flat)).rows)
    ensures forall v :: v in MergedTable(ScrapedRows(sites, scrape, flat)).rows ==>
      exists s, k :: s in sites && scrape(s).Ok? && 0 <= k < |scrape(s).value|
                     && v == Values(flat(s)(scrape(s).value[k]), DesiredOrder)
    ensures forall s, k :: s in sites && scrape(s).Ok? && 0 <= k < |scrape(s).value| ==>
      Values(flat(s)(scrape(s).value[k]), DesiredOrder) in MergedTable(ScrapedRows(sites, scrape, flat)).rows
  {
    var rows := ScrapedRows(sites, scrape, flat);
    ScrapedRowsSpec(sites, scrape, flat);
    MergedTableSpec(rows);
    forall v | v in MergedTable(rows).rows
      ensures exists s, k :: s in sites && scrape(s).Ok? && 0 <= k < |scrape(s).value|
                             && v == Values(flat(s)(scrape(s).value[k]), DesiredOrder)
    {
      var j :| 0 <= j < |rows| && v == Values(rows[j], DesiredOrder);
      assert rows[j] in rows;
    }
    forall s, k | s in sites && scrape(s).Ok? && 0 <= k < |scrape(s).value|
      ensures Values(flat(s)(scrape(s).value[k]), DesiredOrder) in MergedTable(rows).rows
    {
      var row := flat(s)(scrape(s).value[k]);
      assert row in rows;
      var j :| 0 <= j < |rows| && rows[j] == row;
    }
  }

  /** `scrape_jobs`: an invalid job type raises first, then an unknown site
      name; otherwise the scraper input is built, the sites' outcomes are
      collected and the merged table is returned. `scrape` stands for what
      each site's scraper returns on this input, and `country` for the
      parsed `country_indeed`. */
  method ScrapeJobs(siteName: SiteArg, searchTerm: Option<string>, googleSearchTerm: Option<string>,
                    location: Option<string>, isRemote: bool, jobType: Option<string>, easyApply: bool,
                    resultsWanted: nat, country: Country, descriptionFormat: DescriptionFormat,
                    offset: nat, hoursOld: Option<int>, enforceAnnual: bool, env: Env, scrape: Outcomes)
    returns (r: Result<Table>)
    ensures JobTypeInvalid(jobType) ==> r == Err("Invalid job type: " + jobType.value)
    ensures !JobTypeInvalid(jobType) && GetSiteType(siteName).Err? ==> r == Err(GetSiteType(siteName).error)
    ensures !JobTypeInvalid(jobType) && GetSiteType(siteName).Ok? ==>
      r == Ok(MergedTable(ScrapedRows(GetSiteType(siteName).value, scrape, Flattener(country, enforceAnnual, env))))
  {
    var parsed: Option<JobType> := None;
    if jobType.Some? && jobType.value != "" {
      var e := GetEnumFromValue(jobType.value);
      if e.Err? {
        return Err(e.error);
      }
      parsed := Some(e.value);
    }
    var siteTypes := GetSiteType(siteName);
    if siteTypes.Err? {
      return Err(siteTypes.error);
    }
    var input := new ScraperInput(siteTypes.value, country, searchTerm, googleSearchTerm, location, isRemote,
                                  parsed, easyApply, descriptionFormat, resultsWanted, offset, hoursOld);
    var order, jobs := CollectResults(input.siteType, scrape);
    var rows := BuildRows(order, jobs, Flattener(country, enforceAnnual, env));
    if rows == [] {
      return Ok(Table([], []));
    }
    var t := NormaliseColumns(rows);
    return Ok(Table(t.columns, SortRows(t.rows)));
  }
}
