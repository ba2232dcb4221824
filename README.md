# JobSpy core, modelled in Dafny

JobSpy collects job postings from several job boards and merges them into one
table. The caller names the sites, a search term, a location and some
filters. `scrape_jobs` checks the job type and the site names and builds one
shared scraper input. It then runs every requested site's scraper and
flattens each returned job record into a dictionary. Along the way it fills
the salary columns, either from the record's compensation or from a dollar
range found in its description. Finally it assembles the table: all 34
output columns in a fixed order, sorted by site ascending and then by posting
date descending.

This project models:

- that pipeline, from `scrape_jobs` down to the final sorted table;
- the shared helpers in `jobspy/util.py`: salary extraction, annualisation,
  the job-type keyword scan, the enum lookups, site-name mapping, proxy
  formatting and round-robin rotation, and the output column order;
- three scrapers: Google, Glassdoor and ZipRecruiter. For each it models
  the query or payload it builds, the field mapping of one posting, URL
  de-duplication through `seen_urls`, and the paging loop.

| file | module | models |
|---|---|---|
| `wrappers.dfy` | `Wrappers` | `Option` and `Result` |
| `text.dfy` | `Text` | ASCII string helpers: case, strip, split, join, digits, string order |
| `model.dfy` | `Model` | job types, sites, countries, intervals, the job record, the row type, the shared `ScraperInput` object, URL-distinctness predicates |
| `salary.dfy` | `Salary`, `SalaryProperties` | `extract_salary` and its properties |
| `normalise.dfy` | `Normalise`, `Columns` | `convert_to_annual`, `extract_job_type`, the enum lookups, `map_str_to_site`, `desired_order` |
| `proxy.dfy` | `Proxy` | `format_proxy` and the proxy step of the rotating sessions |
| `google.dfy` | `GoogleJobs` | the Google scraper |
| `glassdoor.dfy` | `GlassdoorJobs` | the Glassdoor scraper |
| `ziprecruiter.dfy` | `ZipRecruiterJobs` | the ZipRecruiter scraper |
| `output.dfy` | `Output` | dropping null columns, concatenation, the column order, the sort |
| `merge.dfy` | `Merge` | site resolution, collecting results and flattening records into rows |
| `scrape.dfy` | `Scrape` | `scrape_jobs` end to end |

The code works by changing state in several places. The model keeps that
form there:

- `convert_to_annual` and the flattening steps update a `Record` object's
  dictionary in place.
- The scrapers are classes. Each keeps its `seen_urls` set as a field.
- The shared `ScraperInput` is an object whose `resultsWanted` the Google
  and Glassdoor scrapers clamp in place.
- The proxy session is a class with a round-robin cursor.
- The loops over records, pages, keywords, sites and rows are `while` or
  `for` loops, and the query and payload builders change their result step by
  step. Each of these methods is proved equal to a specification function of
  its inputs and old state, and lemmas then prove what the source promises
  about that function. The two enum lookups, `GetEnumFromJobType` and
  `GetEnumFromValue`, are the exception: their loops are proved directly
  against the property (the last, or the first, type with the value).
- The paging loops are specified by functions over a page-fetch function
  value. The Glassdoor and ZipRecruiter page lemmas assume only a page-level
  contract (`PageLaws`) of that value, and `FetcherLaws` proves it for the
  real page step. The ZipRecruiter job loop is likewise generic over the
  record builder (`Poster`), and `JobPosterPosts` proves the contract for
  `JobPostOf`. The sort of the final table is a function, an insertion sort,
  because `sort_values` has no loop in the source.

Everything outside the process is passed in as a parameter. That covers the
HTTP answers, the FlareSolverr fallback, the clock (`Env.today`), the email
regex, the Markdown converter, `display_location`, and the site parsers in
the scrapers' `util` modules.

## Model

| member | source | states |
|---|---|---|
| Model.IntervalFromValue | jobspy/ziprecruiter/__init__.py:170-175 | A string becomes an interval exactly when it is that interval's value. Any other string is rejected. |
| Model.ExtractEmails | jobspy/util.py:218-222 | There is no email list exactly when the text is missing or empty. |
| Model.ClampWanted | jobspy/google/__init__.py:51 | The target becomes at most 900 and never grows. A target of 900 or less is unchanged. |
| Model.PySlice | jobspy/google/__init__.py:82-87 | Python slicing with clipped bounds: never longer than `hi - lo`, the exact slice when in range, empty past the end. |
| Model.Prefix | jobspy/glassdoor/__init__.py:89 | `xs[:n]` has at most `n` and at most `|xs|` elements, and is a prefix of `xs`. |
| Model.DistinctUrlsSlice | jobspy/google/__init__.py:82-87 | The final slice of a list with pairwise distinct URLs keeps them distinct. |
| Model.SliceKeepsUrls | jobspy/google/__init__.py:82-87 | A Python slice of a list with distinct, seen URLs has distinct, seen URLs. |
| Model.PrefixKeepsUrls | jobspy/glassdoor/__init__.py:88-90 | Cutting the job list to the target keeps its URLs distinct and all recorded as seen. |
| Model.AppendFreshBatch | jobspy/google/__init__.py:80 | Appending a page of newly seen, distinct URLs keeps the whole list's URLs distinct and seen. |
| Model.SiteValueInjective | jobspy/__init__.py:116-133 | Distinct sites have distinct values, so keying results by `site.value` loses no site. |
| Model.ScraperInput.constructor | jobspy/__init__.py:86-102 | The shared input holds exactly the arguments given. |
| Proxy.FormatProxy | jobspy/util.py:48-55 | The result has exactly the keys `http` and `https`, with equal values. A proxy with an `http://`, `https://` or `socks5://` scheme is kept; any other gets `http://` prefixed. |
| Proxy.FormatProxyHasScheme | jobspy/util.py:48-55 | Every formatted proxy carries a scheme. |
| Proxy.FormatProxyIdempotent | jobspy/util.py:48-55 | Formatting an already formatted proxy changes nothing. |
| Proxy.ProxyCycle | jobspy/util.py:36-46 | A string gives a one-entry cycle and a list gives one formatted entry per item, in order. Anything else gives no cycle. |
| Proxy.ProxyCycleShape | jobspy/util.py:36-46 | A session has a cycle exactly for a string or a non-empty list. Every entry has both keys. |
| Proxy.SessionProxies | jobspy/util.py:83-88 | The `http://localhost` entry clears the session's proxies. Any other entry becomes them. |
| Proxy.LocalhostMeansNoProxy | jobspy/util.py:83-88 | `localhost`, with or without `http://`, switches proxying off. |
| Proxy.RotatingSession.constructor | jobspy/util.py:36-46 | A fresh session starts at the first entry of its cycle and has no proxies set. |
| Proxy.RotatingSession.Advance | jobspy/util.py:100-106 | Each request takes the next entry round robin and wraps at the end. The entry becomes the session's proxies. Without a cycle nothing changes. The invariant keeps the position at the number of requests served modulo the cycle length. |
| Salary.Classify | jobspy/util.py:297-312 | The bands by the minimum: hourly below 350, monthly from 350 up to below 30000, yearly from 30000. |
| Salary.Scaled | jobspy/util.py:289-294 | A `k` on either number multiplies both numbers by 1000. |
| Salary.SearchFrom | jobspy/util.py:286 | The result is the match at the leftmost start position. No match means no position matches. |
| Salary.FirstWhereLeftmost | jobspy/util.py:286 | The scan stops at the first position that satisfies the test, or at the end when none does. |
| Salary.HitLeftmost | jobspy/util.py:286 | For the salary pattern: no match starts before the position found, and one starts there unless it is the end. |
| Salary.FirstMatch | jobspy/util.py:286 | `re.search` starts at the leftmost position where the pattern matches. No earlier position matches. |
| Salary.ExtractSalary | jobspy/util.py:259-326 | Missing or empty text, or text without a match, gives no salary. A salary, when found, is in dollars. |
| SalaryProperties.ExtractSalaryCharacterised | jobspy/util.py:286-326 | A salary is found exactly when the leftmost match, after the `k` rule, passes the reference rule. That rule: both ends in the minimum's band, both annualised ends in [1000, 700000], minimum below maximum. The interval is the minimum's band; the amounts are the scaled ones, annualised when asked. |
| SalaryProperties.EnforceAnnualRelation | jobspy/util.py:322-325 | Asking for annual amounts changes neither whether a salary is found nor its interval. Both amounts are multiplied by the interval's yearly factor. |
| SalaryProperties.FromMatchAnnual | jobspy/util.py:297-325 | The same relation for one match of the pattern. |
| SalaryProperties.ExtractSalaryWindow | jobspy/util.py:314-321 | A returned range, annualised, lies in [1000, 700000] with the minimum strictly below the maximum. |
| SalaryProperties.FromMatchWindow | jobspy/util.py:314-321 | The same window for one match of the pattern. |
| SalaryProperties.NoDollarNoSalary | jobspy/util.py:275-286 | Text without `$` from a position on has no match from there. |
| SalaryProperties.ExampleNoSalary | jobspy/util.py:286-326 | "no salary mentioned" has no salary. |
| SalaryProperties.YearlyMatch | jobspy/util.py:275 | The pattern reads "$50,000 - $70,000" as 50000 to 70000 without suffixes. |
| SalaryProperties.ExampleYearly | jobspy/util.py:309-325 | "$50,000 - $70,000" is a yearly salary of 50000 to 70000 dollars. |
| SalaryProperties.HourlyMatch | jobspy/util.py:275 | The pattern reads "$20 - $30" as 20 to 30. |
| SalaryProperties.HourlyDecision | jobspy/util.py:297-325 | That match is hourly, 20 to 30, or 41600 to 62400 when annualised. |
| SalaryProperties.ExampleHourly | jobspy/util.py:297-325 | "$20 - $30" is an hourly salary of 20 to 30, or 41600 to 62400 when annualised. |
| SalaryProperties.OneSuffixMatch | jobspy/util.py:275 | The pattern reads "$50k - 70" with the suffix on the first number only. |
| SalaryProperties.ExampleOneSuffixScalesBoth | jobspy/util.py:291-294 | "$50k - 70" is 50000 to 70000 a year: one `k` scales both numbers. |
| SalaryProperties.BandMismatchMatch | jobspy/util.py:275 | The pattern reads "$20 - $400" as 20 to 400. |
| SalaryProperties.ExampleBandMismatch | jobspy/util.py:297-316 | "$20 - $400" has no salary. The minimum is hourly but the maximum is not below 350. |
| Normalise.Annualised | jobspy/util.py:363-376 | The keys are unchanged, the interval becomes "yearly", and nothing but the interval and the two amounts changes. |
| Normalise.ConvertToAnnual | jobspy/util.py:363-376 | The record's dictionary is updated in place to its annualised form. |
| Normalise.AnnualisedTable | jobspy/util.py:363-375 | A known interval multiplies both amounts by its factor: 2080 hourly, 12 monthly, 52 weekly, 260 daily, 1 yearly. |
| Normalise.AnnualisedUnknownInterval | jobspy/util.py:363-376 | Any other interval only relabels the record as yearly. |
| Normalise.AnnualisedIdempotent | jobspy/util.py:363-376 | Annualising twice is annualising once. |
| Normalise.ExampleMonthly | jobspy/util.py:367-369 | Monthly 5000 to 7000 becomes yearly 60000 to 84000. |
| Normalise.ExtractJobType | jobspy/util.py:329-345 | No description gives an empty list. Otherwise the result is the types whose keyword occurs, and `None` when none occurs. |
| Normalise.CollectMatching | jobspy/util.py:340-343 | The keyword loop collects exactly the matching types, in keyword order. |
| Normalise.MatchingTypesMembers | jobspy/util.py:340-343 | A type is collected exactly when one of its keywords occurs in the text. |
| Normalise.MatchingTypesOrdered | jobspy/util.py:333-343 | The collected types follow the keyword table's order. |
| Normalise.MatchingTypesSpec | jobspy/util.py:333-345 | Full time, part time, internship and contract are each reported exactly when their pattern occurs, case-insensitively. No other type is reported, and the reported types are distinct and in table order. |
| Normalise.FullTimeSpellings | jobspy/util.py:334 | `full\s?time` accepts "Full Time" and "FULLTIME". |
| Normalise.GetEnumFromJobType | jobspy/util.py:225-233 | The result has the string among its values and is the last such type in declaration order. There is no result exactly when no type has the value. |
| Normalise.GetEnumFromValue | jobspy/util.py:356-360 | The result has the string among its values and is the first such type. When no type has it, the error is "Invalid job type: " followed by the string. |
| Normalise.SiteFromName | jobspy/util.py:353 | `Site[name]` finds the site with that member name, and fails exactly when no site has it. |
| Normalise.MapStrToSite | jobspy/util.py:348-353 | The upper-cased name, with "ZIPRECRUITER" read as "ZIP_RECRUITER", must be a site's member name. Otherwise the lookup fails. |
| Normalise.MapStrToSiteIgnoresCase | jobspy/util.py:348-353 | Lower-casing a site name first changes nothing. |
| Normalise.MapStrToSiteValue | jobspy/util.py:348-353 | Every site's value maps back to that site. |
| Normalise.MapStrToSiteCompactZip | jobspy/util.py:351-352 | "ziprecruiter", in any case, maps to ZipRecruiter. |
| Columns.RankOfDesiredOrder | jobspy/util.py:379-415 | The output order has 34 columns, each at its listed position. |
| Columns.DesiredOrderDistinct | jobspy/util.py:379-415 | All 34 output columns are distinct. The raw `company_name` and `compensation` fields are not among them. |
| GoogleJobs.GetTimeRange | jobspy/google/__init__.py:93-101 | Always one of the four time phrases. |
| GoogleJobs.TimeRangeNarrowest | jobspy/google/__init__.py:93-101 | The phrase is the narrowest window that covers the age, and the month for anything older than a week. |
| GoogleJobs.TimeRangeMonotone | jobspy/google/__init__.py:93-101 | An older age never gets a narrower window. |
| GoogleJobs.JobTypeLabel | jobspy/google/__init__.py:103-111 | Only full time, part time, internship and contract add a phrase to the query. |
| GoogleJobs.BuildQuery | jobspy/google/__init__.py:91-124 | The query is built step by step into the specified query text. |
| GoogleJobs.QueryShape | jobspy/google/__init__.py:91-124 | A non-empty Google search term replaces the whole query. Otherwise the query starts with "<term> jobs" and ends with " remote" for a remote search. |
| GoogleJobs.InitialTextAsWritten | jobspy/google/__init__.py:142-164 | As written, the result is text exactly when the direct answer is accepted. Every rejected answer raises. |
| GoogleJobs.AsWrittenBlockedRequestRaises | jobspy/google/__init__.py:155-159 | A 429 answer with FlareSolverr unconfigured raises instead of giving no jobs. |
| GoogleJobs.InitialText | jobspy/google/__init__.py:142-164 | Intended: the direct text when it is accepted (status 200, at least 1000 characters, the job-data marker), otherwise the FlareSolverr text. |
| GoogleJobs.InitialTextIntended | jobspy/google/__init__.py:142-168 | A rejected answer without FlareSolverr gives nothing to parse. Usable text is an accepted answer or a long enough fallback. |
| GoogleJobs.FirstNumberFrom | jobspy/google/__init__.py:319 | There is no number exactly when no digit follows. |
| GoogleJobs.InfoDate | jobspy/google/__init__.py:317-321 | An age string without a digit raises, and a non-string age gives no date. A returned date is never after today. |
| GoogleJobs.InfoLocation | jobspy/google/__init__.py:312-315 | A location without a comma is the city alone. Otherwise the city is the stripped text before the first comma, the state the stripped second comma-separated part, and the country is set exactly when there is a third part, as that part stripped. There is a country exactly when there are more than two parts. |
| GoogleJobs.InfoLocationFields | jobspy/google/__init__.py:312-315 | A record location of three comma-free fields gives each field, stripped, as city, state and country. |
| GoogleJobs.InfoLocationParts | jobspy/google/__init__.py:312-315 | "<city>, <state>, <country>" of parts without commas or surrounding whitespace gives exactly those parts. |
| GoogleJobs.ExampleInfoLocation | jobspy/google/__init__.py:312-315 | "Austin, TX, US" is Austin, TX in the United States. |
| GoogleJobs.JobFromInfo | jobspy/google/__init__.py:304-339 | A record fails exactly when its age raises, its description is null or its title is null, in that order: the age's own error, then `AttributeError` from `description.lower()`, then the record's `ValidationError`. Otherwise it carries the `go-` id, the URL, the title, the description, the parsed location, the date and the remote flag of the description. |
| GoogleJobs.HtidocidFrom | jobspy/google/__init__.py:237 | The `htidocid` value runs up to the next `&`. There is none exactly when no position carries the key. |
| GoogleJobs.CardUrl | jobspy/google/__init__.py:235-244 | A card's URL is the job page built from its `htidocid`, or the share URL when there is none. |
| GoogleJobs.LocationHead | jobspy/google/__init__.py:259 | The head holds no ` (` or `•` delimiter and has no surrounding space. |
| GoogleJobs.FirstDigit | jobspy/google/__init__.py:319 | The position found holds a digit, or is the end. No digit comes before it. |
| GoogleJobs.CardLocation | jobspy/google/__init__.py:256-265 | A card location has a city and a state exactly when its head contains a comma: the city is the stripped text of the head before the first comma, the state the stripped second part. It never has a country. |
| GoogleJobs.LocationHeadBefore | jobspy/google/__init__.py:259 | The head of a text that has no delimiter before a `(` or bullet is that text, stripped. |
| GoogleJobs.CardLocationFields | jobspy/google/__init__.py:261-265 | A head of two comma-free fields gives them, stripped, as city and state. |
| GoogleJobs.CardHead | jobspy/google/__init__.py:259-262 | "<city>, <state> " has no delimiter, and without its last space it has no surrounding whitespace. |
| GoogleJobs.CardLocationSpaced | jobspy/google/__init__.py:256-265 | A card text built as city, comma, space, state, space and a delimited tail has exactly that city and state. |
| GoogleJobs.CardLocationParts | jobspy/google/__init__.py:256-265 | "<city>, <state> " followed by a `(` or bullet gives that city and state, for parts without commas, delimiters or surrounding whitespace. |
| GoogleJobs.ExampleCardLocation | jobspy/google/__init__.py:256-265 | The comment's own example, "Fresno, CA (+1 other) • via Talent.com", is Fresno, CA, with no country. |
| GoogleJobs.DaysAgoFrom | jobspy/google/__init__.py:272 | There is no day count exactly when no position starts "<digits> day". |
| GoogleJobs.FirstDaysAgo | jobspy/google/__init__.py:272 | No position before the one found starts "<digits> day". |
| GoogleJobs.DaysAgoFromLeftmost | jobspy/google/__init__.py:272 | `re.search` reads the day count at the leftmost position that starts "<digits> day". |
| GoogleJobs.RelativeDay | jobspy/google/__init__.py:275-278 | "yesterday" is one day ago. Otherwise "today" or "hour" is today. Otherwise there is no date. Never a date after today. |
| GoogleJobs.CardDate | jobspy/google/__init__.py:267-278 | No date text, no date. A date is never after today, and "<n> day" means n days ago. |
| GoogleJobs.CardPost | jobspy/google/__init__.py:291-302 | A card's record carries the `go-` id, the card URL, the location, the date and the remote flag found in the description. |
| GoogleJobs.ParsedCardsFresh | jobspy/google/__init__.py:216-220 | The card loop gives new, pairwise distinct URLs, all now seen, and at most one record per card. |
| GoogleJobs.ParsedCardsFromCards | jobspy/google/__init__.py:216-220 | Each record of the card loop is the record of one of the cards. |
| GoogleJobs.ParsedInfosErrorSticks | jobspy/google/__init__.py:174-178 | Once a raw record raises, the later ones change nothing: the exception ends the loop. |
| GoogleJobs.ParsedInfosFresh | jobspy/google/__init__.py:174-178 | When the loop does not raise, its records have new, distinct, seen URLs, each from one raw record, at most one per raw record. |
| GoogleJobs.InitialResultCases | jobspy/google/__init__.py:142-180 | Unusable text gives no cursor and no jobs. Usable text raises exactly when its records do. Otherwise the cursor is the page's and the jobs are fresh records of its raw records. (intended reading; see ## Findings) |
| GoogleJobs.Paged | jobspy/google/__init__.py:65-81 | The paging loop only appends to the job list. |
| GoogleJobs.PagedKeepsUrls | jobspy/google/__init__.py:65-81 | The paging loop keeps the job list's URLs distinct and all seen. |
| GoogleJobs.PagedSliceKeepsUrls | jobspy/google/__init__.py:65-87 | So does the final slice of the paged list. |
| GoogleJobs.ScrapeOutcomeSteps | jobspy/google/__init__.py:56-87 | An initial exception propagates. No initial cursor returns the initial jobs. Otherwise the result is the `offset` slice of the paged list. (intended reading; see ## Findings) |
| GoogleJobs.ScrapeOutcomeKeepsUrls | jobspy/google/__init__.py:44-87 | The jobs `scrape` returns have distinct URLs, all seen. (intended reading; see ## Findings) |
| GoogleJobs.ScrapeOutcomeBound | jobspy/google/__init__.py:82-87 | Once a cursor was found, no more than the target is returned. (intended reading; see ## Findings) |
| GoogleJobs.GoogleScraper.FollowCursor | jobspy/google/__init__.py:63-81 | The paging loop computes the specified paged list and seen set. |
| GoogleJobs.GoogleScraper.constructor | jobspy/google/__init__.py:40 | A fresh scraper has seen no URL. |
| GoogleJobs.GoogleScraper.ParseJob | jobspy/google/__init__.py:304-339 | A seen URL gives nothing and leaves the seen set alone. A new URL is recorded before the record is built, and the result is that record or its exception. |
| GoogleJobs.GoogleScraper.ParseInfos | jobspy/google/__init__.py:174-178 | The initial page's records have new, pairwise distinct URLs, all now seen. Each comes from one raw record. |
| GoogleJobs.GoogleScraper.ParseCard | jobspy/google/__init__.py:224-248 | A card without an id or with a seen URL gives nothing. Otherwise its URL is recorded and its record built. |
| GoogleJobs.GoogleScraper.ParseCards | jobspy/google/__init__.py:216-220 | A page's records have new, pairwise distinct URLs, all now seen. |
| GoogleJobs.GoogleScraper.InitialCursorAndJobs | jobspy/google/__init__.py:89-180 | The cursor is the initial page's, or none when the text is unusable. The jobs are fresh. (intended reading; see ## Findings) |
| GoogleJobs.GoogleScraper.Scrape | jobspy/google/__init__.py:44-87 | The shared target is clamped to 900. The jobs returned have distinct, seen URLs, and no more than the target once a cursor was found. (intended reading; see ## Findings) |
| GlassdoorJobs.MapLocationType | jobspy/glassdoor/__init__.py:281-287 | C, S and N become CITY, STATE and COUNTRY. Any other code is kept. |
| GlassdoorJobs.MapLocationTypeIdempotent | jobspy/glassdoor/__init__.py:281-287 | Mapping twice is mapping once, and no one-letter code survives. |
| GlassdoorJobs.GetLocation | jobspy/glassdoor/__init__.py:255-288 | No location, a remote search, a failed lookup or an empty answer all give the remote fallback. |
| GlassdoorJobs.GetLocationOutcomes | jobspy/glassdoor/__init__.py:255-288 | The location is the fallback or the first item of a successful lookup. Its type is never a one-letter code. |
| GlassdoorJobs.Fromage | jobspy/glassdoor/__init__.py:297-299 | A truthy age gives whole days, at least 1. Any age below 48 hours gives 1. |
| GlassdoorJobs.FiltersSpec | jobspy/glassdoor/__init__.py:297-325 | Easy apply, a truthy age and a job type each add their filter, at most three, in that order. The job type filter uses the type's first value. |
| GlassdoorJobs.PayloadLocation | jobspy/glassdoor/__init__.py:305-321 | The location reaches the payload as its fields and inside `parameterUrlInput`, along with the page and the cursor. |
| GlassdoorJobs.AddPayload | jobspy/glassdoor/__init__.py:290-326 | The payload is built filter by filter into the specified payload. |
| GlassdoorJobs.ListingPost | jobspy/glassdoor/__init__.py:161-215 | A listing fails exactly when it has no age. Otherwise its URL is the listing URL. |
| GlassdoorJobs.ListingPostFields | jobspy/glassdoor/__init__.py:165-215 | Checks each field of the record: the `gd-` id, the date, the remote flag, no location for type S and otherwise exactly what `parse_location` gives (possibly `None`), the company page only for a truthy id, the lower-cased sponsorship level, the fetched description with its emails, the compensation and the logo. |
| GlassdoorJobs.PageRangeBounds | jobspy/glassdoor/__init__.py:78-80 | At most 30 pages. From offset 0, enough pages for the target. No pages from an offset past the last page. |
| GlassdoorJobs.ProcessedListingsSeen | jobspy/glassdoor/__init__.py:131-143 | After the job loop `seen_urls` holds exactly the old URLs and the page's listing URLs. |
| GlassdoorJobs.ProcessedListingsFresh | jobspy/glassdoor/__init__.py:131-143 | When no listing raises, the records have new, distinct, seen URLs, at most one per listing. |
| GlassdoorJobs.ProcessedListingsRaises | jobspy/glassdoor/__init__.py:137-143 | The page raises only when one of its listings has no age. |
| GlassdoorJobs.NotInListingUrls | jobspy/glassdoor/__init__.py:165-168 | A URL that no listing has is not among the page's listing URLs. |
| GlassdoorJobs.AllNewListingsKept | jobspy/glassdoor/__init__.py:131-143 | A page of new, distinct, dated listings raises nothing and gives each listing's record, in order. |
| GlassdoorJobs.FetchedPageFacts | jobspy/glassdoor/__init__.py:96-147 | The page step only adds to `seen_urls`. A failed request gives no jobs and no cursor. A page that does not raise gives fresh records and the page's cursor. It raises only for an ageless listing, and always yields when there is none. |
| GlassdoorJobs.FetcherLaws | jobspy/glassdoor/__init__.py:96-147 | The page step of `_fetch_jobs_page` meets that page contract for every payload and seen set. |
| GlassdoorJobs.PagesKeepsUrls | jobspy/glassdoor/__init__.py:81-90 | The page loop keeps the job list's URLs distinct and all seen, only appends to it, and never goes past the target. |
| GlassdoorJobs.PagesChain | jobspy/glassdoor/__init__.py:78-93 | Requests go to consecutive pages. The first carries the given cursor and each later one the cursor of the page before. At least one and at most `end - page` pages are requested. |
| GlassdoorJobs.PagesTarget | jobspy/glassdoor/__init__.py:87-90 | The loop stops for the target only with exactly the target. Otherwise the list is below the target or empty. |
| GlassdoorJobs.PagesRangeDone | jobspy/glassdoor/__init__.py:81 | A loop that runs out of pages has requested every page of the range. |
| GlassdoorJobs.PagesRaised | jobspy/glassdoor/__init__.py:83-93 | The loop stops on an exception only after a last request whose answer had an ageless listing. |
| GlassdoorJobs.ScrapeOutcomeFacts | jobspy/glassdoor/__init__.py:53-94 | The specified outcome has at most the target, with distinct, seen URLs, from at most the range's pages, requested in order with chained cursors. |
| GlassdoorJobs.GlassdoorScraper.FollowPages | jobspy/glassdoor/__init__.py:75-93 | The page loop computes the specified jobs, seen set and requests. |
| GlassdoorJobs.GlassdoorScraper.constructor | jobspy/glassdoor/__init__.py:51 | A fresh scraper has seen no URL and sent no request. |
| GlassdoorJobs.GlassdoorScraper.ProcessJob | jobspy/glassdoor/__init__.py:161-169 | A seen URL gives nothing. A new URL is recorded, and the record is built or the listing raises. |
| GlassdoorJobs.GlassdoorScraper.ProcessListings | jobspy/glassdoor/__init__.py:131-143 | The job loop gives the specified records, first exception and seen set. `seen_urls` gains exactly the page's listing URLs. The records are fresh, and the page raises only for an ageless listing and always yields without one. |
| GlassdoorJobs.GlassdoorScraper.FetchJobsPage | jobspy/glassdoor/__init__.py:96-147 | The specified payload is sent and the result is the page step on it. A failed request gives no jobs and no cursor. A result is fresh records with the page's cursor. It raises only for an ageless listing, and always yields without one. |
| GlassdoorJobs.GlassdoorScraper.Scrape | jobspy/glassdoor/__init__.py:53-94 | The shared target is clamped to 900 and the result is the specified outcome of the page loop. The job list is at most the target, with distinct, seen URLs. No more pages are requested than the range allows, on consecutive pages, each with the previous page's cursor. |
| ZipRecruiterJobs.IntervalName | jobspy/ziprecruiter/__init__.py:157-158 | "annual" is read as "yearly". Anything else is kept. |
| ZipRecruiterJobs.CompInterval | jobspy/ziprecruiter/__init__.py:157-175 | The interval the record stores is the one that name denotes. "annual" is yearly. |
| ZipRecruiterJobs.JobCountry | jobspy/ziprecruiter/__init__.py:147-148 | "US" is the United States. Anything else, including no country, is Canada. |
| ZipRecruiterJobs.AmountValue | jobspy/ziprecruiter/__init__.py:159-160 | A missing amount is `None` and a number is that number. |
| ZipRecruiterJobs.JobPostOf | jobspy/ziprecruiter/__init__.py:129-182 | A job fails exactly when it is unbuildable. A posting time that does not parse is a `ValueError`. Otherwise a null amount is a `TypeError`. A built record's URL is the listing URL. |
| ZipRecruiterJobs.JobPostFields | jobspy/ziprecruiter/__init__.py:139-182 | Checks each field of the record: the `zr-` id, the location and country, the full description unless empty, emails from the short description, each amount as given or `None` when missing, the job type and the listing type. |
| ZipRecruiterJobs.ContinueParam | jobspy/ziprecruiter/__init__.py:99-100 | Only a truthy token is sent as `continue_from`. |
| ZipRecruiterJobs.MaxPagesIsCeiling | jobspy/ziprecruiter/__init__.py:70 | The page count is the ceiling of the target over 20, and zero exactly for a zero target. |
| ZipRecruiterJobs.SolverCookiesAsWritten | jobspy/ziprecruiter/__init__.py:226-231 | As written, the cookie step raises whatever FlareSolverr returned. |
| ZipRecruiterJobs.AsWrittenUnconfiguredSolverRaises | jobspy/ziprecruiter/__init__.py:226-228 | Even an unconfigured FlareSolverr makes the constructor raise. |
| ZipRecruiterJobs.JarSpec | jobspy/ziprecruiter/__init__.py:228-229 | The session holds exactly the cookie names set, each with the last value given for it. |
| ZipRecruiterJobs.SolverJar | jobspy/ziprecruiter/__init__.py:226-229 | Intended: no cookies are set when FlareSolverr gave none. |
| ZipRecruiterJobs.SolverJarIntended | jobspy/ziprecruiter/__init__.py:226-229 | Intended: the session holds exactly the cookie names FlareSolverr returned. |
| ZipRecruiterJobs.JobPosterPosts | jobspy/ziprecruiter/__init__.py:129-182 | `_process_job`'s builder raises exactly for an unbuildable job, and a record's URL is the job's URL. |
| ZipRecruiterJobs.ProcessedJobsSeen | jobspy/ziprecruiter/__init__.py:123-126 | After the job loop `seen_urls` holds exactly the old URLs and the page's job URLs. |
| ZipRecruiterJobs.ProcessedJobsFresh | jobspy/ziprecruiter/__init__.py:123-126 | When no job raises, the records have new, distinct, seen URLs, at most one per job. |
| ZipRecruiterJobs.ProcessedJobsRaises | jobspy/ziprecruiter/__init__.py:123-126 | The page raises only when one of its jobs is unbuildable. |
| ZipRecruiterJobs.NotInJobUrls | jobspy/ziprecruiter/__init__.py:134-136 | A URL that no job has is not among the page's job URLs. |
| ZipRecruiterJobs.AllNewJobsKept | jobspy/ziprecruiter/__init__.py:123-126 | A page of new, distinct, buildable jobs raises nothing and gives each job's record, in order. |
| ZipRecruiterJobs.FoundPageFacts | jobspy/ziprecruiter/__init__.py:88-127 | The page step only adds to `seen_urls`. A failed request gives no jobs and the empty token. A result is fresh records, at most one per job, with the page's `continue` token. It raises only for an unbuildable job, and always yields without one. |
| ZipRecruiterJobs.FetcherLaws | jobspy/ziprecruiter/__init__.py:88-127 | The page step of `_find_jobs_in_page` meets that page contract for every token and seen set. |
| ZipRecruiterJobs.PagesKeepsUrls | jobspy/ziprecruiter/__init__.py:71-85 | The page loop keeps the job list's URLs distinct and all seen, and only appends to it. |
| ZipRecruiterJobs.PagesChain | jobspy/ziprecruiter/__init__.py:71-85 | The first request carries the given token and each later one the truthy token of the page before. At most the remaining pages are requested, and none once the target is reached. |
| ZipRecruiterJobs.PagesRaised | jobspy/ziprecruiter/__init__.py:77-79 | The loop stops on an exception only after a last request whose answer had an unbuildable job. |
| ZipRecruiterJobs.PagesBuildableNeverRaise | jobspy/ziprecruiter/__init__.py:71-85 | When no answer requested has an unbuildable job, the loop does not raise. |
| ZipRecruiterJobs.ScrapeOutcomeFacts | jobspy/ziprecruiter/__init__.py:60-86 | The specified outcome has at most the target, with distinct, seen URLs, from at most `ceil(target / 20)` chained requests. It raises only after an answer with an unbuildable job, and never when no answer has one. |
| ZipRecruiterJobs.ZipRecruiterScraper.FollowPages | jobspy/ziprecruiter/__init__.py:67-85 | The page loop computes the specified jobs, seen set and requests, and propagates the exception. |
| ZipRecruiterJobs.ZipRecruiterScraper.constructor | jobspy/ziprecruiter/__init__.py:54-58 | A fresh scraper has seen no URL and holds the intended cookies. |
| ZipRecruiterJobs.ZipRecruiterScraper.ProcessJob | jobspy/ziprecruiter/__init__.py:129-137 | A seen URL gives nothing. A new URL is recorded, and the record is built or the job raises. |
| ZipRecruiterJobs.ZipRecruiterScraper.ProcessJobs | jobspy/ziprecruiter/__init__.py:123-126 | The job loop gives the specified records, first exception and seen set. `seen_urls` gains exactly the page's job URLs. The records are fresh, at most one per job, and the page raises only for an unbuildable job and always yields without one. |
| ZipRecruiterJobs.ZipRecruiterScraper.FindJobsInPage | jobspy/ziprecruiter/__init__.py:88-127 | One request with the token, and the result is the page step on its answer. A failed request gives no jobs and the empty token. A result is fresh records with the page's `continue` token. It raises only for an unbuildable job, and always yields without one. |
| ZipRecruiterJobs.ZipRecruiterScraper.Scrape | jobspy/ziprecruiter/__init__.py:60-86 | The result is the specified outcome: an exception propagates, otherwise the paged list cut to the target. The job list has distinct, seen URLs. No more than `ceil(target / 20)` requests are sent, chained by tokens. An exception comes only from an answer with an unbuildable job. |
| Merge.ResolveItem | jobspy/__init__.py:79 | A site stays itself and a name is mapped. |
| Merge.ResolveItems | jobspy/__init__.py:77-81 | A list resolves exactly when every item does, element by element. Otherwise it fails with one item's error. |
| Merge.GetSiteType | jobspy/__init__.py:71-82 | No argument means every site. A site or a name means that one site, and a list is resolved item by item. |
| Merge.SiteValuesSelectSites | jobspy/__init__.py:71-82 | Passing the sites' values as names selects exactly those sites, in order. |
| Merge.CollectedSpec | jobspy/__init__.py:124-137 | The results hold exactly the requested sites whose scraper returned, each with its jobs. |
| Merge.SucceededSpec | jobspy/__init__.py:124-137 | The result order lists each such site once. |
| Merge.CollectResults | jobspy/__init__.py:118-137 | The fan-in collects exactly those results. |
| Merge.TypeNames | jobspy/__init__.py:147-151 | Each job type is written as its first value. |
| Merge.FieldsSpec | jobspy/__init__.py:143 | `job.dict()` has each listed field under its own key and nothing else. |
| Merge.PostRowCell | jobspy/__init__.py:143 | Each field of the record sits in its dictionary. |
| Merge.PostRowKeys | jobspy/__init__.py:143 | The dictionary's keys are exactly the record's fields. No salary column is among them. |
| Merge.PostRowComp | jobspy/__init__.py:161 | The compensation the dictionary holds is the record's. |
| Merge.LabelRecord | jobspy/__init__.py:144-158 | The labelling steps update the dictionary in place. |
| Merge.CopyCompensation | jobspy/__init__.py:161-178 | The direct compensation step updates the dictionary in place. |
| Merge.AddSalary | jobspy/__init__.py:160-190 | The salary step updates the dictionary in place. |
| Merge.FinishRecord | jobspy/__init__.py:192-206 | The source check and the Naukri fields update the dictionary in place. |
| Merge.FlattenJob | jobspy/__init__.py:141-206 | The loop body turns a record into the specified flattened row. |
| Merge.FlatRowSite | jobspy/__init__.py:145-146 | The row's site is the site's value, and its company is the company name. |
| Merge.FlatRowLabels | jobspy/__init__.py:147-158 | Job types and emails are joined by ", ", or null when empty. A present location is rendered for display. |
| Merge.FlatRowSkills | jobspy/__init__.py:199-201 | Skills are joined by ", ", or null when empty. |
| Merge.FlatRowKeeps | jobspy/__init__.py:141-206 | Every other field reaches the row unchanged. |
| Merge.FlatRowKeepsSalary | jobspy/__init__.py:160-196 | The salary entries written survive the later steps. |
| Merge.FlatRowDirectScaled | jobspy/__init__.py:172-178 | With annual amounts asked, a known interval other than yearly and truthy amounts, both amounts are multiplied by the interval's factor and the interval becomes yearly. |
| Merge.FlatRowDirectCopied | jobspy/__init__.py:162-171 | Otherwise the compensation's interval and amounts are copied as they are. |
| Merge.FlatRowDirectSource | jobspy/__init__.py:171-196 | With a compensation, the salary source is direct data exactly when the minimum is truthy. |
| Merge.FlatRowDirectCurrency | jobspy/__init__.py:170 | The compensation's currency is copied. |
| Merge.FlatRowDescriptionSalary | jobspy/__init__.py:179-190 | Without a compensation, in the USA, the description's salary fills the four columns, in dollars. |
| Merge.FlatRowDescriptionSource | jobspy/__init__.py:190-196 | The description is the salary source exactly when a salary was found in it. |
| Merge.FlatRowNoSalary | jobspy/__init__.py:179-196 | Without a compensation, outside the USA, there are no salary columns and a null source. |
| Merge.FlatRowSourceNeedsMinimum | jobspy/__init__.py:192-196 | A salary source is never set without a truthy minimum beside it. |
| Merge.SiteRowsSpec | jobspy/__init__.py:142 | One row per record of a site, in order. |
| Merge.AllRowsSpec | jobspy/__init__.py:141-142 | Every row comes from a record of a collected site, and every such record gives a row. |
| Merge.BuildSiteRows | jobspy/__init__.py:142-209 | The inner loop builds the rows of one site. |
| Merge.BuildRows | jobspy/__init__.py:141-209 | The outer loop builds the rows of every site in collection order. |
| Output.DroppedGet | jobspy/__init__.py:213 | Dropping null entries changes no value a column reads. |
| Output.KeysOfSpec | jobspy/__init__.py:216 | The concatenated frame's columns are exactly the keys of its rows. |
| Output.Values | jobspy/__init__.py:224 | A row's values follow the column order, null where it has no entry. |
| Output.Reorder | jobspy/__init__.py:224 | Selecting the output columns keeps one row per row, each in column order. |
| Output.TableOfCells | jobspy/__init__.py:211-224 | Each cell is the row's value in that column, or null. |
| Output.NormaliseColumns | jobspy/__init__.py:211-224 | Dropping nulls, concatenating, adding the missing columns and reordering give the specified table. |
| Output.SortColumns | jobspy/__init__.py:226-229 | The sort keys sit at positions 1 and 7 of the output order. |
| Output.RowLeTotal | jobspy/__init__.py:226-229 | Any two rows are ordered one way or the other. |
| Output.RowLeTransitive | jobspy/__init__.py:226-229 | The order is transitive. |
| Output.InsertPermutes | jobspy/__init__.py:226-229 | Inserting keeps every row and adds the new one. |
| Output.InsertSorted | jobspy/__init__.py:226-229 | Inserting into sorted rows keeps them sorted. |
| Output.SortRowsSpec | jobspy/__init__.py:226-229 | The sort returns a sorted permutation of its rows: site ascending, then date descending, nulls last. |
| Output.SortedPairwise | jobspy/__init__.py:226-229 | In sorted rows every earlier row is ordered before every later one. |
| Scrape.ScrapedRowsSpec | jobspy/__init__.py:118-142 | Every row comes from a record a requested site returned, and every such record gives a row. |
| Scrape.MergedTableSpec | jobspy/__init__.py:211-231 | No rows give an empty frame. Otherwise the table has the 34 output columns and one row per flattened row, sorted, each with that row's values. |
| Scrape.ScrapeTableSpec | jobspy/__init__.py:118-231 | Each table row is the flattened form of a record a site returned, and every such record appears. The rows are sorted. |
| Scrape.ScrapeJobs | jobspy/__init__.py:31-231 | An invalid job type fails first, then an unknown site name. Otherwise the result is the merged table of every requested site's records. |

## Left out

- HTTP, TLS sessions, retries, timeouts, cookies and CSRF token fetching are left out: every answer is an oracle parameter.
- `create_session`, `flaresolverr_get`'s own request and the ZipRecruiter session-event request are network I/O; `time.sleep` between ZipRecruiter pages has no observable result.
- Thread pools (`scrape_jobs`, Glassdoor pages, ZipRecruiter pages) are modelled as sequential runs in list order. The races on `seen_urls` and on the shared `results_wanted` are not modelled.
- HTML, Markdown and plain-text conversion, and BeautifulSoup's card parsing, are oracles: `Env.toMarkdown` and the scrapers' parameters.
- The email regular expression is an uninterpreted `Env.scanEmails`.
- `currency_parser` and every floating-point step are left out. The `int(float(...))` truncation of a salary with a decimal fraction is modelled as dropping the fraction.
- Logging (`create_logger`, `set_logger_level`, `verbose`) has no effect on results.
- `jobspy/model.py` is not part of this model. The job types' value tuples, the sites, the intervals and the record fields are stand-ins written from how the core uses them.
- `Country.from_string` is not modelled: `country` is taken already parsed, so its error for an unknown country is not modelled either.
- `glassdoor/util` (`parse_location`, `parse_compensation`, `get_cursor_for_page`), `ziprecruiter/util` (`add_params`, `get_job_type_enum`) and `google/util` (`find_job_info_initial_page`, `find_job_info`) are oracles.
- `get_glassdoor_url` and the Glassdoor job description request are oracle parameters.
- Dates are whole day numbers, with today in `Env.today`. `results_wanted` and `offset` are non-negative.
- Case folding, `\d` and `\s` are ASCII-only.
- Scrapers other than Google, Glassdoor and ZipRecruiter are not modelled. In `scrape_jobs` the `SCRAPER_MAPPING` dispatch is the `scrape` parameter, which stands for what each site's scraper returned on the shared input.
- Output.SortRowsSpec: proves sorted and a permutation but not pandas' tie order, which `sort_values` does not promise by default.
- pandas data types and frame internals are left out. A frame is its set of columns and its rows, and column labels are a `Column` enum rather than strings.
- Merge.FlatRowSkills and Merge.FlatRowDescriptionSalary require the key to be present, because the source indexes `job_data["skills"]` and `job_data["description"]`; every record's dictionary has both.
- The compensation currency's "USD" default applies only to a missing key. A record always has the key, so the model copies the value, null included.
- The ZipRecruiter user-agent header step is left out: `flaresolverr_get` returns no user agent, so the intended reading has nothing to set. A cookie is modelled as its name and value.
- An interval name that is no interval's value gives no interval instead of a validation error.
- The ZipRecruiter title is taken as a string, and a posting time that does not parse is an error of that job.
- GoogleJobs.JobFromInfo: a Google title or description of a non-string type other than null is taken as null; the field validation of `JobPost` (jobspy/model.py is not part of this model) is modelled only as rejecting a null title.
- ZipRecruiterJobs.JobPostOf: a numeric amount is taken as a whole number; the truncation `int()` applies to a fractional amount is not modelled (floating point), nor an amount that is neither a number nor null.
- `distance`, the LinkedIn-specific parameters, `proxies`, `ca_cert` and `user_agent` reach only scrapers or sessions outside this model.

## Findings

| source | as written | input that shows it | evidently intended | confidence | as-written member | corrected member |
|---|---|---|---|---|---|---|
| jobspy/google/__init__.py:156-159 | `flaresolverr_get` returns a pair, never `None`, so a rejected direct answer reaches `fs_result["response"]`, and indexing a tuple by a string raises | a direct answer `Response(429, "")` with FlareSolverr not configured | use the fallback's text, and return no jobs when there is none | not executed | GoogleJobs.InitialTextAsWritten, GoogleJobs.AsWrittenBlockedRequestRaises | GoogleJobs.InitialText, GoogleJobs.InitialTextIntended |
| jobspy/ziprecruiter/__init__.py:226-231 | the same pair reaches `fs_result["cookies"]` in the constructor, which raises, so the ZipRecruiter scraper can never be built and the site never contributes a job | FlareSolverr not configured, `(None, None)` | set the cookies FlareSolverr returned, and none when it returned none | not executed | ZipRecruiterJobs.SolverCookiesAsWritten, ZipRecruiterJobs.AsWrittenUnconfiguredSolverRaises | ZipRecruiterJobs.SolverJar, ZipRecruiterJobs.SolverJarIntended |
