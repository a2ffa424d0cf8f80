# The Blue Board — a verified model of its server and script logic

The Blue Board is a dashboard of United Airlines operations: its serverless API
aggregates flight schedules, live positions, flight times and FAA airport status from
upstream feeds, and two maintenance scripts rebuild and correct the fleet database the
page ships with. This project models, in Dafny, the logic of:

- `api/irrops.js` — the IRROPS (irregular operations) pipeline: the retrying upstream
  fetch, the paginated per-hub schedule scan, `computeMetrics` with its per-hub and
  network-wide counters, score and eight worst delays, the operational-day boundary,
  the per-hub fallback cache and the response cache with its single-flight flag
  (modules `IrropsFetch`, `IrropsMetrics`, `OperationalDay`, `IrropsService`);
- `api/_rate-limit.js` — the named per-IP sliding-window limiters and their sweep
  (`SlidingWindow`, `RateLimit`);
- `api/schedule.js` — the bounded TTL cache, the spacing between upstream requests,
  query validation, the TTL choice, the day aggregation loop and the de-duplication of
  concurrent aggregations (`Schedule`);
- `api/flight-times.js` and `api/fr24-flight.js` — flight-number normalisation, the
  response caches (`TtlCache`) and request logs, the best-flight selection, the ICAO to
  IATA mapping and the record normalisers (`FlightTimes`, `Fr24Flight`);
- `api/faa.js` — the two regular-expression scans of the FAA status XML and the records
  they produce (`Faa`);
- `public/sw.js` — cache trimming, request routing, install and activation of the
  service worker (`ServiceWorker`, over the insertion-ordered maps of `OrderedMaps`);
- `rebuild-fleet.cjs` — the CSV splitter, the seat-configuration scanner, header and
  column detection, type refinement, de-duplication by registration and the sort
  (`RebuildFleet`);
- `fix-fleet.cjs` — the eight in-place reclassification passes and the generated
  entries (`FixFleet`).

`Common` holds the JavaScript string operations the sources share (trimming, case
mapping, splitting, decimal rendering). Module state that the source updates in place
is a class whose methods are proved against pure step functions; each step function
carries the lemmas that state what the source promises.

Where the code differs from what its comments or the surrounding design suggest, the
model follows the code:

- `rateLimitedFetch` returns `null` at once for a failing status other than 429 and 403,
  without a retry.
- The network-wide delay counters of `computeMetrics` use another rule than the per-hub
  ones (a cancelled flight can still count as delayed network-wide), so only
  `totalFlights`, `cancellations` and `diversions` are the sums of the per-hub values.
- The IRROPS response cache expires 15 minutes after the request that started the build
  arrived, not after the build finished.
- The hub check of `api/schedule.js` is case-insensitive.
- `fix-fleet.cjs` puts `N14502` at index 1 of the A321neo list, and iteration 32 of the
  same loop yields `N14502` again: the registration is generated twice
  (`FixFleet.A321neoDuplicate`). The overrides of the 737 MAX 9 and 787-9 lists write back
  what their loops already produced (`FixFleet.OverridesUnchanged`).

## Model

| member | source | states |
|---|---|---|
| Common.ContainsAt | api/faa.js:7 | `origin.includes(sub)` holds whenever `sub` occurs at some position |
| Common.ToUpper | api/flight-times.js:58 | `toUpperCase` keeps the length of the string |
| Common.ToUpperAt | api/flight-times.js:58 | `toUpperCase` maps each character to its upper-case form, position by position |
| Common.ToLowerAt | rebuild-fleet.cjs:119 | `toLowerCase` maps each character to its lower-case form, position by position |
| Common.LowerCaseUnchanged | rebuild-fleet.cjs:119 | a string without upper-case letters is its own lower-case form |
| Common.TrimStartDrops | rebuild-fleet.cjs:36 | the leading part of `trim` keeps a suffix and drops only white space, stopping at a non-space |
| Common.TrimEndDrops | rebuild-fleet.cjs:36 | the trailing part of `trim` keeps a prefix and drops only white space, stopping at a non-space |
| Common.Trim | api/_rate-limit.js:14 | `trim` leaves no white space at either end and never lengthens the string |
| Common.RemoveSpaces | rebuild-fleet.cjs:140 | `replace(/\s/g, '')` leaves no white space, never lengthens, and keeps a space-free string as it is |
| Common.UpperCaseUnchanged | api/flight-times.js:58 | a string without lower-case letters is its own upper-case form |
| Common.RemoveSpacesKeepsCase | api/flight-times.js:58 | removing white space brings in no lower-case letter |
| Common.CompactUpperIsCompact | api/flight-times.js:58 | trim, upper-case and strip spaces together leave no space and no lower-case letter |
| Common.CompactIsFixpoint | api/fr24-flight.js:52 | that normalisation leaves an already normal string unchanged, so applying it twice equals applying it once |
| Common.Or | api/flight-times.js:24 | `a \|\| b` on strings is one of its operands; the first is passed over only when it is empty, and the result is empty only when both are |
| Common.ReplaceFirstAbsent | api/flight-times.js:75 | `replace` with a string pattern leaves a string without the pattern unchanged |
| Common.ReplaceFirstAt | api/flight-times.js:75 | `replace` with a string pattern rewrites the first occurrence, wherever it is, and keeps the text before and after it |
| Common.LeadingDigits | rebuild-fleet.cjs:55 | the digits `parseInt` reads are the longest prefix of decimal digits |
| Common.ParseInt10 | api/schedule.js:87 | `parseInt(s, 10)` is NaN exactly when no digit follows the leading white space and the sign |
| Common.ParseIntAuto | rebuild-fleet.cjs:176 | `parseInt(s)` without a radix agrees with base 10 unless the digits start with `0x` |
| Common.NatToString | fix-fleet.cjs:79 | the decimal rendering of a number is a non-empty digit string whose value is the number |
| Common.AppendDigit | fix-fleet.cjs:79 | appending a digit to a number appends that digit to its rendering |
| Common.Split | api/_rate-limit.js:14 | `split` yields at least one part and no part holds the separator |
| Common.JoinSplit | fix-fleet.cjs:168 | `join` after `split` on the same separator gives the string back |
| Common.SplitFirstPart | api/_rate-limit.js:14 | the first part of a split is the text before the first separator |
| Common.SplitNoSeparator | api/_rate-limit.js:14 | a string without the separator splits into itself alone |
| Common.SplitLength | rebuild-fleet.cjs:96 | `split` yields one more part than there are separators |
| Common.StrictImpliesLoose | api/irrops.js:234 | every origin the anchored `localhost` rule admits is also admitted by the `includes('localhost')` rule |
| OrderedMaps.DistinctSnoc | api/schedule.js:25 | a key that is new to a `Map` goes last, and the keys stay distinct |
| OrderedMaps.DistinctDrop | public/sw.js:13 | dropping the oldest keys of a `Map` keeps the remaining keys distinct |
| OrderedMaps.Empty | api/schedule.js:2 | `new Map()` is a well-formed map of size 0 with no entries |
| OrderedMaps.Set | api/schedule.js:25 | `map.set` binds the key; a new key goes last and an existing key keeps its place |
| OrderedMaps.Without | api/schedule.js:23 | removing a key from the insertion order removes exactly that key, shortens a duplicate-free order by one, and keeps it duplicate-free |
| OrderedMaps.Delete | api/schedule.js:23 | `map.delete` removes the key from the entries and from the insertion order, shrinks the map by one exactly when the key was present, and otherwise changes nothing |
| OrderedMaps.WithoutAt | api/schedule.js:23 | removing a key from a duplicate-free insertion order cuts it out at its position, keeping the other keys in their order |
| OrderedMaps.DeleteKeepsOrder | api/schedule.js:22-23 | after `map.delete`, the remaining keys keep their insertion order, so a later oldest-first eviction picks the earliest key still present |
| OrderedMaps.DeleteOldest | api/schedule.js:22-23 | deleting `keys().next().value` drops the earliest-inserted key, and does nothing on an empty map |
| OrderedMaps.WithoutHead | api/schedule.js:22-23 | removing the first key of the insertion order leaves its tail |
| OrderedMaps.SizeIsCardinality | api/schedule.js:20 | `map.size` is the number of distinct keys |
| OrderedMaps.DistinctCardinality | api/schedule.js:20 | a duplicate-free sequence has as many distinct elements as positions |
| SlidingWindow.DropStale | api/_rate-limit.js:35 | the evicted log is no longer than before and starts at or after the cutoff |
| SlidingWindow.DropStaleSuffix | api/_rate-limit.js:35 | eviction removes a prefix of the log, and only entries older than the cutoff |
| SlidingWindow.Evict | api/_rate-limit.js:35 | the `shift` loop leaves exactly the log without its stale head |
| SlidingWindow.DropStaleSorted | api/_rate-limit.js:35 | in a time-ordered log, nothing older than the cutoff survives and the order is kept |
| SlidingWindow.DropNothing | api/_rate-limit.js:35 | a log with no stale entry is left as it is |
| SlidingWindow.Admit | api/_rate-limit.js:34-38 | a call is refused exactly when the evicted log already holds the maximum; a refused call is not recorded, an admitted one appends `now` |
| SlidingWindow.AdmitBounded | api/_rate-limit.js:37-38 | a log never grows past the maximum |
| SlidingWindow.AdmitKeepsWindow | api/_rate-limit.js:34-38 | with a clock that does not run backwards, the log stays time-ordered and holds only entries of the last 60 s |
| SlidingWindow.Replay | api/_rate-limit.js:26-52 | one decision per call time |
| SlidingWindow.BurstWithinWindow | api/_rate-limit.js:34-38 | within one window, call `k` is refused exactly when the prior entries plus `k` reach the maximum: the first `max` calls pass, all later ones are refused |
| SlidingWindow.SweepStore | api/_rate-limit.js:44-47 | the sweep only deletes clients, and only those whose evicted log is empty |
| SlidingWindow.SweepOneKey | api/_rate-limit.js:44-47 | sweeping one more client changes only that client's entry |
| SlidingWindow.SweepStoreInPlace | api/_rate-limit.js:44-47 | the in-place loop over a store computes exactly the sweep |
| SlidingWindow.SweepKeepsRecent | api/_rate-limit.js:44-47 | a client with only recent entries survives the sweep with its log intact |
| RateLimit.GetClientIp | api/_rate-limit.js:8-15 | the client key is never empty: without either header it is `unknown` |
| RateLimit.ForwardedFirst | api/_rate-limit.js:12-14 | without `x-real-ip`, the client is the trimmed part before the first comma |
| RateLimit.ClientIpExamples | tests/rate-limit.test.js:43-75 | the header cases of the limiter's tests: `x-real-ip` is preferred, and no header at all gives `unknown` |
| RateLimit.ForwardedExample | tests/rate-limit.test.js:60-66 | `50.0.0.1, 60.0.0.1` in `x-forwarded-for` is keyed as `50.0.0.1` |
| RateLimit.SweepAll | api/_rate-limit.js:43-48 | the sweep keeps every endpoint's store |
| RateLimit.DecideRefusesFullLog | api/_rate-limit.js:34-37 | a call is refused exactly when the client's evicted log is full, and then only the eviction is stored |
| RateLimit.DecideSweepSpacing | api/_rate-limit.js:40-49 | the sweep runs only on an admitted call and at most once per five minutes |
| RateLimit.DecideIsolatesOthers | api/_rate-limit.js:23-52 | other endpoints and other clients are counted independently: their logs change only by the sweep's eviction or deletion |
| RateLimit.DecideKeepsBound | api/_rate-limit.js:37-38 | no client log of a store exceeds its limiter's maximum |
| RateLimit.Registry.constructor | api/_rate-limit.js:4-5 | no stores at load, `lastCleanup` is the load time |
| RateLimit.Registry.CreateRateLimiter | api/_rate-limit.js:23-24 | the store for a name is created once and shared by every limiter of that name |
| RateLimit.Registry.IsRateLimited | api/_rate-limit.js:26-52 | the call's verdict and the new stores and sweep time are those of `Decide` |
| RateLimit.SweepEveryStore | api/_rate-limit.js:43-48 | the loop over all stores computes exactly the sweep of each |
| FlightTimes.UnitedPrefixIsCompact | api/flight-times.js:59-60 | the `UA`-to-`UAL` and bare-number rewrites keep a compact string compact |
| FlightTimes.UnitedPrefixIdempotent | api/flight-times.js:59-60 | applying the two rewrites twice is applying them once |
| FlightTimes.NormalizeIsCompact | api/flight-times.js:56-62 | a normalised flight number has no white space and no lower-case letter |
| FlightTimes.NormalizeIdempotent | api/flight-times.js:56-62 | normalising twice is normalising once, so a `UAL` number is left alone |
| FlightTimes.NormalizeCompact | api/flight-times.js:56-62 | an already compact string is changed only by the two rewrites |
| FlightTimes.BareNumberGetsPrefix | tests/flight-times.test.js:12-14 | every bare number of one to four digits gets the `UAL` prefix |
| FlightTimes.UnitedPrefixOfUa | api/flight-times.js:59 | `UA` followed by digits becomes `UAL` followed by the same digits |
| FlightTimes.UnitedPrefixOfUal | api/flight-times.js:59-60 | `UAL` followed by digits is not rewritten |
| FlightTimes.UaBecomesUal | tests/flight-times.test.js:8-10 | for any digits, `UA` + digits normalises to `UAL` + digits |
| FlightTimes.UalKept | tests/flight-times.test.js:16-18 | for any digits, `UAL` + digits normalises to itself |
| FlightTimes.NormalizeParam | tests/flight-times.test.js:24-32 | a missing or empty parameter gives the empty string; a repeated parameter uses its first value |
| FlightTimes.UnitedPrefixAccepted | api/flight-times.js:158-161 | on compact text, the format check accepts a rewritten number only if it came from a `UA`/`UAL` number or a bare number, and always accepts a bare number |
| FlightTimes.AcceptedAreUnited | api/flight-times.js:158-161 | the same for any raw text: only United numbers pass the format check, and every bare number does |
| FlightTimes.EpochToISO | api/flight-times.js:64-67 | a zero or missing epoch gives `''`; any other epoch gives its ISO string |
| FlightTimes.IcaoToIata | api/flight-times.js:132-138 | empty exactly when the input is empty; a four-character `K` code loses its `K`; otherwise a table code is mapped and any other code is kept |
| FlightTimes.IcaoTableShape | api/flight-times.js:134-136 | no table code is shadowed by the `K` rule; table codes and `K` codes all become three-letter codes |
| FlightTimes.StripLeadingColon | api/flight-times.js:238 | the time zone is a suffix of the raw one at most one character shorter; only a leading colon is ever dropped, and a leading colon always is |
| FlightTimes.CandidatePrefix | api/flight-times.js:212-214 | which entries are candidates, and their rank times, do not depend on the entries after them |
| FlightTimes.LastIsBest | api/flight-times.js:217-222 | a candidate that beats the best so far, or follows no candidate, becomes the best |
| FlightTimes.EarlierStaysBest | api/flight-times.js:217-222 | the best so far stays best when the next entry does not strictly beat it |
| FlightTimes.PickIsBest | api/flight-times.js:207-227 | the pick is none exactly when no entry has an activity log; otherwise it is the first flight of the earliest entry with the greatest rank time |
| FlightTimes.SelectBestFlight | api/flight-times.js:209-223 | the candidate loop returns the pick, and so the best candidate, with ties going to the earliest |
| FlightTimes.FirstActive | api/flight-times.js:99 | none exactly when every flight has ended; otherwise a flight of the list that has not ended |
| FlightTimes.PickSummary | api/flight-times.js:99-102 | none exactly when the list is empty; the pick is in the list, and an ended pick means every flight has ended |
| FlightTimes.SummaryResult | api/flight-times.js:103-140 | diverted exactly when both destination codes are set and differ; the status follows `flight_ended`; origin and destination use the ICAO-to-IATA mapping, the actual destination first |
| FlightTimes.TrySummary | api/flight-times.js:69-147 | a result exactly when the token is configured and the reply holds at least one flight; otherwise the 404 |
| FlightTimes.ClientIp | api/flight-times.js:21-25 | the client address is never empty |
| FlightTimes.ClientIpDiffersFromShared | api/flight-times.js:21-25 | with both headers set to different addresses, this endpoint takes the forwarded one while the shared limiter takes `x-real-ip` |
| FlightTimes.SameRuleAsSharedLimiter | api/flight-times.js:27-44 | one call of `isRateLimited` decides, stores and sweeps as the shared limiter with a maximum of five would |
| FlightTimes.AdmittedLogIsFresh | api/flight-times.js:32-34 | an admitted client's log lies wholly inside the one-minute window |
| FlightTimes.DecideRecordsAdmission | api/flight-times.js:30-43 | after the sweep, the caller's log is exactly its admission log, and the decision is the admission's |
| FlightTimes.ReplayDecide | api/flight-times.js:27-44 | one decision for each call |
| FlightTimes.ReplayDecideIsReplay | api/flight-times.js:27-44 | one client's decisions depend only on that client's own log, whatever the other clients and the sweep do |
| FlightTimes.FivePerMinute | api/flight-times.js:33 | for a new client's calls within one minute, the first five pass and the rest are refused |
| FlightTimes.AllowOrigin | api/flight-times.js:46-54 | the header never names an origin the strict `^http://localhost(:\d+)?$` rule of the IRROPS gate refuses, and echoes every non-empty origin that rule admits; otherwise it names the site |
| FlightTimes.HandleStep | api/flight-times.js:149-161 | the response cache stays well formed and within its size bound |
| FlightTimes.CacheStep | api/flight-times.js:163-168 | the response cache stays well formed and within its size bound |
| FlightTimes.FetchStep | api/flight-times.js:170-285 | the response cache stays well formed and within its size bound |
| FlightTimes.RefusedEarly | api/flight-times.js:152-161 | `OPTIONS`, other methods and a missing or malformed flight number get 204, 405 or 400 and change nothing |
| FlightTimes.CacheHitSkipsLimiter | api/flight-times.js:163-168 | a fresh cached answer is served as 200, marked cached, without touching the limiter or the cache |
| FlightTimes.CacheHitAtCacheStep | api/flight-times.js:163-168 | the cache read answers a fresh entry itself and leaves the state alone |
| FlightTimes.FetchedResultIsCached | api/flight-times.js:141 | a 200 from the upstream is what the cache read returns, marked cached, for the next two minutes |
| FlightTimes.OkIsWellFormedGet | api/flight-times.js:152-161 | only a `GET` with a well-formed flight number is answered with 200 |
| FlightTimes.HandleIsCacheStep | api/flight-times.js:149-164 | a well-formed `GET` goes on to the cache read with the normalised number and the client address |
| FlightTimes.FreshAnswerWasFetched | api/flight-times.js:163-172 | an answer not marked cached comes from the upstream after a cache miss |
| FlightTimes.ResultCachedForTwoMinutes | api/flight-times.js:163-281 | a fresh answer for a flight number is what the same request gets, marked cached, for the next two minutes |
| FlightTimes.NoCandidateIs404 | api/flight-times.js:225-227 | a bootstrap with no activity log is a 404 and does not fall back to the summary |
| FlightTimes.FlightTimesEndpoint.constructor | api/flight-times.js:5-26 | a module load starts with an empty cache, no client logs and the last sweep at load time |
| FlightTimes.FlightTimesEndpoint.GetCached | api/flight-times.js:8-13 | the cache read, with the lookup's result and new cache, and nothing else changed |
| FlightTimes.FlightTimesEndpoint.SetCache | api/flight-times.js:14-17 | the cache write, with the oldest entry evicted above 200 entries, and nothing else changed |
| FlightTimes.FlightTimesEndpoint.IsRateLimited | api/flight-times.js:27-44 | the decision and the new limiter state are those of `Decide`, and the cache is unchanged |
| FlightTimes.FlightTimesEndpoint.Handle | api/flight-times.js:149-286 | one request's response and new state are those of `HandleStep` |
| Schedule.Interpret | api/schedule.js:52-60 | a page is produced exactly for a 2xx response carrying a schedule; any other outcome throws, as an `AbortError` exactly on a timeout |
| Schedule.SpacingWait | api/schedule.js:30 | the wait is never negative, is zero exactly when two seconds have passed since the last request, and otherwise lasts until two seconds after it |
| Schedule.RequestsSpaced | api/schedule.js:28-32 | a request made after waiting out the spacing starts at least two seconds after the previous one |
| Schedule.CacheLookup | api/schedule.js:9-17 | an entry is returned exactly while it has not expired (until and including its expiry millisecond); a hit changes nothing and an expired entry is deleted |
| Schedule.CacheStore | api/schedule.js:19-26 | the new entry is stored with expiry `now + ttl`, the cache stays within 200 entries, and a full cache loses its earliest-inserted key, nothing else |
| Schedule.StoreThenLookup | api/schedule.js:9-26 | what was stored is found again exactly until it expires |
| Schedule.StoreEvictsOldest | api/schedule.js:20-25 | storing a new key into a full cache evicts exactly the earliest-inserted key and keeps the size at 200 |
| Schedule.ScanEntries | api/schedule.js:146-155 | the entry loop keeps only United flights scheduled before the day's end (or without a time), at most one per entry |
| Schedule.UnitedFlights | api/schedule.js:147-149 | the reference list of a page's United flights holds only United flights |
| Schedule.ScanEntriesIsPrefix | api/schedule.js:146-155 | a page contributes a prefix of its United flights: all of them unless one lies past the day, and then exactly those before the first such flight |
| Schedule.ScheduleEndpoint.ScanPage | api/schedule.js:146-155 | the in-place entry loop computes exactly `ScanEntries` |
| Schedule.PrependTwice | api/schedule.js:154-158 | the pages accumulated so far combine associatively with the rest of the loop |
| Schedule.AggFrom | api/schedule.js:140-159 | the page loop fetches at most as many pages as remain below the cap of 20 |
| Schedule.AggFromPage | api/schedule.js:140-159 | one page: its failure stops the loop, an empty page or one running past the day ends it, any other page goes in front of the rest of the loop |
| Schedule.AggFromCounters | api/schedule.js:140-159 | the loop ends on the last page fetched or one past it, and only then because the next page is beyond the total or the cap; the kept flights never outnumber the entries fetched |
| Schedule.AggFromKeepsUnitedToday | api/schedule.js:133-155 | every aggregated flight is a United flight scheduled before the end of the requested day |
| Schedule.AggregationBounds | api/schedule.js:132-173 | the result spans 1 to 20 fetched pages, `total` counts its flights, which are United flights of the day and no more than `totalFetched`, and `pagesScanned` is at most the pages fetched |
| Schedule.AggStopsOrContinues | api/schedule.js:140-159 | a failing fetch ends the loop with its exception, an empty or past-day page ends it after that page, and otherwise the next page is fetched exactly when it is within the new total and the cap |
| Schedule.Validate | api/schedule.js:75-104 | an accepted query has a 3-4 letter hub, a known direction (default departures), a timestamp within a week of now, a page in 1..100 when given, and the old/live cache lifetimes |
| Schedule.ValidateAcceptsExactly | api/schedule.js:75-104 | the sequential checks accept exactly the well-formed queries |
| Schedule.ValidateReportsFirstProblem | api/schedule.js:76-92 | a rejection names the first failed check: missing parameters, then direction, then hub, then timestamp |
| Schedule.ParseOneDigit | api/schedule.js:101 | a lone digit parses to its value |
| Schedule.PageZeroIsFirstPage | api/schedule.js:101 | `page=0` and `page=1` both select page 1 |
| Schedule.PageNaNIsFirstPage | api/schedule.js:101 | a non-numeric page selects page 1 |
| Schedule.NegativePageRefused | api/schedule.js:101-104 | `page=-3` parses to -3 and the query is refused |
| Schedule.ErrorResponse | api/schedule.js:184-188 | an abort gives 504 and every other failure 502 |
| Schedule.KeysDisjoint | api/schedule.js:105-118 | a single-page cache key never equals an aggregation key |
| Schedule.Dispatch | api/schedule.js:105-130 | a cache hit or a join changes no pending key; only a new aggregation marks its key pending, and only when it was not pending already |
| Schedule.BeginStep | api/schedule.js:64-130 | non-GET gives 405, a foreign origin 403 and a rejected query 400 with its message, all without touching the state |
| Schedule.PageFinishStep | api/schedule.js:111-114 | the single-page fetch records its request time, caches the page, and keeps the cache within 200 entries |
| Schedule.AggFinishStep | api/schedule.js:172-183 | a settled aggregation frees its key whatever the outcome and keeps the cache within 200 entries |
| Schedule.HandleStep | api/schedule.js:64-189 | a whole request leaves the pending keys as it found them and the cache within 200 entries; a non-GET request gets 405 and changes nothing; a 200 is given only to a GET from an allowed origin with a valid query |
| Schedule.PageServedFromCache | api/schedule.js:105-114 | a fetched page is served from the cache, marked cached, to any request for the same page until it expires |
| Schedule.OneAggregationPerKey | api/schedule.js:118-183 | while an aggregation is pending, a request for the same key joins it or is served from the cache; once settled the key is free and the result is served from the cache until it expires |
| Schedule.ScheduleEndpoint.constructor | api/schedule.js:2-4 | module load: empty cache, no earlier request, nothing pending |
| Schedule.ScheduleEndpoint.CacheGet | api/schedule.js:9-17 | the in-place lookup computes `CacheLookup` and touches nothing else |
| Schedule.ScheduleEndpoint.CacheSet | api/schedule.js:19-26 | the in-place store computes `CacheStore` and touches nothing else |
| Schedule.ScheduleEndpoint.RateLimitedFetch | api/schedule.js:28-50 | waits `SpacingWait`, records the request time and returns the upstream's reply |
| Schedule.ScheduleEndpoint.FetchOnePage | api/schedule.js:52-60 | the page fetch returns `Interpret` of the upstream reply and records the request time |
| Schedule.ScheduleEndpoint.Begin | api/schedule.js:64-130 | the handler's synchronous part computes `BeginStep` |
| Schedule.ScheduleEndpoint.ServePage | api/schedule.js:111-114 | single-page mode computes `PageFinishStep` |
| Schedule.ScheduleEndpoint.RunAggregation | api/schedule.js:133-159 | the page loop computes exactly `Aggregation` and leaves the cache and pending keys alone |
| Schedule.ScheduleEndpoint.FinishAggregation | api/schedule.js:161-183 | computes `AggFinishStep` |
| Schedule.ScheduleEndpoint.Handle | api/schedule.js:64-189 | one request's response and new cache, last-request time and pending keys are those of `HandleStep` |
| TtlCache.Lookup | api/fr24-flight.js:16-21 | an entry is returned exactly while it is at most the TTL old; a hit changes nothing and a stale entry is deleted |
| TtlCache.Store | api/fr24-flight.js:22-29 | the entry is stored with the current time, no other entry changes value, and a cache of at most 201 entries stays within 201 |
| TtlCache.StoreThenLookup | api/flight-times.js:8-17 | what was stored is read back exactly while it is at most the TTL old |
| TtlCache.BoundIsReached | api/fr24-flight.js:24-28 | because the guard is `> 200`, the cache reaches 201 entries, and a new key then evicts the oldest and keeps 201 |
| Fr24Flight.IataPrefixIsCompact | api/fr24-flight.js:54-56 | the `UAL` and bare-number rewrites keep a normalised string free of spaces and lower-case letters |
| Fr24Flight.IataPrefixIdempotent | api/fr24-flight.js:54-56 | applying the two rewrites twice is applying them once |
| Fr24Flight.NormalizeIsCompact | api/fr24-flight.js:51-58 | a normalised flight number has no white space and no lower-case letter |
| Fr24Flight.NormalizeIdempotent | api/fr24-flight.js:51-58 | normalising twice is normalising once |
| Fr24Flight.NormalizeCompact | api/fr24-flight.js:51-58 | an already compact string is changed only by the two rewrites |
| Fr24Flight.BareNumberGetsPrefix | tests/fr24-flight.test.js:9-11 | a bare number of one to four digits gets the `UA` prefix (the `838` and `2221` cases, over all digit strings) |
| Fr24Flight.IataPrefixOfUal | api/fr24-flight.js:54 | `UAL` followed by digits becomes `UA` followed by them |
| Fr24Flight.IataPrefixOfUa | api/fr24-flight.js:54-56 | `UA` followed by digits is left alone |
| Fr24Flight.UalBecomesUa | tests/fr24-flight.test.js:13-15 | `UAL838` and every `UAL` number normalises to the `UA` number |
| Fr24Flight.UaKept | tests/fr24-flight.test.js:17-19 | a `UA` number is kept as it is |
| Fr24Flight.OtherAirlineKept | tests/fr24-flight.test.js:35-37 | another airline's compact number, such as `DL100`, is kept as it is |
| Fr24Flight.EmptyStaysEmpty | tests/fr24-flight.test.js:25-29 | an empty or missing parameter normalises to the empty string |
| Fr24Flight.LeadingLetters | api/fr24-flight.js:179 | the run of leading letters is maximal: every position before it is a letter and the next is not |
| Fr24Flight.PatternSplitIsLeading | api/fr24-flight.js:179 | any split the pattern accepts cuts exactly at the end of the leading letters |
| Fr24Flight.TailStartsWithDigit | api/fr24-flight.js:179 | the part after the letters starts with a digit |
| Fr24Flight.FormatIsPattern | api/fr24-flight.js:179 | the greedy reading of `/^[A-Z]{1,3}\d{1,4}[A-Z]?$/i` accepts exactly the strings the regular expression matches |
| Fr24Flight.UnitedNumbersAccepted | api/fr24-flight.js:178-181 | `UA` followed by one to four digits passes the format check |
| Fr24Flight.Coalesce | api/fr24-flight.js:114-118 | `a ?? b` is one of its operands; the first is passed over only when it is missing, whatever its value, and the result is missing only when both are |
| Fr24Flight.NormalizeLive | api/fr24-flight.js:80-123 | the result is null exactly for missing or empty data; otherwise it comes from the first entry, is `on-ground` exactly when that entry is on the ground, and carries a position and `icao24` |
| Fr24Flight.LivePrimaryFields | tests/fr24-flight.test.js:41-86 | with every primary field present, each output is the primary field |
| Fr24Flight.LiveFallbackFields | tests/fr24-flight.test.js:99-125 | with every primary field missing, each output is its fallback field |
| Fr24Flight.ZeroPositionKept | api/fr24-flight.js:114-118 | a position value of zero is kept, because `??` only replaces null |
| Fr24Flight.NormalizeSummary | api/fr24-flight.js:125-161 | the result is null exactly for missing or empty data; otherwise it has no position and no `icao24`, and its status is `unknown` exactly when the entry's status is empty or `unknown` |
| Fr24Flight.SummaryFallbackFields | tests/fr24-flight.test.js:164-184 | with the nested objects missing, the airports, aircraft and number come from the flat fallback fields |
| Fr24Flight.AllowOrigin | api/fr24-flight.js:41-49 | the header never names an origin the loose rule (the site, or anything containing `localhost`) refuses, and echoes every non-empty origin that rule admits; otherwise it names the site |
| Fr24Flight.Fr24Lookup | api/fr24-flight.js:196-230 | a found flight is labelled `live` exactly when live positions gave one |
| Fr24Flight.SummaryLookup | api/fr24-flight.js:211-230 | the summary path always labels its result `summary` |
| Fr24Flight.HandleStep | api/fr24-flight.js:163-254 | a request keeps the response cache well formed and within 201 entries |
| Fr24Flight.CacheStep | api/fr24-flight.js:183-189 | the cache read keeps the cache well formed and within 201 entries |
| Fr24Flight.FetchStep | api/fr24-flight.js:191-248 | the lookup and cache write keep the cache well formed and within 201 entries |
| Fr24Flight.RefusedEarly | api/fr24-flight.js:167-181 | OPTIONS, another method, a missing token, a missing or malformed flight are answered 204/405/500/400 and change nothing |
| Fr24Flight.FreshAnswerIsClean | api/fr24-flight.js:232-248 | a fresh 200 carries the normalised flight without `_raw`, labelled `live` exactly when live positions gave it |
| Fr24Flight.LiveWins | api/fr24-flight.js:201-212 | when live positions give a flight, the summary's outcome does not matter |
| Fr24Flight.FetchedResultIsCached | api/fr24-flight.js:184-248 | a fresh answer is served from the cache, marked cached, for the next minute |
| Fr24Flight.CacheHitSkipsLimiter | api/fr24-flight.js:185-194 | a cached answer is a 200 that leaves the limiter's log and the cache unchanged |
| Fr24Flight.TenPerMinute | api/fr24-flight.js:32-39 | within one minute the first ten lookups pass and every later one is refused |
| Fr24Flight.Fr24Endpoint.constructor | api/fr24-flight.js:15-32 | module load: empty cache and empty request log |
| Fr24Flight.Fr24Endpoint.GetCached | api/fr24-flight.js:16-21 | the in-place read computes `TtlCache.Lookup` with the one-minute TTL |
| Fr24Flight.Fr24Endpoint.SetCache | api/fr24-flight.js:22-29 | the in-place write computes `TtlCache.Store` |
| Fr24Flight.Fr24Endpoint.IsRateLimited | api/fr24-flight.js:33-39 | the shift loop and push compute the sliding-window admission with a maximum of ten |
| Fr24Flight.Fr24Endpoint.Handle | api/fr24-flight.js:163-254 | the handler's response and new state are exactly those of `HandleStep` |
| Faa.LiteralAtIsSlice | api/faa.js:24 | a literal of the pattern occurs at a position exactly when the slice there equals it |
| Faa.SkipSpaces | api/faa.js:24 | `\s*` stops at the end of the text or at a character that is not white space |
| Faa.SkipSpacesPassesSpaces | api/faa.js:24 | everything `\s*` consumes is white space |
| Faa.SkipText | api/faa.js:24 | `[^<]*` stops at the end of the text or at a `<` |
| Faa.SkipTextPassesText | api/faa.js:24 | nothing `[^<]*` consumes is a `<` |
| Faa.FindFrom | api/faa.js:24 | the lazy `[\s\S]*?` followed by a literal ends inside the text |
| Faa.FindFromIsFirst | api/faa.js:24 | the lazy part stops at the first occurrence of the closing element, and fails only when there is none |
| Faa.MatchAt | api/faa.js:24 | a match at a position starts there, ends inside the text after the opening element, and has a non-empty airport code |
| Faa.MatchAtDelimited | api/faa.js:24 | a match opens with the record's element and ends with its closing element |
| Faa.MatchAtCaptures | api/faa.js:24 | the captured airport code and reason hold no `<` |
| Faa.Exec | api/faa.js:26 | `exec` from `lastIndex` returns a match starting at or after it and ending inside the text |
| Faa.ExecIsMatch | api/faa.js:26 | what `exec` returns is the pattern's match at the position where it starts |
| Faa.ExecIsLeftmost | api/faa.js:26 | no match starts before the one `exec` returns, and `exec` fails only when no match starts at or after `lastIndex` |
| Faa.ScanInDocumentOrder | api/faa.js:26-28 | the global scan's matches are in document order and do not overlap |
| Faa.ScanIsComplete | api/faa.js:26-28 | every match of the pattern is found unless it starts inside a match found earlier |
| Faa.Take | api/faa.js:32 | `slice(0, n)` keeps the first `min(n, length)` words |
| Faa.FirstWordsIsPrefix | api/faa.js:32 | the first words of a reason, joined again, are a prefix of the reason |
| Faa.ShortReasonKept | api/faa.js:32 | a reason of at most eight words is kept whole |
| Faa.FirstWordsCut | api/faa.js:32 | when a string holds at least `n` separators, its first `n` words end exactly at the `n`-th separator: a proper prefix holding `n - 1` separators and followed by one |
| Faa.LongReasonCut | api/faa.js:32 | a reason with eight or more spaces is cut just before its eighth space: the kept text is a proper prefix holding exactly seven spaces |
| Faa.DelayRecord | api/faa.js:27 | a delay record carries the code and the same reason in both places |
| Faa.ClosureRecord | api/faa.js:32 | a closure record carries the code and reason, and inside `CLOSED: ` followed by the reason's first eight words: the whole reason when it has fewer than eight spaces, otherwise the prefix that ends just before its eighth space |
| Faa.RecordsOf | api/faa.js:26-33 | one record per match |
| Faa.RecordsOfAt | api/faa.js:26-33 | record `i` is built from match `i` |
| Faa.DelaysBeforeClosures | api/faa.js:22-33 | every record is a delay or a closure, and all delays come before all closures |
| Faa.ExecFrom | api/faa.js:26 | one `exec`: no match ends the scan; a match is the scan's first, and the scan goes on after its end |
| Faa.ScanAll | api/faa.js:25-33 | the `exec` loop collects the records of the whole global scan, in order |
| Faa.ParseRecords | api/faa.js:21-33 | the two loops give every delay record, then every closure record |
| Faa.HandleFaa | api/faa.js:1-43 | 405 exactly for a non-`GET`; 403 exactly for a foreign origin; 200 exactly when the XML arrived, with its records; 504 exactly on an abort; 502 on a bad status or another exception |
| Faa.Handle | api/faa.js:1-43 | the handler with its scanning loops answers as `HandleFaa` |
| IrropsFetch.FetchFrom | api/irrops.js:20-55 | from a given attempt on, at least one more request is made and never more than `retries + 1` in all |
| IrropsFetch.FetchRetriesOnlyTransient | api/irrops.js:20-55 | only a thrown attempt or a 429/403 is retried; the last attempt is ok, a failing status that is not retried, or the final transient one; the response is the last attempt's exactly when that attempt was ok |
| IrropsFetch.RateLimitedFetch | api/irrops.js:20-55 | the attempt loop returns what `Fetch` describes, after one to `retries + 1` requests |
| IrropsFetch.ScanEntriesKeepsUnitedToday | api/irrops.js:76-83 | every flight a page keeps is a United flight scheduled before the end of the day, or has no scheduled time |
| IrropsFetch.UnitedFlights | api/irrops.js:77-79 | only United flights are kept |
| IrropsFetch.ScanEntriesIsPrefix | api/irrops.js:75-84 | a page contributes a prefix of its United flights: all of them, or those before the first next-day one, which ends the scan |
| IrropsFetch.ScanFrom | api/irrops.js:65-93 | at most five pages are requested in all |
| IrropsFetch.ScanFromKeepsUnitedToday | api/irrops.js:57-95 | every flight a hub's scan returns is a United flight scheduled before the end of the day, or has no scheduled time |
| IrropsFetch.HubScheduleBounds | api/irrops.js:57-95 | a hub's scan requests one to five pages and returns only United flights of the day |
| IrropsFetch.ScanStopsOrContinues | api/irrops.js:65-85 | a failed, unparsable or empty page, or one with a next-day flight, is the last page requested; otherwise the next page is requested exactly when it is within both the reported total and the cap of five |
| IrropsFetch.ScanPage | api/irrops.js:75-84 | the entry loop keeps and stops as `ScanEntries` describes |
| IrropsFetch.FetchHubSchedule | api/irrops.js:57-95 | the page loop returns the flights and page count of the recursive scan |
| IrropsFetch.FetchPage | api/irrops.js:66-89 | one turn of the page loop either ends the scan with this page's flights or continues it with the later pages appended |
| IrropsFetch.ScanFromUnfold | api/irrops.js:65-89 | one page of the scan: a bad page ends it empty; otherwise its kept flights come first, then the later pages unless it reached the next day |
| OperationalDay.HubZone | api/irrops.js:176 | every hub gets one of the table's time zones: its own when listed, EWR's otherwise |
| OperationalDay.StartOfDayBounds | api/irrops.js:184-188 | from 6 AM the start is today's local midnight, 6 to 24 hours ago; before 6 AM it is yesterday's, 24 to 30 hours ago |
| OperationalDay.UnknownHubIsNewYork | api/irrops.js:175-189 | a hub without a zone of its own gets the same start of day as EWR |
| IrropsService.HubsHaveZones | api/irrops.js:9-10 | every hub has a time zone, and no hub is listed twice |
| IrropsService.ChooseHubFallback | api/irrops.js:199-209 | a non-empty scan is used and replaces the hub's cache entry; an empty scan leaves the cache alone and uses the cached flights exactly when they are under an hour old |
| IrropsService.BuildCoversHubs | api/irrops.js:195-223 | every hub gets exactly one entry, in hub order |
| IrropsService.BuildHubsDistinct | api/irrops.js:192-223 | no hub appears twice among the build's per-hub flights |
| IrropsService.ChooseHubOnlyGrows | api/irrops.js:199-209 | one hub's choice never removes a cache entry and never stores an empty scan |
| IrropsService.BuildCacheOnlyGrows | api/irrops.js:191-226 | over the whole build, a hub's cached flights are never overwritten by an empty fetch |
| IrropsService.CollectHubFlights | api/irrops.js:192-223 | the hub loop produces the per-hub flights and the new hub cache of `Build` |
| IrropsService.Gate | api/irrops.js:229-236 | a request passes the checks exactly when it is a `GET` from the site, from `http://localhost` with an optional port, or with no origin |
| IrropsService.FreshCacheServed | api/irrops.js:245-248 | while the cache is fresh it is served, marked cached, and nothing changes |
| IrropsService.OneBuildAtATime | api/irrops.js:250-258 | a request that finds no fresh cache and no build starts one and sets `fetching`; every later such request joins it or is served |
| IrropsService.FinishThenServe | api/irrops.js:256-273 | `fetching` is cleared after every build; a success is served until the request's start time plus 15 minutes; a failure keeps the old cache and answers with it, marked stale, or with 502 |
| IrropsService.IrropsEndpoint.constructor | api/irrops.js:7-18 | a module load registers the `irrops` limiter and starts with empty caches and nothing fetching |
| IrropsService.IrropsEndpoint.Begin | api/irrops.js:228-258 | the method and origin checks change nothing; otherwise the shared limiter decides, and an admitted request is served, joins, or starts a build as `BeginStep` says |
| IrropsService.IrropsEndpoint.BuildIrropsData | api/irrops.js:191-226 | the hub cache becomes that of `Build` and the result is the metrics of the per-hub flights |
| IrropsService.IrropsEndpoint.Finish | api/irrops.js:258-273 | the response and new state after a build are those of `FinishStep` |
| IrropsService.HandleStep | api/irrops.js:228-278 | a whole request: a failed method or origin check answers 405 or 403 and a limited client 429, changing nothing; only a `GET` from an allowed origin under the limit gets 200; a request joining a build in flight answers with that build's outcome; the module state changes only when a build ran, which then caches its metrics until the request's start plus 15 minutes and serves them as not cached; `fetching` is as it was before; a cached result is never dropped; the hub cache is the old one or that of `Build` |
| IrropsService.IrropsEndpoint.Handle | api/irrops.js:228-278 | the limiter registry is updated as the limiter decides (untouched when a check fails), and the response, module state and hub cache are those of `HandleStep` |
| IrropsMetrics.DelayMinutes | api/irrops.js:121 | `Math.round` of a positive number of seconds over 60: the nearest minute, halves rounding up |
| IrropsMetrics.CountAtMostLength | api/irrops.js:101-128 | a counter never exceeds the number of flights |
| IrropsMetrics.CountMono | api/irrops.js:101-152 | a kind of flight included in another counts at most as many flights |
| IrropsMetrics.CountDisjoint | api/irrops.js:101-152 | two exclusive kinds of flight count at most all flights between them |
| IrropsMetrics.CountSplit | api/irrops.js:118-127 | a kind that splits into two exclusive kinds counts as their sum |
| IrropsMetrics.HubMetricsConsistent | api/irrops.js:103-127 | per hub, operated flights are exactly the on-time ones plus those over 30 minutes late; 60-minute delays are among the 30-minute ones; cancellations plus operated flights never exceed the total |
| IrropsMetrics.HubMetricsSnoc | api/irrops.js:105-127 | one more flight adds one to each per-hub counter whose rule it meets |
| IrropsMetrics.CountHub | api/irrops.js:103-128 | the inner loop over one hub's flights computes its counters |
| IrropsMetrics.DelaysAboveFifteen | api/irrops.js:145-150 | every delay entry is more than 15 minutes late |
| IrropsMetrics.DescendingPairwise | api/irrops.js:154 | in a list sorted by decreasing delay, every entry is at least as late as every later one |
| IrropsMetrics.InsertHead | api/irrops.js:154 | the head after inserting an entry is the old head if it stays in front, else the new entry |
| IrropsMetrics.ConsPermutes | api/irrops.js:154 | putting the same head in front of both sides keeps a permutation |
| IrropsMetrics.InsertPermutes | api/irrops.js:154 | inserting an entry adds exactly that entry to the multiset of entries |
| IrropsMetrics.InsertSorted | api/irrops.js:154 | inserting into a list sorted by decreasing delay keeps it sorted |
| IrropsMetrics.DescendingTail | api/irrops.js:154 | the tail of a sorted list is sorted |
| IrropsMetrics.SortByDelayCorrect | api/irrops.js:154 | the sort of `worstDelays` is by decreasing delay and a permutation of its input |
| IrropsMetrics.Take | api/irrops.js:168 | `slice(0, 8)` is a prefix, eight long when there are at least eight entries |
| IrropsMetrics.CollectSnoc | api/irrops.js:101-103 | one more hub appends its flights and sets its counters |
| IrropsMetrics.CollectHubs | api/irrops.js:98-129 | the hub loop builds `allFlights` and `hubMetrics` |
| IrropsMetrics.NetworkCountsSnoc | api/irrops.js:134-152 | one more flight adds one to each network counter whose rule it meets, and its delay entry when over 15 minutes late |
| IrropsMetrics.CountNetwork | api/irrops.js:131-152 | the network loop computes the network counters and the delay entries in flight order |
| IrropsMetrics.ComputeMetrics | api/irrops.js:97-173 | `computeMetrics` returns what `Metrics` states by counting |
| IrropsMetrics.SumOverUpdate | api/irrops.js:103 | setting a hub not summed over leaves a sum of counters unchanged |
| IrropsMetrics.SumOverMap | api/irrops.js:101-103 | summing over the keys of `hubMetrics` is summing over the input's hubs |
| IrropsMetrics.LastHubFresh | api/irrops.js:101 | with distinct hubs, the last hub is not among the earlier ones |
| IrropsMetrics.AllFlightsCount | api/irrops.js:101-102 | a network count that each hub counts the same way is the sum of the hubs' counts |
| IrropsMetrics.NetworkTotalsAreHubSums | api/irrops.js:101-137 | `totalFlights`, `cancellations` and `diversions` are the sums of the per-hub values |
| IrropsMetrics.HubMetricsLookup | api/irrops.js:101-103 | every hub of the input has the counters of its last entry in `hubMetrics` |
| IrropsMetrics.ScoreAtMostSixHundred | api/irrops.js:157-159 | counters no flight can exceed give a score between 0 and 600 |
| IrropsMetrics.ScoreBounds | api/irrops.js:131-159 | network-wide, 60-minute delays are among the 30-minute ones, cancellations and diversions are exclusive, and the score is between 0 and 600 |
| IrropsMetrics.EmptyMetrics | tests/irrops.test.js:30-46 | no flights give score 0, all counters 0 and no delays; no hubs give no hub metrics |
| IrropsMetrics.WorstDelaysAreTop | api/irrops.js:132-168 | at most eight worst delays, each over 15 minutes, the first entries of a permutation of all delay entries sorted by decreasing delay |
| IrropsMetrics.DelaysOfLateFlights | api/irrops.js:145-150 | for flights all over 15 minutes late, one delay entry per flight, in order |
| IrropsMetrics.SortIncreasing | api/irrops.js:154 | entries arriving in strictly increasing delay come out in reverse order |
| IrropsMetrics.SingleHub | api/irrops.js:97-173 | the result for one hub, counter by counter |
| IrropsMetrics.TestFlightClasses | tests/irrops.test.js:61-94 | how the test flights are classified: on time, cancelled, and 61 minutes late |
| IrropsMetrics.NotLateClass | api/irrops.js:139-144 | a flight no later than scheduled, or without a departure time, is not delayed |
| IrropsMetrics.LateClass | tests/irrops.test.js:84-94 | 3700 seconds late counts in both delay counters |
| IrropsMetrics.CountTwo | api/irrops.js:134-152 | a two-flight list counts each flight by its kind |
| IrropsMetrics.CancellationExample | tests/irrops.test.js:61-72 | one on-time flight and one cancellation give score 150 |
| IrropsMetrics.SixtyMinuteExample | tests/irrops.test.js:84-94 | one flight 61 minutes late counts in both delay counters and gives score 300 |
| IrropsMetrics.TwelveDelaysExample | tests/irrops.test.js:123-142 | twelve flights 20 to 75 minutes late give eight worst delays, from 75 down to 40 minutes |
| IrropsMetrics.WorstDelaysOf | api/irrops.js:154-168 | `worstDelays` is the first eight of the sorted delay entries |
| IrropsMetrics.WholeMinutesLate | api/irrops.js:141-150 | a flight a whole number of minutes over 15 late is a delay entry of exactly that many minutes |
| ServiceWorker.Opened | public/sw.js:10 | `caches.open` creates an empty cache only when the name is missing and changes no other cache |
| ServiceWorker.PutEntry | public/sw.js:44 | `cache.put` maps the request URL to the response and makes it the most recently stored key, replacing an earlier entry for the URL |
| ServiceWorker.KeepNewest | public/sw.js:9-16 | the reference for the trim: at most `n` entries, the newest ones, in stored order, with their responses unchanged |
| ServiceWorker.Trimmed | public/sw.js:9-16 | the trim opens the cache and replaces it by its newest entries, leaving the list of caches as it was |
| ServiceWorker.KeepNewestAfterDeleteOldest | public/sw.js:12-14 | deleting `keys[0]` of an over-full cache does not change which entries the trim keeps, so the recursion reaches the same result |
| ServiceWorker.TrimmedKeepsNewest | public/sw.js:9-16 | after the trim the named cache holds at most `n` entries, a suffix of its old keys, and every other cache is untouched |
| ServiceWorker.PutThenKeepNewest | public/sw.js:44-45 | a put followed by a trim to at least one entry keeps the new response as the newest entry |
| ServiceWorker.FirstHitIsFirst | public/sw.js:49 | `caches.match` answers from the first cache, in creation order, holding the URL, and misses only when no cache holds it |
| ServiceWorker.MatchCurrentCache | public/sw.js:49 | when only the current cache exists, a GET is matched exactly when that cache holds its URL, with that cache's response |
| ServiceWorker.Refresh | public/sw.js:43-46 | the background store leaves well-formed storage holding the current cache; a put that rejects (a non-GET request or a 206 response) leaves only the open |
| ServiceWorker.FetchRoutes | public/sw.js:34-66 | network-first answers with the network's response, or else the cache's match or nothing; cache-first answers a hit without the network and otherwise with the network's response or a rejection |
| ServiceWorker.RoutingExamples | public/sw.js:38 | `/api/` and `/data/` paths and other origins are network-first; `/` and `/index.html` on the own origin are cache-first |
| ServiceWorker.FetchedResponseIsStored | public/sw.js:40-46 | a non-partial response to a GET fetched from the network ends up as the newest entry of the current cache, which then holds at most 100 entries, and no other cache changes |
| ServiceWorker.RefreshStores | public/sw.js:43-46 | the put-then-trim of a non-partial GET response stores it as the newest entry of a cache of at most 100 entries, other caches untouched |
| ServiceWorker.RefreshCurrentCache | public/sw.js:43-46 | when the put is accepted, the current cache after the store is the put followed by the trim to the newest 100 |
| ServiceWorker.RefreshKeepsOthers | public/sw.js:43-46 | the store never changes, adds or removes any cache but the current one |
| ServiceWorker.OfflineReplaysLastResponse | public/sw.js:38-49 | after activation, a non-partial response to a network-first GET fetched online is answered offline with the same response |
| ServiceWorker.PutAll | public/sw.js:21 | `cache.addAll` stores every fetched app-shell response, keeps every key already present and changes no other entry |
| ServiceWorker.InstallStep | public/sw.js:18-24 | install creates the current cache, changes no other cache, and stores the whole app shell only when every shell fetch succeeded with a 2xx status other than 206 |
| ServiceWorker.InstallHoldsShell | public/sw.js:3-6 | after a successful install the current cache holds each precached page with its fetched response |
| ServiceWorker.ShellServedOffline | public/sw.js:18-32 | after install and activation, `/` and `/index.html` are served from the cache with no network at all |
| ServiceWorker.DeleteCache | public/sw.js:29 | `caches.delete` removes exactly the named cache and leaves every other cache unchanged |
| ServiceWorker.ActivateStep | public/sw.js:28-29 | each name other than the current one is deleted, keeping the remaining caches as they were |
| ServiceWorker.ClearedAll | public/sw.js:28-29 | once every old name is processed, no cache but the current one remains, and that one remains, unchanged, exactly when it was there before |
| ServiceWorker.CacheStorage.constructor | public/sw.js:1 | the worker starts with no caches |
| ServiceWorker.CacheStorage.Open | public/sw.js:10 | the in-place open computes `Opened` |
| ServiceWorker.CacheStorage.TrimCache | public/sw.js:9-16 | the recursive delete-the-oldest loop leaves exactly the state `Trimmed` describes |
| ServiceWorker.CacheStorage.Put | public/sw.js:43-44 | opens the cache and puts the response under the request URL when the put is accepted: a GET with a response other than 206 |
| ServiceWorker.CacheStorage.OnFetch | public/sw.js:34-66 | the listener's answer and the new storage are exactly those of `FetchStep` |
| ServiceWorker.CacheStorage.Install | public/sw.js:18-24 | the in-place install computes `InstallStep` |
| ServiceWorker.CacheStorage.Activate | public/sw.js:26-32 | after the delete loop no cache but the current one remains, and it remains, unchanged, exactly when it was there before |
| ServiceWorker.FetchStep | public/sw.js:34-66 | every fetch leaves the cache storage well formed |
| ServiceWorker.RefreshStoresCurrent | public/sw.js:44-48 | after a non-partial network answer to a GET the current cache holds it under the request's URL as its newest entry, within the 100-entry bound |
| FixFleet.RunPass | fix-fleet.cjs:18-62 | one pass rewrites each entry's type by that pass's rule and changes nothing else |
| FixFleet.ReclassifyAll | fix-fleet.cjs:15-62 | after the eight passes, every entry is its reclassification |
| FixFleet.PassesKeepOtherFields | fix-fleet.cjs:18-62 | the passes change nothing but the type |
| FixFleet.ReclassifyRules | fix-fleet.cjs:17-62 | type by type: a `767` ends as `757-300`; a 318-seat `787-8` becomes `787-10`; a 231-seat `777` ends as `767-400ER` and any other `777` as `767-300ER`; a `737-900` stays only for the twelve plain aircraft; a 276- or 362-seat `777-200` becomes `777-200ER`; `737 MAX` becomes `737 MAX 8`; `757` becomes `757-200`; other types are kept |
| FixFleet.ReclassifyChain | fix-fleet.cjs:17-62 | the final type is the eight rules applied in order to the type alone |
| FixFleet.NoLegacyTypes | fix-fleet.cjs:17-62 | no `767`, `777`, `737 MAX` or `757` survives the passes |
| FixFleet.A321neoSlots | fix-fleet.cjs:73-84 | the A321neo list holds 51 registrations |
| FixFleet.Max9Slots | fix-fleet.cjs:96-101 | the 737 MAX 9 list holds 113 registrations |
| FixFleet.B789Slots | fix-fleet.cjs:113-118 | the 787-9 list holds 47 registrations |
| FixFleet.BuildA321neoSlots | fix-fleet.cjs:73-84 | the A321neo loop and its override give the A321neo list |
| FixFleet.BuildMax9Slots | fix-fleet.cjs:96-101 | the 737 MAX 9 loop and its override give the 737 MAX 9 list |
| FixFleet.BuildB789Slots | fix-fleet.cjs:113-118 | the 787-9 loop and its override give the 787-9 list |
| FixFleet.Added | fix-fleet.cjs:86-135 | 211 entries are appended in all |
| FixFleet.PushA321neo | fix-fleet.cjs:86-92 | one A321neo entry is appended per slot, in slot order |
| FixFleet.PushMax9 | fix-fleet.cjs:103-109 | one 737 MAX 9 entry is appended per slot, in slot order |
| FixFleet.PushB789 | fix-fleet.cjs:120-135 | one 787-9 entry is appended per slot, its configuration chosen by its index |
| FixFleet.FixFleetDb | fix-fleet.cjs:15-135 | the fleet is reclassified in place and then the generated entries are appended |
| FixFleet.AddedLayout | fix-fleet.cjs:86-135 | 51 A321neos of 200 seats, then 113 737 MAX 9s of 179 seats, then 47 787-9s, of which the first 38 have 257 seats and the other nine 222 |
| FixFleet.A321neoSlotsAt | fix-fleet.cjs:74-84 | each A321neo slot is its iteration's, except the override at index 1 |
| FixFleet.Max9SlotsAt | fix-fleet.cjs:97-101 | each 737 MAX 9 slot is its iteration's, except the override at index 21 |
| FixFleet.B789SlotsAt | fix-fleet.cjs:114-118 | each 787-9 slot is its iteration's, except the override at index 25 |
| FixFleet.Rendered14502 | fix-fleet.cjs:80 | the number 14502 renders as `14502` |
| FixFleet.Rendered44502 | fix-fleet.cjs:78 | the number 44502 renders as `44502` |
| FixFleet.Rendered5002And5032 | fix-fleet.cjs:78-80 | the aircraft numbers 5002 and 5032 render as written |
| FixFleet.A321neoDuplicate | fix-fleet.cjs:74-84 | the override at index 1 replaces `N44502` by `N14502`, which iteration 32 also yields: the registration appears twice |
| FixFleet.Max9OverrideNoOp | fix-fleet.cjs:97-101 | iteration 22 of the 737 MAX 9 loop already yields the override's value |
| FixFleet.B789OverrideNoOp | fix-fleet.cjs:114-118 | iteration 26 of the 787-9 loop already yields the override's value |
| FixFleet.OverridesUnchanged | fix-fleet.cjs:96-118 | the 737 MAX 9 and 787-9 lists are exactly what their loops produce |
| FixFleet.NatToStringInjective | fix-fleet.cjs:78-116 | different numbers render to different registrations |
| FixFleet.GeneratedRegsDistinct | fix-fleet.cjs:96-118 | within the 737 MAX 9 list and within the 787-9 list, no registration appears twice |
| FixFleet.NatToStringLength | fix-fleet.cjs:78-116 | a number of at least 100 renders with at least three digits |
| FixFleet.RenderedRegValid | fix-fleet.cjs:78-116 | `N` followed by a number of at least three digits is a valid registration |
| FixFleet.GeneratedRegsValid | fix-fleet.cjs:73-135 | every generated registration passes the fleet rebuild's registration check |
| FixFleet.A321neoConfigText | fix-fleet.cjs:88 | the A321neo configuration string renders its class counts |
| FixFleet.Max9ConfigText | fix-fleet.cjs:105 | the 737 MAX 9 configuration string renders its class counts |
| FixFleet.B789ConfigText257 | fix-fleet.cjs:124 | the 257-seat 787-9 configuration string renders its class counts |
| FixFleet.B789ConfigText222 | fix-fleet.cjs:130 | the 222-seat 787-9 configuration string renders its class counts |
| FixFleet.A321neoConfigSeats | fix-fleet.cjs:88-90 | the A321neo configuration string parses to the seats and total written beside it |
| FixFleet.Max9ConfigSeats | fix-fleet.cjs:105-107 | the 737 MAX 9 configuration string parses to the seats and total written beside it |
| FixFleet.B789ConfigSeats257 | fix-fleet.cjs:124-126 | the 257-seat configuration string parses to the seats and total written beside it |
| FixFleet.B789ConfigSeats222 | fix-fleet.cjs:130-132 | the 222-seat configuration string parses to the seats and total written beside it |
| FixFleet.AddedAt | fix-fleet.cjs:86-135 | entry `k` of the appended list is the entry for its slot in the right list |
| FixFleet.GeneratedSeatsMatchConfig | fix-fleet.cjs:86-135 | every generated entry's seats are what parsing its configuration string gives |
| RebuildFleet.RawFields | rebuild-fleet.cjs:27-44 | a line always yields at least one field |
| RebuildFleet.TrimAll | rebuild-fleet.cjs:36-42 | every field is trimmed, and no field is added or lost |
| RebuildFleet.ParseCsvLine | rebuild-fleet.cjs:27-44 | the character loop returns the fields `CsvFields` describes |
| RebuildFleet.RawFieldsCount | rebuild-fleet.cjs:31-42 | the fields number one more than the commas outside quotes |
| RebuildFleet.RawFieldsHaveNoQuote | rebuild-fleet.cjs:33-34 | quote characters are dropped: no field holds one |
| RebuildFleet.TrimIsSlice | rebuild-fleet.cjs:36 | a trimmed field is a run of characters of the untrimmed one |
| RebuildFleet.CsvFieldsShape | rebuild-fleet.cjs:27-44 | one field more than the commas outside quotes; no field holds a quote; every field is trimmed |
| RebuildFleet.RawFieldsWithoutQuotes | rebuild-fleet.cjs:31-42 | without quote characters, the fields are the comma-separated parts |
| RebuildFleet.CsvFieldsWithoutQuotes | rebuild-fleet.cjs:27-44 | without quote characters, a line's fields are its comma-separated parts, each trimmed |
| RebuildFleet.PlainRun | rebuild-fleet.cjs:38-39 | a run of ordinary characters, commas included inside quotes, is appended to the field being read |
| RebuildFleet.QuoteStep | rebuild-fleet.cjs:33-34 | a quote toggles the quoted state and is dropped |
| RebuildFleet.CommaStep | rebuild-fleet.cjs:35-37 | a comma outside quotes ends the field being read |
| RebuildFleet.QuotedCommaRaw | rebuild-fleet.cjs:31-42 | `a,"bc",d` yields the three untrimmed fields `a`, `bc` and `d` |
| RebuildFleet.QuotedCommaKept | rebuild-fleet.cjs:27-44 | a comma between quotes stays inside its field and the quotes are dropped |
| RebuildFleet.ClassAt | rebuild-fleet.cjs:50 | a class token is found exactly when the text starts with one of the six classes |
| RebuildFleet.SeatTokens | rebuild-fleet.cjs:50 | every match names one of the six seat classes |
| RebuildFleet.LastCountsIsLast | rebuild-fleet.cjs:52-58 | a class has a count exactly when some match names it, and the count is that of its last match |
| RebuildFleet.ParseSeats | rebuild-fleet.cjs:46-61 | `parseSeats` returns `SeatsOf`; only the six classes appear; no class means a total of 0 |
| RebuildFleet.SeatTokensMatch | rebuild-fleet.cjs:50 | digits followed by a class token are one match, and scanning resumes right after it |
| RebuildFleet.ClassAtToken | rebuild-fleet.cjs:50 | a class token is read back as itself, and does not start with a digit |
| RebuildFleet.LeadingDigitsOf | rebuild-fleet.cjs:50 | a run of digits followed by a non-digit is read whole as the count |
| RebuildFleet.SeatTokensSkip | rebuild-fleet.cjs:50 | a character that is not a digit is skipped |
| RebuildFleet.SlashedClass | rebuild-fleet.cjs:50 | a rendered count, its class and a slash make one match |
| RebuildFleet.ThreeClassSeats | rebuild-fleet.cjs:46-61 | a configuration `<f>F/<e>E+/<y>Y` parses to those three counts and their sum |
| RebuildFleet.ThreeTokens | rebuild-fleet.cjs:50 | three matches give the sum of their counts, each class holding its last count |
| RebuildFleet.FourTokens | rebuild-fleet.cjs:50 | four matches give the sum of their counts, each class holding its last count |
| RebuildFleet.FourClassSeats | rebuild-fleet.cjs:46-61 | a configuration `<j>J/<pe>PE/<e>E+/<y>Y` parses to those four counts and their sum |
| RebuildFleet.AnyPassesAt | rebuild-fleet.cjs:103-104 | `findIndex(p) >= 0` exactly when some field passes `p` |
| RebuildFleet.HeaderFrom | rebuild-fleet.cjs:101-109 | the header index is -1 or a line of the tab |
| RebuildFleet.HeaderFromIsFirst | rebuild-fleet.cjs:101-109 | the search stops at the first header line among the first five, and -1 means none of them is one |
| RebuildFleet.HeaderIsFirst | rebuild-fleet.cjs:98-114 | the header is the first of the first five lines with a `Reg #` column; with none the tab is skipped |
| RebuildFleet.FindIndex | rebuild-fleet.cjs:103 | `findIndex` returns the first field passing the test, and none exactly when no field passes |
| RebuildFleet.FindHeader | rebuild-fleet.cjs:99-109 | the header loop finds the header index and that line's fields |
| RebuildFleet.LastNamed | rebuild-fleet.cjs:118-129 | a column is mapped to one of the headers read so far |
| RebuildFleet.LastNamedIsLast | rebuild-fleet.cjs:118-129 | a column is mapped to the last header naming it, and unmapped when none does |
| RebuildFleet.ColumnMapUpToLast | rebuild-fleet.cjs:118-129 | after any number of headers, each column holds its last naming header |
| RebuildFleet.ColumnMapIsLast | rebuild-fleet.cjs:117-129 | a column is mapped exactly when some header names it, and to the last such header |
| RebuildFleet.MapColumns | rebuild-fleet.cjs:117-129 | the `forEach` over the headers builds the column map |
| RebuildFleet.Lookup | rebuild-fleet.cjs:167-173 | a table lookup finds a pair of the table, and fails only when no pair has the key |
| RebuildFleet.RefineTypeCases | rebuild-fleet.cjs:164-179 | the 767 and 777-200 tabs split into their two variants; the 787-8/10 tab gives `787-10` exactly for `787-10` and `78J`; an unlisted 737-900 is an ER exactly when delivered from 2008; other tabs keep their type |
| RebuildFleet.FirstYear | rebuild-fleet.cjs:181-183 | the year is `''` or four digits |
| RebuildFleet.FirstYearIsLeftmost | rebuild-fleet.cjs:182 | the year is the leftmost run of four digits, and `''` means there is none |
| RebuildFleet.BuildEntry | rebuild-fleet.cjs:155-191 | the entry has the row's registration; seats are attached only when a class was found and are the configuration's; the year is `''` or four digits |
| RebuildFleet.RemoveReg | rebuild-fleet.cjs:147-148 | a registration not in the fleet leaves it unchanged |
| RebuildFleet.RemoveRegAt | rebuild-fleet.cjs:147-148 | removal takes out exactly the first entry with that registration |
| RebuildFleet.Splice | rebuild-fleet.cjs:148 | cutting out entry `k` shifts the later entries down by one |
| RebuildFleet.SpliceRegs | rebuild-fleet.cjs:148 | cutting out an entry keeps registrations unique and drops the only entry with its registration |
| RebuildFleet.SpliceMembers | rebuild-fleet.cjs:148 | cutting out an entry keeps exactly the entries of other registrations |
| RebuildFleet.RemoveRegKeepsOthers | rebuild-fleet.cjs:145-149 | removal keeps every other entry, keeps registrations unique, and leaves none with the removed registration |
| RebuildFleet.AddEntryKeepsUnique | rebuild-fleet.cjs:144-194 | a valid row keeps registrations unique and valid and loses no other entry; a repeat from the newer MAX 9 tab replaces the old entry at the end; a repeat from any other tab changes nothing |
| RebuildFleet.AddEntryRegs | rebuild-fleet.cjs:144-194 | after a valid row the registrations are those before plus the row's |
| RebuildFleet.RefinedTypeListed | rebuild-fleet.cjs:164-179 | every row of every tab gets one of the types of the sort order |
| RebuildFleet.RowStepKeepsRegs | rebuild-fleet.cjs:135-196 | a row keeps registrations valid and unique, loses none, and adds only its own |
| RebuildFleet.RemoveRegFrom | rebuild-fleet.cjs:148 | removal keeps only entries that were there |
| RebuildFleet.AddEntryFrom | rebuild-fleet.cjs:145-193 | a row adds no entry but its own |
| RebuildFleet.RowStepTypes | rebuild-fleet.cjs:135-196 | a row's entry gets a type its tab refines into |
| RebuildFleet.RowsTypes | rebuild-fleet.cjs:135-196 | the row loop keeps every type listed |
| RebuildFleet.SheetStepTypes | rebuild-fleet.cjs:89-199 | one tab keeps every type listed |
| RebuildFleet.SheetsTypes | rebuild-fleet.cjs:89-199 | the tab loop keeps every type listed |
| RebuildFleet.UnsortedFleetTypes | rebuild-fleet.cjs:89-199 | whatever the files hold, every entry read has one of the types of the sort order |
| RebuildFleet.FindReg | rebuild-fleet.cjs:147 | `findIndex` returns the first entry with the registration, and -1 exactly when there is none |
| RebuildFleet.AddRow | rebuild-fleet.cjs:145-194 | the splice-or-skip-or-append bookkeeping is `AddEntry`, and the set of seen registrations stays that of the fleet |
| RebuildFleet.ProcessRow | rebuild-fleet.cjs:136-195 | the loop body is `RowStep`; registrations stay valid and unique and the seen set stays that of the fleet |
| RebuildFleet.ProcessRows | rebuild-fleet.cjs:135-196 | the row loop is `Rows`, with the same invariants |
| RebuildFleet.ProcessTab | rebuild-fleet.cjs:111-196 | a tab with a known header is `TabRows`, with the same invariants |
| RebuildFleet.ProcessLines | rebuild-fleet.cjs:98-196 | a tab's lines go through the header search and the row loop, with the same invariants |
| RebuildFleet.ProcessSheet | rebuild-fleet.cjs:90-196 | a missing file is skipped and any other tab goes through its lines, with the same invariants |
| RebuildFleet.SheetsCons | rebuild-fleet.cjs:89 | the tabs from `k` are tab `k` followed by the tabs after it |
| RebuildFleet.ReadSheets | rebuild-fleet.cjs:86-199 | the tab loop builds the unsorted fleet, whose registrations are valid and unique |
| RebuildFleet.IndexOf | rebuild-fleet.cjs:212-213 | `indexOf` is -1 exactly for an unlisted type, and otherwise a position holding the type |
| RebuildFleet.LexLeqTotal | rebuild-fleet.cjs:215 | any two registrations are ordered one way or the other |
| RebuildFleet.LexLeqAntisymmetric | rebuild-fleet.cjs:215 | two registrations each not after the other are equal |
| RebuildFleet.LexLeqTransitive | rebuild-fleet.cjs:215 | the registration order is transitive |
| RebuildFleet.LocaleCompareConsistent | rebuild-fleet.cjs:215 | `a.r.localeCompare(b.r)` as modelled is 0 exactly for equal registrations, and swapping the arguments flips its sign |
| RebuildFleet.CompareAntisymmetric | rebuild-fleet.cjs:211-216 | swapping the entries flips the comparator's sign, and it is 0 exactly for the same type position and registration |
| RebuildFleet.CompareTransitive | rebuild-fleet.cjs:211-216 | the comparator is transitive |
| RebuildFleet.Insert | rebuild-fleet.cjs:211-216 | insertion adds one entry, in front only if it comes first |
| RebuildFleet.SortFleet | rebuild-fleet.cjs:211-216 | sorting keeps the length |
| RebuildFleet.InsertPermutes | rebuild-fleet.cjs:211-216 | insertion adds exactly the inserted entry to the multiset |
| RebuildFleet.SortedTail | rebuild-fleet.cjs:211-216 | the tail of a sorted fleet is sorted |
| RebuildFleet.SortedCons | rebuild-fleet.cjs:211-216 | an entry not after the head of a sorted fleet can be put in front |
| RebuildFleet.InsertSorted | rebuild-fleet.cjs:211-216 | insertion into a sorted fleet keeps it sorted |
| RebuildFleet.SortFleetSorted | rebuild-fleet.cjs:211-216 | the sort yields a sorted permutation of its input |
| RebuildFleet.SortedPairwise | rebuild-fleet.cjs:211-216 | sorted by neighbours means sorted by every pair |
| RebuildFleet.HasRegCons | rebuild-fleet.cjs:211-216 | a registration is in `[x] + s` exactly when it is `x`'s or in `s` |
| RebuildFleet.UniqueRegsCons | rebuild-fleet.cjs:211-216 | `[x] + s` has unique registrations exactly when `s` does and lacks `x`'s |
| RebuildFleet.InsertRegs | rebuild-fleet.cjs:211-216 | insertion adds exactly the inserted registration and keeps them unique |
| RebuildFleet.SortFleetRegs | rebuild-fleet.cjs:211-216 | sorting keeps the registrations, and keeps them unique |
| RebuildFleet.SortFleetWellFormed | rebuild-fleet.cjs:211-216 | sorting a well-formed fleet gives a well-formed fleet |
| RebuildFleet.SortedHeads | rebuild-fleet.cjs:211-216 | two sorted permutations of a fleet with unique registrations start alike |
| RebuildFleet.MultisetTails | rebuild-fleet.cjs:211-216 | removing equal heads from equal multisets leaves equal multisets |
| RebuildFleet.SortedPermutationUnique | rebuild-fleet.cjs:211-216 | with unique registrations the sorted permutation is unique, so any sort with this comparator agrees with `SortFleet` |
| RebuildFleet.BuildFleet | rebuild-fleet.cjs:86-216 | the script's fleet is the sorted unsorted fleet: well formed, sorted, and a permutation of what the tabs gave |

## Left out

- Outbound requests (`fetch`, `AbortController`, timeouts, request headers) are abstract inputs: each upstream call is a value saying what it produced (a status and payload, or an exception). Response headers and status plumbing are reduced to a status, a `Cache-Control` value and a body.
- Sleeps (the 1 s and 1.5 s retry back-offs, the 800 ms page pause and the 1.5 s hub pause of `api/irrops.js`, the spacing wait of `api/schedule.js`) only separate requests in time; the model computes the spacing wait but does not sleep.
- Clocks (`Date.now()`, `new Date()`) are parameters; `toISOString` is a parameter function; the `Intl.DateTimeFormat` lookup of a hub's local time is a parameter, and only the arithmetic on it is modelled.
- Floating point: delays are whole seconds and `Math.round` of seconds over 60 is the nearest minute, halves up; the IRROPS score is a real number, and its `toFixed(1)`/`parseFloat` rounding is not modelled.
- Concurrency: a request of `api/irrops.js` is split at its `await` into `Begin` and `Finish`, and `pendingAggs` of `api/schedule.js` is the set of keys whose aggregation is running, a request finding its key there joining that aggregation; the interleavings of real promises are not modelled.
- ServiceWorker.PutAccepted: `cache.put` (and `addAll`) also reject a request whose URL is not http(s) and a response carrying `Vary: *`; URLs here have no scheme and responses no headers, so only the non-GET and 206 rejections are modelled.
- The Cache API of `public/sw.js` is an in-memory map of insertion-ordered maps updated synchronously; `skipWaiting`, `clients.claim` and the asynchronous ordering of cache writes are left out.
- File reading and the rewriting of `index.html` in `rebuild-fleet.cjs` and `fix-fleet.cjs` are left out: the CSV texts come in as a map from tab to contents and the fleet goes out as a value; the summary counts they print are left out, as is all console logging.
- IrropsService.BuildPrefix: each hub's scan uses one clock reading, `clock(i)`, both for its start of day and for the `fetchedAt` time and one-hour age check; the source reads `Date.now()` again after the awaited fetch, so the model does not capture the time that passes during a hub's fetch.
- Schedule.Validate: a repeated `timestamp`, `page`, `hub` or `dir` query parameter reaches the source as an array (whose `parseInt` reads the comma-joined text, and whose other checks see the array); the model's `Query` carries a single string per parameter.
- RebuildFleet.Lookup: the model tables hold only their listed pairs; the source's object lookups `MODEL_767[model]`, `MODEL_777[model]` and `MODEL_739[model]` also find inherited keys such as `constructor`, which would yield a non-string type for a row whose model column reads so.
- RebuildFleet.SortFleet: `fleet.sort` sorts in place with an engine-defined algorithm; the model sorts a sequence by insertion, and `SortedPermutationUnique` shows that every sort with this comparator gives the same fleet.
- RebuildFleet.LocaleCompare: `localeCompare` is modelled as code-unit lexicographic order, not locale collation; `LocaleCompareConsistent` and the `LexLeq` lemmas state its properties.
- RebuildFleet.DeliveredFrom2008: the delivery-year test behind the 737-900 split in `RefineTypeCases`; `parseInt` reads the leading decimal digits as an unbounded integer, and precision loss on very long digit runs is not modelled.
- Common.ToUpper and Common.ToLower map ASCII letters only; other Unicode case mappings are not modelled.
- `tests/faa.test.js` targets a `toArray` function that `api/faa.js` does not define; it is not part of this model.
- Fr24Flight.NormalizeFlightNumber: a repeated `flight` query parameter (an array) makes the source throw outside its `try`; the model takes a single string.
- `api/fleet.js`, `api/metar.js`, `api/fr24-feed.js`, `api/opensky.js` and `src/data/hubs.js` are pass-through proxies or static content and are not part of this model.
