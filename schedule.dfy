/** `api/schedule.js`: one airport's FR24 schedule, either a single upstream page or
    every page of the day aggregated to United flights, behind an in-memory cache of
    at most 200 entries, a two-second spacing between upstream requests, and
    single-flight deduplication of concurrent aggregations. */
module Schedule {
  import opened Common
  import opened OrderedMaps

  const MaxCacheSize := 200
  const MinRequestIntervalMs := 2000
  const MaxAggPages := 20
  const MaxPageParam := 100
  const DaySeconds := 86400
  /** `86400 * 7`: how far the requested timestamp may lie from now. */
  const WeekSeconds := 604800
  const OldTtlMs := 600000
  const LiveTtlMs := 300000
  const OldCdnMaxAge := 3600
  const LiveCdnMaxAge := 900
  const StaleWhileRevalidate := 300

  // ---------------------------------------------------------------------------
  // Upstream data

  /** The fields of an FR24 flight the endpoint reads (`airline.code.iata`,
      `time.scheduled.departure`, `time.scheduled.arrival`); `""` and `0` stand for a
      missing value. The rest of the object is passed through untouched. */
  datatype SchedFlight = SchedFlight(airline: string, schedDep: int, schedArr: int)

  /** `schedule[dir]`: its entries (`None` for an entry without `flight`; a missing
      `data` is empty) and `page.total` (`0` when missing). */
  datatype SchedPage = SchedPage(data: seq<Option<SchedFlight>>, total: int)

  /** `sched.page?.total || 1`. */
  function TotalPages(sched: SchedPage): int {
    if sched.total == 0 then 1 else sched.total
  }

  /** What one `fetch` of the upstream produces: a response with its status and the
      `schedule[dir]` object (`None` when the body is not JSON or lacks it), an
      abort by the 8-second timer, or another network failure. */
  datatype Reply = Served(status: int, body: Option<SchedPage>) | TimedOut | Unreachable

  /** The upstream, by hub, direction, timestamp and page. */
  type Upstream = (string, string, int, int) -> Reply

  /** `fetchOnePage`'s outcome: the schedule object, or the exception it throws, which
      is an `AbortError` exactly when `timeout` holds. */
  datatype Fetched = Page(sched: SchedPage) | Failed(timeout: bool)

  /** `fetchOnePage` after its request: a non-2xx status and a missing schedule both
      throw a plain `Error`; an abort propagates as `AbortError`. */
  function Interpret(reply: Reply): (r: Fetched)
    ensures r.Page? <==> reply.Served? && 200 <= reply.status < 300 && reply.body.Some?
    ensures r.Page? ==> r.sched == reply.body.value
    ensures r.Failed? ==> (r.timeout <==> reply.TimedOut?)
  {
    match reply
    case TimedOut => Failed(true)
    case Unreachable => Failed(false)
    case Served(status, body) =>
      if !(200 <= status < 300) then Failed(false)
      else if body.None? then Failed(false)
      else Page(body.value)
  }

  // ---------------------------------------------------------------------------
  // Request spacing

  /** `Math.max(0, MIN_REQUEST_INTERVAL - (now - lastFR24Request))`. */
  function SpacingWait(now: int, last: int): (w: int)
    ensures w >= 0
    ensures w == 0 <==> now - last >= MinRequestIntervalMs
    ensures w > 0 ==> now + w == last + MinRequestIntervalMs
  {
    if MinRequestIntervalMs - (now - last) > 0 then MinRequestIntervalMs - (now - last) else 0
  }

  /** A request that waited out `SpacingWait` starts at least two seconds after the
      previous one, even when the clock reads earlier than that request's time. */
  lemma RequestsSpaced(now: int, last: int, after: int)
    requires after >= now + SpacingWait(now, last)
    ensures after >= last + MinRequestIntervalMs
  {
  }

  /** The clock just before the spacing wait of one request and just after it. */
  datatype Wake = Wake(now: int, after: int)

  // ---------------------------------------------------------------------------
  // The cache

  datatype Aggregate = Aggregate(flights: seq<SchedFlight>, total: nat, totalFetched: nat,
                                 pagesScanned: int, totalPages: int, hub: string, dir: string)

  /** A cached single page, or a cached aggregation result. */
  datatype CacheData = PageData(sched: SchedPage) | AggData(agg: Aggregate)

  datatype CacheEntry = CacheEntry(data: CacheData, expires: int, time: int)

  type Cache = OrderedMap<string, CacheEntry>

  datatype Lookup = Lookup(entry: Option<CacheEntry>, cache: Cache)

  /** `cacheGet(key)` at time `now`: an entry is returned up to and including the
      millisecond it expires; an expired one is deleted. A hit changes nothing, so
      the cache evicts in insertion order, not by recent use. */
  function CacheLookup(c: Cache, key: string, now: int): (r: Lookup)
    requires c.Valid()
    ensures r.cache.Valid() && r.cache.Size() <= c.Size()
    ensures r.entry.Some? <==> key in c.entries && now <= c.entries[key].expires
    ensures r.entry.Some? ==> r.entry.value == c.entries[key] && r.cache == c
    ensures r.entry.None? ==> r.cache.entries == c.entries - {key}
  {
    if key !in c.entries then Lookup(None, c)
    else if now > c.entries[key].expires then Lookup(None, Delete(c, key))
    else Lookup(Some(c.entries[key]), c)
  }

  /** `cacheSet(key, data, ttl)` at time `now`: when the cache holds 200 entries or
      more, the earliest-inserted key goes first; then the entry is stored until
      `now + ttl`. */
  function CacheStore(c: Cache, key: string, data: CacheData, ttl: int, now: int): (r: Cache)
    requires c.Valid()
    ensures r.Valid()
    ensures key in r.entries && r.entries[key] == CacheEntry(data, now + ttl, now)
    ensures c.Size() <= MaxCacheSize ==> r.Size() <= MaxCacheSize
    ensures c.Size() < MaxCacheSize ==>
              forall k :: k in c.entries && k != key ==> k in r.entries && r.entries[k] == c.entries[k]
    ensures c.Size() >= MaxCacheSize ==>
              c.order[0] != key ==> c.order[0] !in r.entries
    ensures forall k :: k in r.entries && k != key ==> k in c.entries && r.entries[k] == c.entries[k]
  {
    var room := if c.Size() >= MaxCacheSize then DeleteOldest(c) else c;
    Set(room, key, CacheEntry(data, now + ttl, now))
  }

  /** What was stored is found again exactly until it expires. */
  lemma StoreThenLookup(c: Cache, key: string, data: CacheData, ttl: int, now: int, later: int)
    requires c.Valid()
    ensures var l := CacheLookup(CacheStore(c, key, data, ttl, now), key, later);
            l.entry == if later <= now + ttl then Some(CacheEntry(data, now + ttl, now)) else None
  {
  }

  /** On a full cache, storing a new key evicts exactly the earliest-inserted one and
      keeps the size at 200. */
  lemma StoreEvictsOldest(c: Cache, key: string, data: CacheData, ttl: int, now: int)
    requires c.Valid() && c.Size() == MaxCacheSize && key !in c.entries
    ensures var r := CacheStore(c, key, data, ttl, now);
            r.Size() == MaxCacheSize && r.order == c.order[1..] + [key]
            && r.entries == (c.entries - {c.order[0]})[key := CacheEntry(data, now + ttl, now)]
  {
  }

  // ---------------------------------------------------------------------------
  // One page of the aggregation

  /** The scheduled time the day boundary is checked against. */
  function FlightTime(fl: SchedFlight, dir: string): int {
    if dir == "departures" then fl.schedDep else fl.schedArr
  }

  datatype PageScan = PageScan(kept: seq<SchedFlight>, pastDay: bool)

  /** The entry loop over one page: United flights are kept in order until the first
      one scheduled (in the direction's time) at or after `dayEnd`, which ends the
      scan; entries without a flight and other airlines are skipped. */
  function ScanEntries(entries: seq<Option<SchedFlight>>, dir: string, dayEnd: int): (r: PageScan)
    ensures |r.kept| <= |entries|
    ensures forall i :: 0 <= i < |r.kept| ==>
              r.kept[i].airline == "UA" && (FlightTime(r.kept[i], dir) == 0 || FlightTime(r.kept[i], dir) < dayEnd)
  {
    if entries == [] then PageScan([], false)
    else
      var rest := ScanEntries(entries[1..], dir, dayEnd);
      match entries[0]
      case None => rest
      case Some(fl) =>
        if fl.airline != "UA" then rest
        else if FlightTime(fl, dir) != 0 && FlightTime(fl, dir) >= dayEnd then PageScan([], true)
        else PageScan([fl] + rest.kept, rest.pastDay)
  }

  /** The United flights of a page, in upstream order. */
  function UnitedFlights(entries: seq<Option<SchedFlight>>): (r: seq<SchedFlight>)
    ensures forall i :: 0 <= i < |r| ==> r[i].airline == "UA"
  {
    if entries == [] then []
    else
      var rest := UnitedFlights(entries[1..]);
      match entries[0]
      case None => rest
      case Some(fl) => if fl.airline == "UA" then [fl] + rest else rest
  }

  /** A page contributes a prefix of its United flights: all of them when none lies
      past the day, otherwise those before the first one that does. */
  lemma {:induction false} ScanEntriesIsPrefix(entries: seq<Option<SchedFlight>>, dir: string, dayEnd: int)
    ensures var r := ScanEntries(entries, dir, dayEnd);
            var all := UnitedFlights(entries);
            && |r.kept| <= |all| && r.kept == all[..|r.kept|]
            && (!r.pastDay ==> r.kept == all)
            && (r.pastDay ==> |r.kept| < |all| && FlightTime(all[|r.kept|], dir) != 0
                              && FlightTime(all[|r.kept|], dir) >= dayEnd)
  {
    if entries != [] {
      ScanEntriesIsPrefix(entries[1..], dir, dayEnd);
    }
  }

  // ---------------------------------------------------------------------------
  // The aggregation loop

  /** Where the page loop ended: the flights kept, `totalFetched`, the final `pageNum`
      and `totalPages`, how many pages were fetched, and `lastFR24Request`. */
  datatype Run = Run(flights: seq<SchedFlight>, totalFetched: nat, pageNum: int, totalPages: int,
                     pagesFetched: nat, lastRequest: int)

  /** A completed loop, or one left by the exception of a page fetch. */
  datatype RunOutcome = Completed(run: Run) | Stopped(timeout: bool, lastRequest: int)

  /** The pages before the current one, in front of the rest of the loop. */
  function Prepend(kept: seq<SchedFlight>, fetched: nat, pages: nat, r: RunOutcome): RunOutcome {
    match r
    case Stopped(_, _) => r
    case Completed(rest) =>
      Completed(rest.(flights := kept + rest.flights, totalFetched := fetched + rest.totalFetched,
                      pagesFetched := pages + rest.pagesFetched))
  }

  /** Two runs of pages in front of the rest are one run. */
  lemma PrependTwice(a: seq<SchedFlight>, fa: nat, pa: nat, b: seq<SchedFlight>, fb: nat, pb: nat, r: RunOutcome)
    ensures Prepend(a, fa, pa, Prepend(b, fb, pb, r)) == Prepend(a + b, fa + fb, pa + pb, r)
  {
    if r.Completed? {
      assert a + (b + r.run.flights) == (a + b) + r.run.flights;
    }
  }

  /** The page loop from page `page` on, `totalPages` being what the previous page
      reported and `last` the time of the previous upstream request; the request for
      page `k` waits between the readings of `clock(k)`. */
  function AggFrom(net: Upstream, clock: int -> Wake, hub: string, dir: string, ts: int,
                   page: int, totalPages: int, last: int): (r: RunOutcome)
    ensures r.Completed? ==> r.run.pagesFetched <= if page <= MaxAggPages then MaxAggPages + 1 - page else 0
    decreases MaxAggPages + 1 - page
  {
    if !(page <= totalPages && page <= MaxAggPages) then Completed(Run([], 0, page, totalPages, 0, last))
    else
      var now := clock(page).after;
      match Interpret(net(hub, dir, ts, page))
      case Failed(timeout) => Stopped(timeout, now)
      case Page(sched) =>
        var tp := TotalPages(sched);
        if sched.data == [] then Completed(Run([], 0, page, tp, 1, now))
        else
          var scan := ScanEntries(sched.data, dir, ts + DaySeconds);
          if scan.pastDay then Completed(Run(scan.kept, |sched.data|, page, tp, 1, now))
          else Prepend(scan.kept, |sched.data|, 1, AggFrom(net, clock, hub, dir, ts, page + 1, tp, now))
  }

  /** One page of the loop, read off: its failure stops the loop, an empty page or
      one running past the day ends it, any other page goes in front of the rest. */
  lemma AggFromPage(net: Upstream, clock: int -> Wake, hub: string, dir: string, ts: int,
                    page: int, totalPages: int, last: int)
    requires page <= totalPages && page <= MaxAggPages
    ensures var f := Interpret(net(hub, dir, ts, page));
            var now := clock(page).after;
            var r := AggFrom(net, clock, hub, dir, ts, page, totalPages, last);
            && (f.Failed? ==> r == Stopped(f.timeout, now))
            && (f.Page? && f.sched.data == [] ==> r == Completed(Run([], 0, page, TotalPages(f.sched), 1, now)))
            && (f.Page? && f.sched.data != [] ==>
                  var scan := ScanEntries(f.sched.data, dir, ts + DaySeconds);
                  && (scan.pastDay ==> r == Completed(Run(scan.kept, |f.sched.data|, page, TotalPages(f.sched), 1, now)))
                  && (!scan.pastDay ==>
                        r == Prepend(scan.kept, |f.sched.data|, 1,
                                     AggFrom(net, clock, hub, dir, ts, page + 1, TotalPages(f.sched), now))))
  {
  }

  /** The whole loop, which starts at page 1 of 1. */
  function Aggregation(net: Upstream, clock: int -> Wake, hub: string, dir: string, ts: int, last: int): RunOutcome {
    AggFrom(net, clock, hub, dir, ts, 1, 1, last)
  }

  function Min3(a: int, b: int, c: int): int {
    var m := if a < b then a else b;
    if m < c then m else c
  }

  /** The `result` object built from a completed loop. */
  function Summarise(run: Run, hub: string, dir: string): Aggregate {
    Aggregate(run.flights, |run.flights|, run.totalFetched, Min3(run.pageNum, run.totalPages, MaxAggPages),
              run.totalPages, hub, dir)
  }

  function LastRequest(r: RunOutcome): int {
    match r
    case Completed(run) => run.lastRequest
    case Stopped(_, last) => last
  }

  /** The loop's counters: started at page `page`, it ends either on the last page it
      fetched (a `break`) or one past it, and then only because that page is beyond
      the reported total or the cap; the flights kept never outnumber the entries
      fetched; and the last request is the last page's. */
  lemma {:induction false} AggFromCounters(net: Upstream, clock: int -> Wake, hub: string, dir: string, ts: int,
                                           page: int, totalPages: int, last: int)
    ensures var r := AggFrom(net, clock, hub, dir, ts, page, totalPages, last);
            r.Completed? ==>
              && page + r.run.pagesFetched - 1 <= r.run.pageNum <= page + r.run.pagesFetched
              && (r.run.pageNum == page + r.run.pagesFetched ==>
                    !(r.run.pageNum <= r.run.totalPages && r.run.pageNum <= MaxAggPages))
              && |r.run.flights| <= r.run.totalFetched
              && (r.run.pagesFetched > 0 ==> r.run.lastRequest == clock(page + r.run.pagesFetched - 1).after)
              && (r.run.pagesFetched == 0 ==> r.run.lastRequest == last && r.run.pageNum == page)
    decreases MaxAggPages + 1 - page
  {
    if page <= totalPages && page <= MaxAggPages {
      var now := clock(page).after;
      var fetched := Interpret(net(hub, dir, ts, page));
      if fetched.Page? && fetched.sched.data != [] {
        var sched := fetched.sched;
        var scan := ScanEntries(sched.data, dir, ts + DaySeconds);
        if !scan.pastDay {
          AggFromCounters(net, clock, hub, dir, ts, page + 1, TotalPages(sched), now);
        }
      }
    }
  }

  /** Every flight of a completed loop is a United flight scheduled before the end of
      the requested day (or without a time in the requested direction). */
  lemma {:induction false} AggFromKeepsUnitedToday(net: Upstream, clock: int -> Wake, hub: string, dir: string, ts: int,
                                                   page: int, totalPages: int, last: int)
    ensures var r := AggFrom(net, clock, hub, dir, ts, page, totalPages, last);
            r.Completed? ==>
              forall i :: 0 <= i < |r.run.flights| ==>
                r.run.flights[i].airline == "UA"
                && (FlightTime(r.run.flights[i], dir) == 0 || FlightTime(r.run.flights[i], dir) < ts + DaySeconds)
    decreases MaxAggPages + 1 - page
  {
    if page <= totalPages && page <= MaxAggPages {
      var now := clock(page).after;
      var fetched := Interpret(net(hub, dir, ts, page));
      if fetched.Page? && fetched.sched.data != [] {
        var sched := fetched.sched;
        var scan := ScanEntries(sched.data, dir, ts + DaySeconds);
        if !scan.pastDay {
          var rest := AggFrom(net, clock, hub, dir, ts, page + 1, TotalPages(sched), now);
          AggFromKeepsUnitedToday(net, clock, hub, dir, ts, page + 1, TotalPages(sched), now);
          if rest.Completed? {
            assert forall i :: 0 <= i < |rest.run.flights| ==>
              rest.run.flights[i].airline == "UA"
              && (FlightTime(rest.run.flights[i], dir) == 0 || FlightTime(rest.run.flights[i], dir) < ts + DaySeconds);
            var all := scan.kept + rest.run.flights;
            forall i | 0 <= i < |all|
              ensures all[i].airline == "UA" && (FlightTime(all[i], dir) == 0 || FlightTime(all[i], dir) < ts + DaySeconds)
            {
              if i >= |scan.kept| {
                assert all[i] == rest.run.flights[i - |scan.kept|];
              } else {
                assert all[i] == scan.kept[i];
              }
            }
          }
        }
      }
    }
  }

  /** The promise's `result`: between 1 and 20 pages are fetched, `total` counts the
      flights, which are all United flights of the requested day and no more than the
      entries fetched, and `pagesScanned` never exceeds the pages actually fetched. */
  lemma AggregationBounds(net: Upstream, clock: int -> Wake, hub: string, dir: string, ts: int, last: int)
    ensures var r := Aggregation(net, clock, hub, dir, ts, last);
            r.Completed? ==>
              var a := Summarise(r.run, hub, dir);
              && 1 <= r.run.pagesFetched <= MaxAggPages
              && a.pagesScanned <= r.run.pagesFetched
              && a.total == |a.flights| <= a.totalFetched
              && r.run.lastRequest == clock(r.run.pagesFetched).after
              && forall i :: 0 <= i < |a.flights| ==>
                   a.flights[i].airline == "UA"
                   && (FlightTime(a.flights[i], dir) == 0 || FlightTime(a.flights[i], dir) < ts + DaySeconds)
  {
    AggFromCounters(net, clock, hub, dir, ts, 1, 1, last);
    AggFromKeepsUnitedToday(net, clock, hub, dir, ts, 1, 1, last);
  }

  /** A page fetch that throws ends the loop with that exception; an empty page or
      one holding a next-day United flight ends it with that page; otherwise the
      next page is fetched exactly when it is within the newly reported total and the
      cap of 20. */
  lemma AggStopsOrContinues(net: Upstream, clock: int -> Wake, hub: string, dir: string, ts: int,
                            page: int, totalPages: int, last: int)
    requires page <= totalPages && page <= MaxAggPages
    ensures var fetched := Interpret(net(hub, dir, ts, page));
            var r := AggFrom(net, clock, hub, dir, ts, page, totalPages, last);
            && (fetched.Failed? ==> r == Stopped(fetched.timeout, clock(page).after))
            && (fetched.Page? && (fetched.sched.data == []
                                  || ScanEntries(fetched.sched.data, dir, ts + DaySeconds).pastDay) ==>
                  r.Completed? && r.run.pagesFetched == 1 && r.run.pageNum == page
                  && r.run.totalPages == TotalPages(fetched.sched))
            && (fetched.Page? && fetched.sched.data != []
                && !ScanEntries(fetched.sched.data, dir, ts + DaySeconds).pastDay && r.Completed? ==>
                  (r.run.pagesFetched > 1 <==> page + 1 <= TotalPages(fetched.sched) && page + 1 <= MaxAggPages))
  {
  }

  // ---------------------------------------------------------------------------
  // Query validation

  /** `req.query`'s `hub`, `dir`, `timestamp` and `page`, each absent or a string. */
  datatype Query = Query(hub: Option<string>, dir: Option<string>, timestamp: Option<string>, page: Option<string>)

  /** What the handler works with once the query is accepted; `page` is present in
      single-page mode. */
  datatype Params = Params(hub: string, dir: string, ts: int, page: Option<int>, ttl: int, cdnMaxAge: nat)

  datatype Validation = Rejected(message: string) | Accepted(params: Params)

  /** `/^[A-Z]{3,4}$/i`: three or four ASCII letters of either case. */
  predicate IsHubCode(s: string) {
    3 <= |s| <= 4 && forall i :: 0 <= i < |s| ==> IsAsciiLetter(s[i])
  }

  /** `parseInt(page, 10) || 1`: `NaN` and `0` both become page 1. */
  function PageNumber(page: string): int {
    match ParseInt10(page)
    case None => 1
    case Some(n) => if n == 0 then 1 else n
  }

  /** Minute-level cache lifetimes: a timestamp more than a day old is cached longer. */
  function IsOld(nowSec: int, ts: int): bool {
    nowSec - ts > DaySeconds
  }

  /** The checks of the handler's `try` block before any upstream call, in order, at
      `nowSec = Math.floor(Date.now() / 1000)`. */
  function Validate(q: Query, nowSec: int): (r: Validation)
    ensures r.Accepted? ==>
              && q.hub == Some(r.params.hub) && IsHubCode(r.params.hub)
              && (r.params.dir == "departures" || r.params.dir == "arrivals")
              && (q.dir.None? ==> r.params.dir == "departures")
              && (q.dir.Some? ==> q.dir.value == r.params.dir)
              && q.timestamp.Some? && ParseInt10(q.timestamp.value) == Some(r.params.ts)
              && nowSec - WeekSeconds <= r.params.ts <= nowSec + WeekSeconds
              && (r.params.page.Some? <==> q.page.Some?)
              && (q.page.Some? ==> r.params.page.value == PageNumber(q.page.value))
              && (r.params.page.Some? ==> 1 <= r.params.page.value <= MaxPageParam)
              && (IsOld(nowSec, r.params.ts) ==> r.params.ttl == OldTtlMs && r.params.cdnMaxAge == OldCdnMaxAge)
              && (!IsOld(nowSec, r.params.ts) ==> r.params.ttl == LiveTtlMs && r.params.cdnMaxAge == LiveCdnMaxAge)
  {
    if q.hub.None? || q.hub.value == "" || q.timestamp.None? || q.timestamp.value == "" then
      Rejected("Missing required params: hub, timestamp")
    else
      var hub := q.hub.value;
      var dir := if q.dir.None? then "departures" else q.dir.value;
      if dir != "departures" && dir != "arrivals" then Rejected("dir must be departures or arrivals")
      else if !IsHubCode(hub) then Rejected("Invalid hub code")
      else
        var parsed := ParseInt10(q.timestamp.value);
        if parsed.None? || parsed.value < nowSec - WeekSeconds || parsed.value > nowSec + WeekSeconds then
          Rejected("Invalid timestamp")
        else
          var ts := parsed.value;
          var ttl := if IsOld(nowSec, ts) then OldTtlMs else LiveTtlMs;
          var cdnMaxAge := if IsOld(nowSec, ts) then OldCdnMaxAge else LiveCdnMaxAge;
          if q.page.None? then Accepted(Params(hub, dir, ts, None, ttl, cdnMaxAge))
          else
            var pageNum := PageNumber(q.page.value);
            if pageNum < 1 || pageNum > MaxPageParam then Rejected("Invalid page number")
            else Accepted(Params(hub, dir, ts, Some(pageNum), ttl, cdnMaxAge))
  }

  /** A query the handler accepts, stated as one conjunction of conditions. */
  predicate WellFormedQuery(q: Query, nowSec: int) {
    && q.hub.Some? && IsHubCode(q.hub.value)
    && (q.dir.None? || q.dir.value == "departures" || q.dir.value == "arrivals")
    && q.timestamp.Some? && ParseInt10(q.timestamp.value).Some?
    && nowSec - WeekSeconds <= ParseInt10(q.timestamp.value).value <= nowSec + WeekSeconds
    && (q.page.Some? ==> 1 <= PageNumber(q.page.value) <= MaxPageParam)
  }

  /** The sequential checks accept exactly the well-formed queries. */
  lemma ValidateAcceptsExactly(q: Query, nowSec: int)
    ensures Validate(q, nowSec).Accepted? <==> WellFormedQuery(q, nowSec)
  {
    if WellFormedQuery(q, nowSec) {
      assert q.hub.value != "";
      assert ParseInt10(q.timestamp.value).Some?;
    }
  }

  /** Which message a rejected query gets: missing parameters are reported before a
      bad direction, which is reported before a bad hub, then a bad timestamp. */
  lemma ValidateReportsFirstProblem(q: Query, nowSec: int)
    ensures (q.hub.None? || q.hub == Some("") || q.timestamp.None? || q.timestamp == Some("")) ==>
              Validate(q, nowSec) == Rejected("Missing required params: hub, timestamp")
    ensures q.hub.Some? && q.hub.value != "" && q.timestamp.Some? && q.timestamp.value != ""
            && q.dir.Some? && q.dir.value != "departures" && q.dir.value != "arrivals" ==>
              Validate(q, nowSec) == Rejected("dir must be departures or arrivals")
    ensures q.hub.Some? && q.hub.value != "" && q.timestamp.Some? && q.timestamp.value != ""
            && (q.dir.None? || q.dir.value == "departures" || q.dir.value == "arrivals")
            && !IsHubCode(q.hub.value) ==>
              Validate(q, nowSec) == Rejected("Invalid hub code")
    ensures q.hub.Some? && IsHubCode(q.hub.value) && q.timestamp.Some? && q.timestamp.value != ""
            && (q.dir.None? || q.dir.value == "departures" || q.dir.value == "arrivals")
            && ParseInt10(q.timestamp.value).None? ==>
              Validate(q, nowSec) == Rejected("Invalid timestamp")
  {
  }

  /** A lone digit parses to its value. */
  lemma ParseOneDigit(c: char)
    requires IsDigit(c)
    ensures ParseInt10([c]) == Some(DigitValue(c) as int)
  {
    assert !IsSpace(c);
    assert TrimStart([c]) == [c];
    assert SignStripped([c]) == [c];
    assert [c][1..] == [];
    assert LeadingDigits([c]) == [c];
    assert [c][..0] == [];
    assert NumberValue([c], 10) == DigitValue(c);
  }

  /** `page=0` and `page=1` both ask for page 1. */
  lemma PageZeroIsFirstPage()
    ensures PageNumber("0") == 1 && PageNumber("1") == 1
  {
    ParseOneDigit('0');
    ParseOneDigit('1');
  }

  /** `page=abc` asks for page 1. */
  lemma PageNaNIsFirstPage()
    ensures PageNumber("abc") == 1
  {
    assert TrimStart("abc") == "abc";
    assert SignStripped("abc") == "abc";
    assert LeadingDigits("abc") == "";
  }

  /** `page=-3` is page -3, out of range, so such a query is refused. */
  lemma NegativePageRefused(q: Query, nowSec: int)
    requires q.page == Some("-3")
    ensures PageNumber("-3") == -3
    ensures Validate(q, nowSec).Rejected?
  {
    assert !IsSpace('-');
    assert TrimStart("-3") == "-3";
    assert SignStripped("-3") == "3";
    ParseOneDigit('3');
    assert LeadingDigits("3") == "3";
    assert PageNumber("-3") == -3;
  }

  // ---------------------------------------------------------------------------
  // Responses

  datatype Body = PageBody(sched: SchedPage, cached: bool) | AggBody(agg: Aggregate, cached: bool)
                | ErrorBody(message: string)

  datatype Response = Response(status: int, cacheControl: string, body: Body)

  /** `s-maxage=${cdnMaxAge}, stale-while-revalidate=300`. */
  function CacheControl(cdnMaxAge: nat): string {
    "s-maxage=" + NatToString(cdnMaxAge) + ", stale-while-revalidate=" + NatToString(StaleWhileRevalidate)
  }

  /** `{ ...cached.data, cached: true }`. */
  function CachedBody(data: CacheData): Body {
    match data
    case PageData(sched) => PageBody(sched, true)
    case AggData(agg) => AggBody(agg, true)
  }

  /** The outer `catch`: an `AbortError` is a 504, anything else a 502. */
  function ErrorResponse(timeout: bool): (r: Response)
    ensures r.status == 504 <==> timeout
    ensures r.status == 502 <==> !timeout
  {
    if timeout then Response(504, "", ErrorBody("Upstream timeout"))
    else Response(502, "", ErrorBody("Upstream service unavailable"))
  }

  /** `${ts}` for a possibly negative integer. */
  function IntText(i: int): string {
    if i < 0 then "-" + NatToString(-i) else NatToString(i)
  }

  /** `sched:${hub}:${dir}:${ts}:${pageNum}`. */
  function PageKey(p: Params): string
    requires p.page.Some?
  {
    "sched:" + p.hub + ":" + p.dir + ":" + IntText(p.ts) + ":" + IntText(p.page.value)
  }

  /** `agg:${hub}:${dir}:${ts}`. */
  function AggKey(p: Params): string {
    "agg:" + p.hub + ":" + p.dir + ":" + IntText(p.ts)
  }

  /** Single pages and aggregations never share a cache entry. */
  lemma KeysDisjoint(p: Params, p2: Params)
    requires p.page.Some?
    ensures PageKey(p) != AggKey(p2)
  {
    assert PageKey(p)[1] == 'c' && AggKey(p2)[1] == 'g';
  }

  // ---------------------------------------------------------------------------
  // The handler as steps between its `await`s

  /** The module's state: `cache`, `lastFR24Request`, and the keys of `pendingAggs`. */
  datatype EndpointState = EndpointState(cache: Cache, lastRequest: int, pending: set<string>)

  /** How a request goes on after its synchronous part. */
  datatype Start = Respond(response: Response) | FetchPage(params: Params)
                 | StartAggregation(params: Params) | JoinAggregation(params: Params)

  datatype Begun = Begun(start: Start, state: EndpointState)

  /** After validation: serve a cached entry, or fetch the single page, or join an
      aggregation for the same key that is in flight, or start one. */
  function Dispatch(s: EndpointState, p: Params, nowMs: int): (r: Begun)
    requires s.cache.Valid()
    ensures r.state.cache.Valid() && r.state.cache.Size() <= s.cache.Size()
    ensures r.state.lastRequest == s.lastRequest
    ensures r.start.StartAggregation? ==> r.state.pending == s.pending + {AggKey(p)} && AggKey(p) !in s.pending
    ensures !r.start.StartAggregation? ==> r.state.pending == s.pending
    ensures !r.start.Respond? ==> r.start.params == p
    ensures r.start.FetchPage? ==> p.page.Some?
  {
    var key := if p.page.Some? then PageKey(p) else AggKey(p);
    var l := CacheLookup(s.cache, key, nowMs);
    var s1 := s.(cache := l.cache);
    if l.entry.Some? then Begun(Respond(Response(200, CacheControl(p.cdnMaxAge), CachedBody(l.entry.value.data))), s1)
    else if p.page.Some? then Begun(FetchPage(p), s1)
    else if key in s.pending then Begun(JoinAggregation(p), s1)
    else Begun(StartAggregation(p), s1.(pending := s.pending + {key}))
  }

  /** `handler` up to its first `await`: method, loose origin check, validation,
      then `Dispatch`. */
  function BeginStep(s: EndpointState, httpMethod: string, origin: string, q: Query, nowMs: int): (r: Begun)
    requires s.cache.Valid()
    ensures r.state.cache.Valid() && r.state.cache.Size() <= s.cache.Size()
    ensures httpMethod != "GET" ==> r == Begun(Respond(Response(405, "", ErrorBody("Method not allowed"))), s)
    ensures httpMethod == "GET" && !OriginAllowedLoose(origin) ==> r == Begun(Respond(Response(403, "", ErrorBody("Forbidden"))), s)
    ensures httpMethod == "GET" && OriginAllowedLoose(origin) && Validate(q, nowMs / 1000).Rejected? ==>
              r == Begun(Respond(Response(400, "", ErrorBody(Validate(q, nowMs / 1000).message))), s)
    ensures r.start.StartAggregation? ==>
              r.state.pending == s.pending + {AggKey(r.start.params)} && AggKey(r.start.params) !in s.pending
    ensures !r.start.StartAggregation? ==> r.state.pending == s.pending
    ensures r.start.FetchPage? ==> r.start.params.page.Some?
  {
    if httpMethod != "GET" then Begun(Respond(Response(405, "", ErrorBody("Method not allowed"))), s)
    else if !OriginAllowedLoose(origin) then Begun(Respond(Response(403, "", ErrorBody("Forbidden"))), s)
    else match Validate(q, nowMs / 1000)
      case Rejected(message) => Begun(Respond(Response(400, "", ErrorBody(message))), s)
      case Accepted(p) => Dispatch(s, p, nowMs)
  }

  datatype Finished = Finished(response: Response, state: EndpointState)

  /** Single-page mode after its fetch (whose spacing wait ended at `wake.after`),
      caching a page it got at time `doneAt`. */
  function PageFinishStep(s: EndpointState, p: Params, reply: Reply, wake: Wake, doneAt: int): (r: Finished)
    requires s.cache.Valid() && p.page.Some?
    ensures r.state.cache.Valid()
    ensures s.cache.Size() <= MaxCacheSize ==> r.state.cache.Size() <= MaxCacheSize
    ensures r.state.lastRequest == wake.after && r.state.pending == s.pending
  {
    var s1 := s.(lastRequest := wake.after);
    match Interpret(reply)
    case Failed(timeout) => Finished(ErrorResponse(timeout), s1)
    case Page(sched) =>
      Finished(Response(200, CacheControl(p.cdnMaxAge), PageBody(sched, false)),
               s1.(cache := CacheStore(s.cache, PageKey(p), PageData(sched), p.ttl, doneAt)))
  }

  /** The request that started an aggregation, once it has settled at `doneAt`: a
      result is cached (inside the promise) and returned, an exception becomes a
      502/504; the key leaves `pendingAggs` either way (`finally`). */
  function AggFinishStep(s: EndpointState, p: Params, outcome: RunOutcome, doneAt: int): (r: Finished)
    requires s.cache.Valid()
    ensures r.state.cache.Valid()
    ensures s.cache.Size() <= MaxCacheSize ==> r.state.cache.Size() <= MaxCacheSize
    ensures r.state.pending == s.pending - {AggKey(p)} && r.state.lastRequest == s.lastRequest
  {
    var s1 := s.(pending := s.pending - {AggKey(p)});
    match outcome
    case Stopped(timeout, _) => Finished(ErrorResponse(timeout), s1)
    case Completed(run) =>
      var a := Summarise(run, p.hub, p.dir);
      Finished(Response(200, CacheControl(p.cdnMaxAge), AggBody(a, false)),
               s1.(cache := CacheStore(s.cache, AggKey(p), AggData(a), p.ttl, doneAt)))
  }

  /** A request that awaited another's aggregation: its result marked cached, or the
      same 502/504 as the request that started it. */
  function JoinStep(p: Params, outcome: RunOutcome): Response {
    match outcome
    case Stopped(timeout, _) => ErrorResponse(timeout)
    case Completed(run) => Response(200, CacheControl(p.cdnMaxAge), AggBody(Summarise(run, p.hub, p.dir), true))
  }

  /** One request with no other request interleaved: its synchronous part, then the
      single-page fetch, the awaited aggregation of an earlier request (`pending`),
      or its own aggregation, whose page loop moves `lastFR24Request` before the
      promise settles at `doneAt`. */
  function HandleStep(s: EndpointState, httpMethod: string, origin: string, q: Query, nowMs: int,
                      net: Upstream, wake: Wake, clock: int -> Wake, doneAt: int, pending: RunOutcome): (r: Finished)
    requires s.cache.Valid()
    ensures r.state.cache.Valid()
    ensures s.cache.Size() <= MaxCacheSize ==> r.state.cache.Size() <= MaxCacheSize
    ensures r.state.pending == s.pending
    ensures httpMethod != "GET" ==> r == Finished(Response(405, "", ErrorBody("Method not allowed")), s)
    ensures r.response.status == 200 ==> httpMethod == "GET" && OriginAllowedLoose(origin) && Validate(q, nowMs / 1000).Accepted?
  {
    var b := BeginStep(s, httpMethod, origin, q, nowMs);
    match b.start
    case Respond(response) => Finished(response, b.state)
    case FetchPage(p) => PageFinishStep(b.state, p, net(p.hub, p.dir, p.ts, p.page.value), wake, doneAt)
    case JoinAggregation(p) => Finished(JoinStep(p, pending), b.state)
    case StartAggregation(p) =>
      var o := Aggregation(net, clock, p.hub, p.dir, p.ts, b.state.lastRequest);
      AggFinishStep(b.state.(lastRequest := LastRequest(o)), p, o, doneAt)
  }

  /** A page fetched and cached at `doneAt` is served from the cache, marked cached,
      to any request for the same page up to `doneAt + ttl`, without an upstream call. */
  lemma PageServedFromCache(s: EndpointState, p: Params, reply: Reply, wake: Wake, doneAt: int, p2: Params, later: int)
    requires s.cache.Valid() && p.page.Some? && Interpret(reply).Page?
    requires p2.page.Some? && PageKey(p2) == PageKey(p) && later <= doneAt + p.ttl
    ensures var f := PageFinishStep(s, p, reply, wake, doneAt);
            Dispatch(f.state, p2, later).start
              == Respond(Response(200, CacheControl(p2.cdnMaxAge), PageBody(Interpret(reply).sched, true)))
  {
  }

  /** Single flight: the request that starts an aggregation marks its key pending, and
      every later request for that key that finds no cached result joins it; once it
      has settled the key is free again, and a result is served from the cache until
      it expires. */
  lemma OneAggregationPerKey(s: EndpointState, p: Params, nowMs: int, p2: Params, later: int,
                             outcome: RunOutcome, doneAt: int, p3: Params, after: int)
    requires s.cache.Valid() && p.page.None? && p2.page.None? && AggKey(p2) == AggKey(p)
    requires Dispatch(s, p, nowMs).start == StartAggregation(p)
    ensures var t := Dispatch(s, p, nowMs).state;
            AggKey(p) in t.pending
            && (Dispatch(t, p2, later).start == JoinAggregation(p2) || Dispatch(t, p2, later).start.Respond?)
    ensures var t := Dispatch(s, p, nowMs).state;
            var f := AggFinishStep(t, p, outcome, doneAt);
            AggKey(p) !in f.state.pending && f.state.pending == s.pending
            && (outcome.Completed? && p3.page.None? && AggKey(p3) == AggKey(p) && after <= doneAt + p.ttl ==>
                  Dispatch(f.state, p3, after).start
                    == Respond(Response(200, CacheControl(p3.cdnMaxAge), AggBody(Summarise(outcome.run, p.hub, p.dir), true))))
  {
  }

  // ---------------------------------------------------------------------------
  // The module state and the handler

  class ScheduleEndpoint {
    var cache: Cache
    var lastFR24Request: int
    var pendingAggs: set<string>

    ghost predicate Valid()
      reads this
    {
      cache.Valid() && cache.Size() <= MaxCacheSize
    }

    function State(): EndpointState
      reads this
    {
      EndpointState(cache, lastFR24Request, pendingAggs)
    }

    /** Module load: an empty cache, no request made yet, nothing pending. */
    constructor ()
      ensures Valid() && cache == Empty() && lastFR24Request == 0 && pendingAggs == {}
    {
      cache := Empty();
      lastFR24Request := 0;
      pendingAggs := {};
    }

    method CacheGet(key: string, now: int) returns (entry: Option<CacheEntry>)
      requires Valid()
      modifies this
      ensures Valid()
      ensures Lookup(entry, cache) == CacheLookup(old(cache), key, now)
      ensures lastFR24Request == old(lastFR24Request) && pendingAggs == old(pendingAggs)
    {
      if key !in cache.entries {
        return None;
      }
      var e := cache.entries[key];
      if now > e.expires {
        cache := Delete(cache, key);
        return None;
      }
      return Some(e);
    }

    method CacheSet(key: string, data: CacheData, ttl: int, now: int)
      requires Valid()
      modifies this
      ensures Valid()
      ensures cache == CacheStore(old(cache), key, data, ttl, now)
      ensures lastFR24Request == old(lastFR24Request) && pendingAggs == old(pendingAggs)
    {
      if cache.Size() >= MaxCacheSize {
        cache := DeleteOldest(cache);
      }
      cache := Set(cache, key, CacheEntry(data, now + ttl, now));
    }

    /** `rateLimitedFetch`: wait out the spacing, note the time, then call upstream. */
    method RateLimitedFetch(net: Upstream, hub: string, dir: string, ts: int, page: int, wake: Wake)
      returns (reply: Reply, wait: int)
      modifies this
      ensures wait == SpacingWait(wake.now, old(lastFR24Request))
      ensures reply == net(hub, dir, ts, page)
      ensures lastFR24Request == wake.after && cache == old(cache) && pendingAggs == old(pendingAggs)
    {
      wait := SpacingWait(wake.now, lastFR24Request);
      lastFR24Request := wake.after;
      reply := net(hub, dir, ts, page);
    }

    method FetchOnePage(net: Upstream, hub: string, dir: string, ts: int, page: int, wake: Wake)
      returns (r: Fetched)
      modifies this
      ensures r == Interpret(net(hub, dir, ts, page))
      ensures lastFR24Request == wake.after && cache == old(cache) && pendingAggs == old(pendingAggs)
    {
      var reply, _ := RateLimitedFetch(net, hub, dir, ts, page, wake);
      r := Interpret(reply);
    }

    /** `handler` up to its first `await`. */
    method Begin(httpMethod: string, origin: string, q: Query, nowMs: int) returns (start: Start)
      requires Valid()
      modifies this
      ensures Valid()
      ensures Begun(start, State()) == BeginStep(old(State()), httpMethod, origin, q, nowMs)
    {
      if httpMethod != "GET" {
        return Respond(Response(405, "", ErrorBody("Method not allowed")));
      }
      if !OriginAllowedLoose(origin) {
        return Respond(Response(403, "", ErrorBody("Forbidden")));
      }
      var v := Validate(q, nowMs / 1000);
      if v.Rejected? {
        return Respond(Response(400, "", ErrorBody(v.message)));
      }
      var p := v.params;
      var key := if p.page.Some? then PageKey(p) else AggKey(p);
      var entry := CacheGet(key, nowMs);
      if entry.Some? {
        return Respond(Response(200, CacheControl(p.cdnMaxAge), CachedBody(entry.value.data)));
      }
      if p.page.Some? {
        return FetchPage(p);
      }
      if key in pendingAggs {
        return JoinAggregation(p);
      }
      pendingAggs := pendingAggs + {key};
      start := StartAggregation(p);
    }

    /** Single-page mode after the cache missed. */
    method ServePage(p: Params, net: Upstream, wake: Wake, doneAt: int) returns (response: Response)
      requires Valid() && p.page.Some?
      modifies this
      ensures Valid()
      ensures Finished(response, State()) == PageFinishStep(old(State()), p, net(p.hub, p.dir, p.ts, p.page.value), wake, doneAt)
    {
      var fetched := FetchOnePage(net, p.hub, p.dir, p.ts, p.page.value, wake);
      if fetched.Failed? {
        return ErrorResponse(fetched.timeout);
      }
      CacheSet(PageKey(p), PageData(fetched.sched), p.ttl, doneAt);
      response := Response(200, CacheControl(p.cdnMaxAge), PageBody(fetched.sched, false));
    }

    /** The entry loop over one page. */
    static method ScanPage(data: seq<Option<SchedFlight>>, dir: string, dayEnd: int) returns (kept: seq<SchedFlight>, pastDay: bool)
      ensures PageScan(kept, pastDay) == ScanEntries(data, dir, dayEnd)
    {
      kept := [];
      pastDay := false;
      var i := 0;
      while i < |data|
        invariant 0 <= i <= |data|
        invariant var r := ScanEntries(data[i..], dir, dayEnd);
                  PageScan(kept + r.kept, r.pastDay) == ScanEntries(data, dir, dayEnd)
      {
        var entry := data[i];
        assert data[i..][1..] == data[i + 1..];
        if entry.None? {
          i := i + 1;
          continue;
        }
        var fl := entry.value;
        if fl.airline != "UA" {
          i := i + 1;
          continue;
        }
        var flightTime := if dir == "departures" then fl.schedDep else fl.schedArr;
        if flightTime != 0 && flightTime >= dayEnd {
          pastDay := true;
          return;
        }
        kept := kept + [fl];
        i := i + 1;
      }
    }

    /** The page loop of the aggregation promise; the request for page `k` waits
        between the readings of `clock(k)`. */
    method RunAggregation(net: Upstream, clock: int -> Wake, hub: string, dir: string, ts: int)
      returns (o: RunOutcome)
      modifies this
      ensures o == Aggregation(net, clock, hub, dir, ts, old(lastFR24Request))
      ensures lastFR24Request == LastRequest(o) && cache == old(cache) && pendingAggs == old(pendingAggs)
    {
      var dayEnd := ts + DaySeconds;
      var flights: seq<SchedFlight> := [];
      var pageNum := 1;
      var totalPages := 1;
      var totalFetched: nat := 0;
      var pagesFetched: nat := 0;
      ghost var goal := Aggregation(net, clock, hub, dir, ts, old(lastFR24Request));
      while pageNum <= totalPages && pageNum <= MaxAggPages
        invariant cache == old(cache) && pendingAggs == old(pendingAggs)
        invariant Prepend(flights, totalFetched, pagesFetched,
                          AggFrom(net, clock, hub, dir, ts, pageNum, totalPages, lastFR24Request)) == goal
        decreases MaxAggPages + 1 - pageNum
      {
        AggFromPage(net, clock, hub, dir, ts, pageNum, totalPages, lastFR24Request);
        var fetched := FetchOnePage(net, hub, dir, ts, pageNum, clock(pageNum));
        if fetched.Failed? {
          return Stopped(fetched.timeout, lastFR24Request);
        }
        var sched := fetched.sched;
        totalPages := TotalPages(sched);
        pagesFetched := pagesFetched + 1;
        if sched.data == [] {
          assert flights + [] == flights;
          return Completed(Run(flights, totalFetched, pageNum, totalPages, pagesFetched, lastFR24Request));
        }
        var kept, pastDay := ScanPage(sched.data, dir, dayEnd);
        ghost var before := flights;
        flights := flights + kept;
        totalFetched := totalFetched + |sched.data|;
        if pastDay {
          return Completed(Run(flights, totalFetched, pageNum, totalPages, pagesFetched, lastFR24Request));
        }
        pageNum := pageNum + 1;
        PrependTwice(before, totalFetched - |sched.data|, pagesFetched - 1, kept, |sched.data|, 1,
                     AggFrom(net, clock, hub, dir, ts, pageNum, totalPages, lastFR24Request));
      }
      o := Completed(Run(flights, totalFetched, pageNum, totalPages, pagesFetched, lastFR24Request));
      assert flights + [] == flights;
    }

    /** The request that started the aggregation, once its promise has settled. */
    method FinishAggregation(p: Params, outcome: RunOutcome, doneAt: int) returns (response: Response)
      requires Valid()
      modifies this
      ensures Valid()
      ensures Finished(response, State()) == AggFinishStep(old(State()), p, outcome, doneAt)
    {
      if outcome.Completed? {
        var a := Summarise(outcome.run, p.hub, p.dir);
        CacheSet(AggKey(p), AggData(a), p.ttl, doneAt);
        response := Response(200, CacheControl(p.cdnMaxAge), AggBody(a, false));
      } else {
        response := ErrorResponse(outcome.timeout);
      }
      pendingAggs := pendingAggs - {AggKey(p)};
    }

    /** One request with no other request interleaved: a fetch or aggregation it
        starts runs to its end before the response. `pending` is the outcome of an
        aggregation started by an earlier request still in flight, which a joining
        request awaits; `wake` and `clock` are the clock readings around the spacing
        waits, and `doneAt` the time the upstream data arrived. */
    method Handle(httpMethod: string, origin: string, q: Query, nowMs: int, net: Upstream,
                  wake: Wake, clock: int -> Wake, doneAt: int, pending: RunOutcome)
      returns (response: Response)
      requires Valid()
      modifies this
      ensures Valid()
      ensures Finished(response, State()) == HandleStep(old(State()), httpMethod, origin, q, nowMs, net, wake, clock, doneAt, pending)
    {
      var start := Begin(httpMethod, origin, q, nowMs);
      match start
      case Respond(r) =>
        response := r;
      case FetchPage(p) =>
        response := ServePage(p, net, wake, doneAt);
      case JoinAggregation(p) =>
        response := JoinStep(p, pending);
      case StartAggregation(p) =>
        ghost var before := old(pendingAggs);
        assert pendingAggs == before + {AggKey(p)} && AggKey(p) !in before;
        var outcome := RunAggregation(net, clock, p.hub, p.dir, p.ts);
        response := FinishAggregation(p, outcome, doneAt);
    }
  }
}
