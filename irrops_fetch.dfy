/** `api/irrops.js`, upstream side: the retrying fetch (`rateLimitedFetch`) and the
    paginated scan of one hub's departures (`fetchHubSchedule`). The network is an
    abstract function from the attempt (and page) to what that attempt yields. */
module IrropsFetch {
  import opened Common

  /** One attempt at an HTTP request: a response with its status and parsed payload,
      or a thrown exception (abort after 8 s, DNS failure, reset connection). */
  datatype Attempt<T> = Reply(status: int, payload: T) | Thrown

  /** `resp.ok`. */
  predicate Ok(status: int) {
    200 <= status <= 299
  }

  /** 429 and 403 are the statuses that are retried. */
  predicate Throttled(status: int) {
    status == 429 || status == 403
  }

  /** An attempt that is retried when attempts remain. */
  predicate Transient<T>(a: Attempt<T>) {
    a.Thrown? || Throttled(a.status)
  }

  /** The default of `rateLimitedFetch(url, retries = 1)`. */
  const DefaultRetries: nat := 1

  datatype Fetched<T> = Fetched(resp: Option<T>, attempts: nat)

  /** The attempts of `rateLimitedFetch` from attempt number `attempt` on. */
  function FetchFrom<T>(net: nat -> Attempt<T>, retries: nat, attempt: nat): (r: Fetched<T>)
    requires attempt <= retries
    ensures attempt < r.attempts <= retries + 1
    decreases retries - attempt
  {
    var a := net(attempt);
    if Transient(a) then
      if attempt < retries then FetchFrom(net, retries, attempt + 1) else Fetched(None, attempt + 1)
    else if Ok(a.status) then Fetched(Some(a.payload), attempt + 1)
    else Fetched(None, attempt + 1)
  }

  /** `rateLimitedFetch(url, retries)`: `resp` for an ok response, `null` (`None`)
      otherwise; `attempts` counts the requests made. */
  function Fetch<T>(net: nat -> Attempt<T>, retries: nat): Fetched<T> {
    FetchFrom(net, retries, 0)
  }

  /** Every attempt before the last was transient, and the last was an ok response,
      a non-retried failing status, or the final transient attempt. The result is the
      last attempt's payload exactly when that attempt was ok. */
  lemma {:induction false} FetchRetriesOnlyTransient<T>(net: nat -> Attempt<T>, retries: nat, attempt: nat)
    requires attempt <= retries
    ensures var r := FetchFrom(net, retries, attempt);
            && (forall k :: attempt <= k < r.attempts - 1 ==> Transient(net(k)))
            && (Transient(net(r.attempts - 1)) ==> r.attempts == retries + 1 && r.resp == None)
            && (!Transient(net(r.attempts - 1)) ==>
                  r.resp == if Ok(net(r.attempts - 1).status) then Some(net(r.attempts - 1).payload) else None)
    decreases retries - attempt
  {
    if Transient(net(attempt)) && attempt < retries {
      FetchRetriesOnlyTransient(net, retries, attempt + 1);
    }
  }

  /** The attempt loop itself. */
  method RateLimitedFetch<T>(net: nat -> Attempt<T>, retries: nat) returns (resp: Option<T>, attempts: nat)
    ensures Fetched(resp, attempts) == Fetch(net, retries)
    ensures 1 <= attempts <= retries + 1
  {
    var attempt: nat := 0;
    while true
      invariant attempt <= retries
      invariant FetchFrom(net, retries, attempt) == Fetch(net, retries)
      decreases retries - attempt
    {
      var a := net(attempt);
      if Transient(a) {
        if attempt < retries {
          // the backoff sleep (1.5 s after 429/403, 1 s after an exception) is not modelled
          attempt := attempt + 1;
          continue;
        }
        return None, attempt + 1;
      }
      if !Ok(a.status) {
        return None, attempt + 1;
      }
      return Some(a.payload), attempt + 1;
    }
  }

  /** A schedule entry's flight, as far as the pipeline reads it. Times are Unix
      seconds and `0` stands for a missing or null value (the code only tests their
      truthiness); strings are `""` when missing. */
  datatype Flight = Flight(
    statusText: string,  // status.generic.status.text
    airline: string,     // airline.code.iata
    schedDep: int,       // time.scheduled.departure
    realDep: int,        // time.real.departure
    estDep: int,         // time.estimated.departure
    ident: string,       // identification.number.default
    origin: string,      // airport.origin.code.iata
    dest: string)        // airport.destination.code.iata

  /** `schedule.departures` of one page: its entries (`entry.flight`, possibly null)
      and `page.total`, `0` when missing. */
  datatype SchedulePage = SchedulePage(data: seq<Option<Flight>>, total: int)

  /** What `resp.json()` yields for a page: `None` when the body does not parse or
      holds no `schedule.departures`. */
  type PageBody = Option<SchedulePage>

  /** `MAX_PAGES`. */
  const MaxPages := 5

  /** Seconds in a day; the scan stops at `timestamp + DaySeconds`. */
  const DaySeconds := 86400

  /** `sched.page?.total || 1`. */
  function TotalPages(p: SchedulePage): int {
    if p.total != 0 then p.total else 1
  }

  datatype PageScan = PageScan(kept: seq<Flight>, pastDay: bool)

  /** The entry loop over one page: United flights are kept in order until the first
      United flight scheduled at or after `dayEnd`, which ends the scan. */
  function ScanEntries(entries: seq<Option<Flight>>, dayEnd: int): PageScan {
    if entries == [] then PageScan([], false)
    else
      var rest := ScanEntries(entries[1..], dayEnd);
      match entries[0]
      case None => rest
      case Some(fl) =>
        if fl.airline != "UA" then rest
        else if fl.schedDep != 0 && fl.schedDep >= dayEnd then PageScan([], true)
        else PageScan([fl] + rest.kept, rest.pastDay)
  }

  /** Every flight in `fs` is a United flight scheduled before `dayEnd` (or without a
      scheduled time). */
  predicate UnitedBefore(fs: seq<Flight>, dayEnd: int) {
    forall i :: 0 <= i < |fs| ==> fs[i].airline == "UA" && (fs[i].schedDep == 0 || fs[i].schedDep < dayEnd)
  }

  /** Every flight a page keeps is a United flight scheduled before `dayEnd` (or
      without a scheduled time). */
  lemma {:induction false} ScanEntriesKeepsUnitedToday(entries: seq<Option<Flight>>, dayEnd: int)
    ensures UnitedBefore(ScanEntries(entries, dayEnd).kept, dayEnd)
  {
    if entries != [] {
      ScanEntriesKeepsUnitedToday(entries[1..], dayEnd);
      var rest := ScanEntries(entries[1..], dayEnd);
      match entries[0]
      case None =>
      case Some(fl) =>
        if fl.airline == "UA" && !(fl.schedDep != 0 && fl.schedDep >= dayEnd) {
          var kept := [fl] + rest.kept;
          assert ScanEntries(entries, dayEnd).kept == kept;
          forall i | 0 <= i < |kept|
            ensures kept[i].airline == "UA" && (kept[i].schedDep == 0 || kept[i].schedDep < dayEnd)
          {
            if i > 0 {
              assert kept[i] == rest.kept[i - 1];
            }
          }
        }
    }
  }

  /** The United flights of a page, in upstream order. */
  function UnitedFlights(entries: seq<Option<Flight>>): (r: seq<Flight>)
    ensures forall i :: 0 <= i < |r| ==> r[i].airline == "UA"
  {
    if entries == [] then []
    else
      var rest := UnitedFlights(entries[1..]);
      match entries[0]
      case None => rest
      case Some(fl) => if fl.airline == "UA" then [fl] + rest else rest
  }

  /** A page contributes a prefix of its United flights: all of them when none is
      from the next day, otherwise those before the first next-day one. */
  lemma {:induction false} ScanEntriesIsPrefix(entries: seq<Option<Flight>>, dayEnd: int)
    ensures var r := ScanEntries(entries, dayEnd);
            var all := UnitedFlights(entries);
            && |r.kept| <= |all| && r.kept == all[..|r.kept|]
            && (!r.pastDay ==> r.kept == all)
            && (r.pastDay ==> |r.kept| < |all| && all[|r.kept|].schedDep != 0 && all[|r.kept|].schedDep >= dayEnd)
  {
    if entries != [] {
      ScanEntriesIsPrefix(entries[1..], dayEnd);
    }
  }

  /** The attempts at one page of the schedule. */
  function PageNet(net: (int, nat) -> Attempt<PageBody>, page: int): nat -> Attempt<PageBody> {
    (a: nat) => net(page, a)
  }

  datatype HubScan = HubScan(flights: seq<Flight>, pagesRequested: nat)

  /** The pages of `fetchHubSchedule` from page `page` on, `totalPages` being what the
      previous page reported. */
  function ScanFrom(net: (int, nat) -> Attempt<PageBody>, timestamp: int, page: int, totalPages: int): (r: HubScan)
    ensures r.pagesRequested <= if page <= MaxPages then MaxPages + 1 - page else 0
    decreases MaxPages + 1 - page
  {
    if !(page <= totalPages && page <= MaxPages) then HubScan([], 0)
    else
      var body := Fetch(PageNet(net, page), DefaultRetries).resp;
      if body.None? || body.value.None? || body.value.value.data == [] then HubScan([], 1)
      else
        var sched := body.value.value;
        var scan := ScanEntries(sched.data, timestamp + DaySeconds);
        if scan.pastDay then HubScan(scan.kept, 1)
        else
          var rest := ScanFrom(net, timestamp, page + 1, TotalPages(sched));
          HubScan(scan.kept + rest.flights, 1 + rest.pagesRequested)
  }

  /** `fetchHubSchedule(hub, timestamp)` for the hub whose pages `net` serves. */
  function HubSchedule(net: (int, nat) -> Attempt<PageBody>, timestamp: int): HubScan {
    ScanFrom(net, timestamp, 1, 1)
  }

  /** At most five pages are requested, and every flight returned is a United flight
      scheduled before the end of the day (or without a scheduled time). */
  lemma {:induction false} ScanFromKeepsUnitedToday(net: (int, nat) -> Attempt<PageBody>, timestamp: int, page: int, totalPages: int)
    ensures UnitedBefore(ScanFrom(net, timestamp, page, totalPages).flights, timestamp + DaySeconds)
    decreases MaxPages + 1 - page
  {
    if page <= totalPages && page <= MaxPages {
      ScanFromUnfold(net, timestamp, page, totalPages);
      var fetched := Fetch(PageNet(net, page), DefaultRetries);
      if fetched.resp.Some? && fetched.resp.value.Some? && fetched.resp.value.value.data != [] {
        var sched := fetched.resp.value.value;
        var scan := ScanEntries(sched.data, timestamp + DaySeconds);
        ScanEntriesKeepsUnitedToday(sched.data, timestamp + DaySeconds);
        if !scan.pastDay {
          var rest := ScanFrom(net, timestamp, page + 1, TotalPages(sched));
          ScanFromKeepsUnitedToday(net, timestamp, page + 1, TotalPages(sched));
          var all := scan.kept + rest.flights;
          forall i | 0 <= i < |all|
            ensures all[i].airline == "UA" && (all[i].schedDep == 0 || all[i].schedDep < timestamp + DaySeconds)
          {
            if i >= |scan.kept| {
              assert all[i] == rest.flights[i - |scan.kept|];
            } else {
              assert all[i] == scan.kept[i];
            }
          }
        }
      }
    }
  }

  lemma HubScheduleBounds(net: (int, nat) -> Attempt<PageBody>, timestamp: int)
    ensures var r := HubSchedule(net, timestamp);
            && 1 <= r.pagesRequested <= MaxPages
            && UnitedBefore(r.flights, timestamp + DaySeconds)
  {
    ScanFromKeepsUnitedToday(net, timestamp, 1, 1);
  }

  /** Whether a fetched page lets the scan go on to the next one: it arrived, parsed,
      is not empty, and holds no next-day United flight. */
  predicate Continues(fetched: Option<PageBody>, timestamp: int) {
    fetched.Some? && fetched.value.Some? && fetched.value.value.data != []
    && !ScanEntries(fetched.value.value.data, timestamp + DaySeconds).pastDay
  }

  /** After a null response, an unparsable or empty page, or a page holding a
      next-day United flight, no further page is requested. Otherwise the next page
      is requested exactly when it is within both the reported total and the cap. */
  lemma ScanStopsOrContinues(net: (int, nat) -> Attempt<PageBody>, timestamp: int, page: int, totalPages: int)
    requires page <= totalPages && page <= MaxPages
    ensures var fetched := Fetch(PageNet(net, page), DefaultRetries).resp;
            var r := ScanFrom(net, timestamp, page, totalPages);
            && (!Continues(fetched, timestamp) ==> r.pagesRequested == 1)
            && (Continues(fetched, timestamp) ==>
                  var next := TotalPages(fetched.value.value);
                  (r.pagesRequested > 1 <==> page + 1 <= next && page + 1 <= MaxPages))
  {
  }

  /** The entry loop of `fetchHubSchedule` over one page. */
  method ScanPage(data: seq<Option<Flight>>, dayEnd: int) returns (kept: seq<Flight>, pastDay: bool)
    ensures PageScan(kept, pastDay) == ScanEntries(data, dayEnd)
  {
    kept := [];
    pastDay := false;
    var i := 0;
    while i < |data|
      invariant 0 <= i <= |data|
      invariant var r := ScanEntries(data[i..], dayEnd);
                PageScan(kept + r.kept, r.pastDay) == ScanEntries(data, dayEnd)
    {
      var entry := data[i];
      assert data[i..][1..] == data[i + 1..];
      if entry.None? {
        i := i + 1;
        continue;
      }
      var fl := entry.value;
      if fl.airline != "UA" {
        i := i + 1;
        continue;
      }
      if fl.schedDep != 0 && fl.schedDep >= dayEnd {
        pastDay := true;
        return;
      }
      kept := kept + [fl];
      i := i + 1;
    }
  }

  /** The page loop of `fetchHubSchedule`. */
  method FetchHubSchedule(net: (int, nat) -> Attempt<PageBody>, timestamp: int)
    returns (flights: seq<Flight>, pagesRequested: nat)
    ensures HubScan(flights, pagesRequested) == HubSchedule(net, timestamp)
  {
    flights := [];
    pagesRequested := 0;
    var page := 1;
    var totalPages := 1;
    var more := true;
    while more && page <= totalPages && page <= MaxPages
      invariant 1 <= page
      invariant var rest := if more then ScanFrom(net, timestamp, page, totalPages) else HubScan([], 0);
                HubScan(flights + rest.flights, pagesRequested + rest.pagesRequested) == HubSchedule(net, timestamp)
      decreases MaxPages + 1 - page, more
    {
      ghost var prev := flights;
      var kept, nextTotal;
      kept, more, nextTotal := FetchPage(net, timestamp, page, totalPages);
      flights := flights + kept;
      pagesRequested := pagesRequested + 1;
      if more {
        AppendAssoc(prev, kept, ScanFrom(net, timestamp, page + 1, nextTotal).flights);
        page := page + 1;
        totalPages := nextTotal;
        // the 800 ms pause before the next page is not modelled
      } else {
        assert prev + kept + [] == prev + kept;
      }
    }
  }

  /** One turn of the page loop: the page is requested with `rateLimitedFetch`; a
      failed, unparsable or empty page, or one that reaches the next day, ends the
      scan; otherwise the scan goes on with the total the page reports. */
  method FetchPage(net: (int, nat) -> Attempt<PageBody>, timestamp: int, page: int, totalPages: int)
    returns (kept: seq<Flight>, more: bool, nextTotal: int)
    requires page <= totalPages && page <= MaxPages
    ensures var r := ScanFrom(net, timestamp, page, totalPages);
            !more ==> r == HubScan(kept, 1)
    ensures var r := ScanFrom(net, timestamp, page, totalPages);
            var rest := ScanFrom(net, timestamp, page + 1, nextTotal);
            more ==> r == HubScan(kept + rest.flights, 1 + rest.pagesRequested)
  {
    var resp, _ := RateLimitedFetch(PageNet(net, page), DefaultRetries);
    ScanFromUnfold(net, timestamp, page, totalPages);
    kept, more, nextTotal := [], false, totalPages;
    if resp.Some? && resp.value.Some? && resp.value.value.data != [] {
      var sched := resp.value.value;
      nextTotal := TotalPages(sched);
      var pastDay;
      kept, pastDay := ScanPage(sched.data, timestamp + DaySeconds);
      more := !pastDay;
    }
  }

  lemma AppendAssoc<T>(a: seq<T>, b: seq<T>, c: seq<T>)
    ensures a + b + c == a + (b + c)
  {
  }

  /** One page of the scan: a failed, unparsable or empty page ends it; otherwise the
      page's kept flights come first, followed by the later pages unless this page
      reached the next day. */
  lemma ScanFromUnfold(net: (int, nat) -> Attempt<PageBody>, timestamp: int, page: int, totalPages: int)
    requires page <= totalPages && page <= MaxPages
    ensures var body := Fetch(PageNet(net, page), DefaultRetries).resp;
            var r := ScanFrom(net, timestamp, page, totalPages);
            && (body.None? || body.value.None? || body.value.value.data == [] ==> r == HubScan([], 1))
            && (body.Some? && body.value.Some? && body.value.value.data != [] ==>
                  var scan := ScanEntries(body.value.value.data, timestamp + DaySeconds);
                  var rest := ScanFrom(net, timestamp, page + 1, TotalPages(body.value.value));
                  r == if scan.pastDay then HubScan(scan.kept, 1)
                       else HubScan(scan.kept + rest.flights, 1 + rest.pagesRequested))
  {
  }
}
