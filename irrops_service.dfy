/** `api/irrops.js`, state side: `buildIrropsData` with the persistent per-hub
    fallback cache `hubCache`, and the handler's response cache (`cached`,
    `cacheExpires`) and single-flight flag (`fetching`). A request is split at its
    `await`: `Begin` runs up to the start of a build (or serves, or joins), `Finish`
    runs once that build has ended. */
module IrropsService {
  import opened Common
  import opened IrropsFetch
  import opened IrropsMetrics
  import opened OperationalDay
  import RateLimit

  /** `HUBS`, in fetch order. */
  const Hubs: seq<string> := ["ORD", "DEN", "IAH", "EWR", "SFO", "IAD", "LAX", "NRT", "GUM"]

  /** Fallback data older than this is not used (`60 * 60 * 1000`). */
  const HubCacheMaxAgeMs := 3600000

  /** `CACHE_TTL`, 15 minutes. */
  const CacheTtlMs := 900000

  /** The limiter the module creates: `createRateLimiter('irrops', 60)`. */
  const IrropsLimiter := RateLimit.Limiter("irrops", 60)

  lemma HubsHaveZones()
    ensures forall i :: 0 <= i < |Hubs| ==> Hubs[i] in HubZones
    ensures forall i, j :: 0 <= i < j < |Hubs| ==> Hubs[i] != Hubs[j]
  {
  }

  /** `hubCache[hub]`. */
  datatype HubCacheEntry = HubCacheEntry(flights: seq<Flight>, fetchedAt: int)

  type HubCache = map<string, HubCacheEntry>

  /** The upstream as seen by `fetchHubSchedule` for each hub. */
  type Upstream = string -> (int, nat) -> Attempt<PageBody>

  datatype Choice = Choice(flights: seq<Flight>, cache: HubCache)

  /** What one hub contributes, given what its scan returned at time `now`. */
  function ChooseHub(cache: HubCache, hub: string, fetched: seq<Flight>, now: int): Choice {
    if |fetched| > 0 then Choice(fetched, cache[hub := HubCacheEntry(fetched, now)])
    else if hub in cache && now - cache[hub].fetchedAt < HubCacheMaxAgeMs then Choice(cache[hub].flights, cache)
    else Choice([], cache)
  }

  /** An empty scan never touches the cache; a non-empty one replaces the hub's
      entry and is what the hub gets. With an empty scan, the hub gets its cached
      flights if they are less than an hour old and nothing otherwise. */
  lemma ChooseHubFallback(cache: HubCache, hub: string, fetched: seq<Flight>, now: int)
    ensures var c := ChooseHub(cache, hub, fetched, now);
            && (fetched == [] ==> c.cache == cache)
            && (fetched != [] ==> c.flights == fetched && c.cache == cache[hub := HubCacheEntry(fetched, now)])
            && (fetched == [] && c.flights != [] ==>
                  hub in cache && now - cache[hub].fetchedAt < HubCacheMaxAgeMs && c.flights == cache[hub].flights)
            && (fetched == [] && hub in cache && now - cache[hub].fetchedAt < HubCacheMaxAgeMs ==>
                  c.flights == cache[hub].flights)
  {
  }

  datatype Built = Built(byHub: seq<HubFlights>, cache: HubCache)

  /** The scan of hub number `i` (one clock reading, `clock(i)`, per hub). */
  function ScanHub(upstream: Upstream, clock: nat -> int, local: (string, int) -> LocalTime, i: nat): seq<Flight>
    requires i < |Hubs|
  {
    HubSchedule(upstream(Hubs[i]), StartOfDayForHub(Hubs[i], clock(i), local)).flights
  }

  /** `flightsByHub` and `hubCache` after the first `k` hubs of the build loop. */
  function BuildPrefix(cache: HubCache, upstream: Upstream, clock: nat -> int, local: (string, int) -> LocalTime, k: nat): Built
    requires k <= |Hubs|
  {
    if k == 0 then Built([], cache)
    else
      var b := BuildPrefix(cache, upstream, clock, local, k - 1);
      var c := ChooseHub(b.cache, Hubs[k - 1], ScanHub(upstream, clock, local, k - 1), clock(k - 1));
      Built(b.byHub + [HubFlights(Hubs[k - 1], c.flights)], c.cache)
  }

  function Build(cache: HubCache, upstream: Upstream, clock: nat -> int, local: (string, int) -> LocalTime): Built {
    BuildPrefix(cache, upstream, clock, local, |Hubs|)
  }

  /** Every hub gets exactly one entry, in `HUBS` order. */
  lemma {:induction false} BuildCoversHubs(cache: HubCache, upstream: Upstream, clock: nat -> int, local: (string, int) -> LocalTime, k: nat)
    requires k <= |Hubs|
    ensures var b := BuildPrefix(cache, upstream, clock, local, k);
            |b.byHub| == k && forall i :: 0 <= i < k ==> b.byHub[i].hub == Hubs[i]
  {
    if k > 0 {
      BuildCoversHubs(cache, upstream, clock, local, k - 1);
    }
  }

  lemma BuildHubsDistinct(cache: HubCache, upstream: Upstream, clock: nat -> int, local: (string, int) -> LocalTime)
    ensures DistinctHubs(Build(cache, upstream, clock, local).byHub)
  {
    BuildCoversHubs(cache, upstream, clock, local, |Hubs|);
    HubsHaveZones();
  }

  /** `after` has every hub of `before`, and each of its entries is either the one
      `before` had or holds a non-empty scan. */
  predicate OnlyGrows(before: HubCache, after: HubCache) {
    && before.Keys <= after.Keys
    && forall h :: h in after ==> (h in before && after[h] == before[h]) || after[h].flights != []
  }

  /** One hub's choice only grows the cache. */
  lemma ChooseHubOnlyGrows(cache: HubCache, hub: string, fetched: seq<Flight>, now: int)
    ensures OnlyGrows(cache, ChooseHub(cache, hub, fetched, now).cache)
  {
  }

  lemma OnlyGrowsTransitive(a: HubCache, b: HubCache, c: HubCache)
    requires OnlyGrows(a, b) && OnlyGrows(b, c)
    ensures OnlyGrows(a, c)
  {
  }

  /** The cache only gains entries, and an entry changes only to a non-empty scan
      of that hub: a hub's cache is never overwritten by an empty fetch. */
  lemma {:induction false} BuildCacheOnlyGrows(cache: HubCache, upstream: Upstream, clock: nat -> int, local: (string, int) -> LocalTime, k: nat)
    requires k <= |Hubs|
    ensures OnlyGrows(cache, BuildPrefix(cache, upstream, clock, local, k).cache)
  {
    if k > 0 {
      BuildCacheOnlyGrows(cache, upstream, clock, local, k - 1);
      var b := BuildPrefix(cache, upstream, clock, local, k - 1);
      ChooseHubOnlyGrows(b.cache, Hubs[k - 1], ScanHub(upstream, clock, local, k - 1), clock(k - 1));
      OnlyGrowsTransitive(cache, b.cache, BuildPrefix(cache, upstream, clock, local, k).cache);
    }
  }

  /** The hub loop of `buildIrropsData` over `HUBS`. */
  method CollectHubFlights(cache: HubCache, upstream: Upstream, clock: nat -> int, local: (string, int) -> LocalTime)
    returns (byHub: seq<HubFlights>, newCache: HubCache)
    ensures Built(byHub, newCache) == Build(cache, upstream, clock, local)
  {
    byHub := [];
    newCache := cache;
    var i := 0;
    while i < |Hubs|
      invariant 0 <= i <= |Hubs|
      invariant Built(byHub, newCache) == BuildPrefix(cache, upstream, clock, local, i)
    {
      var hub := Hubs[i];
      var now := clock(i);
      var flights, _ := FetchHubSchedule(upstream(hub), StartOfDayForHub(hub, now, local));
      assert flights == ScanHub(upstream, clock, local, i);
      ghost var c := ChooseHub(newCache, hub, flights, now);
      assert BuildPrefix(cache, upstream, clock, local, i + 1) == Built(byHub + [HubFlights(hub, c.flights)], c.cache);
      if |flights| > 0 {
        byHub := byHub + [HubFlights(hub, flights)];
        newCache := newCache[hub := HubCacheEntry(flights, now)];
      } else if hub in newCache && now - newCache[hub].fetchedAt < HubCacheMaxAgeMs {
        byHub := byHub + [HubFlights(hub, newCache[hub].flights)];
      } else {
        byHub := byHub + [HubFlights(hub, [])];
      }
      // the 1.5 s pause between hubs is not modelled
      i := i + 1;
    }
  }

  // ---------------------------------------------------------------------------
  // The handler

  datatype Body = Metrics(result: IrropsResult, cached: bool, stale: bool) | Error(message: string)

  datatype Response = Response(status: int, cacheControl: string, body: Body)

  const FreshCacheControl := "s-maxage=900, stale-while-revalidate=300"
  const StaleCacheControl := "s-maxage=60"
  const FailureMessage := "Failed to compute IRROPS data"

  /** The checks before the cache: method, then origin. */
  function Gate(httpMethod: string, origin: string): (r: Option<Response>)
    ensures r == None <==> httpMethod == "GET" && OriginAllowedStrict(origin)
  {
    if httpMethod != "GET" then Some(Response(405, "", Error("Method not allowed")))
    else if !OriginAllowedStrict(origin) then Some(Response(403, "", Error("Forbidden")))
    else None
  }

  /** `cached`, `cacheExpires`, and whether `fetching` holds a promise. */
  datatype CacheState = CacheState(cached: Option<IrropsResult>, cacheExpires: int, fetching: bool)

  /** How a request goes on once it has passed the checks. */
  datatype Start = Respond(response: Response) | StartBuild | Join

  datatype Begun = Begun(start: Start, state: CacheState)

  /** Up to the first `await`: serve a fresh cache, join a running build, or start one. */
  function BeginStep(s: CacheState, now: int): Begun {
    if s.cached.Some? && now < s.cacheExpires then
      Begun(Respond(Response(200, FreshCacheControl, Metrics(s.cached.value, true, false))), s)
    else if s.fetching then Begun(Join, s)
    else Begun(StartBuild, s.(fetching := true))
  }

  datatype Finished = Finished(response: Response, state: CacheState)

  /** After the build started at `start` has ended, with `outcome` `None` when it threw:
      cache a success until `start + CACHE_TTL`, or fall back to the stale cache, or 502.
      `fetching` is cleared either way. */
  function FinishStep(s: CacheState, start: int, outcome: Option<IrropsResult>): Finished {
    match outcome
    case Some(result) =>
      Finished(Response(200, FreshCacheControl, Metrics(result, false, false)), CacheState(Some(result), start + CacheTtlMs, false))
    case None =>
      if s.cached.Some? then Finished(Response(200, StaleCacheControl, Metrics(s.cached.value, true, true)), s.(fetching := false))
      else Finished(Response(502, "", Error(FailureMessage)), s.(fetching := false))
  }

  /** A request that awaited another's build: its result marked cached, or 502 from
      the outer `catch` when it threw (even if a stale cache exists). */
  function JoinStep(outcome: Option<IrropsResult>): Response {
    match outcome
    case Some(result) => Response(200, FreshCacheControl, Metrics(result, true, false))
    case None => Response(502, "", Error(FailureMessage))
  }

  /** While the cache is fresh it is served, marked cached, and nothing changes. */
  lemma FreshCacheServed(s: CacheState, now: int)
    requires s.cached.Some? && now < s.cacheExpires
    ensures BeginStep(s, now) == Begun(Respond(Response(200, FreshCacheControl, Metrics(s.cached.value, true, false))), s)
  {
  }

  /** Single flight: a request that starts a build sets `fetching`, and every later
      request that finds no fresh cache joins it instead of starting another. */
  lemma OneBuildAtATime(s: CacheState, now: int, later: int)
    requires !(s.cached.Some? && now < s.cacheExpires) && !s.fetching
    ensures BeginStep(s, now).start == StartBuild
    ensures var t := BeginStep(s, now).state;
            t.fetching && t.cached == s.cached && t.cacheExpires == s.cacheExpires
            && (BeginStep(t, later).start == Join || BeginStep(t, later).start.Respond?)
  {
  }

  /** `fetching` is clear after every build; a success is cached and then served
      exactly while the clock is before the request's start time plus 15 minutes,
      however long the build took; a failure keeps the old cache. */
  lemma FinishThenServe(s: CacheState, start: int, outcome: Option<IrropsResult>, later: int)
    ensures var f := FinishStep(s, start, outcome);
            && !f.state.fetching
            && (outcome.Some? ==> f.state.cached == outcome && f.state.cacheExpires == start + CacheTtlMs
                                  && (BeginStep(f.state, later).start.Respond? <==> later < start + CacheTtlMs))
            && (outcome.None? ==> f.state.cached == s.cached && f.state.cacheExpires == s.cacheExpires)
            && (outcome.None? ==> (f.response.status == 200 <==> s.cached.Some?))
            && (outcome.None? && s.cached.Some? ==> f.response.body == Metrics(s.cached.value, true, true))
  {
  }

  /** The response, the module state and the hub cache after one whole request. */
  datatype Handled = Handled(response: Response, state: CacheState, hubCache: HubCache)

  /** One request with no other request interleaved, `limited` being the limiter's
      verdict: the checks, then serve, join the build in flight (whose outcome is
      `pending`), or run a build to its end and cache its metrics. */
  function HandleStep(s: CacheState, hubCache: HubCache, httpMethod: string, origin: string,
                      limited: bool, now: int, upstream: Upstream, clock: nat -> int,
                      local: (string, int) -> LocalTime, pending: Option<IrropsResult>): (r: Handled)
    ensures Gate(httpMethod, origin).Some? ==> r == Handled(Gate(httpMethod, origin).value, s, hubCache)
    ensures Gate(httpMethod, origin).None? && limited ==>
              r.response.status == 429 && r.state == s && r.hubCache == hubCache
    ensures r.response.status == 200 ==> httpMethod == "GET" && OriginAllowedStrict(origin) && !limited
    ensures r.state.fetching == s.fetching
    ensures s.cached.Some? ==> r.state.cached.Some?
    ensures r.state != s ==>
              && !s.fetching && !(s.cached.Some? && now < s.cacheExpires)
              && r.state.cached.Some? && r.state.cacheExpires == now + CacheTtlMs
              && r.response == Response(200, FreshCacheControl, Metrics(r.state.cached.value, false, false))
    ensures r.hubCache == hubCache || r.hubCache == Build(hubCache, upstream, clock, local).cache
    ensures Gate(httpMethod, origin).None? && !limited && !(s.cached.Some? && now < s.cacheExpires) && s.fetching ==>
              r == Handled(JoinStep(pending), s, hubCache)
  {
    var gate := Gate(httpMethod, origin);
    if gate.Some? then Handled(gate.value, s, hubCache)
    else if limited then Handled(Response(429, "", Error("Rate limited \U{2014} try again shortly")), s, hubCache)
    else
      var b := BeginStep(s, now);
      match b.start
      case Respond(response) => Handled(response, b.state, hubCache)
      case Join => Handled(JoinStep(pending), b.state, hubCache)
      case StartBuild =>
        var built := Build(hubCache, upstream, clock, local);
        var f := FinishStep(b.state, now, Some(IrropsMetrics.Metrics(built.byHub)));
        Handled(f.response, f.state, built.cache)
  }

  /** The endpoint's module state, with the shared limiter registry. */
  class IrropsEndpoint {
    const registry: RateLimit.Registry
    var hubCache: HubCache
    var cached: Option<IrropsResult>
    var cacheExpires: int
    var fetching: bool

    ghost predicate Valid()
      reads this, registry
    {
      IrropsLimiter.name in registry.stores
    }

    function State(): CacheState
      reads this
    {
      CacheState(cached, cacheExpires, fetching)
    }

    /** Module load: `createRateLimiter('irrops', 60)`, empty caches, nothing fetching. */
    constructor (registry: RateLimit.Registry)
      modifies registry
      ensures Valid() && this.registry == registry
      ensures hubCache == map[] && cached == None && cacheExpires == 0 && !fetching
    {
      var limiter := registry.CreateRateLimiter(IrropsLimiter.name, IrropsLimiter.maxPerMinute);
      this.registry := registry;
      hubCache := map[];
      cached := None;
      cacheExpires := 0;
      fetching := false;
    }

    /** `handler` up to its first `await`. */
    method Begin(httpMethod: string, origin: string, headers: RateLimit.Headers, now: int) returns (start: Start)
      requires Valid()
      modifies this, registry
      ensures Valid() && hubCache == old(hubCache)
      ensures Gate(httpMethod, origin).Some? ==>
                start == Respond(Gate(httpMethod, origin).value) && State() == old(State())
                && registry.stores == old(registry.stores) && registry.lastCleanup == old(registry.lastCleanup)
      ensures Gate(httpMethod, origin).None? ==>
                var d := RateLimit.Decide(old(registry.stores), old(registry.lastCleanup), IrropsLimiter,
                                          RateLimit.GetClientIp(headers), now);
                && registry.stores == d.stores && registry.lastCleanup == d.lastCleanup
                && (d.limited ==> start == Respond(Response(429, "", Error("Rate limited \U{2014} try again shortly")))
                                  && State() == old(State()))
                && (!d.limited ==> Begun(start, State()) == BeginStep(old(State()), now))
    {
      var gate := Gate(httpMethod, origin);
      if gate.Some? {
        return Respond(gate.value);
      }
      var limited := registry.IsRateLimited(IrropsLimiter, headers, now);
      if limited {
        return Respond(Response(429, "", Error("Rate limited \U{2014} try again shortly")));
      }
      if cached.Some? && now < cacheExpires {
        return Respond(Response(200, FreshCacheControl, Metrics(cached.value, true, false)));
      }
      if fetching {
        return Join;
      }
      fetching := true;
      start := StartBuild;
    }

    /** `buildIrropsData()`: the hub loop, then `computeMetrics`. */
    method BuildIrropsData(upstream: Upstream, clock: nat -> int, local: (string, int) -> LocalTime)
      returns (result: IrropsResult)
      modifies this
      ensures var b := Build(old(hubCache), upstream, clock, local);
              hubCache == b.cache && result == IrropsMetrics.Metrics(b.byHub)
      ensures State() == old(State())
    {
      var byHub, newCache := CollectHubFlights(hubCache, upstream, clock, local);
      hubCache := newCache;
      result := ComputeMetrics(byHub);
    }

    /** `handler` after `await fetching`, for the request that started the build at `start`. */
    method Finish(start: int, outcome: Option<IrropsResult>) returns (response: Response)
      modifies this
      ensures Finished(response, State()) == FinishStep(old(State()), start, outcome)
      ensures hubCache == old(hubCache)
    {
      fetching := false;
      if outcome.Some? {
        cached := outcome;
        cacheExpires := start + CacheTtlMs;
        return Response(200, FreshCacheControl, Metrics(outcome.value, false, false));
      }
      if cached.Some? {
        return Response(200, StaleCacheControl, Metrics(cached.value, true, true));
      }
      return Response(502, "", Error(FailureMessage));
    }

    /** One request with no other request interleaved: a build it starts runs to its
        end before the response. `pending` is the outcome of a build started by an
        earlier request still in flight, which a joining request awaits. */
    method Handle(httpMethod: string, origin: string, headers: RateLimit.Headers, now: int,
                  upstream: Upstream, clock: nat -> int, local: (string, int) -> LocalTime,
                  pending: Option<IrropsResult>)
      returns (response: Response)
      requires Valid()
      modifies this, registry
      ensures Valid()
      ensures Gate(httpMethod, origin).Some? ==>
                registry.stores == old(registry.stores) && registry.lastCleanup == old(registry.lastCleanup)
      ensures Gate(httpMethod, origin).None? ==>
                var d := RateLimit.Decide(old(registry.stores), old(registry.lastCleanup), IrropsLimiter,
                                          RateLimit.GetClientIp(headers), now);
                && registry.stores == d.stores && registry.lastCleanup == d.lastCleanup
                && Handled(response, State(), hubCache)
                   == HandleStep(old(State()), old(hubCache), httpMethod, origin, d.limited, now, upstream, clock, local, pending)
      ensures Gate(httpMethod, origin).Some? ==>
                Handled(response, State(), hubCache)
                == HandleStep(old(State()), old(hubCache), httpMethod, origin, false, now, upstream, clock, local, pending)
    {
      var start := Begin(httpMethod, origin, headers, now);
      match start
      case Respond(r) =>
        response := r;
      case Join =>
        response := JoinStep(pending);
      case StartBuild =>
        var result := BuildIrropsData(upstream, clock, local);
        response := Finish(now, Some(result));
    }
  }
}
