/** `api/_rate-limit.js`: named per-IP sliding-window limiters over one process-wide
    registry of stores, with a sweep of emptied IP logs at most every five minutes. */
module RateLimit {
  import opened Common
  import opened SlidingWindow

  /** A request header as Node delivers it: missing, one string, or a list of strings. */
  datatype HeaderValue = Absent | Text(s: string) | List(first: string, rest: seq<string>)

  /** The two headers the limiter reads; an absent `x-real-ip` is `""`. */
  datatype Headers = Headers(realIp: string, forwardedFor: HeaderValue)

  /** `Array.isArray(xff) ? xff[0] : (typeof xff === 'string' ? xff : '')` */
  function ForwardedRaw(v: HeaderValue): string {
    match v
    case Absent => ""
    case Text(s) => s
    case List(first, _) => first
  }

  /** `getClientIp`: `x-real-ip` when present, else the first comma-separated element
      of `x-forwarded-for`, trimmed, else `'unknown'`. Never the empty key. */
  function GetClientIp(h: Headers): (ip: string)
    ensures ip != ""
  {
    if h.realIp != "" then h.realIp
    else
      var first := Trim(Split(ForwardedRaw(h.forwardedFor), ',')[0]);
      if first != "" then first else "unknown"
  }

  /** With no `x-real-ip`, the client is the first forwarded address: the text
      before the first comma, at `k`, trimmed. */
  lemma ForwardedFirst(xff: string, k: nat)
    requires k < |xff| && xff[k] == ',' && ',' !in xff[..k] && Trim(xff[..k]) != ""
    ensures GetClientIp(Headers("", Text(xff))) == Trim(xff[..k])
  {
    assert xff == xff[..k] + [','] + xff[k + 1..];
    SplitFirstPart(xff[..k], xff[k + 1..], ',');
  }

  /** The header cases of `tests/rate-limit.test.js`: `x-real-ip` wins, and with no
      header at all the client is `'unknown'`. */
  lemma ClientIpExamples()
    ensures GetClientIp(Headers("100.0.0.1", Text("200.0.0.1"))) == "100.0.0.1"
    ensures GetClientIp(Headers("", Absent)) == "unknown"
  {
    assert Split("", ',') == [""];
  }

  /** The forwarded case of `tests/rate-limit.test.js`: the first of two addresses. */
  lemma ForwardedExample(xff: string)
    requires xff == "50.0.0.1, 60.0.0.1"
    ensures GetClientIp(Headers("", Text(xff))) == "50.0.0.1"
  {
    assert Trim(xff[..8]) == xff[..8] == "50.0.0.1";
    ForwardedFirst(xff, 8);
  }

  /** The closure `createRateLimiter(name, maxPerMinute)` returns. */
  datatype Limiter = Limiter(name: string, maxPerMinute: nat)

  /** Per endpoint name, per client IP, the timestamps of admitted calls. */
  type Stores = map<string, map<string, seq<int>>>

  /** The sweep across every store. */
  function SweepAll(stores: Stores, cutoff: int): (r: Stores)
    ensures r.Keys == stores.Keys
  {
    map n | n in stores :: SweepStore(stores[n], cutoff)
  }

  datatype Decision = Decision(limited: bool, stores: Stores, lastCleanup: int)

  /** What one call of `isRateLimited` decides and leaves behind. */
  function Decide(stores: Stores, lastCleanup: int, limiter: Limiter, ip: string, now: int): Decision
    requires limiter.name in stores
  {
    var store := stores[limiter.name];
    var log := if ip in store then store[ip] else [];
    var a := Admit(log, now, limiter.maxPerMinute);
    var recorded := stores[limiter.name := store[ip := a.log]];
    if a.limited then Decision(true, recorded, lastCleanup)
    else if now - lastCleanup > SweepIntervalMs then Decision(false, SweepAll(recorded, now - WindowMs), now)
    else Decision(false, recorded, lastCleanup)
  }

  /** The call is refused exactly when the client's log, once evicted, already holds
      `maxPerMinute` entries; a refused call is not recorded. */
  lemma DecideRefusesFullLog(stores: Stores, lastCleanup: int, limiter: Limiter, ip: string, now: int)
    requires limiter.name in stores
    ensures var log := if ip in stores[limiter.name] then stores[limiter.name][ip] else [];
            var d := Decide(stores, lastCleanup, limiter, ip, now);
            && (d.limited <==> |DropStale(log, now - WindowMs)| >= limiter.maxPerMinute)
            && (d.limited ==> d.stores[limiter.name][ip] == DropStale(log, now - WindowMs))
  {
  }

  /** The sweep runs at most once per five minutes, and only on an admitted call. */
  lemma DecideSweepSpacing(stores: Stores, lastCleanup: int, limiter: Limiter, ip: string, now: int)
    requires limiter.name in stores
    ensures var d := Decide(stores, lastCleanup, limiter, ip, now);
            d.lastCleanup == lastCleanup || (!d.limited && d.lastCleanup == now && now - lastCleanup > SweepIntervalMs)
  {
  }

  /** Another client's log, in this store or any other, is untouched except by the
      sweep, which only evicts its stale head and deletes it when that leaves it empty.
      Endpoints with different names, and different IPs, are counted independently. */
  lemma DecideIsolatesOthers(stores: Stores, lastCleanup: int, limiter: Limiter, ip: string, now: int,
                             name': string, ip': string)
    requires limiter.name in stores
    requires name' in stores && ip' in stores[name']
    requires name' != limiter.name || ip' != ip
    ensures var d := Decide(stores, lastCleanup, limiter, ip, now);
            var prior := stores[name'][ip'];
            && name' in d.stores
            && (ip' in d.stores[name'] ==> d.stores[name'][ip'] in {prior, DropStale(prior, now - WindowMs)})
            && (ip' !in d.stores[name'] ==> DropStale(prior, now - WindowMs) == [])
            && (d.lastCleanup == lastCleanup ==> ip' in d.stores[name'] && d.stores[name'][ip'] == prior)
  {
    var d := Decide(stores, lastCleanup, limiter, ip, now);
    var store := stores[limiter.name];
    var log := if ip in store then store[ip] else [];
    var a := Admit(log, now, limiter.maxPerMinute);
    var recorded := stores[limiter.name := store[ip := a.log]];
    assert recorded[name'][ip'] == stores[name'][ip'];
  }

  /** No log of a store grows beyond its limiter's maximum. */
  lemma DecideKeepsBound(stores: Stores, lastCleanup: int, limiter: Limiter, ip: string, now: int)
    requires limiter.name in stores
    requires forall k :: k in stores[limiter.name] ==> |stores[limiter.name][k]| <= limiter.maxPerMinute
    ensures var d := Decide(stores, lastCleanup, limiter, ip, now);
            forall k :: k in d.stores[limiter.name] ==> |d.stores[limiter.name][k]| <= limiter.maxPerMinute
  {
    var store := stores[limiter.name];
    var log := if ip in store then store[ip] else [];
    AdmitBounded(log, now, limiter.maxPerMinute);
  }

  /** The process-wide registry: `stores` and `lastCleanup`. */
  class Registry {
    var stores: Stores
    var lastCleanup: int

    /** Module load: no stores yet, and `lastCleanup` is the load time. */
    constructor (loadTime: int)
      ensures stores == map[] && lastCleanup == loadTime
    {
      stores := map[];
      lastCleanup := loadTime;
    }

    /** `createRateLimiter(name, maxPerMinute)`: creates the store for `name` unless
        one exists, so limiters created under one name share a store. */
    method CreateRateLimiter(name: string, maxPerMinute: nat) returns (limiter: Limiter)
      modifies this
      ensures limiter == Limiter(name, maxPerMinute)
      ensures name in stores
      ensures stores == if name in old(stores) then old(stores) else old(stores)[name := map[]]
      ensures lastCleanup == old(lastCleanup)
    {
      if name !in stores {
        stores := stores[name := map[]];
      }
      limiter := Limiter(name, maxPerMinute);
    }

    /** `isRateLimited(req)` of the limiter's closure, at time `now`. */
    method IsRateLimited(limiter: Limiter, headers: Headers, now: int) returns (limited: bool)
      requires limiter.name in stores
      modifies this
      ensures var d := Decide(old(stores), old(lastCleanup), limiter, GetClientIp(headers), now);
              limited == d.limited && stores == d.stores && lastCleanup == d.lastCleanup
      ensures limiter.name in stores
    {
      var ip := GetClientIp(headers);
      var prior := stores[limiter.name];
      var store := prior;
      if ip !in store {
        store := store[ip := []];
      }
      var log := Evict(store[ip], now - WindowMs);
      assert store[ip := log] == prior[ip := log];
      if |log| >= limiter.maxPerMinute {
        stores := stores[limiter.name := store[ip := log]];
        return true;
      }
      log := log + [now];
      assert store[ip := log] == prior[ip := log];
      stores := stores[limiter.name := store[ip := log]];
      if now - lastCleanup > SweepIntervalMs {
        lastCleanup := now;
        stores := SweepEveryStore(stores, now - WindowMs);
      }
      limited := false;
    }
  }

  /** `for (const [, s] of stores) ...`: the sweep of each store in turn. */
  method SweepEveryStore(stores: Stores, cutoff: int) returns (r: Stores)
    ensures r == SweepAll(stores, cutoff)
  {
    r := stores;
    var todo := stores.Keys;
    while todo != {}
      invariant todo <= stores.Keys && r.Keys == stores.Keys
      invariant forall n :: n in r ==> r[n] == if n in todo then stores[n] else SweepStore(stores[n], cutoff)
      decreases todo
    {
      var n :| n in todo;
      var swept := SweepStoreInPlace(r[n], cutoff);
      r := r[n := swept];
      todo := todo - {n};
    }
  }
}
