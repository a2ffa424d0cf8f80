/** `public/sw.js`: the service worker. It precaches the app shell on install,
    deletes every cache but the current one on activate, and answers fetches
    network-first (API data, `/data/` files and other origins) or cache-first
    (static assets), storing each fetched response in the current cache and
    trimming that cache to its 100 most recently stored requests.

    The browser's Cache Storage is modelled as an insertion-ordered map from
    cache name to cache, and each cache as an insertion-ordered map from request
    URL to response: `caches.keys()` and `cache.keys()` list in that order. */
module ServiceWorker {
  import opened Common
  import opened OrderedMaps

  const CacheName := "blueboard-v1"
  const MaxCacheEntries := 100

  /** Paths of the app shell, resolved against the worker's own origin. */
  const Precache := ["/", "/index.html"]

  datatype Url = Url(origin: string, pathname: string, search: string)

  /** The key a cache stores a request under. */
  function Href(u: Url): string {
    u.origin + u.pathname + u.search
  }

  datatype Request = Request(httpMethod: string, url: Url)

  datatype Response = Response(status: int, body: string)

  /** Whether `cache.put(request, response)` stores the pair: only for a GET, and
      never for a partial (206) response; otherwise the put rejects. */
  predicate PutAccepted(req: Request, res: Response) {
    req.httpMethod == "GET" && res.status != 206
  }

  /** `response.ok`. */
  predicate IsOk(r: Response) {
    200 <= r.status <= 299
  }

  type Cache = OrderedMap<string, Response>

  type Storage = OrderedMap<string, Cache>

  ghost predicate StorageValid(s: Storage) {
    s.Valid() && forall n :: n in s.entries ==> s.entries[n].Valid()
  }

  // ---------------------------------------------------------------------------
  // Cache Storage operations

  /** `caches.open(name)`: creates an empty cache when there is none by that name. */
  function Opened(s: Storage, name: string): (r: Storage)
    requires StorageValid(s)
    ensures StorageValid(r)
    ensures name in r.entries
    ensures name in s.entries ==> r == s
    ensures name !in s.entries ==> r.entries[name] == Empty()
    ensures forall n :: n in s.entries ==> n in r.entries && r.entries[n] == s.entries[n]
    ensures forall n :: n in r.entries && n != name ==> n in s.entries
  {
    if name in s.entries then s else Set(s, name, Empty())
  }

  /** `cache.put(request, response)`: an entry for the same URL is replaced, and the
      new entry becomes the most recently stored one. */
  function PutEntry(c: Cache, key: string, res: Response): (r: Cache)
    requires c.Valid()
    ensures r.Valid()
    ensures r.entries == c.entries[key := res]
    ensures r.order == Without(c.order, key) + [key]
  {
    Set(Delete(c, key), key, res)
  }

  /** The reference for `trimCache`: the `n` most recently stored entries of `c`,
      in the order they were stored. */
  function KeepNewest(c: Cache, n: nat): (r: Cache)
    requires c.Valid()
    ensures r.Valid()
    ensures r.Size() == if c.Size() <= n then c.Size() else n
    ensures r.order == c.order[c.Size() - r.Size()..]
    ensures forall k :: k in r.entries ==> k in c.entries && r.entries[k] == c.entries[k]
    ensures c.Size() <= n ==> r == c
  {
    if |c.order| <= n then c
    else
      var kept := c.order[|c.order| - n..];
      DistinctDrop(c.order, |c.order| - n);
      OrderedMap(kept, map k | k in kept :: c.entries[k])
  }

  /** The state `trimCache(name, n)` leaves behind. */
  function Trimmed(s: Storage, name: string, n: nat): (r: Storage)
    requires StorageValid(s)
    ensures StorageValid(r)
    ensures r.order == Opened(s, name).order
    ensures r.entries == Opened(s, name).entries[name := KeepNewest(Opened(s, name).entries[name], n)]
  {
    var o := Opened(s, name);
    Set(o, name, KeepNewest(o.entries[name], n))
  }

  /** Dropping the oldest entry of a cache that is over the bound does not change
      which entries the bound keeps: the step `trimCache` repeats. */
  lemma KeepNewestAfterDeleteOldest(c: Cache, n: nat)
    requires c.Valid() && c.Size() > n
    ensures KeepNewest(DeleteOldest(c), n) == KeepNewest(c, n)
  {
    TailSuffix(c.order, n);
    SameKeysSameCache(KeepNewest(DeleteOldest(c), n), KeepNewest(c, n), c);
  }

  lemma TailSuffix<K>(s: seq<K>, n: nat)
    requires |s| > n
    ensures s[1..][|s| - 1 - n..] == s[|s| - n..]
  {
  }

  lemma SetTwice<V>(m: OrderedMap<string, V>, k: string, v1: V, v2: V)
    requires m.Valid()
    ensures Set(Set(m, k, v1), k, v2) == Set(m, k, v2)
  {
  }

  lemma SetSame<V>(m: OrderedMap<string, V>, k: string)
    requires m.Valid() && k in m.entries
    ensures Set(m, k, m.entries[k]) == m
  {
  }

  /** Two caches with the same order whose entries all agree with a third are equal. */
  lemma SameKeysSameCache(a: Cache, b: Cache, c: Cache)
    requires a.Valid() && b.Valid() && a.order == b.order
    requires forall k :: k in a.entries ==> k in c.entries && a.entries[k] == c.entries[k]
    requires forall k :: k in b.entries ==> k in c.entries && b.entries[k] == c.entries[k]
    ensures a == b
  {
    forall k
      ensures k in a.entries <==> k in b.entries
    {
      assert k in a.entries <==> k in a.order;
    }
    assert a.entries == b.entries;
  }

  /** The cache named `name` keeps exactly its `n` newest entries, in order, and
      every other cache is untouched. */
  lemma TrimmedKeepsNewest(s: Storage, name: string, n: nat)
    requires StorageValid(s)
    ensures var r := Trimmed(s, name, n);
            && name in r.entries && r.entries[name].Size() <= n
            && (name in s.entries ==>
                  && r.order == s.order
                  && r.entries[name].order == s.entries[name].order[s.entries[name].Size() - r.entries[name].Size()..])
            && (forall m :: m in s.entries && m != name ==> m in r.entries && r.entries[m] == s.entries[m])
            && (forall m :: m in r.entries && m != name ==> m in s.entries)
  {
  }

  /** The newest `n` entries of a fresh put include the put itself. */
  lemma PutThenKeepNewest(c: Cache, key: string, res: Response, n: nat)
    requires c.Valid() && n >= 1
    ensures var r := KeepNewest(PutEntry(c, key, res), n);
            key in r.entries && r.entries[key] == res && r.Size() <= n && r.order[r.Size() - 1] == key
  {
    var p := PutEntry(c, key, res);
    var r := KeepNewest(p, n);
    assert p.order[p.Size() - 1] == key;
    assert r.order[r.Size() - 1] == p.order[p.Size() - 1];
  }

  /** `caches.match(request)`, restricted to the caches named in `names`: the first
      of them, in order, that holds the request's URL answers. */
  function FirstHit(s: Storage, names: seq<string>, key: string): (r: Option<Response>)
    requires forall n :: n in names ==> n in s.entries
  {
    if names == [] then None
    else if key in s.entries[names[0]].entries then Some(s.entries[names[0]].entries[key])
    else FirstHit(s, names[1..], key)
  }

  /** A hit comes from the first cache holding the URL; a miss means none holds it. */
  lemma {:induction false} FirstHitIsFirst(s: Storage, names: seq<string>, key: string)
    requires forall n :: n in names ==> n in s.entries
    ensures FirstHit(s, names, key).None? <==>
              forall i :: 0 <= i < |names| ==> key !in s.entries[names[i]].entries
    ensures FirstHit(s, names, key).Some? ==>
              exists i :: 0 <= i < |names|
                && key in s.entries[names[i]].entries
                && FirstHit(s, names, key).value == s.entries[names[i]].entries[key]
                && forall j :: 0 <= j < i ==> key !in s.entries[names[j]].entries
  {
    if names != [] {
      FirstHitIsFirst(s, names[1..], key);
      if key !in s.entries[names[0]].entries {
        if FirstHit(s, names[1..], key).Some? {
          var i :| 0 <= i < |names[1..]|
                   && key in s.entries[names[1..][i]].entries
                   && FirstHit(s, names[1..], key).value == s.entries[names[1..][i]].entries[key]
                   && forall j :: 0 <= j < i ==> key !in s.entries[names[1..][j]].entries;
          assert forall j :: 0 <= j < i + 1 ==> key !in s.entries[names[j]].entries by {
            forall j | 0 <= j < i + 1 ensures key !in s.entries[names[j]].entries {
              if j > 0 { assert names[j] == names[1..][j - 1]; }
            }
          }
          assert names[i + 1] == names[1..][i];
        }
        assert forall i :: 0 < i < |names| ==> names[i] == names[1..][i - 1];
      }
    }
  }

  /** `caches.match(request)`: searched across every cache in creation order; only
      GET requests are matched. */
  function Match(s: Storage, req: Request): Option<Response>
    requires StorageValid(s)
  {
    if req.httpMethod != "GET" then None
    else FirstHit(s, s.order, Href(req.url))
  }

  /** Once only the current cache is left, `caches.match` answers from it alone. */
  lemma MatchCurrentCache(s: Storage, req: Request)
    requires StorageValid(s) && s.entries.Keys <= {CacheName}
    ensures Match(s, req).Some? <==>
              req.httpMethod == "GET" && CacheName in s.entries && Href(req.url) in s.entries[CacheName].entries
    ensures Match(s, req).Some? ==> Match(s, req).value == s.entries[CacheName].entries[Href(req.url)]
  {
    if req.httpMethod == "GET" {
      var key := Href(req.url);
      FirstHitIsFirst(s, s.order, key);
      assert s.entries.Keys == set k | k in s.order;
      if FirstHit(s, s.order, key).Some? {
        var i :| 0 <= i < |s.order| && key in s.entries[s.order[i]].entries
                 && FirstHit(s, s.order, key).value == s.entries[s.order[i]].entries[key];
        assert s.order[i] in s.order;
        assert s.order[i] == CacheName;
      } else if CacheName in s.entries {
        assert CacheName in s.order;
        var i :| 0 <= i < |s.order| && s.order[i] == CacheName;
        assert key !in s.entries[s.order[i]].entries;
      }
    }
  }

  // ---------------------------------------------------------------------------
  // Event steps

  /** After a fetched response: `cache.put` into the current cache, then
      `trimCache`. A put that rejects (a non-GET request or a 206 response) also
      skips the trim; the cache was still opened. */
  function Refresh(s: Storage, req: Request, res: Response): (r: Storage)
    requires StorageValid(s)
    ensures StorageValid(r)
    ensures CacheName in r.entries
    ensures !PutAccepted(req, res) ==> r == Opened(s, CacheName)
  {
    var o := Opened(s, CacheName);
    if !PutAccepted(req, res) then o
    else
      var p := Set(o, CacheName, PutEntry(o.entries[CacheName], Href(req.url), res));
      assert Opened(p, CacheName) == p;
      Trimmed(p, CacheName, MaxCacheEntries)
  }

  /** The route the fetch listener picks. */
  predicate NetworkFirst(u: Url, selfOrigin: string) {
    u.origin != selfOrigin || StartsWith(u.pathname, "/api/") || StartsWith(u.pathname, "/data/")
  }

  /** What `respondWith` receives: a response, `undefined` (an offline miss), or a
      rejected promise (a cache-first miss while offline). */
  datatype Answer = Respond(res: Response) | Nothing | Rejected

  datatype Fetched = Fetched(answer: Answer, storage: Storage)

  /** The fetch listener. `network` is what `fetch(request)` settles to: a
      response (of any status) or a rejection (`None`). */
  function FetchStep(s: Storage, req: Request, selfOrigin: string, network: Option<Response>): (r: Fetched)
    requires StorageValid(s)
    ensures StorageValid(r.storage)
  {
    if NetworkFirst(req.url, selfOrigin) then
      match network
      case Some(res) => Fetched(Respond(res), Refresh(s, req, res))
      case None =>
        match Match(s, req)
        case Some(hit) => Fetched(Respond(hit), s)
        case None => Fetched(Nothing, s)
    else
      match Match(s, req)
      case Some(hit) => Fetched(Respond(hit), s)
      case None =>
        match network
        case Some(res) => Fetched(Respond(res), Refresh(s, req, res))
        case None => Fetched(Rejected, s)
  }

  /** Every route through the fetch listener, stated case by case. */
  lemma FetchRoutes(s: Storage, req: Request, selfOrigin: string, network: Option<Response>)
    requires StorageValid(s)
    ensures var r := FetchStep(s, req, selfOrigin, network);
            && (NetworkFirst(req.url, selfOrigin) && network.Some? ==>
                  r.answer == Respond(network.value))
            && (NetworkFirst(req.url, selfOrigin) && network.None? ==>
                  r.storage == s && (r.answer.Nothing? <==> Match(s, req).None?))
            && (!NetworkFirst(req.url, selfOrigin) && Match(s, req).Some? ==>
                  r == Fetched(Respond(Match(s, req).value), s))
            && (!NetworkFirst(req.url, selfOrigin) && Match(s, req).None? ==>
                  (r.answer.Rejected? <==> network.None?))
            && (r.answer.Nothing? ==> NetworkFirst(req.url, selfOrigin))
            && (r.answer.Rejected? ==> !NetworkFirst(req.url, selfOrigin))
  {
  }

  /** Routing examples: same-origin API and data files go to the network first,
      any other same-origin path to the cache first, and every other origin to the
      network first. */
  lemma RoutingExamples(self: string, other: string, rest: string)
    requires other != self
    ensures NetworkFirst(Url(self, "/api/" + rest, ""), self)
    ensures NetworkFirst(Url(self, "/data/" + rest, ""), self)
    ensures NetworkFirst(Url(other, "/index.html", ""), self)
    ensures !NetworkFirst(Url(self, "/index.html", ""), self)
    ensures !NetworkFirst(Url(self, "/", ""), self)
  {
    assert ("/api/" + rest)[..5] == "/api/";
    assert ("/data/" + rest)[..6] == "/data/";
    assert "/index.html"[..5][1] != "/api/"[1];
    assert "/index.html"[..6][1] != "/data/"[1];
    assert "/"[..1] == "/";
  }

  /** `after` holds `res` under `key` in the current cache as its newest entry, the
      current cache holds at most 100 entries, and every other cache is as in
      `before`. */
  predicate StoredNewest(before: Storage, after: Storage, key: string, res: Response) {
    && CacheName in after.entries
    && key in after.entries[CacheName].entries
    && after.entries[CacheName].entries[key] == res
    && after.entries[CacheName].Size() <= MaxCacheEntries
    && 0 < after.entries[CacheName].Size()
    && after.entries[CacheName].order[after.entries[CacheName].Size() - 1] == key
    && (forall m :: m in before.entries && m != CacheName ==> m in after.entries && after.entries[m] == before.entries[m])
    && (forall m :: m in after.entries && m != CacheName ==> m in before.entries)
  }

  /** A response fetched for a GET request is stored in the current cache as its
      newest entry, the current cache never holds more than 100 entries after the
      trim, and every other cache is untouched. */
  lemma FetchedResponseIsStored(s: Storage, req: Request, selfOrigin: string, res: Response)
    requires StorageValid(s) && PutAccepted(req, res)
    requires NetworkFirst(req.url, selfOrigin) || Match(s, req).None?
    ensures StoredNewest(s, FetchStep(s, req, selfOrigin, Some(res)).storage, Href(req.url), res)
  {
    assert FetchStep(s, req, selfOrigin, Some(res)).storage == Refresh(s, req, res);
    RefreshStores(s, req, res);
  }

  lemma RefreshStores(s: Storage, req: Request, res: Response)
    requires StorageValid(s) && PutAccepted(req, res)
    ensures StoredNewest(s, Refresh(s, req, res), Href(req.url), res)
  {
    RefreshStoresCurrent(s, req, res);
    RefreshKeepsOthers(s, req, res);
  }

  lemma RefreshStoresCurrent(s: Storage, req: Request, res: Response)
    requires StorageValid(s) && PutAccepted(req, res)
    ensures var c := Refresh(s, req, res).entries[CacheName];
            && Href(req.url) in c.entries && c.entries[Href(req.url)] == res
            && c.Size() <= MaxCacheEntries && c.order[c.Size() - 1] == Href(req.url)
  {
    var before := Opened(s, CacheName).entries[CacheName];
    RefreshCurrentCache(s, req, res);
    PutThenKeepNewest(before, Href(req.url), res, MaxCacheEntries);
  }

  /** For a GET, the current cache after the refresh is the put followed by the trim
      to the newest 100 entries. */
  lemma RefreshCurrentCache(s: Storage, req: Request, res: Response)
    requires StorageValid(s) && PutAccepted(req, res)
    ensures Refresh(s, req, res).entries[CacheName] ==
              KeepNewest(PutEntry(Opened(s, CacheName).entries[CacheName], Href(req.url), res), MaxCacheEntries)
  {
    var o := Opened(s, CacheName);
    var p := Set(o, CacheName, PutEntry(o.entries[CacheName], Href(req.url), res));
    assert Opened(p, CacheName) == p;
    assert p.entries[CacheName] == PutEntry(o.entries[CacheName], Href(req.url), res);
  }

  lemma RefreshKeepsOthers(s: Storage, req: Request, res: Response)
    requires StorageValid(s)
    ensures var r := Refresh(s, req, res);
            && (forall m :: m in s.entries && m != CacheName ==> m in r.entries && r.entries[m] == s.entries[m])
            && (forall m :: m in r.entries && m != CacheName ==> m in s.entries)
  {
    var o := Opened(s, CacheName);
    if PutAccepted(req, res) {
      var p := Set(o, CacheName, PutEntry(o.entries[CacheName], Href(req.url), res));
      assert Refresh(s, req, res) == Trimmed(p, CacheName, MaxCacheEntries);
      assert p.entries == o.entries[CacheName := PutEntry(o.entries[CacheName], Href(req.url), res)];
      TrimmedKeepsNewest(p, CacheName, MaxCacheEntries);
    }
  }

  /** Once activation has left only the current cache, a GET answered by the network
      is answered again, offline, with the same response. */
  lemma OfflineReplaysLastResponse(s: Storage, req: Request, selfOrigin: string, res: Response)
    requires StorageValid(s) && s.entries.Keys <= {CacheName}
    requires PutAccepted(req, res) && NetworkFirst(req.url, selfOrigin)
    ensures var online := FetchStep(s, req, selfOrigin, Some(res));
            FetchStep(online.storage, req, selfOrigin, None).answer == Respond(res)
  {
    var online := FetchStep(s, req, selfOrigin, Some(res));
    FetchedResponseIsStored(s, req, selfOrigin, res);
    assert online.storage.entries.Keys <= {CacheName};
    MatchCurrentCache(online.storage, req);
  }

  /** `cache.addAll(PRECACHE)`: every request is fetched first; if any fetch rejects
      or answers with a status outside 200-299, nothing is stored. */
  function PutAll(c: Cache, keys: seq<string>, net: string -> Option<Response>): (r: Cache)
    requires c.Valid()
    requires forall k :: k in keys ==> net(k).Some?
    ensures r.Valid()
    ensures forall k :: k in keys ==> k in r.entries && r.entries[k] == net(k).value
    ensures forall k :: k in c.entries ==> k in r.entries
    ensures forall k :: k in r.entries && k !in keys ==> k in c.entries && r.entries[k] == c.entries[k]
    decreases |keys|
  {
    if keys == [] then c
    else PutAll(PutEntry(c, keys[0], net(keys[0]).value), keys[1..], net)
  }

  /** `addAll` stores only when every fetch gave an ok response that is not a
      partial (206) one. */
  predicate AllFetched(keys: seq<string>, net: string -> Option<Response>) {
    forall k :: k in keys ==> net(k).Some? && IsOk(net(k).value) && net(k).value.status != 206
  }

  function PrecacheKeys(selfOrigin: string): seq<string> {
    [selfOrigin + Precache[0], selfOrigin + Precache[1]]
  }

  /** The install listener: open the current cache and add the app shell. */
  function InstallStep(s: Storage, selfOrigin: string, net: string -> Option<Response>): (r: Storage)
    requires StorageValid(s)
    ensures StorageValid(r)
    ensures CacheName in r.entries
    ensures forall m :: m in s.entries && m != CacheName ==> m in r.entries && r.entries[m] == s.entries[m]
    ensures AllFetched(PrecacheKeys(selfOrigin), net) ==>
              forall k :: k in PrecacheKeys(selfOrigin) ==>
                k in r.entries[CacheName].entries && r.entries[CacheName].entries[k] == net(k).value
    ensures !AllFetched(PrecacheKeys(selfOrigin), net) ==> r == Opened(s, CacheName)
  {
    var o := Opened(s, CacheName);
    var keys := PrecacheKeys(selfOrigin);
    if AllFetched(keys, net) then Set(o, CacheName, PutAll(o.entries[CacheName], keys, net))
    else o
  }

  /** The activate listener's result, stated by what survives: the current cache
      exactly when it was there before, unchanged, and no other cache. */
  ghost predicate IsActivated(old_: Storage, s: Storage) {
    && s.entries.Keys <= {CacheName}
    && (CacheName in s.entries <==> CacheName in old_.entries)
    && (CacheName in old_.entries ==> s.entries[CacheName] == old_.entries[CacheName])
  }

  /** After a successful install, the current cache holds every app-shell page. */
  lemma InstallHoldsShell(s: Storage, selfOrigin: string, net: string -> Option<Response>, i: nat)
    requires StorageValid(s) && i < |Precache| && AllFetched(PrecacheKeys(selfOrigin), net)
    ensures var c := InstallStep(s, selfOrigin, net).entries[CacheName];
            var key := PrecacheKeys(selfOrigin)[i];
            key in c.entries && c.entries[key] == net(key).value
  {
    assert PrecacheKeys(selfOrigin)[i] in PrecacheKeys(selfOrigin);
  }

  /** After install and activation, a same-origin app-shell page is served from the
      cache without the network, which is what lets the app start offline. */
  lemma ShellServedOffline(s: Storage, a: Storage, selfOrigin: string, net: string -> Option<Response>, i: nat)
    requires StorageValid(s) && StorageValid(a) && i < |Precache|
    requires AllFetched(PrecacheKeys(selfOrigin), net)
    requires IsActivated(InstallStep(s, selfOrigin, net), a)
    ensures var req := Request("GET", Url(selfOrigin, Precache[i], ""));
            FetchStep(a, req, selfOrigin, None).answer == Respond(net(PrecacheKeys(selfOrigin)[i]).value)
  {
    var req := Request("GET", Url(selfOrigin, Precache[i], ""));
    assert Href(req.url) == PrecacheKeys(selfOrigin)[i];
    InstallHoldsShell(s, selfOrigin, net, i);
    RoutingExamples(selfOrigin, selfOrigin + "x", "");
    MatchCurrentCache(a, req);
  }

  /** `caches.delete(name)` keeps the storage well formed and every other cache. */
  lemma DeleteCache(s: Storage, name: string)
    requires StorageValid(s)
    ensures StorageValid(Delete(s, name))
    ensures name !in Delete(s, name).entries
    ensures forall n :: n in Delete(s, name).entries ==> n in s.entries && Delete(s, name).entries[n] == s.entries[n]
  {
  }

  /** Every cache of `s` is a cache of `s0`, unchanged. */
  ghost predicate Within(s: Storage, s0: Storage) {
    forall n :: n in s.entries ==> n in s0.entries && s.entries[n] == s0.entries[n]
  }

  /** The first `i` names, other than the current cache's, are gone from `s`. */
  predicate Cleared(s: Storage, names: seq<string>, i: nat)
    requires i <= |names|
  {
    forall j :: 0 <= j < i && names[j] != CacheName ==> names[j] !in s.entries
  }

  /** One turn of the activate loop: deleting `names[i]` unless it is the current
      cache keeps the storage within the original and clears one more name. */
  lemma ActivateStep(s0: Storage, s: Storage, names: seq<string>, i: nat)
    requires StorageValid(s) && Within(s, s0) && i < |names| && Cleared(s, names, i)
    requires CacheName in s0.entries ==> CacheName in s.entries
    ensures var t := if names[i] != CacheName then Delete(s, names[i]) else s;
            && StorageValid(t) && Within(t, s0) && Cleared(t, names, i + 1)
            && (CacheName in s0.entries ==> CacheName in t.entries)
  {
    DeleteCache(s, names[i]);
  }

  /** Once every name of the original storage has been cleared, only the current
      cache can be left, and it is the one the storage began with. */
  lemma ClearedAll(s0: Storage, s: Storage)
    requires StorageValid(s0) && Within(s, s0) && Cleared(s, s0.order, |s0.order|)
    requires CacheName in s0.entries ==> CacheName in s.entries
    ensures IsActivated(s0, s)
  {
    forall n | n in s.entries
      ensures n == CacheName
    {
      assert n in s0.order;
      var j :| 0 <= j < |s0.order| && s0.order[j] == n;
    }
  }

  // ---------------------------------------------------------------------------
  // The worker's Cache Storage as mutable state

  class CacheStorage {
    var storage: Storage

    ghost predicate Valid()
      reads this
    {
      StorageValid(storage)
    }

    constructor()
      ensures Valid() && storage == Empty()
    {
      storage := Empty();
    }

    /** `caches.open(name)`. */
    method Open(name: string)
      requires Valid()
      modifies this
      ensures Valid() && storage == Opened(old(storage), name)
    {
      if name !in storage.entries {
        storage := Set(storage, name, Empty());
      }
    }

    /** `trimCache(cacheName, maxEntries)`: while the cache holds more than
        `maxEntries` requests, delete the first of `cache.keys()` and start over. */
    method TrimCache(name: string, maxEntries: nat)
      requires Valid()
      modifies this
      ensures Valid() && storage == Trimmed(old(storage), name, maxEntries)
      decreases if name in storage.entries then storage.entries[name].Size() else 0
    {
      Open(name);
      ghost var afterOpen := storage;
      var cache := storage.entries[name];
      var keys := cache.order;
      if |keys| > maxEntries {
        storage := Set(storage, name, Delete(cache, keys[0]));
        assert storage.entries[name] == DeleteOldest(cache);
        TrimCache(name, maxEntries);
        KeepNewestAfterDeleteOldest(cache, maxEntries);
        SetTwice(afterOpen, name, DeleteOldest(cache), KeepNewest(cache, maxEntries));
      } else {
        SetSame(storage, name);
      }
    }

    /** `cache.put(request, response)` on the cache named `name`, opened first. */
    method Put(name: string, req: Request, res: Response)
      requires Valid()
      modifies this
      ensures Valid()
      ensures var o := Opened(old(storage), name);
              storage == if !PutAccepted(req, res) then o
                         else Set(o, name, PutEntry(o.entries[name], Href(req.url), res))
    {
      Open(name);
      if PutAccepted(req, res) {
        storage := Set(storage, name, PutEntry(storage.entries[name], Href(req.url), res));
      }
    }

    /** The fetch listener, with the background put and trim run to completion. */
    method OnFetch(req: Request, selfOrigin: string, network: Option<Response>) returns (answer: Answer)
      requires Valid()
      modifies this
      ensures Valid()
      ensures Fetched(answer, storage) == FetchStep(old(storage), req, selfOrigin, network)
    {
      var networkFirst := NetworkFirst(req.url, selfOrigin);
      var hit := Match(storage, req);
      if networkFirst || hit.None? {
        match network {
          case Some(res) =>
            answer := Respond(res);
            Put(CacheName, req, res);
            if PutAccepted(req, res) {
              TrimCache(CacheName, MaxCacheEntries);
            }
          case None =>
            answer := if !networkFirst then Rejected else if hit.Some? then Respond(hit.value) else Nothing;
        }
      } else {
        answer := Respond(hit.value);
      }
    }

    /** The install listener: `caches.open(CACHE_NAME)` and `cache.addAll(PRECACHE)`. */
    method Install(selfOrigin: string, net: string -> Option<Response>)
      requires Valid()
      modifies this
      ensures Valid() && storage == InstallStep(old(storage), selfOrigin, net)
    {
      Open(CacheName);
      var keys := PrecacheKeys(selfOrigin);
      if AllFetched(keys, net) {
        storage := Set(storage, CacheName, PutAll(storage.entries[CacheName], keys, net));
      }
    }

    /** The activate listener: every cache named in `caches.keys()` other than the
        current one is deleted. */
    method Activate()
      requires Valid()
      modifies this
      ensures Valid() && IsActivated(old(storage), storage)
    {
      var names := storage.order;
      var i := 0;
      while i < |names|
        invariant 0 <= i <= |names|
        invariant Valid()
        invariant Within(storage, old(storage))
        invariant CacheName in old(storage).entries ==> CacheName in storage.entries
        invariant Cleared(storage, names, i)
      {
        ActivateStep(old(storage), storage, names, i);
        if names[i] != CacheName {
          storage := Delete(storage, names[i]);
        }
        i := i + 1;
      }
      ClearedAll(old(storage), storage);
    }
  }
}
