/** The per-client request log shared by the three in-memory rate limiters
    (`api/_rate-limit.js`, `api/flight-times.js`, `api/fr24-flight.js`): an array of
    millisecond timestamps whose stale head is shifted off before each decision, and
    a periodic sweep that drops clients whose log has emptied. */
module SlidingWindow {

  /** Length of the window, in milliseconds (`60_000`). */
  const WindowMs := 60000

  /** Minimum time between two sweeps, in milliseconds (`300_000`). */
  const SweepIntervalMs := 300000

  /** `while (log.length && log[0] < cutoff) log.shift()`: the log without its run of
      leading entries older than `cutoff`. */
  function DropStale(log: seq<int>, cutoff: int): (r: seq<int>)
    ensures |r| <= |log|
    ensures r == [] || r[0] >= cutoff
  {
    if |log| > 0 && log[0] < cutoff then DropStale(log[1..], cutoff) else log
  }

  /** Eviction removes a prefix, and only entries older than the cutoff. */
  lemma {:induction false} DropStaleSuffix(log: seq<int>, cutoff: int)
    ensures DropStale(log, cutoff) == log[|log| - |DropStale(log, cutoff)|..]
    ensures forall i :: 0 <= i < |log| - |DropStale(log, cutoff)| ==> log[i] < cutoff
  {
    if |log| > 0 && log[0] < cutoff {
      DropStaleSuffix(log[1..], cutoff);
      assert log[1..][|log| - 1 - |DropStale(log, cutoff)|..] == log[|log| - |DropStale(log, cutoff)|..];
    }
  }

  /** The shifting loop itself. */
  method Evict(log: seq<int>, cutoff: int) returns (r: seq<int>)
    ensures r == DropStale(log, cutoff)
  {
    r := log;
    while |r| > 0 && r[0] < cutoff
      invariant DropStale(r, cutoff) == DropStale(log, cutoff)
      decreases |r|
    {
      r := r[1..];
    }
  }

  ghost predicate Sorted(log: seq<int>) {
    forall i, j :: 0 <= i < j < |log| ==> log[i] <= log[j]
  }

  /** In a log kept in time order, nothing older than the cutoff survives eviction. */
  lemma {:induction false} DropStaleSorted(log: seq<int>, cutoff: int)
    requires Sorted(log)
    ensures Sorted(DropStale(log, cutoff))
    ensures forall i :: 0 <= i < |DropStale(log, cutoff)| ==> DropStale(log, cutoff)[i] >= cutoff
  {
    var r := DropStale(log, cutoff);
    DropStaleSuffix(log, cutoff);
    if r != [] {
      forall i | 0 <= i < |r| ensures r[i] >= cutoff {
        assert r[i] == log[|log| - |r| + i] && r[0] == log[|log| - |r|];
      }
    }
  }

  /** No entry is stale: eviction leaves the log as it is. */
  lemma DropNothing(log: seq<int>, cutoff: int)
    requires forall i :: 0 <= i < |log| ==> log[i] >= cutoff
    ensures DropStale(log, cutoff) == log
  {
  }

  datatype Admission = Admission(limited: bool, log: seq<int>)

  /** One decision of a limiter allowing `max` calls per window: evict, refuse when
      the log is full (without recording the call), otherwise record `now`. */
  function Admit(log: seq<int>, now: int, max: nat): (a: Admission)
    ensures a.limited <==> |DropStale(log, now - WindowMs)| >= max
    ensures a.limited ==> a.log == DropStale(log, now - WindowMs)
    ensures !a.limited ==> a.log == DropStale(log, now - WindowMs) + [now]
  {
    var kept := DropStale(log, now - WindowMs);
    if |kept| >= max then Admission(true, kept) else Admission(false, kept + [now])
  }

  /** A refused call never lengthens the log, and an admitted one leaves at most `max`
      entries: a log never grows past `max`. */
  lemma AdmitBounded(log: seq<int>, now: int, max: nat)
    ensures |Admit(log, now, max).log| <= if |log| > max then |log| else max
  {
  }

  /** When the clock does not run backwards, the log stays in time order and holds
      only entries from the last window. */
  lemma AdmitKeepsWindow(log: seq<int>, now: int, max: nat)
    requires Sorted(log)
    requires forall i :: 0 <= i < |log| ==> log[i] <= now
    ensures Sorted(Admit(log, now, max).log)
    ensures forall i :: 0 <= i < |Admit(log, now, max).log| ==>
              now - WindowMs <= Admit(log, now, max).log[i] <= now
  {
    var kept := DropStale(log, now - WindowMs);
    DropStaleSorted(log, now - WindowMs);
    DropStaleSuffix(log, now - WindowMs);
    forall i | 0 <= i < |kept| ensures kept[i] <= now {
      assert kept[i] == log[|log| - |kept| + i];
    }
    if |kept| < max {
      var l := kept + [now];
      forall i, j | 0 <= i < j < |l| ensures l[i] <= l[j] {
        if j < |kept| { assert l[i] == kept[i] && l[j] == kept[j]; }
      }
    }
  }

  /** The decisions a limiter makes for calls at the given times, starting from `log`. */
  function Replay(log: seq<int>, times: seq<int>, max: nat): (limited: seq<bool>)
    ensures |limited| == |times|
    decreases |times|
  {
    if times == [] then []
    else
      var a := Admit(log, times[0], max);
      [a.limited] + Replay(a.log, times[1..], max)
  }

  /** Calls that all fall within one window of the last of them: starting from a log
      of `|log|` recent entries, call `k` is refused exactly when `|log| + k >= max`.
      With an empty log, the first `max` calls pass and every later one is refused. */
  lemma {:induction false} BurstWithinWindow(log: seq<int>, times: seq<int>, max: nat)
    requires times != []
    requires forall i, j :: 0 <= i < j < |times| ==> times[i] <= times[j]
    requires forall i :: 0 <= i < |times| ==> times[i] >= times[|times| - 1] - WindowMs
    requires forall i :: 0 <= i < |log| ==> log[i] >= times[|times| - 1] - WindowMs
    ensures forall k :: 0 <= k < |times| ==> Replay(log, times, max)[k] == (|log| + k >= max)
    decreases |times|
  {
    var last := times[|times| - 1];
    DropNothing(log, times[0] - WindowMs);
    var a := Admit(log, times[0], max);
    if |times| > 1 {
      var rest := times[1..];
      assert rest[|rest| - 1] == last;
      assert forall i :: 0 <= i < |a.log| ==> a.log[i] >= last - WindowMs;
      BurstWithinWindow(a.log, rest, max);
      forall k | 0 < k < |times|
        ensures Replay(log, times, max)[k] == (|log| + k >= max)
      {
        assert Replay(log, times, max)[k] == Replay(a.log, rest, max)[k - 1];
      }
    }
  }

  /** The sweep of one store: every log loses its stale head, and clients whose log
      is then empty are deleted. */
  function SweepStore(store: map<string, seq<int>>, cutoff: int): (r: map<string, seq<int>>)
    ensures r.Keys <= store.Keys
    ensures forall k :: k in store && k !in r ==> DropStale(store[k], cutoff) == []
  {
    map k | k in store && DropStale(store[k], cutoff) != [] :: DropStale(store[k], cutoff)
  }

  /** The store part-way through the sweep: keys still `todo` are untouched. */
  function PartlySwept(store: map<string, seq<int>>, todo: set<string>, cutoff: int): map<string, seq<int>> {
    map k | k in store && (k in todo || DropStale(store[k], cutoff) != []) ::
      if k in todo then store[k] else DropStale(store[k], cutoff)
  }

  /** Sweeping one more key changes only that key's entry. */
  lemma SweepOneKey(store: map<string, seq<int>>, todo: set<string>, k: string, cutoff: int)
    requires k in todo && todo <= store.Keys
    ensures var before := PartlySwept(store, todo, cutoff);
            var v := DropStale(store[k], cutoff);
            PartlySwept(store, todo - {k}, cutoff) == if v == [] then before - {k} else before[k := v]
  {
    var before := PartlySwept(store, todo, cutoff);
    var v := DropStale(store[k], cutoff);
    var after := PartlySwept(store, todo - {k}, cutoff);
    var expected := if v == [] then before - {k} else before[k := v];
    forall x | x in after ensures x in expected && after[x] == expected[x] {
      if x != k { assert x in before; }
    }
    forall x | x in expected ensures x in after {
      if x != k { assert x in before; }
    }
  }

  /** `for (const [k, v] of s) { while (...) v.shift(); if (!v.length) s.delete(k); }` */
  method SweepStoreInPlace(store: map<string, seq<int>>, cutoff: int) returns (r: map<string, seq<int>>)
    ensures r == SweepStore(store, cutoff)
  {
    r := store;
    var todo := store.Keys;
    assert r == PartlySwept(store, todo, cutoff);
    while todo != {}
      invariant todo <= store.Keys
      invariant r == PartlySwept(store, todo, cutoff)
      decreases todo
    {
      var k :| k in todo;
      var v := Evict(r[k], cutoff);
      SweepOneKey(store, todo, k, cutoff);
      if v == [] {
        r := r - {k};
      } else {
        r := r[k := v];
      }
      todo := todo - {k};
    }
    assert r.Keys == SweepStore(store, cutoff).Keys;
  }

  /** A log holding a recent entry survives the sweep, with its recent part intact. */
  lemma SweepKeepsRecent(store: map<string, seq<int>>, cutoff: int, k: string)
    requires k in store && forall i :: 0 <= i < |store[k]| ==> store[k][i] >= cutoff
    requires store[k] != []
    ensures k in SweepStore(store, cutoff) && SweepStore(store, cutoff)[k] == store[k]
  {
    DropNothing(store[k], cutoff);
  }
}
