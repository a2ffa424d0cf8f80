/** `api/irrops.js`, `computeMetrics`: per-hub and network-wide disruption counters,
    the IRROPS score and the eight worst delays. The per-hub counters and the
    network-wide delay counters follow different rules, as in the code. */
module IrropsMetrics {
  import opened Common
  import opened IrropsFetch

  // ---------------------------------------------------------------------------
  // Classifying one flight

  /** `fl.status?.generic?.status?.text?.toLowerCase() || ''`. */
  function Status(fl: Flight): string {
    ToLower(fl.statusText)
  }

  predicate IsCancelled(fl: Flight) {
    Status(fl) == "canceled" || Status(fl) == "cancelled"
  }

  predicate IsDiverted(fl: Flight) {
    Status(fl) == "diverted"
  }

  /** `hasOperated`: the status says the aircraft has left the gate. */
  predicate HasOperated(fl: Flight) {
    var s := Status(fl);
    s == "departed" || s == "en-route" || s == "landed" || s == "diverted"
  }

  /** `Math.round(late / 60)` for a positive number of seconds `late`. */
  function DelayMinutes(late: int): (m: int)
    requires late > 0
    ensures 60 * m - 30 <= late < 60 * m + 30
  {
    (late + 30) / 60
  }

  /** Per hub: `actDep = realDep || (hasOperated ? estDep : null)`. */
  function HubActual(fl: Flight): int {
    if fl.realDep != 0 then fl.realDep else if HasOperated(fl) then fl.estDep else 0
  }

  /** Per hub: a flight counted in `operated` (not cancelled, has operated or has a
      real departure time, and has some departure time). */
  predicate HubOperated(fl: Flight) {
    !IsCancelled(fl) && (HasOperated(fl) || fl.realDep != 0) && HubActual(fl) != 0
  }

  predicate HubLate(fl: Flight, minutes: int) {
    && HubOperated(fl) && fl.schedDep != 0 && HubActual(fl) > fl.schedDep
    && DelayMinutes(HubActual(fl) - fl.schedDep) > minutes
  }

  predicate HubLate30(fl: Flight) { HubLate(fl, 30) }

  predicate HubLate60(fl: Flight) { HubLate(fl, 60) }

  /** Per hub: operated and not more than 30 minutes late (or with no scheduled time,
      or not late at all). */
  predicate HubOnTime(fl: Flight) {
    HubOperated(fl) && !HubLate30(fl)
  }

  /** Network-wide: `actT = real || estimated || 0`, whatever the status. */
  function NetActual(fl: Flight): int {
    if fl.realDep != 0 then fl.realDep else fl.estDep
  }

  predicate NetLate(fl: Flight, minutes: int) {
    && fl.schedDep != 0 && NetActual(fl) != 0 && NetActual(fl) > fl.schedDep
    && DelayMinutes(NetActual(fl) - fl.schedDep) > minutes
  }

  predicate NetLate30(fl: Flight) { NetLate(fl, 30) }

  predicate NetLate60(fl: Flight) { NetLate(fl, 60) }

  // ---------------------------------------------------------------------------
  // Counting

  /** The kinds of flight the counters count. */
  datatype FlightClass =
    | CancelledFlight | DivertedFlight
    | HubOperatedFlight | HubOnTimeFlight | HubLate30Flight | HubLate60Flight
    | NetLate30Flight | NetLate60Flight

  predicate Holds(c: FlightClass, fl: Flight) {
    match c
    case CancelledFlight => IsCancelled(fl)
    case DivertedFlight => IsDiverted(fl)
    case HubOperatedFlight => HubOperated(fl)
    case HubOnTimeFlight => HubOnTime(fl)
    case HubLate30Flight => HubLate30(fl)
    case HubLate60Flight => HubLate60(fl)
    case NetLate30Flight => NetLate30(fl)
    case NetLate60Flight => NetLate60(fl)
  }

  /** How many of `fs` are of class `c`. */
  function CountWhere(fs: seq<Flight>, c: FlightClass): nat {
    if fs == [] then 0 else CountWhere(fs[..|fs| - 1], c) + (if Holds(c, fs[|fs| - 1]) then 1 else 0)
  }

  lemma {:induction false} CountAtMostLength(fs: seq<Flight>, c: FlightClass)
    ensures CountWhere(fs, c) <= |fs|
  {
    if fs != [] {
      CountAtMostLength(fs[..|fs| - 1], c);
    }
  }

  lemma {:induction false} CountConcat(xs: seq<Flight>, ys: seq<Flight>, c: FlightClass)
    ensures CountWhere(xs + ys, c) == CountWhere(xs, c) + CountWhere(ys, c)
    decreases |ys|
  {
    if ys == [] {
      assert xs + ys == xs;
    } else {
      var n := |ys| - 1;
      assert (xs + ys)[..|xs + ys| - 1] == xs + ys[..n];
      CountConcat(xs, ys[..n], c);
    }
  }

  /** A class included in another counts at most as many flights. */
  lemma {:induction false} CountMono(fs: seq<Flight>, p: FlightClass, q: FlightClass)
    requires forall x :: Holds(p, x) ==> Holds(q, x)
    ensures CountWhere(fs, p) <= CountWhere(fs, q)
  {
    if fs != [] {
      CountMono(fs[..|fs| - 1], p, q);
    }
  }

  /** Two exclusive classes count at most all flights between them. */
  lemma {:induction false} CountDisjoint(fs: seq<Flight>, p: FlightClass, q: FlightClass)
    requires forall x :: !(Holds(p, x) && Holds(q, x))
    ensures CountWhere(fs, p) + CountWhere(fs, q) <= |fs|
  {
    if fs != [] {
      CountDisjoint(fs[..|fs| - 1], p, q);
    }
  }

  /** A class that splits into two exclusive classes counts as their sum. */
  lemma {:induction false} CountSplit(fs: seq<Flight>, p: FlightClass, q: FlightClass, r: FlightClass)
    requires forall x :: Holds(p, x) <==> (Holds(q, x) || Holds(r, x))
    requires forall x :: !(Holds(q, x) && Holds(r, x))
    ensures CountWhere(fs, p) == CountWhere(fs, q) + CountWhere(fs, r)
  {
    if fs != [] {
      CountSplit(fs[..|fs| - 1], p, q, r);
    }
  }

  // ---------------------------------------------------------------------------
  // Per-hub metrics

  /** `hubMetrics[hub]`. */
  datatype HubMetrics = HubMetrics(
    total: nat, cancellations: nat, delayed30: nat, delayed60: nat,
    diversions: nat, operated: nat, onTime: nat)

  /** The counters of one hub, each the number of its flights of one kind. */
  function HubMetricsOf(flights: seq<Flight>): HubMetrics {
    HubMetrics(
      |flights|,
      CountWhere(flights, CancelledFlight),
      CountWhere(flights, HubLate30Flight),
      CountWhere(flights, HubLate60Flight),
      CountWhere(flights, DivertedFlight),
      CountWhere(flights, HubOperatedFlight),
      CountWhere(flights, HubOnTimeFlight))
  }

  /** Per hub: operated flights are exactly the on-time ones plus those more than 30
      minutes late; 60-minute delays are among the 30-minute ones; a cancelled
      flight is never operated, so cancellations and operated flights together
      never exceed the total. */
  lemma HubMetricsConsistent(flights: seq<Flight>)
    ensures var m := HubMetricsOf(flights);
            && m.onTime + m.delayed30 == m.operated
            && m.delayed60 <= m.delayed30
            && m.cancellations + m.operated <= m.total
            && m.diversions <= m.total
  {
    CountSplit(flights, HubOperatedFlight, HubOnTimeFlight, HubLate30Flight);
    CountMono(flights, HubLate60Flight, HubLate30Flight);
    CountDisjoint(flights, CancelledFlight, HubOperatedFlight);
    CountAtMostLength(flights, DivertedFlight);
  }

  /** One more flight adds one to each counter whose class it is in. */
  lemma HubMetricsSnoc(fs: seq<Flight>, fl: Flight)
    ensures var m := HubMetricsOf(fs);
            HubMetricsOf(fs + [fl]) == HubMetrics(
              m.total + 1,
              m.cancellations + (if IsCancelled(fl) then 1 else 0),
              m.delayed30 + (if HubLate30(fl) then 1 else 0),
              m.delayed60 + (if HubLate60(fl) then 1 else 0),
              m.diversions + (if IsDiverted(fl) then 1 else 0),
              m.operated + (if HubOperated(fl) then 1 else 0),
              m.onTime + (if HubOnTime(fl) then 1 else 0))
  {
    assert (fs + [fl])[..|fs|] == fs;
  }

  /** The inner loop of `computeMetrics` over one hub's flights. */
  method CountHub(flights: seq<Flight>) returns (m: HubMetrics)
    ensures m == HubMetricsOf(flights)
  {
    m := HubMetrics(|flights|, 0, 0, 0, 0, 0, 0);
    var i := 0;
    while i < |flights|
      invariant 0 <= i <= |flights|
      invariant m == HubMetricsOf(flights[..i]).(total := |flights|)
    {
      var fl := flights[i];
      HubMetricsSnoc(flights[..i], fl);
      assert flights[..i + 1] == flights[..i] + [fl];
      i := i + 1;
      var status := Status(fl);
      if status == "canceled" || status == "cancelled" {
        m := m.(cancellations := m.cancellations + 1);
        continue;
      }
      if status == "diverted" {
        m := m.(diversions := m.diversions + 1);
      }
      var hasOperated := status == "departed" || status == "en-route" || status == "landed" || status == "diverted";
      if !hasOperated && fl.realDep == 0 {
        continue;
      }
      var actDep := if fl.realDep != 0 then fl.realDep else if hasOperated then fl.estDep else 0;
      if actDep == 0 {
        continue;
      }
      m := m.(operated := m.operated + 1);
      var schedT := fl.schedDep;
      if schedT != 0 && actDep > schedT {
        var delayMin := DelayMinutes(actDep - schedT);
        if delayMin > 30 {
          m := m.(delayed30 := m.delayed30 + 1);
        }
        if delayMin > 60 {
          m := m.(delayed60 := m.delayed60 + 1);
        }
        if delayMin <= 30 {
          m := m.(onTime := m.onTime + 1);
        }
      } else {
        m := m.(onTime := m.onTime + 1);
      }
    }
    assert flights[..|flights|] == flights;
  }

  // ---------------------------------------------------------------------------
  // Worst delays

  /** An entry of `worstDelays`. */
  datatype DelayEntry = DelayEntry(ident: string, route: string, delay: int)

  /** `x || '?'` for the strings of a delay entry. */
  function OrUnknown(s: string): string {
    if s != "" then s else "?"
  }

  /** The entry pushed for a flight more than 15 minutes late network-wide. */
  function DelayOf(fl: Flight): DelayEntry
    requires NetLate(fl, 15)
  {
    DelayEntry(OrUnknown(fl.ident), OrUnknown(fl.origin) + "\U{2192}" + OrUnknown(fl.dest),
               DelayMinutes(NetActual(fl) - fl.schedDep))
  }

  /** The entries pushed onto `worstDelays`, in flight order. */
  function Delays(fs: seq<Flight>): seq<DelayEntry> {
    if fs == [] then []
    else
      var last := fs[|fs| - 1];
      Delays(fs[..|fs| - 1]) + (if NetLate(last, 15) then [DelayOf(last)] else [])
  }

  lemma {:induction false} DelaysAboveFifteen(fs: seq<Flight>)
    ensures forall i :: 0 <= i < |Delays(fs)| ==> Delays(fs)[i].delay > 15
  {
    if fs != [] {
      DelaysAboveFifteen(fs[..|fs| - 1]);
    }
  }

  /** Each entry's delay is at least the next one's. */
  ghost predicate Descending(s: seq<DelayEntry>) {
    forall i :: 0 <= i < |s| - 1 ==> s[i].delay >= s[i + 1].delay
  }

  /** In a descending list, every entry's delay is at least every later one's. */
  lemma {:induction false} DescendingPairwise(s: seq<DelayEntry>)
    requires Descending(s)
    ensures forall i, j :: 0 <= i < j < |s| ==> s[i].delay >= s[j].delay
  {
    if |s| > 1 {
      DescendingPairwise(s[1..]);
      forall i, j | 0 <= i < j < |s| ensures s[i].delay >= s[j].delay {
        if i > 0 {
          assert s[i] == s[1..][i - 1] && s[j] == s[1..][j - 1];
        } else if j > 1 {
          assert s[1] == s[1..][0] && s[j] == s[1..][j - 1];
        }
      }
    }
  }

  /** Insertion of `x` into a list sorted by decreasing delay, after every entry
      whose delay is at least as large. */
  function Insert(s: seq<DelayEntry>, x: DelayEntry): seq<DelayEntry> {
    if s == [] then [x]
    else if s[0].delay >= x.delay then [s[0]] + Insert(s[1..], x)
    else [x] + s
  }

  /** The head of an insertion is the old head when it stays in front, else `x`. */
  lemma InsertHead(s: seq<DelayEntry>, x: DelayEntry)
    ensures Insert(s, x) != []
    ensures Insert(s, x)[0] == if s != [] && s[0].delay >= x.delay then s[0] else x
  {
  }

  lemma {:induction false} InsertPermutes(s: seq<DelayEntry>, x: DelayEntry)
    ensures multiset(Insert(s, x)) == multiset(s) + multiset{x}
  {
    if s != [] && s[0].delay >= x.delay {
      InsertPermutes(s[1..], x);
      ConsPermutes(s, Insert(s[1..], x), x);
    }
  }

  /** Putting the same head in front of both sides keeps a permutation. */
  lemma ConsPermutes(s: seq<DelayEntry>, t: seq<DelayEntry>, x: DelayEntry)
    requires s != [] && multiset(t) == multiset(s[1..]) + multiset{x}
    ensures multiset([s[0]] + t) == multiset(s) + multiset{x}
  {
    assert s == [s[0]] + s[1..];
  }

  /** The tail of a descending list is descending. */
  lemma DescendingTail(s: seq<DelayEntry>)
    requires s != [] && Descending(s)
    ensures Descending(s[1..])
  {
    forall i | 0 <= i < |s[1..]| - 1 ensures s[1..][i].delay >= s[1..][i + 1].delay {
      assert s[1..][i] == s[i + 1] && s[1..][i + 1] == s[i + 2];
    }
  }

  lemma {:induction false} InsertSorted(s: seq<DelayEntry>, x: DelayEntry)
    requires Descending(s)
    ensures Descending(Insert(s, x))
  {
    if s != [] && s[0].delay >= x.delay {
      var t := Insert(s[1..], x);
      DescendingTail(s);
      InsertSorted(s[1..], x);
      InsertHead(s[1..], x);
      var r := [s[0]] + t;
      assert Insert(s, x) == r;
      forall i | 0 <= i < |r| - 1 ensures r[i].delay >= r[i + 1].delay {
        if i > 0 {
          assert r[i] == t[i - 1] && r[i + 1] == t[i];
        } else {
          assert r[1] == t[0];
        }
      }
    } else if s != [] {
      var r := [x] + s;
      forall i | 0 <= i < |r| - 1 ensures r[i].delay >= r[i + 1].delay {
        if i > 0 {
          assert r[i] == s[i - 1] && r[i + 1] == s[i];
        }
      }
    }
  }

  /** `worstDelays.sort((a, b) => b.delay - a.delay)`: the stable sort by decreasing
      delay, as insertion of each entry in turn. */
  function SortByDelay(ws: seq<DelayEntry>): seq<DelayEntry> {
    if ws == [] then [] else Insert(SortByDelay(ws[..|ws| - 1]), ws[|ws| - 1])
  }

  lemma {:induction false} SortByDelayCorrect(ws: seq<DelayEntry>)
    ensures Descending(SortByDelay(ws))
    ensures multiset(SortByDelay(ws)) == multiset(ws)
  {
    if ws != [] {
      var n := |ws| - 1;
      SortByDelayCorrect(ws[..n]);
      InsertSorted(SortByDelay(ws[..n]), ws[n]);
      InsertPermutes(SortByDelay(ws[..n]), ws[n]);
      assert ws == ws[..n] + [ws[n]];
    }
  }

  /** `slice(0, 8)`. */
  const WorstDelayCount := 8

  function Take(s: seq<DelayEntry>, n: nat): (r: seq<DelayEntry>)
    ensures |r| <= n && |r| <= |s|
    ensures r == s[..|r|]
    ensures |s| >= n ==> |r| == n
  {
    if |s| <= n then s else s[..n]
  }

  // ---------------------------------------------------------------------------
  // The whole computation

  /** One entry of `flightsByHub`, whose `Object.entries` order is the order in
      which hubs were added. */
  datatype HubFlights = HubFlights(hub: string, flights: seq<Flight>)

  /** `allFlights`: every hub's flights, concatenated in hub order. */
  function AllFlights(hs: seq<HubFlights>): seq<Flight> {
    if hs == [] then [] else AllFlights(hs[..|hs| - 1]) + hs[|hs| - 1].flights
  }

  /** `hubMetrics`: each hub's counters; a later entry for a hub replaces an earlier one. */
  function HubMetricsMap(hs: seq<HubFlights>): map<string, HubMetrics> {
    if hs == [] then map[]
    else HubMetricsMap(hs[..|hs| - 1])[hs[|hs| - 1].hub := HubMetricsOf(hs[|hs| - 1].flights)]
  }

  /** The object `computeMetrics` returns (without `generatedAt`, a clock reading). */
  datatype IrropsResult = IrropsResult(
    score: real, totalFlights: nat, cancellations: nat, delayed30: nat, delayed60: nat,
    diversions: nat, worstDelays: seq<DelayEntry>, hubMetrics: map<string, HubMetrics>,
    hubFlights: seq<HubFlights>)

  /** `(3·cancellations + 2·delayed60 + delayed30 + 2·diversions) / total · 100`,
      or 0 for no flights (before `toFixed(1)`). */
  function Score(total: nat, cancellations: nat, delayed30: nat, delayed60: nat, diversions: nat): real {
    if total > 0
    then (cancellations * 3 + delayed60 * 2 + delayed30 + diversions * 2) as real / total as real * 100.0
    else 0.0
  }

  /** What `computeMetrics(flightsByHub)` returns, stated by counting. */
  function Metrics(hs: seq<HubFlights>): IrropsResult {
    var all := AllFlights(hs);
    var c := CountWhere(all, CancelledFlight);
    var d30 := CountWhere(all, NetLate30Flight);
    var d60 := CountWhere(all, NetLate60Flight);
    var dv := CountWhere(all, DivertedFlight);
    IrropsResult(Score(|all|, c, d30, d60, dv), |all|, c, d30, d60, dv,
                 Take(SortByDelay(Delays(all)), WorstDelayCount), HubMetricsMap(hs), hs)
  }

  /** One more hub appends its flights and sets its counters. */
  lemma CollectSnoc(hs: seq<HubFlights>, h: HubFlights)
    ensures AllFlights(hs + [h]) == AllFlights(hs) + h.flights
    ensures HubMetricsMap(hs + [h]) == HubMetricsMap(hs)[h.hub := HubMetricsOf(h.flights)]
  {
    assert (hs + [h])[..|hs|] == hs;
  }

  /** The hub loop of `computeMetrics`: `allFlights` and `hubMetrics`. */
  method CollectHubs(hs: seq<HubFlights>) returns (allFlights: seq<Flight>, hubMetrics: map<string, HubMetrics>)
    ensures allFlights == AllFlights(hs) && hubMetrics == HubMetricsMap(hs)
  {
    allFlights := [];
    hubMetrics := map[];
    var h := 0;
    while h < |hs|
      invariant 0 <= h <= |hs|
      invariant allFlights == AllFlights(hs[..h])
      invariant hubMetrics == HubMetricsMap(hs[..h])
    {
      CollectSnoc(hs[..h], hs[h]);
      assert hs[..h + 1] == hs[..h] + [hs[h]];
      allFlights := allFlights + hs[h].flights;
      var m := CountHub(hs[h].flights);
      hubMetrics := hubMetrics[hs[h].hub := m];
      h := h + 1;
    }
    assert hs[..|hs|] == hs;
  }

  datatype NetworkCounts = NetworkCounts(
    cancellations: nat, delayed30: nat, delayed60: nat, diversions: nat, worstDelays: seq<DelayEntry>)

  /** The network-wide counts, each the number of flights of one kind, and the delay
      entries in flight order. */
  function NetworkCountsOf(all: seq<Flight>): NetworkCounts {
    NetworkCounts(CountWhere(all, CancelledFlight), CountWhere(all, NetLate30Flight), CountWhere(all, NetLate60Flight),
                  CountWhere(all, DivertedFlight), Delays(all))
  }

  /** One more flight adds one to each counter whose class it is in, and its delay
      entry when it is more than 15 minutes late. */
  lemma NetworkCountsSnoc(fs: seq<Flight>, fl: Flight)
    ensures var n := NetworkCountsOf(fs);
            NetworkCountsOf(fs + [fl]) == NetworkCounts(
              n.cancellations + (if IsCancelled(fl) then 1 else 0),
              n.delayed30 + (if NetLate30(fl) then 1 else 0),
              n.delayed60 + (if NetLate60(fl) then 1 else 0),
              n.diversions + (if IsDiverted(fl) then 1 else 0),
              n.worstDelays + (if NetLate(fl, 15) then [DelayOf(fl)] else []))
  {
    assert (fs + [fl])[..|fs|] == fs;
  }

  /** The network loop of `computeMetrics` over `allFlights`. */
  method CountNetwork(allFlights: seq<Flight>) returns (n: NetworkCounts)
    ensures n == NetworkCountsOf(allFlights)
  {
    n := NetworkCounts(0, 0, 0, 0, []);
    var i := 0;
    while i < |allFlights|
      invariant 0 <= i <= |allFlights|
      invariant n == NetworkCountsOf(allFlights[..i])
    {
      var fl := allFlights[i];
      NetworkCountsSnoc(allFlights[..i], fl);
      assert allFlights[..i + 1] == allFlights[..i] + [fl];
      i := i + 1;
      var status := Status(fl);
      if status == "canceled" || status == "cancelled" {
        n := n.(cancellations := n.cancellations + 1);
      }
      if status == "diverted" {
        n := n.(diversions := n.diversions + 1);
      }
      var schedT := fl.schedDep;
      var actT := if fl.realDep != 0 then fl.realDep else fl.estDep;
      if schedT != 0 && actT != 0 && actT > schedT {
        var delayMin := DelayMinutes(actT - schedT);
        if delayMin > 30 {
          n := n.(delayed30 := n.delayed30 + 1);
        }
        if delayMin > 60 {
          n := n.(delayed60 := n.delayed60 + 1);
        }
        if delayMin > 15 {
          n := n.(worstDelays := n.worstDelays + [DelayEntry(OrUnknown(fl.ident),
                                                   OrUnknown(fl.origin) + "\U{2192}" + OrUnknown(fl.dest), delayMin)]);
        }
      }
    }
    assert allFlights[..|allFlights|] == allFlights;
  }

  /** `computeMetrics(flightsByHub)`: the hub loop, the network loop, the sort of the
      delay entries, and the score. */
  method ComputeMetrics(hs: seq<HubFlights>) returns (r: IrropsResult)
    ensures r == Metrics(hs)
  {
    var allFlights, hubMetrics := CollectHubs(hs);
    var n := CountNetwork(allFlights);
    var sorted := SortByDelay(n.worstDelays);
    var total := |allFlights|;
    var score := if total > 0
      then (n.cancellations * 3 + n.delayed60 * 2 + n.delayed30 + n.diversions * 2) as real / total as real * 100.0
      else 0.0;
    r := IrropsResult(score, total, n.cancellations, n.delayed30, n.delayed60, n.diversions,
                      Take(sorted, WorstDelayCount), hubMetrics, hs);
  }

  // ---------------------------------------------------------------------------
  // Properties of the result

  function HubNames(hs: seq<HubFlights>): seq<string> {
    if hs == [] then [] else HubNames(hs[..|hs| - 1]) + [hs[|hs| - 1].hub]
  }

  /** The keys of an object: no hub appears twice. */
  ghost predicate DistinctHubs(hs: seq<HubFlights>) {
    forall i, j :: 0 <= i < j < |hs| ==> hs[i].hub != hs[j].hub
  }

  /** The per-hub counters that add up to a network-wide one. */
  datatype HubCounter = TotalCounter | CancellationsCounter | DiversionsCounter

  function CounterOf(m: HubMetrics, f: HubCounter): nat {
    match f
    case TotalCounter => m.total
    case CancellationsCounter => m.cancellations
    case DiversionsCounter => m.diversions
  }

  /** The sum of one counter of `m` over the hubs named. */
  function SumOver(hubs: seq<string>, m: map<string, HubMetrics>, f: HubCounter): nat {
    if hubs == [] then 0
    else
      var last := hubs[|hubs| - 1];
      SumOver(hubs[..|hubs| - 1], m, f) + (if last in m then CounterOf(m[last], f) else 0)
  }

  lemma {:induction false} SumOverUpdate(hubs: seq<string>, m: map<string, HubMetrics>, k: string, v: HubMetrics, f: HubCounter)
    requires k !in hubs
    ensures SumOver(hubs, m[k := v], f) == SumOver(hubs, m, f)
  {
    if hubs != [] {
      SumOverUpdate(hubs[..|hubs| - 1], m, k, v, f);
    }
  }

  /** The sum of one counter over the hubs of the input, hub by hub. */
  function SumMetrics(hs: seq<HubFlights>, f: HubCounter): nat {
    if hs == [] then 0 else SumMetrics(hs[..|hs| - 1], f) + CounterOf(HubMetricsOf(hs[|hs| - 1].flights), f)
  }

  /** Summing over the keys of `hubMetrics` is summing over the input's hubs. */
  lemma {:induction false} SumOverMap(hs: seq<HubFlights>, f: HubCounter)
    requires DistinctHubs(hs)
    ensures SumOver(HubNames(hs), HubMetricsMap(hs), f) == SumMetrics(hs, f)
  {
    if hs != [] {
      var n := |hs| - 1;
      var prefix := hs[..n];
      DistinctPrefix(hs);
      SumOverMap(prefix, f);
      LastHubFresh(hs);
      SumOverUpdate(HubNames(prefix), HubMetricsMap(prefix), hs[n].hub, HubMetricsOf(hs[n].flights), f);
      SumOverSnoc(HubNames(prefix), HubMetricsMap(hs), hs[n].hub, f);
    }
  }

  lemma SumOverSnoc(hubs: seq<string>, m: map<string, HubMetrics>, k: string, f: HubCounter)
    ensures SumOver(hubs + [k], m, f) == SumOver(hubs, m, f) + (if k in m then CounterOf(m[k], f) else 0)
  {
    assert (hubs + [k])[..|hubs|] == hubs;
  }

  lemma DistinctPrefix(hs: seq<HubFlights>)
    requires hs != [] && DistinctHubs(hs)
    ensures DistinctHubs(hs[..|hs| - 1])
  {
    var prefix := hs[..|hs| - 1];
    forall i, j | 0 <= i < j < |prefix| ensures prefix[i].hub != prefix[j].hub {
      assert prefix[i] == hs[i] && prefix[j] == hs[j];
    }
  }

  /** With distinct hubs, the last hub is not among the earlier ones' names. */
  lemma LastHubFresh(hs: seq<HubFlights>)
    requires hs != [] && DistinctHubs(hs)
    ensures hs[|hs| - 1].hub !in HubNames(hs[..|hs| - 1])
  {
    var prefix := hs[..|hs| - 1];
    HubNamesIndex(prefix);
    forall i | 0 <= i < |prefix| ensures HubNames(prefix)[i] != hs[|hs| - 1].hub {
      assert prefix[i] == hs[i];
    }
  }

  /** A network count that each hub counts the same way is the sum of the hubs' counts. */
  lemma {:induction false} AllFlightsCount(hs: seq<HubFlights>, p: FlightClass, f: HubCounter)
    requires forall fs :: CounterOf(HubMetricsOf(fs), f) == CountWhere(fs, p)
    ensures CountWhere(AllFlights(hs), p) == SumMetrics(hs, f)
  {
    if hs != [] {
      var n := |hs| - 1;
      AllFlightsCount(hs[..n], p, f);
      CountConcat(AllFlights(hs[..n]), hs[n].flights, p);
    }
  }

  lemma {:induction false} AllFlightsLength(hs: seq<HubFlights>)
    ensures |AllFlights(hs)| == SumMetrics(hs, TotalCounter)
  {
    if hs != [] {
      AllFlightsLength(hs[..|hs| - 1]);
    }
  }

  lemma {:induction false} HubNamesIndex(hs: seq<HubFlights>)
    ensures |HubNames(hs)| == |hs|
    ensures forall i :: 0 <= i < |hs| ==> HubNames(hs)[i] == hs[i].hub
  {
    if hs != [] {
      var n := |hs| - 1;
      HubNamesIndex(hs[..n]);
      forall i | 0 <= i < |hs| ensures HubNames(hs)[i] == hs[i].hub {
        if i < n {
          assert hs[..n][i] == hs[i];
        }
      }
    }
  }

  /** `totalFlights`, `cancellations` and `diversions` are the sums of the per-hub
      values (the network-wide delay counters are not: they follow another rule). */
  lemma NetworkTotalsAreHubSums(hs: seq<HubFlights>)
    requires DistinctHubs(hs)
    ensures var r := Metrics(hs);
            && r.totalFlights == SumOver(HubNames(hs), r.hubMetrics, TotalCounter)
            && r.cancellations == SumOver(HubNames(hs), r.hubMetrics, CancellationsCounter)
            && r.diversions == SumOver(HubNames(hs), r.hubMetrics, DiversionsCounter)
  {
    SumOverMap(hs, TotalCounter);
    SumOverMap(hs, CancellationsCounter);
    SumOverMap(hs, DiversionsCounter);
    AllFlightsLength(hs);
    AllFlightsCount(hs, CancelledFlight, CancellationsCounter);
    AllFlightsCount(hs, DivertedFlight, DiversionsCounter);
  }

  /** Every hub of the input has its counters in `hubMetrics`, and those of the last
      entry for it. */
  lemma {:induction false} HubMetricsLookup(hs: seq<HubFlights>, i: nat)
    requires i < |hs|
    requires forall j :: i < j < |hs| ==> hs[j].hub != hs[i].hub
    ensures hs[i].hub in HubMetricsMap(hs) && HubMetricsMap(hs)[hs[i].hub] == HubMetricsOf(hs[i].flights)
  {
    var n := |hs| - 1;
    if i < n {
      forall j | i < j < n ensures hs[..n][j].hub != hs[..n][i].hub {
        assert hs[..n][j] == hs[j];
      }
      HubMetricsLookup(hs[..n], i);
    }
  }

  /** The score of counters no flight can exceed: each flight adds at most
      3 + 2 + 1 points (cancelled and late) to the numerator. */
  lemma ScoreAtMostSixHundred(total: nat, c: nat, d30: nat, d60: nat, dv: nat)
    requires d60 <= d30 <= total && c + dv <= total
    ensures 0.0 <= Score(total, c, d30, d60, dv) <= 600.0
  {
    if total > 0 {
      var num := (c * 3 + d60 * 2 + d30 + dv * 2) as real;
      QuotientBounds(num, total as real, 6.0);
    }
  }

  lemma QuotientBounds(a: real, b: real, k: real)
    requires 0.0 <= a <= k * b && b > 0.0
    ensures 0.0 <= a / b <= k
  {
    var q := a / b;
    assert q * b == a;
  }

  /** Network-wide, 60-minute delays are among the 30-minute ones and no flight is
      both cancelled and diverted; so the score is between 0 and 600 (a cancelled
      flight can also count as delayed). */
  lemma ScoreBounds(hs: seq<HubFlights>)
    ensures var r := Metrics(hs);
            && r.delayed60 <= r.delayed30 <= r.totalFlights
            && r.cancellations + r.diversions <= r.totalFlights
            && 0.0 <= r.score <= 600.0
  {
    var all := AllFlights(hs);
    CountMono(all, NetLate60Flight, NetLate30Flight);
    CountDisjoint(all, CancelledFlight, DivertedFlight);
    CountAtMostLength(all, NetLate30Flight);
    ScoreAtMostSixHundred(|all|, CountWhere(all, CancelledFlight), CountWhere(all, NetLate30Flight),
                          CountWhere(all, NetLate60Flight), CountWhere(all, DivertedFlight));
  }

  /** No flights: score 0, every counter 0, no delays. No hubs: no hub metrics. */
  lemma EmptyMetrics(hs: seq<HubFlights>)
    requires AllFlights(hs) == []
    ensures var r := Metrics(hs);
            && r.score == 0.0 && r.totalFlights == 0 && r.cancellations == 0 && r.delayed30 == 0
            && r.delayed60 == 0 && r.diversions == 0 && r.worstDelays == []
            && (hs == [] ==> r.hubMetrics == map[])
  {
  }

  /** `worstDelays` holds at most eight entries, by decreasing delay, each more than
      15 minutes late; they are the first entries of a sorted permutation of all the
      delay entries, so no entry left out is later than the last one kept. */
  lemma WorstDelaysAreTop(hs: seq<HubFlights>)
    ensures var r := Metrics(hs);
            var candidates := Delays(AllFlights(hs));
            var sorted := SortByDelay(candidates);
            && |r.worstDelays| == (if |candidates| < WorstDelayCount then |candidates| else WorstDelayCount)
            && multiset(sorted) == multiset(candidates)
            && r.worstDelays == sorted[..|r.worstDelays|]
            && (forall i, j :: 0 <= i < j < |sorted| ==> sorted[i].delay >= sorted[j].delay)
            && (forall i :: 0 <= i < |r.worstDelays| ==> r.worstDelays[i].delay > 15)
  {
    var candidates := Delays(AllFlights(hs));
    var sorted := SortByDelay(candidates);
    SortByDelayCorrect(candidates);
    DescendingPairwise(sorted);
    DelaysAboveFifteen(AllFlights(hs));
    var w := Metrics(hs).worstDelays;
    forall i | 0 <= i < |w| ensures w[i].delay > 15 {
      assert w[i] == sorted[i];
      assert sorted[i] in multiset(candidates);
    }
  }

  // ---------------------------------------------------------------------------
  // The cases of tests/irrops.test.js

  /** All entries later than 15 minutes: one delay entry per flight, in order. */
  lemma {:induction false} DelaysOfLateFlights(fs: seq<Flight>)
    requires forall i :: 0 <= i < |fs| ==> NetLate(fs[i], 15)
    ensures |Delays(fs)| == |fs|
    ensures forall i :: 0 <= i < |fs| ==> Delays(fs)[i] == DelayOf(fs[i])
  {
    if fs != [] {
      var n := |fs| - 1;
      var prefix := fs[..n];
      forall i | 0 <= i < |prefix| ensures NetLate(prefix[i], 15) {
        assert prefix[i] == fs[i];
      }
      DelaysOfLateFlights(prefix);
      var last := fs[n];
      assert NetLate(last, 15);
      DelaysSnoc(prefix, last);
      assert fs == prefix + [last];
      var d := Delays(fs);
      var e := DelayOf(last);
      assert d == Delays(prefix) + [e];
      forall i | 0 <= i < |fs| ensures d[i] == DelayOf(fs[i]) {
        if i < n {
          assert d[i] == Delays(prefix)[i] && prefix[i] == fs[i];
        }
      }
    }
  }

  lemma DelaysSnoc(fs: seq<Flight>, fl: Flight)
    ensures Delays(fs + [fl]) == Delays(fs) + (if NetLate(fl, 15) then [DelayOf(fl)] else [])
  {
    assert (fs + [fl])[..|fs|] == fs;
  }

  function Reverse(s: seq<DelayEntry>): seq<DelayEntry> {
    if s == [] then [] else [s[|s| - 1]] + Reverse(s[..|s| - 1])
  }

  /** Entries arriving in strictly increasing delay come out in reverse order. */
  lemma {:induction false} SortIncreasing(ws: seq<DelayEntry>)
    requires forall i :: 0 <= i < |ws| - 1 ==> ws[i].delay < ws[i + 1].delay
    ensures SortByDelay(ws) == Reverse(ws)
  {
    if |ws| > 1 {
      var n := |ws| - 1;
      SortIncreasing(ws[..n]);
      assert ws[..n][n - 1] == ws[n - 1];
      assert Reverse(ws[..n])[0] == ws[n - 1];
    }
  }

  lemma {:induction false} ReverseIndex(s: seq<DelayEntry>)
    ensures |Reverse(s)| == |s|
    ensures forall i :: 0 <= i < |s| ==> Reverse(s)[i] == s[|s| - 1 - i]
  {
    if s != [] {
      var n := |s| - 1;
      ReverseIndex(s[..n]);
      forall i | 0 <= i < |s| ensures Reverse(s)[i] == s[|s| - 1 - i] {
        if i > 0 {
          assert Reverse(s)[i] == Reverse(s[..n])[i - 1];
        }
      }
    }
  }

  const T := 1700000000

  function TestFlight(status: string, schedDep: int, realDep: int): Flight {
    Flight(status, "UA", schedDep, realDep, 0, "UA100", "ORD", "LAX")
  }

  /** The result for a single hub, by its counters. */
  lemma SingleHub(hub: string, fs: seq<Flight>)
    ensures var r := Metrics([HubFlights(hub, fs)]);
            && r.totalFlights == |fs| && r.cancellations == CountWhere(fs, CancelledFlight)
            && r.delayed30 == CountWhere(fs, NetLate30Flight) && r.delayed60 == CountWhere(fs, NetLate60Flight)
            && r.diversions == CountWhere(fs, DivertedFlight)
            && r.hubMetrics == map[hub := HubMetricsOf(fs)]
            && r.score == Score(|fs|, r.cancellations, r.delayed30, r.delayed60, r.diversions)
  {
    var hs := [HubFlights(hub, fs)];
    assert hs[..0] == [];
    assert AllFlights(hs) == fs;
    assert HubMetricsMap(hs) == map[hub := HubMetricsOf(fs)];
  }

  /** How the test flights are classified, for any scheduled time `t`. */
  lemma TestFlightClasses(t: int)
    requires t > 0
    ensures var f := TestFlight("landed", t, t);
            !IsCancelled(f) && !IsDiverted(f) && !NetLate30(f) && !NetLate60(f)
    ensures var f := TestFlight("canceled", t, 0);
            IsCancelled(f) && !IsDiverted(f) && !NetLate30(f) && !NetLate60(f)
    ensures var f := TestFlight("landed", t, t + 3700);
            !IsCancelled(f) && !IsDiverted(f) && NetLate30(f) && NetLate60(f)
  {
    LandedClass(TestFlight("landed", t, t));
    NotLateClass(TestFlight("landed", t, t));
    CanceledClass(TestFlight("canceled", t, 0));
    NotLateClass(TestFlight("canceled", t, 0));
    LandedClass(TestFlight("landed", t, t + 3700));
    LateClass(TestFlight("landed", t, t + 3700));
  }

  lemma LandedClass(f: Flight)
    requires f.statusText == "landed"
    ensures !IsCancelled(f) && !IsDiverted(f)
  {
    assert Status(f) == "landed" by {
      LowerCaseUnchanged("landed");
    }
  }

  lemma CanceledClass(f: Flight)
    requires f.statusText == "canceled"
    ensures IsCancelled(f) && !IsDiverted(f)
  {
    assert Status(f) == "canceled" by {
      LowerCaseUnchanged("canceled");
    }
    assert "canceled"[0] != "diverted"[0];
  }

  /** No later than scheduled, or no departure time at all: not delayed. */
  lemma NotLateClass(f: Flight)
    requires f.estDep == 0 && (f.realDep == f.schedDep || f.realDep == 0)
    ensures !NetLate30(f) && !NetLate60(f)
  {
  }

  /** 3700 seconds late is 62 minutes by `Math.round`: both delay counters. */
  lemma LateClass(f: Flight)
    requires f.schedDep > 0 && f.realDep == f.schedDep + 3700
    ensures NetLate30(f) && NetLate60(f)
  {
    assert DelayMinutes(3700) == 62;
  }

  lemma CancellationCounts(t: int)
    requires t > 0
    ensures var fs := [TestFlight("landed", t, t), TestFlight("canceled", t, 0)];
            && CountWhere(fs, CancelledFlight) == 1 && CountWhere(fs, DivertedFlight) == 0
            && CountWhere(fs, NetLate30Flight) == 0 && CountWhere(fs, NetLate60Flight) == 0
  {
    TestFlightClasses(t);
    CountTwo(TestFlight("landed", t, t), TestFlight("canceled", t, 0));
  }

  /** Counting a two-flight list, class by class. */
  lemma CountTwo(a: Flight, b: Flight)
    ensures forall c :: CountWhere([a, b], c) == (if Holds(c, a) then 1 else 0) + (if Holds(c, b) then 1 else 0)
  {
    forall c ensures CountWhere([a, b], c) == (if Holds(c, a) then 1 else 0) + (if Holds(c, b) then 1 else 0) {
      assert [a, b][..1] == [a] && [a][..0] == [];
      assert CountWhere([a], c) == if Holds(c, a) then 1 else 0;
    }
  }

  /** One on-time flight and one cancellation: score 150. */
  lemma CancellationExample(t: int)
    requires t > 0
    ensures var r := Metrics([HubFlights("ORD", [TestFlight("landed", t, t), TestFlight("canceled", t, 0)])]);
            r.score == 150.0 && r.cancellations == 1 && r.hubMetrics["ORD"].cancellations == 1
  {
    SingleHub("ORD", [TestFlight("landed", t, t), TestFlight("canceled", t, 0)]);
    CancellationCounts(t);
  }

  lemma SixtyMinuteCounts(t: int)
    requires t > 0
    ensures var fs := [TestFlight("landed", t, t + 3700)];
            && CountWhere(fs, CancelledFlight) == 0 && CountWhere(fs, DivertedFlight) == 0
            && CountWhere(fs, NetLate30Flight) == 1 && CountWhere(fs, NetLate60Flight) == 1
  {
    var fs := [TestFlight("landed", t, t + 3700)];
    TestFlightClasses(t);
    assert fs[..0] == [];
  }

  /** A single flight 61 minutes late counts in both delay counters: score 300. */
  lemma SixtyMinuteExample(t: int)
    requires t > 0
    ensures var r := Metrics([HubFlights("ORD", [TestFlight("landed", t, t + 3700)])]);
            r.delayed30 == 1 && r.delayed60 == 1 && r.score == 300.0
  {
    SingleHub("ORD", [TestFlight("landed", t, t + 3700)]);
    SixtyMinuteCounts(t);
  }

  /** Twelve flights 20, 25, …, 75 minutes late: eight worst delays, the first 75
      minutes and the eighth 40. */
  lemma TwelveDelaysExample()
    ensures var fs := seq(12, i => TestFlight("landed", T, T + (20 + 5 * i) * 60));
            var w := Metrics([HubFlights("ORD", fs)]).worstDelays;
            |w| == 8 && w[0].delay == 75 && w[7].delay == 40
  {
    var fs := seq(12, i => TestFlight("landed", T, T + (20 + 5 * i) * 60));
    assert AllFlights([HubFlights("ORD", fs)]) == fs by {
      assert [HubFlights("ORD", fs)][..0] == [];
    }
    forall i | 0 <= i < 12 ensures NetLate(fs[i], 15) && DelayOf(fs[i]).delay == 20 + 5 * i {
      WholeMinutesLate(fs[i], 20 + 5 * i);
    }
    DelaysOfLateFlights(fs);
    var ws := Delays(fs);
    assert forall i :: 0 <= i < 12 ==> ws[i].delay == 20 + 5 * i;
    SortIncreasing(ws);
    ReverseIndex(ws);
    var sorted := SortByDelay(ws);
    assert sorted[0] == ws[11] && sorted[7] == ws[4];
    WorstDelaysOf([HubFlights("ORD", fs)]);
  }

  /** `worstDelays` is the first eight of the sorted delay entries. */
  lemma WorstDelaysOf(hs: seq<HubFlights>)
    ensures Metrics(hs).worstDelays == Take(SortByDelay(Delays(AllFlights(hs))), WorstDelayCount)
  {
  }

  /** A flight departing a whole number `k` > 15 of minutes late is a delay entry of
      exactly `k` minutes. */
  lemma WholeMinutesLate(f: Flight, k: int)
    requires k > 15 && f.schedDep > 0 && f.realDep == f.schedDep + k * 60
    ensures NetLate(f, 15) && DelayOf(f).delay == k
  {
    var m := DelayMinutes(k * 60);
    assert 60 * m - 30 <= k * 60 < 60 * m + 30;
  }
}
