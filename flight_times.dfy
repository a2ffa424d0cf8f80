/** `api/flight-times.js`: departure and arrival times of one United flight, taken
    from the FlightAware page's bootstrap data, with the FR24 flight summary as a
    fallback; a two-minute response cache and a per-IP limit of five requests a
    minute guard the upstream. */
module FlightTimes {
  import opened Common
  import opened OrderedMaps
  import opened SlidingWindow
  import RateLimit
  import TtlCache

  const CacheTtlMs := 120000
  const MaxPerMinute := 5
  const CacheControl := "s-maxage=120, stale-while-revalidate=300"

  // ---------------------------------------------------------------------------
  // Flight numbers

  /** A query parameter: absent, one value, or a repeated parameter's values. */
  datatype RawParam = Missing | One(s: string) | Many(first: string, rest: seq<string>)

  /** `Array.isArray(raw) ? raw[0] : (raw || '')`. */
  function RawText(raw: RawParam): string {
    match raw
    case Missing => ""
    case One(s) => s
    case Many(first, _) => first
  }

  /** The rewriting `normalizeFlightNumber` applies once the text is compact and
      upper-case: a `UA` prefix not followed by `L` becomes `UAL`, then a bare number
      of up to four digits gets a `UAL` prefix. */
  function UnitedPrefix(c: string): string {
    var u := if StartsWith(c, "UA") && !StartsWith(c, "UAL") then "UAL" + c[2..] else c;
    if IsBareNumber(u) then "UAL" + u else u
  }

  /** The text of `normalizeFlightNumber`: trimmed, upper-cased, without white
      space, then given its United prefix. */
  function NormalizeText(s: string): string {
    UnitedPrefix(CompactUpper(s))
  }

  function NormalizeFlightNumber(raw: RawParam): string {
    NormalizeText(RawText(raw))
  }

  lemma StartsWithPrefix(p: string, x: string)
    ensures StartsWith(p + x, p)
  {
    assert (p + x)[..|p|] == p;
  }

  lemma CompactConcat(a: string, b: string)
    requires IsCompact(a) && IsCompact(b)
    ensures IsCompact(a + b)
  {
    var r := a + b;
    assert forall i :: |a| <= i < |r| ==> r[i] == b[i - |a|];
  }

  /** The United prefix keeps a compact string compact. */
  lemma UnitedPrefixIsCompact(c: string)
    requires IsCompact(c)
    ensures IsCompact(UnitedPrefix(c))
  {
    assert IsCompact("UAL");
    var u := if StartsWith(c, "UA") && !StartsWith(c, "UAL") then "UAL" + c[2..] else c;
    if StartsWith(c, "UA") && !StartsWith(c, "UAL") {
      assert IsCompact(c[2..]);
      CompactConcat("UAL", c[2..]);
    }
    if IsBareNumber(u) {
      CompactConcat("UAL", u);
    }
  }

  /** Adding the United prefix twice is adding it once. */
  lemma UnitedPrefixIdempotent(c: string)
    ensures UnitedPrefix(UnitedPrefix(c)) == UnitedPrefix(c)
  {
    var q := UnitedPrefix(c);
    var u := if StartsWith(c, "UA") && !StartsWith(c, "UAL") then "UAL" + c[2..] else c;
    if StartsWith(c, "UA") && !StartsWith(c, "UAL") {
      StartsWithPrefix("UAL", c[2..]);
    }
    if IsBareNumber(u) {
      StartsWithPrefix("UAL", u);
    }
    if StartsWith(q, "UAL") {
      assert q[..2] == "UA";
      assert !IsDigit(q[0]);
    } else {
      assert q == c && !IsBareNumber(c);
    }
  }

  /** Normalised numbers have no white space and no lower-case letter. */
  lemma NormalizeIsCompact(s: string)
    ensures IsCompact(NormalizeText(s))
  {
    CompactUpperIsCompact(s);
    UnitedPrefixIsCompact(CompactUpper(s));
  }

  /** Normalising twice is normalising once; in particular a `UAL` number is left as
      it is. */
  lemma NormalizeIdempotent(s: string)
    ensures NormalizeText(NormalizeText(s)) == NormalizeText(s)
  {
    var q := NormalizeText(s);
    NormalizeIsCompact(s);
    CompactIsFixpoint(q);
    UnitedPrefixIdempotent(CompactUpper(s));
  }

  /** A compact string is normalised by its United prefix alone. */
  lemma NormalizeCompact(c: string)
    requires IsCompact(c)
    ensures NormalizeText(c) == UnitedPrefix(c)
  {
    CompactIsFixpoint(c);
  }

  lemma DigitsAreCompact(d: string)
    requires IsDigits(d)
    ensures IsCompact(d) && !StartsWith(d, "UA")
  {
    if |d| >= 2 {
      assert IsDigit(d[..2][0]);
    }
  }

  /** From `tests/flight-times.test.js`, over any digits `d`: a bare number gets
      the `UAL` prefix. */
  lemma BareNumberGetsPrefix(d: string)
    requires IsBareNumber(d)
    ensures NormalizeText(d) == "UAL" + d
  {
    DigitsAreCompact(d);
    NormalizeCompact(d);
  }

  /** The United prefix turns `UA` + `d` into `UAL` + `d`. */
  lemma UnitedPrefixOfUa(d: string)
    requires IsBareNumber(d)
    ensures UnitedPrefix("UA" + d) == "UAL" + d
  {
    var ua := "UA" + d;
    StartsWithPrefix("UA", d);
    assert ua[..3] == "UA" + [d[0]];
    assert !StartsWith(ua, "UAL");
    assert ua[2..] == d;
    assert !IsDigit(("UAL" + d)[0]);
  }

  /** The United prefix leaves `UAL` + `d` as it is. */
  lemma UnitedPrefixOfUal(d: string)
    requires IsBareNumber(d)
    ensures UnitedPrefix("UAL" + d) == "UAL" + d
  {
    StartsWithPrefix("UAL", d);
    assert ("UAL" + d)[..2] == "UA";
    assert !IsDigit(("UAL" + d)[0]);
  }

  /** `UA` + `d` becomes `UAL` + `d`. */
  lemma UaBecomesUal(d: string)
    requires IsBareNumber(d)
    ensures NormalizeText("UA" + d) == "UAL" + d
  {
    DigitsAreCompact(d);
    assert IsCompact("UA");
    CompactConcat("UA", d);
    NormalizeCompact("UA" + d);
    UnitedPrefixOfUa(d);
  }

  /** `UAL` + `d` stays as it is. */
  lemma UalKept(d: string)
    requires IsBareNumber(d)
    ensures NormalizeText("UAL" + d) == "UAL" + d
  {
    DigitsAreCompact(d);
    assert IsCompact("UAL");
    CompactConcat("UAL", d);
    NormalizeCompact("UAL" + d);
    UnitedPrefixOfUal(d);
  }

  /** An absent or empty parameter normalises to the empty string, and a repeated
      parameter uses its first value. */
  lemma NormalizeParam(first: string, rest: seq<string>)
    ensures NormalizeFlightNumber(Missing) == "" && NormalizeFlightNumber(One("")) == ""
    ensures NormalizeFlightNumber(Many(first, rest)) == NormalizeText(first)
  {
    assert IsCompact("");
    CompactIsFixpoint("");
  }

  /** `/^UAL\d{1,4}[A-Z]?$/i` */
  predicate IsUalFlight(s: string) {
    && |s| >= 4
    && (s[0] == 'U' || s[0] == 'u') && (s[1] == 'A' || s[1] == 'a') && (s[2] == 'L' || s[2] == 'l')
    && DigitsThenLetter(s[3..])
  }

  /** On compact text: the United prefix yields an accepted number only from a
      `UA` or `UAL` number or a bare number, and always from a bare number. */
  lemma UnitedPrefixAccepted(c: string)
    requires IsCompact(c)
    ensures IsUalFlight(UnitedPrefix(c)) ==> StartsWith(c, "UA") || IsBareNumber(c)
    ensures IsBareNumber(c) ==> IsUalFlight(UnitedPrefix(c))
  {
    if IsBareNumber(c) {
      DigitsAreCompact(c);
      assert ("UAL" + c)[3..] == c;
    }
  }

  /** Only United numbers get through: an accepted value was, once compacted, a `UA`
      or `UAL` number or a bare number; every bare number is accepted. */
  lemma AcceptedAreUnited(s: string)
    ensures IsUalFlight(NormalizeText(s)) ==>
              StartsWith(CompactUpper(s), "UA") || IsBareNumber(CompactUpper(s))
    ensures IsBareNumber(CompactUpper(s)) ==> IsUalFlight(NormalizeText(s))
  {
    CompactUpperIsCompact(s);
    UnitedPrefixAccepted(CompactUpper(s));
  }

  // ---------------------------------------------------------------------------
  // Field conversions

  /** `epochToISO`: `''` for a missing or zero epoch (`0`, `null` and `undefined`
      are all `0` here); otherwise `toISOString`, which is the parameter `iso`. */
  function EpochToISO(epoch: int, iso: int -> string): (r: string)
    ensures epoch == 0 ==> r == ""
    ensures epoch != 0 ==> r == iso(epoch)
  {
    if epoch == 0 then "" else iso(epoch)
  }

  /** The fixed ICAO-to-IATA table of `icaoToIata`. */
  const IcaoTable: map<string, string> := map[
    "RJAA" := "NRT", "RJTT" := "HND", "PGUM" := "GUM", "EGLL" := "LHR", "LFPG" := "CDG",
    "EDDF" := "FRA", "RCKH" := "KHH", "VHHH" := "HKG", "WSSS" := "SIN", "NZAA" := "AKL",
    "YSSY" := "SYD", "LEMD" := "MAD", "EHAM" := "AMS", "OMDB" := "DXB", "ZBAA" := "PEK"]

  /** `icaoToIata`: empty stays empty, a four-character `K` code loses its `K`, a
      table code is mapped, anything else is returned unchanged. */
  function IcaoToIata(icao: string): (r: string)
    ensures r == "" <==> icao == ""
    ensures |icao| == 4 && icao[0] == 'K' ==> r == icao[1..]
    ensures icao != "" && !(|icao| == 4 && icao[0] == 'K') ==>
              r == if icao in IcaoTable then IcaoTable[icao] else icao
  {
    if icao == "" then ""
    else if |icao| == 4 && icao[0] == 'K' then icao[1..]
    else if icao in IcaoTable then IcaoTable[icao]
    else icao
  }

  /** No table entry is shadowed by the `K` rule, and every one becomes a three-letter
      code, as does every four-character `K` code. */
  lemma IcaoTableShape(icao: string)
    ensures icao in IcaoTable ==> |icao| == 4 && icao[0] != 'K' && |IcaoToIata(icao)| == 3
    ensures |icao| == 4 && icao[0] == 'K' ==> |IcaoToIata(icao)| == 3
  {
  }

  /** `.replace(/^:/, '')`: the result is a suffix of `s` at most one character
      shorter; the only character ever dropped is a leading colon, and a leading
      colon is always dropped. */
  function StripLeadingColon(s: string): (r: string)
    ensures |s| - 1 <= |r| <= |s| && r == s[|s| - |r|..]
    ensures |r| < |s| ==> s[0] == ':'
    ensures |s| > 0 && s[0] == ':' ==> |r| < |s|
  {
    if |s| > 0 && s[0] == ':' then s[1..] else s
  }

  // ---------------------------------------------------------------------------
  // The response record

  datatype Place = Place(iata: string, name: string, terminal: string, gate: string, tz: string)

  datatype Times = Times(scheduled: string, estimated: string, actual: string)

  /** The `result` object both sources produce (`success: true` is implied). */
  datatype FlightResult = FlightResult(flight: string, origin: Place, destination: Place,
                                       gateDeparture: Times, takeoff: Times, landing: Times, gateArrival: Times,
                                       aircraft: string, status: string, cancelled: bool, diverted: bool,
                                       source: string)

  const NoPlace := Place("", "", "", "", "")
  const NoTimes := Times("", "", "")

  // ---------------------------------------------------------------------------
  // FlightAware bootstrap data

  /** Epoch seconds, `0` when missing. */
  datatype Epochs = Epochs(scheduled: int, estimated: int, actual: int)

  /** `origin`/`destination` of a FlightAware flight; missing fields are `""`. */
  datatype AwAirport = AwAirport(iata: string, friendlyName: string, terminal: string, gate: string, tz: string)

  datatype AwFlight = AwFlight(origin: AwAirport, destination: AwAirport,
                               gateDeparture: Epochs, takeoff: Epochs, landing: Epochs, gateArrival: Epochs,
                               aircraftTypeFriendly: string, flightStatus: string, cancelled: bool, diverted: bool)

  /** One entry of `bootstrap.flights`, with its `activityLog.flights` (empty when
      missing), in `Object.entries` order. */
  datatype FlightEntry = FlightEntry(key: string, activityLog: seq<AwFlight>)

  /** `a || b` on epochs. */
  function EpochOr(a: int, b: int): int {
    if a != 0 then a else b
  }

  /** The time a candidate is ranked by: the first non-zero of scheduled, estimated
      and actual gate departure and scheduled takeoff, else `0`. */
  function RankTime(f: AwFlight): int {
    EpochOr(f.gateDeparture.scheduled, EpochOr(f.gateDeparture.estimated,
      EpochOr(f.gateDeparture.actual, EpochOr(f.takeoff.scheduled, 0))))
  }

  predicate IsCandidate(entries: seq<FlightEntry>, i: int) {
    0 <= i < |entries| && entries[i].activityLog != []
  }

  function CandidateTime(entries: seq<FlightEntry>, i: int): int
    requires IsCandidate(entries, i)
  {
    RankTime(entries[i].activityLog[0])
  }

  /** Entry `b` is the candidate among the first `n` entries with the greatest rank
      time, and the first with that time. */
  ghost predicate IsBestAmong(entries: seq<FlightEntry>, n: int, b: int) {
    && 0 <= b < n <= |entries| && IsCandidate(entries, b)
    && (forall j :: 0 <= j < n && IsCandidate(entries, j) ==> CandidateTime(entries, j) <= CandidateTime(entries, b))
    && (forall j :: 0 <= j < b && IsCandidate(entries, j) ==> CandidateTime(entries, j) < CandidateTime(entries, b))
  }

  datatype Best = Best(key: string, flight: AwFlight)

  /** `best` is what the candidate loop must produce for `entries`. */
  ghost predicate IsPick(entries: seq<FlightEntry>, best: Option<Best>) {
    && (best.None? <==> forall i :: 0 <= i < |entries| ==> !IsCandidate(entries, i))
    && (best.Some? ==>
          exists b :: IsBestAmong(entries, |entries|, b)
                      && best.value == Best(entries[b].key, entries[b].activityLog[0]))
  }


  /** The pick of the candidate loop over `entries` in order: an entry with an
      activity log replaces the current pick when there is none or when its rank
      time is strictly greater. */
  function Pick(entries: seq<FlightEntry>): Option<Best>
    decreases |entries|
  {
    if entries == [] then None
    else
      var p := Pick(entries[..|entries| - 1]);
      var e := entries[|entries| - 1];
      if e.activityLog == [] then p
      else if p.None? || RankTime(e.activityLog[0]) > RankTime(p.value.flight) then Some(Best(e.key, e.activityLog[0]))
      else p
  }

  /** Candidates and their times among the first `n` entries do not depend on the
      entries after them. */
  lemma CandidatePrefix(entries: seq<FlightEntry>, n: int)
    requires 0 <= n <= |entries|
    ensures forall j :: 0 <= j < n ==> (IsCandidate(entries[..n], j) <==> IsCandidate(entries, j))
    ensures forall j :: 0 <= j < n && IsCandidate(entries, j) ==> CandidateTime(entries[..n], j) == CandidateTime(entries, j)
  {
    assert forall j :: 0 <= j < n ==> entries[..n][j] == entries[j];
  }

  /** The last entry of `entries` is the best among them when it beats the best `b`
      of the others. */
  lemma LastIsBest(entries: seq<FlightEntry>, b: int)
    requires |entries| > 0
    requires var n := |entries| - 1;
             (b == -1 && forall j :: 0 <= j < n ==> !IsCandidate(entries, j))
             || (IsBestAmong(entries, n, b) && IsCandidate(entries, n) && CandidateTime(entries, n) > CandidateTime(entries, b))
    requires IsCandidate(entries, |entries| - 1)
    ensures IsBestAmong(entries, |entries|, |entries| - 1)
  {
  }

  /** The best `b` among all but the last entry stays best when the last entry does
      not beat it. */
  lemma EarlierStaysBest(entries: seq<FlightEntry>, b: int)
    requires |entries| > 0
    requires var n := |entries| - 1;
             IsBestAmong(entries, n, b) && !(IsCandidate(entries, n) && CandidateTime(entries, n) > CandidateTime(entries, b))
    ensures IsBestAmong(entries, |entries|, b)
  {
  }

  /** The pick is none exactly when no entry has an activity log, and otherwise the
      first flight of the earliest entry with the greatest rank time. */
  lemma {:induction false} PickIsBest(entries: seq<FlightEntry>)
    ensures IsPick(entries, Pick(entries))
    decreases |entries|
  {
    if entries != [] {
      var n := |entries| - 1;
      var init := entries[..n];
      PickIsBest(init);
      CandidatePrefix(entries, n);
      var p := Pick(init);
      if p.Some? {
        var b :| IsBestAmong(init, |init|, b) && p.value == Best(init[b].key, init[b].activityLog[0]);
        assert IsBestAmong(entries, n, b);
        if IsCandidate(entries, n) && CandidateTime(entries, n) > CandidateTime(entries, b) {
          LastIsBest(entries, b);
        } else {
          EarlierStaysBest(entries, b);
        }
      } else if IsCandidate(entries, n) {
        LastIsBest(entries, -1);
      }
    }
  }

  /** The loop over `Object.entries(flights)`: none when no entry has an activity
      log; otherwise the first flight of the entry with the greatest rank time, the
      earliest such entry winning a tie. */
  method SelectBestFlight(entries: seq<FlightEntry>) returns (best: Option<Best>)
    ensures best == Pick(entries)
    ensures IsPick(entries, best)
  {
    var bestFlight: Option<AwFlight> := None;
    var bestKey := "";
    var i := 0;
    while i < |entries|
      invariant 0 <= i <= |entries|
      invariant (if bestFlight.None? then None else Some(Best(bestKey, bestFlight.value))) == Pick(entries[..i])
    {
      assert entries[..i + 1][..i] == entries[..i];
      var actLog := entries[i].activityLog;
      if actLog == [] {
        i := i + 1;
        continue;
      }
      var f := actLog[0];
      var fTime := RankTime(f);
      var bestTime := if bestFlight.Some? then RankTime(bestFlight.value) else 0;
      if bestFlight.None? || fTime > bestTime {
        bestFlight := Some(f);
        bestKey := entries[i].key;
      }
      i := i + 1;
    }
    assert entries[..i] == entries;
    PickIsBest(entries);
    if bestFlight.None? {
      return None;
    }
    best := Some(Best(bestKey, bestFlight.value));
  }

  function PlaceOf(a: AwAirport): Place {
    Place(a.iata, a.friendlyName, a.terminal, a.gate, StripLeadingColon(a.tz))
  }

  function TimesOf(e: Epochs, iso: int -> string): Times {
    Times(EpochToISO(e.scheduled, iso), EpochToISO(e.estimated, iso), EpochToISO(e.actual, iso))
  }

  /** The `result` built from the chosen FlightAware flight `f` for `flight`. */
  function TrackResult(f: AwFlight, flight: string, iso: int -> string): FlightResult {
    FlightResult(ReplaceFirst(flight, "UAL", "UA"), PlaceOf(f.origin), PlaceOf(f.destination),
                 TimesOf(f.gateDeparture, iso), TimesOf(f.takeoff, iso), TimesOf(f.landing, iso),
                 TimesOf(f.gateArrival, iso), f.aircraftTypeFriendly, f.flightStatus, f.cancelled,
                 f.diverted, "flightaware")
  }

  // ---------------------------------------------------------------------------
  // The FR24 summary fallback

  /** The fields of an FR24 summary flight `tryFR24Summary` reads. */
  datatype SummaryFlight = SummaryFlight(flightEnded: bool, takeoff: string, landed: string, aircraftType: string,
                                         origIcao: string, destIcao: string, destIcaoActual: string)

  /** `flights.find(fl => !fl.flight_ended)`. */
  function FirstActive(flights: seq<SummaryFlight>): (r: Option<SummaryFlight>)
    ensures r.None? <==> forall i :: 0 <= i < |flights| ==> flights[i].flightEnded
    ensures r.Some? ==> !r.value.flightEnded && r.value in flights
  {
    if flights == [] then None
    else if !flights[0].flightEnded then Some(flights[0])
    else FirstActive(flights[1..])
  }

  /** `find(...) || flights[0]`: the first flight still under way, else the first. */
  function PickSummary(flights: seq<SummaryFlight>): (r: Option<SummaryFlight>)
    ensures r.None? <==> flights == []
    ensures r.Some? ==> r.value in flights
    ensures r.Some? && r.value.flightEnded ==> forall i :: 0 <= i < |flights| ==> flights[i].flightEnded
  {
    var active := FirstActive(flights);
    if active.Some? then active
    else if flights != [] then Some(flights[0])
    else None
  }

  /** `!!(dest_icao_actual && dest_icao && dest_icao !== dest_icao_actual)`. */
  predicate Diverted(f: SummaryFlight) {
    f.destIcaoActual != "" && f.destIcao != "" && f.destIcao != f.destIcaoActual
  }

  /** The `result` built by `tryFR24Summary` from `f`. */
  function SummaryResult(f: SummaryFlight, flight: string): (r: FlightResult)
    ensures r.diverted <==> f.destIcaoActual != "" && f.destIcao != "" && f.destIcao != f.destIcaoActual
    ensures r.status == (if f.flightEnded then "landed" else "en-route")
    ensures r.destination.iata == IcaoToIata(Or(f.destIcaoActual, f.destIcao))
    ensures r.origin.iata == IcaoToIata(f.origIcao)
  {
    FlightResult(ReplaceFirst(flight, "UAL", "UA"),
                 NoPlace.(iata := if f.origIcao != "" then IcaoToIata(f.origIcao) else ""),
                 NoPlace.(iata := if f.destIcaoActual != "" || f.destIcao != "" then IcaoToIata(Or(f.destIcaoActual, f.destIcao)) else ""),
                 NoTimes, NoTimes.(actual := f.takeoff), NoTimes.(actual := f.landed), NoTimes,
                 f.aircraftType, if f.flightEnded then "landed" else "en-route", false, Diverted(f), "fr24-summary")
  }

  /** What the summary request produced: a non-2xx status, a thrown exception or an
      unparsable body, or the `data` array (empty when missing). */
  datatype SummaryReply = SummaryFailed | SummaryData(flights: seq<SummaryFlight>)

  /** `tryFR24Summary`: `None` stands for its 404 `No flight data available`. */
  function TrySummary(tokenConfigured: bool, reply: SummaryReply, flight: string): (r: Option<FlightResult>)
    ensures r.Some? <==> tokenConfigured && reply.SummaryData? && reply.flights != []
  {
    if !tokenConfigured then None
    else match reply
      case SummaryFailed => None
      case SummaryData(flights) =>
        var f := PickSummary(flights);
        if f.None? then None else Some(SummaryResult(f.value, flight))
  }

  // ---------------------------------------------------------------------------
  // Client identity and rate limiting

  /** This endpoint's own `getClientIp`: the first forwarded address wins over
      `x-real-ip`, the reverse of `api/_rate-limit.js`. */
  function ClientIp(h: RateLimit.Headers): (ip: string)
    ensures ip != ""
  {
    var first := Trim(Split(RateLimit.ForwardedRaw(h.forwardedFor), ',')[0]);
    if first != "" then first else if h.realIp != "" then h.realIp else "unknown"
  }

  /** With both headers set to different addresses the two `getClientIp`s disagree. */
  lemma ClientIpDiffersFromShared(realIp: string, forwarded: string)
    requires realIp != "" && ',' !in forwarded && Trim(forwarded) != "" && Trim(forwarded) != realIp
    ensures var h := RateLimit.Headers(realIp, RateLimit.Text(forwarded));
            ClientIp(h) == Trim(forwarded) && RateLimit.GetClientIp(h) == realIp
  {
    SplitNoSeparator(forwarded, ',');
  }

  datatype IpDecision = IpDecision(limited: bool, store: map<string, seq<int>>, lastCleanup: int)

  /** One call of `isRateLimited`: the client's log is evicted and, unless full,
      gets `now`; an admitted call sweeps every log when the last sweep is more than
      five minutes old. */
  function Decide(store: map<string, seq<int>>, lastCleanup: int, ip: string, now: int): IpDecision {
    var log := if ip in store then store[ip] else [];
    var a := Admit(log, now, MaxPerMinute);
    var recorded := store[ip := a.log];
    if a.limited then IpDecision(true, recorded, lastCleanup)
    else if now - lastCleanup > SweepIntervalMs then IpDecision(false, SweepStore(recorded, now - WindowMs), now)
    else IpDecision(false, recorded, lastCleanup)
  }

  /** The same rule as the shared limiter of `api/_rate-limit.js` with a maximum of
      five, applied to a registry holding only this store. */
  lemma SameRuleAsSharedLimiter(store: map<string, seq<int>>, lastCleanup: int, ip: string, now: int, name: string)
    ensures var d := Decide(store, lastCleanup, ip, now);
            var e := RateLimit.Decide(map[name := store], lastCleanup, RateLimit.Limiter(name, MaxPerMinute), ip, now);
            e.limited == d.limited && e.stores == map[name := d.store] && e.lastCleanup == d.lastCleanup
  {
    var d := Decide(store, lastCleanup, ip, now);
    var e := RateLimit.Decide(map[name := store], lastCleanup, RateLimit.Limiter(name, MaxPerMinute), ip, now);
    var log := if ip in store then store[ip] else [];
    var a := Admit(log, now, MaxPerMinute);
    var recorded := map[name := store][name := store[ip := a.log]];
    assert recorded == map[name := store[ip := a.log]];
    if !a.limited && now - lastCleanup > SweepIntervalMs {
      assert RateLimit.SweepAll(recorded, now - WindowMs) == map[name := SweepStore(store[ip := a.log], now - WindowMs)];
    }
  }

  /** An admitted call's log lies wholly inside the window it was admitted in. */
  lemma AdmittedLogIsFresh(log: seq<int>, now: int)
    requires !Admit(log, now, MaxPerMinute).limited
    ensures var a := Admit(log, now, MaxPerMinute).log;
            DropStale(a, now - WindowMs) == a
  {
    var a := Admit(log, now, MaxPerMinute).log;
    var kept := DropStale(log, now - WindowMs);
    assert a == kept + [now];
    if kept != [] {
      assert a[0] == kept[0] && a[0] >= now - WindowMs;
    } else {
      assert a == [now];
    }
  }

  /** Whatever the sweep does, the caller's log afterwards is exactly its admission
      log: the sweep never drops a client that was just recorded. */
  lemma DecideRecordsAdmission(store: map<string, seq<int>>, lastCleanup: int, ip: string, now: int)
    ensures var log := if ip in store then store[ip] else [];
            var d := Decide(store, lastCleanup, ip, now);
            ip in d.store && d.store[ip] == Admit(log, now, MaxPerMinute).log
            && d.limited == Admit(log, now, MaxPerMinute).limited
  {
    var log := if ip in store then store[ip] else [];
    var a := Admit(log, now, MaxPerMinute);
    if !a.limited {
      AdmittedLogIsFresh(log, now);
      var recorded := store[ip := a.log];
      assert recorded[ip] == a.log && a.log != [];
    }
  }

  /** The decisions for calls from one client at the given times. */
  function ReplayDecide(store: map<string, seq<int>>, lastCleanup: int, ip: string, times: seq<int>): (r: seq<bool>)
    ensures |r| == |times|
    decreases |times|
  {
    if times == [] then []
    else
      var d := Decide(store, lastCleanup, ip, times[0]);
      [d.limited] + ReplayDecide(d.store, d.lastCleanup, ip, times[1..])
  }

  /** One client's decisions depend only on that client's own log. */
  lemma {:induction false} ReplayDecideIsReplay(store: map<string, seq<int>>, lastCleanup: int, ip: string, times: seq<int>)
    ensures ReplayDecide(store, lastCleanup, ip, times)
              == Replay(if ip in store then store[ip] else [], times, MaxPerMinute)
    decreases |times|
  {
    if times != [] {
      var d := Decide(store, lastCleanup, ip, times[0]);
      DecideRecordsAdmission(store, lastCleanup, ip, times[0]);
      ReplayDecideIsReplay(d.store, d.lastCleanup, ip, times[1..]);
    }
  }

  /** A new client's calls within one minute: the first five pass, the rest are
      refused. */
  lemma FivePerMinute(store: map<string, seq<int>>, lastCleanup: int, ip: string, times: seq<int>)
    requires ip !in store && times != []
    requires forall i, j :: 0 <= i < j < |times| ==> times[i] <= times[j]
    requires forall i :: 0 <= i < |times| ==> times[i] >= times[|times| - 1] - WindowMs
    ensures forall k :: 0 <= k < |times| ==> ReplayDecide(store, lastCleanup, ip, times)[k] == (k >= MaxPerMinute)
  {
    ReplayDecideIsReplay(store, lastCleanup, ip, times);
    BurstWithinWindow([], times, MaxPerMinute);
  }

  // ---------------------------------------------------------------------------
  // The handler

  datatype Request = Request(httpMethod: string, origin: string, flight: RawParam, headers: RateLimit.Headers)

  datatype Body = Result(result: FlightResult, cached: bool) | Failure(message: string) | NoContent

  datatype Response = Response(status: int, allowOrigin: string, cacheControl: string, body: Body)

  /** `Access-Control-Allow-Origin` from `corsHeaders`: the origin itself when it is
      the site or `http://localhost` with an optional port, otherwise the site. */
  function AllowOrigin(origin: string): (r: string)
    ensures r == SiteOrigin || (r == origin && r != "" && OriginAllowedStrict(r))
    ensures origin != "" && OriginAllowedStrict(origin) ==> r == origin
  {
    if origin == SiteOrigin || (origin != "" && OriginAllowedStrict(origin)) then origin else SiteOrigin
  }

  /** What the FlightAware request produced: blocked (a network failure, a non-2xx
      status, no bootstrap script, or unparsable JSON) or the bootstrap's `flights`. */
  datatype Scrape = ScrapeFailed | Bootstrap(entries: seq<FlightEntry>)

  /** The independent inputs of one request: when it arrives, when the upstream
      data is cached, the two upstream outcomes, the `FR24_API_TOKEN` setting, and
      `toISOString`. */
  datatype World = World(now: int, doneAt: int, scrape: Scrape, summary: SummaryReply, tokenConfigured: bool,
                         iso: int -> string)

  datatype FtState = FtState(cache: TtlCache.Cache<FlightResult>, store: map<string, seq<int>>, lastCleanup: int)

  datatype Handled = Handled(response: Response, state: FtState)

  /** The upstream part of `handler` after the checks: the FlightAware result from
      the loop's pick, its 404, or the summary fallback. */
  function Upstream(flight: string, w: World): (r: Option<FlightResult>)
  {
    match w.scrape
    case ScrapeFailed => TrySummary(w.tokenConfigured, w.summary, flight)
    case Bootstrap(entries) =>
      var best := Pick(entries);
      if best.None? then None else Some(TrackResult(best.value.flight, flight, w.iso))
  }

  /** `handler` for one request: CORS, the method, then the flight number's
      presence and format. */
  function HandleStep(s: FtState, req: Request, w: World): (r: Handled)
    requires s.cache.Valid()
    ensures r.state.cache.Valid()
    ensures s.cache.Size() <= TtlCache.EvictAbove + 1 ==> r.state.cache.Size() <= TtlCache.EvictAbove + 1
  {
    var allow := AllowOrigin(req.origin);
    if req.httpMethod == "OPTIONS" then Handled(Response(204, allow, "", NoContent), s)
    else if req.httpMethod != "GET" then Handled(Response(405, allow, "", Failure("Method not allowed")), s)
    else if req.flight.Missing? || req.flight == One("") then
      Handled(Response(400, allow, "", Failure("Missing flight parameter")), s)
    else
      var flight := NormalizeFlightNumber(req.flight);
      if !IsUalFlight(flight) then Handled(Response(400, allow, "", Failure("Invalid flight number")), s)
      else CacheStep(s, allow, flight, ClientIp(req.headers), w)
  }

  /** The cache read of `handler` for a well-formed `flight`. */
  function CacheStep(s: FtState, allow: string, flight: string, ip: string, w: World): (r: Handled)
    requires s.cache.Valid()
    ensures r.state.cache.Valid()
    ensures s.cache.Size() <= TtlCache.EvictAbove + 1 ==> r.state.cache.Size() <= TtlCache.EvictAbove + 1
  {
    var got := TtlCache.Lookup(s.cache, "fa:" + flight, w.now, CacheTtlMs);
    if got.data.Some? then Handled(Response(200, allow, CacheControl, Result(got.data.value, true)), s.(cache := got.cache))
    else FetchStep(s.(cache := got.cache), allow, flight, ip, w)
  }

  /** After a cache miss: the rate limit, the upstream, and the cache write. */
  function FetchStep(s: FtState, allow: string, flight: string, ip: string, w: World): (r: Handled)
    requires s.cache.Valid()
    ensures r.state.cache.Valid()
    ensures s.cache.Size() <= TtlCache.EvictAbove + 1 ==> r.state.cache.Size() <= TtlCache.EvictAbove + 1
  {
    var d := Decide(s.store, s.lastCleanup, ip, w.now);
    var s2 := s.(store := d.store, lastCleanup := d.lastCleanup);
    if d.limited then Handled(Response(429, allow, "", Failure("Rate limited")), s2)
    else
      var up := Upstream(flight, w);
      if up.None? then
        var message := if w.scrape.ScrapeFailed? then "No flight data available" else "No active flight found";
        Handled(Response(404, allow, "", Failure(message)), s2)
      else
        Handled(Response(200, allow, CacheControl, Result(up.value, false)),
                s2.(cache := TtlCache.Store(s.cache, "fa:" + flight, up.value, w.doneAt)))
  }

  /** Requests refused before the cache change nothing: `OPTIONS`, other methods,
      a missing or malformed flight number. */
  lemma RefusedEarly(s: FtState, req: Request, w: World)
    requires s.cache.Valid()
    requires req.httpMethod != "GET" || req.flight.Missing? || req.flight == One("")
             || !IsUalFlight(NormalizeFlightNumber(req.flight))
    ensures var r := HandleStep(s, req, w);
            r.state == s && r.response.status in {204, 405, 400}
  {
  }

  /** A cached answer is served without touching the rate limiter. */
  lemma CacheHitSkipsLimiter(s: FtState, req: Request, w: World)
    requires s.cache.Valid() && req.httpMethod == "GET" && !(req.flight.Missing? || req.flight == One(""))
    requires IsUalFlight(NormalizeFlightNumber(req.flight))
    requires var key := "fa:" + NormalizeFlightNumber(req.flight);
             key in s.cache.entries && w.now - s.cache.entries[key].ts <= CacheTtlMs
    ensures var r := HandleStep(s, req, w);
            var key := "fa:" + NormalizeFlightNumber(req.flight);
            r.state == s && r.response.status == 200
            && r.response.body == Result(s.cache.entries[key].data, true)
  {
    HandleIsCacheStep(s, req, w);
    CacheHitAtCacheStep(s, AllowOrigin(req.origin), NormalizeFlightNumber(req.flight), ClientIp(req.headers), w);
  }

  /** The cache read answers a fresh entry itself and leaves the state alone. */
  lemma CacheHitAtCacheStep(s: FtState, allow: string, flight: string, ip: string, w: World)
    requires s.cache.Valid()
    requires "fa:" + flight in s.cache.entries && w.now - s.cache.entries["fa:" + flight].ts <= CacheTtlMs
    ensures var r := CacheStep(s, allow, flight, ip, w);
            r.state == s && r.response.status == 200
            && r.response.body == Result(s.cache.entries["fa:" + flight].data, true)
  {
  }

  /** A result fetched at `doneAt` is served from the cache, marked cached, for the
      next two minutes, whatever the upstream then says. */
  lemma FetchedResultIsCached(s: FtState, allow: string, flight: string, ip: string, w: World,
                              allow2: string, ip2: string, w2: World)
    requires s.cache.Valid()
    requires FetchStep(s, allow, flight, ip, w).response.status == 200
    requires w2.now - w.doneAt <= CacheTtlMs
    ensures var r := FetchStep(s, allow, flight, ip, w);
            r.response.body.Result?
            && CacheStep(r.state, allow2, flight, ip2, w2).response.body == r.response.body.(cached := true)
  {
    var up := Upstream(flight, w);
    TtlCache.StoreThenLookup(s.cache, "fa:" + flight, up.value, w.doneAt, w2.now, CacheTtlMs);
  }

  /** Only a well-formed `GET` is answered with 200. */
  lemma OkIsWellFormedGet(s: FtState, req: Request, w: World)
    requires s.cache.Valid()
    ensures HandleStep(s, req, w).response.status == 200 ==>
              && req.httpMethod == "GET" && !(req.flight.Missing? || req.flight == One(""))
              && IsUalFlight(NormalizeFlightNumber(req.flight))
  {
  }

  /** A well-formed `GET` goes on to the cache read. */
  lemma HandleIsCacheStep(s: FtState, req: Request, w: World)
    requires s.cache.Valid()
    requires req.httpMethod == "GET" && !(req.flight.Missing? || req.flight == One(""))
    requires IsUalFlight(NormalizeFlightNumber(req.flight))
    ensures HandleStep(s, req, w)
            == CacheStep(s, AllowOrigin(req.origin), NormalizeFlightNumber(req.flight), ClientIp(req.headers), w)
  {
  }

  /** An answer that is not marked cached comes from the upstream after a miss. */
  lemma FreshAnswerWasFetched(s: FtState, allow: string, flight: string, ip: string, w: World)
    requires s.cache.Valid()
    requires CacheStep(s, allow, flight, ip, w).response.body.Result?
    requires !CacheStep(s, allow, flight, ip, w).response.body.cached
    ensures var got := TtlCache.Lookup(s.cache, "fa:" + flight, w.now, CacheTtlMs);
            CacheStep(s, allow, flight, ip, w) == FetchStep(s.(cache := got.cache), allow, flight, ip, w)
  {
  }

  /** The same through the whole handler: a fresh answer for a flight number is
      what the same request gets, marked cached, for the next two minutes. */
  lemma ResultCachedForTwoMinutes(s: FtState, req: Request, w: World, req2: Request, w2: World)
    requires s.cache.Valid()
    requires HandleStep(s, req, w).response.status == 200
    requires HandleStep(s, req, w).response.body.Result? && !HandleStep(s, req, w).response.body.cached
    requires req2.httpMethod == "GET" && req2.flight == req.flight && w2.now - w.doneAt <= CacheTtlMs
    ensures var r := HandleStep(s, req, w);
            HandleStep(r.state, req2, w2).response.body == r.response.body.(cached := true)
  {
    var flight := NormalizeFlightNumber(req.flight);
    var ip := ClientIp(req.headers);
    var allow := AllowOrigin(req.origin);
    OkIsWellFormedGet(s, req, w);
    HandleIsCacheStep(s, req, w);
    FreshAnswerWasFetched(s, allow, flight, ip, w);
    var got := TtlCache.Lookup(s.cache, "fa:" + flight, w.now, CacheTtlMs);
    var s1 := s.(cache := got.cache);
    var r := FetchStep(s1, allow, flight, ip, w);
    HandleIsCacheStep(r.state, req2, w2);
    FetchedResultIsCached(s1, allow, flight, ip, w, AllowOrigin(req2.origin), ClientIp(req2.headers), w2);
  }

  /** A bootstrap without any activity log is a 404 and does not fall back to the
      summary. */
  lemma NoCandidateIs404(flight: string, w: World)
    requires w.scrape.Bootstrap?
    requires forall i :: 0 <= i < |w.scrape.entries| ==> w.scrape.entries[i].activityLog == []
    ensures Upstream(flight, w).None?
  {
    PickIsBest(w.scrape.entries);
  }

  /** The module state. */
  class FlightTimesEndpoint {
    var cache: TtlCache.Cache<FlightResult>
    var rateLimitByIp: map<string, seq<int>>
    var lastRateLimitCleanup: int

    ghost predicate Valid()
      reads this
    {
      cache.Valid() && cache.Size() <= TtlCache.EvictAbove + 1
    }

    function State(): FtState
      reads this
    {
      FtState(cache, rateLimitByIp, lastRateLimitCleanup)
    }

    /** Module load at `loadTime`. */
    constructor (loadTime: int)
      ensures Valid() && cache == Empty() && rateLimitByIp == map[] && lastRateLimitCleanup == loadTime
    {
      cache := Empty();
      rateLimitByIp := map[];
      lastRateLimitCleanup := loadTime;
    }

    method GetCached(key: string, now: int) returns (data: Option<FlightResult>)
      requires Valid()
      modifies this
      ensures Valid()
      ensures TtlCache.Got(data, cache) == TtlCache.Lookup(old(cache), key, now, CacheTtlMs)
      ensures rateLimitByIp == old(rateLimitByIp) && lastRateLimitCleanup == old(lastRateLimitCleanup)
    {
      if key !in cache.entries {
        return None;
      }
      var entry := cache.entries[key];
      if now - entry.ts > CacheTtlMs {
        cache := Delete(cache, key);
        return None;
      }
      return Some(entry.data);
    }

    method SetCache(key: string, data: FlightResult, now: int)
      requires Valid()
      modifies this
      ensures Valid()
      ensures cache == TtlCache.Store(old(cache), key, data, now)
      ensures rateLimitByIp == old(rateLimitByIp) && lastRateLimitCleanup == old(lastRateLimitCleanup)
    {
      if cache.Size() > TtlCache.EvictAbove {
        cache := DeleteOldest(cache);
      }
      cache := Set(cache, key, TtlCache.Entry(data, now));
    }

    /** `isRateLimited(req)` at time `now`. */
    method IsRateLimited(headers: RateLimit.Headers, now: int) returns (limited: bool)
      modifies this
      ensures IpDecision(limited, rateLimitByIp, lastRateLimitCleanup)
                == Decide(old(rateLimitByIp), old(lastRateLimitCleanup), ClientIp(headers), now)
      ensures cache == old(cache)
    {
      var ip := ClientIp(headers);
      var prior := rateLimitByIp;
      var store := prior;
      if ip !in store {
        store := store[ip := []];
      }
      var ipLog := Evict(store[ip], now - WindowMs);
      ghost var a := Admit(if ip in prior then prior[ip] else [], now, MaxPerMinute);
      assert a.limited <==> |ipLog| >= MaxPerMinute;
      assert store[ip := ipLog] == prior[ip := ipLog];
      if |ipLog| >= MaxPerMinute {
        assert a.log == ipLog;
        rateLimitByIp := store[ip := ipLog];
        return true;
      }
      ipLog := ipLog + [now];
      assert a.log == ipLog;
      assert store[ip := ipLog] == prior[ip := ipLog];
      rateLimitByIp := store[ip := ipLog];
      if now - lastRateLimitCleanup > SweepIntervalMs {
        lastRateLimitCleanup := now;
        rateLimitByIp := SweepStoreInPlace(rateLimitByIp, now - WindowMs);
      }
      limited := false;
    }

    /** One request, with no other request interleaved. */
    method Handle(req: Request, w: World) returns (response: Response)
      requires Valid()
      modifies this
      ensures Valid()
      ensures Handled(response, State()) == HandleStep(old(State()), req, w)
    {
      var allow := AllowOrigin(req.origin);
      if req.httpMethod == "OPTIONS" {
        assert Handled(Response(204, allow, "", NoContent), State()) == HandleStep(old(State()), req, w);
        return Response(204, allow, "", NoContent);
      }
      if req.httpMethod != "GET" {
        assert Handled(Response(405, allow, "", Failure("Method not allowed")), State()) == HandleStep(old(State()), req, w);
        return Response(405, allow, "", Failure("Method not allowed"));
      }
      if req.flight.Missing? || req.flight == One("") {
        assert Handled(Response(400, allow, "", Failure("Missing flight parameter")), State()) == HandleStep(old(State()), req, w);
        return Response(400, allow, "", Failure("Missing flight parameter"));
      }
      var flight := NormalizeFlightNumber(req.flight);
      if !IsUalFlight(flight) {
        assert Handled(Response(400, allow, "", Failure("Invalid flight number")), State()) == HandleStep(old(State()), req, w);
        return Response(400, allow, "", Failure("Invalid flight number"));
      }
      var key := "fa:" + flight;
      var cached := GetCached(key, w.now);
      if cached.Some? {
        response := Response(200, allow, CacheControl, Result(cached.value, true));
        assert Handled(response, State()) == HandleStep(old(State()), req, w);
        return;
      }
      var limited := IsRateLimited(req.headers, w.now);
      if limited {
        response := Response(429, allow, "", Failure("Rate limited"));
        assert Handled(response, State()) == HandleStep(old(State()), req, w);
        return;
      }
      var up: Option<FlightResult>;
      match w.scrape {
        case ScrapeFailed =>
          up := TrySummary(w.tokenConfigured, w.summary, flight);
        case Bootstrap(entries) =>
          var best := SelectBestFlight(entries);
          up := if best.None? then None else Some(TrackResult(best.value.flight, flight, w.iso));
      }
      assert up == Upstream(flight, w);
      if up.None? {
        var message := if w.scrape.ScrapeFailed? then "No flight data available" else "No active flight found";
        response := Response(404, allow, "", Failure(message));
        assert Handled(response, State()) == HandleStep(old(State()), req, w);
        return;
      }
      SetCache(key, up.value, w.doneAt);
      response := Response(200, allow, CacheControl, Result(up.value, false));
      assert Handled(response, State()) == HandleStep(old(State()), req, w);
    }
  }
}
