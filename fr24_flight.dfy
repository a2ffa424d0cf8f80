/** `api/fr24-flight.js`: one flight looked up in the official FR24 API, live
    positions first and the flight summary second, normalised into one record, with a
    one-minute response cache and a global limit of ten upstream lookups a minute. */
module Fr24Flight {
  import opened Common
  import opened OrderedMaps
  import opened SlidingWindow
  import TtlCache

  const CacheTtlMs := 60000
  const MaxPerMinute := 10
  const CacheControl := "s-maxage=60, stale-while-revalidate=120"

  // ---------------------------------------------------------------------------
  // Flight numbers

  /** The rewriting `normalizeFlightNumber` applies once the text is compact and
      upper-case: `UAL` followed by a digit becomes `UA`, then a bare number of up
      to four digits gets a `UA` prefix. */
  function IataPrefix(c: string): string {
    var u := if StartsWith(c, "UAL") && |c| > 3 && IsDigit(c[3]) then "UA" + c[3..] else c;
    if IsBareNumber(u) then "UA" + u else u
  }

  /** `normalizeFlightNumber`; an absent parameter is the empty string. */
  function NormalizeFlightNumber(raw: string): string {
    IataPrefix(CompactUpper(raw))
  }

  lemma StartsWithPrefix(p: string, x: string)
    ensures StartsWith(p + x, p)
  {
    assert (p + x)[..|p|] == p;
  }

  lemma CompactConcat(a: string, b: string)
    requires IsCompact(a) && IsCompact(b)
    ensures IsCompact(a + b)
  {
    var r := a + b;
    assert forall i :: |a| <= i < |r| ==> r[i] == b[i - |a|];
  }

  lemma DigitsAreCompact(d: string)
    requires IsDigits(d)
    ensures IsCompact(d) && !StartsWith(d, "UA") && !StartsWith(d, "UAL")
  {
    if |d| >= 2 {
      assert IsDigit(d[..2][0]);
    }
    if |d| >= 3 {
      assert IsDigit(d[..3][0]);
    }
  }

  /** The IATA prefix keeps a compact string compact. */
  lemma IataPrefixIsCompact(c: string)
    requires IsCompact(c)
    ensures IsCompact(IataPrefix(c))
  {
    assert IsCompact("UA");
    var u := if StartsWith(c, "UAL") && |c| > 3 && IsDigit(c[3]) then "UA" + c[3..] else c;
    if StartsWith(c, "UAL") && |c| > 3 && IsDigit(c[3]) {
      assert IsCompact(c[3..]);
      CompactConcat("UA", c[3..]);
    }
    if IsBareNumber(u) {
      CompactConcat("UA", u);
    }
  }

  /** Applying the IATA prefix rule twice is applying it once. */
  lemma IataPrefixIdempotent(c: string)
    ensures IataPrefix(IataPrefix(c)) == IataPrefix(c)
  {
    var rewritten := StartsWith(c, "UAL") && |c| > 3 && IsDigit(c[3]);
    var u := if rewritten then "UA" + c[3..] else c;
    var q := IataPrefix(c);
    if rewritten {
      assert u[2] == c[3] && !IsDigit(u[0]);
      assert !StartsWith(u, "UAL");
      assert q == u;
    } else if IsBareNumber(u) {
      assert q[2] == u[0] && !IsDigit(q[0]);
      assert !StartsWith(q, "UAL");
    }
  }

  /** Normalised numbers have no white space and no lower-case letter. */
  lemma NormalizeIsCompact(s: string)
    ensures IsCompact(NormalizeFlightNumber(s))
  {
    CompactUpperIsCompact(s);
    IataPrefixIsCompact(CompactUpper(s));
  }

  /** Normalising twice is normalising once. */
  lemma NormalizeIdempotent(s: string)
    ensures NormalizeFlightNumber(NormalizeFlightNumber(s)) == NormalizeFlightNumber(s)
  {
    var q := NormalizeFlightNumber(s);
    NormalizeIsCompact(s);
    CompactIsFixpoint(q);
    IataPrefixIdempotent(CompactUpper(s));
  }

  /** A compact string is normalised by its IATA prefix alone. */
  lemma NormalizeCompact(c: string)
    requires IsCompact(c)
    ensures NormalizeFlightNumber(c) == IataPrefix(c)
  {
    CompactIsFixpoint(c);
  }

  /** From `tests/fr24-flight.test.js`, over any digits `d`: a bare number gets the
      `UA` prefix. */
  lemma BareNumberGetsPrefix(d: string)
    requires IsBareNumber(d)
    ensures NormalizeFlightNumber(d) == "UA" + d
  {
    DigitsAreCompact(d);
    NormalizeCompact(d);
  }

  /** The IATA prefix turns `UAL` + `d` into `UA` + `d`. */
  lemma IataPrefixOfUal(d: string)
    requires IsBareNumber(d)
    ensures IataPrefix("UAL" + d) == "UA" + d
  {
    var ual := "UAL" + d;
    StartsWithPrefix("UAL", d);
    assert ual[3] == d[0] && ual[3..] == d;
    assert !IsDigit(("UA" + d)[0]);
  }

  /** The IATA prefix leaves `UA` + `d` as it is. */
  lemma IataPrefixOfUa(d: string)
    requires IsBareNumber(d)
    ensures IataPrefix("UA" + d) == "UA" + d
  {
    var ua := "UA" + d;
    assert ua[..3][2] == ua[2] == d[0];
    assert !IsDigit(ua[0]);
  }

  /** `UAL` + `d` becomes `UA` + `d`. */
  lemma UalBecomesUa(d: string)
    requires IsBareNumber(d)
    ensures NormalizeFlightNumber("UAL" + d) == "UA" + d
  {
    DigitsAreCompact(d);
    assert IsCompact("UAL");
    CompactConcat("UAL", d);
    NormalizeCompact("UAL" + d);
    IataPrefixOfUal(d);
  }

  /** `UA` + `d` stays as it is. */
  lemma UaKept(d: string)
    requires IsBareNumber(d)
    ensures NormalizeFlightNumber("UA" + d) == "UA" + d
  {
    DigitsAreCompact(d);
    assert IsCompact("UA");
    CompactConcat("UA", d);
    NormalizeCompact("UA" + d);
    IataPrefixOfUa(d);
  }

  /** Another airline's number, such as `DL100`, is left as it is. */
  lemma OtherAirlineKept(c: string)
    requires IsCompact(c) && !StartsWith(c, "UAL") && c != [] && !IsDigit(c[0])
    ensures NormalizeFlightNumber(c) == c
  {
    NormalizeCompact(c);
  }

  /** An empty parameter normalises to the empty string. */
  lemma EmptyStaysEmpty()
    ensures NormalizeFlightNumber("") == ""
  {
    assert IsCompact("");
    NormalizeCompact("");
  }

  /** The length of the run of ASCII letters `s` starts with. */
  function LeadingLetters(s: string): (n: nat)
    ensures n <= |s|
    ensures forall i :: 0 <= i < n ==> IsAsciiLetter(s[i])
    ensures n < |s| ==> !IsAsciiLetter(s[n])
  {
    if s != [] && IsAsciiLetter(s[0]) then 1 + LeadingLetters(s[1..]) else 0
  }

  /** `/^[A-Z]{1,3}\d{1,4}[A-Z]?$/i`, read with the letter prefix taken whole: a
      digit has to follow it, so it cannot be cut shorter. */
  predicate IsFlightFormat(s: string) {
    var n := LeadingLetters(s);
    1 <= n <= 3 && DigitsThenLetter(s[n..])
  }

  /** The regular expression's own reading: some split into one to three letters
      and a `\d{1,4}[A-Z]?` tail. */
  ghost predicate MatchesPattern(s: string) {
    exists k :: 1 <= k <= 3 && k <= |s| && (forall i :: 0 <= i < k ==> IsAsciiLetter(s[i]))
                && DigitsThenLetter(s[k..])
  }

  /** A split the pattern accepts cuts at the end of the leading letters, since a
      digit follows it. */
  lemma PatternSplitIsLeading(s: string, k: nat)
    requires 1 <= k <= 3 && k <= |s| && (forall i :: 0 <= i < k ==> IsAsciiLetter(s[i]))
    requires DigitsThenLetter(s[k..])
    ensures LeadingLetters(s) == k
  {
    TailStartsWithDigit(s[k..]);
    assert s[k..][0] == s[k];
  }

  lemma TailStartsWithDigit(t: string)
    requires DigitsThenLetter(t)
    ensures t != [] && IsDigit(t[0])
  {
    if 1 <= |t| <= 4 && IsDigits(t) {
    } else {
      assert t[..|t| - 1][0] == t[0];
    }
  }

  /** The two readings agree on every string. */
  lemma FormatIsPattern(s: string)
    ensures IsFlightFormat(s) <==> MatchesPattern(s)
  {
    var n := LeadingLetters(s);
    if IsFlightFormat(s) {
      assert 1 <= n <= 3 && n <= |s| && (forall i :: 0 <= i < n ==> IsAsciiLetter(s[i])) && DigitsThenLetter(s[n..]);
    }
    if MatchesPattern(s) {
      var k :| 1 <= k <= 3 && k <= |s| && (forall i :: 0 <= i < k ==> IsAsciiLetter(s[i]))
               && DigitsThenLetter(s[k..]);
      PatternSplitIsLeading(s, k);
    }
  }

  /** Every bare number or `UA`/`UAL` number with digits normalises to an accepted
      `UA` number. */
  lemma UnitedNumbersAccepted(d: string)
    requires IsBareNumber(d)
    ensures IsFlightFormat("UA" + d)
  {
    var q := "UA" + d;
    assert !IsAsciiLetter(q[2]);
    assert LeadingLetters(q[2..]) == 0;
    assert LeadingLetters(q[1..]) == 1;
    assert LeadingLetters(q) == 2;
    assert q[2..] == d;
  }

  // ---------------------------------------------------------------------------
  // Response records

  /** A nested airport object; missing fields are `""`, a missing object all `""`. */
  datatype RawAirport = RawAirport(iata: string, icao: string, name: string)

  /** The fields of a live-positions entry the normaliser reads. Strings are `""`
      when missing; numbers are `None` when `null` or missing. */
  datatype LiveRecord = LiveRecord(
    flightIata: string, flightIcao: string, callsign: string, onGround: bool,
    origIata: string, origIcao: string, origin: RawAirport,
    destIata: string, destIcao: string, destination: RawAirport,
    aircraftType: string, typeCode: string, registration: string, reg: string, icao24: string,
    scheduledDeparture: string, depScheduled: string, actualDeparture: string, depActual: string,
    scheduledArrival: string, arrScheduled: string, estimatedArrival: string, arrEstimated: string,
    lat: Option<real>, latitude: Option<real>, lon: Option<real>, longitude: Option<real>,
    alt: Option<real>, altitude: Option<real>, gspeed: Option<real>, speed: Option<real>,
    heading: Option<real>, track: Option<real>,
    flightId: string, fr24Id: string)

  /** The fields of a flight-summary entry the normaliser reads. */
  datatype SummaryRecord = SummaryRecord(
    flightIata: string, numberIata: string, numberIcao: string, callsign: string, status: string,
    origin: RawAirport, airportOriginIata: string, destination: RawAirport, airportDestinationIata: string,
    nestedType: string, aircraftType: string, nestedRegistration: string, registration: string,
    departureScheduled: string, scheduledDeparture: string, departureActual: string, actualDeparture: string,
    arrivalScheduled: string, scheduledArrival: string, arrivalEstimated: string, estimatedArrival: string,
    flightId: string, fr24Id: string)

  datatype Airport = Airport(iata: string, icao: string, name: string)

  /** `icao24` is present only in the live record. */
  datatype Aircraft = Aircraft(typeCode: string, reg: string, icao24: Option<string>)

  datatype Departure = Departure(scheduled: string, actual: string)

  datatype Arrival = Arrival(scheduled: string, estimated: string)

  datatype Position = Position(lat: Option<real>, lon: Option<real>, alt: Option<real>,
                               speed: Option<real>, heading: Option<real>)

  /** The normalised flight without `_raw`. */
  datatype FlightInfo = FlightInfo(flightNumber: string, callsign: string, status: string,
                                   origin: Airport, destination: Airport, aircraft: Aircraft,
                                   departure: Departure, arrival: Arrival, position: Option<Position>,
                                   flightId: string)

  datatype RawRecord = LiveRaw(live: LiveRecord) | SummaryRaw(summary: SummaryRecord)

  /** A normaliser's result: the flight and, as `_raw`, the record it came from. */
  datatype Normalized = Normalized(info: FlightInfo, raw: RawRecord)

  /** `a ?? b` on numbers: `b` only when `a` is `null` or missing. The result is
      one of the operands, the first is passed over only when it is missing
      (whatever its value, zero included), and the result is missing only when
      both are. */
  function Coalesce(a: Option<real>, b: Option<real>): (r: Option<real>)
    ensures r == a || r == b
    ensures r != a ==> a.None?
    ensures r.None? <==> a.None? && b.None?
  {
    if a.Some? then a else b
  }

  /** `normalizeLiveResponse(data, flightNumber)`; `data` is `None` for `null` or a
      body without a `data` array. */
  function NormalizeLive(data: Option<seq<LiveRecord>>, flightNumber: string): (r: Option<Normalized>)
    ensures r.None? <==> data.None? || data.value == []
    ensures r.Some? ==> r.value.raw == LiveRaw(data.value[0])
    ensures r.Some? ==> (r.value.info.status == "on-ground" <==> data.value[0].onGround)
    ensures r.Some? ==> r.value.info.status in {"on-ground", "en-route"}
    ensures r.Some? ==> r.value.info.position.Some? && r.value.info.aircraft.icao24.Some?
  {
    if data.None? || data.value == [] then None
    else
      var f := data.value[0];
      Some(Normalized(FlightInfo(
        Or(f.flightIata, Or(f.flightIcao, flightNumber)),
        Or(f.callsign, f.flightIcao),
        if f.onGround then "on-ground" else "en-route",
        Airport(Or(f.origIata, f.origin.iata), Or(f.origIcao, f.origin.icao), f.origin.name),
        Airport(Or(f.destIata, f.destination.iata), Or(f.destIcao, f.destination.icao), f.destination.name),
        Aircraft(Or(f.aircraftType, f.typeCode), Or(f.registration, f.reg), Some(f.icao24)),
        Departure(Or(f.scheduledDeparture, f.depScheduled), Or(f.actualDeparture, f.depActual)),
        Arrival(Or(f.scheduledArrival, f.arrScheduled), Or(f.estimatedArrival, f.arrEstimated)),
        Some(Position(Coalesce(f.lat, f.latitude), Coalesce(f.lon, f.longitude), Coalesce(f.alt, f.altitude),
                      Coalesce(f.gspeed, f.speed), Coalesce(f.heading, f.track))),
        Or(f.flightId, f.fr24Id)), LiveRaw(f)))
  }

  /** Every primary field present: each output is the primary field (the first test
      of `normalizeLiveResponse`). */
  lemma LivePrimaryFields(f: LiveRecord, rest: seq<LiveRecord>, flightNumber: string)
    requires f.flightIata != "" && f.callsign != "" && f.origIata != "" && f.origIcao != ""
    requires f.destIata != "" && f.destIcao != "" && f.aircraftType != "" && f.registration != ""
    requires f.scheduledDeparture != "" && f.actualDeparture != "" && f.scheduledArrival != ""
    requires f.estimatedArrival != "" && f.flightId != ""
    requires f.lat.Some? && f.lon.Some? && f.alt.Some? && f.gspeed.Some? && f.heading.Some?
    ensures var r := NormalizeLive(Some([f] + rest), flightNumber).value.info;
            && r.flightNumber == f.flightIata && r.callsign == f.callsign
            && r.origin.iata == f.origIata && r.origin.icao == f.origIcao
            && r.destination.iata == f.destIata && r.destination.icao == f.destIcao
            && r.aircraft == Aircraft(f.aircraftType, f.registration, Some(f.icao24))
            && r.departure == Departure(f.scheduledDeparture, f.actualDeparture)
            && r.arrival == Arrival(f.scheduledArrival, f.estimatedArrival)
            && r.position == Some(Position(f.lat, f.lon, f.alt, f.gspeed, f.heading))
            && r.flightId == f.flightId
  {
  }

  /** Every primary field missing: each output is the fallback field, the flight
      number falls back to the argument after `flight_icao`, and each string without
      either becomes `""` (the fallback test of `normalizeLiveResponse`). */
  lemma LiveFallbackFields(f: LiveRecord, rest: seq<LiveRecord>, flightNumber: string)
    requires f.flightIata == "" && f.callsign == "" && f.origIata == "" && f.origIcao == ""
    requires f.destIata == "" && f.destIcao == "" && f.aircraftType == "" && f.registration == ""
    requires f.scheduledDeparture == "" && f.actualDeparture == "" && f.scheduledArrival == ""
    requires f.estimatedArrival == "" && f.flightId == ""
    requires f.lat.None? && f.lon.None? && f.alt.None? && f.gspeed.None? && f.heading.None?
    ensures var r := NormalizeLive(Some([f] + rest), flightNumber).value.info;
            && r.flightNumber == (if f.flightIcao != "" then f.flightIcao else flightNumber)
            && r.callsign == f.flightIcao
            && r.origin == Airport(f.origin.iata, f.origin.icao, f.origin.name)
            && r.destination == Airport(f.destination.iata, f.destination.icao, f.destination.name)
            && r.aircraft == Aircraft(f.typeCode, f.reg, Some(f.icao24))
            && r.departure == Departure(f.depScheduled, f.depActual)
            && r.arrival == Arrival(f.arrScheduled, f.arrEstimated)
            && r.position == Some(Position(f.latitude, f.longitude, f.altitude, f.speed, f.track))
            && r.flightId == f.fr24Id
  {
  }

  /** A position value of zero is kept, not replaced by its fallback. */
  lemma ZeroPositionKept(f: LiveRecord, rest: seq<LiveRecord>, flightNumber: string)
    requires f.lat == Some(0.0) && f.alt == Some(0.0) && f.gspeed == Some(0.0)
    ensures var p := NormalizeLive(Some([f] + rest), flightNumber).value.info.position.value;
            p.lat == Some(0.0) && p.alt == Some(0.0) && p.speed == Some(0.0)
  {
  }

  /** `normalizeSummaryResponse(data, flightNumber)`. */
  function NormalizeSummary(data: Option<seq<SummaryRecord>>, flightNumber: string): (r: Option<Normalized>)
    ensures r.None? <==> data.None? || data.value == []
    ensures r.Some? ==> r.value.raw == SummaryRaw(data.value[0])
    ensures r.Some? ==> r.value.info.position.None? && r.value.info.aircraft.icao24.None?
    ensures r.Some? ==> r.value.info.status != ""
    ensures r.Some? ==> (r.value.info.status == "unknown" <==> data.value[0].status in {"", "unknown"})
  {
    if data.None? || data.value == [] then None
    else
      var f := data.value[0];
      Some(Normalized(FlightInfo(
        Or(f.flightIata, Or(f.numberIata, flightNumber)),
        Or(f.callsign, f.numberIcao),
        Or(f.status, "unknown"),
        Airport(Or(f.origin.iata, f.airportOriginIata), f.origin.icao, f.origin.name),
        Airport(Or(f.destination.iata, f.airportDestinationIata), f.destination.icao, f.destination.name),
        Aircraft(Or(f.nestedType, f.aircraftType), Or(f.nestedRegistration, f.registration), None),
        Departure(Or(f.departureScheduled, f.scheduledDeparture), Or(f.departureActual, f.actualDeparture)),
        Arrival(Or(f.arrivalScheduled, f.scheduledArrival), Or(f.arrivalEstimated, f.estimatedArrival)),
        None,
        Or(f.flightId, f.fr24Id)), SummaryRaw(f)))
  }

  /** The summary's fallback test: with the nested objects missing, the airport
      codes, aircraft and id come from the flat and `airport.*.code` fields. */
  lemma SummaryFallbackFields(f: SummaryRecord, rest: seq<SummaryRecord>, flightNumber: string)
    requires f.origin == RawAirport("", "", "") && f.destination == RawAirport("", "", "")
    requires f.nestedType == "" && f.nestedRegistration == "" && f.flightId == "" && f.flightIata == ""
    ensures var r := NormalizeSummary(Some([f] + rest), flightNumber).value.info;
            && r.flightNumber == (if f.numberIata != "" then f.numberIata else flightNumber)
            && r.origin.iata == f.airportOriginIata && r.destination.iata == f.airportDestinationIata
            && r.aircraft == Aircraft(f.aircraftType, f.registration, None)
            && r.flightId == f.fr24Id
  {
  }

  // ---------------------------------------------------------------------------
  // The handler

  /** An FR24 request's outcome: a non-2xx status, a JSON body (`None` for `null` or
      no `data` array), or an exception, `abort` telling an `AbortError`. */
  datatype Fetch<T> = NotOk | Json(data: Option<seq<T>>) | Threw(abort: bool)

  /** The cached and returned body of a successful lookup. */
  datatype LookupResult = LookupResult(flight: FlightInfo, source: string, cached: bool)

  datatype Body = Found(result: LookupResult) | Failure(message: string) | NoContent

  datatype Response = Response(status: int, allowOrigin: string, cacheControl: string, body: Body)

  datatype Request = Request(httpMethod: string, origin: string, flight: string)

  /** The independent inputs of one request: its arrival time, the time the result
      is cached, whether `FR24_API_TOKEN` is set, and the two upstream outcomes. */
  datatype World = World(now: int, doneAt: int, tokenConfigured: bool,
                         live: Fetch<LiveRecord>, summary: Fetch<SummaryRecord>)

  datatype FrState = FrState(cache: TtlCache.Cache<LookupResult>, requestLog: seq<int>)

  datatype Handled = Handled(response: Response, state: FrState)

  /** `Access-Control-Allow-Origin` from `corsHeaders`: the origin itself when it is
      the site or contains `localhost`, otherwise the site. */
  function AllowOrigin(origin: string): (r: string)
    ensures r == SiteOrigin || (r == origin && r != "" && OriginAllowedLoose(r))
    ensures origin != "" && OriginAllowedLoose(origin) ==> r == origin
  {
    if origin == SiteOrigin || Contains(origin, "localhost") then origin else SiteOrigin
  }

  datatype Lookup = Looked(found: Option<Normalized>, source: string) | Errored(abort: bool)

  /** Live positions first, the summary only when they give nothing; an exception
      from either ends the lookup. */
  function Fr24Lookup(flight: string, w: World): (r: Lookup)
    ensures r.Looked? && r.found.Some? ==>
              (r.source == "fr24-official-live" <==> w.live.Json? && NormalizeLive(w.live.data, flight).Some?)
  {
    match w.live
    case Threw(abort) => Errored(abort)
    case NotOk => SummaryLookup(flight, w.summary)
    case Json(data) =>
      var live := NormalizeLive(data, flight);
      if live.Some? then Looked(live, "fr24-official-live") else SummaryLookup(flight, w.summary)
  }

  /** The flight-summary request, made when live positions give nothing. */
  function SummaryLookup(flight: string, summary: Fetch<SummaryRecord>): (r: Lookup)
    ensures r.Looked? ==> r.source == "fr24-official-summary"
  {
    match summary
    case Threw(abort) => Errored(abort)
    case NotOk => Looked(None, "fr24-official-summary")
    case Json(data) => Looked(NormalizeSummary(data, flight), "fr24-official-summary")
  }

  /** `handler` for one request: CORS, the method, the token, then the flight
      number's presence and format. */
  function HandleStep(s: FrState, req: Request, w: World): (r: Handled)
    requires s.cache.Valid()
    ensures r.state.cache.Valid()
    ensures s.cache.Size() <= TtlCache.EvictAbove + 1 ==> r.state.cache.Size() <= TtlCache.EvictAbove + 1
  {
    var allow := AllowOrigin(req.origin);
    if req.httpMethod == "OPTIONS" then Handled(Response(204, allow, "", NoContent), s)
    else if req.httpMethod != "GET" then Handled(Response(405, allow, "", Failure("Method not allowed")), s)
    else if !w.tokenConfigured then Handled(Response(500, allow, "", Failure("FR24 API not configured")), s)
    else if req.flight == "" then Handled(Response(400, allow, "", Failure("Missing flight parameter")), s)
    else
      var flight := NormalizeFlightNumber(req.flight);
      if !IsFlightFormat(flight) then Handled(Response(400, allow, "", Failure("Invalid flight number format")), s)
      else CacheStep(s, allow, flight, w)
  }

  /** The cache read for a well-formed `flight`. */
  function CacheStep(s: FrState, allow: string, flight: string, w: World): (r: Handled)
    requires s.cache.Valid()
    ensures r.state.cache.Valid()
    ensures s.cache.Size() <= TtlCache.EvictAbove + 1 ==> r.state.cache.Size() <= TtlCache.EvictAbove + 1
  {
    var got := TtlCache.Lookup(s.cache, "fr24:" + flight, w.now, CacheTtlMs);
    if got.data.Some? then
      Handled(Response(200, allow, CacheControl, Found(got.data.value.(cached := true))), s.(cache := got.cache))
    else FetchStep(s.(cache := got.cache), allow, flight, w)
  }

  /** After a cache miss: the global limit, the lookup, and the cache write. */
  function FetchStep(s: FrState, allow: string, flight: string, w: World): (r: Handled)
    requires s.cache.Valid()
    ensures r.state.cache.Valid()
    ensures s.cache.Size() <= TtlCache.EvictAbove + 1 ==> r.state.cache.Size() <= TtlCache.EvictAbove + 1
  {
    var a := Admit(s.requestLog, w.now, MaxPerMinute);
    var s2 := s.(requestLog := a.log);
    if a.limited then
      Handled(Response(429, allow, "", Failure("Rate limited \U{2014} max 10 requests/minute")), s2)
    else match Fr24Lookup(flight, w)
      case Errored(abort) =>
        if abort then Handled(Response(504, allow, "", Failure("FR24 API timeout")), s2)
        else Handled(Response(502, allow, "", Failure("FR24 API unavailable")), s2)
      case Looked(found, source) =>
        if found.None? then Handled(Response(404, allow, "", Failure("No data found for " + flight)), s2)
        else
          var result := LookupResult(found.value.info, source, false);
          Handled(Response(200, allow, CacheControl, Found(result)),
                  s2.(cache := TtlCache.Store(s.cache, "fr24:" + flight, result, w.doneAt)))
  }

  /** Requests refused before the cache change nothing. */
  lemma RefusedEarly(s: FrState, req: Request, w: World)
    requires s.cache.Valid()
    requires req.httpMethod != "GET" || !w.tokenConfigured || req.flight == ""
             || !IsFlightFormat(NormalizeFlightNumber(req.flight))
    ensures var r := HandleStep(s, req, w);
            r.state == s && r.response.status in {204, 405, 500, 400}
  {
  }

  /** A fresh answer carries the normalised flight without its `_raw` record, and
      the live record whenever the live lookup gives one. */
  lemma FreshAnswerIsClean(s: FrState, allow: string, flight: string, w: World)
    requires s.cache.Valid()
    requires FetchStep(s, allow, flight, w).response.status == 200
    ensures var b := FetchStep(s, allow, flight, w).response.body;
            var l := Fr24Lookup(flight, w);
            && l.Looked? && l.found.Some?
            && b == Found(LookupResult(l.found.value.info, l.source, false))
            && (l.source == "fr24-official-live" <==> w.live.Json? && NormalizeLive(w.live.data, flight).Some?)
  {
  }

  /** When live positions give a flight, the summary's outcome does not matter. */
  lemma LiveWins(flight: string, w: World, summary: Fetch<SummaryRecord>)
    requires w.live.Json? && w.live.data.Some? && w.live.data.value != []
    ensures Fr24Lookup(flight, w) == Fr24Lookup(flight, w.(summary := summary))
    ensures Fr24Lookup(flight, w).Looked? && Fr24Lookup(flight, w).source == "fr24-official-live"
  {
  }

  /** A fresh answer is served from the cache, marked cached, for the next minute. */
  lemma FetchedResultIsCached(s: FrState, allow: string, flight: string, w: World, allow2: string, w2: World)
    requires s.cache.Valid()
    requires FetchStep(s, allow, flight, w).response.status == 200
    requires w2.now - w.doneAt <= CacheTtlMs
    ensures var r := FetchStep(s, allow, flight, w);
            r.response.body.Found?
            && CacheStep(r.state, allow2, flight, w2).response.body
                 == Found(r.response.body.result.(cached := true))
  {
    var l := Fr24Lookup(flight, w);
    var result := LookupResult(l.found.value.info, l.source, false);
    TtlCache.StoreThenLookup(s.cache, "fr24:" + flight, result, w.doneAt, w2.now, CacheTtlMs);
  }

  /** A cached answer does not count against the global limit. */
  lemma CacheHitSkipsLimiter(s: FrState, allow: string, flight: string, w: World)
    requires s.cache.Valid()
    requires "fr24:" + flight in s.cache.entries && w.now - s.cache.entries["fr24:" + flight].ts <= CacheTtlMs
    ensures var r := CacheStep(s, allow, flight, w);
            r.state == s && r.response.status == 200
  {
  }

  /** The decisions of the global limiter for lookups at the given times. */
  lemma TenPerMinute(times: seq<int>)
    requires times != []
    requires forall i, j :: 0 <= i < j < |times| ==> times[i] <= times[j]
    requires forall i :: 0 <= i < |times| ==> times[i] >= times[|times| - 1] - WindowMs
    ensures forall k :: 0 <= k < |times| ==> Replay([], times, MaxPerMinute)[k] == (k >= MaxPerMinute)
  {
    BurstWithinWindow([], times, MaxPerMinute);
  }

  /** The module state. */
  class Fr24Endpoint {
    var cache: TtlCache.Cache<LookupResult>
    var requestLog: seq<int>

    ghost predicate Valid()
      reads this
    {
      cache.Valid() && cache.Size() <= TtlCache.EvictAbove + 1
    }

    function State(): FrState
      reads this
    {
      FrState(cache, requestLog)
    }

    constructor ()
      ensures Valid() && cache == Empty() && requestLog == []
    {
      cache := Empty();
      requestLog := [];
    }

    method GetCached(key: string, now: int) returns (data: Option<LookupResult>)
      requires Valid()
      modifies this
      ensures Valid()
      ensures TtlCache.Got(data, cache) == TtlCache.Lookup(old(cache), key, now, CacheTtlMs)
      ensures requestLog == old(requestLog)
    {
      if key !in cache.entries {
        return None;
      }
      var entry := cache.entries[key];
      if now - entry.ts > CacheTtlMs {
        cache := Delete(cache, key);
        return None;
      }
      return Some(entry.data);
    }

    method SetCache(key: string, data: LookupResult, now: int)
      requires Valid()
      modifies this
      ensures Valid()
      ensures cache == TtlCache.Store(old(cache), key, data, now)
      ensures requestLog == old(requestLog)
    {
      if cache.Size() > TtlCache.EvictAbove {
        cache := DeleteOldest(cache);
      }
      cache := Set(cache, key, TtlCache.Entry(data, now));
    }

    /** The global `isRateLimited()` at time `now`. */
    method IsRateLimited(now: int) returns (limited: bool)
      modifies this
      ensures Admission(limited, requestLog) == Admit(old(requestLog), now, MaxPerMinute)
      ensures cache == old(cache)
    {
      requestLog := Evict(requestLog, now - WindowMs);
      if |requestLog| >= MaxPerMinute {
        return true;
      }
      requestLog := requestLog + [now];
      limited := false;
    }

    /** One request, with no other request interleaved. */
    method Handle(req: Request, w: World) returns (response: Response)
      requires Valid()
      modifies this
      ensures Valid()
      ensures Handled(response, State()) == HandleStep(old(State()), req, w)
    {
      var allow := AllowOrigin(req.origin);
      if req.httpMethod == "OPTIONS" {
        return Response(204, allow, "", NoContent);
      }
      if req.httpMethod != "GET" {
        return Response(405, allow, "", Failure("Method not allowed"));
      }
      if !w.tokenConfigured {
        return Response(500, allow, "", Failure("FR24 API not configured"));
      }
      if req.flight == "" {
        return Response(400, allow, "", Failure("Missing flight parameter"));
      }
      var flight := NormalizeFlightNumber(req.flight);
      if !IsFlightFormat(flight) {
        return Response(400, allow, "", Failure("Invalid flight number format"));
      }
      var key := "fr24:" + flight;
      var cached := GetCached(key, w.now);
      if cached.Some? {
        return Response(200, allow, CacheControl, Found(cached.value.(cached := true)));
      }
      var limited := IsRateLimited(w.now);
      if limited {
        return Response(429, allow, "", Failure("Rate limited \U{2014} max 10 requests/minute"));
      }
      var lookup := Fr24Lookup(flight, w);
      match lookup {
        case Errored(abort) =>
          response := if abort then Response(504, allow, "", Failure("FR24 API timeout"))
                      else Response(502, allow, "", Failure("FR24 API unavailable"));
        case Looked(found, source) =>
          if found.None? {
            return Response(404, allow, "", Failure("No data found for " + flight));
          }
          var result := LookupResult(found.value.info, source, false);
          SetCache(key, result, w.doneAt);
          response := Response(200, allow, CacheControl, Found(result));
      }
    }
  }
}
