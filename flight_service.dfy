/**
 * The flight fetcher and route classifier (services/flightService.ts): how one raw state vector
 * of the flight-state source becomes a Flight, and which list a fetch yields on each outcome.
 * The network call itself is not modelled; its outcome is a parameter, and so is every
 * `Math.random` draw.
 */
module FlightService {
  import opened Wrappers
  import opened Strings
  import opened Types
  import opened Constants

  datatype Route = Route(origin: string, dest: string) {
    /** Exactly one end of the route is the home airport. */
    predicate HasOneHomeEndpoint() {
      (origin == HOME) != (dest == HOME)
    }
  }

  /** Known callsigns and their routes. */
  const ROUTE_GUESSER: map<string, Route> := map[
    "GLO1978" := Route("GRU", "BEL"),
    "GLO1979" := Route("BEL", "GRU"),
    "AZU4521" := Route("VCP", "BEL"),
    "AZU4522" := Route("BEL", "VCP"),
    "TAM3305" := Route("BSB", "BEL"),
    "TAM3306" := Route("BEL", "BSB"),
    "VOE2234" := Route("MAB", "BEL"),
    "VOE2235" := Route("BEL", "MAB")
  ]

  /** The pool the fallback route draws its non-home endpoint from. */
  const COMMON_ORIGINS: seq<string> := ["GRU", "BSB", "VCP", "CNF", "MAO", "FOR", "GIG", "MAB", "ATM"]

  /**
   * One raw state vector; each field is the tuple position the mapping reads
   * (0, 1, 2, 5, 6, 7, 8, 9, 10, 11). A null callsign is `None`.
   */
  datatype StateVector = StateVector(
    icao24: string,              // s[0]
    callsign: Option<string>,    // s[1]
    originCountry: string,       // s[2]
    longitude: Option<real>,     // s[5]
    latitude: Option<real>,      // s[6]
    baroAltitude: Option<real>,  // s[7]
    onGround: bool,              // s[8]
    velocity: Option<real>,      // s[9]
    trueTrack: Option<real>,     // s[10]
    verticalRate: Option<real>)  // s[11]

  /**
   * The `Math.random` draws mapping one record consumes, already scaled and floored: an index
   * into COMMON_ORIGINS (drawn only when the route table misses), an hour and a minute.
   */
  datatype Draws = Draws(routePick: nat, hour: nat, minute: nat)

  predicate ValidDraws(d: Draws) {
    d.routePick < |COMMON_ORIGINS| && d.hour < 24 && d.minute < 60
  }

  /** `s[1]?.trim() || 'N/A'`. */
  function Callsign(raw: Option<string>): (c: string)
    ensures raw.Some? && Trim(raw.value) != "" ==> c == Trim(raw.value)
    ensures raw.None? || Trim(raw.value) == "" ==> c == "N/A"
    ensures c != "" && !IsTrimmable(c[0]) && !IsTrimmable(c[|c| - 1])
  {
    if raw.Some? && Trim(raw.value) != "" then Trim(raw.value) else "N/A"
  }

  /** The airline of the first matching callsign prefix, `Outra` when none matches. */
  function Airline(callsign: string): (r: string)
    ensures r in {"GOL", "Azul", "LATAM", "Voepass", "Outra"}
  {
    if StartsWith(callsign, "GLO") then "GOL"
    else if StartsWith(callsign, "AZU") then "Azul"
    else if StartsWith(callsign, "TAM") || StartsWith(callsign, "PTM")
         || StartsWith(callsign, "LAN") || StartsWith(callsign, "LA") then "LATAM"
    else if StartsWith(callsign, "VOE") then "Voepass"
    else "Outra"
  }

  /** The prefixes start with different letters, so at most one family of them matches. */
  lemma {:induction false} AirlineByPrefix(c: string)
    ensures Airline(c) == "GOL" <==> StartsWith(c, "GLO")
    ensures Airline(c) == "Azul" <==> StartsWith(c, "AZU")
    ensures Airline(c) == "LATAM" <==> StartsWith(c, "TAM") || StartsWith(c, "PTM") || StartsWith(c, "LA")
    ensures Airline(c) == "Voepass" <==> StartsWith(c, "VOE")
    ensures Airline(c) == "Outra" <==>
      !StartsWith(c, "GLO") && !StartsWith(c, "AZU") && !StartsWith(c, "TAM") && !StartsWith(c, "PTM")
      && !StartsWith(c, "LA") && !StartsWith(c, "VOE")
  {
    if |c| > 0 {
      assert StartsWith(c, "GLO") ==> c[0] == 'G';
      assert StartsWith(c, "AZU") ==> c[0] == 'A';
      assert StartsWith(c, "TAM") ==> c[0] == 'T';
      assert StartsWith(c, "PTM") ==> c[0] == 'P';
      assert StartsWith(c, "LAN") ==> StartsWith(c, "LA");
      assert StartsWith(c, "LA") ==> c[0] == 'L';
      assert StartsWith(c, "VOE") ==> c[0] == 'V';
    }
  }

  /**
   * The table entry of a known callsign; otherwise home plus a pool entry, home taking the end
   * the ground state suggests.
   */
  function GuessRoute(callsign: string, grounded: bool, pick: nat): (r: Route)
    requires pick < |COMMON_ORIGINS|
    ensures callsign in ROUTE_GUESSER ==> r == ROUTE_GUESSER[callsign]
    ensures callsign !in ROUTE_GUESSER && grounded ==> r.origin == HOME && r.dest in COMMON_ORIGINS
    ensures callsign !in ROUTE_GUESSER && !grounded ==> r.origin in COMMON_ORIGINS && r.dest == HOME
  {
    if callsign in ROUTE_GUESSER then ROUTE_GUESSER[callsign]
    else if grounded then Route(HOME, COMMON_ORIGINS[pick])
    else Route(COMMON_ORIGINS[pick], HOME)
  }

  /** Every table entry has exactly one home endpoint, and the pool never holds home. */
  lemma RouteDataShape()
    ensures forall c :: c in ROUTE_GUESSER ==> ROUTE_GUESSER[c].HasOneHomeEndpoint()
    ensures HOME !in COMMON_ORIGINS
  {
  }

  /** Whatever the callsign, ground state and draw, a guessed route has exactly one home endpoint. */
  lemma GuessedRouteHasOneHomeEndpoint(callsign: string, grounded: bool, pick: nat)
    requires pick < |COMMON_ORIGINS|
    ensures GuessRoute(callsign, grounded, pick).HasOneHomeEndpoint()
  {
    RouteDataShape();
  }

  /** The `HH:MM` string built from the hour and minute draws. */
  function ScheduledTime(hour: nat, minute: nat): (t: string)
    requires hour < 24 && minute < 60
    ensures |t| == 5 && t[2] == ':'
    ensures (t[0] as int - '0' as int) * 10 + (t[1] as int - '0' as int) == hour
    ensures (t[3] as int - '0' as int) * 10 + (t[4] as int - '0' as int) == minute
  {
    PadTwo(hour) + ":" + PadTwo(minute)
  }

  /** The mapping of one live state vector to a Flight. */
  function MapState(s: StateVector, d: Draws): Flight
    requires ValidDraws(d)
  {
    var callsign := Callsign(s.callsign);
    var route := GuessRoute(callsign, s.onGround, d.routePick);
    Flight(
      icao24 := s.icao24,
      callsign := callsign,
      originCountry := s.originCountry,
      longitude := s.longitude,
      latitude := s.latitude,
      baroAltitude := s.baroAltitude,
      onGround := s.onGround,
      velocity := s.velocity,
      trueTrack := s.trueTrack,
      verticalRate := s.verticalRate,
      status := if s.onGround then Grounded.Label() else Airborne.Label(),
      airline := Airline(callsign),
      origin := route.origin,
      destination := route.dest,
      scheduledTime := Some(ScheduledTime(d.hour, d.minute)))
  }

  /** What a live flight derives from its record: status, route and airline. */
  lemma {:induction false} LiveFlightClassification(s: StateVector, d: Draws)
    requires ValidDraws(d)
    ensures var f := MapState(s, d);
      && f.onGround == s.onGround
      && (f.status == Grounded.Label() <==> s.onGround)
      && (f.status == Airborne.Label() <==> !s.onGround)
      && IsDeclaredStatus(f.status)
      && HasOneHomeEndpoint(f)
      && (f.callsign !in ROUTE_GUESSER ==> (f.origin == HOME <==> s.onGround))
      && f.airline in {"GOL", "Azul", "LATAM", "Voepass", "Outra"}
  {
    var f := MapState(s, d);
    GuessedRouteHasOneHomeEndpoint(f.callsign, s.onGround, d.routePick);
    StatusLabelsDistinct(Grounded, Airborne);
  }

  /** The fields a live flight copies unchanged from its record. */
  lemma LiveFlightFields(s: StateVector, d: Draws)
    requires ValidDraws(d)
    ensures var f := MapState(s, d);
      && f.icao24 == s.icao24 && f.originCountry == s.originCountry
      && f.longitude == s.longitude && f.latitude == s.latitude
      && f.baroAltitude == s.baroAltitude && f.velocity == s.velocity
      && f.trueTrack == s.trueTrack && f.verticalRate == s.verticalRate
  {
  }

  /** `data.states.map(...)`: one Flight per record, in order. */
  function MapStates(states: seq<StateVector>, draws: seq<Draws>): (r: seq<Flight>)
    requires |draws| == |states| && forall i :: 0 <= i < |draws| ==> ValidDraws(draws[i])
    ensures |r| == |states|
    ensures forall i :: 0 <= i < |r| ==> r[i] == MapState(states[i], draws[i])
  {
    seq(|states|, i requires 0 <= i < |states| => MapState(states[i], draws[i]))
  }

  /** The result of the request, as far as the mapping is concerned. */
  datatype FetchOutcome =
    | Failed                                     // network error, timeout, HTTP error, bad JSON
    | Received(states: Option<seq<StateVector>>)  // the `states` member, null when absent

  /** The outcomes that make the fetch fall back to synthetic data. */
  predicate UsesFallback(o: FetchOutcome) {
    o.Failed? || o.states.None? || |o.states.value| == 0
  }

  /** The random offsets added to one mock flight, already scaled from `Math.random() - 0.5`. */
  datatype Jitter = Jitter(dLat: real, dLon: real, dTrack: real)

  predicate ValidJitter(j: Jitter) {
    -0.01 <= j.dLat < 0.01 && -0.01 <= j.dLon < 0.01 && -5.0 <= j.dTrack < 5.0
  }

  /** One mock flight with jitter; a null coordinate would count as 0, as in JavaScript arithmetic. */
  function WithNoise(f: Flight, j: Jitter): (r: Flight)
    ensures HasPosition(r) && r.trueTrack.Some?
    ensures r == f.(latitude := r.latitude, longitude := r.longitude, trueTrack := r.trueTrack)
  {
    f.(latitude := Some(f.latitude.GetOr(0.0) + j.dLat),
       longitude := Some(f.longitude.GetOr(0.0) + j.dLon),
       trueTrack := Some(OrZero(f.trueTrack) + j.dTrack))
  }

  /** `getMockDataWithNoise()`. */
  function MockDataWithNoise(jitter: seq<Jitter>): (r: seq<Flight>)
    requires |jitter| == |MOCK_FLIGHTS| && forall i :: 0 <= i < |jitter| ==> ValidJitter(jitter[i])
    ensures |r| == |MOCK_FLIGHTS|
    ensures forall i :: 0 <= i < |r| ==>
      && HasPosition(r[i]) && r[i].trueTrack.Some?
      && r[i] == MOCK_FLIGHTS[i].(latitude := r[i].latitude, longitude := r[i].longitude,
                                  trueTrack := r[i].trueTrack)
  {
    seq(|MOCK_FLIGHTS|, i requires 0 <= i < |MOCK_FLIGHTS| => WithNoise(MOCK_FLIGHTS[i], jitter[i]))
  }

  /** The jittered mock positions stay within 0.01 degrees of the originals, inside the query box. */
  lemma {:induction false} FallbackInsideBox(jitter: seq<Jitter>, i: nat)
    requires |jitter| == |MOCK_FLIGHTS| && forall k :: 0 <= k < |jitter| ==> ValidJitter(jitter[k])
    requires i < |MOCK_FLIGHTS|
    ensures var f := MockDataWithNoise(jitter)[i];
      && -0.01 <= f.latitude.value - MOCK_FLIGHTS[i].latitude.value < 0.01
      && -0.01 <= f.longitude.value - MOCK_FLIGHTS[i].longitude.value < 0.01
      && BOUNDING_BOX.Contains(f.latitude.value, f.longitude.value)
  {
    MockFlightShape(i);
    assert ValidJitter(jitter[i]);
  }

  predicate DrawsFor(o: FetchOutcome, draws: seq<Draws>) {
    && (o.Received? && o.states.Some? ==> |draws| == |o.states.value|)
    && forall i :: 0 <= i < |draws| ==> ValidDraws(draws[i])
  }

  /** `fetchFlights()` for a given request outcome: never fails, falls back on every failure. */
  function FetchFlights(o: FetchOutcome, draws: seq<Draws>, jitter: seq<Jitter>): (r: seq<Flight>)
    requires DrawsFor(o, draws)
    requires |jitter| == |MOCK_FLIGHTS| && forall i :: 0 <= i < |jitter| ==> ValidJitter(jitter[i])
    ensures |r| > 0
    ensures UsesFallback(o) ==> r == MockDataWithNoise(jitter)
    ensures !UsesFallback(o) ==>
      && |r| == |o.states.value|
      && forall i :: 0 <= i < |r| ==> r[i] == MapState(o.states.value[i], draws[i])
  {
    if UsesFallback(o) then MockDataWithNoise(jitter) else MapStates(o.states.value, draws)
  }

  /**
   * On every outcome each flight has exactly one home endpoint, and a flight carries a declared
   * status exactly when the data is live.
   */
  lemma {:induction false} FetchedFlightsShape(o: FetchOutcome, draws: seq<Draws>, jitter: seq<Jitter>, i: nat)
    requires DrawsFor(o, draws)
    requires |jitter| == |MOCK_FLIGHTS| && forall k :: 0 <= k < |jitter| ==> ValidJitter(jitter[k])
    requires i < |FetchFlights(o, draws, jitter)|
    ensures HasOneHomeEndpoint(FetchFlights(o, draws, jitter)[i])
    ensures IsDeclaredStatus(FetchFlights(o, draws, jitter)[i].status) <==> !UsesFallback(o)
  {
    var r := FetchFlights(o, draws, jitter);
    if UsesFallback(o) {
      MockFlightShape(i);
      MockStatusesUndeclared(i);
    } else {
      LiveFlightClassification(o.states.value[i], draws[i]);
    }
  }
}
