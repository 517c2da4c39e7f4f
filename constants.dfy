/** The fixed data of the dashboard: the home airport's position, the query box, the mock flights. */
module Constants {
  import opened Wrappers
  import opened Types

  /** A geographic rectangle: south, west, north and east bounds in degrees. */
  datatype Box = Box(lamin: real, lomin: real, lamax: real, lomax: real) {
    predicate Contains(lat: real, lon: real) {
      lamin <= lat <= lamax && lomin <= lon <= lomax
    }
  }

  /** Latitude and longitude of Belém's airport. */
  const BELEM_COORDS: (real, real) := (-1.3792, -48.4763)

  /** The area the flight-state query asks for. */
  const BOUNDING_BOX: Box := Box(lamin := -2.5, lomin := -50.0, lamax := -0.5, lomax := -47.0)

  /** The synthetic dataset shown when live data is unavailable. */
  const MOCK_FLIGHTS: seq<Flight> := [
    Flight(icao24 := "a1b2c3", callsign := "GLO1978", originCountry := "Brazil",
           latitude := Some(-1.3784), longitude := Some(-48.4762), baroAltitude := Some(10668.0),
           onGround := false, velocity := Some(230.0), trueTrack := Some(45.0), verticalRate := Some(0.0),
           status := "no ar", airline := "GOL", origin := "GRU", destination := "BEL",
           scheduledTime := Some("14:30")),
    Flight(icao24 := "d4e5f6", callsign := "AZU4521", originCountry := "Brazil",
           latitude := Some(-1.4201), longitude := Some(-48.5103), baroAltitude := Some(0.0),
           onGround := true, velocity := Some(0.0), trueTrack := Some(180.0), verticalRate := Some(0.0),
           status := "em solo", airline := "Azul", origin := "BEL", destination := "VCP",
           scheduledTime := Some("15:15")),
    Flight(icao24 := "g7h8i9", callsign := "TAM3305", originCountry := "Brazil",
           latitude := Some(-1.1550), longitude := Some(-48.2901), baroAltitude := Some(11000.0),
           onGround := false, velocity := Some(240.0), trueTrack := Some(210.0), verticalRate := Some(-5.0),
           status := "no ar", airline := "LATAM", origin := "BSB", destination := "BEL",
           scheduledTime := Some("16:00")),
    Flight(icao24 := "j0k1l2", callsign := "VOE2234", originCountry := "Brazil",
           latitude := Some(-1.3850), longitude := Some(-48.4801), baroAltitude := Some(500.0),
           onGround := false, velocity := Some(120.0), trueTrack := Some(60.0), verticalRate := Some(-2.0),
           status := "no ar", airline := "Voepass", origin := "MAB", destination := "BEL",
           scheduledTime := Some("17:10"))
  ]

  /** Exactly one of a flight's endpoints is the home airport. */
  predicate HasOneHomeEndpoint(f: Flight) {
    (f.origin == HOME) != (f.destination == HOME)
  }

  /** The query box is a proper rectangle and contains the airport. */
  lemma BoundingBoxWellFormed()
    ensures BOUNDING_BOX.lamin < BOUNDING_BOX.lamax && BOUNDING_BOX.lomin < BOUNDING_BOX.lomax
    ensures BOUNDING_BOX.Contains(BELEM_COORDS.0, BELEM_COORDS.1)
  {
  }

  /** Four mock flights with pairwise distinct ids. */
  lemma MockIdsDistinct(i: nat, j: nat)
    ensures |MOCK_FLIGHTS| == 4
    ensures i < j < |MOCK_FLIGHTS| ==> MOCK_FLIGHTS[i].icao24 != MOCK_FLIGHTS[j].icao24
  {
  }

  /**
   * Every mock flight has a position at least 0.01 degrees inside the query box, one home
   * endpoint, and the fallback-route shape: grounded ones depart from home, airborne ones arrive.
   */
  lemma MockFlightShape(i: nat)
    requires i < |MOCK_FLIGHTS|
    ensures HasPosition(MOCK_FLIGHTS[i])
    ensures var f := MOCK_FLIGHTS[i];
      && BOUNDING_BOX.lamin + 0.01 <= f.latitude.value <= BOUNDING_BOX.lamax - 0.01
      && BOUNDING_BOX.lomin + 0.01 <= f.longitude.value <= BOUNDING_BOX.lomax - 0.01
    ensures HasOneHomeEndpoint(MOCK_FLIGHTS[i])
    ensures MOCK_FLIGHTS[i].onGround <==> MOCK_FLIGHTS[i].origin == HOME
    ensures !MOCK_FLIGHTS[i].onGround <==> MOCK_FLIGHTS[i].destination == HOME
  {
  }

  /** No mock status is one of the declared status strings. */
  lemma MockStatusesUndeclared(i: nat)
    requires i < |MOCK_FLIGHTS|
    ensures !IsDeclaredStatus(MOCK_FLIGHTS[i].status)
  {
  }
}
