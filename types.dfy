/** The shared flight record and the two enumerations of the dashboard (types.ts). */
module Types {
  import opened Wrappers

  /** IATA code of the home airport, Belém (Val-de-Cans). */
  const HOME: string := "BEL"

  /** The list tabs; the string is the enum member's value. */
  datatype FlightTab = Arrivals | Departures {
    function Value(): string {
      match this
      case Arrivals => "arrivals"
      case Departures => "departures"
    }
  }

  /** The statuses a flight may carry; `Label` is the enum member's (Portuguese) string value. */
  datatype FlightStatus = Airborne | Scheduled | Delayed | Cancelled | Grounded {
    function Label(): string {
      match this
      case Airborne => "Em Voo"
      case Scheduled => "Programado"
      case Delayed => "Atrasado"
      case Cancelled => "Cancelado"
      case Grounded => "No Solo"
    }
  }

  /** The enum member whose string value is `s`, if any. */
  function StatusFromLabel(s: string): (r: Option<FlightStatus>)
    ensures r.Some? ==> r.value.Label() == s
  {
    if s == "Em Voo" then Some(Airborne)
    else if s == "Programado" then Some(Scheduled)
    else if s == "Atrasado" then Some(Delayed)
    else if s == "Cancelado" then Some(Cancelled)
    else if s == "No Solo" then Some(Grounded)
    else None
  }

  /**
   * One aircraft as the dashboard holds it. `status` is a plain string: the record type declares
   * the five status labels, but the synthetic dataset stores other strings there. Latitude and
   * longitude are nullable because the map null-checks them, although the record type does not
   * declare them so.
   */
  datatype Flight = Flight(
    icao24: string,
    callsign: string,
    originCountry: string,
    longitude: Option<real>,
    latitude: Option<real>,
    baroAltitude: Option<real>,
    onGround: bool,
    velocity: Option<real>,
    trueTrack: Option<real>,
    verticalRate: Option<real>,
    status: string,
    airline: string,
    origin: string,
    destination: string,
    scheduledTime: Option<string>)

  /** The status union the record type declares: one of the five enum strings. */
  predicate IsDeclaredStatus(s: string) {
    s == "Em Voo" || s == "Programado" || s == "Atrasado" || s == "Cancelado" || s == "No Solo"
  }

  /** A flight whose position is known, so the map may show it. */
  predicate HasPosition(f: Flight) {
    f.latitude.Some? && f.longitude.Some?
  }

  /** Decoding a label gives back its status, and only labels of statuses decode. */
  lemma StatusLabelRoundTrip(st: FlightStatus, s: string)
    ensures StatusFromLabel(st.Label()) == Some(st)
    ensures StatusFromLabel(s).Some? <==> IsDeclaredStatus(s)
  {
  }

  /** The five status strings are pairwise distinct. */
  lemma StatusLabelsDistinct(a: FlightStatus, b: FlightStatus)
    requires a != b
    ensures a.Label() != b.Label()
  {
    StatusLabelRoundTrip(a, "");
    StatusLabelRoundTrip(b, "");
  }

  /** The declared status range is exactly the labels of the five statuses. */
  lemma DeclaredStatusIsLabel(s: string)
    ensures IsDeclaredStatus(s) <==> exists st: FlightStatus :: st.Label() == s
  {
    if IsDeclaredStatus(s) {
      assert StatusFromLabel(s).value.Label() == s;
    }
  }

  /** The tab has exactly two values, with distinct strings. */
  lemma TabValues(t: FlightTab)
    ensures t == Arrivals || t == Departures
    ensures Arrivals.Value() != Departures.Value()
  {
  }
}
