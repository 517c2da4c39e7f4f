/**
 * The map marker reconciler (components/FlightMap.tsx): the colour and rotation rule of a plane
 * marker, the figures of the selection popup, and the marker layer that keeps one marker per
 * aircraft id in step with each new batch of flights.
 */
module FlightMap {
  import opened Wrappers
  import opened Types
  import opened FlightService
  import opened App

  /** The icon colour classes: gray, emerald-500, orange-500 and blue-500. */
  datatype Color = Gray | Emerald | Orange | Blue

  /** Grounded planes are gray; airborne ones emerald when arriving home, orange when leaving, else blue. */
  function MarkerColor(f: Flight): Color {
    if f.onGround then Gray
    else if f.destination == HOME then Emerald
    else if f.origin == HOME then Orange
    else Blue
  }

  /** The colour rule stated per colour, arrivals taking precedence over departures. */
  lemma ColorRule(f: Flight)
    ensures MarkerColor(f) == Gray <==> f.onGround
    ensures MarkerColor(f) == Emerald <==> !f.onGround && f.destination == HOME
    ensures MarkerColor(f) == Orange <==> !f.onGround && f.destination != HOME && f.origin == HOME
    ensures MarkerColor(f) == Blue <==> !f.onGround && f.destination != HOME && f.origin != HOME
  {
  }

  /** An airborne plane is emerald exactly when the arrivals tab lists it. */
  lemma ColorAgreesWithArrivals(f: Flight)
    requires !f.onGround
    ensures MarkerColor(f) == Emerald <==> MatchesTab(f, Arrivals)
  {
  }

  /**
   * Live flights are never blue, since each has one home endpoint; an airborne live flight whose
   * route was guessed is always emerald.
   */
  lemma {:induction false} LiveFlightColor(s: StateVector, d: Draws)
    requires ValidDraws(d)
    ensures MarkerColor(MapState(s, d)) != Blue
    ensures !s.onGround && MapState(s, d).callsign !in ROUTE_GUESSER ==> MarkerColor(MapState(s, d)) == Emerald
  {
    LiveFlightClassification(s, d);
  }

  /** `true_track || 0`: the icon's rotation in degrees. */
  function Rotation(f: Flight): (r: real)
    ensures Truthy(f.trueTrack) ==> r == f.trueTrack.value
    ensures !Truthy(f.trueTrack) ==> r == 0.0
  {
    OrZero(f.trueTrack)
  }

  /** `Math.round`: the nearest integer, halves rounded up. */
  function Round(x: real): (n: int)
    ensures x - 0.5 < n as real <= x + 0.5
  {
    (x + 0.5).Floor
  }

  const FEET_PER_METRE: real := 3.28084
  const KNOTS_PER_METRE_PER_SECOND: real := 1.94384

  /** The popup's altitude: `No Solo`, or a whole number of feet. */
  datatype AltitudeShown = OnGroundShown | Feet(feet: int)

  /** The popup's speed: `---`, or a whole number of knots. */
  datatype SpeedShown = NoSpeedShown | Knots(knots: int)

  /** The figures of the selection popup. */
  datatype Popup = Popup(
    callsign: string,
    airline: string,
    altitude: AltitudeShown,
    speed: SpeedShown,
    heading: int,
    origin: string,
    destination: string)

  function AltitudeOf(baroAltitude: Option<real>): AltitudeShown {
    if Truthy(baroAltitude) then Feet(Round(baroAltitude.value * FEET_PER_METRE)) else OnGroundShown
  }

  function SpeedOf(velocity: Option<real>): SpeedShown {
    if Truthy(velocity) then Knots(Round(velocity.value * KNOTS_PER_METRE_PER_SECOND)) else NoSpeedShown
  }

  function PopupFor(f: Flight): Popup {
    Popup(f.callsign, f.airline, AltitudeOf(f.baroAltitude), SpeedOf(f.velocity),
          Round(OrZero(f.trueTrack)), f.origin, f.destination)
  }

  /**
   * Altitude is shown in feet, speed in knots, each the nearest whole number, and only when the
   * measurement is present and non-zero; the heading is the rounded track, 0 when absent.
   */
  lemma PopupFigures(f: Flight)
    ensures var p := PopupFor(f);
      && (p.altitude.OnGroundShown? <==> !Truthy(f.baroAltitude))
      && (p.altitude.Feet? ==>
            -0.5 < p.altitude.feet as real - f.baroAltitude.value * FEET_PER_METRE <= 0.5)
      && (p.speed.NoSpeedShown? <==> !Truthy(f.velocity))
      && (p.speed.Knots? ==>
            -0.5 < p.speed.knots as real - f.velocity.value * KNOTS_PER_METRE_PER_SECOND <= 0.5)
      && -0.5 < p.heading as real - OrZero(f.trueTrack) <= 0.5
      && p.callsign == f.callsign && p.airline == f.airline
      && p.origin == f.origin && p.destination == f.destination
  {
  }

  /** 10668 m is shown as 35000 ft. */
  lemma AltitudeExample()
    ensures AltitudeOf(Some(10668.0)) == Feet(35000)
  {
  }

  /**
   * A Leaflet plane marker as the map holds it: position, colour and rotation, which change in
   * place; what was bound when it was created (tooltip text, z-index offset, and the flight its
   * click handler reports); and the popup content bound to it, if any.
   */
  datatype Marker = Marker(
    lat: real,
    lon: real,
    color: Color,
    rotation: real,
    tooltip: string,
    zIndexOffset: int,
    clickTarget: Flight,
    popup: Option<Popup>)

  /** The marker created for a positioned flight: `L.marker(...)`, `on('click')`, `bindTooltip`. */
  function NewMarker(f: Flight): Marker
    requires HasPosition(f)
  {
    Marker(f.latitude.value, f.longitude.value, MarkerColor(f), Rotation(f),
           f.callsign, if f.onGround then 0 else 500, f, None)
  }

  /** An existing marker after `setLatLng` and `setIcon` for a positioned flight. */
  function Moved(v: Marker, f: Flight): Marker
    requires HasPosition(f)
  {
    v.(lat := f.latitude.value, lon := f.longitude.value, color := MarkerColor(f), rotation := Rotation(f))
  }

  /** One step of the second pass: skip a flight without position, move or create its marker. */
  function Placed(m: map<string, Marker>, f: Flight): map<string, Marker> {
    if !HasPosition(f) then m
    else if f.icao24 in m then m[f.icao24 := Moved(m[f.icao24], f)]
    else m[f.icao24 := NewMarker(f)]
  }

  /** The second pass over the whole batch, in order. */
  function PlaceAll(m: map<string, Marker>, flights: seq<Flight>): map<string, Marker>
    decreases |flights|
  {
    if flights == [] then m
    else Placed(PlaceAll(m, flights[..|flights| - 1]), flights[|flights| - 1])
  }

  /** The ids of the batch (`currentIcaos`). */
  function Ids(flights: seq<Flight>): set<string> {
    set f | f in flights :: f.icao24
  }

  /** The ids of the flights of the batch that have a position. */
  function PositionedIds(flights: seq<Flight>): set<string> {
    set f | f in flights && HasPosition(f) :: f.icao24
  }

  /** The first pass: drop the markers whose id is not in the batch. */
  function Pruned(m: map<string, Marker>, flights: seq<Flight>): map<string, Marker> {
    map k | k in m && k in Ids(flights) :: m[k]
  }

  /** The markers after one reconciliation against `flights`. */
  function Reconciled(m: map<string, Marker>, flights: seq<Flight>): map<string, Marker> {
    PlaceAll(Pruned(m, flights), flights)
  }

  lemma {:induction false} PlaceAllKeys(m: map<string, Marker>, flights: seq<Flight>)
    ensures PlaceAll(m, flights).Keys == m.Keys + PositionedIds(flights)
    decreases |flights|
  {
    if flights != [] {
      var init := flights[..|flights| - 1];
      PlaceAllKeys(m, init);
      assert flights == init + [flights[|flights| - 1]];
      assert PositionedIds(flights) == PositionedIds(init) +
        (if HasPosition(flights[|flights| - 1]) then {flights[|flights| - 1].icao24} else {});
    }
  }

  /** A marker no positioned flight of the batch names is left as it was. */
  lemma {:induction false} PlaceAllUntouched(m: map<string, Marker>, flights: seq<Flight>, k: string)
    requires k !in PositionedIds(flights)
    ensures k in PlaceAll(m, flights) <==> k in m
    ensures k in m ==> PlaceAll(m, flights)[k] == m[k]
    decreases |flights|
  {
    if flights != [] {
      var init := flights[..|flights| - 1];
      assert forall f :: f in init ==> f in flights;
      PlaceAllUntouched(m, init, k);
    }
  }

  /**
   * The marker of a positioned flight that no later positioned flight shares its id with shows
   * that flight's position, colour and rotation.
   */
  lemma {:induction false} PlaceAllLastWins(m: map<string, Marker>, flights: seq<Flight>, i: nat)
    requires i < |flights| && HasPosition(flights[i])
    requires forall j :: i < j < |flights| && flights[j].icao24 == flights[i].icao24 ==> !HasPosition(flights[j])
    ensures flights[i].icao24 in PlaceAll(m, flights)
    ensures var v := PlaceAll(m, flights)[flights[i].icao24]; v == Moved(v, flights[i])
    decreases |flights|
  {
    var init := flights[..|flights| - 1];
    if i < |flights| - 1 {
      PlaceAllLastWins(m, init, i);
    }
  }

  /** No two flights of the batch share an id. */
  predicate DistinctIds(flights: seq<Flight>) {
    forall i, j :: 0 <= i < j < |flights| ==> flights[i].icao24 != flights[j].icao24
  }

  /**
   * With distinct ids, a positioned flight's marker is its old marker moved, or a new one when
   * there was none.
   */
  lemma {:induction false} PlaceAllDistinct(m: map<string, Marker>, flights: seq<Flight>, i: nat)
    requires DistinctIds(flights) && i < |flights| && HasPosition(flights[i])
    ensures var id := flights[i].icao24;
      && id in PlaceAll(m, flights)
      && PlaceAll(m, flights)[id] == if id in m then Moved(m[id], flights[i]) else NewMarker(flights[i])
    decreases |flights|
  {
    var init := flights[..|flights| - 1];
    var id := flights[i].icao24;
    if i < |flights| - 1 {
      PlaceAllDistinct(m, init, i);
    } else {
      forall f | f in init
        ensures f.icao24 != id
      {
        var j :| 0 <= j < |init| && init[j] == f;
        assert flights[j] == f;
      }
      PlaceAllUntouched(m, init, id);
    }
  }

  /**
   * After reconciliation exactly the old markers whose id is still in the batch and the
   * positioned flights have markers, all of them ids of the batch.
   */
  lemma ReconcileKeys(m: map<string, Marker>, flights: seq<Flight>)
    ensures Reconciled(m, flights).Keys == (m.Keys * Ids(flights)) + PositionedIds(flights)
    ensures Reconciled(m, flights).Keys <= Ids(flights)
  {
    PlaceAllKeys(Pruned(m, flights), flights);
  }

  /**
   * A flight without position neither creates nor moves a marker: if no positioned flight has
   * its id, a marker kept for that id is exactly the old one.
   */
  lemma ReconcileSkipsUnpositioned(m: map<string, Marker>, flights: seq<Flight>, k: string)
    requires k !in PositionedIds(flights)
    ensures k in Reconciled(m, flights) <==> k in m && k in Ids(flights)
    ensures k in Reconciled(m, flights) ==> Reconciled(m, flights)[k] == m[k]
  {
    PlaceAllUntouched(Pruned(m, flights), flights, k);
  }

  /** With distinct ids, the marker of a positioned flight is the old one moved, else a new one. */
  lemma ReconcileDistinct(m: map<string, Marker>, flights: seq<Flight>, i: nat)
    requires DistinctIds(flights) && i < |flights| && HasPosition(flights[i])
    ensures var id := flights[i].icao24;
      && id in Reconciled(m, flights)
      && Reconciled(m, flights)[id] == if id in m then Moved(m[id], flights[i]) else NewMarker(flights[i])
  {
    assert flights[i] in flights;
    PlaceAllDistinct(Pruned(m, flights), flights, i);
  }

  /** Two markers bound to the same tooltip, z-index offset, click target and popup. */
  predicate SameBinding(v: Marker, w: Marker) {
    v.tooltip == w.tooltip && v.zIndexOffset == w.zIndexOffset && v.clickTarget == w.clickTarget
    && v.popup == w.popup
  }

  /** An existing marker is never replaced: it keeps what was bound to it. */
  lemma {:induction false} PlaceAllKeepsBinding(m: map<string, Marker>, flights: seq<Flight>, k: string)
    requires k in m
    ensures k in PlaceAll(m, flights) && SameBinding(PlaceAll(m, flights)[k], m[k])
    decreases |flights|
  {
    if flights != [] {
      PlaceAllKeepsBinding(m, flights[..|flights| - 1], k);
    }
  }

  /** The index of the last flight of the batch that has id `k` and a position. */
  function LastPositioned(flights: seq<Flight>, k: string): (i: nat)
    requires k in PositionedIds(flights)
    ensures i < |flights| && HasPosition(flights[i]) && flights[i].icao24 == k
    ensures forall j :: i < j < |flights| && flights[j].icao24 == k ==> !HasPosition(flights[j])
    decreases |flights|
  {
    var last := flights[|flights| - 1];
    if HasPosition(last) && last.icao24 == k then |flights| - 1
    else
      assert flights == flights[..|flights| - 1] + [last];
      LastPositioned(flights[..|flights| - 1], k)
  }

  /** Placing the same batch twice gives what placing it once gives. */
  lemma PlaceAllIdempotent(m: map<string, Marker>, flights: seq<Flight>)
    ensures PlaceAll(PlaceAll(m, flights), flights) == PlaceAll(m, flights)
  {
    var p := PlaceAll(m, flights);
    var q := PlaceAll(p, flights);
    PlaceAllKeys(m, flights);
    PlaceAllKeys(p, flights);
    forall k | k in p
      ensures q[k] == p[k]
    {
      if k in PositionedIds(flights) {
        var i := LastPositioned(flights, k);
        PlaceAllLastWins(p, flights, i);
        PlaceAllLastWins(m, flights, i);
        PlaceAllKeepsBinding(p, flights, k);
      } else {
        PlaceAllUntouched(p, flights, k);
      }
    }
  }

  /** Re-running the reconciliation on the same batch changes no marker. */
  lemma ReconcileIdempotent(m: map<string, Marker>, flights: seq<Flight>)
    ensures Reconciled(Reconciled(m, flights), flights) == Reconciled(m, flights)
  {
    var r := Reconciled(m, flights);
    ReconcileKeys(m, flights);
    assert Pruned(r, flights) == r;
    PlaceAllIdempotent(Pruned(m, flights), flights);
  }

  /**
   * Whatever the batch's duplicate ids, each positioned id's marker shows its last positioned
   * flight, and a marker that existed before keeps its creation bindings.
   */
  lemma ReconcileLastWins(m: map<string, Marker>, flights: seq<Flight>, k: string)
    requires k in PositionedIds(flights)
    ensures k in Reconciled(m, flights)
    ensures var v := Reconciled(m, flights)[k]; v == Moved(v, flights[LastPositioned(flights, k)])
    ensures k in m ==> SameBinding(Reconciled(m, flights)[k], m[k])
  {
    var f :| f in flights && HasPosition(f) && f.icao24 == k;
    PlaceAllLastWins(Pruned(m, flights), flights, LastPositioned(flights, k));
    if k in m {
      PlaceAllKeepsBinding(Pruned(m, flights), flights, k);
    }
  }

  /** Each marker is filed under the id of the flight its click handler reports. */
  predicate FiledById(m: map<string, Marker>) {
    forall k :: k in m ==> m[k].clickTarget.icao24 == k
  }

  lemma {:induction false} PlaceAllKeepsFiling(m: map<string, Marker>, flights: seq<Flight>)
    requires FiledById(m)
    ensures FiledById(PlaceAll(m, flights))
    decreases |flights|
  {
    if flights != [] {
      PlaceAllKeepsFiling(m, flights[..|flights| - 1]);
    }
  }

  /** A marker created during the placing pass has no popup and reports a flight of its own id. */
  lemma {:induction false} PlaceAllNewUnbound(m: map<string, Marker>, flights: seq<Flight>, k: string)
    requires k in PlaceAll(m, flights) && k !in m
    ensures PlaceAll(m, flights)[k].popup == None
    ensures PlaceAll(m, flights)[k].clickTarget.icao24 == k
    ensures PlaceAll(m, flights)[k].clickTarget in flights
    decreases |flights|
  {
    var init := flights[..|flights| - 1];
    if k in PlaceAll(m, init) {
      PlaceAllNewUnbound(m, init, k);
    }
  }

  /**
   * Reconciliation keeps every marker filed under its own flight's id; a marker it creates carries
   * no popup and reports a flight of the batch; a surviving one keeps its bindings and popup.
   */
  lemma ReconcileBindings(m: map<string, Marker>, flights: seq<Flight>, k: string)
    ensures FiledById(m) ==> FiledById(Reconciled(m, flights))
    ensures k in Reconciled(m, flights) && k !in m ==>
      Reconciled(m, flights)[k].popup == None && Reconciled(m, flights)[k].clickTarget in flights
    ensures k in Reconciled(m, flights) && k in m ==> SameBinding(Reconciled(m, flights)[k], m[k])
  {
    var p := Pruned(m, flights);
    if FiledById(m) {
      PlaceAllKeepsFiling(p, flights);
    }
    if k in Reconciled(m, flights) {
      if k in p {
        PlaceAllKeepsBinding(p, flights, k);
      } else if k !in m {
        PlaceAllNewUnbound(p, flights, k);
      } else {
        ReconcileKeys(m, flights);
      }
    }
  }

  /** The map's plane markers by aircraft id (`markersRef.current`). */
  class MarkerLayer {
    var markers: map<string, Marker>

    ghost predicate Valid()
      reads this
    {
      FiledById(markers)
    }

    constructor ()
      ensures Valid() && markers == map[]
    {
      markers := map[];
    }

    /**
     * The reconciliation effect: remove the markers whose id is not in the batch, then move and
     * re-icon the marker of each positioned flight, or create one.
     */
    method Reconcile(flights: seq<Flight>)
      requires Valid()
      modifies this
      ensures Valid()
      ensures markers == Reconciled(old(markers), flights)
    {
      ghost var m0 := markers;
      Prune(flights);
      PlaceBatch(flights);
      ReconcileBindings(m0, flights, "");
    }

    /** The first pass: every marker whose id is absent from the batch is removed. */
    method Prune(flights: seq<Flight>)
      requires Valid()
      modifies this
      ensures Valid()
      ensures markers == Pruned(old(markers), flights)
    {
      var ids := Ids(flights);
      var keys := markers.Keys;
      while keys != {}
        invariant keys <= old(markers).Keys
        invariant markers == map k | k in old(markers) && (k in keys || k in ids) :: old(markers)[k]
        decreases |keys|
      {
        var k :| k in keys;
        if k !in ids {
          markers := markers - {k};
        }
        keys := keys - {k};
      }
    }

    /** The second pass: each positioned flight moves its marker or gets a new one, in order. */
    method PlaceBatch(flights: seq<Flight>)
      requires Valid()
      modifies this
      ensures Valid()
      ensures markers == PlaceAll(old(markers), flights)
    {
      for i := 0 to |flights|
        invariant markers == PlaceAll(old(markers), flights[..i])
      {
        var f := flights[i];
        assert flights[..i + 1] == flights[..i] + [f];
        if HasPosition(f) {
          var color, rotation := MarkerColor(f), Rotation(f);
          if f.icao24 in markers {
            var mk := markers[f.icao24];
            markers := markers[f.icao24 := mk.(lat := f.latitude.value, lon := f.longitude.value)];
            markers := markers[f.icao24 := markers[f.icao24].(color := color, rotation := rotation)];
          } else {
            markers := markers[f.icao24 := NewMarker(f)];
          }
        }
      }
      assert flights[..|flights|] == flights;
      PlaceAllKeepsFiling(old(markers), flights);
    }

    /**
     * The selection effect: pan to the selected flight and, when a marker exists for its id, bind
     * the popup there. Returns where the view pans to, `None` when nothing is selected.
     */
    method ShowSelection(selected: Option<Flight>) returns (panTo: Option<(Option<real>, Option<real>)>)
      requires Valid()
      modifies this
      ensures Valid()
      ensures panTo == if selected.Some? then Some((selected.value.latitude, selected.value.longitude)) else None
      ensures markers.Keys == old(markers).Keys
      ensures forall k :: k in markers ==> (markers[k] ==
        if selected.Some? && k == selected.value.icao24 then old(markers)[k].(popup := Some(PopupFor(selected.value)))
        else old(markers)[k])
    {
      panTo := None;
      if selected.Some? {
        var f := selected.value;
        panTo := Some((f.latitude, f.longitude));
        if f.icao24 in markers {
          markers := markers[f.icao24 := markers[f.icao24].(popup := Some(PopupFor(f)))];
        }
      }
    }
  }
}
