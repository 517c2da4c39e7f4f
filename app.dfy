/**
 * The flight store's derived views (App.tsx): the filtered list shown in the side panel, the
 * city choices offered by the city filter, and the labels of the status filter buttons.
 */
module App {
  import opened Wrappers
  import opened Strings
  import opened Types
  import opened Constants
  import opened FlightService

  /** The filter controls: active tab, search box, status filter and city filter (`'all'` = off). */
  datatype FilterSettings = FilterSettings(tab: FlightTab, searchTerm: string, statusFilter: string, cityFilter: string)

  /** Case-insensitive substring match of the term on callsign, airline, origin or destination. */
  predicate MatchesSearch(f: Flight, term: string) {
    var t := ToLower(term);
    || Includes(ToLower(f.callsign), t)
    || Includes(ToLower(f.airline), t)
    || Includes(ToLower(f.origin), t)
    || Includes(ToLower(f.destination), t)
  }

  predicate MatchesTab(f: Flight, tab: FlightTab) {
    if tab == Arrivals then f.destination == HOME else f.origin == HOME
  }

  predicate MatchesStatus(f: Flight, statusFilter: string) {
    statusFilter == "all" || f.status == statusFilter
  }

  predicate MatchesCity(f: Flight, cityFilter: string) {
    cityFilter == "all" || f.origin == cityFilter || f.destination == cityFilter
  }

  /** The predicate `filteredFlights` keeps a flight by. */
  predicate Visible(f: Flight, s: FilterSettings) {
    MatchesSearch(f, s.searchTerm) && MatchesStatus(f, s.statusFilter)
    && MatchesCity(f, s.cityFilter) && MatchesTab(f, s.tab)
  }

  /** `Array.prototype.filter`. */
  function Filter<T>(s: seq<T>, p: T -> bool): (r: seq<T>)
    ensures |r| <= |s|
  {
    if s == [] then [] else (if p(s[0]) then [s[0]] else []) + Filter(s[1..], p)
  }

  /** `a` is `b` with some elements left out, the rest in their order. */
  ghost predicate IsSubsequence<T>(a: seq<T>, b: seq<T>)
    decreases |b|
  {
    if a == [] then true
    else if b == [] then false
    else (a[0] == b[0] && IsSubsequence(a[1..], b[1..])) || IsSubsequence(a, b[1..])
  }

  lemma {:induction false} FilterMembership<T>(s: seq<T>, p: T -> bool, x: T)
    ensures x in Filter(s, p) <==> x in s && p(x)
    decreases |s|
  {
    if s != [] {
      FilterMembership(s[1..], p, x);
      assert s == [s[0]] + s[1..];
    }
  }

  lemma {:induction false} FilterIsSubsequence<T>(s: seq<T>, p: T -> bool)
    ensures IsSubsequence(Filter(s, p), s)
    decreases |s|
  {
    if s != [] {
      FilterIsSubsequence(s[1..], p);
      var r := Filter(s, p);
      if p(s[0]) {
        assert r[0] == s[0] && r[1..] == Filter(s[1..], p);
      } else {
        assert r == Filter(s[1..], p);
        if r != [] { SubsequenceDropHead(r, s); }
      }
    }
  }

  lemma SubsequenceDropHead<T>(a: seq<T>, b: seq<T>)
    requires a != [] && b != [] && IsSubsequence(a, b[1..])
    ensures IsSubsequence(a, b)
  {
  }

  /** Filtering by `p` then by `q` is filtering by both at once. */
  lemma {:induction false} FilterFuse<T>(s: seq<T>, p: T -> bool, q: T -> bool)
    ensures Filter(Filter(s, p), q) == Filter(s, x => p(x) && q(x))
    decreases |s|
  {
    if s != [] {
      FilterFuse(s[1..], p, q);
      var head := if p(s[0]) then [s[0]] else [];
      FilterAppend(head, Filter(s[1..], p), q);
    }
  }

  lemma {:induction false} FilterAppend<T>(a: seq<T>, b: seq<T>, p: T -> bool)
    ensures Filter(a + b, p) == Filter(a, p) + Filter(b, p)
    decreases |a|
  {
    if a != [] {
      FilterAppend(a[1..], b, p);
      assert (a + b)[0] == a[0] && (a + b)[1..] == a[1..] + b;
      var head := if p(a[0]) then [a[0]] else [];
      calc {
        Filter(a + b, p);
        head + Filter(a[1..] + b, p);
        head + (Filter(a[1..], p) + Filter(b, p));
        (head + Filter(a[1..], p)) + Filter(b, p);
        Filter(a, p) + Filter(b, p);
      }
    } else {
      assert a + b == b;
    }
  }

  lemma {:induction false} FilterIdempotent<T>(s: seq<T>, p: T -> bool)
    ensures Filter(Filter(s, p), p) == Filter(s, p)
  {
    FilterFuse(s, p, p);
    FilterSameKept(s, p, x => p(x) && p(x));
  }

  /** Two predicates that agree on every element keep the same elements. */
  lemma {:induction false} FilterSameKept<T>(s: seq<T>, p: T -> bool, q: T -> bool)
    requires forall x :: x in s ==> p(x) == q(x)
    ensures Filter(s, p) == Filter(s, q)
    decreases |s|
  {
    if s != [] {
      assert forall x :: x in s[1..] ==> x in s;
      FilterSameKept(s[1..], p, q);
    }
  }

  /** `filteredFlights`. */
  function FilteredFlights(flights: seq<Flight>, s: FilterSettings): seq<Flight> {
    Filter(flights, f => Visible(f, s))
  }

  /**
   * A flight is listed iff it is in the batch and passes all four tests, and the list keeps the
   * batch's order.
   */
  lemma FilteredFlightsSpec(flights: seq<Flight>, s: FilterSettings, f: Flight)
    ensures f in FilteredFlights(flights, s) <==>
      f in flights && MatchesSearch(f, s.searchTerm) && MatchesStatus(f, s.statusFilter)
      && MatchesCity(f, s.cityFilter) && MatchesTab(f, s.tab)
    ensures IsSubsequence(FilteredFlights(flights, s), flights)
  {
    FilterMembership(flights, f => Visible(f, s), f);
    FilterIsSubsequence(flights, f => Visible(f, s));
  }

  /** Filtering the filtered list again with the same settings changes nothing. */
  lemma FilteredFlightsIdempotent(flights: seq<Flight>, s: FilterSettings)
    ensures FilteredFlights(FilteredFlights(flights, s), s) == FilteredFlights(flights, s)
  {
    FilterIdempotent(flights, f => Visible(f, s));
  }

  /**
   * The four tests applied one after another, tab first or city first, give the same list as the
   * combined predicate; `FilterCommute` swaps any two neighbouring steps of such a chain.
   */
  lemma FilterOrderIndependent(flights: seq<Flight>, s: FilterSettings)
    ensures FilteredFlights(flights, s) ==
      Filter(Filter(Filter(Filter(flights,
        f => MatchesTab(f, s.tab)), f => MatchesSearch(f, s.searchTerm)),
        f => MatchesStatus(f, s.statusFilter)), f => MatchesCity(f, s.cityFilter))
    ensures FilteredFlights(flights, s) ==
      Filter(Filter(Filter(Filter(flights,
        f => MatchesCity(f, s.cityFilter)), f => MatchesStatus(f, s.statusFilter)),
        f => MatchesSearch(f, s.searchTerm)), f => MatchesTab(f, s.tab))
  {
    var tab := (f: Flight) => MatchesTab(f, s.tab);
    var search := (f: Flight) => MatchesSearch(f, s.searchTerm);
    var status := (f: Flight) => MatchesStatus(f, s.statusFilter);
    var city := (f: Flight) => MatchesCity(f, s.cityFilter);
    var visible := (f: Flight) => Visible(f, s);
    var ts := (f: Flight) => MatchesTab(f, s.tab) && MatchesSearch(f, s.searchTerm);
    var tss := (f: Flight) => ts(f) && MatchesStatus(f, s.statusFilter);
    FilterFuseSame(flights, tab, search, ts);
    FilterFuseSame(flights, ts, status, tss);
    FilterFuseSame(flights, tss, city, visible);
    var cs := (f: Flight) => MatchesCity(f, s.cityFilter) && MatchesStatus(f, s.statusFilter);
    var css := (f: Flight) => cs(f) && MatchesSearch(f, s.searchTerm);
    FilterFuseSame(flights, city, status, cs);
    FilterFuseSame(flights, cs, search, css);
    FilterFuseSame(flights, css, tab, visible);
  }

  /** Filtering by `p` then `q` is filtering by any `r` that holds exactly when both do. */
  lemma FilterFuseSame<T>(s: seq<T>, p: T -> bool, q: T -> bool, r: T -> bool)
    requires forall x :: r(x) == (p(x) && q(x))
    ensures Filter(Filter(s, p), q) == Filter(s, r)
  {
    FilterFuse(s, p, q);
    FilterSameKept(s, x => p(x) && q(x), r);
  }

  /**
   * Two filters applied one after the other commute, so a chain of filters gives the same list
   * in every order of its steps.
   */
  lemma FilterCommute<T>(s: seq<T>, p: T -> bool, q: T -> bool)
    ensures Filter(Filter(s, p), q) == Filter(Filter(s, q), p)
  {
    var both := (x: T) => p(x) && q(x);
    FilterFuseSame(s, p, q, both);
    FilterFuseSame(s, q, p, both);
  }

  /** The arrivals tab keeps exactly the flights bound for home, departures those leaving it. */
  lemma TabRule(flights: seq<Flight>, f: Flight)
    ensures f in FilteredFlights(flights, FilterSettings(Arrivals, "", "all", "all")) <==>
      f in flights && f.destination == HOME
    ensures f in FilteredFlights(flights, FilterSettings(Departures, "", "all", "all")) <==>
      f in flights && f.origin == HOME
  {
    EmptySearchMatches(f);
    FilteredFlightsSpec(flights, FilterSettings(Arrivals, "", "all", "all"), f);
    FilteredFlightsSpec(flights, FilterSettings(Departures, "", "all", "all"), f);
  }

  /** The empty search term matches every flight. */
  lemma EmptySearchMatches(f: Flight)
    ensures MatchesSearch(f, "")
  {
    assert ToLower("") == "";
    assert StartsWith(ToLower(f.callsign), "");
  }

  /**
   * The search term matches iff, ignoring ASCII case, it occurs at some offset of one of the four
   * searched fields.
   */
  lemma SearchMeansSubstring(f: Flight, term: string)
    ensures MatchesSearch(f, term) <==>
      exists field, i :: field in [f.callsign, f.airline, f.origin, f.destination]
        && OccursAt(ToLower(field), ToLower(term), i)
  {
    var t := ToLower(term);
    var fields := [f.callsign, f.airline, f.origin, f.destination];
    if MatchesSearch(f, term) {
      var field :| field in fields && Includes(ToLower(field), t);
      IncludesHasOffset(ToLower(field), t);
    }
    if exists field, i :: field in fields && OccursAt(ToLower(field), t, i) {
      var field, i :| field in fields && OccursAt(ToLower(field), t, i);
      IncludesAt(ToLower(field), t, i);
    }
  }

  /** Two search terms that agree up to ASCII case select the same flights. */
  lemma SearchIgnoresCase(f: Flight, t1: string, t2: string)
    requires ToLower(t1) == ToLower(t2)
    ensures MatchesSearch(f, t1) == MatchesSearch(f, t2)
  {
  }

  /**
   * The synthetic dataset's statuses are none of the declared strings, so with the status filter
   * set to either of its buttons' values the fallback list is empty.
   */
  lemma FallbackStatusFilterEmpty(jitter: seq<Jitter>, s: FilterSettings)
    requires |jitter| == |MOCK_FLIGHTS| && forall i :: 0 <= i < |jitter| ==> ValidJitter(jitter[i])
    requires s.statusFilter == Airborne.Label() || s.statusFilter == Grounded.Label()
    ensures FilteredFlights(MockDataWithNoise(jitter), s) == []
  {
    var data := MockDataWithNoise(jitter);
    var r := FilteredFlights(data, s);
    if r != [] {
      FilteredFlightsSpec(data, s, r[0]);
      var i :| 0 <= i < |data| && data[i] == r[0];
      MockStatusesUndeclared(i);
      assert false;
    }
  }

  /** A flight for the scenarios below, with only the fields the filter reads set. */
  function Sample(origin: string, destination: string, status: FlightStatus): Flight {
    Flight(icao24 := origin + destination, callsign := "", originCountry := "", longitude := None,
           latitude := None, baroAltitude := None, onGround := status == Grounded, velocity := None,
           trueTrack := None, verticalRate := None, status := status.Label(), airline := "",
           origin := origin, destination := destination, scheduledTime := None)
  }

  /** Arrivals keeps GRU to BEL; departures, grounded, city VCP keeps BEL to VCP. */
  lemma FilterScenarios()
    ensures var flights := [Sample("GRU", "BEL", Airborne), Sample("BEL", "VCP", Grounded)];
      && FilteredFlights(flights, FilterSettings(Arrivals, "", "all", "all")) == [flights[0]]
      && FilteredFlights(flights, FilterSettings(Departures, "", Grounded.Label(), "VCP")) == [flights[1]]
  {
    EmptySearchMatches(Sample("GRU", "BEL", Airborne));
    EmptySearchMatches(Sample("BEL", "VCP", Grounded));
  }

  /** A code the city filter offers: an endpoint of some flight, other than home and `'---'`. */
  ghost predicate IsListedCity(c: string, flights: seq<Flight>) {
    c != HOME && c != "---" && exists f :: f in flights && (f.origin == c || f.destination == c)
  }

  /** `uniqueCities`: the distinct listed codes of the whole batch, in ascending order. */
  method UniqueCities(flights: seq<Flight>) returns (cities: seq<string>)
    ensures StrictlyAscending(cities)
    ensures forall c :: c in cities <==> IsListedCity(c, flights)
  {
    var found: set<string> := {};
    for i := 0 to |flights|
      invariant forall c :: c in found <==> IsListedCity(c, flights[..i])
    {
      var f := flights[i];
      assert flights[..i + 1] == flights[..i] + [f];
      if f.origin != HOME && f.origin != "---" {
        found := found + {f.origin};
      }
      if f.destination != HOME && f.destination != "---" {
        found := found + {f.destination};
      }
    }
    assert flights[..|flights|] == flights;
    cities := SortedCodes(found);
  }

  /** `Array.from(set).sort()`: the set's elements in strictly ascending order. */
  method SortedCodes(codes: set<string>) returns (sorted: seq<string>)
    ensures StrictlyAscending(sorted)
    ensures forall c :: c in sorted <==> c in codes
  {
    sorted := [];
    var rest := codes;
    while rest != {}
      invariant StrictlyAscending(sorted)
      invariant forall c :: c in codes <==> c in sorted || c in rest
      invariant forall i, y :: 0 <= i < |sorted| && y in rest ==> Less(sorted[i], y)
      decreases |rest|
    {
      var m := MinimumOf(rest);
      sorted := sorted + [m];
      rest := rest - {m};
    }
  }

  /** The least element of a non-empty set of codes. */
  method MinimumOf(codes: set<string>) returns (m: string)
    requires codes != {}
    ensures m in codes && forall c :: c in codes && c != m ==> Less(m, c)
  {
    m :| m in codes;
    var rest := codes - {m};
    while rest != {}
      invariant m in codes && m !in rest && rest <= codes
      invariant forall c :: c in codes && c !in rest && c != m ==> Less(m, c)
      decreases |rest|
    {
      var c :| c in rest;
      if Less(c, m) {
        forall d | d in codes && d !in rest && d != c
          ensures Less(c, d)
        {
          if d != m { LessTransitive(c, m, d); }
        }
        m := c;
      } else {
        LessTotal(c, m);
      }
      rest := rest - {c};
    }
  }

  /** Two strictly ascending lists with the same members start with the same element. */
  lemma AscendingSameHead(a: seq<string>, b: seq<string>)
    requires StrictlyAscending(a) && StrictlyAscending(b)
    requires forall c :: c in a <==> c in b
    requires a != []
    ensures b != [] && a[0] == b[0]
  {
    assert a[0] in a;
    assert b != [] by { assert a[0] in b; }
    assert b[0] in b;
    if a[0] != b[0] {
      assert b[0] in a;
      var i :| 0 < i < |a| && a[i] == b[0];
      var j :| 0 < j < |b| && b[j] == a[0];
      LessTransitive(a[0], b[0], a[0]);
      LessIrreflexive(a[0]);
    }
  }

  /** Dropping the common head of two such lists leaves lists with the same members. */
  lemma AscendingSameTail(a: seq<string>, b: seq<string>)
    requires StrictlyAscending(a) && StrictlyAscending(b)
    requires forall c :: c in a <==> c in b
    requires a != [] && b != [] && a[0] == b[0]
    ensures forall c :: c in a[1..] <==> c in b[1..]
  {
    forall c ensures c in a[1..] <==> c in b[1..] {
      if c in a[1..] {
        var i :| 1 <= i < |a| && a[i] == c;
        AscendingHasNoDuplicates(a, 0, i);
        assert c in a;
      }
      if c in b[1..] {
        var j :| 1 <= j < |b| && b[j] == c;
        AscendingHasNoDuplicates(b, 0, j);
        assert c in b;
      }
    }
  }

  /**
   * Strict ascent and the set of elements determine a sequence, so the list above is the one any
   * correct sort of the set yields.
   */
  lemma {:induction false} AscendingIsUnique(a: seq<string>, b: seq<string>)
    requires StrictlyAscending(a) && StrictlyAscending(b)
    requires forall c :: c in a <==> c in b
    ensures a == b
    decreases |a|
  {
    assert b != [] ==> b[0] in b;
    if a != [] {
      AscendingSameHead(a, b);
      AscendingSameTail(a, b);
      assert StrictlyAscending(a[1..]) && StrictlyAscending(b[1..]);
      AscendingIsUnique(a[1..], b[1..]);
      assert a == [a[0]] + a[1..] && b == [b[0]] + b[1..];
    }
  }

  /** `getStatusLabel`: `'all'` has its own label, any other string gets an upper-case first letter. */
  function StatusLabel(status: string): (r: string)
    ensures status == "all" ==> r == "Todos os Status"
    ensures status != "all" ==> |r| == |status|
    ensures status != "all" && |status| > 0 ==> r[0] == UpperChar(status[0]) && r[1..] == status[1..]
  {
    if status == "all" then "Todos os Status"
    else if status == "" then ""
    else [UpperChar(status[0])] + status[1..]
  }

  /** The three status buttons carry three distinct labels, the two statuses their own strings. */
  lemma StatusButtonLabels()
    ensures StatusLabel(Airborne.Label()) == Airborne.Label()
    ensures StatusLabel(Grounded.Label()) == Grounded.Label()
    ensures StatusLabel("all") != Airborne.Label() && StatusLabel("all") != Grounded.Label()
    ensures Airborne.Label() != Grounded.Label()
  {
  }
}
