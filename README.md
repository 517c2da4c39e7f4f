# VoosBelem flight dashboard — a Dafny model

VoosBelem is a single-page dashboard for air traffic around Belém airport (IATA `BEL`). It asks
the OpenSky flight-state service for the aircraft inside a fixed box around the airport. It turns
each state vector into a `Flight` record and guesses the route and airline. When no live data
arrives, it shows four synthetic flights with a little positional noise. It lists the flights
under an arrivals or a departures tab, filtered by a search term, a status and a city. A Leaflet
map shows one marker per aircraft, coloured by direction and rotated by heading.

The model covers:

- the record and enumerations (`types.dfy`);
- the fixed data (`constants.dfy`);
- the record mapping, route guesser and fallback of the fetch service (`flight_service.dfy`);
- the list filter, city list and status button labels of the app (`app.dfy`);
- the marker reconciler and selection popup of the map (`flight_map.dfy`);
- shared string and option helpers that model JavaScript's `trim`, `toLowerCase`, `includes`,
  `startsWith`, `padStart`, default string sort and `||` on numbers
  (`strings.dfy`, `wrappers.dfy`).

Randomness becomes parameters: the route pick, the hour and minute of the scheduled time, and the
jitter of the fallback data, each bounded like `Math.random()` scaled in the source. The network
outcome is a parameter too. The map marker state is imperative: `MarkerLayer` holds the
dictionary of markers, keyed by aircraft id, that the reconcile effect updates in place. Each
marker is a value recording its position, icon, tooltip, z-index offset, click target and bound
popup. `Reconcile` runs the source's two passes as two loops (`Prune`, then `PlaceBatch`) and is
proved equal to a pure function `Reconciled` of the old markers; the lemmas about the effect are
stated on that function.

Some behaviours of the code worth noting, all modelled as written:

- The city list leaves out only `BEL` and `---` (App.tsx:35-36); a `N/A` endpoint is listed.
- The selected flight is the object stored when its card was clicked (App.tsx:14, App.tsx:130).
  The popup shows that object's figures; it is not looked up again by id in a later batch.
- A marker click also selects a flight (App.tsx:150). The click handler is bound once, when the
  marker is created (components/FlightMap.tsx:98), and a surviving marker is only moved and
  re-iconed (components/FlightMap.tsx:89-91). So the click selects the flight object of the batch
  that created the marker, and its popup shows that batch's figures (`ReconcileBindings` keeps the
  click target).
- A flight without a position keeps any marker already filed under its id, where it was
  (components/FlightMap.tsx:55-65).
- The data is refreshed every 10000 ms (App.tsx:28). The timer is outside the model.

## Model

| member | source | states |
|---|---|---|
| Wrappers.OrZero | services/flightService.ts:88 | `x \|\| 0` on a nullable number: the value when present and non-zero, else 0 |
| Types.StatusFromLabel | types.ts:25-31 | decoding a string gives a status whose label is that string |
| Types.StatusLabelRoundTrip | types.ts:13 | every status label decodes back to its status; exactly the five declared strings decode |
| Types.StatusLabelsDistinct | types.ts:25-31 | the five status strings are pairwise different |
| Types.HasPosition | components/FlightMap.tsx:65 | a flight has a position when both latitude and longitude are present; `ReconcileSkipsUnpositioned` and `PlaceAllKeys` state that only such flights get markers |
| Types.DeclaredStatusIsLabel | types.ts:13 | the record's status union is exactly the set of enum labels |
| Types.TabValues | types.ts:20-23 | two tabs, with distinct string values |
| Constants.BoundingBoxWellFormed | constants.ts:4-11 | the query box is a proper rectangle and contains the airport's coordinates |
| Constants.MockIdsDistinct | constants.ts:13-82 | four mock flights, with pairwise distinct aircraft ids |
| Constants.MockFlightShape | constants.ts:13-82 | every mock flight has a position 0.01 degrees inside the box and one home endpoint; it is grounded exactly when it departs from home |
| Constants.MockStatusesUndeclared | constants.ts:25 | no mock status (`no ar`, `em solo`) is one of the declared status strings |
| Strings.LeadingCount | services/flightService.ts:44 | the length of the longest prefix made only of JavaScript whitespace and line terminators |
| Strings.TrailingCount | services/flightService.ts:44 | the length of the longest suffix made only of whitespace and line terminators |
| Strings.TrailingOfSuffix | services/flightService.ts:44 | the trailing whitespace run of what is left after the leading run is cut is a trailing run of the whole string |
| Strings.Trim | services/flightService.ts:44 | the result is the input with whitespace padding removed at both ends, and it is empty iff the input is all whitespace |
| Strings.TrimIdempotent | services/flightService.ts:44 | trimming twice is trimming once |
| Strings.StartsWith | services/flightService.ts:48-51 | `startsWith`: the string begins with the prefix; `AirlineByPrefix` states the airline chain in its terms |
| Strings.ToLower | App.tsx:44-47 | lower-casing keeps the length and maps each character |
| Strings.Includes | App.tsx:44-47 | `includes`: the needle occurs somewhere; `IncludesAt` and `IncludesHasOffset` tie it to an occurrence at an offset |
| Strings.IncludesAt | App.tsx:44-47 | a needle found at an offset is included |
| Strings.IncludesHasOffset | App.tsx:44-47 | an included needle occurs at some offset |
| Strings.Less | App.tsx:38 | the default order of `.sort()` on strings; `LessIrreflexive`, `LessTransitive` and `LessTotal` state that it is a strict total order |
| Strings.LessIrreflexive | App.tsx:38 | the default string order is irreflexive |
| Strings.LessTransitive | App.tsx:38 | the default string order is transitive |
| Strings.LessTotal | App.tsx:38 | any two different strings are ordered one way or the other |
| Strings.AscendingHasNoDuplicates | App.tsx:33-38 | a strictly ascending list holds no value twice |
| Strings.DigitChar | services/flightService.ts:74 | the decimal digit character of a digit value |
| Strings.PadTwo | services/flightService.ts:74 | a number below 100 padded to two digits whose decimal value is the number |
| FlightService.Callsign | services/flightService.ts:44 | the trimmed callsign, or `N/A` when it is absent or blank; never empty and never padded |
| FlightService.Airline | services/flightService.ts:47-51 | the airline of the first matching prefix, one of GOL, Azul, LATAM, Voepass and Outra; which prefix gives which is stated by `AirlineByPrefix` |
| FlightService.AirlineByPrefix | services/flightService.ts:47-51 | the airline is GOL, Azul, LATAM, Voepass or Outra exactly when the callsign has that carrier's prefix, `LA` covering `LAN` |
| FlightService.GuessRoute | services/flightService.ts:54-57 | a known callsign takes its table route; otherwise a grounded flight departs home to a pool airport and an airborne one arrives home from one |
| FlightService.RouteDataShape | services/flightService.ts:9-20 | every table route has exactly one home endpoint, and home is not in the pool |
| FlightService.GuessedRouteHasOneHomeEndpoint | services/flightService.ts:54-57 | every guessed route touches home exactly once |
| FlightService.ScheduledTime | services/flightService.ts:74 | a five-character `HH:MM` whose digits spell the hour and the minute |
| FlightService.MapState | services/flightService.ts:43-76 | the flight built from one state vector; `LiveFlightFields` states the copied fields, `LiveFlightClassification` status, route and airline, `LiveFlightColor` its marker colour |
| FlightService.LiveFlightClassification | services/flightService.ts:43-76 | a live flight is `No Solo` iff grounded and `Em Voo` iff airborne; it has one home endpoint and a known airline; without a table route it departs home iff grounded |
| FlightService.LiveFlightFields | services/flightService.ts:59-69 | id, country, position, altitude, speed, track and climb rate are copied from the state vector |
| FlightService.MapStates | services/flightService.ts:43 | one flight per state vector, in order |
| FlightService.WithNoise | services/flightService.ts:84-89 | the mock flight with a position and a track, every other field unchanged; `FallbackInsideBox` bounds the jittered position |
| FlightService.MockDataWithNoise | services/flightService.ts:83-90 | one flight per mock flight, positioned and with a track, every other field unchanged |
| FlightService.FallbackInsideBox | services/flightService.ts:86-87 | each fallback position lies within 0.01 degrees of its mock original and inside the query box |
| FlightService.UsesFallback | services/flightService.ts:39-80 | the outcomes that give the mock data: a failure, or an absent or empty state list; `FetchFlights` and `FetchedFlightsShape` state the result on each side |
| FlightService.FetchFlights | services/flightService.ts:22-81 | never empty: a failure, or an absent or empty state list, yields the noisy mock data; otherwise the mapped states, one per state vector |
| FlightService.FetchedFlightsShape | services/flightService.ts:22-90 | every fetched flight has one home endpoint; its status is a declared one exactly when live data arrived |
| App.Filter | App.tsx:42 | filtering never lengthens a list |
| App.FilterMembership | App.tsx:42 | an element is kept iff it is in the list and satisfies the predicate |
| App.FilterIsSubsequence | App.tsx:42 | the kept elements appear in their original order |
| App.FilterFuse | App.tsx:42-57 | filtering by one predicate and then another equals filtering by their conjunction |
| App.FilterAppend | App.tsx:42 | filtering distributes over concatenation |
| App.FilterIdempotent | App.tsx:42 | filtering twice by the same predicate is filtering once |
| App.FilterSameKept | App.tsx:42 | predicates that agree on the list keep the same elements |
| App.FilterFuseSame | App.tsx:42-57 | a filter by a conjunction splits into two filters |
| App.FilterCommute | App.tsx:42-56 | two filters applied one after the other commute, so the four tests can be chained in any order |
| App.MatchesSearch | App.tsx:43-47 | the search test; `SearchMeansSubstring`, `EmptySearchMatches` and `SearchIgnoresCase` state what it accepts |
| App.MatchesTab | App.tsx:49-51 | the tab test: arrivals need destination `BEL`, departures origin `BEL`; `TabRule` states the lists it gives |
| App.MatchesStatus | App.tsx:53 | the status test, off for `all`; `FallbackStatusFilterEmpty` states its effect on the fallback data |
| App.MatchesCity | App.tsx:54 | the city test, off for `all`, else origin or destination equal to the city |
| App.Visible | App.tsx:42-56 | the conjunction of the four tests; `FilterOrderIndependent` and `FilterCommute` state that the order of the tests does not matter |
| App.FilteredFlights | App.tsx:41-58 | the visible flights of the batch; `FilteredFlightsSpec` and `FilteredFlightsIdempotent` state its properties |
| App.FilteredFlightsSpec | App.tsx:41-58 | a flight is listed iff it is in the data and matches search, tab, status and city; the list keeps the data's order |
| App.FilteredFlightsIdempotent | App.tsx:41-58 | filtering the filtered list again changes nothing |
| App.FilterOrderIndependent | App.tsx:56 | applying the four conditions one after another, tab first or city first, gives the combined list |
| App.TabRule | App.tsx:49-51 | with no other filter, arrivals lists exactly the flights bound for home and departures those leaving home |
| App.EmptySearchMatches | App.tsx:43-47 | the empty search term matches every flight |
| App.SearchMeansSubstring | App.tsx:43-47 | a term matches iff its lower-cased form occurs in the lower-cased callsign, airline, origin or destination |
| App.SearchIgnoresCase | App.tsx:43-47 | terms that lower-case alike match the same flights |
| App.FallbackStatusFilterEmpty | App.tsx:53 | choosing the `Em Voo` or `No Solo` status button empties the list whenever the fallback data is shown |
| App.FilterScenarios | App.tsx:41-58 | concrete tab, search, status and city selections over two flights list the expected ones |
| App.UniqueCities | App.tsx:32-39 | a strictly ascending list of exactly the endpoints other than `BEL` and `---` |
| App.SortedCodes | App.tsx:38 | the members of a set in strictly ascending order, each exactly once |
| App.MinimumOf | App.tsx:38 | the least member of a non-empty set |
| App.AscendingSameHead | App.tsx:38 | two strictly ascending lists with the same members start with the same element |
| App.AscendingSameTail | App.tsx:38 | after that common first element, the rest of the two lists have the same members |
| App.AscendingIsUnique | App.tsx:38 | two strictly ascending lists with the same members are equal, so the city list is determined by the data |
| App.StatusLabel | App.tsx:60-63 | `all` shows `Todos os Status`; any other status shows with its first letter upper-cased and the rest unchanged |
| App.StatusButtonLabels | App.tsx:60-63 | the three buttons show `Todos os Status`, `Em Voo` and `No Solo`, all distinct |
| FlightMap.MarkerColor | components/FlightMap.tsx:69-78 | the colour chain of the source; `ColorRule`, `ColorAgreesWithArrivals` and `LiveFlightColor` state it per colour and against the tabs |
| FlightMap.ColorRule | components/FlightMap.tsx:69-78 | gray iff grounded; emerald iff airborne and bound for home; orange iff airborne, leaving home and not bound for it; blue otherwise |
| FlightMap.ColorAgreesWithArrivals | components/FlightMap.tsx:69-78 | an airborne marker is emerald exactly when the arrivals tab lists its flight |
| FlightMap.LiveFlightColor | components/FlightMap.tsx:69-78 | a live flight's marker is never blue, and an airborne one without a table route is emerald |
| FlightMap.Rotation | components/FlightMap.tsx:67 | the icon turns by the track, or by 0 when the track is absent or zero |
| FlightMap.Round | components/FlightMap.tsx:123-125 | `Math.round` gives the integer within half a unit, halves rounding up |
| FlightMap.AltitudeOf | components/FlightMap.tsx:123 | the popup altitude: `No Solo`, or the altitude in feet rounded; `PopupFigures` and `AltitudeExample` state it |
| FlightMap.SpeedOf | components/FlightMap.tsx:124 | the popup speed: `---`, or the speed in knots rounded; `PopupFigures` states it |
| FlightMap.PopupFor | components/FlightMap.tsx:116-140 | the figures shown in the popup; `PopupFigures` states each of them |
| FlightMap.PopupFigures | components/FlightMap.tsx:111-146 | altitude in feet and speed in knots, each within half a unit of the converted value, shown only when present and non-zero; heading is the rounded track; callsign, airline and route copied |
| FlightMap.AltitudeExample | components/FlightMap.tsx:123 | 10668 m shows as 35000 ft |
| FlightMap.NewMarker | components/FlightMap.tsx:93-105 | the marker created for a positioned flight; `PlaceAllNewUnbound` and `PlaceAllDistinct` state what a created marker holds |
| FlightMap.Moved | components/FlightMap.tsx:89-91 | an existing marker moved and re-iconed; `PlaceAllKeepsBinding` and `PlaceAllLastWins` state what changes and what stays |
| FlightMap.Placed | components/FlightMap.tsx:62-107 | one step of the second pass; the `PlaceAll` lemmas state its effect |
| FlightMap.PlaceAll | components/FlightMap.tsx:62-108 | the second pass over the batch in order; `PlaceAllKeys`, `PlaceAllUntouched`, `PlaceAllLastWins`, `PlaceAllDistinct`, `PlaceAllIdempotent` state its properties |
| FlightMap.Ids | components/FlightMap.tsx:53 | `currentIcaos`, the ids of the batch; `ReconcileKeys` states that every remaining marker has one of them |
| FlightMap.Pruned | components/FlightMap.tsx:53-60 | the first pass: the markers whose id is in the batch; `ReconcileKeys` states the ids that remain |
| FlightMap.Reconciled | components/FlightMap.tsx:50-109 | both passes; `ReconcileKeys`, `ReconcileDistinct`, `ReconcileIdempotent`, `ReconcileLastWins` and `ReconcileBindings` state its properties |
| FlightMap.PlaceAllKeys | components/FlightMap.tsx:62-108 | after the placing pass, exactly the old ids and the ids of positioned flights have markers |
| FlightMap.PlaceAllUntouched | components/FlightMap.tsx:65 | a marker whose id no positioned flight carries is left exactly as it was |
| FlightMap.PlaceAllLastWins | components/FlightMap.tsx:89-91 | a marker shows the position, colour and rotation of the last positioned flight with its id |
| FlightMap.PlaceAllDistinct | components/FlightMap.tsx:89-107 | with distinct ids, a positioned flight's marker is its old marker moved, or a new marker |
| FlightMap.PlaceAllKeepsBinding | components/FlightMap.tsx:89-91 | an existing marker keeps its tooltip, z-index offset and click target |
| FlightMap.LastPositioned | components/FlightMap.tsx:62-65 | the last positioned flight of the batch with a given id |
| FlightMap.PlaceAllIdempotent | components/FlightMap.tsx:62-108 | placing the same batch twice is placing it once |
| FlightMap.ReconcileKeys | components/FlightMap.tsx:50-109 | after reconciliation, markers exist for exactly the surviving old ids and the positioned flights, and only for ids of the batch |
| FlightMap.ReconcileSkipsUnpositioned | components/FlightMap.tsx:65 | a flight without position neither creates nor moves a marker |
| FlightMap.ReconcileDistinct | components/FlightMap.tsx:89-107 | with distinct ids, a positioned flight's marker is its surviving marker moved, or a new marker |
| FlightMap.ReconcileIdempotent | components/FlightMap.tsx:50-109 | re-running the effect on the same batch changes no marker |
| FlightMap.ReconcileLastWins | components/FlightMap.tsx:50-109 | each positioned id shows its last positioned flight, and a surviving marker keeps its creation bindings |
| FlightMap.PlaceAllKeepsFiling | components/FlightMap.tsx:93-106 | a marker created for a flight is stored under that flight's id, so filing by click-target id is kept |
| FlightMap.PlaceAllNewUnbound | components/FlightMap.tsx:93-106 | a marker created by the pass has no popup yet and reports a flight of the batch carrying its id |
| FlightMap.ReconcileBindings | components/FlightMap.tsx:50-109 | reconciliation keeps filing by id; a new marker has no popup and a click target from the batch; a surviving marker keeps its tooltip, z-index offset, click target and popup |
| FlightMap.MarkerLayer.constructor | components/FlightMap.tsx:16 | the layer starts with no markers |
| FlightMap.MarkerLayer.Prune | components/FlightMap.tsx:53-60 | exactly the markers whose id is in the batch remain, each unchanged |
| FlightMap.MarkerLayer.PlaceBatch | components/FlightMap.tsx:62-108 | the markers afterwards are the old ones with the batch placed flight by flight, in order |
| FlightMap.MarkerLayer.Reconcile | components/FlightMap.tsx:50-109 | the markers afterwards are the reconciliation of the old ones, and every marker stays filed under its click target's id |
| FlightMap.MarkerLayer.ShowSelection | components/FlightMap.tsx:111-146 | pans to the selected flight's coordinates; binds its popup only when a marker exists for its id; changes no other marker and no id |

## Left out

- Network I/O is a parameter (`FetchOutcome`): the request URL, the five-second abort timer, HTTP status and JSON parsing. HTTP errors, timeouts and parse errors become `Failed`, and an absent or empty state list becomes `Received`. The `console.error` logged on the fallback path (services/flightService.ts:78) is not modelled.
- `Math.random` is a parameter: picks bounded like `Math.floor(Math.random() * n)`, and jitter in the half-open ranges the source's expressions produce.
- Floating point: numbers are exact reals. IEEE rounding, NaN and infinities are not modelled, and `Math.round` is modelled as round-half-up on exact values.
- `toLowerCase` and `toUpperCase` map only the ASCII letters; full Unicode case mapping is not modelled. `trim` covers all the JavaScript whitespace and line-terminator code points.
- Strings are sequences of Unicode code points, while JavaScript strings are UTF-16 code units. The default sort order therefore differs for characters above U+FFFF: JavaScript compares their surrogate halves, and the model compares whole code points. Likewise `charAt(0)` in the status label takes one code unit there, where the model takes the whole code point.
- `toLocaleString` thousands separators, the popup's HTML and units text, and the tooltip's HTML are not modelled; the popup is modelled as its figures.
- React state, `useMemo`/`useEffect` scheduling, the 10-second refresh interval, the loading flag and the last-updated clock are not modelled.
- The Leaflet map is not modelled: tiles, the airport marker, `panTo` animation, and which popup is open (Leaflet closes the previous one). `ShowSelection` returns the pan target and records the bound popup.
- Leaflet marker objects are modelled as values in the layer's dictionary. A marker is on the map exactly when it is in the dictionary, so `remove()` and `delete` are one step. A surviving marker keeping its object identity is expressed as keeping its tooltip, z-index offset, click handler and popup; aliasing of marker objects is not modelled.
- The tooltip's options and the icon's HTML are not modelled; the icon is its colour and rotation.
- The map-ready guards (`if (!mapRef.current)`) are not modelled; the layer always exists.
- `ROUTE_GUESSER[callsign]` on an inherited object key (for example `constructor`) is not modelled; the table is a plain map.
- Components/Header.tsx and components/FlightCard.tsx are presentation only and are not part of this model.
- FlightService.MockDataWithNoise: the noise adds `OrZero`-style `null || 0` only to the track; for a null mock latitude or longitude, JavaScript's `null + x` is modelled as `0 + x`, which no mock flight exercises.
- The `status` field of a flight is a plain string, because the mock data stores `no ar` and `em solo`, which are outside the declared union.
