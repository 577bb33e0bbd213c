# Bangalore last-mile journey planner — a Dafny model

The planner answers "how do I get from A to B in Bangalore?" with up to four
journey cards:

- a ride-hailing card ("Cab Direct") with five provider quotes;
- up to two metro cards (walk or auto legs to and from the nearest stations);
- a bus card.

It scores the cards against the user's trained mode weights and chosen
priority, then returns them best first. At start-up it loads the metro lines
and stations, the bus stops, both fare tables and a route-to-stop table.
Separate endpoints offer autocomplete and a preference "training" step that
moves the mode weights. A stand-alone script re-implements the metro fare
lookup. An experimental router runs a Dijkstra search over a small graph of
localities, with learnt edge times.

The model follows the program's structure:

| file | module | what it holds |
|---|---|---|
| `base.dfy` | `Base` | `Option`, coordinates, the non-negative distance function, `int()` truncation, `round()` |
| `text.dfy` | `Text` | the Python string operations used (`lower`, `title`, `strip`, `in`, `replace`, `split`, `join`) |
| `sorting.dfy` | `Sorting` | Python's stable `list.sort`, as an insertion sort with its correctness proof |
| `fares.dfy` | `Fares` | fare-row parsing, the sorted fare tables, metro and bus fare lookup |
| `stations.dfy` | `Stations` | nearest-facility search, line colours, station-to-line assignment |
| `bus_routes.dfy` | `BusRoutes` | the four-rule stop matcher and the effect of the route table on a stop |
| `transit_data.dfy` | `TransitData` | the class of module-level lists filled by `load_data` |
| `preferences.dfy` | `Preferences` | the mode-weight store and its training step |
| `journeys.dfy` | `Journeys` | surge pricing and the cab, metro and bus cards |
| `scoring.dfy` | `Scoring` | scoring and the stable best-first ranking |
| `places.dfy` | `Places` | the twelve well-known localities |
| `search.dfy` | `Search` | coordinate resolution and the whole search endpoint |
| `autocomplete.dfy` | `Autocomplete` | the autocomplete endpoint |
| `debug_metro_cost.dfy` | `DebugMetroCost` | the stand-alone metro fare checker |
| `smart_router.dfy` | `SmartRouter` | the locality graph and the Dijkstra search |

The state the source changes in place is modelled as classes:

- `TransitData.TransitData` holds the loaded lists.
- `Preferences.WeightStore` holds the weight map.
- `DebugMetroCost.FareChecker` holds the script's fare list.
- `SmartRouter.Router` holds the graph.

Their methods are proved against specification functions, and the properties
are lemmas about those functions. The same holds for the scans that loop:

- nearest facility and fare lookup;
- stop matching;
- line assignment;
- scoring;
- the autocomplete scans;
- graph building;
- the Dijkstra search.

The environment is passed in rather than modelled:

- **Distance.** The great-circle distance is a function parameter that never returns a negative value.
- **Road distance and geocoding.** The road-distance service and the geocoder are parameters that may give no answer.
- **Surge.** The hour of the day is a parameter.
- **Parsing.** `float()` is a partial parsing function.
- **Smart router.** The learnt travel-time model is a function parameter.

## Model

| member | source | states |
|---|---|---|
| Base.Trunc | routes.py:661-662 | Python `int()` on a real: truncation toward zero, the integer no farther from zero than the value and within one of it |
| Base.RoundTenthsInRange | routes.py:943 | rounding a score in [1, 10] to one decimal stays in [1, 10] and moves it by at most 0.05 |
| Fares.BandLeTotalPreorder | routes.py:177 | the sort key (the band's upper bound, infinity last) is a total preorder, so the stable sort is well defined |
| Fares.ParseRow | routes.py:160-174 | a parsed band's fare is the parsed fare cell, and an unbounded band only comes from an "Above" cell of the metro table |
| Fares.RangeRow | routes.py:166-168 | a cell `a-b` with a single hyphen and a readable fare and `b` gives the band ending at `b` |
| Fares.OtherShapeSkipped | routes.py:166-170 | a cell without exactly one hyphen (and not an open "Above" cell) is skipped |
| Fares.LoadFareRows | routes.py:156-177 | the table becomes the stable sort by bound of the old bands followed by the readable rows, so it is sorted and a permutation of them |
| Fares.ParsedHasRow | routes.py:172 | every readable row's band is in the loaded list |
| Fares.FirstMatch | routes.py:340-342 | the index of the first band whose bound is at least the distance, or none exactly when no band covers it |
| Fares.MetroFare | routes.py:338-344 | the metro fare scan returns the first covering band's fare, else 90.0 |
| Fares.BusFare | routes.py:346-355 | the bus fare scan returns the first covering band's fare, else the last band's fare, else 5 + 2d for an empty table |
| Fares.FirstMatchMonotone | routes.py:340-342 | a shorter distance is covered no later in the table than a longer one |
| Fares.MetroFareMonotone | routes.py:338-344 | with fares that rise along the table and stay at or below 90, a longer ride never costs less |
| Fares.BusFareMonotone | routes.py:346-355 | with fares that rise along the table, a longer bus ride never costs less |
| Fares.SortedFirstMatchTightest | routes.py:207 | in the sorted table, every band from the first covering one onwards also covers the distance |
| Fares.AboveRowCoversAll | routes.py:192-193 | once an "Above" row with a readable fare is loaded, every distance finds a band, so the 90.0 fallback cannot be reached |
| Stations.FirstMin | routes.py:327-334 | the position the strict-less-than scan keeps, none exactly for an empty list |
| Stations.FirstMinIsLeast | routes.py:330-334 | the kept position holds the minimum, and every earlier position is strictly larger |
| Stations.NearestOfIsFirstClosest | routes.py:322-336 | nothing is found exactly for an empty collection; otherwise the answer is a closest facility with its position and distance, all earlier facilities being strictly farther |
| Stations.FindNearest | routes.py:322-336 | the scan returns exactly the first closest facility (`NearestOf`) |
| Stations.LineColor | routes.py:88-90 | the colour is purple or green, and purple exactly when the lower-cased name says "purple" or "line-1" but neither "green" nor "line-2" |
| Stations.ClosestColorIsFirstClosest | routes.py:106-116 | "Unknown" when there are no path points, otherwise the colour of a path point at the least squared distance from the station, the first such point |
| Stations.ScanPath | routes.py:111-116 | scanning one line's path keeps the running minimum and colour equal to the first closest point seen so far |
| Stations.AssignLine | routes.py:106-116 | the nested scan over lines and points yields the colour of the first closest path point |
| BusRoutes.MatchStops | routes.py:253-284 | the matched stop indices are increasing and are exactly the stops that one of the four rules accepts |
| BusRoutes.AssignAll | routes.py:231-289 | each stop after the route table is that stop with the table applied to it alone |
| BusRoutes.AfterRowsKeeps | routes.py:286-289 | applying the route table keeps each stop's name and position and keeps its earlier routes as a prefix, in order |
| BusRoutes.AfterRowsNoDup | routes.py:288 | applying the route table never puts a route twice on a stop |
| BusRoutes.AfterRowsRoutes | routes.py:231-289 | a stop ends up served by exactly its earlier routes and every route whose row has a place name matching it |
| BusRoutes.UnmatchedStopUnchanged | routes.py:257-289 | a stop matched by no place name of any row with a route number is unchanged |
| BusRoutes.IdleRowChangesNothing | routes.py:232-245 | a row with a blank route number or no place names changes no stop |
| BusRoutes.NormalizedEqualMatches | routes.py:244-265 | a place name whose only white space is plain spaces and which has at least one character that is not white space matches the stop when it equals the stop name after lower-casing and removing spaces, periods and hyphens |
| BusRoutes.LandmarkMatches | routes.py:281-284 | a place name and a stop name that both mention "kempegowda" or "majestic" match |
| TransitData.PathOf | routes.py:85 | a GeoJSON path turned into (latitude, longitude) points, one per position |
| TransitData.LinesInSnoc | routes.py:80-96 | one more feature of the file appends its line exactly when it is a line feature |
| TransitData.ApplyRow | routes.py:231-289 | one route row applied to the stop list, stop by stop |
| TransitData.TransitData.LoadLines | routes.py:80-96 | the first pass appends one line per line feature, in file order, and changes nothing else |
| TransitData.TransitData.LoadStations | routes.py:99-123 | the second pass appends one station per point feature, each with the colour of the closest line point, and changes nothing else |
| TransitData.TransitData.LoadMetro | routes.py:74-123 | lines first, then stations assigned to the lines just loaded |
| TransitData.TransitData.LoadBusStops | routes.py:130-149 | one stop with no routes per row whose coordinates parse, in file order |
| TransitData.TransitData.LoadBusFares | routes.py:156-177 | the bus fare table becomes the stable sort by bound of its old bands and the readable rows, read without the "Above" rule; the other lists are unchanged |
| TransitData.TransitData.LoadMetroFares | routes.py:183-207 | the metro fare table becomes the stable sort by bound of its old bands and the readable rows, "Above" rows open-ended; the other lists are unchanged |
| TransitData.TransitData.AssignPoint | routes.py:243-289 | every stop one place name matches gets the route, if not already there |
| TransitData.TransitData.AssignRow | routes.py:231-291 | one route row applied to every stop; a blank route number skips the row |
| TransitData.TransitData.AssignRoutes | routes.py:213-291 | the whole route table applied to the stops |
| TransitData.TransitData.LoadAll | routes.py:69-295 | the five loading stages in order, each list as its stage leaves it |
| Preferences.ModeIndex | routes.py:59-65 | each mode's position among the five weight keys |
| Preferences.FirstKey | routes.py:419 | the first front-end name related to the answer by containment either way, or none exactly when no name is |
| Preferences.Cap | routes.py:425 | the capped weight lies in [-5, 5], is the weight itself inside that range, and the nearer end outside it |
| Preferences.Trained | routes.py:385-425 | each weight after training is the capped sum of its old value, its priority delta and the mode boost |
| Preferences.WeightStore.ApplyPriority | routes.py:386-405 | each weight moves by the delta the priority gives it (learning rate 2.0) |
| Preferences.WeightStore.CapAll | routes.py:424-425 | every weight is capped |
| Preferences.WeightStore.Train | routes.py:375-431 | the store's new weights are the trained weights for the priority and the resolved mode |
| Preferences.TrainedBounded | routes.py:424-425 | after training every weight lies in [-5.0, 5.0] |
| Preferences.NeutralFeedbackKeeps | routes.py:388-408 | an unknown priority with mode "any" leaves weights in range unchanged |
| Preferences.PriorityDirections | routes.py:388-400 | "speed" never lowers cab, auto or metro and never raises bus or walk; "cost" the reverse for cab, auto, bus and walk and never lowers metro |
| Preferences.MetroAnswerBoostsMetro | routes.py:411-421 | the answer "metro" boosts the metro weight |
| Preferences.BlankAnswerBoostsMetro | routes.py:419 | an empty mode answer is contained in every front-end name and so boosts the first one, metro |
| Preferences.TrainedNIter | routes.py:375-425 | each weight after n identical trainings is the n-fold capped step |
| Preferences.CapIterOnce | routes.py:425 | capping after every step equals capping once at the end, for a start inside the cap |
| Preferences.Saturates | routes.py:375-425 | after n identical trainings a weight is the cap of its start plus n deltas, so repeated feedback saturates at ±5 |
| Journeys.SurgeOffPeak | routes.py:24-30 | surge never lowers prices, and it is exactly 1.0 for the hours 6 and 7, 12 to 16, and 21 |
| Journeys.Priced | routes.py:677-688 | a surged, truncated quote is never below its minimum fare |
| Journeys.CabShowsCheapest | routes.py:658-715 | the card has the five quotes, each at its floor or above (40, 50, 50, 80, 80), and shows one of them that is no more than any other |
| Journeys.RideMinsRise | routes.py:661-662 | ride times never fall as the distance grows |
| Journeys.UberCarRises | routes.py:669-684 | the Uber car quote never falls as the distance grows, at any hour |
| Journeys.OlaCarRises | routes.py:670-685 | the Ola car quote never falls as the distance grows, at any hour |
| Journeys.NammaYatriRises | routes.py:672-686 | the Namma Yatri quote never falls as the distance grows, at any hour |
| Journeys.UberAutoRises | routes.py:673-687 | the Uber auto quote never falls as the distance grows, at any hour |
| Journeys.OlaAutoRises | routes.py:674-688 | the Ola auto quote never falls as the distance grows, at any hour |
| Journeys.CabCostRises | routes.py:661-691 | all five quotes and the cheapest shown never fall as the distance grows |
| Journeys.LegTitleIsTitle | routes.py:751 | the capitalised leg names are `str.title()` of "walk" and "auto" |
| Journeys.AutoFare | routes.py:731-733 | an auto leg costs at least ₹30 and at least the truncated linear fare |
| Journeys.ComfortWhenMidWalk | routes.py:790 | the comfort variant is wanted exactly when a leg shorter than 1.5 km (walked) is longer than 0.5 km |
| Journeys.MetroOptionsShape | routes.py:717-841 | metro cards appear exactly when both nearest stations exist with different names; the comfort card is added exactly when wanted; each has three segments with the metro in the middle; ids 3 then 6 |
| Journeys.LegChoice | routes.py:726-745 | a leg is walked exactly below 1.5 km; a walked leg costs nothing and an auto leg at least ₹30 |
| Journeys.ComfortCostsMore | routes.py:790-802 | the all-auto comfort card never costs less than variant A |
| Journeys.Distinct | routes.py:650 | `list(set(routes))` has exactly the routes of the stop |
| Journeys.DistinctNoRepeats | routes.py:650 | and no route twice |
| Journeys.Common | routes.py:647-649 | the shared routes are exactly those of both stops |
| Journeys.CommonNoRepeats | routes.py:649 | and no route twice |
| Journeys.Take3 | routes.py:846-851 | the first three routes, or all of them when fewer |
| Journeys.BusOptionsShape | routes.py:642-654 | the bus card appears exactly when the two nearest stops exist, differ and are both within 2 km or share a route; then alone, as card 4 |
| Journeys.BusRating | routes.py:845-866 | the bus card rates 8.0 exactly when a route serves both stops, and then names at most three of those shared routes |
| Scoring.ProfileBonusSumsMentioned | routes.py:899-916 | the profile bonus is the sum of the weights of the modes the lower-cased caption mentions |
| Scoring.PriorityBonus | routes.py:918-941 | an unknown priority adds nothing; every priority adds between -2 and +3 |
| Scoring.Rescored | routes.py:896-943 | only the score changes; the new score lies in [1, 10] and within 0.05 of the clamped raw score |
| Scoring.ScoreRoutes | routes.py:896-943 | every card is rescored in place, in order, and every score lies in [1, 10] |
| Scoring.ByScoreTotal | routes.py:945 | ordering by score, larger first, is a total preorder |
| Scoring.Ranked | routes.py:945 | the ranking is sorted by non-increasing score, is a permutation of the cards, and keeps cards of equal score in their original order |
| Sorting.SortByCorrect | routes.py:945 | the stable sort is sorted, a permutation, and keeps each class of equal keys in input order |
| Scoring.CabLabelMentions | routes.py:903-921 | "Cab Direct" earns exactly the cab weight and, for "speed", +3 |
| Scoring.TopScoreStaysFirst | routes.py:945 | a first card scoring the maximum 10 stays first after the stable sort |
| Scoring.SpeedPutsCabFirst | routes.py:896-945 | with the "speed" priority and a cab weight of at least -2, the cab card scores 10 and is ranked first |
| Places.Lookup | routes.py:570 | `dict.get`: none exactly when the key is absent, otherwise the position listed for it |
| Places.FallbacksListed | routes.py:39-40 | the two fallback localities are listed with the coordinates the last-resort defaults repeat |
| Search.RoadKm | routes.py:597-625 | the road service's answer when it gives one; otherwise exactly 1.3 times the great-circle distance, so never less than it |
| Search.SearchRoutes | routes.py:550-959 | the endpoint's answer is the resolved ends, the rounded road distance and the ranked, scored cards of `Plan` |
| Search.GivenCoordinatesWin | routes.py:566-567 | given coordinates are used as they are |
| Search.ListedPlaceSkipsGeocoder | routes.py:570-572 | a listed locality never consults the geocoder |
| Search.DefaultsUnused | routes.py:573-591 | resolution always succeeds through the listed fallbacks, so the last-resort defaults never apply |
| Search.ScoringKeepsIds | routes.py:896-943 | scoring keeps the number of cab cards |
| Search.RankingKeepsCards | routes.py:896-945 | scoring and ranking keep the number of cards and of cab cards, and every score lies in [1, 10] |
| Search.CardsShape | routes.py:658-893 | one to four cards, the cab card first and exactly once |
| Search.AnswerShape | routes.py:593-959 | the answer holds one to four cards, exactly one cab card, sorted by non-increasing score, each in [1, 10] |
| Search.SpeedAnswersCabFirst | routes.py:895-945 | for "speed" with a cab weight of at least -2, the first card is "Cab Direct" scoring 10 |
| Autocomplete.StopHitsPrefix | routes.py:511-521 | the bus-stop hits of a prefix of the stop list are a prefix of all the hits |
| Autocomplete.Parsable | routes.py:534-541 | the number of leading places whose coordinates parse |
| Autocomplete.Autocomplete | routes.py:486-547 | the endpoint's answer is `Suggestions`: localities, stations, at most five stops, addresses only when fewer than five local hits, cut to ten |
| Autocomplete.LocationScan | routes.py:490-497 | the localities whose name contains the query, title-cased, in table order |
| Autocomplete.StationScan | routes.py:500-507 | the stations whose lower-cased name contains the query, in order |
| Autocomplete.StopScan | routes.py:510-521 | the first five stops whose lower-cased name contains the query |
| Autocomplete.AddressScan | routes.py:534-541 | one address per place, its name cut at the first comma, up to the first place whose coordinates do not parse |
| Autocomplete.LocationHitsMatch | routes.py:490-497 | every locality suggestion's lower-cased name contains the query |
| Autocomplete.StationHitsMatch | routes.py:500-507 | every station suggestion's lower-cased name contains the query |
| Autocomplete.StopHitsMatch | routes.py:511-518 | every stop suggestion's lower-cased name contains the query |
| Autocomplete.LocationHitsComplete | routes.py:490-497 | conversely, every locality whose name contains the query is suggested, title-cased, with its coordinates |
| Autocomplete.StationHitsComplete | routes.py:500-507 | conversely, every station whose lower-cased name contains the query is suggested with its position |
| Autocomplete.StopHitsComplete | routes.py:511-518 | conversely, every stop whose lower-cased name contains the query is among the stop hits |
| Autocomplete.StopKeptBeforeBreak | routes.py:510-521 | a matching stop with fewer than five matching stops before it is kept by the scan that breaks at the fifth |
| Autocomplete.SuggestionsShape | routes.py:486-547 | at most ten suggestions, every local one a hit, kinds in the order localities, stations, stops, addresses, and stop suggestions within five places of each other |
| Autocomplete.LocalFirst | routes.py:523-547 | with five or more local hits no address is added, and the answer starts with the local hits |
| Autocomplete.MatchesSuggested | routes.py:486-547 | while the local hits number at most ten, every matching locality and station is in the answer, and so is every matching stop before the fifth |
| DebugMetroCost.FareChecker.LoadFares | debug_metro_cost.py:7-35 | the script's table becomes the stable sort by bound of its old bands and the readable rows, "Above" rows open-ended |
| DebugMetroCost.FareChecker.GetMetroFare | debug_metro_cost.py:43-49 | the first band covering the distance gives the fare, and 90.0 when none does (an empty table included) |
| SmartRouter.BuildGraph | smart_router.py:39-56 | the nested scan over location pairs leaves two locations adjacent exactly when the earlier-to-later distance is below 8 km; every node is a location with at least one neighbour |
| SmartRouter.BuiltGraphEdges | smart_router.py:47-54 | in the built graph adjacency is symmetric, holds exactly for distinct locations closer than 8 km, and no location is its own neighbour |
| SmartRouter.EdgeWeight | smart_router.py:58-76 | every edge time is at least one minute: it equals the prediction (traffic 5.0 and density 10000 when unknown) when that is at least one, and is exactly 1.0 when the prediction is below one |
| SmartRouter.PopLeast | smart_router.py:94 | `heappop` yields an entry of the queue that is least in Python's tuple order (time, node, path), and removes one copy of it |
| SmartRouter.Relax | smart_router.py:106-117 | the neighbour scan leaves the times unchanged except at unsettled neighbours of the settled node, where each becomes the smaller of its old time and the time through the node (that time when there was none); the queue is the old queue followed by exactly one entry (time through the node, neighbour, path to the node) per improved neighbour; entries stay valid and every unsettled node stays witnessed |
| SmartRouter.RelaxAllFacts | smart_router.py:106-117 | any neighbour list, scanned entry by entry, yields those times and that queue: changed times only at unsettled neighbours, each the smaller of the old time and the time through the node, and one new entry per improving neighbour, distinct nodes, appended after the old queue |
| SmartRouter.RelaxedKeeps | smart_router.py:106-117 | a scan with that outcome keeps every queued entry a real path of its recorded time, keeps the old entries, only lowers times, and leaves each unsettled node witnessed by an entry no later than its recorded time |
| SmartRouter.LeastIsOptimal | smart_router.py:93-104 | the least queued entry for an unsettled node costs no more than any path to that node |
| SmartRouter.EmptyQueueUnreachable | smart_router.py:93-123 | when the queue runs dry before the end is popped, no path reaches the end |
| SmartRouter.ShortestRoute | smart_router.py:85-117 | the route found walks from start to end along edges, its time is the sum of its edge times, and no path is quicker; no route means no path exists |
| SmartRouter.SameEndsTrivial | smart_router.py:85-100 | a quickest route from a node to itself is that node alone, taking no time |
| SmartRouter.Router.FindOptimalRoute | smart_router.py:78-123 | "Invalid Locations" exactly when an end is not a node; otherwise a quickest route with its time rounded to two places, an empty route of 0 when unreachable, and [start] with 0 when the ends coincide |

## Left out

- **Distances.** Haversine arithmetic (`routes.py:311-320`, `smart_router.py:31-37`) is left out because it is floating-point trigonometry. Distances are a non-negative function parameter.
- **Network services.** OSRM, BRouter and Nominatim are network calls. The road distance and the geocoder are parameters that may give no answer. The autocomplete address search is a given list of places, already fetched, in which any place may have coordinates that do not parse.
- **Proxy endpoints.** `get_osrm_route` and `fetch_brouter_route` are HTTP proxies. They are not part of the model.
- **Web layer.** The FastAPI routing, `main.py` and the web front end are out of scope. Query validation (`min_length=2` on the autocomplete query) becomes a precondition.
- **Files.** Reading the GeoJSON and CSV files is left out. The model starts from the decoded features and rows, with `float()` as a partial function. A missing column, which raises `KeyError` and aborts a whole stage, is not modelled. A range cell such as `0-inf`, which Python reads as infinity, is a finite bound or unreadable in the model, since the parse yields reals only.
- **The clock.** `datetime.now()` is replaced by an hour parameter, and the smart router's per-edge hour is folded into the prediction function.
- **Learnt models.** The XGBoost model, its loading, and the training scripts `traffic_train_model.py` and `train_fare_model.py` are not part of this model. The prediction is a function of the edge, the traffic level and the population density. It stands for the model applied to the edge's stored distance, road type 1 and the current hour.
- **Floats.** Float representation is not modelled: reals are exact. `round()` is exact round-half-even on reals.
- **Case mapping.** Lower- and title-casing cover ASCII letters only.
- **Set order.** The order of `list(set(...))` (`routes.py:647-650`) is arbitrary in Python. The model takes the start stop's order. The proved facts about the bus card (which routes are shared, the rating) do not depend on that order. The three route numbers displayed do.
- **Unread values.** `stop_lookup` (`routes.py:223-228`) and `metro_viable` (`routes.py:637-640`) are computed but never read. `mode_preference` and `max_walk` are accepted but never used.
- **Output and harnesses.** Log `print`s, the `__main__` demonstrations, `debug_bus_connectivity.py` and the two test scripts produce output only.
- **Concurrency.** Concurrent requests racing on the global weight map are out of scope. The store is one sequential object.
- **Listing endpoints.** The read-only listing endpoints (`/metro-stations`, `/metro-lines`, `/bus-stops`) return a loaded list unchanged.
- **Heap layout.** In `SmartRouter.PopLeast`, the binary-heap array is not modelled. Only which entry `heappop` yields is modelled, a queue with the same entries.
- Fares.LoadFareRows: a CSV row shorter than its header has `None` cells, and `float(None)` raises `TypeError`; this aborts the stage, leaving the table partly filled and unsorted. The model reads every row as all cells present, because rows are decoded records.
- TransitData.TransitData.LoadBusStops: a row with a missing coordinate cell raises `TypeError` in `float(None)`, which ends the stage with the stops read so far. This abort is not modelled; cells are always present.
- TransitData.TransitData.LoadBusFares: a fare row with a missing cell aborts the stage before the sort, as in `Fares.LoadFareRows`. This abort is not modelled.
- TransitData.TransitData.LoadMetroFares: a fare row with a missing cell aborts the stage before the sort, as in `Fares.LoadFareRows`. This abort is not modelled.
- TransitData.TransitData.AssignRoutes: a route row too short to reach its `Bus Route` cell raises `AttributeError` on `None.strip()`, and the remaining route rows are never applied. This abort is not modelled; cells are always present.
- DebugMetroCost.FareChecker.LoadFares: a row with a missing cell raises `TypeError`, and the script's table is left partly filled and unsorted. This abort is not modelled.
- **Weights.** SmartRouter.EdgeWeight: an edge time is a function of the two nodes, so a prediction that changes between calls (the clock's hour moving on during one search) is not captured.
