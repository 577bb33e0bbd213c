/** The journey options the planner offers for one trip: the direct cab card
    (five ride-hailing quotes under the time-of-day surge), the metro options
    (a walk or an auto to and from the nearest stations, plus an all-auto
    "comfort" variant), and the bus option between the nearest stops. */
module Journeys {
  import opened Base
  import opened Text
  import opened Fares
  import opened Stations

  /** What a segment shows next to its instruction: a distance
      (`"{round(d, 1)} km"`), a price (`"₹{cost}"`) or plain text. */
  datatype Identifier = Km(km: real) | Rupees(amount: int) | Label(text: string)

  datatype Segment = Segment(
    mode: string, from: Coord, to: Coord, instruction: string, identifier: Identifier,
    lineColor: Option<string>, fromStop: Option<string>, toStop: Option<string>)

  function Plain(mode: string, from: Coord, to: Coord, instruction: string, identifier: Identifier): Segment {
    Segment(mode, from, to, instruction, identifier, None, None, None)
  }

  /** One ride-hailing quote of the cab card. */
  datatype SubOption = SubOption(name: string, cost: int, duration: int)

  /** The price split of a metro option. */
  datatype SubCosts = SubCosts(leg1Auto: int, leg3Auto: int, metro: real)

  datatype Route = Route(
    id: nat, mode: string, duration: int, cost: int, safety: string, aiScore: real, details: string,
    subOptions: seq<SubOption>, subCosts: Option<SubCosts>, segments: seq<Segment>)

  // ---- the cab card ----

  /** The price multiplier for the hour of the day (0-23). */
  function Surge(hour: int): real {
    if 8 <= hour < 12 then 1.4
    else if 17 <= hour < 21 then 1.5
    else if hour >= 22 || hour < 6 then 1.2
    else 1.0
  }

  /** Prices are never lowered, and they are left as they are exactly in
      the off-peak hours 6-8, 12-17 and 21-22. */
  lemma SurgeOffPeak(hour: int)
    requires 0 <= hour < 24
    ensures Surge(hour) >= 1.0
    ensures Surge(hour) == 1.0 <==> 6 <= hour < 8 || 12 <= hour < 17 || hour == 21
  {
  }

  /** The five quotes: `rideMins` is the car ride time, `autoMins` the auto
      ride time; each price is surged, truncated and raised to its floor. */
  datatype CabQuote = CabQuote(
    rideMins: int, autoMins: int, uberCar: int, olaCar: int, nammaYatri: int, uberAuto: int, olaAuto: int)

  /** A base price surged, truncated to whole rupees and raised to the
      minimum fare. */
  function Priced(base: real, surge: real, floor: int): (c: int)
    ensures c >= floor
  {
    MaxInt(floor, Trunc(base * surge))
  }

  /** The car and auto ride times in minutes. */
  function RideMins(d: real): int { Trunc(d * 2.5) + 5 }

  function AutoRideMins(d: real): int { Trunc(d * 3.0) + 5 }

  function UberCar(d: real, surge: real): int { Priced(50.0 + 19.0 * d + 2.0 * RideMins(d) as real, surge, 80) }

  function OlaCar(d: real, surge: real): int { Priced(60.0 + 21.0 * d + 2.2 * RideMins(d) as real, surge, 80) }

  function NammaYatri(d: real, surge: real): int { Priced(30.0 + 15.0 * d + 1.5 * AutoRideMins(d) as real, surge, 40) }

  function UberAuto(d: real, surge: real): int { Priced(25.0 + 10.0 * d + 0.5 * AutoRideMins(d) as real, surge, 50) }

  function OlaAuto(d: real, surge: real): int { Priced(25.0 + 11.0 * d + 0.5 * AutoRideMins(d) as real, surge, 50) }

  function Quote(d: real, surge: real): CabQuote {
    CabQuote(RideMins(d), AutoRideMins(d),
      UberCar(d, surge), OlaCar(d, surge), NammaYatri(d, surge), UberAuto(d, surge), OlaAuto(d, surge))
  }

  function Cheapest(q: CabQuote): int {
    MinInt(MinInt(MinInt(MinInt(q.uberCar, q.olaCar), q.nammaYatri), q.uberAuto), q.olaAuto)
  }

  /** The cab card for a road distance `d` between `start` and `dest`. */
  function CabRoute(d: real, surge: real, start: Coord, dest: Coord): Route {
    var q := Quote(d, surge);
    Route(1, "Cab Direct", q.rideMins, Cheapest(q), "High", 9.0, "Uber, Ola, Namma Yatri",
      [SubOption("Namma Yatri (Auto)", q.nammaYatri, q.autoMins),
       SubOption("Uber (Auto)", q.uberAuto, q.autoMins),
       SubOption("Ola (Auto)", q.olaAuto, q.autoMins),
       SubOption("Uber (Car)", q.uberCar, q.rideMins),
       SubOption("Ola (Car)", q.olaCar, q.rideMins)],
      None,
      [Plain("cab", start, dest, "Cab Direct to destination", Label("Cab/Auto"))])
  }

  /** The card's price is its cheapest quote ("from ₹…"): one of the five,
      and no more than any of them; every quote respects its floor, so the
      card never shows less than ₹40. */
  lemma CabShowsCheapest(d: real, surge: real, start: Coord, dest: Coord)
    ensures var r := CabRoute(d, surge, start, dest);
      && |r.subOptions| == 5
      && (forall i :: 0 <= i < 5 ==> r.cost <= r.subOptions[i].cost)
      && (exists i :: 0 <= i < 5 && r.cost == r.subOptions[i].cost)
      && r.subOptions[0].cost >= 40 && r.subOptions[1].cost >= 50 && r.subOptions[2].cost >= 50
      && r.subOptions[3].cost >= 80 && r.subOptions[4].cost >= 80
      && r.cost >= 40
  {
    var r := CabRoute(d, surge, start, dest);
    var q := Quote(d, surge);
    var c := Cheapest(q);
    assert c == q.nammaYatri || c == q.uberAuto || c == q.olaAuto || c == q.uberCar || c == q.olaCar;
    if c == q.nammaYatri { assert r.cost == r.subOptions[0].cost; }
    else if c == q.uberAuto { assert r.cost == r.subOptions[1].cost; }
    else if c == q.olaAuto { assert r.cost == r.subOptions[2].cost; }
    else if c == q.uberCar { assert r.cost == r.subOptions[3].cost; }
    else { assert r.cost == r.subOptions[4].cost; }
  }

  lemma TruncMonotone(x: real, y: real)
    requires x <= y
    ensures Trunc(x) <= Trunc(y)
  {
  }

  /** A larger base price is never priced lower at the same hour. */
  lemma PricedMonotone(b1: real, b2: real, hour: int, floor: int)
    requires b1 <= b2
    ensures Priced(b1, Surge(hour), floor) <= Priced(b2, Surge(hour), floor)
  {
    var s := Surge(hour);
    TruncMonotone(b1 * s, b2 * s);
  }

  lemma RideMinsRise(d1: real, d2: real)
    requires d1 <= d2
    ensures RideMins(d1) <= RideMins(d2) && AutoRideMins(d1) <= AutoRideMins(d2)
  {
    TruncMonotone(d1 * 2.5, d2 * 2.5);
    TruncMonotone(d1 * 3.0, d2 * 3.0);
  }

  lemma UberCarRises(d1: real, d2: real, hour: int)
    requires d1 <= d2
    ensures UberCar(d1, Surge(hour)) <= UberCar(d2, Surge(hour))
  {
    RideMinsRise(d1, d2);
    PricedMonotone(50.0 + 19.0 * d1 + 2.0 * RideMins(d1) as real, 50.0 + 19.0 * d2 + 2.0 * RideMins(d2) as real, hour, 80);
  }

  lemma OlaCarRises(d1: real, d2: real, hour: int)
    requires d1 <= d2
    ensures OlaCar(d1, Surge(hour)) <= OlaCar(d2, Surge(hour))
  {
    RideMinsRise(d1, d2);
    PricedMonotone(60.0 + 21.0 * d1 + 2.2 * RideMins(d1) as real, 60.0 + 21.0 * d2 + 2.2 * RideMins(d2) as real, hour, 80);
  }

  lemma NammaYatriRises(d1: real, d2: real, hour: int)
    requires d1 <= d2
    ensures NammaYatri(d1, Surge(hour)) <= NammaYatri(d2, Surge(hour))
  {
    RideMinsRise(d1, d2);
    PricedMonotone(30.0 + 15.0 * d1 + 1.5 * AutoRideMins(d1) as real, 30.0 + 15.0 * d2 + 1.5 * AutoRideMins(d2) as real, hour, 40);
  }

  lemma UberAutoRises(d1: real, d2: real, hour: int)
    requires d1 <= d2
    ensures UberAuto(d1, Surge(hour)) <= UberAuto(d2, Surge(hour))
  {
    RideMinsRise(d1, d2);
    PricedMonotone(25.0 + 10.0 * d1 + 0.5 * AutoRideMins(d1) as real, 25.0 + 10.0 * d2 + 0.5 * AutoRideMins(d2) as real, hour, 50);
  }

  lemma OlaAutoRises(d1: real, d2: real, hour: int)
    requires d1 <= d2
    ensures OlaAuto(d1, Surge(hour)) <= OlaAuto(d2, Surge(hour))
  {
    RideMinsRise(d1, d2);
    PricedMonotone(25.0 + 11.0 * d1 + 0.5 * AutoRideMins(d1) as real, 25.0 + 11.0 * d2 + 0.5 * AutoRideMins(d2) as real, hour, 50);
  }

  /** A quote whose five prices are each at least another's is at least as
      dear at its cheapest. */
  lemma CheapestMonotone(q1: CabQuote, q2: CabQuote)
    requires q1.uberCar <= q2.uberCar && q1.olaCar <= q2.olaCar && q1.nammaYatri <= q2.nammaYatri
    requires q1.uberAuto <= q2.uberAuto && q1.olaAuto <= q2.olaAuto
    ensures Cheapest(q1) <= Cheapest(q2)
  {
  }

  /** At the same hour, a longer trip is never quoted less, by any of the
      five quotes, and so the card's price never falls either. */
  lemma CabCostRises(d1: real, d2: real, hour: int)
    requires d1 <= d2
    ensures var q1, q2 := Quote(d1, Surge(hour)), Quote(d2, Surge(hour));
      && q1.uberCar <= q2.uberCar && q1.olaCar <= q2.olaCar && q1.nammaYatri <= q2.nammaYatri
      && q1.uberAuto <= q2.uberAuto && q1.olaAuto <= q2.olaAuto
      && Cheapest(q1) <= Cheapest(q2)
  {
    UberCarRises(d1, d2, hour);
    OlaCarRises(d1, d2, hour);
    NammaYatriRises(d1, d2, hour);
    UberAutoRises(d1, d2, hour);
    OlaAutoRises(d1, d2, hour);
    CheapestMonotone(Quote(d1, Surge(hour)), Quote(d2, Surge(hour)));
  }

  // ---- the metro options ----

  /** How a station is reached or left. */
  datatype Leg = WalkLeg | AutoLeg

  function LegName(l: Leg): string { if l == WalkLeg then "walk" else "auto" }

  /** `leg.title()` */
  function LegTitle(l: Leg): string { if l == WalkLeg then "Walk" else "Auto" }

  /** The capitalised labels are what `str.title()` makes of the mode names. */
  lemma LegTitleIsTitle(l: Leg)
    ensures LegTitle(l) == Title(LegName(l))
  {
    var n := LegName(l);
    assert TitleFrom(n[3..], true) == [LowerChar(n[3])] by {
      assert n[3..][1..] == [];
    }
    assert TitleFrom(n[2..], true) == [LowerChar(n[2])] + TitleFrom(n[3..], true) by {
      assert n[2..][1..] == n[3..];
    }
    assert TitleFrom(n[1..], true) == [LowerChar(n[1])] + TitleFrom(n[2..], true) by {
      assert n[1..][1..] == n[2..];
    }
    assert Title(n) == [UpperChar(n[0])] + TitleFrom(n[1..], true);
  }

  /** A station closer than 1.5 km is walked to. */
  function LegFor(d: real): Leg { if d < 1.5 then WalkLeg else AutoLeg }

  function AutoMins(d: real): int { Trunc(d * 3.0 + 5.0) }

  /** An auto ride of `d` km, never less than ₹30. */
  function AutoFare(d: real): (c: int)
    ensures c >= 30
    ensures c >= Trunc(25.0 + 10.0 * d + 0.5 * AutoMins(d) as real)
  {
    MaxInt(30, Trunc(25.0 + 10.0 * d + 0.5 * AutoMins(d) as real))
  }

  function LegMins(l: Leg, d: real): int { if l == AutoLeg then AutoMins(d) else Trunc(d * 12.0) }

  /** A walk is free. */
  function LegCost(l: Leg, d: real): int { if l == AutoLeg then AutoFare(d) else 0 }

  /** The comfort variant is offered when a leg would be walked and is
      longer than 0.5 km. */
  predicate ComfortWanted(sd: real, ed: real) {
    (LegFor(sd) == WalkLeg && sd > 0.5) || (LegFor(ed) == WalkLeg && ed > 0.5)
  }

  /** That is: some station is between 0.5 and 1.5 km away. */
  lemma ComfortWhenMidWalk(sd: real, ed: real)
    ensures ComfortWanted(sd, ed) <==> (0.5 < sd < 1.5) || (0.5 < ed < 1.5)
  {
  }

  /** The metro ride between two stations whose straight-line distance is
      `hop`: 1.2 times longer on the track. */
  function TrackKm(hop: real): real { hop * 1.2 }

  function MetroMins(hop: real): int { Trunc(TrackKm(hop) * 2.2) + 6 }

  function MetroLeg(s: Station, e: Station): Segment {
    Segment("metro", s.pos, e.pos, "Metro to " + e.name, Label("Purple/Green Line"), Some(s.line), None, None)
  }

  /** Variant A: each leg walked or taken by auto, by its length. `sd` and
      `ed` are the distances from the start to `s` and from `e` to the
      destination; `fare` is the metro fare for the track distance. */
  function MetroRoute(s: Station, sd: real, e: Station, ed: real, hop: real, fare: real, start: Coord, dest: Coord): Route {
    var l1, l3 := LegFor(sd), LegFor(ed);
    var c1, c3 := LegCost(l1, sd), LegCost(l3, ed);
    Route(3, "Metro + " + LegTitle(l1) + "/" + LegTitle(l3),
      LegMins(l1, sd) + MetroMins(hop) + LegMins(l3, ed),
      Trunc(c1 as real + fare + c3 as real),
      "High", 8.8, "Via " + s.name + " & " + e.name,
      [], Some(SubCosts(c1, c3, fare)),
      [Plain(LegName(l1), start, s.pos, LegTitle(l1) + " to " + s.name, Km(RoundHalfEven(sd, 10))),
       MetroLeg(s, e),
       Plain(LegName(l3), e.pos, dest, LegTitle(l3) + " to Destination", Km(RoundHalfEven(ed, 10)))])
  }

  /** Variant B: both legs by auto. */
  function ComfortRoute(s: Station, sd: real, e: Station, ed: real, hop: real, fare: real, start: Coord, dest: Coord): Route {
    var c1, c3 := AutoFare(sd), AutoFare(ed);
    Route(6, "Metro + Auto (Comfort)",
      AutoMins(sd) + MetroMins(hop) + AutoMins(ed),
      Trunc(c1 as real + fare + c3 as real),
      "High", 8.6, "Avoid walking",
      [], Some(SubCosts(c1, c3, fare)),
      [Plain("auto", start, s.pos, "Auto to " + s.name, Rupees(c1)),
       MetroLeg(s, e),
       Plain("auto", e.pos, dest, "Auto to Destination", Rupees(c3))])
  }

  /** The metro options: none unless both nearest stations exist and have
      different names; then variant A, followed by variant B when wanted. */
  function MetroOptions(sm: Nearest<Station>, em: Nearest<Station>, metroFares: seq<Band>,
                       dist: (Coord, Coord) -> real, start: Coord, dest: Coord): seq<Route> {
    if sm.Found? && em.Found? && sm.item.name != em.item.name then
      var hop := dist(sm.item.pos, em.item.pos);
      var fare := MetroFareOf(metroFares, TrackKm(hop));
      var a := MetroRoute(sm.item, sm.dist, em.item, em.dist, hop, fare, start, dest);
      if ComfortWanted(sm.dist, em.dist)
      then [a, ComfortRoute(sm.item, sm.dist, em.item, em.dist, hop, fare, start, dest)]
      else [a]
    else []
  }

  /** Which metro options appear: none, variant A alone, or A then B. */
  lemma MetroOptionsShape(sm: Nearest<Station>, em: Nearest<Station>, metroFares: seq<Band>,
                          dist: (Coord, Coord) -> real, start: Coord, dest: Coord)
    ensures var rs := MetroOptions(sm, em, metroFares, dist, start, dest);
      && (rs != [] <==> sm.Found? && em.Found? && sm.item.name != em.item.name)
      && (|rs| == 2 <==> rs != [] && ((0.5 < sm.dist < 1.5) || (0.5 < em.dist < 1.5)))
      && |rs| <= 2
      && (forall i :: 0 <= i < |rs| ==> |rs[i].segments| == 3 && rs[i].segments[1].mode == "metro")
      && (rs != [] ==> rs[0].id == 3) && (|rs| == 2 ==> rs[1].id == 6)
  {
    if sm.Found? && em.Found? {
      ComfortWhenMidWalk(sm.dist, em.dist);
    }
  }

  /** A leg is walked exactly when its station is closer than 1.5 km; a
      walked leg is free and an auto leg costs at least ₹30. */
  lemma LegChoice(s: Station, sd: real, e: Station, ed: real, hop: real, fare: real, start: Coord, dest: Coord)
    ensures var r := MetroRoute(s, sd, e, ed, hop, fare, start, dest);
      && (r.segments[0].mode == "walk" <==> sd < 1.5)
      && (r.segments[2].mode == "walk" <==> ed < 1.5)
      && (sd < 1.5 ==> r.subCosts.value.leg1Auto == 0)
      && (sd >= 1.5 ==> r.subCosts.value.leg1Auto >= 30)
      && (ed < 1.5 ==> r.subCosts.value.leg3Auto == 0)
      && (ed >= 1.5 ==> r.subCosts.value.leg3Auto >= 30)
  {
  }

  /** Taking an auto for both legs never costs less than variant A. */
  lemma ComfortCostsMore(s: Station, sd: real, e: Station, ed: real, hop: real, fare: real, start: Coord, dest: Coord)
    ensures ComfortRoute(s, sd, e, ed, hop, fare, start, dest).cost >= MetroRoute(s, sd, e, ed, hop, fare, start, dest).cost
  {
    var l1, l3 := LegFor(sd), LegFor(ed);
    TruncMonotone(LegCost(l1, sd) as real + fare + LegCost(l3, ed) as real,
                  AutoFare(sd) as real + fare + AutoFare(ed) as real);
  }

  // ---- the bus option ----

  /** `list(set(s))`: the distinct routes, in order of first appearance. */
  function Distinct(s: seq<string>): (r: seq<string>)
    ensures forall x :: x in r <==> x in s
  {
    if s == [] then []
    else
      var init := Distinct(s[..|s| - 1]);
      if s[|s| - 1] in init then init else init + [s[|s| - 1]]
  }

  predicate NoRepeats(s: seq<string>) {
    forall i, j :: 0 <= i < j < |s| ==> s[i] != s[j]
  }

  lemma {:induction false} DistinctNoRepeats(s: seq<string>)
    ensures NoRepeats(Distinct(s))
  {
    if s != [] {
      DistinctNoRepeats(s[..|s| - 1]);
    }
  }

  /** `list(set(a) & set(b))`: the routes of `a` that also serve `b`. */
  function Common(a: seq<string>, b: seq<string>): (r: seq<string>)
    ensures forall x :: x in r <==> x in a && x in b
  {
    if a == [] then []
    else
      var init := Common(a[..|a| - 1], b);
      var x := a[|a| - 1];
      if x in b && x !in init then init + [x] else init
  }

  lemma {:induction false} CommonNoRepeats(a: seq<string>, b: seq<string>)
    ensures NoRepeats(Common(a, b))
  {
    if a != [] {
      CommonNoRepeats(a[..|a| - 1], b);
    }
  }

  /** At most the first three. */
  function Take3(s: seq<string>): (r: seq<string>)
    ensures |r| == MinInt(3, |s|) && r == s[..|r|]
  {
    s[..MinInt(3, |s|)]
  }

  /** The bus option exists when both nearest stops exist and are different
      stops, and either both are within 2 km or a route serves both. */
  predicate BusViable(sb: Nearest<BusStop>, eb: Nearest<BusStop>) {
    && sb.Found? && eb.Found? && sb.item != eb.item
    && ((sb.dist < 2.0 && eb.dist < 2.0) || Common(sb.item.routes, eb.item.routes) != [])
  }

  /** The route label and the two texts of the bus option: the shared
      routes, else the start stop's routes "...", else any bus. */
  datatype BusText = BusText(display: string, instruction: string, details: string)

  function BusTexts(common: seq<string>, startRoutes: seq<string>): BusText {
    if common != [] then
      var display := Join(Take3(common), ", ");
      BusText(display, "Take Bus " + display, "Direct Bus " + display)
    else if startRoutes != [] then
      var display := Join(Take3(startRoutes), ", ");
      BusText(display, "Take Bus " + display + "...", "Bus " + display + "... (Check at stop)")
    else BusText("Any Bus", "Take Bus towards destination", "Standard Bus Service")
  }

  function BusRoute(sb: Nearest<BusStop>, eb: Nearest<BusStop>, busFares: seq<Band>, d: real,
                    start: Coord, dest: Coord, destination: string): Route
    requires sb.Found? && eb.Found?
  {
    var common := Common(sb.item.routes, eb.item.routes);
    var t := BusTexts(common, Distinct(sb.item.routes));
    Route(4, "Bus + Walk", Trunc(d * 3.5) + 15, Trunc(BusFareOf(busFares, d)), "Medium",
      if common != [] then 8.0 else 7.0, t.details, [], None,
      [Plain("walk", start, sb.coords, "Walk to " + sb.item.name, Km(RoundHalfEven(sb.dist, 10))),
       Segment("bus", sb.coords, eb.coords, t.instruction, Label(t.display), None, Some(sb.item.name), Some(eb.item.name)),
       Plain("walk", eb.coords, dest, "Walk to " + destination, Km(RoundHalfEven(eb.dist, 10)))])
  }

  function BusOptions(sb: Nearest<BusStop>, eb: Nearest<BusStop>, busFares: seq<Band>, d: real,
                     start: Coord, dest: Coord, destination: string): seq<Route> {
    if BusViable(sb, eb) then [BusRoute(sb, eb, busFares, d, start, dest, destination)] else []
  }

  /** The bus option appears exactly when the stops make it viable, and
      then alone, as journey 4. */
  lemma BusOptionsShape(sb: Nearest<BusStop>, eb: Nearest<BusStop>, busFares: seq<Band>, d: real,
                        start: Coord, dest: Coord, destination: string)
    ensures var rs := BusOptions(sb, eb, busFares, d, start, dest, destination);
      && |rs| <= 1 && (rs != [] <==> BusViable(sb, eb))
      && forall i :: 0 <= i < |rs| ==> rs[i].id == 4
  {
  }

  /** The bus option is rated 8.0 when a route serves both stops and 7.0
      otherwise; its label then names up to three shared routes, every one
      of which serves both stops. */
  lemma BusRating(sb: Nearest<BusStop>, eb: Nearest<BusStop>, busFares: seq<Band>, d: real,
                  start: Coord, dest: Coord, destination: string)
    requires sb.Found? && eb.Found?
    ensures var r := BusRoute(sb, eb, busFares, d, start, dest, destination);
      var common := Common(sb.item.routes, eb.item.routes);
      && (r.aiScore == 8.0 <==> exists x :: x in sb.item.routes && x in eb.item.routes)
      && (common != [] ==>
            r.segments[1].identifier == Label(Join(Take3(common), ", "))
            && forall x :: x in Take3(common) ==> x in sb.item.routes && x in eb.item.routes)
  {
    var common := Common(sb.item.routes, eb.item.routes);
    if common != [] {
      assert common[0] in common;
    }
    if exists x :: x in sb.item.routes && x in eb.item.routes {
      var x :| x in sb.item.routes && x in eb.item.routes;
      assert x in common;
    }
  }
}
