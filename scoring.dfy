/** The last stage of a search: every offered journey is rescored from the
    learnt mode weights and the rider's stated priority, clamped to 1-10 and
    rounded to one decimal, and the list is stably sorted best first. */
module Scoring {
  import opened Base
  import opened Text
  import Sorting
  import opened Preferences
  import opened Journeys

  /** The keywords that tie a journey's (lowercased) caption to a mode's
      learnt weight. */
  predicate Mentions(caption: string, m: Mode) {
    var t := Lower(caption);
    match m
    case Cab => Contains(t, "cab") || Contains(t, "uber") || Contains(t, "ola")
    case Auto => Contains(t, "auto") || Contains(t, "namma yatri")
    case Metro => Contains(t, "metro")
    case Bus => Contains(t, "bus")
    case Walk => Contains(t, "walk")
  }

  ghost predicate Complete(w: map<Mode, real>) { forall m: Mode :: m in w }

  /** The weights of the modes in `ms` that `caption` mentions, summed. */
  function MentionedWeight(caption: string, w: map<Mode, real>, ms: seq<Mode>): real
    requires Complete(w)
  {
    if ms == [] then 0.0
    else (if Mentions(caption, ms[0]) then w[ms[0]] else 0.0) + MentionedWeight(caption, w, ms[1..])
  }

  /** Step 1 of the rescoring: every mentioned mode adds its learnt weight
      once, and no other mode's weight plays a part. */
  function ProfileBonus(caption: string, w: map<Mode, real>): real
    requires Complete(w)
  {
    (if Mentions(caption, Cab) then w[Cab] else 0.0)
    + (if Mentions(caption, Auto) then w[Auto] else 0.0)
    + (if Mentions(caption, Metro) then w[Metro] else 0.0)
    + (if Mentions(caption, Bus) then w[Bus] else 0.0)
    + (if Mentions(caption, Walk) then w[Walk] else 0.0)
  }

  /** The five keyword tests add up the weight of exactly the modes the
      caption mentions, each once. */
  lemma ProfileBonusSumsMentioned(caption: string, w: map<Mode, real>)
    requires Complete(w)
    ensures ProfileBonus(caption, w) == MentionedWeight(caption, w, ModeOrder)
  {
    var b := (m: Mode) => if Mentions(caption, m) then w[m] else 0.0;
    assert MentionedWeight(caption, w, [Walk]) == b(Walk) by {
      assert [Walk][1..] == [];
    }
    assert MentionedWeight(caption, w, [Bus, Walk]) == b(Bus) + b(Walk) by {
      assert [Bus, Walk][1..] == [Walk];
    }
    assert MentionedWeight(caption, w, [Metro, Bus, Walk]) == b(Metro) + b(Bus) + b(Walk) by {
      assert [Metro, Bus, Walk][1..] == [Bus, Walk];
    }
    assert MentionedWeight(caption, w, [Auto, Metro, Bus, Walk]) == b(Auto) + b(Metro) + b(Bus) + b(Walk) by {
      assert [Auto, Metro, Bus, Walk][1..] == [Metro, Bus, Walk];
    }
    assert ModeOrder[1..] == [Auto, Metro, Bus, Walk];
  }

  /** Step 2: the fixed adjustment for the stated priority, matched on the
      caption as written (capitalised keywords). An unknown priority adds
      nothing. */
  function PriorityBonus(caption: string, priority: string): (b: real)
    ensures priority != "speed" && priority != "cost" && priority != "balanced" ==> b == 0.0
    ensures -2.0 <= b <= 3.0
  {
    if priority == "speed" then
      if Contains(caption, "Cab") || Contains(caption, "Uber") || Contains(caption, "Ola") then 3.0
      else if Contains(caption, "Auto") || Contains(caption, "Namma Yatri") then 2.0
      else -2.0
    else if priority == "cost" then
      if Contains(caption, "Bus") then 3.0
      else if Contains(caption, "Metro") && Contains(caption, "Walk") then 2.0
      else -2.0
    else if priority == "balanced" then
      if Contains(caption, "Metro") then 3.0
      else if Contains(caption, "Auto") || Contains(caption, "Namma Yatri") || Contains(caption, "Bus") then 1.0
      else -1.0
    else 0.0
  }

  /** The score before clamping and rounding. */
  function RawScore(r: Route, w: map<Mode, real>, priority: string): real
    requires Complete(w)
  {
    r.aiScore + ProfileBonus(r.mode, w) + PriorityBonus(r.mode, priority)
  }

  /** A journey rescored: only its score changes, the new score lies in
      [1, 10] and is the clamped raw score to within the rounding step. */
  function Rescored(r: Route, w: map<Mode, real>, priority: string): (s: Route)
    requires Complete(w)
    ensures s == r.(aiScore := s.aiScore)
    ensures 1.0 <= s.aiScore <= 10.0
    ensures -0.05 <= s.aiScore - Clamp(1.0, 10.0, RawScore(r, w, priority)) <= 0.05
  {
    var c := Clamp(1.0, 10.0, RawScore(r, w, priority));
    RoundTenthsInRange(c);
    r.(aiScore := RoundHalfEven(c, 10))
  }

  function ScoredAll(routes: seq<Route>, w: map<Mode, real>, priority: string): seq<Route>
    requires Complete(w)
  {
    seq(|routes|, i requires 0 <= i < |routes| => Rescored(routes[i], w, priority))
  }

  /** The rescoring loop: each journey in turn gets its new score. */
  method ScoreRoutes(routes: seq<Route>, w: map<Mode, real>, priority: string) returns (scored: seq<Route>)
    requires Complete(w)
    ensures scored == ScoredAll(routes, w, priority)
    ensures forall i :: 0 <= i < |scored| ==> 1.0 <= scored[i].aiScore <= 10.0
  {
    scored := [];
    for i := 0 to |routes|
      invariant scored == ScoredAll(routes[..i], w, priority)
    {
      scored := scored + [Rescored(routes[i], w, priority)];
    }
    assert routes[..|routes|] == routes;
  }

  /** `a` may be listed before `b`: sorting by score, highest first. */
  predicate ByScore(a: Route, b: Route) { a.aiScore >= b.aiScore }

  lemma ByScoreTotal()
    ensures Sorting.TotalPreorder(ByScore)
  {
  }

  /** `routes.sort(key=score, reverse=True)`: highest score first, a
      permutation of the journeys, and journeys of equal score in the order
      they were offered. */
  function Ranked(routes: seq<Route>): (r: seq<Route>)
    ensures Sorting.SortedBy(r, ByScore)
    ensures multiset(r) == multiset(routes)
    ensures forall x :: Sorting.RankClass(r, ByScore, x) == Sorting.RankClass(routes, ByScore, x)
  {
    ByScoreTotal();
    Sorting.SortByCorrect(routes, ByScore);
    Sorting.SortBy(routes, ByScore)
  }

  lemma CabLower()
    ensures Lower("Cab Direct") == "cab direct"
  {
  }

  /** A caption whose lowercase form has none of the letters u, n, m, w
      names no mode but the cab. */
  lemma NoOtherMode(caption: string)
    requires var t := Lower(caption); 'u' !in t && 'n' !in t && 'm' !in t && 'w' !in t
    ensures !Mentions(caption, Auto) && !Mentions(caption, Metro)
    ensures !Mentions(caption, Bus) && !Mentions(caption, Walk)
  {
    var t := Lower(caption);
    AbsentCharNotContained(t, "auto", 'u');
    AbsentCharNotContained(t, "namma yatri", 'n');
    AbsentCharNotContained(t, "metro", 'm');
    AbsentCharNotContained(t, "bus", 'u');
    AbsentCharNotContained(t, "walk", 'w');
  }

  /** A caption naming the cab and no other mode earns exactly the cab
      weight, and a capitalised "Cab" earns the full speed bonus. */
  lemma CabOnly(caption: string, w: map<Mode, real>)
    requires Complete(w) && Contains(Lower(caption), "cab") && Contains(caption, "Cab")
    requires var t := Lower(caption); 'u' !in t && 'n' !in t && 'm' !in t && 'w' !in t
    ensures ProfileBonus(caption, w) == w[Cab]
    ensures PriorityBonus(caption, "speed") == 3.0
  {
    NoOtherMode(caption);
  }

  /** The cab card's caption is such a caption. */
  lemma CabLabelMentions(w: map<Mode, real>)
    requires Complete(w)
    ensures ProfileBonus("Cab Direct", w) == w[Cab]
    ensures PriorityBonus("Cab Direct", "speed") == 3.0
  {
    CabLower();
    ContainsAt("cab direct", "cab", 0);
    ContainsAt("Cab Direct", "Cab", 0);
    CabOnly("Cab Direct", w);
  }

  /** A journey that scores the full 10 and is listed first stays first. */
  lemma TopScoreStaysFirst(scored: seq<Route>)
    requires scored != [] && scored[0].aiScore == 10.0
    requires forall i :: 0 <= i < |scored| ==> scored[i].aiScore <= 10.0
    ensures Ranked(scored)[0] == scored[0]
  {
    forall x | x in scored ensures ByScore(scored[0], x) {
      var i :| 0 <= i < |scored| && scored[i] == x;
    }
    ByScoreTotal();
    Sorting.FirstStaysFirst(scored, ByScore);
  }

  /** When speed matters and the cab weight has not been trained below -2,
      a caption that earns the cab weight and the full speed bonus lifts a
      9.0 card to the full 10. */
  lemma CabScoresTen(cab: Route, w: map<Mode, real>)
    requires Complete(w) && w[Cab] >= -2.0 && cab.aiScore == 9.0
    requires ProfileBonus(cab.mode, w) == w[Cab] && PriorityBonus(cab.mode, "speed") == 3.0
    ensures Rescored(cab, w, "speed") == cab.(aiScore := 10.0)
  {
    assert Clamp(1.0, 10.0, RawScore(cab, w, "speed")) == 10.0;
  }

  /** The cab card ("Cab Direct", 9.0) scores 10 under the speed priority
      and, being offered first, stays at the top of the sorted list. */
  lemma SpeedPutsCabFirst(cab: Route, others: seq<Route>, w: map<Mode, real>)
    requires Complete(w) && w[Cab] >= -2.0
    requires cab.mode == "Cab Direct" && cab.aiScore == 9.0
    ensures Ranked(ScoredAll([cab] + others, w, "speed"))[0] == cab.(aiScore := 10.0)
  {
    var scored := ScoredAll([cab] + others, w, "speed");
    CabLabelMentions(w);
    CabScoresTen(cab, w);
    TopScoreStaysFirst(scored);
  }
}
