/** The "learned" user profile: one weight per travel mode, nudged by each
    piece of feedback (a declared priority and a preferred mode) and kept
    within [-5, 5]. The search adds a route's mode weights to its score. */
module Preferences {
  import opened Base
  import opened Text

  datatype Mode = Cab | Auto | Metro | Bus | Walk

  /** The profile's keys in dictionary order. */
  const ModeOrder: seq<Mode> := [Cab, Auto, Metro, Bus, Walk]

  /** The position of a mode in the dictionary order. */
  function ModeIndex(m: Mode): (i: nat)
    ensures i < |ModeOrder| && ModeOrder[i] == m
  {
    match m
    case Cab => 0
    case Auto => 1
    case Metro => 2
    case Bus => 3
    case Walk => 4
  }

  /** The learning rate of one piece of feedback. */
  const Rate: real := 2.0

  /** How a declared priority moves one mode's weight. An unknown priority
      moves nothing. */
  function PriorityDelta(priority: string, m: Mode): real {
    if priority == "speed" then
      match m
      case Cab => Rate
      case Auto => Rate
      case Metro => Rate * 0.5
      case Bus => -Rate
      case Walk => -Rate
    else if priority == "cost" then
      match m
      case Cab => -Rate
      case Auto => -(Rate * 0.5)
      case Metro => Rate * 0.5
      case Bus => Rate
      case Walk => Rate
    else if priority == "balanced" then
      match m
      case Cab => 0.0
      case Auto => Rate * 0.2
      case Metro => Rate
      case Bus => Rate * 0.2
      case Walk => 0.0
    else 0.0
  }

  /** The front-end names of the modes, in the order they are tried. */
  const KeyMap: seq<(string, Mode)> :=
    [("namma_metro", Metro), ("bmtc_bus", Bus), ("cab", Cab), ("auto", Auto), ("walk", Walk)]

  /** A front-end name and an answer are related when either contains the
      other. */
  predicate Related(answer: string, key: string) {
    Contains(answer, key) || Contains(key, answer)
  }

  /** The index of the first entry related to the answer. */
  function FirstKey(entries: seq<(string, Mode)>, answer: string): (r: Option<nat>)
    ensures r.None? <==> forall i :: 0 <= i < |entries| ==> !Related(answer, entries[i].0)
    ensures r.Some? ==> r.value < |entries| && Related(answer, entries[r.value].0)
    ensures r.Some? ==> forall j :: 0 <= j < r.value ==> !Related(answer, entries[j].0)
  {
    if entries == [] then None
    else if Related(answer, entries[0].0) then Some(0)
    else
      match FirstKey(entries[1..], answer)
      case None => None
      case Some(k) => Some(k + 1)
  }

  /** The mode a preferred-mode answer boosts: none for "any", else the mode
      of the first related front-end name (compared in lower case). */
  function Target(mode: string): Option<Mode> {
    if mode == "any" then None
    else
      match FirstKey(KeyMap, Lower(mode))
      case None => None
      case Some(i) => Some(KeyMap[i].1)
  }

  /** The total move of one mode's weight before the cap. */
  function Delta(priority: string, target: Option<Mode>, m: Mode): real {
    PriorityDelta(priority, m) + (if target == Some(m) then 1.0 else 0.0)
  }

  /** `max(-5.0, min(5.0, x))` */
  function Cap(x: real): (r: real)
    ensures -5.0 <= r <= 5.0
    ensures -5.0 <= x <= 5.0 ==> r == x
    ensures x > 5.0 ==> r == 5.0
    ensures x < -5.0 ==> r == -5.0
  {
    Max(-5.0, Min(5.0, x))
  }

  /** The whole profile after one piece of feedback whose preferred mode
      resolved to `target`. */
  function Trained(w: map<Mode, real>, priority: string, target: Option<Mode>): (r: map<Mode, real>)
    requires forall m: Mode :: m in w
    ensures forall m: Mode :: m in r && r[m] == Cap(w[m] + Delta(priority, target, m))
  {
    map m: Mode | m in w :: Cap(w[m] + Delta(priority, target, m))
  }

  class WeightStore {
    var weights: map<Mode, real>

    /** Every mode has a weight. */
    predicate Valid()
      reads this
    {
      forall m: Mode :: m in weights
    }

    /** Every mode starts at 0. */
    constructor()
      ensures Valid()
      ensures forall m: Mode :: weights[m] == 0.0
    {
      var zero := map[Cab := 0.0, Auto := 0.0, Metro := 0.0, Bus := 0.0, Walk := 0.0];
      forall m: Mode ensures m in zero && zero[m] == 0.0 {
        match m
        case Cab =>
        case Auto =>
        case Metro =>
        case Bus =>
        case Walk =>
      }
      weights := zero;
    }

    /** The moves of a declared priority. */
    method ApplyPriority(priority: string)
      requires Valid()
      modifies this
      ensures Valid()
      ensures forall m: Mode :: weights[m] == old(weights)[m] + PriorityDelta(priority, m)
    {
      if priority == "speed" {
        weights := weights[Cab := weights[Cab] + Rate];
        weights := weights[Auto := weights[Auto] + Rate];
        weights := weights[Metro := weights[Metro] + Rate * 0.5];
        weights := weights[Bus := weights[Bus] - Rate];
        weights := weights[Walk := weights[Walk] - Rate];
      } else if priority == "cost" {
        weights := weights[Bus := weights[Bus] + Rate];
        weights := weights[Walk := weights[Walk] + Rate];
        weights := weights[Metro := weights[Metro] + Rate * 0.5];
        weights := weights[Cab := weights[Cab] - Rate];
        weights := weights[Auto := weights[Auto] - Rate * 0.5];
      } else if priority == "balanced" {
        weights := weights[Metro := weights[Metro] + Rate];
        weights := weights[Auto := weights[Auto] + Rate * 0.2];
        weights := weights[Bus := weights[Bus] + Rate * 0.2];
      }
    }

    /** The cap, applied key by key in dictionary order. */
    method CapAll()
      requires Valid()
      modifies this
      ensures Valid()
      ensures forall m: Mode :: weights[m] == Cap(old(weights)[m])
    {
      for i := 0 to |ModeOrder|
        invariant Valid()
        invariant forall m: Mode :: weights[m] == if ModeIndex(m) < i then Cap(old(weights)[m]) else old(weights)[m]
      {
        var k := ModeOrder[i];
        weights := weights[k := Max(-5.0, Min(5.0, weights[k]))];
      }
    }

    /** `train_model`: the priority moves, then the boost of the preferred
        mode, then the cap. */
    method Train(priority: string, mode: string)
      requires Valid()
      modifies this
      ensures Valid()
      ensures weights == Trained(old(weights), priority, Target(mode))
    {
      ApplyPriority(priority);
      var target := Target(mode);
      if target.Some? {
        weights := weights[target.value := weights[target.value] + 1.0];
      }
      ghost var raw := weights;
      CapAll();
      assert forall m: Mode :: raw[m] == old(weights)[m] + Delta(priority, target, m);
    }
  }

  /** Feedback never takes a weight outside [-5, 5]. */
  lemma TrainedBounded(w: map<Mode, real>, priority: string, target: Option<Mode>)
    requires forall m: Mode :: m in w
    ensures forall m: Mode :: -5.0 <= Trained(w, priority, target)[m] <= 5.0
  {
  }

  /** Feedback with an unknown priority and no preferred mode changes no
      weight that is already within the cap. */
  lemma NeutralFeedbackKeeps(w: map<Mode, real>, priority: string)
    requires forall m: Mode :: m in w && -5.0 <= w[m] <= 5.0
    requires priority != "speed" && priority != "cost" && priority != "balanced"
    ensures Trained(w, priority, Target("any")) == w
  {
  }

  /** Without a preferred mode, "speed" feedback never lowers the cab, auto
      or metro weight and never raises the bus or walk weight; "cost"
      feedback does the opposite for cab and auto against bus, walk and
      metro. */
  lemma PriorityDirections(w: map<Mode, real>)
    requires forall m: Mode :: m in w && -5.0 <= w[m] <= 5.0
    ensures var s := Trained(w, "speed", Target("any"));
      && s[Cab] >= w[Cab] && s[Auto] >= w[Auto] && s[Metro] >= w[Metro]
      && s[Bus] <= w[Bus] && s[Walk] <= w[Walk]
    ensures var c := Trained(w, "cost", Target("any"));
      && c[Cab] <= w[Cab] && c[Auto] <= w[Auto]
      && c[Bus] >= w[Bus] && c[Walk] >= w[Walk] && c[Metro] >= w[Metro]
  {
  }

  /** "metro" is understood as the metro (it is part of "namma_metro"). */
  lemma MetroAnswerBoostsMetro()
    ensures Target("metro") == Some(Metro)
  {
    assert Lower("metro") == "metro";
    ContainsAt("namma_metro", "metro", 6);
  }

  /** A blank preferred-mode answer is not "any", and the empty string is
      part of every name, so it boosts the first entry's mode, the metro. */
  lemma BlankAnswerBoostsMetro()
    ensures Target("") == Some(Metro)
  {
    assert Contains("namma_metro", "");
  }

  /** The weights after `n` rounds of the same feedback. */
  function TrainedN(w: map<Mode, real>, priority: string, target: Option<Mode>, n: nat): (r: map<Mode, real>)
    requires forall m: Mode :: m in w
    ensures forall m: Mode :: m in r
  {
    if n == 0 then w else Trained(TrainedN(w, priority, target, n - 1), priority, target)
  }

  /** Capping after each step equals capping once, as long as the running
      value has moved away from the start in the direction of the step. */
  lemma CapStep(start: real, x: real, d: real)
    requires -5.0 <= start <= 5.0
    requires d >= 0.0 ==> x >= start
    requires d < 0.0 ==> x <= start
    ensures Cap(Cap(x) + d) == Cap(x + d)
  {
  }

  /** `x` moved `n` times by `d`. */
  function Steps(x: real, d: real, n: nat): real {
    if n == 0 then x else Steps(x, d, n - 1) + d
  }

  lemma {:induction false} StepsIsProduct(x: real, d: real, n: nat)
    ensures Steps(x, d, n) == x + (n as real) * d
  {
    if n > 0 {
      StepsIsProduct(x, d, n - 1);
      assert (n as real) * d == ((n - 1) as real) * d + d;
    }
  }

  /** Moving repeatedly never turns back. */
  lemma {:induction false} StepsAway(x: real, d: real, n: nat)
    ensures d >= 0.0 ==> Steps(x, d, n) >= x
    ensures d < 0.0 ==> Steps(x, d, n) <= x
  {
    if n > 0 {
      StepsAway(x, d, n - 1);
    }
  }

  /** `n` capped steps of size `d` from `x`. */
  function CapIter(x: real, d: real, n: nat): real {
    if n == 0 then x else Cap(CapIter(x, d, n - 1) + d)
  }

  /** Capping after every step is capping once at the end, for a start
      within the cap. */
  lemma {:induction false} CapIterOnce(x: real, d: real, n: nat)
    requires -5.0 <= x <= 5.0
    ensures CapIter(x, d, n) == Cap(Steps(x, d, n))
  {
    if n > 0 {
      CapIterOnce(x, d, n - 1);
      StepsAway(x, d, n - 1);
      CapStep(x, Steps(x, d, n - 1), d);
    }
  }

  lemma {:induction false} TrainedNIter(w: map<Mode, real>, priority: string, target: Option<Mode>, m: Mode, n: nat)
    requires forall k: Mode :: k in w
    ensures TrainedN(w, priority, target, n)[m] == CapIter(w[m], Delta(priority, target, m), n)
  {
    if n > 0 {
      TrainedNIter(w, priority, target, m, n - 1);
    }
  }

  /** Repeated feedback moves a weight that starts within the cap by the
      same step each round until it saturates: after `n` rounds it is the
      start moved `n` steps, held at the cap. */
  lemma Saturates(w: map<Mode, real>, priority: string, target: Option<Mode>, m: Mode, n: nat, d: real)
    requires forall k: Mode :: k in w
    requires -5.0 <= w[m] <= 5.0
    requires d == Delta(priority, target, m)
    ensures TrainedN(w, priority, target, n)[m] == Cap(w[m] + (n as real) * d)
  {
    TrainedNIter(w, priority, target, m, n);
    CapIterOnce(w[m], d, n);
    StepsIsProduct(w[m], d, n);
  }
}
