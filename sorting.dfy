/** Python's `list.sort(key=...)` (and `reverse=True`): a stable sort. It is
    modelled as insertion sort under a total preorder `le`, where `le(a, b)`
    means "a may come before b"; the lemmas below are what callers rely on:
    the result is ordered, is a permutation of the input, and keeps elements
    of equal rank in their original order. */
module Sorting {

  ghost predicate Transitive<T(!new)>(le: (T, T) -> bool) {
    forall a, b, c :: le(a, b) && le(b, c) ==> le(a, c)
  }

  ghost predicate TotalPreorder<T(!new)>(le: (T, T) -> bool) {
    && (forall a, b :: le(a, b) || le(b, a))
    && Transitive(le)
  }

  predicate SortedBy<T>(s: seq<T>, le: (T, T) -> bool) {
    forall i, j :: 0 <= i < j < |s| ==> le(s[i], s[j])
  }

  /** `x` and `y` have the same rank: neither must come after the other. */
  predicate SameRank<T>(le: (T, T) -> bool, x: T, y: T) { le(x, y) && le(y, x) }

  /** The elements of `s` that rank equal to `x`, in their order in `s`. */
  function RankClass<T>(s: seq<T>, le: (T, T) -> bool, x: T): seq<T> {
    if s == [] then []
    else (if SameRank(le, x, s[0]) then [s[0]] else []) + RankClass(s[1..], le, x)
  }

  /** Number of elements of `s` satisfying `p`. */
  function Count<T>(s: seq<T>, p: T -> bool): nat {
    if s == [] then 0 else (if p(s[0]) then 1 else 0) + Count(s[1..], p)
  }

  /** `x` placed before the first element it may precede. */
  function Insert<T>(x: T, s: seq<T>, le: (T, T) -> bool): seq<T> {
    if s == [] then [x]
    else if le(x, s[0]) then [x] + s
    else [s[0]] + Insert(x, s[1..], le)
  }

  function SortBy<T>(s: seq<T>, le: (T, T) -> bool): seq<T> {
    if s == [] then [] else Insert(s[0], SortBy(s[1..], le), le)
  }

  lemma {:induction false} InsertPermutes<T>(x: T, s: seq<T>, le: (T, T) -> bool)
    ensures multiset(Insert(x, s, le)) == multiset(s) + multiset{x}
  {
    if s != [] && !le(x, s[0]) {
      InsertPermutes(x, s[1..], le);
      assert s == [s[0]] + s[1..];
    }
  }

  /** Every element of `s` may follow `y`. */
  predicate AllAfter<T>(y: T, s: seq<T>, le: (T, T) -> bool) {
    forall j :: 0 <= j < |s| ==> le(y, s[j])
  }

  lemma {:induction false} InsertAfter<T>(y: T, x: T, s: seq<T>, le: (T, T) -> bool)
    requires le(y, x) && AllAfter(y, s, le)
    ensures AllAfter(y, Insert(x, s, le), le)
  {
    if s != [] && !le(x, s[0]) {
      InsertAfter(y, x, s[1..], le);
      var t := Insert(x, s[1..], le);
      assert forall j :: 1 <= j < |t| + 1 ==> ([s[0]] + t)[j] == t[j - 1];
    }
  }

  lemma {:induction false} InsertSorted<T(!new)>(x: T, s: seq<T>, le: (T, T) -> bool)
    requires TotalPreorder(le) && SortedBy(s, le)
    ensures SortedBy(Insert(x, s, le), le)
  {
    if s != [] {
      if le(x, s[0]) {
        var r := [x] + s;
        forall i, j | 0 <= i < j < |r| ensures le(r[i], r[j]) {
          if i == 0 && j > 1 { assert le(s[0], s[j - 1]); }
        }
      } else {
        var t := Insert(x, s[1..], le);
        InsertSorted(x, s[1..], le);
        assert le(s[0], x);
        InsertAfter(s[0], x, s[1..], le);
        var r := [s[0]] + t;
        forall i, j | 0 <= i < j < |r| ensures le(r[i], r[j]) {
          if i == 0 { assert r[j] == t[j - 1]; } else { assert r[i] == t[i - 1] && r[j] == t[j - 1]; }
        }
      }
    }
  }

  lemma {:induction false} InsertRank<T(!new)>(x: T, s: seq<T>, le: (T, T) -> bool, x0: T)
    requires Transitive(le)
    ensures RankClass(Insert(x, s, le), le, x0)
            == (if SameRank(le, x0, x) then [x] else []) + RankClass(s, le, x0)
  {
    if s == [] {
    } else if le(x, s[0]) {
      assert ([x] + s)[1..] == s;
    } else {
      var rest := Insert(x, s[1..], le);
      InsertRank(x, s[1..], le, x0);
      assert ([s[0]] + rest)[1..] == rest;
      if SameRank(le, x0, x) {
        var h := s[0];
        assert le(x, x0) && le(x0, h) ==> le(x, h);
      }
    }
  }

  /** The stable sort is ordered, permutes its input, and keeps each rank
      class in input order. */
  lemma {:induction false} SortByCorrect<T(!new)>(s: seq<T>, le: (T, T) -> bool)
    requires TotalPreorder(le)
    ensures SortedBy(SortBy(s, le), le)
    ensures multiset(SortBy(s, le)) == multiset(s)
    ensures forall x :: RankClass(SortBy(s, le), le, x) == RankClass(s, le, x)
  {
    if s != [] {
      SortByCorrect(s[1..], le);
      InsertSorted(s[0], SortBy(s[1..], le), le);
      InsertPermutes(s[0], SortBy(s[1..], le), le);
      assert s == [s[0]] + s[1..];
      forall x ensures RankClass(SortBy(s, le), le, x) == RankClass(s, le, x) {
        InsertRank(s[0], SortBy(s[1..], le), le, x);
      }
    }
  }

  /** An element listed first that may precede every element stays first:
      the sort never moves anything ahead of it. */
  lemma FirstStaysFirst<T(!new)>(s: seq<T>, le: (T, T) -> bool)
    requires TotalPreorder(le)
    requires s != [] && forall x :: x in s ==> le(s[0], x)
    ensures SortBy(s, le)[0] == s[0]
  {
    var t := SortBy(s[1..], le);
    SortByCorrect(s[1..], le);
    if t != [] {
      assert t[0] in multiset(s[1..]);
      assert t[0] in s;
    }
  }

  lemma {:induction false} CountAppend<T>(a: seq<T>, b: seq<T>, p: T -> bool)
    ensures Count(a + b, p) == Count(a, p) + Count(b, p)
  {
    if a != [] {
      assert (a + b)[1..] == a[1..] + b;
      CountAppend(a[1..], b, p);
    } else {
      assert a + b == b;
    }
  }

  /** Removing position `j` takes one copy of `t[j]` out of the multiset. */
  lemma RemoveAtMultiset<T>(t: seq<T>, j: nat)
    requires j < |t|
    ensures multiset(t[..j] + t[j + 1..]) == multiset(t) - multiset{t[j]}
  {
    assert t == t[..j] + [t[j]] + t[j + 1..];
  }

  /** Removing position `j` lowers the count by one exactly when `t[j]`
      satisfies `p`. */
  lemma RemoveAtCount<T>(t: seq<T>, j: nat, p: T -> bool)
    requires j < |t|
    ensures Count(t, p) == Count(t[..j] + t[j + 1..], p) + (if p(t[j]) then 1 else 0)
  {
    assert t == t[..j] + t[j..];
    assert t[j..][1..] == t[j + 1..];
    CountAppend(t[..j], t[j..], p);
    CountAppend(t[..j], t[j + 1..], p);
  }

  /** A permutation of a non-empty `s` holds `s[0]` at some position `j`,
      and the rest of `s` is a permutation of `t` without position `j`. */
  lemma MatchHead<T>(s: seq<T>, t: seq<T>) returns (j: nat)
    requires s != [] && multiset(s) == multiset(t)
    ensures j < |t| && t[j] == s[0]
    ensures multiset(s[1..]) == multiset(t[..j] + t[j + 1..])
  {
    assert s[0] in multiset(t);
    j :| 0 <= j < |t| && t[j] == s[0];
    RemoveAtMultiset(t, j);
    RemoveAtMultiset(s, 0);
    assert s[..0] + s[1..] == s[1..];
  }

  /** Counting is invariant under permutation. */
  lemma {:induction false} CountPermutation<T>(s: seq<T>, t: seq<T>, p: T -> bool)
    requires multiset(s) == multiset(t)
    ensures Count(s, p) == Count(t, p)
  {
    if s == [] {
      assert |t| == |multiset(t)| == 0;
    } else {
      var j := MatchHead(s, t);
      CountPermutation(s[1..], t[..j] + t[j + 1..], p);
      RemoveAtCount(t, j, p);
    }
  }
}
