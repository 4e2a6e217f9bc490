/** Stable sorting by a total preorder, as Python's `sorted` does it, and the order of texts. */
module Sorting {

  predicate Comparable<T>(leq: (T, T) -> bool, a: T, b: T) { leq(a, b) || leq(b, a) }

  predicate Chained<T>(leq: (T, T) -> bool, a: T, b: T, c: T) { leq(a, b) && leq(b, c) ==> leq(a, c) }

  ghost predicate TotalPreorder<T(!new)>(leq: (T, T) -> bool) {
    (forall a, b :: Comparable(leq, a, b)) && (forall a, b, c :: Chained(leq, a, b, c))
  }

  /** Behind every element that is not greater, so that equal elements keep their order. */
  function Insert<T(==)>(x: T, s: seq<T>, leq: (T, T) -> bool): (r: seq<T>)
    ensures multiset(r) == multiset(s) + multiset{x}
  {
    if s == [] then [x]
    else
      assert s == [s[0]] + s[1..];
      if leq(s[0], x) then [s[0]] + Insert(x, s[1..], leq) else [x] + s
  }

  function Sorted<T(==)>(s: seq<T>, leq: (T, T) -> bool): (r: seq<T>)
    ensures multiset(r) == multiset(s)
    ensures |r| == |s|
  {
    if s == [] then []
    else
      var last := |s| - 1;
      assert s == s[..last] + [s[last]];
      var r := Insert(s[last], Sorted(s[..last], leq), leq);
      assert |multiset(r)| == |multiset(s)|;
      r
  }

  ghost predicate Ascending<T>(s: seq<T>, leq: (T, T) -> bool) {
    forall i, j :: 0 <= i < j < |s| ==> leq(s[i], s[j])
  }

  lemma {:induction false} InsertAscends<T(!new)>(x: T, s: seq<T>, leq: (T, T) -> bool)
    requires TotalPreorder(leq) && Ascending(s, leq)
    ensures Ascending(Insert(x, s, leq), leq)
  {
    if s != [] && leq(s[0], x) {
      InsertAscends(x, s[1..], leq);
      var rest, r := s[1..], Insert(x, s[1..], leq);
      forall i | 0 <= i < |r| ensures leq(s[0], r[i]) {
        assert r[i] in multiset(r);
        if r[i] != x {
          assert r[i] in rest;
          var j :| 0 <= j < |rest| && rest[j] == r[i];
          assert rest[j] == s[j + 1];
        }
      }
    } else if s != [] {
      assert Comparable(leq, x, s[0]);
      forall i | 0 <= i < |s| ensures leq(x, s[i]) {
        if i > 0 { assert leq(s[0], s[i]) && Chained(leq, x, s[0], s[i]); }
      }
    }
  }

  lemma {:induction false} SortedAscends<T(!new)>(s: seq<T>, leq: (T, T) -> bool)
    requires TotalPreorder(leq)
    ensures Ascending(Sorted(s, leq), leq)
  {
    if s != [] {
      SortedAscends(s[..|s| - 1], leq);
      InsertAscends(s[|s| - 1], Sorted(s[..|s| - 1], leq), leq);
    }
  }

  predicate Ties<T>(leq: (T, T) -> bool, a: T, b: T) { leq(a, b) && leq(b, a) }

  function IfTied<T>(y: T, x: T, leq: (T, T) -> bool): seq<T> { if Ties(leq, x, y) then [y] else [] }

  /** The elements that compare equal to `x`, in the order they stand. */
  function Tied<T>(s: seq<T>, x: T, leq: (T, T) -> bool): seq<T> {
    if s == [] then [] else IfTied(s[0], x, leq) + Tied(s[1..], x, leq)
  }

  lemma TiedStep<T>(y: T, s: seq<T>, x: T, leq: (T, T) -> bool)
    ensures Tied([y] + s, x, leq) == IfTied(y, x, leq) + Tied(s, x, leq)
  {
    assert ([y] + s)[1..] == s;
  }

  lemma Regroup<T>(a: seq<T>, b: seq<T>, c: seq<T>)
    ensures a + (b + c) == (a + b) + c
  {
  }

  lemma {:induction false} TiedJoin<T>(s: seq<T>, y: T, x: T, leq: (T, T) -> bool)
    ensures Tied(s + [y], x, leq) == Tied(s, x, leq) + IfTied(y, x, leq)
  {
    if s == [] {
      TiedStep(y, [], x, leq);
      assert s + [y] == [y] + [];
    } else {
      TiedJoin(s[1..], y, x, leq);
      TiedStep(s[0], s[1..] + [y], x, leq);
      assert s + [y] == [s[0]] + (s[1..] + [y]);
      Regroup(IfTied(s[0], x, leq), Tied(s[1..], x, leq), IfTied(y, x, leq));
    }
  }

  lemma {:induction false} NoneTied<T(!new)>(s: seq<T>, x: T, y: T, leq: (T, T) -> bool)
    requires TotalPreorder(leq) && leq(x, y) && forall i :: 0 <= i < |s| ==> !leq(s[i], y)
    ensures Tied(s, x, leq) == []
  {
    if s != [] {
      assert Chained(leq, s[0], x, y);
      NoneTied(s[1..], x, y, leq);
    }
  }

  lemma BeforeAllGreater<T(!new)>(y: T, s: seq<T>, x: T, leq: (T, T) -> bool)
    requires TotalPreorder(leq) && Ascending(s, leq) && s != [] && !leq(s[0], y)
    ensures Tied(s, x, leq) == [] || IfTied(y, x, leq) == []
  {
    if leq(x, y) {
      forall i | 0 <= i < |s| ensures !leq(s[i], y) {
        if i > 0 { assert leq(s[0], s[i]) && Chained(leq, s[0], s[i], y); }
      }
      NoneTied(s, x, y, leq);
    }
  }

  lemma {:induction false} InsertBehindTies<T(!new)>(y: T, s: seq<T>, x: T, leq: (T, T) -> bool)
    requires TotalPreorder(leq) && Ascending(s, leq)
    ensures Tied(Insert(y, s, leq), x, leq) == Tied(s, x, leq) + IfTied(y, x, leq)
  {
    if s != [] && leq(s[0], y) {
      InsertBehindTies(y, s[1..], x, leq);
      TiedStep(s[0], Insert(y, s[1..], leq), x, leq);
      Regroup(IfTied(s[0], x, leq), Tied(s[1..], x, leq), IfTied(y, x, leq));
    } else if s != [] {
      TiedStep(y, s, x, leq);
      BeforeAllGreater(y, s, x, leq);
    }
  }

  lemma SortedSnoc<T>(s: seq<T>, y: T, leq: (T, T) -> bool)
    ensures Sorted(s + [y], leq) == Insert(y, Sorted(s, leq), leq)
  {
    assert (s + [y])[..|s|] == s;
  }

  lemma InsertIsStable<T(!new)>(front: seq<T>, sorted: seq<T>, y: T, x: T, leq: (T, T) -> bool)
    requires TotalPreorder(leq) && Ascending(sorted, leq) && Tied(sorted, x, leq) == Tied(front, x, leq)
    ensures Tied(Insert(y, sorted, leq), x, leq) == Tied(front + [y], x, leq)
  {
    InsertBehindTies(y, sorted, x, leq);
    TiedJoin(front, y, x, leq);
  }

  ghost predicate Stable<T>(s: seq<T>, x: T, leq: (T, T) -> bool) {
    Tied(Sorted(s, leq), x, leq) == Tied(s, x, leq)
  }

  lemma OneMoreIsStable<T(!new)>(front: seq<T>, y: T, x: T, leq: (T, T) -> bool)
    requires TotalPreorder(leq) && Stable(front, x, leq)
    ensures Stable(front + [y], x, leq)
  {
    SortedAscends(front, leq);
    InsertIsStable(front, Sorted(front, leq), y, x, leq);
    SortedSnoc(front, y, leq);
  }

  /** Elements that compare equal keep their order. */
  lemma {:induction false} SortedIsStable<T(!new)>(s: seq<T>, x: T, leq: (T, T) -> bool)
    requires TotalPreorder(leq)
    ensures Stable(s, x, leq)
  {
    if s != [] {
      var front, y := s[..|s| - 1], s[|s| - 1];
      SortedIsStable(front, x, leq);
      OneMoreIsStable(front, y, x, leq);
      assert front + [y] == s;
    }
  }

  ghost predicate NoTies<T>(s: seq<T>, leq: (T, T) -> bool) {
    forall i, j :: 0 <= i < j < |s| ==> !Ties(leq, s[i], s[j])
  }

  lemma {:induction false} SomeTied<T>(s: seq<T>, k: nat, x: T, leq: (T, T) -> bool)
    requires k < |s| && Ties(leq, x, s[k])
    ensures Tied(s, x, leq) != []
  {
    if k > 0 { SomeTied(s[1..], k - 1, x, leq); }
  }

  lemma {:induction false} TwoTied<T>(s: seq<T>, i: nat, j: nat, x: T, leq: (T, T) -> bool)
    requires i < j < |s| && Ties(leq, x, s[i]) && Ties(leq, x, s[j])
    ensures |Tied(s, x, leq)| >= 2
  {
    if i > 0 { TwoTied(s[1..], i - 1, j - 1, x, leq); } else { SomeTied(s[1..], j - 1, x, leq); }
  }

  lemma {:induction false} OneTied<T(!new)>(s: seq<T>, x: T, leq: (T, T) -> bool)
    requires TotalPreorder(leq) && NoTies(s, leq)
    ensures |Tied(s, x, leq)| <= 1
  {
    if s != [] {
      OneTied(s[1..], x, leq);
      if Ties(leq, x, s[0]) { OthersUntied(s[1..], s[0], x, leq); }
    }
  }

  lemma {:induction false} OthersUntied<T(!new)>(s: seq<T>, y: T, x: T, leq: (T, T) -> bool)
    requires TotalPreorder(leq) && Ties(leq, x, y) && forall i :: 0 <= i < |s| ==> !Ties(leq, y, s[i])
    ensures Tied(s, x, leq) == []
  {
    if s != [] {
      assert Chained(leq, y, x, s[0]) && Chained(leq, s[0], x, y);
      OthersUntied(s[1..], y, x, leq);
    }
  }

  /** Without ties the order is strict. */
  lemma SortedWithoutTies<T(!new)>(s: seq<T>, leq: (T, T) -> bool)
    requires TotalPreorder(leq) && NoTies(s, leq)
    ensures NoTies(Sorted(s, leq), leq)
  {
    var r := Sorted(s, leq);
    forall i, j | 0 <= i < j < |r| ensures !Ties(leq, r[i], r[j]) {
      if Ties(leq, r[i], r[j]) {
        assert Comparable(leq, r[i], r[i]);
        TwoTied(r, i, j, r[i], leq);
        SortedIsStable(s, r[i], leq);
        OneTied(s, r[i], leq);
        assert false;
      }
    }
  }

  // ---------------------------------------------------------------- texts

  /** The order of strings, code by code; a beginning comes first. */
  predicate AtMost(a: string, b: string) {
    a == [] || (b != [] && (a[0] < b[0] || (a[0] == b[0] && AtMost(a[1..], b[1..]))))
  }

  lemma {:induction false} AtMostTotal(a: string, b: string)
    ensures AtMost(a, b) || AtMost(b, a)
  {
    if a != [] && b != [] { AtMostTotal(a[1..], b[1..]); }
  }

  lemma {:induction false} AtMostTransitive(a: string, b: string, c: string)
    requires AtMost(a, b) && AtMost(b, c)
    ensures AtMost(a, c)
  {
    if a != [] && a[0] == b[0] == c[0] { AtMostTransitive(a[1..], b[1..], c[1..]); }
  }
}
