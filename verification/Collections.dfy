/** Finite sets: picking an element, and the least of a set of integers. */
module Collections {

  lemma Element<T>(s: set<T>) returns (x: T)
    requires s != {}
    ensures x in s
  {
    x :| x in s;
  }

  predicate IsLeast(s: set<int>, m: int) { m in s && forall x :: x in s ==> m <= x }

  lemma {:induction false} HasLeast(s: set<int>)
    requires s != {}
    ensures exists m :: IsLeast(s, m)
    decreases |s|
  {
    var a := Element(s);
    var rest := s - {a};
    if rest == {} {
      assert s == {a};
      assert IsLeast(s, a);
    } else {
      HasLeast(rest);
      var m :| IsLeast(rest, m);
      assert forall x :: x in s ==> x == a || x in rest;
      assert IsLeast(s, if a <= m then a else m);
    }
  }

  lemma {:induction false} SubsetSize<T>(a: set<T>, b: set<T>)
    requires a <= b
    ensures |a| <= |b|
  {
    if a != {} {
      var x := Element(a);
      SubsetSize(a - {x}, b - {x});
    }
  }
}
