/** Sums of integer weights over finite sets. */
module Sums {
  import opened Prelude
  import opened Ordering

  ghost function SumOver<T(!new)>(s: set<T>, w: T -> int): int
    decreases |s|
  {
    if s == {} then 0 else w(Pick(s)) + SumOver(s - {Pick(s)}, w)
  }

  lemma {:induction false} SumSplit<T(!new)>(s: set<T>, w: T -> int, x: T)
    requires x in s
    ensures SumOver(s, w) == w(x) + SumOver(s - {x}, w)
    decreases |s|
  {
    var y := Pick(s);
    if y != x {
      SumSplit(s - {y}, w, x);
      SumSplit(s - {x}, w, y);
      assert s - {x} - {y} == s - {y} - {x};
    }
  }

  lemma SumInsert<T(!new)>(s: set<T>, w: T -> int, x: T)
    requires x !in s
    ensures SumOver(s + {x}, w) == SumOver(s, w) + w(x)
  {
    SumSplit(s + {x}, w, x);
    assert s + {x} - {x} == s;
  }

  lemma {:induction false} SumMonotone<T(!new)>(s: set<T>, t: set<T>, w: T -> int)
    requires s <= t && forall x | x in t - s :: w(x) >= 0
    ensures SumOver(s, w) <= SumOver(t, w)
    decreases |t|
  {
    if t - s == {} {
      assert s == t;
    } else {
      var x := Pick(t - s);
      SumSplit(t, w, x);
      SumMonotone(s, t - {x}, w);
    }
  }

  /** The same with real weights. */
  ghost function RealOver<T(!new)>(s: set<T>, w: T -> real): real
    decreases |s|
  {
    if s == {} then 0.0 else w(Pick(s)) + RealOver(s - {Pick(s)}, w)
  }

  function SumSeq<T>(q: seq<T>, w: T -> int): int {
    if q == [] then 0 else w(q[0]) + SumSeq(q[1..], w)
  }

  lemma {:induction false} SumOfArranged<T(!new)>(less: (T, T) -> bool, s: set<T>, w: T -> int)
    requires StrictTotal(less, s)
    ensures SumSeq(Arrange(less, s), w) == SumOver(s, w)
    decreases |s|
  {
    if s != {} {
      var m := Least(less, s);
      SumSplit(s, w, m);
      SumOfArranged(less, s - {m}, w);
      assert Arrange(less, s)[1..] == Arrange(less, s - {m});
    }
  }

  method AddUp<T(!new, ==)>(s: set<T>, w: T -> int) returns (total: int)
    ensures total == SumOver(s, w)
  {
    total := 0;
    var rest := s;
    while rest != {}
      invariant rest <= s
      invariant total + SumOver(rest, w) == SumOver(s, w)
      decreases rest
    {
      var x :| x in rest;
      SumSplit(rest, w, x);
      total := total + w(x);
      rest := rest - {x};
    }
  }
}
