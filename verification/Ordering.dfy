/** Query results in a strict total order: the sequence an ORDER BY makes of a set of rows. */
module Ordering {
  import opened Prelude

  ghost predicate StrictTotal<T(!new)>(less: (T, T) -> bool, s: set<T>) {
    && (forall a | a in s :: !less(a, a))
    && (forall a, b | a in s && b in s && a != b :: less(a, b) || less(b, a))
    && (forall a, b, c | a in s && b in s && c in s && less(a, b) && less(b, c) :: less(a, c))
  }

  ghost predicate Increasing<T(!new)>(less: (T, T) -> bool, q: seq<T>) {
    forall i, j | 0 <= i < j < |q| :: less(q[i], q[j])
  }

  function Elements<T(==)>(q: seq<T>): set<T> {
    set x | x in q
  }

  ghost predicate IsLeast<T(!new)>(less: (T, T) -> bool, s: set<T>, m: T) {
    m in s && forall x | x in s && x != m :: less(m, x)
  }

  lemma {:induction false} LeastExists<T(!new)>(less: (T, T) -> bool, s: set<T>) returns (m: T)
    requires s != {} && StrictTotal(less, s)
    ensures IsLeast(less, s, m)
    decreases |s|
  {
    m := Pick(s);
    if s != {m} {
      var other := LeastExists(less, s - {m});
      if less(other, m) { m := other; }
    }
  }

  ghost function Least<T(!new)>(less: (T, T) -> bool, s: set<T>): (m: T)
    requires s != {} && StrictTotal(less, s)
    ensures IsLeast(less, s, m)
  {
    assert exists x :: IsLeast(less, s, x) by { var _ := LeastExists(less, s); }
    var x :| IsLeast(less, s, x);
    x
  }

  lemma LeastUnique<T(!new)>(less: (T, T) -> bool, s: set<T>, m: T)
    requires StrictTotal(less, s) && IsLeast(less, s, m)
    ensures m == Least(less, s)
  {
  }

  /** The rows of a set, smallest first. */
  ghost function Arrange<T(!new)>(less: (T, T) -> bool, s: set<T>): (q: seq<T>)
    requires StrictTotal(less, s)
    ensures Elements(q) == s && |q| == |s|
    decreases |s|
  {
    if s == {} then []
    else
      var m := Least(less, s);
      var rest := Arrange(less, s - {m});
      assert Elements([m] + rest) == {m} + Elements(rest);
      [m] + rest
  }

  lemma ArrangeMembers<T(!new)>(less: (T, T) -> bool, s: set<T>)
    requires StrictTotal(less, s)
    ensures forall x :: x in s <==> x in Arrange(less, s)
  {
    forall x ensures x in s <==> x in Arrange(less, s) {
      assert x in Elements(Arrange(less, s)) <==> x in Arrange(less, s);
    }
  }

  lemma {:induction false} ArrangeIncreasing<T(!new)>(less: (T, T) -> bool, s: set<T>)
    requires StrictTotal(less, s)
    ensures Increasing(less, Arrange(less, s))
    decreases |s|
  {
    if s != {} {
      var m := Least(less, s);
      ArrangeIncreasing(less, s - {m});
      var rest := Arrange(less, s - {m});
      assert forall x | x in rest :: x in Elements(rest);
    }
  }

  lemma HeadIsLeast<T(!new)>(less: (T, T) -> bool, q: seq<T>)
    requires q != [] && StrictTotal(less, Elements(q)) && Increasing(less, q)
    ensures q[0] in Elements(q) && q[0] == Least(less, Elements(q))
    ensures Elements(q) - {q[0]} == Elements(q[1..])
  {
    var s := Elements(q);
    assert forall x | x in s :: x == q[0] || x in q[1..];
    LeastUnique(less, s, q[0]);
    assert q[0] !in q[1..];
    assert forall x | x in q[1..] :: x in s;
  }

  lemma TotalOnSubset<T(!new)>(less: (T, T) -> bool, s: set<T>, t: set<T>)
    requires StrictTotal(less, s) && t <= s
    ensures StrictTotal(less, t)
  {
  }

  lemma IncreasingTail<T(!new)>(less: (T, T) -> bool, q: seq<T>)
    requires q != [] && Increasing(less, q)
    ensures Increasing(less, q[1..])
  {
  }

  lemma ArrangeStep<T(!new)>(less: (T, T) -> bool, s: set<T>, m: T)
    requires StrictTotal(less, s) && s != {} && m == Least(less, s) && StrictTotal(less, s - {m})
    ensures Arrange(less, s) == [m] + Arrange(less, s - {m})
  {
  }

  /** An increasing sequence is determined by its elements. */
  lemma {:induction false} ArrangeUnique<T(!new)>(less: (T, T) -> bool, q: seq<T>)
    requires StrictTotal(less, Elements(q)) && Increasing(less, q)
    ensures q == Arrange(less, Elements(q))
    decreases |q|
  {
    if q != [] {
      var s, head, tail := Elements(q), q[0], q[1..];
      HeadIsLeast(less, q);
      TotalOnSubset(less, s, s - {head});
      IncreasingTail(less, q);
      ArrangeUnique(less, tail);
      ArrangeStep(less, s, head);
      assert q == [head] + tail;
    }
  }

  lemma SuffixElements<T(!new)>(less: (T, T) -> bool, q: seq<T>, k: nat)
    requires StrictTotal(less, Elements(q)) && Increasing(less, q) && k <= |q|
    ensures Elements(q[k..]) == Elements(q) - Elements(q[..k])
  {
    forall x | x in q[k..]
      ensures x in Elements(q) - Elements(q[..k])
    {
      var j :| 0 <= j < |q| - k && q[k..][j] == x;
      assert q[k + j] == x && x in Elements(q);
      forall i | 0 <= i < k ensures q[i] != x { assert less(q[i], q[k + j]); }
    }
    forall x | x in Elements(q) - Elements(q[..k])
      ensures x in q[k..]
    {
      assert q == q[..k] + q[k..];
      assert x in q[..k] + q[k..];
    }
  }

  /** Dropping the first rows of a result leaves the result over the remaining set. */
  lemma ArrangeSuffix<T(!new)>(less: (T, T) -> bool, s: set<T>, k: nat)
    requires StrictTotal(less, s) && k <= |s|
    ensures Arrange(less, s)[k..] == Arrange(less, s - Elements(Arrange(less, s)[..k]))
  {
    var q := Arrange(less, s);
    ArrangeIncreasing(less, s);
    SuffixElements(less, q, k);
    assert Increasing(less, q[k..]);
    ArrangeUnique(less, q[k..]);
  }

  /** Taking the least row off the rest moves it to the end of the result. */
  lemma ArrangeNext<T(!new)>(less: (T, T) -> bool, rest: set<T>, m: T, q: seq<T>)
    requires StrictTotal(less, rest) && IsLeast(less, rest, m)
    ensures StrictTotal(less, rest - {m})
    ensures q + [m] + Arrange(less, rest - {m}) == q + Arrange(less, rest)
  {
    LeastUnique(less, rest, m);
    TotalOnSubset(less, rest, rest - {m});
    ArrangeStep(less, rest, m);
  }

  /** ORDER BY, as the database carries it out. */
  method OrderBy<T(!new, ==)>(less: (T, T) -> bool, s: set<T>) returns (q: seq<T>)
    requires StrictTotal(less, s)
    ensures q == Arrange(less, s)
  {
    q := [];
    var rest := s;
    while rest != {}
      invariant StrictTotal(less, rest)
      invariant q + Arrange(less, rest) == Arrange(less, s)
      decreases rest
    {
      ghost var least := LeastExists(less, rest);
      var m :| m in rest && forall x | x in rest && x != m :: less(m, x);
      ArrangeNext(less, rest, m, q);
      q := q + [m];
      rest := rest - {m};
    }
  }

  /** The least row of an enlarged set: the newcomer if it precedes all others, else the old one. */
  lemma LeastOfInsert<T(!new)>(less: (T, T) -> bool, s: set<T>, q: T)
    requires s != {} && q !in s && StrictTotal(less, s + {q})
    ensures StrictTotal(less, s)
    ensures Least(less, s + {q}) == if forall p | p in s :: less(q, p) then q else Least(less, s)
  {
    if forall p | p in s :: less(q, p) {
      LeastUnique(less, s + {q}, q);
    } else {
      var p :| p in s && !less(q, p);
      var w := Least(less, s);
      assert less(p, q) && (w == p || less(w, p));
      LeastUnique(less, s + {q}, w);
    }
  }

  function Insert<T>(less: (T, T) -> bool, sorted: seq<T>, x: T): seq<T> {
    if sorted == [] || less(x, sorted[0]) then [x] + sorted
    else [sorted[0]] + Insert(less, sorted[1..], x)
  }

  lemma {:induction false} InsertSorts<T(!new)>(less: (T, T) -> bool, sorted: seq<T>, x: T)
    requires x !in sorted && StrictTotal(less, Elements(sorted) + {x}) && Increasing(less, sorted)
    ensures Elements(Insert(less, sorted, x)) == Elements(sorted) + {x}
    ensures Increasing(less, Insert(less, sorted, x))
    decreases |sorted|
  {
    assert forall y | y in sorted :: y in Elements(sorted) + {x};
    if sorted == [] || less(x, sorted[0]) {
    } else {
      var rest := Insert(less, sorted[1..], x);
      assert Elements(sorted) == {sorted[0]} + Elements(sorted[1..]);
      InsertSorts(less, sorted[1..], x);
      assert sorted[0] in sorted && less(sorted[0], x);
      forall y | y in rest
        ensures less(sorted[0], y)
      {
        assert y in Elements(rest);
      }
      assert Elements([sorted[0]] + rest) == {sorted[0]} + Elements(rest);
    }
  }

  /** Sorting a list without repeated rows. */
  method Sort<T(!new, ==)>(less: (T, T) -> bool, rows: seq<T>) returns (sorted: seq<T>)
    requires StrictTotal(less, Elements(rows))
    requires forall i, j | 0 <= i < j < |rows| :: rows[i] != rows[j]
    ensures sorted == Arrange(less, Elements(rows))
  {
    sorted := [];
    for i := 0 to |rows|
      invariant Increasing(less, sorted) && Elements(sorted) == Elements(rows[..i])
    {
      assert Elements(rows[..i + 1]) == Elements(rows[..i]) + {rows[i]};
      assert Elements(rows[..i + 1]) <= Elements(rows);
      assert rows[i] !in sorted by {
        assert rows[i] in sorted <==> rows[i] in Elements(rows[..i]);
      }
      InsertSorts(less, sorted, rows[i]);
      sorted := Insert(less, sorted, rows[i]);
    }
    assert rows[..|rows|] == rows;
    ArrangeUnique(less, sorted);
  }
}
