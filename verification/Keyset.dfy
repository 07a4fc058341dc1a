/**
 Keyset pagination: pages cut from an ordered query, each resuming strictly after the last row of
 the one before. The order is a parameter, so the same walk serves newest-first and oldest-first lists.
 */
module Keyset {
  import opened Prelude
  import opened Ordering

  const MAX_LIMIT := 200

  function Clamp(limit: int): (n: nat)
    ensures 1 <= n <= MAX_LIMIT && (1 <= limit <= 200 ==> n == limit) && (limit > 200 ==> n == 200)
  {
    if limit < 1 then 1 else if limit > MAX_LIMIT then MAX_LIMIT else limit
  }

  datatype Page<T> = Page(rows: seq<T>, next: Option<T>, hasMore: bool)

  /** The rows the query may return: all of them, or those strictly after the cursor. */
  function Eligible<T(==)>(less: (T, T) -> bool, rows: set<T>, cursor: Option<T>): set<T> {
    set r | r in rows && (cursor.None? || less(cursor.value, r))
  }

  ghost function PageOf<T(!new)>(less: (T, T) -> bool, rows: set<T>, cursor: Option<T>, limit: int): Page<T>
    requires StrictTotal(less, rows)
  {
    var n := Clamp(limit);
    var all := Arrange(less, Eligible(less, rows, cursor));
    var fetched := if |all| > n + 1 then all[..n + 1] else all;
    var hasMore := |fetched| > n;
    var kept := if hasMore then fetched[..n] else fetched;
    Page(kept, if hasMore then Some(kept[n - 1]) else None, hasMore)
  }

  /** The query, the look-ahead row, the cut and the cursor, as the list functions compute them. */
  method ListPage<T(!new, ==)>(less: (T, T) -> bool, rows: set<T>, cursor: Option<T>, limit: int) returns (p: Page<T>)
    requires StrictTotal(less, rows)
    ensures p == PageOf(less, rows, cursor, limit)
  {
    var n := Clamp(limit);
    var all := OrderBy(less, Eligible(less, rows, cursor));
    var fetched := if |all| > n + 1 then all[..n + 1] else all;
    var hasMore := |fetched| > n;
    var kept := fetched;
    if hasMore { kept := fetched[..n]; }
    var next := None;
    if hasMore && |kept| > 0 { next := Some(kept[|kept| - 1]); }
    p := Page(kept, next, hasMore);
  }

  /** Following the cursor page after page; the table may be another one at each request. */
  ghost function Walk<T(!new)>(less: (T, T) -> bool, tables: seq<set<T>>, cursor: Option<T>, limit: int): seq<Page<T>>
    requires forall i | 0 <= i < |tables| :: StrictTotal(less, tables[i])
    decreases |tables|
  {
    if tables == [] then []
    else
      var p := PageOf(less, tables[0], cursor, limit);
      [p] + if p.next.None? then [] else Walk(less, tables[1..], p.next, limit)
  }

  function Seen<T>(walk: seq<Page<T>>): seq<T> {
    if walk == [] then [] else walk[0].rows + Seen(walk[1..])
  }

  predicate Finished<T>(walk: seq<Page<T>>) {
    walk != [] && walk[|walk| - 1].next.None?
  }

  /** Rows, each known by a sort key that never changes, may enter and leave the query between requests. */
  ghost predicate Within<T(!new)>(tables: seq<set<T>>, all: set<T>) {
    forall i | 0 <= i < |tables| :: tables[i] <= all
  }

  ghost predicate Growing<T(!new)>(tables: seq<set<T>>, all: set<T>) {
    && Within(tables, all)
    && (forall i, j | 0 <= i <= j < |tables| :: tables[i] <= tables[j])
  }

  /** One page is the front of what is eligible, and a cursor is given exactly when more remains. */
  lemma PageCuts<T(!new)>(less: (T, T) -> bool, rows: set<T>, cursor: Option<T>, limit: int)
    requires StrictTotal(less, rows)
    ensures var p, n, q := PageOf(less, rows, cursor, limit), Clamp(limit), Arrange(less, Eligible(less, rows, cursor));
            && |q| == |Eligible(less, rows, cursor)|
            && p.rows == (if |q| <= n then q else q[..n])
            && p.next == (if |q| <= n then None else Some(q[n - 1]))
  {
    var n, q := Clamp(limit), Arrange(less, Eligible(less, rows, cursor));
    if |q| > n {
      assert q[..n + 1][..n] == q[..n];
    }
  }

  /** In the ordered result, the rows after the n-th are those it precedes. */
  lemma AfterNth<T(!new)>(less: (T, T) -> bool, all: set<T>, q: seq<T>, n: nat, r: T)
    requires StrictTotal(less, all) && Increasing(less, q) && 0 < n <= |q| && q[n - 1] in all && r in q && r in all
    ensures less(q[n - 1], r) <==> r !in q[..n]
  {
    var i :| 0 <= i < |q| && q[i] == r;
    if i < n {
      assert q[..n][i] == r;
      assert i < n - 1 ==> less(q[i], q[n - 1]);
    } else {
      assert less(q[n - 1], q[i]);
      forall j | 0 <= j < n ensures q[j] != r {
        assert less(q[j], q[i]);
      }
    }
  }

  lemma AfterEligible<T(!new)>(less: (T, T) -> bool, all: set<T>, rows: set<T>, cursor: Option<T>, last: T, r: T)
    requires StrictTotal(less, all) && rows <= all && (cursor.Some? ==> cursor.value in all)
    requires last in Eligible(less, rows, cursor) && r in rows && less(last, r)
    ensures r in Eligible(less, rows, cursor)
  {
  }

  lemma CutAt<T(!new)>(less: (T, T) -> bool, all: set<T>, rows: set<T>, cursor: Option<T>, n: nat)
    requires StrictTotal(less, all) && rows <= all && (cursor.Some? ==> cursor.value in all)
    requires 0 < n <= |Eligible(less, rows, cursor)|
    ensures var q := Arrange(less, Eligible(less, rows, cursor));
            && q[n - 1] in all
            && Eligible(less, rows, Some(q[n - 1])) == Eligible(less, rows, cursor) - Elements(q[..n])
            && Arrange(less, Eligible(less, rows, Some(q[n - 1]))) == q[n..]
  {
    var eligible := Eligible(less, rows, cursor);
    TotalOnSubset(less, all, eligible);
    var q := Arrange(less, eligible);
    var last := q[n - 1];
    ArrangeIncreasing(less, eligible);
    ArrangeMembers(less, eligible);
    assert last in q && last in eligible;
    forall r | r in rows
      ensures less(last, r) <==> r in eligible && r !in q[..n]
    {
      if less(last, r) { AfterEligible(less, all, rows, cursor, last, r); }
      if r in eligible { AfterNth(less, all, q, n, r); }
    }
    assert Eligible(less, rows, Some(last)) == eligible - Elements(q[..n]);
    ArrangeSuffix(less, eligible, n);
  }

  /** A walk is its first page followed by the walk from that page's cursor. */
  lemma WalkStep<T(!new)>(less: (T, T) -> bool, tables: seq<set<T>>, cursor: Option<T>, limit: int)
    requires tables != [] && forall i | 0 <= i < |tables| :: StrictTotal(less, tables[i])
    ensures var p, walk := PageOf(less, tables[0], cursor, limit), Walk(less, tables, cursor, limit);
            if p.next.None? then Seen(walk) == p.rows && Finished(walk) && |walk| == 1
            else
              var tail := Walk(less, tables[1..], p.next, limit);
              Seen(walk) == p.rows + Seen(tail) && (Finished(walk) <==> Finished(tail)) && |walk| == 1 + |tail|
  {
    var p := PageOf(less, tables[0], cursor, limit);
    if p.next.None? {
      assert p.rows + Seen([]) == p.rows;
    } else {
      var tail := Walk(less, tables[1..], p.next, limit);
      assert ([p] + tail)[1..] == tail;
    }
  }

  lemma PrefixBounds<T(!new)>(less: (T, T) -> bool, q: seq<T>, n: nat)
    requires Increasing(less, q) && 0 < n <= |q|
    ensures Increasing(less, q[..n])
    ensures forall r | r in q[..n] :: r == q[n - 1] || less(r, q[n - 1])
    ensures forall r | r in q[..n] :: r in q
  {
  }

  /** The rows of a page lie after the old cursor and up to the new one. */
  lemma PageBounds<T(!new)>(less: (T, T) -> bool, rows: set<T>, cursor: Option<T>, limit: int)
    requires StrictTotal(less, rows)
    ensures var p := PageOf(less, rows, cursor, limit);
            && Increasing(less, p.rows)
            && (forall r | r in p.rows :: r in Eligible(less, rows, cursor))
            && (p.next.Some? ==> p.next.value in Eligible(less, rows, cursor)
                                 && forall r | r in p.rows :: r == p.next.value || less(r, p.next.value))
  {
    var eligible := Eligible(less, rows, cursor);
    var q, n := Arrange(less, eligible), Clamp(limit);
    PageCuts(less, rows, cursor, limit);
    ArrangeIncreasing(less, eligible);
    ArrangeMembers(less, eligible);
    if |q| > n {
      PrefixBounds(less, q, n);
      assert q[n - 1] in q;
    }
  }

  /** What a page does not show is left for the next one. */
  lemma PageLeaves<T(!new)>(less: (T, T) -> bool, all: set<T>, rows: set<T>, cursor: Option<T>, limit: int, r: T)
    requires StrictTotal(less, all) && rows <= all && (cursor.Some? ==> cursor.value in all)
    requires r in Eligible(less, rows, cursor)
    ensures var p := PageOf(less, rows, cursor, limit);
            r in p.rows || (p.next.Some? && r in Eligible(less, rows, p.next))
  {
    var q, n := Arrange(less, Eligible(less, rows, cursor)), Clamp(limit);
    PageCuts(less, rows, cursor, limit);
    ArrangeMembers(less, Eligible(less, rows, cursor));
    if |q| > n {
      CutAt(less, all, rows, cursor, n);
    }
  }

  lemma {:induction false} WalkIsOrdered<T(!new)>(less: (T, T) -> bool, all: set<T>, tables: seq<set<T>>,
                                                cursor: Option<T>, limit: int)
    requires StrictTotal(less, all) && Within(tables, all) && (cursor.Some? ==> cursor.value in all)
    ensures var seen := Seen(Walk(less, tables, cursor, limit));
            Increasing(less, seen) && forall r | r in seen :: r in Eligible(less, all, cursor)
    decreases |tables|
  {
    if tables != [] {
      var p := PageOf(less, tables[0], cursor, limit);
      PageBounds(less, tables[0], cursor, limit);
      WalkStep(less, tables, cursor, limit);
      if p.next.Some? {
        var later := tables[1..];
        var tail := Walk(less, later, p.next, limit);
        assert forall i | 0 <= i < |later| :: later[i] == tables[i + 1];
        WalkIsOrdered(less, all, later, p.next, limit);
        JoinPages(less, all, p.rows, p.next.value, Seen(tail));
        forall r | r in Seen(tail)
          ensures r in Eligible(less, all, cursor)
        {
          assert cursor.Some? ==> less(cursor.value, p.next.value) && less(p.next.value, r);
        }
      }
    }
  }

  /** The row is there at each of the first n requests. */
  ghost predicate Throughout<T(!new)>(tables: seq<set<T>>, n: nat, r: T) {
    n <= |tables| && forall i | 0 <= i < n :: r in tables[i]
  }

  lemma StaysLater<T(!new)>(all: set<T>, tables: seq<set<T>>, n: nat, r: T)
    requires Within(tables, all) && 0 < n && Throughout(tables, n, r)
    ensures r in tables[0] && Within(tables[1..], all) && Throughout(tables[1..], n - 1, r)
  {
    assert forall i | 0 <= i < |tables| - 1 :: tables[1..][i] == tables[i + 1];
  }

  /** A row there at the request is on the page, or may still be on a later one. */
  lemma OnPageOrLater<T(!new)>(less: (T, T) -> bool, all: set<T>, rows: set<T>, cursor: Option<T>, limit: int, r: T)
    requires StrictTotal(less, all) && rows <= all && (cursor.Some? ==> cursor.value in all)
    requires r in rows && Past(less, cursor, r)
    ensures var p := PageOf(less, rows, cursor, limit);
            r in p.rows || (p.next.Some? && p.next.value in all && Past(less, p.next, r))
  {
    PageBounds(less, rows, cursor, limit);
    PageLeaves(less, all, rows, cursor, limit, r);
  }

  lemma {:induction false} StayingRowIsSeen<T(!new)>(less: (T, T) -> bool, all: set<T>, tables: seq<set<T>>,
                                                   cursor: Option<T>, limit: int, r: T)
    requires StrictTotal(less, all) && Within(tables, all) && (cursor.Some? ==> cursor.value in all)
    requires Finished(Walk(less, tables, cursor, limit))
    requires Past(less, cursor, r) && Throughout(tables, |Walk(less, tables, cursor, limit)|, r)
    ensures r in Seen(Walk(less, tables, cursor, limit))
    decreases |tables|
  {
    var n, p := |Walk(less, tables, cursor, limit)|, PageOf(less, tables[0], cursor, limit);
    StaysLater(all, tables, n, r);
    OnPageOrLater(less, all, tables[0], cursor, limit, r);
    WalkStep(less, tables, cursor, limit);
    if r !in p.rows {
      StayingRowIsSeen(less, all, tables[1..], p.next, limit, r);
    }
  }

  /**
   A walk never repeats or reorders a row, whatever enters or leaves the query between its pages,
   and a finished walk has shown every row that was there at each of its requests.
   */
  lemma WalkIsExact<T(!new)>(less: (T, T) -> bool, all: set<T>, tables: seq<set<T>>, cursor: Option<T>, limit: int)
    requires StrictTotal(less, all) && Within(tables, all) && (cursor.Some? ==> cursor.value in all)
    ensures var walk := Walk(less, tables, cursor, limit);
            && |walk| <= |tables|
            && Increasing(less, Seen(walk))
            && (forall r | r in Seen(walk) :: r in Eligible(less, all, cursor))
            && (Finished(walk) ==> forall r | Past(less, cursor, r) && Throughout(tables, |walk|, r) :: r in Seen(walk))
  {
    var walk := Walk(less, tables, cursor, limit);
    WalkLength(less, tables, cursor, limit);
    WalkIsOrdered(less, all, tables, cursor, limit);
    forall r | Finished(walk) && Past(less, cursor, r) && Throughout(tables, |walk|, r)
      ensures r in Seen(walk)
    {
      StayingRowIsSeen(less, all, tables, cursor, limit, r);
    }
  }

  /** With insertions only, a finished walk has shown every row that was there when it began. */
  lemma FirstRowsAreSeen<T(!new)>(less: (T, T) -> bool, all: set<T>, tables: seq<set<T>>, cursor: Option<T>, limit: int)
    requires StrictTotal(less, all) && Growing(tables, all) && (cursor.Some? ==> cursor.value in all)
    ensures var walk := Walk(less, tables, cursor, limit);
            Finished(walk) ==> tables != [] && forall r | r in Eligible(less, tables[0], cursor) :: r in Seen(walk)
  {
    WalkIsExact(less, all, tables, cursor, limit);
    var walk := Walk(less, tables, cursor, limit);
    if Finished(walk) {
      forall r | r in Eligible(less, tables[0], cursor)
        ensures r in Seen(walk)
      {
        assert forall i | 0 <= i < |walk| :: tables[0] <= tables[i];
        assert Throughout(tables, |walk|, r);
      }
    }
  }

  lemma JoinPages<T(!new)>(less: (T, T) -> bool, all: set<T>, page: seq<T>, last: T, rest: seq<T>)
    requires StrictTotal(less, all) && last in all
    requires Increasing(less, page) && Increasing(less, rest)
    requires forall r | r in page :: r in all && (r == last || less(r, last))
    requires forall r | r in rest :: r in all && less(last, r)
    ensures Increasing(less, page + rest)
  {
    forall i, j | 0 <= i < j < |page + rest|
      ensures less((page + rest)[i], (page + rest)[j])
    {
      if i < |page| <= j {
        assert page[i] in page && rest[j - |page|] in rest;
      }
    }
  }

  lemma {:induction false} WalkLength<T(!new)>(less: (T, T) -> bool, tables: seq<set<T>>, cursor: Option<T>, limit: int)
    requires forall i | 0 <= i < |tables| :: StrictTotal(less, tables[i])
    ensures |Walk(less, tables, cursor, limit)| <= |tables|
    decreases |tables|
  {
    if tables != [] {
      var p := PageOf(less, tables[0], cursor, limit);
      if p.next.Some? { WalkLength(less, tables[1..], p.next, limit); }
    }
  }

  /** What a request with this cursor may return. */
  predicate Past<T>(less: (T, T) -> bool, cursor: Option<T>, r: T) {
    cursor.None? || less(cursor.value, r)
  }

  /** How many pages a quiet walk over this many rows takes. */
  function PagesFor(total: nat, limit: int): nat {
    if total <= Clamp(limit) then 1 else 1 + PagesFor(total - Clamp(limit), limit)
  }

  /** A full page leaves as many rows fewer for the next one. */
  lemma PageShrinks<T(!new)>(less: (T, T) -> bool, all: set<T>, rows: set<T>, cursor: Option<T>, limit: int)
    requires StrictTotal(less, all) && rows <= all && (cursor.Some? ==> cursor.value in all)
    ensures var p, total := PageOf(less, rows, cursor, limit), |Eligible(less, rows, cursor)|;
            && (p.next.None? <==> total <= Clamp(limit))
            && (p.next.Some? ==> p.next.value in all && |Eligible(less, rows, p.next)| == total - Clamp(limit))
  {
    var n := Clamp(limit);
    PageCuts(less, rows, cursor, limit);
    if n < |Eligible(less, rows, cursor)| {
      CutAt(less, all, rows, cursor, n);
      TotalOnSubset(less, all, Eligible(less, rows, cursor));
      var q := Arrange(less, Eligible(less, rows, cursor));
      TotalOnSubset(less, all, Eligible(less, rows, Some(q[n - 1])));
      PageCuts(less, rows, Some(q[n - 1]), limit);
    }
  }

  lemma {:induction false} QuietPages<T(!new)>(less: (T, T) -> bool, all: set<T>, rows: set<T>, cursor: Option<T>,
                                             limit: int, tables: seq<set<T>>)
    requires StrictTotal(less, all) && rows <= all && (cursor.Some? ==> cursor.value in all)
    requires forall i | 0 <= i < |tables| :: tables[i] == rows
    requires |tables| >= PagesFor(|Eligible(less, rows, cursor)|, limit)
    ensures var walk := Walk(less, tables, cursor, limit);
            Finished(walk) && |walk| == PagesFor(|Eligible(less, rows, cursor)|, limit)
    decreases |tables|
  {
    PageShrinks(less, all, rows, cursor, limit);
    WalkStep(less, tables, cursor, limit);
    var p := PageOf(less, rows, cursor, limit);
    assert tables[0] == rows;
    if p.next.Some? {
      QuietPages(less, all, rows, p.next, limit, tables[1..]);
    }
  }

  /** With no insertions the walk ends after the expected number of pages and shows the query itself. */
  lemma QuietWalk<T(!new)>(less: (T, T) -> bool, rows: set<T>, limit: int, tables: seq<set<T>>)
    requires StrictTotal(less, rows)
    requires forall i | 0 <= i < |tables| :: tables[i] == rows
    requires |tables| >= PagesFor(|rows|, limit)
    ensures var walk := Walk(less, tables, None, limit);
            && Finished(walk)
            && |walk| == PagesFor(|rows|, limit)
            && Seen(walk) == Arrange(less, rows)
  {
    var walk := Walk(less, tables, None, limit);
    assert Eligible(less, rows, None) == rows;
    QuietPages(less, rows, rows, None, limit, tables);
    WalkIsExact(less, rows, tables, None, limit);
    FirstRowsAreSeen(less, rows, tables, None, limit);
    assert Elements(Seen(walk)) == rows by {
      assert tables[0] == rows;
    }
    ArrangeUnique(less, Seen(walk));
  }

  /** That number is the rows over the page size, rounded up, and one for an empty table. */
  lemma {:induction false} PagesForIsCeiling(total: nat, limit: int)
    ensures PagesFor(total, limit) == if total == 0 then 1 else (total + Clamp(limit) - 1) / Clamp(limit)
  {
    var n := Clamp(limit);
    if 0 < total <= n {
      DivUnique(total + n - 1, n, 1, total - 1);
    } else if n < total {
      PagesForIsCeiling(total - n, limit);
      OneMorePage(total, n);
    }
  }

  lemma OneMorePage(total: nat, n: nat)
    requires 0 < n < total
    ensures (total + n - 1) / n == 1 + (total - n + n - 1) / n
  {
    DivStep(total - 1, n);
  }

  lemma DivStep(x: nat, n: nat)
    requires n > 0
    ensures (x + n) / n == x / n + 1
  {
    var k, r := x / n, x % n;
    assert x + n == (k + 1) * n + r;
    DivUnique(x + n, n, k + 1, r);
  }

  lemma DivUnique(x: nat, n: nat, k: nat, r: nat)
    requires n > 0 && x == k * n + r && r < n
    ensures x / n == k
  {
    var d := x / n - k;
    assert x == (x / n) * n + x % n;
    assert d * n == r - x % n;
  }
}
