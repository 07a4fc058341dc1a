/** Which rows a walk over keyset pages shows, when rows arrive or leave between its requests. */
module Arrivals {
  import opened Prelude
  import opened Ordering
  import opened Keyset

  /** The cursor a page of the walk was asked with. */
  function CursorAt<T>(walk: seq<Page<T>>, cursor: Option<T>, i: nat): Option<T>
    requires i <= |walk|
  {
    if i == 0 then cursor else walk[i - 1].next
  }

  /** Past the first page a walk is that page and a shorter walk. */
  lemma WalkTail<T(!new)>(less: (T, T) -> bool, all: set<T>, tables: seq<set<T>>, cursor: Option<T>, limit: int)
    requires StrictTotal(less, all) && Growing(tables, all) && |Walk(less, tables, cursor, limit)| > 1
    ensures var p := PageOf(less, tables[0], cursor, limit);
            && p.next.Some? && p.next.value in all && Growing(tables[1..], all)
            && var walk, tail := Walk(less, tables, cursor, limit), Walk(less, tables[1..], p.next, limit);
               && walk == [p] + tail && Seen(walk) == p.rows + Seen(tail) && (Finished(walk) <==> Finished(tail))
               && (forall r | r in p.rows :: r in tables[0])
  {
    var p, later := PageOf(less, tables[0], cursor, limit), tables[1..];
    WalkStep(less, tables, cursor, limit);
    PageBounds(less, tables[0], cursor, limit);
    assert forall j | 0 <= j < |later| :: later[j] == tables[j + 1];
  }

  lemma ArrivalOnFirstPage<T(!new)>(less: (T, T) -> bool, all: set<T>, tables: seq<set<T>>, cursor: Option<T>, limit: int, r: T)
    requires StrictTotal(less, all) && Growing(tables, all) && (cursor.Some? ==> cursor.value in all)
    requires Finished(Walk(less, tables, cursor, limit)) && tables != [] && r in tables[0]
    ensures r in Seen(Walk(less, tables, cursor, limit)) <==> Past(less, cursor, r)
  {
    WalkIsExact(less, all, tables, cursor, limit);
    FirstRowsAreSeen(less, all, tables, cursor, limit);
    assert Past(less, cursor, r) ==> r in Eligible(less, tables[0], cursor);
  }

  /** Past its first page, a walk shows what a row's absence from that page leaves to the rest. */
  lemma WalkCons<T(!new)>(p: Page<T>, tail: seq<Page<T>>, cursor: Option<T>, r: T, i: nat)
    requires r !in p.rows && 0 < i <= |tail|
    ensures r in Seen([p] + tail) <==> r in Seen(tail)
    ensures CursorAt([p] + tail, cursor, i) == CursorAt(tail, p.next, i - 1)
    ensures Finished([p] + tail) <==> Finished(tail)
  {
    assert ([p] + tail)[1..] == tail;
  }

  /**
   A row that arrives during a walk is shown exactly when it sorts after the cursor of the first
   page that could have held it.
   */
  lemma {:induction false} ArrivalIsSeen<T(!new)>(less: (T, T) -> bool, all: set<T>, tables: seq<set<T>>,
                                                cursor: Option<T>, limit: int, r: T, i: nat)
    requires StrictTotal(less, all) && Growing(tables, all) && (cursor.Some? ==> cursor.value in all)
    requires Finished(Walk(less, tables, cursor, limit)) && i < |Walk(less, tables, cursor, limit)| && i < |tables|
    requires r in tables[i] && forall j | 0 <= j < i :: r !in tables[j]
    ensures var walk := Walk(less, tables, cursor, limit);
            r in Seen(walk) <==> Past(less, CursorAt(walk, cursor, i), r)
    decreases |tables|
  {
    if i == 0 {
      ArrivalOnFirstPage(less, all, tables, cursor, limit, r);
    } else {
      WalkTail(less, all, tables, cursor, limit);
      var p, later := PageOf(less, tables[0], cursor, limit), tables[1..];
      WalkCons(p, Walk(less, later, p.next, limit), cursor, r, i);
      ArrivalIsSeen(less, all, later, p.next, limit, r, i - 1);
    }
  }

  /** The row is there at this request, after its cursor and not after the next one. */
  ghost predicate ShownAt<T(!new)>(less: (T, T) -> bool, tables: seq<set<T>>, walk: seq<Page<T>>, cursor: Option<T>, r: T, i: int) {
    && 0 <= i < |walk| && i < |tables| && r in tables[i] && Past(less, CursorAt(walk, cursor, i), r)
    && (walk[i].next.Some? ==> !less(walk[i].next.value, r))
  }

  lemma PageShows<T(!new)>(less: (T, T) -> bool, all: set<T>, rows: set<T>, cursor: Option<T>, limit: int, r: T)
    requires StrictTotal(less, all) && rows <= all && (cursor.Some? ==> cursor.value in all)
    ensures var p := PageOf(less, rows, cursor, limit);
            r in p.rows <==> r in rows && Past(less, cursor, r) && (p.next.Some? ==> !less(p.next.value, r))
  {
    PageBounds(less, rows, cursor, limit);
    if r in Eligible(less, rows, cursor) { PageLeaves(less, all, rows, cursor, limit, r); }
  }

  lemma ShownOnward<T(!new)>(less: (T, T) -> bool, tables: seq<set<T>>, p: Page<T>, tail: seq<Page<T>>, cursor: Option<T>, r: T)
    requires tables != []
    ensures (exists i :: ShownAt(less, tables, [p] + tail, cursor, r, i)) <==>
            ShownAt(less, tables, [p] + tail, cursor, r, 0) || exists i :: ShownAt(less, tables[1..], tail, p.next, r, i)
  {
    var walk := [p] + tail;
    forall i | i > 0
      ensures ShownAt(less, tables, walk, cursor, r, i) <==> ShownAt(less, tables[1..], tail, p.next, r, i - 1)
    {
      if i < |walk| { assert walk[i] == tail[i - 1] && CursorAt(walk, cursor, i) == CursorAt(tail, p.next, i - 1); }
    }
    if i :| ShownAt(less, tables[1..], tail, p.next, r, i) { assert ShownAt(less, tables, walk, cursor, r, i + 1); }
  }

  /**
   Whatever enters or leaves the query meanwhile, a walk shows a row exactly when it was there at a
   request whose page covers its place in the order.
   */
  lemma {:induction false} ShownExactly<T(!new)>(less: (T, T) -> bool, all: set<T>, tables: seq<set<T>>,
                                               cursor: Option<T>, limit: int, r: T)
    requires StrictTotal(less, all) && Within(tables, all) && (cursor.Some? ==> cursor.value in all)
    ensures var walk := Walk(less, tables, cursor, limit);
            r in Seen(walk) <==> exists i :: ShownAt(less, tables, walk, cursor, r, i)
    decreases |tables|
  {
    if tables != [] {
      var p, later := PageOf(less, tables[0], cursor, limit), tables[1..];
      var tail := if p.next.None? then [] else Walk(less, later, p.next, limit);
      PageBounds(less, tables[0], cursor, limit);
      PageShows(less, all, tables[0], cursor, limit, r);
      WalkStep(less, tables, cursor, limit);
      assert forall i | 0 <= i < |later| :: later[i] == tables[i + 1];
      ShownOnward(less, tables, p, tail, cursor, r);
      if p.next.Some? { ShownExactly(less, all, later, p.next, limit, r); }
    }
  }

  lemma {:induction false} SeenIsPresent<T(!new)>(less: (T, T) -> bool, all: set<T>, tables: seq<set<T>>,
                                                cursor: Option<T>, limit: int, r: T)
    requires StrictTotal(less, all) && Growing(tables, all)
    requires r in Seen(Walk(less, tables, cursor, limit))
    ensures var n := |Walk(less, tables, cursor, limit)|; 0 < n <= |tables| && r in tables[n - 1]
    decreases |tables|
  {
    WalkLength(less, tables, cursor, limit);
    if |Walk(less, tables, cursor, limit)| > 1 {
      WalkTail(less, all, tables, cursor, limit);
      var p, later := PageOf(less, tables[0], cursor, limit), tables[1..];
      if r !in p.rows { SeenIsPresent(less, all, later, p.next, limit, r); }
    } else {
      PageBounds(less, tables[0], cursor, limit);
      assert r in PageOf(less, tables[0], cursor, limit).rows + [];
    }
  }

  lemma {:induction false} CursorIsRow<T(!new)>(less: (T, T) -> bool, all: set<T>, tables: seq<set<T>>,
                                              cursor: Option<T>, limit: int, i: nat)
    requires StrictTotal(less, all) && Growing(tables, all) && 0 < i < |Walk(less, tables, cursor, limit)| && i <= |tables|
    ensures var next := CursorAt(Walk(less, tables, cursor, limit), cursor, i); next.Some? && next.value in tables[i - 1]
    decreases |tables|
  {
    WalkTail(less, all, tables, cursor, limit);
    if i == 1 {
      PageBounds(less, tables[0], cursor, limit);
    } else {
      CursorIsRow(less, all, tables[1..], PageOf(less, tables[0], cursor, limit).next, limit, i - 1);
    }
  }

  /** Rows are only ever added after those already there. */
  ghost predicate Appending<T(!new)>(less: (T, T) -> bool, tables: seq<set<T>>) {
    forall i, j, q, r | 0 <= i < j < |tables| && q in tables[i] && r in tables[j] && r !in tables[i] :: less(q, r)
  }

  ghost function FirstWith<T(!new)>(tables: seq<set<T>>, r: T, n: nat): (i: nat)
    requires n < |tables| && r in tables[n]
    ensures i <= n && r in tables[i] && forall j | 0 <= j < i :: r !in tables[j]
  {
    if n > 0 && exists j :: 0 <= j < n && r in tables[j] then
      var j :| 0 <= j < n && r in tables[j];
      FirstWith(tables, r, j)
    else n
  }

  /** The row came between this request and the one before. */
  predicate Arrives<T(!new, ==)>(tables: seq<set<T>>, i: int, r: T) {
    0 < i < |tables| && r in tables[i] && r !in tables[i - 1]
  }

  /** Every row that arrived between two requests sorts after the later one's cursor. */
  ghost predicate InTime<T(!new)>(less: (T, T) -> bool, tables: seq<set<T>>, walk: seq<Page<T>>)
    requires |walk| <= |tables|
  {
    forall i, r | Arrives(tables, i, r) && i < |walk| ::
      walk[i - 1].next.Some? && less(walk[i - 1].next.value, r)
  }

  lemma InTimeIsSeen<T(!new)>(less: (T, T) -> bool, all: set<T>, tables: seq<set<T>>, limit: int, r: T)
    requires StrictTotal(less, all) && Growing(tables, all) && Finished(Walk(less, tables, None, limit))
    requires |Walk(less, tables, None, limit)| <= |tables| && InTime(less, tables, Walk(less, tables, None, limit))
    requires r in tables[|Walk(less, tables, None, limit)| - 1]
    ensures r in Seen(Walk(less, tables, None, limit))
  {
    var walk := Walk(less, tables, None, limit);
    var i := FirstWith(tables, r, |walk| - 1);
    ArrivalIsSeen(less, all, tables, None, limit, r, i);
    if i > 0 { assert Arrives(tables, i, r); }
  }

  lemma SeenIsInTime<T(!new)>(less: (T, T) -> bool, all: set<T>, tables: seq<set<T>>, limit: int)
    requires StrictTotal(less, all) && Growing(tables, all) && Finished(Walk(less, tables, None, limit))
    requires |Walk(less, tables, None, limit)| <= |tables|
    requires forall r | r in tables[|Walk(less, tables, None, limit)| - 1] :: r in Seen(Walk(less, tables, None, limit))
    ensures InTime(less, tables, Walk(less, tables, None, limit))
  {
    var walk := Walk(less, tables, None, limit);
    forall i, r | Arrives(tables, i, r) && i < |walk|
      ensures walk[i - 1].next.Some? && less(walk[i - 1].next.value, r)
    {
      assert tables[i] <= tables[|walk| - 1];
      assert forall j | 0 <= j < i :: tables[j] <= tables[i - 1];
      ArrivalIsSeen(less, all, tables, None, limit, r, i);
      CursorIsRow(less, all, tables, None, limit, i);
    }
  }

  lemma InTimeShowsAll<T(!new)>(less: (T, T) -> bool, all: set<T>, tables: seq<set<T>>, limit: int)
    requires StrictTotal(less, all) && Growing(tables, all) && Finished(Walk(less, tables, None, limit))
    requires |Walk(less, tables, None, limit)| <= |tables| && InTime(less, tables, Walk(less, tables, None, limit))
    ensures var walk := Walk(less, tables, None, limit);
            StrictTotal(less, tables[|walk| - 1]) && Seen(walk) == Arrange(less, tables[|walk| - 1])
  {
    var seen := Seen(Walk(less, tables, None, limit));
    var last := tables[|Walk(less, tables, None, limit)| - 1];
    WalkIsExact(less, all, tables, None, limit);
    TotalOnSubset(less, all, last);
    forall r ensures r in seen <==> r in last {
      if r in seen { SeenIsPresent(less, all, tables, None, limit, r); }
      if r in last { InTimeIsSeen(less, all, tables, limit, r); }
    }
    assert Elements(seen) == last;
    ArrangeUnique(less, seen);
  }

  /**
   A finished walk has shown everything there was at its last request exactly when every row that
   arrived in between sorted after the cursor of the request that could first have met it.
   */
  lemma CompleteExactly<T(!new)>(less: (T, T) -> bool, all: set<T>, tables: seq<set<T>>, limit: int)
    requires StrictTotal(less, all) && Growing(tables, all) && Finished(Walk(less, tables, None, limit))
    ensures var walk := Walk(less, tables, None, limit);
            && |walk| <= |tables| && StrictTotal(less, tables[|walk| - 1])
            && (Seen(walk) == Arrange(less, tables[|walk| - 1]) <==> InTime(less, tables, walk))
  {
    var walk := Walk(less, tables, None, limit);
    WalkLength(less, tables, None, limit);
    TotalOnSubset(less, all, tables[|walk| - 1]);
    if InTime(less, tables, walk) { InTimeShowsAll(less, all, tables, limit); }
    if Seen(walk) == Arrange(less, tables[|walk| - 1]) {
      ArrangeMembers(less, tables[|walk| - 1]);
      SeenIsInTime(less, all, tables, limit);
    }
  }

  /** When rows arrive in order, a finished walk has shown everything there was at its last request. */
  lemma AppendsAreSeen<T(!new)>(less: (T, T) -> bool, all: set<T>, tables: seq<set<T>>, limit: int)
    requires StrictTotal(less, all) && Growing(tables, all) && Appending(less, tables)
    requires Finished(Walk(less, tables, None, limit))
    ensures var walk := Walk(less, tables, None, limit);
            && |walk| <= |tables| && StrictTotal(less, tables[|walk| - 1])
            && Seen(walk) == Arrange(less, tables[|walk| - 1])
  {
    var walk := Walk(less, tables, None, limit);
    CompleteExactly(less, all, tables, limit);
    forall i, r | Arrives(tables, i, r) && i < |walk|
      ensures walk[i - 1].next.Some? && less(walk[i - 1].next.value, r)
    {
      CursorIsRow(less, all, tables, None, limit, i);
    }
  }
}
