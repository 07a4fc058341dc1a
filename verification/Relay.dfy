/**
 The outbox relay: any number of relays drain the pending rows towards Redis, with publish
 failures and with crashes between a publication and its commit.
 */
module Relay {
  import opened Prelude

  const BATCH := 200
  const MAX_ATTEMPTS := 8

  datatype Status = Pending | Published | Failed

  datatype Row = Row(tenant: Option<Id>, createdAt: Time, status: Status, attempts: nat, publishedAt: Option<Time>)

  type Table = map<Id, Row>

  /** One relay's open transaction: the rows it locked, what Redis answered so far, and what it wrote but did not commit. */
  datatype Session = Session(batch: seq<Id>, answers: seq<bool>, writes: Table, now: Time)

  datatype State = State(rows: Table, channel: seq<Id>, sessions: map<Id, Session>)

  datatype Step =
    | Insert(id: Id, tenant: Option<Id>, createdAt: Time)
    | Begin(relay: Id, batch: seq<Id>, now: Time)
    | Publish(relay: Id, ok: bool)
    | Commit(relay: Id)
    | Crash(relay: Id)

  // ---------------------------------------------------------------- one row, one pass

  /** A row without a tenant has no channel; a failed publication is retried up to the cap. */
  function Process(row: Row, ok: bool, now: Time): Row {
    if row.tenant.None? || ok then row.(status := Published, publishedAt := Some(now))
    else row.(attempts := row.attempts + 1,
              status := if row.attempts + 1 >= MAX_ATTEMPTS then Failed else row.status)
  }

  predicate Sent(row: Row, ok: bool) {
    row.tenant.Some? && ok
  }

  predicate Distinct(ids: seq<Id>) {
    forall i, j | 0 <= i < j < |ids| :: ids[i] != ids[j]
  }

  function Waiting(rows: Table, locked: set<Id>): set<Id> {
    set id | id in rows && rows[id].status == Pending && id !in locked
  }

  /** The oldest unlocked pending rows, as many as fit: `ORDER BY created_at LIMIT n SKIP LOCKED`. */
  ghost predicate IsBatch(rows: Table, locked: set<Id>, batch: seq<Id>) {
    var waiting := Waiting(rows, locked);
    && Distinct(batch) && |batch| <= BATCH
    && (forall i | 0 <= i < |batch| :: batch[i] in rows && batch[i] in waiting)
    && (forall i, j | 0 <= i < j < |batch| :: rows[batch[i]].createdAt <= rows[batch[j]].createdAt)
    && (forall id | id in waiting && id !in batch ::
          |batch| == BATCH && forall b | b in batch :: rows[b].createdAt <= rows[id].createdAt)
  }

  /** A whole committed pass, row after row. */
  function Pass(rows: Table, batch: seq<Id>, oks: seq<bool>, now: Time): Table
    requires |batch| == |oks| && forall i | 0 <= i < |batch| :: batch[i] in rows
  {
    if batch == [] then rows
    else Pass(rows[batch[0] := Process(rows[batch[0]], oks[0], now)], batch[1..], oks[1..], now)
  }

  lemma {:induction false} DistinctCount(ids: seq<Id>)
    requires Distinct(ids)
    ensures |set id | id in ids| == |ids|
  {
    if ids != [] {
      var last := |ids| - 1;
      DistinctCount(ids[..last]);
      assert (set id | id in ids) == (set id | id in ids[..last]) + {ids[last]};
      assert ids[last] !in ids[..last];
    }
  }

  lemma {:induction false} Subset(a: set<Id>, b: set<Id>)
    requires a <= b
    ensures |a| <= |b|
    ensures |a| == |b| ==> a == b
  {
    if a != {} {
      var x := Pick(a);
      Subset(a - {x}, b - {x});
    }
  }

  /**
   A batch holds as many of the pending unlocked rows as there are, two hundred at most, each once, oldest first;
   and with a row it holds every older one.
   */
  lemma BatchTakesTheOldest(rows: Table, locked: set<Id>, batch: seq<Id>)
    requires IsBatch(rows, locked, batch)
    ensures var waiting := set id | id in rows && rows[id].status == Pending && id !in locked;
            && |batch| == (if |waiting| < 200 then |waiting| else 200)
            && (forall i | 0 <= i < |batch| :: batch[i] in waiting)
            && (forall i, j | 0 <= i < j < |batch| :: batch[i] != batch[j] && rows[batch[i]].createdAt <= rows[batch[j]].createdAt)
            && (forall id, b | id in waiting && b in batch && rows[id].createdAt < rows[b].createdAt :: id in batch)
  {
    var waiting, taken := Waiting(rows, locked), set id | id in batch;
    assert waiting == set id | id in rows && rows[id].status == Pending && id !in locked;
    DistinctCount(batch);
    assert forall i | 0 <= i < |batch| :: batch[i] in batch;
    Subset(taken, waiting);
    if forall id | id in waiting :: id in batch {
      assert waiting == taken;
    }
  }

  // ---------------------------------------------------------------- interleaved relays

  function LockedBy(s: State): set<Id> {
    set r, id | r in s.sessions && id in s.sessions[r].batch :: id
  }

  ghost predicate Enabled(s: State, step: Step) {
    match step
    case Insert(id, _, _) => id !in s.rows
    case Begin(r, batch, _) => r !in s.sessions && batch != [] && IsBatch(s.rows, LockedBy(s), batch)
    case Publish(r, _) => r in s.sessions && |s.sessions[r].answers| < |s.sessions[r].batch|
                          && s.sessions[r].batch[|s.sessions[r].answers|] in s.rows
    case Commit(r) => r in s.sessions && |s.sessions[r].answers| == |s.sessions[r].batch|
    case Crash(r) => r in s.sessions
  }

  ghost function Next(s: State, step: Step): State
    requires Enabled(s, step)
  {
    match step
    case Insert(id, tenant, createdAt) => s.(rows := s.rows[id := Row(tenant, createdAt, Pending, 0, None)])
    case Begin(r, batch, now) => s.(sessions := s.sessions[r := Session(batch, [], map[], now)])
    case Publish(r, ok) =>
      var t := s.sessions[r];
      var id := t.batch[|t.answers|];
      var t' := t.(answers := t.answers + [ok], writes := t.writes[id := Process(s.rows[id], ok, t.now)]);
      s.(sessions := s.sessions[r := t'],
         channel := if Sent(s.rows[id], ok) then s.channel + [id] else s.channel)
    case Commit(r) => s.(rows := s.rows + s.sessions[r].writes, sessions := s.sessions - {r})
    case Crash(r) => s.(sessions := s.sessions - {r})
  }

  ghost predicate Runs(s: State, steps: seq<Step>)
    decreases |steps|
  {
    steps == [] || (Enabled(s, steps[0]) && Runs(Next(s, steps[0]), steps[1..]))
  }

  ghost function After(s: State, steps: seq<Step>): State
    requires Runs(s, steps)
    decreases |steps|
  {
    if steps == [] then s else After(Next(s, steps[0]), steps[1..])
  }

  // ---------------------------------------------------------------- nothing is lost

  /** Waiting with tries left, given up after exactly the cap, or delivered before it. */
  predicate Accounted(id: Id, row: Row, channel: seq<Id>) {
    && (row.tenant.None? ==> row.attempts == 0)
    && match row.status
       case Pending => row.attempts < 8
       case Failed => row.attempts == 8
       case Published => row.attempts < 8 && (row.tenant.None? || id in channel)
  }

  ghost predicate SessionOk(s: State, r: Id)
    requires r in s.sessions
  {
    var t := s.sessions[r];
    && t.batch != [] && |t.answers| <= |t.batch| && Distinct(t.batch)
    && (forall id | id in t.batch :: id in s.rows && s.rows[id].status == Pending)
    && (forall id | id in t.writes :: id in t.batch && Accounted(id, t.writes[id], s.channel))
    && (forall i | 0 <= i < |t.answers| ::
          t.batch[i] in s.rows && t.batch[i] in t.writes && t.writes[t.batch[i]] == Process(s.rows[t.batch[i]], t.answers[i], t.now))
    && (forall i | |t.answers| <= i < |t.batch| :: t.batch[i] !in t.writes)
  }

  ghost predicate Inv(s: State) {
    && (forall id | id in s.rows :: Accounted(id, s.rows[id], s.channel))
    && (forall r | r in s.sessions :: SessionOk(s, r))
    && (forall r, q, id | r in s.sessions && q in s.sessions && r != q && id in s.sessions[r].batch ::
          id !in s.sessions[q].batch)
  }

  /** A session is untouched by what happens to rows it has not locked. */
  lemma SessionStays(s: State, s': State, r: Id)
    requires r in s.sessions && SessionOk(s, r) && r in s'.sessions && s'.sessions[r] == s.sessions[r]
    requires forall id | id in s.sessions[r].batch :: id in s'.rows && s'.rows[id] == s.rows[id]
    requires forall id | id in s.channel :: id in s'.channel
    ensures SessionOk(s', r)
  {
    assert forall i | 0 <= i < |s.sessions[r].batch| :: s.sessions[r].batch[i] in s.sessions[r].batch;
  }

  lemma InsertKeepsInv(s: State, id: Id, tenant: Option<Id>, createdAt: Time)
    requires Inv(s) && Enabled(s, Insert(id, tenant, createdAt))
    ensures Inv(Next(s, Insert(id, tenant, createdAt)))
  {
    var s' := Next(s, Insert(id, tenant, createdAt));
    forall r | r in s'.sessions ensures SessionOk(s', r) {
      assert SessionOk(s, r);
      SessionStays(s, s', r);
    }
  }

  lemma BeginKeepsInv(s: State, r: Id, batch: seq<Id>, now: Time)
    requires Inv(s) && Enabled(s, Begin(r, batch, now))
    ensures Inv(Next(s, Begin(r, batch, now)))
  {
    var s' := Next(s, Begin(r, batch, now));
    forall q | q in s'.sessions ensures SessionOk(s', q) {
      if q != r {
        assert SessionOk(s, q);
        SessionStays(s, s', q);
      }
    }
    assert forall q, id | q in s.sessions && id in s.sessions[q].batch :: id in LockedBy(s);
  }

  lemma PublishKeepsOwn(s: State, r: Id, ok: bool)
    requires Inv(s) && Enabled(s, Publish(r, ok))
    ensures SessionOk(Next(s, Publish(r, ok)), r)
  {
    var s' := Next(s, Publish(r, ok));
    var t, t' := s.sessions[r], s'.sessions[r];
    var n, id := |t.answers|, t.batch[|t.answers|];
    assert SessionOk(s, r) && id in t.batch;
    assert Accounted(id, s.rows[id], s.channel);
    assert Sent(s.rows[id], ok) ==> s'.channel[|s.channel|] == id;
    assert forall x | x in s.channel :: x in s'.channel;
    forall i | 0 <= i < |t'.answers|
      ensures t'.writes[t'.batch[i]] == Process(s.rows[t'.batch[i]], t'.answers[i], t'.now)
    {
      if i < n { assert t'.batch[i] != id; }
    }
    assert forall i | n < i < |t'.batch| :: t'.batch[i] != id;
  }

  lemma PublishKeepsInv(s: State, r: Id, ok: bool)
    requires Inv(s) && Enabled(s, Publish(r, ok))
    ensures Inv(Next(s, Publish(r, ok)))
  {
    var s' := Next(s, Publish(r, ok));
    assert forall x | x in s.channel :: x in s'.channel;
    forall q | q in s'.sessions
      ensures SessionOk(s', q)
    {
      assert SessionOk(s, q);
      if q == r { PublishKeepsOwn(s, r, ok); } else { SessionStays(s, s', q); }
    }
  }

  lemma CommitKeepsInv(s: State, r: Id)
    requires Inv(s) && Enabled(s, Commit(r))
    ensures Inv(Next(s, Commit(r)))
  {
    var s', t := Next(s, Commit(r)), s.sessions[r];
    assert SessionOk(s, r);
    forall q | q in s'.sessions
      ensures SessionOk(s', q)
    {
      assert SessionOk(s, q);
      assert forall id | id in s.sessions[q].batch :: id !in t.writes && s'.rows[id] == s.rows[id];
      SessionStays(s, s', q);
    }
  }

  lemma StepKeepsInv(s: State, step: Step)
    requires Inv(s) && Enabled(s, step)
    ensures Inv(Next(s, step))
  {
    match step
    case Insert(id, tenant, createdAt) => InsertKeepsInv(s, id, tenant, createdAt);
    case Begin(r, batch, now) => BeginKeepsInv(s, r, batch, now);
    case Publish(r, ok) => PublishKeepsInv(s, r, ok);
    case Commit(r) => CommitKeepsInv(s, r);
    case Crash(r) =>
      forall q | q in Next(s, step).sessions ensures SessionOk(Next(s, step), q) {
        assert SessionOk(s, q);
        SessionStays(s, Next(s, step), q);
      }
  }

  /** Every row ever inserted is pending below the cap, failed at the cap, or delivered. */
  lemma {:induction false} NothingIsLost(s: State, steps: seq<Step>)
    requires Inv(s) && Runs(s, steps)
    ensures Inv(After(s, steps))
    ensures forall id | id in s.rows :: id in After(s, steps).rows
    ensures forall id | id in s.rows && s.rows[id].status != Pending :: After(s, steps).rows[id] == s.rows[id]
    ensures forall id | id in s.channel :: id in After(s, steps).channel
    decreases |steps|
  {
    if steps != [] {
      var s' := Next(s, steps[0]);
      StepKeepsInv(s, steps[0]);
      if steps[0].Commit? {
        var t := s.sessions[steps[0].relay];
        assert SessionOk(s, steps[0].relay);
        assert forall id | id in t.writes :: s.rows[id].status == Pending;
      }
      NothingIsLost(s', steps[1..]);
    }
  }

  // ---------------------------------------------------------------- exactly once without crashes

  function Times(channel: seq<Id>, id: Id): nat {
    multiset(channel)[id]
  }

  /** An uncommitted write claims the row to have been sent. */
  ghost predicate ClaimedBy(s: State, r: Id, id: Id) {
    r in s.sessions && id in s.sessions[r].writes
    && s.sessions[r].writes[id].status == Published && s.sessions[r].writes[id].tenant.Some?
  }

  /** The row itself, or an uncommitted write of it, claims to have been sent. */
  ghost predicate Claimed(s: State, id: Id) {
    || (id in s.rows && s.rows[id].status == Published && s.rows[id].tenant.Some?)
    || exists r :: ClaimedBy(s, r, id)
  }

  ghost predicate OncePerRow(s: State) {
    forall id :: Times(s.channel, id) == if Claimed(s, id) then 1 else 0
  }

  lemma PublishKeepsOnce(s: State, r: Id, ok: bool)
    requires Inv(s) && OncePerRow(s) && Enabled(s, Publish(r, ok))
    ensures OncePerRow(Next(s, Publish(r, ok)))
  {
    var s', t := Next(s, Publish(r, ok)), s.sessions[r];
    var mine := t.batch[|t.answers|];
    assert SessionOk(s, r) && mine in t.batch;
    forall q | q in s.sessions && q != r ensures mine !in s.sessions[q].writes && mine !in s'.sessions[q].writes {
      assert SessionOk(s, q);
    }
    assert !Claimed(s, mine);
    assert s'.sessions[r].writes[mine] == Process(s.rows[mine], ok, t.now);
    forall id ensures Times(s'.channel, id) == if Claimed(s', id) then 1 else 0 {
      assert Times(s'.channel, id) == Times(s.channel, id) + if id == mine && Sent(s.rows[id], ok) then 1 else 0;
      if id != mine {
        ClaimElsewhere(s, s', r, id);
      } else {
        assert ClaimedBy(s', r, mine) <==> Sent(s.rows[mine], ok);
        assert forall q | q != r :: !ClaimedBy(s', q, mine);
      }
    }
  }

  lemma CommitKeepsClaims(s: State, r: Id, id: Id)
    requires Inv(s) && Enabled(s, Commit(r))
    ensures Claimed(Next(s, Commit(r)), id) <==> Claimed(s, id)
  {
    var s', t := Next(s, Commit(r)), s.sessions[r];
    assert SessionOk(s, r);
    if id in t.writes {
      forall q | q in s.sessions && q != r ensures id !in s.sessions[q].writes {
        assert SessionOk(s, q);
      }
      assert s'.rows[id] == t.writes[id] && id in t.batch && id in s.rows;
      assert ClaimedBy(s, r, id) <==> t.writes[id].status == Published && t.writes[id].tenant.Some?;
      assert forall q | q != r :: !ClaimedBy(s, q, id) && !ClaimedBy(s', q, id);
    } else {
      assert forall q | q != r :: ClaimedBy(s', q, id) <==> ClaimedBy(s, q, id);
      assert id in s.rows <==> id in s'.rows;
    }
  }

  lemma StepKeepsOnce(s: State, step: Step)
    requires Inv(s) && OncePerRow(s) && Enabled(s, step) && !step.Crash?
    requires forall id | id in s.channel :: id in s.rows
    ensures OncePerRow(Next(s, step))
    ensures forall id | id in Next(s, step).channel :: id in Next(s, step).rows
  {
    var s' := Next(s, step);
    match step
    case Publish(r, ok) => PublishKeepsOnce(s, r, ok);
    case Commit(r) =>
      forall id ensures Claimed(s', id) <==> Claimed(s, id) { CommitKeepsClaims(s, r, id); }
    case Insert(newId, _, _) =>
      forall q | q in s.sessions ensures newId !in s.sessions[q].writes { assert SessionOk(s, q); }
      assert forall id, q :: ClaimedBy(s', q, id) <==> ClaimedBy(s, q, id);
    case Begin(r, _, _) =>
      assert forall id, q :: ClaimedBy(s', q, id) <==> ClaimedBy(s, q, id);
  }

  lemma ClaimElsewhere(s: State, s': State, r: Id, id: Id)
    requires s'.rows == s.rows && r in s.sessions && s'.sessions.Keys == s.sessions.Keys
    requires forall q | q in s.sessions && q != r :: s'.sessions[q] == s.sessions[q]
    requires id in s'.sessions[r].writes <==> id in s.sessions[r].writes
    requires id in s.sessions[r].writes ==> s'.sessions[r].writes[id] == s.sessions[r].writes[id]
    ensures Claimed(s, id) <==> Claimed(s', id)
  {
    assert forall q :: ClaimedBy(s, q, id) <==> ClaimedBy(s', q, id);
  }

  ghost predicate NoCrash(steps: seq<Step>) {
    forall i | 0 <= i < |steps| :: !steps[i].Crash?
  }

  /** Duplicates come from crashes only: without them, each delivered row is sent exactly once. */
  lemma {:induction false} ExactlyOnceWithoutCrash(s: State, steps: seq<Step>)
    requires Inv(s) && OncePerRow(s) && (forall id | id in s.channel :: id in s.rows)
    requires Runs(s, steps) && NoCrash(steps)
    ensures OncePerRow(After(s, steps))
    ensures forall id | id in After(s, steps).rows && After(s, steps).rows[id].status == Published ::
              Times(After(s, steps).channel, id) == if After(s, steps).rows[id].tenant.Some? then 1 else 0
    decreases |steps|
  {
    if steps == [] {
      forall id | id in s.rows && s.rows[id].status == Published && s.rows[id].tenant.None?
        ensures !Claimed(s, id)
      {
        forall r | r in s.sessions ensures id !in s.sessions[r].writes { assert SessionOk(s, r); }
      }
    } else {
      StepKeepsInv(s, steps[0]);
      StepKeepsOnce(s, steps[0]);
      ExactlyOnceWithoutCrash(Next(s, steps[0]), steps[1..]);
    }
  }

  const EMPTY := State(map[], [], map[])

  /** The account of a whole life of the outbox, from its first row on. */
  lemma EveryRowIsAccountedFor(steps: seq<Step>)
    requires Runs(EMPTY, steps)
    ensures var s := After(EMPTY, steps);
            && (forall id | id in s.rows :: Accounted(id, s.rows[id], s.channel))
            && (NoCrash(steps) ==>
                  forall id | id in s.rows && s.rows[id].status == Published && s.rows[id].tenant.Some? ::
                    Times(s.channel, id) == 1)
  {
    assert OncePerRow(EMPTY);
    NothingIsLost(EMPTY, steps);
    if NoCrash(steps) {
      ExactlyOnceWithoutCrash(EMPTY, steps);
    }
  }

  // ---------------------------------------------------------------- giving up

  /** The session got a refusal for this row. */
  ghost predicate FailsIn(t: Session, id: Id) {
    exists i :: 0 <= i < |t.answers| && i < |t.batch| && t.batch[i] == id && !t.answers[i]
  }

  /** The committed passes of a run in which the row's publication failed. */
  ghost function Failures(s: State, steps: seq<Step>, id: Id): nat
    requires Runs(s, steps)
    decreases |steps|
  {
    if steps == [] then 0
    else (if steps[0].Commit? && FailsIn(s.sessions[steps[0].relay], id) then 1 else 0) + Failures(Next(s, steps[0]), steps[1..], id)
  }

  /** What a commit makes of a row: untouched, or processed with the one answer it got. */
  lemma CommitOfRow(s: State, r: Id, id: Id)
    requires Inv(s) && Enabled(s, Commit(r)) && id in s.rows && s.rows[id].tenant.Some?
    ensures var t, row, row' := s.sessions[r], s.rows[id], Next(s, Commit(r)).rows[id];
            && (FailsIn(t, id) ==> row.status == Pending && row' == Process(row, false, t.now))
            && (!FailsIn(t, id) ==> row' == row || (row.status == Pending && row' == Process(row, true, t.now)))
  {
    var t := s.sessions[r];
    assert SessionOk(s, r);
    if FailsIn(t, id) {
      var i :| 0 <= i < |t.answers| && t.batch[i] == id && !t.answers[i];
      assert t.writes[t.batch[i]] == Process(s.rows[t.batch[i]], t.answers[i], t.now) && id in t.batch;
    } else if id in t.writes {
      var i :| 0 <= i < |t.batch| && t.batch[i] == id;
      assert t.writes[t.batch[i]] == Process(s.rows[t.batch[i]], t.answers[i], t.now);
    }
  }

  /** A row is given up by a commit alone, and exactly when that commit's publication of it failed for the eighth time. */
  lemma GivenUpExactly(s: State, step: Step, id: Id)
    requires Inv(s) && Enabled(s, step) && id in s.rows
    ensures id in Next(s, step).rows
    ensures s.rows[id].status != Failed && Next(s, step).rows[id].status == Failed <==>
            step.Commit? && s.rows[id].tenant.Some? && FailsIn(s.sessions[step.relay], id) && s.rows[id].attempts == 7
  {
    if step.Commit? {
      if s.rows[id].tenant.Some? {
        CommitOfRow(s, step.relay, id);
      } else {
        var t := s.sessions[step.relay];
        assert SessionOk(s, step.relay);
        if id in t.writes {
          var i :| 0 <= i < |t.batch| && t.batch[i] == id;
          assert t.writes[t.batch[i]] == Process(s.rows[t.batch[i]], t.answers[i], t.now);
        }
      }
      assert Accounted(id, s.rows[id], s.channel);
    }
  }

  lemma NewRowHasNoFailures(s: State, step: Step, id: Id)
    requires Inv(s) && Enabled(s, step) && id !in s.rows
    ensures step.Commit? ==> !FailsIn(s.sessions[step.relay], id)
    ensures id in Next(s, step).rows ==> Next(s, step).rows[id].attempts == 0
  {
    if step.Commit? {
      var t := s.sessions[step.relay];
      assert SessionOk(s, step.relay);
      assert forall i | 0 <= i < |t.batch| :: t.batch[i] in t.batch;
    }
  }

  function AttemptsOf(s: State, id: Id): nat {
    if id in s.rows then s.rows[id].attempts else 0
  }

  /** A row's attempts are the committed passes in which its publication failed. */
  lemma {:induction false} AttemptsAreFailures(s: State, steps: seq<Step>, id: Id)
    requires Inv(s) && Runs(s, steps)
    requires id in After(s, steps).rows && After(s, steps).rows[id].tenant.Some?
    ensures After(s, steps).rows[id].attempts == AttemptsOf(s, id) + Failures(s, steps, id)
    decreases |steps|
  {
    if steps != [] {
      var s' := Next(s, steps[0]);
      StepKeepsInv(s, steps[0]);
      AttemptsAreFailures(s', steps[1..], id);
      if id in s.rows {
        TenantStays(s, steps, id);
        if steps[0].Commit? { CommitOfRow(s, steps[0].relay, id); }
      } else {
        NewRowHasNoFailures(s, steps[0], id);
      }
    }
  }

  lemma {:induction false} TenantStays(s: State, steps: seq<Step>, id: Id)
    requires Inv(s) && Runs(s, steps) && id in s.rows
    ensures id in After(s, steps).rows && After(s, steps).rows[id].tenant == s.rows[id].tenant
    decreases |steps|
  {
    if steps != [] {
      StepKeepsInv(s, steps[0]);
      if steps[0].Commit? {
        var t := s.sessions[steps[0].relay];
        assert SessionOk(s, steps[0].relay);
        if id in t.writes {
          var i :| 0 <= i < |t.batch| && t.batch[i] == id;
          assert t.writes[t.batch[i]] == Process(s.rows[t.batch[i]], t.answers[i], t.now);
        }
      }
      TenantStays(Next(s, steps[0]), steps[1..], id);
    }
  }

  /** Over any life of the outbox, a row is given up exactly when its publication failed in eight committed passes. */
  lemma FailedMeansEightFailures(steps: seq<Step>, id: Id)
    requires Runs(EMPTY, steps)
    requires id in After(EMPTY, steps).rows && After(EMPTY, steps).rows[id].tenant.Some?
    ensures After(EMPTY, steps).rows[id].attempts == Failures(EMPTY, steps, id) <= 8
    ensures After(EMPTY, steps).rows[id].status == Failed <==> Failures(EMPTY, steps, id) == 8
  {
    AttemptsAreFailures(EMPTY, steps, id);
    NothingIsLost(EMPTY, steps);
    assert Accounted(id, After(EMPTY, steps).rows[id], After(EMPTY, steps).channel);
  }

  lemma RunFrom(s: State, step: Step, rest: seq<Step>)
    requires Enabled(s, step) && Runs(Next(s, step), rest)
    ensures Runs(s, [step] + rest) && After(s, [step] + rest) == After(Next(s, step), rest)
  {
    assert ([step] + rest)[0] == step && ([step] + rest)[1..] == rest;
  }

  /** One refused pass over a row that waits alone. */
  lemma RefusedRound(s: State, id: Id, relay: Id, now: Time)
    requires s.sessions == map[] && s.rows.Keys == {id} && s.rows[id].status == Pending && s.rows[id].tenant.Some?
    ensures var begun := Begin(relay, [id], now);
            && Enabled(s, begun) && Enabled(Next(s, begun), Publish(relay, false))
            && Enabled(Next(Next(s, begun), Publish(relay, false)), Commit(relay))
            && var s' := Next(Next(Next(s, begun), Publish(relay, false)), Commit(relay));
               s'.sessions == map[] && s'.channel == s.channel && s'.rows == map[id := Process(s.rows[id], false, now)]
  {
    assert Waiting(s.rows, LockedBy(s)) == {id};
  }

  /** Refused round after round until the cap: the row is lost to its tenant. */
  lemma {:induction false} RefusedUntilFailed(s: State, id: Id, relay: Id, now: Time) returns (steps: seq<Step>)
    requires s.sessions == map[] && s.rows.Keys == {id} && s.rows[id].status == Pending && s.rows[id].tenant.Some?
    requires s.rows[id].attempts < MAX_ATTEMPTS
    ensures Runs(s, steps) && |steps| == 3 * (MAX_ATTEMPTS - s.rows[id].attempts)
    ensures id in After(s, steps).rows && After(s, steps).rows[id].status == Failed && After(s, steps).channel == s.channel
    decreases MAX_ATTEMPTS - s.rows[id].attempts
  {
    RefusedRound(s, id, relay, now);
    var s1 := Next(s, Begin(relay, [id], now));
    var s2 := Next(s1, Publish(relay, false));
    var s3 := Next(s2, Commit(relay));
    var rest: seq<Step> := [];
    if s.rows[id].attempts + 1 < MAX_ATTEMPTS {
      rest := RefusedUntilFailed(s3, id, relay, now);
    }
    RunFrom(s2, Commit(relay), rest);
    RunFrom(s1, Publish(relay, false), [Commit(relay)] + rest);
    RunFrom(s, Begin(relay, [id], now), [Publish(relay, false)] + ([Commit(relay)] + rest));
    steps := [Begin(relay, [id], now)] + ([Publish(relay, false)] + ([Commit(relay)] + rest));
  }

  /** The row that is never delivered: inserted, refused in eight passes, marked failed, absent from the channel. */
  lemma ARowIsGivenUp(id: Id, tenant: Id, relay: Id, now: Time) returns (steps: seq<Step>)
    ensures Runs(EMPTY, steps) && |steps| == 25
    ensures id in After(EMPTY, steps).rows && After(EMPTY, steps).rows[id].status == Failed
    ensures After(EMPTY, steps).channel == []
  {
    var first := Insert(id, Some(tenant), now);
    var rest := RefusedUntilFailed(Next(EMPTY, first), id, relay, now);
    RunFrom(EMPTY, first, rest);
    steps := [first] + rest;
  }

  // ---------------------------------------------------------------- termination

  /** Publication attempts a row can still absorb. */
  function Tries(row: Row): nat {
    if row.status == Pending && row.attempts < MAX_ATTEMPTS then MAX_ATTEMPTS - row.attempts else 0
  }

  ghost function Work(rows: Table): nat {
    WorkOver(rows, rows.Keys)
  }

  ghost function WorkOver(rows: Table, ids: set<Id>): nat
    requires ids <= rows.Keys
  {
    if ids == {} then 0 else Tries(rows[Pick(ids)]) + WorkOver(rows, ids - {Pick(ids)})
  }

  lemma {:induction false} WorkSplit(rows: Table, ids: set<Id>, id: Id)
    requires ids <= rows.Keys && id in ids
    ensures WorkOver(rows, ids) == Tries(rows[id]) + WorkOver(rows, ids - {id})
  {
    var x := Pick(ids);
    if x != id {
      WorkSplit(rows, ids - {x}, id);
      WorkSplit(rows, ids - {id}, x);
      assert ids - {x} - {id} == ids - {id} - {x};
    }
  }

  lemma {:induction false} WorkFrame(rows: Table, rows': Table, ids: set<Id>)
    requires ids <= rows.Keys && ids <= rows'.Keys && forall id | id in ids :: rows[id] == rows'[id]
    ensures WorkOver(rows, ids) == WorkOver(rows', ids)
  {
    if ids != {} {
      var id := Pick(ids);
      WorkFrame(rows, rows', ids - {id});
      WorkSplit(rows', ids, id);
    }
  }

  /** Writing one row changes the work by what that row's tries change. */
  lemma WorkUpdate(rows: Table, id: Id, row: Row)
    ensures Work(rows[id := row]) == Work(rows) + Tries(row) - (if id in rows then Tries(rows[id]) else 0)
  {
    var rows' := rows[id := row];
    var others := rows.Keys - {id};
    assert rows'.Keys - {id} == others;
    WorkSplit(rows', rows'.Keys, id);
    WorkFrame(rows, rows', others);
    if id in rows {
      WorkSplit(rows, rows.Keys, id);
    } else {
      assert rows.Keys == others;
    }
  }

  /** Processing a waiting row always uses up at least one of its tries, whatever Redis answers. */
  lemma PassUsesTries(rows: Table, batch: seq<Id>, oks: seq<bool>, now: Time)
    requires |batch| == |oks| && Distinct(batch)
    requires forall i | 0 <= i < |batch| :: batch[i] in rows && rows[batch[i]].status == Pending && rows[batch[i]].attempts < MAX_ATTEMPTS
    ensures Work(Pass(rows, batch, oks, now)) + |batch| <= Work(rows)
    decreases |batch|
  {
    if batch != [] {
      var row := Process(rows[batch[0]], oks[0], now);
      WorkUpdate(rows, batch[0], row);
      PassUsesTries(rows[batch[0] := row], batch[1..], oks[1..], now);
    }
  }

  /** A pass rewrites exactly its batch. */
  lemma {:induction false} PassPointwise(rows: Table, batch: seq<Id>, oks: seq<bool>, now: Time)
    requires |batch| == |oks| && Distinct(batch) && forall i | 0 <= i < |batch| :: batch[i] in rows
    ensures Pass(rows, batch, oks, now).Keys == rows.Keys
    ensures forall i | 0 <= i < |batch| :: Pass(rows, batch, oks, now)[batch[i]] == Process(rows[batch[i]], oks[i], now)
    ensures forall id | id in rows && id !in batch :: Pass(rows, batch, oks, now)[id] == rows[id]
    decreases |batch|
  {
    if batch != [] {
      var rows' := rows[batch[0] := Process(rows[batch[0]], oks[0], now)];
      PassPointwise(rows', batch[1..], oks[1..], now);
      assert batch[0] !in batch[1..];
      forall i | 0 < i < |batch|
        ensures Pass(rows, batch, oks, now)[batch[i]] == Process(rows[batch[i]], oks[i], now)
      {
        assert batch[1..][i - 1] == batch[i];
      }
    }
  }

  datatype Committed = Committed(batch: seq<Id>, oks: seq<bool>, now: Time)

  /** A chain of committed, non-empty passes with no insertion in between. */
  ghost predicate Chain(rows: Table, passes: seq<Committed>)
    decreases |passes|
  {
    passes != [] ==>
      var p := passes[0];
      && p.batch != [] && |p.oks| == |p.batch| && IsBatch(rows, {}, p.batch)
      && Chain(Pass(rows, p.batch, p.oks, p.now), passes[1..])
  }

  ghost function ChainEnd(rows: Table, passes: seq<Committed>): Table
    requires Chain(rows, passes)
    decreases |passes|
  {
    if passes == [] then rows
    else ChainEnd(Pass(rows, passes[0].batch, passes[0].oks, passes[0].now), passes[1..])
  }

  ghost predicate BelowCap(rows: Table) {
    forall id | id in rows && rows[id].status == Pending :: rows[id].attempts < MAX_ATTEMPTS
  }

  lemma PassKeepsBelowCap(rows: Table, batch: seq<Id>, oks: seq<bool>, now: Time)
    requires |batch| == |oks| && IsBatch(rows, {}, batch) && BelowCap(rows)
    ensures BelowCap(Pass(rows, batch, oks, now))
  {
    PassPointwise(rows, batch, oks, now);
    var rows' := Pass(rows, batch, oks, now);
    forall id | id in rows' && rows'[id].status == Pending
      ensures rows'[id].attempts < MAX_ATTEMPTS
    {
      if id in batch {
        var i :| 0 <= i < |batch| && batch[i] == id;
        assert rows'[batch[i]] == Process(rows[batch[i]], oks[i], now);
      }
    }
  }

  /**
   The drain ends whatever Redis answers: there are never more non-empty passes than tries, and
   as long as a row is pending another pass is possible.
   */
  lemma {:induction false} DrainEnds(rows: Table, passes: seq<Committed>)
    requires BelowCap(rows) && Chain(rows, passes)
    ensures |passes| + Work(ChainEnd(rows, passes)) <= Work(rows)
    ensures |passes| == Work(rows) ==> Waiting(ChainEnd(rows, passes), {}) == {}
    ensures IsBatch(ChainEnd(rows, passes), {}, []) <==> Waiting(ChainEnd(rows, passes), {}) == {}
    decreases |passes|
  {
    if passes == [] {
      if Waiting(rows, {}) != {} {
        WorkSplit(rows, rows.Keys, Pick(Waiting(rows, {})));
      }
    } else {
      var p := passes[0];
      PassUsesTries(rows, p.batch, p.oks, p.now);
      PassKeepsBelowCap(rows, p.batch, p.oks, p.now);
      DrainEnds(Pass(rows, p.batch, p.oks, p.now), passes[1..]);
    }
  }

  // ---------------------------------------------------------------- commits are serial passes

  /** However relays interleave, a commit has the effect of one undisturbed pass with the answers Redis gave. */
  lemma CommitIsPass(s: State, relay: Id)
    requires Inv(s) && Enabled(s, Commit(relay))
    ensures var t := s.sessions[relay];
            && |t.answers| == |t.batch| && (forall i | 0 <= i < |t.batch| :: t.batch[i] in s.rows)
            && Next(s, Commit(relay)).rows == Pass(s.rows, t.batch, t.answers, t.now)
            && forall i | 0 <= i < |t.batch| && Sent(s.rows[t.batch[i]], t.answers[i]) :: t.batch[i] in s.channel
  {
    var t := s.sessions[relay];
    assert SessionOk(s, relay);
    assert forall i | 0 <= i < |t.batch| :: t.batch[i] in t.batch && t.batch[i] in t.writes;
    PassPointwise(s.rows, t.batch, t.answers, t.now);
    assert forall id | id in t.writes :: id in t.batch && id in s.rows;
    var direct, merged := Pass(s.rows, t.batch, t.answers, t.now), s.rows + t.writes;
    assert merged.Keys == s.rows.Keys;
    forall id | id in merged
      ensures merged[id] == direct[id]
    {
      if id in t.batch {
        var i :| 0 <= i < |t.batch| && t.batch[i] == id;
        assert direct[t.batch[i]] == Process(s.rows[t.batch[i]], t.answers[i], t.now);
      }
    }
    forall i | 0 <= i < |t.batch| && Sent(s.rows[t.batch[i]], t.answers[i])
      ensures t.batch[i] in s.channel
    {
      assert Accounted(t.batch[i], t.writes[t.batch[i]], s.channel);
    }
  }

  function CountInserts(steps: seq<Step>): nat {
    if steps == [] then 0 else (if steps[0].Insert? then 1 else 0) + CountInserts(steps[1..])
  }

  function CountCommits(steps: seq<Step>): nat {
    if steps == [] then 0 else (if steps[0].Commit? then 1 else 0) + CountCommits(steps[1..])
  }

  /** Over any run, committed passes are paid for by the tries of the rows present or inserted. */
  lemma {:induction false} CommitsAreBounded(s: State, steps: seq<Step>)
    requires Inv(s) && Runs(s, steps)
    ensures CountCommits(steps) + Work(After(s, steps).rows) <= Work(s.rows) + 8 * CountInserts(steps)
    decreases |steps|
  {
    if steps != [] {
      var s' := Next(s, steps[0]);
      StepKeepsInv(s, steps[0]);
      match steps[0] {
        case Insert(id, tenant, createdAt) => WorkUpdate(s.rows, id, Row(tenant, createdAt, Pending, 0, None));
        case Commit(r) =>
          CommitIsPass(s, r);
          var t := s.sessions[r];
          assert SessionOk(s, r);
          assert forall i | 0 <= i < |t.batch| :: t.batch[i] in t.batch;
          PassUsesTries(s.rows, t.batch, t.answers, t.now);
        case _ =>
      }
      CommitsAreBounded(s', steps[1..]);
    }
  }

  // ---------------------------------------------------------------- the relay itself

  /** The rows of a batch that reached the channel, in order. */
  function SentIn(rows: Table, batch: seq<Id>, oks: seq<bool>): seq<Id>
    requires |batch| == |oks| && forall i | 0 <= i < |batch| :: batch[i] in rows
  {
    if batch == [] then []
    else
      var last := |batch| - 1;
      SentIn(rows, batch[..last], oks[..last]) + (if Sent(rows[batch[last]], oks[last]) then [batch[last]] else [])
  }

  lemma {:induction false} SentDistinct(rows: Table, batch: seq<Id>, oks: seq<bool>)
    requires |batch| == |oks| && Distinct(batch) && forall i | 0 <= i < |batch| :: batch[i] in rows
    ensures Distinct(SentIn(rows, batch, oks))
    ensures forall id | id in SentIn(rows, batch, oks) :: id in batch
  {
    if batch != [] {
      var last := |batch| - 1;
      SentDistinct(rows, batch[..last], oks[..last]);
      assert batch[last] !in batch[..last];
    }
  }

  lemma {:induction false} SentIsPublished(rows: Table, batch: seq<Id>, oks: seq<bool>, id: Id)
    requires |batch| == |oks| && forall i | 0 <= i < |batch| :: batch[i] in rows
    requires id in SentIn(rows, batch, oks)
    ensures exists i :: 0 <= i < |batch| && batch[i] == id && oks[i]
  {
    var last := |batch| - 1;
    if id in SentIn(rows, batch[..last], oks[..last]) {
      SentIsPublished(rows, batch[..last], oks[..last], id);
      var i :| 0 <= i < last && batch[..last][i] == id && oks[..last][i];
      assert batch[i] == id && oks[i];
    } else {
      assert batch[last] == id && oks[last];
    }
  }

  /** A pass that sent n rows leaves at least n fewer waiting. */
  lemma PassShrinksQueue(rows: Table, batch: seq<Id>, oks: seq<bool>, now: Time)
    requires |batch| == |oks| && IsBatch(rows, {}, batch)
    ensures |Waiting(Pass(rows, batch, oks, now), {})| + |SentIn(rows, batch, oks)| <= |Waiting(rows, {})|
  {
    var rows' := Pass(rows, batch, oks, now);
    var sent := SentIn(rows, batch, oks);
    var gone := set id | id in sent;
    PassPointwise(rows, batch, oks, now);
    SentDistinct(rows, batch, oks);
    DistinctCount(sent);
    forall id | id in gone
      ensures id in Waiting(rows, {}) && id !in Waiting(rows', {})
    {
      SentIsPublished(rows, batch, oks, id);
      var i :| 0 <= i < |batch| && batch[i] == id && oks[i];
      assert rows'[batch[i]] == Process(rows[batch[i]], oks[i], now);
    }
    forall id | id in Waiting(rows', {})
      ensures id in Waiting(rows, {})
    {
      if id in batch {
      } else {
        assert rows'[id] == rows[id];
      }
    }
    Subset(Waiting(rows', {}), Waiting(rows, {}) - gone);
  }

  lemma {:induction false} OldestExists(rows: Table, ids: set<Id>) returns (oldest: Id)
    requires ids != {} && ids <= rows.Keys
    ensures oldest in ids && forall x | x in ids :: rows[oldest].createdAt <= rows[x].createdAt
  {
    oldest := Pick(ids);
    if ids != {oldest} {
      var other := OldestExists(rows, ids - {oldest});
      if rows[other].createdAt < rows[oldest].createdAt { oldest := other; }
    }
  }

  /** How far a pass over a fixed batch has come. */
  datatype Progress = Progress(before: Table, start: seq<Id>, batch: seq<Id>, now: Time) {

    ghost predicate At(oks: seq<bool>, rows: Table, channel: seq<Id>, published: nat) {
      && Distinct(batch) && (forall i | 0 <= i < |batch| :: batch[i] in before)
      && |oks| <= |batch|
      && rows == Pass(before, batch[..|oks|], oks, now)
      && channel == start + SentIn(before, batch[..|oks|], oks)
      && published == |SentIn(before, batch[..|oks|], oks)|
    }

    lemma Advance(oks: seq<bool>, rows: Table, channel: seq<Id>, published: nat)
      requires At(oks, rows, channel, published) && |oks| < |batch|
      ensures batch[|oks|] in rows && rows[batch[|oks|]] == before[batch[|oks|]]
    {
      PassPointwise(before, batch[..|oks|], oks, now);
      assert batch[|oks|] !in batch[..|oks|];
    }

    lemma Advanced(oks: seq<bool>, rows: Table, channel: seq<Id>, ok: bool, published: nat)
      requires At(oks, rows, channel, published) && |oks| < |batch|
      ensures var id := batch[|oks|];
              var sent := Sent(before[id], ok);
              At(oks + [ok], rows[id := Process(before[id], ok, now)], channel + (if sent then [id] else []),
                 published + if sent then 1 else 0)
    {
      var id, prefix := batch[|oks|], batch[..|oks|];
      SentNext(before, batch, oks, ok);
      assert batch[..|oks + [ok]|] == prefix + [id];
      assert Pass(before, prefix + [id], oks + [ok], now) == rows[id := Process(before[id], ok, now)] by {
        PassSnoc(before, prefix, oks, id, ok, now);
      }
      var sofar, more := SentIn(before, prefix, oks), if Sent(before[id], ok) then [id] else [];
      assert start + (sofar + more) == start + sofar + more;
    }
  }

  /** One more answer, one more row sent or not. */
  lemma SentNext(rows: Table, batch: seq<Id>, oks: seq<bool>, ok: bool)
    requires |oks| < |batch| && forall i | 0 <= i < |batch| :: batch[i] in rows
    ensures SentIn(rows, batch[..|oks| + 1], oks + [ok]) ==
            SentIn(rows, batch[..|oks|], oks) + if Sent(rows[batch[|oks|]], ok) then [batch[|oks|]] else []
  {
    var n := |oks|;
    var longer, answers := batch[..n + 1], oks + [ok];
    assert longer[..n] == batch[..n] && answers[..n] == oks;
    assert longer[n] == batch[n] && answers[n] == ok;
  }

  class OutboxRelay {
    var rows: Table
    ghost var channel: seq<Id>

    /** The query of the pass: oldest pending rows first, skipping those other relays hold. */
    method SelectBatch(locked: set<Id>) returns (batch: seq<Id>)
      ensures IsBatch(rows, locked, batch)
    {
      batch := [];
      var rest := Waiting(rows, locked);
      while |batch| < BATCH && rest != {}
        invariant |batch| <= BATCH && Distinct(batch)
        invariant rest <= Waiting(rows, locked)
        invariant forall i | 0 <= i < |batch| :: batch[i] in Waiting(rows, locked) && batch[i] !in rest
        invariant forall id | id in Waiting(rows, locked) :: id in batch || id in rest
        invariant forall i, j | 0 <= i < j < |batch| :: rows[batch[i]].createdAt <= rows[batch[j]].createdAt
        invariant forall i, id | 0 <= i < |batch| && id in rest :: rows[batch[i]].createdAt <= rows[id].createdAt
        decreases rest
      {
        ghost var oldest := OldestExists(rows, rest);
        var id :| id in rest && forall x | x in rest :: rows[id].createdAt <= rows[x].createdAt;
        batch := batch + [id];
        rest := rest - {id};
      }
    }

    /** One pass; the answers of Redis are arbitrary. */
    method PublishPendingBatch(locked: set<Id>, now: Time)
      returns (published: nat, ghost batch: seq<Id>, ghost oks: seq<bool>)
      modifies this
      ensures |oks| == |batch| && IsBatch(old(rows), locked, batch)
      ensures rows == Pass(old(rows), batch, oks, now)
      ensures channel == old(channel) + SentIn(old(rows), batch, oks)
      ensures published == |SentIn(old(rows), batch, oks)|
    {
      var todo := SelectBatch(locked);
      batch, oks, published := todo, [], 0;
      ghost var progress := Progress(rows, channel, todo, now);
      for i := 0 to |todo|
        invariant |oks| == i
        invariant progress.At(oks, rows, channel, published)
      {
        ghost var ok: bool;
        var sent: bool;
        ghost var sofar, said := rows, channel;
        progress.Advance(oks, rows, channel, published);
        sent, ok := PublishRow(todo[i], now);
        progress.Advanced(oks, sofar, said, ok, published);
        if sent {
          published := published + 1;
        }
        oks := oks + [ok];
      }
      assert todo[..|todo|] == todo;
    }

    /** One row: mark it, or publish it and record what came of it. */
    method PublishRow(id: Id, now: Time) returns (sent: bool, ghost ok: bool)
      requires id in rows
      modifies this
      ensures rows == old(rows)[id := Process(old(rows)[id], ok, now)]
      ensures sent == Sent(old(rows)[id], ok)
      ensures channel == old(channel) + if sent then [id] else []
    {
      var row := rows[id];
      var answered: bool := *;
      ok, sent := answered, false;
      if row.tenant.None? {
        rows := rows[id := row.(status := Published, publishedAt := Some(now))];
      } else if !answered {
        var attempts := row.attempts + 1;
        row := row.(attempts := attempts);
        if attempts >= MAX_ATTEMPTS {
          row := row.(status := Failed);
        }
        rows := rows[id := row];
      } else {
        channel := channel + [id];
        rows := rows[id := row.(status := Published, publishedAt := Some(now))];
        sent := true;
      }
    }

    /** Full batches are followed at once by another pass; each repeat sent a whole batch. */
    method Drain(now: Time) returns (repeats: nat)
      requires BelowCap(rows)
      modifies this
      ensures BelowCap(rows) && Work(rows) <= Work(old(rows))
      ensures repeats * BATCH + |Waiting(rows, {})| <= |Waiting(old(rows), {})|
    {
      repeats := 0;
      var published: nat := DrainPass(now);
      while published >= BATCH
        invariant BelowCap(rows) && Work(rows) <= Work(old(rows))
        invariant repeats * BATCH + published + |Waiting(rows, {})| <= |Waiting(old(rows), {})|
        decreases |Waiting(rows, {})| + published
      {
        repeats := repeats + 1;
        published := DrainPass(now);
      }
    }

    method DrainPass(now: Time) returns (published: nat)
      requires BelowCap(rows)
      modifies this
      ensures BelowCap(rows) && Work(rows) <= Work(old(rows))
      ensures published + |Waiting(rows, {})| <= |Waiting(old(rows), {})|
    {
      ghost var before := rows;
      ghost var batch: seq<Id>;
      ghost var oks: seq<bool>;
      published, batch, oks := PublishPendingBatch({}, now);
      PassShrinksQueue(before, batch, oks, now);
      PassKeepsBelowCap(before, batch, oks, now);
      PassUsesTries(before, batch, oks, now);
    }
  }

  lemma {:induction false} PassSnoc(rows: Table, batch: seq<Id>, oks: seq<bool>, id: Id, ok: bool, now: Time)
    requires |batch| == |oks| && id in rows && id !in batch && Distinct(batch)
    requires forall i | 0 <= i < |batch| :: batch[i] in rows
    ensures Pass(rows, batch + [id], oks + [ok], now) == Pass(rows, batch, oks, now)[id := Process(rows[id], ok, now)]
    decreases |batch|
  {
    if batch == [] {
      assert (batch + [id])[1..] == [] && (oks + [ok])[1..] == [];
    } else {
      var rows' := rows[batch[0] := Process(rows[batch[0]], oks[0], now)];
      assert (batch + [id])[1..] == batch[1..] + [id] && (oks + [ok])[1..] == oks[1..] + [ok];
      PassSnoc(rows', batch[1..], oks[1..], id, ok, now);
    }
  }
}
