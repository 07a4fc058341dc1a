/** What each call of an operator or an agent does, told by states and columns alone. */
module Calls {
  import opened Prelude
  import opened Ordering
  import opened StateMachines
  import opened Outbox
  import opened Control
  import opened ControlSafety
  import opened Delivery

  // ---------------------------------------------------------------- agents and operators

  /** A cancellation takes exactly on a queued or delivered command of the tenant; a cancelled one is announced again. */
  lemma CancelExactly(db: Db, tenant: Option<Id>, id: Id, now: Time)
    ensures var (db', out) := Cancel(db, tenant, id, now);
            var known := id in db.commands && db.commands[id].tenant == tenant;
            && (out == Missing <==> !known)
            && (out == Done <==> known && (db.commands[id].status == CommandQueued || db.commands[id].status == Delivered
                                           || db.commands[id].status == CommandCancelled))
            && (out != Done ==> db' == db)
            && (out == Done ==>
                  var c := db.commands[id];
                  db' == db.(commands := db.commands[id := if c.status == CommandCancelled then c
                                                           else c.(status := CommandCancelled, version := c.version + 1)],
                             outbox := db.outbox + [Row(tenant, OfRun(c.run), CancelNotice(id, "operator_cancel"))]))
  {
  }

  /** An acknowledgement takes exactly on a delivered command of the agent itself, in its tenant; a repeated one is announced again. */
  lemma AckExactly(db: Db, tenant: Option<Id>, agent: Id, id: Id, now: Time)
    ensures var (db', out) := Acknowledge(db, tenant, agent, id, now);
            var known := id in db.commands && db.commands[id].agent == agent && db.commands[id].tenant == tenant;
            && (out == Missing <==> !known)
            && (out == Done <==> known && (db.commands[id].status == Delivered || db.commands[id].status == Acknowledged))
            && (out != Done ==> db' == db)
            && (out == Done ==>
                  var c := db.commands[id];
                  db' == db.(commands := db.commands[id := if c.status == Acknowledged then c
                                                           else c.(status := Acknowledged, version := c.version + 1,
                                                                   acknowledgedAt := Some(now))],
                             outbox := db.outbox + [Row(tenant, OfRun(c.run), AckNotice(id))]))
  {
  }

  /** A verdict takes exactly on an acknowledged command of the agent itself; the same verdict again replaces the report alone. */
  lemma ReportExactly(db: Db, tenant: Option<Id>, agent: Id, id: Id, success: Option<bool>, payload: string, error: string, now: Time)
    ensures var (db', out) := SubmitResult(db, tenant, agent, id, success, payload, error, now);
            var known := id in db.commands && db.commands[id].agent == agent && db.commands[id].tenant == tenant;
            && (out == Invalid <==> success.None?)
            && (out == Missing <==> success.Some? && !known)
            && (out == Done <==>
                  && success.Some? && known
                  && (|| db.commands[id].status == Acknowledged
                      || db.commands[id].status == (if success.value then CommandSucceeded else CommandFailed)))
            && (out != Done ==> db' == db)
  {
  }

  lemma SuccessIsStored(db: Db, tenant: Option<Id>, agent: Id, id: Id, payload: string, error: string, now: Time)
    requires SubmitResult(db, tenant, agent, id, Some(true), payload, error, now).1 == Done
    ensures id in db.commands
    ensures var c := db.commands[id];
            var d := if c.status == CommandSucceeded then c
                     else c.(status := CommandSucceeded, version := c.version + 1, resultAt := Some(now));
            SubmitResult(db, tenant, agent, id, Some(true), payload, error, now).0 ==
            db.(commands := db.commands[id := d.(report := Some(Report(true, payload, "")))],
                outbox := db.outbox + [Row(tenant, OfRun(c.run), SuccessNotice(id))])
  {
  }

  lemma FailureIsStored(db: Db, tenant: Option<Id>, agent: Id, id: Id, payload: string, error: string, now: Time)
    requires SubmitResult(db, tenant, agent, id, Some(false), payload, error, now).1 == Done
    ensures id in db.commands
    ensures var c := db.commands[id];
            var d := if c.status == CommandFailed then c
                     else c.(status := CommandFailed, version := c.version + 1, resultAt := Some(now));
            SubmitResult(db, tenant, agent, id, Some(false), payload, error, now).0 ==
            db.(commands := db.commands[id := d.(report := Some(Report(false, payload, error)))],
                outbox := db.outbox + [Row(tenant, OfRun(c.run), FailureNotice(id))])
  {
  }

  // ---------------------------------------------------------------- polls

  /**
   What a poll makes of any command: one handed out is delivered now; one overdue in the agent's queue
   may expire; every other command, and everything else, stays.
   */
  lemma PollRewrites(db: Db, tenant: Option<Id>, agent: Id, limit: int, now: Time, id: Id)
    requires KeysMatch(db) && id in db.commands
    ensures var (db', ids) := Poll(db, tenant, agent, limit, now);
            var c := db.commands[id];
            && id in db'.commands && db'.approvals == db.approvals
            && (if id in ids then db'.commands[id] == c.(status := Delivered, version := c.version + 1, deliveredAt := Some(now))
                else db'.commands[id] == c
                     || (&& c.status == CommandQueued && c.releasedAt.Some? && c.agent == agent && c.tenant == tenant
                         && c.expiresAt <= now
                         && db'.commands[id] == c.(status := CommandExpired, version := c.version + 1)))
  {
    PollPointwise(db, tenant, agent, limit, now, id);
  }

  lemma PollPointwise(db: Db, tenant: Option<Id>, agent: Id, limit: int, now: Time, id: Id)
    requires KeysMatch(db) && id in db.commands
    ensures var (db', ids) := Poll(db, tenant, agent, limit, now);
            var w := Walked(db, tenant, agent, limit, now);
            && id in db'.commands && db'.approvals == db.approvals
            && (Mentions(w, id) ==> db.commands[id] in w && db'.commands[id] == Handled(db.commands[id], now))
            && (!Mentions(w, id) ==> db'.commands[id] == db.commands[id])
            && (id in ids <==> Mentions(w, id) && now < db.commands[id].expiresAt)
            && (Mentions(w, id) ==> db.commands[id] in Candidates(db, tenant, agent))
  {
    var w := Walked(db, tenant, agent, limit, now);
    WalkedRows(db, tenant, agent, limit, now);
    WalkPointwise(db, w, now);
    QueueIsQueued(db, tenant, agent);
    LiveOfWalk(db, w, now, id);
    if i :| 0 <= i < |w| && w[i].id == id {
      assert w[i] in w && w[i] == db.commands[id];
      assert Queue(db, tenant, agent)[i] == w[i];
    }
  }

  /** A queued command the walk does not mention stands further back. */
  lemma FurtherBack(q: seq<Command>, w: seq<Command>, c: Command) returns (j: nat)
    requires w <= q && c in q && !Mentions(w, c.id)
    ensures |w| <= j < |q| && q[j] == c
  {
    j :| 0 <= j < |q| && q[j] == c;
    assert forall i | 0 <= i < |w| :: w[i].id != c.id && q[i] == w[i];
  }

  /** What a walk handed out is older than what it did not reach. */
  lemma WalkedAreOlder(db: Db, q: seq<Command>, w: seq<Command>, c: Command, now: Time)
    requires QueuedRows(db, w) && w <= q && Increasing(Control.Earlier, q) && c in q && !Mentions(w, c.id)
    ensures forall x | x in Live(w, now) :: x in db.commands && Control.Earlier(db.commands[x], c)
  {
    var j := FurtherBack(q, w, c);
    forall x | x in Live(w, now)
      ensures x in db.commands && Control.Earlier(db.commands[x], c)
    {
      LiveOfWalk(db, w, now, x);
      var i :| 0 <= i < |w| && w[i].id == x;
      assert w[i] in w && q[i] == w[i];
    }
  }

  lemma UnreachedMeansFull(q: seq<Command>, c: Command, limit: nat, now: Time)
    requires c in q && limit >= 1 && Cut(q, limit, now) <= |q| && !Mentions(q[..Cut(q, limit, now)], c.id)
    ensures |Live(q[..Cut(q, limit, now)], now)| == limit
  {
    CutCount(q, limit, now);
    var _ := FurtherBack(q, q[..Cut(q, limit, now)], c);
  }

  lemma UnreachedIsYounger(db: Db, tenant: Option<Id>, agent: Id, limit: int, now: Time, c: Command)
    requires KeysMatch(db) && c in Candidates(db, tenant, agent) && 1 <= limit <= 100
    requires !Mentions(Walked(db, tenant, agent, limit, now), c.id)
    ensures var ids := Poll(db, tenant, agent, limit, now).1;
            |ids| == limit && forall x | x in ids :: x in db.commands && Control.Earlier(db.commands[x], c)
  {
    var q, w := Queue(db, tenant, agent), Walked(db, tenant, agent, limit, now);
    QueueIsQueued(db, tenant, agent);
    CutInRange(q, limit, now);
    assert w == q[..Cut(q, limit, now)];
    UnreachedMeansFull(q, c, limit, now);
    WalkedRows(db, tenant, agent, limit, now);
    WalkedAreOlder(db, q, w, c, now);
  }

  /** An overdue command is passed over only when the limit is reached and every one handed out is older. */
  lemma OverdueExpire(db: Db, tenant: Option<Id>, agent: Id, limit: int, now: Time, id: Id)
    requires KeysMatch(db) && id in db.commands && 1 <= limit <= 100
    requires var c := db.commands[id];
             c.status == CommandQueued && c.releasedAt.Some? && c.agent == agent && c.tenant == tenant && c.expiresAt <= now
    ensures var (db', ids) := Poll(db, tenant, agent, limit, now);
            && id in db'.commands
            && (|| db'.commands[id] == db.commands[id].(status := CommandExpired, version := db.commands[id].version + 1)
                || (&& |ids| == limit
                    && forall x | x in ids ::
                         && x in db.commands
                         && (|| db.commands[x].createdAt < db.commands[id].createdAt
                             || (db.commands[x].createdAt == db.commands[id].createdAt && x < id))))
  {
    var c := db.commands[id];
    PollPointwise(db, tenant, agent, limit, now, id);
    assert c in Candidates(db, tenant, agent);
    if !Mentions(Walked(db, tenant, agent, limit, now), id) {
      UnreachedIsYounger(db, tenant, agent, limit, now, c);
    }
  }

  lemma {:induction false} LiveOfWalk(db: Db, w: seq<Command>, now: Time, id: Id)
    requires QueuedRows(db, w)
    ensures id in Live(w, now) <==> Mentions(w, id) && id in db.commands && now < db.commands[id].expiresAt
    decreases |w|
  {
    if w != [] {
      var rest := w[1..];
      assert forall c | c in rest :: c in w;
      LiveOfWalk(db, rest, now, id);
      assert w[0] in w;
      if Mentions(rest, id) {
        var i :| 0 <= i < |rest| && rest[i].id == id;
        assert w[i + 1].id == id;
      }
      if i :| 0 < i < |w| && w[i].id == id { assert rest[i - 1].id == id; }
    }
  }

  // ---------------------------------------------------------------- decisions

  /** A decision gets under way exactly on a pending approval of the tenant: as itself before the deadline, as an expiry after it. */
  lemma GuardExactly(w: World, session: Id, tenant: Option<Id>, a: Id, v: Verdict, version: int, user: Option<Id>, at: Time)
    requires Enabled(w, Guarding(session, tenant, a, v, version, user, at))
    ensures var next := Next(w, Guarding(session, tenant, a, v, version, user, at));
            && next.db == w.db
            && (session in next.inFlight <==>
                  a in w.db.approvals && w.db.approvals[a].tenant == tenant && w.db.approvals[a].status == Pending)
            && (session in next.inFlight ==>
                  next.inFlight[session] == if at < w.db.approvals[a].expiresAt then Deciding(tenant, a, v, version, user) else Expiring(a))
  {
  }

  /** The commands a decision leaves: the queued one it holds released or cancelled, every other as it was. */
  predicate Carried(before: map<Id, Command>, after: map<Id, Command>, a: Id, approved: bool, at: Time) {
    && after.Keys == before.Keys
    && forall id | id in before ::
         var c := before[id];
         after[id] == if c.approval == Some(a) && c.status == CommandQueued then
                        (if approved then c.(releasedAt := Some(at)) else c.(status := CommandCancelled, version := c.version + 1))
                      else c
  }

  lemma ReleaseCarries(db: Db, clock: Time, a: Id, taken: Db, at: Time)
    requires DbOk(db, clock) && a in db.approvals && taken.commands == db.commands
    ensures Carried(db.commands, ReleaseLinked(taken, a, at).commands, a, true, at)
  {
    LinkFound(db, clock, a, taken);
    assert forall id | id in db.commands && db.commands[id].approval == Some(a) :: id == Linked(taken, a);
  }

  lemma CancelCarries(db: Db, clock: Time, a: Id, taken: Db, at: Time, reason: string)
    requires DbOk(db, clock) && a in db.approvals && taken.commands == db.commands
    ensures Carried(db.commands, CancelLinked(taken, a, at, reason).commands, a, false, at)
  {
    LinkFound(db, clock, a, taken);
    assert forall id | id in db.commands && db.commands[id].approval == Some(a) :: id == Linked(taken, a);
  }

  lemma LinkFound(db: Db, clock: Time, a: Id, taken: Db)
    requires DbOk(db, clock) && a in db.approvals && taken.commands == db.commands
    ensures HasLinked(taken, a) && db.commands[Linked(taken, a)].approval == Some(a)
  {
    assert HasLinked(db, a);
    var id :| id in db.commands && db.commands[id].approval == Some(a);
    assert taken.commands[id].approval == Some(a);
  }

  /**
   A decision made at version 1 and settled while its approval is still pending: the approval takes the verdict,
   with its time and its user, and the held command, if still queued, is released by an approval and cancelled
   by a rejection; nothing else of the tables changes.
   */
  lemma DecisionTakesEffect(w: World, session: Id, at: Time)
    requires Inv(w) && Enabled(w, Settling(session, at)) && w.inFlight[session].Deciding?
    requires var f := w.inFlight[session];
             && f.version == 1 && f.approval in w.db.approvals
             && w.db.approvals[f.approval].tenant == f.tenant && w.db.approvals[f.approval].status == Pending
    ensures var f, db, db' := w.inFlight[session], w.db, Next(w, Settling(session, at)).db;
            && db'.approvals == db.approvals[f.approval := db.approvals[f.approval].(
                 status := if f.verdict == Approve then Approved else Rejected, version := 2, decidedAt := Some(at), decidedBy := f.user)]
            && Carried(db.commands, db'.commands, f.approval, f.verdict == Approve, at)
            && exists id ::
                 && id in db.commands && db.commands[id].approval == Some(f.approval)
                 && var c := db.commands[id];
                    var told := Row(c.tenant, OfRun(c.run),
                                    if f.verdict == Approve then QueueNotice(Some(id)) else CancelNotice(id, "approval_rejected"));
                    var verdict := Row(f.tenant, Approvals,
                                       if f.verdict == Approve then ApprovalApproved(f.approval) else ApprovalRejected(f.approval));
                    db'.outbox == db.outbox + if c.status == CommandQueued then [told, verdict] else [verdict]
  {
    var f, db := w.inFlight[session], w.db;
    var a := db.approvals[f.approval];
    assert ApprovalOk(a);
    var a' := a.(status := StatusOf(f.verdict), version := a.version + 1, decidedAt := Some(at), decidedBy := f.user);
    var taken := db.(approvals := db.approvals[f.approval := a']);
    LinkFound(db, w.clock, f.approval, taken);
    var id := Linked(taken, f.approval);
    assert id in db.commands && db.commands[id].approval == Some(f.approval) && db.commands[id].id == id;
    if f.verdict == Approve {
      ReleaseCarries(db, w.clock, f.approval, taken, at);
    } else {
      CancelCarries(db, w.clock, f.approval, taken, at, "approval_rejected");
    }
  }

  /** An expiry settled while its approval is still pending: the approval expires and its queued command is cancelled. */
  lemma ExpiryTakesEffect(w: World, session: Id, at: Time)
    requires Inv(w) && Enabled(w, Settling(session, at)) && w.inFlight[session].Expiring?
    requires var a := w.inFlight[session].approval; a in w.db.approvals && w.db.approvals[a].status == Pending
    ensures var a, db, db' := w.inFlight[session].approval, w.db, Next(w, Settling(session, at)).db;
            && db'.approvals == db.approvals[a := db.approvals[a].(status := Expired, version := 2)]
            && Carried(db.commands, db'.commands, a, false, at)
            && exists id ::
                 && id in db.commands && db.commands[id].approval == Some(a)
                 && var c := db.commands[id];
                    db'.outbox == db.outbox +
                      if c.status == CommandQueued then [Row(c.tenant, OfRun(c.run), CancelNotice(id, "approval_expired"))] else []
  {
    var a := w.inFlight[session].approval;
    assert ApprovalOk(w.db.approvals[a]);
    LinkFound(w.db, w.clock, a, Updated(w.db, a));
    var id := Linked(Updated(w.db, a), a);
    assert id in w.db.commands && w.db.commands[id].approval == Some(a) && w.db.commands[id].id == id;
    CancelCarries(w.db, w.clock, a, Updated(w.db, a), at, "approval_expired");
  }
}
