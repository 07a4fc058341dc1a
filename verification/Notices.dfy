/**
 What the outbox, the audit log and the time stamps say of commands and approvals, over whole runs
 of the control plane: each row is called for by the tables, and the tables have every row they call for.
 */
module Notices {
  import opened Prelude
  import opened StateMachines
  import opened Outbox
  import opened Control
  import opened Delivery
  import opened ControlSafety
  import Budgets
  import Policies

  // ---------------------------------------------------------------- rows

  /** The fact without the reason of a cancellation. */
  function Plain(fact: Fact): Fact {
    if fact.CancelNotice? then CancelNotice(fact.command, "") else fact
  }

  /** How many rows state the fact, whatever the reason. */
  function Times(rows: seq<Row>, fact: Fact): nat {
    if rows == [] then 0
    else
      var last := |rows| - 1;
      Times(rows[..last], fact) + if Plain(rows[last].fact) == fact then 1 else 0
  }

  lemma TimesSnoc(rows: seq<Row>, row: Row, fact: Fact)
    ensures Times(rows + [row], fact) == Times(rows, fact) + if Plain(row.fact) == fact then 1 else 0
  {
    assert (rows + [row])[..|rows|] == rows;
  }

  lemma {:induction false} TimesIsPresence(rows: seq<Row>, fact: Fact)
    ensures Times(rows, fact) > 0 <==> exists row :: row in rows && Plain(row.fact) == fact
  {
    if rows != [] {
      var last := |rows| - 1;
      TimesIsPresence(rows[..last], fact);
      assert rows == rows[..last] + [rows[last]];
    }
  }

  /** A fact the tables call for. */
  predicate Due(db: Db, fact: Fact) {
    match fact
    case ApprovalRequested(a) => a in db.approvals
    case ApprovalApproved(a) => a in db.approvals && db.approvals[a].status == Approved
    case ApprovalRejected(a) => a in db.approvals && db.approvals[a].status == Rejected
    case QueueNotice(Some(id)) => id in db.commands && db.commands[id].approval.Some? && db.commands[id].releasedAt.Some?
    case DeliveryNotice(id) => id in db.commands && db.commands[id].deliveredAt.Some?
    case AckNotice(id) => id in db.commands && db.commands[id].acknowledgedAt.Some?
    case SuccessNotice(id) => id in db.commands && db.commands[id].status == CommandSucceeded
    case FailureNotice(id) => id in db.commands && db.commands[id].status == CommandFailed
    case ExpiryNotice(id) => id in db.commands && db.commands[id].status == CommandExpired
    case CancelNotice(id, _) => id in db.commands && db.commands[id].status == CommandCancelled
    case _ => false
  }

  /** A call that announces the state a command already has writes its row again. */
  predicate Repeats(fact: Fact) {
    fact.AckNotice? || fact.SuccessNotice? || fact.FailureNotice? || fact.CancelNotice?
  }

  /** A fact about one command or approval. */
  predicate Named(fact: Fact) {
    WriterOf(fact) == Governing && fact != QueueNotice(None) && Plain(fact) == fact
  }

  predicate Agrees(n: nat, due: bool, repeats: bool) {
    if repeats then n > 0 <==> due else n == if due then 1 else 0
  }

  ghost predicate Told(db: Db) {
    forall fact | Named(fact) :: Agrees(Times(db.outbox, fact), Due(db, fact), Repeats(fact))
  }

  function ReleasedAtOnce(commands: map<Id, Command>): set<Id> {
    set id | id in commands && commands[id].approval.None?
  }

  /** A submission released at once is announced before its identifier is drawn. */
  ghost predicate Anonymous(db: Db) {
    Times(db.outbox, QueueNotice(None)) == |ReleasedAtOnce(db.commands)|
  }

  function CommandIn(fact: Fact): Option<Id> {
    match fact
    case QueueNotice(announced) => announced
    case DeliveryNotice(id) => Some(id)
    case AckNotice(id) => Some(id)
    case SuccessNotice(id) => Some(id)
    case FailureNotice(id) => Some(id)
    case ExpiryNotice(id) => Some(id)
    case CancelNotice(id, _) => Some(id)
    case _ => None
  }

  function ApprovalIn(fact: Fact): Option<Id> {
    match fact
    case ApprovalRequested(a) => Some(a)
    case ApprovalApproved(a) => Some(a)
    case ApprovalRejected(a) => Some(a)
    case _ => None
  }

  /** The row goes to the tenant it concerns, on the topic of its run or of the approvals. */
  predicate Addressed(db: Db, row: Row) {
    && WriterOf(row.fact) == Governing
    && (CommandIn(row.fact).Some? ==>
          && CommandIn(row.fact).value in db.commands
          && row.tenant == db.commands[CommandIn(row.fact).value].tenant
          && row.topic == OfRun(db.commands[CommandIn(row.fact).value].run))
    && (ApprovalIn(row.fact).Some? ==>
          && ApprovalIn(row.fact).value in db.approvals
          && row.tenant == db.approvals[ApprovalIn(row.fact).value].tenant && row.topic == Approvals)
    && (row.fact == QueueNotice(None) ==>
          row.topic.OfRun? && row.topic.run in db.runs && row.tenant == db.runs[row.topic.run].tenant)
  }

  ghost predicate AllAddressed(db: Db) {
    forall row | row in db.outbox :: Addressed(db, row)
  }

  // ---------------------------------------------------------------- audits and stamps

  function AuditTimes(audits: seq<Audit>, audit: Audit): nat {
    if audits == [] then 0
    else
      var last := |audits| - 1;
      AuditTimes(audits[..last], audit) + if audits[last] == audit then 1 else 0
  }

  lemma AuditSnoc(audits: seq<Audit>, entry: Audit, audit: Audit)
    ensures AuditTimes(audits + [entry], audit) == AuditTimes(audits, audit) + if entry == audit then 1 else 0
  {
    assert (audits + [entry])[..|audits|] == audits;
  }

  /** A decision is audited with the status it left, a submission with the effect it had, each once. */
  ghost predicate Audited(db: Db) {
    && (forall a, s :: AuditTimes(db.audits, ApprovalDecided(a, s)) ==
                       if a in db.approvals && db.approvals[a].status == s && (s == Approved || s == Rejected) then 1 else 0)
    && (forall id, e :: AuditTimes(db.audits, CommandSubmitted(id, e)) ==
                        if id in db.commands && db.commands[id].effect == e then 1 else 0)
  }

  /** The stamps and the report a command in its state has. */
  predicate Stamped(c: Command, clock: Time) {
    && (c.status in {CommandQueued, CommandExpired} ==> c.deliveredAt.None?)
    && (c.status in {Delivered, Acknowledged, CommandSucceeded, CommandFailed} ==> c.deliveredAt.Some?)
    && (c.acknowledgedAt.Some? <==> c.status in {Acknowledged, CommandSucceeded, CommandFailed})
    && (c.resultAt.Some? <==> c.status in {CommandSucceeded, CommandFailed})
    && (c.report.Some? <==> c.status in {CommandSucceeded, CommandFailed})
    && (c.report.Some? ==> (c.report.value.success <==> c.status == CommandSucceeded))
    && (c.deliveredAt.Some? ==> c.deliveredAt.value <= clock)
    && (c.acknowledgedAt.Some? && c.deliveredAt.Some? ==> c.deliveredAt.value <= c.acknowledgedAt.value <= clock)
    && (c.resultAt.Some? && c.acknowledgedAt.Some? ==> c.acknowledgedAt.value <= c.resultAt.value <= clock)
    && (c.status == CommandExpired ==> c.expiresAt <= clock)
    && (c.approval.Some? <==> c.effect == Policies.RequireApproval)
  }

  ghost predicate AllStamped(db: Db, clock: Time) {
    forall id | id in db.commands :: Stamped(db.commands[id], clock)
  }

  ghost predicate Sound(db: Db, clock: Time) {
    && KeysMatch(db) && Told(db) && Anonymous(db) && AllAddressed(db) && Audited(db) && AllStamped(db, clock)
  }

  // ---------------------------------------------------------------- one row more

  /** The tables call for one fact more at most, and the new row states it. */
  lemma RowTold(db: Db, db': Db, row: Row)
    requires Told(db) && db'.outbox == db.outbox + [row]
    requires forall fact | Named(fact) && fact != Plain(row.fact) :: Due(db', fact) == Due(db, fact)
    requires Named(Plain(row.fact)) ==> Due(db', Plain(row.fact)) && (Due(db, Plain(row.fact)) ==> Repeats(Plain(row.fact)))
    ensures Told(db')
  {
    forall fact | Named(fact) ensures Agrees(Times(db'.outbox, fact), Due(db', fact), Repeats(fact)) {
      TimesSnoc(db.outbox, row, fact);
      assert Agrees(Times(db.outbox, fact), Due(db, fact), Repeats(fact));
    }
  }

  /** Rows, runs, owners: what later rows leave as it was. */
  ghost predicate Persists(db: Db, db': Db) {
    && db'.runs == db.runs
    && (forall id | id in db.commands :: && id in db'.commands && db'.commands[id].tenant == db.commands[id].tenant
                                        && db'.commands[id].run == db.commands[id].run)
    && (forall a | a in db.approvals :: a in db'.approvals && db'.approvals[a].tenant == db.approvals[a].tenant)
  }

  lemma StillAddressed(db: Db, db': Db, row: Row)
    requires Persists(db, db') && Addressed(db, row)
    ensures Addressed(db', row)
  {
    if CommandIn(row.fact).Some? {
      var id := CommandIn(row.fact).value;
      assert id in db.commands && id in db'.commands;
    }
    if ApprovalIn(row.fact).Some? {
      var a := ApprovalIn(row.fact).value;
      assert a in db.approvals && a in db'.approvals;
    }
  }

  lemma RowAddressed(db: Db, db': Db, row: Row)
    requires AllAddressed(db) && Persists(db, db') && db'.outbox == db.outbox + [row] && Addressed(db', row)
    ensures AllAddressed(db')
  {
    forall other | other in db'.outbox ensures Addressed(db', other) {
      if other in db.outbox { StillAddressed(db, db', other); }
    }
  }

  // ---------------------------------------------------------------- a command moves

  /** The row that tells of a move. */
  function NoticeOf(id: Id, target: CommandState): Fact
    requires target != CommandQueued
  {
    match target
    case Delivered => DeliveryNotice(id)
    case Acknowledged => AckNotice(id)
    case CommandSucceeded => SuccessNotice(id)
    case CommandFailed => FailureNotice(id)
    case CommandExpired => ExpiryNotice(id)
    case CommandCancelled => CancelNotice(id, "")
  }

  /** A legal move, or a repeated announcement where calls repeat them. */
  predicate Movable(c: Command, target: CommandState, report: Option<Report>, at: Time) {
    && target != CommandQueued && CanMove(c, target)
    && (target == Delivered || target == CommandExpired ==> c.status == CommandQueued)
    && (target == CommandExpired ==> c.expiresAt <= at)
    && (if target == CommandSucceeded || target == CommandFailed
        then report.Some? && (report.value.success <==> target == CommandSucceeded) else report == c.report)
  }

  function MoveOf(db: Db, id: Id, target: CommandState, report: Option<Report>, at: Time, row: Row): Db
    requires id in db.commands && CanMove(db.commands[id], target)
  {
    db.(commands := db.commands[id := Moved(db.commands[id], target, at).(report := report)], outbox := db.outbox + [row])
  }

  lemma MoveStamped(c: Command, clock: Time, target: CommandState, report: Option<Report>, at: Time)
    requires Stamped(c, clock) && clock <= at && Movable(c, target, report, at)
    ensures Stamped(Moved(c, target, at).(report := report), at)
  {
  }

  lemma MoveDue(db: Db, clock: Time, id: Id, target: CommandState, report: Option<Report>, at: Time, db': Db, fact: Fact)
    requires id in db.commands && Stamped(db.commands[id], clock) && Movable(db.commands[id], target, report, at)
    requires db'.approvals == db.approvals
    requires db'.commands == db.commands[id := Moved(db.commands[id], target, at).(report := report)]
    requires Named(fact) && fact != NoticeOf(id, target)
    ensures Due(db', fact) == Due(db, fact)
  {
    var c, d := db.commands[id], db'.commands[id];
    assert d.approval == c.approval && d.releasedAt == c.releasedAt;
  }

  lemma MoveIsDue(db: Db, clock: Time, id: Id, target: CommandState, report: Option<Report>, at: Time, db': Db)
    requires id in db.commands && Stamped(db.commands[id], clock) && Movable(db.commands[id], target, report, at)
    requires db'.commands == db.commands[id := Moved(db.commands[id], target, at).(report := report)]
    ensures Named(NoticeOf(id, target)) && Due(db', NoticeOf(id, target))
    ensures Due(db, NoticeOf(id, target)) ==> Repeats(NoticeOf(id, target))
  {
  }

  lemma MoveTold(db: Db, clock: Time, id: Id, target: CommandState, report: Option<Report>, at: Time, row: Row)
    requires Told(db) && id in db.commands && Stamped(db.commands[id], clock) && Movable(db.commands[id], target, report, at)
    requires Plain(row.fact) == NoticeOf(id, target)
    ensures Told(MoveOf(db, id, target, report, at, row))
  {
    var db' := MoveOf(db, id, target, report, at, row);
    forall fact | Named(fact) && fact != Plain(row.fact) ensures Due(db', fact) == Due(db, fact) {
      MoveDue(db, clock, id, target, report, at, db', fact);
    }
    MoveIsDue(db, clock, id, target, report, at, db');
    RowTold(db, db', row);
  }

  /** A command rewritten with its link: the anonymous rows still match. */
  lemma RewriteAnonymous(db: Db, id: Id, d: Command, row: Row)
    requires Anonymous(db) && id in db.commands && d.approval == db.commands[id].approval && row.fact != QueueNotice(None)
    ensures Anonymous(db.(commands := db.commands[id := d], outbox := db.outbox + [row]))
  {
    TimesSnoc(db.outbox, row, QueueNotice(None));
    assert ReleasedAtOnce(db.commands[id := d]) == ReleasedAtOnce(db.commands);
  }

  lemma RewriteStamped(db: Db, clock: Time, id: Id, d: Command, at: Time, db': Db)
    requires AllStamped(db, clock) && clock <= at && db'.commands == db.commands[id := d] && Stamped(d, at)
    ensures AllStamped(db', at)
  {
    forall x | x in db'.commands ensures Stamped(db'.commands[x], at) {
      if x != id { assert Stamped(db.commands[x], clock); }
    }
  }

  lemma RewriteAudited(db: Db, id: Id, d: Command, db': Db)
    requires Audited(db) && id in db.commands && d.effect == db.commands[id].effect
    requires db'.commands == db.commands[id := d] && db'.approvals == db.approvals && db'.audits == db.audits
    ensures Audited(db')
  {
  }

  predicate SameOwner(c: Command, d: Command) {
    d.id == c.id && d.tenant == c.tenant && d.run == c.run && d.approval == c.approval && d.effect == c.effect
  }

  lemma RewriteAddressed(db: Db, id: Id, d: Command, row: Row)
    requires AllAddressed(db) && id in db.commands && SameOwner(db.commands[id], d)
    requires CommandIn(row.fact) == Some(id) && row.tenant == d.tenant && row.topic == OfRun(d.run)
    ensures AllAddressed(db.(commands := db.commands[id := d], outbox := db.outbox + [row]))
  {
    RowAddressed(db, db.(commands := db.commands[id := d], outbox := db.outbox + [row]), row);
  }

  /** One command rewritten and one row about it. */
  lemma RewriteKeeps(db: Db, clock: Time, id: Id, d: Command, at: Time, row: Row)
    requires Sound(db, clock) && clock <= at && id in db.commands && SameOwner(db.commands[id], d) && Stamped(d, at)
    requires CommandIn(row.fact) == Some(id) && row.tenant == d.tenant && row.topic == OfRun(d.run)
    requires Told(db.(commands := db.commands[id := d], outbox := db.outbox + [row]))
    ensures Sound(db.(commands := db.commands[id := d], outbox := db.outbox + [row]), at)
  {
    var db' := db.(commands := db.commands[id := d], outbox := db.outbox + [row]);
    RewriteStamped(db, clock, id, d, at, db');
    RewriteAudited(db, id, d, db');
    RewriteAnonymous(db, id, d, row);
    RewriteAddressed(db, id, d, row);
  }

  lemma MoveKeeps(db: Db, clock: Time, id: Id, target: CommandState, report: Option<Report>, at: Time, row: Row)
    requires Sound(db, clock) && clock <= at && id in db.commands && Movable(db.commands[id], target, report, at)
    requires Plain(row.fact) == NoticeOf(id, target)
    requires row.tenant == db.commands[id].tenant && row.topic == OfRun(db.commands[id].run)
    ensures Sound(MoveOf(db, id, target, report, at, row), at)
  {
    var d := Moved(db.commands[id], target, at).(report := report);
    MoveTold(db, clock, id, target, report, at, row);
    MoveStamped(db.commands[id], clock, target, report, at);
    RewriteKeeps(db, clock, id, d, at, row);
  }

  lemma LaterIsSound(db: Db, clock: Time, at: Time)
    requires Sound(db, clock) && clock <= at
    ensures Sound(db, at)
  {
  }

  // ---------------------------------------------------------------- submissions

  lemma AuditedMore(db: Db, d: Policies.Decision)
    requires Audited(db)
    ensures Audited(Log(db, PolicyEvaluated(d)))
  {
    forall a, s { AuditSnoc(db.audits, PolicyEvaluated(d), ApprovalDecided(a, s)); }
    forall id, e { AuditSnoc(db.audits, PolicyEvaluated(d), CommandSubmitted(id, e)); }
  }

  lemma AuditedIsSound(db: Db, clock: Time, d: Policies.Decision)
    requires Sound(db, clock)
    ensures Sound(Log(db, PolicyEvaluated(d)), clock)
  {
    AuditedMore(db, d);
    assert forall row | row in db.outbox :: Addressed(db, row);
  }

  lemma CreateDue(db: Db, q: Request, draw: Draw, d: Policies.Decision, effect: Policies.Effect, fact: Fact)
    requires RunFound(db, q) && draw.command !in db.commands && draw.approval !in db.approvals
    requires Named(fact) && fact != (if effect == Policies.RequireApproval then ApprovalRequested(draw.approval) else QueueNotice(None))
    ensures Due(Create(db, q, draw, d, effect), fact) == Due(db, fact)
  {
  }

  lemma CreateTold(db: Db, q: Request, draw: Draw, d: Policies.Decision, effect: Policies.Effect)
    requires Told(db) && RunFound(db, q) && draw.command !in db.commands && draw.approval !in db.approvals
    ensures Told(Create(db, q, draw, d, effect))
  {
    var db' := Create(db, q, draw, d, effect);
    var row := db'.outbox[|db.outbox|];
    forall fact | Named(fact) && fact != Plain(row.fact) ensures Due(db', fact) == Due(db, fact) {
      CreateDue(db, q, draw, d, effect, fact);
    }
    RowTold(db, db', row);
  }

  lemma CreateAnonymous(db: Db, q: Request, draw: Draw, d: Policies.Decision, effect: Policies.Effect)
    requires Anonymous(db) && RunFound(db, q) && draw.command !in db.commands
    ensures Anonymous(Create(db, q, draw, d, effect))
  {
    var db' := Create(db, q, draw, d, effect);
    TimesSnoc(db.outbox, db'.outbox[|db.outbox|], QueueNotice(None));
    assert ReleasedAtOnce(db'.commands) ==
           ReleasedAtOnce(db.commands) + if effect == Policies.RequireApproval then {} else {draw.command};
  }

  lemma CreateAudited(db: Db, q: Request, draw: Draw, d: Policies.Decision, effect: Policies.Effect)
    requires Audited(db) && RunFound(db, q) && draw.command !in db.commands && draw.approval !in db.approvals
    ensures Audited(Create(db, q, draw, d, effect))
  {
    var db', entry := Create(db, q, draw, d, effect), CommandSubmitted(draw.command, effect);
    assert db'.audits == db.audits + [entry];
    forall a, s
      ensures AuditTimes(db'.audits, ApprovalDecided(a, s)) == AuditTimes(db.audits, ApprovalDecided(a, s))
    {
      AuditSnoc(db.audits, entry, ApprovalDecided(a, s));
    }
    forall id, e
      ensures AuditTimes(db'.audits, CommandSubmitted(id, e)) ==
              AuditTimes(db.audits, CommandSubmitted(id, e)) + if id == draw.command && e == effect then 1 else 0
    {
      AuditSnoc(db.audits, entry, CommandSubmitted(id, e));
    }
  }

  lemma CreateKeeps(db: Db, clock: Time, q: Request, draw: Draw, d: Policies.Decision, effect: Policies.Effect)
    requires Sound(db, clock) && clock <= draw.now && RunFound(db, q)
    requires draw.command !in db.commands && draw.approval !in db.approvals
    ensures Sound(Create(db, q, draw, d, effect), draw.now)
  {
    var db' := Create(db, q, draw, d, effect);
    CreateTold(db, q, draw, d, effect);
    CreateAnonymous(db, q, draw, d, effect);
    CreateAudited(db, q, draw, d, effect);
    RowAddressed(db, db', db'.outbox[|db.outbox|]);
    RewriteStamped(db, clock, draw.command, db'.commands[draw.command], draw.now, db');
  }

  lemma SubmitKeeps(db: Db, clock: Time, q: Request, g: Governance, draw: Draw)
    requires Sound(db, clock) && clock <= draw.now && Policies.DistinctIds(g.policies)
    requires draw.command !in db.commands && draw.approval !in db.approvals
    ensures Sound(Submit(db, q, g, draw).0, draw.now)
  {
    LaterIsSound(db, clock, draw.now);
    if RunFound(db, q) && !KeyUsed(db, q.tenant, KeyOf(q, draw)) {
      var d := Policies.Resolve(g.policies, ActionOf(db, q), g.fallback);
      var gate := Budgets.Gate(g.budgets, SubjectOf(db, q), g.records, g.moment);
      AuditedIsSound(db, draw.now, d);
      if d.effect != Policies.Deny && gate != Budgets.Block {
        CreateKeeps(Log(db, PolicyEvaluated(d)), draw.now, q, draw, d, Harden(d.effect, gate));
      }
    }
  }

  // ---------------------------------------------------------------- decisions

  lemma CancelLinkedKeeps(db: Db, clock: Time, approval: Id, at: Time, reason: string)
    requires Sound(db, clock) && clock <= at
    ensures Sound(CancelLinked(db, approval, at, reason), at)
  {
    LaterIsSound(db, clock, at);
    if HasLinked(db, approval) && db.commands[Linked(db, approval)].status == CommandQueued {
      var c := db.commands[Linked(db, approval)];
      MoveKeeps(db, clock, c.id, CommandCancelled, c.report, at, Row(c.tenant, OfRun(c.run), CancelNotice(c.id, reason)));
    }
  }

  /** Before the release the command of a pending approval is unreleased. */
  lemma ReleaseLinkedKeeps(db: Db, clock: Time, approval: Id, at: Time)
    requires Sound(db, clock) && clock <= at
    requires HasLinked(db, approval) ==> db.commands[Linked(db, approval)].releasedAt.None?
    ensures Sound(ReleaseLinked(db, approval, at), at)
  {
    LaterIsSound(db, clock, at);
    if HasLinked(db, approval) && db.commands[Linked(db, approval)].status == CommandQueued {
      var c := db.commands[Linked(db, approval)];
      var row, db' := Row(c.tenant, OfRun(c.run), QueueNotice(Some(c.id))), ReleaseLinked(db, approval, at);
      forall fact | Named(fact) && fact != row.fact ensures Due(db', fact) == Due(db, fact) {}
      RowTold(db, db', row);
      assert Stamped(c, clock);
      RewriteKeeps(db, clock, c.id, c.(releasedAt := Some(at)), at, row);
    }
  }

  /** The approval row settles, is announced and audited. */
  lemma VerdictKeeps(db: Db, clock: Time, approval: Id, a: Approval, row: Row)
    requires Sound(db, clock) && approval in db.approvals && db.approvals[approval].status == Pending
    requires a.tenant == db.approvals[approval].tenant && row.tenant == a.tenant && row.topic == Approvals
    requires (a.status == Approved && row.fact == ApprovalApproved(approval)) || (a.status == Rejected && row.fact == ApprovalRejected(approval))
    ensures Sound(db.(approvals := db.approvals[approval := a], outbox := db.outbox + [row],
                      audits := db.audits + [ApprovalDecided(approval, a.status)]), clock)
  {
    var entry := ApprovalDecided(approval, a.status);
    var db' := db.(approvals := db.approvals[approval := a], outbox := db.outbox + [row], audits := db.audits + [entry]);
    forall fact | Named(fact) && fact != row.fact ensures Due(db', fact) == Due(db, fact) {}
    RowTold(db, db', row);
    RowAddressed(db, db', row);
    TimesSnoc(db.outbox, row, QueueNotice(None));
    VerdictAudited(db, approval, a);
  }

  lemma VerdictAudited(db: Db, approval: Id, a: Approval)
    requires Audited(db) && approval in db.approvals && db.approvals[approval].status == Pending
    requires a.status == Approved || a.status == Rejected
    ensures Audited(db.(approvals := db.approvals[approval := a], audits := db.audits + [ApprovalDecided(approval, a.status)]))
  {
    var entry := ApprovalDecided(approval, a.status);
    var audits := db.audits + [entry];
    forall x, s
      ensures AuditTimes(audits, ApprovalDecided(x, s)) ==
              AuditTimes(db.audits, ApprovalDecided(x, s)) + if x == approval && s == a.status then 1 else 0
    {
      AuditSnoc(db.audits, entry, ApprovalDecided(x, s));
    }
    forall id, e
      ensures AuditTimes(audits, CommandSubmitted(id, e)) == AuditTimes(db.audits, CommandSubmitted(id, e))
    {
      AuditSnoc(db.audits, entry, CommandSubmitted(id, e));
    }
  }

  /** The link finds the same command whatever the approval's row says. */
  lemma LinkedEitherWay(db: Db, taken: Db, approval: Id)
    requires UniqueLinks(db) && taken.commands == db.commands && HasLinked(db, approval)
    ensures HasLinked(taken, approval) && Linked(taken, approval) == Linked(db, approval)
  {
    var id := Linked(db, approval);
    assert taken.commands[id].approval == Some(approval);
    var other := Linked(taken, approval);
    assert db.commands[other].approval == Some(approval);
  }

  lemma ApproveKeeps(db: Db, clock: Time, tenant: Option<Id>, approval: Id, version: int, user: Option<Id>, at: Time)
    requires Sound(db, clock) && DbOk(db, clock) && clock <= at && Decidable(db, tenant, approval, version)
    ensures Sound(Decide(db, tenant, approval, Approve, version, user, at).0, at)
  {
    var a := db.approvals[approval];
    var a' := a.(status := Approved, version := a.version + 1, decidedAt := Some(at), decidedBy := user);
    PendingIsUnreleased(db, clock, approval);
    LinkedEitherWay(db, db.(approvals := db.approvals[approval := a']), approval);
    ReleaseLinkedKeeps(db, clock, approval, at);
    VerdictKeeps(ReleaseLinked(db, approval, at), at, approval, a', Row(tenant, Approvals, ApprovalApproved(approval)));
  }

  lemma RejectKeeps(db: Db, clock: Time, tenant: Option<Id>, approval: Id, version: int, user: Option<Id>, at: Time)
    requires Sound(db, clock) && DbOk(db, clock) && clock <= at && Decidable(db, tenant, approval, version)
    ensures Sound(Decide(db, tenant, approval, Reject, version, user, at).0, at)
  {
    var a := db.approvals[approval];
    var a' := a.(status := Rejected, version := a.version + 1, decidedAt := Some(at), decidedBy := user);
    PendingIsUnreleased(db, clock, approval);
    LinkedEitherWay(db, db.(approvals := db.approvals[approval := a']), approval);
    CancelLinkedKeeps(db, clock, approval, at, "approval_rejected");
    VerdictKeeps(CancelLinked(db, approval, at, "approval_rejected"), at, approval, a', Row(tenant, Approvals, ApprovalRejected(approval)));
  }

  lemma PendingIsUnreleased(db: Db, clock: Time, approval: Id)
    requires DbOk(db, clock) && approval in db.approvals && db.approvals[approval].status == Pending
    ensures HasLinked(db, approval) && db.commands[Linked(db, approval)].releasedAt.None?
  {
    assert HasLinked(db, approval);
    assert CommandOk(db.approvals, clock, db.commands[Linked(db, approval)]);
  }

  lemma DecideKeeps(db: Db, clock: Time, tenant: Option<Id>, approval: Id, v: Verdict, version: int, user: Option<Id>, at: Time)
    requires Sound(db, clock) && DbOk(db, clock) && clock <= at
    ensures Sound(Decide(db, tenant, approval, v, version, user, at).0, at)
  {
    LaterIsSound(db, clock, at);
    if Decidable(db, tenant, approval, version) {
      match v
      case Approve => ApproveKeeps(db, clock, tenant, approval, version, user, at);
      case Reject => RejectKeeps(db, clock, tenant, approval, version, user, at);
    }
  }

  lemma UpdatedKeeps(db: Db, clock: Time, approval: Id)
    requires Sound(db, clock)
    ensures Sound(Updated(db, approval), clock)
  {
    var db' := Updated(db, approval);
    forall fact | Named(fact) ensures Due(db', fact) == Due(db, fact) {}
    forall row | row in db'.outbox ensures Addressed(db', row) { assert Addressed(db, row); }
  }

  lemma ExpireKeeps(db: Db, clock: Time, approval: Id, at: Time)
    requires Sound(db, clock) && clock <= at
    ensures Sound(Expire(db, approval, at), at)
  {
    UpdatedKeeps(db, clock, approval);
    CancelLinkedKeeps(Updated(db, approval), clock, approval, at, "approval_expired");
  }

  // ---------------------------------------------------------------- polls and calls

  lemma {:induction false} WalkKeeps(db: Db, clock: Time, walked: seq<Command>, at: Time)
    requires Sound(db, clock) && clock <= at && QueuedRows(db, walked)
    ensures Sound(HandleAll(db, walked, at), at)
    decreases |walked|
  {
    LaterIsSound(db, clock, at);
    if walked != [] {
      var c := walked[0];
      HandleLeavesRest(db, walked, at);
      var target := if IsStale(c, at) then CommandExpired else Delivered;
      MoveKeeps(db, clock, c.id, target, c.report, at, Row(c.tenant, OfRun(c.run), NoticeOf(c.id, target)));
      WalkKeeps(Handle(db, c, at), at, walked[1..], at);
    }
  }

  lemma CancelKeeps(db: Db, clock: Time, tenant: Option<Id>, id: Id, at: Time)
    requires Sound(db, clock) && clock <= at
    ensures Sound(Cancel(db, tenant, id, at).0, at)
  {
    LaterIsSound(db, clock, at);
    if Cancel(db, tenant, id, at).1.Done? {
      var c := db.commands[id];
      MoveKeeps(db, clock, id, CommandCancelled, c.report, at, Row(c.tenant, OfRun(c.run), CancelNotice(id, "operator_cancel")));
    }
  }

  lemma AcknowledgeKeeps(db: Db, clock: Time, tenant: Option<Id>, agent: Id, id: Id, at: Time)
    requires Sound(db, clock) && clock <= at
    ensures Sound(Acknowledge(db, tenant, agent, id, at).0, at)
  {
    LaterIsSound(db, clock, at);
    if Acknowledge(db, tenant, agent, id, at).1.Done? {
      var c := db.commands[id];
      MoveKeeps(db, clock, id, Acknowledged, c.report, at, Row(c.tenant, OfRun(c.run), AckNotice(id)));
    }
  }

  lemma ResultKeeps(db: Db, clock: Time, tenant: Option<Id>, agent: Id, id: Id, success: Option<bool>, payload: string,
                    error: string, at: Time)
    requires Sound(db, clock) && clock <= at
    ensures Sound(SubmitResult(db, tenant, agent, id, success, payload, error, at).0, at)
  {
    LaterIsSound(db, clock, at);
    if SubmitResult(db, tenant, agent, id, success, payload, error, at).1.Done? {
      var c, target := db.commands[id], if success.value then CommandSucceeded else CommandFailed;
      var report := Report(success.value, payload, if success.value then "" else error);
      MoveKeeps(db, clock, id, target, Some(report), at, Row(c.tenant, OfRun(c.run), NoticeOf(id, target)));
    }
  }

  lemma StepKeepsSound(w: World, step: Step)
    requires Inv(w) && Sound(w.db, w.clock) && Enabled(w, step)
    ensures Sound(Next(w, step).db, Next(w, step).clock)
  {
    match step
    case Submitting(q, g, draw) => SubmitKeeps(w.db, w.clock, q, g, draw);
    case Guarding(_, _, _, _, _, _, at) => LaterIsSound(w.db, w.clock, at);
    case Settling(session, at) =>
      var f := w.inFlight[session];
      if f.Deciding? {
        DecideKeeps(w.db, w.clock, f.tenant, f.approval, f.verdict, f.version, f.user, at);
      } else {
        ExpireKeeps(w.db, w.clock, f.approval, at);
      }
    case Polling(tenant, agent, limit, at) =>
      WalkedRows(w.db, tenant, agent, limit, at);
      WalkKeeps(w.db, w.clock, Walked(w.db, tenant, agent, limit, at), at);
    case Cancelling(tenant, id, at) => CancelKeeps(w.db, w.clock, tenant, id, at);
    case Acking(tenant, agent, id, at) => AcknowledgeKeeps(w.db, w.clock, tenant, agent, id, at);
    case Reporting(tenant, agent, id, success, payload, error, at) =>
      ResultKeeps(w.db, w.clock, tenant, agent, id, success, payload, error, at);
  }

  lemma {:induction false} RunKeepsSound(w: World, steps: seq<Step>)
    requires Inv(w) && Sound(w.db, w.clock) && Runs(w, steps)
    ensures Sound(After(w, steps).db, After(w, steps).clock)
    decreases |steps|
  {
    if steps != [] {
      StepKeepsInv(w, steps[0]);
      StepKeepsSound(w, steps[0]);
      RunKeepsSound(Next(w, steps[0]), steps[1..]);
    }
  }

  lemma StartIsSound(runs: map<Id, RunRef>, agents: set<Id>, clock: Time)
    ensures Inv(Start(runs, agents, clock)) && Sound(Start(runs, agents, clock).db, clock)
  {
    assert ReleasedAtOnce(map[]) == {};
  }

  // ---------------------------------------------------------------- over whole runs

  ghost predicate Reachable(w: World) {
    exists runs, agents, clock, steps :: Runs(Start(runs, agents, clock), steps) && w == After(Start(runs, agents, clock), steps)
  }

  lemma ReachableIsSound(w: World)
    requires Reachable(w)
    ensures Inv(w) && Sound(w.db, w.clock)
  {
    var runs, agents, clock, steps :| Runs(Start(runs, agents, clock), steps) && w == After(Start(runs, agents, clock), steps);
    StartIsSound(runs, agents, clock);
    RunKeepsInv(Start(runs, agents, clock), steps);
    RunKeepsSound(Start(runs, agents, clock), steps);
  }

  lemma FactAgrees(db: Db, fact: Fact)
    requires Told(db) && Named(fact)
    ensures Agrees(Times(db.outbox, fact), Due(db, fact), Repeats(fact))
  {
  }

  /**
   In every reachable state a decision is announced exactly once, by the row of its own verdict, to the
   approval's tenant on the topic of the approvals, and audited with the status it left; a request likewise.
   */
  lemma DecisionsAreTold(w: World, a: Id)
    requires Reachable(w)
    ensures var db := w.db;
            && Times(db.outbox, ApprovalRequested(a)) == (if a in db.approvals then 1 else 0)
            && Times(db.outbox, ApprovalApproved(a)) == (if a in db.approvals && db.approvals[a].status == Approved then 1 else 0)
            && Times(db.outbox, ApprovalRejected(a)) == (if a in db.approvals && db.approvals[a].status == Rejected then 1 else 0)
            && (forall s :: AuditTimes(db.audits, ApprovalDecided(a, s)) ==
                  if a in db.approvals && db.approvals[a].status == s && (s == Approved || s == Rejected) then 1 else 0)
  {
    ReachableIsSound(w);
    FactAgrees(w.db, ApprovalRequested(a));
    FactAgrees(w.db, ApprovalApproved(a));
    FactAgrees(w.db, ApprovalRejected(a));
  }

  /**
   In every reachable state the outbox tells of a command what its row says: delivered or expired exactly
   once, acknowledged, succeeded, failed or cancelled exactly when it was, and named as queued exactly when it
   was held and has been released; and its submission is audited once, with its effect.
   */
  lemma CommandsAreTold(w: World, id: Id)
    requires Reachable(w) && id in w.db.commands
    ensures var c, rows := w.db.commands[id], w.db.outbox;
            && Times(rows, QueueNotice(Some(id))) == (if c.approval.Some? && c.releasedAt.Some? then 1 else 0)
            && Times(rows, DeliveryNotice(id)) == (if c.deliveredAt.Some? then 1 else 0)
            && Times(rows, ExpiryNotice(id)) == (if c.status == CommandExpired then 1 else 0)
            && (Times(rows, AckNotice(id)) > 0 <==>
                  c.status == Acknowledged || c.status == CommandSucceeded || c.status == CommandFailed)
            && (Times(rows, SuccessNotice(id)) > 0 <==> c.status == CommandSucceeded)
            && (Times(rows, FailureNotice(id)) > 0 <==> c.status == CommandFailed)
            && (Times(rows, CancelNotice(id, "")) > 0 <==> c.status == CommandCancelled)
    ensures forall e :: AuditTimes(w.db.audits, CommandSubmitted(id, e)) == if w.db.commands[id].effect == e then 1 else 0
  {
    ReachableIsSound(w);
    assert Stamped(w.db.commands[id], w.clock);
    ToldOnce(w.db, id);
    ToldAgain(w.db, id);
  }

  lemma ToldOnce(db: Db, id: Id)
    requires Told(db) && id in db.commands
    ensures var c, rows := db.commands[id], db.outbox;
            && Times(rows, QueueNotice(Some(id))) == (if c.approval.Some? && c.releasedAt.Some? then 1 else 0)
            && Times(rows, DeliveryNotice(id)) == (if c.deliveredAt.Some? then 1 else 0)
            && Times(rows, ExpiryNotice(id)) == (if c.status == CommandExpired then 1 else 0)
  {
    FactAgrees(db, QueueNotice(Some(id)));
    FactAgrees(db, DeliveryNotice(id));
    FactAgrees(db, ExpiryNotice(id));
  }

  lemma ToldAgain(db: Db, id: Id)
    requires Told(db) && id in db.commands
    ensures var c, rows := db.commands[id], db.outbox;
            && (Times(rows, AckNotice(id)) > 0 <==> c.acknowledgedAt.Some?)
            && (Times(rows, SuccessNotice(id)) > 0 <==> c.status == CommandSucceeded)
            && (Times(rows, FailureNotice(id)) > 0 <==> c.status == CommandFailed)
            && (Times(rows, CancelNotice(id, "")) > 0 <==> c.status == CommandCancelled)
  {
    FactAgrees(db, AckNotice(id));
    FactAgrees(db, SuccessNotice(id));
    FactAgrees(db, FailureNotice(id));
    FactAgrees(db, CancelNotice(id, ""));
  }

  /** The rows about one command, and about one approval. */
  predicate IsOnCommand(fact: Fact, id: Id) {
    Plain(fact) in {QueueNotice(Some(id)), DeliveryNotice(id), AckNotice(id), SuccessNotice(id), FailureNotice(id),
                    ExpiryNotice(id), CancelNotice(id, "")}
  }

  predicate IsOnApproval(fact: Fact, a: Id) {
    fact in {ApprovalRequested(a), ApprovalApproved(a), ApprovalRejected(a)}
  }

  /** Every row goes to the tenant it concerns: on the topic of its command's run, or of the approvals. */
  lemma RowsAreAddressed(w: World, row: Row)
    requires Reachable(w) && row in w.db.outbox
    ensures row.fact == QueueNotice(None) || exists id :: IsOnCommand(row.fact, id) || IsOnApproval(row.fact, id)
    ensures forall id | IsOnCommand(row.fact, id) ::
              id in w.db.commands && row.tenant == w.db.commands[id].tenant && row.topic == OfRun(w.db.commands[id].run)
    ensures forall a | IsOnApproval(row.fact, a) ::
              a in w.db.approvals && row.tenant == w.db.approvals[a].tenant && row.topic == Approvals
    ensures row.fact == QueueNotice(None) ==>
              row.topic.OfRun? && row.topic.run in w.db.runs && row.tenant == w.db.runs[row.topic.run].tenant
  {
    ReachableIsSound(w);
    assert Addressed(w.db, row);
    if CommandIn(row.fact).Some? { assert IsOnCommand(row.fact, CommandIn(row.fact).value); }
    if ApprovalIn(row.fact).Some? { assert IsOnApproval(row.fact, ApprovalIn(row.fact).value); }
  }

  /** As many anonymous queue rows as commands that were released at their submission. */
  lemma AnonymousAreCounted(w: World)
    requires Reachable(w)
    ensures Times(w.db.outbox, QueueNotice(None)) == |set id | id in w.db.commands && w.db.commands[id].approval.None?|
  {
    ReachableIsSound(w);
    assert ReleasedAtOnce(w.db.commands) == set id | id in w.db.commands && w.db.commands[id].approval.None?;
  }

  /**
   In every reachable state a command's stamps follow each other and are set exactly by the states it went
   through, its report says how it ended, and it expired only after its deadline.
   */
  lemma StampsTell(w: World, id: Id)
    requires Reachable(w) && id in w.db.commands
    ensures var c := w.db.commands[id];
            && (c.status == Delivered || c.acknowledgedAt.Some? ==> c.deliveredAt.Some?)
            && (c.status == CommandQueued || c.status == CommandExpired ==> c.deliveredAt.None?)
            && (c.acknowledgedAt.Some? <==> c.status == Acknowledged || c.resultAt.Some?)
            && (c.resultAt.Some? <==> c.status == CommandSucceeded || c.status == CommandFailed)
            && (c.report.Some? <==> c.resultAt.Some?)
            && (c.report.Some? ==> (c.report.value.success <==> c.status == CommandSucceeded))
            && (c.acknowledgedAt.Some? ==> c.deliveredAt.value <= c.acknowledgedAt.value <= w.clock)
            && (c.resultAt.Some? ==> c.acknowledgedAt.value <= c.resultAt.value <= w.clock)
            && (c.status == CommandExpired ==> c.expiresAt <= w.clock)
            && (c.approval.Some? <==> c.effect == Policies.RequireApproval)
  {
    ReachableIsSound(w);
    assert Stamped(w.db.commands[id], w.clock);
  }

  predicate Names(row: Row, id: Id) {
    row.fact == QueueNotice(Some(id))
  }

  lemma NamesAreTimes(rows: seq<Row>, id: Id)
    ensures (exists row :: row in rows && Names(row, id)) <==> Times(rows, QueueNotice(Some(id))) > 0
  {
    TimesIsPresence(rows, QueueNotice(Some(id)));
    if row :| row in rows && Plain(row.fact) == QueueNotice(Some(id)) { assert Names(row, id); }
    if row :| row in rows && Names(row, id) { assert Plain(row.fact) == QueueNotice(Some(id)); }
  }

  lemma NamedIfReleased(db: Db, id: Id)
    requires Told(db)
    ensures (exists row :: row in db.outbox && Names(row, id)) <==> Due(db, QueueNotice(Some(id)))
  {
    var fact := QueueNotice(Some(id));
    assert Named(fact) && Agrees(Times(db.outbox, fact), Due(db, fact), Repeats(fact));
    NamesAreTimes(db.outbox, id);
  }

  /**
   In every reachable state the outbox announces a command by its identifier exactly when the command
   was held by an approval and has been released; one released at submission never is.
   */
  lemma NamedExactlyWhenReleasedLater(w: World, id: Id)
    requires Reachable(w)
    ensures (exists row :: row in w.db.outbox && Names(row, id)) <==>
            (id in w.db.commands && w.db.commands[id].approval.Some? && w.db.commands[id].releasedAt.Some?)
  {
    ReachableIsSound(w);
    NamedIfReleased(w.db, id);
  }

  // ---------------------------------------------------------------- what the control services write

  lemma SubmitWrites(db: Db, q: Request, g: Governance, draw: Draw)
    requires Policies.DistinctIds(g.policies)
    ensures Adds(db.outbox, Submit(db, q, g, draw).0.outbox, Governing)
  {
  }

  lemma DecideWrites(db: Db, tenant: Option<Id>, approval: Id, v: Verdict, version: int, user: Option<Id>, now: Time)
    ensures Adds(db.outbox, Decide(db, tenant, approval, v, version, user, now).0.outbox, Governing)
  {
  }

  lemma ExpireWrites(db: Db, approval: Id, now: Time)
    ensures Adds(db.outbox, Expire(db, approval, now).outbox, Governing)
  {
  }

  lemma {:induction false} WalkWrites(db: Db, walked: seq<Command>, now: Time)
    requires forall i | 0 <= i < |walked| :: walked[i].status == CommandQueued
    ensures Adds(db.outbox, HandleAll(db, walked, now).outbox, Governing)
    decreases |walked|
  {
    if walked != [] {
      var db' := Handle(db, walked[0], now);
      WalkWrites(db', walked[1..], now);
      AddsTrans(db.outbox, db'.outbox, HandleAll(db, walked, now).outbox, Governing);
    }
  }

  /** The control services append to the outbox, and every row they append is about a command or an approval. */
  lemma StepWrites(w: World, step: Step)
    requires Enabled(w, step)
    ensures Adds(w.db.outbox, Next(w, step).db.outbox, Governing)
  {
    match step
    case Submitting(q, g, draw) => SubmitWrites(w.db, q, g, draw);
    case Settling(session, at) =>
      var f := w.inFlight[session];
      if f.Deciding? {
        DecideWrites(w.db, f.tenant, f.approval, f.verdict, f.version, f.user, at);
      } else {
        ExpireWrites(w.db, f.approval, at);
      }
    case Polling(tenant, agent, limit, at) => WalkWrites(w.db, Walked(w.db, tenant, agent, limit, at), at);
    case _ =>
  }
}
