/**
 The approval gate over every run of the control plane, with approval decisions split where the
 code can be interleaved: the guard is one step, the conditional update with its effects another.
 */
module ControlSafety {
  import opened Prelude
  import opened StateMachines
  import opened Control
  import opened Delivery
  import Ordering
  import Budgets
  import Policies
  import Outbox

  /** A decision past its guard: about to run its conditional update, or its expiry. */
  datatype InFlight =
    | Deciding(tenant: Option<Id>, approval: Id, verdict: Verdict, version: int, user: Option<Id>)
    | Expiring(approval: Id)

  /** The tables, the clock, the decisions under way, and two histories: deliveries and settled approvals. */
  datatype World = World(db: Db, clock: Time, inFlight: map<Id, InFlight>, delivered: seq<Id>, settled: seq<Id>)

  datatype Step =
    | Submitting(q: Request, g: Governance, draw: Draw)
    | Guarding(session: Id, tenant: Option<Id>, approval: Id, verdict: Verdict, version: int, user: Option<Id>, at: Time)
    | Settling(session: Id, at: Time)
    | Cancelling(tenant: Option<Id>, id: Id, at: Time)
    | Polling(tenant: Option<Id>, agent: Id, limit: int, at: Time)
    | Acking(tenant: Option<Id>, agent: Id, id: Id, at: Time)
    | Reporting(tenant: Option<Id>, agent: Id, id: Id, success: Option<bool>, payload: string, error: string, at: Time)

  function TimeOf(step: Step): Time {
    if step.Submitting? then step.draw.now else step.at
  }

  /** The clock does not run backwards and drawn identifiers are new. */
  ghost predicate Enabled(w: World, step: Step) {
    && w.clock <= TimeOf(step)
    && KeysMatch(w.db)
    && match step
       case Submitting(_, g, draw) =>
         Policies.DistinctIds(g.policies) && draw.command !in w.db.commands && draw.approval !in w.db.approvals
       case Guarding(session, _, _, _, _, _, _) => session !in w.inFlight
       case Settling(session, _) => session in w.inFlight
       case _ => true
  }

  ghost function Changed(before: Db, after: Db, approval: Id): seq<Id> {
    if approval in before.approvals && approval in after.approvals
       && before.approvals[approval] != after.approvals[approval] then [approval] else []
  }

  ghost function Next(w: World, step: Step): World
    requires Enabled(w, step)
  {
    var v := w.(clock := TimeOf(step));
    match step
    case Submitting(q, g, draw) => v.(db := Submit(w.db, q, g, draw).0)
    case Guarding(session, tenant, approval, verdict, version, user, at) =>
      (match Guard(w.db, tenant, approval, at)
       case Clear => v.(inFlight := w.inFlight[session := Deciding(tenant, approval, verdict, version, user)])
       case Stale => v.(inFlight := w.inFlight[session := Expiring(approval)])
       case _ => v)
    case Settling(session, at) =>
      var f := w.inFlight[session];
      var db := Settle(w.db, f, at);
      v.(db := db, inFlight := w.inFlight - {session}, settled := w.settled + Changed(w.db, db, f.approval))
    case Cancelling(tenant, id, at) => v.(db := Cancel(w.db, tenant, id, at).0)
    case Polling(tenant, agent, limit, at) =>
      var (db, ids) := Poll(w.db, tenant, agent, limit, at);
      v.(db := db, delivered := w.delivered + ids)
    case Acking(tenant, agent, id, at) => v.(db := Acknowledge(w.db, tenant, agent, id, at).0)
    case Reporting(tenant, agent, id, success, payload, error, at) =>
      v.(db := SubmitResult(w.db, tenant, agent, id, success, payload, error, at).0)
  }

  ghost predicate Runs(w: World, steps: seq<Step>)
    decreases |steps|
  {
    steps == [] || (Enabled(w, steps[0]) && Runs(Next(w, steps[0]), steps[1..]))
  }

  ghost function After(w: World, steps: seq<Step>): World
    requires Runs(w, steps)
    decreases |steps|
  {
    if steps == [] then w else After(Next(w, steps[0]), steps[1..])
  }

  // ---------------------------------------------------------------- the invariant

  /** Pending exactly at version 1, decided exactly at version 2. */
  predicate ApprovalOk(a: Approval) {
    && a.version == (if a.status == Pending then 1 else 2)
    && a.status != ApprovalCancelled
  }

  function VersionOf(c: Command): nat {
    match c.status
    case CommandQueued => 1
    case Delivered => 2
    case CommandExpired => 2
    case Acknowledged => 3
    case CommandCancelled => if c.deliveredAt.Some? then 3 else 2
    case CommandSucceeded => 4
    case CommandFailed => 4
  }

  /** What an approval's state says about the command it holds. */
  predicate Governed(c: Command, s: ApprovalState) {
    match s
    case Pending => c.releasedAt.None? && (c.status == CommandQueued || c.status == CommandCancelled)
    case Approved => c.releasedAt.Some? || c.status == CommandCancelled
    case _ => c.releasedAt.None? && c.status == CommandCancelled
  }

  predicate CommandOk(approvals: map<Id, Approval>, clock: Time, c: Command) {
    && c.version == VersionOf(c)
    && (c.approval.None? ==> c.releasedAt.Some?)
    && (c.approval.Some? ==> c.approval.value in approvals && Governed(c, approvals[c.approval.value].status))
    && (c.releasedAt.Some? ==> c.releasedAt.value <= clock)
    && (c.status in {Delivered, Acknowledged, CommandSucceeded, CommandFailed} ==> c.deliveredAt.Some?)
    && (c.status in {CommandQueued, CommandExpired} ==> c.deliveredAt.None?)
    && (c.deliveredAt.Some? ==>
          && c.releasedAt.Some? && c.releasedAt.value <= c.deliveredAt.value < c.expiresAt
          && c.deliveredAt.value <= clock
          && (c.approval.Some? ==> approvals[c.approval.value].status == Approved))
  }

  ghost predicate UniqueLinks(db: Db) {
    forall i, j | i in db.commands && j in db.commands && i != j && db.commands[i].approval.Some? ::
      db.commands[i].approval != db.commands[j].approval
  }

  ghost predicate UniqueKeys(db: Db) {
    forall i, j | i in db.commands && j in db.commands && i != j ::
      !HasKey(db.commands[i], db.commands[j].tenant, db.commands[j].key)
  }

  ghost predicate DbOk(db: Db, clock: Time) {
    && KeysMatch(db) && UniqueLinks(db) && UniqueKeys(db)
    && (forall a | a in db.approvals :: db.approvals[a].id == a && ApprovalOk(db.approvals[a]) && HasLinked(db, a))
    && (forall id | id in db.commands :: CommandOk(db.approvals, clock, db.commands[id]))
  }

  ghost predicate HistoryOk(w: World) {
    && (forall i, j | 0 <= i < j < |w.delivered| :: w.delivered[i] != w.delivered[j])
    && (forall id | id in w.delivered :: id in w.db.commands)
    && (forall id | id in w.db.commands :: id in w.delivered <==> w.db.commands[id].deliveredAt.Some?)
    && (forall i, j | 0 <= i < j < |w.settled| :: w.settled[i] != w.settled[j])
    && (forall a | a in w.settled :: a in w.db.approvals)
    && (forall a | a in w.db.approvals :: a in w.settled <==> w.db.approvals[a].status != Pending)
  }

  ghost predicate Inv(w: World) {
    DbOk(w.db, w.clock) && HistoryOk(w)
  }

  // ---------------------------------------------------------------- table updates

  predicate SameIdentity(c: Command, d: Command) {
    c.id == d.id && c.tenant == d.tenant && c.key == d.key && c.approval == d.approval
  }

  lemma LaterIsOk(approvals: map<Id, Approval>, clock: Time, later: Time, c: Command)
    requires CommandOk(approvals, clock, c) && clock <= later
    ensures CommandOk(approvals, later, c)
  {
  }

  /** Rewriting one command, within its own rules, keeps the tables sound. */
  lemma PutKeeps(db: Db, clock: Time, later: Time, c: Command, outbox: seq<Outbox.Row>)
    requires DbOk(db, clock) && clock <= later
    requires c.id in db.commands && SameIdentity(db.commands[c.id], c) && CommandOk(db.approvals, later, c)
    ensures DbOk(db.(commands := db.commands[c.id := c], outbox := outbox), later)
  {
    var db' := db.(commands := db.commands[c.id := c], outbox := outbox);
    forall a | a in db'.approvals
      ensures HasLinked(db', a)
    {
      assert HasLinked(db, a);
      var id :| id in db.commands && db.commands[id].approval == Some(a);
      assert id in db'.commands && db'.commands[id].approval == Some(a);
    }
    forall id | id in db'.commands
      ensures CommandOk(db'.approvals, later, db'.commands[id])
    {
      if id != c.id { LaterIsOk(db.approvals, clock, later, db.commands[id]); }
    }
    assert UniqueLinks(db') && UniqueKeys(db');
  }

  lemma LaterKeeps(db: Db, clock: Time, later: Time)
    requires DbOk(db, clock) && clock <= later
    ensures DbOk(db, later)
  {
  }

  /** The link is unique, so it finds the one command of the approval. */
  lemma LinkedIs(db: Db, clock: Time, approval: Id)
    requires DbOk(db, clock) && approval in db.approvals
    ensures HasLinked(db, approval)
    ensures Linked(db, approval) in db.commands && db.commands[Linked(db, approval)].approval == Some(approval)
    ensures forall id | id in db.commands && db.commands[id].approval == Some(approval) :: id == Linked(db, approval)
  {
  }

  // ---------------------------------------------------------------- each call keeps the tables sound

  lemma NewCommandIsOk(db: Db, clock: Time, q: Request, draw: Draw, d: Policies.Decision, effect: Policies.Effect)
    requires DbOk(db, clock) && clock <= draw.now && RunFound(db, q)
    requires draw.command !in db.commands && draw.approval !in db.approvals
    ensures var db' := Create(db, q, draw, d, effect);
            forall id | id in db'.commands :: CommandOk(db'.approvals, draw.now, db'.commands[id])
  {
    var db' := Create(db, q, draw, d, effect);
    forall id | id in db'.commands
      ensures CommandOk(db'.approvals, draw.now, db'.commands[id])
    {
      if id in db.commands {
        LaterIsOk(db.approvals, clock, draw.now, db.commands[id]);
        assert db'.commands[id] == db.commands[id];
      }
    }
  }

  lemma NewLinks(db: Db, clock: Time, q: Request, draw: Draw, d: Policies.Decision, effect: Policies.Effect)
    requires DbOk(db, clock) && RunFound(db, q)
    requires draw.command !in db.commands && draw.approval !in db.approvals
    ensures var db' := Create(db, q, draw, d, effect);
            UniqueLinks(db') && forall a | a in db'.approvals :: HasLinked(db', a)
  {
    var db' := Create(db, q, draw, d, effect);
    var c := NewCommand(db, q, draw, d, effect);
    assert db'.commands == db.commands[draw.command := c];
    assert forall id | id in db.commands && db.commands[id].approval.Some? :: db.commands[id].approval.value in db.approvals;
    forall a | a in db'.approvals
      ensures HasLinked(db', a)
    {
      if a in db.approvals {
        var id :| id in db.commands && db.commands[id].approval == Some(a);
        assert id in db'.commands && db'.commands[id].approval == Some(a);
      } else {
        assert db'.commands[draw.command].approval == Some(a);
      }
    }
  }

  lemma CreateKeeps(db: Db, clock: Time, q: Request, draw: Draw, d: Policies.Decision, effect: Policies.Effect)
    requires DbOk(db, clock) && clock <= draw.now && RunFound(db, q)
    requires draw.command !in db.commands && draw.approval !in db.approvals
    requires !KeyUsed(db, q.tenant, KeyOf(q, draw))
    ensures DbOk(Create(db, q, draw, d, effect), draw.now)
  {
    var db' := Create(db, q, draw, d, effect);
    var c := NewCommand(db, q, draw, d, effect);
    NewCommandIsOk(db, clock, q, draw, d, effect);
    NewLinks(db, clock, q, draw, d, effect);
    forall i | i in db.commands
      ensures !HasKey(db.commands[i], c.tenant, c.key) && !HasKey(c, db.commands[i].tenant, db.commands[i].key)
    {
    }
    assert db'.commands == db.commands[draw.command := c];
  }

  /** Changing one approval's state together with its command. */
  lemma SettleKeeps(db: Db, clock: Time, later: Time, a: Approval, c: Command, rest: Db)
    requires DbOk(db, clock) && clock <= later
    requires a.id in db.approvals && ApprovalOk(a)
    requires c.id in db.commands && SameIdentity(db.commands[c.id], c) && c.approval == Some(a.id)
    requires rest.approvals == db.approvals[a.id := a] && rest.commands == db.commands[c.id := c]
    requires CommandOk(rest.approvals, later, c)
    ensures DbOk(rest, later)
  {
    forall b | b in rest.approvals
      ensures HasLinked(rest, b)
    {
      assert HasLinked(db, b);
      var id :| id in db.commands && db.commands[id].approval == Some(b);
      assert id in rest.commands && rest.commands[id].approval == Some(b);
    }
    forall id | id in rest.commands
      ensures CommandOk(rest.approvals, later, rest.commands[id])
    {
      if id != c.id { LaterIsOk(db.approvals, clock, later, db.commands[id]); }
    }
    assert UniqueLinks(rest) && UniqueKeys(rest);
  }

  lemma ApproveKeeps(db: Db, clock: Time, a: Approval, at: Time, rest: Db)
    requires DbOk(db, clock) && clock <= at
    requires a.id in db.approvals && db.approvals[a.id].status == Pending && a.status == Approved && a.version == 2
    requires var taken := ReleaseLinked(db.(approvals := db.approvals[a.id := a]), a.id, at);
             rest.approvals == taken.approvals && rest.commands == taken.commands
    ensures DbOk(rest, at)
  {
    var taken := db.(approvals := db.approvals[a.id := a]);
    LinkedIs(db, clock, a.id);
    assert HasLinked(taken, a.id);
    var c := db.commands[Linked(taken, a.id)];
    assert CommandOk(db.approvals, clock, c) && c.approval == Some(a.id);
    assert rest.commands == db.commands[c.id := rest.commands[c.id]];
    SettleKeeps(db, clock, at, a, rest.commands[c.id], rest);
  }

  lemma RejectKeeps(db: Db, clock: Time, a: Approval, at: Time, reason: string, rest: Db)
    requires DbOk(db, clock) && clock <= at
    requires a.id in db.approvals && db.approvals[a.id].status == Pending
    requires (a.status == Rejected || a.status == Expired) && a.version == 2
    requires var taken := CancelLinked(db.(approvals := db.approvals[a.id := a]), a.id, at, reason);
             rest.approvals == taken.approvals && rest.commands == taken.commands
    ensures DbOk(rest, at)
  {
    var taken := db.(approvals := db.approvals[a.id := a]);
    LinkedIs(db, clock, a.id);
    assert HasLinked(taken, a.id);
    var c := db.commands[Linked(taken, a.id)];
    assert CommandOk(db.approvals, clock, c) && c.approval == Some(a.id);
    assert rest.commands == db.commands[c.id := rest.commands[c.id]];
    SettleKeeps(db, clock, at, a, rest.commands[c.id], rest);
  }

  lemma DecideApproveKeeps(db: Db, clock: Time, tenant: Option<Id>, approval: Id, version: int, user: Option<Id>, at: Time)
    requires DbOk(db, clock) && clock <= at && Decidable(db, tenant, approval, version)
    ensures DbOk(Decide(db, tenant, approval, Approve, version, user, at).0, at)
  {
    var db' := Decide(db, tenant, approval, Approve, version, user, at).0;
    assert ApprovalOk(db.approvals[approval]);
    ApproveKeeps(db, clock, db'.approvals[approval], at, db');
  }

  lemma DecideRejectKeeps(db: Db, clock: Time, tenant: Option<Id>, approval: Id, version: int, user: Option<Id>, at: Time)
    requires DbOk(db, clock) && clock <= at && Decidable(db, tenant, approval, version)
    ensures DbOk(Decide(db, tenant, approval, Reject, version, user, at).0, at)
  {
    var db' := Decide(db, tenant, approval, Reject, version, user, at).0;
    assert ApprovalOk(db.approvals[approval]);
    RejectKeeps(db, clock, db'.approvals[approval], at, "approval_rejected", db');
  }

  lemma DecideKeeps(db: Db, clock: Time, tenant: Option<Id>, approval: Id, v: Verdict, version: int, user: Option<Id>, at: Time)
    requires DbOk(db, clock) && clock <= at
    ensures DbOk(Decide(db, tenant, approval, v, version, user, at).0, at)
  {
    if Decidable(db, tenant, approval, version) {
      match v
      case Approve => DecideApproveKeeps(db, clock, tenant, approval, version, user, at);
      case Reject => DecideRejectKeeps(db, clock, tenant, approval, version, user, at);
    } else {
      LaterKeeps(db, clock, at);
    }
  }

  /** A late expiry finds its approval settled; it may still cancel the command. */
  lemma LateExpiryKeeps(db: Db, clock: Time, approval: Id, at: Time)
    requires DbOk(db, clock) && clock <= at
    requires approval in db.approvals ==> db.approvals[approval].status != Pending
    ensures DbOk(Expire(db, approval, at), at)
  {
    var db' := Expire(db, approval, at);
    if HasLinked(db, approval) && db.commands[Linked(db, approval)].status == CommandQueued {
      var c := db.commands[Linked(db, approval)];
      PutKeeps(db, clock, at, Moved(c, CommandCancelled, at), db'.outbox);
    } else {
      LaterKeeps(db, clock, at);
    }
  }

  lemma ExpireKeeps(db: Db, clock: Time, approval: Id, at: Time)
    requires DbOk(db, clock) && clock <= at
    ensures DbOk(Expire(db, approval, at), at)
  {
    if approval in db.approvals && db.approvals[approval].status == Pending {
      var db' := Expire(db, approval, at);
      RejectKeeps(db, clock, db'.approvals[approval], at, "approval_expired", db');
    } else {
      LateExpiryKeeps(db, clock, approval, at);
    }
  }

  lemma HandleKeeps(db: Db, clock: Time, c: Command, at: Time)
    requires DbOk(db, clock) && clock <= at
    requires c.id in db.commands && db.commands[c.id] == c && c.status == CommandQueued && c.releasedAt.Some?
    ensures DbOk(Handle(db, c, at), at)
  {
    var db' := Handle(db, c, at);
    PutKeeps(db, clock, at, db'.commands[c.id], db'.outbox);
  }

  /** A poll keeps the tables sound. */
  lemma {:induction false} WalkKeeps(db: Db, clock: Time, walked: seq<Command>, at: Time)
    requires DbOk(db, clock) && clock <= at && QueuedRows(db, walked)
    requires forall c | c in walked :: c.releasedAt.Some?
    ensures DbOk(HandleAll(db, walked, at), at)
    decreases |walked|
  {
    if walked == [] {
      LaterKeeps(db, clock, at);
    } else {
      HandleLeavesRest(db, walked, at);
      HandleKeeps(db, clock, walked[0], at);
      WalkKeeps(Handle(db, walked[0], at), at, walked[1..], at);
    }
  }

  // ---------------------------------------------------------------- every step keeps everything

  /** No delivery happened between these tables. */
  ghost predicate SameDeliveries(db: Db, db': Db) {
    && db.commands.Keys <= db'.commands.Keys
    && (forall id | id in db.commands :: db'.commands[id].deliveredAt == db.commands[id].deliveredAt)
    && (forall id | id in db'.commands && id !in db.commands :: db'.commands[id].deliveredAt.None?)
  }

  /** Approval rows persist, and change only from pending. */
  ghost predicate DecisionsStand(db: Db, db': Db) {
    && db.approvals.Keys <= db'.approvals.Keys
    && (forall a | a in db.approvals && db.approvals[a].status != Pending :: db'.approvals[a] == db.approvals[a])
  }

  /** No approval row changed, and new ones are pending. */
  ghost predicate NoneSettled(db: Db, db': Db) {
    && (forall a | a in db.approvals :: a in db'.approvals && db'.approvals[a] == db.approvals[a])
    && (forall a | a in db'.approvals && a !in db.approvals :: db'.approvals[a].status == Pending)
  }

  /** Commands persist with their identity: tenant, idempotency key and approval link. */
  ghost predicate CommandsPersist(db: Db, db': Db) {
    forall id | id in db.commands :: id in db'.commands && SameIdentity(db.commands[id], db'.commands[id])
  }

  /** What every step leaves alone. */
  ghost predicate Stands(db: Db, db': Db) {
    DecisionsStand(db, db') && CommandsPersist(db, db')
  }

  lemma StandsTrans(a: Db, b: Db, c: Db)
    requires Stands(a, b) && Stands(b, c)
    ensures Stands(a, c)
  {
    assert forall id | id in a.commands :: id in b.commands;
  }

  lemma SameTablesKeep(db: Db, db': Db, clock: Time)
    requires DbOk(db, clock) && db'.commands == db.commands && db'.approvals == db.approvals
    ensures DbOk(db', clock)
  {
    forall a | a in db'.approvals ensures HasLinked(db', a) {
      assert HasLinked(db, a);
      var id :| id in db.commands && db.commands[id].approval == Some(a);
      assert id in db'.commands && db'.commands[id].approval == Some(a);
    }
  }

  lemma CreateStands(db: Db, q: Request, draw: Draw, d: Policies.Decision, effect: Policies.Effect)
    requires RunFound(db, q) && draw.command !in db.commands && draw.approval !in db.approvals
    ensures var db' := Create(db, q, draw, d, effect);
            SameDeliveries(db, db') && Stands(db, db') && NoneSettled(db, db')
  {
  }

  lemma CreateStep(db: Db, clock: Time, q: Request, draw: Draw, d: Policies.Decision, effect: Policies.Effect)
    requires DbOk(db, clock) && clock <= draw.now && RunFound(db, q) && !KeyUsed(db, q.tenant, KeyOf(q, draw))
    requires draw.command !in db.commands && draw.approval !in db.approvals
    ensures var db' := Create(Log(db, PolicyEvaluated(d)), q, draw, d, effect);
            DbOk(db', draw.now) && SameDeliveries(db, db') && Stands(db, db') && NoneSettled(db, db')
  {
    var audited := Log(db, PolicyEvaluated(d));
    SameTablesKeep(db, audited, clock);
    assert !KeyUsed(audited, q.tenant, KeyOf(q, draw));
    CreateKeeps(audited, clock, q, draw, d, effect);
    CreateStands(audited, q, draw, d, effect);
  }

  /** A refusal or a replay touches neither table. */
  lemma SameTablesStep(db: Db, db': Db, clock: Time, at: Time)
    requires DbOk(db, clock) && clock <= at && db'.commands == db.commands && db'.approvals == db.approvals
    ensures DbOk(db', at) && SameDeliveries(db, db') && Stands(db, db') && NoneSettled(db, db')
  {
    SameTablesKeep(db, db', clock);
    LaterKeeps(db', clock, at);
  }

  lemma SubmitStep(db: Db, clock: Time, q: Request, g: Governance, draw: Draw)
    requires DbOk(db, clock) && clock <= draw.now && Policies.DistinctIds(g.policies)
    requires draw.command !in db.commands && draw.approval !in db.approvals
    ensures var db' := Submit(db, q, g, draw).0;
            DbOk(db', draw.now) && SameDeliveries(db, db') && Stands(db, db') && NoneSettled(db, db')
  {
    var (db', outcome) := Submit(db, q, g, draw);
    if outcome.Held? || outcome.Released? {
      var d := Policies.Resolve(g.policies, ActionOf(db, q), g.fallback);
      CreateStep(db, clock, q, draw, d, Harden(d.effect, Budgets.Gate(g.budgets, SubjectOf(db, q), g.records, g.moment)));
    } else {
      SameTablesStep(db, db', clock, draw.now);
    }
  }

  /** Only the linked command changes, and only from the queue. */
  lemma LinkedStands(db: Db, db': Db)
    requires forall id | id in db.commands :: id in db'.commands && SameIdentity(db.commands[id], db'.commands[id])
                                              && db'.commands[id].deliveredAt == db.commands[id].deliveredAt
    requires db'.commands.Keys == db.commands.Keys
    requires db'.approvals.Keys == db.approvals.Keys
    requires forall a | a in db.approvals && db.approvals[a].status != Pending :: db'.approvals[a] == db.approvals[a]
    ensures SameDeliveries(db, db') && Stands(db, db')
  {
  }

  lemma CancelLinkedFrame(db: Db, approval: Id, at: Time, reason: string)
    requires KeysMatch(db)
    ensures var db' := CancelLinked(db, approval, at, reason);
            && db'.approvals == db.approvals && db'.commands.Keys == db.commands.Keys
            && forall id | id in db.commands :: SameIdentity(db.commands[id], db'.commands[id])
                                                && db'.commands[id].deliveredAt == db.commands[id].deliveredAt
  {
  }

  lemma ReleaseLinkedFrame(db: Db, approval: Id, at: Time)
    requires KeysMatch(db)
    ensures var db' := ReleaseLinked(db, approval, at);
            && db'.approvals == db.approvals && db'.commands.Keys == db.commands.Keys
            && forall id | id in db.commands :: SameIdentity(db.commands[id], db'.commands[id])
                                                && db'.commands[id].deliveredAt == db.commands[id].deliveredAt
  {
  }

  /** One approval row moves, at most, and only away from pending. */
  ghost predicate SettlesOnly(db: Db, db': Db, approval: Id) {
    && db'.approvals.Keys == db.approvals.Keys
    && (forall a | a in db.approvals && a != approval :: db'.approvals[a] == db.approvals[a])
    && (approval in db.approvals && db'.approvals[approval] != db.approvals[approval] ==>
          db.approvals[approval].status == Pending && db'.approvals[approval].status != Pending)
  }

  /** An approval's new row and what its linked command became. */
  lemma SettledStands(db: Db, a: Approval, rest: Db)
    requires KeysMatch(db) && a.id in db.approvals && db.approvals[a.id].status == Pending && a.status != Pending
    requires rest.approvals == db.approvals[a.id := a] && rest.commands.Keys == db.commands.Keys
    requires forall id | id in db.commands :: SameIdentity(db.commands[id], rest.commands[id])
                                              && rest.commands[id].deliveredAt == db.commands[id].deliveredAt
    ensures SameDeliveries(db, rest) && Stands(db, rest) && SettlesOnly(db, rest, a.id)
  {
    LinkedStands(db, rest);
  }

  lemma ApproveStands(db: Db, tenant: Option<Id>, approval: Id, version: int, user: Option<Id>, at: Time)
    requires KeysMatch(db) && Decidable(db, tenant, approval, version) && db.approvals[approval].id == approval
    ensures var db' := Decide(db, tenant, approval, Approve, version, user, at).0;
            SameDeliveries(db, db') && Stands(db, db') && SettlesOnly(db, db', approval)
  {
    var a := db.approvals[approval];
    var a' := a.(status := Approved, version := a.version + 1, decidedAt := Some(at), decidedBy := user);
    ReleaseLinkedFrame(db.(approvals := db.approvals[approval := a']), approval, at);
    SettledStands(db, a', Decide(db, tenant, approval, Approve, version, user, at).0);
  }

  lemma RejectStands(db: Db, tenant: Option<Id>, approval: Id, version: int, user: Option<Id>, at: Time)
    requires KeysMatch(db) && Decidable(db, tenant, approval, version) && db.approvals[approval].id == approval
    ensures var db' := Decide(db, tenant, approval, Reject, version, user, at).0;
            SameDeliveries(db, db') && Stands(db, db') && SettlesOnly(db, db', approval)
  {
    var a := db.approvals[approval];
    var a' := a.(status := Rejected, version := a.version + 1, decidedAt := Some(at), decidedBy := user);
    CancelLinkedFrame(db.(approvals := db.approvals[approval := a']), approval, at, "approval_rejected");
    SettledStands(db, a', Decide(db, tenant, approval, Reject, version, user, at).0);
  }

  lemma DecideStands(db: Db, tenant: Option<Id>, approval: Id, v: Verdict, version: int, user: Option<Id>, at: Time)
    requires KeysMatch(db) && (approval in db.approvals ==> db.approvals[approval].id == approval)
    ensures var db' := Decide(db, tenant, approval, v, version, user, at).0;
            SameDeliveries(db, db') && Stands(db, db') && SettlesOnly(db, db', approval)
  {
    if Decidable(db, tenant, approval, version) {
      match v
      case Approve => ApproveStands(db, tenant, approval, version, user, at);
      case Reject => RejectStands(db, tenant, approval, version, user, at);
    }
  }

  lemma ExpireStands(db: Db, approval: Id, at: Time)
    requires KeysMatch(db)
    ensures var db' := Expire(db, approval, at);
            SameDeliveries(db, db') && Stands(db, db') && SettlesOnly(db, db', approval)
  {
    var updated := Updated(db, approval);
    CancelLinkedFrame(updated, approval, at, "approval_expired");
    LinkedStands(db, CancelLinked(updated, approval, at, "approval_expired"));
  }

  /** The conditional update of a decision, or the expiry, with its effects. */
  ghost function Settle(db: Db, f: InFlight, at: Time): Db {
    match f
    case Deciding(tenant, approval, verdict, version, user) => Decide(db, tenant, approval, verdict, version, user, at).0
    case Expiring(approval) => Expire(db, approval, at)
  }

  lemma SettleStep(db: Db, clock: Time, f: InFlight, at: Time)
    requires DbOk(db, clock) && clock <= at
    ensures DbOk(Settle(db, f, at), at)
    ensures SameDeliveries(db, Settle(db, f, at)) && Stands(db, Settle(db, f, at))
    ensures SettlesOnly(db, Settle(db, f, at), f.approval)
  {
    match f
    case Deciding(tenant, approval, verdict, version, user) =>
      DecideKeeps(db, clock, tenant, approval, verdict, version, user, at);
      DecideStands(db, tenant, approval, verdict, version, user, at);
    case Expiring(approval) =>
      ExpireKeeps(db, clock, approval, at);
      ExpireStands(db, approval, at);
  }

  lemma MovedIsOk(approvals: map<Id, Approval>, clock: Time, at: Time, c: Command, target: CommandState, report: Option<Report>)
    requires CommandOk(approvals, clock, c) && clock <= at && CanMove(c, target)
    requires target in {CommandCancelled, Acknowledged, CommandSucceeded, CommandFailed}
    ensures CommandOk(approvals, at, Moved(c, target, at).(report := report))
  {
  }

  lemma MoveStep(db: Db, clock: Time, id: Id, target: CommandState, at: Time, report: Option<Report>, outbox: seq<Outbox.Row>)
    requires DbOk(db, clock) && clock <= at && id in db.commands && CanMove(db.commands[id], target)
    requires target in {CommandCancelled, Acknowledged, CommandSucceeded, CommandFailed}
    ensures var db' := db.(commands := db.commands[id := Moved(db.commands[id], target, at).(report := report)], outbox := outbox);
            DbOk(db', at) && SameDeliveries(db, db') && Stands(db, db')
  {
    var d := Moved(db.commands[id], target, at).(report := report);
    MovedIsOk(db.approvals, clock, at, db.commands[id], target, report);
    assert SameIdentity(db.commands[id], d) && d.deliveredAt == db.commands[id].deliveredAt;
    PutKeeps(db, clock, at, d, outbox);
  }

  /** A sound change that delivers nothing and leaves every approval as it is. */
  ghost predicate Calm(db: Db, db': Db, at: Time) {
    DbOk(db', at) && SameDeliveries(db, db') && Stands(db, db') && db'.approvals == db.approvals
  }

  lemma NothingIsCalm(db: Db, clock: Time, at: Time)
    requires DbOk(db, clock) && clock <= at
    ensures Calm(db, db, at)
  {
    LaterKeeps(db, clock, at);
  }

  lemma CancelIsCalm(db: Db, clock: Time, tenant: Option<Id>, id: Id, at: Time)
    requires DbOk(db, clock) && clock <= at
    ensures Calm(db, Cancel(db, tenant, id, at).0, at)
  {
    var (db', outcome) := Cancel(db, tenant, id, at);
    if outcome.Done? {
      MoveStep(db, clock, id, CommandCancelled, at, db.commands[id].report, db'.outbox);
    } else {
      NothingIsCalm(db, clock, at);
    }
  }

  lemma AcknowledgeIsCalm(db: Db, clock: Time, tenant: Option<Id>, agent: Id, id: Id, at: Time)
    requires DbOk(db, clock) && clock <= at
    ensures Calm(db, Acknowledge(db, tenant, agent, id, at).0, at)
  {
    var (db', outcome) := Acknowledge(db, tenant, agent, id, at);
    if outcome.Done? {
      MoveStep(db, clock, id, Acknowledged, at, db.commands[id].report, db'.outbox);
    } else {
      NothingIsCalm(db, clock, at);
    }
  }

  lemma ResultIsCalm(db: Db, clock: Time, tenant: Option<Id>, agent: Id, id: Id, success: Option<bool>,
                     payload: string, error: string, at: Time)
    requires DbOk(db, clock) && clock <= at
    ensures Calm(db, SubmitResult(db, tenant, agent, id, success, payload, error, at).0, at)
  {
    var (db', outcome) := SubmitResult(db, tenant, agent, id, success, payload, error, at);
    if outcome.Done? {
      MoveStep(db, clock, id, if success.value then CommandSucceeded else CommandFailed, at, db'.commands[id].report, db'.outbox);
    } else {
      NothingIsCalm(db, clock, at);
    }
  }

  /** The operator's and the agent's calls. */
  lemma CallStep(w: World, step: Step)
    requires DbOk(w.db, w.clock) && Enabled(w, step)
    requires step.Cancelling? || step.Acking? || step.Reporting?
    ensures Calm(w.db, Next(w, step).db, TimeOf(step))
  {
    match step
    case Cancelling(tenant, id, at) => CancelIsCalm(w.db, w.clock, tenant, id, at);
    case Acking(tenant, agent, id, at) => AcknowledgeIsCalm(w.db, w.clock, tenant, agent, id, at);
    case Reporting(tenant, agent, id, success, payload, error, at) =>
      ResultIsCalm(w.db, w.clock, tenant, agent, id, success, payload, error, at);
  }

  /** Handing out: exactly the returned commands become delivered. */
  lemma {:induction false} LiveIsStamped(db: Db, walked: seq<Command>, at: Time, id: Id)
    requires QueuedRows(db, walked) && id in db.commands
    ensures id in Live(walked, at) <==> exists c :: c in walked && c.id == id && !IsStale(c, at)
    ensures forall i, j | 0 <= i < j < |Live(walked, at)| :: Live(walked, at)[i] != Live(walked, at)[j]
    ensures forall x | x in Live(walked, at) :: x in db.commands && Mentions(walked, x)
    decreases |walked|
  {
    if walked != [] {
      var c, rest := walked[0], walked[1..];
      HandleLeavesRest(db, walked, at);
      LiveIsStamped(Handle(db, c, at), rest, at, id);
      forall x | x in Live(rest, at)
        ensures x != c.id && Mentions(walked, x)
      {
        var i :| 0 <= i < |rest| && rest[i].id == x;
        assert walked[i + 1] == rest[i];
      }
      assert Mentions(walked, c.id);
      assert forall d :: d in walked <==> d == c || d in rest;
    }
  }

  lemma HandledKeeps(c: Command, at: Time)
    requires c.status == CommandQueued
    ensures SameIdentity(c, Handled(c, at))
    ensures Handled(c, at).deliveredAt == if IsStale(c, at) then c.deliveredAt else Some(at)
  {
  }

  /** What a poll does to each row: identity stays, and the rows handed out become delivered, from undelivered. */
  lemma PollPointwise(db: Db, clock: Time, tenant: Option<Id>, agent: Id, limit: int, at: Time, id: Id)
    requires DbOk(db, clock) && clock <= at && id in db.commands
    ensures var (db', ids) := Poll(db, tenant, agent, limit, at);
            && db'.approvals == db.approvals && db'.commands.Keys == db.commands.Keys
            && SameIdentity(db.commands[id], db'.commands[id])
            && (id in ids ==> db.commands[id].deliveredAt.None?)
            && (db'.commands[id].deliveredAt.Some? <==> db.commands[id].deliveredAt.Some? || id in ids)
  {
    var walked := Walked(db, tenant, agent, limit, at);
    WalkedRows(db, tenant, agent, limit, at);
    WalkPointwise(db, walked, at);
    LiveIsStamped(db, walked, at, id);
    var c := db.commands[id];
    assert CommandOk(db.approvals, clock, c);
    if i :| 0 <= i < |walked| && walked[i].id == id {
      assert walked[i] in walked && walked[i] == c;
      HandledKeeps(c, at);
    } else {
      assert !Mentions(walked, id);
    }
  }

  lemma PollStep(db: Db, clock: Time, tenant: Option<Id>, agent: Id, limit: int, at: Time)
    requires DbOk(db, clock) && clock <= at
    ensures var (db', ids) := Poll(db, tenant, agent, limit, at);
            && DbOk(db', at) && Stands(db, db') && db'.approvals == db.approvals
            && (forall i, j | 0 <= i < j < |ids| :: ids[i] != ids[j])
            && (forall id | id in ids :: id in db.commands && db.commands[id].deliveredAt.None?)
            && db'.commands.Keys == db.commands.Keys
            && (forall id | id in db.commands ::
                  db'.commands[id].deliveredAt.Some? <==> db.commands[id].deliveredAt.Some? || id in ids)
  {
    var walked := Walked(db, tenant, agent, limit, at);
    var (db', ids) := Poll(db, tenant, agent, limit, at);
    WalkedRows(db, tenant, agent, limit, at);
    WalkKeeps(db, clock, walked, at);
    if walked != [] {
      assert walked[0] in walked;
      LiveIsStamped(db, walked, at, walked[0].id);
      PollPointwise(db, clock, tenant, agent, limit, at, walked[0].id);
    }
    forall id | id in db.commands
      ensures SameIdentity(db.commands[id], db'.commands[id]) && (id in ids ==> db.commands[id].deliveredAt.None?)
      ensures db'.commands[id].deliveredAt.Some? <==> db.commands[id].deliveredAt.Some? || id in ids
    {
      PollPointwise(db, clock, tenant, agent, limit, at, id);
    }
  }

  lemma QuietHistory(w: World, w': World)
    requires HistoryOk(w) && w'.delivered == w.delivered && w'.settled == w.settled
    requires SameDeliveries(w.db, w'.db) && NoneSettled(w.db, w'.db)
    ensures HistoryOk(w')
  {
  }

  lemma SettledHistory(w: World, w': World, approval: Id)
    requires HistoryOk(w) && w'.delivered == w.delivered
    requires SameDeliveries(w.db, w'.db) && SettlesOnly(w.db, w'.db, approval)
    requires w'.settled == w.settled + Changed(w.db, w'.db, approval)
    ensures HistoryOk(w')
  {
    var change := Changed(w.db, w'.db, approval);
    if change == [] {
      assert w'.settled == w.settled;
    } else {
      assert w'.settled == w.settled + [approval] && approval !in w.settled;
      forall a | a in w'.db.approvals
        ensures a in w'.settled <==> w'.db.approvals[a].status != Pending
      {
        assert a in w'.settled <==> a in w.settled || a == approval;
      }
    }
  }

  lemma PolledHistory(w: World, w': World, ids: seq<Id>)
    requires HistoryOk(w) && w'.delivered == w.delivered + ids && w'.settled == w.settled
    requires w'.db.approvals == w.db.approvals && w'.db.commands.Keys == w.db.commands.Keys
    requires forall i, j | 0 <= i < j < |ids| :: ids[i] != ids[j]
    requires forall id | id in ids :: id in w.db.commands && w.db.commands[id].deliveredAt.None?
    requires forall id | id in w.db.commands ::
               w'.db.commands[id].deliveredAt.Some? <==> w.db.commands[id].deliveredAt.Some? || id in ids
    ensures HistoryOk(w')
  {
    var old', new' := w.delivered, ids;
    forall i, j | 0 <= i < j < |w'.delivered|
      ensures w'.delivered[i] != w'.delivered[j]
    {
      if i < |old'| <= j {
        assert old'[i] in old' && new'[j - |old'|] in new';
      }
    }
    assert forall id :: id in w'.delivered <==> id in old' || id in new';
  }

  lemma StepKeepsHistory(w: World, step: Step)
    requires Inv(w) && Enabled(w, step) && !step.Settling? && !step.Polling?
    ensures HistoryOk(Next(w, step))
  {
    if step.Submitting? {
      SubmitStep(w.db, w.clock, step.q, step.g, step.draw);
    } else if !step.Guarding? {
      CallStep(w, step);
    }
    QuietHistory(w, Next(w, step));
  }

  lemma SettlingKeepsHistory(w: World, session: Id, at: Time)
    requires Inv(w) && Enabled(w, Settling(session, at))
    ensures HistoryOk(Next(w, Settling(session, at)))
  {
    SettleStep(w.db, w.clock, w.inFlight[session], at);
    SettledHistory(w, Next(w, Settling(session, at)), w.inFlight[session].approval);
  }

  lemma PollingKeepsHistory(w: World, tenant: Option<Id>, agent: Id, limit: int, at: Time)
    requires Inv(w) && Enabled(w, Polling(tenant, agent, limit, at))
    ensures HistoryOk(Next(w, Polling(tenant, agent, limit, at)))
  {
    PollStep(w.db, w.clock, tenant, agent, limit, at);
    PolledHistory(w, Next(w, Polling(tenant, agent, limit, at)), Poll(w.db, tenant, agent, limit, at).1);
  }

  lemma StepKeepsInv(w: World, step: Step)
    requires Inv(w) && Enabled(w, step)
    ensures Inv(Next(w, step))
    ensures Stands(w.db, Next(w, step).db)
  {
    match step
    case Submitting(q, g, draw) =>
      StepKeepsHistory(w, step);
      SubmitStep(w.db, w.clock, q, g, draw);
    case Guarding(_, _, _, _, _, _, at) =>
      StepKeepsHistory(w, step);
      LaterKeeps(w.db, w.clock, at);
    case Settling(session, at) =>
      SettlingKeepsHistory(w, session, at);
      SettleStep(w.db, w.clock, w.inFlight[session], at);
    case Polling(tenant, agent, limit, at) =>
      PollingKeepsHistory(w, tenant, agent, limit, at);
      PollStep(w.db, w.clock, tenant, agent, limit, at);
    case _ =>
      StepKeepsHistory(w, step);
      CallStep(w, step);
  }

  // ---------------------------------------------------------------- the gate, over whole runs

  ghost function Start(runs: map<Id, RunRef>, agents: set<Id>, clock: Time): World {
    World(Db(runs, agents, map[], map[], [], []), clock, map[], [], [])
  }

  lemma {:induction false} RunKeepsInv(w: World, steps: seq<Step>)
    requires Inv(w) && Runs(w, steps)
    ensures Inv(After(w, steps))
    ensures Stands(w.db, After(w, steps).db)
    decreases |steps|
  {
    if steps != [] {
      StepKeepsInv(w, steps[0]);
      RunKeepsInv(Next(w, steps[0]), steps[1..]);
      StandsTrans(w.db, Next(w, steps[0]).db, After(w, steps).db);
    }
  }

  /**
   The approval gate. In every state of every run, from empty tables: a command under a pending
   approval is unreleased and never past the queue; under a rejected or expired one it is cancelled;
   under an approved one it is released or cancelled; and whatever was delivered was released no
   later than that, before its own deadline, with its approval, if it has one, approved.
   */
  lemma ApprovalGate(runs: map<Id, RunRef>, agents: set<Id>, clock: Time, steps: seq<Step>, id: Id)
    requires Runs(Start(runs, agents, clock), steps)
    requires id in After(Start(runs, agents, clock), steps).db.commands
    ensures var db := After(Start(runs, agents, clock), steps).db;
            var c := db.commands[id];
            && (c.approval.None? ==> c.releasedAt.Some?)
            && (c.approval.Some? ==>
                  && c.approval.value in db.approvals
                  && var s := db.approvals[c.approval.value].status;
                     && (s == Pending ==> c.releasedAt.None? && c.status in {CommandQueued, CommandCancelled})
                     && (s == Rejected || s == Expired ==> c.status == CommandCancelled && c.releasedAt.None?)
                     && (s == Approved ==> c.releasedAt.Some? || c.status == CommandCancelled)
                     && s != ApprovalCancelled)
            && (c.status in {Delivered, Acknowledged, CommandSucceeded, CommandFailed} ==> c.deliveredAt.Some?)
            && (c.deliveredAt.Some? ==>
                  && c.releasedAt.Some? && c.releasedAt.value <= c.deliveredAt.value < c.expiresAt
                  && (c.approval.Some? ==> db.approvals[c.approval.value].status == Approved))
  {
    var w := Start(runs, agents, clock);
    assert Inv(w);
    RunKeepsInv(w, steps);
    var v := After(w, steps);
    assert CommandOk(v.db.approvals, v.clock, v.db.commands[id]);
    assert forall a | a in v.db.approvals :: ApprovalOk(v.db.approvals[a]);
  }

  /** Over any run no command is handed out twice, and no approval is settled twice. */
  lemma DeliveredOnceSettledOnce(runs: map<Id, RunRef>, agents: set<Id>, clock: Time, steps: seq<Step>)
    requires Runs(Start(runs, agents, clock), steps)
    ensures var w := After(Start(runs, agents, clock), steps);
            && (forall i, j | 0 <= i < j < |w.delivered| :: w.delivered[i] != w.delivered[j])
            && (forall i, j | 0 <= i < j < |w.settled| :: w.settled[i] != w.settled[j])
            && (forall a | a in w.db.approvals ::
                  && (w.db.approvals[a].status == Pending <==> w.db.approvals[a].version == 1)
                  && (a in w.settled <==> w.db.approvals[a].status != Pending))
  {
    var w := Start(runs, agents, clock);
    assert Inv(w);
    RunKeepsInv(w, steps);
  }

  /** A settled approval keeps its row, deciding user and time included, for ever. */
  lemma DecisionsAreFinal(w: World, steps: seq<Step>, approval: Id)
    requires Inv(w) && Runs(w, steps)
    requires approval in w.db.approvals && w.db.approvals[approval].status != Pending
    ensures approval in After(w, steps).db.approvals
    ensures After(w, steps).db.approvals[approval] == w.db.approvals[approval]
  {
    RunKeepsInv(w, steps);
  }

  /** Along the frozen table, or not at all; every move is one version. */
  predicate Follows(c: Command, d: Command) {
    CanMove(c, d.status) && d.version == c.version + (if d.status == c.status then 0 else 1)
  }

  lemma CancelLinkedFollows(db: Db, approval: Id, at: Time, reason: string, id: Id)
    requires KeysMatch(db) && id in db.commands
    ensures var db' := CancelLinked(db, approval, at, reason); id in db'.commands && Follows(db.commands[id], db'.commands[id])
  {
  }

  lemma ReleaseLinkedFollows(db: Db, approval: Id, at: Time, id: Id)
    requires KeysMatch(db) && id in db.commands
    ensures var db' := ReleaseLinked(db, approval, at); id in db'.commands && Follows(db.commands[id], db'.commands[id])
  {
  }

  lemma DecideFollows(db: Db, tenant: Option<Id>, approval: Id, v: Verdict, version: int, user: Option<Id>, at: Time, id: Id)
    requires KeysMatch(db) && id in db.commands
    ensures var db' := Decide(db, tenant, approval, v, version, user, at).0;
            id in db'.commands && Follows(db.commands[id], db'.commands[id])
  {
    if Decidable(db, tenant, approval, version) {
      var a := db.approvals[approval];
      var a' := a.(status := StatusOf(v), version := a.version + 1, decidedAt := Some(at), decidedBy := user);
      var taken := db.(approvals := db.approvals[approval := a']);
      match v
      case Approve => ReleaseLinkedFollows(taken, approval, at, id);
      case Reject => CancelLinkedFollows(taken, approval, at, "approval_rejected", id);
    }
  }

  lemma ExpireFollows(db: Db, approval: Id, at: Time, id: Id)
    requires KeysMatch(db) && id in db.commands
    ensures id in Expire(db, approval, at).commands && Follows(db.commands[id], Expire(db, approval, at).commands[id])
  {
    CancelLinkedFollows(Updated(db, approval), approval, at, "approval_expired", id);
  }

  lemma SettleFollows(db: Db, f: InFlight, at: Time, id: Id)
    requires KeysMatch(db) && id in db.commands
    ensures id in Settle(db, f, at).commands && Follows(db.commands[id], Settle(db, f, at).commands[id])
  {
    match f
    case Deciding(tenant, approval, verdict, version, user) => DecideFollows(db, tenant, approval, verdict, version, user, at, id);
    case Expiring(approval) => ExpireFollows(db, approval, at, id);
  }

  lemma CancelFollows(db: Db, tenant: Option<Id>, target: Id, at: Time, id: Id)
    requires id in db.commands
    ensures var db' := Cancel(db, tenant, target, at).0; id in db'.commands && Follows(db.commands[id], db'.commands[id])
  {
  }

  lemma AcknowledgeFollows(db: Db, tenant: Option<Id>, agent: Id, target: Id, at: Time, id: Id)
    requires id in db.commands
    ensures var db' := Acknowledge(db, tenant, agent, target, at).0; id in db'.commands && Follows(db.commands[id], db'.commands[id])
  {
  }

  lemma ResultFollows(db: Db, tenant: Option<Id>, agent: Id, target: Id, success: Option<bool>, payload: string, error: string,
                      at: Time, id: Id)
    requires id in db.commands
    ensures var db' := SubmitResult(db, tenant, agent, target, success, payload, error, at).0;
            id in db'.commands && Follows(db.commands[id], db'.commands[id])
  {
  }

  lemma CallFollows(w: World, step: Step, id: Id)
    requires Enabled(w, step) && id in w.db.commands
    requires step.Cancelling? || step.Acking? || step.Reporting?
    ensures id in Next(w, step).db.commands && Follows(w.db.commands[id], Next(w, step).db.commands[id])
  {
    match step
    case Cancelling(tenant, target, at) => CancelFollows(w.db, tenant, target, at, id);
    case Acking(tenant, agent, target, at) => AcknowledgeFollows(w.db, tenant, agent, target, at, id);
    case Reporting(tenant, agent, target, success, payload, error, at) =>
      ResultFollows(w.db, tenant, agent, target, success, payload, error, at, id);
  }

  lemma HandledFollows(c: Command, at: Time)
    requires c.status == CommandQueued
    ensures Follows(c, Handled(c, at))
  {
  }

  lemma PollFollows(db: Db, tenant: Option<Id>, agent: Id, limit: int, at: Time, id: Id)
    requires KeysMatch(db) && id in db.commands
    ensures var db' := Poll(db, tenant, agent, limit, at).0;
            id in db'.commands && Follows(db.commands[id], db'.commands[id])
  {
    var walked := Walked(db, tenant, agent, limit, at);
    WalkedRows(db, tenant, agent, limit, at);
    WalkPointwise(db, walked, at);
    if i :| 0 <= i < |walked| && walked[i].id == id {
      var c := walked[i];
      assert c in walked && c == db.commands[id];
      HandledFollows(c, at);
    } else {
      assert !Mentions(walked, id);
    }
  }

  /** Every step moves every command and every approval along its transition table, by one version or none. */
  lemma StepsFollowTheTables(w: World, step: Step)
    requires Inv(w) && Enabled(w, step)
    ensures forall id | id in w.db.commands ::
              id in Next(w, step).db.commands && Follows(w.db.commands[id], Next(w, step).db.commands[id])
    ensures forall a | a in w.db.approvals ::
              && a in Next(w, step).db.approvals
              && var before, after := w.db.approvals[a], Next(w, step).db.approvals[a];
                 if after.status == before.status then after == before
                 else after.status in ApprovalTargets(before.status) && after.version == before.version + 1
  {
    var db' := Next(w, step).db;
    StepKeepsInv(w, step);
    forall id | id in w.db.commands
      ensures id in db'.commands && Follows(w.db.commands[id], db'.commands[id])
    {
      match step
      case Submitting(q, g, draw) => assert db'.commands[id] == w.db.commands[id];
      case Guarding(_, _, _, _, _, _, _) =>
      case Settling(session, at) => SettleFollows(w.db, w.inFlight[session], at, id);
      case Polling(tenant, agent, limit, at) => PollFollows(w.db, tenant, agent, limit, at, id);
      case _ => CallFollows(w, step, id);
    }
    ApprovalsFollow(w, step);
  }

  lemma ApprovalsFollow(w: World, step: Step)
    requires Inv(w) && Enabled(w, step)
    ensures forall a | a in w.db.approvals ::
              && a in Next(w, step).db.approvals
              && var before, after := w.db.approvals[a], Next(w, step).db.approvals[a];
                 if after.status == before.status then after == before
                 else after.status in ApprovalTargets(before.status) && after.version == before.version + 1
  {
    var db' := Next(w, step).db;
    StepKeepsInv(w, step);
    match step
    case Submitting(q, g, draw) => SubmitStep(w.db, w.clock, q, g, draw);
    case Guarding(_, _, _, _, _, _, _) =>
    case Settling(session, at) => SettleStep(w.db, w.clock, w.inFlight[session], at);
    case Polling(tenant, agent, limit, at) => PollStep(w.db, w.clock, tenant, agent, limit, at);
    case _ => CallStep(w, step);
    forall a | a in w.db.approvals
      ensures a in db'.approvals && ApprovalOk(w.db.approvals[a]) && ApprovalOk(db'.approvals[a])
    {
    }
  }

  predicate IsTerminal(c: Command) {
    CommandTargets(c.status) == {}
  }

  /** The agent reports once more the verdict the command already has. */
  predicate RepeatsResult(db: Db, step: Step, id: Id)
    requires id in db.commands
  {
    && step.Reporting? && step.id == id && InAgentScope(db, step.tenant, step.agent, id)
    && step.success.Some?
    && db.commands[id].status == (if step.success.value then CommandSucceeded else CommandFailed)
  }

  function ReportOf(step: Step): Report
    requires step.Reporting? && step.success.Some?
  {
    Report(step.success.value, step.payload, if step.success.value then "" else step.error)
  }

  lemma SettleLeavesTerminal(db: Db, f: InFlight, at: Time, id: Id)
    requires KeysMatch(db) && id in db.commands && IsTerminal(db.commands[id])
    ensures id in Settle(db, f, at).commands && Settle(db, f, at).commands[id] == db.commands[id]
  {
  }

  lemma OnlyQueuedAreMentioned(db: Db, walked: seq<Command>, id: Id)
    requires QueuedRows(db, walked) && id in db.commands && db.commands[id].status != CommandQueued
    ensures !Mentions(walked, id)
  {
    forall i | 0 <= i < |walked| ensures walked[i].id != id { assert walked[i] in walked; }
  }

  lemma PollLeavesTerminal(db: Db, tenant: Option<Id>, agent: Id, limit: int, at: Time, id: Id)
    requires KeysMatch(db) && id in db.commands && IsTerminal(db.commands[id])
    ensures var db' := Poll(db, tenant, agent, limit, at).0; id in db'.commands && db'.commands[id] == db.commands[id]
  {
    var walked := Walked(db, tenant, agent, limit, at);
    WalkedRows(db, tenant, agent, limit, at);
    WalkPointwise(db, walked, at);
    OnlyQueuedAreMentioned(db, walked, id);
  }

  lemma CallOnTerminal(w: World, step: Step, id: Id)
    requires Enabled(w, step) && id in w.db.commands && IsTerminal(w.db.commands[id])
    requires step.Cancelling? || step.Acking? || step.Reporting?
    ensures id in Next(w, step).db.commands
    ensures Next(w, step).db.commands[id] ==
            if RepeatsResult(w.db, step, id) then w.db.commands[id].(report := Some(ReportOf(step))) else w.db.commands[id]
  {
  }

  /** A terminal command changes in one way only: the same verdict reported again overwrites the stored report. */
  lemma TerminalStep(w: World, step: Step, id: Id)
    requires Inv(w) && Enabled(w, step) && id in w.db.commands && IsTerminal(w.db.commands[id])
    ensures id in Next(w, step).db.commands
    ensures Next(w, step).db.commands[id] ==
            if RepeatsResult(w.db, step, id) then w.db.commands[id].(report := Some(ReportOf(step))) else w.db.commands[id]
  {
    match step
    case Submitting(q, g, draw) =>
    case Guarding(_, _, _, _, _, _, _) =>
    case Settling(session, at) => SettleLeavesTerminal(w.db, w.inFlight[session], at, id);
    case Polling(tenant, agent, limit, at) => PollLeavesTerminal(w.db, tenant, agent, limit, at, id);
    case _ => CallOnTerminal(w, step, id);
  }

  /** A terminal command keeps every column but its report for ever. */
  lemma {:induction false} TerminalCommandsStay(w: World, steps: seq<Step>, id: Id)
    requires Inv(w) && Runs(w, steps)
    requires id in w.db.commands && IsTerminal(w.db.commands[id])
    ensures id in After(w, steps).db.commands
    ensures After(w, steps).db.commands[id] == w.db.commands[id].(report := After(w, steps).db.commands[id].report)
    decreases |steps|
  {
    if steps != [] {
      StepKeepsInv(w, steps[0]);
      TerminalStep(w, steps[0], id);
      TerminalCommandsStay(Next(w, steps[0]), steps[1..], id);
    }
  }

  // ---------------------------------------------------------------- a report that is lost

  /** The calls an agent makes on a command it holds. */
  function AckBy(c: Command, at: Time): Step {
    Acking(c.tenant, c.agent, c.id, at)
  }

  function SuccessBy(c: Command, payload: string, at: Time): Step {
    Reporting(c.tenant, c.agent, c.id, Some(true), payload, "", at)
  }

  lemma AckedIs(w: World, id: Id, at: Time)
    requires KeysMatch(w.db) && w.clock <= at && id in w.db.commands && w.db.commands[id].status == Delivered
    ensures var c := w.db.commands[id];
            && Enabled(w, AckBy(c, at))
            && var v := Next(w, AckBy(c, at));
               v.clock == at && KeysMatch(v.db) && id in v.db.commands && v.db.commands[id] == Moved(c, Acknowledged, at)
  {
  }

  /** The first report of a verdict, and every repetition of it, is what the command keeps. */
  lemma ReportedIs(w: World, id: Id, payload: string, at: Time)
    requires KeysMatch(w.db) && w.clock <= at && id in w.db.commands
    requires w.db.commands[id].status == Acknowledged || w.db.commands[id].status == CommandSucceeded
    ensures var c := w.db.commands[id];
            && Enabled(w, SuccessBy(c, payload, at))
            && var v := Next(w, SuccessBy(c, payload, at));
               && v.clock == at && KeysMatch(v.db) && id in v.db.commands
               && v.db.commands[id] == Moved(c, CommandSucceeded, at).(report := Some(Report(true, payload, "")))
               && |v.db.outbox| == |w.db.outbox| + 1
  {
  }

  /** A succeeded command's first report is replaced by the second, and nothing else of it changes. */
  predicate Overwritten(mid: Db, end: Db, id: Id, first: string, second: string) {
    && id in mid.commands && mid.commands[id].status == CommandSucceeded && mid.commands[id].report == Some(Report(true, first, ""))
    && id in end.commands && end.commands[id] == mid.commands[id].(report := Some(Report(true, second, "")))
  }

  /** Every delivered command can be reported on twice: the second report replaces the first, and is announced again. */
  lemma ReportIsOverwritten(w: World, id: Id, first: string, second: string, at: Time) returns (steps: seq<Step>)
    requires KeysMatch(w.db) && w.clock <= at && id in w.db.commands && w.db.commands[id].status == Delivered
    ensures |steps| == 3 && Runs(w, steps[..2]) && Runs(w, steps)
    ensures var mid, end := After(w, steps[..2]), After(w, steps);
            Overwritten(mid.db, end.db, id, first, second) && |end.db.outbox| == |mid.db.outbox| + 1
  {
    var c := w.db.commands[id];
    var ack, one, two := AckBy(c, at), SuccessBy(c, first, at), SuccessBy(c, second, at);
    AckedIs(w, id, at);
    var w1 := Next(w, ack);
    ReportedIs(w1, id, first, at);
    var w2 := Next(w1, one);
    ReportedIs(w2, id, second, at);
    RunFrom(w2, two, []);
    RunFrom(w1, one, []);
    RunFrom(w1, one, [two] + []);
    RunFrom(w, ack, [one] + []);
    RunFrom(w, ack, [one] + ([two] + []));
    steps := [ack] + ([one] + ([two] + []));
    assert steps[..2] == [ack] + ([one] + []);
  }

  /** No rules, no budgets, everything allowed. */
  const OPEN_HOUSE := Governance({}, Policies.Allow, {}, {}, Budgets.Moment(0, 0, 1))


  /** Without rules and budgets a submission is released at once. */
  lemma FirstSubmission(run: Id, ref: RunRef, command: Id, approval: Id) returns (w: World, step: Step)
    ensures var start := Start(map[run := ref], {ref.agent}, 0); Enabled(start, step) && w == Next(start, step)
    ensures w.clock == 0 && KeysMatch(w.db) && w.db.commands.Keys == {command}
    ensures var c := w.db.commands[command];
            && c.tenant == ref.tenant && c.agent == ref.agent && IsDeliverable(c, c.tenant, c.agent) && !IsStale(c, 0)
  {
    var start := Start(map[run := ref], {ref.agent}, 0);
    var q := Request(ref.tenant, None, run, "pause", None, None);
    step := Submitting(q, OPEN_HOUSE, Draw(command, approval, "k", 0, 0));
    assert !KeyUsed(start.db, q.tenant, "k");
    assert Policies.Applicable({}, ActionOf(start.db, q)) == {};
    w := Next(start, step);
  }

  /** A poll on a table with one command hands it out. */
  lemma OnlyCommandIsDelivered(w: World, id: Id)
    requires KeysMatch(w.db) && w.db.commands.Keys == {id}
    requires var c := w.db.commands[id]; IsDeliverable(c, c.tenant, c.agent) && !IsStale(c, w.clock)
    ensures var c := w.db.commands[id];
            var step := Polling(c.tenant, c.agent, 1, w.clock);
            && Enabled(w, step)
            && var v := Next(w, step);
               v.clock == w.clock && KeysMatch(v.db) && id in v.db.commands && v.db.commands[id] == Moved(c, Delivered, w.clock)
  {
    var c, db := w.db.commands[id], w.db;
    assert Candidates(db, c.tenant, c.agent) == Ordering.Elements([c]);
    CandidatesOrdered(db, c.tenant, c.agent);
    Ordering.ArrangeUnique(Control.Earlier, [c]);
    assert Walked(db, c.tenant, c.agent, 1, w.clock) == [c];
    assert HandleAll(db, [c], w.clock) == Handle(db, c, w.clock);
  }

  lemma RunFromTwo(w: World, first: Step, second: Step, rest: seq<Step>)
    requires Enabled(w, first) && Enabled(Next(w, first), second) && Runs(Next(Next(w, first), second), rest)
    ensures Runs(w, [first, second] + rest) && After(w, [first, second] + rest) == After(Next(Next(w, first), second), rest)
  {
    RunFrom(Next(w, first), second, rest);
    RunFrom(w, first, [second] + rest);
    assert [first, second] + rest == [first] + ([second] + rest);
  }

  /** From empty tables: a command is submitted, polled, acknowledged and reported on twice, and its first report is gone. */
  lemma FirstReportIsLost(run: Id, ref: RunRef, command: Id, approval: Id, first: string, second: string)
    returns (steps: seq<Step>)
    ensures var start := Start(map[run := ref], {ref.agent}, 0);
            && |steps| == 5 && Runs(start, steps[..4]) && Runs(start, steps)
            && Overwritten(After(start, steps[..4]).db, After(start, steps).db, command, first, second)
  {
    var start := Start(map[run := ref], {ref.agent}, 0);
    var w1, submit := FirstSubmission(run, ref, command, approval);
    var c := w1.db.commands[command];
    OnlyCommandIsDelivered(w1, command);
    var poll := Polling(c.tenant, c.agent, 1, 0);
    var w2 := Next(w1, poll);
    var calls := ReportIsOverwritten(w2, command, first, second, 0);
    RunFromTwo(start, submit, poll, calls);
    RunFromTwo(start, submit, poll, calls[..2]);
    steps := [submit, poll] + calls;
    assert steps[..4] == [submit, poll] + calls[..2];
  }

  /** A decision takes effect exactly when it finds its approval pending and was made at version 1; else nothing changes. */
  lemma LosersChangeNothing(w: World, session: Id, at: Time)
    requires Inv(w) && Enabled(w, Settling(session, at)) && w.inFlight[session].Deciding?
    ensures var f, db' := w.inFlight[session], Next(w, Settling(session, at)).db;
            && (db' != w.db <==> f.approval in w.db.approvals && w.db.approvals[f.approval].tenant == f.tenant
                                 && w.db.approvals[f.approval].status == Pending && f.version == 1)
            && (db' != w.db ==> f.approval in db'.approvals && db'.approvals[f.approval].status == StatusOf(f.verdict))
  {
    var f, db' := w.inFlight[session], Next(w, Settling(session, at)).db;
    if f.approval in w.db.approvals {
      assert ApprovalOk(w.db.approvals[f.approval]);
      if Decidable(w.db, f.tenant, f.approval, f.version) {
        assert db'.approvals[f.approval].status != Pending;
      }
    }
  }

  /** Once settled, an approval lets no later decision through: every guard refuses, every late update changes nothing. */
  lemma SecondDecisionLoses(w: World, steps: seq<Step>, approval: Id)
    requires Inv(w) && Runs(w, steps)
    requires approval in w.db.approvals && w.db.approvals[approval].status != Pending
    ensures var v := After(w, steps);
            && (forall session, at | Enabled(v, Settling(session, at)) && v.inFlight[session].Deciding?
                                     && v.inFlight[session].approval == approval ::
                  Next(v, Settling(session, at)).db == v.db)
            && (forall tenant, at :: Guard(v.db, tenant, approval, at).Unknown? || Guard(v.db, tenant, approval, at).Conflict?)
  {
    DecisionsAreFinal(w, steps, approval);
  }

  // ---------------------------------------------------------------- the late expiry

  /**
   An expiry that passed its guard before another decision won does not lose cleanly: its own update
   finds nothing, yet it cancels the queued command. It leaves the approval row but touches the
   command exactly when the approval is approved and the command not yet delivered or cancelled.
   */
  lemma LateExpiryCancels(w: World, session: Id, at: Time, id: Id)
    requires Inv(w) && Enabled(w, Settling(session, at)) && w.inFlight[session].Expiring?
    requires id in w.db.commands && w.db.commands[id].approval == Some(w.inFlight[session].approval)
    ensures var a, w' := w.inFlight[session].approval, Next(w, Settling(session, at));
            && (w'.db.approvals[a] == w.db.approvals[a] && w'.db.commands[id] != w.db.commands[id] <==>
                  w.db.approvals[a].status == Approved && w.db.commands[id].status == CommandQueued)
            && (w'.db.commands[id] != w.db.commands[id] ==>
                  w'.db.commands[id] == Moved(w.db.commands[id], CommandCancelled, at))
  {
    var a := w.inFlight[session].approval;
    assert CommandOk(w.db.approvals, w.clock, w.db.commands[id]);
    LinkedIs(w.db, w.clock, a);
    if w.db.approvals[a].status == Pending {
      var row := w.db.approvals[a];
      var taken := w.db.(approvals := w.db.approvals[a := row.(status := Expired, version := row.version + 1)]);
      assert HasLinked(taken, a);
    }
  }

  /** A first step and the run after it. */
  lemma RunFrom(w: World, step: Step, rest: seq<Step>)
    requires Enabled(w, step) && Runs(Next(w, step), rest)
    ensures Runs(w, [step] + rest) && After(w, [step] + rest) == After(Next(w, step), rest)
  {
    assert ([step] + rest)[0] == step && ([step] + rest)[1..] == rest;
  }

  lemma ApproveReleases(db: Db, clock: Time, tenant: Option<Id>, approval: Id, id: Id, user: Option<Id>, at: Time)
    requires DbOk(db, clock) && Decidable(db, tenant, approval, 1)
    requires id in db.commands && db.commands[id].approval == Some(approval) && db.commands[id].status == CommandQueued
    ensures var db' := Decide(db, tenant, approval, Approve, 1, user, at).0;
            && db'.commands == db.commands[id := db.commands[id].(releasedAt := Some(at))]
            && db'.approvals[approval].status == Approved
  {
    var a := db.approvals[approval];
    var taken := db.(approvals := db.approvals[approval := a.(status := Approved, version := a.version + 1, decidedAt := Some(at), decidedBy := user)]);
    LinkedIs(db, clock, approval);
    assert HasLinked(taken, approval);
    assert Linked(taken, approval) == id;
  }

  /** A guard passed before the deadline, an expiry guard passed after it: both are now under way. */
  lemma BothUnderWay(w: World, approval: Id, s1: Id, s2: Id, before: Time, after: Time, user: Option<Id>)
    returns (g1: Step, g2: Step)
    requires Inv(w) && approval in w.db.approvals && w.db.approvals[approval].status == Pending
    requires s1 !in w.inFlight && s2 !in w.inFlight && s1 != s2
    requires w.clock <= before < w.db.approvals[approval].expiresAt <= after
    ensures Enabled(w, g1) && Enabled(Next(w, g1), g2)
    ensures Inv(Next(Next(w, g1), g2))
    ensures Next(Next(w, g1), g2) ==
            w.(clock := after,
               inFlight := w.inFlight[s1 := Deciding(w.db.approvals[approval].tenant, approval, Approve, 1, user)]
                                     [s2 := Expiring(approval)])
  {
    var tenant := w.db.approvals[approval].tenant;
    g1 := Guarding(s1, tenant, approval, Approve, 1, user, before);
    g2 := Guarding(s2, tenant, approval, Approve, 1, user, after);
    assert Guard(w.db, tenant, approval, before) == Clear && Guard(w.db, tenant, approval, after) == Stale;
    StepKeepsInv(w, g1);
    StepKeepsInv(Next(w, g1), g2);
  }

  /** The approval settles first, the expiry after it. */
  lemma BothSettle(w: World, approval: Id, id: Id, s1: Id, s2: Id, at: Time)
    returns (f1: Step, f2: Step)
    requires Inv(w) && w.clock <= at && approval in w.db.approvals && w.db.approvals[approval].status == Pending
    requires id in w.db.commands && w.db.commands[id].approval == Some(approval) && w.db.commands[id].status == CommandQueued
    requires s1 in w.inFlight && s2 in w.inFlight && s1 != s2 && w.inFlight[s2] == Expiring(approval)
    requires w.inFlight[s1].Deciding? && w.inFlight[s1].approval == approval && w.inFlight[s1].verdict == Approve
    requires w.inFlight[s1].tenant == w.db.approvals[approval].tenant && w.inFlight[s1].version == 1
    ensures Enabled(w, f1) && Enabled(Next(w, f1), f2)
    ensures var db := Next(Next(w, f1), f2).db;
            && approval in db.approvals && db.approvals[approval].status == Approved
            && id in db.commands && db.commands[id].status == CommandCancelled
            && db.commands[id].releasedAt == Some(at)
  {
    f1, f2 := Settling(s1, at), Settling(s2, at);
    assert ApprovalOk(w.db.approvals[approval]);
    ApproveReleases(w.db, w.clock, w.inFlight[s1].tenant, approval, id, w.inFlight[s1].user, at);
    StepKeepsInv(w, f1);
    LateExpiryCancels(Next(w, f1), s2, at, id);
  }

  /**
   Such a schedule exists for every held command: both guards pass, then both settle. The approval
   ends approved, its released command cancelled.
   */
  lemma ApprovedYetCancelled(w: World, approval: Id, id: Id, s1: Id, s2: Id, before: Time, after: Time, user: Option<Id>)
    returns (steps: seq<Step>)
    requires Inv(w) && approval in w.db.approvals && w.db.approvals[approval].status == Pending
    requires id in w.db.commands && w.db.commands[id].approval == Some(approval) && w.db.commands[id].status == CommandQueued
    requires s1 !in w.inFlight && s2 !in w.inFlight && s1 != s2
    requires w.clock <= before < w.db.approvals[approval].expiresAt <= after
    ensures Runs(w, steps)
    ensures var db := After(w, steps).db;
            && approval in db.approvals && db.approvals[approval].status == Approved
            && id in db.commands && db.commands[id].status == CommandCancelled
            && db.commands[id].releasedAt == Some(after)
  {
    var g1, g2 := BothUnderWay(w, approval, s1, s2, before, after, user);
    var w2 := Next(Next(w, g1), g2);
    var f1, f2 := BothSettle(w2, approval, id, s1, s2, after);
    RunFrom(Next(w2, f1), f2, []);
    RunFrom(w2, f1, [f2] + []);
    RunFrom(Next(w, g1), g2, [f1] + ([f2] + []));
    RunFrom(w, g1, [g2] + ([f1] + ([f2] + [])));
    steps := [g1] + ([g2] + ([f1] + ([f2] + [])));
  }
}
