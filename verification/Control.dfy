/** Governed commands and their approvals: what each service call does to the tables. */
module Control {
  import opened Prelude
  import opened StateMachines
  import opened Outbox
  import opened Ordering
  import Policies
  import Budgets
  import Usage

  datatype RunRef = RunRef(tenant: Option<Id>, agent: Id, project: Option<Id>)

  datatype Report = Report(success: bool, payload: string, error: string)

  datatype Command = Command(
    id: Id, tenant: Option<Id>, agent: Id, run: Id, kind: string, key: string,
    status: CommandState, version: nat, approval: Option<Id>, policy: Option<Id>, effect: Policies.Effect,
    createdAt: Time, releasedAt: Option<Time>, expiresAt: Time,
    deliveredAt: Option<Time>, acknowledgedAt: Option<Time>, resultAt: Option<Time>, report: Option<Report>)

  datatype Approval = Approval(
    id: Id, tenant: Option<Id>, agent: Id, run: Id, status: ApprovalState, version: nat,
    expiresAt: Time, decidedAt: Option<Time>, decidedBy: Option<Id>)

  datatype Audit =
    | PolicyEvaluated(decision: Policies.Decision)
    | CommandSubmitted(command: Id, effect: Policies.Effect)
    | ApprovalDecided(approval: Id, status: ApprovalState)

  datatype Db = Db(
    runs: map<Id, RunRef>, agents: set<Id>,
    commands: map<Id, Command>, approvals: map<Id, Approval>,
    outbox: seq<Row>, audits: seq<Audit>)

  const SECOND := 1000000
  const COMMAND_TTL := 900
  const APPROVAL_TTL := 3600
  const MAX_POLL := 100

  function Emit(db: Db, tenant: Option<Id>, topic: Topic, fact: Fact): Db {
    db.(outbox := db.outbox + [Row(tenant, topic, fact)])
  }

  function Log(db: Db, audit: Audit): Db {
    db.(audits := db.audits + [audit])
  }

  function Put(db: Db, c: Command): Db {
    db.(commands := db.commands[c.id := c])
  }

  function EmitFor(db: Db, c: Command, fact: Fact): Db {
    Emit(db, c.tenant, OfRun(c.run), fact)
  }

  // ---------------------------------------------------------------- transitions

  predicate CanMove(c: Command, target: CommandState) {
    c.status == target || target in CommandTargets(c.status)
  }

  /** Re-announcing the current state changes nothing; otherwise the version and a milestone move. */
  function Moved(c: Command, target: CommandState, at: Time): Command
    requires CanMove(c, target)
  {
    if c.status == target then c
    else
      var d := c.(status := target, version := c.version + 1);
      match target
      case Delivered => d.(deliveredAt := Some(at))
      case Acknowledged => d.(acknowledgedAt := Some(at))
      case CommandSucceeded => d.(resultAt := Some(at))
      case CommandFailed => d.(resultAt := Some(at))
      case _ => d
  }

  // ---------------------------------------------------------------- submission

  datatype Request = Request(tenant: Option<Id>, user: Option<Id>, run: Id, kind: string, key: Option<string>, ttl: Option<nat>)

  /** Rules, budgets and consumption as they stand when a command is submitted. */
  datatype Governance = Governance(policies: set<Policies.Policy>, fallback: Policies.Effect,
                                   budgets: set<Budgets.Budget>, records: set<Usage.Record>, moment: Budgets.Moment)

  /** What the server draws for one submission: fresh identifiers and the clock. */
  datatype Draw = Draw(command: Id, approval: Id, key: string, createdAt: Time, now: Time)

  datatype Submission = NotFound | Replayed(command: Id) | Denied | OverBudget | Held(command: Id) | Released(command: Id)

  function KeyOf(q: Request, draw: Draw): string {
    if q.key.None? || q.key.value == "" then draw.key else q.key.value
  }

  predicate HasKey(c: Command, tenant: Option<Id>, key: string) {
    c.tenant == tenant && c.key == key
  }

  ghost predicate KeyUsed(db: Db, tenant: Option<Id>, key: string) {
    exists id :: id in db.commands && HasKey(db.commands[id], tenant, key)
  }

  ghost function CommandWithKey(db: Db, tenant: Option<Id>, key: string): Id
    requires KeyUsed(db, tenant, key)
  {
    var id :| id in db.commands && HasKey(db.commands[id], tenant, key);
    id
  }

  predicate RunFound(db: Db, q: Request) {
    q.run in db.runs && db.runs[q.run].tenant == q.tenant && db.runs[q.run].agent in db.agents
  }

  function ActionOf(db: Db, q: Request): Policies.Action
    requires RunFound(db, q)
  {
    Policies.Action(q.tenant, db.runs[q.run].agent, q.kind, db.runs[q.run].project)
  }

  function SubjectOf(db: Db, q: Request): Budgets.Subject
    requires RunFound(db, q)
  {
    Budgets.Subject(q.tenant, Some(db.runs[q.run].agent), db.runs[q.run].project)
  }

  function Harden(effect: Policies.Effect, gate: Budgets.Behavior): Policies.Effect {
    if gate == Budgets.NeedsApproval && effect == Policies.Allow then Policies.RequireApproval else effect
  }

  /** The row a submission inserts, released at once or held by an approval. */
  function NewCommand(db: Db, q: Request, draw: Draw, d: Policies.Decision, effect: Policies.Effect): Command
    requires RunFound(db, q)
  {
    var ttl := if q.ttl.None? || q.ttl.value == 0 then COMMAND_TTL else q.ttl.value;
    var held := effect == Policies.RequireApproval;
    Command(draw.command, q.tenant, db.runs[q.run].agent, q.run, q.kind, KeyOf(q, draw),
            CommandQueued, 1, if held then Some(draw.approval) else None, d.policy, effect,
            draw.createdAt, if held then None else Some(draw.now), draw.now + ttl * SECOND,
            None, None, None, None)
  }

  function NewApproval(db: Db, q: Request, draw: Draw): Approval
    requires RunFound(db, q)
  {
    Approval(draw.approval, q.tenant, db.runs[q.run].agent, q.run, Pending, 1,
             draw.now + APPROVAL_TTL * SECOND, None, None)
  }

  function Create(db: Db, q: Request, draw: Draw, d: Policies.Decision, effect: Policies.Effect): Db
    requires RunFound(db, q)
  {
    var c := NewCommand(db, q, draw, d, effect);
    var stored :=
      if effect == Policies.RequireApproval then
        var a := NewApproval(db, q, draw);
        Emit(Put(db.(approvals := db.approvals[a.id := a]), c), q.tenant, Approvals, ApprovalRequested(a.id))
      else
        EmitFor(Put(db, c), c, QueueNotice(None));
    Log(stored, CommandSubmitted(c.id, effect))
  }

  ghost function Submit(db: Db, q: Request, g: Governance, draw: Draw): (Db, Submission)
    requires Policies.DistinctIds(g.policies)
  {
    if !RunFound(db, q) then (db, NotFound)
    else if KeyUsed(db, q.tenant, KeyOf(q, draw)) then (db, Replayed(CommandWithKey(db, q.tenant, KeyOf(q, draw))))
    else
      var d := Policies.Resolve(g.policies, ActionOf(db, q), g.fallback);
      var gate := Budgets.Gate(g.budgets, SubjectOf(db, q), g.records, g.moment);
      var audited := Log(db, PolicyEvaluated(d));
      if d.effect == Policies.Deny then (audited, Denied)
      else if gate == Budgets.Block then (audited, OverBudget)
      else
        var effect := Harden(d.effect, gate);
        (Create(audited, q, draw, d, effect),
         if effect == Policies.RequireApproval then Held(draw.command) else Released(draw.command))
  }

  // ---------------------------------------------------------------- approvals

  ghost predicate HasLinked(db: Db, approval: Id) {
    exists id :: id in db.commands && db.commands[id].approval == Some(approval)
  }

  /** The command held by an approval, found through its link. */
  ghost function Linked(db: Db, approval: Id): Id
    requires HasLinked(db, approval)
  {
    var id :| id in db.commands && db.commands[id].approval == Some(approval);
    id
  }

  datatype Verdict = Approve | Reject

  datatype Guarded = Unknown | Conflict | Stale | Clear

  /** The checks before a decision: the row exists, is pending, and its deadline has not passed. */
  function Guard(db: Db, tenant: Option<Id>, approval: Id, now: Time): Guarded {
    if approval !in db.approvals || db.approvals[approval].tenant != tenant then Unknown
    else if db.approvals[approval].status != Pending then Conflict
    else if db.approvals[approval].expiresAt <= now then Stale
    else Clear
  }

  predicate Decidable(db: Db, tenant: Option<Id>, approval: Id, version: int) {
    && approval in db.approvals && db.approvals[approval].tenant == tenant
    && db.approvals[approval].status == Pending && db.approvals[approval].version == version
  }

  /** Cancel the held command, if it is still queued. */
  ghost function CancelLinked(db: Db, approval: Id, now: Time, reason: string): Db {
    if HasLinked(db, approval) && db.commands[Linked(db, approval)].status == CommandQueued then
      var c := db.commands[Linked(db, approval)];
      EmitFor(Put(db, Moved(c, CommandCancelled, now)), c, CancelNotice(c.id, reason))
    else db
  }

  ghost function ReleaseLinked(db: Db, approval: Id, now: Time): Db {
    if HasLinked(db, approval) && db.commands[Linked(db, approval)].status == CommandQueued then
      var c := db.commands[Linked(db, approval)];
      EmitFor(Put(db, c.(releasedAt := Some(now))), c, QueueNotice(Some(c.id)))
    else db
  }

  function StatusOf(v: Verdict): ApprovalState {
    match v case Approve => Approved case Reject => Rejected
  }

  /** The conditional update and, when it took, its effect on the held command. */
  ghost function Decide(db: Db, tenant: Option<Id>, approval: Id, v: Verdict, version: int, user: Option<Id>, now: Time): (Db, bool) {
    if !Decidable(db, tenant, approval, version) then (db, false)
    else
      var a := db.approvals[approval];
      var a' := a.(status := StatusOf(v), version := a.version + 1, decidedAt := Some(now), decidedBy := user);
      var taken := db.(approvals := db.approvals[approval := a']);
      var done := match v
        case Approve => Emit(ReleaseLinked(taken, approval, now), tenant, Approvals, ApprovalApproved(approval))
        case Reject => Emit(CancelLinked(taken, approval, now, "approval_rejected"), tenant, Approvals, ApprovalRejected(approval));
      (Log(done, ApprovalDecided(approval, StatusOf(v))), true)
  }

  /** The approval row after the expiry's conditional update. */
  function Updated(db: Db, approval: Id): Db {
    if approval in db.approvals && db.approvals[approval].status == Pending then
      var a := db.approvals[approval];
      db.(approvals := db.approvals[approval := a.(status := Expired, version := a.version + 1)])
    else db
  }

  /** The expiry of a request: its own conditional update, then the cancellation whatever that update met. */
  ghost function Expire(db: Db, approval: Id, now: Time): Db {
    CancelLinked(Updated(db, approval), approval, now, "approval_expired")
  }

  // ---------------------------------------------------------------- operator and agent calls

  datatype Outcome = Done | Missing | Refused | Invalid

  function Cancel(db: Db, tenant: Option<Id>, id: Id, now: Time): (Db, Outcome) {
    if id !in db.commands || db.commands[id].tenant != tenant then (db, Missing)
    else
      var c := db.commands[id];
      if !CanMove(c, CommandCancelled) then (db, Refused)
      else (EmitFor(db.(commands := db.commands[id := Moved(c, CommandCancelled, now)]), c, CancelNotice(id, "operator_cancel")), Done)
  }

  predicate InAgentScope(db: Db, tenant: Option<Id>, agent: Id, id: Id) {
    id in db.commands && db.commands[id].agent == agent && db.commands[id].tenant == tenant
  }

  function Acknowledge(db: Db, tenant: Option<Id>, agent: Id, id: Id, now: Time): (Db, Outcome) {
    if !InAgentScope(db, tenant, agent, id) then (db, Missing)
    else
      var c := db.commands[id];
      if !CanMove(c, Acknowledged) then (db, Refused)
      else (EmitFor(db.(commands := db.commands[id := Moved(c, Acknowledged, now)]), c, AckNotice(id)), Done)
  }

  /** `success` is absent when the reported status is neither of the two allowed words. */
  function SubmitResult(db: Db, tenant: Option<Id>, agent: Id, id: Id, success: Option<bool>, payload: string, error: string, now: Time): (Db, Outcome) {
    if success.None? then (db, Invalid)
    else if !InAgentScope(db, tenant, agent, id) then (db, Missing)
    else
      var c := db.commands[id];
      var target := if success.value then CommandSucceeded else CommandFailed;
      if !CanMove(c, target) then (db, Refused)
      else
        var fact := if success.value then SuccessNotice(id) else FailureNotice(id);
        var report := Report(success.value, payload, if success.value then "" else error);
        (EmitFor(db.(commands := db.commands[id := Moved(c, target, now).(report := Some(report))]), c, fact), Done)
  }

  // ---------------------------------------------------------------- delivery

  /** `created_at ASC, id ASC` */
  predicate Earlier(a: Command, b: Command) {
    a.createdAt < b.createdAt || (a.createdAt == b.createdAt && a.id < b.id)
  }

  predicate IsDeliverable(c: Command, tenant: Option<Id>, agent: Id) {
    c.agent == agent && c.tenant == tenant && c.status == CommandQueued && c.releasedAt.Some?
  }

  function Candidates(db: Db, tenant: Option<Id>, agent: Id): set<Command> {
    set id | id in db.commands && IsDeliverable(db.commands[id], tenant, agent) :: db.commands[id]
  }

  ghost predicate KeysMatch(db: Db) {
    forall id | id in db.commands :: db.commands[id].id == id
  }

  lemma CandidatesOrdered(db: Db, tenant: Option<Id>, agent: Id)
    requires KeysMatch(db)
    ensures StrictTotal(Earlier, Candidates(db, tenant, agent))
  {
  }

  /** The agent's queue: released, queued commands, oldest first. */
  ghost function Queue(db: Db, tenant: Option<Id>, agent: Id): seq<Command>
    requires KeysMatch(db)
  {
    CandidatesOrdered(db, tenant, agent);
    Arrange(Earlier, Candidates(db, tenant, agent))
  }

  predicate IsStale(c: Command, now: Time) {
    c.expiresAt <= now
  }

  /** What a poll does with one candidate: expire it or deliver it. */
  function Handle(db: Db, c: Command, now: Time): Db
    requires c.status == CommandQueued
  {
    if IsStale(c, now) then EmitFor(Put(db, Moved(c, CommandExpired, now)), c, ExpiryNotice(c.id))
    else EmitFor(Put(db, Moved(c, Delivered, now)), c, DeliveryNotice(c.id))
  }

  /** How far a poll walks: up to its last delivery, or to the end. */
  function Cut(queue: seq<Command>, limit: nat, now: Time): nat
    decreases |queue|
  {
    if queue == [] then 0
    else if IsStale(queue[0], now) then 1 + Cut(queue[1..], limit, now)
    else if limit <= 1 then 1
    else 1 + Cut(queue[1..], limit - 1, now)
  }

  lemma {:induction false} CutInRange(queue: seq<Command>, limit: nat, now: Time)
    ensures Cut(queue, limit, now) <= |queue|
    decreases |queue|
  {
    if queue != [] {
      CutInRange(queue[1..], limit, now);
      if limit > 1 { CutInRange(queue[1..], limit - 1, now); }
    }
  }

  /** The unexpired commands of a queue, in order. */
  function Live(queue: seq<Command>, now: Time): seq<Id> {
    if queue == [] then []
    else (if IsStale(queue[0], now) then [] else [queue[0].id]) + Live(queue[1..], now)
  }

  function HandleAll(db: Db, walked: seq<Command>, now: Time): Db
    requires forall i | 0 <= i < |walked| :: walked[i].status == CommandQueued
    decreases |walked|
  {
    if walked == [] then db else HandleAll(Handle(db, walked[0], now), walked[1..], now)
  }

  function ClampPoll(limit: int): (n: nat)
    ensures 1 <= n <= MAX_POLL && (1 <= limit <= 100 ==> n == limit) && (limit > 100 ==> n == 100)
  {
    if limit < 1 then 1 else if limit > MAX_POLL then MAX_POLL else limit
  }

  lemma QueueIsQueued(db: Db, tenant: Option<Id>, agent: Id)
    requires KeysMatch(db)
    ensures Increasing(Earlier, Queue(db, tenant, agent))
    ensures forall c :: c in Queue(db, tenant, agent) <==> c in Candidates(db, tenant, agent)
  {
    CandidatesOrdered(db, tenant, agent);
    ArrangeIncreasing(Earlier, Candidates(db, tenant, agent));
    ArrangeMembers(Earlier, Candidates(db, tenant, agent));
  }

  /** The front of the queue a poll walks over. */
  ghost function Walked(db: Db, tenant: Option<Id>, agent: Id, limit: int, now: Time): (walked: seq<Command>)
    requires KeysMatch(db)
    ensures forall i | 0 <= i < |walked| :: walked[i].status == CommandQueued
  {
    var queue := Queue(db, tenant, agent);
    QueueIsQueued(db, tenant, agent);
    CutInRange(queue, ClampPoll(limit), now);
    assert forall i | 0 <= i < |queue| :: queue[i] in queue;
    queue[..Cut(queue, ClampPoll(limit), now)]
  }

  ghost function Poll(db: Db, tenant: Option<Id>, agent: Id, limit: int, now: Time): (Db, seq<Id>)
    requires KeysMatch(db)
  {
    var walked := Walked(db, tenant, agent, limit, now);
    (HandleAll(db, walked, now), Live(walked, now))
  }
}
