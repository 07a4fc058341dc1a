/** The rows services leave in the transactional outbox, as far as their content is decided by the control plane. */
module Outbox {
  import opened Prelude
  import opened Catalog
  import opened StateMachines

  datatype Topic =
    | Fleet | Approvals | OfRun(run: Id) | OfAgent(agent: Id) | OfProject(project: Id)
    // an identifier a producer sent that is no UUID
    | OfUnknownRun(text: string) | OfUnknownProject(text: string)

  datatype Fact =
    // journal and projections
    | Ingested(eventId: string, kind: Kind, sequence: int)
    | Heartbeat(agent: Id, beat: Option<int>)
    | UsageRecorded(usage: Id, cost: int)
    // alerts and budgets
    | AlertOpened(alert: Id)
    | AlertAcknowledged(alert: Id)
    | AlertResolved(alert: Id)
    | BudgetReached(budget: Id, threshold: int)
    | BudgetExceeded(budget: Id, threshold: int)
    // commands and approvals
    | ApprovalRequested(approval: Id)
    | ApprovalApproved(approval: Id)
    | ApprovalRejected(approval: Id)
    // a submission announces its command before the identifier is drawn
    | QueueNotice(announced: Option<Id>)
    | DeliveryNotice(command: Id)
    | AckNotice(command: Id)
    | SuccessNotice(command: Id)
    | FailureNotice(command: Id)
    | ExpiryNotice(command: Id)
    | CancelNotice(command: Id, reason: string)

  datatype Row = Row(tenant: Option<Id>, topic: Topic, fact: Fact)

  // ---------------------------------------------------------------- who writes what

  datatype Writer = Journaling | Beating | Alerting | Governing

  function WriterOf(fact: Fact): Writer {
    match fact
    case Ingested(_, _, _) => Journaling
    case UsageRecorded(_, _) => Journaling
    case Heartbeat(_, _) => Beating
    case AlertOpened(_) => Alerting
    case AlertAcknowledged(_) => Alerting
    case AlertResolved(_) => Alerting
    case BudgetReached(_, _) => Alerting
    case BudgetExceeded(_, _) => Alerting
    case _ => Governing
  }

  /** The column `event_type`. A producer's event keeps its own. */
  function EventType(fact: Fact): string {
    match fact
    case Ingested(_, kind, _) => NameOf(kind)
    case Heartbeat(_, _) => "agent.heartbeat"
    case UsageRecorded(_, _) => "usage.recorded"
    case AlertOpened(_) => "alert.opened"
    case AlertAcknowledged(_) => "alert.acknowledged"
    case AlertResolved(_) => "alert.resolved"
    case BudgetReached(_, _) => "budget.threshold_reached"
    case BudgetExceeded(_, _) => "budget.exceeded"
    case ApprovalRequested(_) => "approval.requested"
    case ApprovalApproved(_) => "approval.approved"
    case ApprovalRejected(_) => "approval.rejected"
    case QueueNotice(_) => "command.queued"
    case DeliveryNotice(_) => "command.delivered"
    case AckNotice(_) => "command.acknowledged"
    case SuccessNotice(_) => "command.succeeded"
    case FailureNotice(_) => "command.failed"
    case ExpiryNotice(_) => "command.expired"
    case CancelNotice(_, _) => "command.cancelled"
  }

  /** The column `sequence`, null unless a producer counted. */
  function Sequence(fact: Fact): Option<int> {
    match fact
    case Ingested(_, _, sequence) => Some(sequence)
    case Heartbeat(_, beat) => beat
    case _ => None
  }

  /** A row of this type with no sequence. */
  predicate Unnumbered(fact: Fact, name: string) {
    EventType(fact) == name && Sequence(fact).None?
  }

  /** A row that only the named service writes is told from a producer's event of the same type by its missing sequence. */
  lemma UnnumberedTells(fact: Fact)
    ensures Unnumbered(fact, "usage.recorded") <==> fact.UsageRecorded?
    ensures Unnumbered(fact, "budget.threshold_reached") <==> fact.BudgetReached?
    ensures Unnumbered(fact, "budget.exceeded") <==> fact.BudgetExceeded?
    ensures Unnumbered(fact, "command.queued") <==> fact.QueueNotice?
    ensures Unnumbered(fact, "command.delivered") <==> fact.DeliveryNotice?
    ensures Unnumbered(fact, "command.acknowledged") <==> fact.AckNotice?
    ensures Unnumbered(fact, "command.succeeded") <==> fact.SuccessNotice?
    ensures Unnumbered(fact, "command.failed") <==> fact.FailureNotice?
    ensures Unnumbered(fact, "command.expired") <==> fact.ExpiryNotice?
    ensures Unnumbered(fact, "command.cancelled") <==> fact.CancelNotice?
  {
  }

  /** The same of approvals and alerts. */
  lemma UnnumberedTellsToo(fact: Fact)
    ensures Unnumbered(fact, "approval.requested") <==> fact.ApprovalRequested?
    ensures Unnumbered(fact, "approval.approved") <==> fact.ApprovalApproved?
    ensures Unnumbered(fact, "approval.rejected") <==> fact.ApprovalRejected?
    ensures Unnumbered(fact, "alert.opened") <==> fact.AlertOpened?
    ensures Unnumbered(fact, "alert.acknowledged") <==> fact.AlertAcknowledged?
    ensures Unnumbered(fact, "alert.resolved") <==> fact.AlertResolved?
  {
  }

  /** The event types of runs name the state that follows the prefix. */
  lemma RunEventsNameStates(s: RunState, name: string)
    ensures NameOf(RunBecame(s)) == "run." + name <==>
            || (name == "queued" && s == Queued) || (name == "starting" && s == Starting) || (name == "running" && s == Running)
            || (name == "waiting_approval" && s == WaitingApproval) || (name == "blocked" && s == Blocked)
            || (name == "succeeded" && s == Succeeded) || (name == "failed" && s == Failed)
            || (name == "cancelled" && s == Cancelled) || (name == "timed_out" && s == TimedOut)
  {
    var full := "run." + name;
    assert full[4..] == name && NameOf(RunBecame(s))[4..] == StateName(s);
  }

  /** The other events a producer is told apart by. */
  lemma ReportsAreNamed(kind: Kind)
    ensures kind.StepNoted? ==>
              && (NameOf(kind) == "run.step.started" <==> kind.verb == StepStarted)
              && (NameOf(kind) == "run.step.completed" <==> kind.verb == StepCompleted)
              && (NameOf(kind) == "run.step.failed" <==> kind.verb == StepFailed)
    ensures kind == UsageReported ==> NameOf(kind) == "usage.recorded"
  {
  }

  /** One writer's rows, in order. */
  function Select(rows: seq<Row>, w: Writer): seq<Row> {
    if rows == [] then []
    else
      var last := |rows| - 1;
      Select(rows[..last], w) + if WriterOf(rows[last].fact) == w then [rows[last]] else []
  }

  /** Where they are. */
  function Positions(rows: seq<Row>, w: Writer): seq<nat> {
    if rows == [] then []
    else
      var last := |rows| - 1;
      Positions(rows[..last], w) + if WriterOf(rows[last].fact) == w then [last] else []
  }

  predicate Ascending(at: seq<nat>) {
    forall i, j | 0 <= i < j < |at| :: at[i] < at[j]
  }

  lemma {:induction false} PositionsPoint(rows: seq<Row>, w: Writer)
    ensures var at, mine := Positions(rows, w), Select(rows, w);
            |at| == |mine| && Ascending(at) && forall n | 0 <= n < |at| :: at[n] < |rows| && rows[at[n]] == mine[n]
  {
    if rows != [] {
      PositionsPoint(rows[..|rows| - 1], w);
    }
  }

  lemma SelectSnoc(rows: seq<Row>, row: Row, w: Writer)
    ensures Select(rows + [row], w) == Select(rows, w) + if WriterOf(row.fact) == w then [row] else []
  {
    assert (rows + [row])[..|rows|] == rows;
  }

  /** The longer outbox adds rows of one writer alone. */
  ghost predicate Adds(rows: seq<Row>, more: seq<Row>, w: Writer) {
    rows <= more && forall i | |rows| <= i < |more| :: WriterOf(more[i].fact) == w
  }

  lemma AddsTrans(a: seq<Row>, b: seq<Row>, c: seq<Row>, w: Writer)
    requires Adds(a, b, w) && Adds(b, c, w)
    ensures Adds(a, c, w)
  {
    assert forall i | 0 <= i < |b| :: c[i] == b[i];
  }

  lemma {:induction false} SelectAdds(rows: seq<Row>, more: seq<Row>, w: Writer, v: Writer)
    requires Adds(rows, more, w)
    ensures Select(more, v) == Select(rows, v) + if v == w then more[|rows|..] else []
    decreases |more|
  {
    if |more| == |rows| {
      assert more == rows;
    } else {
      var last := |more| - 1;
      SelectAdds(rows, more[..last], w, v);
      assert more[|rows|..] == more[..last][|rows|..] + [more[last]];
    }
  }

  /** How many rows state this fact for this tenant. */
  function Count(rows: seq<Row>, tenant: Option<Id>, fact: Fact): nat {
    if rows == [] then 0
    else
      var last := rows[|rows| - 1];
      Count(rows[..|rows| - 1], tenant, fact) + if last.tenant == tenant && last.fact == fact then 1 else 0
  }

  lemma CountSnoc(rows: seq<Row>, row: Row, tenant: Option<Id>, fact: Fact)
    ensures Count(rows + [row], tenant, fact) ==
            Count(rows, tenant, fact) + if row.tenant == tenant && row.fact == fact then 1 else 0
  {
    assert (rows + [row])[..|rows|] == rows;
  }
}
