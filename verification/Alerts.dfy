/** De-duplicated alerts, and the budget evaluation that opens them. */
module Alerts {
  import opened Prelude
  import opened Usage
  import opened Budgets
  import opened Outbox

  datatype Status = Opened | Acknowledged | Resolved

  /** The condition an alert stands for. */
  datatype Key = Threshold(budget: Id, threshold: int) | Other(name: string)

  datatype AlertRow = AlertRow(tenant: Option<Id>, key: Key, status: Status, version: nat)

  /** The alert table, an alert's position being its identity, and the shared outbox. */
  datatype Desk = Desk(alerts: seq<AlertRow>, outbox: seq<Row>)

  predicate Active(a: AlertRow, tenant: Option<Id>, key: Key) {
    a.tenant == tenant && a.key == key && a.status != Resolved
  }

  predicate HasActive(alerts: seq<AlertRow>, tenant: Option<Id>, key: Key) {
    exists i :: 0 <= i < |alerts| && Active(alerts[i], tenant, key)
  }

  // ---------------------------------------------------------------- operations

  function Emit(d: Desk, tenant: Option<Id>, fact: Fact): Desk {
    d.(outbox := d.outbox + [Row(tenant, Fleet, fact)])
  }

  function OpenAlert(d: Desk, tenant: Option<Id>, key: Key): Desk {
    if HasActive(d.alerts, tenant, key) then d
    else Emit(d.(alerts := d.alerts + [AlertRow(tenant, key, Opened, 1)]), tenant, AlertOpened(|d.alerts|))
  }

  function SetStatus(d: Desk, i: nat, status: Status): Desk
    requires i < |d.alerts|
  {
    d.(alerts := d.alerts[i := d.alerts[i].(status := status, version := d.alerts[i].version + 1)])
  }

  datatype Outcome = Done | Unchanged | NotFound | Conflict

  function Find(d: Desk, tenant: Option<Id>, alert: Id): Outcome {
    if 0 <= alert < |d.alerts| && d.alerts[alert].tenant == tenant then Done else NotFound
  }

  function Acknowledge(d: Desk, tenant: Option<Id>, alert: Id): (Desk, Outcome) {
    if Find(d, tenant, alert).NotFound? then (d, NotFound)
    else
      match d.alerts[alert].status
      case Resolved => (d, Conflict)
      case Acknowledged => (d, Unchanged)
      case Opened => (Emit(SetStatus(d, alert, Acknowledged), tenant, AlertAcknowledged(alert)), Done)
  }

  function Resolve(d: Desk, tenant: Option<Id>, alert: Id): (Desk, Outcome) {
    if Find(d, tenant, alert).NotFound? then (d, NotFound)
    else if d.alerts[alert].status == Resolved then (d, Unchanged)
    else (Emit(SetStatus(d, alert, Resolved), tenant, AlertResolved(alert)), Done)
  }

  function BudgetFact(b: Budget, threshold: int): Fact {
    if threshold >= 100 then BudgetExceeded(b.id, threshold) else BudgetReached(b.id, threshold)
  }

  /** One threshold of one budget: open its alert unless one is active, and tell the world once. */
  function Notify(d: Desk, b: Budget, threshold: int): Desk {
    if HasActive(d.alerts, b.tenant, Threshold(b.id, threshold)) then d
    else Emit(OpenAlert(d, b.tenant, Threshold(b.id, threshold)), b.tenant, BudgetFact(b, threshold))
  }

  function NotifyAll(d: Desk, b: Budget, consumed: int, thresholds: seq<int>): Desk
    decreases |thresholds|
  {
    if thresholds == [] then d
    else
      NotifyAll(if Reaches(consumed, b.limit, thresholds[0]) then Notify(d, b, thresholds[0]) else d,
                b, consumed, thresholds[1..])
  }

  ghost function Evaluate(d: Desk, budgets: seq<Budget>, s: Subject, records: set<Record>, now: Moment): Desk
    decreases |budgets|
  {
    if budgets == [] then d
    else
      var b := budgets[0];
      var d' := if Covers(b, s) then NotifyAll(d, b, Consumed(b, records, now), Thresholds(b)) else d;
      Evaluate(d', budgets[1..], s, records, now)
  }

  // ---------------------------------------------------------------- conservation

  function CountAlerts(alerts: seq<AlertRow>, tenant: Option<Id>, key: Key): nat {
    if alerts == [] then 0
    else
      var last := |alerts| - 1;
      CountAlerts(alerts[..last], tenant, key) + if alerts[last].tenant == tenant && alerts[last].key == key then 1 else 0
  }

  function CountActive(alerts: seq<AlertRow>, tenant: Option<Id>, key: Key): nat {
    if alerts == [] then 0
    else
      var last := |alerts| - 1;
      CountActive(alerts[..last], tenant, key) + if Active(alerts[last], tenant, key) then 1 else 0
  }

  lemma CountsSnoc(alerts: seq<AlertRow>, a: AlertRow, tenant: Option<Id>, key: Key)
    ensures CountAlerts(alerts + [a], tenant, key) ==
            CountAlerts(alerts, tenant, key) + if a.tenant == tenant && a.key == key then 1 else 0
    ensures CountActive(alerts + [a], tenant, key) ==
            CountActive(alerts, tenant, key) + if Active(a, tenant, key) then 1 else 0
  {
    assert (alerts + [a])[..|alerts|] == alerts;
  }

  lemma {:induction false} CountsUpdate(alerts: seq<AlertRow>, i: nat, a: AlertRow, tenant: Option<Id>, key: Key)
    requires i < |alerts| && a.tenant == alerts[i].tenant && a.key == alerts[i].key
    ensures CountAlerts(alerts[i := a], tenant, key) == CountAlerts(alerts, tenant, key)
    ensures CountActive(alerts[i := a], tenant, key) ==
            CountActive(alerts, tenant, key) - (if Active(alerts[i], tenant, key) then 1 else 0)
                                             + (if Active(a, tenant, key) then 1 else 0)
  {
    var last := |alerts| - 1;
    if i == last {
      assert alerts[i := a][..last] == alerts[..last];
    } else {
      assert alerts[i := a][..last] == alerts[..last][i := a];
      CountsUpdate(alerts[..last], i, a, tenant, key);
    }
  }

  lemma {:induction false} ActiveIffCounted(alerts: seq<AlertRow>, tenant: Option<Id>, key: Key)
    ensures CountActive(alerts, tenant, key) > 0 <==> HasActive(alerts, tenant, key)
  {
    if alerts != [] {
      var last := |alerts| - 1;
      ActiveIffCounted(alerts[..last], tenant, key);
      assert Active(alerts[last], tenant, key) ==> HasActive(alerts, tenant, key);
      if HasActive(alerts[..last], tenant, key) {
        var i :| 0 <= i < last && Active(alerts[..last][i], tenant, key);
        assert Active(alerts[i], tenant, key);
      }
      if i :| 0 <= i < |alerts| && Active(alerts[i], tenant, key) && i != last {
        assert Active(alerts[..last][i], tenant, key);
      }
    }
  }

  function BudgetNotices(rows: seq<Row>, tenant: Option<Id>, key: Key): nat {
    if key.Threshold? then
      Count(rows, tenant, BudgetReached(key.budget, key.threshold))
      + Count(rows, tenant, BudgetExceeded(key.budget, key.threshold))
    else 0
  }

  /** The condition's alerts that are resolved. */
  function Resolutions(alerts: seq<AlertRow>, tenant: Option<Id>, key: Key): int {
    CountAlerts(alerts, tenant, key) - CountActive(alerts, tenant, key)
  }

  /** Each condition has at most one active alert, and each budget alert was announced exactly once. */
  ghost predicate Tallied(d: Desk) {
    && (forall tenant, key :: CountActive(d.alerts, tenant, key) <= 1)
    && (forall tenant, key: Key | key.Threshold? ::
          BudgetNotices(d.outbox, tenant, key) == CountAlerts(d.alerts, tenant, key))
    && (forall tenant, b, t | t < 100 :: Count(d.outbox, tenant, BudgetExceeded(b, t)) == 0)
    && (forall tenant, b, t | t >= 100 :: Count(d.outbox, tenant, BudgetReached(b, t)) == 0)
  }

  /** What the outbox says of alert i to this tenant. */
  ghost predicate SpokenOf(d: Desk, i: Id, tenant: Option<Id>) {
    var born, acked, resolved := Count(d.outbox, tenant, AlertOpened(i)), Count(d.outbox, tenant, AlertAcknowledged(i)),
                                   Count(d.outbox, tenant, AlertResolved(i));
    if 0 <= i < |d.alerts| && d.alerts[i].tenant == tenant then
      var a := d.alerts[i];
      && born == 1 && resolved == (if a.status == Resolved then 1 else 0)
      && (a.status == Opened ==> acked == 0) && (a.status == Acknowledged ==> acked == 1) && acked <= 1
      && a.version == 1 + acked + resolved
    else born == acked == resolved == 0
  }

  /** Every alert was announced once when it opened and once for each change of its status. */
  ghost predicate Spoken(d: Desk) {
    forall i, tenant :: SpokenOf(d, i, tenant)
  }

  ghost predicate Balanced(d: Desk) {
    Tallied(d) && Spoken(d)
  }

  /** Anything that happens to the desk, in any order. */
  datatype Step =
    | Evaluation(budgets: seq<Budget>, subject: Subject, records: set<Record>, now: Moment)
    | Raise(tenant: Option<Id>, name: string)
    | Ack(tenant: Option<Id>, alert: Id)
    | Close(tenant: Option<Id>, alert: Id)
    | Elsewhere(row: Row)

  /** Rows other services write; those on alerts and budgets come from the desk alone. */
  predicate Foreign(row: Row) {
    WriterOf(row.fact) != Alerting
  }

  ghost function Next(d: Desk, step: Step): Desk {
    match step
    case Evaluation(budgets, subject, records, now) => Evaluate(d, budgets, subject, records, now)
    case Raise(tenant, name) => OpenAlert(d, tenant, Other(name))
    case Ack(tenant, alert) => Acknowledge(d, tenant, alert).0
    case Close(tenant, alert) => Resolve(d, tenant, alert).0
    case Elsewhere(row) => if Foreign(row) then d.(outbox := d.outbox + [row]) else d
  }

  ghost function After(d: Desk, steps: seq<Step>): Desk
    decreases |steps|
  {
    if steps == [] then d else After(Next(d, steps[0]), steps[1..])
  }

  predicate OnBudget(fact: Fact) {
    fact.BudgetReached? || fact.BudgetExceeded?
  }

  lemma EmitTallied(d: Desk, row: Row)
    requires Tallied(d) && !OnBudget(row.fact)
    ensures Tallied(d.(outbox := d.outbox + [row]))
  {
    forall tenant, b, t
      ensures Count(d.outbox + [row], tenant, BudgetReached(b, t)) == Count(d.outbox, tenant, BudgetReached(b, t))
      ensures Count(d.outbox + [row], tenant, BudgetExceeded(b, t)) == Count(d.outbox, tenant, BudgetExceeded(b, t))
    {
      CountSnoc(d.outbox, row, tenant, BudgetReached(b, t));
      CountSnoc(d.outbox, row, tenant, BudgetExceeded(b, t));
    }
  }

  predicate OnAlert(fact: Fact) {
    fact.AlertOpened? || fact.AlertAcknowledged? || fact.AlertResolved?
  }

  lemma SaysMore(rows: seq<Row>, row: Row, tenant: Option<Id>, i: Id)
    ensures var mine := row.tenant == tenant;
            && Count(rows + [row], tenant, AlertOpened(i)) ==
               Count(rows, tenant, AlertOpened(i)) + (if mine && row.fact == AlertOpened(i) then 1 else 0)
            && Count(rows + [row], tenant, AlertAcknowledged(i)) ==
               Count(rows, tenant, AlertAcknowledged(i)) + (if mine && row.fact == AlertAcknowledged(i) then 1 else 0)
            && Count(rows + [row], tenant, AlertResolved(i)) ==
               Count(rows, tenant, AlertResolved(i)) + (if mine && row.fact == AlertResolved(i) then 1 else 0)
  {
    CountSnoc(rows, row, tenant, AlertOpened(i));
    CountSnoc(rows, row, tenant, AlertAcknowledged(i));
    CountSnoc(rows, row, tenant, AlertResolved(i));
  }

  lemma EmitSpoken(d: Desk, row: Row)
    requires Spoken(d) && !OnAlert(row.fact)
    ensures Spoken(d.(outbox := d.outbox + [row]))
  {
    forall i, tenant ensures SpokenOf(d.(outbox := d.outbox + [row]), i, tenant) {
      assert SpokenOf(d, i, tenant);
      SaysMore(d.outbox, row, tenant, i);
    }
  }

  lemma BirthSpoken(d: Desk, a: AlertRow, i: Id, t: Option<Id>)
    requires SpokenOf(d, i, t) && SpokenOf(d, |d.alerts|, t)
    requires a.status == Opened && a.version == 1
    ensures SpokenOf(Emit(d.(alerts := d.alerts + [a]), a.tenant, AlertOpened(|d.alerts|)), i, t)
  {
    SaysMore(d.outbox, Row(a.tenant, Fleet, AlertOpened(|d.alerts|)), t, i);
  }

  lemma OpenSpoken(d: Desk, tenant: Option<Id>, key: Key)
    requires Spoken(d)
    ensures Spoken(OpenAlert(d, tenant, key))
  {
    if !HasActive(d.alerts, tenant, key) {
      forall i, t ensures SpokenOf(OpenAlert(d, tenant, key), i, t) {
        BirthSpoken(d, AlertRow(tenant, key, Opened, 1), i, t);
      }
    }
  }

  lemma StatusSpoken(d: Desk, i: nat, status: Status, fact: Fact)
    requires Spoken(d) && i < |d.alerts|
    requires || (status == Acknowledged && d.alerts[i].status == Opened && fact == AlertAcknowledged(i))
             || (status == Resolved && d.alerts[i].status != Resolved && fact == AlertResolved(i))
    ensures Spoken(Emit(SetStatus(d, i, status), d.alerts[i].tenant, fact))
  {
    var e := Emit(SetStatus(d, i, status), d.alerts[i].tenant, fact);
    forall j, t ensures SpokenOf(e, j, t) {
      assert SpokenOf(d, j, t);
      SaysMore(d.outbox, Row(d.alerts[i].tenant, Fleet, fact), t, j);
    }
  }

  lemma EmitForeign(d: Desk, row: Row)
    requires Balanced(d) && Foreign(row)
    ensures Balanced(d.(outbox := d.outbox + [row]))
  {
    EmitTallied(d, row);
    EmitSpoken(d, row);
  }

  lemma OpenOtherBalanced(d: Desk, tenant: Option<Id>, name: string)
    requires Balanced(d)
    ensures Balanced(OpenAlert(d, tenant, Other(name)))
  {
    var key, a := Other(name), AlertRow(tenant, Other(name), Opened, 1);
    if !HasActive(d.alerts, tenant, key) {
      var d' := d.(alerts := d.alerts + [a]);
      ActiveIffCounted(d.alerts, tenant, key);
      forall t, k
        ensures CountActive(d'.alerts, t, k) <= 1
        ensures k.Threshold? ==> CountAlerts(d'.alerts, t, k) == CountAlerts(d.alerts, t, k)
      {
        CountsSnoc(d.alerts, a, t, k);
      }
      assert Tallied(d');
      EmitTallied(d', Row(tenant, Fleet, AlertOpened(|d.alerts|)));
      OpenSpoken(d, tenant, key);
    }
  }

  /** What two more rows, the second about this threshold, do to the counts of a budget's rows. */
  lemma BudgetRowCounts(rows: seq<Row>, first: Row, b: Budget, threshold: int, t: Option<Id>, c: Id, n: int)
    requires !OnBudget(first.fact)
    ensures var second := Row(b.tenant, Fleet, if threshold >= 100 then BudgetExceeded(b.id, threshold) else BudgetReached(b.id, threshold));
            var more, mine := rows + [first] + [second], t == b.tenant && c == b.id && n == threshold;
            && Count(more, t, BudgetReached(c, n)) == Count(rows, t, BudgetReached(c, n)) + (if mine && n < 100 then 1 else 0)
            && Count(more, t, BudgetExceeded(c, n)) == Count(rows, t, BudgetExceeded(c, n)) + (if mine && n >= 100 then 1 else 0)
  {
    var second := Row(b.tenant, Fleet, if threshold >= 100 then BudgetExceeded(b.id, threshold) else BudgetReached(b.id, threshold));
    CountSnoc(rows, first, t, BudgetReached(c, n));
    CountSnoc(rows, first, t, BudgetExceeded(c, n));
    CountSnoc(rows + [first], second, t, BudgetReached(c, n));
    CountSnoc(rows + [first], second, t, BudgetExceeded(c, n));
  }

  lemma NotifyCounts(d: Desk, b: Budget, threshold: int, t: Option<Id>, k: Key)
    requires Tallied(d) && !HasActive(d.alerts, b.tenant, Threshold(b.id, threshold))
    ensures var key, alerts := Threshold(b.id, threshold), Notify(d, b, threshold).alerts;
            && CountActive(alerts, t, k) <= 1
            && CountAlerts(alerts, t, k) == CountAlerts(d.alerts, t, k) + if t == b.tenant && k == key then 1 else 0
  {
    var key := Threshold(b.id, threshold);
    ActiveIffCounted(d.alerts, b.tenant, key);
    CountsSnoc(d.alerts, AlertRow(b.tenant, key, Opened, 1), t, k);
  }

  /** The alert's row and the budget's: the second is of the kind its threshold calls for. */
  lemma NotifyRows(d: Desk, b: Budget, threshold: int, t: Option<Id>, c: Id, n: int)
    requires Tallied(d) && !HasActive(d.alerts, b.tenant, Threshold(b.id, threshold))
    ensures var e := Notify(d, b, threshold);
            && BudgetNotices(e.outbox, t, Threshold(c, n)) == CountAlerts(e.alerts, t, Threshold(c, n))
            && (n < 100 ==> Count(e.outbox, t, BudgetExceeded(c, n)) == 0)
            && (n >= 100 ==> Count(e.outbox, t, BudgetReached(c, n)) == 0)
  {
    NotifyCounts(d, b, threshold, t, Threshold(c, n));
    BudgetRowCounts(d.outbox, Row(b.tenant, Fleet, AlertOpened(|d.alerts|)), b, threshold, t, c, n);
    assert BudgetNotices(d.outbox, t, Threshold(c, n)) == CountAlerts(d.alerts, t, Threshold(c, n));
  }

  lemma NotifyTallied(d: Desk, b: Budget, threshold: int)
    requires Tallied(d) && !HasActive(d.alerts, b.tenant, Threshold(b.id, threshold))
    ensures Tallied(Notify(d, b, threshold))
  {
    var e := Notify(d, b, threshold);
    forall t, k ensures CountActive(e.alerts, t, k) <= 1 { NotifyCounts(d, b, threshold, t, k); }
    forall t, k: Key | k.Threshold? ensures BudgetNotices(e.outbox, t, k) == CountAlerts(e.alerts, t, k) {
      NotifyRows(d, b, threshold, t, k.budget, k.threshold);
    }
    forall t, c, n | n < 100 ensures Count(e.outbox, t, BudgetExceeded(c, n)) == 0 { NotifyRows(d, b, threshold, t, c, n); }
    forall t, c, n | n >= 100 ensures Count(e.outbox, t, BudgetReached(c, n)) == 0 { NotifyRows(d, b, threshold, t, c, n); }
  }

  lemma NotifyBalanced(d: Desk, b: Budget, threshold: int)
    requires Balanced(d)
    ensures Balanced(Notify(d, b, threshold))
  {
    if !HasActive(d.alerts, b.tenant, Threshold(b.id, threshold)) {
      NotifyTallied(d, b, threshold);
      OpenSpoken(d, b.tenant, Threshold(b.id, threshold));
      EmitSpoken(OpenAlert(d, b.tenant, Threshold(b.id, threshold)), Row(b.tenant, Fleet, BudgetFact(b, threshold)));
    }
  }

  lemma {:induction false} NotifyAllBalanced(d: Desk, b: Budget, consumed: int, thresholds: seq<int>)
    requires Balanced(d)
    ensures Balanced(NotifyAll(d, b, consumed, thresholds))
    decreases |thresholds|
  {
    if thresholds != [] {
      NotifyBalanced(d, b, thresholds[0]);
      NotifyAllBalanced(if Reaches(consumed, b.limit, thresholds[0]) then Notify(d, b, thresholds[0]) else d,
                        b, consumed, thresholds[1..]);
    }
  }

  lemma {:induction false} EvaluateBalanced(d: Desk, budgets: seq<Budget>, s: Subject, records: set<Record>, now: Moment)
    requires Balanced(d)
    ensures Balanced(Evaluate(d, budgets, s, records, now))
    decreases |budgets|
  {
    if budgets != [] {
      var b := budgets[0];
      if Covers(b, s) {
        NotifyAllBalanced(d, b, Consumed(b, records, now), Thresholds(b));
      }
      var d' := if Covers(b, s) then NotifyAll(d, b, Consumed(b, records, now), Thresholds(b)) else d;
      EvaluateBalanced(d', budgets[1..], s, records, now);
    }
  }

  lemma StatusBalanced(d: Desk, i: nat, status: Status, fact: Fact)
    requires Balanced(d) && i < |d.alerts| && d.alerts[i].status != Resolved
    requires || (status == Acknowledged && d.alerts[i].status == Opened && fact == AlertAcknowledged(i))
             || (status == Resolved && fact == AlertResolved(i))
    ensures Balanced(Emit(SetStatus(d, i, status), d.alerts[i].tenant, fact))
  {
    var d' := SetStatus(d, i, status);
    forall t, k
      ensures CountActive(d'.alerts, t, k) <= 1
      ensures CountAlerts(d'.alerts, t, k) == CountAlerts(d.alerts, t, k)
    {
      CountsUpdate(d.alerts, i, d'.alerts[i], t, k);
    }
    EmitTallied(d', Row(d.alerts[i].tenant, Fleet, fact));
    StatusSpoken(d, i, status, fact);
  }

  lemma StepBalanced(d: Desk, step: Step)
    requires Balanced(d)
    ensures Balanced(Next(d, step))
  {
    match step
    case Evaluation(budgets, subject, records, now) => EvaluateBalanced(d, budgets, subject, records, now);
    case Raise(tenant, name) => OpenOtherBalanced(d, tenant, name);
    case Ack(tenant, alert) =>
      if Acknowledge(d, tenant, alert).1.Done? { StatusBalanced(d, alert, Acknowledged, AlertAcknowledged(alert)); }
    case Close(tenant, alert) =>
      if Resolve(d, tenant, alert).1.Done? { StatusBalanced(d, alert, Resolved, AlertResolved(alert)); }
    case Elsewhere(row) => if Foreign(row) { EmitForeign(d, row); }
  }

  // ---------------------------------------------------------------- opened and resolved

  /** The step resolves an alert of this condition that was not resolved yet. */
  predicate Resolves(d: Desk, step: Step, tenant: Option<Id>, key: Key) {
    && step.Close? && Resolve(d, step.tenant, step.alert).1.Done?
    && d.alerts[step.alert].tenant == tenant && d.alerts[step.alert].key == key
  }

  /** How often a run resolves the condition's alert. */
  ghost function TimesResolved(d: Desk, steps: seq<Step>, tenant: Option<Id>, key: Key): nat
    decreases |steps|
  {
    if steps == [] then 0
    else (if Resolves(d, steps[0], tenant, key) then 1 else 0) + TimesResolved(Next(d, steps[0]), steps[1..], tenant, key)
  }

  lemma NotifyResolvesNone(d: Desk, b: Budget, threshold: int, tenant: Option<Id>, key: Key)
    ensures Resolutions(Notify(d, b, threshold).alerts, tenant, key) == Resolutions(d.alerts, tenant, key)
  {
    CountsSnoc(d.alerts, AlertRow(b.tenant, Threshold(b.id, threshold), Opened, 1), tenant, key);
  }

  lemma {:induction false} NotifyAllResolvesNone(d: Desk, b: Budget, consumed: int, thresholds: seq<int>, tenant: Option<Id>, key: Key)
    ensures Resolutions(NotifyAll(d, b, consumed, thresholds).alerts, tenant, key) == Resolutions(d.alerts, tenant, key)
    decreases |thresholds|
  {
    if thresholds != [] {
      NotifyResolvesNone(d, b, thresholds[0], tenant, key);
      NotifyAllResolvesNone(if Reaches(consumed, b.limit, thresholds[0]) then Notify(d, b, thresholds[0]) else d,
                            b, consumed, thresholds[1..], tenant, key);
    }
  }

  lemma {:induction false} EvaluateResolvesNone(d: Desk, budgets: seq<Budget>, s: Subject, records: set<Record>, now: Moment,
                                                tenant: Option<Id>, key: Key)
    ensures Resolutions(Evaluate(d, budgets, s, records, now).alerts, tenant, key) == Resolutions(d.alerts, tenant, key)
    decreases |budgets|
  {
    if budgets != [] {
      var b := budgets[0];
      if Covers(b, s) { NotifyAllResolvesNone(d, b, Consumed(b, records, now), Thresholds(b), tenant, key); }
      var d' := if Covers(b, s) then NotifyAll(d, b, Consumed(b, records, now), Thresholds(b)) else d;
      EvaluateResolvesNone(d', budgets[1..], s, records, now, tenant, key);
    }
  }

  lemma StatusResolutions(d: Desk, i: nat, status: Status, tenant: Option<Id>, key: Key)
    requires i < |d.alerts| && d.alerts[i].status != Resolved
    ensures Resolutions(SetStatus(d, i, status).alerts, tenant, key) ==
            Resolutions(d.alerts, tenant, key) +
            if status == Resolved && d.alerts[i].tenant == tenant && d.alerts[i].key == key then 1 else 0
  {
    CountsUpdate(d.alerts, i, SetStatus(d, i, status).alerts[i], tenant, key);
  }

  lemma StepResolutions(d: Desk, step: Step, tenant: Option<Id>, key: Key)
    ensures Resolutions(Next(d, step).alerts, tenant, key) ==
            Resolutions(d.alerts, tenant, key) + if Resolves(d, step, tenant, key) then 1 else 0
  {
    match step
    case Evaluation(budgets, subject, records, now) => EvaluateResolvesNone(d, budgets, subject, records, now, tenant, key);
    case Raise(t, name) => CountsSnoc(d.alerts, AlertRow(t, Other(name), Opened, 1), tenant, key);
    case Ack(t, alert) => if Acknowledge(d, t, alert).1.Done? { StatusResolutions(d, alert, Acknowledged, tenant, key); }
    case Close(t, alert) => if Resolve(d, t, alert).1.Done? { StatusResolutions(d, alert, Resolved, tenant, key); }
    case Elsewhere(row) =>
  }

  /**
   Over any run: the alerts of a condition, minus those the run and its past resolved, are the
   active ones, zero or one; and a budget is announced at most once more than its alert was resolved.
   */
  lemma {:induction false} AlertsAreConserved(d: Desk, steps: seq<Step>, tenant: Option<Id>, key: Key)
    requires Balanced(d)
    ensures var e, resolved := After(d, steps), Resolutions(d.alerts, tenant, key) + TimesResolved(d, steps, tenant, key);
            && Balanced(e)
            && CountAlerts(e.alerts, tenant, key) - resolved == (if HasActive(e.alerts, tenant, key) then 1 else 0)
            && (key.Threshold? ==> BudgetNotices(e.outbox, tenant, key) <= 1 + resolved)
    decreases |steps|
  {
    if steps == [] {
      ActiveIffCounted(d.alerts, tenant, key);
      assert CountActive(d.alerts, tenant, key) <= 1;
    } else {
      StepBalanced(d, steps[0]);
      StepResolutions(d, steps[0], tenant, key);
      AlertsAreConserved(Next(d, steps[0]), steps[1..], tenant, key);
    }
  }

  /** From an empty desk, opened minus resolved is the number of active alerts, at most one. */
  lemma AlertsBalance(steps: seq<Step>, tenant: Option<Id>, key: Key)
    ensures var e, resolved := After(Desk([], []), steps), TimesResolved(Desk([], []), steps, tenant, key);
            && CountAlerts(e.alerts, tenant, key) - resolved == CountActive(e.alerts, tenant, key)
            && CountActive(e.alerts, tenant, key) == (if HasActive(e.alerts, tenant, key) then 1 else 0)
            && (key.Threshold? ==> BudgetNotices(e.outbox, tenant, key) == CountAlerts(e.alerts, tenant, key) <= 1 + resolved)
            && (key.Threshold? ==>
                  Count(e.outbox, tenant, if key.threshold < 100 then BudgetReached(key.budget, key.threshold)
                                          else BudgetExceeded(key.budget, key.threshold)) == CountAlerts(e.alerts, tenant, key))
  {
    var d := Desk([], []);
    assert Balanced(d);
    AlertsAreConserved(d, steps, tenant, key);
    var e := After(d, steps);
    ActiveIffCounted(e.alerts, tenant, key);
    assert CountActive(e.alerts, tenant, key) <= 1;
  }

  /**
   Over any run each alert was announced once when it opened, once if it was acknowledged, once exactly when
   it is resolved, always to its tenant; its version counts the changes, and nothing else was announced.
   */
  lemma AlertsAreSpokenOf(steps: seq<Step>, i: Id, tenant: Option<Id>)
    ensures var e := After(Desk([], []), steps);
            var born, acked, resolved := Count(e.outbox, tenant, AlertOpened(i)), Count(e.outbox, tenant, AlertAcknowledged(i)),
                                           Count(e.outbox, tenant, AlertResolved(i));
            if 0 <= i < |e.alerts| && e.alerts[i].tenant == tenant then
              var a := e.alerts[i];
              && born == 1 && resolved == (if a.status == Resolved then 1 else 0)
              && (a.status == Opened ==> acked == 0) && (a.status == Acknowledged ==> acked == 1) && acked <= 1
              && a.version == 1 + acked + resolved
            else born == acked == resolved == 0
  {
    assert Balanced(Desk([], []));
    AlertsAreConserved(Desk([], []), steps, tenant, Other(""));
    assert SpokenOf(After(Desk([], []), steps), i, tenant);
  }

  /** Acknowledging takes exactly on an open alert of the tenant, resolving on an unresolved one. */
  lemma DeskCallsExactly(d: Desk, tenant: Option<Id>, i: Id)
    ensures var known, ack, close := 0 <= i < |d.alerts| && d.alerts[i].tenant == tenant, Acknowledge(d, tenant, i), Resolve(d, tenant, i);
            && (ack.1 == Done <==> known && d.alerts[i].status == Opened) && (ack.1 != Done ==> ack.0 == d)
            && (ack.1 == Conflict <==> known && d.alerts[i].status == Resolved) && (ack.1 == NotFound <==> !known)
            && (ack.1 == Done ==> ack.0.alerts == d.alerts[i := d.alerts[i].(status := Acknowledged, version := d.alerts[i].version + 1)])
            && (close.1 == Done <==> known && d.alerts[i].status != Resolved) && (close.1 != Done ==> close.0 == d)
            && (close.1 == NotFound <==> !known) && close.1 != Conflict
            && (close.1 == Done ==> close.0.alerts == d.alerts[i := d.alerts[i].(status := Resolved, version := d.alerts[i].version + 1)])
  {
  }

  // ---------------------------------------------------------------- evaluation settles

  /** Every threshold the consumption has reached has its alert. */
  ghost predicate Settled(d: Desk, b: Budget, consumed: int, thresholds: seq<int>) {
    forall t | t in thresholds && Reaches(consumed, b.limit, t) :: HasActive(d.alerts, b.tenant, Threshold(b.id, t))
  }

  ghost predicate AllSettled(d: Desk, budgets: seq<Budget>, s: Subject, records: set<Record>, now: Moment) {
    forall b | b in budgets && Covers(b, s) :: Settled(d, b, Consumed(b, records, now), Thresholds(b))
  }

  /** Alerts are only added. */
  ghost predicate Extends(d: Desk, e: Desk) {
    d.alerts <= e.alerts && d.outbox <= e.outbox
  }

  lemma ExtensionKeepsActive(d: Desk, e: Desk, tenant: Option<Id>, key: Key)
    requires Extends(d, e) && HasActive(d.alerts, tenant, key)
    ensures HasActive(e.alerts, tenant, key)
  {
    var i :| 0 <= i < |d.alerts| && Active(d.alerts[i], tenant, key);
    assert e.alerts[i] == d.alerts[i];
  }

  lemma {:induction false} NotifyAllSettles(d: Desk, b: Budget, consumed: int, thresholds: seq<int>)
    ensures Extends(d, NotifyAll(d, b, consumed, thresholds))
    ensures Settled(NotifyAll(d, b, consumed, thresholds), b, consumed, thresholds)
    ensures NotifyAll(d, b, consumed, thresholds) == d <==> Settled(d, b, consumed, thresholds)
    decreases |thresholds|
  {
    if thresholds != [] {
      var t := thresholds[0];
      var d' := if Reaches(consumed, b.limit, t) then Notify(d, b, t) else d;
      var e := NotifyAll(d, b, consumed, thresholds);
      NotifyAllSettles(d', b, consumed, thresholds[1..]);
      assert Extends(d, d');
      assert forall u | u in thresholds :: u == t || u in thresholds[1..];
      if Reaches(consumed, b.limit, t) {
        if !HasActive(d.alerts, b.tenant, Threshold(b.id, t)) {
          assert Active(d'.alerts[|d.alerts|], b.tenant, Threshold(b.id, t));
        }
        ExtensionKeepsActive(d', e, b.tenant, Threshold(b.id, t));
      }
      assert Settled(d, b, consumed, thresholds) ==> d' == d;
      assert t in thresholds;
    }
  }

  /**
   After an evaluation every reached threshold of every covering budget has an active alert; and
   an evaluation does nothing exactly when that already was so. Hence a second one does nothing.
   */
  lemma {:induction false} EvaluationSettles(d: Desk, budgets: seq<Budget>, s: Subject, records: set<Record>, now: Moment)
    ensures Extends(d, Evaluate(d, budgets, s, records, now))
    ensures AllSettled(Evaluate(d, budgets, s, records, now), budgets, s, records, now)
    ensures Evaluate(d, budgets, s, records, now) == d <==> AllSettled(d, budgets, s, records, now)
    decreases |budgets|
  {
    if budgets != [] {
      var b := budgets[0];
      var consumed := Consumed(b, records, now);
      var d' := if Covers(b, s) then NotifyAll(d, b, consumed, Thresholds(b)) else d;
      var e := Evaluate(d, budgets, s, records, now);
      NotifyAllSettles(d, b, consumed, Thresholds(b));
      EvaluationSettles(d', budgets[1..], s, records, now);
      assert forall c | c in budgets :: c == b || c in budgets[1..];
      if Covers(b, s) {
        forall t | t in Thresholds(b) && Reaches(consumed, b.limit, t)
          ensures HasActive(e.alerts, b.tenant, Threshold(b.id, t))
        {
          ExtensionKeepsActive(d', e, b.tenant, Threshold(b.id, t));
        }
      }
      assert b in budgets;
      if e == d {
        assert d' == d;
      }
    }
  }

  lemma EvaluatingAgainIsSilent(d: Desk, budgets: seq<Budget>, s: Subject, records: set<Record>, now: Moment)
    ensures var e := Evaluate(d, budgets, s, records, now); Evaluate(e, budgets, s, records, now) == e
  {
    var e := Evaluate(d, budgets, s, records, now);
    EvaluationSettles(d, budgets, s, records, now);
    EvaluationSettles(e, budgets, s, records, now);
  }

  // ---------------------------------------------------------------- the services

  lemma {:induction false} EvaluateCovering(d: Desk, budgets: seq<Budget>, s: Subject, records: set<Record>, now: Moment)
    ensures Evaluate(d, Covering(budgets, s), s, records, now) == Evaluate(d, budgets, s, records, now)
    decreases |budgets|
  {
    if budgets != [] {
      var b := budgets[0];
      var d' := if Covers(b, s) then NotifyAll(d, b, Consumed(b, records, now), Thresholds(b)) else d;
      EvaluateCovering(d', budgets[1..], s, records, now);
      if Covers(b, s) {
        assert Covering(budgets, s)[1..] == Covering(budgets[1..], s);
      } else {
        assert Covering(budgets, s) == Covering(budgets[1..], s);
      }
    }
  }

  class AlertDesk {
    var alerts: seq<AlertRow>
    var outbox: seq<Row>

    ghost function View(): Desk
      reads this
    {
      Desk(alerts, outbox)
    }

    constructor ()
      ensures View() == Desk([], [])
    {
      alerts, outbox := [], [];
    }

    method FindActive(tenant: Option<Id>, key: Key) returns (alert: Option<Id>)
      ensures alert.None? <==> !HasActive(alerts, tenant, key)
      ensures alert.Some? ==> 0 <= alert.value < |alerts| && Active(alerts[alert.value], tenant, key)
    {
      for i := 0 to |alerts|
        invariant forall j | 0 <= j < i :: !Active(alerts[j], tenant, key)
      {
        if Active(alerts[i], tenant, key) { return Some(i); }
      }
      return None;
    }

    method EmitRow(tenant: Option<Id>, fact: Fact)
      modifies this`outbox
      ensures outbox == old(outbox) + [Row(tenant, Fleet, fact)]
    {
      outbox := outbox + [Row(tenant, Fleet, fact)];
    }

    method Open(tenant: Option<Id>, key: Key) returns (alert: Id, created: bool)
      modifies this
      ensures View() == OpenAlert(old(View()), tenant, key)
      ensures created <==> !HasActive(old(alerts), tenant, key)
      ensures 0 <= alert < |alerts| && Active(alerts[alert], tenant, key)
    {
      var existing := FindActive(tenant, key);
      if existing.Some? {
        return existing.value, false;
      }
      alert, created := |alerts|, true;
      alerts := alerts + [AlertRow(tenant, key, Opened, 1)];
      EmitRow(tenant, AlertOpened(alert));
    }

    method AcknowledgeAlert(tenant: Option<Id>, alert: Id) returns (outcome: Outcome)
      modifies this
      ensures (View(), outcome) == Acknowledge(old(View()), tenant, alert)
    {
      if !(0 <= alert < |alerts| && alerts[alert].tenant == tenant) { return NotFound; }
      var row := alerts[alert];
      if row.status == Resolved { return Conflict; }
      if row.status == Acknowledged { return Unchanged; }
      alerts := alerts[alert := row.(status := Acknowledged, version := row.version + 1)];
      EmitRow(tenant, AlertAcknowledged(alert));
      outcome := Done;
    }

    method ResolveAlert(tenant: Option<Id>, alert: Id) returns (outcome: Outcome)
      modifies this
      ensures (View(), outcome) == Resolve(old(View()), tenant, alert)
    {
      if !(0 <= alert < |alerts| && alerts[alert].tenant == tenant) { return NotFound; }
      var row := alerts[alert];
      if row.status == Resolved { return Unchanged; }
      alerts := alerts[alert := row.(status := Resolved, version := row.version + 1)];
      EmitRow(tenant, AlertResolved(alert));
      outcome := Done;
    }

    /** The reached thresholds that opened an alert just now. */
    method NotifyThresholds(b: Budget, consumed: int) returns (crossed: seq<int>)
      modifies this
      ensures View() == NotifyAll(old(View()), b, consumed, Thresholds(b))
      ensures crossed == [] <==> Settled(old(View()), b, consumed, Thresholds(b))
    {
      crossed := [];
      var thresholds := Thresholds(b);
      ghost var start := View();
      NotifyAllSettles(start, b, consumed, thresholds);
      for i := 0 to |thresholds|
        invariant NotifyAll(View(), b, consumed, thresholds[i..]) == NotifyAll(start, b, consumed, thresholds)
        invariant Extends(start, View())
        invariant crossed == [] <==> View() == start
      {
        if Reaches(consumed, b.limit, thresholds[i]) {
          var _, created := Open(b.tenant, Threshold(b.id, thresholds[i]));
          if created {
            crossed := crossed + [thresholds[i]];
            EmitRow(b.tenant, BudgetFact(b, thresholds[i]));
          }
        }
      }
    }

    method EvaluateBudgets(budgets: seq<Budget>, s: Subject, records: set<Record>, now: Moment)
      modifies this
      ensures View() == Evaluate(old(View()), budgets, s, records, now)
    {
      var covering := ApplicableBudgets(budgets, s);
      EvaluateCovering(View(), budgets, s, records, now);
      for i := 0 to |covering|
        invariant Evaluate(View(), covering[i..], s, records, now) == Evaluate(old(View()), covering, s, records, now)
      {
        var b := covering[i];
        assert b in covering;
        var consumed := ComputeConsumption(records, b.tenant, b.scope, PeriodStart(b.period, now), None);
        var _ := NotifyThresholds(b, consumed);
      }
    }
  }
}
