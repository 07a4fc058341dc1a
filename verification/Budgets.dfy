/** Budgets: what is consumed, which thresholds it crosses, and how an exceeded budget hardens a submission. */
module Budgets {
  import opened Prelude
  import opened Ordering
  import opened Sums
  import opened Usage

  datatype Period = Daily | Weekly | Monthly | Total

  datatype OnExceed = Alert | RequireApproval | BlockNewRuns

  /** `limit` is in units of 1e-8, like every stored cost. */
  datatype Budget = Budget(id: Id, tenant: Option<Id>, active: bool, scope: Scope, period: Period,
                           limit: int, thresholds: seq<int>, onExceed: OnExceed)

  /** An instant with the calendar facts the periods need; days count from a Monday. */
  datatype Moment = Moment(day: int, dayOfMonth: nat, micros: nat)

  const DAY := 86400000000

  function Stamp(m: Moment): Time { m.day * DAY + m.micros }

  /** Start of the current window; the total period has none. */
  function PeriodStart(p: Period, now: Moment): Option<Time> {
    match p
    case Total => None
    case Daily => Some(now.day * DAY)
    case Weekly => Some((now.day - now.day % 7) * DAY)
    case Monthly => Some((now.day - (now.dayOfMonth - 1)) * DAY)
  }

  /** The windows begin at midnights; a week's on a Monday, a month's on its first day. */
  predicate Begins(p: Period, t: Time, now: Moment) {
    && t % 86400000000 == 0
    && match p
       case Weekly => (t / DAY) % 7 == 0
       case Monthly => now.day - t / DAY == now.dayOfMonth - 1
       case _ => true
  }

  /** The window starts at the last such instant not after now, less than a day, a week or a month ago. */
  lemma PeriodStartIsLatest(p: Period, now: Moment)
    requires now.micros < DAY && 1 <= now.dayOfMonth <= 31
    ensures PeriodStart(p, now).None? <==> p == Total
    ensures p != Total ==>
              var start := PeriodStart(p, now).value;
              && Begins(p, start, now) && start <= Stamp(now)
              && Stamp(now) - start < (match p case Daily => 1 case Weekly => 7 case _ => 31) * 86400000000
              && forall t | Begins(p, t, now) && t <= Stamp(now) :: t <= start
  {
    if p != Total {
      var start := PeriodStart(p, now).value;
      forall t | Begins(p, t, now) && t <= Stamp(now)
        ensures t <= start
      {
        assert t == (t / DAY) * DAY;
        assert t / DAY <= now.day;
        if p == Weekly { assert t / DAY <= now.day - now.day % 7; }
      }
    }
  }

  const DEFAULT_THRESHOLDS := [50, 80, 100]

  /** Valid thresholds, ascending and without repetition. */
  function Valid(raw: seq<int>, upTo: nat): seq<int> {
    if upTo == 0 then [] else Valid(raw, upTo - 1) + if upTo in raw then [upTo] else []
  }

  function Thresholds(b: Budget): seq<int> {
    var valid := Valid(b.thresholds, 100);
    if valid == [] then DEFAULT_THRESHOLDS else valid
  }

  lemma {:induction false} ValidThresholds(raw: seq<int>, upTo: nat)
    ensures forall t :: t in Valid(raw, upTo) <==> t in raw && 0 < t <= upTo
    ensures forall i, j | 0 <= i < j < |Valid(raw, upTo)| :: Valid(raw, upTo)[i] < Valid(raw, upTo)[j]
  {
    if upTo > 0 {
      ValidThresholds(raw, upTo - 1);
      var v := Valid(raw, upTo - 1);
      forall i | 0 <= i < |v| ensures v[i] < upTo { assert v[i] in v; }
    }
  }

  lemma {:induction false} ValidIsEmpty(raw: seq<int>, upTo: nat)
    ensures Valid(raw, upTo) == [] <==> forall t | 0 < t <= upTo :: t !in raw
  {
    if upTo > 0 { ValidIsEmpty(raw, upTo - 1); }
  }

  /** The thresholds used: the valid ones if there are any, else the defaults; ascending, each once. */
  lemma ThresholdsUsed(b: Budget)
    ensures (exists t :: t in b.thresholds && 0 < t <= 100) ==>
              forall t :: t in Thresholds(b) <==> t in b.thresholds && 0 < t <= 100
    ensures (forall t | t in b.thresholds :: !(0 < t <= 100)) ==> Thresholds(b) == [50, 80, 100]
    ensures forall i, j | 0 <= i < j < |Thresholds(b)| :: Thresholds(b)[i] < Thresholds(b)[j]
  {
    ValidThresholds(b.thresholds, 100);
    ValidIsEmpty(b.thresholds, 100);
  }

  // ---------------------------------------------------------------- consumption

  /** What an action is about: its tenant, agent and project. */
  datatype Subject = Subject(tenant: Option<Id>, agent: Option<Id>, project: Option<Id>)

  predicate Covers(b: Budget, s: Subject) {
    && b.tenant == s.tenant && b.active
    && match b.scope
       case Installation => true
       case Agent(id) => id == s.agent && s.agent.Some?
       case Project(id) => id == s.project && s.project.Some?
  }

  ghost function Consumed(b: Budget, records: set<Record>, now: Moment): int {
    ConsumptionFor(records, b.tenant, b.scope, PeriodStart(b.period, now), None)
  }

  /** `pct >= threshold`, where the percentage of a budget without a positive limit is zero. */
  predicate Reaches(consumed: int, limit: int, threshold: int) {
    if limit > 0 then 100 * consumed >= threshold * limit else 0 >= threshold
  }

  /** The comparison without division is the comparison of percentages. */
  lemma ReachesIsPercentage(consumed: int, limit: int, threshold: int)
    requires 0 < threshold
    ensures Reaches(consumed, limit, threshold) <==>
            (if limit > 0 then consumed as real / limit as real * 100.0 else 0.0) >= threshold as real
  {
    if limit > 0 {
      var share := consumed as real / limit as real;
      assert share * limit as real == consumed as real;
      if share * 100.0 >= threshold as real {
        assert share * 100.0 * limit as real >= threshold as real * limit as real;
        assert (100 * consumed) as real >= (threshold * limit) as real;
      } else {
        assert share * 100.0 * limit as real < threshold as real * limit as real;
        assert ((100 * consumed) as real) < (threshold * limit) as real;
      }
    }
  }

  ghost predicate Exceeded(b: Budget, records: set<Record>, now: Moment) {
    Reaches(Consumed(b, records, now), b.limit, 100)
  }

  // ---------------------------------------------------------------- the gate

  datatype Behavior = Open | NeedsApproval | Block

  datatype GateDecision = GateDecision(behavior: Behavior, budget: Option<Id>)

  function Rank(b: Behavior): int {
    match b case Open => 0 case NeedsApproval => 1 case Block => 2
  }

  function Demands(o: OnExceed): Behavior {
    match o case Alert => Open case RequireApproval => NeedsApproval case BlockNewRuns => Block
  }

  /** An exceeded budget that covers the action asks for this behaviour. */
  ghost predicate Asks(b: Budget, s: Subject, records: set<Record>, now: Moment, behavior: Behavior) {
    Covers(b, s) && Exceeded(b, records, now) && Demands(b.onExceed) == behavior
  }

  /** The reference gate: the strictest demand of the covering, exceeded budgets. */
  ghost function Gate(budgets: set<Budget>, s: Subject, records: set<Record>, now: Moment): Behavior {
    if exists b :: b in budgets && Asks(b, s, records, now, Block) then Block
    else if exists b :: b in budgets && Asks(b, s, records, now, NeedsApproval) then NeedsApproval
    else Open
  }

  /** A record of the budget's tenant, agent or project, in its current window. */
  predicate Counts(r: Record, b: Budget, now: Moment) {
    && r.tenant == b.tenant
    && (b.scope.Agent? && b.scope.id.Some? ==> r.agent == b.scope.id)
    && (b.scope.Project? && b.scope.id.Some? ==> r.project == b.scope.id)
    && (b.period == Daily ==> r.occurredAt >= now.day * 86400000000)
    && (b.period == Weekly ==> r.occurredAt >= (now.day - now.day % 7) * 86400000000)
    && (b.period == Monthly ==> r.occurredAt >= (now.day - now.dayOfMonth + 1) * 86400000000)
  }

  lemma ConsumedIsCounted(b: Budget, records: set<Record>, now: Moment)
    ensures Consumed(b, records, now) == SumOver((set r | r in records && Counts(r, b, now)), CostOf)
  {
    assert Scoped(records, b.tenant, b.scope, PeriodStart(b.period, now), None) == set r | r in records && Counts(r, b, now);
  }

  /** An active budget with a positive limit, of the subject's tenant, on all of it, its agent or its project, spent to the limit. */
  ghost predicate SpentOn(b: Budget, s: Subject, records: set<Record>, now: Moment) {
    && b.active && b.tenant == s.tenant
    && (|| b.scope == Installation
        || (b.scope.Agent? && b.scope.id.Some? && b.scope.id == s.agent)
        || (b.scope.Project? && b.scope.id.Some? && b.scope.id == s.project))
    && b.limit > 0 && SumOver((set r | r in records && Counts(r, b, now)), CostOf) >= b.limit
  }

  lemma SpentIsExceeded(b: Budget, s: Subject, records: set<Record>, now: Moment)
    ensures SpentOn(b, s, records, now) <==> Covers(b, s) && Exceeded(b, records, now)
  {
    ConsumedIsCounted(b, records, now);
  }

  /** What closes the gate: a spent budget that blocks new runs; failing that, one that requires approval. */
  lemma GateWrittenOut(budgets: set<Budget>, s: Subject, records: set<Record>, now: Moment)
    ensures Gate(budgets, s, records, now) == Block <==>
            exists b :: b in budgets && b.onExceed == BlockNewRuns && SpentOn(b, s, records, now)
    ensures Gate(budgets, s, records, now) == NeedsApproval <==>
            && (exists b :: b in budgets && b.onExceed == RequireApproval && SpentOn(b, s, records, now))
            && !exists b :: b in budgets && b.onExceed == BlockNewRuns && SpentOn(b, s, records, now)
  {
    forall b | b in budgets
      ensures SpentOn(b, s, records, now) && b.onExceed == BlockNewRuns <==> Asks(b, s, records, now, Block)
      ensures SpentOn(b, s, records, now) && b.onExceed == RequireApproval <==> Asks(b, s, records, now, NeedsApproval)
    {
      SpentIsExceeded(b, s, records, now);
    }
  }

  /** The covering budgets, in row order. */
  function Covering(budgets: seq<Budget>, s: Subject): seq<Budget> {
    if budgets == [] then []
    else (if Covers(budgets[0], s) then [budgets[0]] else []) + Covering(budgets[1..], s)
  }

  lemma {:induction false} CoveringIsFilter(budgets: seq<Budget>, s: Subject)
    ensures forall b :: b in Covering(budgets, s) <==> b in budgets && Covers(b, s)
  {
    if budgets != [] {
      CoveringIsFilter(budgets[1..], s);
      assert forall b :: b in budgets <==> b == budgets[0] || b in budgets[1..];
    }
  }

  method ApplicableBudgets(budgets: seq<Budget>, s: Subject) returns (covering: seq<Budget>)
    ensures covering == Covering(budgets, s)
    ensures forall b :: b in covering <==> b in budgets && Covers(b, s)
  {
    covering := [];
    for i := 0 to |budgets|
      invariant covering + Covering(budgets[i..], s) == Covering(budgets, s)
    {
      var b := budgets[i];
      ghost var rest := Covering(budgets[i + 1..], s);
      assert budgets[i..][0] == b && budgets[i..][1..] == budgets[i + 1..];
      assert covering + ([b] + rest) == covering + [b] + rest && [] + rest == rest;
      if b.tenant == s.tenant && b.active {
        if b.scope.Installation? {
          covering := covering + [b];
        } else if b.scope.Agent? && b.scope.id == s.agent && s.agent.Some? {
          covering := covering + [b];
        } else if b.scope.Project? && b.scope.id == s.project && s.project.Some? {
          covering := covering + [b];
        }
      }
    }
    CoveringIsFilter(budgets, s);
  }

  /** The early-returning loop over the budget rows, in whatever order they come. */
  method BudgetGate(budgets: seq<Budget>, s: Subject, records: set<Record>, now: Moment) returns (d: GateDecision)
    ensures d.behavior == Gate(Elements(budgets), s, records, now)
    ensures d.behavior == Open ==> d.budget == None
    ensures d.behavior != Open ==> AskedBy(budgets, s, records, now, d)
  {
    var covering := ApplicableBudgets(budgets, s);
    d := GateDecision(Open, None);
    for i := 0 to |covering|
      invariant NoneAsks(covering[..i], s, records, now, Block)
      invariant d.behavior == Open ==> d.budget == None && NoneAsks(covering[..i], s, records, now, NeedsApproval)
      invariant d.behavior != Open ==> d.behavior == NeedsApproval && AskedBy(covering, s, records, now, d)
    {
      var b := covering[i];
      assert covering[..i + 1] == covering[..i] + [b];
      var consumed := ComputeConsumption(records, b.tenant, b.scope, PeriodStart(b.period, now), None);
      if Reaches(consumed, b.limit, 100) {
        if b.onExceed == BlockNewRuns {
          d := GateDecision(Block, Some(b.id));
          assert b in covering && Asks(b, s, records, now, Block);
          GateFound(budgets, covering, s, records, now, d);
          return;
        }
        if b.onExceed == RequireApproval && d.behavior == Open {
          d := GateDecision(NeedsApproval, Some(b.id));
          assert b in covering && Asks(b, s, records, now, NeedsApproval);
        }
      }
    }
    assert covering[..|covering|] == covering;
    GateFound(budgets, covering, s, records, now, d);
  }

  ghost predicate NoneAsks(bs: seq<Budget>, s: Subject, records: set<Record>, now: Moment, behavior: Behavior) {
    forall b | b in bs :: !Asks(b, s, records, now, behavior)
  }

  ghost predicate AskedBy(bs: seq<Budget>, s: Subject, records: set<Record>, now: Moment, d: GateDecision) {
    exists b :: b in bs && Asks(b, s, records, now, d.behavior) && d.budget == Some(b.id)
  }

  lemma GateFound(budgets: seq<Budget>, covering: seq<Budget>, s: Subject, records: set<Record>, now: Moment, d: GateDecision)
    requires forall b :: b in covering <==> b in budgets && Covers(b, s)
    requires d.behavior == Open ==> NoneAsks(covering, s, records, now, NeedsApproval)
    requires d.behavior != Block ==> NoneAsks(covering, s, records, now, Block)
    requires d.behavior != Open ==> AskedBy(covering, s, records, now, d)
    ensures d.behavior == Gate(Elements(budgets), s, records, now)
    ensures d.behavior != Open ==> AskedBy(budgets, s, records, now, d)
  {
    if d.behavior != Open {
      var b :| b in covering && Asks(b, s, records, now, d.behavior) && d.budget == Some(b.id);
      assert b in Elements(budgets);
    }
    forall b, x | b in Elements(budgets) && Asks(b, s, records, now, x)
      ensures b in covering
    {
    }
  }

  /** The gate is the least behaviour that meets every demand. */
  lemma GateIsStrictestDemand(budgets: set<Budget>, s: Subject, records: set<Record>, now: Moment, x: Behavior)
    ensures Rank(Gate(budgets, s, records, now)) <= Rank(x) <==>
            forall b | b in budgets && Covers(b, s) && Exceeded(b, records, now) :: Rank(Demands(b.onExceed)) <= Rank(x)
  {
    var g := Gate(budgets, s, records, now);
    if forall b | b in budgets && Covers(b, s) && Exceeded(b, records, now) :: Rank(Demands(b.onExceed)) <= Rank(x) {
      if g != Open {
        var b :| b in budgets && Asks(b, s, records, now, g);
      }
    } else {
      var b :| b in budgets && Covers(b, s) && Exceeded(b, records, now) && Rank(Demands(b.onExceed)) > Rank(x);
      assert Asks(b, s, records, now, Demands(b.onExceed));
    }
  }

  /** More budgets never loosen the gate. */
  lemma MoreBudgetsNeverLoosen(budgets: set<Budget>, more: set<Budget>, s: Subject, records: set<Record>, now: Moment)
    requires budgets <= more
    ensures Rank(Gate(budgets, s, records, now)) <= Rank(Gate(more, s, records, now))
  {
    GateIsStrictestDemand(more, s, records, now, Gate(more, s, records, now));
    GateIsStrictestDemand(budgets, s, records, now, Gate(more, s, records, now));
  }

  /** Consumption that costs nothing or more never loosens the gate. */
  lemma MoreUsageNeverLoosens(budgets: set<Budget>, s: Subject, records: set<Record>, more: set<Record>, now: Moment)
    requires records <= more && forall r | r in more - records :: r.cost >= 0
    ensures Rank(Gate(budgets, s, records, now)) <= Rank(Gate(budgets, s, more, now))
  {
    var g := Gate(budgets, s, more, now);
    GateIsStrictestDemand(budgets, s, more, now, g);
    GateIsStrictestDemand(budgets, s, records, now, g);
    forall b | b in budgets && Exceeded(b, records, now)
      ensures Exceeded(b, more, now)
    {
      var since := PeriodStart(b.period, now);
      SumMonotone(Scoped(records, b.tenant, b.scope, since, None), Scoped(more, b.tenant, b.scope, since, None), CostOf);
    }
  }

  /** Token counts are not validated, so a record can cost less than nothing; one such record reopens a blocked gate. */
  lemma NegativeUsageLoosens(budget: Budget, s: Subject, records: set<Record>, credit: Record, now: Moment)
    requires Covers(budget, s) && budget.limit > 0 && Asks(budget, s, records, now, Block)
    requires credit !in records && InScope(credit, budget.tenant, budget.scope, PeriodStart(budget.period, now), None)
    ensures Gate({budget}, s, records, now) == Block
    ensures Gate({budget}, s, records + {credit}, now) == Open <==>
            Consumed(budget, records, now) + credit.cost < budget.limit
  {
    var since := PeriodStart(budget.period, now);
    var before, after := Scoped(records, budget.tenant, budget.scope, since, None),
                         Scoped(records + {credit}, budget.tenant, budget.scope, since, None);
    assert after == before + {credit};
    SumInsert(before, CostOf, credit);
    assert budget in {budget};
    if Consumed(budget, records, now) + credit.cost >= budget.limit {
      assert Asks(budget, s, records + {credit}, now, Block);
    }
  }

  /** One more record never loosens the gate, in whatever situation. */
  ghost predicate NeverLoosens(r: Record) {
    forall budgets, s, records, now | r !in records ::
      Rank(Gate(budgets, s, records, now)) <= Rank(Gate(budgets, s, records + {r}, now))
  }

  /** A blocking budget of one unit, used up by one other record of one unit. */
  lemma LoosenedBy(r: Record)
    requires r.cost < 0
    ensures !NeverLoosens(r)
  {
    var budget := Budget(0, r.tenant, true, Installation, Total, 1, [], BlockNewRuns);
    var other, now := r.(id := r.id + 1, cost := 1), Moment(0, 1, 0);
    var records, s := {other}, Subject(r.tenant, None, None);
    assert Scoped(records, r.tenant, Installation, None, None) == {other};
    SumInsert({}, CostOf, other);
    assert {} + {other} == {other};
    assert Consumed(budget, records, now) == 1;
    NegativeUsageLoosens(budget, s, records, r, now);
    assert Rank(Gate({budget}, s, records, now)) > Rank(Gate({budget}, s, records + {r}, now));
  }

  /** A record loosens no gate, whatever the budgets, the subject and the other records, exactly when its cost is not negative. */
  lemma OnlyNegativeCostsLoosen(r: Record)
    ensures NeverLoosens(r) <==> r.cost >= 0
  {
    if r.cost < 0 {
      LoosenedBy(r);
    } else {
      forall budgets, s, records, now | r !in records
        ensures Rank(Gate(budgets, s, records, now)) <= Rank(Gate(budgets, s, records + {r}, now))
      {
        MoreUsageNeverLoosens(budgets, s, records, records + {r}, now);
      }
    }
  }
}
