/** What a submission comes to: the join of policy and budgets, and a single answer per idempotency key. */
module Submissions {
  import opened Prelude
  import opened StateMachines
  import opened Control
  import opened ControlSafety
  import Policies
  import Budgets
  import Outbox

  function Severity(e: Policies.Effect): int {
    match e case Allow => 0 case RequireApproval => 1 case Deny => 2
  }

  /** Released, held or refused, for a submission that was new. */
  predicate Fresh(s: Submission) {
    s.Denied? || s.OverBudget? || s.Held? || s.Released?
  }

  function Strictness(s: Submission): int
    requires Fresh(s)
  {
    if s.Released? then 0 else if s.Held? then 1 else 2
  }

  predicate IsNew(db: Db, q: Request, draw: Draw) {
    RunFound(db, q) && forall id | id in db.commands :: !HasKey(db.commands[id], q.tenant, KeyOf(q, draw))
  }

  /**
   A new submission is exactly as strict as its strictest judge: the winning policy, or one of the
   exceeded budgets that cover it.
   */
  lemma SubmissionIsJoin(db: Db, q: Request, g: Governance, draw: Draw, x: Budgets.Behavior)
    requires Policies.DistinctIds(g.policies) && IsNew(db, q, draw)
    ensures Fresh(Submit(db, q, g, draw).1)
    ensures Strictness(Submit(db, q, g, draw).1) <= Budgets.Rank(x) <==>
            && Severity(Policies.Resolve(g.policies, ActionOf(db, q), g.fallback).effect) <= Budgets.Rank(x)
            && forall b | b in g.budgets && Budgets.Covers(b, SubjectOf(db, q)) && Budgets.Exceeded(b, g.records, g.moment) ::
                 Budgets.Rank(Budgets.Demands(b.onExceed)) <= Budgets.Rank(x)
  {
    Budgets.GateIsStrictestDemand(g.budgets, SubjectOf(db, q), g.records, g.moment, x);
  }

  /** Refused submissions leave only an audit line; held ones a pending approval; released ones are deliverable at once. */
  lemma OutcomeIsRecorded(db: Db, q: Request, g: Governance, draw: Draw)
    requires Policies.DistinctIds(g.policies) && IsNew(db, q, draw)
    requires draw.command !in db.commands && draw.approval !in db.approvals
    ensures var (db', s) := Submit(db, q, g, draw);
            && (s.Denied? || s.OverBudget? <==> db'.commands == db.commands)
            && (s.Denied? || s.OverBudget? ==> db'.approvals == db.approvals && db'.outbox == db.outbox)
            && (s.Held? <==> db'.approvals != db.approvals)
            && (s.Held? ==> && draw.approval in db'.approvals && db'.approvals[draw.approval].status == Pending
                            && draw.command in db'.commands && db'.commands[draw.command].approval == Some(draw.approval)
                            && db'.commands[draw.command].releasedAt.None?)
            && (s.Held? ==> db'.outbox == db.outbox + [Outbox.Row(q.tenant, Outbox.Approvals, Outbox.ApprovalRequested(draw.approval))])
            && (s.Released? ==> db'.outbox == db.outbox + [Outbox.Row(q.tenant, Outbox.OfRun(q.run), Outbox.QueueNotice(None))])
            && (s.Released? ==> && draw.command in db'.commands && db'.commands[draw.command].approval.None?
                                && IsDeliverable(db'.commands[draw.command], q.tenant, db.runs[q.run].agent))
  {
    var (db', s) := Submit(db, q, g, draw);
    if s.Held? || s.Released? {
      assert draw.command in db'.commands;
    }
    if s.Held? {
      assert draw.approval in db'.approvals;
    }
  }

  /** The answer by cases: what policy and budgets say of the run's own agent and project. */
  lemma SubmissionByCases(db: Db, q: Request, g: Governance, draw: Draw)
    requires Policies.DistinctIds(g.policies)
    ensures var s := Submit(db, q, g, draw).1;
            var found := q.run in db.runs && db.runs[q.run].tenant == q.tenant && db.runs[q.run].agent in db.agents;
            var key := if q.key.Some? && q.key.value != "" then q.key.value else draw.key;
            var used := exists id :: id in db.commands && db.commands[id].tenant == q.tenant && db.commands[id].key == key;
            && (s == NotFound <==> !found)
            && (s.Replayed? <==> found && used)
            && (found && !used ==>
                  var run := db.runs[q.run];
                  var e := Policies.Resolve(g.policies, Policies.Action(q.tenant, run.agent, q.kind, run.project), g.fallback).effect;
                  var gate := Budgets.Gate(g.budgets, Budgets.Subject(q.tenant, Some(run.agent), run.project), g.records, g.moment);
                  && (s == Denied <==> e == Policies.Deny)
                  && (s == OverBudget <==> e != Policies.Deny && gate == Budgets.Block)
                  && (s == Held(draw.command) <==>
                        (e == Policies.RequireApproval && gate != Budgets.Block) || (e == Policies.Allow && gate == Budgets.NeedsApproval))
                  && (s == Released(draw.command) <==> e == Policies.Allow && gate == Budgets.Open))
  {
    var key := KeyOf(q, draw);
    if id :| id in db.commands && db.commands[id].tenant == q.tenant && db.commands[id].key == key {
      assert HasKey(db.commands[id], q.tenant, key);
    }
    if KeyUsed(db, q.tenant, key) {
      var id :| id in db.commands && HasKey(db.commands[id], q.tenant, key);
      assert db.commands[id].tenant == q.tenant && db.commands[id].key == key;
    }
  }

  /**
   The rows a new submission leaves: one command, for the run's agent, alive for its own lifetime or a quarter
   of an hour; if held, one approval besides, open for an hour; and an audit line for the evaluation and for the submission.
   */
  lemma SubmissionFillsTheRow(db: Db, q: Request, g: Governance, draw: Draw)
    requires Policies.DistinctIds(g.policies) && IsNew(db, q, draw)
    requires Submit(db, q, g, draw).1.Held? || Submit(db, q, g, draw).1.Released?
    ensures var (db', s) := Submit(db, q, g, draw);
            var run := db.runs[q.run];
            var d := Policies.Resolve(g.policies, Policies.Action(q.tenant, run.agent, q.kind, run.project), g.fallback);
            var lifetime := if q.ttl.Some? && q.ttl.value != 0 then q.ttl.value else 900;
            var effect := if s.Held? then Policies.RequireApproval else Policies.Allow;
            && db'.commands == db.commands[draw.command := Command(
                 draw.command, q.tenant, run.agent, q.run, q.kind,
                 if q.key.Some? && q.key.value != "" then q.key.value else draw.key,
                 CommandQueued, 1, if s.Held? then Some(draw.approval) else None, d.policy, effect,
                 draw.createdAt, if s.Held? then None else Some(draw.now), draw.now + lifetime * 1000000,
                 None, None, None, None)]
            && db'.approvals == (if s.Held? then db.approvals[draw.approval := Approval(
                 draw.approval, q.tenant, run.agent, q.run, Pending, 1, draw.now + 3600000000, None, None)] else db.approvals)
            && db'.audits == db.audits + [PolicyEvaluated(d), CommandSubmitted(draw.command, effect)]
            && db'.runs == db.runs && db'.agents == db.agents
  {
    var (db', s) := Submit(db, q, g, draw);
    var d := Policies.Resolve(g.policies, ActionOf(db, q), g.fallback);
    assert db.audits + [PolicyEvaluated(d)] + [CommandSubmitted(draw.command, if s.Held? then Policies.RequireApproval else Policies.Allow)]
           == db.audits + [PolicyEvaluated(d), CommandSubmitted(draw.command, if s.Held? then Policies.RequireApproval else Policies.Allow)];
  }

  /** More budgets, and more consumption of non-negative cost, never soften the answer. */
  lemma SubmissionNeverLoosens(db: Db, q: Request, g: Governance, h: Governance, draw: Draw)
    requires Policies.DistinctIds(g.policies) && IsNew(db, q, draw)
    requires h.policies == g.policies && h.fallback == g.fallback && h.moment == g.moment
    requires g.budgets <= h.budgets && g.records <= h.records
    requires forall r | r in h.records - g.records :: r.cost >= 0
    ensures Fresh(Submit(db, q, g, draw).1) && Fresh(Submit(db, q, h, draw).1)
    ensures Strictness(Submit(db, q, g, draw).1) <= Strictness(Submit(db, q, h, draw).1)
  {
    var s := SubjectOf(db, q);
    Budgets.MoreUsageNeverLoosens(g.budgets, s, g.records, h.records, g.moment);
    Budgets.MoreBudgetsNeverLoosen(g.budgets, h.budgets, s, h.records, g.moment);
  }

  // ---------------------------------------------------------------- one answer per key

  lemma KeyFindsItsCommand(db: Db, id: Id, tenant: Option<Id>, key: string)
    requires UniqueKeys(db) && id in db.commands && HasKey(db.commands[id], tenant, key)
    ensures KeyUsed(db, tenant, key) && CommandWithKey(db, tenant, key) == id
  {
    var found := CommandWithKey(db, tenant, key);
    assert HasKey(db.commands[found], db.commands[id].tenant, db.commands[id].key);
  }

  function Answered(s: Submission): Option<Id> {
    match s
    case Held(id) => Some(id)
    case Released(id) => Some(id)
    case Replayed(id) => Some(id)
    case _ => None
  }

  lemma AnswerHasKey(w: World, q: Request, g: Governance, draw: Draw)
    requires Inv(w) && Enabled(w, Submitting(q, g, draw))
    ensures var (db', s) := Submit(w.db, q, g, draw);
            Answered(s).Some? ==> && Answered(s).value in db'.commands
                                  && HasKey(db'.commands[Answered(s).value], q.tenant, KeyOf(q, draw))
  {
  }

  /**
   Submitting with the same tenant and key, at any later point of any run, answers with the same
   command and changes nothing, whatever the rules and budgets have become.
   */
  lemma ResubmitIsSilent(w: World, q: Request, g: Governance, draw: Draw, steps: seq<Step>,
                         q': Request, g': Governance, draw': Draw)
    requires Inv(w) && Enabled(w, Submitting(q, g, draw))
    requires Runs(Next(w, Submitting(q, g, draw)), steps)
    requires q'.tenant == q.tenant && KeyOf(q', draw') == KeyOf(q, draw) && Policies.DistinctIds(g'.policies)
    requires RunFound(After(Next(w, Submitting(q, g, draw)), steps).db, q')
    ensures var first := Submit(w.db, q, g, draw).1;
            var db := After(Next(w, Submitting(q, g, draw)), steps).db;
            Answered(first).Some? ==> Submit(db, q', g', draw') == (db, Replayed(Answered(first).value))
  {
    var v := Next(w, Submitting(q, g, draw));
    var first := Submit(w.db, q, g, draw).1;
    if Answered(first).Some? {
      var id := Answered(first).value;
      AnswerHasKey(w, q, g, draw);
      StepKeepsInv(w, Submitting(q, g, draw));
      RunKeepsInv(v, steps);
      var db := After(v, steps).db;
      assert id in db.commands && SameIdentity(v.db.commands[id], db.commands[id]);
      KeyFindsItsCommand(db, id, q.tenant, KeyOf(q, draw));
    }
  }
}
