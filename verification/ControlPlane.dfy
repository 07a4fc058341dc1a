/** The control plane as the services run it: tables updated in place, one transaction a method. */
module ControlPlane {
  import opened Prelude
  import opened StateMachines
  import opened Outbox
  import opened Ordering
  import opened Control
  import opened Delivery
  import opened ControlSafety
  import opened Submissions
  import Policies
  import Budgets
  import Usage

  /** One more candidate: what the rest of the walk does after it. */
  lemma WalkOne(db: Db, queue: seq<Command>, limit: nat, now: Time)
    requires queue != [] && limit >= 1 && QueuedRows(db, queue)
    ensures var c, rest, k := queue[0], queue[1..], Cut(queue, limit, now);
            var left := if IsStale(c, now) then limit else limit - 1;
            var j := if left == 0 then 0 else Cut(rest, left, now);
            && c.status == CommandQueued && QueuedRows(Handle(db, c, now), rest)
            && j <= |rest| && k == 1 + j && queue[..k] == [c] + rest[..j]
            && (forall i | 0 <= i < |queue[..k]| :: queue[..k][i].status == CommandQueued)
            && HandleAll(db, queue[..k], now) == HandleAll(Handle(db, c, now), rest[..j], now)
            && Live(queue[..k], now) == (if IsStale(c, now) then [] else [c.id]) + Live(rest[..j], now)
  {
    var c, rest, k := queue[0], queue[1..], Cut(queue, limit, now);
    HandleLeavesRest(db, queue, now);
    CutInRange(queue, limit, now);
    CutInRange(rest, if IsStale(c, now) then limit else limit - 1, now);
    assert queue[..k] == [c] + rest[..k - 1];
    assert queue[..k][1..] == rest[..k - 1];
    assert forall i | 0 <= i < |queue| :: queue[i] in queue;
  }

  /** Where a walk over these rows ends: the tables, and the commands handed out in all. */
  ghost function WalkOf(db: Db, rest: seq<Command>, left: nat, now: Time, delivered: seq<Id>): (Db, seq<Id>)
    decreases |rest|
  {
    if rest == [] || left == 0 || rest[0].status != CommandQueued then (db, delivered)
    else if IsStale(rest[0], now) then WalkOf(Handle(db, rest[0], now), rest[1..], left, now, delivered)
    else WalkOf(Handle(db, rest[0], now), rest[1..], left - 1, now, delivered + [rest[0].id])
  }

  lemma WalkStep(db: Db, queue: seq<Command>, i: nat, left: nat, now: Time, delivered: seq<Id>)
    requires i < |queue| && QueuedRows(db, queue[i..]) && left > 0
    ensures var c := queue[i];
            && c.id in db.commands && db.commands[c.id] == c && c.status == CommandQueued
            && QueuedRows(Handle(db, c, now), queue[i + 1..])
            && WalkOf(db, queue[i..], left, now, delivered) ==
               if IsStale(c, now) then WalkOf(Handle(db, c, now), queue[i + 1..], left, now, delivered)
               else WalkOf(Handle(db, c, now), queue[i + 1..], left - 1, now, delivered + [c.id])
  {
    assert queue[i..][0] == queue[i] && queue[i..][1..] == queue[i + 1..] && queue[i] in queue[i..];
    HandleLeavesRest(db, queue[i..], now);
  }

  lemma {:induction false} WalkOfIsCut(db: Db, rest: seq<Command>, left: nat, now: Time, delivered: seq<Id>)
    requires QueuedRows(db, rest) && left >= 1
    ensures var k := Cut(rest, left, now);
            && k <= |rest|
            && (forall i | 0 <= i < |rest[..k]| :: rest[..k][i].status == CommandQueued)
            && WalkOf(db, rest, left, now, delivered) == (HandleAll(db, rest[..k], now), delivered + Live(rest[..k], now))
    decreases |rest|
  {
    if rest == [] {
      assert delivered + [] == delivered;
    } else {
      var c, db', tail := rest[0], Handle(db, rest[0], now), rest[1..];
      WalkOne(db, rest, left, now);
      if IsStale(c, now) {
        WalkOfIsCut(db', tail, left, now, delivered);
        var more := Live(tail[..Cut(tail, left, now)], now);
        assert [] + more == more;
      } else if left > 1 {
        WalkOfIsCut(db', tail, left - 1, now, delivered + [c.id]);
        var more := Live(tail[..Cut(tail, left - 1, now)], now);
        assert delivered + ([c.id] + more) == delivered + [c.id] + more;
      } else {
        assert rest[..1] == [c] && tail[..0] == [];
        assert [c.id] + Live(tail[..0], now) == [c.id];
      }
    }
  }

  lemma WalkIsPoll(db: Db, tenant: Option<Id>, agent: Id, limit: int, now: Time)
    requires KeysMatch(db)
    ensures QueuedRows(db, Queue(db, tenant, agent))
    ensures WalkOf(db, Queue(db, tenant, agent), ClampPoll(limit), now, []) == Poll(db, tenant, agent, limit, now)
  {
    QueueRows(db, tenant, agent);
    WalkOfIsCut(db, Queue(db, tenant, agent), ClampPoll(limit), now, []);
    var walked := Walked(db, tenant, agent, limit, now);
    assert [] + Live(walked, now) == Live(walked, now);
  }

  class Service {
    var runs: map<Id, RunRef>
    var agents: set<Id>
    var commands: map<Id, Command>
    var approvals: map<Id, Approval>
    var outbox: seq<Row>
    var audits: seq<Audit>
    ghost var clock: Time

    ghost function View(): Db
      reads this
    {
      Db(runs, agents, commands, approvals, outbox, audits)
    }

    ghost predicate Valid()
      reads this
    {
      DbOk(View(), clock)
    }

    constructor (runs: map<Id, RunRef>, agents: set<Id>, now: Time)
      ensures View() == Db(runs, agents, map[], map[], [], []) && clock == now && Valid()
    {
      this.runs, this.agents, commands, approvals, outbox, audits, clock := runs, agents, map[], map[], [], [], now;
    }

    method EmitRow(tenant: Option<Id>, topic: Topic, fact: Fact)
      modifies this`outbox
      ensures View() == Emit(old(View()), tenant, topic, fact)
    {
      outbox := outbox + [Row(tenant, topic, fact)];
    }

    method Record(audit: Audit)
      modifies this`audits
      ensures View() == Log(old(View()), audit)
    {
      audits := audits + [audit];
    }

    /** Move one command along its table, or refuse. */
    method Transition(id: Id, target: CommandState, at: Time) returns (ok: bool)
      requires id in commands
      modifies this`commands
      ensures ok == CanMove(old(commands)[id], target)
      ensures commands == if ok then old(commands)[id := Moved(old(commands)[id], target, at)] else old(commands)
    {
      var c := commands[id];
      if c.status == target {
        assert commands == commands[id := c];
        return true;
      }
      if target !in CommandTargets(c.status) { return false; }
      c := c.(status := target, version := c.version + 1);
      if target == Delivered {
        c := c.(deliveredAt := Some(at));
      } else if target == Acknowledged {
        c := c.(acknowledgedAt := Some(at));
      } else if target == CommandSucceeded || target == CommandFailed {
        c := c.(resultAt := Some(at));
      }
      commands := commands[id := c];
      ok := true;
    }

    // -------------------------------------------------------------- submission

    method FindByKey(tenant: Option<Id>, key: string) returns (found: Option<Id>)
      requires UniqueKeys(View())
      ensures found.None? <==> !KeyUsed(View(), tenant, key)
      ensures found.Some? ==> KeyUsed(View(), tenant, key) && found.value == CommandWithKey(View(), tenant, key)
    {
      if id :| id in commands && HasKey(commands[id], tenant, key) {
        KeyFindsItsCommand(View(), id, tenant, key);
        return Some(id);
      }
      return None;
    }

    /** The row of a submission that was let through, held by an approval or released at once. */
    method CreateCommand(q: Request, key: string, d: Policies.Decision, effect: Policies.Effect, draw: Draw)
      requires RunFound(View(), q) && key == KeyOf(q, draw)
      modifies this`commands, this`approvals, this`outbox, this`audits
      ensures View() == Create(old(View()), q, draw, d, effect)
    {
      var run := runs[q.run];
      var ttl := if q.ttl.None? || q.ttl.value == 0 then COMMAND_TTL else q.ttl.value;
      var c := Command(draw.command, q.tenant, run.agent, q.run, q.kind, key, CommandQueued, 1, None, d.policy, effect,
                       draw.createdAt, None, draw.now + ttl * SECOND, None, None, None, None);
      if effect == Policies.RequireApproval {
        approvals := approvals[draw.approval := Approval(draw.approval, q.tenant, run.agent, q.run, Pending, 1,
                                                         draw.now + APPROVAL_TTL * SECOND, None, None)];
        c := c.(approval := Some(draw.approval));
        commands := commands[c.id := c];
        EmitRow(q.tenant, Approvals, ApprovalRequested(draw.approval));
      } else {
        c := c.(releasedAt := Some(draw.now));
        commands := commands[c.id := c];
        EmitRow(q.tenant, OfRun(q.run), QueueNotice(None));
      }
      Record(CommandSubmitted(c.id, effect));
    }

    /** Evaluate the rules, then the budgets, then create a held or a released command. */
    method SubmitCommand(q: Request, policies: seq<Policies.Policy>, fallback: Policies.Effect,
                         budgets: seq<Budgets.Budget>, records: set<Usage.Record>, moment: Budgets.Moment, draw: Draw)
      returns (s: Submission)
      requires Valid() && clock <= draw.now
      requires draw.command !in commands && draw.approval !in approvals
      requires Policies.DistinctIds(Elements(policies))
      requires forall i, j | 0 <= i < j < |policies| :: policies[i] != policies[j]
      modifies this
      ensures (View(), s) ==
              Submit(old(View()), q, Governance(Elements(policies), fallback, Elements(budgets), records, moment), draw)
      ensures Valid() && clock == draw.now
    {
      ghost var g := Governance(Elements(policies), fallback, Elements(budgets), records, moment);
      SubmitStep(View(), clock, q, g, draw);
      clock := draw.now;
      if !(q.run in runs && runs[q.run].tenant == q.tenant) { return NotFound; }
      var run := runs[q.run];
      if run.agent !in agents { return NotFound; }
      var key := if q.key.None? || q.key.value == "" then draw.key else q.key.value;
      var existing := FindByKey(q.tenant, key);
      if existing.Some? { return Replayed(existing.value); }

      var d, _ := Policies.EvaluatePolicy(policies, Policies.Action(q.tenant, run.agent, q.kind, run.project), fallback);
      Record(PolicyEvaluated(d));
      if d.effect == Policies.Deny { return Denied; }
      var gate := Budgets.BudgetGate(budgets, Budgets.Subject(q.tenant, Some(run.agent), run.project), records, moment);
      if gate.behavior == Budgets.Block { return OverBudget; }
      var effect := d.effect;
      if gate.behavior == Budgets.NeedsApproval && d.effect == Policies.Allow {
        effect := Policies.RequireApproval;
      }

      CreateCommand(q, key, d, effect, draw);
      s := if effect == Policies.RequireApproval then Held(draw.command) else Released(draw.command);
    }

    // -------------------------------------------------------------- approvals

    method LinkedCommand(approval: Id) returns (found: Option<Id>)
      requires UniqueLinks(View())
      ensures found.None? <==> !HasLinked(View(), approval)
      ensures found.Some? ==> HasLinked(View(), approval) && found.value == Linked(View(), approval)
      ensures found.Some? ==> found.value in commands && commands[found.value].approval == Some(approval)
    {
      if id :| id in commands && commands[id].approval == Some(approval) {
        return Some(id);
      }
      return None;
    }

    method CancelHeld(approval: Id, now: Time, reason: string)
      requires UniqueLinks(View()) && KeysMatch(View())
      modifies this`commands, this`outbox
      ensures View() == CancelLinked(old(View()), approval, now, reason)
    {
      var found := LinkedCommand(approval);
      if found.Some? && commands[found.value].status == CommandQueued {
        var c := commands[found.value];
        var _ := Transition(found.value, CommandCancelled, now);
        EmitRow(c.tenant, OfRun(c.run), CancelNotice(c.id, reason));
      }
    }

    method ReleaseHeld(approval: Id, now: Time)
      requires UniqueLinks(View()) && KeysMatch(View())
      modifies this`commands, this`outbox
      ensures View() == ReleaseLinked(old(View()), approval, now)
    {
      var found := LinkedCommand(approval);
      if found.Some? && commands[found.value].status == CommandQueued {
        var c := commands[found.value];
        commands := commands[found.value := c.(releasedAt := Some(now))];
        EmitRow(c.tenant, OfRun(c.run), QueueNotice(Some(c.id)));
      }
    }

    /** The conditional update; nothing happens unless the row is still pending at the expected version. */
    method SettleDecision(tenant: Option<Id>, approval: Id, v: Verdict, version: int, user: Option<Id>, now: Time)
      returns (won: bool)
      requires Valid() && clock <= now
      modifies this
      ensures (View(), won) == Decide(old(View()), tenant, approval, v, version, user, now)
      ensures Valid() && clock == now
    {
      DecideKeeps(View(), clock, tenant, approval, v, version, user, now);
      clock := now;
      if !(approval in approvals && approvals[approval].tenant == tenant) { return false; }
      var a := approvals[approval];
      if a.status != Pending || a.version != version { return false; }
      var target := if v == Approve then Approved else Rejected;
      approvals := approvals[approval := a.(status := target, version := a.version + 1, decidedAt := Some(now), decidedBy := user)];
      if v == Approve {
        ReleaseHeld(approval, now);
        EmitRow(tenant, Approvals, ApprovalApproved(approval));
      } else {
        CancelHeld(approval, now, "approval_rejected");
        EmitRow(tenant, Approvals, ApprovalRejected(approval));
      }
      Record(ApprovalDecided(approval, target));
      won := true;
    }

    method ExpireApproval(approval: Id, now: Time)
      requires Valid() && clock <= now
      modifies this
      ensures View() == Expire(old(View()), approval, now)
      ensures Valid() && clock == now
    {
      ExpireKeeps(View(), clock, approval, now);
      clock := now;
      if approval in approvals && approvals[approval].status == Pending {
        var a := approvals[approval];
        approvals := approvals[approval := a.(status := Expired, version := a.version + 1)];
      }
      CancelHeld(approval, now, "approval_expired");
    }

    /** A decision nobody interferes with: the guard, then the update or the expiry. */
    method DecideApproval(tenant: Option<Id>, approval: Id, v: Verdict, version: int, user: Option<Id>, now: Time)
      returns (won: bool)
      requires Valid() && clock <= now
      modifies this
      ensures var db, guard := old(View()), Guard(old(View()), tenant, approval, now);
              && (guard.Clear? ==> (View(), won) == Decide(db, tenant, approval, v, version, user, now))
              && (guard.Stale? ==> View() == Expire(db, approval, now) && !won)
              && (!guard.Clear? && !guard.Stale? ==> View() == db && !won)
      ensures Valid()
    {
      if !(approval in approvals && approvals[approval].tenant == tenant) { return false; }
      if approvals[approval].status != Pending { return false; }
      if approvals[approval].expiresAt <= now {
        ExpireApproval(approval, now);
        return false;
      }
      won := SettleDecision(tenant, approval, v, version, user, now);
    }

    // -------------------------------------------------------------- operator and agent calls

    method CancelCommand(tenant: Option<Id>, id: Id, now: Time) returns (outcome: Outcome)
      requires Valid() && clock <= now
      modifies this
      ensures (View(), outcome) == Cancel(old(View()), tenant, id, now)
      ensures Valid() && clock == now
    {
      CancelIsCalm(View(), clock, tenant, id, now);
      clock := now;
      if !(id in commands && commands[id].tenant == tenant) { return Missing; }
      var moved := Transition(id, CommandCancelled, now);
      if !moved { return Refused; }
      EmitRow(tenant, OfRun(commands[id].run), CancelNotice(id, "operator_cancel"));
      outcome := Done;
    }

    method AckCommand(tenant: Option<Id>, agent: Id, id: Id, now: Time) returns (outcome: Outcome)
      requires Valid() && clock <= now
      modifies this
      ensures (View(), outcome) == Acknowledge(old(View()), tenant, agent, id, now)
      ensures Valid() && clock == now
    {
      AcknowledgeIsCalm(View(), clock, tenant, agent, id, now);
      clock := now;
      if !(id in commands && commands[id].agent == agent && commands[id].tenant == tenant) { return Missing; }
      var moved := Transition(id, Acknowledged, now);
      if !moved { return Refused; }
      EmitRow(tenant, OfRun(commands[id].run), AckNotice(id));
      outcome := Done;
    }

    /** The move to a verdict, and the report stored with it. */
    method Conclude(id: Id, target: CommandState, report: Report, now: Time) returns (ok: bool)
      requires id in commands
      modifies this`commands
      ensures ok == CanMove(old(commands)[id], target)
      ensures commands == if ok then old(commands)[id := Moved(old(commands)[id], target, now).(report := Some(report))] else old(commands)
    {
      ok := Transition(id, target, now);
      if ok {
        var c := commands[id].(report := Some(report));
        commands := commands[id := c];
        assert commands == old(commands)[id := c];
      }
    }

    method ReportResult(tenant: Option<Id>, agent: Id, id: Id, success: Option<bool>, payload: string, error: string, now: Time)
      returns (outcome: Outcome)
      requires Valid() && clock <= now
      modifies this
      ensures (View(), outcome) == SubmitResult(old(View()), tenant, agent, id, success, payload, error, now)
      ensures Valid() && clock == now
    {
      ResultIsCalm(View(), clock, tenant, agent, id, success, payload, error, now);
      clock := now;
      if success.None? { return Invalid; }
      if !(id in commands && commands[id].agent == agent && commands[id].tenant == tenant) { return Missing; }
      var run, report := commands[id].run, Report(success.value, payload, if success.value then "" else error);
      var moved := Conclude(id, if success.value then CommandSucceeded else CommandFailed, report, now);
      if !moved { return Refused; }
      EmitRow(tenant, OfRun(run), if success.value then SuccessNotice(id) else FailureNotice(id));
      outcome := Done;
    }

    // -------------------------------------------------------------- delivery

    method ExpireIfNeeded(id: Id, now: Time) returns (expired: bool)
      requires id in commands && commands[id].id == id
      modifies this`commands, this`outbox
      ensures var c := old(commands)[id];
              && expired == ((c.status == CommandQueued || c.status == Delivered) && IsStale(c, now))
              && View() == if expired then EmitFor(Put(old(View()), Moved(c, CommandExpired, now)), c, ExpiryNotice(id))
                           else old(View())
    {
      var c := commands[id];
      if (c.status == CommandQueued || c.status == Delivered) && c.expiresAt <= now {
        var _ := Transition(id, CommandExpired, now);
        EmitRow(c.tenant, OfRun(c.run), ExpiryNotice(id));
        return true;
      }
      return false;
    }

    method HandleCandidate(c: Command, now: Time) returns (expired: bool)
      requires c.id in commands && commands[c.id] == c && c.status == CommandQueued
      modifies this`commands, this`outbox
      ensures View() == Handle(old(View()), c, now) && expired == IsStale(c, now)
    {
      expired := ExpireIfNeeded(c.id, now);
      if !expired {
        var _ := Transition(c.id, Delivered, now);
        EmitRow(c.tenant, OfRun(c.run), DeliveryNotice(c.id));
      }
    }

    /** One round of the walk, ending where the walk over the remaining candidates begins. */
    method TakeCandidate(candidates: seq<Command>, i: nat, ghost left: nat, now: Time, delivered: seq<Id>)
      returns (more: seq<Id>, ghost still: nat)
      requires i < |candidates| && left > 0 && QueuedRows(View(), candidates[i..])
      modifies this`commands, this`outbox
      ensures QueuedRows(View(), candidates[i + 1..]) && |more| + still == |delivered| + left
      ensures WalkOf(View(), candidates[i + 1..], still, now, more) == WalkOf(old(View()), candidates[i..], left, now, delivered)
    {
      WalkStep(View(), candidates, i, left, now, delivered);
      var expired := HandleCandidate(candidates[i], now);
      more, still := delivered, left;
      if !expired {
        more, still := delivered + [candidates[i].id], left - 1;
      }
    }

    /** Walk the queue oldest first, expiring what is stale and delivering the rest, until the limit. */
    method FetchAndDeliver(candidates: seq<Command>, most: nat, now: Time) returns (delivered: seq<Id>)
      requires most >= 1 && QueuedRows(View(), candidates)
      modifies this`commands, this`outbox
      ensures (View(), delivered) == WalkOf(old(View()), candidates, most, now, [])
    {
      delivered := [];
      ghost var left: nat := most;
      ghost var walk := WalkOf(View(), candidates, most, now, []);
      var i := 0;
      assert candidates[0..] == candidates;
      while i < |candidates| && |delivered| < most
        invariant 0 <= i <= |candidates| && left + |delivered| == most
        invariant QueuedRows(View(), candidates[i..])
        invariant WalkOf(View(), candidates[i..], left, now, delivered) == walk
      {
        delivered, left := TakeCandidate(candidates, i, left, now, delivered);
        i := i + 1;
      }
    }

    method PollCommands(tenant: Option<Id>, agent: Id, limit: int, now: Time) returns (delivered: seq<Id>)
      requires Valid() && clock <= now
      modifies this
      ensures (View(), delivered) == Poll(old(View()), tenant, agent, limit, now)
      ensures Valid() && clock == now
    {
      PollStep(View(), clock, tenant, agent, limit, now);
      clock := now;
      CandidatesOrdered(View(), tenant, agent);
      QueueRows(View(), tenant, agent);
      WalkIsPoll(View(), tenant, agent, limit, now);
      var candidates := OrderBy(Earlier, set id | id in commands && IsDeliverable(commands[id], tenant, agent) :: commands[id]);
      delivered := FetchAndDeliver(candidates, ClampPoll(limit), now);
    }
  }
}
