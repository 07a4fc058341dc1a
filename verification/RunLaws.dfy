/** What holds of the derived tables after any journal. */
module RunLaws {
  import opened Prelude
  import opened StateMachines
  import opened Catalog
  import opened Runs
  import opened Sums
  import opened Ordering
  import Pricing
  import Usage

  // ---------------------------------------------------------------- one run, one step

  /** Finished exactly when terminal; numbered one past the run it retries. */
  predicate RunOk(runs: map<Id, Run>, id: Id)
    requires id in runs
  {
    var r := runs[id];
    && r.id == id && r.version >= 1
    && (r.finishedAt.Some? <==> TerminalRun(r.state))
    && (StartedRun(r.state) ==> r.startedAt.Some?)
    && (r.retryOf.None? ==> r.attempt == 1)
    && (r.retryOf.Some? ==>
          && r.retryOf.value in runs && runs[r.retryOf.value].agent == r.agent && runs[r.retryOf.value].tenant == r.tenant
          && r.attempt == runs[r.retryOf.value].attempt + 1)
    && (r.summary.Some? || r.errorCode.Some? || r.errorMessage.Some? ==> TerminalRun(r.state))
  }

  /** Closed exactly when finished; timed exactly when both ends are known. */
  predicate StepOk(s: StepRow) {
    && (s.state == StepStarted <==> s.finishedAt.None?)
    && s.durationMs == (if s.startedAt.Some? && s.finishedAt.Some? then Some(Millis(s.finishedAt.value - s.startedAt.value)) else None)
  }

  ghost predicate RunsOk(runs: map<Id, Run>) {
    forall id | id in runs :: RunOk(runs, id)
  }

  ghost predicate StepsOk(t: Tables) {
    forall k | k in t.steps :: k.0 in t.runs && StepOk(t.steps[k])
  }

  /** What never changes of a run, and what changes one way only. */
  predicate Evolves(r: Run, r': Run) {
    && r'.id == r.id && r'.tenant == r.tenant && r'.agent == r.agent && r'.project == r.project
    && r'.retryOf == r.retryOf && r'.attempt == r.attempt
    && (if r'.version == r.version then r'.state == r.state
        else r'.version == r.version + 1 && r'.state in RunTargets(r.state))
    && (r.startedAt.Some? ==> r'.startedAt == r.startedAt)
    && (TerminalRun(r.state) ==>
          && r'.version == r.version && r'.state == r.state && r'.finishedAt == r.finishedAt
          && (r.summary.Some? ==> r'.summary == r.summary)
          && (r.errorCode.Some? ==> r'.errorCode == r.errorCode)
          && (r.errorMessage.Some? ==> r'.errorMessage == r.errorMessage))
  }

  ghost predicate AllEvolve(t: Tables, t': Tables) {
    forall id | id in t.runs :: id in t'.runs && Evolves(t.runs[id], t'.runs[id])
  }

  /** One journaled event moves a known run along its table, or not at all; a terminal run keeps its state. */
  lemma RunsEvolve(t: Tables, e: Entry)
    ensures AllEvolve(t, Project(t, e))
  {
  }

  // ---------------------------------------------------------------- terminal runs

  /** The event names the run, from its own agent in its own tenant. */
  predicate Owns(runs: map<Id, Run>, e: Entry, id: Id) {
    id in runs && e.run == Uuid(id) && runs[id].agent == e.agent && runs[id].tenant == e.tenant
  }

  /** Its agent announces once more the state the run has. */
  predicate Reannounces(t: Tables, e: Entry, id: Id) {
    Owns(t.runs, e, id) && e.kind == RunBecame(t.runs[id].state)
  }

  /** Its agent reports a step whose number can be read. */
  predicate ReportsStep(t: Tables, e: Entry, id: Id) {
    && Owns(t.runs, e, id) && e.kind.StepNoted?
    && !(if e.payload.stepSequence.Absent? then e.payload.sequence else e.payload.stepSequence).NotANumber?
  }

  /**
   What a journaled event may change of a terminal run, and exactly when: its heartbeat moves when its
   state is announced again or a step of it is reported, and a result it lacks is written by such an announcement.
   */
  lemma TerminalRunStep(t: Tables, e: Entry, id: Id)
    requires id in t.runs && TerminalRun(t.runs[id].state)
    ensures id in Project(t, e).runs
    ensures var r, r' := t.runs[id], Project(t, e).runs[id];
            && r' == r.(heartbeatAt := r'.heartbeatAt, summary := r'.summary, errorCode := r'.errorCode, errorMessage := r'.errorMessage)
            && r'.heartbeatAt == (if Reannounces(t, e, id) || ReportsStep(t, e, id) then At(e) else r.heartbeatAt)
            && r'.summary == (if Reannounces(t, e, id) && r.summary.None? && e.payload.summary != ""
                              then Some(Clip(e.payload.summary, TEXT_MAX)) else r.summary)
            && r'.errorCode == (if Reannounces(t, e, id) && r.errorCode.None? && e.payload.errorCode != ""
                              then Some(Clip(e.payload.errorCode, CODE_MAX)) else r.errorCode)
            && r'.errorMessage == (if Reannounces(t, e, id) && r.errorMessage.None? && e.payload.errorMessage != ""
                              then Some(Clip(e.payload.errorMessage, TEXT_MAX)) else r.errorMessage)
  {
    var r := t.runs[id];
    assert forall s :: s !in RunTargets(r.state);
    match e.kind
    case RunBecame(s) => assert Owns(t.runs, e, id) && s != r.state ==> Transition(r, s, At(e)).None?;
    case StepNoted(verb) =>
    case _ =>
  }

  /** Over any further events a terminal run keeps every column but its heartbeat and the results it lacked. */
  lemma {:induction false} TerminalRunsStay(journal: seq<Entry>, more: seq<Entry>, id: Id)
    requires id in Replay(journal).runs && TerminalRun(Replay(journal).runs[id].state)
    ensures id in Replay(journal + more).runs
    ensures var r, r' := Replay(journal).runs[id], Replay(journal + more).runs[id];
            && r' == r.(heartbeatAt := r'.heartbeatAt, summary := r'.summary, errorCode := r'.errorCode, errorMessage := r'.errorMessage)
            && (r.summary.Some? ==> r'.summary == r.summary)
            && (r.errorCode.Some? ==> r'.errorCode == r.errorCode)
            && (r.errorMessage.Some? ==> r'.errorMessage == r.errorMessage)
    decreases |more|
  {
    if more == [] {
      assert journal + more == journal;
    } else {
      var last := |more| - 1;
      var sofar := journal + more[..last];
      assert journal + more == sofar + [more[last]];
      TerminalRunsStay(journal, more[..last], id);
      ReplaySnoc(sofar, more[last]);
      TerminalRunStep(Replay(sofar), more[last], id);
    }
  }

  lemma ReplaceKeepsOk(runs: map<Id, Run>, id: Id, r: Run)
    requires RunsOk(runs) && id in runs && RunOk(runs[id := r], id)
    requires r.agent == runs[id].agent && r.tenant == runs[id].tenant && r.attempt == runs[id].attempt
    ensures RunsOk(runs[id := r])
  {
  }

  lemma InsertKeepsOk(runs: map<Id, Run>, id: Id, r: Run)
    requires RunsOk(runs) && id !in runs && RunOk(runs[id := r], id)
    ensures RunsOk(runs[id := r])
  {
  }

  lemma TransitionKeepsOk(runs: map<Id, Run>, id: Id, s: RunState, e: Entry)
    requires RunsOk(runs) && id in runs && Transition(runs[id], s, At(e)).Some?
    ensures RunsOk(runs[id := WithResult(Transition(runs[id], s, At(e)).value, e.payload)])
  {
    assert RunOk(runs, id);
    ReplaceKeepsOk(runs, id, WithResult(Transition(runs[id], s, At(e)).value, e.payload));
  }

  lemma BirthKeepsOk(t: Tables, e: Entry, id: Id, s: RunState)
    requires RunsOk(t.runs) && id !in t.runs
    ensures RunsOk(t.runs[id := WithResult(Birth(t, e, id, s), e.payload)])
  {
    InsertKeepsOk(t.runs, id, WithResult(Birth(t, e, id, s), e.payload));
  }

  lemma ProjectRunKeeps(t: Tables, e: Entry, s: RunState)
    requires RunsOk(t.runs)
    ensures RunsOk(ProjectRun(t, e, s).runs)
  {
    var id := Parse(e.run);
    if id.Some? {
      if InScope(t, e, id.value) {
        if Transition(t.runs[id.value], s, At(e)).Some? { TransitionKeepsOk(t.runs, id.value, s, e); }
      } else if id.value !in t.runs {
        BirthKeepsOk(t, e, id.value, s);
      }
    }
  }

  lemma ProjectKeeps(t: Tables, e: Entry)
    requires RunsOk(t.runs) && StepsOk(t)
    ensures RunsOk(Project(t, e).runs) && StepsOk(Project(t, e))
  {
    match e.kind
    case RunBecame(s) => ProjectRunKeeps(t, e, s);
    case StepNoted(verb) =>
      var t' := ProjectStep(t, e, verb);
      if t' != t {
        var id := Parse(e.run).value;
        assert RunOk(t.runs, id);
        ReplaceKeepsOk(t.runs, id, t.runs[id].(heartbeatAt := At(e)));
      }
    case _ =>
  }

  lemma {:induction false} ReplayOk(journal: seq<Entry>)
    ensures RunsOk(Replay(journal).runs) && StepsOk(Replay(journal))
    decreases |journal|
  {
    if journal != [] {
      var last := |journal| - 1;
      ReplayOk(journal[..last]);
      ProjectKeeps(Replay(journal[..last]), journal[last]);
    }
  }

  // ---------------------------------------------------------------- run walks

  /** The states a run went through: one for its birth and one for each change of version. */
  ghost function History(journal: seq<Entry>, id: Id): seq<RunState>
    decreases |journal|
  {
    if journal == [] then []
    else
      var last := |journal| - 1;
      var before, after := Replay(journal[..last]).runs, Replay(journal).runs;
      History(journal[..last], id) +
      (if id in after && (id !in before || after[id].version != before[id].version) then [after[id].state] else [])
  }

  predicate IsWalk(states: seq<RunState>) {
    forall i | 0 <= i < |states| - 1 :: states[i + 1] in RunTargets(states[i])
  }

  lemma OneEvolves(t: Tables, e: Entry, id: Id)
    ensures id in t.runs ==> id in Project(t, e).runs && Evolves(t.runs[id], Project(t, e).runs[id])
    ensures id !in t.runs && id in Project(t, e).runs ==> Project(t, e).runs[id].version == 1
  {
    RunsEvolve(t, e);
  }

  lemma WalkOn(states: seq<RunState>, next: RunState)
    requires IsWalk(states) && (states == [] || next in RunTargets(states[|states| - 1]))
    ensures IsWalk(states + [next])
  {
  }

  /** A walk ending in the run's state, as long as its version. */
  ghost predicate Tells(h: seq<RunState>, runs: map<Id, Run>, id: Id) {
    if id in runs then IsWalk(h) && |h| == runs[id].version && |h| >= 1 && h[|h| - 1] == runs[id].state else h == []
  }

  lemma TellsNext(h: seq<RunState>, before: map<Id, Run>, after: map<Id, Run>, id: Id)
    requires Tells(h, before, id)
    requires id in before ==> id in after && Evolves(before[id], after[id])
    requires id !in before && id in after ==> after[id].version == 1
    ensures Tells(h + (if id in after && (id !in before || after[id].version != before[id].version) then [after[id].state] else []),
                  after, id)
  {
    if id in after {
      if |h| == after[id].version {
        assert h + [] == h;
      } else {
        WalkOn(h, after[id].state);
      }
    }
  }

  lemma {:induction false} HistoryTells(journal: seq<Entry>, id: Id)
    ensures Tells(History(journal, id), Replay(journal).runs, id)
    decreases |journal|
  {
    if journal != [] {
      var last := |journal| - 1;
      var t, e := Replay(journal[..last]), journal[last];
      HistoryTells(journal[..last], id);
      OneEvolves(t, e, id);
      TellsNext(History(journal[..last], id), t.runs, Project(t, e).runs, id);
    }
  }

  /**
   Every run's history is a walk in the transition table that ends in its current state, its
   version counts the states, and it has finished exactly when that state is terminal.
   */
  lemma RunsWalkTheTable(journal: seq<Entry>, id: Id)
    requires id in Replay(journal).runs
    ensures var h, r := History(journal, id), Replay(journal).runs[id];
            && (forall i | 0 <= i < |h| - 1 :: h[i + 1] in RunTargets(h[i]))
            && |h| == r.version && |h| >= 1 && h[|h| - 1] == r.state
            && (r.finishedAt.Some? <==> TerminalRun(h[|h| - 1]))
  {
    HistoryTells(journal, id);
    ReplayOk(journal);
    assert RunOk(Replay(journal).runs, id);
  }

  // ---------------------------------------------------------------- retry chains

  /** The run, the run it retries, and so on. */
  ghost function Chain(runs: map<Id, Run>, id: Id): seq<Id>
    requires RunsOk(runs) && id in runs
    decreases runs[id].attempt
  {
    assert RunOk(runs, id);
    [id] + (if runs[id].retryOf.None? then [] else Chain(runs, runs[id].retryOf.value))
  }

  /**
   Retry links end: the chain has as many runs as the attempt says, none twice, all of one agent
   and tenant, their attempts counting down to the first.
   */
  lemma {:induction false} AttemptIsChainLength(runs: map<Id, Run>, id: Id)
    requires RunsOk(runs) && id in runs
    ensures var c := Chain(runs, id);
            && |c| == runs[id].attempt
            && (forall i | 0 <= i < |c| :: c[i] in runs && runs[c[i]].attempt == |c| - i
                                           && runs[c[i]].agent == runs[id].agent && runs[c[i]].tenant == runs[id].tenant)
            && (forall i, j | 0 <= i < j < |c| :: c[i] != c[j])
    decreases runs[id].attempt
  {
    assert RunOk(runs, id);
    if runs[id].retryOf.Some? {
      AttemptIsChainLength(runs, runs[id].retryOf.value);
    }
  }

  /** How much of the journal it took for a run to appear. */
  ghost function Born(journal: seq<Entry>, id: Id): nat
    requires id in Replay(journal).runs
    decreases |journal|
  {
    var last := |journal| - 1;
    if id in Replay(journal[..last]).runs then Born(journal[..last], id) else |journal|
  }

  lemma {:induction false} BornInRange(journal: seq<Entry>, id: Id)
    requires id in Replay(journal).runs
    ensures 1 <= Born(journal, id) <= |journal|
    decreases |journal|
  {
    var last := |journal| - 1;
    if id in Replay(journal[..last]).runs { BornInRange(journal[..last], id); }
  }

  /** A retry is younger than what it retries. */
  lemma {:induction false} RetriesComeLater(journal: seq<Entry>, id: Id)
    requires id in Replay(journal).runs && Replay(journal).runs[id].retryOf.Some?
    ensures var p := Replay(journal).runs[id].retryOf.value;
            p in Replay(journal).runs && Born(journal, p) < Born(journal, id)
    decreases |journal|
  {
    var last := |journal| - 1;
    var t, e := Replay(journal[..last]), journal[last];
    RunsEvolve(t, e);
    if id in t.runs {
      RetriesComeLater(journal[..last], id);
    } else {
      var p := Project(t, e).runs[id].retryOf.value;
      assert p in t.runs;
      BornInRange(journal[..last], p);
    }
  }

  // ---------------------------------------------------------------- isolation

  function OwnRuns(t: Tables, agent: Id): map<Id, Run> {
    map id | id in t.runs && t.runs[id].agent == agent :: t.runs[id]
  }

  function OwnSteps(t: Tables, agent: Id): map<(Id, int), StepRow> {
    map k | k in t.steps && k.0 in t.runs && t.runs[k.0].agent == agent :: t.steps[k]
  }

  lemma StrangersKeepRuns(t: Tables, e: Entry, agent: Id)
    requires e.agent != agent
    ensures OwnRuns(Project(t, e), agent) == OwnRuns(t, agent)
  {
    var t' := Project(t, e);
    forall id
      ensures id in t.runs && t.runs[id].agent == agent <==> id in t'.runs && t'.runs[id].agent == agent
      ensures id in t.runs && t.runs[id].agent == agent ==> t'.runs[id] == t.runs[id]
    {
    }
  }

  lemma StrangersKeepSteps(t: Tables, e: Entry, agent: Id)
    requires e.agent != agent && StepsOk(t)
    ensures OwnSteps(Project(t, e), agent) == OwnSteps(t, agent)
  {
    var t' := Project(t, e);
    StrangersKeepRuns(t, e, agent);
    forall k: (Id, int)
      ensures k in OwnSteps(t, agent) <==> k in OwnSteps(t', agent)
      ensures k in OwnSteps(t, agent) ==> t'.steps[k] == t.steps[k]
    {
      assert k.0 in OwnRuns(t, agent) <==> k.0 in OwnRuns(t', agent);
    }
  }

  /** However many events other agents journal, an agent's runs and steps stay what they were. */
  lemma {:induction false} AgentsAreIsolated(journal: seq<Entry>, others: seq<Entry>, agent: Id)
    requires forall e | e in others :: e.agent != agent
    ensures OwnRuns(Replay(journal + others), agent) == OwnRuns(Replay(journal), agent)
    ensures OwnSteps(Replay(journal + others), agent) == OwnSteps(Replay(journal), agent)
    decreases |others|
  {
    if others == [] {
      assert journal + others == journal;
    } else {
      var last := |others| - 1;
      var sofar := journal + others[..last];
      assert journal + others == sofar + [others[last]];
      AgentsAreIsolated(journal, others[..last], agent);
      ReplaySnoc(sofar, others[last]);
      ReplayOk(sofar);
      StrangersKeepRuns(Replay(sofar), others[last], agent);
      StrangersKeepSteps(Replay(sofar), others[last], agent);
    }
  }

  // ---------------------------------------------------------------- usage

  /** The first report of a source event in its tenant. */
  predicate IsFirst(journal: seq<Entry>, i: nat)
    requires i < |journal|
  {
    && journal[i].kind.UsageReported?
    && forall k | 0 <= k < i && journal[k].kind.UsageReported? ::
         journal[k].tenant != journal[i].tenant || journal[k].eventId != journal[i].eventId
  }

  ghost predicate FromFirst(journal: seq<Entry>, r: Usage.Record) {
    exists i :: 0 <= i < |journal| && IsFirst(journal, i) && r == RecordOf(journal[i])
  }

  lemma {:induction false} FirstExists(journal: seq<Entry>, i: nat) returns (k: nat)
    requires i < |journal| && journal[i].kind.UsageReported?
    ensures k <= i && IsFirst(journal, k) && journal[k].tenant == journal[i].tenant && journal[k].eventId == journal[i].eventId
  {
    k := i;
    if !IsFirst(journal, i) {
      var j: nat :| j < i && journal[j].kind.UsageReported?
                    && journal[j].tenant == journal[i].tenant && journal[j].eventId == journal[i].eventId;
      k := FirstExists(journal, j);
    }
  }

  lemma FirstsGrow(journal: seq<Entry>, e: Entry, r: Usage.Record)
    ensures FromFirst(journal + [e], r) <==>
            FromFirst(journal, r) || (IsFirst(journal + [e], |journal|) && r == RecordOf(e))
  {
    var more := journal + [e];
    assert forall i | 0 <= i < |journal| :: more[i] == journal[i];
    assert forall i | 0 <= i < |journal| :: IsFirst(more, i) <==> IsFirst(journal, i);
  }

  /** The usage table holds exactly the first report of every source event, priced by the server. */
  lemma {:induction false} UsageIsFirstReports(journal: seq<Entry>, r: Usage.Record)
    ensures r in Replay(journal).usage <==> FromFirst(journal, r)
    decreases |journal|, 0
  {
    if journal != [] {
      var last := |journal| - 1;
      var before, e := journal[..last], journal[last];
      assert journal == before + [e];
      UsageIsFirstReports(before, r);
      FirstsGrow(before, e, r);
      if e.kind.UsageReported? {
        RecordedIsReported(before, e);
      }
    }
  }

  lemma RecordedIsReported(before: seq<Entry>, e: Entry)
    requires e.kind.UsageReported?
    ensures NewUsage(Replay(before), e) <==> IsFirst(before + [e], |before|)
    decreases |before|, 1
  {
    var more := before + [e];
    assert forall k | 0 <= k < |before| :: more[k] == before[k];
    if q :| q in Replay(before).usage && SameSource(q, e.tenant, e.eventId) {
      UsageIsFirstReports(before, q);
      var i :| 0 <= i < |before| && IsFirst(before, i) && q == RecordOf(before[i]);
      assert more[i].kind.UsageReported?;
    }
    if !IsFirst(more, |before|) {
      var j: nat :| j < |before| && more[j].kind.UsageReported? && more[j].tenant == e.tenant && more[j].eventId == e.eventId;
      var k := FirstExists(before, j);
      UsageIsFirstReports(before, RecordOf(before[k]));
      assert SameSource(RecordOf(before[k]), e.tenant, e.eventId);
    }
  }

  /** The records any total reads are priced as stored, so it is within half a unit a record of the exact amount. */
  lemma ConsumptionIsNearExact(journal: seq<Entry>, tenant: Option<Id>, scope: Usage.Scope, since: Option<Time>, until: Option<Time>)
    ensures var rows := Usage.Scoped(Replay(journal).usage, tenant, scope, since, until);
            && (forall r | r in rows :: Usage.IsPriced(r))
            && var error := Usage.ConsumptionFor(Replay(journal).usage, tenant, scope, since, until) as real
                            - RealOver(rows, Usage.ExactOf);
               -0.5 * |rows| as real <= error <= 0.5 * |rows| as real
  {
    var rows := Usage.Scoped(Replay(journal).usage, tenant, scope, since, until);
    forall r | r in rows
      ensures Usage.IsPriced(r)
    {
      UsageIsFirstReports(journal, r);
      var i :| 0 <= i < |journal| && IsFirst(journal, i) && r == RecordOf(journal[i]);
    }
    Usage.TotalIsNearExact(rows);
  }

  /** The same for the whole table. */
  lemma StoredCostIsNearExact(journal: seq<Entry>)
    ensures var usage := Replay(journal).usage;
            var error := SumOver(usage, Usage.CostOf) as real - RealOver(usage, Usage.ExactOf);
            -0.5 * |usage| as real <= error <= 0.5 * |usage| as real
  {
    forall r | r in Replay(journal).usage
      ensures Usage.IsPriced(r)
    {
      UsageIsFirstReports(journal, r);
      var i :| 0 <= i < |journal| && IsFirst(journal, i) && r == RecordOf(journal[i]);
    }
    Usage.TotalIsNearExact(Replay(journal).usage);
  }

  // ---------------------------------------------------------------- what one event does

  /**
   An announcement of a state the table allows takes place: state, version, heartbeat and milestones move, and
   nothing else of the run but the results of a terminal state.
   */
  lemma RunAdvances(journal: seq<Entry>, e: Entry, id: Id, s: RunState)
    requires Owns(Replay(journal).runs, e, id) && e.kind == RunBecame(s)
    requires s in RunTargets(Replay(journal).runs[id].state)
    ensures var r, after := Replay(journal).runs[id], Replay(journal + [e]).runs;
            var ends := s == Succeeded || s == Failed || s == Cancelled || s == TimedOut;
            && id in after
            && var r' := after[id];
               && r' == r.(state := s, version := r.version + 1, heartbeatAt := At(e), startedAt := r'.startedAt,
                           finishedAt := r'.finishedAt, summary := r'.summary, errorCode := r'.errorCode, errorMessage := r'.errorMessage)
               && r'.startedAt == (if (s == Starting || s == Running) && r.startedAt.None? then Some(At(e)) else r.startedAt)
               && r'.finishedAt == (if ends then Some(At(e)) else r.finishedAt)
               && r'.summary == FirstText(ends, r.summary, e.payload.summary, 4000)
               && r'.errorCode == FirstText(ends, r.errorCode, e.payload.errorCode, 80)
               && r'.errorMessage == FirstText(ends, r.errorMessage, e.payload.errorMessage, 4000)
  {
    ReplaySnoc(journal, e);
    assert s != Replay(journal).runs[id].state;
  }

  /** A text kept by a terminal run: the first one sent, cut to its column. */
  function FirstText(ends: bool, kept: Option<string>, sent: string, width: nat): Option<string> {
    if ends && kept.None? && sent != "" then Some(if |sent| > width then sent[..width] else sent) else kept
  }

  /** A state that is neither the run's own nor allowed after it leaves the run as it is. */
  lemma RunRefuses(journal: seq<Entry>, e: Entry, id: Id, s: RunState)
    requires Owns(Replay(journal).runs, e, id) && e.kind == RunBecame(s)
    requires s != Replay(journal).runs[id].state && s !in RunTargets(Replay(journal).runs[id].state)
    ensures Replay(journal + [e]) == Replay(journal)
  {
    ReplaySnoc(journal, e);
  }

  /** The state the run already has is a sign of life, and a late result if it is terminal. */
  lemma RunBeats(journal: seq<Entry>, e: Entry, id: Id)
    requires Owns(Replay(journal).runs, e, id) && e.kind == RunBecame(Replay(journal).runs[id].state)
    ensures var r, after := Replay(journal).runs[id], Replay(journal + [e]).runs;
            var ends := r.finishedAt.Some?;
            && id in after
            && after[id] == r.(heartbeatAt := At(e), summary := FirstText(ends, r.summary, e.payload.summary, 4000),
                               errorCode := FirstText(ends, r.errorCode, e.payload.errorCode, 80),
                               errorMessage := FirstText(ends, r.errorMessage, e.payload.errorMessage, 4000))
  {
    ReplaySnoc(journal, e);
    ReplayOk(journal);
    assert RunOk(Replay(journal).runs, id);
  }

  /** Another agent's or tenant's event on a known run, and one on no run at all, change no run and no step. */
  lemma StrangersAreIgnored(journal: seq<Entry>, e: Entry)
    requires !e.kind.UsageReported?
    requires !e.run.Uuid? || (e.run.id in Replay(journal).runs && !Owns(Replay(journal).runs, e, e.run.id))
    ensures Replay(journal + [e]) == Replay(journal)
  {
    ReplaySnoc(journal, e);
  }

  /**
   A run appears with the first event that announces a state of it, in that state; it retries the run its payload
   names exactly when that run is known, of the same agent and tenant, and is one attempt later.
   */
  lemma RunIsBorn(journal: seq<Entry>, e: Entry, id: Id, s: RunState)
    requires id !in Replay(journal).runs && e.run == Uuid(id) && e.kind == RunBecame(s)
    ensures var before, after := Replay(journal).runs, Replay(journal + [e]).runs;
            var ends := s == Succeeded || s == Failed || s == Cancelled || s == TimedOut;
            var p := e.payload;
            var retries := p.retryOf.Uuid? && p.retryOf.id in before
                           && before[p.retryOf.id].agent == e.agent && before[p.retryOf.id].tenant == e.tenant;
            after == before[id := Run(
              id, e.tenant, e.agent, if e.project.Uuid? then Some(e.project.id) else None, s,
              if retries then Some(p.retryOf.id) else None, if retries then before[p.retryOf.id].attempt + 1 else 1,
              if s == Starting || s == Running then Some(At(e)) else None, if ends then Some(At(e)) else None, At(e),
              FirstText(ends, None, p.summary, 4000), FirstText(ends, None, p.errorCode, 80),
              FirstText(ends, None, p.errorMessage, 4000), 1)]
  {
    ReplaySnoc(journal, e);
  }

  // ---------------------------------------------------------------- what one event does to a step

  /** The number of a step: the one sent, or one past the highest of its run, from one. */
  ghost predicate IsNumber(steps: map<(Id, int), StepRow>, run: Id, p: Payload, n: int) {
    var raw := if p.stepSequence.Absent? then p.sequence else p.stepSequence;
    match raw
    case Number(m) => n == m
    case NotANumber => false
    case Absent =>
      && (forall k | k in steps && k.0 == run :: k.1 < n)
      && (if exists k :: k in steps && k.0 == run then (run, n - 1) in steps else n == 1)
  }

  /** The row an event makes of the one that is there, if there is one. */
  ghost predicate StepBecomes(before: map<(Id, int), StepRow>, key: (Id, int), verb: StepVerb, p: Payload, at: Time, s: StepRow) {
    if key !in before then
      s == StepRow(verb, p.tool, if verb == StepStarted then "" else CutText(p.output), if verb == StepStarted then Some(at) else None,
                   if verb == StepStarted then None else Some(at), None)
    else if verb == StepStarted then s == before[key]
    else
      var was := before[key];
      s == was.(state := verb, finishedAt := Some(at),
                output := if p.output == "" then was.output else CutText(p.output),
                tool := if was.tool == "" then p.tool else was.tool,
                durationMs := if was.startedAt.None? then was.durationMs
                              else if at >= was.startedAt.value then Some((at - was.startedAt.value) / 1000)
                              else Some(-((was.startedAt.value - at) / 1000)))
  }

  function CutText(text: string): string {
    if |text| > 4000 then text[..4000] else text
  }

  lemma NextIsNumber(steps: map<(Id, int), StepRow>, run: Id)
    ensures var n := NextNumber(steps, run);
            && (forall k | k in steps && k.0 == run :: k.1 < n)
            && (if exists k :: k in steps && k.0 == run then (run, n - 1) in steps else n == 1)
  {
    var numbers := Numbers(steps, run);
    forall k | k in steps && k.0 == run ensures k.1 in numbers {}
    if numbers != {} {
      var last := Least(Above, numbers);
      var k :| k in steps && k.0 == run && k.1 == last;
      assert k == (run, last);
    }
  }

  /**
   A step event on a run of its own agent writes one step, under the number sent or the next one, opened or
   closed by its own verb, and moves the run's heartbeat; a number that cannot be read changes nothing.
   */
  lemma StepIsWritten(journal: seq<Entry>, e: Entry, run: Id, verb: StepVerb) returns (n: int)
    requires Owns(Replay(journal).runs, e, run) && e.kind == StepNoted(verb)
    ensures var before, after := Replay(journal), Replay(journal + [e]);
            var raw := if e.payload.stepSequence.Absent? then e.payload.sequence else e.payload.stepSequence;
            if raw.NotANumber? then after == before
            else
              && IsNumber(before.steps, run, e.payload, n) && (run, n) in after.steps
              && after.steps == before.steps[(run, n) := after.steps[(run, n)]]
              && StepBecomes(before.steps, (run, n), verb, e.payload, At(e), after.steps[(run, n)])
              && after.runs == before.runs[run := before.runs[run].(heartbeatAt := At(e))]
              && after.usage == before.usage
  {
    ReplaySnoc(journal, e);
    var t := Replay(journal);
    NextIsNumber(t.steps, run);
    var number := StepNumber(t, run, e.payload);
    n := if number.Some? then number.value else 0;
  }

  // ---------------------------------------------------------------- what one report stores

  /**
   The first report of a source event in its tenant is stored as it was sent, absent counts at their defaults,
   at the price of its own input and output at the rate of its own provider, model and version; and no other
   row of the tenant has its event.
   */
  lemma FirstReportIsStored(journal: seq<Entry>, i: nat, q: Usage.Record)
    requires i < |journal| && journal[i].kind.UsageReported?
    requires forall k | 0 <= k < i && journal[k].kind.UsageReported? ::
               journal[k].tenant != journal[i].tenant || journal[k].eventId != journal[i].eventId
    ensures var e, p := journal[i], journal[i].payload;
            var input := if p.inputTokens.Number? then p.inputTokens.n else 0;
            var output := if p.outputTokens.Number? then p.outputTokens.n else 0;
            var version := if p.pricing.Some? && p.pricing.value != "" then p.pricing.value else "2026-07-01";
            var rate := Pricing.RateFor(version, p.provider, p.model);
            q in Replay(journal).usage && q.tenant == e.tenant && q.eventId == e.eventId <==>
            q == Usage.Record(
              e.usageId, e.tenant, Some(e.agent), if e.project.Uuid? then Some(e.project.id) else None,
              if e.run.Uuid? then Some(e.run.id) else None, e.eventId, input, output,
              if p.calls.Number? then p.calls.n else 1,
              if p.duration.Absent? then None else Some(if p.duration.Number? then p.duration.n else 0),
              rate, version, Pricing.Cost(rate, input, output), At(e))
  {
    assert IsFirst(journal, i);
    UsageIsFirstReports(journal, q);
    if FromFirst(journal, q) && q.tenant == journal[i].tenant && q.eventId == journal[i].eventId {
      var k :| 0 <= k < |journal| && IsFirst(journal, k) && q == RecordOf(journal[k]);
      assert k == i;
    }
  }
}
