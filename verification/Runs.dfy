/** Runs, steps and usage as projected from journaled events. */
module Runs {
  import opened Prelude
  import opened StateMachines
  import opened Catalog
  import opened Ordering
  import Budgets
  import Pricing
  import Usage

  // ---------------------------------------------------------------- what an event carries

  datatype RawId = NoId | Uuid(id: Id) | Junk(text: string)

  datatype RawInt = Absent | Number(n: int) | NotANumber

  function Parse(raw: RawId): Option<Id> {
    if raw.Uuid? then Some(raw.id) else None
  }

  function IntOr(raw: RawInt, default: int): int {
    if raw.Number? then raw.n else default
  }

  /** An empty text is one the payload lacks. */
  datatype Payload = Payload(
    retryOf: RawId, summary: string, errorCode: string, errorMessage: string,
    stepSequence: RawInt, sequence: RawInt, tool: string, output: string,
    provider: Option<string>, model: Option<string>, pricing: Option<string>,
    inputTokens: RawInt, outputTokens: RawInt, calls: RawInt, duration: RawInt)

  /** A row of the append-only journal, with the identifiers it and a usage row would draw. */
  datatype Entry = Entry(id: Id, tenant: Option<Id>, agent: Id, eventId: string, sequence: int, kind: Kind, at: Budgets.Moment,
                         run: RawId, project: RawId, payload: Payload, usageId: Id)

  function At(e: Entry): Time { Budgets.Stamp(e.at) }

  // ---------------------------------------------------------------- the derived tables

  datatype Run = Run(id: Id, tenant: Option<Id>, agent: Id, project: Option<Id>, state: RunState,
                     retryOf: Option<Id>, attempt: nat, startedAt: Option<Time>, finishedAt: Option<Time>, heartbeatAt: Time,
                     summary: Option<string>, errorCode: Option<string>, errorMessage: Option<string>, version: nat)

  datatype StepRow = StepRow(state: StepVerb, tool: string, output: string,
                       startedAt: Option<Time>, finishedAt: Option<Time>, durationMs: Option<int>)

  /** Steps are keyed by run and number, as their unique constraint has it. */
  datatype Tables = Tables(runs: map<Id, Run>, steps: map<(Id, int), StepRow>, usage: set<Usage.Record>)

  const EMPTY := Tables(map[], map[], {})

  const TEXT_MAX := 4000
  const CODE_MAX := 80

  function Clip(s: string, limit: nat): string {
    if |s| <= limit then s else s[..limit]
  }

  /** Results are written once. */
  function Keep(current: Option<string>, text: string, limit: nat): Option<string> {
    if text != "" && current.None? then Some(Clip(text, limit)) else current
  }

  function WithResult(r: Run, p: Payload): Run {
    if !TerminalRun(r.state) then r
    else r.(summary := Keep(r.summary, p.summary, TEXT_MAX), errorCode := Keep(r.errorCode, p.errorCode, CODE_MAX),
            errorMessage := Keep(r.errorMessage, p.errorMessage, TEXT_MAX))
  }

  /** The server decides: re-announcing is a heartbeat, a transition outside the table a conflict. */
  function Transition(r: Run, s: RunState, at: Time): Option<Run> {
    if r.state == s then Some(r.(heartbeatAt := at))
    else if s !in RunTargets(r.state) then None
    else Some(r.(state := s, version := r.version + 1, heartbeatAt := at,
                 startedAt := if StartedRun(s) && r.startedAt.None? then Some(at) else r.startedAt,
                 finishedAt := if TerminalRun(s) then Some(at) else r.finishedAt))
  }

  predicate InScope(t: Tables, e: Entry, id: Id) {
    id in t.runs && t.runs[id].agent == e.agent && t.runs[id].tenant == e.tenant
  }

  /** A retry link is kept only when it names a known run of the same agent. */
  function Parent(t: Tables, e: Entry): Option<Id> {
    var p := Parse(e.payload.retryOf);
    if p.Some? && InScope(t, e, p.value) then p else None
  }

  function Birth(t: Tables, e: Entry, id: Id, s: RunState): Run {
    var parent := Parent(t, e);
    var attempt := if parent.Some? then t.runs[parent.value].attempt + 1 else 1;
    Run(id, e.tenant, e.agent, Parse(e.project), s, parent, attempt,
        if StartedRun(s) then Some(At(e)) else None, if TerminalRun(s) then Some(At(e)) else None, At(e),
        None, None, None, 1)
  }

  function ProjectRun(t: Tables, e: Entry, s: RunState): Tables {
    var id := Parse(e.run);
    if id.None? then t
    else if InScope(t, e, id.value) then
      var r := Transition(t.runs[id.value], s, At(e));
      if r.None? then t else t.(runs := t.runs[id.value := WithResult(r.value, e.payload)])
    else if id.value in t.runs then t
    else t.(runs := t.runs[id.value := WithResult(Birth(t, e, id.value, s), e.payload)])
  }

  // ---------------------------------------------------------------- steps

  predicate Above(a: int, b: int) { a > b }

  function Numbers(steps: map<(Id, int), StepRow>, run: Id): set<int> {
    set k | k in steps && k.0 == run :: k.1
  }

  /** One past the last known step. */
  ghost function NextNumber(steps: map<(Id, int), StepRow>, run: Id): int {
    if Numbers(steps, run) == {} then 1 else Least(Above, Numbers(steps, run)) + 1
  }

  ghost function StepNumber(t: Tables, run: Id, p: Payload): Option<int> {
    var raw := if p.stepSequence.Absent? then p.sequence else p.stepSequence;
    match raw
    case Absent => Some(NextNumber(t.steps, run))
    case Number(n) => Some(n)
    case NotANumber => None
  }

  /** Whole milliseconds, toward zero. */
  function Millis(micros: int): int {
    if micros >= 0 then micros / 1000 else -((-micros) / 1000)
  }

  function Opened(verb: StepVerb, p: Payload, at: Time): StepRow {
    var closes := verb != StepStarted;
    StepRow(verb, p.tool, if closes then Clip(p.output, TEXT_MAX) else "",
         if closes then None else Some(at), if closes then Some(at) else None, None)
  }

  function Closed(s: StepRow, verb: StepVerb, p: Payload, at: Time): StepRow {
    if verb == StepStarted then s
    else s.(state := verb, finishedAt := Some(at),
            output := if p.output != "" then Clip(p.output, TEXT_MAX) else s.output,
            durationMs := if s.startedAt.Some? then Some(Millis(at - s.startedAt.value)) else s.durationMs,
            tool := if p.tool != "" && s.tool == "" then p.tool else s.tool)
  }

  ghost function ProjectStep(t: Tables, e: Entry, verb: StepVerb): Tables {
    var id := Parse(e.run);
    if id.None? || !InScope(t, e, id.value) then t
    else
      var n := StepNumber(t, id.value, e.payload);
      if n.None? then t
      else
        var key := (id.value, n.value);
        var step := if key in t.steps then Closed(t.steps[key], verb, e.payload, At(e)) else Opened(verb, e.payload, At(e));
        t.(steps := t.steps[key := step], runs := t.runs[id.value := t.runs[id.value].(heartbeatAt := At(e))])
  }

  // ---------------------------------------------------------------- usage

  predicate SameSource(r: Usage.Record, tenant: Option<Id>, eventId: string) {
    r.tenant == tenant && r.eventId == eventId
  }

  ghost predicate Recorded(usage: set<Usage.Record>, tenant: Option<Id>, eventId: string) {
    exists r :: r in usage && SameSource(r, tenant, eventId)
  }

  /** The server prices the consumption; the producer only counts. */
  function RecordOf(e: Entry): Usage.Record {
    var p := e.payload;
    var input, output := IntOr(p.inputTokens, 0), IntOr(p.outputTokens, 0);
    Usage.Record(e.usageId, e.tenant, Some(e.agent), Parse(e.project), Parse(e.run), e.eventId,
                 input, output, IntOr(p.calls, 1), if p.duration.Absent? then None else Some(IntOr(p.duration, 0)),
                 Pricing.RateFor(Pricing.VersionOf(p.pricing), p.provider, p.model), Pricing.VersionOf(p.pricing),
                 Pricing.ComputeCost(input, output, p.provider, p.model, p.pricing), At(e))
  }

  ghost predicate NewUsage(t: Tables, e: Entry) {
    e.kind.UsageReported? && !Recorded(t.usage, e.tenant, e.eventId)
  }

  // ---------------------------------------------------------------- one journaled event

  ghost function Project(t: Tables, e: Entry): Tables {
    match e.kind
    case RunBecame(s) => ProjectRun(t, e, s)
    case StepNoted(verb) => ProjectStep(t, e, verb)
    case UsageReported => if NewUsage(t, e) then t.(usage := t.usage + {RecordOf(e)}) else t
    case _ => t
  }

  /** The tables as a fold of the journal, in acceptance order. */
  ghost function Replay(journal: seq<Entry>): Tables {
    if journal == [] then EMPTY
    else Project(Replay(journal[..|journal| - 1]), journal[|journal| - 1])
  }

  lemma ReplaySnoc(journal: seq<Entry>, e: Entry)
    ensures Replay(journal + [e]) == Project(Replay(journal), e)
  {
    assert (journal + [e])[..|journal|] == journal;
  }

  // ---------------------------------------------------------------- the services

  class RunStore {
    var runs: map<Id, Run>
    var steps: map<(Id, int), StepRow>
    var usage: set<Usage.Record>

    ghost function View(): Tables
      reads this
    {
      Tables(runs, steps, usage)
    }

    constructor ()
      ensures View() == EMPTY
    {
      runs, steps, usage := map[], map[], {};
    }

    method TransitionRun(id: Id, s: RunState, at: Time) returns (ok: bool)
      requires id in runs
      modifies this`runs
      ensures ok == Transition(old(runs)[id], s, at).Some?
      ensures runs == if ok then old(runs)[id := Transition(old(runs)[id], s, at).value] else old(runs)
    {
      var r := runs[id];
      if r.state == s {
        runs := runs[id := r.(heartbeatAt := at)];
        return true;
      }
      if TerminalRun(r.state) || s !in RunTargets(r.state) { return false; }
      r := r.(state := s, version := r.version + 1, heartbeatAt := at);
      if StartedRun(s) && r.startedAt.None? { r := r.(startedAt := Some(at)); }
      if TerminalRun(s) { r := r.(finishedAt := Some(at)); }
      runs := runs[id := r];
      ok := true;
    }

    method ApplyTerminalResult(id: Id, p: Payload)
      requires id in runs
      modifies this`runs
      ensures runs == old(runs)[id := WithResult(old(runs)[id], p)]
    {
      var r := runs[id];
      if TerminalRun(r.state) {
        if p.summary != "" && r.summary.None? { r := r.(summary := Some(Clip(p.summary, TEXT_MAX))); }
        if p.errorCode != "" && r.errorCode.None? { r := r.(errorCode := Some(Clip(p.errorCode, CODE_MAX))); }
        if p.errorMessage != "" && r.errorMessage.None? { r := r.(errorMessage := Some(Clip(p.errorMessage, TEXT_MAX))); }
      }
      runs := runs[id := r];
    }

    method CreateRun(e: Entry, id: Id, s: RunState)
      requires id !in runs
      modifies this`runs
      ensures runs == old(runs)[id := WithResult(Birth(old(View()), e, id, s), e.payload)]
    {
      var attempt: nat := 1;
      var retryOf := Parse(e.payload.retryOf);
      if retryOf.Some? {
        if retryOf.value in runs && runs[retryOf.value].agent == e.agent && runs[retryOf.value].tenant == e.tenant {
          attempt := runs[retryOf.value].attempt + 1;
        } else {
          retryOf := None;
        }
      }
      var r := Run(id, e.tenant, e.agent, Parse(e.project), s, retryOf, attempt, None, None, At(e), None, None, None, 1);
      if StartedRun(s) { r := r.(startedAt := Some(At(e))); }
      if TerminalRun(s) { r := r.(finishedAt := Some(At(e))); }
      runs := runs[id := r];
      ApplyTerminalResult(id, e.payload);
      assert runs == old(runs)[id := WithResult(r, e.payload)];
    }

    method ProjectRunEvent(e: Entry, s: RunState)
      modifies this`runs
      ensures View() == ProjectRun(old(View()), e, s)
    {
      var id := Parse(e.run);
      if id.None? { return; }
      if id.value in runs && runs[id.value].agent == e.agent && runs[id.value].tenant == e.tenant {
        var ok := TransitionRun(id.value, s, At(e));
        if ok {
          ghost var r := runs[id.value];
          ApplyTerminalResult(id.value, e.payload);
          assert runs == old(runs)[id.value := WithResult(r, e.payload)];
        }
        return;
      }
      if id.value in runs { return; }
      CreateRun(e, id.value, s);
    }

    /** The highest number in use for this run. */
    method LastStep(run: Id) returns (last: Option<int>)
      ensures last.None? <==> Numbers(steps, run) == {}
      ensures last.Some? ==> StrictTotal(Above, Numbers(steps, run)) && last.value == Least(Above, Numbers(steps, run))
    {
      var numbers := Numbers(steps, run);
      last := None;
      var rest := numbers;
      while rest != {}
        invariant rest <= numbers
        invariant last.None? ==> rest == numbers
        invariant last.Some? ==> last.value in numbers && last.value !in rest
        invariant last.Some? ==> forall n | n in numbers && n !in rest :: n <= last.value
      {
        ghost var some := Pick(rest);
        var n :| n in rest;
        if last.None? || last.value < n { last := Some(n); }
        rest := rest - {n};
      }
      if last.Some? { LeastUnique(Above, numbers, last.value); }
    }

    /** Open the step, or let a closing event close it. */
    method PutStep(key: (Id, int), verb: StepVerb, p: Payload, at: Time)
      modifies this`steps
      ensures steps == old(steps)[key := if key in old(steps) then Closed(old(steps)[key], verb, p, at) else Opened(verb, p, at)]
    {
      if key !in steps {
        steps := steps[key := Opened(verb, p, at)];
        return;
      }
      var s := steps[key];
      if verb != StepStarted {
        s := s.(state := verb, finishedAt := Some(at));
        if p.output != "" { s := s.(output := Clip(p.output, TEXT_MAX)); }
        if s.startedAt.Some? { s := s.(durationMs := Some(Millis(at - s.startedAt.value))); }
        if p.tool != "" && s.tool == "" { s := s.(tool := p.tool); }
      }
      steps := steps[key := s];
    }

    method ProjectStepEvent(e: Entry, verb: StepVerb)
      modifies this`runs, this`steps
      ensures View() == ProjectStep(old(View()), e, verb)
    {
      var id := Parse(e.run);
      if id.None? { return; }
      if !(id.value in runs && runs[id.value].agent == e.agent && runs[id.value].tenant == e.tenant) { return; }
      var raw := e.payload.stepSequence;
      if raw.Absent? { raw := e.payload.sequence; }
      if raw.Absent? {
        var last := LastStep(id.value);
        raw := Number((if last.None? then 0 else last.value) + 1);
      }
      if raw.NotANumber? { return; }
      var key := (id.value, raw.n);
      PutStep(key, verb, e.payload, At(e));
      runs := runs[id.value := runs[id.value].(heartbeatAt := At(e))];
    }

    /** Idempotent by source event; the row is returned when it is new. */
    method RecordUsage(e: Entry) returns (created: bool)
      modifies this`usage
      ensures created == !Recorded(old(usage), e.tenant, e.eventId)
      ensures usage == old(usage) + if created then {RecordOf(e)} else {}
    {
      if r :| r in usage && SameSource(r, e.tenant, e.eventId) {
        return false;
      }
      usage := usage + {RecordOf(e)};
      created := true;
    }
  }
}
