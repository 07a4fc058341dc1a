/** The ingest over whole runs: any interleaving of agents, batches, heartbeats, alert handling and budget changes. */
module JournalSafety {
  import opened Prelude
  import opened Outbox
  import opened Runs
  import opened Ingest
  import opened IngestLaws
  import opened Sums
  import RunLaws
  import Alerts
  import Budgets
  import Usage

  datatype Step =
    | Batch(agent: Id, events: seq<Event>)
    | Pulse(agent: Id, beat: Beat, now: Time)
    | Desk(step: Alerts.Step)
    | Budgeting(budgets: seq<Budgets.Budget>)

  /** Rows the ingest alone writes: journal announcements and priced consumption. */
  predicate FromIngest(fact: Fact) {
    WriterOf(fact) == Journaling
  }

  predicate OwnDraws(e: Event, f: Event) {
    e.id != f.id && e.usageId != f.usageId
  }

  ghost predicate DistinctDraws(events: seq<Event>) {
    forall i, j | 0 <= i < j < |events| :: OwnDraws(events[i], events[j])
  }

  /** The identifiers a batch's rows draw are new. */
  ghost predicate NewDraws(journal: seq<Entry>, events: seq<Event>) {
    && DistinctDraws(events)
    && forall e, k | e in events && 0 <= k < |journal| :: e.id != journal[k].id && e.usageId != journal[k].usageId
  }

  /** Drawn identifiers are new, and other services leave the ingest's rows to it. */
  ghost predicate Enabled(w: World, step: Step) {
    match step
    case Batch(agent, events) => agent in w.agents && NewDraws(w.journal, events)
    case Pulse(agent, _, _) => agent in w.agents
    case Desk(s) => s.Elsewhere? ==> !FromIngest(s.row.fact)
    case Budgeting(_) => true
  }

  ghost function Next(w: World, step: Step): World
    requires Enabled(w, step)
  {
    match step
    case Batch(agent, events) => IngestBatch(w, agent, events).0
    case Pulse(agent, beat, now) => Hear(w, agent, beat, now).0
    case Desk(s) => w.(desk := Alerts.Next(w.desk, s))
    case Budgeting(budgets) => w.(budgets := budgets)
  }

  ghost predicate CanRun(w: World, steps: seq<Step>)
    decreases |steps|
  {
    steps == [] || (Enabled(w, steps[0]) && CanRun(Next(w, steps[0]), steps[1..]))
  }

  ghost function After(w: World, steps: seq<Step>): World
    requires CanRun(w, steps)
    decreases |steps|
  {
    if steps == [] then w else After(Next(w, steps[0]), steps[1..])
  }

  // ---------------------------------------------------------------- what only grows

  /** The journal is append-only, agents keep their identity, sequences never go back. */
  ghost predicate Grows(w: World, v: World) {
    && w.journal <= v.journal && v.agents.Keys == w.agents.Keys
    && forall a | a in w.agents ::
         && v.agents[a].key == w.agents[a].key && v.agents[a].tenant == w.agents[a].tenant
         && v.agents[a].lastSequence >= w.agents[a].lastSequence
  }

  lemma GrowsTrans(u: World, v: World, w: World)
    requires Grows(u, v) && Grows(v, w)
    ensures Grows(u, w)
  {
    assert forall a | a in u.agents :: a in v.agents;
  }

  lemma {:induction false} AdmitAllGrows(w: World, agent: Id, events: seq<Event>)
    requires agent in w.agents
    ensures Grows(w, AdmitAll(w, agent, events))
    decreases |events|
  {
    if events != [] {
      var v := Admit(w, agent, events[0]);
      assert Grows(w, v);
      AdmitAllGrows(v, agent, events[1..]);
      GrowsTrans(w, v, AdmitAll(w, agent, events));
    }
  }

  lemma StepGrows(w: World, step: Step)
    requires Enabled(w, step)
    ensures Grows(w, Next(w, step))
  {
    if step.Batch? { AdmitAllGrows(w, step.agent, BySequence(step.events)); }
  }

  /** Over any run the journal only grows and no agent's last sequence decreases. */
  lemma {:induction false} RunGrows(w: World, steps: seq<Step>)
    requires CanRun(w, steps)
    ensures Grows(w, After(w, steps))
    decreases |steps|
  {
    if steps != [] {
      StepGrows(w, steps[0]);
      RunGrows(Next(w, steps[0]), steps[1..]);
      GrowsTrans(w, Next(w, steps[0]), After(w, steps));
    }
  }

  // ---------------------------------------------------------------- replays are silent

  /** An event that can never be accepted again. */
  predicate Settled(w: World, agent: Id, e: Event) {
    agent in w.agents && (Known(w.journal, agent, e.eventId) || !Admissible(e, w.agents[agent].lastSequence))
  }

  lemma SettledStays(w: World, v: World, agent: Id, e: Event)
    requires Grows(w, v) && Settled(w, agent, e)
    ensures Settled(v, agent, e)
  {
    if i :| 0 <= i < |w.journal| && w.journal[i].agent == agent && w.journal[i].eventId == e.eventId {
      assert v.journal[i] == w.journal[i];
    }
  }

  lemma AdmittedIsSettled(w: World, agent: Id, e: Event)
    requires agent in w.agents
    ensures Settled(Admit(w, agent, e), agent, e)
  {
    if Judge(w, agent, e).Accepted? {
      KnownSnoc(w.journal, EntryOf(agent, w.agents[agent], e), agent, e.eventId);
    }
  }

  lemma {:induction false} AllSettled(w: World, agent: Id, events: seq<Event>, e: Event)
    requires agent in w.agents && e in events
    ensures Settled(AdmitAll(w, agent, events), agent, e)
    decreases |events|
  {
    var v := Admit(w, agent, events[0]);
    if e == events[0] {
      AdmittedIsSettled(w, agent, e);
      AdmitAllGrows(v, agent, events[1..]);
      SettledStays(v, AdmitAll(w, agent, events), agent, e);
    } else {
      AllSettled(v, agent, events[1..], e);
    }
  }

  lemma {:induction false} SettledIsSilent(w: World, agent: Id, events: seq<Event>)
    requires agent in w.agents && forall e | e in events :: Settled(w, agent, e)
    ensures AdmitAll(w, agent, events) == w && Tally(w, agent, events, Accepted) == 0
    decreases |events|
  {
    if events != [] {
      assert events[0] in events;
      SettledIsSilent(w, agent, events[1..]);
    }
  }

  /** The same envelopes; the identifiers their rows would draw may differ. */
  ghost predicate SameEnvelopes(events: seq<Event>, again: seq<Event>) {
    && |again| == |events|
    && forall i | 0 <= i < |events| :: again[i] == events[i].(id := again[i].id, usageId := again[i].usageId)
  }

  /** Once a batch was taken, its envelopes are settled wherever the world has grown to. */
  lemma SentBefore(w: World, v: World, agent: Id, events: seq<Event>, again: seq<Event>)
    requires agent in w.agents && SameEnvelopes(events, again) && Grows(AdmitAll(w, agent, BySequence(events)), v)
    ensures agent in v.agents && forall e | e in again :: Settled(v, agent, e)
  {
    var q := BySequence(events);
    AdmitAllGrows(w, agent, q);
    BySequenceSorts(events);
    forall e | e in again ensures Settled(v, agent, e) {
      var i :| 0 <= i < |again| && again[i] == e;
      assert events[i] in events;
      AllSettled(w, agent, q, events[i]);
      SettledStays(AdmitAll(w, agent, q), v, agent, events[i]);
    }
  }

  lemma SameKeys(events: seq<Event>, again: seq<Event>, key: string)
    requires SameEnvelopes(events, again) && AllFrom(again, key)
    ensures AllFrom(events, key)
  {
    forall e | e in events ensures e.agentKey == key {
      var i :| 0 <= i < |events| && events[i] == e;
      assert again[i] in again;
    }
  }

  /**
   Sending a batch again, at any later point of any run, accepts nothing and changes nothing:
   neither journal, outbox, projections nor sequence.
   */
  lemma ReplayIsSilent(w: World, agent: Id, events: seq<Event>, steps: seq<Step>, again: seq<Event>)
    requires agent in w.agents && CanRun(IngestBatch(w, agent, events).0, steps) && SameEnvelopes(events, again)
    ensures var v := After(IngestBatch(w, agent, events).0, steps);
            && agent in v.agents
            && var (v', reply) := IngestBatch(v, agent, again);
               v' == v && (reply.Report? ==> reply.accepted == 0)
  {
    var w1 := IngestBatch(w, agent, events).0;
    var v := After(w1, steps);
    AdmitAllGrows(w, agent, BySequence(events));
    RunGrows(w1, steps);
    if |again| <= BATCH_MAX && AllFrom(again, v.agents[agent].key) {
      SameKeys(events, again, w.agents[agent].key);
      SentBefore(w, v, agent, events, again);
      BySequenceSorts(again);
      SettledIsSilent(v, agent, BySequence(again));
    }
  }

  // ---------------------------------------------------------------- the invariant

  /** Per agent, sequences rise and event identifiers differ, all within what the agent has reached. */
  ghost predicate Sequenced(w: World) {
    && (forall i | 0 <= i < |w.journal| ::
          && w.journal[i].agent in w.agents && w.journal[i].tenant == w.agents[w.journal[i].agent].tenant
          && w.journal[i].sequence <= w.agents[w.journal[i].agent].lastSequence)
    && (forall i, j | 0 <= i < j < |w.journal| && w.journal[i].agent == w.journal[j].agent ::
          w.journal[i].sequence < w.journal[j].sequence && w.journal[i].eventId != w.journal[j].eventId)
  }

  /** The ingest's rows of the outbox, in order. */
  function IngestRows(rows: seq<Row>): seq<Row> {
    Select(rows, Journaling)
  }

  /** What one journal row publishes: itself, and its consumption if it is new. */
  ghost function Publication(t: Tables, e: Entry): seq<Row> {
    [Announcement(e)] + if NewUsage(t, e) then [UsageRow(RecordOf(e), e.agent)] else []
  }

  /** What a journal publishes, a function of the journal alone. */
  ghost function Published(journal: seq<Entry>): seq<Row>
    decreases |journal|
  {
    if journal == [] then []
    else
      var before, e := journal[..|journal| - 1], journal[|journal| - 1];
      Published(before) + Publication(Replay(before), e)
  }

  lemma PublishedSnoc(journal: seq<Entry>, e: Entry)
    ensures Published(journal + [e]) == Published(journal) + Publication(Replay(journal), e)
  {
    assert (journal + [e])[..|journal|] == journal;
  }

  /** Where a journal row's announcement stands among what the journal publishes. */
  ghost function Place(journal: seq<Entry>, k: nat): nat
    requires k <= |journal|
  {
    |Published(journal[..k])|
  }

  lemma {:induction false} PlacesRise(journal: seq<Entry>, j: nat, k: nat)
    requires j < k <= |journal|
    ensures Place(journal, j) < Place(journal, k)
    decreases k
  {
    assert journal[..k][..k - 1] == journal[..k - 1];
    if j < k - 1 { PlacesRise(journal, j, k - 1); }
  }

  lemma {:induction false} PlaceHolds(journal: seq<Entry>, k: nat)
    requires k < |journal|
    ensures Place(journal, k) < |Published(journal)|
    ensures Published(journal)[Place(journal, k)] == Announcement(journal[k])
    decreases |journal|
  {
    var last := |journal| - 1;
    if k < last {
      PlaceHolds(journal[..last], k);
      assert journal[..last][..k] == journal[..k];
    }
  }

  /** No two rows of the journal share an identifier, nor would their usage rows. */
  ghost predicate UniqueDraws(journal: seq<Entry>) {
    forall i, j | 0 <= i < j < |journal| :: journal[i].id != journal[j].id && journal[i].usageId != journal[j].usageId
  }

  ghost predicate Inv(w: World) {
    && w.tables == Replay(w.journal)
    && Sequenced(w) && UniqueDraws(w.journal)
    && IngestRows(w.desk.outbox) == Published(w.journal)
    && Alerts.Balanced(w.desk)
  }

  lemma IngestRowsSnoc(rows: seq<Row>, row: Row)
    ensures IngestRows(rows + [row]) == IngestRows(rows) + if FromIngest(row.fact) then [row] else []
  {
    SelectSnoc(rows, row, Journaling);
  }

  lemma OtherRow(rows: seq<Row>, row: Row)
    requires !FromIngest(row.fact)
    ensures IngestRows(rows + [row]) == IngestRows(rows)
  {
    IngestRowsSnoc(rows, row);
    assert IngestRows(rows) + [] == IngestRows(rows);
  }

  /** An evaluation adds rows about alerts and budgets alone. */
  lemma {:induction false} NotifyAllAdds(d: Alerts.Desk, b: Budgets.Budget, consumed: int, thresholds: seq<int>)
    ensures Adds(d.outbox, Alerts.NotifyAll(d, b, consumed, thresholds).outbox, Alerting)
    decreases |thresholds|
  {
    if thresholds != [] {
      var t := thresholds[0];
      var d' := if Budgets.Reaches(consumed, b.limit, t) then Alerts.Notify(d, b, t) else d;
      NotifyAllAdds(d', b, consumed, thresholds[1..]);
      AddsTrans(d.outbox, d'.outbox, Alerts.NotifyAll(d, b, consumed, thresholds).outbox, Alerting);
    }
  }

  lemma {:induction false} EvaluateAdds(d: Alerts.Desk, budgets: seq<Budgets.Budget>, s: Budgets.Subject,
                                        records: set<Usage.Record>, now: Budgets.Moment)
    ensures Adds(d.outbox, Alerts.Evaluate(d, budgets, s, records, now).outbox, Alerting)
    decreases |budgets|
  {
    if budgets != [] {
      var b := budgets[0];
      var consumed, thresholds := Budgets.Consumed(b, records, now), Budgets.Thresholds(b);
      var d' := if Budgets.Covers(b, s) then Alerts.NotifyAll(d, b, consumed, thresholds) else d;
      if Budgets.Covers(b, s) { NotifyAllAdds(d, b, consumed, thresholds); }
      EvaluateAdds(d', budgets[1..], s, records, now);
      AddsTrans(d.outbox, d'.outbox, Alerts.Evaluate(d, budgets, s, records, now).outbox, Alerting);
    }
  }

  lemma EvaluateQuiet(d: Alerts.Desk, budgets: seq<Budgets.Budget>, s: Budgets.Subject,
                      records: set<Usage.Record>, now: Budgets.Moment, w: Writer)
    requires w != Alerting
    ensures Select(Alerts.Evaluate(d, budgets, s, records, now).outbox, w) == Select(d.outbox, w)
  {
    EvaluateAdds(d, budgets, s, records, now);
    SelectAdds(d.outbox, Alerts.Evaluate(d, budgets, s, records, now).outbox, Alerting, w);
  }

  lemma DeskStepAdds(d: Alerts.Desk, s: Alerts.Step)
    requires !s.Elsewhere?
    ensures Adds(d.outbox, Alerts.Next(d, s).outbox, Alerting)
  {
    if s.Evaluation? { EvaluateAdds(d, s.budgets, s.subject, s.records, s.now); }
  }

  /** The desk writes rows about alerts and budgets, and what other services hand it. */
  lemma DeskStepQuiet(d: Alerts.Desk, s: Alerts.Step, w: Writer)
    requires w != Alerting && (s.Elsewhere? ==> WriterOf(s.row.fact) != w)
    ensures Select(Alerts.Next(d, s).outbox, w) == Select(d.outbox, w)
  {
    if s.Elsewhere? {
      SelectSnoc(d.outbox, s.row, w);
    } else {
      DeskStepAdds(d, s);
      SelectAdds(d.outbox, Alerts.Next(d, s).outbox, Alerting, w);
    }
  }

  lemma EmitIngest(d: Alerts.Desk, row: Row)
    requires Alerts.Balanced(d) && FromIngest(row.fact)
    ensures Alerts.Balanced(d.(outbox := d.outbox + [row])) && IngestRows(d.outbox + [row]) == IngestRows(d.outbox) + [row]
  {
    Alerts.EmitForeign(d, row);
    IngestRowsSnoc(d.outbox, row);
  }

  lemma EvaluatedDesk(d: Alerts.Desk, budgets: seq<Budgets.Budget>, s: Budgets.Subject,
                      records: set<Usage.Record>, now: Budgets.Moment)
    requires Alerts.Balanced(d)
    ensures var d' := Alerts.Evaluate(d, budgets, s, records, now);
            Alerts.Balanced(d') && IngestRows(d'.outbox) == IngestRows(d.outbox)
  {
    Alerts.EvaluateBalanced(d, budgets, s, records, now);
    EvaluateQuiet(d, budgets, s, records, now, Journaling);
  }

  lemma AcceptedDesk(w: World, agent: Id, e: Event)
    requires Alerts.Balanced(w.desk) && agent in w.agents && e.occurredAt.Some?
    ensures Alerts.Balanced(DeskAfter(w, agent, e))
    ensures IngestRows(DeskAfter(w, agent, e).outbox) ==
            IngestRows(w.desk.outbox) + Publication(w.tables, EntryOf(agent, w.agents[agent], e))
  {
    var a := w.agents[agent];
    var entry := EntryOf(agent, a, e);
    var announced := w.desk.(outbox := w.desk.outbox + [Announcement(entry)]);
    EmitIngest(w.desk, Announcement(entry));
    if NewUsage(w.tables, entry) {
      var cost := UsageRow(RecordOf(entry), agent);
      EmitIngest(announced, cost);
      EvaluatedDesk(announced.(outbox := announced.outbox + [cost]), w.budgets,
                    Budgets.Subject(a.tenant, Some(agent), Parse(e.project)), Project(w.tables, entry).usage, e.occurredAt.value);
    }
  }

  lemma AcceptedSequence(w: World, agent: Id, e: Event)
    requires Sequenced(w) && agent in w.agents && Judge(w, agent, e).Accepted?
    ensures Sequenced(Accept(w, agent, e))
  {
    var v, n := Accept(w, agent, e), |w.journal|;
    forall i | 0 <= i < n && w.journal[i].agent == agent
      ensures w.journal[i].sequence < e.sequence && w.journal[i].eventId != e.eventId
    {
    }
  }

  ghost predicate Apart(e: Event, events: seq<Event>) {
    forall i | 0 <= i < |events| :: OwnDraws(e, events[i])
  }

  lemma {:induction false} InsertApart(first: Event, e: Event, q: seq<Event>)
    requires Apart(first, q) && OwnDraws(first, e)
    ensures Apart(first, InsertBySequence(e, q))
  {
    if q != [] && e.sequence > q[0].sequence { InsertApart(first, e, q[1..]); }
  }

  lemma ConsDraws(first: Event, rest: seq<Event>)
    requires DistinctDraws(rest) && Apart(first, rest)
    ensures DistinctDraws([first] + rest)
  {
  }

  lemma {:induction false} InsertDraws(e: Event, q: seq<Event>)
    requires DistinctDraws(q) && Apart(e, q)
    ensures DistinctDraws(InsertBySequence(e, q))
  {
    if q == [] || e.sequence <= q[0].sequence {
      ConsDraws(e, q);
    } else {
      assert DistinctDraws(q[1..]) && Apart(q[0], q[1..]) && OwnDraws(e, q[0]) && OwnDraws(q[0], e);
      InsertDraws(e, q[1..]);
      InsertApart(q[0], e, q[1..]);
      ConsDraws(q[0], InsertBySequence(e, q[1..]));
    }
  }

  lemma {:induction false} SortedDraws(events: seq<Event>)
    requires DistinctDraws(events)
    ensures DistinctDraws(BySequence(events))
    ensures forall first | Apart(first, events) :: Apart(first, BySequence(events))
  {
    if events != [] {
      var e, rest := events[0], events[1..];
      assert DistinctDraws(rest) && Apart(e, rest);
      SortedDraws(rest);
      InsertDraws(e, BySequence(rest));
      forall first | Apart(first, events) ensures Apart(first, BySequence(events)) {
        assert OwnDraws(first, events[0]);
        forall i | 0 <= i < |rest| ensures OwnDraws(first, rest[i]) { assert OwnDraws(first, events[i + 1]); }
        InsertApart(first, e, BySequence(rest));
      }
    }
  }

  lemma SortingKeepsDraws(journal: seq<Entry>, events: seq<Event>)
    requires NewDraws(journal, events)
    ensures NewDraws(journal, BySequence(events))
  {
    SortedDraws(events);
    BySequenceSorts(events);
  }

  lemma DrawsGrow(journal: seq<Entry>, entry: Entry)
    requires UniqueDraws(journal)
    requires forall k | 0 <= k < |journal| :: entry.id != journal[k].id && entry.usageId != journal[k].usageId
    ensures UniqueDraws(journal + [entry])
  {
  }

  lemma AdmitKeeps(w: World, agent: Id, e: Event)
    requires Inv(w) && agent in w.agents && NewDraws(w.journal, [e])
    ensures Inv(Admit(w, agent, e))
  {
    if Judge(w, agent, e).Accepted? {
      var entry := EntryOf(agent, w.agents[agent], e);
      ReplaySnoc(w.journal, entry);
      AcceptedSequence(w, agent, e);
      AcceptedDesk(w, agent, e);
      PublishedSnoc(w.journal, entry);
      assert e in [e];
      DrawsGrow(w.journal, entry);
    }
  }

  lemma DrawsLeft(w: World, agent: Id, events: seq<Event>)
    requires agent in w.agents && events != [] && NewDraws(w.journal, events)
    ensures NewDraws(Admit(w, agent, events[0]).journal, events[1..])
  {
    var rest := events[1..];
    forall i, j | 0 <= i < j < |rest| ensures OwnDraws(rest[i], rest[j]) { assert OwnDraws(events[i + 1], events[j + 1]); }
    forall e | e in rest
      ensures e in events && OwnDraws(events[0], e)
    {
      var i :| 0 <= i < |rest| && rest[i] == e;
      assert OwnDraws(events[0], events[i + 1]);
    }
  }

  lemma {:induction false} AdmitAllKeeps(w: World, agent: Id, events: seq<Event>)
    requires Inv(w) && agent in w.agents && NewDraws(w.journal, events)
    ensures Inv(AdmitAll(w, agent, events))
    decreases |events|
  {
    if events != [] {
      assert events[0] in events;
      AdmitKeeps(w, agent, events[0]);
      DrawsLeft(w, agent, events);
      AdmitAllKeeps(Admit(w, agent, events[0]), agent, events[1..]);
    }
  }

  lemma SequencedStays(w: World, v: World)
    requires Sequenced(w) && v.journal == w.journal && Grows(w, v)
    ensures Sequenced(v)
  {
  }

  lemma HearKeeps(w: World, agent: Id, b: Beat, now: Time)
    requires Inv(w) && agent in w.agents
    ensures Inv(Hear(w, agent, b, now).0)
  {
    var v := Hear(w, agent, b, now).0;
    StepGrows(w, Pulse(agent, b, now));
    SequencedStays(w, v);
    if v.desk != w.desk {
      var row := v.desk.outbox[|w.desk.outbox|];
      Alerts.EmitForeign(w.desk, row);
      OtherRow(w.desk.outbox, row);
    }
  }

  lemma StepKeepsInv(w: World, step: Step)
    requires Inv(w) && Enabled(w, step)
    ensures Inv(Next(w, step))
  {
    match step
    case Batch(agent, events) =>
      SortingKeepsDraws(w.journal, events);
      AdmitAllKeeps(w, agent, BySequence(events));
    case Pulse(agent, beat, now) => HearKeeps(w, agent, beat, now);
    case Desk(s) =>
      Alerts.StepBalanced(w.desk, s);
      DeskStepQuiet(w.desk, s, Journaling);
    case Budgeting(_) =>
  }

  lemma {:induction false} RunKeepsInv(w: World, steps: seq<Step>)
    requires Inv(w) && CanRun(w, steps)
    ensures Inv(After(w, steps))
    decreases |steps|
  {
    if steps != [] {
      StepKeepsInv(w, steps[0]);
      RunKeepsInv(Next(w, steps[0]), steps[1..]);
    }
  }

  function Start(agents: map<Id, Agent>, budgets: seq<Budgets.Budget>): World {
    World(agents, [], EMPTY, Alerts.Desk([], []), budgets)
  }

  lemma AcceptedOne(w: World, agent: Id, e: Event)
    requires agent in w.agents && !Known(w.journal, agent, e.eventId) && Admissible(e, w.agents[agent].lastSequence)
    ensures var v, entry := AdmitAll(w, agent, [e]), EntryOf(agent, w.agents[agent], e);
            && v.journal == w.journal + [entry]
            && v.agents == w.agents[agent := w.agents[agent].(lastSequence := e.sequence)]
            && v.tables == Project(w.tables, entry)
  {
  }

  lemma BatchOfOne(w: World, agent: Id, e: Event)
    requires Inv(w) && agent in w.agents && NewDraws(w.journal, [e]) && e.agentKey == w.agents[agent].key
    ensures CanRun(w, [Batch(agent, [e])]) && After(w, [Batch(agent, [e])]) == AdmitAll(w, agent, [e])
    ensures Inv(AdmitAll(w, agent, [e]))
  {
    var step := Batch(agent, [e]);
    SortedStays([e]);
    assert Enabled(w, step) && Next(w, step) == AdmitAll(w, agent, [e]);
    assert [step][1..] == [];
    StepKeepsInv(w, step);
  }

  /** A batch of one acceptable event, as a run. */
  lemma OneBatch(w: World, agent: Id, e: Event) returns (v: World, step: Step)
    requires Inv(w) && agent in w.agents && NewDraws(w.journal, [e]) && e.agentKey == w.agents[agent].key
    requires !Known(w.journal, agent, e.eventId) && Admissible(e, w.agents[agent].lastSequence)
    ensures CanRun(w, [step]) && v == After(w, [step]) && Inv(v)
    ensures v.journal == w.journal + [EntryOf(agent, w.agents[agent], e)]
    ensures v.agents == w.agents[agent := w.agents[agent].(lastSequence := e.sequence)]
    ensures v.tables == Project(w.tables, EntryOf(agent, w.agents[agent], e))
  {
    AcceptedOne(w, agent, e);
    BatchOfOne(w, agent, e);
    step, v := Batch(agent, [e]), AdmitAll(w, agent, [e]);
  }

  /**
   In every reachable state the derived tables are the replay of the journal; each agent's
   sequences rise, below what it has reached, with no identifier twice; and the ingest's rows of
   the outbox are exactly what that journal publishes, in order.
   */
  lemma JournalIsTheTruth(agents: map<Id, Agent>, budgets: seq<Budgets.Budget>, steps: seq<Step>)
    requires CanRun(Start(agents, budgets), steps)
    ensures var w := After(Start(agents, budgets), steps);
            && w.tables == Replay(w.journal)
            && IngestRows(w.desk.outbox) == Published(w.journal)
            && (forall i | 0 <= i < |w.journal| ::
                  w.journal[i].agent in w.agents && w.journal[i].sequence <= w.agents[w.journal[i].agent].lastSequence)
            && (forall i, j | 0 <= i < j < |w.journal| && w.journal[i].agent == w.journal[j].agent ::
                  w.journal[i].sequence < w.journal[j].sequence && w.journal[i].eventId != w.journal[j].eventId)
  {
    var w := Start(agents, budgets);
    assert Inv(w);
    RunKeepsInv(w, steps);
  }

  /** In every reachable state usage rows have identifiers of their own, as their pages need. */
  lemma UsageIdsDiffer(w: World)
    requires Inv(w)
    ensures Usage.DistinctIds(w.tables.usage)
  {
    forall a, b | a in w.tables.usage && b in w.tables.usage && a.id == b.id
      ensures a == b
    {
      RunLaws.UsageIsFirstReports(w.journal, a);
      RunLaws.UsageIsFirstReports(w.journal, b);
      var i :| 0 <= i < |w.journal| && RunLaws.IsFirst(w.journal, i) && a == RecordOf(w.journal[i]);
      var j :| 0 <= j < |w.journal| && RunLaws.IsFirst(w.journal, j) && b == RecordOf(w.journal[j]);
      assert w.journal[i].usageId == w.journal[j].usageId;
    }
  }

  /** The cost the outbox has told the world of. */
  function AnnouncedCost(rows: seq<Row>): int {
    if rows == [] then 0
    else
      var last := rows[|rows| - 1];
      AnnouncedCost(rows[..|rows| - 1]) + if last.fact.UsageRecorded? then last.fact.cost else 0
  }

  lemma AnnouncedCostSnoc(rows: seq<Row>, row: Row)
    ensures AnnouncedCost(rows + [row]) == AnnouncedCost(rows) + if row.fact.UsageRecorded? then row.fact.cost else 0
  {
    assert (rows + [row])[..|rows|] == rows;
  }

  lemma {:induction false} OnlyIngestCosts(rows: seq<Row>)
    ensures AnnouncedCost(IngestRows(rows)) == AnnouncedCost(rows)
  {
    if rows != [] {
      var last := |rows| - 1;
      OnlyIngestCosts(rows[..last]);
      if FromIngest(rows[last].fact) {
        AnnouncedCostSnoc(IngestRows(rows[..last]), rows[last]);
      } else {
        assert IngestRows(rows) == IngestRows(rows[..last]);
      }
    }
  }

  lemma PublicationCost(t: Tables, rows: seq<Row>, e: Entry)
    requires AnnouncedCost(rows) == SumOver(t.usage, Usage.CostOf)
    ensures AnnouncedCost(rows + Publication(t, e)) == SumOver(Project(t, e).usage, Usage.CostOf)
  {
    AnnouncedCostSnoc(rows, Announcement(e));
    if NewUsage(t, e) {
      var r := RecordOf(e);
      assert SameSource(r, e.tenant, e.eventId);
      AnnouncedCostSnoc(rows + [Announcement(e)], UsageRow(r, e.agent));
      assert rows + Publication(t, e) == rows + [Announcement(e)] + [UsageRow(r, e.agent)];
      SumInsert(t.usage, Usage.CostOf, r);
    }
  }

  lemma {:induction false} PublishedCost(journal: seq<Entry>)
    ensures AnnouncedCost(Published(journal)) == SumOver(Replay(journal).usage, Usage.CostOf)
    decreases |journal|
  {
    if journal != [] {
      var before, e := journal[..|journal| - 1], journal[|journal| - 1];
      PublishedCost(before);
      PublicationCost(Replay(before), Published(before), e);
    }
  }

  /** Money is conserved: what the outbox announces is what the usage table sums to, over any run. */
  lemma AnnouncedIsRecorded(agents: map<Id, Agent>, budgets: seq<Budgets.Budget>, steps: seq<Step>)
    requires CanRun(Start(agents, budgets), steps)
    ensures var w := After(Start(agents, budgets), steps);
            AnnouncedCost(w.desk.outbox) == SumOver(w.tables.usage, Usage.CostOf)
  {
    JournalIsTheTruth(agents, budgets, steps);
    var w := After(Start(agents, budgets), steps);
    OnlyIngestCosts(w.desk.outbox);
    PublishedCost(w.journal);
  }

  /** Budget alerts stay conserved while ingestion, resolutions and budget changes interleave. */
  lemma BudgetAlertsStayConserved(agents: map<Id, Agent>, budgets: seq<Budgets.Budget>, steps: seq<Step>,
                                  tenant: Option<Id>, key: Alerts.Key)
    requires CanRun(Start(agents, budgets), steps)
    ensures var d := After(Start(agents, budgets), steps).desk;
            && Alerts.CountActive(d.alerts, tenant, key) == (if Alerts.HasActive(d.alerts, tenant, key) then 1 else 0)
            && (key.Threshold? ==>
                  && Alerts.BudgetNotices(d.outbox, tenant, key) == Alerts.CountAlerts(d.alerts, tenant, key)
                  && Count(d.outbox, tenant, if key.threshold < 100 then BudgetReached(key.budget, key.threshold)
                                             else BudgetExceeded(key.budget, key.threshold))
                     == Alerts.CountAlerts(d.alerts, tenant, key))
  {
    var w := Start(agents, budgets);
    assert Inv(w);
    RunKeepsInv(w, steps);
    var d := After(w, steps).desk;
    Alerts.ActiveIffCounted(d.alerts, tenant, key);
    assert Alerts.CountActive(d.alerts, tenant, key) <= 1;
  }

  // ---------------------------------------------------------------- agents do not meet

  predicate NotBy(step: Step, agent: Id) {
    step.Batch? ==> step.agent != agent
  }

  lemma {:induction false} AdmitAllJournals(w: World, agent: Id, events: seq<Event>)
    requires agent in w.agents
    ensures w.journal <= AdmitAll(w, agent, events).journal
    ensures forall i | |w.journal| <= i < |AdmitAll(w, agent, events).journal| ::
              AdmitAll(w, agent, events).journal[i].agent == agent
    decreases |events|
  {
    if events != [] { AdmitAllJournals(Admit(w, agent, events[0]), agent, events[1..]); }
  }

  lemma {:induction false} OthersJournal(w: World, steps: seq<Step>, agent: Id)
    requires CanRun(w, steps) && forall s | s in steps :: NotBy(s, agent)
    ensures w.journal <= After(w, steps).journal
    ensures forall i | |w.journal| <= i < |After(w, steps).journal| :: After(w, steps).journal[i].agent != agent
    decreases |steps|
  {
    if steps != [] {
      assert steps[0] in steps;
      var v := Next(w, steps[0]);
      if steps[0].Batch? { AdmitAllJournals(w, steps[0].agent, BySequence(steps[0].events)); }
      assert w.journal <= v.journal && forall i | |w.journal| <= i < |v.journal| :: v.journal[i].agent != agent;
      OthersJournal(v, steps[1..], agent);
    }
  }

  lemma JournalDecides(w: World, v: World, agent: Id)
    requires w.tables == Replay(w.journal) && v.tables == Replay(v.journal) && w.journal <= v.journal
    requires forall i | |w.journal| <= i < |v.journal| :: v.journal[i].agent != agent
    ensures RunLaws.OwnRuns(v.tables, agent) == RunLaws.OwnRuns(w.tables, agent)
    ensures RunLaws.OwnSteps(v.tables, agent) == RunLaws.OwnSteps(w.tables, agent)
  {
    var others := v.journal[|w.journal|..];
    assert v.journal == w.journal + others;
    RunLaws.AgentsAreIsolated(w.journal, others, agent);
  }

  /** Whatever other agents send, and whatever operators do, an agent's runs and steps stay as they are. */
  lemma OthersLeaveRunsAlone(w: World, steps: seq<Step>, agent: Id)
    requires Inv(w) && CanRun(w, steps) && forall s | s in steps :: NotBy(s, agent)
    ensures RunLaws.OwnRuns(After(w, steps).tables, agent) == RunLaws.OwnRuns(w.tables, agent)
    ensures RunLaws.OwnSteps(After(w, steps).tables, agent) == RunLaws.OwnSteps(w.tables, agent)
  {
    var v := After(w, steps);
    RunKeepsInv(w, steps);
    OthersJournal(w, steps, agent);
    JournalDecides(w, v, agent);
  }
}
