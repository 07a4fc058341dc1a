/** The whole service: ingestion and governance side by side, writing to one outbox. */
module Platform {
  import opened Prelude
  import opened Outbox
  import opened Sums
  import Alerts
  import Budgets
  import Catalog
  import Control
  import ControlSafety
  import Ingest
  import JournalSafety
  import Notices
  import Runs
  import Usage

  /** The ingest's desk holds the shared outbox; the control services' own rows are repeated in theirs. */
  datatype World = World(ingest: Ingest.World, control: ControlSafety.World)

  datatype Step = Ingesting(ingestStep: JournalSafety.Step) | Controlling(controlStep: ControlSafety.Step)

  function OutboxOf(w: World): seq<Row> {
    w.ingest.desk.outbox
  }

  function WithOutbox(w: Ingest.World, rows: seq<Row>): Ingest.World {
    w.(desk := w.desk.(outbox := rows))
  }

  /** What the control services appended. */
  function Written(before: Control.Db, after: Control.Db): seq<Row> {
    if |before.outbox| <= |after.outbox| then after.outbox[|before.outbox|..] else []
  }

  /** Governance rows come from the control services alone. */
  ghost predicate Enabled(w: World, step: Step) {
    match step
    case Ingesting(s) =>
      JournalSafety.Enabled(w.ingest, s) && (s.Desk? && s.step.Elsewhere? ==> WriterOf(s.step.row.fact) != Governing)
    case Controlling(s) => ControlSafety.Enabled(w.control, s)
  }

  ghost function Next(w: World, step: Step): World
    requires Enabled(w, step)
  {
    match step
    case Ingesting(s) => w.(ingest := JournalSafety.Next(w.ingest, s))
    case Controlling(s) =>
      var control := ControlSafety.Next(w.control, s);
      World(WithOutbox(w.ingest, OutboxOf(w) + Written(w.control.db, control.db)), control)
  }

  ghost predicate CanRun(w: World, steps: seq<Step>)
    decreases |steps|
  {
    steps == [] || (Enabled(w, steps[0]) && CanRun(Next(w, steps[0]), steps[1..]))
  }

  ghost function After(w: World, steps: seq<Step>): World
    requires CanRun(w, steps)
    decreases |steps|
  {
    if steps == [] then w else After(Next(w, steps[0]), steps[1..])
  }

  ghost predicate Inv(w: World) {
    && JournalSafety.Inv(w.ingest) && ControlSafety.Inv(w.control) && Notices.Sound(w.control.db, w.control.clock)
    && Select(OutboxOf(w), Governing) == w.control.db.outbox
  }

  // ---------------------------------------------------------------- governance rows and the ingest

  lemma {:induction false} ForeignRowsBalance(d: Alerts.Desk, more: seq<Row>)
    requires Alerts.Balanced(d) && Adds(d.outbox, more, Governing)
    ensures Alerts.Balanced(d.(outbox := more))
    decreases |more|
  {
    if |more| == |d.outbox| {
      assert more == d.outbox;
    } else {
      var last := |more| - 1;
      ForeignRowsBalance(d, more[..last]);
      Alerts.EmitForeign(d.(outbox := more[..last]), more[last]);
      assert more == more[..last] + [more[last]];
    }
  }

  lemma AppendKeepsIngest(w: Ingest.World, more: seq<Row>)
    requires JournalSafety.Inv(w) && Adds(w.desk.outbox, more, Governing)
    ensures JournalSafety.Inv(WithOutbox(w, more))
  {
    ForeignRowsBalance(w.desk, more);
    SelectAdds(w.desk.outbox, more, Governing, Journaling);
  }

  lemma WrittenIsAdded(rows: seq<Row>, before: Control.Db, after: Control.Db)
    requires Adds(before.outbox, after.outbox, Governing) && Select(rows, Governing) == before.outbox
    ensures Adds(rows, rows + Written(before, after), Governing)
    ensures Select(rows + Written(before, after), Governing) == after.outbox
    ensures Select(rows + Written(before, after), Journaling) == Select(rows, Journaling)
  {
    var more := rows + Written(before, after);
    SelectAdds(rows, more, Governing, Governing);
    SelectAdds(rows, more, Governing, Journaling);
    assert more[|rows|..] == Written(before, after);
  }

  lemma ControllingKeeps(w: World, step: ControlSafety.Step)
    requires Inv(w) && Enabled(w, Controlling(step))
    ensures Inv(Next(w, Controlling(step)))
  {
    var control := ControlSafety.Next(w.control, step);
    var more := OutboxOf(w) + Written(w.control.db, control.db);
    ControlSafety.StepKeepsInv(w.control, step);
    Notices.StepKeepsSound(w.control, step);
    Notices.StepWrites(w.control, step);
    WrittenIsAdded(OutboxOf(w), w.control.db, control.db);
    AppendKeepsIngest(w.ingest, more);
  }

  // ---------------------------------------------------------------- the ingest and governance rows

  lemma AdmitQuiet(w: Ingest.World, agent: Id, e: Ingest.Event)
    requires agent in w.agents
    ensures Select(Ingest.Admit(w, agent, e).desk.outbox, Governing) == Select(w.desk.outbox, Governing)
  {
    if Ingest.Judge(w, agent, e).Accepted? {
      var entry := Ingest.EntryOf(agent, w.agents[agent], e);
      var row := Ingest.Announcement(entry);
      SelectSnoc(w.desk.outbox, row, Governing);
      if Runs.NewUsage(w.tables, entry) {
        var cost, announced := Ingest.UsageRow(Runs.RecordOf(entry), agent), w.desk.outbox + [row];
        SelectSnoc(announced, cost, Governing);
        JournalSafety.EvaluateQuiet(w.desk.(outbox := announced + [cost]), w.budgets,
                                    Budgets.Subject(w.agents[agent].tenant, Some(agent), Runs.Parse(e.project)),
                                    Runs.Project(w.tables, entry).usage, e.occurredAt.value, Governing);
      }
    }
  }

  lemma {:induction false} AdmitAllQuiet(w: Ingest.World, agent: Id, events: seq<Ingest.Event>)
    requires agent in w.agents
    ensures Select(Ingest.AdmitAll(w, agent, events).desk.outbox, Governing) == Select(w.desk.outbox, Governing)
    decreases |events|
  {
    if events != [] {
      AdmitQuiet(w, agent, events[0]);
      AdmitAllQuiet(Ingest.Admit(w, agent, events[0]), agent, events[1..]);
    }
  }

  lemma HearQuiet(w: Ingest.World, agent: Id, beat: Ingest.Beat, now: Time)
    requires agent in w.agents
    ensures Select(Ingest.Hear(w, agent, beat, now).0.desk.outbox, Governing) == Select(w.desk.outbox, Governing)
  {
    var rows := Ingest.Hear(w, agent, beat, now).0.desk.outbox;
    if rows != w.desk.outbox { SelectSnoc(w.desk.outbox, rows[|w.desk.outbox|], Governing); }
  }

  lemma IngestingKeeps(w: World, step: JournalSafety.Step)
    requires Inv(w) && Enabled(w, Ingesting(step))
    ensures Inv(Next(w, Ingesting(step)))
  {
    JournalSafety.StepKeepsInv(w.ingest, step);
    match step
    case Batch(agent, events) => AdmitAllQuiet(w.ingest, agent, Ingest.BySequence(events));
    case Pulse(agent, beat, now) => HearQuiet(w.ingest, agent, beat, now);
    case Desk(s) => JournalSafety.DeskStepQuiet(w.ingest.desk, s, Governing);
    case Budgeting(_) =>
  }

  lemma {:induction false} RunKeepsInv(w: World, steps: seq<Step>)
    requires Inv(w) && CanRun(w, steps)
    ensures Inv(After(w, steps))
    decreases |steps|
  {
    if steps != [] {
      match steps[0] {
        case Ingesting(s) => IngestingKeeps(w, s);
        case Controlling(s) => ControllingKeeps(w, s);
      }
      RunKeepsInv(Next(w, steps[0]), steps[1..]);
    }
  }

  // ---------------------------------------------------------------- over whole runs

  ghost function Start(agents: map<Id, Ingest.Agent>, budgets: seq<Budgets.Budget>,
                       runs: map<Id, Control.RunRef>, clock: Time): World {
    World(JournalSafety.Start(agents, budgets), ControlSafety.Start(runs, agents.Keys, clock))
  }

  ghost predicate Reachable(w: World) {
    exists agents, budgets, runs, clock, steps ::
      CanRun(Start(agents, budgets, runs, clock), steps) && w == After(Start(agents, budgets, runs, clock), steps)
  }

  lemma ReachableIsSound(w: World)
    requires Reachable(w)
    ensures Inv(w)
  {
    var agents, budgets, runs, clock, steps :|
      CanRun(Start(agents, budgets, runs, clock), steps) && w == After(Start(agents, budgets, runs, clock), steps);
    Notices.StartIsSound(runs, agents.Keys, clock);
    assert Inv(Start(agents, budgets, runs, clock));
    RunKeepsInv(Start(agents, budgets, runs, clock), steps);
  }

  /**
   In every reachable state the one outbox holds, in order, exactly what the journal publishes and exactly
   what the control services wrote, and the cost it announces is what the usage table sums to.
   */
  lemma OneOutbox(w: World)
    requires Reachable(w)
    ensures Select(OutboxOf(w), Journaling) == JournalSafety.Published(w.ingest.journal)
    ensures Select(OutboxOf(w), Governing) == w.control.db.outbox
    ensures JournalSafety.AnnouncedCost(OutboxOf(w)) == SumOver(w.ingest.tables.usage, Usage.CostOf)
  {
    ReachableIsSound(w);
    JournalSafety.OnlyIngestCosts(OutboxOf(w));
    JournalSafety.PublishedCost(w.ingest.journal);
  }

  lemma {:induction false} SelectMembers(rows: seq<Row>, w: Writer, row: Row)
    ensures row in Select(rows, w) <==> row in rows && WriterOf(row.fact) == w
  {
    if rows != [] {
      var last := |rows| - 1;
      SelectMembers(rows[..last], w, row);
      assert rows == rows[..last] + [rows[last]];
    }
  }

  /** The row is a queue notice of the service itself, and names the command. */
  predicate NamesQueued(row: Row, id: Id) {
    Unnumbered(row.fact, "command.queued") && row.fact == QueueNotice(Some(id))
  }

  lemma NamedAmongAll(rows: seq<Row>, id: Id)
    ensures (exists row :: row in rows && NamesQueued(row, id)) <==>
            exists row :: row in Select(rows, Governing) && Notices.Names(row, id)
  {
    if row :| row in rows && NamesQueued(row, id) {
      SelectMembers(rows, Governing, row);
      assert Notices.Names(row, id);
    }
    if row :| row in Select(rows, Governing) && Notices.Names(row, id) {
      SelectMembers(rows, Governing, row);
      assert NamesQueued(row, id);
    }
  }

  /**
   Among the rows the service wrote, the shared outbox names a command as queued exactly when the command
   was held by an approval and has been released.
   */
  lemma QueuedIsNamedExactly(w: World, id: Id)
    requires Reachable(w)
    ensures var commands := w.control.db.commands;
            (exists row :: row in OutboxOf(w) && NamesQueued(row, id)) <==>
            (id in commands && commands[id].approval.Some? && commands[id].releasedAt.Some?)
  {
    ReachableIsSound(w);
    Notices.NamedIfReleased(w.control.db, id);
    NamedAmongAll(OutboxOf(w), id);
  }

  // ---------------------------------------------------------------- producers

  ghost predicate FromProducer(w: World, row: Row) {
    exists k :: 0 <= k < |w.ingest.journal| && row == Ingest.Announcement(w.ingest.journal[k])
  }

  lemma {:induction false} PublishedEvent(journal: seq<Runs.Entry>, row: Row)
    requires row in JournalSafety.Published(journal) && row.fact.Ingested?
    ensures exists k :: 0 <= k < |journal| && row == Ingest.Announcement(journal[k])
    decreases |journal|
  {
    var last := |journal| - 1;
    if row in JournalSafety.Published(journal[..last]) {
      PublishedEvent(journal[..last], row);
      var k :| 0 <= k < last && row == Ingest.Announcement(journal[..last][k]);
      assert row == Ingest.Announcement(journal[k]);
    } else {
      assert row in JournalSafety.Publication(Runs.Replay(journal[..last]), journal[last]);
      assert row == Ingest.Announcement(journal[last]);
    }
  }

  /**
   A producer may send any type of the catalogue, those of the service included. Heartbeats aside, a row
   of the outbox repeats a producer's event exactly when it has a sequence.
   */
  lemma NumberedIsFromProducer(w: World, row: Row)
    requires Reachable(w) && row in OutboxOf(w) && EventType(row.fact) != "agent.heartbeat"
    ensures Sequence(row.fact).Some? <==> FromProducer(w, row)
  {
    ReachableIsSound(w);
    if Sequence(row.fact).Some? {
      assert row.fact.Ingested?;
      SelectMembers(OutboxOf(w), Journaling, row);
      PublishedEvent(w.ingest.journal, row);
    }
  }

  function Claimant(): Ingest.Agent {
    Ingest.Agent("a", None, 0, Ingest.Idle, "", 0, None)
  }

  function Claim(): Ingest.Event {
    Ingest.Event(1, "x", "a", 1, Catalog.OtherKnown("command.queued"), Some(Budgets.Moment(0, 0, 1)), Runs.NoId, Runs.NoId,
                 Runs.Payload(Runs.NoId, "", "", "", Runs.Absent, Runs.Absent, "", "", None, None, None,
                              Runs.Absent, Runs.Absent, Runs.Absent, Runs.Absent), 1)
  }

  /** So the outbox can speak of a queued command where there is no command at all. */
  lemma QueuedWithoutACommand() returns (w: World, row: Row)
    ensures Reachable(w) && w.control.db.commands == map[]
    ensures row in OutboxOf(w) && EventType(row.fact) == "command.queued" && FromProducer(w, row)
  {
    var agents := map[1 := Claimant()];
    var start := Start(agents, [], map[], 0);
    assert JournalSafety.Inv(start.ingest);
    var v, batch := JournalSafety.OneBatch(start.ingest, 1, Claim());
    OneStep(start, batch, v);
    w, row := start.(ingest := v), Ingest.Announcement(v.journal[0]);
    JournalSafety.PlaceHolds(v.journal, 0);
    assert row in JournalSafety.Published(v.journal);
    SelectMembers(v.desk.outbox, Journaling, row);
    assert CanRun(Start(agents, [], map[], 0), [Ingesting(batch)]) && w == After(Start(agents, [], map[], 0), [Ingesting(batch)]);
  }

  lemma OneStep(w: World, batch: JournalSafety.Step, v: Ingest.World)
    requires batch.Batch? && JournalSafety.CanRun(w.ingest, [batch]) && v == JournalSafety.After(w.ingest, [batch])
    ensures CanRun(w, [Ingesting(batch)]) && After(w, [Ingesting(batch)]) == w.(ingest := v)
  {
    assert [batch][1..] == [] && [Ingesting(batch)][1..] == [];
  }
}
