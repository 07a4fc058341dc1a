/** The ingest of event batches and heartbeats: one journal, one outbox, projections in the same transaction. */
module Ingest {
  import opened Prelude
  import opened Catalog
  import opened Outbox
  import opened Runs
  import Alerts
  import Budgets
  import Usage

  const BATCH_MAX := 200

  /** An envelope as a producer sends it; an unreadable date is absent. */
  datatype Event = Event(id: Id, eventId: string, agentKey: string, sequence: nat, kind: Kind, occurredAt: Option<Budgets.Moment>,
                         run: RawId, project: RawId, payload: Payload, usageId: Id)

  datatype AgentState = Idle | Working | Blocked | Done | Error | Stale

  datatype Agent = Agent(key: string, tenant: Option<Id>, lastSequence: int, state: AgentState,
                         task: string, progress: int, lastHeartbeat: Option<Time>)

  datatype World = World(agents: map<Id, Agent>, journal: seq<Entry>, tables: Tables, desk: Alerts.Desk, budgets: seq<Budgets.Budget>)

  // ---------------------------------------------------------------- one event

  predicate Known(journal: seq<Entry>, agent: Id, eventId: string) {
    exists i :: 0 <= i < |journal| && journal[i].agent == agent && journal[i].eventId == eventId
  }

  datatype Verdict = Accepted | Duplicate | Rejected

  /** Duplicates first, then the catalogue, the date, and the sequence. */
  predicate Admissible(e: Event, lastSequence: int) {
    !e.kind.Uncatalogued? && e.occurredAt.Some? && e.sequence > lastSequence
  }

  function Judge(w: World, agent: Id, e: Event): Verdict
    requires agent in w.agents
  {
    if Known(w.journal, agent, e.eventId) then Duplicate
    else if Admissible(e, w.agents[agent].lastSequence) then Accepted
    else Rejected
  }

  function EntryOf(agent: Id, a: Agent, e: Event): Entry
    requires e.occurredAt.Some?
  {
    Entry(e.id, a.tenant, agent, e.eventId, e.sequence, e.kind, e.occurredAt.value, e.run, e.project, e.payload, e.usageId)
  }

  predicate Blank(raw: RawId) {
    raw.NoId? || (raw.Junk? && raw.text == "")
  }

  function TopicOf(e: Entry): Topic {
    if !Blank(e.run) then (if e.run.Uuid? then OfRun(e.run.id) else OfUnknownRun(e.run.text))
    else if e.kind.AgentNoted? then OfAgent(e.agent)
    else if !Blank(e.project) then (if e.project.Uuid? then OfProject(e.project.id) else OfUnknownProject(e.project.text))
    else Fleet
  }

  /** The outbox row written with a journal row. */
  function Announcement(e: Entry): Row {
    Row(e.tenant, TopicOf(e), Ingested(e.eventId, e.kind, e.sequence))
  }

  function UsageRow(r: Usage.Record, agent: Id): Row {
    Row(r.tenant, if r.run.Some? then OfRun(r.run.value) else OfAgent(agent), UsageRecorded(r.id, r.cost))
  }

  /** The desk after a journaled event: announced, and if it is new usage, priced and held against the budgets. */
  ghost function DeskAfter(w: World, agent: Id, e: Event): Alerts.Desk
    requires agent in w.agents && e.occurredAt.Some?
  {
    var a := w.agents[agent];
    var entry := EntryOf(agent, a, e);
    var announced := w.desk.(outbox := w.desk.outbox + [Announcement(entry)]);
    if !NewUsage(w.tables, entry) then announced
    else
      Alerts.Evaluate(announced.(outbox := announced.outbox + [UsageRow(RecordOf(entry), agent)]), w.budgets,
                      Budgets.Subject(a.tenant, Some(agent), Parse(e.project)),
                      Project(w.tables, entry).usage, e.occurredAt.value)
  }

  /** Journal, outbox and projections move together; the agent's sequence is the event's. */
  ghost function Accept(w: World, agent: Id, e: Event): World
    requires agent in w.agents && e.occurredAt.Some?
  {
    var a := w.agents[agent];
    var entry := EntryOf(agent, a, e);
    w.(agents := w.agents[agent := a.(lastSequence := e.sequence)],
       journal := w.journal + [entry],
       tables := Project(w.tables, entry),
       desk := DeskAfter(w, agent, e))
  }

  ghost function Admit(w: World, agent: Id, e: Event): World
    requires agent in w.agents
  {
    if Judge(w, agent, e).Accepted? then Accept(w, agent, e) else w
  }

  // ---------------------------------------------------------------- a batch

  /** Events one by one, each in a transaction of its own. */
  ghost function AdmitAll(w: World, agent: Id, events: seq<Event>): World
    requires agent in w.agents
    decreases |events|
  {
    if events == [] then w else AdmitAll(Admit(w, agent, events[0]), agent, events[1..])
  }

  ghost function Tally(w: World, agent: Id, events: seq<Event>, v: Verdict): nat
    requires agent in w.agents
    decreases |events|
  {
    if events == [] then 0
    else (if Judge(w, agent, events[0]) == v then 1 else 0) + Tally(Admit(w, agent, events[0]), agent, events[1..], v)
  }

  function InsertBySequence(e: Event, sorted: seq<Event>): seq<Event> {
    if sorted == [] || e.sequence <= sorted[0].sequence then [e] + sorted
    else [sorted[0]] + InsertBySequence(e, sorted[1..])
  }

  /** A stable sort: equal sequences keep their order. */
  function BySequence(events: seq<Event>): seq<Event> {
    if events == [] then [] else InsertBySequence(events[0], BySequence(events[1..]))
  }

  datatype Reply = TooLarge | WrongAgent | Report(accepted: nat, duplicates: nat, rejected: nat, lastSequence: int)

  ghost predicate AllFrom(events: seq<Event>, key: string) {
    forall e | e in events :: e.agentKey == key
  }

  ghost function IngestBatch(w: World, agent: Id, events: seq<Event>): (World, Reply)
    requires agent in w.agents
  {
    if |events| > BATCH_MAX then (w, TooLarge)
    else if !AllFrom(events, w.agents[agent].key) then (w, WrongAgent)
    else
      var q := BySequence(events);
      var w' := AdmitAll(w, agent, q);
      AdmitAllKeepsAgents(w, agent, q);
      (w', Report(Tally(w, agent, q, Accepted), Tally(w, agent, q, Duplicate), Tally(w, agent, q, Rejected),
                  w'.agents[agent].lastSequence))
  }

  lemma {:induction false} AdmitAllKeepsAgents(w: World, agent: Id, events: seq<Event>)
    requires agent in w.agents
    ensures agent in AdmitAll(w, agent, events).agents
    ensures AdmitAll(w, agent, events).agents.Keys == w.agents.Keys
    decreases |events|
  {
    if events != [] { AdmitAllKeepsAgents(Admit(w, agent, events[0]), agent, events[1..]); }
  }

  // ---------------------------------------------------------------- heartbeats

  /** A state outside the enumeration is absent. */
  datatype Beat = Beat(agentKey: string, state: Option<AgentState>, task: Option<string>, progress: Option<int>, sequence: Option<nat>)

  datatype BeatReply = Foreign | Invalid | Seen(applied: bool)

  function Beaten(a: Agent, b: Beat): Agent
    requires b.state.Some?
  {
    a.(state := b.state.value,
       task := if b.task.Some? then b.task.value else a.task,
       progress := if b.progress.Some? then b.progress.value else a.progress,
       lastSequence := if b.sequence.Some? && b.sequence.value > a.lastSequence then b.sequence.value else a.lastSequence)
  }

  /** An old heartbeat proves liveness and nothing else. */
  function Hear(w: World, agent: Id, b: Beat, now: Time): (World, BeatReply)
    requires agent in w.agents
  {
    var a := w.agents[agent];
    if b.agentKey != a.key then (w, Foreign)
    else if b.state.None? || b.state.value == Stale then (w, Invalid)
    else if b.sequence.Some? && b.sequence.value < a.lastSequence then
      (w.(agents := w.agents[agent := a.(lastHeartbeat := Some(now))]), Seen(false))
    else
      var beat := if b.sequence.Some? then Some(b.sequence.value as int) else None;
      (w.(agents := w.agents[agent := Beaten(a, b).(lastHeartbeat := Some(now))],
          desk := w.desk.(outbox := w.desk.outbox + [Row(a.tenant, OfAgent(agent), Heartbeat(agent, beat))])), Seen(true))
  }

  // ---------------------------------------------------------------- the services

  /** The world with the sequence the batch has reached so far. */
  function Reached(w: World, agent: Id, lastSequence: int): World
    requires agent in w.agents
  {
    w.(agents := w.agents[agent := w.agents[agent].(lastSequence := lastSequence)])
  }

  class Service {
    var agents: map<Id, Agent>
    var journal: seq<Entry>
    var budgets: seq<Budgets.Budget>
    const store: RunStore
    const desk: Alerts.AlertDesk

    ghost function View(): World
      reads this, store, desk
    {
      World(agents, journal, store.View(), desk.View(), budgets)
    }

    constructor (agents: map<Id, Agent>, budgets: seq<Budgets.Budget>)
      ensures View().agents == agents && View().journal == [] && View().tables == EMPTY && View().budgets == budgets
      ensures fresh(store) && fresh(desk)
    {
      this.agents, journal, this.budgets := agents, [], budgets;
      store := new RunStore();
      desk := new Alerts.AlertDesk();
    }

    method ProjectRunOf(e: Entry)
      modifies store
      ensures store.View() == if e.kind.UsageReported? then old(store.View()) else Project(old(store.View()), e)
    {
      match e.kind
      case StepNoted(verb) => store.ProjectStepEvent(e, verb);
      case RunBecame(s) => store.ProjectRunEvent(e, s);
      case _ =>
    }

    method ProjectUsageOf(e: Entry)
      requires e.kind.UsageReported?
      modifies store`usage, desk
      ensures store.View() == Project(old(store.View()), e)
      ensures desk.View() ==
              if !NewUsage(old(store.View()), e) then old(desk.View())
              else Alerts.Evaluate(old(desk.View()).(outbox := old(desk.View()).outbox + [UsageRow(RecordOf(e), e.agent)]), budgets,
                                   Budgets.Subject(e.tenant, Some(e.agent), Parse(e.project)),
                                   Project(old(store.View()), e).usage, e.at)
    {
      var created := store.RecordUsage(e);
      if created {
        desk.outbox := desk.outbox + [UsageRow(RecordOf(e), e.agent)];
        desk.EvaluateBudgets(budgets, Budgets.Subject(e.tenant, Some(e.agent), Parse(e.project)), store.usage, e.at);
      }
    }

    /** Journal one event, announce it, project it. */
    method Journal(agent: Id, e: Event)
      requires agent in agents && e.occurredAt.Some?
      modifies this`journal, store, desk
      ensures journal == old(journal) + [EntryOf(agent, agents[agent], e)]
      ensures store.View() == Project(old(store.View()), EntryOf(agent, agents[agent], e))
      ensures desk.View() == DeskAfter(old(View()), agent, e)
    {
      var a := agents[agent];
      var entry := EntryOf(agent, a, e);
      journal := journal + [entry];
      desk.outbox := desk.outbox + [Announcement(entry)];
      ProjectRunOf(entry);
      if e.kind.UsageReported? {
        ProjectUsageOf(entry);
      }
    }

    /** A bounded batch: refused whole, or sorted and taken event by event in one transaction. */
    method IngestEvents(agent: Id, events: seq<Event>) returns (reply: Reply)
      requires agent in agents
      modifies this, store, desk
      ensures (View(), reply) == IngestBatch(old(View()), agent, events)
    {
      if |events| > BATCH_MAX { return TooLarge; }
      for i := 0 to |events|
        invariant forall j | 0 <= j < i :: events[j].agentKey == agents[agent].key
      {
        if events[i].agentKey != agents[agent].key {
          assert events[i] in events;
          return WrongAgent;
        }
      }
      reply := TakeBatch(agent, BySequence(events));
    }

    method TakeBatch(agent: Id, q: seq<Event>) returns (reply: Reply)
      requires agent in agents
      modifies this, store, desk
      ensures View() == AdmitAll(old(View()), agent, q) && agent in View().agents
      ensures reply == Report(Tally(old(View()), agent, q, Accepted), Tally(old(View()), agent, q, Duplicate),
                              Tally(old(View()), agent, q, Rejected), View().agents[agent].lastSequence)
    {
      var existing := set i | 0 <= i < |journal| && journal[i].agent == agent && InBatch(q, journal[i].eventId) :: journal[i].eventId;
      var seen: set<string> := {};
      var accepted, duplicates, rejected := 0, 0, 0;
      var lastSeq := agents[agent].lastSequence;
      ghost var start := View();
      assert Reached(start, agent, lastSeq) == start && q[0..] == q;
      var i := 0;
      while i < |q|
        invariant 0 <= i <= |q| && agents == start.agents
        invariant Midway(View(), start, agent, q, i, lastSeq, existing + seen, accepted, duplicates, rejected)
      {
        var e := q[i];
        ghost var before := View();
        ghost var ids := existing + seen;
        if e.eventId in existing || e.eventId in seen {
          TakeDuplicate(before, start, agent, q, i, lastSeq, ids, accepted, duplicates, rejected);
          duplicates := duplicates + 1;
        } else if e.kind.Uncatalogued? || e.occurredAt.None? || e.sequence <= lastSeq {
          TakeRejected(before, start, agent, q, i, lastSeq, ids, accepted, duplicates, rejected);
          rejected := rejected + 1;
        } else {
          seen := seen + {e.eventId};
          Journal(agent, e);
          assert existing + seen == ids + {e.eventId};
          TakeAccepted(before, View(), start, agent, q, i, lastSeq, ids, accepted, duplicates, rejected);
          lastSeq := e.sequence;
          accepted := accepted + 1;
        }
        i := i + 1;
      }
      agents := agents[agent := agents[agent].(lastSequence := lastSeq)];
      reply := Report(accepted, duplicates, rejected, lastSeq);
    }

    method HearBeat(agent: Id, b: Beat, now: Time) returns (reply: BeatReply)
      requires agent in agents
      modifies this`agents, desk`outbox
      ensures (View(), reply) == Hear(old(View()), agent, b, now)
    {
      var a := agents[agent];
      if b.agentKey != a.key { return Foreign; }
      if b.state.None? || b.state.value == Stale { return Invalid; }
      var late := b.sequence.Some? && b.sequence.value < a.lastSequence;
      a := a.(lastHeartbeat := Some(now));
      if !late {
        a := a.(state := b.state.value);
        if b.task.Some? { a := a.(task := b.task.value); }
        if b.progress.Some? { a := a.(progress := b.progress.value); }
        if b.sequence.Some? && b.sequence.value > a.lastSequence { a := a.(lastSequence := b.sequence.value); }
        var beat := if b.sequence.Some? then Some(b.sequence.value as int) else None;
        desk.outbox := desk.outbox + [Row(a.tenant, OfAgent(agent), Heartbeat(agent, beat))];
      }
      agents := agents[agent := a];
      reply := Seen(!late);
    }
  }

  predicate InBatch(q: seq<Event>, eventId: string) {
    exists i :: 0 <= i < |q| && q[i].eventId == eventId
  }

  /** The set holds exactly the batch's identifiers this agent has journaled. */
  ghost predicate Remembers(journal: seq<Entry>, agent: Id, q: seq<Event>, ids: set<string>) {
    forall id | InBatch(q, id) :: id in ids <==> Known(journal, agent, id)
  }

  lemma RemembersMore(journal: seq<Entry>, agent: Id, q: seq<Event>, ids: set<string>, entry: Entry)
    requires Remembers(journal, agent, q, ids) && entry.agent == agent
    ensures Remembers(journal + [entry], agent, q, ids + {entry.eventId})
  {
    forall id | InBatch(q, id)
      ensures Known(journal + [entry], agent, id) <==> id == entry.eventId || Known(journal, agent, id)
    {
      KnownSnoc(journal, entry, agent, id);
    }
  }

  lemma KnownSnoc(journal: seq<Entry>, entry: Entry, agent: Id, id: string)
    ensures Known(journal + [entry], agent, id) <==> Known(journal, agent, id) || (entry.agent == agent && entry.eventId == id)
  {
    var more := journal + [entry];
    if i :| 0 <= i < |journal| && journal[i].agent == agent && journal[i].eventId == id {
      assert more[i] == journal[i];
    }
    assert more[|journal|] == entry;
  }

  /** Events up to i are taken; what remains leads to the batch's end, and the counters to its tallies. */
  ghost predicate Midway(view: World, start: World, agent: Id, q: seq<Event>, i: nat, lastSeq: int, ids: set<string>,
                         accepted: int, duplicates: int, rejected: int)
  {
    && agent in view.agents && agent in start.agents && i <= |q|
    && Remembers(view.journal, agent, q, ids)
    && var w := Reached(view, agent, lastSeq);
       && AdmitAll(w, agent, q[i..]) == AdmitAll(start, agent, q)
       && accepted + Tally(w, agent, q[i..], Accepted) == Tally(start, agent, q, Accepted)
       && duplicates + Tally(w, agent, q[i..], Duplicate) == Tally(start, agent, q, Duplicate)
       && rejected + Tally(w, agent, q[i..], Rejected) == Tally(start, agent, q, Rejected)
  }

  lemma NextOfBatch(w: World, agent: Id, q: seq<Event>, i: nat)
    requires agent in w.agents && i < |q|
    ensures InBatch(q, q[i].eventId)
    ensures AdmitAll(w, agent, q[i..]) == AdmitAll(Admit(w, agent, q[i]), agent, q[i + 1..])
    ensures forall v :: Tally(w, agent, q[i..], v) ==
                        (if Judge(w, agent, q[i]) == v then 1 else 0) + Tally(Admit(w, agent, q[i]), agent, q[i + 1..], v)
  {
    assert q[i..][0] == q[i] && q[i..][1..] == q[i + 1..];
  }

  lemma TakeDuplicate(view: World, start: World, agent: Id, q: seq<Event>, i: nat, lastSeq: int, ids: set<string>,
                      accepted: int, duplicates: int, rejected: int)
    requires i < |q| && Midway(view, start, agent, q, i, lastSeq, ids, accepted, duplicates, rejected) && q[i].eventId in ids
    ensures Midway(view, start, agent, q, i + 1, lastSeq, ids, accepted, duplicates + 1, rejected)
  {
    var w := Reached(view, agent, lastSeq);
    NextOfBatch(w, agent, q, i);
    assert Judge(w, agent, q[i]) == Duplicate;
  }

  lemma TakeRejected(view: World, start: World, agent: Id, q: seq<Event>, i: nat, lastSeq: int, ids: set<string>,
                     accepted: int, duplicates: int, rejected: int)
    requires i < |q| && Midway(view, start, agent, q, i, lastSeq, ids, accepted, duplicates, rejected)
    requires q[i].eventId !in ids && !Admissible(q[i], lastSeq)
    ensures Midway(view, start, agent, q, i + 1, lastSeq, ids, accepted, duplicates, rejected + 1)
  {
    var w := Reached(view, agent, lastSeq);
    NextOfBatch(w, agent, q, i);
    assert Judge(w, agent, q[i]) == Rejected;
  }

  lemma TakeAccepted(view: World, next: World, start: World, agent: Id, q: seq<Event>, i: nat, lastSeq: int, ids: set<string>,
                     accepted: int, duplicates: int, rejected: int)
    requires i < |q| && Midway(view, start, agent, q, i, lastSeq, ids, accepted, duplicates, rejected)
    requires q[i].eventId !in ids && Admissible(q[i], lastSeq)
    requires next == view.(journal := view.journal + [EntryOf(agent, view.agents[agent], q[i])],
                           tables := Project(view.tables, EntryOf(agent, view.agents[agent], q[i])),
                           desk := DeskAfter(view, agent, q[i]))
    ensures Midway(next, start, agent, q, i + 1, q[i].sequence, ids + {q[i].eventId}, accepted + 1, duplicates, rejected)
  {
    var e, w := q[i], Reached(view, agent, lastSeq);
    NextOfBatch(w, agent, q, i);
    assert Judge(w, agent, e) == Accepted;
    SameDesk(view, agent, lastSeq, e);
    assert Reached(next, agent, e.sequence) == Accept(w, agent, e);
    RemembersMore(view.journal, agent, q, ids, EntryOf(agent, view.agents[agent], e));
  }

  lemma SameDesk(view: World, agent: Id, lastSeq: int, e: Event)
    requires agent in view.agents && e.occurredAt.Some?
    ensures DeskAfter(Reached(view, agent, lastSeq), agent, e) == DeskAfter(view, agent, e)
  {
  }
}
