/** The journal over whole runs: batches are folds, replays are silent, projections are replays. */
module IngestLaws {
  import opened Prelude
  import opened Ordering
  import opened Runs
  import opened Ingest
  import opened Outbox
  import Alerts
  import Budgets
  import Catalog
  import Pricing
  import Usage

  // ---------------------------------------------------------------- sorting

  predicate Sorted(q: seq<Event>) {
    forall i, j | 0 <= i < j < |q| :: q[i].sequence <= q[j].sequence
  }

  lemma {:induction false} InsertMembers(e: Event, q: seq<Event>)
    ensures multiset(InsertBySequence(e, q)) == multiset{e} + multiset(q)
  {
    if q != [] && e.sequence > q[0].sequence {
      InsertMembers(e, q[1..]);
      assert q == [q[0]] + q[1..];
    }
  }

  predicate AtLeast(q: seq<Event>, n: int) {
    forall i | 0 <= i < |q| :: q[i].sequence >= n
  }

  lemma {:induction false} InsertAtLeast(e: Event, q: seq<Event>, n: int)
    requires AtLeast(q, n) && e.sequence >= n
    ensures AtLeast(InsertBySequence(e, q), n)
  {
    if q != [] && e.sequence > q[0].sequence {
      InsertAtLeast(e, q[1..], n);
    }
  }

  lemma SortedCons(first: Event, rest: seq<Event>)
    requires Sorted(rest) && AtLeast(rest, first.sequence)
    ensures Sorted([first] + rest)
  {
  }

  lemma {:induction false} InsertSorted(e: Event, q: seq<Event>)
    requires Sorted(q)
    ensures Sorted(InsertBySequence(e, q))
  {
    if q == [] {
    } else if e.sequence <= q[0].sequence {
      SortedCons(e, q);
    } else {
      InsertSorted(e, q[1..]);
      InsertAtLeast(e, q[1..], q[0].sequence);
      SortedCons(q[0], InsertBySequence(e, q[1..]));
    }
  }

  /** The events of one sequence number, in order. */
  function OfSequence(events: seq<Event>, n: nat): seq<Event> {
    if events == [] then [] else (if events[0].sequence == n then [events[0]] else []) + OfSequence(events[1..], n)
  }

  lemma OfSequenceCons(e: Event, q: seq<Event>, n: nat)
    ensures OfSequence([e] + q, n) == (if e.sequence == n then [e] else []) + OfSequence(q, n)
  {
    assert ([e] + q)[1..] == q;
  }

  lemma {:induction false} InsertIsStable(e: Event, q: seq<Event>, n: nat)
    ensures OfSequence(InsertBySequence(e, q), n) == (if e.sequence == n then [e] else []) + OfSequence(q, n)
    decreases |q|
  {
    if q == [] || e.sequence <= q[0].sequence {
      OfSequenceCons(e, q, n);
    } else {
      InsertIsStable(e, q[1..], n);
      OfSequenceCons(q[0], InsertBySequence(e, q[1..]), n);
      var own, mine, rest := if q[0].sequence == n then [q[0]] else [], if e.sequence == n then [e] else [], OfSequence(q[1..], n);
      assert own == [] || mine == [];
      assert own + (mine + rest) == mine + (own + rest);
    }
  }

  /** A batch is taken by rising sequence, events of one sequence in the order they were sent. */
  lemma {:induction false} BatchOrder(events: seq<Event>, n: nat)
    ensures forall i, j | 0 <= i < j < |BySequence(events)| :: BySequence(events)[i].sequence <= BySequence(events)[j].sequence
    ensures OfSequence(BySequence(events), n) == OfSequence(events, n)
    decreases |events|
  {
    BySequenceSorts(events);
    if events != [] {
      BatchOrder(events[1..], n);
      InsertIsStable(events[0], BySequence(events[1..]), n);
    }
  }

  lemma {:induction false} BySequenceSorts(events: seq<Event>)
    ensures Sorted(BySequence(events)) && multiset(BySequence(events)) == multiset(events)
    ensures |BySequence(events)| == |events|
    ensures forall e :: e in BySequence(events) <==> e in events
  {
    if events != [] {
      BySequenceSorts(events[1..]);
      InsertSorted(events[0], BySequence(events[1..]));
      InsertMembers(events[0], BySequence(events[1..]));
      assert events == [events[0]] + events[1..];
    }
    SameMembers(BySequence(events), events);
  }

  lemma SameMembers(a: seq<Event>, b: seq<Event>)
    requires multiset(a) == multiset(b)
    ensures |a| == |b| && forall e :: e in a <==> e in b
  {
    assert |a| == |multiset(a)| && |b| == |multiset(b)|;
    forall e ensures e in a <==> e in b {
      assert e in a <==> e in multiset(a);
      assert e in b <==> e in multiset(b);
    }
  }

  lemma {:induction false} SortedStays(q: seq<Event>)
    requires Sorted(q)
    ensures BySequence(q) == q
  {
    if q != [] {
      SortedStays(q[1..]);
      assert q == [q[0]] + q[1..];
    }
  }

  predicate Before(a: Event, b: Event) { a.sequence < b.sequence }

  predicate DistinctSequences(events: seq<Event>) {
    forall i, j | 0 <= i < j < |events| :: events[i].sequence != events[j].sequence
  }

  lemma DistinctAreTotal(q: seq<Event>)
    requires DistinctSequences(q)
    ensures StrictTotal(Before, Elements(q))
  {
    forall a, b | a in Elements(q) && b in Elements(q) && a != b
      ensures Before(a, b) || Before(b, a)
    {
      var i :| 0 <= i < |q| && q[i] == a;
      var j :| 0 <= j < |q| && q[j] == b;
    }
  }

  /** With distinct sequences the sorted batch does not depend on the order of sending. */
  lemma SortedIsUnique(a: seq<Event>, b: seq<Event>)
    requires multiset(a) == multiset(b) && DistinctSequences(a)
    ensures BySequence(a) == BySequence(b)
  {
    var p, q := BySequence(a), BySequence(b);
    BySequenceSorts(a);
    BySequenceSorts(b);
    SameMembers(a, b);
    DistinctAreTotal(a);
    assert Elements(p) == Elements(a) && Elements(q) == Elements(a);
    StrictlyIncreasing(a, p);
    StrictlyIncreasing(a, q);
    ArrangeUnique(Before, p);
    ArrangeUnique(Before, q);
  }

  lemma StrictlyIncreasing(a: seq<Event>, p: seq<Event>)
    requires multiset(p) == multiset(a) && DistinctSequences(a) && Sorted(p)
    ensures Increasing(Before, p)
  {
    forall i, j | 0 <= i < j < |p|
      ensures Before(p[i], p[j])
    {
      if p[i].sequence == p[j].sequence {
        TwiceInOther(p, a, i, j);
      }
    }
  }

  lemma {:induction false} OccursTwice(a: seq<Event>, x: Event) returns (k: nat, m: nat)
    requires multiset(a)[x] >= 2
    ensures k < m < |a| && a[k] == x && a[m] == x
    decreases |a|
  {
    assert a == [a[0]] + a[1..];
    if a[0] == x {
      assert x in multiset(a[1..]);
      var i :| 0 <= i < |a[1..]| && a[1..][i] == x;
      k, m := 0, i + 1;
    } else {
      k, m := OccursTwice(a[1..], x);
      k, m := k + 1, m + 1;
    }
  }

  /** Two places of one arrangement with equal sequences give two places of the other. */
  lemma TwiceInOther(p: seq<Event>, a: seq<Event>, i: nat, j: nat)
    requires multiset(p) == multiset(a) && i < j < |p| && p[i].sequence == p[j].sequence
    ensures !DistinctSequences(a)
  {
    if p[i] == p[j] {
      assert p == p[..i] + [p[i]] + p[i + 1..j] + [p[j]] + p[j + 1..];
      var k, m := OccursTwice(a, p[i]);
      assert a[k].sequence == a[m].sequence;
    } else {
      SameMembers(p, a);
      assert p[i] in p && p[j] in p;
      var k :| 0 <= k < |a| && a[k] == p[i];
      var m :| 0 <= m < |a| && a[m] == p[j];
      assert a[m].sequence == a[k].sequence;
    }
  }

  // ---------------------------------------------------------------- a batch is a fold

  /** Batches one after the other. */
  ghost function IngestEach(w: World, agent: Id, batches: seq<seq<Event>>): World
    requires agent in w.agents
    decreases |batches|
  {
    if batches == [] then w
    else
      var w' := IngestBatch(w, agent, batches[0]).0;
      AdmitAllKeepsAgents(w, agent, BySequence(batches[0]));
      IngestEach(w', agent, batches[1..])
  }

  function Flatten(batches: seq<seq<Event>>): seq<Event> {
    if batches == [] then [] else batches[0] + Flatten(batches[1..])
  }

  function Singles(q: seq<Event>): seq<seq<Event>> {
    seq(|q|, i requires 0 <= i < |q| => [q[i]])
  }

  lemma {:induction false} AdmitAllConcat(w: World, agent: Id, a: seq<Event>, b: seq<Event>)
    requires agent in w.agents
    ensures agent in AdmitAll(w, agent, a).agents
    ensures AdmitAll(w, agent, a + b) == AdmitAll(AdmitAll(w, agent, a), agent, b)
    decreases |a|
  {
    AdmitAllKeepsAgents(w, agent, a);
    if a == [] {
      assert a + b == b;
    } else {
      assert (a + b)[0] == a[0] && (a + b)[1..] == a[1..] + b;
      AdmitAllConcat(Admit(w, agent, a[0]), agent, a[1..], b);
    }
  }

  /** Batches the service takes: not too large, and all of the agent's own. */
  ghost predicate Wellformed(w: World, agent: Id, batches: seq<seq<Event>>)
    requires agent in w.agents
  {
    forall b | b in batches :: |b| <= BATCH_MAX && AllFrom(b, w.agents[agent].key)
  }

  lemma {:induction false} AdmitAllKeepsKey(w: World, agent: Id, events: seq<Event>)
    requires agent in w.agents
    ensures agent in AdmitAll(w, agent, events).agents
    ensures AdmitAll(w, agent, events).agents[agent].key == w.agents[agent].key
    decreases |events|
  {
    if events != [] { AdmitAllKeepsKey(Admit(w, agent, events[0]), agent, events[1..]); }
  }

  /** A stream in sequence order, however it is cut into batches, is its events one by one. */
  lemma {:induction false} StreamIsFold(w: World, agent: Id, batches: seq<seq<Event>>)
    requires agent in w.agents && Wellformed(w, agent, batches) && Sorted(Flatten(batches))
    ensures IngestEach(w, agent, batches) == AdmitAll(w, agent, Flatten(batches))
    decreases |batches|
  {
    if batches != [] {
      var b, rest := batches[0], Flatten(batches[1..]);
      assert b in batches;
      assert Flatten(batches) == b + rest;
      assert Flatten(batches)[..|b|] == b && Flatten(batches)[|b|..] == rest;
      assert Sorted(b);
      assert forall i | 0 <= i < |rest| :: rest[i] == Flatten(batches)[|b| + i];
      assert Sorted(rest);
      SortedStays(b);
      AdmitAllKeepsKey(w, agent, b);
      var w' := IngestBatch(w, agent, b).0;
      assert w' == AdmitAll(w, agent, b);
      StreamIsFold(w', agent, batches[1..]);
      AdmitAllConcat(w, agent, b, rest);
    }
  }

  /** Any two ways of cutting an ordered stream into batches end in the same state. */
  lemma CuttingIsFree(w: World, agent: Id, batches: seq<seq<Event>>, others: seq<seq<Event>>)
    requires agent in w.agents && Wellformed(w, agent, batches) && Wellformed(w, agent, others)
    requires Flatten(batches) == Flatten(others) && Sorted(Flatten(batches))
    ensures IngestEach(w, agent, batches) == IngestEach(w, agent, others)
  {
    StreamIsFold(w, agent, batches);
    StreamIsFold(w, agent, others);
  }

  lemma {:induction false} FlattenSingles(q: seq<Event>)
    ensures Flatten(Singles(q)) == q
    decreases |q|
  {
    if q != [] {
      assert Singles(q)[1..] == Singles(q[1..]);
      FlattenSingles(q[1..]);
    }
  }

  /** One batch does what its events do alone, in sequence order. */
  lemma BatchIsFold(w: World, agent: Id, events: seq<Event>)
    requires agent in w.agents && |events| <= BATCH_MAX && AllFrom(events, w.agents[agent].key)
    ensures IngestBatch(w, agent, events).0 == IngestEach(w, agent, Singles(BySequence(events)))
  {
    var q := BySequence(events);
    BySequenceSorts(events);
    FlattenSingles(q);
    forall b | b in Singles(q) ensures |b| <= BATCH_MAX && AllFrom(b, w.agents[agent].key) {
      var i :| 0 <= i < |q| && Singles(q)[i] == b;
      assert q[i] in q;
    }
    StreamIsFold(w, agent, Singles(q));
  }

  /** Sending order is irrelevant when sequences differ: same state, same answer. */
  lemma SendingOrderIsIrrelevant(w: World, agent: Id, a: seq<Event>, b: seq<Event>)
    requires agent in w.agents && multiset(a) == multiset(b) && DistinctSequences(a)
    ensures IngestBatch(w, agent, a) == IngestBatch(w, agent, b)
  {
    SameMembers(a, b);
    SortedIsUnique(a, b);
    assert AllFrom(a, w.agents[agent].key) <==> AllFrom(b, w.agents[agent].key);
  }

  lemma {:induction false} TalliesAddUp(w: World, agent: Id, events: seq<Event>)
    requires agent in w.agents
    ensures Tally(w, agent, events, Accepted) + Tally(w, agent, events, Duplicate) + Tally(w, agent, events, Rejected) == |events|
    ensures |AdmitAll(w, agent, events).journal| == |w.journal| + Tally(w, agent, events, Accepted)
    decreases |events|
  {
    if events != [] { TalliesAddUp(Admit(w, agent, events[0]), agent, events[1..]); }
  }

  /** Every event of a batch is counted once, and those accepted are the ones journaled. */
  lemma BatchIsAccountedFor(w: World, agent: Id, events: seq<Event>)
    requires agent in w.agents && IngestBatch(w, agent, events).1.Report?
    ensures var (w', r) := IngestBatch(w, agent, events);
            && r.accepted + r.duplicates + r.rejected == |events|
            && |w'.journal| == |w.journal| + r.accepted
            && agent in w'.agents && r.lastSequence == w'.agents[agent].lastSequence
  {
    BySequenceSorts(events);
    TalliesAddUp(w, agent, BySequence(events));
    AdmitAllKeepsAgents(w, agent, BySequence(events));
  }

  // ---------------------------------------------------------------- reported usage

  /**
   Token counts are not checked: whatever else holds, a new report of negative counts is accepted and
   stored at a negative cost, which loosens some budget gate.
   */
  lemma NegativeReportIsStored(w: World, agent: Id, e: Event)
    requires agent in w.agents && e.kind.UsageReported?
    requires !Known(w.journal, agent, e.eventId) && Admissible(e, w.agents[agent].lastSequence)
    requires !Recorded(w.tables.usage, w.agents[agent].tenant, e.eventId)
    requires var p := e.payload; IntOr(p.inputTokens, 0) <= 0 && IntOr(p.outputTokens, 0) <= 0
                                 && IntOr(p.inputTokens, 0) + IntOr(p.outputTokens, 0) < 0
    ensures Judge(w, agent, e) == Accepted
    ensures var r := RecordOf(EntryOf(agent, w.agents[agent], e));
            && r !in w.tables.usage && Admit(w, agent, e).tables.usage == w.tables.usage + {r}
            && r.cost < 0 && !Budgets.NeverLoosens(r)
  {
    var entry := EntryOf(agent, w.agents[agent], e);
    var p, r := e.payload, RecordOf(entry);
    assert SameSource(r, entry.tenant, entry.eventId);
    Pricing.NegativeTokensCostLess(Pricing.VersionOf(p.pricing), p.provider, p.model, IntOr(p.inputTokens, 0), IntOr(p.outputTokens, 0));
    Budgets.OnlyNegativeCostsLoosen(r);
  }

  /** Two agents of one tenant report under one event identifier: both are journaled, the first alone is recorded. */
  lemma SharedEventIsRecordedOnce(w: World, a: Id, b: Id, e: Event, f: Event)
    requires a in w.agents && b in w.agents && a != b && w.agents[a].tenant == w.agents[b].tenant
    requires e.kind.UsageReported? && f.kind.UsageReported? && e.eventId == f.eventId
    requires !Known(w.journal, a, e.eventId) && Admissible(e, w.agents[a].lastSequence)
    requires !Known(w.journal, b, f.eventId) && Admissible(f, w.agents[b].lastSequence)
    requires !Recorded(w.tables.usage, w.agents[a].tenant, e.eventId)
    ensures var first, second := EntryOf(a, w.agents[a], e), EntryOf(b, w.agents[b], f);
            var v := Admit(Admit(w, a, e), b, f);
            v.journal == w.journal + [first, second] && v.tables.usage == w.tables.usage + {RecordOf(first)}
  {
    var first, v := EntryOf(a, w.agents[a], e), Admit(w, a, e);
    KnownSnoc(w.journal, first, b, f.eventId);
    assert RecordOf(first) in v.tables.usage && SameSource(RecordOf(first), w.agents[b].tenant, f.eventId);
    assert v.agents[b] == w.agents[b];
  }

  // ---------------------------------------------------------------- one event, one batch, one heartbeat

  /** Duplicates first; then an event is accepted exactly if its type is known, its date readable and its sequence new. */
  lemma EventIsJudged(w: World, agent: Id, e: Event)
    requires agent in w.agents
    ensures var v := Judge(w, agent, e);
            var known := exists i :: 0 <= i < |w.journal| && w.journal[i].agent == agent && w.journal[i].eventId == e.eventId;
            && (v == Duplicate <==> known)
            && (v == Accepted <==>
                  !known && !e.kind.Uncatalogued? && e.occurredAt.Some? && e.sequence > w.agents[agent].lastSequence)
            && (v != Accepted ==> Admit(w, agent, e) == w)
  {
  }

  /** Where an event is announced: its run, else for events on agents the agent, else its project, else the fleet. */
  predicate GoesTo(e: Event, agent: Id, topic: Topic) {
    if e.run.Uuid? then topic == OfRun(e.run.id)
    else if e.run.Junk? && e.run.text != "" then topic == OfUnknownRun(e.run.text)
    else if e.kind.AgentNoted? then topic == OfAgent(agent)
    else if e.project.Uuid? then topic == OfProject(e.project.id)
    else if e.project.Junk? && e.project.text != "" then topic == OfUnknownProject(e.project.text)
    else topic == Fleet
  }

  /**
   An accepted event is journaled as it was sent, for its agent and the agent's tenant, and moves that agent's last
   sequence alone; its own type and sequence go to the outbox, followed by the cost of a first usage report.
   */
  lemma AcceptedIsJournaled(w: World, agent: Id, e: Event)
    requires agent in w.agents && Judge(w, agent, e) == Accepted
    ensures var v, a := Admit(w, agent, e), w.agents[agent];
            && v.journal == w.journal + [Entry(e.id, a.tenant, agent, e.eventId, e.sequence, e.kind, e.occurredAt.value,
                                               e.run, e.project, e.payload, e.usageId)]
            && v.agents == w.agents[agent := a.(lastSequence := e.sequence)]
            && v.budgets == w.budgets
            && |v.desk.outbox| > |w.desk.outbox| && w.desk.outbox <= v.desk.outbox
            && var row := v.desk.outbox[|w.desk.outbox|];
               row.tenant == a.tenant && GoesTo(e, agent, row.topic) && row.fact == Ingested(e.eventId, e.kind, e.sequence)
               && EventType(row.fact) == Catalog.NameOf(e.kind) && Sequence(row.fact) == Some(e.sequence as int)
  {
    AnnouncedFirst(w, agent, e);
  }

  lemma AnnouncedFirst(w: World, agent: Id, e: Event)
    requires agent in w.agents && e.occurredAt.Some?
    ensures var entry := EntryOf(agent, w.agents[agent], e);
            var rows := DeskAfter(w, agent, e).outbox;
            w.desk.outbox + [Announcement(entry)] <= rows
    ensures var entry := EntryOf(agent, w.agents[agent], e);
            NewUsage(w.tables, entry) ==>
              w.desk.outbox + [Announcement(entry), UsageRow(RecordOf(entry), agent)] <= DeskAfter(w, agent, e).outbox
  {
    var entry := EntryOf(agent, w.agents[agent], e);
    if NewUsage(w.tables, entry) {
      var rows := w.desk.outbox + [Announcement(entry)] + [UsageRow(RecordOf(entry), agent)];
      assert rows == w.desk.outbox + [Announcement(entry), UsageRow(RecordOf(entry), agent)];
      Alerts.EvaluationSettles(w.desk.(outbox := rows), w.budgets,
                               Budgets.Subject(w.agents[agent].tenant, Some(agent), Parse(e.project)),
                               Project(w.tables, entry).usage, e.occurredAt.value);
    }
  }

  /** A first report is stored, and its cost announced right after it, on its run or else on its agent. */
  lemma NewUsageIsAnnounced(w: World, agent: Id, e: Event)
    requires agent in w.agents && Judge(w, agent, e) == Accepted && e.kind.UsageReported?
    requires forall r | r in w.tables.usage :: r.tenant != w.agents[agent].tenant || r.eventId != e.eventId
    ensures var v := Admit(w, agent, e);
            exists r ::
              && r !in w.tables.usage && v.tables.usage == w.tables.usage + {r}
              && r.tenant == w.agents[agent].tenant && r.agent == Some(agent) && r.eventId == e.eventId
              && |v.desk.outbox| > |w.desk.outbox| + 1
              && v.desk.outbox[|w.desk.outbox| + 1] ==
                 Row(r.tenant, if e.run.Uuid? then OfRun(e.run.id) else OfAgent(agent), UsageRecorded(r.id, r.cost))
  {
    var entry := EntryOf(agent, w.agents[agent], e);
    var r := RecordOf(entry);
    assert SameSource(r, entry.tenant, entry.eventId);
    AnnouncedFirst(w, agent, e);
    var rows := w.desk.outbox + [Announcement(entry), UsageRow(r, agent)];
    assert rows[|w.desk.outbox| + 1] == UsageRow(r, agent);
  }

  /**
   A first report is held against the budgets at once: afterwards every active budget of the tenant on all of it,
   on the agent or on the event's project has an active alert for each threshold its consumption has reached,
   the new record and the event's own time included.
   */
  lemma NewUsageIsEvaluated(w: World, agent: Id, e: Event, b: Budgets.Budget, t: int)
    requires agent in w.agents && Judge(w, agent, e) == Accepted && e.kind.UsageReported?
    requires forall r | r in w.tables.usage :: r.tenant != w.agents[agent].tenant || r.eventId != e.eventId
    requires b in w.budgets && b.active && b.tenant == w.agents[agent].tenant && b.limit > 0
    requires || b.scope == Usage.Installation || b.scope == Usage.Agent(Some(agent))
             || (e.project.Uuid? && b.scope == Usage.Project(Some(e.project.id)))
    requires t in Budgets.Thresholds(b)
    requires 100 * Budgets.Consumed(b, Admit(w, agent, e).tables.usage, e.occurredAt.value) >= t * b.limit
    ensures Alerts.HasActive(Admit(w, agent, e).desk.alerts, b.tenant, Alerts.Threshold(b.id, t))
  {
    var entry := EntryOf(agent, w.agents[agent], e);
    var s := Budgets.Subject(w.agents[agent].tenant, Some(agent), Parse(e.project));
    var usage := Project(w.tables, entry).usage;
    var reported := w.desk.(outbox := w.desk.outbox + [Announcement(entry)] + [UsageRow(RecordOf(entry), agent)]);
    assert NewUsage(w.tables, entry);
    assert DeskAfter(w, agent, e) == Alerts.Evaluate(reported, w.budgets, s, usage, e.occurredAt.value);
    Alerts.EvaluationSettles(reported, w.budgets, s, usage, e.occurredAt.value);
    assert Budgets.Covers(b, s);
    assert Alerts.Settled(DeskAfter(w, agent, e), b, Budgets.Consumed(b, usage, e.occurredAt.value), Budgets.Thresholds(b));
  }

  /** A batch is refused whole exactly if it is too large or holds a foreign key; a refusal changes nothing. */
  lemma BatchIsRefused(w: World, agent: Id, events: seq<Event>)
    requires agent in w.agents
    ensures var (v, reply) := IngestBatch(w, agent, events);
            && (reply == TooLarge <==> |events| > 200)
            && (reply == WrongAgent <==> |events| <= 200 && exists i :: 0 <= i < |events| && events[i].agentKey != w.agents[agent].key)
            && (!reply.Report? ==> v == w)
            && (reply.Report? ==> agent in v.agents && reply.lastSequence == v.agents[agent].lastSequence)
  {
    if |events| <= 200 && !AllFrom(events, w.agents[agent].key) {
      var e :| e in events && e.agentKey != w.agents[agent].key;
      var i :| 0 <= i < |events| && events[i] == e;
      assert events[i].agentKey != w.agents[agent].key;
    }
    AdmitAllKeepsAgents(w, agent, BySequence(events));
  }

  /**
   A heartbeat is heard from its own agent in an ingestible state. One older than the last sequence refreshes the
   sign of life alone; any other carries its state, and what else it holds, and goes to the outbox.
   */
  lemma HeartbeatIsHeard(w: World, agent: Id, b: Beat, now: Time)
    requires agent in w.agents
    ensures var (v, reply) := Hear(w, agent, b, now);
            var a := w.agents[agent];
            var late := b.sequence.Some? && b.sequence.value < a.lastSequence;
            && (reply == Foreign <==> b.agentKey != a.key)
            && (reply == Invalid <==> b.agentKey == a.key && (b.state.None? || b.state == Some(Stale)))
            && (!reply.Seen? ==> v == w)
            && (reply.Seen? ==>
                  && (reply.applied <==> !late) && v.agents.Keys == w.agents.Keys
                  && v.agents == w.agents[agent := v.agents[agent]]
                  && v.journal == w.journal && v.tables == w.tables && v.budgets == w.budgets && v.desk.alerts == w.desk.alerts
                  && var a' := v.agents[agent];
                     && a'.lastHeartbeat == Some(now) && a'.key == a.key && a'.tenant == a.tenant
                     && (late ==> a' == a.(lastHeartbeat := Some(now)) && v.desk.outbox == w.desk.outbox)
                     && (!late ==>
                           && Some(a'.state) == b.state
                           && a'.task == (if b.task.Some? then b.task.value else a.task)
                           && a'.progress == (if b.progress.Some? then b.progress.value else a.progress)
                           && a'.lastSequence == (if b.sequence.Some? then b.sequence.value else a.lastSequence)
                           && |v.desk.outbox| == |w.desk.outbox| + 1 && w.desk.outbox <= v.desk.outbox
                           && var row := v.desk.outbox[|w.desk.outbox|];
                              && row.tenant == a.tenant && row.topic == OfAgent(agent)
                              && EventType(row.fact) == "agent.heartbeat"
                              && Sequence(row.fact) == (if b.sequence.Some? then Some(b.sequence.value as int) else None)))
  {
  }
}
