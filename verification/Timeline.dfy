/** The audit timeline of a run: pages over the journal, while the journal goes on growing. */
module Timeline {
  import opened Prelude
  import opened Ordering
  import opened Runs
  import opened Catalog
  import opened StateMachines
  import opened Ingest
  import opened JournalSafety
  import Arrivals
  import Budgets
  import Keyset
  import RunLaws

  /** `sequence ASC, id ASC` */
  predicate Earlier(a: Entry, b: Entry) {
    a.sequence < b.sequence || (a.sequence == b.sequence && a.id < b.id)
  }

  predicate Concerns(e: Entry, tenant: Option<Id>, run: Id) {
    e.tenant == tenant && Parse(e.run) == Some(run)
  }

  function TimelineOf(journal: seq<Entry>, tenant: Option<Id>, run: Id): set<Entry> {
    set e | e in journal && Concerns(e, tenant, run)
  }

  /** The same rows in the order they were accepted. */
  function Accepted(journal: seq<Entry>, tenant: Option<Id>, run: Id): seq<Entry> {
    if journal == [] then []
    else
      var last := |journal| - 1;
      Accepted(journal[..last], tenant, run) + if Concerns(journal[last], tenant, run) then [journal[last]] else []
  }

  /** Per agent, sequences rise. */
  ghost predicate Rising(journal: seq<Entry>) {
    forall i, j | 0 <= i < j < |journal| && journal[i].agent == journal[j].agent :: journal[i].sequence < journal[j].sequence
  }

  /** One agent alone has reported on the run. */
  ghost predicate OneVoice(journal: seq<Entry>, tenant: Option<Id>, run: Id) {
    forall i, j | 0 <= i < |journal| && 0 <= j < |journal| && Concerns(journal[i], tenant, run) && Concerns(journal[j], tenant, run) ::
      journal[i].agent == journal[j].agent
  }

  lemma TimelineIsTotal(journal: seq<Entry>, tenant: Option<Id>, run: Id)
    requires UniqueDraws(journal)
    ensures StrictTotal(Earlier, TimelineOf(journal, tenant, run))
  {
    forall a, b | a in TimelineOf(journal, tenant, run) && b in TimelineOf(journal, tenant, run) && a != b
      ensures Earlier(a, b) || Earlier(b, a)
    {
      var i :| 0 <= i < |journal| && journal[i] == a;
      var j :| 0 <= j < |journal| && journal[j] == b;
    }
  }

  /** What concerns the run was accepted in the timeline's own order. */
  ghost predicate InOrder(journal: seq<Entry>, tenant: Option<Id>, run: Id) {
    forall i, j | 0 <= i < j < |journal| && Concerns(journal[i], tenant, run) && Concerns(journal[j], tenant, run) ::
      Earlier(journal[i], journal[j])
  }

  lemma OneVoiceIsInOrder(journal: seq<Entry>, tenant: Option<Id>, run: Id)
    requires Rising(journal) && OneVoice(journal, tenant, run)
    ensures InOrder(journal, tenant, run)
  {
  }

  lemma {:induction false} AcceptedMembers(journal: seq<Entry>, tenant: Option<Id>, run: Id)
    ensures forall e :: e in Accepted(journal, tenant, run) <==> e in journal && Concerns(e, tenant, run)
  {
    if journal != [] {
      var last := |journal| - 1;
      AcceptedMembers(journal[..last], tenant, run);
      assert journal == journal[..last] + [journal[last]];
    }
  }

  lemma IncreasingSnoc(q: seq<Entry>, e: Entry)
    requires Increasing(Earlier, q) && forall x | x in q :: Earlier(x, e)
    ensures Increasing(Earlier, q + [e])
  {
    assert forall i | 0 <= i < |q| :: q[i] in q;
  }

  lemma {:induction false} AcceptedRises(journal: seq<Entry>, tenant: Option<Id>, run: Id)
    ensures Increasing(Earlier, Accepted(journal, tenant, run)) <==> InOrder(journal, tenant, run)
  {
    if journal != [] {
      var last := |journal| - 1;
      var before, e := journal[..last], journal[last];
      var sofar := Accepted(before, tenant, run);
      AcceptedRises(before, tenant, run);
      AcceptedMembers(before, tenant, run);
      if InOrder(journal, tenant, run) {
        LastComesLast(journal, tenant, run);
        if Concerns(e, tenant, run) { IncreasingSnoc(sofar, e); }
      }
      if Increasing(Earlier, Accepted(journal, tenant, run)) {
        AllBeforeLast(journal, tenant, run);
      }
    }
  }

  lemma LastComesLast(journal: seq<Entry>, tenant: Option<Id>, run: Id)
    requires journal != [] && InOrder(journal, tenant, run)
    ensures var last := |journal| - 1;
            && InOrder(journal[..last], tenant, run)
            && (Concerns(journal[last], tenant, run) ==>
                  forall q | q in Accepted(journal[..last], tenant, run) :: Earlier(q, journal[last]))
  {
    var last := |journal| - 1;
    AcceptedMembers(journal[..last], tenant, run);
    forall q | q in Accepted(journal[..last], tenant, run) && Concerns(journal[last], tenant, run)
      ensures Earlier(q, journal[last])
    {
      var i :| 0 <= i < last && journal[..last][i] == q;
      assert journal[i] == q;
    }
  }

  lemma SnocIncreasing(q: seq<Entry>, e: Entry)
    requires Increasing(Earlier, q + [e])
    ensures Increasing(Earlier, q) && forall x | x in q :: Earlier(x, e)
  {
    var all := q + [e];
    assert all[|q|] == e && forall i | 0 <= i < |q| :: all[i] == q[i];
  }

  lemma AllBeforeLast(journal: seq<Entry>, tenant: Option<Id>, run: Id)
    requires journal != [] && Increasing(Earlier, Accepted(journal, tenant, run))
    ensures var last := |journal| - 1;
            && Increasing(Earlier, Accepted(journal[..last], tenant, run))
            && (InOrder(journal[..last], tenant, run) ==> InOrder(journal, tenant, run))
  {
    var last := |journal| - 1;
    var before, e := journal[..last], journal[last];
    var sofar := Accepted(before, tenant, run);
    AcceptedMembers(before, tenant, run);
    if Concerns(e, tenant, run) {
      SnocIncreasing(sofar, e);
    } else {
      assert Accepted(journal, tenant, run) == sofar;
    }
    if InOrder(before, tenant, run) {
      forall i, j | 0 <= i < j < |journal| && Concerns(journal[i], tenant, run) && Concerns(journal[j], tenant, run)
        ensures Earlier(journal[i], journal[j])
      {
        assert journal[i] == before[i] && before[i] in sofar;
        if j < last { assert journal[j] == before[j]; }
      }
    }
  }

  lemma AcceptedInOrder(journal: seq<Entry>, tenant: Option<Id>, run: Id)
    requires UniqueDraws(journal)
    ensures StrictTotal(Earlier, TimelineOf(journal, tenant, run))
    ensures Accepted(journal, tenant, run) == Arrange(Earlier, TimelineOf(journal, tenant, run)) <==> InOrder(journal, tenant, run)
  {
    var accepted, timeline := Accepted(journal, tenant, run), TimelineOf(journal, tenant, run);
    TimelineIsTotal(journal, tenant, run);
    AcceptedRises(journal, tenant, run);
    AcceptedMembers(journal, tenant, run);
    assert Elements(accepted) == timeline;
    if InOrder(journal, tenant, run) { ArrangeUnique(Earlier, accepted); }
    ArrangeIncreasing(Earlier, timeline);
  }

  /** The timeline is the order of acceptance exactly when what concerns the run was accepted in that order. */
  lemma AcceptedIsTimeline(journal: seq<Entry>, tenant: Option<Id>, run: Id)
    requires UniqueDraws(journal)
    ensures StrictTotal(Earlier, TimelineOf(journal, tenant, run))
    ensures Accepted(journal, tenant, run) == Arrange(Earlier, TimelineOf(journal, tenant, run)) <==>
            forall i, j | && 0 <= i < j < |journal| && journal[i].tenant == tenant && journal[i].run == Uuid(run)
                          && journal[j].tenant == tenant && journal[j].run == Uuid(run) ::
              journal[i].sequence < journal[j].sequence
              || (journal[i].sequence == journal[j].sequence && journal[i].id < journal[j].id)
  {
    AcceptedInOrder(journal, tenant, run);
  }

  // ---------------------------------------------------------------- the journal at each request

  /** The worlds a reader meets, with a run of the system between any two of them. */
  ghost predicate Unfolds(worlds: seq<World>, between: seq<seq<Step>>) {
    && |worlds| == |between| + 1
    && forall i | 0 <= i < |between| :: CanRun(worlds[i], between[i]) && worlds[i + 1] == After(worlds[i], between[i])
  }

  lemma {:induction false} JournalsExtend(worlds: seq<World>, between: seq<seq<Step>>, i: nat, j: nat)
    requires Unfolds(worlds, between) && i <= j < |worlds|
    ensures worlds[i].journal <= worlds[j].journal
    decreases j - i
  {
    if i < j {
      RunGrows(worlds[i], between[i]);
      JournalsExtend(worlds, between, i + 1, j);
    }
  }

  lemma {:induction false} WorldsAreSound(worlds: seq<World>, between: seq<seq<Step>>, i: nat)
    requires Unfolds(worlds, between) && Inv(worlds[0]) && i < |worlds|
    ensures Inv(worlds[i])
  {
    if i > 0 {
      WorldsAreSound(worlds, between, i - 1);
      RunKeepsInv(worlds[i - 1], between[i - 1]);
    }
  }

  /** What is new in the longer journal comes after what concerns the run in the shorter one. */
  lemma NewComesLater(journal: seq<Entry>, longer: seq<Entry>, tenant: Option<Id>, run: Id, q: Entry, r: Entry)
    requires journal <= longer && Rising(longer) && OneVoice(longer, tenant, run)
    requires q in TimelineOf(journal, tenant, run) && r in TimelineOf(longer, tenant, run) && r !in TimelineOf(journal, tenant, run)
    ensures Earlier(q, r)
  {
    var i :| 0 <= i < |journal| && journal[i] == q;
    var j :| 0 <= j < |longer| && longer[j] == r;
    assert longer[i] == q;
    if j < |journal| { assert journal[j] == r; }
  }

  function Views(worlds: seq<World>, tenant: Option<Id>, run: Id): seq<set<Entry>> {
    seq(|worlds|, i requires 0 <= i < |worlds| => TimelineOf(worlds[i].journal, tenant, run))
  }

  lemma ViewsGrow(worlds: seq<World>, between: seq<seq<Step>>, tenant: Option<Id>, run: Id)
    requires Unfolds(worlds, between)
    ensures Keyset.Growing(Views(worlds, tenant, run), TimelineOf(worlds[|worlds| - 1].journal, tenant, run))
  {
    var last, views := |worlds| - 1, Views(worlds, tenant, run);
    forall i, j | 0 <= i <= j < |worlds|
      ensures views[i] <= views[j]
    {
      JournalsExtend(worlds, between, i, j);
    }
    assert forall i | 0 <= i < |views| :: views[i] <= views[last];
  }

  lemma ViewsAppend(worlds: seq<World>, between: seq<seq<Step>>, tenant: Option<Id>, run: Id)
    requires Unfolds(worlds, between)
    requires Rising(worlds[|worlds| - 1].journal) && OneVoice(worlds[|worlds| - 1].journal, tenant, run)
    ensures Arrivals.Appending(Earlier, Views(worlds, tenant, run))
  {
    var last, views := |worlds| - 1, Views(worlds, tenant, run);
    forall i, j, q, r | 0 <= i < j < |views| && q in views[i] && r in views[j] && r !in views[i]
      ensures Earlier(q, r)
    {
      JournalsExtend(worlds, between, i, last);
      JournalsExtend(worlds, between, j, last);
      assert r in TimelineOf(worlds[last].journal, tenant, run);
      NewComesLater(worlds[i].journal, worlds[last].journal, tenant, run, q, r);
    }
  }

  lemma ViewsAreTotal(worlds: seq<World>, between: seq<seq<Step>>, tenant: Option<Id>, run: Id)
    requires Unfolds(worlds, between) && Inv(worlds[0])
    ensures var views, final := Views(worlds, tenant, run), TimelineOf(worlds[|worlds| - 1].journal, tenant, run);
            && StrictTotal(Earlier, final) && Keyset.Growing(views, final)
            && forall i | 0 <= i < |worlds| :: StrictTotal(Earlier, views[i])
  {
    var last, views := |worlds| - 1, Views(worlds, tenant, run);
    WorldsAreSound(worlds, between, last);
    TimelineIsTotal(worlds[last].journal, tenant, run);
    ViewsGrow(worlds, between, tenant, run);
    forall i | 0 <= i < |worlds|
      ensures StrictTotal(Earlier, views[i])
    {
      TotalOnSubset(Earlier, TimelineOf(worlds[last].journal, tenant, run), views[i]);
    }
  }

  lemma ViewsShowInOrder(views: seq<set<Entry>>, final: set<Entry>, limit: int)
    requires StrictTotal(Earlier, final) && Keyset.Growing(views, final) && views != []
    ensures forall i | 0 <= i < |views| :: StrictTotal(Earlier, views[i])
    ensures var walk := Keyset.Walk(Earlier, views, None, limit);
            && (forall i, j | 0 <= i < j < |Keyset.Seen(walk)| :: Earlier(Keyset.Seen(walk)[i], Keyset.Seen(walk)[j]))
            && (forall e | e in Keyset.Seen(walk) :: e in final)
            && (Keyset.Finished(walk) ==> forall e | e in views[0] :: e in Keyset.Seen(walk))
  {
    Keyset.WalkIsExact(Earlier, final, views, None, limit);
    Keyset.FirstRowsAreSeen(Earlier, final, views, None, limit);
    assert forall e | e in views[0] :: e in Keyset.Eligible(Earlier, views[0], None);
  }

  /**
   Reading a timeline page by page while everything goes on, whoever reports on the run: rows show by
   sequence and then identifier, none twice, all of them on the run, and a finished reader has seen
   everything that was there at the first request.
   */
  lemma TimelineIsOrdered(worlds: seq<World>, between: seq<seq<Step>>, tenant: Option<Id>, run: Id, limit: int)
    requires Unfolds(worlds, between) && Inv(worlds[0])
    ensures forall i | 0 <= i < |worlds| :: StrictTotal(Earlier, Views(worlds, tenant, run)[i])
    ensures var walk := Keyset.Walk(Earlier, Views(worlds, tenant, run), None, limit);
            var seen := Keyset.Seen(walk);
            && (forall i, j | 0 <= i < j < |seen| ::
                  seen[i].sequence < seen[j].sequence || (seen[i].sequence == seen[j].sequence && seen[i].id < seen[j].id))
            && (forall e | e in seen :: e in worlds[|worlds| - 1].journal && e.tenant == tenant && e.run == Uuid(run))
            && (Keyset.Finished(walk) ==>
                  forall e | e in worlds[0].journal && e.tenant == tenant && e.run == Uuid(run) :: e in seen)
  {
    var views, final := Views(worlds, tenant, run), TimelineOf(worlds[|worlds| - 1].journal, tenant, run);
    ViewsAreTotal(worlds, between, tenant, run);
    ViewsShowInOrder(views, final, limit);
    assert forall e | e in worlds[0].journal && Concerns(e, tenant, run) :: e in views[0];
  }

  /** A row on the run journaled between one request and the next. */
  predicate Reported(worlds: seq<World>, tenant: Option<Id>, run: Id, i: int, e: Entry) {
    0 < i < |worlds| && e in worlds[i].journal && e !in worlds[i - 1].journal && Concerns(e, tenant, run)
  }

  /** Every such row sorts after the cursor of the later request. */
  ghost predicate Caught(worlds: seq<World>, tenant: Option<Id>, run: Id, walk: seq<Keyset.Page<Entry>>) {
    forall i, e | Reported(worlds, tenant, run, i, e) && i < |walk| ::
      walk[i - 1].next.Some? && Earlier(walk[i - 1].next.value, e)
  }

  lemma CaughtIsInTime(worlds: seq<World>, tenant: Option<Id>, run: Id, walk: seq<Keyset.Page<Entry>>)
    requires |walk| <= |worlds|
    ensures Arrivals.InTime(Earlier, Views(worlds, tenant, run), walk) <==> Caught(worlds, tenant, run, walk)
  {
    var views := Views(worlds, tenant, run);
    forall i, e ensures Arrivals.Arrives(views, i, e) <==> Reported(worlds, tenant, run, i, e) {}
  }

  lemma CaughtIsComplete(worlds: seq<World>, tenant: Option<Id>, run: Id, limit: int)
    requires worlds != [] && StrictTotal(Earlier, TimelineOf(worlds[|worlds| - 1].journal, tenant, run))
    requires Keyset.Growing(Views(worlds, tenant, run), TimelineOf(worlds[|worlds| - 1].journal, tenant, run))
    ensures forall i | 0 <= i < |worlds| :: StrictTotal(Earlier, Views(worlds, tenant, run)[i])
    ensures var walk := Keyset.Walk(Earlier, Views(worlds, tenant, run), None, limit);
            Keyset.Finished(walk) ==>
              && |walk| <= |worlds|
              && (Keyset.Seen(walk) == Arrange(Earlier, Views(worlds, tenant, run)[|walk| - 1]) <==>
                  Caught(worlds, tenant, run, walk))
  {
    var views, final := Views(worlds, tenant, run), TimelineOf(worlds[|worlds| - 1].journal, tenant, run);
    if Keyset.Finished(Keyset.Walk(Earlier, views, None, limit)) {
      Arrivals.CompleteExactly(Earlier, final, views, limit);
      CaughtIsInTime(worlds, tenant, run, Keyset.Walk(Earlier, views, None, limit));
    }
  }

  /**
   A finished reader has seen the whole timeline of its last request, in order, exactly when every
   row journaled between two of its requests sorts after the later one's cursor.
   */
  lemma TimelineIsComplete(worlds: seq<World>, between: seq<seq<Step>>, tenant: Option<Id>, run: Id, limit: int)
    requires Unfolds(worlds, between) && Inv(worlds[0])
    ensures forall i | 0 <= i < |worlds| :: StrictTotal(Earlier, Views(worlds, tenant, run)[i])
    ensures var walk := Keyset.Walk(Earlier, Views(worlds, tenant, run), None, limit);
            Keyset.Finished(walk) ==>
              && |walk| <= |worlds|
              && (Keyset.Seen(walk) == Arrange(Earlier, Views(worlds, tenant, run)[|walk| - 1]) <==>
                  Caught(worlds, tenant, run, walk))
  {
    ViewsAreTotal(worlds, between, tenant, run);
    CaughtIsComplete(worlds, tenant, run, limit);
  }

  lemma OneVoiceEarlierOn(worlds: seq<World>, between: seq<seq<Step>>, tenant: Option<Id>, run: Id, k: nat)
    requires Unfolds(worlds, between) && Inv(worlds[0]) && k < |worlds|
    requires OneVoice(worlds[|worlds| - 1].journal, tenant, run)
    ensures StrictTotal(Earlier, TimelineOf(worlds[k].journal, tenant, run))
    ensures Accepted(worlds[k].journal, tenant, run) == Arrange(Earlier, TimelineOf(worlds[k].journal, tenant, run))
  {
    WorldsAreSound(worlds, between, k);
    JournalsExtend(worlds, between, k, |worlds| - 1);
    VoiceStays(worlds[k].journal, worlds[|worlds| - 1].journal, tenant, run);
    OneVoiceIsInOrder(worlds[k].journal, tenant, run);
    AcceptedIsTimeline(worlds[k].journal, tenant, run);
  }

  lemma OneVoiceAppends(worlds: seq<World>, between: seq<seq<Step>>, tenant: Option<Id>, run: Id)
    requires Unfolds(worlds, between) && Inv(worlds[0])
    requires OneVoice(worlds[|worlds| - 1].journal, tenant, run)
    ensures Arrivals.Appending(Earlier, Views(worlds, tenant, run))
  {
    WorldsAreSound(worlds, between, |worlds| - 1);
    ViewsAppend(worlds, between, tenant, run);
  }

  lemma OneVoiceIsCaught(worlds: seq<World>, between: seq<seq<Step>>, tenant: Option<Id>, run: Id, limit: int)
    requires Unfolds(worlds, between) && Inv(worlds[0])
    requires OneVoice(worlds[|worlds| - 1].journal, tenant, run)
    ensures forall i | 0 <= i < |worlds| :: StrictTotal(Earlier, Views(worlds, tenant, run)[i])
    ensures var walk := Keyset.Walk(Earlier, Views(worlds, tenant, run), None, limit);
            Keyset.Finished(walk) ==>
              |walk| <= |worlds| && Keyset.Seen(walk) == Arrange(Earlier, Views(worlds, tenant, run)[|walk| - 1])
  {
    var views, final := Views(worlds, tenant, run), TimelineOf(worlds[|worlds| - 1].journal, tenant, run);
    ViewsAreTotal(worlds, between, tenant, run);
    OneVoiceAppends(worlds, between, tenant, run);
    if Keyset.Finished(Keyset.Walk(Earlier, views, None, limit)) {
      Arrivals.AppendsAreSeen(Earlier, final, views, limit);
    }
  }

  /** With one reporting agent nothing is missed, and what is seen is what was accepted, in that order. */
  lemma OneVoiceMissesNothing(worlds: seq<World>, between: seq<seq<Step>>, tenant: Option<Id>, run: Id, limit: int)
    requires Unfolds(worlds, between) && Inv(worlds[0])
    requires OneVoice(worlds[|worlds| - 1].journal, tenant, run)
    ensures forall i | 0 <= i < |worlds| :: StrictTotal(Earlier, Views(worlds, tenant, run)[i])
    ensures var walk := Keyset.Walk(Earlier, Views(worlds, tenant, run), None, limit);
            Keyset.Finished(walk) ==>
              |walk| <= |worlds| && Keyset.Seen(walk) == Accepted(worlds[|walk| - 1].journal, tenant, run)
  {
    OneVoiceIsCaught(worlds, between, tenant, run, limit);
    var walk := Keyset.Walk(Earlier, Views(worlds, tenant, run), None, limit);
    if Keyset.Finished(walk) {
      OneVoiceEarlierOn(worlds, between, tenant, run, |walk| - 1);
    }
  }

  lemma VoiceStays(journal: seq<Entry>, longer: seq<Entry>, tenant: Option<Id>, run: Id)
    requires journal <= longer && OneVoice(longer, tenant, run)
    ensures OneVoice(journal, tenant, run)
  {
    assert forall i | 0 <= i < |journal| :: journal[i] == longer[i];
  }

  // ---------------------------------------------------------------- a row that is missed

  const NO_PAYLOAD := Payload(NoId, "", "", "", Absent, Absent, "", "", None, None, None, Absent, Absent, Absent, Absent)

  function Reporter(key: string, tenant: Option<Id>): Agent {
    Agent(key, tenant, 0, Idle, "", 0, None)
  }

  /** Two agents of one tenant. */
  function Pair(tenant: Option<Id>): map<Id, Agent> {
    map[1 := Reporter("a", tenant), 2 := Reporter("b", tenant)]
  }

  function Note(id: Id, eventId: string, key: string, sequence: nat, kind: Kind, run: Id): Event {
    Event(id, eventId, key, sequence, kind, Some(Budgets.Moment(0, 1, 0)), Uuid(run), NoId, NO_PAYLOAD, id)
  }

  function Noted(id: Id, eventId: string, agent: Id, tenant: Option<Id>, sequence: nat, kind: Kind, run: Id): Entry {
    Entry(id, tenant, agent, eventId, sequence, kind, Budgets.Moment(0, 1, 0), Uuid(run), NoId, NO_PAYLOAD, id)
  }

  /** The run is known in its tenant, so its timeline is served. */
  predicate Served(w: World, tenant: Option<Id>, run: Id) {
    run in w.tables.runs && w.tables.runs[run].tenant == tenant
  }

  lemma StaysServed(w: World, v: World, e: Entry, tenant: Option<Id>, run: Id)
    requires Served(w, tenant, run) && v.tables == Project(w.tables, e)
    ensures Served(v, tenant, run)
  {
    RunLaws.RunsEvolve(w.tables, e);
  }

  /** The first agent reports that the run is running, then that it has succeeded; the second agent notes something on it. */
  function FirstReport(tenant: Option<Id>, run: Id): Entry {
    Noted(10, "x", 1, tenant, 5, RunBecame(Running), run)
  }

  function SecondReport(tenant: Option<Id>, run: Id): Entry {
    Noted(11, "y", 1, tenant, 6, RunBecame(Succeeded), run)
  }

  function LateReport(tenant: Option<Id>, run: Id): Entry {
    Noted(12, "z", 2, tenant, 3, AgentNoted("agent.updated"), run)
  }

  lemma StartIsSound(tenant: Option<Id>)
    ensures Inv(Start(Pair(tenant), []))
  {
  }

  lemma BirthIsServed(tenant: Option<Id>, run: Id)
    ensures var t := Project(EMPTY, FirstReport(tenant, run)); run in t.runs && t.runs[run].tenant == tenant
  {
    assert Parse(FirstReport(tenant, run).run) == Some(run);
  }

  lemma RunStarts(tenant: Option<Id>, run: Id) returns (w: World, step: Step)
    ensures CanRun(Start(Pair(tenant), []), [step]) && w == After(Start(Pair(tenant), []), [step])
    ensures Inv(w) && w.agents == Pair(tenant)[1 := Reporter("a", tenant).(lastSequence := 5)]
    ensures w.journal == [FirstReport(tenant, run)] && Served(w, tenant, run)
  {
    var start := Start(Pair(tenant), []);
    StartIsSound(tenant);
    var e := Note(10, "x", "a", 5, RunBecame(Running), run);
    assert EntryOf(1, start.agents[1], e) == FirstReport(tenant, run);
    w, step := OneBatch(start, 1, e);
    BirthIsServed(tenant, run);
  }

  lemma RunSucceeds(w: World, tenant: Option<Id>, run: Id) returns (v: World, step: Step)
    requires Inv(w) && w.agents == Pair(tenant)[1 := Reporter("a", tenant).(lastSequence := 5)]
    requires w.journal == [FirstReport(tenant, run)] && Served(w, tenant, run)
    ensures CanRun(w, [step]) && v == After(w, [step])
    ensures Inv(v) && v.agents == Pair(tenant)[1 := Reporter("a", tenant).(lastSequence := 6)]
    ensures v.journal == [FirstReport(tenant, run), SecondReport(tenant, run)] && Served(v, tenant, run)
  {
    v, step := OneBatch(w, 1, Note(11, "y", "a", 6, RunBecame(Succeeded), run));
    StaysServed(w, v, SecondReport(tenant, run), tenant, run);
  }

  /** Two batches of the first agent: the run is known, its timeline has two rows. */
  lemma FirstVoice(tenant: Option<Id>, run: Id) returns (w: World, setup: seq<Step>)
    ensures CanRun(Start(Pair(tenant), []), setup) && w == After(Start(Pair(tenant), []), setup)
    ensures Inv(w) && w.agents == Pair(tenant)[1 := Reporter("a", tenant).(lastSequence := 6)]
    ensures w.journal == [FirstReport(tenant, run), SecondReport(tenant, run)] && Served(w, tenant, run)
  {
    var u, first := RunStarts(tenant, run);
    var second;
    w, second := RunSucceeds(u, tenant, run);
    setup := [first, second];
    assert setup[1..] == [second] && [first][1..] == [];
    assert CanRun(u, setup[1..]) && Next(Start(Pair(tenant), []), first) == u;
  }

  /** Then the second, on the same run, with a lower sequence. */
  lemma SecondVoice(w: World, tenant: Option<Id>, run: Id) returns (v: World, step: Step)
    requires Inv(w) && w.agents == Pair(tenant)[1 := Reporter("a", tenant).(lastSequence := 6)]
    requires w.journal == [FirstReport(tenant, run), SecondReport(tenant, run)] && Served(w, tenant, run)
    ensures CanRun(w, [step]) && v == After(w, [step])
    ensures v.journal == w.journal + [LateReport(tenant, run)] && Served(v, tenant, run)
  {
    v, step := OneBatch(w, 2, Note(12, "z", "b", 3, AgentNoted("agent.updated"), run));
    StaysServed(w, v, LateReport(tenant, run), tenant, run);
  }

  lemma OneRowPage(rows: set<Entry>, cursor: Option<Entry>, first: Entry, rest: seq<Entry>)
    requires StrictTotal(Earlier, rows) && Keyset.Eligible(Earlier, rows, cursor) == Elements([first] + rest)
    requires Increasing(Earlier, [first] + rest)
    ensures var p := Keyset.PageOf(Earlier, rows, cursor, 1);
            p.rows == [first] && p.next == (if rest == [] then None else Some(first))
  {
    var q := [first] + rest;
    TotalOnSubset(Earlier, rows, Elements(q));
    ArrangeUnique(Earlier, q);
    Keyset.PageCuts(Earlier, rows, cursor, 1);
    assert q[..1] == [first];
  }

  lemma LastPage(first: Entry, second: Entry, late: Entry)
    requires Earlier(late, first) && Earlier(first, second) && Earlier(late, second)
    ensures StrictTotal(Earlier, {first, second, late})
    ensures var walk := Keyset.Walk(Earlier, [{first, second, late}], Some(first), 1);
            Keyset.Finished(walk) && |walk| == 1 && Keyset.Seen(walk) == [second]
  {
    var after := {first, second, late};
    assert StrictTotal(Earlier, after);
    assert Keyset.Eligible(Earlier, after, Some(first)) == Elements([second] + []);
    OneRowPage(after, Some(first), second, []);
    Keyset.WalkStep(Earlier, [after], Some(first), 1);
  }

  /** Reading one row a page: the row that arrives before the cursor is passed over. */
  lemma PassedOver(tables: seq<set<Entry>>, first: Entry, second: Entry, late: Entry)
    requires tables == [{first, second}, {first, second, late}]
    requires Earlier(late, first) && Earlier(first, second) && Earlier(late, second)
    ensures forall i | 0 <= i < |tables| :: StrictTotal(Earlier, tables[i])
    ensures var walk := Keyset.Walk(Earlier, tables, None, 1);
            Keyset.Finished(walk) && |walk| == 2 && Keyset.Seen(walk) == [first, second]
  {
    LastPage(first, second, late);
    TotalOnSubset(Earlier, {first, second, late}, {first, second});
    assert Keyset.Eligible(Earlier, tables[0], None) == Elements([first] + [second]);
    OneRowPage(tables[0], None, first, [second]);
    Keyset.WalkStep(Earlier, tables, None, 1);
    assert tables[1..] == [{first, second, late}];
  }

  lemma TwoTimelines(w: World, v: World, first: Entry, second: Entry, late: Entry, tenant: Option<Id>, run: Id)
    requires w.journal == [first, second] && v.journal == [first, second, late]
    requires Concerns(first, tenant, run) && Concerns(second, tenant, run) && Concerns(late, tenant, run)
    ensures Views([w, v], tenant, run) == [{first, second}, {first, second, late}]
  {
    assert TimelineOf(w.journal, tenant, run) == {first, second} && TimelineOf(v.journal, tenant, run) == {first, second, late};
  }

  /** A schedule with two voices, and the timelines a reader meets. */
  lemma TwoVoices(tenant: Option<Id>, run: Id)
    returns (setup: seq<Step>, worlds: seq<World>, between: seq<seq<Step>>, first: Entry, second: Entry, late: Entry)
    ensures CanRun(Start(Pair(tenant), []), setup) && |worlds| == 2 && worlds[0] == After(Start(Pair(tenant), []), setup)
    ensures Unfolds(worlds, between) && Inv(worlds[0]) && Served(worlds[0], tenant, run) && Served(worlds[1], tenant, run)
    ensures Earlier(late, first) && Earlier(first, second) && Earlier(late, second)
    ensures Views(worlds, tenant, run) == [{first, second}, {first, second, late}]
    ensures late in TimelineOf(worlds[1].journal, tenant, run)
  {
    var w, v, step;
    w, setup := FirstVoice(tenant, run);
    v, step := SecondVoice(w, tenant, run);
    first, second, late := w.journal[0], w.journal[1], v.journal[2];
    TwoTimelines(w, v, first, second, late, tenant, run);
    worlds, between := [w, v], [[step]];
    assert Views(worlds, tenant, run)[1] == TimelineOf(v.journal, tenant, run);
  }

  /**
   From an empty journal, a run of two agents' batches that leaves the run known, and a reader taking one
   row a page: the reader finishes without having seen a row that was in the timeline at its last request.
   */
  lemma SecondVoiceIsMissed(tenant: Option<Id>, run: Id)
    returns (setup: seq<Step>, worlds: seq<World>, between: seq<seq<Step>>, missed: Entry)
    ensures CanRun(Start(Pair(tenant), []), setup) && worlds != [] && worlds[0] == After(Start(Pair(tenant), []), setup)
    ensures Unfolds(worlds, between) && Inv(worlds[0])
    ensures forall w | w in worlds :: run in w.tables.runs && w.tables.runs[run].tenant == tenant
    ensures forall i | 0 <= i < |worlds| :: StrictTotal(Earlier, Views(worlds, tenant, run)[i])
    ensures var walk := Keyset.Walk(Earlier, Views(worlds, tenant, run), None, 1);
            && Keyset.Finished(walk) && |walk| == |worlds|
            && missed in TimelineOf(worlds[|worlds| - 1].journal, tenant, run) && missed !in Keyset.Seen(walk)
  {
    var first, second;
    setup, worlds, between, first, second, missed := TwoVoices(tenant, run);
    assert forall w | w in worlds :: Served(w, tenant, run);
    PassedOver(Views(worlds, tenant, run), first, second, missed);
  }
}
