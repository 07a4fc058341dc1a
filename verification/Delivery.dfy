/** FIFO delivery: exactly which commands a poll hands out, and what it leaves behind. */
module Delivery {
  import opened Prelude
  import opened StateMachines
  import opened Ordering
  import opened Control

  /** The queue holds queued rows of the table, each once. */
  ghost predicate QueuedRows(db: Db, queue: seq<Command>) {
    && (forall c | c in queue :: c.id in db.commands && db.commands[c.id] == c && c.status == CommandQueued)
    && (forall i, j | 0 <= i < j < |queue| :: queue[i].id != queue[j].id)
  }

  lemma QueueRows(db: Db, tenant: Option<Id>, agent: Id)
    requires KeysMatch(db)
    ensures QueuedRows(db, Queue(db, tenant, agent))
    ensures forall c | c in Queue(db, tenant, agent) :: c.releasedAt.Some?
  {
    var q := Queue(db, tenant, agent);
    QueueIsQueued(db, tenant, agent);
    forall i, j | 0 <= i < j < |q|
      ensures q[i].id != q[j].id
    {
      assert Earlier(q[i], q[j]) && q[i] in q && q[j] in q;
    }
  }

  function Handled(c: Command, now: Time): Command
    requires c.status == CommandQueued
  {
    Moved(c, if IsStale(c, now) then CommandExpired else Delivered, now)
  }

  lemma HandleLeavesRest(db: Db, queue: seq<Command>, now: Time)
    requires queue != [] && QueuedRows(db, queue)
    ensures queue[0] in queue && queue[0].status == CommandQueued
    ensures Handle(db, queue[0], now).commands == db.commands[queue[0].id := Handled(queue[0], now)]
    ensures QueuedRows(Handle(db, queue[0], now), queue[1..])
  {
    forall c | c in queue[1..]
      ensures c in queue && c.id != queue[0].id
    {
      var i :| 0 <= i < |queue| - 1 && queue[1..][i] == c;
      assert queue[i + 1] == c;
    }
  }

  predicate Mentions(queue: seq<Command>, id: Id) {
    exists i :: 0 <= i < |queue| && queue[i].id == id
  }

  /** The poll rewrites the rows it walks over, each once, and no other row. */
  lemma {:induction false} WalkPointwise(db: Db, walked: seq<Command>, now: Time)
    requires QueuedRows(db, walked)
    ensures var db' := HandleAll(db, walked, now);
            && db'.commands.Keys == db.commands.Keys && db'.approvals == db.approvals
            && (forall c | c in walked :: db'.commands[c.id] == Handled(c, now))
            && (forall id | id in db.commands && !Mentions(walked, id) :: db'.commands[id] == db.commands[id])
    decreases |walked|
  {
    if walked != [] {
      var c := walked[0];
      HandleLeavesRest(db, walked, now);
      WalkPointwise(Handle(db, c, now), walked[1..], now);
      assert !Mentions(walked[1..], c.id);
      forall d | d in walked
        ensures d == c || d in walked[1..]
      {
      }
      forall id | id in db.commands && !Mentions(walked, id)
        ensures id != c.id && !Mentions(walked[1..], id)
      {
        assert walked[0].id != id;
        assert forall i | 0 <= i < |walked| - 1 :: walked[1..][i] == walked[i + 1];
      }
    }
  }

  function Take<T>(s: seq<T>, n: nat): seq<T> {
    if |s| <= n then s else s[..n]
  }

  lemma {:induction false} LiveSplit(a: seq<Command>, b: seq<Command>, now: Time)
    ensures Live(a + b, now) == Live(a, now) + Live(b, now)
  {
    if a == [] {
      assert a + b == b;
    } else {
      assert (a + b)[0] == a[0] && (a + b)[1..] == a[1..] + b;
      LiveSplit(a[1..], b, now);
    }
  }

  /** A poll stops at its last delivery, or runs out of queue. */
  lemma {:induction false} CutCount(queue: seq<Command>, limit: nat, now: Time)
    requires limit >= 1
    ensures Cut(queue, limit, now) <= |queue|
    ensures var n := |Live(queue[..Cut(queue, limit, now)], now)|;
            n <= limit && (n < limit ==> Cut(queue, limit, now) == |queue|)
    decreases |queue|
  {
    if queue != [] {
      var k, c := Cut(queue, limit, now), queue[0];
      CutInRange(queue, limit, now);
      assert queue[..k] == [c] + queue[1..][..k - 1];
      LiveSplit([c], queue[1..][..k - 1], now);
      if IsStale(c, now) {
        CutCount(queue[1..], limit, now);
      } else if limit > 1 {
        CutCount(queue[1..], limit - 1, now);
      }
    }
  }

  lemma TakeFront<T>(a: seq<T>, b: seq<T>, n: nat)
    requires |a| <= n && (|a| < n ==> b == [])
    ensures Take(a + b, n) == a
  {
  }

  /** The live commands of the walked prefix are the first live ones; the rest keeps the others. */
  lemma CutIsFirstLive(queue: seq<Command>, limit: nat, now: Time)
    requires limit >= 1
    ensures var k := Cut(queue, limit, now);
            && k <= |queue|
            && Live(queue[..k], now) == Take(Live(queue, now), limit)
            && Live(queue, now) == Live(queue[..k], now) + Live(queue[k..], now)
  {
    var k := Cut(queue, limit, now);
    CutCount(queue, limit, now);
    var front, back := queue[..k], queue[k..];
    assert queue == front + back;
    LiveSplit(front, back, now);
    TakeFront(Live(front, now), Live(back, now), limit);
  }

  lemma WalkedRows(db: Db, tenant: Option<Id>, agent: Id, limit: int, now: Time)
    requires KeysMatch(db)
    ensures var q, w := Queue(db, tenant, agent), Walked(db, tenant, agent, limit, now);
            && w <= q && QueuedRows(db, w)
            && (forall c | c in w :: c.releasedAt.Some? && c in Candidates(db, tenant, agent))
            && Live(w, now) == Take(Live(q, now), ClampPoll(limit))
            && Live(q, now) == Live(w, now) + Live(q[|w|..], now)
  {
    var q, w := Queue(db, tenant, agent), Walked(db, tenant, agent, limit, now);
    QueueRows(db, tenant, agent);
    QueueIsQueued(db, tenant, agent);
    CutIsFirstLive(q, ClampPoll(limit), now);
    forall c | c in w ensures c in q {}
  }

  lemma WalkKeepsKeys(db: Db, walked: seq<Command>, now: Time)
    requires KeysMatch(db) && QueuedRows(db, walked)
    ensures KeysMatch(HandleAll(db, walked, now))
  {
    var db' := HandleAll(db, walked, now);
    WalkPointwise(db, walked, now);
    forall id | id in db'.commands
      ensures db'.commands[id].id == id
    {
      if i :| 0 <= i < |walked| && walked[i].id == id { assert walked[i] in walked; }
    }
  }

  /** After a poll the queue is what it did not walk over. */
  lemma QueueAfterPoll(db: Db, tenant: Option<Id>, agent: Id, limit: int, now: Time)
    requires KeysMatch(db)
    ensures var q, w := Queue(db, tenant, agent), Walked(db, tenant, agent, limit, now);
            var db' := Poll(db, tenant, agent, limit, now).0;
            KeysMatch(db') && w <= q && Queue(db', tenant, agent) == q[|w|..]
  {
    var q, w := Queue(db, tenant, agent), Walked(db, tenant, agent, limit, now);
    var db' := HandleAll(db, w, now);
    WalkedRows(db, tenant, agent, limit, now);
    WalkPointwise(db, w, now);
    WalkKeepsKeys(db, w, now);
    CandidatesLeft(db, db', tenant, agent, w, now);
    assert q[..|w|] == w;
    CandidatesOrdered(db, tenant, agent);
    ArrangeSuffix(Earlier, Candidates(db, tenant, agent), |w|);
  }

  lemma CandidatesLeft(db: Db, db': Db, tenant: Option<Id>, agent: Id, w: seq<Command>, now: Time)
    requires KeysMatch(db) && KeysMatch(db') && QueuedRows(db, w)
    requires db'.commands.Keys == db.commands.Keys
    requires forall c | c in w :: db'.commands[c.id] == Handled(c, now)
    requires forall id | id in db.commands && !Mentions(w, id) :: db'.commands[id] == db.commands[id]
    ensures Candidates(db', tenant, agent) == Candidates(db, tenant, agent) - Elements(w)
  {
    forall c | c in Candidates(db', tenant, agent)
      ensures c in Candidates(db, tenant, agent) && c !in w
    {
      assert !Mentions(w, c.id);
    }
    forall c | c in Candidates(db, tenant, agent) - Elements(w)
      ensures c in Candidates(db', tenant, agent)
    {
      if i :| 0 <= i < |w| && w[i].id == c.id { assert w[i] in w && w[i] == c; }
    }
  }

  /**
   FIFO: a poll returns exactly the first `limit` live commands of the agent's queue and leaves the
   later live ones, in order, for the next poll.
   */
  lemma PollIsFifo(db: Db, tenant: Option<Id>, agent: Id, limit: int, now: Time)
    requires KeysMatch(db)
    ensures var live, n := Live(Queue(db, tenant, agent), now), ClampPoll(limit);
            var (db', ids) := Poll(db, tenant, agent, limit, now);
            && ids == Take(live, n)
            && KeysMatch(db') && Live(Queue(db', tenant, agent), now) == live[|ids|..]
  {
    WalkedRows(db, tenant, agent, limit, now);
    QueueAfterPoll(db, tenant, agent, limit, now);
  }

  /** Queued, released, unexpired, and this agent's own. */
  predicate Ready(c: Command, tenant: Option<Id>, agent: Id, now: Time) {
    c.agent == agent && c.tenant == tenant && c.status == CommandQueued && c.releasedAt.Some? && now < c.expiresAt
  }

  /** Known commands, oldest first. */
  ghost predicate OldestFirst(db: Db, ids: seq<Id>) {
    && (forall id | id in ids :: id in db.commands)
    && forall i, j | 0 <= i < j < |ids| :: Earlier(db.commands[ids[i]], db.commands[ids[j]])
  }

  lemma OldestFirstCons(db: Db, id: Id, ids: seq<Id>)
    requires OldestFirst(db, ids) && id in db.commands
    requires forall x | x in ids :: Earlier(db.commands[id], db.commands[x])
    ensures OldestFirst(db, [id] + ids)
  {
    var more := [id] + ids;
    forall k | 0 <= k < |more| ensures more[k] in db.commands {
      if k > 0 { assert more[k] == ids[k - 1] && ids[k - 1] in ids; }
    }
    forall i, j | 0 <= i < j < |more|
      ensures Earlier(db.commands[more[i]], db.commands[more[j]])
    {
      assert more[j] == ids[j - 1] && ids[j - 1] in ids;
      if i > 0 {
        var known := ids[i - 1];
        assert more[i] == known && Earlier(db.commands[known], db.commands[ids[j - 1]]);
      }
    }
  }

  /** The live ids of a queue, in its order, are the rows that are not stale. */
  lemma {:induction false} LiveRows(db: Db, queue: seq<Command>, now: Time)
    requires QueuedRows(db, queue) && Increasing(Earlier, queue)
    ensures forall id | id in Live(queue, now) :: id in db.commands && db.commands[id] in queue && !IsStale(db.commands[id], now)
    ensures forall c | c in queue && !IsStale(c, now) :: c.id in Live(queue, now)
    ensures OldestFirst(db, Live(queue, now))
    decreases |queue|
  {
    if queue != [] {
      var c, rest := queue[0], queue[1..];
      var tail := Live(rest, now);
      assert forall d :: d in queue <==> d == c || d in rest;
      LiveRows(db, rest, now);
      forall id | id in tail
        ensures Earlier(c, db.commands[id])
      {
        var i :| 0 <= i < |rest| && rest[i] == db.commands[id];
        assert queue[i + 1] == rest[i];
      }
      if IsStale(c, now) {
        assert Live(queue, now) == tail;
      } else {
        OldestFirstCons(db, c.id, tail);
        assert Live(queue, now) == [c.id] + tail;
      }
    }
  }

  /** The queue's live ids are the ready commands, oldest first. */
  lemma LiveIsReady(db: Db, tenant: Option<Id>, agent: Id, now: Time)
    requires KeysMatch(db)
    ensures var live := Live(Queue(db, tenant, agent), now);
            && (forall id :: id in live <==> id in db.commands && Ready(db.commands[id], tenant, agent, now))
            && OldestFirst(db, live)
  {
    var queue := Queue(db, tenant, agent);
    QueueRows(db, tenant, agent);
    QueueIsQueued(db, tenant, agent);
    LiveRows(db, queue, now);
    forall id | id in db.commands && Ready(db.commands[id], tenant, agent, now)
      ensures id in Live(queue, now)
    {
      assert db.commands[id] in Candidates(db, tenant, agent);
    }
  }

  /**
   A poll hands out ready commands only, at most the limit, and leaves a ready one behind only when
   the limit is reached and every one handed out is older, by creation time and then identifier.
   */
  lemma PollHandsOutTheOldest(db: Db, tenant: Option<Id>, agent: Id, limit: int, now: Time)
    requires KeysMatch(db)
    ensures var ids := Poll(db, tenant, agent, limit, now).1;
            && |ids| <= ClampPoll(limit)
            && (forall id | id in ids :: id in db.commands && Ready(db.commands[id], tenant, agent, now))
            && (forall left | left in db.commands && Ready(db.commands[left], tenant, agent, now) && left !in ids ::
                  && |ids| == ClampPoll(limit)
                  && forall id | id in ids ::
                       || db.commands[id].createdAt < db.commands[left].createdAt
                       || (db.commands[id].createdAt == db.commands[left].createdAt && id < left))
  {
    var live := Live(Queue(db, tenant, agent), now);
    PollIsFifo(db, tenant, agent, limit, now);
    LiveIsReady(db, tenant, agent, now);
    var ids := Take(live, ClampPoll(limit));
    assert ids <= live;
    forall left | left in live && left !in ids
      ensures |ids| == ClampPoll(limit)
      ensures forall id | id in ids :: Earlier(db.commands[id], db.commands[left])
    {
      var j :| 0 <= j < |live| && live[j] == left;
      assert |ids| <= j;
      forall id | id in ids
        ensures Earlier(db.commands[id], db.commands[left])
      {
        var i :| 0 <= i < |ids| && ids[i] == id;
        assert live[i] == id;
      }
    }
  }

  /** Polling again and again at one instant; the limits may differ. */
  ghost function Polls(db: Db, tenant: Option<Id>, agent: Id, limits: seq<int>, now: Time): seq<Id>
    requires KeysMatch(db)
    decreases |limits|
  {
    if limits == [] then []
    else
      QueueAfterPoll(db, tenant, agent, limits[0], now);
      var (db', ids) := Poll(db, tenant, agent, limits[0], now);
      ids + Polls(db', tenant, agent, limits[1..], now)
  }

  lemma TakeMore<T>(s: seq<T>, n: nat, m: nat)
    ensures Take(s, n) + Take(s[|Take(s, n)|..], m) == Take(s, n + m)
  {
  }

  function Total(limits: seq<int>): nat {
    if limits == [] then 0 else ClampPoll(limits[0]) + Total(limits[1..])
  }

  /** Successive polls hand out the live queue in order, without gap or repetition. */
  lemma {:induction false} PollsConcatenate(db: Db, tenant: Option<Id>, agent: Id, limits: seq<int>, now: Time)
    requires KeysMatch(db)
    ensures var live := Live(Queue(db, tenant, agent), now);
            Polls(db, tenant, agent, limits, now) == Take(live, Total(limits))
    decreases |limits|
  {
    if limits != [] {
      var live := Live(Queue(db, tenant, agent), now);
      PollIsFifo(db, tenant, agent, limits[0], now);
      var (db', ids) := Poll(db, tenant, agent, limits[0], now);
      PollsConcatenate(db', tenant, agent, limits[1..], now);
      TakeMore(live, ClampPoll(limits[0]), Total(limits[1..]));
    }
  }
}
