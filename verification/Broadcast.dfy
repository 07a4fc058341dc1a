/** From the tables to the channel: what ingestion and governance announce, the relays deliver or give up. */
module Broadcast {
  import Relay
  import Outbox
  import Ingest
  import JournalSafety
  import Platform

  /** Row i of the outbox is the relay's row i. */
  predicate Inserts(step: Relay.Step, rows: seq<Outbox.Row>, i: int) {
    step.Insert? && step.id == i && 0 <= i < |rows| && step.tenant == rows[i].tenant
  }

  ghost predicate Inserted(steps: seq<Relay.Step>, rows: seq<Outbox.Row>, i: int) {
    exists k :: 0 <= k < |steps| && Inserts(steps[k], rows, i)
  }

  /** The relay's table received every row of the outbox. */
  ghost predicate Fed(steps: seq<Relay.Step>, rows: seq<Outbox.Row>) {
    forall i | 0 <= i < |rows| :: Inserted(steps, rows, i)
  }

  /** Still waiting, on the channel, or refused in eight committed passes. */
  ghost predicate Settled(steps: seq<Relay.Step>, i: int)
    requires Relay.Runs(Relay.EMPTY, steps)
  {
    var s := Relay.After(Relay.EMPTY, steps);
    i in Relay.Waiting(s.rows, {}) || i in s.channel || Relay.Failures(Relay.EMPTY, steps, i) == 8
  }

  lemma {:induction false} InsertedStays(s: Relay.State, steps: seq<Relay.Step>, k: nat)
    requires Relay.Inv(s) && Relay.Runs(s, steps) && k < |steps| && steps[k].Insert?
    ensures var v := Relay.After(s, steps);
            steps[k].id in v.rows && v.rows[steps[k].id].tenant == steps[k].tenant
    decreases |steps|
  {
    var v := Relay.Next(s, steps[0]);
    Relay.StepKeepsInv(s, steps[0]);
    if k == 0 {
      Relay.TenantStays(v, steps[1..], steps[0].id);
    } else {
      assert steps[1..][k - 1] == steps[k];
      InsertedStays(v, steps[1..], k - 1);
    }
  }

  /** Whatever relays did, every row with a tenant waits, is on the channel, or was refused in eight committed passes. */
  lemma WaitsDeliveredOrGivenUp(rows: seq<Outbox.Row>, steps: seq<Relay.Step>, i: nat)
    requires Relay.Runs(Relay.EMPTY, steps) && Fed(steps, rows)
    requires i < |rows| && rows[i].tenant.Some?
    ensures Settled(steps, i)
  {
    assert Inserted(steps, rows, i);
    var k :| 0 <= k < |steps| && Inserts(steps[k], rows, i);
    var s := Relay.After(Relay.EMPTY, steps);
    InsertedStays(Relay.EMPTY, steps, k);
    Relay.NothingIsLost(Relay.EMPTY, steps);
    Relay.FailedMeansEightFailures(steps, i);
    assert Relay.Accounted(i, s.rows[i], s.channel);
  }

  /**
   In every reachable state every journaled event has an outbox row of its own, in journal order, and
   that row, if it has a tenant, waits, is on the channel, or was given up after eight refusals.
   */
  lemma JournaledIsBroadcast(w: Platform.World, steps: seq<Relay.Step>) returns (at: seq<nat>)
    requires Platform.Reachable(w) && Relay.Runs(Relay.EMPTY, steps) && Fed(steps, Platform.OutboxOf(w))
    ensures |at| == |w.ingest.journal| && Outbox.Ascending(at)
    ensures forall k | 0 <= k < |at| ::
              && at[k] < |Platform.OutboxOf(w)|
              && Platform.OutboxOf(w)[at[k]] == Ingest.Announcement(w.ingest.journal[k])
              && (w.ingest.journal[k].tenant.Some? ==> Settled(steps, at[k]))
  {
    var rows, journal := Platform.OutboxOf(w), w.ingest.journal;
    var mine := Outbox.Positions(rows, Outbox.Journaling);
    Platform.OneOutbox(w);
    Outbox.PositionsPoint(rows, Outbox.Journaling);
    forall k: nat | k < |journal| ensures JournalSafety.Place(journal, k) < |mine| { JournalSafety.PlaceHolds(journal, k); }
    at := seq(|journal|, k requires 0 <= k < |journal| => mine[JournalSafety.Place(journal, k)]);
    forall j, k | 0 <= j < k < |at| ensures at[j] < at[k] { JournalSafety.PlacesRise(journal, j, k); }
    forall k | 0 <= k < |at|
      ensures at[k] < |rows| && rows[at[k]] == Ingest.Announcement(journal[k])
      ensures journal[k].tenant.Some? ==> Settled(steps, at[k])
    {
      JournalSafety.PlaceHolds(journal, k);
      if journal[k].tenant.Some? { WaitsDeliveredOrGivenUp(rows, steps, at[k]); }
    }
  }

  /** The same of every row the control services wrote: about commands and approvals, in the order written. */
  lemma GovernedIsBroadcast(w: Platform.World, steps: seq<Relay.Step>) returns (at: seq<nat>)
    requires Platform.Reachable(w) && Relay.Runs(Relay.EMPTY, steps) && Fed(steps, Platform.OutboxOf(w))
    ensures |at| == |w.control.db.outbox| && Outbox.Ascending(at)
    ensures forall k | 0 <= k < |at| ::
              && at[k] < |Platform.OutboxOf(w)|
              && Platform.OutboxOf(w)[at[k]] == w.control.db.outbox[k]
              && (w.control.db.outbox[k].tenant.Some? ==> Settled(steps, at[k]))
  {
    var rows, written := Platform.OutboxOf(w), w.control.db.outbox;
    Platform.OneOutbox(w);
    Outbox.PositionsPoint(rows, Outbox.Governing);
    at := Outbox.Positions(rows, Outbox.Governing);
    forall k | 0 <= k < |at| && written[k].tenant.Some?
      ensures Settled(steps, at[k])
    {
      WaitsDeliveredOrGivenUp(rows, steps, at[k]);
    }
  }
}
