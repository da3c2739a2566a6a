/** The relay's polling loop. */
module RelayWorker {
  import opened JobOutbox
  import opened OutboxStore
  import opened JobsOptions
  import opened Relay
  import opened OutboxGuarantees
  import Ranking

  /** Every pending or claimed row has an attempt left; the protocol keeps this in every reachable state. */
  ghost predicate AttemptsLeft(o: Options, t: Tables) {
    forall id :: id in t.outbox && (t.outbox[id].status == Pending || t.outbox[id].status == Claimed) ==>
      t.outbox[id].attemptCount < o.retry.maxAttempts
  }

  /** The times of the turns and the fates of the dispatches, whatever they may be. */
  datatype Weather = Weather(clock: nat -> Time, attempt: nat -> Attempt) {
    ghost predicate Possible() {
      forall k :: attempt(k).Possible()
    }

    predicate Throws(k: nat) {
      attempt(k).Throws()
    }

    ghost predicate Smooth(from: nat, to: nat) {
      forall k: nat :: from <= k < to ==> !Throws(k)
    }

    lemma SmoothJoins(from: nat, middle: nat, to: nat)
      requires Smooth(from, middle) && Smooth(middle, to)
      ensures Smooth(from, to)
    {
    }

    lemma SmoothGrows(from: nat, to: nat)
      requires Smooth(from, to) && !Throws(to)
      ensures Smooth(from, to + 1)
    {
    }
  }

  ghost predicate AllClaimed(t: Tables, ids: set<JobId>) {
    forall id :: id in ids ==> IsClaimed(t, id)
  }

  lemma DispatchKeepsOthers(o: Options, t: Tables, id: JobId, a: Attempt, now: Time)
    requires AttemptsLeft(o, t)
    ensures var t' := DispatchRow(o, t, id, a, now);
      && AttemptsLeft(o, t')
      && forall i :: i != id && IsClaimed(t, i) ==> IsClaimed(t', i)
  {
  }

  class OutboxRelayWorker {
    const relay: OutboxRelayService

    constructor (relay: OutboxRelayService)
      ensures this.relay == relay
    {
      this.relay := relay;
    }

    /** The state the loop starts from and keeps. */
    ghost predicate Ready()
      reads relay.db, relay.queue
    {
      AttemptsLeft(relay.o, relay.db.Contents()) && relay.queue.Valid()
    }

    /** The attempts left in the table as it is. */
    ghost function Left(): nat
      reads relay.db
    {
      Remaining(relay.o, relay.db.Contents())
    }

    /** The batch is a claim of the configured size. */
    ghost predicate IsBatch(t: Tables, batch: set<JobId>, now: Time) {
      Ranking.IsFirst(batch, ClaimPool(t, now, relay.o.claimTimeoutMs, {}), relay.o.batchSize)
    }

    method ClaimBatch(now: Time) returns (batch: set<JobId>)
      requires relay.o.Valid() && Ready()
      modifies relay.db`outbox
      ensures Ready()
      ensures AllClaimed(relay.db.Contents(), batch)
      ensures IsBatch(old(relay.db.Contents()), batch, now)
      ensures Left() == old(Left())
      ensures batch == {} ==> ClaimPool(relay.db.Contents(), now, relay.o.claimTimeoutMs, {}) == map[]
    {
      ghost var t := relay.db.Contents();
      batch := relay.db.ClaimPendingBatch(relay.o.batchSize, now, relay.o.claimTimeoutMs, {});
      ClaimKeepsRemaining(relay.o, t, batch, {}, now);
      ClaimShrinksPool(relay.o, t, batch, now);
    }

    method DispatchOne(id: JobId, a: Attempt, now: Time, ghost todo: set<JobId>) returns (threw: bool)
      requires Ready() && a.Possible()
      requires AllClaimed(relay.db.Contents(), todo) && id in todo
      modifies relay.db`outbox, relay.queue
      ensures Ready()
      ensures threw <==> a.Throws()
      ensures AllClaimed(relay.db.Contents(), todo - {id})
      ensures if threw then Left() == old(Left()) else Left() < old(Left())
    {
      ghost var t := relay.db.Contents();
      var m;
      m, threw := relay.DispatchClaimedJob(id, a, now);
      DispatchKeepsOthers(relay.o, t, id, a, now);
      if !threw {
        DispatchDrains(relay.o, t, id, a, now);
      }
    }

    /**
     Dispatches the jobs of one batch in some order; a dispatch whose error handler cannot write either throws and
     ends it. `count` counts the dispatches that returned.
     */
    method DispatchBatch(batch: set<JobId>, w: Weather, now: Time, from: nat) returns (count: nat, threw: bool)
      requires Ready() && w.Possible()
      requires AllClaimed(relay.db.Contents(), batch)
      modifies relay.db`outbox, relay.queue
      ensures Ready()
      ensures if threw then count < |batch| else count == |batch|
      ensures w.Smooth(from, from + count) && (threw ==> w.Throws(from + count))
      ensures count + Left() <= old(Left())
    {
      count, threw := 0, false;
      var todo := batch;
      while todo != {}
        invariant todo <= batch && count + |todo| == |batch| && !threw
        invariant Ready()
        invariant AllClaimed(relay.db.Contents(), todo)
        invariant w.Smooth(from, from + count)
        invariant count + Left() <= old(Left())
        decreases todo
      {
        var id :| id in todo;
        threw := DispatchOne(id, w.attempt(from + count), now, todo);
        if threw {
          return;
        }
        w.SmoothGrows(from, from + count);
        todo, count := todo - {id}, count + 1;
      }
    }

    /** One turn of the loop: claim a batch and dispatch it. */
    method Turn(w: Weather, now: Time, from: nat) returns (count: nat, idle: bool, threw: bool)
      requires relay.o.Valid() && Ready() && w.Possible()
      modifies relay.db`outbox, relay.queue
      ensures Ready()
      ensures count + Left() <= old(Left())
      ensures w.Smooth(from, from + count) && (threw ==> w.Throws(from + count))
      ensures idle ==>
        && count == 0 && !threw
        && ClaimPool(relay.db.Contents(), now, relay.o.claimTimeoutMs, {}) == map[]
    {
      count, threw := 0, false;
      var batch := ClaimBatch(now);
      idle := batch == {};
      if !idle {
        count, threw := DispatchBatch(batch, w, now, from);
      }
    }

    /**
     The loop, stopped after `ticks` turns or by a dispatch that throws. However long it runs, it dispatches no
     more often than there were attempts left at the start, and a turn that claims nothing (`idle`) found no
     claimable row.
     */
    method Start(ticks: nat, w: Weather) returns (dispatched: nat, idle: bool, threw: bool)
      requires relay.o.Valid() && Ready() && w.Possible()
      modifies relay.db`outbox, relay.queue
      ensures Ready()
      ensures dispatched + Left() <= old(Left())
      ensures w.Smooth(0, dispatched) && (threw ==> w.Throws(dispatched))
      ensures idle && !threw ==>
        && ticks > 0
        && ClaimPool(relay.db.Contents(), w.clock(ticks - 1), relay.o.claimTimeoutMs, {}) == map[]
    {
      dispatched, idle, threw := 0, false, false;
      var tick := 0;
      while tick < ticks && !threw
        invariant tick <= ticks
        invariant Ready()
        invariant dispatched + Left() <= old(Left())
        invariant w.Smooth(0, dispatched) && (threw ==> w.Throws(dispatched))
        invariant idle && !threw ==>
          && tick > 0
          && ClaimPool(relay.db.Contents(), w.clock(tick - 1), relay.o.claimTimeoutMs, {}) == map[]
        decreases ticks - tick
      {
        var count;
        count, idle, threw := Turn(w, w.clock(tick), dispatched);
        w.SmoothJoins(0, dispatched, dispatched + count);
        dispatched, tick := dispatched + count, tick + 1;
      }
    }
  }
}
