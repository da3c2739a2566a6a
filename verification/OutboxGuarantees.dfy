/** What the lifecycle protocol promises over all of its runs. */
module OutboxGuarantees {
  import opened Wrappers
  import opened JobOutbox
  import opened OutboxStore
  import opened JobHandlers
  import opened JobsOptions
  import opened Relay
  import opened Consumer
  import opened Lifecycle
  import FreshIds
  import RetryPolicy
  import Ranking
  import Sums

  const OK: Attempt := Attempt(true, false, true, true)
  const GOOD: World := World(true, Accepts, false, None, true, true)

  /** The row can be claimed at that time if nothing writes it first. */
  ghost predicate ClaimableAt(o: Options, t: Tables, id: JobId, at: Time) {
    id in ClaimPool(t, at, o.claimTimeoutMs, {})
  }

  /** Where a job may be: nothing else is possible for a job that was created and not cleaned up. */
  ghost predicate AccountedFor(o: Options, s: State, id: JobId) {
    && id in s.t.outbox && id in s.jobs
    && var job := s.t.outbox[id];
      || (job.status == Pending && forall at :: job.nextAttemptAt <= at ==> ClaimableAt(o, s.t, id, at))
      || (job.status == Claimed && forall at :: s.now + o.claimTimeoutMs < at ==> ClaimableAt(o, s.t, id, at))
      || (job.status == Published && Awaited(s, id))
      || (job.status == Completed && (id, s.jobs[id]) in s.t.receipts)
      || job.status == Dead
  }

  /** No job is lost: every job ever created is accounted for, unless cleanup removed its row. */
  lemma NoJobIsLost(o: Options, events: seq<Event>, s: State, id: JobId)
    requires o.Valid() && Runs(o, Init(), events, s) && id in s.jobs
    ensures id !in s.removed ==> AccountedFor(o, s, id)
    ensures (forall e: Event :: e in events ==> !e.Cleanup?) ==> id !in s.removed
  {
    RunKeepsInv(o, Init(), events, s);
    RunKeepsDates(o, Init(), events, s, id);
    if forall e: Event :: e in events ==> !e.Cleanup? {
      NothingRemoved(o, Init(), events, s);
    }
  }

  lemma {:induction false} NothingRemoved(o: Options, s: State, events: seq<Event>, s': State)
    requires Runs(o, s, events, s') && forall e: Event :: e in events ==> !e.Cleanup?
    ensures s'.removed == s.removed
    decreases |events|
  {
    if events == [] {
    } else {
      assert events[0] in events;
      NothingRemoved(o, Apply(o, s, events[0]), events[1..], s');
    }
  }

  /** A row is completed exactly when its job has a receipt, and receipts outlive no row. */
  lemma CompletedIffReceipt(o: Options, events: seq<Event>, s: State, id: JobId, handler: JobType)
    requires o.Valid() && Runs(o, Init(), events, s)
    ensures (id, handler) in s.t.receipts <==>
      id in s.t.outbox && s.t.outbox[id].status == Completed && handler == s.t.outbox[id].jobType
  {
    RunKeepsInv(o, Init(), events, s);
  }

  /** A completed row in `t` is still that row in `t'`. */
  ghost predicate CompletedStays(t: Tables, t': Tables, id: JobId) {
    id in t.outbox && t.outbox[id].status == Completed ==> id in t'.outbox && t'.outbox[id] == t.outbox[id]
  }

  lemma SweepsKeepCompleted(o: Options, t: Tables, ids: set<JobId>, locked: set<JobId>, now: Time, id: JobId)
    ensures ids <= ClaimPool(t, now, o.claimTimeoutMs, locked).Keys ==> CompletedStays(t, ClaimRows(t, ids, now), id)
    ensures ids <= DeadPool(t).Keys ==> CompletedStays(t, ReplayRows(t, ids, now), id)
  {
  }

  lemma WorkersKeepCompleted(o: Options, t: Tables, body: Option<Envelope>, w: World,
                             i: JobId, a: Attempt, now: Time, id: JobId)
    ensures CompletedStays(t, Receive(t, body, w, now).tables, id)
    ensures CompletedStays(t, Consumer.Condemn(t, body, now), id)
    ensures CompletedStays(t, DispatchRow(o, t, i, a, now), id)
  {
    if body.Some? {
      ProcessEffect(t, body.value, w, now);
    }
  }

  lemma StepKeepsCompleted(o: Options, s: State, e: Event, id: JobId)
    requires Inv(o, s) && Enabled(o, s, e)
    ensures CompletedStays(s.t, Apply(o, s, e).t, id) || (e.Cleanup? && id in e.ids)
  {
    match e
    case Claim(ids, locked) => SweepsKeepCompleted(o, s.t, ids, locked, s.now, id);
    case Replay(ids) => SweepsKeepCompleted(o, s.t, ids, {}, s.now, id);
    case Dispatch(i, _, a) => WorkersKeepCompleted(o, s.t, None, GOOD, i, a, s.now, id);
    case Deliver(m, w) => WorkersKeepCompleted(o, s.t, s.queue[m], w, 0, OK, s.now, id);
    case Condemn(m) => WorkersKeepCompleted(o, s.t, s.queue[m], GOOD, 0, OK, s.now, id);
    case _ =>
  }

  /** Only cleanup takes a job out of `completed`, by deleting its row. */
  lemma CompletedIsLeftOnlyByCleanup(o: Options, events: seq<Event>, s: State, e: Event, id: JobId)
    requires o.Valid() && Runs(o, Init(), events, s) && Enabled(o, s, e)
    requires id in s.t.outbox && s.t.outbox[id].status == Completed
    ensures CompletedStays(s.t, Apply(o, s, e).t, id)
      || (e.Cleanup? && e.status == Completed && id in e.ids && id !in Apply(o, s, e).t.outbox)
  {
    RunKeepsInv(o, Init(), events, s);
    StepKeepsCompleted(o, s, e, id);
  }

  /** So the handlers' existing-receipt branch is never taken at this grain. */
  lemma ReceiptBranchIsUnreachable(o: Options, events: seq<Event>, s: State, m: nat, w: World)
    requires o.Valid() && Runs(o, Init(), events, s) && m in s.queue
    ensures Receive(s.t, s.queue[m], w, s.now).done != AlreadyReceipted
  {
    RunKeepsInv(o, Init(), events, s);
    if s.queue[m].Some? {
      ProcessEffect(s.t, s.queue[m].value, w, s.now);
    }
  }

  /**
   An unsettled row's attempt count is the number of its publishes that failed since creation
   or the last replay; the relay gives the job up at failure number maxAttempts and no other.
   */
  lemma GivenUpAtTheLimit(o: Options, events: seq<Event>, s: State, id: JobId, m: nat, a: Attempt)
    requires o.Valid() && Runs(o, Init(), events, s)
    requires Enabled(o, s, Dispatch(id, m, a)) && Fails(s.t, id, a)
    ensures id in s.failures && s.t.outbox[id].attemptCount == s.failures[id]
    ensures var s' := Apply(o, s, Dispatch(id, m, a));
      && id in s'.t.outbox && id in s'.failures && s'.failures[id] == s.failures[id] + 1
      && (s'.t.outbox[id].status == Dead <==> s'.failures[id] == o.retry.maxAttempts)
      && (s'.t.outbox[id].status == Pending <==> s'.failures[id] < o.retry.maxAttempts)
  {
    RunKeepsInv(o, Init(), events, s);
    AfterFailureEffect(o, s.t.outbox[id], s.now);
  }

  // ----- Draining -----

  ghost function Weight(o: Options, job: Job): nat {
    if (job.status == Pending || job.status == Claimed) && job.attemptCount < o.retry.maxAttempts
    then o.retry.maxAttempts - job.attemptCount else 0
  }

  ghost function Weights(o: Options, t: Tables): map<JobId, nat> {
    map id | id in t.outbox :: Weight(o, t.outbox[id])
  }

  /** The attempts left over all pending and claimed rows. */
  ghost function Remaining(o: Options, t: Tables): nat {
    Sums.Total(Weights(o, t))
  }

  /** No new work arrives, and a dispatch finds a claimed row and stores its outcome. */
  ghost predicate Draining(s: State, e: Event) {
    && !e.Enqueue? && !e.Replay?
    && (e.Dispatch? ==> IsClaimed(s.t, e.id) && (e.attempt.Succeeds() || e.attempt.secondStored))
  }

  ghost predicate Drains(o: Options, s: State, events: seq<Event>, s': State)
    decreases |events|
  {
    if events == [] then s == s'
    else Enabled(o, s, events[0]) && Draining(s, events[0]) && Drains(o, Apply(o, s, events[0]), events[1..], s')
  }

  ghost function Dispatches(events: seq<Event>): nat {
    if events == [] then 0 else (if events[0].Dispatch? then 1 else 0) + Dispatches(events[1..])
  }

  lemma DispatchDrains(o: Options, t: Tables, id: JobId, a: Attempt, now: Time)
    requires IsClaimed(t, id) && t.outbox[id].attemptCount < o.retry.maxAttempts
    requires a.Succeeds() || a.secondStored
    ensures Remaining(o, DispatchRow(o, t, id, a, now)) < Remaining(o, t)
  {
    AfterFailureEffect(o, t.outbox[id], now);
    Sums.TotalDrops(Weights(o, t), Weights(o, DispatchRow(o, t, id, a, now)), id);
  }

  lemma ClaimKeepsRemaining(o: Options, t: Tables, ids: set<JobId>, locked: set<JobId>, now: Time)
    requires ids <= ClaimPool(t, now, o.claimTimeoutMs, locked).Keys
    ensures Remaining(o, ClaimRows(t, ids, now)) == Remaining(o, t)
  {
    assert Weights(o, ClaimRows(t, ids, now)) == Weights(o, t);
  }

  /** Writing a settled row over one of the table, or nothing at all, cannot add attempts. */
  lemma SettlingDrains(o: Options, t: Tables, t': Tables, id: JobId, job: Job)
    requires t'.outbox == t.outbox || (id in t.outbox && job.Settled() && t'.outbox == t.outbox[id := job])
    ensures Remaining(o, t') <= Remaining(o, t)
  {
    Sums.TotalShrinks(Weights(o, t), Weights(o, t'));
  }

  lemma ConsumersDrain(o: Options, t: Tables, body: Option<Envelope>, w: World, now: Time)
    ensures Remaining(o, Receive(t, body, w, now).tables) <= Remaining(o, t)
    ensures Remaining(o, Consumer.Condemn(t, body, now)) <= Remaining(o, t)
  {
    if body.Some? {
      var id := body.value.jobId;
      var job := if id in t.outbox then t.outbox[id] else Job.Create(TransactionalEmail, Payload(true, 0), 0, 0);
      ProcessEffect(t, body.value, w, now);
      SettlingDrains(o, t, Receive(t, body, w, now).tables, id, job.MarkCompleted(now));
      SettlingDrains(o, t, Consumer.Condemn(t, body, now), id, job.MarkDead("poison message", now));
    }
  }

  lemma CleanupDrains(o: Options, t: Tables, ids: set<JobId>)
    ensures Remaining(o, DeleteRows(t, ids)) <= Remaining(o, t)
  {
    Sums.TotalShrinks(Weights(o, t), Weights(o, DeleteRows(t, ids)));
  }

  lemma StepDrains(o: Options, s: State, e: Event)
    requires o.Valid() && Inv(o, s) && Enabled(o, s, e) && Draining(s, e)
    ensures (if e.Dispatch? then 1 else 0) + Remaining(o, Apply(o, s, e).t) <= Remaining(o, s.t)
  {
    match e
    case Dispatch(id, _, a) => DispatchDrains(o, s.t, id, a, s.now);
    case Claim(ids, locked) => ClaimKeepsRemaining(o, s.t, ids, locked, s.now);
    case Deliver(m, w) => ConsumersDrain(o, s.t, s.queue[m], w, s.now);
    case Condemn(m) => ConsumersDrain(o, s.t, s.queue[m], GOOD, s.now);
    case Cleanup(_, ids) => CleanupDrains(o, s.t, ids);
    case ChangeEndpoints(endpoints) => assert Weights(o, s.t.(endpoints := endpoints)) == Weights(o, s.t);
    case _ =>
  }

  /** However the relay, the consumers and cleanup interleave, the attempts left bound the dispatches to come. */
  lemma {:induction false} DrainBound(o: Options, s: State, events: seq<Event>, s': State)
    requires o.Valid() && Inv(o, s) && Drains(o, s, events, s')
    ensures Dispatches(events) + Remaining(o, s'.t) <= Remaining(o, s.t)
    decreases |events|
  {
    if events == [] {
    } else {
      var s1 := Apply(o, s, events[0]);
      StepKeepsInv(o, s, events[0]);
      StepDrains(o, s, events[0]);
      DrainBound(o, s1, events[1..], s');
    }
  }

  // ----- Leases -----

  /** The step writes the row of the job, or deletes it. */
  ghost predicate Writes(s: State, e: Event, id: JobId) {
    match e
    case Enqueue(i, _, _, _) => i == id
    case Claim(ids, _) => id in ids
    case Dispatch(i, _, _) => i == id
    case Deliver(m, _) => m in s.queue && s.queue[m].Some? && s.queue[m].value.jobId == id
    case Condemn(m) => m in s.queue && s.queue[m].Some? && s.queue[m].value.jobId == id
    case Replay(ids) => id in ids
    case Cleanup(_, ids) => id in ids
    case _ => false
  }

  ghost predicate RunsWithoutWriting(o: Options, s: State, events: seq<Event>, s': State, id: JobId)
    decreases |events|
  {
    if events == [] then s == s'
    else
      && Enabled(o, s, events[0]) && !Writes(s, events[0], id)
      && RunsWithoutWriting(o, Apply(o, s, events[0]), events[1..], s', id)
  }

  lemma {:induction false} UnwrittenRowStays(o: Options, s: State, events: seq<Event>, s': State, id: JobId)
    requires RunsWithoutWriting(o, s, events, s', id) && id in s.t.outbox
    ensures id in s'.t.outbox && s'.t.outbox[id] == s.t.outbox[id]
    decreases |events|
  {
    if events == [] {
    } else {
      var e := events[0];
      if e.Deliver? && s.queue[e.m].Some? {
        ProcessEffect(s.t, s.queue[e.m].value, e.world, s.now);
      }
      UnwrittenRowStays(o, Apply(o, s, e), events[1..], s', id);
    }
  }

  /** Two claims of a job with no write to its row in between are more than the claim timeout apart. */
  lemma ClaimsAreSpaced(o: Options, s: State, ids: set<JobId>, locked: set<JobId>,
                        events: seq<Event>, s': State, ids': set<JobId>, locked': set<JobId>, id: JobId)
    requires Enabled(o, s, Claim(ids, locked)) && id in ids
    requires RunsWithoutWriting(o, Apply(o, s, Claim(ids, locked)), events, s', id)
    requires Enabled(o, s', Claim(ids', locked')) && id in ids'
    ensures s'.now > s.now + o.claimTimeoutMs
  {
    UnwrittenRowStays(o, Apply(o, s, Claim(ids, locked)), events, s', id);
  }

  /**
   A job whose publish failed for the n-th time is not claimed again before the n-th delay has passed, unless
   something else writes its row first.
   */
  lemma RetriesWait(o: Options, before: seq<Event>, s: State, id: JobId, m: nat, a: Attempt,
                    events: seq<Event>, s': State, ids: set<JobId>, locked: set<JobId>)
    requires o.Valid() && Runs(o, Init(), before, s)
    requires Enabled(o, s, Dispatch(id, m, a)) && Fails(s.t, id, a) && id in s.failures
    requires RunsWithoutWriting(o, Apply(o, s, Dispatch(id, m, a)), events, s', id)
    requires Enabled(o, s', Claim(ids, locked)) && id in ids
    ensures s'.now >= s.now + RetryPolicy.DelayMs(o.retry, s.failures[id] + 1) >= s.now + o.retry.baseMs
  {
    RunKeepsInv(o, Init(), before, s);
    AfterFailureEffect(o, s.t.outbox[id], s.now);
    UnwrittenRowStays(o, Apply(o, s, Dispatch(id, m, a)), events, s', id);
    RetryPolicy.DelaysAreBoundedAndMonotone(o.retry, s.failures[id] + 1, s.failures[id] + 1);
  }

  /**
   Claims are disjoint: a claim that overlaps an earlier one skips its locked rows, and one that comes after it
   finds the rows leased until the timeout has passed.
   */
  lemma ClaimsAreDisjoint(o: Options, t: Tables, ids: set<JobId>, locked: set<JobId>, now: Time,
                          ids': set<JobId>, locked': set<JobId>, now': Time)
    requires ids <= ClaimPool(t, now, o.claimTimeoutMs, locked).Keys
    requires
      || (ids <= locked' && ids' <= ClaimPool(t, now', o.claimTimeoutMs, locked').Keys)
      || (&& now' <= now + o.claimTimeoutMs
          && ids' <= ClaimPool(ClaimRows(t, ids, now), now', o.claimTimeoutMs, locked').Keys)
    ensures ids !! ids'
  {
    forall id | id in ids ensures id !in ids' {
      if id !in locked' {
        assert ClaimRows(t, ids, now).outbox[id].updatedAt == now;
      }
    }
  }

  // ----- Progress -----

  predicate ByWorker(e: Event) {
    e.Tick? || e.Claim? || e.Dispatch? || e.Deliver? || e.Condemn?
  }

  function HeldAfter(held: set<JobId>, e: Event): set<JobId> {
    match e
    case Claim(ids, _) => held + ids
    case Dispatch(id, _, _) => held - {id}
    case _ => held
  }

  /** A run of workers alone, in which a dispatch needs a claim of its job and uses it up; `held` is claimed already. */
  ghost predicate Works(o: Options, s: State, held: set<JobId>, events: seq<Event>, s': State)
    decreases |events|
  {
    if events == [] then s == s'
    else
      && Enabled(o, s, events[0]) && ByWorker(events[0])
      && (events[0].Dispatch? ==> events[0].id in held)
      && Works(o, Apply(o, s, events[0]), HeldAfter(held, events[0]), events[1..], s')
  }

  /** The job can be brought to `completed` or `dead` by workers alone. */
  ghost predicate CanFinish(o: Options, s: State, held: set<JobId>, id: JobId) {
    exists events, s' :: Works(o, s, held, events, s') && id in s'.t.outbox && s'.t.outbox[id].Settled()
  }

  lemma WorksStart(o: Options, s: State, held: set<JobId>, e: Event, events: seq<Event>, s': State)
    requires Enabled(o, s, e) && ByWorker(e) && (e.Dispatch? ==> e.id in held)
    requires Works(o, Apply(o, s, e), HeldAfter(held, e), events, s')
    ensures Works(o, s, held, [e] + events, s')
  {
    assert ([e] + events)[1..] == events;
  }

  lemma StepThenFinish(o: Options, s: State, held: set<JobId>, e: Event, id: JobId)
    requires Enabled(o, s, e) && ByWorker(e) && (e.Dispatch? ==> e.id in held)
    requires CanFinish(o, Apply(o, s, e), HeldAfter(held, e), id)
    ensures CanFinish(o, s, held, id)
  {
    var rest, s' :| Works(o, Apply(o, s, e), HeldAfter(held, e), rest, s')
      && id in s'.t.outbox && s'.t.outbox[id].Settled();
    WorksStart(o, s, held, e, rest, s');
  }

  /** Such a run is a run of the protocol in which every dispatch comes after a claim of its job. */
  lemma {:induction false} WorksIsARun(o: Options, s: State, held: set<JobId>, events: seq<Event>, s': State, i: nat)
    requires Works(o, s, held, events, s') && i < |events|
    ensures Runs(o, s, events, s') && ByWorker(events[i])
    ensures events[i].Dispatch? && events[i].id !in held ==>
      exists j :: 0 <= j < i && events[j].Claim? && events[i].id in events[j].ids
    decreases |events|
  {
    var e, rest := events[0], events[1..];
    if rest == [] {
    } else {
      WorksIsARun(o, Apply(o, s, e), HeldAfter(held, e), rest, s', if i > 0 then i - 1 else 0);
    }
    if i > 0 && events[i].Dispatch? && events[i].id !in held {
      if events[i].id !in HeldAfter(held, e) {
        var j :| 0 <= j < i - 1 && rest[j].Claim? && events[i].id in rest[j].ids;
        assert events[j + 1] == rest[j];
      }
    }
  }

  lemma SettledCanFinish(o: Options, s: State, held: set<JobId>, id: JobId)
    requires id in s.t.outbox && s.t.outbox[id].Settled()
    ensures CanFinish(o, s, held, id)
  {
    assert Works(o, s, held, [], s);
  }

  lemma PoisonedCanFinish(o: Options, s: State, held: set<JobId>, id: JobId, m: nat)
    requires o.Valid() && Inv(o, s) && id in s.t.outbox
    requires m in s.poisoned && s.queue[m].Some? && s.queue[m].value.jobId == id
    ensures CanFinish(o, s, held, id)
  {
    SettledCanFinish(o, ApplyCondemn(s, m), held, id);
    StepThenFinish(o, s, held, Event.Condemn(m), id);
  }

  lemma PublishedCanFinish(o: Options, s: State, held: set<JobId>, id: JobId)
    requires o.Valid() && Inv(o, s) && IsPublished(s.t, id)
    ensures CanFinish(o, s, held, id)
  {
    assert Awaited(s, id);
    var m :| m in s.queue && m !in s.finished && s.queue[m].Some? && s.queue[m].value.jobId == id;
    if m in s.poisoned {
      PoisonedCanFinish(o, s, held, id, m);
    } else {
      var e := Deliver(m, GOOD);
      var s' := Apply(o, s, e);
      ProcessEffect(s.t, s.queue[m].value, GOOD, s.now);
      StepKeepsInv(o, s, e);
      if m in s'.poisoned {
        PoisonedCanFinish(o, s', held, id, m);
      } else {
        SettledCanFinish(o, s', held, id);
      }
      StepThenFinish(o, s, held, e, id);
    }
  }

  /** A worker that has just claimed the job may dispatch it. */
  lemma HeldCanFinish(o: Options, s: State, held: set<JobId>, id: JobId)
    requires o.Valid() && Inv(o, s) && IsClaimed(s.t, id) && id in held
    ensures CanFinish(o, s, held, id)
  {
    var m := FreshIds.Above(s.queue.Keys);
    var e := Dispatch(id, m, OK);
    StepKeepsInv(o, s, e);
    PublishedCanFinish(o, Apply(o, s, e), held - {id}, id);
    StepThenFinish(o, s, held, e, id);
  }

  /** A claimed row leaves the pool, so every claim from a nonempty pool shrinks it. */
  lemma ClaimShrinksPool(o: Options, t: Tables, ids: set<JobId>, now: Time)
    requires o.Valid()
    requires Ranking.IsFirst(ids, ClaimPool(t, now, o.claimTimeoutMs, {}), o.batchSize)
    ensures var pool := ClaimPool(t, now, o.claimTimeoutMs, {}); var t' := ClaimRows(t, ids, now);
      && ClaimPool(t', now, o.claimTimeoutMs, {}).Keys == pool.Keys - ids
      && (pool != map[] ==> ids != {})
  {
    var pool := ClaimPool(t, now, o.claimTimeoutMs, {});
    if pool != map[] {
      var k :| k in pool.Keys;
      assert |pool.Keys| == |pool.Keys - {k}| + 1;
    }
  }

  /** So claiming batch after batch reaches every claimable row. */
  lemma {:induction false} ClaimableCanFinish(o: Options, s: State, held: set<JobId>, id: JobId)
    requires o.Valid() && Inv(o, s) && id in ClaimPool(s.t, s.now, o.claimTimeoutMs, {})
    ensures CanFinish(o, s, held, id)
    decreases ClaimPool(s.t, s.now, o.claimTimeoutMs, {}).Keys
  {
    var pool := ClaimPool(s.t, s.now, o.claimTimeoutMs, {});
    Ranking.FirstExists({}, pool.Keys, pool, o.batchSize);
    var ids :| Ranking.IsFirst(ids, pool, o.batchSize);
    var e := Claim(ids, {});
    var s' := Apply(o, s, e);
    StepKeepsInv(o, s, e);
    ClaimShrinksPool(o, s.t, ids, s.now);
    if id in ids {
      HeldCanFinish(o, s', held + ids, id);
    } else {
      ClaimableCanFinish(o, s', held + ids, id);
    }
    StepThenFinish(o, s, held, e, id);
  }

  lemma WaitingCanFinish(o: Options, s: State, held: set<JobId>, id: JobId, at: Time)
    requires o.Valid() && Inv(o, s) && s.now <= at && ClaimableAt(o, s.t, id, at)
    ensures CanFinish(o, s, held, id)
  {
    var e := Tick(at);
    StepKeepsInv(o, s, e);
    ClaimableCanFinish(o, Apply(o, s, e), held, id);
    StepThenFinish(o, s, held, e, id);
  }

  /**
   In every reachable state each job with a row can still be finished without an operator, and even if every
   worker that had claimed something has crashed: a claimed row is waited for and claimed again.
   */
  lemma EveryJobCanFinish(o: Options, events: seq<Event>, s: State, id: JobId)
    requires o.Valid() && Runs(o, Init(), events, s) && id in s.jobs && id !in s.removed
    ensures CanFinish(o, s, {}, id)
  {
    RunKeepsInv(o, Init(), events, s);
    RunKeepsDates(o, Init(), events, s, id);
    var job := s.t.outbox[id];
    match job.status
    case Published => PublishedCanFinish(o, s, {}, id);
    case Claimed => WaitingCanFinish(o, s, {}, id, s.now + o.claimTimeoutMs + 1);
    case Pending => WaitingCanFinish(o, s, {}, id, if s.now <= job.nextAttemptAt then job.nextAttemptAt else s.now);
    case _ => SettledCanFinish(o, s, {}, id);
  }

  // ----- Retention -----

  lemma CleanedRow(o: Options, s: State, status: Status, ids: set<JobId>, id: JobId)
    requires Enabled(o, s, Cleanup(status, ids)) && id in ids
    ensures id in s.t.outbox && s.t.outbox[id].status == status
    ensures var idle := s.now - s.t.outbox[id].updatedAt;
      match status
      case Published => idle > o.retentionPublishedHours * MS_PER_HOUR
      case Completed => idle > o.retentionCompletedHours * MS_PER_HOUR
      case Dead => idle > o.retentionDeadHours * MS_PER_HOUR
      case _ => false
  {
  }

  /** A row made or changed by a step is never dated before that step again. */
  lemma WrittenRowIsRecent(o: Options, before: seq<Event>, s: State, e: Event, events: seq<Event>, s': State, id: JobId)
    requires o.Valid() && Runs(o, Init(), before, s) && Enabled(o, s, e)
    requires id in Apply(o, s, e).t.outbox
    requires id in s.t.outbox ==> Apply(o, s, e).t.outbox[id] != s.t.outbox[id]
    requires Runs(o, Apply(o, s, e), events, s')
    ensures id in s'.t.outbox ==> s.now <= s'.t.outbox[id].updatedAt
  {
    RunKeepsInv(o, Init(), before, s);
    RunKeepsDates(o, Init(), before, s, id);
    StepKeepsInv(o, s, e);
    StepKeepsDates(o, s, e);
    StepStamps(o, s, e, id);
    RunKeepsDates(o, Apply(o, s, e), events, s', id);
  }

  /**
   Once a step has made or changed a job's row, cleanup removes it only in a final status, and only after that
   status's retention period has passed since the step, whatever happened in between.
   */
  lemma RetentionIsKept(o: Options, before: seq<Event>, s: State, e: Event, events: seq<Event>, s': State,
                        status: Status, ids: set<JobId>, id: JobId)
    requires o.Valid() && Runs(o, Init(), before, s) && Enabled(o, s, e)
    requires id in Apply(o, s, e).t.outbox
    requires id in s.t.outbox ==> Apply(o, s, e).t.outbox[id] != s.t.outbox[id]
    requires Runs(o, Apply(o, s, e), events, s') && Enabled(o, s', Cleanup(status, ids)) && id in ids
    ensures id in s'.t.outbox && s'.t.outbox[id].status == status
    ensures match status
      case Published => s'.now - s.now > o.retentionPublishedHours * MS_PER_HOUR
      case Completed => s'.now - s.now > o.retentionCompletedHours * MS_PER_HOUR
      case Dead => s'.now - s.now > o.retentionDeadHours * MS_PER_HOUR
      case _ => false
  {
    WrittenRowIsRecent(o, before, s, e, events, s', id);
    CleanedRow(o, s', status, ids, id);
  }

  // ----- Selecting and writing in two steps -----

  lemma {:induction false} RowIsKeptOrRecent(o: Options, s: State, events: seq<Event>, s': State, id: JobId)
    requires Dated(s.t, s.now) && Runs(o, s, events, s') && id in s.jobs && id in s'.t.outbox
    ensures id in s.t.outbox && (s'.t.outbox[id] == s.t.outbox[id] || s.now <= s'.t.outbox[id].updatedAt)
    decreases |events|
  {
    if events == [] {
    } else {
      var s1 := Apply(o, s, events[0]);
      StepKeepsDates(o, s, events[0]);
      StepStamps(o, s, events[0], id);
      RowIsKeptOrRecent(o, s1, events[1..], s', id);
    }
  }

  lemma AgedUnlessRecent(o: Options, t: Tables, t': Tables, status: Status, now: Time, id: JobId)
    requires o.Valid() && IsCleaned(status)
    requires id in AgedPool(t, status, o.ResolveCutoff(status, now)) && id in t'.outbox
    requires t'.outbox[id] == t.outbox[id] || now <= t'.outbox[id].updatedAt
    ensures id in AgedPool(t', status, o.ResolveCutoff(status, now)) <==> t'.outbox[id] == t.outbox[id]
  {
  }

  lemma ReachedRowsAreDated(o: Options, before: seq<Event>, s: State, id: JobId)
    requires o.Valid() && Runs(o, Init(), before, s) && id in s.t.outbox
    ensures Dated(s.t, s.now) && id in s.jobs
  {
    RunKeepsInv(o, Init(), before, s);
    RunKeepsDates(o, Init(), before, s, id);
  }

  /**
   Cleanup deletes what it has selected without looking again. A row it selected as aged is still one when it is
   deleted if and only if nothing has changed it in between.
   */
  lemma SelectionIsStillAgedIff(o: Options, before: seq<Event>, s: State, events: seq<Event>, s': State,
                                status: Status, id: JobId)
    requires o.Valid() && Runs(o, Init(), before, s) && Runs(o, s, events, s')
    requires IsCleaned(status) && id in AgedPool(s.t, status, o.ResolveCutoff(status, s.now)) && id in s'.t.outbox
    ensures id in AgedPool(s'.t, status, o.ResolveCutoff(status, s.now)) <==> s'.t.outbox[id] == s.t.outbox[id]
  {
    ReachedRowsAreDated(o, before, s, id);
    RowIsKeptOrRecent(o, s, events, s', id);
    AgedUnlessRecent(o, s.t, s'.t, status, s.now, id);
  }

  /** So a dead job that is replayed between the two is deleted while it waits for its next attempt. */
  lemma ReplayedJobIsDeleted(o: Options, s: State, id: JobId)
    requires id in AgedPool(s.t, Dead, o.ResolveCutoff(Dead, s.now))
    ensures Enabled(o, s, Replay({id}))
    ensures var s' := Apply(o, s, Replay({id}));
      s'.t.outbox[id].status == Pending && id !in DeleteRows(s'.t, {id}).outbox
  {
  }
}
