/**
 The outbox protocol with one step per worker call: a dispatch runs from reading the row to
 writing it back, and a mark-dead from look-up to write. At this grain status column and
 receipt table agree, and no job is lost.
 */
module Lifecycle {
  import opened Wrappers
  import opened JobOutbox
  import opened OutboxStore
  import opened JobHandlers
  import opened JobsOptions
  import opened Relay
  import opened Consumer
  import RetryPolicy
  import Ranking

  /**
   A message on the queue is `finished` once a consumer has processed it and will delete it,
   `poisoned` once its consumer was thrown a non-retryable error and will mark the job dead.
   `jobs`, `sent`, `removed` and `failures` are history: the jobs created, the envelopes ever
   sent, the rows cleaned up, and the failed publishes since creation or the last replay.
   */
  datatype State = State(
    now: Time,
    t: Tables,
    queue: Queue,
    finished: set<nat>,
    poisoned: set<nat>,
    jobs: map<JobId, JobType>,
    sent: set<Envelope>,
    removed: set<JobId>,
    failures: map<JobId, nat>)

  datatype Event =
    | Tick(now: Time)
    | ChangeEndpoints(endpoints: map<nat, Endpoint>)
    | Enqueue(id: JobId, jobType: JobType, payload: Payload, delayMs: nat)
    | Claim(ids: set<JobId>, locked: set<JobId>)
    | Dispatch(id: JobId, m: nat, attempt: Attempt)
    | Intrude(m: nat, body: Option<Envelope>)
    | Deliver(m: nat, world: World)
    | Condemn(m: nat)
    | Delete(m: nat)
    | Reappear(m: nat)
    | Replay(ids: set<JobId>)
    | Cleanup(status: Status, ids: set<JobId>)

  function Init(): State {
    State(0, Tables(map[], {}, map[]), map[], {}, {}, map[], {}, {}, map[])
  }

  /**
   `Intrude` puts a duplicate of any envelope ever sent, or a malformed body, on the queue;
   `Reappear` is a message whose consumer crashed and whose visibility timeout ran out.
   */
  ghost predicate Enabled(o: Options, s: State, e: Event) {
    match e
    case Tick(now) => s.now <= now
    case ChangeEndpoints(_) => true
    case Enqueue(id, _, _, _) => id !in s.jobs
    case Claim(ids, locked) => Ranking.IsFirst(ids, ClaimPool(s.t, s.now, o.claimTimeoutMs, locked), o.batchSize)
    case Dispatch(_, m, a) => m !in s.queue && a.Possible()
    case Intrude(m, body) => m !in s.queue && (body.None? || body.value in s.sent)
    case Deliver(m, _) => m in s.queue && m !in s.finished && m !in s.poisoned
    case Condemn(m) => m in s.poisoned
    case Delete(m) => m in s.finished
    case Reappear(m) => m in s.finished || m in s.poisoned
    case Replay(ids) => ids <= DeadPool(s.t).Keys
    case Cleanup(status, ids) =>
      && IsCleaned(status)
      && Ranking.IsFirst(ids, AgedPool(s.t, status, o.ResolveCutoff(status, s.now)), o.cleanupBatchSize)
  }

  predicate Fails(t: Tables, id: JobId, a: Attempt) {
    IsClaimed(t, id) && !a.Succeeds() && a.secondStored
  }

  function ApplyDispatch(o: Options, s: State, id: JobId, m: nat, a: Attempt): State {
    s.(t := DispatchRow(o, s.t, id, a, s.now),
       queue := DispatchMessage(s.t, s.queue, id, m, a),
       sent := if IsClaimed(s.t, id) && a.accepted then s.sent + {s.t.outbox[id].ToEnvelope(id)} else s.sent,
       failures := if Fails(s.t, id, a) && id in s.failures then s.failures[id := s.failures[id] + 1] else s.failures)
  }

  function ApplyDeliver(s: State, m: nat, w: World): State
    requires m in s.queue
  {
    var h := Receive(s.t, s.queue[m], w, s.now);
    s.(t := h.tables,
       finished := if h.outcome == Retryable || h.outcome == NonRetryable then s.finished else s.finished + {m},
       poisoned := if h.outcome == NonRetryable then s.poisoned + {m} else s.poisoned)
  }

  function ApplyCondemn(s: State, m: nat): State {
    s.(t := if m in s.queue then Consumer.Condemn(s.t, s.queue[m], s.now) else s.t,
       poisoned := s.poisoned - {m},
       finished := s.finished + {m})
  }

  function ApplyEnqueue(s: State, id: JobId, jobType: JobType, payload: Payload, delayMs: nat): State {
    s.(t := SaveJob(s.t, id, Job.Create(jobType, payload, s.now + delayMs, s.now)),
       jobs := s.jobs[id := jobType],
       failures := s.failures[id := 0])
  }

  function ApplyReplay(s: State, ids: set<JobId>): State {
    s.(t := ReplayRows(s.t, ids, s.now),
       failures := map id | id in s.failures :: if id in ids then 0 else s.failures[id])
  }

  function ApplyCleanup(s: State, ids: set<JobId>): State {
    s.(t := DeleteRows(s.t, ids), removed := s.removed + ids)
  }

  ghost function Apply(o: Options, s: State, e: Event): State
    requires Enabled(o, s, e)
  {
    match e
    case Tick(now) => s.(now := now)
    case ChangeEndpoints(endpoints) => s.(t := s.t.(endpoints := endpoints))
    case Enqueue(id, jobType, payload, delayMs) => ApplyEnqueue(s, id, jobType, payload, delayMs)
    case Claim(ids, _) => s.(t := ClaimRows(s.t, ids, s.now))
    case Dispatch(id, m, a) => ApplyDispatch(o, s, id, m, a)
    case Intrude(m, body) => s.(queue := s.queue[m := body])
    case Deliver(m, w) => ApplyDeliver(s, m, w)
    case Condemn(m) => ApplyCondemn(s, m)
    case Delete(m) => s.(queue := s.queue - {m}, finished := s.finished - {m})
    case Reappear(m) => s.(finished := s.finished - {m}, poisoned := s.poisoned - {m})
    case Replay(ids) => ApplyReplay(s, ids)
    case Cleanup(_, ids) => ApplyCleanup(s, ids)
  }

  ghost predicate Runs(o: Options, s: State, events: seq<Event>, s': State)
    decreases |events|
  {
    if events == [] then s == s'
    else Enabled(o, s, events[0]) && Runs(o, Apply(o, s, events[0]), events[1..], s')
  }

  lemma RunsStart(o: Options, s: State, e: Event, events: seq<Event>, s': State)
    requires Enabled(o, s, e)
    ensures Runs(o, s, [e] + events, s') <==> Runs(o, Apply(o, s, e), events, s')
  {
    assert ([e] + events)[1..] == events;
  }

  // ----- The invariant -----

  ghost predicate Typed(s: State) {
    && (forall id :: id in s.t.outbox ==> id in s.jobs && s.t.outbox[id].jobType == s.jobs[id])
    && (forall env :: env in s.sent ==> env.jobId in s.jobs && env.jobType == s.jobs[env.jobId])
    && (forall m :: m in s.queue && s.queue[m].Some? ==> s.queue[m].value in s.sent)
    && s.finished <= s.queue.Keys && s.poisoned <= s.queue.Keys && s.finished !! s.poisoned
    && s.failures.Keys == s.jobs.Keys
    && s.jobs.Keys == s.t.outbox.Keys + s.removed
  }

  /** Completed rows are exactly the rows with a receipt. */
  ghost predicate Agreed(t: Tables, jobs: map<JobId, JobType>) {
    && (forall r :: r in t.receipts ==> r.0 in t.outbox && r.0 in jobs && r.1 == jobs[r.0])
    && (forall id :: id in t.outbox && id in jobs ==>
      (t.outbox[id].status == Completed <==> (id, jobs[id]) in t.receipts))
  }

  /** A message for the job is on the queue and no consumer is past processing it. */
  ghost predicate Awaited(s: State, id: JobId) {
    exists m :: m in s.queue && m !in s.finished && s.queue[m].Some? && s.queue[m].value.jobId == id
  }

  ghost predicate NoneLost(s: State) {
    forall id :: id in s.t.outbox && s.t.outbox[id].status == Published ==> Awaited(s, id)
  }

  /** The attempts of an unsettled row are exactly its failed publishes, and they leave one to go. */
  ghost predicate Counted(o: Options, t: Tables, failures: map<JobId, nat>) {
    forall id :: id in t.outbox && id in failures && !t.outbox[id].Settled() ==>
      t.outbox[id].attemptCount == failures[id] < o.retry.maxAttempts
  }

  ghost predicate Inv(o: Options, s: State) {
    Typed(s) && Agreed(s.t, s.jobs) && NoneLost(s) && Counted(o, s.t, s.failures)
  }

  ghost predicate IsPublished(t: Tables, id: JobId) {
    id in t.outbox && t.outbox[id].status == Published
  }

  predicate IsAwaiting(s: State, m: nat) {
    m in s.queue && m !in s.finished && s.queue[m].Some?
  }

  /** A step loses no job if each message it uses up belongs to a job that is not published afterwards. */
  lemma StillAwaited(s: State, s': State)
    requires NoneLost(s)
    requires forall id :: IsPublished(s'.t, id) ==> IsPublished(s.t, id) || Awaited(s', id)
    requires forall m :: IsAwaiting(s, m) && IsPublished(s'.t, s.queue[m].value.jobId) ==>
      m in s'.queue && m !in s'.finished && s'.queue[m] == s.queue[m]
    ensures NoneLost(s')
  {
    forall id | IsPublished(s'.t, id) && IsPublished(s.t, id)
      ensures Awaited(s', id)
    {
      var k :| k in s.queue && k !in s.finished && s.queue[k].Some? && s.queue[k].value.jobId == id;
      assert k in s'.queue && k !in s'.finished;
    }
  }

  /** Rows may change status but not type, and none may appear or vanish. */
  ghost predicate SameJobs(t: Tables, t': Tables) {
    && t'.outbox.Keys == t.outbox.Keys
    && forall id :: id in t.outbox ==> t'.outbox[id].jobType == t.outbox[id].jobType
  }

  /** Completing one row with its receipt keeps tables in agreement. */
  lemma CompletionKeepsTables(o: Options, t: Tables, t': Tables, id: JobId, now: Time,
                              jobs: map<JobId, JobType>, failures: map<JobId, nat>)
    requires Agreed(t, jobs) && Counted(o, t, failures) && t.outbox.Keys <= jobs.Keys
    requires id in t.outbox && t.outbox[id].jobType == jobs[id]
    requires t'.outbox == t.outbox[id := t.outbox[id].MarkCompleted(now)]
    requires t'.receipts == t.receipts + {(id, jobs[id])}
    ensures SameJobs(t, t') && Agreed(t', jobs) && Counted(o, t', failures)
    ensures forall i :: IsPublished(t', i) ==> IsPublished(t, i) && i != id
  {
  }

  lemma DeliverKeepsTables(o: Options, s: State, m: nat, w: World)
    requires Typed(s) && Agreed(s.t, s.jobs) && Counted(o, s.t, s.failures) && m in s.queue
    ensures var s' := ApplyDeliver(s, m, w);
      && SameJobs(s.t, s'.t) && Agreed(s'.t, s.jobs) && Counted(o, s'.t, s.failures)
      && (forall id :: IsPublished(s'.t, id) ==>
          && IsPublished(s.t, id)
          && !(m in s'.finished && m !in s.finished && s.queue[m].Some? && s.queue[m].value.jobId == id))
  {
    if s.queue[m].Some? {
      var env, t' := s.queue[m].value, ApplyDeliver(s, m, w).t;
      ProcessEffect(s.t, env, w, s.now);
      if t'.outbox != s.t.outbox {
        CompletionKeepsTables(o, s.t, t', env.jobId, s.now, s.jobs, s.failures);
      }
    }
  }

  lemma DeliverKeepsInv(o: Options, s: State, m: nat, w: World)
    requires Inv(o, s) && Enabled(o, s, Deliver(m, w))
    ensures Inv(o, ApplyDeliver(s, m, w))
  {
    DeliverKeepsTables(o, s, m, w);
    StillAwaited(s, ApplyDeliver(s, m, w));
  }

  lemma CondemnKeepsTables(o: Options, t: Tables, body: Option<Envelope>, now: Time,
                           jobs: map<JobId, JobType>, failures: map<JobId, nat>)
    requires Agreed(t, jobs) && Counted(o, t, failures) && t.outbox.Keys <= jobs.Keys
    ensures var t' := Consumer.Condemn(t, body, now);
      && SameJobs(t, t') && Agreed(t', jobs) && Counted(o, t', failures)
      && (forall id :: IsPublished(t', id) ==> IsPublished(t, id) && !(body.Some? && body.value.jobId == id))
  {
  }

  lemma CondemnKeepsInv(o: Options, s: State, m: nat)
    requires Inv(o, s) && m in s.poisoned
    ensures Inv(o, ApplyCondemn(s, m))
  {
    CondemnKeepsTables(o, s.t, s.queue[m], s.now, s.jobs, s.failures);
    StillAwaited(s, ApplyCondemn(s, m));
  }

  lemma AfterFailureEffect(o: Options, job: Job, now: Time)
    ensures var next := AfterFailure(o, job, now);
      && next.jobType == job.jobType && next.attemptCount == job.attemptCount + 1
      && next.status == (if job.attemptCount + 1 >= o.retry.maxAttempts then Dead else Pending)
      && (next.status == Pending ==> next.nextAttemptAt == now + RetryPolicy.DelayMs(o.retry, job.attemptCount + 1))
  {
  }

  lemma DispatchKeepsTables(o: Options, t: Tables, id: JobId, a: Attempt, now: Time,
                            jobs: map<JobId, JobType>, failures: map<JobId, nat>)
    requires Agreed(t, jobs) && Counted(o, t, failures) && t.outbox.Keys <= jobs.Keys == failures.Keys
    ensures var t' := DispatchRow(o, t, id, a, now);
      && SameJobs(t, t') && Agreed(t', jobs)
      && Counted(o, t', if Fails(t, id, a) then failures[id := failures[id] + 1] else failures)
      && (forall i :: IsPublished(t', i) ==> IsPublished(t, i) || (i == id && IsClaimed(t, i) && a.Succeeds()))
  {
    if IsClaimed(t, id) && !a.Succeeds() && a.secondStored {
      AfterFailureEffect(o, t.outbox[id], now);
    }
  }

  lemma DispatchKeepsQueue(o: Options, s: State, id: JobId, m: nat, a: Attempt)
    requires Typed(s) && m !in s.queue
    ensures var q := DispatchMessage(s.t, s.queue, id, m, a); var s' := ApplyDispatch(o, s, id, m, a);
      && s.queue.Keys <= q.Keys && (forall k :: k in s.queue ==> q[k] == s.queue[k])
      && (forall k :: k in q && q[k].Some? ==> q[k].value in s'.sent)
      && (forall env :: env in s'.sent ==> env.jobId in s.jobs && env.jobType == s.jobs[env.jobId])
      && (IsClaimed(s.t, id) && a.accepted ==>
          m in q && q[m].Some? && q[m].value.jobId == id)
  {
  }

  lemma DispatchKeepsTyped(o: Options, s: State, id: JobId, m: nat, a: Attempt)
    requires Inv(o, s) && Enabled(o, s, Dispatch(id, m, a))
    ensures Typed(ApplyDispatch(o, s, id, m, a))
  {
    DispatchKeepsTables(o, s.t, id, a, s.now, s.jobs, s.failures);
    DispatchKeepsQueue(o, s, id, m, a);
  }

  lemma DispatchLosesNone(o: Options, s: State, id: JobId, m: nat, a: Attempt)
    requires Inv(o, s) && Enabled(o, s, Dispatch(id, m, a))
    ensures NoneLost(ApplyDispatch(o, s, id, m, a))
  {
    DispatchKeepsTables(o, s.t, id, a, s.now, s.jobs, s.failures);
    DispatchKeepsQueue(o, s, id, m, a);
    StillAwaited(s, ApplyDispatch(o, s, id, m, a));
  }

  lemma DispatchKeepsInv(o: Options, s: State, id: JobId, m: nat, a: Attempt)
    requires Inv(o, s) && Enabled(o, s, Dispatch(id, m, a))
    ensures Inv(o, ApplyDispatch(o, s, id, m, a))
  {
    DispatchKeepsTyped(o, s, id, m, a);
    DispatchKeepsTables(o, s.t, id, a, s.now, s.jobs, s.failures);
    DispatchLosesNone(o, s, id, m, a);
  }

  lemma ClaimKeepsTables(o: Options, s: State, ids: set<JobId>, locked: set<JobId>)
    requires Agreed(s.t, s.jobs) && Counted(o, s.t, s.failures)
    requires ids <= ClaimPool(s.t, s.now, o.claimTimeoutMs, locked).Keys
    ensures var t := ClaimRows(s.t, ids, s.now);
      && SameJobs(s.t, t) && Agreed(t, s.jobs) && Counted(o, t, s.failures)
      && (forall id :: IsPublished(t, id) ==> IsPublished(s.t, id))
  {
  }

  lemma IntrudeKeepsInv(o: Options, s: State, m: nat, body: Option<Envelope>)
    requires Inv(o, s) && m !in s.queue && (body.None? || body.value in s.sent)
    ensures Inv(o, s.(queue := s.queue[m := body]))
  {
    StillAwaited(s, s.(queue := s.queue[m := body]));
  }

  lemma DeleteKeepsInv(o: Options, s: State, m: nat)
    requires Inv(o, s) && m in s.finished
    ensures Inv(o, s.(queue := s.queue - {m}, finished := s.finished - {m}))
  {
    StillAwaited(s, s.(queue := s.queue - {m}, finished := s.finished - {m}));
  }

  lemma ReappearKeepsInv(o: Options, s: State, m: nat)
    requires Inv(o, s)
    ensures Inv(o, s.(finished := s.finished - {m}, poisoned := s.poisoned - {m}))
  {
    StillAwaited(s, s.(finished := s.finished - {m}, poisoned := s.poisoned - {m}));
  }

  lemma EnqueueKeepsTables(o: Options, s: State, id: JobId, jobType: JobType, payload: Payload, delayMs: nat)
    requires o.Valid() && Agreed(s.t, s.jobs) && Counted(o, s.t, s.failures) && id !in s.jobs && id !in s.t.outbox
    ensures var s' := ApplyEnqueue(s, id, jobType, payload, delayMs);
      && Agreed(s'.t, s'.jobs) && Counted(o, s'.t, s'.failures)
  {
  }

  lemma EnqueueKeepsInv(o: Options, s: State, id: JobId, jobType: JobType, payload: Payload, delayMs: nat)
    requires o.Valid() && Inv(o, s) && id !in s.jobs
    ensures Inv(o, ApplyEnqueue(s, id, jobType, payload, delayMs))
  {
    EnqueueKeepsTables(o, s, id, jobType, payload, delayMs);
    StillAwaited(s, ApplyEnqueue(s, id, jobType, payload, delayMs));
  }

  lemma ClaimKeepsInv(o: Options, s: State, ids: set<JobId>, locked: set<JobId>)
    requires Inv(o, s) && ids <= ClaimPool(s.t, s.now, o.claimTimeoutMs, locked).Keys
    ensures Inv(o, s.(t := ClaimRows(s.t, ids, s.now)))
  {
    ClaimKeepsTables(o, s, ids, locked);
    StillAwaited(s, s.(t := ClaimRows(s.t, ids, s.now)));
  }

  lemma ReplayKeepsInv(o: Options, s: State, ids: set<JobId>)
    requires o.Valid() && Inv(o, s) && ids <= DeadPool(s.t).Keys
    ensures Inv(o, ApplyReplay(s, ids))
  {
    StillAwaited(s, ApplyReplay(s, ids));
  }

  lemma CleanupKeepsInv(o: Options, s: State, ids: set<JobId>)
    requires Inv(o, s) && ids <= s.t.outbox.Keys
    ensures Inv(o, ApplyCleanup(s, ids))
  {
    StillAwaited(s, ApplyCleanup(s, ids));
  }

  lemma StepKeepsInv(o: Options, s: State, e: Event)
    requires o.Valid() && Inv(o, s) && Enabled(o, s, e)
    ensures Inv(o, Apply(o, s, e))
  {
    match e
    case Tick(now) => StillAwaited(s, s.(now := now));
    case ChangeEndpoints(endpoints) => StillAwaited(s, s.(t := s.t.(endpoints := endpoints)));
    case Enqueue(id, jobType, payload, delayMs) => EnqueueKeepsInv(o, s, id, jobType, payload, delayMs);
    case Claim(ids, locked) => ClaimKeepsInv(o, s, ids, locked);
    case Dispatch(id, m, a) => DispatchKeepsInv(o, s, id, m, a);
    case Intrude(m, body) => IntrudeKeepsInv(o, s, m, body);
    case Deliver(m, w) => DeliverKeepsInv(o, s, m, w);
    case Condemn(m) => CondemnKeepsInv(o, s, m);
    case Delete(m) => DeleteKeepsInv(o, s, m);
    case Reappear(m) => ReappearKeepsInv(o, s, m);
    case Replay(ids) => ReplayKeepsInv(o, s, ids);
    case Cleanup(_, ids) => CleanupKeepsInv(o, s, ids);
  }

  lemma {:induction false} RunKeepsInv(o: Options, s: State, events: seq<Event>, s': State)
    requires o.Valid() && Inv(o, s) && Runs(o, s, events, s')
    ensures Inv(o, s')
    decreases |events|
  {
    if events == [] {
    } else {
      StepKeepsInv(o, s, events[0]);
      RunKeepsInv(o, Apply(o, s, events[0]), events[1..], s');
    }
  }

  // ----- Dates -----

  /** No row is dated in the future. */
  ghost predicate Dated(t: Tables, now: Time) {
    forall id :: id in t.outbox ==> t.outbox[id].updatedAt <= now
  }

  /** The row is as it was, or is stamped with the time of the step. */
  predicate Stamped(t: Tables, t': Tables, id: JobId, now: Time) {
    id in t'.outbox ==> (id in t.outbox && t'.outbox[id] == t.outbox[id]) || t'.outbox[id].updatedAt == now
  }

  lemma DispatchStamps(o: Options, t: Tables, id: JobId, a: Attempt, now: Time, i: JobId)
    ensures Stamped(t, DispatchRow(o, t, id, a, now), i, now)
    ensures DispatchRow(o, t, id, a, now).outbox.Keys == t.outbox.Keys
  {
  }

  lemma MessageStamps(t: Tables, body: Option<Envelope>, w: World, now: Time, i: JobId)
    ensures Stamped(t, Receive(t, body, w, now).tables, i, now) && Stamped(t, Consumer.Condemn(t, body, now), i, now)
    ensures Receive(t, body, w, now).tables.outbox.Keys == t.outbox.Keys == Consumer.Condemn(t, body, now).outbox.Keys
  {
    if body.Some? {
      ProcessEffect(t, body.value, w, now);
    }
  }

  /** Every write stamps its row, only a creation makes one, and only of a job not seen before. */
  lemma StepStamps(o: Options, s: State, e: Event, id: JobId)
    requires Enabled(o, s, e)
    ensures var s' := Apply(o, s, e);
      && s.now <= s'.now && Stamped(s.t, s'.t, id, s.now) && s.jobs.Keys <= s'.jobs.Keys
      && (id in s'.t.outbox ==> id in s.t.outbox || id !in s.jobs)
  {
    match e
    case Dispatch(i, _, a) => DispatchStamps(o, s.t, i, a, s.now, id);
    case Deliver(m, w) => MessageStamps(s.t, s.queue[m], w, s.now, id);
    case Condemn(m) =>
      if m in s.queue {
        MessageStamps(s.t, s.queue[m], World(true, Accepts, false, None, true, true), s.now, id);
      }
    case _ =>
  }

  lemma StepKeepsDates(o: Options, s: State, e: Event)
    requires Enabled(o, s, e) && Dated(s.t, s.now)
    ensures Dated(Apply(o, s, e).t, Apply(o, s, e).now)
  {
    var s' := Apply(o, s, e);
    forall id | id in s'.t.outbox ensures s'.t.outbox[id].updatedAt <= s'.now {
      StepStamps(o, s, e, id);
    }
  }

  /** Along a run rows are never dated in the future nor dated back, and a row that is gone stays gone. */
  lemma {:induction false} RunKeepsDates(o: Options, s: State, events: seq<Event>, s': State, id: JobId)
    requires Dated(s.t, s.now) && Runs(o, s, events, s')
    ensures Dated(s'.t, s'.now) && s.now <= s'.now
    ensures id in s.jobs && id in s'.t.outbox ==>
      id in s.t.outbox && s.t.outbox[id].updatedAt <= s'.t.outbox[id].updatedAt
    decreases |events|
  {
    if events == [] {
    } else {
      StepKeepsDates(o, s, events[0]);
      StepStamps(o, s, events[0], id);
      RunKeepsDates(o, Apply(o, s, events[0]), events[1..], s', id);
    }
  }
}
