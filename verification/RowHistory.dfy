/** What the columns of a row tell about its past, over every run of the lifecycle. */
module RowHistory {
  import opened Wrappers
  import opened JobOutbox
  import opened OutboxStore
  import opened JobHandlers
  import opened JobsOptions
  import opened Relay
  import opened Consumer
  import opened Lifecycle
  import opened OutboxGuarantees

  /**
   A row waiting to be published has not been published since its creation or replay, and holds an error exactly if
   publishing has failed since; a published row was last written when it was published; a dead one holds an error.
   */
  predicate IsCoherent(job: Job) {
    && job.createdAt <= job.updatedAt
    && match job.status
       case Pending => job.publishedAt.None? && (job.lastError.None? <==> job.attemptCount == 0)
       case Claimed => job.publishedAt.None? && (job.lastError.None? <==> job.attemptCount == 0)
       case Published => job.publishedAt == Some(job.updatedAt)
       case Completed => true
       case Dead => job.lastError.Some? && job.attemptCount > 0
  }

  predicate IsCoherentAt(t: Tables, id: JobId) {
    id in t.outbox ==> IsCoherent(t.outbox[id])
  }

  ghost predicate Coherent(s: State) {
    Dated(s.t, s.now) && forall id :: IsCoherentAt(s.t, id)
  }

  /** The row, if both tables have it, is still of the same creation. */
  predicate IsSameJob(t: Tables, t': Tables, id: JobId) {
    id in t.outbox && id in t'.outbox ==>
      && t'.outbox[id].jobType == t.outbox[id].jobType && t'.outbox[id].payload == t.outbox[id].payload
      && t'.outbox[id].createdAt == t.outbox[id].createdAt
  }

  lemma DispatchIsCoherent(o: Options, t: Tables, i: JobId, a: Attempt, now: Time, id: JobId)
    requires IsCoherentAt(t, id) && (id in t.outbox ==> t.outbox[id].updatedAt <= now)
    ensures IsCoherentAt(DispatchRow(o, t, i, a, now), id) && IsSameJob(t, DispatchRow(o, t, i, a, now), id)
  {
    if IsClaimed(t, i) {
      AfterFailureEffect(o, t.outbox[i], now);
    }
  }

  lemma MessageIsCoherent(t: Tables, body: Option<Envelope>, w: World, now: Time, id: JobId)
    requires IsCoherentAt(t, id) && (id in t.outbox ==> t.outbox[id].updatedAt <= now)
    ensures IsCoherentAt(Receive(t, body, w, now).tables, id) && IsCoherentAt(Consumer.Condemn(t, body, now), id)
    ensures IsSameJob(t, Receive(t, body, w, now).tables, id) && IsSameJob(t, Consumer.Condemn(t, body, now), id)
  {
    if body.Some? {
      ProcessEffect(t, body.value, w, now);
    }
  }

  lemma SweepsAreCoherent(t: Tables, ids: set<JobId>, now: Time, id: JobId)
    requires IsCoherentAt(t, id) && (id in t.outbox ==> t.outbox[id].updatedAt <= now)
    ensures IsCoherentAt(ReplayRows(t, ids, now), id) && IsSameJob(t, ReplayRows(t, ids, now), id)
    ensures IsCoherentAt(DeleteRows(t, ids), id) && IsSameJob(t, DeleteRows(t, ids), id)
    ensures (id in ids && id in t.outbox ==> t.outbox[id].status == Pending || t.outbox[id].status == Claimed) ==>
      IsCoherentAt(ClaimRows(t, ids, now), id)
    ensures IsSameJob(t, ClaimRows(t, ids, now), id)
  {
  }

  lemma StepIsCoherent(o: Options, s: State, e: Event, id: JobId)
    requires Coherent(s) && Enabled(o, s, e)
    ensures IsCoherentAt(Apply(o, s, e).t, id)
    ensures id in s.jobs ==> IsSameJob(s.t, Apply(o, s, e).t, id)
  {
    assert IsCoherentAt(s.t, id);
    match e
    case Claim(ids, _) => SweepsAreCoherent(s.t, ids, s.now, id);
    case Replay(ids) => SweepsAreCoherent(s.t, ids, s.now, id);
    case Cleanup(_, ids) => SweepsAreCoherent(s.t, ids, s.now, id);
    case Dispatch(i, _, a) => DispatchIsCoherent(o, s.t, i, a, s.now, id);
    case Deliver(m, w) => MessageIsCoherent(s.t, s.queue[m], w, s.now, id);
    case Condemn(m) =>
      if m in s.queue {
        MessageIsCoherent(s.t, s.queue[m], GOOD, s.now, id);
      }
    case _ =>
  }

  lemma StepKeepsCoherence(o: Options, s: State, e: Event)
    requires Coherent(s) && Enabled(o, s, e)
    ensures Coherent(Apply(o, s, e))
  {
    StepKeepsDates(o, s, e);
    forall id ensures IsCoherentAt(Apply(o, s, e).t, id) {
      StepIsCoherent(o, s, e, id);
    }
  }

  /** Along every run rows stay coherent, and a row keeps the type, payload and creation time of its job. */
  lemma {:induction false} RunKeepsRows(o: Options, s: State, events: seq<Event>, s': State, id: JobId)
    requires Coherent(s) && Runs(o, s, events, s')
    ensures Coherent(s')
    ensures id in s.jobs ==> IsSameJob(s.t, s'.t, id)
    decreases |events|
  {
    if events == [] {
    } else {
      var s1 := Apply(o, s, events[0]);
      StepKeepsCoherence(o, s, events[0]);
      StepIsCoherent(o, s, events[0], id);
      StepStamps(o, s, events[0], id);
      RunKeepsRows(o, s1, events[1..], s', id);
      RunKeepsDates(o, s1, events[1..], s', id);
    }
  }

  /** In every reachable state the columns of a row fit together. */
  lemma RowsAreCoherent(o: Options, events: seq<Event>, s: State, id: JobId)
    requires Runs(o, Init(), events, s) && id in s.t.outbox
    ensures var job := s.t.outbox[id];
      && job.createdAt <= job.updatedAt <= s.now
      && (job.status == Pending || job.status == Claimed ==>
            job.publishedAt.None? && (job.lastError.None? <==> job.attemptCount == 0))
      && (job.status == Published ==> job.publishedAt == Some(job.updatedAt))
      && (job.status == Dead ==> job.lastError.Some? && job.attemptCount > 0)
  {
    RunKeepsRows(o, Init(), events, s, id);
    assert IsCoherentAt(s.t, id);
  }

  /** A replayed row is as it was created, but for its age. */
  lemma ReplayIsCreation(t: Tables, ids: set<JobId>, now: Time, id: JobId)
    requires id in t.outbox && id in ids
    ensures var row := ReplayRows(t, ids, now).outbox[id];
      row.(createdAt := now) == Job.Create(t.outbox[id].jobType, t.outbox[id].payload, now, now)
  {
  }

  /** A job is not claimed before its delay has passed, and can be from then on, unless its row is written first. */
  lemma DelayedJobsWait(o: Options, s: State, id: JobId, jobType: JobType, payload: Payload, delayMs: nat,
                        events: seq<Event>, s': State)
    requires Enabled(o, s, Enqueue(id, jobType, payload, delayMs))
    requires RunsWithoutWriting(o, Apply(o, s, Enqueue(id, jobType, payload, delayMs)), events, s', id)
    ensures ClaimableAt(o, s'.t, id, s'.now) <==> s'.now >= s.now + delayMs
    ensures id in s'.t.outbox && s'.t.outbox[id].jobType == jobType && s'.t.outbox[id].payload == payload
  {
    UnwrittenRowStays(o, Apply(o, s, Enqueue(id, jobType, payload, delayMs)), events, s', id);
  }
}
