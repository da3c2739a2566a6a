/**
 Where rows and envelopes get their contents: however stale the rows that workers write back, every copy of a job
 carries the type and the payload the job was created with.
 */
module Provenance {
  import opened Wrappers
  import opened JobOutbox
  import opened OutboxStore
  import opened JobHandlers
  import opened JobsOptions
  import opened Relay
  import opened Delivery

  predicate Creates(e: Event, id: JobId, jobType: JobType, payload: Payload) {
    e.Enqueue? && e.id == id && e.jobType == jobType && e.payload == payload
  }

  ghost predicate Created(events: seq<Event>, id: JobId, jobType: JobType, payload: Payload) {
    exists k :: 0 <= k < |events| && Creates(events[k], id, jobType, payload)
  }

  /** The copy of a row says what the creation of its job said. */
  ghost predicate IsAuthentic(events: seq<Event>, id: JobId, job: Job) {
    Created(events, id, job.jobType, job.payload)
  }

  ghost predicate RowsAreAuthentic(events: seq<Event>, t: Tables) {
    forall id :: id in t.outbox ==> IsAuthentic(events, id, t.outbox[id])
  }

  ghost predicate HoldersAreAuthentic(events: seq<Event>, s: State) {
    && (forall r :: r in s.relays ==> IsAuthentic(events, s.relays[r].id, s.relays[r].job))
    && (forall c :: c in s.consumers && s.consumers[c].Condemning? ==>
          IsAuthentic(events, s.consumers[c].id, s.consumers[c].job))
  }

  ghost predicate EnvelopesAreAuthentic(events: seq<Event>, sent: set<Envelope>) {
    forall env :: env in sent ==> Created(events, env.jobId, env.jobType, env.payload)
  }

  ghost predicate Authentic(events: seq<Event>, s: State) {
    RowsAreAuthentic(events, s.t) && HoldersAreAuthentic(events, s) && EnvelopesAreAuthentic(events, s.sent)
  }

  lemma CreatedStays(events: seq<Event>, e: Event, id: JobId, jobType: JobType, payload: Payload)
    requires Created(events, id, jobType, payload)
    ensures Created(events + [e], id, jobType, payload)
  {
    var k :| 0 <= k < |events| && Creates(events[k], id, jobType, payload);
    assert (events + [e])[k] == events[k];
  }

  lemma AuthenticStays(events: seq<Event>, e: Event, s: State)
    requires Authentic(events, s)
    ensures Authentic(events + [e], s)
  {
    forall id, jobType, payload | Created(events, id, jobType, payload)
      ensures Created(events + [e], id, jobType, payload)
    {
      CreatedStays(events, e, id, jobType, payload);
    }
  }

  /** Whatever the relay writes, it writes over the same job's snapshot. */
  lemma WriteBackKeepsContents(o: Options, events: seq<Event>, s: State, r: nat, stored: bool, errored: bool)
    requires Authentic(events, s) && r in s.relays
    ensures Authentic(events, ApplyWriteBack(o, s, r, stored, errored))
  {
    var p := s.relays[r];
    assert IsAuthentic(events, p.id, p.job);
    assert IsAuthentic(events, p.id, AfterFailure(o, p.job, s.now));
    assert IsAuthentic(events, p.id, p.job.MarkPublished(s.now));
  }

  lemma ConsumeKeepsContents(events: seq<Event>, s: State, c: nat, env: Envelope, w: World)
    requires Authentic(events, s)
    ensures Authentic(events, ApplyConsume(s, c, env, w))
  {
    ProcessEffect(s.t, env, w, s.now);
    var t' := ApplyConsume(s, c, env, w).t;
    forall id | id in t'.outbox ensures IsAuthentic(events, id, t'.outbox[id]) {
      assert IsAuthentic(events, id, s.t.outbox[id]);
    }
  }

  lemma SweepsKeepContents(events: seq<Event>, t: Tables, ids: set<JobId>, now: Time)
    requires RowsAreAuthentic(events, t)
    ensures RowsAreAuthentic(events, ClaimRows(t, ids, now)) && RowsAreAuthentic(events, ReplayRows(t, ids, now))
    ensures RowsAreAuthentic(events, DeleteRows(t, ids))
  {
    forall id | id in t.outbox
      ensures IsAuthentic(events, id, ClaimRows(t, ids, now).outbox[id])
      ensures IsAuthentic(events, id, ReplayRows(t, ids, now).outbox[id])
    {
      assert IsAuthentic(events, id, t.outbox[id]);
    }
  }

  lemma MarkDeadKeepsContents(events: seq<Event>, s: State, c: nat, stored: bool)
    requires Authentic(events, s) && c in s.consumers && s.consumers[c].Condemning?
    ensures var p := s.consumers[c];
      Authentic(events, s.(
        t := if stored then SaveJob(s.t, p.id, p.job.MarkDead("poison message", s.now)) else s.t,
        consumers := s.consumers - {c}))
  {
    var p := s.consumers[c];
    assert IsAuthentic(events, p.id, p.job);
    assert IsAuthentic(events, p.id, p.job.MarkDead("poison message", s.now));
  }

  lemma LookUpKeepsContents(events: seq<Event>, s: State, c: nat, id: JobId)
    requires Authentic(events, s) && id in s.t.outbox
    ensures Authentic(events, s.(consumers := s.consumers[c := Condemning(id, s.t.outbox[id])]))
  {
    assert IsAuthentic(events, id, s.t.outbox[id]);
  }

  lemma LeavingKeepsContents(events: seq<Event>, s: State, r: nat, c: nat)
    requires Authentic(events, s)
    ensures Authentic(events, s.(relays := s.relays - {r}))
    ensures Authentic(events, s.(consumers := s.consumers - {c}))
  {
  }

  lemma ReadKeepsContents(events: seq<Event>, s: State, r: nat, id: JobId)
    requires Authentic(events, s) && id in s.t.outbox
    ensures Authentic(events, s.(relays := s.relays[r := HasRead(id, s.t.outbox[id])]))
  {
    assert IsAuthentic(events, id, s.t.outbox[id]);
  }

  lemma PublishKeepsContents(events: seq<Event>, s: State, r: nat, accepted: bool, next: RelayWorker)
    requires Authentic(events, s) && r in s.relays && next.id == s.relays[r].id && next.job == s.relays[r].job
    ensures var p := s.relays[r];
      Authentic(events, s.(sent := if accepted then s.sent + {p.job.ToEnvelope(p.id)} else s.sent,
                           relays := s.relays[r := next]))
  {
    assert IsAuthentic(events, s.relays[r].id, s.relays[r].job);
  }

  lemma EnqueueKeepsContents(events: seq<Event>, s: State, e: Event)
    requires Authentic(events, s) && e.Enqueue?
    ensures Authentic(events + [e],
      ApplyEnqueue(s, e.id, Job.Create(e.jobType, e.payload, s.now + e.delayMs, s.now)))
  {
    AuthenticStays(events, e, s);
    assert Creates((events + [e])[|events|], e.id, e.jobType, e.payload);
    assert IsAuthentic(events + [e], e.id, Job.Create(e.jobType, e.payload, s.now + e.delayMs, s.now));
  }

  lemma RelayKeepsContents(o: Options, guarded: bool, events: seq<Event>, s: State, e: Event)
    requires Authentic(events, s) && Enabled(o, guarded, s, e)
    requires e.Read? || e.Publish? || e.WriteBack? || e.CrashRelay?
    ensures Authentic(events, Apply(o, guarded, s, e))
  {
    match e
    case Read(r, id) => ReadKeepsContents(events, s, r, id);
    case Publish(r, accepted, errored) =>
      var p := s.relays[r];
      PublishKeepsContents(events, s, r, accepted, if errored then Caught(p.id, p.job) else HasPublished(p.id, p.job));
    case WriteBack(r, stored, errored) => WriteBackKeepsContents(o, events, s, r, stored, errored);
    case CrashRelay(r) => LeavingKeepsContents(events, s, r, 0);
  }

  lemma ConsumerKeepsContents(o: Options, guarded: bool, events: seq<Event>, s: State, e: Event)
    requires Authentic(events, s) && Enabled(o, guarded, s, e)
    requires e.Consume? || e.LookUpPoison? || e.MarkDead? || e.CrashConsumer?
    ensures Authentic(events, Apply(o, guarded, s, e))
  {
    match e
    case Consume(c, env, w) => ConsumeKeepsContents(events, s, c, env, w);
    case LookUpPoison(c) =>
      var id := s.consumers[c].env.jobId;
      if id in s.t.outbox && !s.t.outbox[id].Settled() {
        LookUpKeepsContents(events, s, c, id);
      } else {
        LeavingKeepsContents(events, s, 0, c);
      }
    case MarkDead(c, stored) => MarkDeadKeepsContents(events, s, c, stored);
    case CrashConsumer(c) => LeavingKeepsContents(events, s, 0, c);
  }

  lemma SweepStepKeepsContents(o: Options, guarded: bool, events: seq<Event>, s: State, e: Event)
    requires Authentic(events, s) && Enabled(o, guarded, s, e)
    requires e.Tick? || e.ChangeEndpoints? || e.Claim? || e.Replay? || e.Cleanup?
    ensures Authentic(events, Apply(o, guarded, s, e))
  {
    match e
    case Claim(ids) => SweepsKeepContents(events, s.t, ids, s.now);
    case Replay(ids) => SweepsKeepContents(events, s.t, ids, s.now);
    case Cleanup(ids) => SweepsKeepContents(events, s.t, ids, s.now);
    case Tick(_) =>
    case ChangeEndpoints(_) =>
  }

  lemma StepKeepsContents(o: Options, guarded: bool, events: seq<Event>, s: State, e: Event)
    requires Authentic(events, s) && Enabled(o, guarded, s, e)
    ensures Authentic(events + [e], Apply(o, guarded, s, e))
  {
    if e.Enqueue? {
      EnqueueKeepsContents(events, s, e);
    } else {
      if e.Read? || e.Publish? || e.WriteBack? || e.CrashRelay? {
        RelayKeepsContents(o, guarded, events, s, e);
      } else if e.Consume? || e.LookUpPoison? || e.MarkDead? || e.CrashConsumer? {
        ConsumerKeepsContents(o, guarded, events, s, e);
      } else {
        SweepStepKeepsContents(o, guarded, events, s, e);
      }
      AuthenticStays(events, e, Apply(o, guarded, s, e));
    }
  }

  lemma {:induction false} RunKeepsContents(o: Options, guarded: bool, before: seq<Event>, s: State,
                                            events: seq<Event>, s': State)
    requires Authentic(before, s) && Runs(o, guarded, s, events, s')
    ensures Authentic(before + events, s')
    decreases |events|
  {
    if events == [] {
      assert before + events == before;
    } else {
      StepKeepsContents(o, guarded, before, s, events[0]);
      RunKeepsContents(o, guarded, before + [events[0]], Apply(o, guarded, s, events[0]), events[1..], s');
      assert before + [events[0]] + events[1..] == before + events;
    }
  }

  // ----- A job is created once -----

  lemma StepKeepsNames(o: Options, guarded: bool, s: State, e: Event)
    requires Enabled(o, guarded, s, e)
    ensures s.jobs.Keys <= Apply(o, guarded, s, e).jobs.Keys
    ensures e.Enqueue? ==> e.id !in s.jobs && e.id in Apply(o, guarded, s, e).jobs
  {
  }

  lemma {:induction false} NamesAreNew(o: Options, guarded: bool, s: State, events: seq<Event>, s': State, k: nat)
    requires Runs(o, guarded, s, events, s') && k < |events| && events[k].Enqueue?
    ensures events[k].id !in s.jobs
    decreases |events|
  {
    if k == 0 {
    } else {
      StepKeepsNames(o, guarded, s, events[0]);
      NamesAreNew(o, guarded, Apply(o, guarded, s, events[0]), events[1..], s', k - 1);
    }
  }

  lemma {:induction false} CreatedOnce(o: Options, guarded: bool, s: State, events: seq<Event>, s': State,
                                       i: nat, j: nat)
    requires Runs(o, guarded, s, events, s') && i < j < |events| && events[i].Enqueue? && events[j].Enqueue?
    ensures events[i].id != events[j].id
    decreases |events|
  {
    var s1 := Apply(o, guarded, s, events[0]);
    if i == 0 {
      StepKeepsNames(o, guarded, s, events[0]);
      NamesAreNew(o, guarded, s1, events[1..], s', j - 1);
    } else {
      CreatedOnce(o, guarded, s1, events[1..], s', i - 1, j - 1);
    }
  }

  /** Over every run, guarded or not, the envelopes of a job carry the type and payload of its one creation. */
  lemma EnvelopesSayWhatWasCreated(o: Options, guarded: bool, events: seq<Event>, s: State, env: Envelope, k: nat)
    requires Runs(o, guarded, Init(), events, s) && env in s.sent
    requires k < |events| && events[k].Enqueue? && events[k].id == env.jobId
    ensures env.jobType == events[k].jobType && env.payload == events[k].payload
  {
    RunKeepsContents(o, guarded, [], Init(), events, s);
    assert [] + events == events;
    assert Created(events, env.jobId, env.jobType, env.payload);
    var i :| 0 <= i < |events| && Creates(events[i], env.jobId, env.jobType, env.payload);
    if i < k {
      CreatedOnce(o, guarded, Init(), events, s, i, k);
    } else if k < i {
      CreatedOnce(o, guarded, Init(), events, s, k, i);
    }
  }

  /** And there is such a creation; in particular no envelope names a job that was not created. */
  lemma EnvelopesAreOfCreatedJobs(o: Options, guarded: bool, events: seq<Event>, s: State, env: Envelope)
    requires Runs(o, guarded, Init(), events, s) && env in s.sent
    ensures exists k :: 0 <= k < |events| && Creates(events[k], env.jobId, env.jobType, env.payload)
  {
    RunKeepsContents(o, guarded, [], Init(), events, s);
    assert [] + events == events;
    assert Created(events, env.jobId, env.jobType, env.payload);
  }

  /**
   A delivered webhook went to the endpoint its job was created for: that endpoint's row shows the delivery, and
   the other endpoints are as others have left them.
   */
  lemma DeliveredWhereCreated(o: Options, guarded: bool, events: seq<Event>, s: State,
                              c: nat, env: Envelope, w: World, k: nat)
    requires Runs(o, guarded, Init(), events, s) && Enabled(o, guarded, s, Consume(c, env, w))
    requires k < |events| && events[k].Enqueue? && events[k].id == env.jobId && events[k].jobType == WebhookDelivery
    requires Process(s.t, env, w, s.now).done == Delivered
    ensures var e := events[k].payload.endpointId;
      var t' := Apply(o, guarded, s, Consume(c, env, w)).t;
      && e in s.t.endpoints && e in t'.endpoints && t'.endpoints[e] == Endpoint(Some(s.now), None, None)
      && t'.endpoints - {e} == w.Later(s.t).endpoints - {e}
  {
    EnvelopesSayWhatWasCreated(o, guarded, events, s, env, k);
  }
}
