/**
 The outbox protocol at its finest grain. The relay's read, publish and write-back are
 separate steps, and so are the consumer's look-up and its mark-dead, so any write may store
 a stale row over a newer one. Messages may be duplicated and redelivered for ever, writes
 and publishes may take effect and still report an error, and every worker may crash anywhere.
 */
module Delivery {
  import opened Wrappers
  import opened JobOutbox
  import opened OutboxStore
  import opened JobHandlers
  import opened JobsOptions
  import opened Relay
  import FreshIds

  /** A relay that has read a row, has published it, or is in the handler of a caught error. */
  datatype RelayWorker = HasRead(id: JobId, job: Job) | HasPublished(id: JobId, job: Job) | Caught(id: JobId, job: Job)

  /** A consumer that was thrown a non-retryable error, and then one that has looked up the row. */
  datatype Consumer = Poisoned(env: Envelope) | Condemning(id: JobId, job: Job)

  /**
   `jobs` records every job ever created; `sent` every envelope ever put on the queue. The
   four multisets are history: sends the receiver took, committed deliveries, sends reported as
   accepted whose transaction did not commit, and sends taken but reported as errors.
   */
  datatype State = State(
    now: Time,
    t: Tables,
    sent: set<Envelope>,
    relays: map<nat, RelayWorker>,
    consumers: map<nat, Consumer>,
    jobs: map<JobId, JobType>,
    sends: multiset<JobId>,
    delivered: multiset<JobId>,
    lost: multiset<JobId>,
    unconfirmed: multiset<JobId>)

  datatype Event =
    | Tick(now: Time)
    | ChangeEndpoints(endpoints: map<nat, Endpoint>)
    | Enqueue(id: JobId, jobType: JobType, payload: Payload, delayMs: nat)
    | Claim(ids: set<JobId>)
    | Read(relay: nat, id: JobId)
    | Publish(relay: nat, accepted: bool, errored: bool)
    | WriteBack(relay: nat, stored: bool, errored: bool)
    | CrashRelay(relay: nat)
    | Consume(consumer: nat, env: Envelope, world: World)
    | LookUpPoison(consumer: nat)
    | MarkDead(consumer: nat, stored: bool)
    | CrashConsumer(consumer: nat)
    | Replay(ids: set<JobId>)
    | Cleanup(ids: set<JobId>)

  function Init(): State {
    State(0, Tables(map[], {}, map[]), {}, map[], map[], map[], multiset{}, multiset{}, multiset{}, multiset{})
  }

  /** The rows of which some worker holds a snapshot that it may still write. */
  ghost predicate Held(s: State, id: JobId) {
    || (exists r :: r in s.relays && s.relays[r].id == id)
    || (exists c :: c in s.consumers && s.consumers[c].Condemning? && s.consumers[c].id == id)
  }

  predicate Receipted(t: Tables, id: JobId) {
    id in t.outbox && (id, t.outbox[id].jobType) in t.receipts
  }

  /** Deleting this row would forget a delivery that a stale save can then undo. */
  ghost predicate Endangered(s: State, id: JobId) {
    Held(s, id) && Receipted(s.t, id)
  }

  /**
   A `guarded` cleanup spares endangered rows; the retention guidance, which spares every held row, is more
   than that. Claims may pick any subset of the matching rows, which covers every limit, every order and every
   locked row. Replays and cleanups write the rows they have selected earlier, whatever has become of them since,
   so they may pick any rows at all.
   */
  ghost predicate Enabled(o: Options, guarded: bool, s: State, e: Event) {
    match e
    case Tick(now) => s.now <= now
    case ChangeEndpoints(_) => true
    case Enqueue(id, _, _, _) => id !in s.jobs
    case Claim(ids) => ids <= ClaimPool(s.t, s.now, o.claimTimeoutMs, {}).Keys
    case Read(r, id) => r !in s.relays && id in s.t.outbox && s.t.outbox[id].status == Claimed
    case Publish(r, accepted, errored) => r in s.relays && s.relays[r].HasRead? && (accepted || errored)
    case WriteBack(r, stored, errored) => r in s.relays && !s.relays[r].HasRead? && (stored || errored)
    case CrashRelay(r) => r in s.relays
    case Consume(c, env, _) => c !in s.consumers && env in s.sent
    case LookUpPoison(c) => c in s.consumers && s.consumers[c].Poisoned?
    case MarkDead(c, _) => c in s.consumers && s.consumers[c].Condemning?
    case CrashConsumer(c) => c in s.consumers
    case Replay(ids) => ids <= s.t.outbox.Keys
    case Cleanup(ids) => ids <= s.t.outbox.Keys && (guarded ==> forall id :: id in ids ==> !Endangered(s, id))
  }

  function ApplyEnqueue(s: State, id: JobId, job: Job): State {
    s.(t := SaveJob(s.t, id, job), jobs := s.jobs[id := job.jobType])
  }

  function ApplyWriteBack(o: Options, s: State, r: nat, stored: bool, errored: bool): State
    requires r in s.relays
  {
    var p := s.relays[r];
    var row := if p.Caught? then AfterFailure(o, p.job, s.now) else p.job.MarkPublished(s.now);
    var t := if stored then SaveJob(s.t, p.id, row) else s.t;
    if errored && !p.Caught? then s.(t := t, relays := s.relays[r := Caught(p.id, p.job)])
    else s.(t := t, relays := s.relays - {r})
  }

  function ApplyConsume(s: State, c: nat, env: Envelope, w: World): State {
    var h := Process(s.t, env, w, s.now);
    var one := multiset{env.jobId};
    s.(t := h.tables,
       sends := if h.sent then s.sends + one else s.sends,
       delivered := if h.done == Delivered then s.delivered + one else s.delivered,
       lost := if h.sent && w.reply.Accepts? && !w.commits then s.lost + one else s.lost,
       unconfirmed := if h.sent && !w.reply.Accepts? then s.unconfirmed + one else s.unconfirmed,
       consumers := if h.outcome == NonRetryable then s.consumers[c := Poisoned(env)] else s.consumers)
  }

  ghost function Apply(o: Options, guarded: bool, s: State, e: Event): State
    requires Enabled(o, guarded, s, e)
  {
    match e
    case Tick(now) => s.(now := now)
    case ChangeEndpoints(endpoints) => s.(t := s.t.(endpoints := endpoints))
    case Enqueue(id, jobType, payload, delayMs) =>
      ApplyEnqueue(s, id, Job.Create(jobType, payload, s.now + delayMs, s.now))
    case Claim(ids) => s.(t := ClaimRows(s.t, ids, s.now))
    case Read(r, id) => s.(relays := s.relays[r := HasRead(id, s.t.outbox[id])])
    case Publish(r, accepted, errored) =>
      var p := s.relays[r];
      s.(sent := if accepted then s.sent + {p.job.ToEnvelope(p.id)} else s.sent,
         relays := s.relays[r := if errored then Caught(p.id, p.job) else HasPublished(p.id, p.job)])
    case WriteBack(r, stored, errored) => ApplyWriteBack(o, s, r, stored, errored)
    case CrashRelay(r) => s.(relays := s.relays - {r})
    case Consume(c, env, w) => ApplyConsume(s, c, env, w)
    case LookUpPoison(c) =>
      var id := s.consumers[c].env.jobId;
      if id in s.t.outbox && !s.t.outbox[id].Settled() then
        s.(consumers := s.consumers[c := Condemning(id, s.t.outbox[id])])
      else
        s.(consumers := s.consumers - {c})
    case MarkDead(c, stored) =>
      var p := s.consumers[c];
      s.(t := if stored then SaveJob(s.t, p.id, p.job.MarkDead("poison message", s.now)) else s.t,
         consumers := s.consumers - {c})
    case CrashConsumer(c) => s.(consumers := s.consumers - {c})
    case Replay(ids) => s.(t := ReplayRows(s.t, ids, s.now))
    case Cleanup(ids) => s.(t := DeleteRows(s.t, ids))
  }

  ghost predicate Runs(o: Options, guarded: bool, s: State, events: seq<Event>, s': State)
    decreases |events|
  {
    if events == [] then s == s'
    else Enabled(o, guarded, s, events[0]) && Runs(o, guarded, Apply(o, guarded, s, events[0]), events[1..], s')
  }

  lemma RunsStart(o: Options, guarded: bool, s: State, e: Event, events: seq<Event>, s': State)
    requires Enabled(o, guarded, s, e) && Runs(o, guarded, Apply(o, guarded, s, e), events, s')
    ensures Runs(o, guarded, s, [e] + events, s')
  {
    assert ([e] + events)[1..] == events;
  }

  lemma {:induction false} Extend(o: Options, guarded: bool, s: State, events: seq<Event>, s': State, e: Event)
    requires Runs(o, guarded, s, events, s') && Enabled(o, guarded, s', e)
    ensures Runs(o, guarded, s, events + [e], Apply(o, guarded, s', e))
    decreases |events|
  {
    if events == [] {
      assert (events + [e])[1..] == [];
    } else {
      assert (events + [e])[1..] == events[1..] + [e];
      Extend(o, guarded, Apply(o, guarded, s, events[0]), events[1..], s', e);
    }
  }

  lemma {:induction false} RunsConcat(o: Options, guarded: bool, s: State, first: seq<Event>, s1: State,
                                      second: seq<Event>, s2: State)
    requires Runs(o, guarded, s, first, s1) && Runs(o, guarded, s1, second, s2)
    ensures Runs(o, guarded, s, first + second, s2)
    decreases |second|
  {
    if second == [] {
      assert first + second == first;
    } else {
      Extend(o, guarded, s, first, s1, second[0]);
      RunsConcat(o, guarded, s, first + [second[0]], Apply(o, guarded, s1, second[0]), second[1..], s2);
      assert first + [second[0]] + second[1..] == first + second;
    }
  }

  lemma OneStep(o: Options, guarded: bool, s: State, e: Event)
    requires Enabled(o, guarded, s, e)
    ensures Runs(o, guarded, s, [e], Apply(o, guarded, s, e))
  {
    RunsStart(o, guarded, s, e, [], Apply(o, guarded, s, e));
    assert [e] + [] == [e];
  }

  /** A job keeps the type it was created with, in its row, its receipts and every copy of either. */
  ghost predicate Typed(s: State) {
    && (forall id :: id in s.t.outbox ==> id in s.jobs && s.t.outbox[id].jobType == s.jobs[id])
    && (forall r :: r in s.t.receipts ==> r.0 in s.t.outbox && r.1 == s.jobs[r.0])
    && (forall env :: env in s.sent ==> env.jobId in s.jobs && env.jobType == s.jobs[env.jobId])
  }

  /** A snapshot may outlive its row only if its job was never delivered: this is what the guard buys. */
  ghost predicate Snapshots(s: State) {
    && (forall r :: r in s.relays ==> Harmless(s, s.relays[r].id, s.relays[r].job))
    && (forall c :: c in s.consumers && s.consumers[c].Condemning? ==>
          Harmless(s, s.consumers[c].id, s.consumers[c].job))
  }

  ghost predicate Harmless(s: State, id: JobId, job: Job) {
    id in s.jobs && job.jobType == s.jobs[id] && (id in s.t.outbox || s.delivered[id] == 0)
  }

  /** The receipt table, not the status column, is what remembers a delivery. */
  ghost predicate Deliveries(s: State) {
    && (forall id :: s.delivered[id] <= 1)
    && (forall id :: id !in s.jobs ==> s.delivered[id] == 0)
    && (forall id :: id in s.t.outbox && id in s.jobs ==> (s.delivered[id] == 1 <==> (id, s.jobs[id]) in s.t.receipts))
  }

  ghost predicate Ledger(s: State) {
    Deliveries(s) && s.sends == s.delivered + s.lost + s.unconfirmed
  }

  /** Some envelope on record delivers the job if its row lets it. */
  ghost predicate Deliverable(sent: set<Envelope>, id: JobId) {
    exists env :: env in sent && env.jobId == id && env.payload.wellFormed && !env.jobType.Unsupported?
  }

  ghost predicate Repeatable(s: State) {
    forall id :: s.delivered[id] > 0 ==> Deliverable(s.sent, id)
  }

  ghost predicate Inv(s: State) {
    Typed(s) && Snapshots(s) && Ledger(s) && Repeatable(s)
  }

  lemma RepeatableStays(s: State, s': State)
    requires Repeatable(s) && s'.delivered == s.delivered && s.sent <= s'.sent
    ensures Repeatable(s')
  {
    forall id | s'.delivered[id] > 0 ensures Deliverable(s'.sent, id) {
      assert Deliverable(s.sent, id);
    }
  }

  lemma ConsumeKeepsTypes(s: State, c: nat, env: Envelope, w: World)
    requires Typed(s) && env in s.sent
    ensures Typed(ApplyConsume(s, c, env, w))
  {
    ProcessEffect(s.t, env, w, s.now);
  }

  lemma ConsumeKeepsSnapshots(s: State, c: nat, env: Envelope, w: World)
    requires Typed(s) && Snapshots(s) && env in s.sent
    ensures Snapshots(ApplyConsume(s, c, env, w))
  {
    ProcessEffect(s.t, env, w, s.now);
  }

  lemma ConsumeDeliversOnce(s: State, c: nat, env: Envelope, w: World)
    requires Typed(s) && Deliveries(s) && env in s.sent
    ensures Deliveries(ApplyConsume(s, c, env, w))
  {
    ProcessEffect(s.t, env, w, s.now);
    var h, s' := Process(s.t, env, w, s.now), ApplyConsume(s, c, env, w);
    if h.done == Delivered {
      assert s'.delivered[env.jobId] == 1;
    }
  }

  lemma SendIsOnTheBooks(s: State, c: nat, env: Envelope, w: World)
    requires s.sends == s.delivered + s.lost + s.unconfirmed
    ensures var s' := ApplyConsume(s, c, env, w); s'.sends == s'.delivered + s'.lost + s'.unconfirmed
  {
    ProcessEffect(s.t, env, w, s.now);
  }

  lemma ConsumeKeepsLedger(s: State, c: nat, env: Envelope, w: World)
    requires Typed(s) && Ledger(s) && env in s.sent
    ensures Ledger(ApplyConsume(s, c, env, w))
  {
    ConsumeDeliversOnce(s, c, env, w);
    SendIsOnTheBooks(s, c, env, w);
  }

  lemma ConsumeKeepsRepeatable(s: State, c: nat, env: Envelope, w: World)
    requires Repeatable(s) && env in s.sent
    ensures Repeatable(ApplyConsume(s, c, env, w))
  {
    ProcessEffect(s.t, env, w, s.now);
    var s' := ApplyConsume(s, c, env, w);
    forall id | s'.delivered[id] > 0 ensures Deliverable(s'.sent, id) {
      assert id != env.jobId ==> Deliverable(s.sent, id);
    }
  }

  /** A save over a row, or in place of a deleted one, keeps the books if it saves the type the job was made with. */
  lemma SaveKeepsInv(s: State, id: JobId, job: Job)
    requires Inv(s) && Harmless(s, id, job)
    ensures Inv(s.(t := SaveJob(s.t, id, job)))
  {
  }

  lemma HoldersMayLeave(s: State, relays: map<nat, RelayWorker>, consumers: map<nat, Consumer>)
    requires Inv(s)
    requires forall r :: r in relays ==> Harmless(s, relays[r].id, relays[r].job)
    requires forall c :: c in consumers && consumers[c].Condemning? ==> Harmless(s, consumers[c].id, consumers[c].job)
    ensures Inv(s.(relays := relays, consumers := consumers))
  {
  }

  lemma WriteBackKeepsInv(o: Options, s: State, r: nat, stored: bool, errored: bool)
    requires Inv(s) && r in s.relays
    ensures Inv(ApplyWriteBack(o, s, r, stored, errored))
  {
    var p := s.relays[r];
    var row := if p.Caught? then AfterFailure(o, p.job, s.now) else p.job.MarkPublished(s.now);
    assert Harmless(s, p.id, p.job);
    assert Harmless(s, p.id, row);
    SaveKeepsInv(s, p.id, row);
    var saved := if stored then s.(t := SaveJob(s.t, p.id, row)) else s;
    var relays := if errored && !p.Caught? then s.relays[r := Caught(p.id, p.job)] else s.relays - {r};
    assert Harmless(saved, p.id, p.job);
    HoldersMayLeave(saved, relays, s.consumers);
    assert ApplyWriteBack(o, s, r, stored, errored) == saved.(relays := relays, consumers := s.consumers);
  }

  lemma CleanupKeepsInv(s: State, ids: set<JobId>)
    requires Inv(s) && ids <= s.t.outbox.Keys && forall id :: id in ids ==> !Endangered(s, id)
    ensures Inv(s.(t := DeleteRows(s.t, ids)))
  {
    forall r | r in s.relays ensures Harmless(s.(t := DeleteRows(s.t, ids)), s.relays[r].id, s.relays[r].job) {
      assert Held(s, s.relays[r].id);
    }
    forall c | c in s.consumers && s.consumers[c].Condemning?
      ensures Harmless(s.(t := DeleteRows(s.t, ids)), s.consumers[c].id, s.consumers[c].job)
    {
      assert Held(s, s.consumers[c].id);
    }
  }

  lemma ReadKeepsInv(s: State, r: nat, id: JobId)
    requires Inv(s) && id in s.t.outbox
    ensures Inv(s.(relays := s.relays[r := HasRead(id, s.t.outbox[id])]))
  {
    HoldersMayLeave(s, s.relays[r := HasRead(id, s.t.outbox[id])], s.consumers);
  }

  lemma PublishKeepsInv(s: State, r: nat, accepted: bool, next: RelayWorker)
    requires Inv(s) && r in s.relays && next.id == s.relays[r].id && next.job == s.relays[r].job
    ensures var p := s.relays[r];
      Inv(s.(sent := if accepted then s.sent + {p.job.ToEnvelope(p.id)} else s.sent, relays := s.relays[r := next]))
  {
    var p := s.relays[r];
    assert Harmless(s, p.id, p.job);
    var sent := if accepted then s.sent + {p.job.ToEnvelope(p.id)} else s.sent;
    RepeatableStays(s, s.(sent := sent));
    HoldersMayLeave(s.(sent := sent), s.relays[r := next], s.consumers);
  }

  lemma LookUpKeepsInv(s: State, c: nat, id: JobId)
    requires Inv(s) && id in s.t.outbox
    ensures Inv(s.(consumers := s.consumers[c := Condemning(id, s.t.outbox[id])]))
  {
    HoldersMayLeave(s, s.relays, s.consumers[c := Condemning(id, s.t.outbox[id])]);
  }

  lemma MarkDeadKeepsInv(s: State, c: nat, stored: bool)
    requires Inv(s) && c in s.consumers && s.consumers[c].Condemning?
    ensures var p := s.consumers[c];
      Inv(s.(t := if stored then SaveJob(s.t, p.id, p.job.MarkDead("poison message", s.now)) else s.t,
             consumers := s.consumers - {c}))
  {
    var p := s.consumers[c];
    var row := p.job.MarkDead("poison message", s.now);
    assert Harmless(s, p.id, row);
    SaveKeepsInv(s, p.id, row);
    var saved := if stored then s.(t := SaveJob(s.t, p.id, row)) else s;
    HoldersMayLeave(saved, s.relays, s.consumers - {c});
  }

  lemma NamingKeepsBooks(s: State, id: JobId, jobType: JobType)
    requires Typed(s) && Snapshots(s) && Ledger(s) && id !in s.jobs
    ensures var s' := s.(jobs := s.jobs[id := jobType]); Typed(s') && Snapshots(s') && Ledger(s')
  {
    assert id !in s.t.outbox;
  }

  /** A new job id is on nobody's books yet. */
  lemma NamingKeepsInv(s: State, id: JobId, jobType: JobType)
    requires Inv(s) && id !in s.jobs
    ensures Inv(s.(jobs := s.jobs[id := jobType])) && s.delivered[id] == 0
  {
    NamingKeepsBooks(s, id, jobType);
    RepeatableStays(s, s.(jobs := s.jobs[id := jobType]));
  }

  lemma EnqueueKeepsInv(s: State, id: JobId, job: Job)
    requires Inv(s) && id !in s.jobs
    ensures Inv(ApplyEnqueue(s, id, job))
  {
    NamingKeepsInv(s, id, job.jobType);
    SaveKeepsInv(s.(jobs := s.jobs[id := job.jobType]), id, job);
  }

  /** Claims and replays change statuses, never types, and neither make rows nor remove them. */
  lemma SweepKeepsInv(s: State, t: Tables)
    requires Inv(s) && t.outbox.Keys == s.t.outbox.Keys && t.receipts == s.t.receipts
    requires forall id :: id in t.outbox ==> t.outbox[id].jobType == s.t.outbox[id].jobType
    ensures Inv(s.(t := t))
  {
  }

  /** Neither the clock nor the endpoints are on the books. */
  lemma TickKeepsInv(s: State, now: Time, endpoints: map<nat, Endpoint>)
    requires Inv(s)
    ensures Inv(s.(now := now, t := s.t.(endpoints := endpoints)))
  {
    var s' := s.(now := now, t := s.t.(endpoints := endpoints));
    assert Typed(s') && Ledger(s') && Snapshots(s');
    RepeatableStays(s, s');
  }

  lemma RelayKeepsInv(o: Options, s: State, e: Event)
    requires Inv(s) && Enabled(o, true, s, e)
    requires e.Read? || e.Publish? || e.WriteBack? || e.CrashRelay?
    ensures Inv(Apply(o, true, s, e))
  {
    match e
    case Read(r, id) => ReadKeepsInv(s, r, id);
    case Publish(r, accepted, errored) =>
      var p := s.relays[r];
      PublishKeepsInv(s, r, accepted, if errored then Caught(p.id, p.job) else HasPublished(p.id, p.job));
    case WriteBack(r, stored, errored) => WriteBackKeepsInv(o, s, r, stored, errored);
    case CrashRelay(r) => HoldersMayLeave(s, s.relays - {r}, s.consumers);
  }

  lemma ConsumerKeepsInv(o: Options, s: State, e: Event)
    requires Inv(s) && Enabled(o, true, s, e)
    requires e.Consume? || e.LookUpPoison? || e.MarkDead? || e.CrashConsumer?
    ensures Inv(Apply(o, true, s, e))
  {
    match e
    case Consume(c, env, w) =>
      ConsumeKeepsTypes(s, c, env, w);
      ConsumeKeepsSnapshots(s, c, env, w);
      ConsumeKeepsLedger(s, c, env, w);
      ConsumeKeepsRepeatable(s, c, env, w);
    case LookUpPoison(c) =>
      var id := s.consumers[c].env.jobId;
      if id in s.t.outbox && !s.t.outbox[id].Settled() {
        LookUpKeepsInv(s, c, id);
      } else {
        HoldersMayLeave(s, s.relays, s.consumers - {c});
      }
    case MarkDead(c, stored) => MarkDeadKeepsInv(s, c, stored);
    case CrashConsumer(c) => HoldersMayLeave(s, s.relays, s.consumers - {c});
  }

  lemma SweepStepKeepsInv(o: Options, s: State, e: Event)
    requires Inv(s) && Enabled(o, true, s, e)
    requires e.Claim? || e.Replay?
    ensures Inv(Apply(o, true, s, e))
  {
    match e
    case Claim(ids) => SweepKeepsInv(s, ClaimRows(s.t, ids, s.now));
    case Replay(ids) => SweepKeepsInv(s, ReplayRows(s.t, ids, s.now));
  }

  lemma QuietStepKeepsInv(o: Options, s: State, e: Event)
    requires Inv(s) && Enabled(o, true, s, e)
    requires e.Tick? || e.ChangeEndpoints?
    ensures Inv(Apply(o, true, s, e))
  {
    match e
    case Tick(now) => TickKeepsInv(s, now, s.t.endpoints);
    case ChangeEndpoints(endpoints) => TickKeepsInv(s, s.now, endpoints);
  }

  lemma EnqueueIsASave(o: Options, s: State, id: JobId, jobType: JobType, payload: Payload, delayMs: nat)
    requires id !in s.jobs
    ensures Apply(o, true, s, Enqueue(id, jobType, payload, delayMs))
      == ApplyEnqueue(s, id, Job.Create(jobType, payload, s.now + delayMs, s.now))
  {
  }

  lemma EnqueueStepKeepsInv(o: Options, s: State, id: JobId, jobType: JobType, payload: Payload, delayMs: nat)
    requires Inv(s) && id !in s.jobs
    ensures Inv(Apply(o, true, s, Enqueue(id, jobType, payload, delayMs)))
  {
    EnqueueIsASave(o, s, id, jobType, payload, delayMs);
    EnqueueKeepsInv(s, id, Job.Create(jobType, payload, s.now + delayMs, s.now));
  }

  lemma CleanupStepKeepsInv(o: Options, s: State, e: Event)
    requires Inv(s) && Enabled(o, true, s, e) && e.Cleanup?
    ensures Inv(Apply(o, true, s, e))
  {
    CleanupKeepsInv(s, e.ids);
    assert Apply(o, true, s, e) == s.(t := DeleteRows(s.t, e.ids));
  }

  lemma StepKeepsInv(o: Options, s: State, e: Event)
    requires Inv(s) && Enabled(o, true, s, e)
    ensures Inv(Apply(o, true, s, e))
  {
    if e.Read? || e.Publish? || e.WriteBack? || e.CrashRelay? {
      RelayKeepsInv(o, s, e);
    } else if e.Consume? || e.LookUpPoison? || e.MarkDead? || e.CrashConsumer? {
      ConsumerKeepsInv(o, s, e);
    } else if e.Enqueue? {
      EnqueueStepKeepsInv(o, s, e.id, e.jobType, e.payload, e.delayMs);
    } else if e.Cleanup? {
      CleanupStepKeepsInv(o, s, e);
    } else if e.Claim? || e.Replay? {
      SweepStepKeepsInv(o, s, e);
    } else {
      QuietStepKeepsInv(o, s, e);
    }
  }

  lemma {:induction false} RunKeepsInv(o: Options, s: State, events: seq<Event>, s': State)
    requires Inv(s) && Runs(o, true, s, events, s')
    ensures Inv(s')
    decreases |events|
  {
    if events == [] {
    } else {
      StepKeepsInv(o, s, events[0]);
      RunKeepsInv(o, Apply(o, true, s, events[0]), events[1..], s');
    }
  }

  /**
   Headline: over every run with guarded cleanups each job has at most one committed delivery, and every send
   the receiver took is that delivery, or was accepted but its transaction did not commit, or was reported as
   an error.
   */
  lemma AtMostOneDelivery(o: Options, events: seq<Event>, s: State, id: JobId)
    requires Runs(o, true, Init(), events, s)
    ensures s.delivered[id] <= 1
    ensures s.sends[id] == s.delivered[id] + s.lost[id] + s.unconfirmed[id]
  {
    RunKeepsInv(o, Init(), events, s);
  }

  const GOOD: World := World(true, Accepts, false, None, true, true)
  const PAYLOAD: Payload := Payload(true, 0)
  const ENVELOPE: Envelope := Envelope(1, TransactionalEmail, PAYLOAD)

  /** Relay 0 has published job 1 and not yet written the row back. */
  function HeldState(): State {
    var job := Job.Create(TransactionalEmail, PAYLOAD, 0, 0).MarkClaimed(0);
    State(0, Tables(map[1 := job], {}, map[]), {ENVELOPE}, map[0 := HasPublished(1, job)], map[],
          map[1 := TransactionalEmail], multiset{}, multiset{}, multiset{}, multiset{})
  }

  lemma PublishedWhileHeld(o: Options, guarded: bool) returns (events: seq<Event>)
    ensures Runs(o, guarded, Init(), events, HeldState())
  {
    var job := Job.Create(TransactionalEmail, PAYLOAD, 0, 0);
    var e0, e1, e2, e3 := Enqueue(1, TransactionalEmail, PAYLOAD, 0), Claim({1}), Read(0, 1), Publish(0, true, false);
    Extend(o, guarded, Init(), [], Init(), e0);
    var s0 := Apply(o, guarded, Init(), e0);
    assert s0.t.outbox == map[1 := job];
    Extend(o, guarded, Init(), [] + [e0], s0, e1);
    var s1 := Apply(o, guarded, s0, e1);
    assert s1.t.outbox == map[1 := job.MarkClaimed(0)];
    Extend(o, guarded, Init(), [] + [e0] + [e1], s1, e2);
    var s2 := Apply(o, guarded, s1, e2);
    Extend(o, guarded, Init(), [] + [e0] + [e1] + [e2], s2, e3);
    var s3 := Apply(o, guarded, s2, e3);
    assert job.MarkClaimed(0).ToEnvelope(1) == ENVELOPE;
    assert s3 == HeldState();
    events := [] + [e0] + [e1] + [e2] + [e3];
  }

  /** A run in which relay 0 still holds its snapshot of job 1 after the job was delivered. */
  lemma DeliveredWhileHeld(o: Options, guarded: bool) returns (events: seq<Event>, s: State)
    ensures Runs(o, guarded, Init(), events, s)
    ensures s.t.outbox.Keys == {1} && s.t.outbox[1].status == Completed && s.t.outbox[1].updatedAt == s.now
    ensures s.t.receipts == {(1, TransactionalEmail)}
    ensures s.sent == {ENVELOPE} && s.consumers == map[] && s.delivered == multiset{1}
    ensures s.relays.Keys == {0} && s.relays[0].HasPublished? && s.relays[0].id == 1
  {
    events := PublishedWhileHeld(o, guarded);
    var e := Consume(0, ENVELOPE, GOOD);
    Extend(o, guarded, Init(), events, HeldState(), e);
    events, s := events + [e], Apply(o, guarded, HeldState(), e);
  }

  /** A stale write-back really does undo a completed status; only the receipt still tells. */
  lemma CompletedIsOverwritten(o: Options) returns (events: seq<Event>, s: State)
    ensures Runs(o, true, Init(), events, s)
    ensures 1 in s.t.outbox && s.t.outbox[1].status == Published
    ensures s.delivered == multiset{1} && (1, TransactionalEmail) in s.t.receipts
    ensures Process(s.t, ENVELOPE, GOOD, s.now).outcome == AlreadyReceipted
  {
    events, s := DeliveredWhileHeld(o, true);
    var e := WriteBack(0, true, false);
    Extend(o, true, Init(), events, s, e);
    events, s := events + [e], Apply(o, true, s, e);
  }

  lemma DeletedWhileHeld(o: Options) returns (events: seq<Event>, s: State)
    ensures Runs(o, false, Init(), events, s)
    ensures s.t.outbox == map[] && s.t.receipts == {}
    ensures s.sent == {ENVELOPE} && s.consumers == map[] && s.delivered == multiset{1}
    ensures s.relays.Keys == {0} && s.relays[0].HasPublished? && s.relays[0].id == 1
  {
    events, s := DeliveredWhileHeld(o, false);
    var e5 := Tick(s.now + o.RetentionHours(Completed) * MS_PER_HOUR + 1);
    Extend(o, false, Init(), events, s, e5);
    events, s := events + [e5], Apply(o, false, s, e5);
    var e6 := Cleanup({1});
    Extend(o, false, Init(), events, s, e6);
    events, s := events + [e6], Apply(o, false, s, e6);
  }

  /** Without the guard a stale save re-inserts a deleted row, and it is delivered again. */
  lemma DeliveredTwice(o: Options) returns (events: seq<Event>, s: State)
    ensures Runs(o, false, Init(), events, s) && s.delivered[1] == 2
  {
    events, s := DeletedWhileHeld(o);
    var e7 := WriteBack(0, true, false);
    Extend(o, false, Init(), events, s, e7);
    events, s := events + [e7], Apply(o, false, s, e7);
    var e8 := Consume(0, ENVELOPE, GOOD);
    Extend(o, false, Init(), events, s, e8);
    events, s := events + [e8], Apply(o, false, s, e8);
  }

  // ----- Which cleanups are safe -----

  /** The job was delivered and its receipt is gone: only its row, if there is one, can stop a second delivery. */
  ghost predicate Forgotten(s: State, id: JobId) {
    s.delivered[id] == 1 && Deliverable(s.sent, id) && forall r :: r in s.t.receipts ==> r.0 != id
  }

  lemma ConsumeAgain(o: Options, s: State, c: nat, env: Envelope) returns (s': State)
    requires Forgotten(s, env.jobId) && env.jobId in s.t.outbox && !s.t.outbox[env.jobId].Settled()
    requires env in s.sent && env.payload.wellFormed && !env.jobType.Unsupported?
    requires c !in s.consumers && env.payload.endpointId in s.t.endpoints
    ensures Runs(o, true, s, [Consume(c, env, GOOD)], s') && s'.delivered[env.jobId] == 2
  {
    var e := Consume(c, env, GOOD);
    s' := Apply(o, true, s, e);
    assert Process(s.t, env, GOOD, s.now).done == Delivered;
    RunsStart(o, true, s, e, [], s');
    assert [e] + [] == [e];
  }

  /** An unsettled row of a forgotten job is all a second delivery takes. */
  lemma Redelivers(o: Options, s: State, id: JobId) returns (events: seq<Event>, s': State)
    requires Forgotten(s, id) && id in s.t.outbox && !s.t.outbox[id].Settled()
    ensures Runs(o, true, s, events, s') && s'.delivered[id] == 2
  {
    var env :| env in s.sent && env.jobId == id && env.payload.wellFormed && !env.jobType.Unsupported?;
    var c := FreshIds.Above(s.consumers.Keys);
    var e := ChangeEndpoints(s.t.endpoints[env.payload.endpointId := Endpoint(None, None, None)]);
    var s1 := Apply(o, true, s, e);
    s' := ConsumeAgain(o, s1, c, env);
    RunsStart(o, true, s, e, [Consume(c, env, GOOD)], s');
    events := [e] + [Consume(c, env, GOOD)];
  }

  lemma RedeliversDead(o: Options, s: State, id: JobId) returns (events: seq<Event>, s': State)
    requires Forgotten(s, id) && id in s.t.outbox && s.t.outbox[id].status == Dead
    ensures Runs(o, true, s, events, s') && s'.delivered[id] == 2
  {
    var e := Replay({id});
    var s1 := Apply(o, true, s, e);
    events, s' := Redelivers(o, s1, id);
    RunsStart(o, true, s, e, events, s');
    events := [e] + events;
  }

  /** A relay past its publish brings the row back as published, pending or dead. */
  lemma RelayRestores(o: Options, s: State, r: nat) returns (events: seq<Event>, s': State)
    requires r in s.relays && !s.relays[r].HasRead? && Forgotten(s, s.relays[r].id)
    ensures Runs(o, true, s, events, s') && s'.delivered[s.relays[r].id] == 2
  {
    var id, e := s.relays[r].id, WriteBack(r, true, false);
    var s1 := Apply(o, true, s, e);
    if s1.t.outbox[id].status == Dead {
      events, s' := RedeliversDead(o, s1, id);
    } else {
      events, s' := Redelivers(o, s1, id);
    }
    RunsStart(o, true, s, e, events, s');
    events := [e] + events;
  }

  lemma ReaderRestores(o: Options, s: State, r: nat) returns (events: seq<Event>, s': State)
    requires r in s.relays && s.relays[r].HasRead? && Forgotten(s, s.relays[r].id)
    ensures Runs(o, true, s, events, s') && s'.delivered[s.relays[r].id] == 2
  {
    var e := Publish(r, true, false);
    var s1 := Apply(o, true, s, e);
    events, s' := RelayRestores(o, s1, r);
    RunsStart(o, true, s, e, events, s');
    events := [e] + events;
  }

  lemma ConsumerRestores(o: Options, s: State, c: nat) returns (events: seq<Event>, s': State)
    requires c in s.consumers && s.consumers[c].Condemning? && Forgotten(s, s.consumers[c].id)
    ensures Runs(o, true, s, events, s') && s'.delivered[s.consumers[c].id] == 2
  {
    var e := MarkDead(c, true);
    var s1 := Apply(o, true, s, e);
    events, s' := RedeliversDead(o, s1, s.consumers[c].id);
    RunsStart(o, true, s, e, events, s');
    events := [e] + events;
  }

  lemma HolderRestores(o: Options, s: State, id: JobId) returns (events: seq<Event>, s': State)
    requires Held(s, id) && Forgotten(s, id)
    ensures Runs(o, true, s, events, s') && s'.delivered[id] == 2
  {
    if r :| r in s.relays && s.relays[r].id == id {
      if s.relays[r].HasRead? {
        events, s' := ReaderRestores(o, s, r);
      } else {
        events, s' := RelayRestores(o, s, r);
      }
    } else {
      var c :| c in s.consumers && s.consumers[c].Condemning? && s.consumers[c].id == id;
      events, s' := ConsumerRestores(o, s, c);
    }
  }

  /** Cleaning up an endangered row leaves its job forgotten and its holder at work. */
  lemma CleanupForgets(o: Options, s: State, ids: set<JobId>, id: JobId)
    requires Inv(s) && Enabled(o, false, s, Cleanup(ids)) && id in ids && Endangered(s, id)
    ensures var s' := Apply(o, false, s, Cleanup(ids)); Forgotten(s', id) && Held(s', id)
  {
    var s' := Apply(o, false, s, Cleanup(ids));
    assert s.delivered[id] == 1;
    assert Deliverable(s.sent, id);
    assert s'.sent == s.sent && s'.relays == s.relays && s'.consumers == s.consumers;
  }

  ghost predicate MayDeliverTwice(o: Options, s: State) {
    exists events, s', id :: Runs(o, true, s, events, s') && TwiceDelivered(s', id)
  }

  ghost predicate TwiceDelivered(s: State, id: JobId) {
    s.delivered[id] > 1
  }

  /**
   From any state reached by guarded cleanups, one more cleanup can lead to a second delivery, all later
   cleanups guarded again, exactly when it deletes a row that has its receipt while a worker holds a snapshot.
   */
  lemma CleanupIsUnsafeIff(o: Options, before: seq<Event>, s: State, ids: set<JobId>)
    requires Runs(o, true, Init(), before, s) && Enabled(o, false, s, Cleanup(ids))
    ensures MayDeliverTwice(o, Apply(o, false, s, Cleanup(ids)))
      <==> exists id :: id in ids && Endangered(s, id)
  {
    var e := Cleanup(ids);
    RunKeepsInv(o, Init(), before, s);
    if id :| id in ids && Endangered(s, id) {
      CleanupForgets(o, s, ids, id);
      var events, s' := HolderRestores(o, Apply(o, false, s, e), id);
      assert TwiceDelivered(s', id);
    } else {
      StepKeepsInv(o, s, e);
      forall events, s', id | Runs(o, true, Apply(o, false, s, e), events, s') ensures !TwiceDelivered(s', id) {
        RunKeepsInv(o, Apply(o, true, s, e), events, s');
      }
    }
  }
}
