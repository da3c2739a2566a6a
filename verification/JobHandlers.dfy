/**
 Consuming one queue message: the processor and the two handlers. Each handler is a single
 database transaction that holds the job's row lock throughout, so it is one atomic step on
 that job; an endpoint's row is read before the call and saved whole after it, unlocked.
 */
module JobHandlers {
  import opened Wrappers
  import opened JobOutbox
  import opened OutboxStore

  /** What the receiver of the email or webhook answers. */
  datatype Reply = Accepts | Refuses(code: Option<int>) | Rejects(code: Option<int>)

  /**
   The outside world during one handler call: the stored secret; the reply as the client sees it, and whether the
   receiver took the send although that reply is an error; the endpoint rows as other transactions leave them
   while the call is out, if they change any; the commit, and whether it is reported as one.
   */
  datatype World = World(
    secretReadable: bool,
    reply: Reply,
    received: bool,
    meanwhile: Option<map<nat, Endpoint>>,
    commits: bool,
    reported: bool)
  {
    /** The tables once the reply is there. Nothing but the job's own row is locked against others. */
    function Later(t: Tables): Tables {
      if meanwhile.Some? then t.(endpoints := meanwhile.value) else t
    }
  }

  /** How the handler call ended; the last two are the errors it throws. */
  datatype Outcome = Delivered | Skipped | AlreadyReceipted | Retryable | NonRetryable

  /**
   `outcome` is what the caller sees and `done` what the transaction did, `Retryable` if it was undone. `sent`
   says whether the receiver took a send, whatever became of the transaction.
   */
  datatype Handled = Handled(tables: Tables, outcome: Outcome, done: Outcome, sent: bool)

  /** The end of a transaction whose body would leave `after` and end with `outcome`. */
  function Finish(before: Tables, after: Tables, outcome: Outcome, sent: bool, w: World): Handled {
    if w.commits then Handled(after, if w.reported then outcome else Retryable, outcome, sent)
    else Handled(before, Retryable, Retryable, sent)
  }

  /** The whole row as the handler saves it, made from the row it read before the call. */
  function Recorded(read: Endpoint, reply: Reply, now: Time): Endpoint {
    match reply
    case Accepts => read.RecordDeliverySuccess(now)
    case Refuses(code) => read.RecordDeliveryFailure(code, now)
    case Rejects(code) => read.RecordDeliveryFailure(code, now)
  }

  function WithReceipt(t: Tables, id: JobId, job: Job, handler: JobType, now: Time): Tables {
    SaveJob(t.(receipts := t.receipts + {(id, handler)}), id, job.MarkCompleted(now))
  }

  /** The webhook handler: a failed delivery is recorded and committed before the error is thrown. */
  function HandleWebhook(t: Tables, env: Envelope, w: World, now: Time): Handled {
    if env.jobId !in t.outbox || t.outbox[env.jobId].Settled() then
      Finish(t, t, Skipped, false, w)
    else
      var job := t.outbox[env.jobId];
      if (env.jobId, WebhookDelivery) in t.receipts then
        Finish(t, SaveJob(t, env.jobId, job.MarkCompleted(now)), AlreadyReceipted, false, w)
      else if env.payload.endpointId !in t.endpoints then
        Finish(t, t, NonRetryable, false, w)
      else if !w.secretReadable then
        Handled(t, Retryable, Retryable, false)
      else
        var e := env.payload.endpointId;
        var later := w.Later(t);
        var recorded := later.(endpoints := later.endpoints[e := Recorded(t.endpoints[e], w.reply, now)]);
        match w.reply
        case Accepts =>
          Finish(later, WithReceipt(recorded, env.jobId, job, WebhookDelivery, now), Delivered, true, w)
        case Refuses(_) => Finish(later, recorded, Retryable, w.received, w)
        case Rejects(_) => Finish(later, recorded, NonRetryable, w.received, w)
  }

  /** The email handler: any failed send aborts the transaction. */
  function HandleEmail(t: Tables, env: Envelope, w: World, now: Time): Handled {
    if env.jobId !in t.outbox || t.outbox[env.jobId].Settled() then
      Finish(t, t, Skipped, false, w)
    else
      var job := t.outbox[env.jobId];
      if (env.jobId, TransactionalEmail) in t.receipts then
        Finish(t, SaveJob(t, env.jobId, job.MarkCompleted(now)), AlreadyReceipted, false, w)
      else if w.reply != Accepts then
        Handled(t, Retryable, Retryable, w.received)
      else
        Finish(t, WithReceipt(t, env.jobId, job, TransactionalEmail, now), Delivered, true, w)
  }

  /** The processor: an unknown type or a malformed payload is a poison message. */
  function Process(t: Tables, env: Envelope, w: World, now: Time): Handled {
    if env.jobType.Unsupported? || !env.payload.wellFormed then
      Handled(t, NonRetryable, NonRetryable, false)
    else if env.jobType == WebhookDelivery then
      HandleWebhook(t, env, w, now)
    else
      HandleEmail(t, env, w, now)
  }

  /**
   Everything the protocols need to know about one message: it touches no other job and no
   other handler's receipts, a receipt and a completed row appear together exactly when a send
   is committed, and otherwise rows and receipts stay put unless a receipt was already there.
   */
  predicate Keeps(t: Tables, env: Envelope, w: World, now: Time, h: Handled) {
    var id, receipt := env.jobId, (env.jobId, env.jobType);
    && (h.done == Delivered ==>
        && h.sent && env.payload.wellFormed
        && id in t.outbox && !t.outbox[id].Settled() && receipt !in t.receipts
        && h.tables.receipts == t.receipts + {receipt}
        && h.tables.outbox == t.outbox[id := t.outbox[id].MarkCompleted(now)])
    && (h.done == AlreadyReceipted ==>
        && !h.sent
        && id in t.outbox && !t.outbox[id].Settled() && receipt in t.receipts
        && h.tables == SaveJob(t, id, t.outbox[id].MarkCompleted(now)))
    && (h.done == Skipped ==>
        h.tables == t && !h.sent && (id !in t.outbox || t.outbox[id].Settled()))
    && (h.done.Retryable? || h.done.NonRetryable? ==>
        h.tables.outbox == t.outbox && h.tables.receipts == t.receipts)
    && (h.done == Delivered <==> h.sent && w.reply.Accepts? && w.commits)
    && (h.outcome == h.done || (h.outcome == Retryable && !w.reported))
    && (env.jobType.Unsupported? ==> h.outcome == h.done == NonRetryable)
  }

  lemma WebhookEffect(t: Tables, env: Envelope, w: World, now: Time)
    requires env.jobType == WebhookDelivery && env.payload.wellFormed
    ensures Keeps(t, env, w, now, HandleWebhook(t, env, w, now))
  {
  }

  lemma EmailEffect(t: Tables, env: Envelope, w: World, now: Time)
    requires env.jobType == TransactionalEmail && env.payload.wellFormed
    ensures Keeps(t, env, w, now, HandleEmail(t, env, w, now))
  {
  }

  lemma ProcessEffect(t: Tables, env: Envelope, w: World, now: Time)
    ensures Keeps(t, env, w, now, Process(t, env, w, now))
  {
    if env.jobType.Unsupported? || !env.payload.wellFormed {
    } else if env.jobType == WebhookDelivery {
      WebhookEffect(t, env, w, now);
    } else {
      EmailEffect(t, env, w, now);
    }
  }

  // ----- How a message ends -----

  predicate IsOpen(t: Tables, id: JobId) {
    id in t.outbox && !t.outbox[id].Settled()
  }

  /** No handler can make anything of it. */
  predicate IsMalformed(env: Envelope) {
    env.jobType.Unsupported? || !env.payload.wellFormed
  }

  /** The job is open and was not delivered before. */
  predicate IsDue(t: Tables, env: Envelope) {
    !IsMalformed(env) && IsOpen(t, env.jobId) && (env.jobId, env.jobType) !in t.receipts
  }

  /** The handler gets as far as sending. */
  predicate Sends(t: Tables, env: Envelope, w: World) {
    && IsDue(t, env)
    && (env.jobType == WebhookDelivery ==> env.payload.endpointId in t.endpoints && w.secretReadable)
  }

  /**
   No later attempt will help: the message is malformed, or its endpoint is gone or rejects the event for good, and
   the transaction that found so was committed.
   */
  predicate IsPoison(t: Tables, env: Envelope, w: World) {
    || IsMalformed(env)
    || (&& IsDue(t, env) && env.jobType == WebhookDelivery && w.commits && w.reported
        && (env.payload.endpointId !in t.endpoints || (w.secretReadable && w.reply.Rejects?)))
  }

  /** The job is completed: it was delivered before, or is now, and that is committed. */
  predicate Completes(t: Tables, env: Envelope, w: World) {
    && !IsMalformed(env) && IsOpen(t, env.jobId) && w.commits
    && ((env.jobId, env.jobType) in t.receipts || (Sends(t, env, w) && w.reply.Accepts?))
  }

  lemma WebhookEnds(t: Tables, env: Envelope, w: World, now: Time)
    requires env.jobType == WebhookDelivery && env.payload.wellFormed
    ensures var h := HandleWebhook(t, env, w, now);
      && (h.outcome == NonRetryable <==> IsPoison(t, env, w))
      && (h.done == Delivered || h.done == AlreadyReceipted <==> Completes(t, env, w))
      && (h.sent <==> Sends(t, env, w) && (w.reply.Accepts? || w.received))
      && (h.outcome != Retryable && h.outcome != NonRetryable <==>
            w.commits && w.reported && (Completes(t, env, w) || !IsOpen(t, env.jobId)))
  {
  }

  lemma EmailEnds(t: Tables, env: Envelope, w: World, now: Time)
    requires env.jobType == TransactionalEmail && env.payload.wellFormed
    ensures var h := HandleEmail(t, env, w, now);
      && (h.outcome == NonRetryable <==> IsPoison(t, env, w))
      && (h.done == Delivered || h.done == AlreadyReceipted <==> Completes(t, env, w))
      && (h.sent <==> Sends(t, env, w) && (w.reply.Accepts? || w.received))
      && (h.outcome != Retryable && h.outcome != NonRetryable <==>
            w.commits && w.reported && (Completes(t, env, w) || !IsOpen(t, env.jobId)))
  {
  }

  /** Which calls end for good and which are to be repeated: every failure that is not poison is retryable. */
  lemma ProcessEnds(t: Tables, env: Envelope, w: World, now: Time)
    ensures var h := Process(t, env, w, now);
      && (h.outcome == NonRetryable <==> IsPoison(t, env, w))
      && (h.done == Delivered || h.done == AlreadyReceipted <==> Completes(t, env, w))
      && (h.sent <==> Sends(t, env, w) && (w.reply.Accepts? || w.received))
      && (h.outcome != Retryable && h.outcome != NonRetryable <==>
            && !IsMalformed(env) && w.commits && w.reported
            && (Completes(t, env, w) || !IsOpen(t, env.jobId)))
  {
    if IsMalformed(env) {
    } else if env.jobType == WebhookDelivery {
      WebhookEnds(t, env, w, now);
    } else {
      EmailEnds(t, env, w, now);
    }
  }

  class WebhookDeliveryJobHandler {
    const db: JobsDatabase

    constructor (db: JobsDatabase)
      ensures this.db == db
    {
      this.db := db;
    }

    /** `done` is what a commit would make of the call; the caller sees only `outcome`. */
    method Handle(env: Envelope, w: World, now: Time) returns (outcome: Outcome, done: Outcome, sent: bool)
      modifies db
      ensures HandleWebhook(old(db.Contents()), env, w, now) == Handled(db.Contents(), outcome, done, sent)
    {
      var image := db.Contents();
      done, sent := Skipped, false;
      var found := db.FindById(env.jobId);
      if found.Some? && !found.value.Settled() {
        var job := found.value;
        var receipted := db.FindReceipt(env.jobId, WebhookDelivery);
        if receipted {
          db.Update(env.jobId, job.MarkCompleted(now));
          done := AlreadyReceipted;
        } else if env.payload.endpointId !in db.endpoints {
          done := NonRetryable;
        } else if !w.secretReadable {
          db.Rollback(image);
          return Retryable, Retryable, false;
        } else {
          var e := env.payload.endpointId;
          var endpoint := db.endpoints[e];
          image := w.Later(image);
          db.OthersSave(w.meanwhile);
          match w.reply {
            case Accepts =>
              sent := true;
              db.UpdateEndpoint(e, endpoint.RecordDeliverySuccess(now));
              db.CreateReceipt(env.jobId, WebhookDelivery);
              db.Update(env.jobId, job.MarkCompleted(now));
              done := Delivered;
            case Refuses(code) =>
              sent := w.received;
              db.UpdateEndpoint(e, endpoint.RecordDeliveryFailure(code, now));
              done := Retryable;
            case Rejects(code) =>
              sent := w.received;
              db.UpdateEndpoint(e, endpoint.RecordDeliveryFailure(code, now));
              done := NonRetryable;
          }
        }
      }
      outcome := if w.commits && w.reported then done else Retryable;
      if !w.commits {
        db.Rollback(image);
        done := Retryable;
      }
    }
  }

  class TransactionalEmailJobHandler {
    const db: JobsDatabase

    constructor (db: JobsDatabase)
      ensures this.db == db
    {
      this.db := db;
    }

    method Handle(env: Envelope, w: World, now: Time) returns (outcome: Outcome, done: Outcome, sent: bool)
      modifies db
      ensures HandleEmail(old(db.Contents()), env, w, now) == Handled(db.Contents(), outcome, done, sent)
    {
      var image := db.Contents();
      done, sent := Skipped, false;
      var found := db.FindById(env.jobId);
      if found.Some? && !found.value.Settled() {
        var job := found.value;
        var receipted := db.FindReceipt(env.jobId, TransactionalEmail);
        if receipted {
          db.Update(env.jobId, job.MarkCompleted(now));
          done := AlreadyReceipted;
        } else if w.reply != Accepts {
          db.Rollback(image);
          return Retryable, Retryable, w.received;
        } else {
          sent := true;
          db.CreateReceipt(env.jobId, TransactionalEmail);
          db.Update(env.jobId, job.MarkCompleted(now));
          done := Delivered;
        }
      }
      outcome := if w.commits && w.reported then done else Retryable;
      if !w.commits {
        db.Rollback(image);
        done := Retryable;
      }
    }
  }

  class AsyncJobProcessor {
    const db: JobsDatabase
    const webhooks: WebhookDeliveryJobHandler
    const emails: TransactionalEmailJobHandler

    constructor (db: JobsDatabase)
      ensures this.db == db && Wired()
    {
      this.db := db;
      webhooks := new WebhookDeliveryJobHandler(db);
      emails := new TransactionalEmailJobHandler(db);
    }

    predicate Wired() {
      webhooks.db == db && emails.db == db
    }

    method ProcessJob(env: Envelope, w: World, now: Time) returns (outcome: Outcome, done: Outcome, sent: bool)
      requires Wired()
      modifies db
      ensures Process(old(db.Contents()), env, w, now) == Handled(db.Contents(), outcome, done, sent)
    {
      if env.jobType.Unsupported? || !env.payload.wellFormed {
        return NonRetryable, NonRetryable, false;
      }
      if env.jobType == WebhookDelivery {
        outcome, done, sent := webhooks.Handle(env, w, now);
      } else {
        outcome, done, sent := emails.Handle(env, w, now);
      }
    }
  }
}
