/** The queue worker: what becomes of one received message. */
module Consumer {
  import opened Wrappers
  import opened JobOutbox
  import opened OutboxStore
  import opened JobHandlers
  import opened Relay

  /** Parsing and processing; a body that is not an envelope is a poison message of no job. */
  function Receive(t: Tables, body: Option<Envelope>, w: World, now: Time): Handled {
    if body.None? then Handled(t, NonRetryable, NonRetryable, false) else Process(t, body.value, w, now)
  }

  /** Marking the job of a poison message dead, unless it is settled or gone. */
  function Condemn(t: Tables, body: Option<Envelope>, now: Time): Tables {
    if body.None? || body.value.jobId !in t.outbox || t.outbox[body.value.jobId].Settled() then t
    else SaveJob(t, body.value.jobId, t.outbox[body.value.jobId].MarkDead("poison message", now))
  }

  predicate HasOpenJob(t: Tables, body: Option<Envelope>) {
    body.Some? && IsOpen(t, body.value.jobId)
  }

  /**
   The worker's own calls after the handler: does the look-up of a poisoned job answer, does the mark-dead take
   effect and is it reported so, and does the deletion of the message take effect?
   */
  datatype Calls = Calls(found: bool, stored: bool, reported: bool, deleted: bool) {
    predicate Possible() {
      reported ==> stored
    }
  }

  /** The message is poison and its job, if it has an open one, ends up dead. */
  predicate Marks(t: Tables, body: Option<Envelope>, w: World, c: Calls, now: Time) {
    var h := Receive(t, body, w, now);
    h.outcome == NonRetryable && (body.None? || (c.found && (HasOpenJob(h.tables, body) ==> c.stored)))
  }

  /** The message leaves the queue: no retryable failure, and no failed call before its deletion. */
  predicate Removes(t: Tables, body: Option<Envelope>, w: World, c: Calls, now: Time) {
    var h := Receive(t, body, w, now);
    && h.outcome != Retryable && c.deleted
    && (h.outcome == NonRetryable ==> body.None? || (c.found && (HasOpenJob(h.tables, body) ==> c.reported)))
  }

  function RowsAfter(t: Tables, body: Option<Envelope>, w: World, c: Calls, now: Time): Tables {
    var h := Receive(t, body, w, now);
    if Marks(t, body, w, c, now) then Condemn(h.tables, body, now) else h.tables
  }

  function QueueAfter(t: Tables, q: Queue, m: nat, w: World, c: Calls, now: Time): Queue
    requires m in q
  {
    if Removes(t, q[m], w, c, now) then q - {m} else q
  }

  /**
   What a message does to its open job: it ends dead exactly if the message is poison and the worker can say so,
   completed exactly if the message completes it, and untouched otherwise; no other row is touched.
   */
  lemma FateOfTheJob(t: Tables, env: Envelope, w: World, c: Calls, now: Time)
    requires IsOpen(t, env.jobId)
    ensures var t', id := RowsAfter(t, Some(env), w, c, now), env.jobId;
      && t'.outbox.Keys == t.outbox.Keys && (forall i :: i in t.outbox && i != id ==> t'.outbox[i] == t.outbox[i])
      && (t'.outbox[id].status == Dead <==> IsPoison(t, env, w) && c.found && c.stored)
      && (t'.outbox[id].status == Completed <==> Completes(t, env, w))
      && (t'.outbox[id] == t.outbox[id] || t'.outbox[id].Settled())
      && t'.outbox[id].jobType == t.outbox[id].jobType && t'.outbox[id].payload == t.outbox[id].payload
  {
    ProcessEffect(t, env, w, now);
    ProcessEnds(t, env, w, now);
  }

  /** A job that is settled or gone is not touched, whatever the message. */
  lemma SettledJobStays(t: Tables, env: Envelope, w: World, c: Calls, now: Time)
    requires !IsOpen(t, env.jobId)
    ensures RowsAfter(t, Some(env), w, c, now).outbox == t.outbox
  {
    ProcessEffect(t, env, w, now);
  }

  /** Nothing is left to do: the message is poison and marked so, has completed its job, or finds it settled or gone. */
  predicate IsDoneWith(t: Tables, body: Option<Envelope>, w: World, c: Calls) {
    match body
    case None => true
    case Some(env) =>
      if IsPoison(t, env, w) then c.found && (IsOpen(t, env.jobId) ==> c.reported)
      else !IsMalformed(env) && w.commits && w.reported && (Completes(t, env, w) || !IsOpen(t, env.jobId))
  }

  /** A message leaves the queue exactly if nothing is left to do about it and its deletion takes effect. */
  lemma FateOfTheMessage(t: Tables, q: Queue, m: nat, w: World, c: Calls, now: Time)
    requires m in q
    ensures var q' := QueueAfter(t, q, m, w, c, now);
      && (forall k :: k != m ==> (k in q' <==> k in q)) && (forall k :: k in q' ==> q'[k] == q[k])
      && (m !in q' <==> IsDoneWith(t, q[m], w, c) && c.deleted)
  {
    if q[m].Some? {
      ProcessEffect(t, q[m].value, w, now);
      ProcessEnds(t, q[m].value, w, now);
    }
  }

  /** So a message that leaves the queue leaves no open job behind, and any other failure leaves both as they were. */
  lemma NothingIsDroppedOpen(t: Tables, q: Queue, m: nat, w: World, c: Calls, now: Time)
    requires m in q && q[m].Some? && IsOpen(t, q[m].value.jobId) && c.Possible()
    ensures var env := q[m].value; var row := RowsAfter(t, q[m], w, c, now).outbox[env.jobId];
      && (m !in QueueAfter(t, q, m, w, c, now) ==> row.Settled())
      && (!IsPoison(t, env, w) && !Completes(t, env, w) ==>
            row == t.outbox[env.jobId] && QueueAfter(t, q, m, w, c, now) == q)
  {
    FateOfTheJob(t, q[m].value, w, c, now);
    FateOfTheMessage(t, q, m, w, c, now);
  }

  class SqsAsyncJobWorker {
    const db: JobsDatabase
    const queue: SqsQueue
    const processor: AsyncJobProcessor

    constructor (queue: SqsQueue, processor: AsyncJobProcessor)
      ensures this.db == processor.db && this.queue == queue && this.processor == processor
    {
      this.db, this.queue, this.processor := processor.db, queue, processor;
    }

    method ProcessMessage(m: nat, w: World, c: Calls, now: Time)
      requires m in queue.messages && processor.db == db && processor.Wired() && c.Possible()
      modifies db, queue
      ensures db.Contents() == RowsAfter(old(db.Contents()), old(queue.messages[m]), w, c, now)
      ensures queue.messages == QueueAfter(old(db.Contents()), old(queue.messages), m, w, c, now)
    {
      var body := queue.messages[m];
      var outcome := NonRetryable;
      if body.Some? {
        var done, sent;
        outcome, done, sent := processor.ProcessJob(body.value, w, now);
      }
      if outcome == Retryable {
        return;
      }
      if outcome == NonRetryable && body.Some? {
        if !c.found {
          return;
        }
        var id := body.value.jobId;
        var found := db.FindById(id);
        if found.Some? && !found.value.Settled() {
          if c.stored {
            db.Update(id, found.value.MarkDead("poison message", now));
          }
          if !c.reported {
            return;
          }
        }
      }
      if c.deleted {
        queue.DeleteMessage(m);
      }
    }
  }
}
