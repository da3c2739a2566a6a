/** The outbox relay: claiming a batch of rows and publishing each claimed row to the queue. */
module Relay {
  import opened Wrappers
  import opened JobOutbox
  import opened OutboxStore
  import opened JobsOptions
  import RetryPolicy

  /** Message bodies by message id; `None` is a body that is not a job envelope. */
  type Queue = map<nat, Option<Envelope>>

  /**
   The outside world during one dispatch: did the queue accept the message, did the publish
   report an error, and did the write that follows, and the one in the error handler, get stored?
   */
  datatype Attempt = Attempt(accepted: bool, errored: bool, firstStored: bool, secondStored: bool) {
    predicate Possible() {
      accepted || errored
    }

    predicate Succeeds() {
      !errored && firstStored
    }

    /** Neither write was stored: the error handler's own error leaves the dispatch. */
    predicate Throws() {
      !Succeeds() && !secondStored
    }
  }

  /** The row the relay writes when its publish, or its first write, has failed. */
  function AfterFailure(o: Options, job: Job, now: Time): Job {
    var next := job.attemptCount + 1;
    if RetryPolicy.ShouldMarkDead(o.retry, next) then job.MarkDead("publish failed", now)
    else job.ScheduleRetry("publish failed", RetryPolicy.NextAttemptAt(o.retry, next, now), now)
  }

  predicate IsClaimed(t: Tables, id: JobId) {
    id in t.outbox && t.outbox[id].status == Claimed
  }

  function DispatchRow(o: Options, t: Tables, id: JobId, a: Attempt, now: Time): Tables {
    if !IsClaimed(t, id) then t
    else if a.Succeeds() then SaveJob(t, id, t.outbox[id].MarkPublished(now))
    else if a.secondStored then SaveJob(t, id, AfterFailure(o, t.outbox[id], now))
    else t
  }

  function DispatchMessage(t: Tables, q: Queue, id: JobId, m: nat, a: Attempt): Queue {
    if !IsClaimed(t, id) || !a.accepted then q
    else q[m := Some(t.outbox[id].ToEnvelope(id))]
  }

  class SqsQueue {
    var messages: Queue
    var nextId: nat

    ghost predicate Valid()
      reads this
    {
      forall m :: m in messages ==> m < nextId
    }

    /** The queue names the message; no message id is ever used twice. */
    method Send(env: Envelope) returns (m: nat)
      requires Valid()
      modifies this
      ensures Valid() && m !in old(messages) && messages == old(messages)[m := Some(env)]
    {
      m := nextId;
      messages, nextId := messages[m := Some(env)], nextId + 1;
    }

    method DeleteMessage(m: nat)
      modifies this`messages
      ensures messages == old(messages) - {m}
    {
      messages := messages - {m};
    }
  }

  class OutboxRelayService {
    const db: JobsDatabase
    const queue: SqsQueue
    const o: Options

    constructor (db: JobsDatabase, queue: SqsQueue, o: Options)
      ensures this.db == db && this.queue == queue && this.o == o
    {
      this.db, this.queue, this.o := db, queue, o;
    }

    /**
     `m` is a fresh message id, used if the queue accepts; `threw` says that the error handler's own write failed,
     which stops the worker.
     */
    method DispatchClaimedJob(id: JobId, a: Attempt, now: Time) returns (m: nat, threw: bool)
      requires a.Possible() && queue.Valid()
      modifies db`outbox, queue
      ensures queue.Valid() && m !in old(queue.messages)
      ensures db.Contents() == DispatchRow(o, old(db.Contents()), id, a, now)
      ensures queue.messages == DispatchMessage(old(db.Contents()), old(queue.messages), id, m, a)
      ensures threw <==> IsClaimed(old(db.Contents()), id) && a.Throws()
    {
      m, threw := queue.nextId, false;
      var found := db.FindById(id);
      if found.None? || found.value.status != Claimed {
        return;
      }
      var job := found.value;
      if a.accepted {
        m := queue.Send(job.ToEnvelope(id));
      }
      if a.Succeeds() {
        db.Update(id, job.MarkPublished(now));
        return;
      }
      var nextAttemptCount := job.attemptCount + 1;
      if !a.secondStored {
        threw := true;
      } else if RetryPolicy.ShouldMarkDead(o.retry, nextAttemptCount) {
        db.Update(id, job.MarkDead("publish failed", now));
      } else {
        var at := RetryPolicy.NextAttemptAt(o.retry, nextAttemptCount, now);
        db.Update(id, job.ScheduleRetry("publish failed", at, now));
      }
    }
  }
}
