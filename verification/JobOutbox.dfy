/** A row of the outbox table and its transitions; every transition returns a new row. */
module JobOutbox {
  import opened Wrappers

  type JobId = nat
  type Time = int // milliseconds

  datatype Status = Pending | Claimed | Published | Completed | Dead

  /** The job type names the handler that consumes the job. */
  datatype JobType = TransactionalEmail | WebhookDelivery | Unsupported(name: string)

  /** `wellFormed` stands for the handler's field-by-field payload check. */
  datatype Payload = Payload(wellFormed: bool, endpointId: nat)

  datatype Envelope = Envelope(jobId: JobId, jobType: JobType, payload: Payload)

  /** The primary key is not repeated here: it is the key of the table the row is in. */
  datatype Job = Job(
    jobType: JobType,
    payload: Payload,
    status: Status,
    attemptCount: nat,
    nextAttemptAt: Time,
    publishedAt: Option<Time>,
    lastError: Option<string>,
    createdAt: Time,
    updatedAt: Time)
  {
    static function Create(jobType: JobType, payload: Payload, nextAttemptAt: Time, now: Time): Job {
      Job(jobType, payload, Pending, 0, nextAttemptAt, None, None, now, now)
    }

    function ToEnvelope(id: JobId): Envelope {
      Envelope(id, jobType, payload)
    }

    predicate Settled() {
      status == Completed || status == Dead
    }

    function MarkClaimed(now: Time): Job {
      this.(status := Claimed, updatedAt := now)
    }

    function MarkPublished(now: Time): Job {
      this.(status := Published, publishedAt := Some(now), updatedAt := now)
    }

    function MarkCompleted(now: Time): Job {
      this.(status := Completed, updatedAt := now)
    }

    function ScheduleRetry(error: string, at: Time, now: Time): Job {
      this.(status := Pending, attemptCount := attemptCount + 1, nextAttemptAt := at,
            lastError := Some(error), updatedAt := now)
    }

    function MarkDead(error: string, now: Time): Job {
      this.(status := Dead, attemptCount := attemptCount + 1, lastError := Some(error), updatedAt := now)
    }

    function Replay(now: Time): Job {
      this.(status := Pending, attemptCount := 0, nextAttemptAt := now, publishedAt := None,
            lastError := None, updatedAt := now)
    }
  }
}
