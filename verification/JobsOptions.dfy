/** The runtime options of the jobs module. */
module JobsOptions {
  import opened JobOutbox
  import RetryPolicy

  const MS_PER_HOUR := 60 * 60 * 1000

  datatype Options = Options(
    retry: RetryPolicy.Options,
    claimTimeoutMs: nat,
    batchSize: nat,
    cleanupBatchSize: nat,
    retentionPublishedHours: nat,
    retentionCompletedHours: nat,
    retentionDeadHours: nat)
  {
    /** What start-up validation enforces. */
    predicate Valid() {
      && retry.Valid()
      && 0 < claimTimeoutMs && 0 < batchSize && 0 < cleanupBatchSize
      && 0 < retentionPublishedHours <= retentionCompletedHours
      && 0 < retentionDeadHours
    }

    function RetentionHours(status: Status): nat {
      if status == Published then retentionPublishedHours
      else if status == Completed then retentionCompletedHours
      else retentionDeadHours
    }

    function ResolveCutoff(status: Status, now: Time): Time {
      now - RetentionHours(status) * MS_PER_HOUR
    }
  }

  /** The statuses that cleanup visits. */
  predicate IsCleaned(status: Status) {
    status == Published || status == Completed || status == Dead
  }
}
