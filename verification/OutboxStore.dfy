/**
 The tables of the jobs module: SQL statements as functions on table values, and the
 repositories as a class whose methods are proved to execute exactly those statements.
 */
module OutboxStore {
  import opened Wrappers
  import opened JobOutbox
  import Ranking

  datatype Endpoint = Endpoint(
    lastDeliveryAt: Option<Time>,
    lastFailureAt: Option<Time>,
    lastFailureStatusCode: Option<int>)
  {
    function RecordDeliverySuccess(now: Time): Endpoint {
      Endpoint(Some(now), None, None)
    }

    function RecordDeliveryFailure(code: Option<int>, now: Time): Endpoint {
      Endpoint(lastDeliveryAt, Some(now), code)
    }
  }

  /** A receipt is a (job, handler) pair; the handler is named by the job type it consumes. */
  datatype Tables = Tables(
    outbox: map<JobId, Job>,
    receipts: set<(JobId, JobType)>,
    endpoints: map<nat, Endpoint>)

  predicate Claimable(job: Job, now: Time, claimTimeout: nat) {
    || (job.status == Pending && job.nextAttemptAt <= now)
    || (job.status == Claimed && job.updatedAt < now - claimTimeout)
  }

  /** The rows a claim may pick, keyed by age; rows locked by other transactions are skipped. */
  function ClaimPool(t: Tables, now: Time, claimTimeout: nat, locked: set<JobId>): map<JobId, Time> {
    map id | id in t.outbox && id !in locked && Claimable(t.outbox[id], now, claimTimeout)
      :: t.outbox[id].createdAt
  }

  function ClaimRows(t: Tables, chosen: set<JobId>, now: Time): Tables {
    t.(outbox := map id | id in t.outbox
          :: if id in chosen then t.outbox[id].MarkClaimed(now) else t.outbox[id])
  }

  function DeadPool(t: Tables): map<JobId, Time> {
    map id | id in t.outbox && t.outbox[id].status == Dead :: t.outbox[id].updatedAt
  }

  function DeadAmong(t: Tables, ids: set<JobId>): set<JobId> {
    set id | id in ids && id in t.outbox && t.outbox[id].status == Dead
  }

  function ReplayRows(t: Tables, chosen: set<JobId>, now: Time): Tables {
    t.(outbox := map id | id in t.outbox
          :: if id in chosen then t.outbox[id].Replay(now) else t.outbox[id])
  }

  function AgedPool(t: Tables, status: Status, olderThan: Time): map<JobId, Time> {
    map id | id in t.outbox && t.outbox[id].status == status && t.outbox[id].updatedAt < olderThan
      :: t.outbox[id].updatedAt
  }

  /** Deleting a row cascades to its receipts. */
  function DeleteRows(t: Tables, victims: set<JobId>): Tables {
    t.(outbox := map id | id in t.outbox && id !in victims :: t.outbox[id],
       receipts := set r | r in t.receipts && r.0 !in victims)
  }

  /** `save` writes every column of the row it is given, and inserts the row when it is gone. */
  function SaveJob(t: Tables, id: JobId, job: Job): Tables {
    t.(outbox := t.outbox[id := job])
  }

  class JobsDatabase {
    var outbox: map<JobId, Job>
    var receipts: set<(JobId, JobType)>
    var endpoints: map<nat, Endpoint>

    function Contents(): Tables
      reads this
    {
      Tables(outbox, receipts, endpoints)
    }

    method FindById(id: JobId) returns (job: Option<Job>)
      ensures job == if id in outbox then Some(outbox[id]) else None
    {
      job := if id in outbox then Some(outbox[id]) else None;
    }

    method Update(id: JobId, job: Job)
      modifies this`outbox
      ensures Contents() == SaveJob(old(Contents()), id, job)
    {
      outbox := outbox[id := job];
    }

    /** Takes rows that are due, or claimed too long ago, and are not locked: as many as it may, the oldest first. */
    method ClaimPendingBatch(limit: nat, now: Time, claimTimeout: nat, locked: set<JobId>)
      returns (chosen: set<JobId>)
      modifies this`outbox
      ensures Ranking.IsFirst(chosen, ClaimPool(old(Contents()), now, claimTimeout, locked), limit)
      ensures Contents() == ClaimRows(old(Contents()), chosen, now)
      ensures |chosen| <= limit
      ensures forall id :: id in chosen ==>
        && id in old(outbox) && id !in locked
        && match old(outbox)[id].status
           case Pending => old(outbox)[id].nextAttemptAt <= now
           case Claimed => old(outbox)[id].updatedAt + claimTimeout < now
           case _ => false
      ensures forall id :: id in old(outbox) && id !in locked && Claimable(old(outbox)[id], now, claimTimeout) ==>
        id in chosen || (|chosen| == limit &&
          forall taken :: taken in chosen ==> old(outbox)[taken].createdAt <= old(outbox)[id].createdAt)
    {
      ghost var pool := ClaimPool(Contents(), now, claimTimeout, locked);
      chosen := Ranking.TakeFirst(ClaimPool(Contents(), now, claimTimeout, locked), limit);
      forall id | id in pool
        ensures id in chosen || (|chosen| == limit && forall taken :: taken in chosen ==> pool[taken] <= pool[id])
      {
        Ranking.LeftOutForEarlier(chosen, pool, limit, id);
      }
      outbox := ClaimRows(Contents(), chosen, now).outbox;
    }

    method ReplayDeadBatch(limit: nat, now: Time) returns (chosen: set<JobId>)
      modifies this`outbox
      ensures Ranking.IsFirst(chosen, DeadPool(old(Contents())), limit)
      ensures Contents() == ReplayRows(old(Contents()), chosen, now)
      ensures |chosen| <= limit
      ensures forall id :: id in chosen ==> id in old(outbox) && old(outbox)[id].status == Dead
      ensures forall id :: id in old(outbox) && old(outbox)[id].status == Dead ==>
        id in chosen || (|chosen| == limit &&
          forall taken :: taken in chosen ==> old(outbox)[taken].updatedAt <= old(outbox)[id].updatedAt)
    {
      ghost var pool := DeadPool(Contents());
      chosen := Ranking.TakeFirst(DeadPool(Contents()), limit);
      forall id | id in pool
        ensures id in chosen || (|chosen| == limit && forall taken :: taken in chosen ==> pool[taken] <= pool[id])
      {
        Ranking.LeftOutForEarlier(chosen, pool, limit, id);
      }
      outbox := ReplayRows(Contents(), chosen, now).outbox;
    }

    method ReplayDeadByIds(ids: set<JobId>, now: Time) returns (chosen: set<JobId>)
      modifies this`outbox
      ensures chosen == DeadAmong(old(Contents()), ids)
      ensures Contents() == ReplayRows(old(Contents()), chosen, now)
    {
      chosen := DeadAmong(Contents(), ids);
      outbox := ReplayRows(Contents(), chosen, now).outbox;
    }

    method DeleteByStatusOlderThan(status: Status, olderThan: Time, limit: nat) returns (victims: set<JobId>)
      modifies this`outbox, this`receipts
      ensures Ranking.IsFirst(victims, AgedPool(old(Contents()), status, olderThan), limit)
      ensures Contents() == DeleteRows(old(Contents()), victims)
      ensures |victims| <= limit
      ensures forall id :: id in victims ==>
        id in old(outbox) && old(outbox)[id].status == status && old(outbox)[id].updatedAt < olderThan
      ensures forall id ::
        id in old(outbox) && old(outbox)[id].status == status && old(outbox)[id].updatedAt < olderThan ==>
          id in victims || (|victims| == limit &&
            forall gone :: gone in victims ==> old(outbox)[gone].updatedAt <= old(outbox)[id].updatedAt)
    {
      ghost var pool := AgedPool(Contents(), status, olderThan);
      victims := Ranking.TakeFirst(AgedPool(Contents(), status, olderThan), limit);
      forall id | id in pool
        ensures id in victims || (|victims| == limit && forall gone :: gone in victims ==> pool[gone] <= pool[id])
      {
        Ranking.LeftOutForEarlier(victims, pool, limit, id);
      }
      var after := DeleteRows(Contents(), victims);
      outbox, receipts := after.outbox, after.receipts;
    }

    method FindReceipt(id: JobId, handler: JobType) returns (found: bool)
      ensures found <==> (id, handler) in receipts
    {
      found := (id, handler) in receipts;
    }

    method CreateReceipt(id: JobId, handler: JobType)
      modifies this`receipts
      ensures receipts == old(receipts) + {(id, handler)}
    {
      receipts := receipts + {(id, handler)};
    }

    method UpdateEndpoint(id: nat, endpoint: Endpoint)
      modifies this`endpoints
      ensures endpoints == old(endpoints)[id := endpoint]
    {
      endpoints := endpoints[id := endpoint];
    }

    /** What other transactions have committed of the endpoints since they were last read. */
    method OthersSave(endpoints: Option<map<nat, Endpoint>>)
      modifies this`endpoints
      ensures this.endpoints == if endpoints.Some? then endpoints.value else old(this.endpoints)
    {
      if endpoints.Some? {
        this.endpoints := endpoints.value;
      }
    }

    /** What an aborted transaction does: every table is as it was at its start. */
    method Rollback(image: Tables)
      modifies this
      ensures Contents() == image
    {
      outbox, receipts, endpoints := image.outbox, image.receipts, image.endpoints;
    }
  }
}
