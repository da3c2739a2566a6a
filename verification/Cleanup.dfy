/** Retention cleanup: deleting aged rows, previewing the deletion, and the worker that repeats it. */
module Cleanup {
  import opened JobOutbox
  import opened OutboxStore
  import opened JobsOptions
  import Ranking
  import Sorting

  function Min(a: nat, b: nat): nat {
    Ranking.Min(a, b)
  }

  ghost predicate IsAged(o: Options, job: Job, now: Time) {
    IsCleaned(job.status) && job.updatedAt < o.ResolveCutoff(job.status, now)
  }

  /** The row is in a final status and unchanged for longer than that status's retention period. */
  predicate IsPastRetention(o: Options, job: Job, now: Time) {
    match job.status
    case Published => now - job.updatedAt > o.retentionPublishedHours * 3600000
    case Completed => now - job.updatedAt > o.retentionCompletedHours * 3600000
    case Dead => now - job.updatedAt > o.retentionDeadHours * 3600000
    case _ => false
  }

  lemma AgedIffPastRetention(o: Options, job: Job, now: Time)
    ensures IsAged(o, job, now) <==> IsPastRetention(o, job, now)
  {
  }

  function Aged(o: Options, t: Tables, status: Status, now: Time): map<JobId, Time> {
    AgedPool(t, status, o.ResolveCutoff(status, now))
  }

  function AgedCount(o: Options, t: Tables, status: Status, now: Time): nat {
    |Aged(o, t, status, now)|
  }

  lemma RemovedCount(pool: map<nat, int>, pool': map<nat, int>, victims: set<nat>)
    requires victims <= pool.Keys && pool'.Keys == pool.Keys - victims
    ensures |pool'| == |pool| - |victims|
  {
    assert pool.Keys == pool'.Keys + victims;
    assert |pool| == |pool.Keys| && |pool'| == |pool'.Keys|;
  }

  lemma DeletionSparesOtherPool(o: Options, t: Tables, status: Status, victims: set<JobId>, now: Time, other: Status)
    requires victims <= Aged(o, t, status, now).Keys && other != status
    ensures Aged(o, DeleteRows(t, victims), other, now) == Aged(o, t, other, now)
  {
  }

  /** Deleting rows of one status leaves the other pools alone and takes its own down by the batch. */
  lemma DeletionShrinksOnePool(o: Options, t: Tables, status: Status, victims: set<JobId>, now: Time, limit: nat)
    requires Ranking.IsFirst(victims, Aged(o, t, status, now), limit)
    ensures var t' := DeleteRows(t, victims);
      && AgedCount(o, t', status, now) == AgedCount(o, t, status, now) - Min(limit, AgedCount(o, t, status, now))
      && (forall other: Status :: other != status ==> AgedCount(o, t', other, now) == AgedCount(o, t, other, now))
  {
    var t' := DeleteRows(t, victims);
    assert Aged(o, t', status, now).Keys == Aged(o, t, status, now).Keys - victims;
    RemovedCount(Aged(o, t, status, now), Aged(o, t', status, now), victims);
    forall other: Status | other != status
      ensures AgedCount(o, t', other, now) == AgedCount(o, t, other, now)
    {
      DeletionSparesOtherPool(o, t, status, victims, now, other);
    }
  }

  // ----- The preview -----

  /** Rows with their update times, as a finder returns them. */
  type Listing = seq<(JobId, Time)>

  const OLDER: ((JobId, Time), (JobId, Time)) -> bool := (a: (JobId, Time), b: (JobId, Time)) => a.1 <= b.1

  function Before(rows: Listing, cutoff: Time): (r: Listing)
    ensures forall x :: x in r <==> x in rows && x.1 < cutoff
  {
    if rows == [] then []
    else if rows[0].1 < cutoff then [rows[0]] + Before(rows[1..], cutoff)
    else Before(rows[1..], cutoff)
  }

  lemma {:induction false} BeforeIsDistinct(rows: Listing, cutoff: Time)
    requires Sorting.Distinct(rows)
    ensures Sorting.Distinct(Before(rows, cutoff))
  {
    if rows == [] {
    } else {
      BeforeIsDistinct(rows[1..], cutoff);
    }
  }

  function Take(rows: Listing, limit: nat): Listing {
    if |rows| <= limit then rows else rows[..limit]
  }

  /** Filter by age, sort by age, keep the first batch. */
  function Preview(o: Options, rows: Listing, status: Status, now: Time): Listing {
    Take(Sorting.SortBy(Before(rows, o.ResolveCutoff(status, now)), OLDER), o.cleanupBatchSize)
  }

  function Ids(rows: Listing): set<JobId> {
    set x | x in rows :: x.0
  }

  /** The finder lists every row of the status once, in some order. */
  ghost predicate Lists(rows: Listing, t: Tables, status: Status) {
    && Sorting.Distinct(rows)
    && forall x :: x in rows <==> x.0 in t.outbox && t.outbox[x.0].status == status && x.1 == t.outbox[x.0].updatedAt
  }

  lemma {:induction false} IdsCount(rows: Listing, pool: map<JobId, Time>)
    requires Sorting.Distinct(rows) && forall x :: x in rows ==> x.0 in pool && x.1 == pool[x.0]
    ensures |Ids(rows)| == |rows|
  {
    if rows == [] {
    } else {
      var rest := rows[1..];
      IdsCount(rest, pool);
      assert Ids(rows) == {rows[0].0} + Ids(rest);
      forall x | x in rest
        ensures x.0 != rows[0].0
      {
        assert x != rows[0];
      }
    }
  }

  lemma PreviewCoversPool(o: Options, rows: Listing, t: Tables, status: Status, now: Time)
    requires Lists(rows, t, status)
    ensures var pool := Aged(o, t, status, now);
      var sorted := Sorting.SortBy(Before(rows, o.ResolveCutoff(status, now)), OLDER);
      && Sorting.Distinct(sorted) && Sorting.Sorted(sorted, OLDER)
      && Ids(sorted) == pool.Keys && |sorted| == |pool|
      && forall x :: x in sorted ==> x.0 in pool && x.1 == pool[x.0]
  {
    var pool, aged := Aged(o, t, status, now), Before(rows, o.ResolveCutoff(status, now));
    var sorted := Sorting.SortBy(aged, OLDER);
    BeforeIsDistinct(rows, o.ResolveCutoff(status, now));
    Sorting.SortBySorts(aged, OLDER);
    Sorting.DistinctSorted(aged, OLDER);
    Sorting.SameElements(aged, sorted);
    IdsCount(sorted, pool);
    forall id | id in pool
      ensures id in Ids(sorted)
    {
      assert (id, pool[id]) in rows;
      assert (id, pool[id]) in sorted;
    }
    assert Ids(sorted) == pool.Keys;
  }

  lemma PrefixPrecedes(sorted: Listing, limit: nat, x: (JobId, Time), y: (JobId, Time))
    requires Sorting.Sorted(sorted, OLDER) && x in Take(sorted, limit) && y in sorted && y !in Take(sorted, limit)
    ensures x.1 <= y.1
  {
    var i :| 0 <= i < |Take(sorted, limit)| && Take(sorted, limit)[i] == x;
    var j :| 0 <= j < |sorted| && sorted[j] == y;
    assert sorted[i] == x && i < j;
    assert OLDER(sorted[i], sorted[j]);
  }

  /** The first rows of a sorted listing of the pool are a selection from it. */
  lemma PrefixIsFirst(sorted: Listing, pool: map<JobId, Time>, limit: nat)
    requires Sorting.Distinct(sorted) && Sorting.Sorted(sorted, OLDER)
    requires Ids(sorted) == pool.Keys && |sorted| == |pool|
    requires forall x :: x in sorted ==> x.0 in pool && x.1 == pool[x.0]
    ensures Ranking.IsFirst(Ids(Take(sorted, limit)), pool, limit)
    ensures |Ids(Take(sorted, limit))| == |Take(sorted, limit)|
  {
    var listed := Take(sorted, limit);
    assert forall x :: x in listed ==> x in sorted;
    IdsCount(listed, pool);
    forall a, b | a in Ids(listed) && b in pool.Keys - Ids(listed)
      ensures pool[a] <= pool[b]
    {
      var x :| x in listed && x.0 == a;
      var y :| y in sorted && y.0 == b;
      PrefixPrecedes(sorted, limit, x, y);
    }
  }

  /**
   On the same rows at the same time the preview announces as many rows as the deletion takes,
   and the very same rows when no two of them were updated at the same moment.
   */
  lemma PreviewAgreesWithCleanup(o: Options, rows: Listing, t: Tables, status: Status, now: Time, victims: set<JobId>)
    requires Lists(rows, t, status)
    requires Ranking.IsFirst(victims, Aged(o, t, status, now), o.cleanupBatchSize)
    ensures var listed := Preview(o, rows, status, now);
      && |listed| == |victims|
      && (Ranking.DistinctKeys(Aged(o, t, status, now)) ==> Ids(listed) == victims)
  {
    PreviewCoversPool(o, rows, t, status, now);
    var sorted := Sorting.SortBy(Before(rows, o.ResolveCutoff(status, now)), OLDER);
    PrefixIsFirst(sorted, Aged(o, t, status, now), o.cleanupBatchSize);
    var listed := Ids(Preview(o, rows, status, now));
    if Ranking.DistinctKeys(Aged(o, t, status, now)) {
      Ranking.FirstIsUnique(listed, victims, Aged(o, t, status, now), o.cleanupBatchSize);
    }
  }

  // ----- The worker -----

  /** How many batches it takes to delete `n` rows. */
  function Passes(n: nat, batch: nat): nat
    requires batch > 0
  {
    if n == 0 then 0 else 1 + Passes(n - Min(batch, n), batch)
  }

  lemma {:induction false} PassesIsCeiling(n: nat, batch: nat)
    requires batch > 0
    ensures Passes(n, batch) * batch >= n
    ensures n > 0 ==> (Passes(n, batch) - 1) * batch < n
  {
    if n == 0 {
    } else {
      PassesIsCeiling(n - Min(batch, n), batch);
      var p := Passes(n - Min(batch, n), batch);
      assert (p + 1) * batch == p * batch + batch;
      if p > 0 {
        assert p * batch == (p - 1) * batch + batch;
      }
    }
  }

  function Max3(a: nat, b: nat, c: nat): nat {
    if a >= b && a >= c then a else if b >= c then b else c
  }

  function PassesFor(published: nat, completed: nat, dead: nat, batch: nat): nat
    requires batch > 0
  {
    Max3(Passes(published, batch), Passes(completed, batch), Passes(dead, batch))
  }

  function PassesLeft(o: Options, t: Tables, now: Time): nat
    requires o.Valid()
  {
    PassesFor(AgedCount(o, t, Published, now), AgedCount(o, t, Completed, now), AgedCount(o, t, Dead, now),
              o.cleanupBatchSize)
  }

  /** A pass that takes a batch from each status leaves one pass less to do, and takes nothing only if none was left. */
  lemma OnePassLess(a: nat, b: nat, c: nat, batch: nat, a': nat, b': nat, c': nat)
    requires batch > 0
    requires a' == a - Min(batch, a) && b' == b - Min(batch, b) && c' == c - Min(batch, c)
    ensures PassesFor(a', b', c', batch) == PassesFor(a, b, c, batch) - (if a' < a || b' < b || c' < c then 1 else 0)
    ensures a' == a && b' == b && c' == c ==> PassesFor(a, b, c, batch) == 0
  {
  }

  /** `t'` is `t` with some of the aged rows deleted, receipts and all, and nothing else changed. */
  ghost predicate Trimmed(o: Options, t: Tables, t': Tables, now: Time) {
    && t'.outbox.Keys <= t.outbox.Keys
    && (forall id :: id in t'.outbox ==> t'.outbox[id] == t.outbox[id])
    && (forall id :: id in t.outbox && id !in t'.outbox ==> IsAged(o, t.outbox[id], now))
    && (forall r :: r in t'.receipts ==> r in t.receipts)
    && (forall r :: r in t.receipts && r !in t'.receipts ==> r.0 in t.outbox && r.0 !in t'.outbox)
    && (forall r :: r in t'.receipts && r.0 in t.outbox ==> r.0 in t'.outbox)
    && t'.endpoints == t.endpoints
  }

  lemma DeletionTrims(o: Options, t0: Tables, t: Tables, status: Status, victims: set<JobId>, now: Time)
    requires Trimmed(o, t0, t, now) && IsCleaned(status) && victims <= Aged(o, t, status, now).Keys
    ensures Trimmed(o, t0, DeleteRows(t, victims), now)
  {
  }

  class OutboxCleanupService {
    const db: JobsDatabase
    const o: Options

    constructor (db: JobsDatabase, o: Options)
      ensures this.db == db && this.o == o
    {
      this.db, this.o := db, o;
    }

    /** One pass over the three statuses; returns how many rows each lost. `t0` is any earlier state. */
    method CleanupOnce(now: Time, ghost t0: Tables) returns (published: nat, completed: nat, dead: nat)
      requires Trimmed(o, t0, db.Contents(), now)
      modifies db
      ensures Trimmed(o, t0, db.Contents(), now)
      ensures published == Min(o.cleanupBatchSize, old(AgedCount(o, db.Contents(), Published, now)))
      ensures completed == Min(o.cleanupBatchSize, old(AgedCount(o, db.Contents(), Completed, now)))
      ensures dead == Min(o.cleanupBatchSize, old(AgedCount(o, db.Contents(), Dead, now)))
      ensures AgedCount(o, db.Contents(), Published, now)
        == old(AgedCount(o, db.Contents(), Published, now)) - published
      ensures AgedCount(o, db.Contents(), Completed, now)
        == old(AgedCount(o, db.Contents(), Completed, now)) - completed
      ensures AgedCount(o, db.Contents(), Dead, now) == old(AgedCount(o, db.Contents(), Dead, now)) - dead
    {
      published := DeleteByStatus(Published, now, t0);
      completed := DeleteByStatus(Completed, now, t0);
      dead := DeleteByStatus(Dead, now, t0);
    }

    method DeleteByStatus(status: Status, now: Time, ghost t0: Tables) returns (count: nat)
      requires IsCleaned(status)
      requires Trimmed(o, t0, db.Contents(), now)
      modifies db
      ensures Trimmed(o, t0, db.Contents(), now)
      ensures count == Min(o.cleanupBatchSize, old(AgedCount(o, db.Contents(), status, now)))
      ensures AgedCount(o, db.Contents(), status, now) == old(AgedCount(o, db.Contents(), status, now)) - count
      ensures forall other: Status :: other != status ==>
        AgedCount(o, db.Contents(), other, now) == old(AgedCount(o, db.Contents(), other, now))
    {
      ghost var t := db.Contents();
      var victims := db.DeleteByStatusOlderThan(status, o.ResolveCutoff(status, now), o.cleanupBatchSize);
      assert Ranking.IsFirst(victims, Aged(o, t, status, now), o.cleanupBatchSize);
      DeletionTrims(o, t0, t, status, victims, now);
      DeletionShrinksOnePool(o, t, status, victims, now, o.cleanupBatchSize);
      count := |victims|;
    }

    /** The productive passes still to come. */
    ghost function Left(now: Time): nat
      requires o.Valid()
      reads db
    {
      PassesLeft(o, db.Contents(), now)
    }

    /** One turn of the worker's loop. */
    method Turn(now: Time, ghost t0: Tables) returns (deleted: nat)
      requires o.Valid() && Trimmed(o, t0, db.Contents(), now)
      modifies db
      ensures Trimmed(o, t0, db.Contents(), now)
      ensures Left(now)
        == old(Left(now)) - (if deleted > 0 then 1 else 0)
      ensures deleted == 0 ==> Left(now) == 0
    {
      ghost var t := db.Contents();
      var published, completed, dead := CleanupOnce(now, t0);
      ghost var t' := db.Contents();
      deleted := published + completed + dead;
      OnePassLess(AgedCount(o, t, Published, now), AgedCount(o, t, Completed, now), AgedCount(o, t, Dead, now),
                  o.cleanupBatchSize,
                  AgedCount(o, t', Published, now), AgedCount(o, t', Completed, now), AgedCount(o, t', Dead, now));
    }

    /** The worker repeats at once while a pass deletes anything; the clock is held fixed. */
    method CleanupUntilQuiet(now: Time) returns (productive: nat)
      requires o.Valid()
      modifies db
      ensures productive == old(Left(now))
      ensures Trimmed(o, old(db.Contents()), db.Contents(), now)
      ensures forall id :: id in db.outbox <==> id in old(db.outbox) && !IsPastRetention(o, old(db.outbox)[id], now)
    {
      ghost var t0 := db.Contents();
      productive := 0;
      var deleted := Turn(now, t0);
      while deleted > 0
        invariant Trimmed(o, t0, db.Contents(), now)
        invariant productive + Left(now) + (if deleted > 0 then 1 else 0)
          == old(Left(now))
        invariant deleted == 0 ==> Left(now) == 0
        decreases Left(now), deleted
      {
        productive := productive + 1;
        deleted := Turn(now, t0);
      }
      NothingAgedLeft(o, t0, db.Contents(), now);
    }
  }

  lemma NothingAgedLeft(o: Options, t0: Tables, t: Tables, now: Time)
    requires o.Valid() && Trimmed(o, t0, t, now) && PassesLeft(o, t, now) == 0
    ensures forall id :: id in t.outbox <==> id in t0.outbox && !IsPastRetention(o, t0.outbox[id], now)
  {
    forall id | id in t0.outbox ensures IsAged(o, t0.outbox[id], now) <==> IsPastRetention(o, t0.outbox[id], now) {
      AgedIffPastRetention(o, t0.outbox[id], now);
    }
    forall id | id in t.outbox
      ensures !IsAged(o, t.outbox[id], now)
    {
      var status := t.outbox[id].status;
      if IsCleaned(status) {
        assert AgedCount(o, t, status, now) == 0;
        assert id !in Aged(o, t, status, now);
      }
    }
  }
}
