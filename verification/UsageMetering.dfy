/**
 Usage counters: hourly buckets maintained by upserts, and the per-API-key summary read from
 them. The summary is compared with recounting the raw log of recorded events.
 */
module UsageMetering {
  import opened Wrappers
  import Sorting

  type Time = int // milliseconds since the epoch

  const MS_PER_HOUR := 3600000

  /** An event carries everything of its counter but the bucket. */
  datatype Group = Group(apiKeyId: nat, routeKey: string, statusCode: int)
  datatype Event = Event(metricKey: string, organizationId: nat, group: Group, userId: nat, at: Time)

  datatype CounterKey = CounterKey(metricKey: string, bucketStart: Time, organizationId: nat, group: Group)
  datatype Counter = Counter(key: CounterKey, count: nat, lastSeenAt: Time, userId: nat)

  const API_KEY_REQUEST := "api_key.request"

  function BucketStart(at: Time): Time {
    at - at % MS_PER_HOUR
  }

  /** A moment rounded up to the hour. */
  function CeilHour(since: Time): Time {
    if since % MS_PER_HOUR == 0 then since else BucketStart(since) + MS_PER_HOUR
  }

  /** Comparing buckets with `since` is comparing moments with `since` rounded up. */
  lemma BucketsCompareByHour(at: Time, since: Time)
    ensures BucketStart(at) >= since <==> at >= CeilHour(since)
    ensures BucketStart(at) <= at < BucketStart(at) + 3600000 && BucketStart(at) % 3600000 == 0
    ensures since <= CeilHour(since) < since + 3600000 && CeilHour(since) % 3600000 == 0
  {
  }

  function Max(a: Time, b: Time): Time {
    if a >= b then a else b
  }

  function Create(e: Event): Counter {
    Counter(CounterKey(e.metricKey, BucketStart(e.at), e.organizationId, e.group), 1, e.at, e.userId)
  }

  function Merged(row: Counter, c: Counter): Counter {
    Counter(c.key, row.count + c.count, Max(row.lastSeenAt, c.lastSeenAt), c.userId)
  }

  /** The upsert: add to the counter with the same key, or insert. */
  function Upsert(rows: seq<Counter>, c: Counter): seq<Counter> {
    if rows == [] then [c]
    else if rows[0].key == c.key then [Merged(rows[0], c)] + rows[1..]
    else [rows[0]] + Upsert(rows[1..], c)
  }

  /** Where the upsert writes: at the first row of the same key, or behind the last. */
  lemma {:induction false} UpsertAt(rows: seq<Counter>, c: Counter, i: nat)
    requires i <= |rows| && forall k :: 0 <= k < i ==> rows[k].key != c.key
    requires i < |rows| ==> rows[i].key == c.key
    ensures Upsert(rows, c) == if i == |rows| then rows + [c] else rows[i := Merged(rows[i], c)]
  {
    if i == 0 {
      assert rows != [] ==> [Merged(rows[0], c)] + rows[1..] == rows[0 := Merged(rows[0], c)];
    } else {
      UpsertAt(rows[1..], c, i - 1);
      assert rows == [rows[0]] + rows[1..];
    }
  }

  function RecordAll(log: seq<Event>): seq<Counter> {
    if log == [] then [] else Upsert(RecordAll(log[..|log| - 1]), Create(log[|log| - 1]))
  }

  // ----- The summary read -----

  datatype Query = Query(organizationId: nat, since: Time)

  predicate Selects(q: Query, c: Counter) {
    && c.key.organizationId == q.organizationId
    && c.key.metricKey == API_KEY_REQUEST
    && c.key.bucketStart >= q.since
  }

  /** SUM("count") of a group. */
  function TotalCount(rows: seq<Counter>, q: Query, g: Group): nat {
    if rows == [] then 0
    else (if Selects(q, rows[0]) && rows[0].key.group == g then rows[0].count else 0) + TotalCount(rows[1..], q, g)
  }

  function Later(a: Option<Time>, b: Option<Time>): Option<Time> {
    if a.None? then b else if b.None? then a else Some(Max(a.value, b.value))
  }

  /** MAX("last_seen_at") of a group. */
  function LastSeen(rows: seq<Counter>, q: Query, g: Group): Option<Time> {
    if rows == [] then None
    else Later(if Selects(q, rows[0]) && rows[0].key.group == g then Some(rows[0].lastSeenAt) else None,
               LastSeen(rows[1..], q, g))
  }

  /** The groups of the selected rows, each once. */
  function Groups(rows: seq<Counter>, q: Query): (r: seq<Group>)
    ensures Sorting.Distinct(r)
    ensures forall g :: g in r <==> exists i :: 0 <= i < |rows| && Selects(q, rows[i]) && rows[i].key.group == g
  {
    if rows == [] then []
    else
      var rest := Groups(rows[1..], q);
      if Selects(q, rows[0]) && rows[0].key.group !in rest then [rows[0].key.group] + rest else rest
  }

  datatype Summary = Summary(group: Group, totalCount: nat, lastSeenAt: Time)

  /** Larger totals first, and among equal totals the one seen last. */
  const RANKS: (Summary, Summary) -> bool := (a: Summary, b: Summary) =>
    a.totalCount > b.totalCount || (a.totalCount == b.totalCount && a.lastSeenAt >= b.lastSeenAt)

  function Summarize(rows: seq<Counter>, q: Query, g: Group): Summary {
    var seen := LastSeen(rows, q, g);
    Summary(g, TotalCount(rows, q, g), if seen.Some? then seen.value else 0)
  }

  function SummarizeAll(rows: seq<Counter>, q: Query, groups: seq<Group>): (r: seq<Summary>)
    ensures |r| == |groups| && forall i :: 0 <= i < |r| ==> r[i] == Summarize(rows, q, groups[i])
  {
    if groups == [] then [] else [Summarize(rows, q, groups[0])] + SummarizeAll(rows, q, groups[1..])
  }

  /** The selected groups' summaries in rank order; groups that rank equally may come in any order. */
  ghost predicate Ranked(rows: seq<Counter>, q: Query, all: seq<Summary>) {
    multiset(all) == multiset(SummarizeAll(rows, q, Groups(rows, q))) && Sorting.Sorted(all, RANKS)
  }

  function Take(all: seq<Summary>, limit: nat): seq<Summary> {
    if |all| <= limit then all else all[..limit]
  }

  // ----- The raw log -----

  /** The event counts for the group in the query's window. */
  predicate Counts(q: Query, g: Group, e: Event) {
    && e.organizationId == q.organizationId && e.metricKey == API_KEY_REQUEST && e.group == g
    && e.at >= CeilHour(q.since)
  }

  function Recount(log: seq<Event>, q: Query, g: Group): nat {
    if log == [] then 0 else Recount(log[..|log| - 1], q, g) + (if Counts(q, g, log[|log| - 1]) then 1 else 0)
  }

  /** The latest counted moment, if there is any. */
  ghost predicate IsLatest(log: seq<Event>, q: Query, g: Group, at: Option<Time>) {
    && (at.None? <==> forall e :: e in log ==> !Counts(q, g, e))
    && (at.Some? ==>
      && (exists e :: e in log && Counts(q, g, e) && e.at == at.value)
      && forall e :: e in log && Counts(q, g, e) ==> e.at <= at.value)
  }

  lemma {:induction false} UpsertAdds(rows: seq<Counter>, c: Counter, q: Query, g: Group)
    ensures TotalCount(Upsert(rows, c), q, g)
      == TotalCount(rows, q, g) + (if Selects(q, c) && c.key.group == g then c.count else 0)
    ensures LastSeen(Upsert(rows, c), q, g)
      == Later(LastSeen(rows, q, g), if Selects(q, c) && c.key.group == g then Some(c.lastSeenAt) else None)
  {
    if rows == [] {
    } else {
      assert ([Merged(rows[0], c)] + rows[1..])[1..] == rows[1..];
      if rows[0].key != c.key {
        UpsertAdds(rows[1..], c, q, g);
        assert ([rows[0]] + Upsert(rows[1..], c))[1..] == Upsert(rows[1..], c);
      }
    }
  }

  /** The counters stay an index by key: no two rows share one. */
  ghost predicate UniqueKeys(rows: seq<Counter>) {
    forall i, j :: 0 <= i < j < |rows| ==> rows[i].key != rows[j].key
  }

  lemma {:induction false} UpsertKeys(rows: seq<Counter>, c: Counter)
    ensures forall r :: r in Upsert(rows, c) ==> r.key == c.key || exists s :: s in rows && s.key == r.key
    ensures UniqueKeys(rows) ==> UniqueKeys(Upsert(rows, c))
  {
    if rows == [] || rows[0].key == c.key {
    } else {
      var rest := Upsert(rows[1..], c);
      UpsertKeys(rows[1..], c);
      if UniqueKeys(rows) {
        forall j | 0 <= j < |rest|
          ensures rest[j].key != rows[0].key
        {
          assert rest[j] in rest;
          if rest[j].key != c.key {
            var s :| s in rows[1..] && s.key == rest[j].key;
          }
        }
      }
    }
  }

  /** Headline: after any sequence of records, sums and maxima over buckets are those over the log. */
  lemma {:induction false} CountersRecountTheLog(log: seq<Event>, q: Query, g: Group)
    ensures TotalCount(RecordAll(log), q, g) == Recount(log, q, g)
    ensures IsLatest(log, q, g, LastSeen(RecordAll(log), q, g))
    ensures UniqueKeys(RecordAll(log))
  {
    if log == [] {
    } else {
      var init, last := log[..|log| - 1], log[|log| - 1];
      CountersRecountTheLog(init, q, g);
      BucketsCompareByHour(last.at, q.since);
      UpsertAdds(RecordAll(init), Create(last), q, g);
      UpsertKeys(RecordAll(init), Create(last));
      assert log == init + [last];
      assert forall e :: e in log <==> e in init || e == last;
    }
  }

  lemma {:induction false} UpsertNamesUser(rows: seq<Counter>, c: Counter)
    requires UniqueKeys(rows)
    ensures forall r :: r in Upsert(rows, c) ==>
      if r.key == c.key then r.userId == c.userId else r in rows
  {
    if rows == [] {
    } else if rows[0].key == c.key {
      assert forall r :: r in rows[1..] ==> r.key != c.key;
    } else {
      UpsertNamesUser(rows[1..], c);
    }
  }

  /** The last of the events that a counter counts. */
  ghost predicate IsLastOf(log: seq<Event>, k: nat, key: CounterKey) {
    && k < |log| && Create(log[k]).key == key
    && forall j :: k < j < |log| ==> Create(log[j]).key != key
  }

  /** Each counter names the user of the last event it counts. */
  lemma {:induction false} CountersNameTheLastUser(log: seq<Event>, r: Counter) returns (k: nat)
    requires r in RecordAll(log)
    ensures IsLastOf(log, k, r.key) && r.userId == log[k].userId
  {
    var init, last := log[..|log| - 1], log[|log| - 1];
    CountersRecountTheLog(init, Query(0, 0), last.group);
    UpsertNamesUser(RecordAll(init), Create(last));
    if r.key == Create(last).key {
      k := |log| - 1;
    } else {
      k := CountersNameTheLastUser(init, r);
      assert log[k] == init[k];
    }
  }

  lemma {:induction false} RecountSplits(a: seq<Event>, b: seq<Event>, q: Query, g: Group)
    ensures Recount(a + b, q, g) == Recount(a, q, g) + Recount(b, q, g)
  {
    if b == [] {
      assert a + b == a;
    } else {
      assert (a + b)[..|a + b| - 1] == a + b[..|b| - 1];
      RecountSplits(a, b[..|b| - 1], q, g);
    }
  }

  function Without(log: seq<Event>, k: nat): seq<Event>
    requires k < |log|
  {
    log[..k] + log[k + 1..]
  }

  lemma RecountWithout(log: seq<Event>, k: nat, q: Query, g: Group)
    requires k < |log|
    ensures Recount(log, q, g) == Recount([log[k]], q, g) + Recount(Without(log, k), q, g)
  {
    assert log == log[..k] + ([log[k]] + log[k + 1..]);
    RecountSplits(log[..k], [log[k]] + log[k + 1..], q, g);
    RecountSplits([log[k]], log[k + 1..], q, g);
    RecountSplits(log[..k], log[k + 1..], q, g);
  }

  lemma BagWithout(log: seq<Event>, k: nat)
    requires k < |log|
    ensures multiset(Without(log, k)) == multiset(log) - multiset{log[k]}
  {
    assert log == log[..k] + [log[k]] + log[k + 1..];
  }

  lemma {:induction false} RecountIgnoresOrder(a: seq<Event>, b: seq<Event>, q: Query, g: Group)
    requires multiset(a) == multiset(b)
    ensures Recount(a, q, g) == Recount(b, q, g)
    decreases |a|
  {
    if a == [] {
      assert |multiset(b)| == 0;
    } else {
      Sorting.SameElements(a, b);
      assert a[0] in a && a[0] in b;
      var k :| 0 <= k < |b| && b[k] == a[0];
      BagWithout(a, 0);
      BagWithout(b, k);
      RecountIgnoresOrder(Without(a, 0), Without(b, k), q, g);
      RecountWithout(a, 0, q, g);
      RecountWithout(b, k, q, g);
    }
  }

  /** The order in which events are recorded does not matter to any group. */
  lemma OrderDoesNotMatter(a: seq<Event>, b: seq<Event>, q: Query, g: Group)
    requires multiset(a) == multiset(b)
    ensures Summarize(RecordAll(a), q, g) == Summarize(RecordAll(b), q, g)
    ensures g in Groups(RecordAll(a), q) <==> g in Groups(RecordAll(b), q)
  {
    CountersRecountTheLog(a, q, g);
    CountersRecountTheLog(b, q, g);
    RecountIgnoresOrder(a, b, q, g);
    Sorting.SameElements(a, b);
    GroupsAreSeen(RecordAll(a), q, g);
    GroupsAreSeen(RecordAll(b), q, g);
  }

  lemma {:induction false} GroupsAreSeen(rows: seq<Counter>, q: Query, g: Group)
    ensures g in Groups(rows, q) <==> LastSeen(rows, q, g).Some?
  {
    if rows == [] {
    } else {
      GroupsAreSeen(rows[1..], q, g);
    }
  }

  ghost predicate OneEach(summary: seq<Summary>) {
    forall i, j :: 0 <= i < j < |summary| ==> summary[i].group != summary[j].group
  }

  // ----- The repository -----

  class UsageCounterRepository {
    var rows: seq<Counter>

    /** The upsert statement, as a scan for the conflicting row. */
    method Increment(c: Counter)
      modifies this
      ensures rows == Upsert(old(rows), c)
    {
      var i := 0;
      while i < |rows| && rows[i].key != c.key
        invariant i <= |rows| && rows == old(rows)
        invariant forall k :: 0 <= k < i ==> rows[k].key != c.key
      {
        i := i + 1;
      }
      UpsertAt(rows, c, i);
      if i == |rows| {
        rows := rows + [c];
      } else {
        rows := rows[i := Merged(rows[i], c)];
      }
    }

    method Record(e: Event, ghost log: seq<Event>)
      requires rows == RecordAll(log)
      modifies this
      ensures rows == RecordAll(log + [e])
    {
      assert (log + [e])[..|log|] == log;
      Increment(Create(e));
    }

    /**
     The summary: at most `limit` groups, right by the log. `order` is the order in which the engine comes upon
     the groups.
     */
    method GetApiKeyRequestSummary(organizationId: nat, since: Time, limit: nat,
                                   order: seq<Group>, ghost log: seq<Event>)
      returns (summary: seq<Summary>)
      requires rows == RecordAll(log)
      requires multiset(order) == multiset(Groups(rows, Query(organizationId, since)))
      ensures exists all :: Ranked(rows, Query(organizationId, since), all) && summary == Take(all, limit)
      ensures IsRight(log, Query(organizationId, since), limit, summary)
    {
      var q := Query(organizationId, since);
      var all := Sorting.SortBy(SummarizeAll(rows, q, order), RANKS);
      SummariesFollowOrder(rows, q, order, Groups(rows, q));
      RanksOrder();
      Sorting.SortBySorts(SummarizeAll(rows, q, order), RANKS);
      assert Ranked(rows, q, all);
      summary := Take(all, limit);
      SummaryIsRight(log, q, limit, all);
    }
  }

  lemma SummariesFollowOrder(rows: seq<Counter>, q: Query, a: seq<Group>, b: seq<Group>)
    requires multiset(a) == multiset(b) && Sorting.Distinct(b)
    ensures multiset(SummarizeAll(rows, q, a)) == multiset(SummarizeAll(rows, q, b))
  {
    var sa, sb := SummarizeAll(rows, q, a), SummarizeAll(rows, q, b);
    Sorting.DistinctCounts(a);
    Sorting.DistinctCounts(b);
    assert |multiset(a)| == |multiset(b)|;
    SummariesAreDistinct(rows, q, a);
    SummariesAreDistinct(rows, q, b);
    Sorting.SameElements(a, b);
    forall x | x in sa ensures x in sb {
      var i :| 0 <= i < |sa| && sa[i] == x;
      assert a[i] in b;
      var j :| 0 <= j < |b| && b[j] == a[i];
      assert sb[j] == x;
    }
    Sorting.DistinctSameElements(sa, sb);
  }

  lemma RanksOrder()
    ensures Sorting.TotalPreorder(RANKS)
  {
  }

  lemma SummariesAreDistinct(rows: seq<Counter>, q: Query, groups: seq<Group>)
    requires Sorting.Distinct(groups)
    ensures Sorting.Distinct(SummarizeAll(rows, q, groups))
  {
    var r := SummarizeAll(rows, q, groups);
    forall i, j | 0 <= i < j < |r|
      ensures r[i] != r[j]
    {
      assert r[i].group == groups[i] && r[j].group == groups[j];
    }
  }

  /** Every counted event of the second group is followed, or met, by one of the first. */
  ghost predicate SeenNoEarlier(log: seq<Event>, q: Query, g: Group, h: Group) {
    forall e :: e in log && Counts(q, h, e) ==> exists f :: f in log && Counts(q, g, f) && e.at <= f.at
  }

  /** By the log alone: the first group was counted more often, or as often and no earlier for the last time. */
  ghost predicate IsNoLess(log: seq<Event>, q: Query, g: Group, h: Group) {
    || Recount(log, q, g) > Recount(log, q, h)
    || (Recount(log, q, g) == Recount(log, q, h) && SeenNoEarlier(log, q, g, h))
  }

  predicate Lists(summary: seq<Summary>, g: Group) {
    exists i :: 0 <= i < |summary| && summary[i].group == g
  }

  /**
   What a caller may rely on in a summary, stated by the log: each group is listed once with its count and its
   latest moment, the busiest first, and a group is left out only for the limit and for groups that are no less.
   */
  ghost predicate IsRight(log: seq<Event>, q: Query, limit: nat, summary: seq<Summary>) {
    && |summary| <= limit && OneEach(summary)
    && (forall s :: s in summary ==>
      s.totalCount == Recount(log, q, s.group) && IsLatest(log, q, s.group, Some(s.lastSeenAt)))
    && (forall i, j :: 0 <= i < j < |summary| ==> IsNoLess(log, q, summary[i].group, summary[j].group))
    && (forall e :: e in log && Counts(q, e.group, e) ==>
      || Lists(summary, e.group)
      || (|summary| == limit && forall listed :: listed in summary ==> IsNoLess(log, q, listed.group, e.group)))
  }

  lemma RanksMean(log: seq<Event>, q: Query, a: Summary, b: Summary)
    requires RANKS(a, b)
    requires a.totalCount == Recount(log, q, a.group) && IsLatest(log, q, a.group, Some(a.lastSeenAt))
    requires b.totalCount == Recount(log, q, b.group) && IsLatest(log, q, b.group, Some(b.lastSeenAt))
    ensures IsNoLess(log, q, a.group, b.group)
  {
    var latest :| latest in log && Counts(q, a.group, latest) && latest.at == a.lastSeenAt;
    if a.totalCount == b.totalCount {
      forall e | e in log && Counts(q, b.group, e)
        ensures exists f :: f in log && Counts(q, a.group, f) && e.at <= f.at
      {
        assert e.at <= latest.at;
      }
    }
  }

  /** The ranked summaries are one for each group of the log, with its recount and latest moment. */
  lemma RankedAreRight(log: seq<Event>, q: Query, all: seq<Summary>)
    requires Ranked(RecordAll(log), q, all)
    ensures OneEach(all)
    ensures forall s :: s in all ==>
      s.totalCount == Recount(log, q, s.group) && IsLatest(log, q, s.group, Some(s.lastSeenAt))
    ensures forall e :: e in log && Counts(q, e.group, e) ==> Summarize(RecordAll(log), q, e.group) in all
  {
    var rows := RecordAll(log);
    var groups := Groups(rows, q);
    var unsorted := SummarizeAll(rows, q, groups);
    SummariesAreDistinct(rows, q, groups);
    Sorting.DistinctCounts(unsorted);
    Sorting.DistinctCounts(all);
    Sorting.SameElements(unsorted, all);
    forall s | s in all ensures s == Summarize(rows, q, s.group) {
      assert s in unsorted;
    }
    forall i, j | 0 <= i < j < |all| ensures all[i].group != all[j].group {
      assert all[i] != all[j];
    }
    forall s | s in all
      ensures s.totalCount == Recount(log, q, s.group) && IsLatest(log, q, s.group, Some(s.lastSeenAt))
    {
      assert s in unsorted;
      CountersRecountTheLog(log, q, s.group);
      GroupsAreSeen(rows, q, s.group);
    }
    forall e | e in log && Counts(q, e.group, e) ensures Summarize(rows, q, e.group) in all {
      CountersRecountTheLog(log, q, e.group);
      GroupsAreSeen(rows, q, e.group);
      var i :| 0 <= i < |groups| && groups[i] == e.group;
      assert unsorted[i] == Summarize(rows, q, e.group);
    }
  }

  lemma SummaryIsRight(log: seq<Event>, q: Query, limit: nat, all: seq<Summary>)
    requires Ranked(RecordAll(log), q, all)
    ensures IsRight(log, q, limit, Take(all, limit))
  {
    var summary := Take(all, limit);
    RankedAreRight(log, q, all);
    assert forall s :: s in summary ==> s in all;
    forall i, j | 0 <= i < j < |summary| ensures IsNoLess(log, q, summary[i].group, summary[j].group) {
      assert summary[i] == all[i] && summary[j] == all[j] && RANKS(all[i], all[j]);
      RanksMean(log, q, summary[i], summary[j]);
    }
    forall e | e in log && Counts(q, e.group, e)
      ensures Lists(summary, e.group)
        || (|summary| == limit && forall listed :: listed in summary ==> IsNoLess(log, q, listed.group, e.group))
    {
      var s := Summarize(RecordAll(log), q, e.group);
      OmittedRanksLower(all, limit, s);
      if s in summary {
        var i :| 0 <= i < |summary| && summary[i] == s;
      } else {
        forall listed | listed in summary ensures IsNoLess(log, q, listed.group, e.group) {
          RanksMean(log, q, listed, s);
        }
      }
    }
  }

  lemma OmittedRanksLower(all: seq<Summary>, limit: nat, s: Summary)
    requires Sorting.Sorted(all, RANKS) && s in all
    ensures var kept := if |all| <= limit then all else all[..limit];
      s in kept || (|kept| == limit && forall listed :: listed in kept ==> RANKS(listed, s))
  {
    var j :| 0 <= j < |all| && all[j] == s;
    if limit <= j {
      forall listed | listed in all[..limit]
        ensures RANKS(listed, s)
      {
        var i :| 0 <= i < limit && all[i] == listed;
        assert RANKS(all[i], all[j]);
      }
    } else if |all| > limit {
      assert all[..limit][j] == s;
    }
  }
}
