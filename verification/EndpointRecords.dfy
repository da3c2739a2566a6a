/**
 What a webhook endpoint's row tells about the deliveries made to it. A handler reads the row before its call
 and saves the whole row after it, and only the job's row is locked in between, so the reads and saves of
 several handlers interleave in any way.
 */
module EndpointRecords {
  import opened Wrappers
  import opened JobOutbox
  import opened OutboxStore
  import opened JobHandlers

  /** One handler call on the endpoint; `Drop` is one whose transaction is not committed. */
  datatype Event = Read(call: nat) | Save(call: nat, reply: Reply, now: Time) | Drop(call: nat)

  /** The committed row, and the rows that the calls under way have read. */
  datatype State = State(row: Endpoint, open: map<nat, Endpoint>)

  predicate Enabled(s: State, e: Event) {
    e.Read? <==> e.call !in s.open
  }

  function Apply(s: State, e: Event): State {
    match e
    case Read(c) => s.(open := s.open[c := s.row])
    case Save(c, reply, now) =>
      if c in s.open then State(Recorded(s.open[c], reply, now), s.open - {c}) else s
    case Drop(c) => s.(open := s.open - {c})
  }

  /** The state before the n-th event. */
  function At(row: Endpoint, events: seq<Event>, n: nat): State
    requires n <= |events|
  {
    if n == 0 then State(row, map[]) else Apply(At(row, events, n - 1), events[n - 1])
  }

  predicate MayHappen(row: Endpoint, events: seq<Event>, n: nat)
    requires n < |events|
  {
    Enabled(At(row, events, n), events[n])
  }

  ghost predicate Legal(row: Endpoint, events: seq<Event>) {
    forall n :: 0 <= n < |events| ==> MayHappen(row, events, n)
  }

  /** Where the call that is open before the n-th event has read the row. */
  function ReadOf(events: seq<Event>, call: nat, n: nat): (r: nat)
    requires n <= |events|
    ensures r <= n
  {
    if n == 0 then 0 else if events[n - 1] == Read(call) then n - 1 else ReadOf(events, call, n - 1)
  }

  /** Where the call saved by the j-th event has read the row. */
  function Seen(events: seq<Event>, j: nat): nat
    requires j < |events|
  {
    ReadOf(events, events[j].call, j)
  }

  predicate Succeeds(e: Event) {
    e.Save? && e.reply.Accepts?
  }

  lemma {:induction false} SnapshotIsTheRowRead(row: Endpoint, events: seq<Event>, n: nat, call: nat)
    requires Legal(row, events) && n <= |events| && call in At(row, events, n).open
    ensures var r := ReadOf(events, call, n);
      r < n && events[r] == Read(call) && At(row, events, n).open[call] == At(row, events, r).row
  {
    if n == 0 {
    } else if events[n - 1] != Read(call) {
      assert MayHappen(row, events, n - 1);
      SnapshotIsTheRowRead(row, events, n - 1, call);
    }
  }

  /** A save writes what its call makes of the row it has read. */
  lemma SaveWritesItsSnapshot(row: Endpoint, events: seq<Event>, j: nat)
    requires Legal(row, events) && j < |events| && events[j].Save?
    ensures Seen(events, j) < j && events[Seen(events, j)].Read?
    ensures At(row, events, j + 1).row == Recorded(At(row, events, Seen(events, j)).row, events[j].reply, events[j].now)
  {
    assert MayHappen(row, events, j);
    SnapshotIsTheRowRead(row, events, j, events[j].call);
  }

  lemma {:induction false} RowStays(row: Endpoint, events: seq<Event>, j: nat, n: nat)
    requires j <= n <= |events| && forall k :: j <= k < n ==> !events[k].Save?
    ensures At(row, events, n).row == At(row, events, j).row
  {
    if j == n {
    } else {
      RowStays(row, events, j, n - 1);
    }
  }

  /** However the calls overlap, the row shows a failure exactly if the last save was of one, and then that one. */
  lemma FailureTellsLastSave(row: Endpoint, events: seq<Event>, j: nat, n: nat)
    requires Legal(row, events) && j < n <= |events| && events[j].Save?
    requires forall k :: j < k < n ==> !events[k].Save?
    ensures var final, last := At(row, events, n).row, events[j];
      && (final.lastFailureAt.None? <==> last.reply.Accepts?)
      && (last.reply.Accepts? ==> final == Endpoint(Some(last.now), None, None))
      && (!last.reply.Accepts? ==>
          final.lastFailureAt == Some(last.now) && final.lastFailureStatusCode == last.reply.code)
  {
    SaveWritesItsSnapshot(row, events, j);
    RowStays(row, events, j + 1, n);
  }

  // ----- The delivery time -----

  /**
   The success that the delivery time in the row before the n-th event comes from: that of the last save, or of
   the row which the last save had read.
   */
  function Origin(events: seq<Event>, n: nat): Option<nat>
    requires n <= |events|
  {
    if n == 0 then None
    else if !events[n - 1].Save? then Origin(events, n - 1)
    else if Succeeds(events[n - 1]) then Some(n - 1)
    else Origin(events, Seen(events, n - 1))
  }

  lemma {:induction false} DeliveryTimeHasOrigin(row: Endpoint, events: seq<Event>, n: nat)
    requires Legal(row, events) && n <= |events|
    ensures match Origin(events, n)
      case None => At(row, events, n).row.lastDeliveryAt == row.lastDeliveryAt
      case Some(i) => i < n && Succeeds(events[i]) && At(row, events, n).row.lastDeliveryAt == Some(events[i].now)
  {
    if n == 0 {
    } else if !events[n - 1].Save? {
      DeliveryTimeHasOrigin(row, events, n - 1);
    } else {
      SaveWritesItsSnapshot(row, events, n - 1);
      DeliveryTimeHasOrigin(row, events, Seen(events, n - 1));
    }
  }

  /** The i-th event is a success, and no earlier delivery time equals its own. */
  ghost predicate IsTimely(row: Endpoint, events: seq<Event>, i: nat) {
    && i < |events| && Succeeds(events[i])
    && row.lastDeliveryAt != Some(events[i].now)
    && forall k :: 0 <= k < i && Succeeds(events[k]) ==> events[k].now != events[i].now
  }

  predicate ShowsTime(row: Endpoint, events: seq<Event>, i: nat, n: nat)
    requires i < |events| && events[i].Save? && n <= |events|
  {
    At(row, events, n).row.lastDeliveryAt == Some(events[i].now)
  }

  /**
   At any one moment after its last success the row shows that success exactly if it is where the reads lead
   back to: from the last save to what it had read, and so on.
   */
  lemma ShowsLastSuccessIff(row: Endpoint, events: seq<Event>, i: nat, n: nat)
    requires Legal(row, events) && IsTimely(row, events, i) && i < n <= |events|
    requires forall k :: i < k < n ==> !Succeeds(events[k])
    ensures ShowsTime(row, events, i, n) <==> Origin(events, n) == Some(i)
  {
    DeliveryTimeHasOrigin(row, events, n);
  }

  /** Every later save is of a call that has read the row after the success. */
  ghost predicate SeenByAll(events: seq<Event>, i: nat, n: nat)
    requires n <= |events|
  {
    forall j :: i < j < n && events[j].Save? ==> i < Seen(events, j)
  }

  lemma {:induction false} SeenTimeStays(row: Endpoint, events: seq<Event>, i: nat, n: nat)
    requires Legal(row, events) && i < n <= |events| && Succeeds(events[i])
    requires (forall k :: i < k < n ==> !Succeeds(events[k])) && SeenByAll(events, i, n)
    ensures ShowsTime(row, events, i, n)
    decreases n
  {
    SaveWritesItsSnapshot(row, events, i);
    if n == i + 1 {
    } else if !events[n - 1].Save? {
      SeenTimeStays(row, events, i, n - 1);
    } else {
      SaveWritesItsSnapshot(row, events, n - 1);
      SeenTimeStays(row, events, i, Seen(events, n - 1));
    }
  }

  lemma StaleSaveLosesTime(row: Endpoint, events: seq<Event>, i: nat, j: nat)
    requires Legal(row, events) && IsTimely(row, events, i) && i < j < |events|
    requires events[j].Save? && !Succeeds(events[j]) && Seen(events, j) <= i
    ensures !ShowsTime(row, events, i, j + 1)
  {
    SaveWritesItsSnapshot(row, events, j);
    DeliveryTimeHasOrigin(row, events, Seen(events, j));
  }

  /**
   From its last success on, the row shows that success all the time if and only if every later save is of a
   call that has read the row after it.
   */
  lemma DeliveryTimeIsKeptIff(row: Endpoint, events: seq<Event>, i: nat, n: nat)
    requires Legal(row, events) && IsTimely(row, events, i) && i < n <= |events|
    requires forall k :: i < k < n ==> !Succeeds(events[k])
    ensures (forall m :: i < m <= n ==> ShowsTime(row, events, i, m)) <==> SeenByAll(events, i, n)
  {
    if SeenByAll(events, i, n) {
      forall m | i < m <= n ensures ShowsTime(row, events, i, m) {
        SeenTimeStays(row, events, i, m);
      }
    } else {
      var j :| i < j < n && events[j].Save? && Seen(events, j) <= i;
      StaleSaveLosesTime(row, events, i, j);
    }
  }

  const NEVER: Endpoint := Endpoint(None, None, None)

  function Overlap(): seq<Event> {
    [Read(0), Read(1), Save(0, Accepts, 5), Save(1, Refuses(None), 6)]
  }

  /** Two calls overlap, one succeeds and then the other fails: the endpoint was delivered to and does not show it. */
  lemma OverlapLosesTheDelivery()
    ensures Legal(NEVER, Overlap()) && Succeeds(Overlap()[2])
    ensures At(NEVER, Overlap(), 4).row == Endpoint(None, Some(6), None)
  {
    var events := Overlap();
    assert At(NEVER, events, 1).open == map[0 := NEVER];
    assert At(NEVER, events, 2).open == map[0 := NEVER, 1 := NEVER];
    assert At(NEVER, events, 3) == State(Endpoint(Some(5), None, None), map[1 := NEVER]);
  }

  function Comeback(): seq<Event> {
    [Read(0), Read(1), Save(0, Accepts, 5), Read(2), Save(1, Refuses(None), 6), Save(2, Refuses(None), 7)]
  }

  /** A time so lost comes back with the save of a call that had read it, so one stale save does not settle the end. */
  lemma LostTimeMayComeBack()
    ensures Legal(NEVER, Comeback())
    ensures At(NEVER, Comeback(), 5).row.lastDeliveryAt == None
    ensures At(NEVER, Comeback(), 6).row.lastDeliveryAt == Some(5)
  {
    var events := Comeback();
    assert At(NEVER, events, 1).open == map[0 := NEVER];
    assert At(NEVER, events, 2).open == map[0 := NEVER, 1 := NEVER];
    assert At(NEVER, events, 3) == State(Endpoint(Some(5), None, None), map[1 := NEVER]);
    assert At(NEVER, events, 4).open == map[1 := NEVER, 2 := Endpoint(Some(5), None, None)];
    assert At(NEVER, events, 5) == State(Endpoint(None, Some(6), None), map[2 := Endpoint(Some(5), None, None)]);
  }

  // ----- The code -----

  /** The handler gets as far as calling the endpoint. */
  predicate Calls(t: Tables, env: Envelope, w: World, e: nat) {
    Sends(t, env, w) && env.jobType == WebhookDelivery && env.payload.endpointId == e
  }

  /**
   A handler call that finds the row as some call of the protocol has read it, and comes back to the row as the
   protocol has it by then, commits what the protocol's save makes of it, although it throws after a failure.
   */
  lemma HandlerReadsAndSaves(t: Tables, env: Envelope, w: World, now: Time, e: nat,
                             row: Endpoint, events: seq<Event>, n: nat, call: nat)
    requires Calls(t, env, w, e) && w.commits
    requires Legal(row, events) && n <= |events| && call in At(row, events, n).open
    requires At(row, events, ReadOf(events, call, n)).row == t.endpoints[e]
    ensures var h := Process(t, env, w, now); var saved := Apply(At(row, events, n), Save(call, w.reply, now));
      && h.tables.endpoints == w.Later(t).endpoints[e := saved.row]
      && (h.done == Delivered <==> w.reply.Accepts?)
      && (h.outcome == Retryable || h.outcome == NonRetryable <==> !w.reply.Accepts? || !w.reported)
  {
    SnapshotIsTheRowRead(row, events, n, call);
  }

  /** A call that is not made, or not committed, saves nothing. */
  lemma NoCallNoSave(t: Tables, env: Envelope, w: World, now: Time, e: nat)
    requires e in t.endpoints && env.payload.endpointId == e && (!Calls(t, env, w, e) || !w.commits)
    ensures Process(t, env, w, now).tables.endpoints ==
      if Calls(t, env, w, e) then w.Later(t).endpoints else t.endpoints
  {
  }
}
