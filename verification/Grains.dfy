/** The two grains of the protocol, and the code they are made of, fit together. */
module Grains {
  import opened JobOutbox
  import opened JobHandlers
  import opened JobsOptions
  import opened Relay
  import Consumer
  import Delivery
  import Lifecycle
  import OutboxGuarantees
  import RelayWorker

  function LastSteps(r: nat, a: Attempt): seq<Delivery.Event> {
    [if a.Succeeds() || a.secondStored then Delivery.WriteBack(r, true, false) else Delivery.CrashRelay(r)]
  }

  function WriteSteps(r: nat, a: Attempt): seq<Delivery.Event> {
    if a.errored || a.firstStored then LastSteps(r, a)
    else [Delivery.WriteBack(r, false, true)] + LastSteps(r, a)
  }

  /** The fine steps of one undisturbed dispatch: read, publish, write back, and once more after a failed write. */
  function DispatchSteps(r: nat, id: JobId, a: Attempt): seq<Delivery.Event> {
    [Delivery.Read(r, id), Delivery.Publish(r, a.accepted, a.errored)] + WriteSteps(r, a)
  }

  lemma LastStepsRun(o: Options, s: Delivery.State, r: nat, id: JobId, a: Attempt)
    requires IsClaimed(s.t, id) && r in s.relays
    requires s.relays[r] ==
      if a.Succeeds() then Delivery.HasPublished(id, s.t.outbox[id]) else Delivery.Caught(id, s.t.outbox[id])
    ensures Delivery.Runs(o, true, s, LastSteps(r, a),
      s.(t := DispatchRow(o, s.t, id, a, s.now), relays := s.relays - {r}))
  {
    assert LastSteps(r, a)[1..] == [];
  }

  lemma WriteStepsRun(o: Options, s: Delivery.State, r: nat, id: JobId, a: Attempt)
    requires IsClaimed(s.t, id) && r in s.relays
    requires s.relays[r] ==
      if a.errored then Delivery.Caught(id, s.t.outbox[id]) else Delivery.HasPublished(id, s.t.outbox[id])
    ensures Delivery.Runs(o, true, s, WriteSteps(r, a),
      s.(t := DispatchRow(o, s.t, id, a, s.now), relays := s.relays - {r}))
  {
    if a.errored || a.firstStored {
      LastStepsRun(o, s, r, id, a);
    } else {
      var s' := Delivery.ApplyWriteBack(o, s, r, false, true);
      assert WriteSteps(r, a)[1..] == LastSteps(r, a);
      assert s'.relays - {r} == s.relays - {r};
      LastStepsRun(o, s', r, id, a);
    }
  }

  /** A dispatch is a run of those fine steps. */
  lemma DispatchIsARun(o: Options, s: Delivery.State, r: nat, id: JobId, a: Attempt)
    requires IsClaimed(s.t, id) && r !in s.relays && a.Possible()
    ensures Delivery.Runs(o, true, s, DispatchSteps(r, id, a),
      s.(t := DispatchRow(o, s.t, id, a, s.now),
         sent := if a.accepted then s.sent + {s.t.outbox[id].ToEnvelope(id)} else s.sent))
  {
    var steps := DispatchSteps(r, id, a);
    assert steps[1..] == [Delivery.Publish(r, a.accepted, a.errored)] + WriteSteps(r, a);
    assert steps[1..][1..] == WriteSteps(r, a);
    var s1 := Delivery.Apply(o, true, s, steps[0]);
    var s2 := Delivery.Apply(o, true, s1, steps[1]);
    WriteStepsRun(o, s2, r, id, a);
    assert s2.relays - {r} == s.relays;
  }

  /** The lifecycle steps of one message: process, mark dead if poisoned, then delete it or leave it to reappear. */
  ghost function MessageSteps(s: Lifecycle.State, m: nat, w: World, c: Consumer.Calls): seq<Lifecycle.Event>
    requires m in s.queue
  {
    [Lifecycle.Deliver(m, w)]
    + (if Consumer.Marks(s.t, s.queue[m], w, c, s.now) then [Lifecycle.Condemn(m)] else [])
    + (if Consumer.Receive(s.t, s.queue[m], w, s.now).outcome == Retryable then []
       else if Consumer.Removes(s.t, s.queue[m], w, c, s.now) then [Lifecycle.Delete(m)]
       else [Lifecycle.Reappear(m)])
  }

  /** The queue worker's `processMessage`, its own calls failing or not, is a run of those steps. */
  lemma ProcessMessageIsARun(o: Options, s: Lifecycle.State, m: nat, w: World, c: Consumer.Calls)
    requires m in s.queue && m !in s.finished && m !in s.poisoned && c.Possible()
    ensures Lifecycle.Runs(o, s, MessageSteps(s, m, w, c),
      s.(t := Consumer.RowsAfter(s.t, s.queue[m], w, c, s.now),
         queue := Consumer.QueueAfter(s.t, s.queue, m, w, c, s.now)))
  {
    var s' := s.(t := Consumer.RowsAfter(s.t, s.queue[m], w, c, s.now),
                 queue := Consumer.QueueAfter(s.t, s.queue, m, w, c, s.now));
    var s1 := Lifecycle.ApplyDeliver(s, m, w);
    var outcome := Consumer.Receive(s.t, s.queue[m], w, s.now).outcome;
    var deliver, condemn := Lifecycle.Deliver(m, w), Lifecycle.Condemn(m);
    var last := if Consumer.Removes(s.t, s.queue[m], w, c, s.now) then Lifecycle.Delete(m) else Lifecycle.Reappear(m);
    assert Lifecycle.Runs(o, s', [], s');
    if outcome == Retryable {
      Lifecycle.RunsStart(o, s, deliver, [], s');
      assert MessageSteps(s, m, w, c) == [deliver] + [];
    } else if Consumer.Marks(s.t, s.queue[m], w, c, s.now) {
      var s2 := Lifecycle.ApplyCondemn(s1, m);
      LastMessageStep(o, s2, s', m, last);
      Lifecycle.RunsStart(o, s1, condemn, [last], s');
      Lifecycle.RunsStart(o, s, deliver, [condemn] + [last], s');
      assert MessageSteps(s, m, w, c) == [deliver] + ([condemn] + [last]);
    } else {
      LastMessageStep(o, s1, s', m, last);
      Lifecycle.RunsStart(o, s, deliver, [last], s');
      assert MessageSteps(s, m, w, c) == [deliver] + [last];
    }
  }

  lemma LastMessageStep(o: Options, s: Lifecycle.State, s': Lifecycle.State, m: nat, e: Lifecycle.Event)
    requires Lifecycle.Enabled(o, s, e) && (e == Lifecycle.Delete(m) || e == Lifecycle.Reappear(m))
    requires s' == s.(queue := if e.Delete? then s.queue - {m} else s.queue,
                      finished := s.finished - {m}, poisoned := s'.poisoned)
    requires s'.poisoned == if e.Delete? then s.poisoned else s.poisoned - {m}
    ensures Lifecycle.Runs(o, s, [e], s')
  {
    assert Lifecycle.Runs(o, s', [], s');
    Lifecycle.RunsStart(o, s, e, [], s');
    assert [e] + [] == [e];
  }

  /** Every reachable state meets what the relay loop starts from. */
  lemma ReachableStatesHaveAttemptsLeft(o: Options, events: seq<Lifecycle.Event>, s: Lifecycle.State)
    requires o.Valid() && Lifecycle.Runs(o, Lifecycle.Init(), events, s)
    ensures RelayWorker.AttemptsLeft(o, s.t)
  {
    Lifecycle.RunKeepsInv(o, Lifecycle.Init(), events, s);
  }

  /** From any reachable state on, the attempts left bound every later dispatch. */
  lemma DispatchesAreBounded(o: Options, before: seq<Lifecycle.Event>, s: Lifecycle.State,
                             events: seq<Lifecycle.Event>, s': Lifecycle.State)
    requires o.Valid() && Lifecycle.Runs(o, Lifecycle.Init(), before, s)
    requires OutboxGuarantees.Drains(o, s, events, s')
    ensures OutboxGuarantees.Dispatches(events) + OutboxGuarantees.Remaining(o, s'.t)
      <= OutboxGuarantees.Remaining(o, s.t)
  {
    Lifecycle.RunKeepsInv(o, Lifecycle.Init(), before, s);
    OutboxGuarantees.DrainBound(o, s, events, s');
  }

  // ----- Every run at the coarse grain is one at the fine grain -----

  /**
   The fine state has the same tables, clock, envelopes and jobs; no relay is at work, and the consumers at work
   are those of the poisoned messages.
   */
  ghost predicate Simulates(s: Lifecycle.State, d: Delivery.State) {
    && d.now == s.now && d.t == s.t && d.sent == s.sent && d.jobs == s.jobs && d.relays == map[]
    && d.consumers == PoisonedConsumers(s)
  }

  function PoisonedConsumers(s: Lifecycle.State): map<nat, Delivery.Consumer> {
    map m | m in s.poisoned && m in s.queue && s.queue[m].Some? :: Delivery.Poisoned(s.queue[m].value)
  }

  lemma NobodyHolds(s: Lifecycle.State, d: Delivery.State)
    requires Simulates(s, d)
    ensures forall id :: !Delivery.Held(d, id)
  {
  }

  /** The fine event of a coarse one that changes tables or clock in one go. */
  ghost function Same(e: Lifecycle.Event): Delivery.Event
    requires e.Tick? || e.ChangeEndpoints? || e.Enqueue? || e.Claim? || e.Replay? || e.Cleanup?
  {
    match e
    case Tick(now) => Delivery.Tick(now)
    case ChangeEndpoints(endpoints) => Delivery.ChangeEndpoints(endpoints)
    case Enqueue(id, jobType, payload, delayMs) => Delivery.Enqueue(id, jobType, payload, delayMs)
    case Claim(ids, _) => Delivery.Claim(ids)
    case Replay(ids) => Delivery.Replay(ids)
    case Cleanup(_, ids) => Delivery.Cleanup(ids)
  }

  lemma TableStepIsEnabled(o: Options, s: Lifecycle.State, d: Delivery.State, e: Lifecycle.Event)
    requires Simulates(s, d) && Lifecycle.Enabled(o, s, e)
    requires e.Tick? || e.ChangeEndpoints? || e.Enqueue? || e.Claim? || e.Replay? || e.Cleanup?
    ensures Delivery.Enabled(o, true, d, Same(e))
  {
    NobodyHolds(s, d);
  }

  lemma TableStep(o: Options, s: Lifecycle.State, d: Delivery.State, e: Lifecycle.Event)
    requires Simulates(s, d) && Lifecycle.Enabled(o, s, e)
    requires e.Tick? || e.ChangeEndpoints? || e.Enqueue? || e.Claim? || e.Replay? || e.Cleanup?
    ensures Delivery.Enabled(o, true, d, Same(e))
    ensures Simulates(Lifecycle.Apply(o, s, e), Delivery.Apply(o, true, d, Same(e)))
  {
    TableStepIsEnabled(o, s, d, e);
    var s' := Lifecycle.Apply(o, s, e);
    assert s'.queue == s.queue && s'.poisoned == s.poisoned;
    assert PoisonedConsumers(s') == PoisonedConsumers(s);
  }

  lemma DispatchStep(o: Options, s: Lifecycle.State, d: Delivery.State, id: JobId, m: nat, a: Attempt)
    returns (steps: seq<Delivery.Event>, d': Delivery.State)
    requires Simulates(s, d) && m !in s.queue && a.Possible() && s.poisoned <= s.queue.Keys
    ensures Delivery.Runs(o, true, d, steps, d') && Simulates(Lifecycle.ApplyDispatch(o, s, id, m, a), d')
  {
    assert PoisonedConsumers(Lifecycle.ApplyDispatch(o, s, id, m, a)) == PoisonedConsumers(s);
    if IsClaimed(s.t, id) {
      DispatchIsARun(o, d, 0, id, a);
      steps := DispatchSteps(0, id, a);
      d' := d.(t := DispatchRow(o, d.t, id, a, d.now),
               sent := if a.accepted then d.sent + {d.t.outbox[id].ToEnvelope(id)} else d.sent);
    } else {
      steps, d' := [], d;
    }
  }

  lemma DeliverStep(o: Options, s: Lifecycle.State, d: Delivery.State, m: nat, w: World)
    returns (steps: seq<Delivery.Event>, d': Delivery.State)
    requires Simulates(s, d) && m in s.queue && m !in s.poisoned && (s.queue[m].Some? ==> s.queue[m].value in s.sent)
    ensures Delivery.Runs(o, true, d, steps, d') && Simulates(Lifecycle.ApplyDeliver(s, m, w), d')
  {
    var s' := Lifecycle.ApplyDeliver(s, m, w);
    if s.queue[m].Some? {
      var e := Delivery.Consume(m, s.queue[m].value, w);
      Delivery.OneStep(o, true, d, e);
      steps, d' := [e], Delivery.Apply(o, true, d, e);
      assert PoisonedConsumers(s') == d'.consumers;
    } else {
      steps, d' := [], d;
      assert PoisonedConsumers(s') == d.consumers;
    }
  }

  lemma CondemnStep(o: Options, s: Lifecycle.State, d: Delivery.State, m: nat)
    returns (steps: seq<Delivery.Event>, d': Delivery.State)
    requires Simulates(s, d) && m in s.poisoned && m in s.queue
    ensures Delivery.Runs(o, true, d, steps, d') && Simulates(Lifecycle.ApplyCondemn(s, m), d')
  {
    var s' := Lifecycle.ApplyCondemn(s, m);
    assert PoisonedConsumers(s') == PoisonedConsumers(s) - {m};
    if s.queue[m].None? {
      assert PoisonedConsumers(s') == PoisonedConsumers(s);
      return [], d;
    }
    var look, mark := Delivery.LookUpPoison(m), Delivery.MarkDead(m, true);
    var d1 := Delivery.Apply(o, true, d, look);
    Delivery.OneStep(o, true, d, look);
    if Consumer.HasOpenJob(s.t, s.queue[m]) {
      d' := Delivery.Apply(o, true, d1, mark);
      Delivery.Extend(o, true, d, [look], d1, mark);
      steps := [look] + [mark];
      assert d'.consumers == d.consumers - {m};
    } else {
      steps, d' := [look], d1;
    }
  }

  lemma ReappearStep(o: Options, s: Lifecycle.State, d: Delivery.State, m: nat)
    returns (steps: seq<Delivery.Event>, d': Delivery.State)
    requires Simulates(s, d)
    ensures Delivery.Runs(o, true, d, steps, d')
    ensures Simulates(s.(finished := s.finished - {m}, poisoned := s.poisoned - {m}), d')
  {
    var s' := s.(finished := s.finished - {m}, poisoned := s.poisoned - {m});
    assert PoisonedConsumers(s') == PoisonedConsumers(s) - {m};
    if m in d.consumers {
      var e := Delivery.CrashConsumer(m);
      Delivery.OneStep(o, true, d, e);
      steps, d' := [e], Delivery.Apply(o, true, d, e);
    } else {
      steps, d' := [], d;
      assert PoisonedConsumers(s') == PoisonedConsumers(s);
    }
  }

  lemma QueueStep(o: Options, s: Lifecycle.State, d: Delivery.State, e: Lifecycle.Event)
    requires Simulates(s, d) && Lifecycle.Typed(s) && Lifecycle.Enabled(o, s, e) && (e.Intrude? || e.Delete?)
    ensures Simulates(Lifecycle.Apply(o, s, e), d)
  {
    assert PoisonedConsumers(Lifecycle.Apply(o, s, e)) == PoisonedConsumers(s);
  }

  lemma StepIsAFineRun(o: Options, s: Lifecycle.State, d: Delivery.State, e: Lifecycle.Event)
    returns (steps: seq<Delivery.Event>, d': Delivery.State)
    requires Simulates(s, d) && Lifecycle.Typed(s) && Lifecycle.Enabled(o, s, e)
    ensures Delivery.Runs(o, true, d, steps, d') && Simulates(Lifecycle.Apply(o, s, e), d')
  {
    match e {
      case Dispatch(id, m, a) => steps, d' := DispatchStep(o, s, d, id, m, a);
      case Deliver(m, w) => steps, d' := DeliverStep(o, s, d, m, w);
      case Condemn(m) => steps, d' := CondemnStep(o, s, d, m);
      case Reappear(m) => steps, d' := ReappearStep(o, s, d, m);
      case Intrude(_, _) =>
        QueueStep(o, s, d, e);
        steps, d' := [], d;
      case Delete(_) =>
        QueueStep(o, s, d, e);
        steps, d' := [], d;
      case _ =>
        TableStep(o, s, d, e);
        Delivery.OneStep(o, true, d, Same(e));
        steps, d' := [Same(e)], Delivery.Apply(o, true, d, Same(e));
    }
  }

  /** Every run of the lifecycle has a run of single reads, publishes and writes that ends with the same tables. */
  lemma {:induction false} CoarseRunIsAFineRun(o: Options, s: Lifecycle.State, events: seq<Lifecycle.Event>,
                                               s': Lifecycle.State, d: Delivery.State)
    returns (steps: seq<Delivery.Event>, d': Delivery.State)
    requires o.Valid() && Lifecycle.Inv(o, s) && Lifecycle.Runs(o, s, events, s') && Simulates(s, d)
    ensures Delivery.Runs(o, true, d, steps, d') && Simulates(s', d')
    decreases |events|
  {
    if events == [] {
      return [], d;
    }
    Lifecycle.StepKeepsInv(o, s, events[0]);
    var first, d1 := StepIsAFineRun(o, s, d, events[0]);
    var rest;
    rest, d' := CoarseRunIsAFineRun(o, Lifecycle.Apply(o, s, events[0]), events[1..], s', d1);
    Delivery.RunsConcat(o, true, d, first, d1, rest, d');
    steps := first + rest;
  }

  /** So the single-delivery theorem covers every state of the lifecycle too. */
  lemma CoarseStatesAreFine(o: Options, events: seq<Lifecycle.Event>, s: Lifecycle.State)
    returns (steps: seq<Delivery.Event>, d: Delivery.State)
    requires o.Valid() && Lifecycle.Runs(o, Lifecycle.Init(), events, s)
    ensures Delivery.Runs(o, true, Delivery.Init(), steps, d) && d.t == s.t
    ensures forall id :: d.delivered[id] <= 1
    ensures forall id :: id in s.t.outbox ==> (d.delivered[id] == 1 <==> s.t.outbox[id].status == Completed)
  {
    steps, d := CoarseRunIsAFineRun(o, Lifecycle.Init(), events, s, Delivery.Init());
    Delivery.RunKeepsInv(o, Delivery.Init(), steps, d);
    Lifecycle.RunKeepsInv(o, Lifecycle.Init(), events, s);
  }
}
