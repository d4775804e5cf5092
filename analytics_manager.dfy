/** The newer dispatcher: an `EventQueue` holding one array, a transport
    (`Service`) and an `AnalyticsManager` that pops batches, sends them and
    either acknowledges every event (`wasSent`) or puts the batch back.

    The actor isolation of both classes is modelled as sequential execution.
    The transport is an oracle: the outcomes its next `send` calls will have,
    in order. When a loop needs a send and no outcome is left, the model stops
    that loop and reports it unfinished: the run was cut off, it did not end. */
module Manager {
  import opened Events
  import opened EventBatching

  /** Everything one dispatch step reads or writes, as values. */
  datatype Snapshot = Snapshot(
    queue: seq<DelayedEvent>,          // `EventQueue.events`
    outcomes: seq<SendOutcome>,        // what the transport's next sends will end with
    received: seq<seq<DelayedEvent>>,  // every batch passed to `send`, in call order
    delivered: seq<DelayedEvent>)      // events of batches whose send succeeded: one per `wasSent()` call

  /** No event is lost or duplicated: each is either still queued or acknowledged. */
  predicate Conserves(s: Snapshot, r: Snapshot)
  {
    multiset(r.queue) + multiset(r.delivered) == multiset(s.queue) + multiset(s.delivered)
  }

  /** The batch the next `sendBatchOfEvents` pops: the front of the queue. */
  function NextBatch(queue: seq<DelayedEvent>, batchSize: nat): (batch: seq<DelayedEvent>)
    ensures |batch| <= batchSize && batch <= queue
    ensures |batch| == Min(|queue|, batchSize)
  {
    queue[..Min(|queue|, batchSize)]
  }

  /** `sendBatchOfEvents`: pop a batch, send it, then acknowledge every event of
      it on success or append the batch to the queue again on failure. */
  function SendBatch(s: Snapshot, batchSize: nat): (r: Snapshot)
    requires s.outcomes != []
    ensures Conserves(s, r)
    ensures r.outcomes == s.outcomes[1..]
    ensures r.received == s.received + [NextBatch(s.queue, batchSize)]
    ensures s.outcomes[0] == Sent ==>
      |r.queue| == |s.queue| - Min(|s.queue|, batchSize) && r.queue <= s.queue[|s.queue| - |r.queue|..]
    ensures s.outcomes[0] == Failed ==>
      |r.queue| == |s.queue| && multiset(r.queue) == multiset(s.queue) && r.delivered == s.delivered
  {
    var batch := NextBatch(s.queue, batchSize);
    var remaining := s.queue[|batch|..];
    assert s.queue == batch + remaining;
    match s.outcomes[0]
    case Sent => Snapshot(remaining, s.outcomes[1..], s.received + [batch], s.delivered + batch)
    case Failed => Snapshot(remaining + batch, s.outcomes[1..], s.received + [batch], s.delivered)
  }

  /** Every batch sent after the first `from` calls is non-empty. */
  predicate NoEmptyBatchSince(received: seq<seq<DelayedEvent>>, from: nat)
  {
    forall i :: from <= i < |received| ==> received[i] != []
  }

  /** The policy never holds on an empty queue. */
  lemma ShouldSendNeedsEvents(queue: seq<DelayedEvent>, now: Date)
    requires ShouldSendQueuedEvents(queue, now)
    ensures queue != []
  {
    ShouldSendQueuedEventsCharacterized(queue, now);
  }

  /** `sendQueuedEventsWhenNecessary`: send batches while the policy holds.
      The second component is false when the oracle ran out first. */
  function DrainWhileNecessary(s: Snapshot, batchSize: nat, now: Date): (r: (Snapshot, bool))
    ensures Conserves(s, r.0)
    ensures |s.received| <= |r.0.received| && r.0.received[..|s.received|] == s.received
    ensures |r.0.received| - |s.received| == |s.outcomes| - |r.0.outcomes|
    ensures r.1 ==> !ShouldSendQueuedEvents(r.0.queue, now)
    ensures !r.1 ==> r.0.outcomes == [] && ShouldSendQueuedEvents(r.0.queue, now)
    decreases |s.outcomes|
  {
    if !ShouldSendQueuedEvents(s.queue, now) then
      (s, true)
    else if s.outcomes == [] then
      (s, false)
    else
      ShouldSendNeedsEvents(s.queue, now);
      var next := SendBatch(s, batchSize);
      var r := DrainWhileNecessary(next, batchSize, now);
      assert r.0.received[..|next.received|][..|s.received|] == s.received;
      r
  }

  /** The policy loop never sends an empty batch: the policy is false on an
      empty queue, so every batch it sends is non-empty once the batch size is. */
  lemma {:induction false} DrainWhileNecessarySendsNoEmptyBatch(s: Snapshot, batchSize: nat, now: Date)
    requires batchSize >= 1
    ensures NoEmptyBatchSince(DrainWhileNecessary(s, batchSize, now).0.received, |s.received|)
    decreases |s.outcomes|
  {
    if ShouldSendQueuedEvents(s.queue, now) && s.outcomes != [] {
      ShouldSendNeedsEvents(s.queue, now);
      var next := SendBatch(s, batchSize);
      DrainWhileNecessarySendsNoEmptyBatch(next, batchSize, now);
      var r := DrainWhileNecessary(next, batchSize, now).0;
      assert r.received[..|next.received|] == next.received;
      forall i | |s.received| <= i < |r.received|
        ensures r.received[i] != []
      {
        if i == |s.received| {
          assert r.received[i] == next.received[i] == NextBatch(s.queue, batchSize);
        }
      }
    }
  }

  /** `forceSendingAllEvents`: send batches while the queue is not empty. */
  function DrainAll(s: Snapshot, batchSize: nat): (r: (Snapshot, bool))
    ensures Conserves(s, r.0)
    ensures |s.received| <= |r.0.received| && r.0.received[..|s.received|] == s.received
    ensures |r.0.received| - |s.received| == |s.outcomes| - |r.0.outcomes|
    ensures r.1 ==> r.0.queue == []
    ensures !r.1 ==> r.0.outcomes == [] && r.0.queue != []
    decreases |s.outcomes|
  {
    if s.queue == [] then
      (s, true)
    else if s.outcomes == [] then
      (s, false)
    else
      var next := SendBatch(s, batchSize);
      var r := DrainAll(next, batchSize);
      assert r.0.received[..|next.received|][..|s.received|] == s.received;
      r
  }

  /** The force loop never sends an empty batch: it checks for an empty queue first. */
  lemma {:induction false} DrainAllSendsNoEmptyBatch(s: Snapshot, batchSize: nat)
    requires batchSize >= 1
    ensures NoEmptyBatchSince(DrainAll(s, batchSize).0.received, |s.received|)
    decreases |s.outcomes|
  {
    if s.queue != [] && s.outcomes != [] {
      var next := SendBatch(s, batchSize);
      DrainAllSendsNoEmptyBatch(next, batchSize);
      var r := DrainAll(next, batchSize).0;
      assert r.received[..|next.received|] == next.received;
      forall i | |s.received| <= i < |r.received|
        ensures r.received[i] != []
      {
        if i == |s.received| {
          assert r.received[i] == next.received[i] == NextBatch(s.queue, batchSize);
        }
      }
    }
  }

  /** `logCustomEvent`: enqueue the event stamped with `now`, then send while necessary. */
  function Log(s: Snapshot, event: EventRef, now: Date, batchSize: nat): (r: (Snapshot, bool))
    ensures multiset(r.0.queue) + multiset(r.0.delivered)
         == multiset(s.queue) + multiset(s.delivered) + multiset{DelayedEvent(event, now)}
    ensures r.1 ==> !ShouldSendQueuedEvents(r.0.queue, now)
  {
    DrainWhileNecessary(s.(queue := s.queue + [DelayedEvent(event, now)]), batchSize, now)
  }

  // ---------------------------------------------------------------------------
  // Properties of the dispatch loops

  /** How many sends of at most `batchSize` events it takes to drain `count` events. */
  function SendsToDrain(count: nat, batchSize: nat): nat
    requires batchSize >= 1
  {
    if count == 0 then 0 else 1 + SendsToDrain(count - Min(count, batchSize), batchSize)
  }

  /** With every send succeeding and enough of them, force-sending finishes
      with an empty queue. */
  lemma {:induction false} DrainAllFinishes(s: Snapshot, batchSize: nat)
    requires batchSize >= 1
    requires AllAre(s.outcomes, Sent)
    requires SendsToDrain(|s.queue|, batchSize) <= |s.outcomes|
    ensures DrainAll(s, batchSize).1 && DrainAll(s, batchSize).0.queue == []
    decreases |s.outcomes|
  {
    if s.queue != [] {
      SuccessfulStep(s, batchSize);
      DrainAllFinishes(SendBatch(s, batchSize), batchSize);
    }
  }

  /** Under the same conditions every queued event is acknowledged exactly
      once, in queue order. */
  lemma {:induction false} DrainAllDeliversEverything(s: Snapshot, batchSize: nat)
    requires batchSize >= 1
    requires AllAre(s.outcomes, Sent)
    requires SendsToDrain(|s.queue|, batchSize) <= |s.outcomes|
    ensures DrainAll(s, batchSize).0.delivered == s.delivered + s.queue
    decreases |s.outcomes|
  {
    if s.queue != [] {
      var next := SendBatch(s, batchSize);
      SuccessfulStep(s, batchSize);
      DrainAllDeliversEverything(next, batchSize);
      AppendAssociates(s.delivered, NextBatch(s.queue, batchSize), next.queue);
    }
  }

  /** Concatenation of sequences is associative. */
  lemma AppendAssociates<T>(a: seq<T>, b: seq<T>, c: seq<T>)
    ensures (a + b) + c == a + (b + c)
  {
  }

  /** Under the same conditions the transport receives the queue cut into
      consecutive batches, in order. */
  lemma {:induction false} DrainAllSendsQueueInOrder(s: Snapshot, batchSize: nat)
    requires batchSize >= 1
    requires AllAre(s.outcomes, Sent)
    requires SendsToDrain(|s.queue|, batchSize) <= |s.outcomes|
    ensures Flatten(DrainAll(s, batchSize).0.received[|s.received|..]) == s.queue
    decreases |s.outcomes|
  {
    var r := DrainAll(s, batchSize).0;
    if s.queue == [] {
      assert r.received[|s.received|..] == [];
    } else {
      var next := SendBatch(s, batchSize);
      var batch := NextBatch(s.queue, batchSize);
      SuccessfulStep(s, batchSize);
      SuccessfulStepSendsFront(s, batchSize);
      DrainAllSendsQueueInOrder(next, batchSize);
      SuffixAfterPrefix(r.received, s.received, batch);
      FlattenCons(batch, r.received[|s.received| + 1..]);
    }
  }

  /** One successful send in the force loop: the batch leaves the front of the
      queue and the loop continues from the new state. */
  lemma SuccessfulStep(s: Snapshot, batchSize: nat)
    requires batchSize >= 1
    requires AllAre(s.outcomes, Sent)
    requires SendsToDrain(|s.queue|, batchSize) <= |s.outcomes|
    requires s.queue != []
    ensures s.outcomes != []
    ensures s.queue == NextBatch(s.queue, batchSize) + SendBatch(s, batchSize).queue
    ensures SendBatch(s, batchSize).delivered == s.delivered + NextBatch(s.queue, batchSize)
    ensures AllAre(SendBatch(s, batchSize).outcomes, Sent)
    ensures SendsToDrain(|SendBatch(s, batchSize).queue|, batchSize) <= |SendBatch(s, batchSize).outcomes|
    ensures DrainAll(s, batchSize) == DrainAll(SendBatch(s, batchSize), batchSize)
  {
    var next := SendBatch(s, batchSize);
    assert SendsToDrain(|s.queue|, batchSize) == 1 + SendsToDrain(|next.queue|, batchSize);
  }

  /** After that successful send, the first batch the transport received is the front of the queue. */
  lemma SuccessfulStepSendsFront(s: Snapshot, batchSize: nat)
    requires batchSize >= 1
    requires s.queue != [] && s.outcomes != []
    ensures DrainAll(s, batchSize).0.received[..|s.received| + 1] == s.received + [NextBatch(s.queue, batchSize)]
  {
    var next := SendBatch(s, batchSize);
    var r := DrainAll(next, batchSize).0;
    assert r.received[..|next.received|] == next.received;
  }

  lemma SuffixAfterPrefix(all: seq<seq<DelayedEvent>>, prefix: seq<seq<DelayedEvent>>, b: seq<DelayedEvent>)
    requires |prefix| + 1 <= |all| && all[..|prefix| + 1] == prefix + [b]
    ensures all[|prefix|..] == [b] + all[|prefix| + 1..]
  {
    assert all[|prefix|] == all[..|prefix| + 1][|prefix|];
  }

  function Flatten(batches: seq<seq<DelayedEvent>>): seq<DelayedEvent>
  {
    if batches == [] then [] else batches[0] + Flatten(batches[1..])
  }

  lemma FlattenCons(b: seq<DelayedEvent>, rest: seq<seq<DelayedEvent>>)
    ensures Flatten([b] + rest) == b + Flatten(rest)
  {
    assert ([b] + rest)[1..] == rest;
  }

  /** A transport that always fails never lets force-sending finish: each failed
      batch is appended again, the queue never shrinks, nothing is acknowledged. */
  lemma {:induction false} DrainAllWithFailingServiceNeverFinishes(s: Snapshot, batchSize: nat)
    requires AllAre(s.outcomes, Failed)
    requires s.queue != []
    ensures !DrainAll(s, batchSize).1
    ensures multiset(DrainAll(s, batchSize).0.queue) == multiset(s.queue)
    ensures DrainAll(s, batchSize).0.delivered == s.delivered
    decreases |s.outcomes|
  {
    if s.outcomes != [] {
      var next := SendBatch(s, batchSize);
      assert AllAre(next.outcomes, Failed);
      DrainAllWithFailingServiceNeverFinishes(next, batchSize);
    }
  }

  /** The same for the policy loop: a failed batch leaves the queue a permutation
      of itself, so the policy still holds and the loop sends again. */
  lemma {:induction false} DrainWhileNecessaryWithFailingServiceNeverFinishes(s: Snapshot, batchSize: nat, now: Date)
    requires AllAre(s.outcomes, Failed)
    requires ShouldSendQueuedEvents(s.queue, now)
    ensures !DrainWhileNecessary(s, batchSize, now).1
    ensures multiset(DrainWhileNecessary(s, batchSize, now).0.queue) == multiset(s.queue)
    ensures DrainWhileNecessary(s, batchSize, now).0.delivered == s.delivered
    decreases |s.outcomes|
  {
    if s.outcomes != [] {
      var next := SendBatch(s, batchSize);
      ShouldSendIgnoresOrder(s.queue, next.queue, now);
      assert AllAre(next.outcomes, Failed);
      DrainWhileNecessaryWithFailingServiceNeverFinishes(next, batchSize, now);
    }
  }

  /** A batch size of zero pops nothing, so force-sending a non-empty queue only
      ever sends empty batches and never finishes, even if every send succeeds. */
  lemma {:induction false} DrainAllWithZeroBatchSizeNeverFinishes(s: Snapshot)
    requires s.queue != []
    ensures !DrainAll(s, 0).1
    ensures DrainAll(s, 0).0.queue == s.queue
    decreases |s.outcomes|
  {
    if s.outcomes != [] {
      var next := SendBatch(s, 0);
      assert next.queue == s.queue;
      DrainAllWithZeroBatchSizeNeverFinishes(next);
    }
  }

  /** A batch that fails once and then succeeds reaches the transport twice,
      unchanged and in its original order, and is acknowledged only once. */
  lemma RetriedBatchIsResentUnchanged(s: Snapshot, batchSize: nat)
    requires 1 <= |s.queue| <= batchSize
    requires s.outcomes == [Failed, Sent]
    ensures DrainAll(s, batchSize) ==
      (Snapshot([], [], s.received + [s.queue, s.queue], s.delivered + s.queue), true)
  {
    FailedFirstBatch(s, batchSize, s.queue, []);
    assert [] + s.queue == s.queue;
    LastBatchEmptiesQueue(SendBatch(s, batchSize), batchSize);
    AppendAssociates(s.received, [s.queue], [s.queue]);
    assert [s.queue] + [s.queue] == [s.queue, s.queue];
  }

  /** A last batch that fits and is sent successfully empties the queue. */
  lemma LastBatchEmptiesQueue(s: Snapshot, batchSize: nat)
    requires 1 <= |s.queue| <= batchSize && s.outcomes == [Sent]
    ensures DrainAll(s, batchSize) == (Snapshot([], [], s.received + [s.queue], s.delivered + s.queue), true)
  {
    assert NextBatch(s.queue, batchSize) == s.queue;
    var next := SendBatch(s, batchSize);
    assert next == Snapshot([], [], s.received + [s.queue], s.delivered + s.queue);
    assert DrainAll(next, batchSize) == (next, true);
  }

  /** A full batch `p` and a last batch `q`, both sent successfully: the
      transport receives `p` then `q` and both are acknowledged in that order. */
  lemma TwoSuccessfulBatches(s: Snapshot, batchSize: nat, p: seq<DelayedEvent>, q: seq<DelayedEvent>)
    requires s.queue == p + q && |p| == batchSize && 1 <= |q| <= batchSize
    requires s.outcomes == [Sent, Sent]
    ensures DrainAll(s, batchSize) == (Snapshot([], [], s.received + [p, q], s.delivered + p + q), true)
  {
    assert NextBatch(s.queue, batchSize) == p && s.queue[|p|..] == q;
    var first := SendBatch(s, batchSize);
    assert first == Snapshot(q, [Sent], s.received + [p], s.delivered + p);
    LastBatchEmptiesQueue(first, batchSize);
    assert s.received + [p] + [q] == s.received + [p, q];
  }

  /** A full first batch `p` whose send fails goes behind `q`: the transport
      receives `p`, then `q`, then `p` again, and the queue ends empty. */
  lemma FailedBatchIsSentLast(s: Snapshot, batchSize: nat, p: seq<DelayedEvent>, q: seq<DelayedEvent>)
    requires s.queue == p + q && |p| == |q| == batchSize >= 1
    requires s.outcomes == [Failed, Sent, Sent]
    ensures DrainAll(s, batchSize) == (Snapshot([], [], s.received + [p, q, p], s.delivered + q + p), true)
  {
    FailedFirstBatch(s, batchSize, p, q);
    TwoSuccessfulBatches(SendBatch(s, batchSize), batchSize, q, p);
    AppendAssociates(s.received, [p], [q, p]);
    assert [p] + [q, p] == [p, q, p];
  }

  /** A failed send of the front batch `p` moves it behind the rest `q`,
      and the force loop carries on from there. */
  lemma FailedFirstBatch(s: Snapshot, batchSize: nat, p: seq<DelayedEvent>, q: seq<DelayedEvent>)
    requires s.queue == p + q && |p| == Min(|s.queue|, batchSize) && s.queue != []
    requires s.outcomes != [] && s.outcomes[0] == Failed
    ensures SendBatch(s, batchSize) == Snapshot(q + p, s.outcomes[1..], s.received + [p], s.delivered)
    ensures DrainAll(s, batchSize) == DrainAll(SendBatch(s, batchSize), batchSize)
  {
    assert NextBatch(s.queue, batchSize) == p && s.queue[|p|..] == q;
  }

  // ---------------------------------------------------------------------------
  // The objects

  /** The transport: `batchSize` and `send(events:for:)`. Each `send` consumes the
      next outcome and records the batch it was given. */
  class Service {
    const batchSize: int
    var outcomes: seq<SendOutcome>
    var received: seq<seq<DelayedEvent>>

    constructor(batchSize: int, outcomes: seq<SendOutcome>)
      ensures this.batchSize == batchSize && this.outcomes == outcomes && received == []
    {
      this.batchSize := batchSize;
      this.outcomes := outcomes;
      received := [];
    }

    method Send(events: seq<DelayedEvent>) returns (outcome: SendOutcome)
      requires outcomes != []
      modifies this
      ensures outcome == old(outcomes[0])
      ensures outcomes == old(outcomes[1..]) && received == old(received) + [events]
    {
      outcome := outcomes[0];
      outcomes := outcomes[1..];
      received := received + [events];
    }
  }

  /** `EventQueue`: the array of events waiting to be sent. */
  class EventQueue {
    var events: seq<DelayedEvent>

    constructor()
      ensures events == []
    {
      events := [];
    }

    /** `add(event:)`: appends one event after the existing ones. */
    method Add(event: DelayedEvent)
      modifies this
      ensures events == old(events) + [event]
    {
      events := events + [event];
    }

    /** `pop(batchSize:)`: removes and returns the front of the array. */
    method Pop(batchSize: int) returns (batch: seq<DelayedEvent>)
      requires batchSize >= 0
      modifies this
      ensures |batch| == Min(|old(events)|, batchSize)
      ensures batch + events == old(events)
    {
      batch, events := PopEvents(events, batchSize);
    }

    /** `reenqueue(events:)`: appends the given events, in their order. */
    method Reenqueue(batch: seq<DelayedEvent>)
      modifies this
      ensures events == old(events) + batch
    {
      events := events + batch;
    }
  }

  /** `AnalyticsManager`: drives a queue and a transport. `wasSentCalls` records
      every `wasSent()` call in order; `logged` is every event ever queued. */
  class AnalyticsManager {
    const service: Service
    const queue: EventQueue
    ghost var wasSentCalls: seq<DelayedEvent>
    ghost var logged: multiset<DelayedEvent>

    /** A non-negative batch size (a negative one traps in `popEvents`), and
        every event logged is either still queued or acknowledged. */
    ghost predicate Valid()
      reads this, queue
    {
      service.batchSize >= 0 &&
      multiset(queue.events) + multiset(wasSentCalls) == logged
    }

    ghost function State(): Snapshot
      reads this, queue, service
    {
      Snapshot(queue.events, service.outcomes, service.received, wasSentCalls)
    }

    constructor(service: Service, queue: EventQueue)
      requires service.batchSize >= 0
      ensures this.service == service && this.queue == queue
      ensures wasSentCalls == [] && Valid()
    {
      this.service := service;
      this.queue := queue;
      wasSentCalls := [];
      logged := multiset(queue.events);
    }

    /** `sendBatchOfEvents()`: one step of `SendBatch`. */
    method SendBatchOfEvents()
      requires Valid() && service.outcomes != []
      modifies this, queue, service
      ensures Valid() && logged == old(logged)
      ensures State() == SendBatch(old(State()), service.batchSize as nat)
    {
      var events := queue.Pop(service.batchSize);
      var outcome := service.Send(events);
      if outcome == Sent {
        for i := 0 to |events|
          invariant wasSentCalls == old(wasSentCalls) + events[..i]
          invariant logged == old(logged)
        {
          wasSentCalls := wasSentCalls + [events[i]];
        }
        assert events[..|events|] == events;
        assert multiset(old(queue.events)) == multiset(events) + multiset(queue.events);
      } else {
        queue.Reenqueue(events);
      }
    }

    /** `sendQueuedEventsWhenNecessary()`, with the clock fixed at `now`. */
    method SendQueuedEventsWhenNecessary(now: Date) returns (finished: bool)
      requires Valid()
      modifies this, queue, service
      ensures Valid() && logged == old(logged)
      ensures (State(), finished) == DrainWhileNecessary(old(State()), service.batchSize as nat, now)
    {
      while ShouldSendQueuedEvents(queue.events, now)
        invariant Valid() && logged == old(logged)
        invariant DrainWhileNecessary(State(), service.batchSize as nat, now)
               == DrainWhileNecessary(old(State()), service.batchSize as nat, now)
        decreases |service.outcomes|
      {
        if service.outcomes == [] {
          return false;
        }
        SendBatchOfEvents();
      }
      return true;
    }

    /** `forceSendingAllEvents()`: send batches until the queue is empty. */
    method ForceSendingAllEvents() returns (finished: bool)
      requires Valid()
      modifies this, queue, service
      ensures Valid() && logged == old(logged)
      ensures (State(), finished) == DrainAll(old(State()), service.batchSize as nat)
    {
      while queue.events != []
        invariant Valid() && logged == old(logged)
        invariant DrainAll(State(), service.batchSize as nat) == DrainAll(old(State()), service.batchSize as nat)
        decreases |service.outcomes|
      {
        if service.outcomes == [] {
          return false;
        }
        SendBatchOfEvents();
      }
      return true;
    }

    /** `logCustomEvent(_:)`: queue the event stamped `now`, then send while necessary. */
    method LogCustomEvent(event: EventRef, now: Date) returns (finished: bool)
      requires Valid()
      modifies this, queue, service
      ensures Valid() && logged == old(logged) + multiset{DelayedEvent(event, now)}
      ensures (State(), finished) == Log(old(State()), event, now, service.batchSize as nat)
    {
      queue.Add(DelayedEvent(event, now));
      logged := logged + multiset{DelayedEvent(event, now)};
      finished := SendQueuedEventsWhenNecessary(now);
    }
  }

  // ---------------------------------------------------------------------------
  // The two manager scenarios exercised by the package's tests

  /** Fewer than ten events, none of them 300 s old, do not trigger sending. */
  lemma RecentEventsDoNotTriggerSending(queue: seq<DelayedEvent>, now: Date)
    requires |queue| < CountThreshold
    requires forall i :: 0 <= i < |queue| ==> queue[i].timeEventOccurred > now - StalenessSeconds
    ensures !ShouldSendQueuedEvents(queue, now)
  {
    ShouldSendQueuedEventsCharacterized(queue, now);
  }

  /** A send never adds events to the queue: whatever is queued afterwards was queued before. */
  lemma SendBatchKeepsOnlyQueued(s: Snapshot, batchSize: nat)
    requires s.outcomes != []
    ensures forall e :: e in SendBatch(s, batchSize).queue ==> e in s.queue
  {
    var next := SendBatch(s, batchSize);
    forall e | e in next.queue
      ensures e in s.queue
    {
      if s.outcomes[0] == Sent {
        var i :| 0 <= i < |next.queue| && next.queue[i] == e;
        assert e == s.queue[|s.queue| - |next.queue| + i];
      } else {
        assert e in multiset(next.queue);
      }
    }
  }

  /** Going from `s` to `r`, at least one more batch was sent, and the outcome
      of the last send was `Sent`. */
  predicate LastSendSucceeded(s: Snapshot, r: Snapshot)
  {
    |s.received| < |r.received| && |r.outcomes| < |s.outcomes| &&
    s.outcomes[|s.outcomes| - |r.outcomes| - 1] == Sent
  }

  /** The queue just before the last send, when that send succeeded: the batch
      it took followed by what it left. */
  function QueueBeforeLastSend(r: Snapshot): seq<DelayedEvent>
    requires r.received != []
  {
    r.received[|r.received| - 1] + r.queue
  }

  /** A send records one more batch, popped from the queue it was sent from:
      the queue afterwards and that batch together are at least that queue,
      and after a successful send they are exactly that queue. */
  lemma SendBatchPopsFromQueue(s: Snapshot, batchSize: nat)
    requires s.outcomes != []
    ensures |SendBatch(s, batchSize).received| == |s.received| + 1
    ensures |SendBatch(s, batchSize).queue| + |SendBatch(s, batchSize).received[|s.received|]| >= |s.queue|
    ensures s.outcomes[0] == Sent ==>
      SendBatch(s, batchSize).received[|s.received|] + SendBatch(s, batchSize).queue == s.queue
  {
    assert SendBatch(s, batchSize).received[|s.received|] == NextBatch(s.queue, batchSize);
  }

  /** A failed send puts the same events back, so the policy decides as before. */
  lemma FailedSendKeepsDecision(s: Snapshot, batchSize: nat, now: Date)
    requires s.outcomes != []
    ensures s.outcomes[0] == Failed ==>
      ShouldSendQueuedEvents(SendBatch(s, batchSize).queue, now) == ShouldSendQueuedEvents(s.queue, now)
  {
    if s.outcomes[0] == Failed {
      ShouldSendIgnoresOrder(SendBatch(s, batchSize).queue, s.queue, now);
    }
  }

  /** The last send of a run that starts after one more send is also the last
      send of the longer run. */
  lemma LastSendSucceededAfterStep(s: Snapshot, next: Snapshot, r: Snapshot)
    requires s.outcomes != [] && next.outcomes == s.outcomes[1..]
    requires |next.received| == |s.received| + 1
    requires LastSendSucceeded(next, r)
    ensures LastSendSucceeded(s, r)
  {
    assert s.outcomes[|s.outcomes| - |r.outcomes| - 1] == next.outcomes[|next.outcomes| - |r.outcomes| - 1];
  }

  /** The policy loop stops at the first state where the policy fails. A queue
      on which it fails is left alone. Otherwise, when the loop finishes, its
      last send succeeded and was popped from a queue on which the policy
      still held, so no batch is sent once the policy has turned false. */
  lemma {:induction false} DrainWhileNecessaryStopsAtFirstDrop(s: Snapshot, batchSize: nat, now: Date)
    ensures !ShouldSendQueuedEvents(s.queue, now) ==> DrainWhileNecessary(s, batchSize, now) == (s, true)
    ensures ShouldSendQueuedEvents(s.queue, now) && DrainWhileNecessary(s, batchSize, now).1 ==>
      LastSendSucceeded(s, DrainWhileNecessary(s, batchSize, now).0) &&
      ShouldSendQueuedEvents(QueueBeforeLastSend(DrainWhileNecessary(s, batchSize, now).0), now)
    decreases |s.outcomes|
  {
    var r := DrainWhileNecessary(s, batchSize, now);
    if ShouldSendQueuedEvents(s.queue, now) {
      if s.outcomes == [] {
        assert r == (s, false);
      } else {
        var next := SendBatch(s, batchSize);
        var rest := DrainWhileNecessary(next, batchSize, now);
        DrainWhileNecessaryStopsAtFirstDrop(next, batchSize, now);
        SendBatchPopsFromQueue(s, batchSize);
        FailedSendKeepsDecision(s, batchSize, now);
        assert r == rest;
        if !ShouldSendQueuedEvents(next.queue, now) {
          assert rest == (next, true);
          assert QueueBeforeLastSend(next) == s.queue;
        } else if rest.1 {
          LastSendSucceededAfterStep(s, next, rest.0);
        }
      }
    }
  }

  /** Logging one event on a fresh manager queues it and sends nothing. */
  method LogOneEventScenario(event: EventRef, now: Date)
    returns (queued: seq<DelayedEvent>, sent: seq<seq<DelayedEvent>>, finished: bool)
    ensures queued == [DelayedEvent(event, now)] && sent == [] && finished
  {
    var service := new Service(2, []);
    var queue := new EventQueue();
    var manager := new AnalyticsManager(service, queue);
    RecentEventsDoNotTriggerSending([DelayedEvent(event, now)], now);
    finished := manager.LogCustomEvent(event, now);
    queued, sent := queue.events, service.received;
  }

  /** Below ten recent events, logging one more only queues it. */
  lemma LogQueuesOnly(s: Snapshot, event: EventRef, now: Date, batchSize: nat)
    requires |s.queue| + 1 < CountThreshold
    requires forall i :: 0 <= i < |s.queue| ==> s.queue[i].timeEventOccurred > now - StalenessSeconds
    ensures Log(s, event, now, batchSize) == (s.(queue := s.queue + [DelayedEvent(event, now)]), true)
  {
    RecentEventsDoNotTriggerSending(s.queue + [DelayedEvent(event, now)], now);
  }

  /** Ten queued events and a batch size of at least ten: one successful send
      delivers them all and the policy loop stops. */
  lemma TenthEventSendsAll(queue: seq<DelayedEvent>, now: Date, batchSize: nat)
    requires |queue| == CountThreshold <= batchSize
    ensures DrainWhileNecessary(Snapshot(queue, [Sent], [], []), batchSize, now)
         == (Snapshot([], [], [queue], queue), true)
  {
    var s := Snapshot(queue, [Sent], [], []);
    assert NextBatch(queue, batchSize) == queue;
    var next := SendBatch(s, batchSize);
    assert next == Snapshot([], [], [queue], queue);
    EmptyNeverSends(now);
    assert DrainWhileNecessary(next, batchSize, now) == (next, true);
  }

  /** Logging the same event ten times with a batch size of 20: the tenth call
      sends all ten in one batch and leaves the queue empty. */
  method LogTenEventsScenario(event: EventRef, now: Date)
    returns (queued: seq<DelayedEvent>, sent: seq<seq<DelayedEvent>>, finished: bool)
    ensures queued == [] && sent == [seq(10, _ => DelayedEvent(event, now))] && finished
  {
    var e := DelayedEvent(event, now);
    var service := new Service(20, [Sent]);
    var queue := new EventQueue();
    var manager := new AnalyticsManager(service, queue);
    var i := 0;
    while i < 9
      invariant 0 <= i <= 9 && manager.Valid()
      invariant queue.events == seq(i, _ => e)
      invariant service.outcomes == [Sent] && service.received == [] && manager.wasSentCalls == []
    {
      LogQueuesOnly(manager.State(), event, now, 20);
      assert queue.events + [e] == seq(i + 1, _ => e);
      finished := manager.LogCustomEvent(event, now);
      i := i + 1;
    }
    var ten := seq(10, _ => e);
    assert queue.events + [e] == ten;
    TenthEventSendsAll(ten, now, 20);
    finished := manager.LogCustomEvent(event, now);
    queued, sent := queue.events, service.received;
  }
}
