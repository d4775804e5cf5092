/** The older `BatchSendingAnalyticsService` base class: one queue of events,
    a tracking switch, a user id and two loops that pop and send batches.

    Sending belongs to a subclass. Its `send(events:)` either returns normally
    (`Sent`) or hands the same events back through `sendingFailed(for:)`
    (`Failed`), which appends them to the queue again. That is exactly the
    step `Manager.SendBatch` describes, so the force loop is `Manager.DrainAll`;
    only the policy loop differs, because this class's policy is a count. */
module LegacyBatching {
  import opened Events
  import opened EventBatching
  import opened Manager

  /** Identity of a `UUID` value. */
  type UUID = nat

  /** `sendQueuedEvents()`: send batches while `shouldSendQueuedEvents()`, that
      is while at least `threshold` events are queued. The second component is
      false when the transport's outcomes ran out first. */
  function DrainWhileAtThreshold(s: Snapshot, batchSize: nat, threshold: int): (r: (Snapshot, bool))
    ensures Conserves(s, r.0)
    ensures |s.received| <= |r.0.received| && r.0.received[..|s.received|] == s.received
    ensures |r.0.received| - |s.received| == |s.outcomes| - |r.0.outcomes|
    ensures r.1 ==> |r.0.queue| < threshold
    ensures !r.1 ==> r.0.outcomes == [] && |r.0.queue| >= threshold
    decreases |s.outcomes|
  {
    if |s.queue| < threshold then
      (s, true)
    else if s.outcomes == [] then
      (s, false)
    else
      var next := SendBatch(s, batchSize);
      var r := DrainWhileAtThreshold(next, batchSize, threshold);
      assert r.0.received[..|next.received|][..|s.received|] == s.received;
      r
  }

  /** `logCustomEvent(_:)`: nothing while tracking is disabled; otherwise queue
      the event stamped `now` and, if the policy holds, send while it does. */
  function LogIfEnabled(s: Snapshot, enabled: bool, event: EventRef, now: Date, batchSize: nat, threshold: int): (r: (Snapshot, bool))
    ensures !enabled ==> r == (s, true)
    ensures enabled ==> r == DrainWhileAtThreshold(s.(queue := s.queue + [DelayedEvent(event, now)]), batchSize, threshold)
  {
    if !enabled then
      (s, true)
    else
      var queued := s.(queue := s.queue + [DelayedEvent(event, now)]);
      if |queued.queue| >= threshold then DrainWhileAtThreshold(queued, batchSize, threshold) else (queued, true)
  }

  /** With every send succeeding and enough of them, the policy loop sends the
      front of the queue and keeps a tail shorter than the threshold: the
      delivered events followed by the kept ones are the queue as it was. */
  lemma {:induction false} DrainWhileAtThresholdKeepsTail(s: Snapshot, batchSize: nat, threshold: int)
    requires batchSize >= 1 && threshold >= 1
    requires AllAre(s.outcomes, Sent)
    requires SendsToDrain(|s.queue|, batchSize) <= |s.outcomes|
    ensures DrainWhileAtThreshold(s, batchSize, threshold).1
    ensures DrainWhileAtThreshold(s, batchSize, threshold).0.delivered
          + DrainWhileAtThreshold(s, batchSize, threshold).0.queue == s.delivered + s.queue
    decreases |s.outcomes|
  {
    if |s.queue| >= threshold {
      var next := SendBatch(s, batchSize);
      var batch := NextBatch(s.queue, batchSize);
      assert SendsToDrain(|s.queue|, batchSize) == 1 + SendsToDrain(|next.queue|, batchSize);
      assert s.outcomes != [];
      assert s.queue == batch + next.queue;
      assert next.delivered + next.queue == s.delivered + s.queue;
      assert AllAre(next.outcomes, Sent);
      DrainWhileAtThresholdKeepsTail(next, batchSize, threshold);
      assert DrainWhileAtThreshold(s, batchSize, threshold) == DrainWhileAtThreshold(next, batchSize, threshold);
    }
  }

  /** The policy loop stops at the first state below the threshold. A queue
      already below it is left alone. Otherwise, when the loop finishes, its
      last send succeeded and was popped from a queue at or above the
      threshold, so no batch is sent once the queue is below it. This holds
      for any outcomes. */
  lemma {:induction false} DrainWhileAtThresholdStopsAtFirstDrop(s: Snapshot, batchSize: nat, threshold: int)
    ensures |s.queue| < threshold ==> DrainWhileAtThreshold(s, batchSize, threshold) == (s, true)
    ensures |s.queue| >= threshold && DrainWhileAtThreshold(s, batchSize, threshold).1 ==>
      LastSendSucceeded(s, DrainWhileAtThreshold(s, batchSize, threshold).0) &&
      |QueueBeforeLastSend(DrainWhileAtThreshold(s, batchSize, threshold).0)| >= threshold
    decreases |s.outcomes|
  {
    var r := DrainWhileAtThreshold(s, batchSize, threshold);
    if |s.queue| >= threshold {
      if s.outcomes == [] {
        assert r == (s, false);
      } else {
        var next := SendBatch(s, batchSize);
        var rest := DrainWhileAtThreshold(next, batchSize, threshold);
        DrainWhileAtThresholdStopsAtFirstDrop(next, batchSize, threshold);
        SendBatchPopsFromQueue(s, batchSize);
        assert r == rest;
        if |next.queue| < threshold {
          assert rest == (next, true);
          assert QueueBeforeLastSend(next) == s.queue;
        } else if rest.1 {
          LastSendSucceededAfterStep(s, next, rest.0);
        }
      }
    }
  }

  /** A threshold of zero or less holds even on an empty queue, so the policy
      loop never finishes: once the queue is empty it sends empty batches. */
  lemma {:induction false} NonPositiveThresholdNeverFinishes(s: Snapshot, batchSize: nat, threshold: int)
    requires threshold <= 0
    ensures !DrainWhileAtThreshold(s, batchSize, threshold).1
    decreases |s.outcomes|
  {
    if s.outcomes != [] {
      NonPositiveThresholdNeverFinishes(SendBatch(s, batchSize), batchSize, threshold);
    }
  }

  /** `BatchSendingAnalyticsService` together with the subclass's transport:
      `outcomes` is what its next `send(events:)` calls will do and
      `sentBatches` every batch passed to it. `threshold` is the count at which
      `shouldSendQueuedEvents()` holds: 10 in the base class, any value in a
      subclass that overrides it with another count. */
  class BatchSendingAnalyticsService {
    var queuedEvents: seq<DelayedEvent>
    var trackingEnabled: bool
    var userID: Option<UUID>
    const sendBatchSize: int
    const threshold: int
    var outcomes: seq<SendOutcome>
    var sentBatches: seq<seq<DelayedEvent>>
    ghost var delivered: seq<DelayedEvent>
    ghost var logged: multiset<DelayedEvent>

    /** A non-negative batch size (a negative one traps when the range is
        formed), and every logged event is still queued or was delivered. */
    ghost predicate Valid()
      reads this
    {
      sendBatchSize >= 0 &&
      multiset(queuedEvents) + multiset(delivered) == logged
    }

    ghost function State(): Snapshot
      reads this
    {
      Snapshot(queuedEvents, outcomes, sentBatches, delivered)
    }

    /** `init(sendBatchSize:)`: empty queue, tracking off, no user id, the default policy. */
    constructor(sendBatchSize: int, outcomes: seq<SendOutcome>)
      requires sendBatchSize >= 0
      ensures queuedEvents == [] && !trackingEnabled && userID == None
      ensures this.sendBatchSize == sendBatchSize && threshold == CountThreshold
      ensures this.outcomes == outcomes && sentBatches == [] && delivered == [] && Valid()
    {
      queuedEvents := [];
      trackingEnabled := false;
      userID := None;
      this.sendBatchSize := sendBatchSize;
      threshold := CountThreshold;
      this.outcomes := outcomes;
      sentBatches := [];
      delivered := [];
      logged := multiset{};
    }

    /** A subclass that overrides `shouldSendQueuedEvents()` with its own count. */
    constructor WithThreshold(sendBatchSize: int, threshold: int, outcomes: seq<SendOutcome>)
      requires sendBatchSize >= 0
      ensures queuedEvents == [] && !trackingEnabled && userID == None
      ensures this.sendBatchSize == sendBatchSize && this.threshold == threshold
      ensures this.outcomes == outcomes && sentBatches == [] && delivered == [] && Valid()
    {
      queuedEvents := [];
      trackingEnabled := false;
      userID := None;
      this.sendBatchSize := sendBatchSize;
      this.threshold := threshold;
      this.outcomes := outcomes;
      sentBatches := [];
      delivered := [];
      logged := multiset{};
    }

    /** `shouldSendQueuedEvents()`: at least `threshold` events are queued. */
    predicate ShouldSendQueuedEvents(): (r: bool)
      reads this
      ensures |queuedEvents| >= threshold ==> r
      ensures threshold >= 1 && queuedEvents == [] ==> !r
    {
      |queuedEvents| >= threshold
    }

    /** `sendingFailed(for:)`: the events go back to the end of the queue, unchanged. */
    method SendingFailed(events: seq<DelayedEvent>)
      modifies this
      ensures queuedEvents == old(queuedEvents) + events
      ensures trackingEnabled == old(trackingEnabled) && userID == old(userID)
      ensures outcomes == old(outcomes) && sentBatches == old(sentBatches)
      ensures delivered == old(delivered) && logged == old(logged)
    {
      queuedEvents := queuedEvents + events;
    }

    /** The subclass's `send(events:)`: it either succeeds or reports the same
        events back through `sendingFailed(for:)`. */
    method Send(events: seq<DelayedEvent>)
      requires outcomes != []
      modifies this
      ensures sentBatches == old(sentBatches) + [events] && outcomes == old(outcomes[1..])
      ensures old(outcomes[0]) == Sent ==> queuedEvents == old(queuedEvents) && delivered == old(delivered) + events
      ensures old(outcomes[0]) == Failed ==> queuedEvents == old(queuedEvents) + events && delivered == old(delivered)
      ensures trackingEnabled == old(trackingEnabled) && userID == old(userID) && logged == old(logged)
    {
      var outcome := outcomes[0];
      outcomes := outcomes[1..];
      sentBatches := sentBatches + [events];
      if outcome == Sent {
        delivered := delivered + events;
      } else {
        SendingFailed(events);
      }
    }

    /** `sendBatchOfEvents()`: take the first `min(count, sendBatchSize)` events
        off the queue and send them, even when there are none. */
    method SendBatchOfEvents()
      requires Valid() && outcomes != []
      modifies this
      ensures Valid() && logged == old(logged)
      ensures trackingEnabled == old(trackingEnabled) && userID == old(userID)
      ensures State() == SendBatch(old(State()), sendBatchSize as nat)
    {
      var events;
      events, queuedEvents := PopEvents(queuedEvents, sendBatchSize);
      Send(events);
      assert multiset(old(queuedEvents)) == multiset(events) + multiset(old(queuedEvents)[|events|..]);
    }

    /** `sendQueuedEvents()`. */
    method SendQueuedEvents() returns (finished: bool)
      requires Valid()
      modifies this
      ensures Valid() && logged == old(logged)
      ensures trackingEnabled == old(trackingEnabled) && userID == old(userID)
      ensures (State(), finished) == DrainWhileAtThreshold(old(State()), sendBatchSize as nat, threshold)
    {
      while ShouldSendQueuedEvents()
        invariant Valid() && logged == old(logged)
        invariant trackingEnabled == old(trackingEnabled) && userID == old(userID)
        invariant DrainWhileAtThreshold(State(), sendBatchSize as nat, threshold)
               == DrainWhileAtThreshold(old(State()), sendBatchSize as nat, threshold)
        decreases |outcomes|
      {
        if outcomes == [] {
          return false;
        }
        SendBatchOfEvents();
      }
      return true;
    }

    /** `forceSendingAllEvents()`. */
    method ForceSendingAllEvents() returns (finished: bool)
      requires Valid()
      modifies this
      ensures Valid() && logged == old(logged)
      ensures trackingEnabled == old(trackingEnabled) && userID == old(userID)
      ensures (State(), finished) == DrainAll(old(State()), sendBatchSize as nat)
    {
      while queuedEvents != []
        invariant Valid() && logged == old(logged)
        invariant trackingEnabled == old(trackingEnabled) && userID == old(userID)
        invariant DrainAll(State(), sendBatchSize as nat) == DrainAll(old(State()), sendBatchSize as nat)
        decreases |outcomes|
      {
        if outcomes == [] {
          return false;
        }
        SendBatchOfEvents();
      }
      return true;
    }

    /** `set(enabled:)`: writes the tracking switch and nothing else. */
    method SetEnabled(enabled: bool)
      modifies this
      ensures trackingEnabled == enabled
      ensures queuedEvents == old(queuedEvents) && userID == old(userID)
      ensures outcomes == old(outcomes) && sentBatches == old(sentBatches)
      ensures delivered == old(delivered) && logged == old(logged)
    {
      trackingEnabled := enabled;
    }

    /** `configure(userID:)`: writes the user id and nothing else. */
    method Configure(userID: UUID)
      modifies this
      ensures this.userID == Some(userID)
      ensures queuedEvents == old(queuedEvents) && trackingEnabled == old(trackingEnabled)
      ensures outcomes == old(outcomes) && sentBatches == old(sentBatches)
      ensures delivered == old(delivered) && logged == old(logged)
    {
      this.userID := Some(userID);
    }

    /** `logCustomEvent(_:)` at time `now`. */
    method LogCustomEvent(event: EventRef, now: Date) returns (finished: bool)
      requires Valid()
      modifies this
      ensures Valid() && trackingEnabled == old(trackingEnabled) && userID == old(userID)
      ensures logged == if old(trackingEnabled) then old(logged) + multiset{DelayedEvent(event, now)} else old(logged)
      ensures (State(), finished) == LogIfEnabled(old(State()), old(trackingEnabled), event, now, sendBatchSize as nat, threshold)
    {
      if !trackingEnabled {
        return true;
      }
      queuedEvents := queuedEvents + [DelayedEvent(event, now)];
      logged := logged + multiset{DelayedEvent(event, now)};
      if ShouldSendQueuedEvents() {
        finished := SendQueuedEvents();
      } else {
        finished := true;
      }
    }
  }

  // ---------------------------------------------------------------------------
  // The four scenarios exercised by the package's tests: a subclass with batch
  // size 2 that enables tracking on creation, logging events 0, 1, 2, ... at `now`.

  /** Below the threshold, logging only appends the event. */
  lemma LoggingBelowThresholdOnlyQueues(s: Snapshot, event: EventRef, now: Date, batchSize: nat, threshold: int)
    requires |s.queue| + 1 < threshold
    ensures LogIfEnabled(s, true, event, now, batchSize, threshold) == (s.(queue := s.queue + [DelayedEvent(event, now)]), true)
  {
  }

  /** A queue of at least `threshold` events whose first full batch `p`
      leaves fewer than `threshold`: one successful send of `p` and the loop stops. */
  lemma OneBatchBringsBelowThreshold(s: Snapshot, batchSize: nat, threshold: int, p: seq<DelayedEvent>, q: seq<DelayedEvent>)
    requires s.queue == p + q && |p| == batchSize && |q| < threshold <= |s.queue|
    requires s.outcomes == [Sent]
    ensures DrainWhileAtThreshold(s, batchSize, threshold) == (Snapshot(q, [], s.received + [p], s.delivered + p), true)
  {
    assert NextBatch(s.queue, batchSize) == p && s.queue[|p|..] == q;
    var next := SendBatch(s, batchSize);
    assert next == Snapshot(q, [], s.received + [p], s.delivered + p);
    assert DrainWhileAtThreshold(next, batchSize, threshold) == (next, true);
  }

  /** Logging the event that brings the queue to the threshold sends one full
      batch `p` from the front; the rest `q`, now below the threshold, stays. */
  lemma LogAtThresholdSendsOneBatch(s: Snapshot, event: EventRef, now: Date, batchSize: nat, threshold: int,
                                    p: seq<DelayedEvent>, q: seq<DelayedEvent>)
    requires s.queue + [DelayedEvent(event, now)] == p + q
    requires |p| == batchSize && |q| < threshold <= |p| + |q|
    requires s.outcomes == [Sent]
    ensures LogIfEnabled(s, true, event, now, batchSize, threshold)
         == (Snapshot(q, [], s.received + [p], s.delivered + p), true)
  {
    OneBatchBringsBelowThreshold(s.(queue := p + q), batchSize, threshold, p, q);
  }

  /** Tracking starts disabled: logging on a new service queues and sends nothing. */
  method DisabledScenario(now: Date)
    returns (queued: seq<DelayedEvent>, sent: seq<seq<DelayedEvent>>, finished: bool)
    ensures queued == [] && sent == [] && finished
  {
    var service := new BatchSendingAnalyticsService(2, [Sent]);
    finished := service.LogCustomEvent(0, now);
    queued, sent := service.queuedEvents, service.sentBatches;
  }

  /** Two events under a threshold of 3 stay queued; nothing is sent. */
  method BelowThresholdScenario(now: Date)
    returns (queued: seq<DelayedEvent>, sent: seq<seq<DelayedEvent>>)
    ensures queued == [DelayedEvent(0, now), DelayedEvent(1, now)] && sent == []
  {
    var service := new BatchSendingAnalyticsService.WithThreshold(2, 3, []);
    service.SetEnabled(true);
    LoggingBelowThresholdOnlyQueues(service.State(), 0, now, 2, 3);
    var _ := service.LogCustomEvent(0, now);
    LoggingBelowThresholdOnlyQueues(service.State(), 1, now, 2, 3);
    var _ := service.LogCustomEvent(1, now);
    queued, sent := service.queuedEvents, service.sentBatches;
  }

  /** Logs events 0 to 2 with tracking on and nothing queued or sent yet, under
      a threshold above 3: the three events are only queued. */
  method LogThree(service: BatchSendingAnalyticsService, now: Date)
    requires service.Valid() && service.trackingEnabled && service.threshold > 3
    requires service.queuedEvents == [] && service.sentBatches == [] && service.delivered == []
    modifies service
    ensures service.Valid() && service.trackingEnabled
    ensures service.outcomes == old(service.outcomes) && service.sentBatches == [] && service.delivered == []
    ensures service.queuedEvents == [DelayedEvent(0, now), DelayedEvent(1, now), DelayedEvent(2, now)]
  {
    LoggingBelowThresholdOnlyQueues(service.State(), 0, now, service.sendBatchSize as nat, service.threshold);
    var _ := service.LogCustomEvent(0, now);
    LoggingBelowThresholdOnlyQueues(service.State(), 1, now, service.sendBatchSize as nat, service.threshold);
    var _ := service.LogCustomEvent(1, now);
    LoggingBelowThresholdOnlyQueues(service.State(), 2, now, service.sendBatchSize as nat, service.threshold);
    var _ := service.LogCustomEvent(2, now);
  }

  /** Four events under a threshold of 4: the fourth triggers one batch of two,
      and the two later events stay queued. */
  method ThresholdHitScenario(now: Date)
    returns (queued: seq<DelayedEvent>, sent: seq<seq<DelayedEvent>>, finished: bool)
    ensures queued == [DelayedEvent(2, now), DelayedEvent(3, now)]
    ensures sent == [[DelayedEvent(0, now), DelayedEvent(1, now)]] && finished
  {
    var service := new BatchSendingAnalyticsService.WithThreshold(2, 4, [Sent]);
    service.SetEnabled(true);
    LogThree(service, now);
    assert service.State() == Snapshot([DelayedEvent(0, now), DelayedEvent(1, now), DelayedEvent(2, now)], [Sent], [], []);
    assert service.queuedEvents + [DelayedEvent(3, now)]
        == [DelayedEvent(0, now), DelayedEvent(1, now)] + [DelayedEvent(2, now), DelayedEvent(3, now)];
    LogAtThresholdSendsOneBatch(service.State(), 3, now, 2, 4,
      [DelayedEvent(0, now), DelayedEvent(1, now)], [DelayedEvent(2, now), DelayedEvent(3, now)]);
    finished := service.LogCustomEvent(3, now);
    queued, sent := service.queuedEvents, service.sentBatches;
  }

  /** Logs events 0 to 3 under the default threshold: all four stay queued. */
  method LogFourBelowDefault(service: BatchSendingAnalyticsService, now: Date)
    requires service.Valid() && service.trackingEnabled && service.threshold == CountThreshold
    requires service.queuedEvents == [] && service.sentBatches == [] && service.delivered == []
    modifies service
    ensures service.Valid()
    ensures service.outcomes == old(service.outcomes) && service.sentBatches == [] && service.delivered == []
    ensures service.queuedEvents == [DelayedEvent(0, now), DelayedEvent(1, now), DelayedEvent(2, now), DelayedEvent(3, now)]
  {
    LogThree(service, now);
    LoggingBelowThresholdOnlyQueues(service.State(), 3, now, service.sendBatchSize as nat, service.threshold);
    var _ := service.LogCustomEvent(3, now);
  }

  /** Force-sending four queued events with two successful sends delivers them
      in two batches of two and empties the queue. */
  method ForceSendingAllScenario(now: Date)
    returns (queued: seq<DelayedEvent>, sent: seq<seq<DelayedEvent>>, finished: bool)
    ensures queued == [] && finished
    ensures sent == [[DelayedEvent(0, now), DelayedEvent(1, now)], [DelayedEvent(2, now), DelayedEvent(3, now)]]
  {
    var service := new BatchSendingAnalyticsService(2, [Sent, Sent]);
    service.SetEnabled(true);
    LogFourBelowDefault(service, now);
    var s := service.State();
    assert s.queue == [DelayedEvent(0, now), DelayedEvent(1, now)] + [DelayedEvent(2, now), DelayedEvent(3, now)];
    TwoSuccessfulBatches(s, 2, [DelayedEvent(0, now), DelayedEvent(1, now)], [DelayedEvent(2, now), DelayedEvent(3, now)]);
    finished := service.ForceSendingAllEvents();
    queued, sent := service.queuedEvents, service.sentBatches;
  }

  /** As above, but the first send reports its batch back as failed: that batch
      goes behind the other two events and is sent again last; the queue ends empty. */
  method SendingFailureScenario(now: Date)
    returns (queued: seq<DelayedEvent>, sent: seq<seq<DelayedEvent>>, finished: bool)
    ensures queued == [] && finished
    ensures sent == [[DelayedEvent(0, now), DelayedEvent(1, now)], [DelayedEvent(2, now), DelayedEvent(3, now)],
                     [DelayedEvent(0, now), DelayedEvent(1, now)]]
  {
    var service := new BatchSendingAnalyticsService(2, [Failed, Sent, Sent]);
    service.SetEnabled(true);
    LogFourBelowDefault(service, now);
    var s := service.State();
    assert s.queue == [DelayedEvent(0, now), DelayedEvent(1, now)] + [DelayedEvent(2, now), DelayedEvent(3, now)];
    FailedBatchIsSentLast(s, 2, [DelayedEvent(0, now), DelayedEvent(1, now)], [DelayedEvent(2, now), DelayedEvent(3, now)]);
    finished := service.ForceSendingAllEvents();
    queued, sent := service.queuedEvents, service.sentBatches;
  }
}
