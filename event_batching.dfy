/** The batching helpers on an array of `SendingDelayedAnalyticsEvent`:
    ordering by capture time, the flush policy and popping a batch off the front. */
module EventBatching {
  import opened Events

  /** The policy sends once this many events are queued ... */
  const CountThreshold: nat := 10
  /** ... or once the oldest queued event is at least this many seconds old. */
  const StalenessSeconds: nat := 300

  predicate IsOldestFirst(s: seq<DelayedEvent>)
  {
    forall i, j :: 0 <= i < j < |s| ==> s[i].timeEventOccurred <= s[j].timeEventOccurred
  }

  /** Inserts `e` into an ordered sequence before every element that is not older than it. */
  function Insert(e: DelayedEvent, s: seq<DelayedEvent>): (r: seq<DelayedEvent>)
    requires IsOldestFirst(s)
    ensures IsOldestFirst(r)
    ensures multiset(r) == multiset(s) + multiset{e}
    ensures r[0] == e || (s != [] && r[0] == s[0])
  {
    if s == [] || e.timeEventOccurred <= s[0].timeEventOccurred then
      [e] + s
    else
      var rest := Insert(e, s[1..]);
      PrependKeepsOrder(s[0], rest);
      assert s == [s[0]] + s[1..];
      [s[0]] + rest
  }

  /** An element no later than the head of an ordered sequence can go in front of it. */
  lemma PrependKeepsOrder(x: DelayedEvent, s: seq<DelayedEvent>)
    requires IsOldestFirst(s)
    requires s != [] ==> x.timeEventOccurred <= s[0].timeEventOccurred
    ensures IsOldestFirst([x] + s)
  {
    forall i, j | 0 <= i < j < |[x] + s|
      ensures ([x] + s)[i].timeEventOccurred <= ([x] + s)[j].timeEventOccurred
    {
      if i == 0 {
        assert ([x] + s)[j] == s[j - 1];
      } else {
        assert ([x] + s)[i] == s[i - 1] && ([x] + s)[j] == s[j - 1];
      }
    }
  }

  /** `oldestFirst()`: the events sorted by `timeEventOccurred`, ascending. */
  function OldestFirst(s: seq<DelayedEvent>): (r: seq<DelayedEvent>)
    ensures IsOldestFirst(r)
    ensures multiset(r) == multiset(s)
  {
    if s == [] then
      []
    else
      assert s == [s[0]] + s[1..];
      Insert(s[0], OldestFirst(s[1..]))
  }

  /** `shouldSendQueuedEvents()` at time `now`: ten or more events, or else the
      first of the sorted events lies 300 s or more in the past. An empty array
      falls back to an interval of 0, which is not <= -300. */
  function ShouldSendQueuedEvents(events: seq<DelayedEvent>, now: Date): (r: bool)
    ensures |events| >= CountThreshold ==> r
    ensures events == [] ==> !r
  {
    if |events| >= CountThreshold then
      true
    else
      var sorted := OldestFirst(events);
      var sinceNow := if |sorted| > 0 then sorted[0].timeEventOccurred - now else 0;
      sinceNow <= -(StalenessSeconds as int)
  }

  /** The first element of the sorted events is an oldest one. */
  lemma OldestFirstHeadIsOldest(s: seq<DelayedEvent>)
    requires s != []
    ensures OldestFirst(s) != [] && OldestFirst(s)[0] in s
    ensures forall e :: e in s ==> OldestFirst(s)[0].timeEventOccurred <= e.timeEventOccurred
  {
    var r := OldestFirst(s);
    assert multiset(r) == multiset(s);
    assert |r| == |s| by { assert |multiset(r)| == |multiset(s)|; }
    assert r[0] in multiset(s);
    forall e | e in s
      ensures r[0].timeEventOccurred <= e.timeEventOccurred
    {
      assert e in multiset(r);
      var k :| 0 <= k < |r| && r[k] == e;
    }
  }

  /** The policy, stated without sorting: enough events, or some queued event
      logged at least `StalenessSeconds` before `now`. */
  lemma ShouldSendQueuedEventsCharacterized(events: seq<DelayedEvent>, now: Date)
    ensures ShouldSendQueuedEvents(events, now) <==>
      |events| >= CountThreshold ||
      exists e :: e in events && e.timeEventOccurred <= now - StalenessSeconds
  {
    if |events| < CountThreshold && events != [] {
      OldestFirstHeadIsOldest(events);
    }
  }

  /** An empty queue never triggers sending, whatever the time. */
  lemma EmptyNeverSends(now: Date)
    ensures !ShouldSendQueuedEvents([], now)
  {
    ShouldSendQueuedEventsCharacterized([], now);
  }

  /** The policy sees only which events are queued, not their order. */
  lemma ShouldSendIgnoresOrder(s: seq<DelayedEvent>, t: seq<DelayedEvent>, now: Date)
    requires multiset(s) == multiset(t)
    ensures ShouldSendQueuedEvents(s, now) == ShouldSendQueuedEvents(t, now)
  {
    assert |s| == |t| by { assert |multiset(s)| == |multiset(t)|; }
    ShouldSendQueuedEventsCharacterized(s, now);
    ShouldSendQueuedEventsCharacterized(t, now);
    forall e
      ensures e in s <==> e in t
    {
      assert e in s <==> e in multiset(s);
      assert e in t <==> e in multiset(t);
    }
  }

  /** `popEvents(batchSize:)`: removes the first `min(count, batchSize)` elements,
      one index at a time from the highest down, and returns them. A negative
      batch size traps when the range is formed, hence the precondition. */
  method PopEvents(events: seq<DelayedEvent>, batchSize: int)
    returns (popped: seq<DelayedEvent>, remaining: seq<DelayedEvent>)
    requires batchSize >= 0
    ensures |popped| == Min(|events|, batchSize)
    ensures popped + remaining == events
  {
    var upper := Min(|events|, batchSize);
    if upper == 0 {
      return [], events;
    }
    popped := events[..upper];
    remaining := events;
    var index := upper;
    while index > 0
      invariant 0 <= index <= upper
      invariant remaining == events[..index] + events[upper..]
    {
      index := index - 1;
      remaining := remaining[..index] + remaining[index + 1..];
    }
  }

  /** The popped batch is the front of the array, which is the oldest events
      at least when the array is in capture order. */
  lemma PopTakesFront(events: seq<DelayedEvent>, popped: seq<DelayedEvent>, remaining: seq<DelayedEvent>)
    requires popped + remaining == events
    requires IsOldestFirst(events)
    ensures forall x, y :: x in popped && y in remaining ==> x.timeEventOccurred <= y.timeEventOccurred
  {
    forall x, y | x in popped && y in remaining
      ensures x.timeEventOccurred <= y.timeEventOccurred
    {
      var i :| 0 <= i < |popped| && popped[i] == x;
      var j :| 0 <= j < |remaining| && remaining[j] == y;
      assert events[i] == x && events[|popped| + j] == y;
    }
  }
}
