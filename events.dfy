/** The values the batching queues store and exchange with their transports.

    An `AnalyticsEvent` is an object supplied by the application; the queues
    only keep it, hand it to the transport and call its `wasSent` hook, so it
    is modelled by an opaque reference. Dates are whole seconds on one clock. */
module Events {

  /** Identity of an application-supplied `AnalyticsEvent` object. Two queue
      entries may hold the same reference (the same event logged twice). */
  type EventRef = nat

  /** A point in time, in whole seconds. */
  type Date = int

  /** `SendingDelayedAnalyticsEvent`: an event together with the time it was logged. */
  datatype DelayedEvent = DelayedEvent(event: EventRef, timeEventOccurred: Date)

  /** What one call of a transport's `send` ends with: it returns normally
      (`Sent`) or throws / reports the batch back as failed (`Failed`). */
  datatype SendOutcome = Sent | Failed

  datatype Option<+T> = None | Some(value: T)

  function Min(a: int, b: int): int
  {
    if a <= b then a else b
  }

  /** True when every outcome in `outcomes` is `o`. */
  predicate AllAre(outcomes: seq<SendOutcome>, o: SendOutcome)
  {
    forall i :: 0 <= i < |outcomes| ==> outcomes[i] == o
  }
}
