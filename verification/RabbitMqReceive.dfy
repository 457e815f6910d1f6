/** The polling loops of RabbitMQ receive, over a clock and a broker that the caller knows nothing about. */
module RabbitMqReceive {

  /** What one bounded wait for a message ends with. */
  datatype Poll = Arrived | Nothing | Threw

  datatype Outcome = Received | TimedOut | Stopped | Failed

  const NANOS_PER_MILLI := 1_000_000
  const SLICE := 200

  /** One call of the consumer: the clock reading before it and the milliseconds it may wait. */
  datatype Wait = Wait(now: int, millis: int)

  /** The waits that the loop has made so far brought nothing, and none was preceded by a stop. */
  ghost predicate Fruitless(stop: nat -> bool, polls: nat -> Poll, n: nat) {
    forall j: nat :: j < n ==> !stop(j) && polls(j) == Nothing
  }

  /** The timed loop. The i-th look at the stop flag is stop(i), the i-th wait ends with polls(i), and clock(0) is read
      for the deadline. The clock reaches the deadline at some reading, else nothing bounds the loop. */
  method ReceiveTimed(clock: nat -> int, stop: nat -> bool, polls: nat -> Poll, timeoutMillis: int, ghost last: nat)
    returns (outcome: Outcome, cancelled: nat, waits: seq<Wait>)
    requires forall j: nat :: j > last ==> clock(j) >= clock(0) + timeoutMillis * NANOS_PER_MILLI
    ensures var deadline := clock(0) + timeoutMillis * NANOS_PER_MILLI;
            forall j :: 0 <= j < |waits| ==>
              && waits[j].now == clock(j + 1)
              && waits[j].now < deadline
              && waits[j].now + waits[j].millis * NANOS_PER_MILLI <= deadline
              && 0 <= waits[j].millis <= 200
              && (waits[j].millis < 200 ==> waits[j].now + (waits[j].millis + 1) * NANOS_PER_MILLI > deadline)
    ensures cancelled == if outcome == Failed then 0 else 1
    ensures |waits| <= last
    ensures match outcome
            case Received =>
              waits != [] && Fruitless(stop, polls, |waits| - 1) &&
              !stop(|waits| - 1) && polls(|waits| - 1) == Arrived
            case Failed =>
              waits != [] && Fruitless(stop, polls, |waits| - 1) &&
              !stop(|waits| - 1) && polls(|waits| - 1) == Threw
            case Stopped => Fruitless(stop, polls, |waits|) && stop(|waits|)
            case TimedOut => Fruitless(stop, polls, |waits|) && !stop(|waits|) &&
                             clock(|waits| + 1) >= clock(0) + timeoutMillis * NANOS_PER_MILLI
  {
    cancelled := 0;
    waits := [];
    var deadline := clock(0) + timeoutMillis * NANOS_PER_MILLI;
    var i: nat := 0;
    while !stop(i)
      invariant i == |waits| <= last && cancelled == 0
      invariant Fruitless(stop, polls, i)
      invariant forall j :: 0 <= j < i ==>
                  && waits[j].now == clock(j + 1)
                  && waits[j].now < deadline
                  && waits[j].now + waits[j].millis * NANOS_PER_MILLI <= deadline
                  && 0 <= waits[j].millis <= 200
                  && (waits[j].millis < 200 ==> waits[j].now + (waits[j].millis + 1) * NANOS_PER_MILLI > deadline)
      decreases last - i
    {
      var now := clock(i + 1);
      if now >= deadline {
        cancelled := cancelled + 1;
        return TimedOut, cancelled, waits;
      }
      var remaining := (deadline - now) / NANOS_PER_MILLI;
      var millis := if remaining < SLICE then remaining else SLICE;
      waits := waits + [Wait(now, millis)];
      match polls(i) {
        case Threw =>
          return Failed, cancelled, waits;
        case Arrived =>
          cancelled := cancelled + 1;
          return Received, cancelled, waits;
        case Nothing =>
      }
      i := i + 1;
    }
    cancelled := cancelled + 1;
    return Stopped, cancelled, waits;
  }

  /** The loop without a timeout: only a message, an exception or the stop ends it. */
  method ReceiveUntimed(stop: nat -> bool, polls: nat -> Poll, ghost last: nat)
    returns (outcome: Outcome, cancelled: nat, polled: nat)
    requires stop(last) || polls(last) != Nothing
    ensures cancelled == if outcome == Failed then 0 else 1
    ensures polled <= last + 1
    ensures match outcome
            case Received =>
              polled > 0 && Fruitless(stop, polls, polled - 1) &&
              !stop(polled - 1) && polls(polled - 1) == Arrived
            case Failed =>
              polled > 0 && Fruitless(stop, polls, polled - 1) &&
              !stop(polled - 1) && polls(polled - 1) == Threw
            case Stopped => Fruitless(stop, polls, polled) && stop(polled)
            case TimedOut => false
  {
    cancelled := 0;
    polled := 0;
    while !stop(polled)
      invariant polled <= last && cancelled == 0
      invariant Fruitless(stop, polls, polled)
      decreases last - polled
    {
      var poll := polls(polled);
      if poll == Threw {
        return Failed, cancelled, polled + 1;
      }
      if poll == Arrived {
        return Received, cancelled + 1, polled + 1;
      }
      polled := polled + 1;
    }
    return Stopped, cancelled + 1, polled;
  }
}
