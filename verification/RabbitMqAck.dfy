/** Manual acknowledgement of RabbitMQ deliveries: every copy of a message shares one state behind one lock. */
module RabbitMqAck {
  import opened Transport

  /** What became of a delivery at the broker (basic.ack and basic.reject of AMQP 0-9-1). */
  datatype Fate = Outstanding | Acked | Requeued | Dropped

  /** A call on some copy of a message; the broker operation may fail and then has no effect. */
  datatype Call = Ack(message: nat, fails: bool) | Nack(message: nat, requeue: bool, fails: bool)

  function FateOf(call: Call): Fate {
    match call
    case Ack(_, _) => Acked
    case Nack(_, requeue, _) => if requeue then Requeued else Dropped
  }

  // ---------- what a call does ----------

  /** The flags of all messages and the fates of their deliveries. */
  datatype State = State(completed: set<nat>, fates: map<nat, Fate>)

  function Fresh(deliveries: set<nat>): State {
    State({}, map d | d in deliveries :: Outstanding)
  }

  predicate Succeeds(s: State, call: Call) {
    call.message !in s.completed && !call.fails
  }

  function Apply(s: State, call: Call): State {
    if Succeeds(s, call)
    then State(s.completed + {call.message}, s.fates[call.message := FateOf(call)])
    else s
  }

  class Broker {
    var fates: map<nat, Fate>

    constructor (deliveries: set<nat>)
      ensures fates == map d | d in deliveries :: Outstanding
    {
      fates := map d | d in deliveries :: Outstanding;
    }

    method Complete(delivery: nat, fate: Fate, fails: bool) returns (done: bool)
      modifies this
      ensures done == !fails
      ensures fates == if fails then old(fates) else old(fates)[delivery := fate]
    {
      if fails {
        return false;
      }
      fates := fates[delivery := fate];
      return true;
    }
  }

  class AckState {
    const broker: Broker
    const delivery: nat
    var completed: bool

    constructor (broker: Broker, delivery: nat)
      ensures this.broker == broker && this.delivery == delivery && !completed
    {
      this.broker := broker;
      this.delivery := delivery;
      completed := false;
    }

    /** The flag says whether the broker was told. */
    predicate Valid()
      reads this, broker
    {
      delivery in broker.fates && (completed <==> broker.fates[delivery] != Outstanding)
    }

    /** This message alone, with the fates of all deliveries. */
    function Alone(): State
      reads this, broker
    {
      State(if completed then {delivery} else {}, broker.fates)
    }

    method Ack(fails: bool) returns (code: StatusCode)
      requires Valid()
      modifies this, broker
      ensures Valid()
      ensures code == if old(broker.fates)[delivery] == Outstanding && !fails then Ok else Internal
      ensures if code == Ok then completed && broker.fates == old(broker.fates)[delivery := Acked]
              else completed == old(completed) && broker.fates == old(broker.fates)
      ensures code == Ok <==> Succeeds(old(Alone()), Call.Ack(delivery, fails))
      ensures Alone() == Apply(old(Alone()), Call.Ack(delivery, fails))
    {
      if completed {
        return Internal;
      }
      var done := broker.Complete(delivery, Acked, fails);
      if !done {
        return Internal;
      }
      completed := true;
      return Ok;
    }

    method Nack(requeue: bool, fails: bool) returns (code: StatusCode)
      requires Valid()
      modifies this, broker
      ensures Valid()
      ensures code == if old(broker.fates)[delivery] == Outstanding && !fails then Ok else Internal
      ensures if code == Ok
              then completed && broker.fates == old(broker.fates)[delivery := if requeue then Requeued else Dropped]
              else completed == old(completed) && broker.fates == old(broker.fates)
      ensures code == Ok <==> Succeeds(old(Alone()), Call.Nack(delivery, requeue, fails))
      ensures Alone() == Apply(old(Alone()), Call.Nack(delivery, requeue, fails))
    {
      if completed {
        return Internal;
      }
      var done := broker.Complete(delivery, if requeue then Requeued else Dropped, fails);
      if !done {
        return Internal;
      }
      completed := true;
      return Ok;
    }
  }

  // ---------- any interleaving of calls on any copies of any messages ----------

  /** One message of many, as its own flag and the broker see it. */
  function AloneIn(s: State, message: nat): State {
    State(s.completed * {message}, s.fates)
  }

  /** A call acts on its own message as if that were alone, and leaves every other message as it was. */
  lemma CallsActOnTheirMessage(s: State, call: Call, message: nat)
    ensures call.message == message ==>
              && (Succeeds(s, call) <==> Succeeds(AloneIn(s, message), call))
              && AloneIn(Apply(s, call), message) == Apply(AloneIn(s, message), call)
    ensures call.message != message ==>
              && AloneIn(Apply(s, call), message).completed == AloneIn(s, message).completed
              && (message in s.fates ==>
                    message in Apply(s, call).fates && Apply(s, call).fates[message] == s.fates[message])
  {
    assert call.message == message ==>
        (s.completed + {call.message}) * {message} == s.completed * {message} + {call.message};
    assert call.message != message ==> (s.completed + {call.message}) * {message} == s.completed * {message};
  }

  function Play(s: State, calls: seq<Call>): State {
    if calls == [] then s else Apply(Play(s, calls[..|calls| - 1]), calls[|calls| - 1])
  }

  /** The calls that returned success, in order. */
  function Successes(s: State, calls: seq<Call>): seq<Call> {
    if calls == [] then []
    else
      var earlier := Successes(s, calls[..|calls| - 1]);
      var last := calls[|calls| - 1];
      if Succeeds(Play(s, calls[..|calls| - 1]), last) then earlier + [last] else earlier
  }

  function OutstandingIn(s: State): set<nat> {
    set d | d in s.fates && s.fates[d] == Outstanding
  }

  ghost predicate Told(s: State) {
    && (forall d <- s.fates :: d in s.completed <==> s.fates[d] != Outstanding)
    && s.completed <= s.fates.Keys
  }

  predicate Once(done: seq<Call>) {
    forall i, j :: 0 <= i < j < |done| ==> done[i].message != done[j].message
  }

  /** Every success set the flag and left its fate. */
  predicate Recorded(s: State, done: seq<Call>) {
    forall i :: 0 <= i < |done| ==>
      && done[i].message in s.completed && done[i].message in s.fates
      && s.fates[done[i].message] == FateOf(done[i])
  }

  lemma SuccessIsRecorded(s: State, done: seq<Call>, call: Call)
    requires Once(done) && Recorded(s, done) && Succeeds(s, call)
    ensures Once(done + [call]) && Recorded(Apply(s, call), done + [call])
  {
  }

  lemma {:induction false} SuccessesAreDistinct(deliveries: set<nat>, calls: seq<Call>)
    requires forall call <- calls :: call.message in deliveries
    ensures var s := Play(Fresh(deliveries), calls);
            var done := Successes(Fresh(deliveries), calls);
            && Told(s) && s.fates.Keys == deliveries
            && Once(done) && Recorded(s, done)
  {
    if calls != [] {
      var earlier := calls[..|calls| - 1];
      var last := calls[|calls| - 1];
      SuccessesAreDistinct(deliveries, earlier);
      if Succeeds(Play(Fresh(deliveries), earlier), last) {
        SuccessIsRecorded(Play(Fresh(deliveries), earlier), Successes(Fresh(deliveries), earlier), last);
      }
    }
  }

  lemma {:induction false} EveryDeliveryIsAccountedFor(deliveries: set<nat>, calls: seq<Call>)
    requires forall call <- calls :: call.message in deliveries
    ensures |OutstandingIn(Play(Fresh(deliveries), calls))| + |Successes(Fresh(deliveries), calls)| == |deliveries|
  {
    var s := Fresh(deliveries);
    if calls == [] {
      assert OutstandingIn(s) == deliveries;
    } else {
      var before := Play(s, calls[..|calls| - 1]);
      var last := calls[|calls| - 1];
      EveryDeliveryIsAccountedFor(deliveries, calls[..|calls| - 1]);
      SuccessesAreDistinct(deliveries, calls[..|calls| - 1]);
      if Succeeds(before, last) {
        assert OutstandingIn(Apply(before, last)) == OutstandingIn(before) - {last.message};
      }
    }
  }

  function Kind(calls: seq<Call>, fate: Fate): nat {
    if calls == [] then 0 else Kind(calls[..|calls| - 1], fate) + if FateOf(calls[|calls| - 1]) == fate then 1 else 0
  }

  lemma {:induction false} KindsAddUp(calls: seq<Call>)
    ensures Kind(calls, Acked) + Kind(calls, Requeued) + Kind(calls, Dropped) == |calls|
  {
    if calls != [] {
      KindsAddUp(calls[..|calls| - 1]);
    }
  }

  /** Over any calls on any copies: no message is completed twice, and deliveries are acked, requeued, dropped or
      outstanding. */
  lemma AckAtMostOnce(deliveries: set<nat>, calls: seq<Call>)
    requires forall call <- calls :: call.message in deliveries
    ensures var done := Successes(Fresh(deliveries), calls);
            && Once(done)
            && Kind(done, Acked) + Kind(done, Requeued) + Kind(done, Dropped)
               + |OutstandingIn(Play(Fresh(deliveries), calls))| == |deliveries|
  {
    SuccessesAreDistinct(deliveries, calls);
    EveryDeliveryIsAccountedFor(deliveries, calls);
    KindsAddUp(Successes(Fresh(deliveries), calls));
  }

  /** A call succeeds exactly when its broker operation does and no earlier call for the message succeeded: a failed
      attempt can be retried, and after a success every further call reports an error and changes nothing. */
  lemma {:induction false} SucceedsIffFirst(deliveries: set<nat>, calls: seq<Call>, call: Call)
    ensures Succeeds(Play(Fresh(deliveries), calls), call)
       <==> !call.fails && forall done <- Successes(Fresh(deliveries), calls) :: done.message != call.message
    ensures !Succeeds(Play(Fresh(deliveries), calls), call) ==>
              Apply(Play(Fresh(deliveries), calls), call) == Play(Fresh(deliveries), calls)
  {
    CompletedAreSuccesses(deliveries, calls, call.message);
  }

  lemma {:induction false} CompletedAreSuccesses(deliveries: set<nat>, calls: seq<Call>, message: nat)
    ensures message in Play(Fresh(deliveries), calls).completed
       <==> exists done :: done in Successes(Fresh(deliveries), calls) && done.message == message
  {
    if calls != [] {
      CompletedAreSuccesses(deliveries, calls[..|calls| - 1], message);
      var before := Play(Fresh(deliveries), calls[..|calls| - 1]);
      var last := calls[|calls| - 1];
      if Succeeds(before, last) && last.message == message {
        assert last in Successes(Fresh(deliveries), calls);
      }
    }
  }
}
