/** What each call of the in-memory transport ends with, over runs of any number of threads. */
module TransportCalls {
  import opened Messages
  import opened Transport
  import opened InMemoryTransport
  import opened TransportThreads

  // ---------- the call that a thread is in ----------

  predicate IsCallOf(step: Step, t: nat) {
    step.t == t && (step.CallSend? || step.CallReceive? || step.CallShutdown?)
  }

  /** The call that the thread is in, or was in last. */
  function LastCall(steps: seq<Step>, t: nat): Option<Step> {
    if steps == [] then None
    else if IsCallOf(steps[|steps| - 1], t) then Some(steps[|steps| - 1])
    else LastCall(steps[..|steps| - 1], t)
  }

  /** Since that call began, a wait of the thread has run out of time. */
  predicate RanOut(steps: seq<Step>, t: nat) {
    steps != [] && !IsCallOf(steps[|steps| - 1], t) &&
    (steps[|steps| - 1] == Expire(t) || RanOut(steps[..|steps| - 1], t))
  }

  /** The outcomes that a call may have. */
  predicate MayEnd(call: Step, ranOut: bool, outcome: Outcome) {
    match call
    case CallSend(_, destination, _, confirm) =>
      if destination.name == "" then outcome == Failed(InvalidArgument)
      else if confirm then outcome == Failed(Unsupported)
      else outcome == Accepted || outcome == Failed(Unavailable)
    case CallReceive(_, source, timeout) =>
      if source.name == "" then outcome == Failed(InvalidArgument)
      else || outcome.Received?
           || outcome == Failed(Unavailable)
           || (outcome == Failed(Timeout) && (timeout == Some(0) || (timeout.Some? && ranOut)))
    case CallShutdown(_) => outcome == StopDone
    case _ => false
  }

  predicate SendsTo(call: Step, name: string, envelope: Envelope) {
    call.CallSend? && call.destination == Address(name) && name != "" && call.envelope == envelope && !call.confirm
  }

  predicate ReceivesFrom(call: Step, name: string, timeout: Option<int>) {
    call.CallReceive? && call.source == Address(name) && name != "" && call.timeout == timeout
  }

  /** The state of a thread fits the call it is in. Whoever decides in time has something to decide. */
  predicate Fits(call: Step, ranOut: bool, stopped: bool, queues: Queues, thread: Thread) {
    match thread
    case SendEntering(name, envelope) => SendsTo(call, name, envelope)
    case SendHolding(name, envelope) => SendsTo(call, name, envelope)
    case ReceiveEntering(name, timeout) => ReceivesFrom(call, name, timeout) && !ranOut
    case FirstCheck(name, timeout) => ReceivesFrom(call, name, timeout) && !ranOut
    case Asleep(name, timeout) => ReceivesFrom(call, name, timeout) && timeout != Some(0) && !ranOut
    case Woken(name, timeout) => ReceivesFrom(call, name, timeout) && timeout != Some(0) && !ranOut
    case Recheck(name, timeout) => ReceivesFrom(call, name, timeout) && timeout != Some(0) && !ranOut
    case Expired(name, timeout) =>
      ReceivesFrom(call, name, timeout) && timeout.Some? && timeout != Some(0) && ranOut
    case Deciding(name, waitedWithTimeout) =>
      && call.CallReceive? && ReceivesFrom(call, name, call.timeout)
      && (waitedWithTimeout ==> call.timeout.Some? && call.timeout != Some(0))
      && (ranOut ==> call.timeout.Some?)
      && (Ready(stopped, queues, name) || ranOut)
    case StopEntering => call.CallShutdown?
    case StopHolding => call.CallShutdown?
    case Notifying(outcome) => MayEnd(call, ranOut, outcome)
    case Returned(outcome) => MayEnd(call, ranOut, outcome)
  }

  ghost predicate ThreadFits(s: State, steps: seq<Step>, t: nat)
    requires t in s.threads
  {
    LastCall(steps, t).Some? &&
    Fits(LastCall(steps, t).value, RanOut(steps, t), s.stopped, s.queues, s.threads[t])
  }

  lemma CallingFits(s: State, step: Step)
    requires Enabled(s, step) && IsCallOf(step, step.t)
    ensures Fits(step, false, s.stopped, s.queues, Called(step))
  {
  }

  lemma AcquiredFits(call: Step, ranOut: bool, stopped: bool, queues: Queues, thread: Thread)
    requires Fits(call, ranOut, stopped, queues, thread) && WantsLock(thread)
    ensures Fits(call, ranOut, stopped, queues, Acquired(thread))
  {
  }

  lemma CheckingFits(s: State, t: nat, call: Step, ranOut: bool)
    requires t in s.threads && (s.threads[t].FirstCheck? || s.threads[t].Recheck?)
    requires Fits(call, ranOut, s.stopped, s.queues, s.threads[t])
    ensures Fits(call, ranOut, Acting(s, t).stopped, Acting(s, t).queues, Acting(s, t).threads[t])
  {
  }

  lemma DecidingFits(s: State, t: nat, call: Step, ranOut: bool)
    requires t in s.threads && s.threads[t].Deciding?
    requires Fits(call, ranOut, s.stopped, s.queues, s.threads[t])
    ensures Fits(call, ranOut, Acting(s, t).stopped, Acting(s, t).queues, Acting(s, t).threads[t])
  {
    var outcome := Taken(s.stopped, s.queues, s.threads[t].name);
    assert Acting(s, t).threads[t]
        == Returned(if outcome.Success? then Received(outcome.value) else Failed(outcome.code));
  }

  lemma SendingOrStoppingFits(s: State, t: nat, call: Step, ranOut: bool)
    requires t in s.threads && (s.threads[t].SendHolding? || s.threads[t].StopHolding?)
    requires Fits(call, ranOut, s.stopped, s.queues, s.threads[t])
    ensures Fits(call, ranOut, Acting(s, t).stopped, Acting(s, t).queues, Acting(s, t).threads[t])
  {
  }

  lemma ActingFits(s: State, t: nat, call: Step, ranOut: bool)
    requires t in s.threads && Holding(s.threads[t]) && Fits(call, ranOut, s.stopped, s.queues, s.threads[t])
    ensures Fits(call, ranOut, Acting(s, t).stopped, Acting(s, t).queues, Acting(s, t).threads[t])
  {
    match s.threads[t]
    case FirstCheck(_, _) => CheckingFits(s, t, call, ranOut);
    case Recheck(_, _) => CheckingFits(s, t, call, ranOut);
    case Deciding(_, _) => DecidingFits(s, t, call, ranOut);
    case _ => SendingOrStoppingFits(s, t, call, ranOut);
  }

  /** What others do changes nothing that fits: who decides holds the lock. */
  lemma OthersFit(s: State, step: Step, t: nat, call: Step, ranOut: bool)
    requires Inv(s) && Enabled(s, step) && t in s.threads && step.t != t
    requires Fits(call, ranOut, s.stopped, s.queues, s.threads[t])
    ensures t in Apply(s, step).threads
    ensures var after := Apply(s, step); Fits(call, ranOut, after.stopped, after.queues, after.threads[t])
  {
    OtherStep(s, step, t);
    if s.threads[t].Deciding? && step.Act? {
      assert false;
    }
  }

  lemma OwnStepFits(s: State, steps: seq<Step>, step: Step)
    requires Enabled(s, step) && (step.t in s.threads ==> ThreadFits(s, steps, step.t))
    ensures step.t in Apply(s, step).threads && ThreadFits(Apply(s, step), steps + [step], step.t)
  {
    var t := step.t;
    assert (steps + [step])[..|steps|] == steps;
    if IsCallOf(step, t) {
      CallingFits(s, step);
    } else {
      var call, ranOut := LastCall(steps, t).value, RanOut(steps, t);
      match step
      case Acquire(_) => AcquiredFits(call, ranOut, s.stopped, s.queues, s.threads[t]);
      case Act(_) => ActingFits(s, t, call, ranOut);
      case _ =>
    }
  }

  lemma {:induction false} ThreadsFit(steps: seq<Step>, t: nat)
    requires Resume(INITIAL, steps).Some? && t in Resume(INITIAL, steps).value.threads
    ensures ThreadFits(Resume(INITIAL, steps).value, steps, t)
  {
    if steps != [] {
      var prefix, last := steps[..|steps| - 1], steps[|steps| - 1];
      var before := Resume(INITIAL, prefix).value;
      assert prefix + [last] == steps;
      if t in before.threads {
        ThreadsFit(prefix, t);
      }
      if last.t == t {
        OwnStepFits(before, prefix, last);
      } else {
        InvAlong(INITIAL, prefix);
        OthersAppear(before, last, t);
        OthersFit(before, last, t, LastCall(prefix, t).value, RanOut(prefix, t));
      }
    }
  }

  lemma OthersAppear(s: State, step: Step, t: nat)
    requires Enabled(s, step) && step.t != t && t in Apply(s, step).threads
    ensures t in s.threads
  {
    if step.Act? {
      ActsAlone(s, step.t);
    }
  }

  // ---------- what calls end with ----------

  /** The n-th step ran the thread's wait out, and it made no call since. */
  predicate RanOutAt(steps: seq<Step>, t: nat, n: nat) {
    n < |steps| && steps[n] == Expire(t) && forall m :: n < m < |steps| ==> !IsCallOf(steps[m], t)
  }

  /** What running out means: a timed wait expired after the thread's last call. */
  lemma {:induction false} RanOutMeans(steps: seq<Step>, t: nat)
    ensures RanOut(steps, t) <==> exists n: nat :: RanOutAt(steps, t, n)
  {
    if steps != [] {
      var prefix := steps[..|steps| - 1];
      RanOutMeans(prefix, t);
      if RanOut(prefix, t) && RanOut(steps, t) {
        var n: nat :| RanOutAt(prefix, t, n);
        assert RanOutAt(steps, t, n);
      } else if RanOut(steps, t) {
        assert RanOutAt(steps, t, |prefix|);
      }
      if n: nat :| RanOutAt(steps, t, n) {
        assert n < |prefix| ==> RanOutAt(prefix, t, n);
      }
    }
  }

  /** Every finished call ended as it may: with the argument errors in order, with Timeout only at once for a zero
      timeout or after a timed wait ran out, and with nothing that belongs to another kind of call. */
  lemma CallsEndRight(steps: seq<Step>, t: nat)
    requires Resume(INITIAL, steps).Some? && t in Resume(INITIAL, steps).value.threads
    requires Resume(INITIAL, steps).value.threads[t].Returned?
    ensures LastCall(steps, t).Some?
    ensures MayEnd(LastCall(steps, t).value, RanOut(steps, t), Resume(INITIAL, steps).value.threads[t].outcome)
  {
    ThreadsFit(steps, t);
  }

  /** A receive that reported a timeout polled with timeout zero or had a timed wait that expired since it began. */
  lemma TimeoutsAreDue(steps: seq<Step>, t: nat)
    requires Resume(INITIAL, steps).Some? && t in Resume(INITIAL, steps).value.threads
    requires Resume(INITIAL, steps).value.threads[t] == Returned(Failed(Timeout))
    ensures LastCall(steps, t).Some? && LastCall(steps, t).value.CallReceive?
    ensures var timeout := LastCall(steps, t).value.timeout;
            timeout == Some(0) || (timeout.Some? && exists n: nat :: RanOutAt(steps, t, n))
  {
    ThreadsFit(steps, t);
    RanOutMeans(steps, t);
  }

  /** A poll with timeout zero never sleeps. */
  lemma PollsNeverSleep(steps: seq<Step>, t: nat)
    requires Resume(INITIAL, steps).Some? && t in Resume(INITIAL, steps).value.threads
    requires LastCall(steps, t).Some? && LastCall(steps, t).value.CallReceive?
    requires LastCall(steps, t).value.timeout == Some(0)
    ensures !Resume(INITIAL, steps).value.threads[t].Asleep?
  {
    ThreadsFit(steps, t);
  }

  /** What is put into or taken out of a queue is what the thread's call asked for. */
  lemma EventsServeCalls(steps: seq<Step>, t: nat)
    requires Resume(INITIAL, steps).Some? && Enabled(Resume(INITIAL, steps).value, Act(t))
    ensures LastCall(steps, t).Some?
    ensures var call := LastCall(steps, t).value;
            match EventOf(Resume(INITIAL, steps).value, Act(t))
            case Enqueued(name, envelope) => SendsTo(call, name, envelope)
            case Dequeued(name, _) => call.CallReceive? && call.source == Address(name)
            case TimedOut(name) => call.CallReceive? && call.source == Address(name) && call.timeout.Some?
            case StopRequested => call.CallShutdown?
            case _ => true
  {
    ThreadsFit(steps, t);
    var s := Resume(INITIAL, steps).value;
    ActServes(s, t, LastCall(steps, t).value, RanOut(steps, t));
  }

  lemma ActServes(s: State, t: nat, call: Step, ranOut: bool)
    requires Enabled(s, Act(t)) && Fits(call, ranOut, s.stopped, s.queues, s.threads[t])
    ensures match EventOf(s, Act(t))
            case Enqueued(name, envelope) => SendsTo(call, name, envelope)
            case Dequeued(name, _) => call.CallReceive? && call.source == Address(name)
            case TimedOut(name) => call.CallReceive? && call.source == Address(name) && call.timeout.Some?
            case StopRequested => call.CallShutdown?
            case _ => true
  {
    match s.threads[t]
    case Deciding(_, _) =>
      var outcome := Taken(s.stopped, s.queues, s.threads[t].name);
      assert Acting(s, t).threads[t]
          == Returned(if outcome.Success? then Received(outcome.value) else Failed(outcome.code));
    case FirstCheck(_, _) => ActsAlone(s, t);
    case Recheck(_, _) => ActsAlone(s, t);
    case _ =>
  }

  // ---------- a receive waits for what is sent later ----------

  lemma StepLeads(origin: State, s: State, step: Step)
    requires Leads(origin, s) && Enabled(s, step)
    ensures Leads(origin, Apply(s, step))
  {
    var steps :| Resume(origin, steps) == Some(s);
    assert (steps + [step])[..|steps|] == steps;
    assert Resume(origin, steps + [step]) == Some(Apply(s, step));
  }

  /** The thread has a call under way at that address. */
  predicate IsAt(thread: Thread, name: string) {
    match thread
    case SendEntering(n, _) => n == name
    case SendHolding(n, _) => n == name
    case ReceiveEntering(n, _) => n == name
    case FirstCheck(n, _) => n == name
    case Asleep(n, _) => n == name
    case Woken(n, _) => n == name
    case Expired(n, _) => n == name
    case Recheck(n, _) => n == name
    case Deciding(n, _) => n == name
    case _ => false
  }

  /** Some steps later the lock is free, and neither the address nor any other thread has changed. */
  predicate LockFreed(s: State, s': State, u: nat, name: string) {
    && s'.owner.None? && !s'.stopped
    && At(s'.queues, name) == At(s.queues, name)
    && s'.threads.Keys == s.threads.Keys
    && forall v <- s.threads :: v != u ==> s'.threads[v] == s.threads[v]
  }

  lemma ActFrees(s: State, u: nat, name: string)
    requires !s.stopped && u in s.threads && Holding(s.threads[u])
    requires !s.threads[u].StopHolding? && !IsAt(s.threads[u], name)
    ensures LockFreed(s, Acting(s, u), u, name)
         || (&& Acting(s, u) == s.(threads := Acting(s, u).threads)
             && Acting(s, u).threads[u].Deciding? && !IsAt(Acting(s, u).threads[u], name))
  {
    ActsAlone(s, u);
    match s.threads[u]
    case SendHolding(n, envelope) => PushedAt(s.queues, n, envelope);
    case Deciding(n, _) =>
      if At(s.queues, n) != [] {
        PoppedAt(s.queues, n);
      }
    case _ =>
  }

  /** A holder of the lock that does not stop the transport and is busy elsewhere gives it back. */
  lemma LockIsFreed(origin: State, s: State, u: nat, name: string) returns (s': State)
    requires Leads(origin, s) && !s.stopped && s.owner == Some(u) && u in s.threads && Holding(s.threads[u])
    requires !s.threads[u].StopHolding? && !IsAt(s.threads[u], name)
    ensures Leads(origin, s') && LockFreed(s, s', u, name)
  {
    StepLeads(origin, s, Act(u));
    ActFrees(s, u, name);
    s' := Acting(s, u);
    if !LockFreed(s, s', u, name) {
      StepLeads(origin, s', Act(u));
      ActsAlone(s, u);
      ActFrees(s', u, name);
      ActsAlone(s', u);
      s' := Acting(s', u);
    }
  }

  /** With the lock free, a receive that may wait falls asleep on an empty address. */
  lemma FallsAsleep(origin: State, s: State, t: nat, name: string, timeout: Option<int>) returns (s': State)
    requires Leads(origin, s) && !s.stopped && s.owner.None? && At(s.queues, name) == []
    requires t in s.threads && s.threads[t] == ReceiveEntering(name, timeout) && timeout != Some(0)
    ensures Leads(origin, s') && s' == s.(threads := s.threads[t := Asleep(name, timeout)])
  {
    var holding := s.(owner := Some(t), threads := s.threads[t := FirstCheck(name, timeout)]);
    StepLeads(origin, s, Acquire(t));
    StepLeads(origin, holding, Act(t));
    s' := Acting(holding, t);
    assert s'.threads == s.threads[t := Asleep(name, timeout)];
  }

  /** Another thread sends to the address and notifies. */
  lemma SendWakes(origin: State, s: State, t: nat, v: nat, name: string, timeout: Option<int>, envelope: Envelope)
    returns (s': State)
    requires Leads(origin, s) && !s.stopped && s.owner.None? && At(s.queues, name) == [] && name != ""
    requires t in s.threads && s.threads[t] == Asleep(name, timeout)
    requires v != t && (v in s.threads ==> s.threads[v].Returned?)
    ensures Leads(origin, s') && !s'.stopped && s'.owner.None? && At(s'.queues, name) == [envelope]
    ensures t in s'.threads && s'.threads[t] == Woken(name, timeout)
    ensures v in s'.threads && s'.threads[v] == Returned(Accepted)
  {
    var called := s.(threads := s.threads[v := SendEntering(name, envelope)]);
    var holding := called.(owner := Some(v), threads := called.threads[v := SendHolding(name, envelope)]);
    StepLeads(origin, s, CallSend(v, Address(name), envelope, false));
    StepLeads(origin, called, Acquire(v));
    StepLeads(origin, holding, Act(v));
    var sent := Acting(holding, v);
    ActsAlone(holding, v);
    PushedAt(s.queues, name, envelope);
    StepLeads(origin, sent, NotifyAll(v));
    s' := Apply(sent, NotifyAll(v));
  }

  /** A woken receiver takes what waits. */
  lemma WokenReceives(origin: State, s: State, t: nat, name: string, timeout: Option<int>, envelope: Envelope)
    returns (s': State)
    requires Leads(origin, s) && !s.stopped && s.owner.None? && At(s.queues, name) == [envelope]
    requires t in s.threads && s.threads[t] == Woken(name, timeout)
    ensures Leads(origin, s') && t in s'.threads && s'.threads[t] == Returned(Received(envelope))
    ensures At(s'.queues, name) == []
    ensures forall v <- s.threads :: v != t ==> v in s'.threads && s'.threads[v] == s.threads[v]
  {
    var holding := s.(owner := Some(t), threads := s.threads[t := Recheck(name, timeout)]);
    var deciding := holding.(threads := holding.threads[t := Deciding(name, timeout.Some?)]);
    StepLeads(origin, s, Acquire(t));
    StepLeads(origin, holding, Act(t));
    assert Acting(holding, t) == deciding;
    StepLeads(origin, deciding, Act(t));
    s' := Acting(deciding, t);
    ActsAlone(deciding, t);
    PoppedAt(s.queues, name);
  }

  /** From every running state in which a thread has called receive on an empty address, without a timeout or with one
      other than zero, and nobody else is busy there or about to stop the transport: if another thread sends to that
      address afterwards, the call can receive just that message. */
  lemma ReceivesWhatIsSentLater(s: State, t: nat, v: nat, name: string, timeout: Option<int>, envelope: Envelope)
    returns (s': State)
    requires Reachable(s) && !s.stopped && At(s.queues, name) == [] && name != ""
    requires t in s.threads && s.threads[t] == ReceiveEntering(name, timeout) && timeout != Some(0)
    requires v != t && (v in s.threads ==> s.threads[v].Returned?)
    requires forall u <- s.threads :: u != t ==> !IsAt(s.threads[u], name)
    requires s.owner.Some? && s.owner.value in s.threads ==> !s.threads[s.owner.value].StopHolding?
    ensures Leads(s, s') && t in s'.threads && s'.threads[t] == Returned(Received(envelope))
    ensures v in s'.threads && s'.threads[v] == Returned(Accepted) && At(s'.queues, name) == []
  {
    ReachableInv(s);
    assert Resume(s, []) == Some(s);
    var free := s;
    if s.owner.Some? {
      free := LockIsFreed(s, s, s.owner.value, name);
    }
    var asleep := FallsAsleep(s, free, t, name, timeout);
    var woken := SendWakes(s, asleep, t, v, name, timeout, envelope);
    s' := WokenReceives(s, woken, t, name, timeout, envelope);
  }

  /** A timed wait that expires with nothing there ends the call with Timeout, in three steps of its own. */
  lemma ExpiredTimesOut(s: State, t: nat, name: string, timeout: Option<int>) returns (s': State)
    requires Reachable(s) && !s.stopped && s.owner.None? && At(s.queues, name) == []
    requires t in s.threads && s.threads[t] == Asleep(name, timeout) && timeout.Some?
    ensures Resume(s, [Expire(t), Acquire(t), Act(t)]) == Some(s')
    ensures t in s'.threads && s'.threads[t] == Returned(Failed(Timeout)) && s'.queues == s.queues
  {
    var expired := s.(threads := s.threads[t := Expired(name, timeout)]);
    var deciding := expired.(owner := Some(t), threads := expired.threads[t := Deciding(name, true)]);
    s' := Acting(deciding, t);
    ResumeThree(s, Expire(t), Acquire(t), Act(t));
  }

  lemma ResumeThree(s: State, a: Step, b: Step, c: Step)
    requires Enabled(s, a) && Enabled(Apply(s, a), b) && Enabled(Apply(Apply(s, a), b), c)
    ensures Resume(s, [a, b, c]) == Some(Apply(Apply(Apply(s, a), b), c))
  {
    assert [a, b, c][..2] == [a, b] && [a, b][..1] == [a] && [a][..0] == [];
    assert Resume(s, [a]) == Some(Apply(s, a));
    assert Resume(s, [a, b]) == Some(Apply(Apply(s, a), b));
  }
}
