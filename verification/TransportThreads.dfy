/** Any number of threads in the in-memory transport: one mutex, one condition variable, FIFO queues.

    Taking the lock, one stretch of code under it, waking up and notify_all are separate steps; notify_all comes after
    the lock has been given back. Waiting gives the lock back and falls asleep in one step; a sleeper may wake without
    a notification or, if it has a timeout, expire.
 */
module TransportThreads {
  import opened Messages
  import opened Transport
  import opened InMemoryTransport

  datatype Outcome = Accepted | Received(envelope: Envelope) | Failed(code: StatusCode) | StopDone

  datatype Thread =
    | SendEntering(name: string, envelope: Envelope)
    | SendHolding(name: string, envelope: Envelope)
    | Notifying(outcome: Outcome)
    | ReceiveEntering(name: string, timeout: Option<int>)
    | FirstCheck(name: string, timeout: Option<int>)
    | Asleep(name: string, timeout: Option<int>)
    | Woken(name: string, timeout: Option<int>)
    | Expired(name: string, timeout: Option<int>)
    | Recheck(name: string, timeout: Option<int>)
    | Deciding(name: string, waitedWithTimeout: bool)
    | StopEntering
    | StopHolding
    | Returned(outcome: Outcome)

  type Threads = map<nat, Thread>

  /** The logs say, per address, what was accepted and what was received so far; no thread reads them. */
  datatype State = State(
    stopped: bool,
    queues: Queues,
    owner: Option<nat>,
    threads: Threads,
    accepted: Queues,
    received: Queues)

  const INITIAL := State(false, map[], None, map[], map[], map[])

  datatype Step =
    | CallSend(t: nat, destination: Address, envelope: Envelope, confirm: bool)
    | CallReceive(t: nat, source: Address, timeout: Option<int>)
    | CallShutdown(t: nat)
    | Acquire(t: nat)
    | Act(t: nat)
    | NotifyAll(t: nat)
    | Wake(t: nat)
    | Expire(t: nat)

  predicate Holding(thread: Thread) {
    thread.SendHolding? || thread.FirstCheck? || thread.Recheck? || thread.Deciding? || thread.StopHolding?
  }

  predicate WantsLock(thread: Thread) {
    thread.SendEntering? || thread.ReceiveEntering? || thread.Woken? || thread.Expired? || thread.StopEntering?
  }

  predicate Enabled(s: State, step: Step) {
    if step.CallSend? || step.CallReceive? || step.CallShutdown? then
      step.t !in s.threads || s.threads[step.t].Returned?
    else
      && step.t in s.threads
      && match step
         case Acquire(t) => s.owner.None? && WantsLock(s.threads[t])
         case Act(t) => Holding(s.threads[t])
         case NotifyAll(t) => s.threads[t].Notifying?
         case Wake(t) => s.threads[t].Asleep?
         case Expire(t) => s.threads[t].Asleep? && s.threads[t].timeout.Some?
  }

  function Called(step: Step): Thread
    requires step.CallSend? || step.CallReceive? || step.CallShutdown?
  {
    match step
    case CallSend(_, destination, envelope, confirm) =>
      if destination.name == "" then Returned(Failed(InvalidArgument))
      else if confirm then Returned(Failed(Unsupported))
      else SendEntering(destination.name, envelope)
    case CallReceive(_, source, timeout) =>
      if source.name == "" then Returned(Failed(InvalidArgument)) else ReceiveEntering(source.name, timeout)
    case CallShutdown(_) => StopEntering
  }

  function Acquired(thread: Thread): Thread
    requires WantsLock(thread)
  {
    match thread
    case SendEntering(name, envelope) => SendHolding(name, envelope)
    case ReceiveEntering(name, timeout) => FirstCheck(name, timeout)
    case Woken(name, timeout) => Recheck(name, timeout)
    case Expired(name, _) => Deciding(name, true)
    case StopEntering => StopHolding
  }

  function Release(s: State, t: nat, thread: Thread): State {
    s.(owner := None, threads := s.threads[t := thread])
  }

  /** One stretch of code under the lock. Only a check that succeeds keeps the lock. */
  function Acting(s: State, t: nat): State
    requires t in s.threads && Holding(s.threads[t])
  {
    match s.threads[t]
    case SendHolding(name, envelope) =>
      if s.stopped then Release(s, t, Returned(Failed(Unavailable)))
      else Release(s, t, Notifying(Accepted))
           .(queues := Pushed(s.queues, name, envelope), accepted := Pushed(s.accepted, name, envelope))
    case FirstCheck(name, timeout) =>
      if Ready(s.stopped, s.queues, name) then s.(threads := s.threads[t := Deciding(name, false)])
      else if timeout == Some(0) then Release(s, t, Returned(Failed(Timeout)))
      else Release(s, t, Asleep(name, timeout))
    case Recheck(name, timeout) =>
      if Ready(s.stopped, s.queues, name) then s.(threads := s.threads[t := Deciding(name, timeout.Some?)])
      else Release(s, t, Asleep(name, timeout))
    case Deciding(name, _) =>
      (match Taken(s.stopped, s.queues, name)
       case Failure(code) => Release(s, t, Returned(Failed(code)))
       case Success(envelope) =>
         Release(s, t, Returned(Received(envelope)))
         .(queues := Popped(s.queues, name), received := Pushed(s.received, name, envelope)))
    case StopHolding =>
      if s.stopped then Release(s, t, Returned(StopDone))
      else Release(s, t, Notifying(StopDone)).(stopped := true)
  }

  function Notified(thread: Thread): Thread {
    if thread.Asleep? then Woken(thread.name, thread.timeout) else thread
  }

  function Notification(threads: Threads, t: nat, outcome: Outcome): Threads {
    (map u <- threads :: Notified(threads[u]))[t := Returned(outcome)]
  }

  function Apply(s: State, step: Step): State
    requires Enabled(s, step)
  {
    match step
    case Acquire(t) => s.(owner := Some(t), threads := s.threads[t := Acquired(s.threads[t])])
    case Act(t) => Acting(s, t)
    case NotifyAll(t) => s.(threads := Notification(s.threads, t, s.threads[t].outcome))
    case Wake(t) => s.(threads := s.threads[t := Notified(s.threads[t])])
    case Expire(t) => s.(threads := s.threads[t := Expired(s.threads[t].name, s.threads[t].timeout)])
    case _ => s.(threads := s.threads[step.t := Called(step)])
  }

  function Resume(s: State, steps: seq<Step>): Option<State> {
    if steps == [] then Some(s)
    else
      match Resume(s, steps[..|steps| - 1])
      case None => None
      case Some(t) =>
        if Enabled(t, steps[|steps| - 1]) then Some(Apply(t, steps[|steps| - 1])) else None
  }

  ghost predicate Leads(s: State, t: State) {
    exists steps :: Resume(s, steps) == Some(t)
  }

  ghost predicate Reachable(s: State) {
    Leads(INITIAL, s)
  }

  // ---------- the invariant ----------

  ghost predicate Locked(owner: Option<nat>, threads: Threads) {
    && (owner.Some? ==> owner.value in threads)
    && (forall t <- threads :: Holding(threads[t]) <==> owner == Some(t))
  }

  /** Without a timed wait a thread reaches its decision only when there is something to decide. */
  ghost predicate Decided(stopped: bool, queues: Queues, threads: Threads) {
    forall t <- threads ::
      threads[t].Deciding? && !threads[t].waitedWithTimeout ==> Ready(stopped, queues, threads[t].name)
  }

  ghost predicate SomeoneNotifies(threads: Threads) {
    exists u :: u in threads && threads[u].Notifying?
  }

  /** A sleeper has nothing to do, or a notify_all is still to come. */
  ghost predicate NoLostWakeup(stopped: bool, queues: Queues, threads: Threads) {
    forall t <- threads ::
      threads[t].Asleep? && Ready(stopped, queues, threads[t].name) ==> SomeoneNotifies(threads)
  }

  /** Per address, what was accepted is what was received followed by what still waits. */
  ghost predicate Fifo(accepted: Queues, received: Queues, queues: Queues) {
    forall name :: At(accepted, name) == At(received, name) + At(queues, name)
  }

  ghost predicate Inv(s: State) {
    && NoneEmpty(s.queues)
    && Locked(s.owner, s.threads)
    && Decided(s.stopped, s.queues, s.threads)
    && NoLostWakeup(s.stopped, s.queues, s.threads)
    && Fifo(s.accepted, s.received, s.queues)
  }

  lemma PushedAt(queues: Queues, name: string, envelope: Envelope)
    ensures forall n :: At(Pushed(queues, name, envelope), n) == At(queues, n) + if n == name then [envelope] else []
    ensures NoneEmpty(queues) ==> NoneEmpty(Pushed(queues, name, envelope))
  {
  }

  lemma PoppedAt(queues: Queues, name: string)
    requires At(queues, name) != []
    ensures forall n :: At(queues, n) == (if n == name then [At(queues, name)[0]] else []) + At(Popped(queues, name), n)
    ensures NoneEmpty(queues) ==> NoneEmpty(Popped(queues, name))
  {
    assert queues[name] == [queues[name][0]] + queues[name][1..];
  }

  // ---------- preservation ----------

  lemma OthersStillNotify(threads: Threads, t: nat, thread: Thread)
    requires SomeoneNotifies(threads) && (t !in threads || !threads[t].Notifying?)
    ensures SomeoneNotifies(threads[t := thread])
  {
    var u :| u in threads && threads[u].Notifying?;
    assert threads[t := thread][u].Notifying?;
  }

  /** One thread moves on without touching what the threads share and without falling asleep on work. */
  lemma MoveKeeps(s: State, t: nat, thread: Thread, owner: Option<nat>)
    requires Inv(s) && (t !in s.threads || !s.threads[t].Notifying?)
    requires Locked(owner, s.threads[t := thread])
    requires thread.Deciding? && !thread.waitedWithTimeout ==> Ready(s.stopped, s.queues, thread.name)
    requires thread.Asleep? ==> !Ready(s.stopped, s.queues, thread.name)
    ensures Inv(s.(threads := s.threads[t := thread], owner := owner))
  {
    if SomeoneNotifies(s.threads) {
      OthersStillNotify(s.threads, t, thread);
    }
  }

  lemma LockedAfter(owner: Option<nat>, threads: Threads, t: nat, thread: Thread)
    requires Locked(owner, threads)
    ensures owner.None? && t in threads && Holding(thread) ==> Locked(Some(t), threads[t := thread])
    ensures t in threads && Holding(threads[t]) && !Holding(thread) ==> Locked(None, threads[t := thread])
    ensures (t in threads && Holding(threads[t]) <==> Holding(thread)) ==> Locked(owner, threads[t := thread])
  {
  }

  lemma CallKeeps(s: State, step: Step)
    requires Inv(s) && Enabled(s, step) && (step.CallSend? || step.CallReceive? || step.CallShutdown?)
    ensures Inv(Apply(s, step))
  {
    LockedAfter(s.owner, s.threads, step.t, Called(step));
    MoveKeeps(s, step.t, Called(step), s.owner);
  }

  lemma AcquireKeeps(s: State, t: nat)
    requires Inv(s) && Enabled(s, Acquire(t))
    ensures Inv(Apply(s, Acquire(t)))
  {
    LockedAfter(s.owner, s.threads, t, Acquired(s.threads[t]));
    MoveKeeps(s, t, Acquired(s.threads[t]), Some(t));
  }

  lemma WakeKeeps(s: State, t: nat, thread: Thread)
    requires Inv(s) && t in s.threads && s.threads[t].Asleep? && (thread.Woken? || thread.Expired?)
    ensures Inv(s.(threads := s.threads[t := thread]))
  {
    LockedAfter(s.owner, s.threads, t, thread);
    MoveKeeps(s, t, thread, s.owner);
  }

  lemma NotifyKeeps(s: State, t: nat)
    requires Inv(s) && t in s.threads && s.threads[t].Notifying?
    ensures Inv(Apply(s, NotifyAll(t)))
  {
  }

  lemma CheckKeeps(s: State, t: nat)
    requires Inv(s) && t in s.threads && (s.threads[t].FirstCheck? || s.threads[t].Recheck?)
    ensures Inv(Acting(s, t))
  {
    var after := Acting(s, t);
    LockedAfter(s.owner, s.threads, t, after.threads[t]);
    MoveKeeps(s, t, after.threads[t], after.owner);
  }

  /** After a push or a stop the thread itself is the one that still has to notify. */
  lemma NotifierKeeps(stopped: bool, queues: Queues, threads: Threads, t: nat, outcome: Outcome)
    ensures NoLostWakeup(stopped, queues, threads[t := Notifying(outcome)])
  {
    assert threads[t := Notifying(outcome)][t].Notifying?;
  }

  lemma DecidedStays(stopped: bool, queues: Queues, threads: Threads, stopped': bool, queues': Queues,
                     owner: Option<nat>, t: nat, thread: Thread)
    requires Decided(stopped, queues, threads) && Locked(owner, threads) && owner == Some(t) && !thread.Deciding?
    ensures Decided(stopped', queues', threads[t := thread])
  {
  }

  lemma FifoAfterPush(accepted: Queues, received: Queues, queues: Queues, name: string, envelope: Envelope)
    requires Fifo(accepted, received, queues)
    ensures Fifo(Pushed(accepted, name, envelope), received, Pushed(queues, name, envelope))
  {
    PushedAt(queues, name, envelope);
    PushedAt(accepted, name, envelope);
    forall n
      ensures At(Pushed(accepted, name, envelope), n) == At(received, n) + At(Pushed(queues, name, envelope), n)
    {
      Regroup(At(received, n), At(queues, n), if n == name then [envelope] else []);
    }
  }

  lemma SendKeeps(s: State, t: nat)
    requires Inv(s) && t in s.threads && s.threads[t].SendHolding?
    ensures Inv(Acting(s, t))
  {
    var after := Acting(s, t);
    LockedAfter(s.owner, s.threads, t, after.threads[t]);
    if s.stopped {
      MoveKeeps(s, t, after.threads[t], None);
    } else {
      var SendHolding(name, envelope) := s.threads[t];
      PushedAt(s.queues, name, envelope);
      FifoAfterPush(s.accepted, s.received, s.queues, name, envelope);
      NotifierKeeps(s.stopped, after.queues, s.threads, t, Accepted);
      DecidedStays(s.stopped, s.queues, s.threads, s.stopped, after.queues, s.owner, t, Notifying(Accepted));
    }
  }

  lemma StopKeeps(s: State, t: nat)
    requires Inv(s) && t in s.threads && s.threads[t].StopHolding?
    ensures Inv(Acting(s, t))
  {
    var after := Acting(s, t);
    LockedAfter(s.owner, s.threads, t, after.threads[t]);
    if s.stopped {
      MoveKeeps(s, t, after.threads[t], None);
    } else {
      NotifierKeeps(true, s.queues, s.threads, t, StopDone);
      DecidedStays(s.stopped, s.queues, s.threads, true, s.queues, s.owner, t, Notifying(StopDone));
    }
  }

  lemma Regroup(a: seq<Envelope>, b: seq<Envelope>, c: seq<Envelope>)
    ensures a + (b + c) == (a + b) + c
  {
  }

  lemma FifoAfterPop(accepted: Queues, received: Queues, queues: Queues, name: string)
    requires Fifo(accepted, received, queues) && At(queues, name) != []
    ensures Fifo(accepted, Pushed(received, name, At(queues, name)[0]), Popped(queues, name))
  {
    var envelope := At(queues, name)[0];
    PoppedAt(queues, name);
    PushedAt(received, name, envelope);
    forall n ensures At(accepted, n) == At(Pushed(received, name, envelope), n) + At(Popped(queues, name), n) {
      Regroup(At(received, n), if n == name then [envelope] else [], At(Popped(queues, name), n));
    }
  }

  lemma NoLostWakeupAfterPop(queues: Queues, threads: Threads, t: nat, thread: Thread, name: string)
    requires NoLostWakeup(false, queues, threads) && At(queues, name) != []
    requires t in threads && threads[t].Deciding? && !thread.Asleep?
    ensures NoLostWakeup(false, Popped(queues, name), threads[t := thread])
  {
    PoppedAt(queues, name);
    if SomeoneNotifies(threads) {
      OthersStillNotify(threads, t, thread);
    }
  }

  lemma DecideKeeps(s: State, t: nat)
    requires Inv(s) && t in s.threads && s.threads[t].Deciding?
    ensures Inv(Acting(s, t))
  {
    var after := Acting(s, t);
    var name := s.threads[t].name;
    LockedAfter(s.owner, s.threads, t, after.threads[t]);
    if s.stopped || At(s.queues, name) == [] {
      MoveKeeps(s, t, after.threads[t], None);
    } else {
      PoppedAt(s.queues, name);
      FifoAfterPop(s.accepted, s.received, s.queues, name);
      NoLostWakeupAfterPop(s.queues, s.threads, t, after.threads[t], name);
      DecidedStays(s.stopped, s.queues, s.threads, s.stopped, after.queues, s.owner, t, after.threads[t]);
    }
  }

  lemma ActKeeps(s: State, t: nat)
    requires Inv(s) && Enabled(s, Act(t))
    ensures Inv(Acting(s, t))
  {
    match s.threads[t]
    case SendHolding(_, _) => SendKeeps(s, t);
    case FirstCheck(_, _) => CheckKeeps(s, t);
    case Recheck(_, _) => CheckKeeps(s, t);
    case Deciding(_, _) => DecideKeeps(s, t);
    case StopHolding => StopKeeps(s, t);
  }

  lemma InvKept(s: State, step: Step)
    requires Inv(s) && Enabled(s, step)
    ensures Inv(Apply(s, step))
  {
    match step
    case Acquire(t) => AcquireKeeps(s, t);
    case Act(t) => ActKeeps(s, t);
    case NotifyAll(t) => NotifyKeeps(s, t);
    case Wake(t) => WakeKeeps(s, t, Notified(s.threads[t]));
    case Expire(t) => WakeKeeps(s, t, Expired(s.threads[t].name, s.threads[t].timeout));
    case _ => CallKeeps(s, step);
  }

  lemma {:induction false} InvAlong(s: State, steps: seq<Step>)
    requires Inv(s) && Resume(s, steps).Some?
    ensures Inv(Resume(s, steps).value)
  {
    if steps != [] {
      InvAlong(s, steps[..|steps| - 1]);
      InvKept(Resume(s, steps[..|steps| - 1]).value, steps[|steps| - 1]);
    }
  }

  lemma ReachableInv(s: State)
    requires Reachable(s)
    ensures Inv(s)
  {
    var steps :| Resume(INITIAL, steps) == Some(s);
    InvAlong(INITIAL, steps);
  }

  // ---------- what every run guarantees ----------

  /** No reachable state has a receiver asleep on a non-empty address or a stopped transport, unless a notify_all is
      still outstanding. */
  lemma NoWakeupIsLost(s: State, t: nat)
    requires Reachable(s) && t in s.threads && s.threads[t].Asleep?
    ensures Ready(s.stopped, s.queues, s.threads[t].name) ==> SomeoneNotifies(s.threads)
  {
    ReachableInv(s);
  }

  lemma FifoPerAddress(s: State, name: string)
    requires Reachable(s)
    ensures At(s.accepted, name) == At(s.received, name) + At(s.queues, name)
    ensures name in s.queues ==> s.queues[name] != []
  {
    ReachableInv(s);
  }

  /** The atomic transport that the threads implement: one queue per address and a stop flag. */
  datatype Event =
    | Silent
    | Enqueued(name: string, envelope: Envelope)
    | Dequeued(name: string, envelope: Envelope)
    | TimedOut(name: string)
    | Refused
    | StopRequested

  ghost predicate Atomic(s: State, event: Event, s': State) {
    match event
    case Silent =>
      s'.stopped == s.stopped && forall n :: At(s'.queues, n) == At(s.queues, n)
    case Enqueued(name, envelope) =>
      && !s.stopped && !s'.stopped
      && forall n :: At(s'.queues, n) == At(s.queues, n) + if n == name then [envelope] else []
    case Dequeued(name, envelope) =>
      && !s.stopped && !s'.stopped
      && forall n :: At(s.queues, n) == (if n == name then [envelope] else []) + At(s'.queues, n)
    case TimedOut(name) =>
      && !s.stopped && At(s.queues, name) == []
      && !s'.stopped && forall n :: At(s'.queues, n) == At(s.queues, n)
    case Refused =>
      s.stopped && s'.stopped && forall n :: At(s'.queues, n) == At(s.queues, n)
    case StopRequested =>
      s'.stopped && forall n :: At(s'.queues, n) == At(s.queues, n)
  }

  /** What a step means to the callers, read off from what the thread is about to return and where it was waiting. */
  function EventOf(s: State, step: Step): Event
    requires Enabled(s, step)
  {
    if !step.Act? then Silent
    else
      var before := s.threads[step.t];
      match Acting(s, step.t).threads[step.t]
      case Notifying(Accepted) => Enqueued(before.name, before.envelope)
      case Notifying(StopDone) => StopRequested
      case Returned(Received(envelope)) => Dequeued(before.name, envelope)
      case Returned(Failed(Timeout)) => TimedOut(before.name)
      case Returned(Failed(Unavailable)) => Refused
      case _ => Silent
  }

  lemma SendRefines(s: State, t: nat)
    requires t in s.threads && s.threads[t].SendHolding?
    ensures Atomic(s, EventOf(s, Act(t)), Acting(s, t))
  {
    PushedAt(s.queues, s.threads[t].name, s.threads[t].envelope);
  }

  lemma DecideRefines(s: State, t: nat)
    requires t in s.threads && s.threads[t].Deciding?
    ensures Atomic(s, EventOf(s, Act(t)), Acting(s, t))
  {
    if !s.stopped && At(s.queues, s.threads[t].name) != [] {
      PoppedAt(s.queues, s.threads[t].name);
    }
  }

  lemma OthersRefine(s: State, t: nat)
    requires t in s.threads && (s.threads[t].FirstCheck? || s.threads[t].Recheck? || s.threads[t].StopHolding?)
    ensures Atomic(s, EventOf(s, Act(t)), Acting(s, t))
  {
  }

  /** Every step is one operation of the atomic transport or none: a timeout is reported only for an empty address of a
      running transport, unavailability only after the stop, and a message is the oldest one. */
  lemma StepRefinesAtomic(s: State, step: Step)
    requires Enabled(s, step)
    ensures Atomic(s, EventOf(s, step), Apply(s, step))
  {
    if step.Act? {
      match s.threads[step.t]
      case SendHolding(_, _) => SendRefines(s, step.t);
      case Deciding(_, _) => DecideRefines(s, step.t);
      case _ => OthersRefine(s, step.t);
    }
  }

  /** A receive without a timeout never reports one. */
  lemma UntimedNeverTimesOut(s: State, t: nat)
    requires Reachable(s) && t in s.threads && Holding(s.threads[t])
    requires || ((s.threads[t].FirstCheck? || s.threads[t].Recheck?) && s.threads[t].timeout.None?)
             || (s.threads[t].Deciding? && !s.threads[t].waitedWithTimeout)
    ensures Acting(s, t).threads[t] != Returned(Failed(Timeout))
  {
    ReachableInv(s);
  }

  /** After the stop nothing is accepted and nothing is received, however many messages still wait. */
  lemma {:induction false} StopIsAbsorbing(s: State, steps: seq<Step>)
    requires s.stopped && Resume(s, steps).Some?
    ensures var t := Resume(s, steps).value;
            t.stopped && t.queues == s.queues && t.accepted == s.accepted && t.received == s.received
  {
    if steps != [] {
      StopIsAbsorbing(s, steps[..|steps| - 1]);
    }
  }

  /** How many more of its own steps a receiver needs once the transport is stopped. */
  function Remaining(thread: Thread): nat {
    match thread
    case Asleep(_, _) => 4
    case ReceiveEntering(_, _) => 3
    case Woken(_, _) => 3
    case FirstCheck(_, _) => 2
    case Recheck(_, _) => 2
    case Expired(_, _) => 2
    case Deciding(_, _) => 1
    case _ => 0
  }

  predicate Receiving(thread: Thread) {
    Remaining(thread) > 0
  }

  lemma StoppedOwnStep(s: State, step: Step)
    requires s.stopped && Enabled(s, step) && step.t in s.threads && Receiving(s.threads[step.t])
    ensures var thread := Apply(s, step).threads[step.t];
            && Remaining(thread) < Remaining(s.threads[step.t])
            && (!Receiving(thread) ==> thread == Returned(Failed(Unavailable)))
  {
    var thread := s.threads[step.t];
    if step.Act? {
      assert thread.FirstCheck? || thread.Recheck? || thread.Deciding?;
    }
  }

  lemma ActsAlone(s: State, t: nat)
    requires t in s.threads && Holding(s.threads[t])
    ensures t in Acting(s, t).threads && Acting(s, t).threads == s.threads[t := Acting(s, t).threads[t]]
  {
    var thread := Acting(s, t).threads[t];
    assert s.threads[t := thread][t] == thread;
  }

  lemma OtherStep(s: State, step: Step, t: nat)
    requires Enabled(s, step) && t in s.threads && step.t != t
    ensures t in Apply(s, step).threads
    ensures Apply(s, step).threads[t] == if step.NotifyAll? then Notified(s.threads[t]) else s.threads[t]
  {
    if step.Act? {
      ActsAlone(s, step.t);
    }
  }

  /** Once stopped, a receiver comes closer to returning with every step of its own, is never set back by a step of
      another thread, is taken out of its sleep by every notify_all, and returns Unavailable. */
  lemma StoppedStep(s: State, step: Step, t: nat)
    requires s.stopped && Enabled(s, step) && t in s.threads && Receiving(s.threads[t])
    ensures t in Apply(s, step).threads
    ensures var thread := Apply(s, step).threads[t];
            && Remaining(thread) <= Remaining(s.threads[t])
            && (step.t == t || (step.NotifyAll? && s.threads[t].Asleep?) ==>
                  Remaining(thread) < Remaining(s.threads[t]))
            && (!Receiving(thread) ==> thread == Returned(Failed(Unavailable)))
  {
    if step.t == t {
      StoppedOwnStep(s, step);
    } else {
      OtherStep(s, step, t);
    }
  }

  function OwnSteps(steps: seq<Step>, t: nat): nat {
    if steps == [] then 0
    else OwnSteps(steps[..|steps| - 1], t) + if steps[|steps| - 1].t == t then 1 else 0
  }

  /** At some point of the run the thread has returned Unavailable. */
  ghost predicate ReturnsAlong(s: State, steps: seq<Step>, t: nat) {
    exists n :: 0 <= n <= |steps| && ReturnedAfter(s, steps[..n], t)
  }

  predicate ReturnedAfter(s: State, steps: seq<Step>, t: nat) {
    var after := Resume(s, steps);
    after.Some? && t in after.value.threads && after.value.threads[t] == Returned(Failed(Unavailable))
  }

  lemma ReturnsAlongMore(s: State, steps: seq<Step>, t: nat)
    requires steps != [] && ReturnsAlong(s, steps[..|steps| - 1], t)
    ensures ReturnsAlong(s, steps, t)
  {
    var prefix := steps[..|steps| - 1];
    var n :| 0 <= n <= |prefix| && ReturnedAfter(s, prefix[..n], t);
    assert steps[..n] == prefix[..n];
  }

  lemma {:induction false} StillReceiving(s: State, steps: seq<Step>, t: nat)
    requires s.stopped && t in s.threads && Receiving(s.threads[t]) && Resume(s, steps).Some?
    requires !ReturnsAlong(s, steps, t)
    ensures var after := Resume(s, steps).value;
            && t in after.threads && Receiving(after.threads[t])
            && Remaining(after.threads[t]) + OwnSteps(steps, t) <= Remaining(s.threads[t])
  {
    if steps != [] {
      var prefix := steps[..|steps| - 1];
      var last := steps[|steps| - 1];
      if ReturnsAlong(s, prefix, t) {
        ReturnsAlongMore(s, steps, t);
      }
      StillReceiving(s, prefix, t);
      StopIsAbsorbing(s, prefix);
      StoppedStep(Resume(s, prefix).value, last, t);
      assert steps[..|steps|] == steps;
      assert !ReturnedAfter(s, steps[..|steps|], t);
    }
  }

  /** Once stopped, a receiver returns Unavailable within four steps of its own, whatever the others do. */
  lemma StoppedReceiversReturn(s: State, steps: seq<Step>, t: nat)
    requires s.stopped && t in s.threads && Receiving(s.threads[t]) && Resume(s, steps).Some?
    requires OwnSteps(steps, t) >= Remaining(s.threads[t])
    ensures ReturnsAlong(s, steps, t) && Remaining(s.threads[t]) <= 4
  {
    if !ReturnsAlong(s, steps, t) {
      StillReceiving(s, steps, t);
    }
  }

  /** No deadlock: a thread in a call that is not asleep can always take its next step, or the thread that holds the
      lock can. */
  lemma AwakeThreadsCanMove(s: State, t: nat)
    requires Reachable(s) && t in s.threads && !s.threads[t].Asleep? && !s.threads[t].Returned?
    ensures || Enabled(s, Act(t)) || Enabled(s, Acquire(t)) || Enabled(s, NotifyAll(t))
            || (s.owner.Some? && s.owner.value != t && Enabled(s, Act(s.owner.value)))
  {
    ReachableInv(s);
  }

  /** After the stop, once every notify_all has been carried out, nobody sleeps. */
  lemma ShutdownReleasesEveryone(s: State)
    requires Reachable(s) && s.stopped && !SomeoneNotifies(s.threads)
    ensures forall t <- s.threads :: !s.threads[t].Asleep?
  {
    ReachableInv(s);
  }
}
