/** The promises of the correlation protocol, over every reachable state. */
module QOffloadTheorems {
  import opened Ids
  import opened Messages
  import opened Tasks
  import opened Forwarding
  import opened ControlProtocol
  import opened Control
  import opened QOffload
  import opened QOffloadInvariant
  import opened QOffloadRuns

  // ---------- routing ----------

  /** The id under which a task that QRM answered was registered. */
  function AnsweredId(c: Setup, answer: Answer): uint64
    requires answer.Answer?
  {
    IdAt(c, answer.origin)
  }

  lemma AnswerIsTraced(c: Setup, s: State, answer: Answer)
    requires Inv(c, s) && answer.Answer? && Answers(s.h.outbound, answer)
    ensures answer.origin < |s.h.issued|
    ensures AnsweredId(c, answer) in s.h.owner && s.h.owner[AnsweredId(c, answer)].index == answer.origin
    ensures s.h.owner[AnsweredId(c, answer)].issue == s.h.issued[answer.origin]
    ensures answer.result.taskId == ToInt32(AnsweredId(c, answer))
    ensures s.h.outbound[answer.origin]
         == ForwardedTask(s.h.issued[answer.origin].task, AnsweredId(c, answer), c.config)
  {
    var id := IdsOf(c);
    assert IsOutbound(id, c.config, s.h.owner, answer.origin, s.h.outbound[answer.origin]);
    assert OwnsNumber(id, s.h.issued, id(answer.origin), s.h.owner[id(answer.origin)]);
  }

  lemma KeyIsTraced(c: Setup, s: State, k: uint64)
    requires Inv(c, s) && k in s.h.owner
    ensures s.h.owner[k].index < |s.h.issued| && IdAt(c, s.h.owner[k].index) == k
    ensures s.h.issued[s.h.owner[k].index] == s.h.owner[k].issue
  {
    assert OwnsNumber(IdsOf(c), s.h.issued, k, s.h.owner[k]);
  }

  lemma CorrelationIsTraced(c: Setup, s: State, k: uint64)
    requires Inv(c, s) && k in s.h.correlated
    ensures k in s.h.owner && InRange(k)
    ensures Traced(s.h.outbound, c.config.resultQueue, s.h.handed, s.h.correlated[k])
    ensures s.h.correlated[k].Answer? ==> k == ReturnKey(AnsweredId(c, s.h.correlated[k]))
    ensures s.h.correlated[k].Echo? ==> s.h.handed[s.h.correlated[k].handout].key != k
    ensures k == ToUint64(s.h.correlated[k].result.taskId)
  {
    var answer := s.h.correlated[k];
    assert Matches(s.h.outbound, c.config.resultQueue, s.h.handed, k, answer);
    Int32Survives(answer.result.taskId);
    ReturnsUnchangedIffInRange(k);
    if answer.Answer? {
      AnswerIsTraced(c, s, answer);
    }
  }

  /** QRM's answer reaches the request it answers exactly when the id of that request survives the wire. */
  lemma RoutedRightIffInRange(c: Setup, s: State, k: uint64)
    requires Reachable(c, s) && Fresh(s) && k in s.h.correlated && s.h.correlated[k].Answer?
    ensures k in s.h.owner
    ensures s.h.owner[k].index == s.h.correlated[k].origin <==> InRange(AnsweredId(c, s.h.correlated[k]))
  {
    ReachableInv(c, s);
    CorrelationIsTraced(c, s, k);
    KeyIsTraced(c, s, k);
    AnswerIsTraced(c, s, s.h.correlated[k]);
    ReturnsUnchangedIffInRange(AnsweredId(c, s.h.correlated[k]));
    IdsDistinct(c, s.h.owner[k].index, s.h.correlated[k].origin);
  }

  lemma EarlyIdsOwnKey(c: Setup, i: nat, j: nat)
    requires i < TWO_28 && j < TWO_28
    ensures ReturnKey(IdAt(c, i)) == IdAt(c, j) <==> i == j && InRange(IdAt(c, i))
    ensures ToInt32(IdAt(c, i)) == ToInt32(IdAt(c, j)) <==> i == j
  {
    assert ToUint64(i) == i && ToUint64(j) == j;
    OwnKeyOrNone(i, j, c.uid);
    EarlyWireIdsDiffer(i, j, c.uid);
  }

  /** Direct request j can get its result, lets it be sent to the result queue, and calls itself by the id of another
      submission i. */
  predicate Crosses(c: Setup, issued: seq<Issue>, i: nat, j: nat) {
    && i < |issued| && j < |issued| && i != j
    && issued[j].DirectIssue?
    && issued[j].task.resultDestination == c.config.resultQueue != ""
    && ToUint64(issued[j].task.taskId) == IdAt(c, i)
    && InRange(IdAt(c, j))
  }

  ghost predicate Uncrossed(c: Setup, issued: seq<Issue>) {
    forall i: nat, j: nat :: !Crosses(c, issued, i, j)
  }

  /** An echo that looks under an id of someone else comes from a request that crosses it. */
  lemma EchoCrosses(c: Setup, s: State, echo: Answer, k: uint64)
    requires Inv(c, s) && Fresh(s) && echo.Echo? && Echoes(c.config.resultQueue, s.h.handed, echo)
    requires k in s.h.owner && k == ToUint64(echo.result.taskId) && k != s.h.handed[echo.handout].key
    ensures s.h.handed[echo.handout].key in s.h.owner
    ensures Crosses(c, s.h.issued, s.h.owner[k].index, s.h.owner[s.h.handed[echo.handout].key].index)
  {
    var handout := s.h.handed[echo.handout];
    assert Delivers(s.h.owner, s.h.correlated, handout.key, handout.destination, handout.result);
    CorrelationIsTraced(c, s, handout.key);
    KeyIsTraced(c, s, k);
    KeyIsTraced(c, s, handout.key);
  }

  /** The result for task i comes back under the id of task j. */
  predicate Collides(c: Setup, n: nat, i: nat, j: nat) {
    i < n && j < n && i != j && ReturnKey(IdAt(c, i)) == IdAt(c, j)
  }

  lemma CollidesIff(c: Setup, n: nat, i: nat, j: nat)
    requires i < n <= TWO_60 && j < n
    ensures Collides(c, n, i, j) <==> i != j && i % TWO_28 == j % TWO_28 && InRange(IdAt(c, j))
  {
    assert ToUint64(i) == i && ToUint64(j) == j;
    SameWireIdIff(i, j, c.uid);
    KeyMatchesIff(IdAt(c, i), IdAt(c, j));
  }

  /** No result for another task comes back under the id of task k, neither from QRM nor as an echo. */
  ghost predicate Undisturbed(c: Setup, issued: seq<Issue>, k: nat) {
    && (forall j: nat :: !Crosses(c, issued, k, j))
    && (forall i: nat :: !Collides(c, |issued|, i, k))
  }

  /** If nothing disturbs a task, its entry is taken by QRM's answer to that task. */
  lemma UndisturbedIsRight(c: Setup, s: State, k: uint64)
    requires Reachable(c, s) && Fresh(s) && k in s.h.correlated && k in s.h.owner
    requires Undisturbed(c, s.h.issued, s.h.owner[k].index)
    ensures s.h.correlated[k].Answer? && s.h.correlated[k].origin == s.h.owner[k].index
    ensures k == AnsweredId(c, s.h.correlated[k])
  {
    ReachableInv(c, s);
    CorrelationIsTraced(c, s, k);
    KeyIsTraced(c, s, k);
    if s.h.correlated[k].Echo? {
      EchoCrosses(c, s, s.h.correlated[k], k);
    } else {
      AnswerIsTraced(c, s, s.h.correlated[k]);
      assert !Collides(c, |s.h.issued|, s.h.correlated[k].origin, s.h.owner[k].index);
    }
  }

  /** Up to 2^28 ids only a crossing disturbs. */
  lemma EarlyIsUndisturbed(c: Setup, issued: seq<Issue>, k: nat)
    requires |issued| <= TWO_28 && forall j: nat :: !Crosses(c, issued, k, j)
    ensures Undisturbed(c, issued, k)
  {
    forall i: nat ensures !Collides(c, |issued|, i, k) {
      if i < |issued| && k < |issued| {
        EarlyIdsOwnKey(c, i, k);
      }
    }
  }

  /** Up to 2^28 ids, if nobody crosses anyone, every correlation is right: the entry taken is the one of the task
      that QRM answered. */
  lemma CorrelatedWithOwnTask(c: Setup, s: State, k: uint64)
    requires Reachable(c, s) && |s.h.issued| <= TWO_28 && Uncrossed(c, s.h.issued) && k in s.h.correlated
    ensures k in s.h.owner && s.h.correlated[k].Answer? && s.h.owner[k].index == s.h.correlated[k].origin
    ensures k == AnsweredId(c, s.h.correlated[k])
  {
    ReachableInv(c, s);
    CorrelationIsTraced(c, s, k);
    EarlyIsUndisturbed(c, s.h.issued, s.h.owner[k].index);
    UndisturbedIsRight(c, s, k);
  }

  /** The handout is QRM's answer, under the id and destination of the direct request whose forwarded task was
      answered, and that task is the only one that QRM got under the answer's wire id. */
  ghost predicate AnswersRequest(c: Setup, s: State, handout: Handout, answer: Answer) {
    && answer.Answer?
    && answer.origin < |s.h.issued| && answer.origin in s.h.outbound
    && s.h.issued[answer.origin].DirectIssue?
    && s.h.outbound[answer.origin].taskId == answer.result.taskId == ToInt32(handout.key)
    && handout.destination == s.h.issued[answer.origin].task.resultDestination
    && handout.result == answer.result.(taskId := s.h.issued[answer.origin].task.taskId,
                                        destination := s.h.issued[answer.origin].task.resultDestination)
    && (forall j <- s.h.outbound :: s.h.outbound[j].taskId == answer.result.taskId <==> j == answer.origin)
  }

  /** No other task at QRM has the wire id of an undisturbed one that survives the wire. */
  lemma WireIdIsOwn(c: Setup, s: State, i: nat)
    requires Inv(c, s) && i < |s.h.issued| && InRange(IdAt(c, i)) && Undisturbed(c, s.h.issued, i)
    ensures forall j <- s.h.outbound :: s.h.outbound[j].taskId == ToInt32(IdAt(c, i)) <==> j == i
  {
    ReturnsUnchangedIffInRange(IdAt(c, i));
    forall j <- s.h.outbound ensures s.h.outbound[j].taskId == ToInt32(IdAt(c, i)) <==> j == i {
      OutboundTaskId(c, s, j);
      assert !Collides(c, |s.h.issued|, j, i);
    }
  }

  lemma HandoutIsDelivered(c: Setup, s: State, n: nat)
    requires Inv(c, s) && n < |s.h.handed|
    ensures var handout := s.h.handed[n];
            Delivers(s.h.owner, s.h.correlated, handout.key, handout.destination, handout.result)
  {
  }

  /** What was sent to a client for an undisturbed task is the answer to exactly that task, under the id and at the
      destination of the direct request behind it. */
  lemma HandoutIsRight(c: Setup, s: State, n: nat)
    requires Reachable(c, s) && Fresh(s) && n < |s.h.handed| && s.h.handed[n].key in s.h.owner
    requires Undisturbed(c, s.h.issued, s.h.owner[s.h.handed[n].key].index)
    ensures var handout := s.h.handed[n];
            handout.key in s.h.correlated && AnswersRequest(c, s, handout, s.h.correlated[handout.key])
  {
    ReachableInv(c, s);
    HandoutIsDelivered(c, s, n);
    var answer := s.h.correlated[s.h.handed[n].key];
    UndisturbedIsRight(c, s, s.h.handed[n].key);
    CorrelationIsTraced(c, s, s.h.handed[n].key);
    AnswerIsTraced(c, s, answer);
    WireIdIsOwn(c, s, answer.origin);
  }

  /** No misrouting: with at most 2^28 ids issued and no request crossing another, whatever was sent to a client queue
      is the answer to exactly one forwarded task, under the id and at the destination of the direct request behind
      that task. */
  lemma NoMisrouting(c: Setup, s: State, n: nat)
    requires Reachable(c, s) && |s.h.issued| <= TWO_28 && Uncrossed(c, s.h.issued) && n < |s.h.handed|
    ensures var handout := s.h.handed[n];
            handout.key in s.h.correlated && AnswersRequest(c, s, handout, s.h.correlated[handout.key])
  {
    ReachableInv(c, s);
    HandoutIsDelivered(c, s, n);
    EarlyIsUndisturbed(c, s.h.issued, s.h.owner[s.h.handed[n].key].index);
    HandoutIsRight(c, s, n);
  }

  lemma OutboundTaskId(c: Setup, s: State, j: nat)
    requires Inv(c, s) && j in s.h.outbound
    ensures j < |s.h.issued| && s.h.outbound[j].taskId == ToInt32(IdAt(c, j)) && IdAt(c, j) in s.h.owner
  {
    var result := QuantumResult(s.h.outbound[j].taskId, [], "", false, "", [], "", 0.0);
    AnswerIsTraced(c, s, Answer(j, result));
  }

  /** Every task at QRM is its submission under the narrowed id: QRM sends the result to the result queue, tasks from an
      HPC node have priority 1, and nothing else was changed. */
  lemma OutboundIsSubmission(c: Setup, s: State, i: nat)
    requires Reachable(c, s) && Fresh(s) && i in s.h.outbound
    ensures i < |s.h.issued|
    ensures var task, submitted := s.h.outbound[i], s.h.issued[i].task;
            && task.taskId == ToInt32(IdAt(c, i))
            && task.resultDestination == c.config.resultQueue
            && task.priority == (if c.config.hpcNode then 1 else submitted.priority)
            && task == submitted.(taskId := task.taskId, resultDestination := task.resultDestination,
                                  priority := task.priority)
  {
    ReachableInv(c, s);
    var result := QuantumResult(s.h.outbound[i].taskId, [], "", false, "", [], "", 0.0);
    AnswerIsTraced(c, s, Answer(i, result));
  }

  // ---------- registration and correlation ----------

  /** What took the entry of task i is QRM's answer to task i. */
  predicate TakenByAnswerTo(s: State, k: uint64, i: nat) {
    k in s.h.correlated && s.h.correlated[k].Answer? && s.h.correlated[k].origin == i
  }

  /** Every task that reached QRM is pending under its id with its own entry until a result takes the entry, and is
      correlated from then on, never both; the taker is its own answer. */
  lemma PendingUntilAnswered(c: Setup, s: State, i: nat)
    requires Reachable(c, s) && Fresh(s) && i in s.h.outbound
    ensures var id := IdAt(c, i);
            && i < |s.h.issued|
            && (id in s.store.pending <==> id !in s.h.correlated)
            && (id in s.store.pending ==> s.store.pending[id] == EntryFor(s.h.issued[i], id))
            && (|s.h.issued| <= TWO_28 && Uncrossed(c, s.h.issued) && id in s.h.correlated ==>
                  TakenByAnswerTo(s, id, i))
  {
    ReachableInv(c, s);
    var id := IdAt(c, i);
    OutboundTaskId(c, s, i);
    KeyIsTraced(c, s, id);
    IdsDistinct(c, s.h.owner[id].index, i);
    if |s.h.issued| <= TWO_28 && Uncrossed(c, s.h.issued) && id in s.h.correlated {
      CorrelatedWithOwnTask(c, s, id);
    }
  }

  /** With at most 2^28 ids, the answer of QRM in the worker's hands finds an entry exactly when its id is in range and
      the entry was not taken before; without crossings only an earlier answer to the same task can have done so. */
  lemma FoundIffFirstAndInRange(c: Setup, s: State)
    requires Reachable(c, s) && |s.h.issued| <= TWO_28 && s.result.ResultReceived? && s.result.answer.Answer?
    ensures var id := AnsweredId(c, s.result.answer);
            && (ReceivedKey(s) in s.store.pending <==> InRange(id) && id !in s.h.correlated)
            && (Uncrossed(c, s.h.issued) && id in s.h.correlated ==> TakenByAnswerTo(s, id, s.result.answer.origin))
  {
    ReachableInv(c, s);
    var answer := s.result.answer;
    var id := AnsweredId(c, answer);
    AnswerIsTraced(c, s, answer);
    PendingUntilAnswered(c, s, answer.origin);
    ReturnsUnchangedIffInRange(id);
    if ReceivedKey(s) in s.store.pending {
      KeyIsTraced(c, s, ReceivedKey(s));
      EarlyIdsOwnKey(c, answer.origin, s.h.owner[ReceivedKey(s)].index);
    }
  }

  lemma ReceivedEcho(c: Setup, s: State)
    requires Inv(c, s) && s.result.ResultReceived? && s.result.answer.Echo? && ReceivedKey(s) in s.store.pending
    ensures Echoes(c.config.resultQueue, s.h.handed, s.result.answer)
    ensures ReceivedKey(s) in s.h.owner && s.h.handed[s.result.answer.handout].key != ReceivedKey(s)
  {
    HandedAreCorrelated(s.h.owner, s.h.correlated, s.h.handed);
  }

  /** Without crossings a handout that comes back through the result queue finds nothing. */
  lemma EchoFindsNothing(c: Setup, s: State)
    requires Reachable(c, s) && Fresh(s) && Uncrossed(c, s.h.issued)
    requires s.result.ResultReceived? && s.result.answer.Echo?
    ensures ReceivedKey(s) !in s.store.pending
  {
    ReachableInv(c, s);
    if ReceivedKey(s) in s.store.pending {
      ReceivedEcho(c, s);
      EchoCrosses(c, s, s.result.answer, ReceivedKey(s));
    }
  }

  /** A registered id that does not survive the wire stays pending for good: no result ever finds its entry. */
  lemma OutOfRangeStaysPending(c: Setup, s: State, k: uint64)
    requires Reachable(c, s) && Fresh(s) && k in s.h.owner && !InRange(k)
    ensures k in s.store.pending && s.store.Status(k) == Waiting
  {
    ReachableInv(c, s);
    if k in s.h.correlated {
      CorrelationIsTraced(c, s, k);
    }
  }

  /** An answer of QRM was dropped as unknown only if its id did not survive the wire or the entry of its id was taken
      before: up to 2^28 ids and without crossings, by an earlier answer to the same task. */
  lemma UnknownIsLostOrRepeated(c: Setup, s: State, n: nat)
    requires Reachable(c, s) && Fresh(s) && n < |s.h.unknown| && s.h.unknown[n].Answer?
    ensures var id := AnsweredId(c, s.h.unknown[n]);
            && (!InRange(id) || id in s.h.correlated)
            && (|s.h.issued| <= TWO_28 && Uncrossed(c, s.h.issued) ==>
                  !InRange(id) || TakenByAnswerTo(s, id, s.h.unknown[n].origin))
  {
    ReachableInv(c, s);
    var answer := s.h.unknown[n];
    assert Traced(s.h.outbound, c.config.resultQueue, s.h.handed, answer);
    PendingUntilAnswered(c, s, answer.origin);
  }

  /** However often QRM repeats itself, a request yields at most one direct result and an id at most one fetch,
      and never both. */
  lemma AnsweredAtMostOnce(c: Setup, s: State)
    requires Reachable(c, s) && Fresh(s)
    ensures forall m, n :: 0 <= m < n < |s.h.handed| ==> s.h.handed[m].key != s.h.handed[n].key
    ensures forall m, n :: 0 <= m < n < |s.h.fetched| ==> s.h.fetched[m].key != s.h.fetched[n].key
    ensures forall m, n :: 0 <= m < |s.h.handed| && 0 <= n < |s.h.fetched| ==> s.h.handed[m].key != s.h.fetched[n].key
    ensures s.store.pending.Keys !! s.store.completed.Keys
  {
    ReachableInv(c, s);
    forall m, n | 0 <= m < |s.h.handed| && 0 <= n < |s.h.fetched| ensures s.h.handed[m].key != s.h.fetched[n].key {
      assert Delivers(s.h.owner, s.h.correlated, s.h.handed[m].key, s.h.handed[m].destination, s.h.handed[m].result);
      assert Keeps(s.h.owner, s.h.correlated, s.h.fetched[n].key, s.h.fetched[n].task);
    }
  }

  // ---------- conservation ----------

  predicate Counted(s: State) {
    && s.h.takes == |s.h.correlated|
    && |s.h.owner| == |s.store.pending| + s.h.takes
    && s.h.takes == TransferCount(s.result) + |s.h.handed| + |s.store.completed| + |s.h.fetched|
  }

  /** What a step adds to a map was not in it. */
  predicate AddsNew(s: State, step: Step)
    requires Enabled(s, step)
  {
    match step
    case DirectRegister => s.direct.id !in s.h.owner && s.direct.id !in s.store.pending
    case ControlRegister => s.control.id !in s.h.owner && s.control.id !in s.store.pending
    case ResultTake => ReceivedKey(s) in s.store.pending ==> ReceivedKey(s) !in s.h.correlated
    case ResultStore => s.result.completed.taskId !in s.store.completed
    case _ => true
  }

  lemma RegisteringIsNew(c: Setup, s: State)
    requires Inv(c, s) && Fresh(s)
    ensures s.direct.DirectNumbered? ==> s.direct.id !in s.h.owner && s.direct.id !in s.store.pending
    ensures s.control.ControlNumbered? ==> s.control.id !in s.h.owner && s.control.id !in s.store.pending
  {
    NumberingFits(c, s);
    if s.direct.DirectNumbered? {
      HeldIsFresh(IdsOf(c), s.h.issued, s.h.owner, s.direct, s.control, s.direct.index);
    }
    if s.control.ControlNumbered? {
      HeldIsFresh(IdsOf(c), s.h.issued, s.h.owner, s.direct, s.control, s.control.index);
    }
  }

  lemma StepAddsNew(c: Setup, s: State, step: Step)
    requires Inv(c, s) && Fresh(s) && Enabled(s, step)
    ensures AddsNew(s, step)
  {
    RegisteringIsNew(c, s);
    if step.ResultStore? {
      PlacesAfterStore(s.h.correlated, s.result, s.store.completed, s.h.fetched, s.h.handed);
      ContentsAfterStore(s.h.owner, s.h.correlated, s.result, s.store.completed, s.h.fetched, s.h.handed);
    }
  }

  lemma OneMore<V>(m: map<uint64, V>, k: uint64, value: V)
    requires k !in m
    ensures |m[k := value]| == |m| + 1
  {
    assert m[k := value].Keys == m.Keys + {k};
  }

  lemma OneFewer<V>(m: map<uint64, V>, k: uint64)
    requires k in m
    ensures |m - {k}| == |m| - 1
  {
    assert (m - {k}).Keys == m.Keys - {k};
  }

  lemma RegisteringCounts(s: State, registration: Registration, entry: PendingTask)
    requires Counted(s) && entry.forwardedTaskId !in s.h.owner && entry.forwardedTaskId !in s.store.pending
    ensures Counted(Registering(s, registration, entry))
  {
    OneMore(s.h.owner, entry.forwardedTaskId, registration);
    OneMore(s.store.pending, entry.forwardedTaskId, entry);
  }

  lemma DirectRegisteringCounts(c: Setup, s: State)
    requires Counted(s) && Enabled(s, DirectRegister) && AddsNew(s, DirectRegister)
    ensures Counted(DirectRegistering(c, s))
  {
    RegisteringCounts(s, Registration(s.direct.index, DirectIssue(s.direct.request)),
                      DirectEntry(s.direct.request, s.direct.id));
  }

  lemma ControlRegisteringCounts(c: Setup, s: State)
    requires Counted(s) && Enabled(s, ControlRegister) && AddsNew(s, ControlRegister)
    ensures Counted(ControlRegistering(c, s))
  {
    RegisteringCounts(s, Registration(s.control.index, ControlIssue(s.control.task)), ControlEntry(s.control.id));
  }

  lemma TakingCounts(s: State)
    requires Counted(s) && s.result.ResultReceived?
    requires ReceivedKey(s) in s.store.pending ==> ReceivedKey(s) !in s.h.correlated
    ensures Counted(ResultTaking(s))
  {
    if ReceivedKey(s) in s.store.pending {
      OneMore(s.h.correlated, ReceivedKey(s), s.result.answer);
      OneFewer(s.store.pending, ReceivedKey(s));
    }
  }

  lemma FetchingCounts(s: State)
    requires Counted(s) && s.control.ControlChecked? && Fetches(s.control.command)
    ensures Counted(ControlTaking(s))
  {
    if s.control.command.taskId in s.store.completed {
      OneFewer(s.store.completed, s.control.command.taskId);
    } else {
      ControlTakingNothing(s);
    }
  }

  /** The steps that move an id. */
  predicate Moves(step: Step) {
    || step.DirectRegister? || step.ControlRegister? || step.ResultTake? || step.ResultStore? || step.ResultSend?
    || step.ControlTake?
  }

  lemma LeavingCounts(c: Setup, s: State, step: Step)
    requires Enabled(s, step) && Counted(s) && AddsNew(s, step)
    requires step.ResultTake? || step.ResultStore? || step.ResultSend? || step.ControlTake?
    ensures Counted(Apply(c, s, step))
  {
    match step
    case ResultTake => TakingCounts(s);
    case ResultStore => OneMore(s.store.completed, s.result.completed.taskId, s.result.completed);
    case ResultSend(_) =>
    case ControlTake => FetchingCounts(s);
  }

  lemma OthersKeepTallies(c: Setup, s: State, step: Step)
    requires Enabled(s, step) && !Moves(step)
    ensures var t := Apply(c, s, step);
            && t.store == s.store
            && TransferCount(t.result) == TransferCount(s.result)
            && t.h == s.h.(issued := t.h.issued, outbound := t.h.outbound, replies := t.h.replies)
  {
  }

  lemma StepCounts(c: Setup, s: State, step: Step)
    requires Enabled(s, step) && Counted(s) && AddsNew(s, step)
    ensures Counted(Apply(c, s, step))
  {
    if step.DirectRegister? {
      DirectRegisteringCounts(c, s);
    } else if step.ControlRegister? {
      ControlRegisteringCounts(c, s);
    } else if Moves(step) {
      LeavingCounts(c, s, step);
    } else {
      OthersKeepTallies(c, s, step);
    }
  }

  lemma ReachableAddsNew(c: Setup, s: State, step: Step)
    requires Reachable(c, s) && Fresh(s) && Enabled(s, step)
    ensures AddsNew(s, step)
  {
    ReachableInv(c, s);
    StepAddsNew(c, s, step);
  }

  lemma {:induction false} CountedAlong(c: Setup, steps: seq<Step>)
    requires Resume(c, INITIAL, steps).Some? && Fresh(Resume(c, INITIAL, steps).value)
    ensures Counted(Resume(c, INITIAL, steps).value)
  {
    if steps != [] {
      var prefix := steps[..|steps| - 1];
      var t := Resume(c, INITIAL, prefix).value;
      StepNumbers(c, t, steps[|steps| - 1]);
      CountedAlong(c, prefix);
      ReachableAddsNew(c, t, steps[|steps| - 1]);
      StepCounts(c, t, steps[|steps| - 1]);
    }
  }

  /** Every registered id is accounted for, and the pending count is registrations minus correlated results. */
  lemma Conservation(c: Setup, s: State)
    requires Reachable(c, s) && Fresh(s)
    ensures |s.h.owner|
         == |s.store.pending| + TransferCount(s.result) + |s.h.handed| + |s.store.completed| + |s.h.fetched|
    ensures |s.store.pending| == |s.h.owner| - s.h.takes
    ensures s.h.takes == |s.h.correlated|
  {
    var steps :| Resume(c, INITIAL, steps) == Some(s);
    CountedAlong(c, steps);
  }

  // ---------- content ----------

  /** A control result as QRM's result determines it. */
  predicate Records(task: CompletedControlTask, k: uint64, result: QuantumResult) {
    && task.taskId == k
    && task.executionStatus == result.executionStatus
    && task.resultCounts == result.results
    && task.cancelReason == ""
    && task.timestampScheduled == task.timestampSubmitted == task.timestampCompleted == ""
  }

  lemma FetchedTask(c: Setup, s: State, n: nat)
    requires Reachable(c, s) && Fresh(s) && n < |s.h.fetched|
    ensures var fetch := s.h.fetched[n];
            && fetch.key in s.h.correlated && fetch.key in s.h.owner
            && s.h.owner[fetch.key].issue.ControlIssue?
            && Records(fetch.task, fetch.key, s.h.correlated[fetch.key].result)
  {
    ReachableInv(c, s);
    assert Keeps(s.h.owner, s.h.correlated, s.h.fetched[n].key, s.h.fetched[n].task);
  }

  lemma CompletedTask(c: Setup, s: State, k: uint64)
    requires Reachable(c, s) && Fresh(s) && k in s.store.completed
    ensures k in s.h.correlated && k in s.h.owner && s.h.owner[k].issue.ControlIssue?
    ensures Records(s.store.completed[k], k, s.h.correlated[k].result)
    ensures k !in s.store.pending
  {
    ReachableInv(c, s);
    assert Keeps(s.h.owner, s.h.correlated, k, s.store.completed[k]);
  }

  /** What took the entry of k is QRM's answer to the control task that was created under k. */
  predicate AnswersControlTask(c: Setup, s: State, k: uint64) {
    && k in s.h.correlated && s.h.correlated[k].Answer?
    && s.h.correlated[k].origin < |s.h.issued|
    && s.h.issued[s.h.correlated[k].origin].ControlIssue?
    && IdAt(c, s.h.correlated[k].origin) == k
  }

  /** Up to 2^28 ids and without crossings, what was fetched is QRM's answer to the task created under that id. */
  lemma FetchAnswersOwnTask(c: Setup, s: State, n: nat)
    requires Reachable(c, s) && |s.h.issued| <= TWO_28 && Uncrossed(c, s.h.issued) && n < |s.h.fetched|
    ensures AnswersControlTask(c, s, s.h.fetched[n].key)
  {
    FetchedTask(c, s, n);
    CorrelatedWithOwnTask(c, s, s.h.fetched[n].key);
    ReachableInv(c, s);
    KeyIsTraced(c, s, s.h.fetched[n].key);
  }

  // ---------- lifecycle ----------

  /** Where an id is: 0 unregistered, 1 waiting, 2 between take and store or send, 3 completed, 4 handed out or
      fetched. */
  function StageOf(owner: Owner, pending: map<uint64, PendingTask>, result: ResultWorker,
                   completed: map<uint64, CompletedControlTask>, k: uint64): nat {
    if k !in owner then 0
    else if k in pending then 1
    else if InTransfer(result, k) then 2
    else if k in completed then 3
    else 4
  }

  function Stage(s: State, k: uint64): nat {
    StageOf(s.h.owner, s.store.pending, s.result, s.store.completed, k)
  }

  lemma HandedKind(owner: Owner, correlated: Correlated, handed: seq<Handout>, k: uint64)
    requires Handed(owner, correlated, handed) && WasHanded(handed, k)
    ensures k in owner && k in correlated && owner[k].issue.DirectIssue?
  {
    var n :| 0 <= n < |handed| && handed[n].key == k;
    assert Delivers(owner, correlated, k, handed[n].destination, handed[n].result);
  }

  lemma FetchedKind(owner: Owner, correlated: Correlated, fetched: seq<Fetch>, k: uint64)
    requires Fetched(owner, correlated, fetched) && WasFetched(fetched, k)
    ensures k in owner && k in correlated && owner[k].issue.ControlIssue?
  {
    var n :| 0 <= n < |fetched| && fetched[n].key == k;
    assert Keeps(owner, correlated, k, fetched[n].task);
  }

  lemma FinalStageOf(owner: Owner, correlated: Correlated, pending: map<uint64, PendingTask>, result: ResultWorker,
                     completed: map<uint64, CompletedControlTask>, fetched: seq<Fetch>, handed: seq<Handout>, k: uint64)
    requires Registered(owner, correlated, pending) && Contents(owner, correlated, result, completed, fetched, handed)
    requires Places(correlated, result, completed, fetched, handed)
    ensures StageOf(owner, pending, result, completed, k) == 4 <==> WasHanded(handed, k) || WasFetched(fetched, k)
  {
    if WasHanded(handed, k) {
      HandedKind(owner, correlated, handed, k);
    }
    if WasFetched(fetched, k) {
      FetchedKind(owner, correlated, fetched, k);
    }
  }

  lemma NotFoundWindowOf(owner: Owner, correlated: Correlated, store: Store, result: ResultWorker,
                         fetched: seq<Fetch>, handed: seq<Handout>, k: uint64)
    requires Registered(owner, correlated, store.pending)
    requires Contents(owner, correlated, result, store.completed, fetched, handed)
    requires Places(correlated, result, store.completed, fetched, handed)
    requires k in owner && owner[k].issue.ControlIssue? && !WasFetched(fetched, k)
    ensures store.Status(k) == NotFound <==> result.ResultStoring? && result.key == k
  {
    if WasHanded(handed, k) {
      HandedKind(owner, correlated, handed, k);
      assert false;
    }
    assert result.ResultStoring? && result.key == k ==> InTransfer(result, k);
  }

  /** A registered control id that was not fetched reads as NotFound exactly while the result worker holds its result
      between taking the pending entry and storing the completed one. */
  lemma NotFoundWindow(c: Setup, s: State, k: uint64)
    requires Reachable(c, s) && Fresh(s)
    requires k in s.h.owner && s.h.owner[k].issue.ControlIssue? && !WasFetched(s.h.fetched, k)
    ensures s.store.Status(k) == NotFound <==> s.result.ResultStoring? && s.result.key == k
  {
    ReachableInv(c, s);
    NotFoundWindowOf(s.h.owner, s.h.correlated, s.store, s.result, s.h.fetched, s.h.handed, k);
  }

  /** A fetch that saw a completed task gets it: the check and the take are two steps, but nothing comes between. */
  lemma SeenIsTaken(c: Setup, s: State)
    requires Reachable(c, s) && Fresh(s) && s.control.ControlChecked? && s.control.seen != NotFound
    ensures Fetches(s.control.command) && s.control.command.taskId in s.store.completed
  {
    ReachableInv(c, s);
  }

  lemma RegisteringAdvances(s: State, registration: Registration, entry: PendingTask, k: uint64)
    requires entry.forwardedTaskId !in s.h.owner
    ensures var t := Registering(s, registration, entry);
            Stage(s, k) <= StageOf(t.h.owner, t.store.pending, t.result, t.store.completed, k)
  {
  }

  lemma TakingAdvances(s: State, k: uint64)
    requires s.result.ResultReceived?
    ensures Stage(s, k) <= Stage(ResultTaking(s), k)
  {
  }

  lemma StoringAdvances(s: State, k: uint64)
    requires s.result.ResultStoring? && s.result.completed.taskId == s.result.key
    ensures Stage(s, k) <= Stage(ResultStored(s), k)
  {
  }

  lemma SendingAdvances(c: Setup, s: State, accepted: bool, k: uint64)
    requires s.result.ResultSending?
    ensures Stage(s, k) <= Stage(ResultSent(c, s, accepted), k)
  {
  }

  lemma FetchingAdvances(s: State, k: uint64)
    requires s.control.ControlChecked? && Fetches(s.control.command)
    ensures Stage(s, k) <= Stage(ControlTaking(s), k)
  {
  }

  lemma DirectRegisteringAdvances(c: Setup, s: State, k: uint64)
    requires Inv(c, s) && Fresh(s) && s.direct.DirectNumbered?
    ensures Stage(s, k) <= Stage(DirectRegistering(c, s), k)
  {
    NumberingFits(c, s);
    HeldIsFresh(IdsOf(c), s.h.issued, s.h.owner, s.direct, s.control, s.direct.index);
    RegisteringAdvances(s, Registration(s.direct.index, DirectIssue(s.direct.request)),
                        DirectEntry(s.direct.request, s.direct.id), k);
  }

  lemma ControlRegisteringAdvances(c: Setup, s: State, k: uint64)
    requires Inv(c, s) && Fresh(s) && s.control.ControlNumbered?
    ensures Stage(s, k) <= Stage(ControlRegistering(c, s), k)
  {
    NumberingFits(c, s);
    HeldIsFresh(IdsOf(c), s.h.issued, s.h.owner, s.direct, s.control, s.control.index);
    RegisteringAdvances(s, Registration(s.control.index, ControlIssue(s.control.task)), ControlEntry(s.control.id), k);
  }

  lemma StoringAdvancesIn(c: Setup, s: State, k: uint64)
    requires Inv(c, s) && s.result.ResultStoring?
    ensures Stage(s, k) <= Stage(ResultStored(s), k)
  {
    ContentsAfterStore(s.h.owner, s.h.correlated, s.result, s.store.completed, s.h.fetched, s.h.handed);
    StoringAdvances(s, k);
  }

  lemma OthersStay(c: Setup, s: State, step: Step, k: uint64)
    requires Enabled(s, step) && !Moves(step)
    ensures Stage(s, k) == Stage(Apply(c, s, step), k)
  {
  }

  lemma LeavingAdvances(c: Setup, s: State, step: Step, k: uint64)
    requires Enabled(s, step) && (step.ResultTake? || step.ResultSend? || step.ControlTake?)
    ensures Stage(s, k) <= Stage(Apply(c, s, step), k)
  {
    match step
    case ResultTake => TakingAdvances(s, k);
    case ResultSend(accepted) => SendingAdvances(c, s, accepted, k);
    case ControlTake => FetchingAdvances(s, k);
  }

  lemma StepAdvances(c: Setup, s: State, step: Step, k: uint64)
    requires Inv(c, s) && Fresh(s) && Enabled(s, step)
    ensures Stage(s, k) <= Stage(Apply(c, s, step), k)
  {
    if step.DirectRegister? {
      DirectRegisteringAdvances(c, s, k);
    } else if step.ControlRegister? {
      ControlRegisteringAdvances(c, s, k);
    } else if step.ResultStore? {
      StoringAdvancesIn(c, s, k);
    } else if Moves(step) {
      LeavingAdvances(c, s, step, k);
    } else {
      OthersStay(c, s, step, k);
    }
  }

  /** The first correlation of an id is never replaced. */
  lemma StepKeepsCorrelations(c: Setup, s: State, step: Step, k: uint64)
    requires Enabled(s, step) && k in s.h.correlated
    ensures k in Apply(c, s, step).h.correlated && Apply(c, s, step).h.correlated[k] == s.h.correlated[k]
  {
  }

  lemma {:induction false} AlongTheRun(c: Setup, s: State, steps: seq<Step>, k: uint64)
    requires Inv(c, s) && Resume(c, s, steps).Some? && Fresh(Resume(c, s, steps).value)
    ensures var t := Resume(c, s, steps).value;
            && Stage(s, k) <= Stage(t, k)
            && (k in s.h.correlated ==> k in t.h.correlated && t.h.correlated[k] == s.h.correlated[k])
  {
    if steps != [] {
      var prefix := steps[..|steps| - 1];
      var last := steps[|steps| - 1];
      var t := Resume(c, s, prefix).value;
      StepNumbers(c, t, last);
      AlongTheRun(c, s, prefix, k);
      InvAlong(c, s, prefix);
      StepAdvances(c, t, last, k);
      if k in s.h.correlated {
        StepKeepsCorrelations(c, t, last, k);
      }
    }
  }

  /** Every id moves only forward, and what it was first correlated with stays, however the steps interleave. */
  lemma OnlyForward(c: Setup, s: State, t: State, k: uint64)
    requires Reachable(c, s) && Leads(c, s, t) && Fresh(s) && Fresh(t)
    ensures Stage(s, k) <= Stage(t, k)
    ensures k in s.h.correlated ==> k in t.h.correlated && t.h.correlated[k] == s.h.correlated[k]
  {
    ReachableInv(c, s);
    var steps :| Resume(c, s, steps) == Some(t);
    AlongTheRun(c, s, steps, k);
  }

  /** What the stages mean: the last one is reached by being handed out or fetched, and only so. */
  lemma StageMeans(c: Setup, s: State, k: uint64)
    requires Reachable(c, s) && Fresh(s)
    ensures Stage(s, k) == 1 <==> k in s.store.pending
    ensures Stage(s, k) == 2 <==> InTransfer(s.result, k)
    ensures Stage(s, k) == 3 <==> k in s.store.completed
    ensures Stage(s, k) == 4 <==> WasHanded(s.h.handed, k) || WasFetched(s.h.fetched, k)
  {
    ReachableInv(c, s);
    StagesOf(s.h.owner, s.h.correlated, s.store.pending, s.result, s.store.completed, s.h.fetched, s.h.handed, k);
    FinalStageOf(s.h.owner, s.h.correlated, s.store.pending, s.result, s.store.completed, s.h.fetched, s.h.handed, k);
  }

  lemma StagesOf(owner: Owner, correlated: Correlated, pending: map<uint64, PendingTask>, result: ResultWorker,
                 completed: map<uint64, CompletedControlTask>, fetched: seq<Fetch>, handed: seq<Handout>, k: uint64)
    requires Registered(owner, correlated, pending) && Contents(owner, correlated, result, completed, fetched, handed)
    requires Places(correlated, result, completed, fetched, handed)
    ensures StageOf(owner, pending, result, completed, k) == 1 <==> k in pending
    ensures StageOf(owner, pending, result, completed, k) == 2 <==> InTransfer(result, k)
    ensures StageOf(owner, pending, result, completed, k) == 3 <==> k in completed
  {
  }

  /** An error answer of a control step leaves the store as it was. */
  lemma ControlErrorsChangeNothing(c: Setup, s: State, step: Step)
    requires Enabled(s, step) && (step.ControlAct? || step.ControlTake?)
    requires var t := Apply(c, s, step); t.control.ControlReplying? && t.control.result.ControlError?
    ensures Apply(c, s, step).store == s.store
  {
    if step.ControlTake? {
      var id := s.control.command.taskId;
      assert id !in s.store.completed;
      ControlTakingNothing(s);
    }
  }
}
