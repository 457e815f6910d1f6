/** What can still happen: from every reachable state a waiting task can be answered, and its client be told. */
module QOffloadContinuations {
  import opened Ids
  import opened Messages
  import opened Tasks
  import opened Forwarding
  import opened ControlProtocol
  import opened Control
  import opened QOffload
  import opened QOffloadInvariant
  import opened QOffloadRuns
  import opened QOffloadTheorems
  import opened QOffloadReplies
  import opened QOffloadRounds

  /** A reachable state that continues an earlier one. */
  ghost predicate Continues(c: Setup, origin: State, s: State) {
    Reachable(c, s) && Leads(c, origin, s)
  }

  lemma Starts(c: Setup, s: State)
    requires Reachable(c, s)
    ensures Continues(c, s, s)
  {
    assert Resume(c, s, []) == Some(s);
  }

  lemma StepContinues(c: Setup, origin: State, s: State, step: Step)
    requires Continues(c, origin, s) && Enabled(s, step)
    ensures Continues(c, origin, Apply(c, s, step))
  {
    StepLeads(c, INITIAL, s, step);
    StepLeads(c, origin, s, step);
  }

  lemma {:induction false} ResumeReaches(c: Setup, s: State, steps: seq<Step>)
    requires Reachable(c, s) && Resume(c, s, steps).Some?
    ensures Reachable(c, Resume(c, s, steps).value)
  {
    if steps != [] {
      var prefix := steps[..|steps| - 1];
      ResumeReaches(c, s, prefix);
      StepLeads(c, INITIAL, Resume(c, s, prefix).value, steps[|steps| - 1]);
    }
  }

  lemma LeadsReaches(c: Setup, s: State, t: State)
    requires Reachable(c, s) && Leads(c, s, t)
    ensures Reachable(c, t)
  {
    var steps :| Resume(c, s, steps) == Some(t);
    ResumeReaches(c, s, steps);
  }

  // ---------- the result worker works off what waits ----------

  /** What the result worker leaves alone; every new handout is accepted unless it has nowhere to go. */
  predicate ResultsOnly(s: State, t: State) {
    && t.requests == s.requests && t.controls == s.controls && t.direct == s.direct && t.control == s.control
    && t.nextIndex == s.nextIndex
    && t.h.issued == s.h.issued && t.h.outbound == s.h.outbound && t.h.owner == s.h.owner
    && t.h.created == s.h.created && t.h.fetched == s.h.fetched && t.h.replies == s.h.replies
    && s.h.handed <= t.h.handed
    && forall n :: |s.h.handed| <= n < |t.h.handed| ==>
         (t.h.handed[n].accepted <==> t.h.handed[n].destination != "")
  }

  predicate IsAnswerTo(answer: Answer, i: nat) {
    answer.Answer? && answer.origin == i
  }

  /** No answer to task i waits to be processed. */
  predicate NoAnswerWaits(results: seq<Answer>, result: ResultWorker, i: nat) {
    && (forall n :: 0 <= n < |results| ==> !IsAnswerTo(results[n], i))
    && (result.ResultReceived? ==> !IsAnswerTo(result.answer, i))
  }

  function WorkOf(result: ResultWorker): nat {
    match result
    case ResultIdle => 0
    case ResultReceived(_) => 1
    case ResultStoring(_, _) => 1
    case ResultSending(_, _, _) => 3
  }

  function ResultWork(s: State): nat {
    3 * |s.store.pending| + 2 * |s.results| + WorkOf(s.result)
  }

  /** The next step of the result worker. */
  function ResultStep(s: State): Step {
    match s.result
    case ResultIdle => ResultReceive(true)
    case ResultReceived(_) => ResultTake
    case ResultStoring(_, _) => ResultStore
    case ResultSending(_, _, _) => ResultSend(true)
  }

  lemma TakingWorks(s: State)
    requires s.result.ResultReceived?
    ensures ResultsOnly(s, ResultTaking(s)) && ResultWork(ResultTaking(s)) < ResultWork(s)
    ensures ResultTaking(s).results == s.results && !ResultTaking(s).result.ResultReceived?
  {
    if ReceivedKey(s) in s.store.pending {
      OneFewer(s.store.pending, ReceivedKey(s));
    }
  }

  lemma ResultStepWorks(c: Setup, s: State)
    requires Enabled(s, ResultStep(s))
    ensures var t := Apply(c, s, ResultStep(s));
            && ResultsOnly(s, t) && ResultWork(t) < ResultWork(s)
            && forall i: nat :: NoAnswerWaits(s.results, s.result, i) ==> NoAnswerWaits(t.results, t.result, i)
  {
    if s.result.ResultReceived? {
      TakingWorks(s);
    }
  }

  /** A step that takes the entry of an undisturbed task takes it for an answer to that task. */
  lemma TakesOwnAnswer(c: Setup, s: State, k: uint64)
    requires Reachable(c, s) && Fresh(s) && Enabled(s, ResultStep(s))
    requires k in s.h.owner && Undisturbed(c, s.h.issued, s.h.owner[k].index)
    requires k !in s.h.correlated && k in Apply(c, s, ResultStep(s)).h.correlated
    ensures !NoAnswerWaits(s.results, s.result, s.h.owner[k].index)
  {
    var t := Apply(c, s, ResultStep(s));
    StepLeads(c, INITIAL, s, ResultStep(s));
    ResultStepWorks(c, s);
    assert s.result.ResultReceived? && t.h.correlated[k] == s.result.answer;
    UndisturbedIsRight(c, t, k);
  }

  lemma ResultsOnlyChains(s: State, t: State, u: State)
    requires ResultsOnly(s, t) && ResultsOnly(t, u)
    ensures ResultsOnly(s, u)
  {
  }

  /** Working off what waits does not take the entry of k, unless something disturbs it or answers it. */
  ghost predicate Spares(c: Setup, s: State, t: State, k: uint64)
    requires k in s.h.owner
  {
    && k !in s.h.correlated
    && Undisturbed(c, s.h.issued, s.h.owner[k].index)
    && NoAnswerWaits(s.results, s.result, s.h.owner[k].index)
    ==> k !in t.h.correlated
  }

  lemma StepSpares(c: Setup, s: State, t: State, k: uint64)
    requires Reachable(c, s) && Fresh(s) && Enabled(s, ResultStep(s)) && k in s.h.owner
    requires var next := Apply(c, s, ResultStep(s)); k in next.h.owner && Spares(c, next, t, k)
    ensures Spares(c, s, t, k)
  {
    ResultStepWorks(c, s);
    var next := Apply(c, s, ResultStep(s));
    if k !in s.h.correlated && k in next.h.correlated && Undisturbed(c, s.h.issued, s.h.owner[k].index) {
      TakesOwnAnswer(c, s, k);
    }
  }

  /** The result worker can work off everything that waits for it. It takes the entry of an undisturbed task only if an
      answer to that task was waiting. */
  lemma {:induction false} ResultsDrain(c: Setup, origin: State, s: State) returns (t: State)
    requires Continues(c, origin, s) && Fresh(s)
    ensures Continues(c, origin, t) && ResultsOnly(s, t)
    ensures t.result.ResultIdle? && t.results == []
    ensures forall k <- s.h.owner :: Spares(c, s, t, k)
    decreases ResultWork(s)
  {
    if s.result.ResultIdle? && s.results == [] {
      t := s;
    } else {
      var next := Apply(c, s, ResultStep(s));
      StepContinues(c, origin, s, ResultStep(s));
      ResultStepWorks(c, s);
      t := ResultsDrain(c, origin, next);
      ResultsOnlyChains(s, next, t);
      forall k <- s.h.owner ensures Spares(c, s, t, k) {
        StepSpares(c, s, t, k);
      }
    }
  }

  // ---------- QRM answers ----------

  lemma AnswerContinues(c: Setup, origin: State, s: State, answer: Answer)
    requires Continues(c, origin, s) && Fresh(s) && s.result.ResultIdle? && s.results == []
    requires answer.Answer? && Answers(s.h.outbound, answer)
    ensures Continues(c, origin, ResultTaken(s.(results := [answer])))
  {
    OutboundIsSubmission(c, s, answer.origin);
    var asked := s.(results := [answer]);
    assert s.results + [answer] == [answer];
    StepContinues(c, origin, s, QrmAnswers(answer.origin, answer.result));
    StepContinues(c, origin, asked, ResultReceive(true));
    StepContinues(c, origin, ResultReceiving(asked, true), ResultTake);
  }

  lemma AnswerFinds(c: Setup, s: State, i: nat)
    requires Reachable(c, s) && Fresh(s) && i in s.h.outbound
    requires InRange(IdAt(c, i)) && IdAt(c, i) !in s.h.correlated
    ensures i < |s.h.issued| && ToUint64(s.h.outbound[i].taskId) == IdAt(c, i)
    ensures IdAt(c, i) in s.store.pending && s.store.pending[IdAt(c, i)] == EntryFor(s.h.issued[i], IdAt(c, i))
  {
    PendingUntilAnswered(c, s, i);
    ReachableInv(c, s);
    OutboundTaskId(c, s, i);
    ReturnsUnchangedIffInRange(IdAt(c, i));
  }

  /** With nothing waiting at the result worker, QRM's answer to task i takes the entry of task i. */
  lemma AnswerTakes(c: Setup, origin: State, s: State, i: nat, payload: QuantumResult) returns (t: State)
    requires Continues(c, origin, s) && Fresh(s) && s.result.ResultIdle? && s.results == []
    requires i in s.h.outbound && InRange(IdAt(c, i)) && IdAt(c, i) !in s.h.correlated
    ensures Continues(c, origin, t) && ResultsOnly(s, t) && t.results == []
    ensures i < |s.h.issued| && UnderWay(t, IdAt(c, i), s.h.issued[i], AnswerTo(s, i, payload).result)
    ensures t.h.correlated == s.h.correlated[IdAt(c, i) := AnswerTo(s, i, payload)]
  {
    var answer := AnswerTo(s, i, payload);
    AnswerFinds(c, s, i);
    AnswerContinues(c, origin, s, answer);
    TakenIsUnderWay(s.(results := [answer]), IdAt(c, i), s.h.issued[i]);
    t := ResultTaken(s.(results := [answer]));
  }

  lemma OwnerOf(c: Setup, s: State, i: nat)
    requires Reachable(c, s) && Fresh(s) && i in s.h.outbound
    ensures i < |s.h.issued| && IdAt(c, i) in s.h.owner && s.h.owner[IdAt(c, i)] == Registration(i, s.h.issued[i])
  {
    ReachableInv(c, s);
    OutboundTaskId(c, s, i);
    KeyIsTraced(c, s, IdAt(c, i));
    IdsDistinct(c, s.h.owner[IdAt(c, i)].index, i);
  }

  /** Every task at QRM whose id is in range and whose entry was not taken can be answered: what waits is worked off,
      and if the entry was not taken then, QRM answers it. */
  lemma CanBeTaken(c: Setup, origin: State, s: State, i: nat, payload: QuantumResult) returns (t: State)
    requires Continues(c, origin, s) && Fresh(s)
    requires i in s.h.outbound && InRange(IdAt(c, i)) && IdAt(c, i) !in s.h.correlated
    ensures Continues(c, origin, t) && ResultsOnly(s, t) && t.result.ResultIdle?
    ensures IdAt(c, i) in t.h.correlated
    ensures Undisturbed(c, s.h.issued, i) && NoAnswerWaits(s.results, s.result, i) ==>
              t.h.correlated[IdAt(c, i)] == AnswerTo(s, i, payload)
  {
    OwnerOf(c, s, i);
    var drained := ResultsDrain(c, origin, s);
    assert Spares(c, s, drained, IdAt(c, i));
    if IdAt(c, i) in drained.h.correlated {
      t := drained;
    } else {
      var taken := AnswerTakes(c, origin, drained, i, payload);
      StepContinues(c, origin, taken, ResultStep(taken));
      ResultStepWorks(c, taken);
      t := Apply(c, taken, ResultStep(taken));
      ResultsOnlyChains(s, drained, taken);
      ResultsOnlyChains(s, taken, t);
    }
  }

  /** An untaken entry of a task at QRM can still be taken exactly if its id is in range. */
  lemma CanBeTakenIffInRange(c: Setup, s: State, i: nat)
    requires Reachable(c, s) && Fresh(s) && i in s.h.outbound && IdAt(c, i) !in s.h.correlated
    ensures (exists t :: Leads(c, s, t) && Fresh(t) && IdAt(c, i) in t.h.correlated) <==> InRange(IdAt(c, i))
  {
    if t :| Leads(c, s, t) && Fresh(t) && IdAt(c, i) in t.h.correlated {
      LeadsReaches(c, s, t);
      ReachableInv(c, t);
      CorrelationIsTraced(c, t, IdAt(c, i));
    }
    if InRange(IdAt(c, i)) {
      Starts(c, s);
      var t := CanBeTaken(c, s, s, i, QuantumResult(0, [], "", false, "", [], "", 0.0));
    }
  }

  /** A direct client whose undisturbed task is at QRM, untaken and in range can still be sent QRM's payload, under its
      own id, at its own destination, whatever has happened so far. */
  lemma DirectCanBeAnswered(c: Setup, s: State, i: nat, payload: QuantumResult) returns (t: State, n: nat)
    requires Reachable(c, s) && Fresh(s) && i in s.h.outbound && InRange(IdAt(c, i)) && IdAt(c, i) !in s.h.correlated
    requires i < |s.h.issued| && s.h.issued[i].DirectIssue? && Undisturbed(c, s.h.issued, i)
    ensures Leads(c, s, t) && n < |t.h.handed|
    ensures TakenByAnswerTo(t, IdAt(c, i), i)
    ensures NoAnswerWaits(s.results, s.result, i) ==> t.h.correlated[IdAt(c, i)] == AnswerTo(s, i, payload)
    ensures var request := s.h.issued[i].task;
            t.h.handed[n] == Handout(IdAt(c, i), request.resultDestination,
                                     t.h.correlated[IdAt(c, i)].result.(taskId := request.taskId,
                                                                        destination := request.resultDestination),
                                     request.resultDestination != "")
  {
    var id := IdAt(c, i);
    Starts(c, s);
    t := CanBeTaken(c, s, s, i, payload);
    OwnerOf(c, t, i);
    UndisturbedIsRight(c, t, id);
    n := HandoutOf(c, s, t, id);
  }

  /** A direct id that was taken since was handed out since. */
  lemma HandoutOf(c: Setup, s: State, t: State, k: uint64) returns (n: nat)
    requires Reachable(c, s) && Fresh(s) && Reachable(c, t) && Fresh(t) && ResultsOnly(s, t) && t.result.ResultIdle?
    requires k !in s.h.correlated && k in t.h.correlated && k in t.h.owner && t.h.owner[k].issue.DirectIssue?
    ensures n < |t.h.handed| && t.h.handed[n].key == k
    ensures Delivers(t.h.owner, t.h.correlated, k, t.h.handed[n].destination, t.h.handed[n].result)
    ensures t.h.handed[n].accepted <==> t.h.handed[n].destination != ""
  {
    IdleIsPlaced(c, t, k);
    n :| 0 <= n < |t.h.handed| && t.h.handed[n].key == k;
    ReachableInv(c, t);
    HandoutIsDelivered(c, t, n);
    if n < |s.h.handed| {
      ReachableInv(c, s);
      HandoutIsDelivered(c, s, n);
    }
  }

  lemma IdleIsPlaced(c: Setup, s: State, k: uint64)
    requires Reachable(c, s) && Fresh(s) && s.result.ResultIdle? && k in s.h.correlated && k in s.h.owner
    ensures s.h.owner[k].issue.DirectIssue? ==> WasHanded(s.h.handed, k)
    ensures s.h.owner[k].issue.ControlIssue? ==> k in s.store.completed || WasFetched(s.h.fetched, k)
    ensures k !in s.store.pending
  {
    ReachableInv(c, s);
    if WasFetched(s.h.fetched, k) {
      FetchedKind(s.h.owner, s.h.correlated, s.h.fetched, k);
    }
    if WasHanded(s.h.handed, k) {
      HandedKind(s.h.owner, s.h.correlated, s.h.handed, k);
    }
    if k in s.store.completed {
      assert Keeps(s.h.owner, s.h.correlated, k, s.store.completed[k]);
    }
  }

  // ---------- the control worker works off what waits ----------

  /** What the control worker leaves alone. It may create tasks, which are no direct ones, and never takes entries of
      pending tasks. */
  predicate ControlOnly(s: State, t: State) {
    && t.requests == s.requests && t.results == s.results && t.direct == s.direct && t.result == s.result
    && t.h.correlated == s.h.correlated && t.h.handed == s.h.handed
    && s.h.outbound.Keys <= t.h.outbound.Keys
    && s.h.issued <= t.h.issued
    && (forall j :: |s.h.issued| <= j < |t.h.issued| ==> t.h.issued[j].ControlIssue?)
  }

  function MayCreate(control: ControlWorker): nat {
    if control.ControlDecoded? then 1 else 0
  }

  /** An upper bound for the numbers issued by the time that the control worker is done. */
  function IssuedAtMost(s: State): nat {
    |s.h.issued| + |s.controls| + MayCreate(s.control)
  }

  function ControlWork(s: State): nat {
    6 * |s.controls| +
    match s.control
    case ControlIdle => 0
    case ControlDecoded(_, _) => 5
    case ControlNumbered(_, _, _, _) => 4
    case ControlRegistered(_, _, _) => 3
    case ControlChecked(_, _, _) => 2
    case ControlReplying(_, _) => 1
  }

  /** The next step of the control worker. */
  function ControlStep(s: State): Step {
    match s.control
    case ControlIdle => ControlReceive(true)
    case ControlDecoded(_, _) => ControlAct
    case ControlNumbered(_, _, _, _) => ControlRegister
    case ControlRegistered(_, _, _) => ControlSend(true)
    case ControlChecked(_, _, _) => ControlTake
    case ControlReplying(_, _) => ControlReply(true)
  }

  predicate ControlAdvances(s: State, t: State) {
    ControlOnly(s, t) && ControlWork(t) < ControlWork(s) && IssuedAtMost(t) <= IssuedAtMost(s)
  }

  lemma ActingAdvances(c: Setup, s: State)
    requires s.control.ControlDecoded?
    ensures ControlAdvances(s, ControlActing(c, s))
  {
  }

  lemma ControlStepAdvances(c: Setup, s: State)
    requires Enabled(s, ControlStep(s))
    ensures ControlAdvances(s, Apply(c, s, ControlStep(s)))
  {
    if s.control.ControlDecoded? {
      ActingAdvances(c, s);
    }
  }

  lemma ControlStepEnabled(c: Setup, s: State)
    requires Reachable(c, s) && Fresh(s) && (s.control.ControlIdle? ==> s.controls != [])
    ensures Enabled(s, ControlStep(s))
  {
    ReachableInv(c, s);
  }

  /** The control worker can work off everything that waits for it. */
  lemma {:induction false} ControlsDrain(c: Setup, origin: State, s: State) returns (t: State)
    requires Continues(c, origin, s) && IssuedAtMost(s) <= TWO_60
    ensures Continues(c, origin, t) && ControlOnly(s, t) && |t.h.issued| <= IssuedAtMost(s)
    ensures t.control.ControlIdle? && t.controls == []
    decreases ControlWork(s)
  {
    if s.control.ControlIdle? && s.controls == [] {
      t := s;
    } else {
      ControlStepEnabled(c, s);
      StepContinues(c, origin, s, ControlStep(s));
      ControlStepAdvances(c, s);
      var next := Apply(c, s, ControlStep(s));
      t := ControlsDrain(c, origin, next);
      ControlOnlyChains(s, next, t);
    }
  }

  lemma ControlOnlyChains(s: State, t: State, u: State)
    requires ControlOnly(s, t) && ControlOnly(t, u)
    ensures ControlOnly(s, u)
  {
  }

  /** New control tasks cross nobody. */
  lemma StaysUncrossed(c: Setup, s: State, t: State, i: nat)
    requires ControlOnly(s, t) && forall j: nat :: !Crosses(c, s.h.issued, i, j)
    requires i < |s.h.issued|
    ensures forall j: nat :: !Crosses(c, t.h.issued, i, j)
  {
    forall j: nat ensures !Crosses(c, t.h.issued, i, j) {
      if j < |s.h.issued| {
        assert !Crosses(c, s.h.issued, i, j);
      }
    }
  }

  // ---------- a control client fetches ----------

  /** An idle control worker decodes the next request. */
  lemma RequestDecoded(c: Setup, origin: State, s: State, request: APIRequest)
    requires Continues(c, origin, s) && s.control.ControlIdle? && s.controls == []
    ensures Continues(c, origin, s.(control := ControlDecoded(request, Understood(request).command)))
  {
    var asked := s.(controls := [request]);
    assert s.controls + [request] == [request] && asked.controls[1..] == s.controls;
    StepContinues(c, origin, s, ControlSubmits(request));
    StepContinues(c, origin, asked, ControlReceive(true));
    assert ControlReceiving(asked, true) == s.(control := ControlDecoded(request, Understood(request).command));
  }

  lemma FetchChecked(c: Setup, origin: State, s: State, request: APIRequest, command: ControlCommand)
    requires Continues(c, origin, s.(control := ControlDecoded(request, command)))
    requires Fetches(command) && command.taskId !in s.store.pending
    ensures Continues(c, origin, s.(control := ControlChecked(request, command, s.store.Status(command.taskId))))
  {
    var decoded := s.(control := ControlDecoded(request, command));
    StepContinues(c, origin, decoded, ControlAct);
    assert ControlActing(c, decoded) == s.(control := ControlChecked(request, command, s.store.Status(command.taskId)));
  }

  lemma FetchReplied(c: Setup, origin: State, s: State) returns (t: State)
    requires Continues(c, origin, s) && s.control.ControlReplying? && s.control.request.responseQueue != ""
    ensures Continues(c, origin, t)
    ensures t.h == s.h.(replies := s.h.replies + [Reply(s.control.request, s.control.result, |s.h.fetched|,
                                                        |s.h.created|,
                                                        ResponseTo(s.control.request, s.control.result))])
  {
    ReadsKind(s.control.request, s.control.result);
    StepContinues(c, origin, s, ControlReply(true));
    t := ControlReplied(s, true);
  }

  /** An idle control worker serves a fetch of a completed id, and the reply is sent. */
  lemma FetchServed(c: Setup, origin: State, s: State, request: APIRequest) returns (t: State)
    requires Continues(c, origin, s) && s.control.ControlIdle? && s.controls == []
    requires Fetches(Understood(request).command) && request.responseQueue != ""
    requires var k := Understood(request).command.taskId; k !in s.store.pending && k in s.store.completed
    ensures Continues(c, origin, t)
    ensures var command := Understood(request).command;
            var task := s.store.completed[command.taskId];
            && t.h.issued == s.h.issued && t.h.correlated == s.h.correlated
            && t.h.fetched == s.h.fetched + [Fetch(command.taskId, request, command, task)]
            && t.h.replies == s.h.replies + [Reply(request, FetchAnswer(command, Some(task)), |t.h.fetched|,
                                                   |s.h.created|,
                                                   ResponseTo(request, FetchAnswer(command, Some(task))))]
  {
    var command := Understood(request).command;
    RequestDecoded(c, origin, s, request);
    FetchChecked(c, origin, s, request, command);
    var looked := s.(control := ControlChecked(request, command, s.store.Status(command.taskId)));
    StepContinues(c, origin, looked, ControlTake);
    t := FetchReplied(c, origin, ControlTaking(looked));
  }

  function ResultRequest(id: uint64, queue: string): APIRequest {
    APIRequest("", "", "", map[], queue, TaskResultOf(ToInt32(id)))
  }

  function ReasonRequest(id: uint64, queue: string): APIRequest {
    APIRequest("", "", "", map[], queue, CancelReasonOf(ToInt32(id)))
  }

  lemma RequestsName(id: uint64, queue: string)
    requires InRange(id)
    ensures Understood(ResultRequest(id, queue)).command == GetTaskResult(id)
    ensures Understood(ReasonRequest(id, queue)).command == GetCancelReason(id)
  {
    ReturnsUnchangedIffInRange(id);
  }

  lemma TakenIsCompleted(c: Setup, s: State, t: State, k: uint64)
    requires Reachable(c, s) && Fresh(s) && Reachable(c, t) && Fresh(t) && ResultsOnly(s, t) && t.result.ResultIdle?
    requires k !in s.h.correlated && k in t.h.correlated && k in t.h.owner && t.h.owner[k].issue.ControlIssue?
    ensures k !in t.store.pending && k in t.store.completed
    ensures t.store.completed[k] == CompletedFrom(t.h.correlated[k].result, ControlEntry(k))
  {
    IdleIsPlaced(c, t, k);
    ReachableInv(c, s);
    if WasFetched(s.h.fetched, k) {
      FetchedKind(s.h.owner, s.h.correlated, s.h.fetched, k);
    }
    ReachableInv(c, t);
    assert Keeps(t.h.owner, t.h.correlated, k, t.store.completed[k]);
  }

  /** A control client that asks for the result of its undisturbed task, which is at QRM, untaken and in range, can
      still be sent QRM's counts, whatever has happened and whatever waits. */
  lemma ControlCanBeAnswered(c: Setup, s: State, i: nat, payload: QuantumResult, queue: string)
    returns (t: State, n: nat)
    requires Reachable(c, s) && IssuedAtMost(s) <= TWO_28 && queue != ""
    requires i in s.h.outbound && InRange(IdAt(c, i)) && IdAt(c, i) !in s.h.correlated
    requires i < |s.h.issued| && s.h.issued[i].ControlIssue? && forall j: nat :: !Crosses(c, s.h.issued, i, j)
    ensures Leads(c, s, t) && n < |t.h.replies|
    ensures TakenByAnswerTo(t, IdAt(c, i), i)
    ensures NoAnswerWaits(s.results, s.result, i) ==>
              t.h.correlated[IdAt(c, i)].result.results == payload.results
    ensures t.h.replies[n].request == ResultRequest(IdAt(c, i), queue)
    ensures t.h.replies[n].response.destinationQueue == queue
    ensures ReadIn(t.h.replies[n]) == Some(ResultView(t.h.correlated[IdAt(c, i)].result.results, "", "", ""))
  {
    var id := IdAt(c, i);
    Starts(c, s);
    var quiet := ControlsDrain(c, s, s);
    StaysUncrossed(c, s, quiet, i);
    EarlyIsUndisturbed(c, quiet.h.issued, i);
    var taken := CanBeTaken(c, s, quiet, i, payload);
    OwnerOf(c, taken, i);
    UndisturbedIsRight(c, taken, id);
    TakenIsCompleted(c, quiet, taken, id);
    RequestsName(id, queue);
    t := FetchServed(c, s, taken, ResultRequest(id, queue));
    n := |taken.h.replies|;
    ReadsKind(ResultRequest(id, queue), TaskResultResult(taken.store.completed[id]));
  }

  // ---------- both fetches happen ----------

  /** A control task is created and answered, and then its completed entry is fetched by some request. */
  lemma FetchRun(c: Setup, create: CreateTaskRequest, request: APIRequest, payload: QuantumResult)
    returns (s: State)
    requires c.uid < TWO_31 && request.responseQueue != ""
    requires Fetches(Understood(request).command) && Understood(request).command.taskId == c.uid
    ensures Reachable(c, s) && |s.h.issued| == 1
    ensures |s.h.fetched| == 1 && s.h.fetched[0].request == request
    ensures s.h.fetched[0].key == c.uid && s.h.fetched[0].command == Understood(request).command
    ensures s.h.fetched[0].task.resultCounts == payload.results
    ensures c.uid in s.h.correlated && s.h.correlated[c.uid].result.results == payload.results
    ensures |s.h.replies| == 1 && s.h.replies[0].request == request && Reports(s.h.replies[0], 0)
  {
    var t := RoundsForward(c, [ControlSubmission(create)]);
    FirstId(c);
    Starts(c, t);
    var taken := AnswerTakes(c, t, t, 0, payload);
    OwnerOf(c, t, 0);
    StepContinues(c, t, taken, ResultStep(taken));
    var stored := ResultStored(taken);
    TakenIsCompleted(c, t, stored, c.uid);
    s := FetchServed(c, t, stored, request);
  }

  lemma FirstId(c: Setup)
    requires c.uid < TWO_31
    ensures IdAt(c, 0) == c.uid && InRange(c.uid)
  {
    UnwrappedTaskId(0, c.uid);
  }

  /** A result request delivers the counts. */
  lemma CountsAreDelivered(c: Setup, create: CreateTaskRequest, queue: string, payload: QuantumResult)
    returns (s: State)
    requires c.uid < TWO_31 && queue != ""
    ensures Reachable(c, s) && |s.h.replies| == 1 && s.h.replies[0].request == ResultRequest(c.uid, queue)
    ensures ReadIn(s.h.replies[0]) == Some(ResultView(payload.results, "", "", ""))
  {
    RequestsName(c.uid, queue);
    s := FetchRun(c, create, ResultRequest(c.uid, queue), payload);
    ReportedFetch(c, s, 0, 0);
    FetchedTask(c, s, 0);
  }

  /** A cancel-reason request for the same task uses them up: they were in the store, and its client is told that the
      reason is empty. */
  lemma CountsAreLost(c: Setup, create: CreateTaskRequest, queue: string, payload: QuantumResult) returns (s: State)
    requires c.uid < TWO_31 && queue != ""
    ensures Reachable(c, s) && |s.h.fetched| == 1 && s.h.fetched[0].command == GetCancelReason(c.uid)
    ensures s.h.fetched[0].task.resultCounts == payload.results
    ensures |s.h.replies| == 1 && s.h.replies[0].request == ReasonRequest(c.uid, queue)
    ensures ReadIn(s.h.replies[0]) == Some(ReasonView(""))
    ensures s.store.Status(c.uid) == NotFound
  {
    RequestsName(c.uid, queue);
    s := FetchRun(c, create, ReasonRequest(c.uid, queue), payload);
    ReportedFetch(c, s, 0, 0);
    FetchedIsGone(c, s, 0);
  }
}
