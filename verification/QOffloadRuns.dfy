/** What holds in every state of every run. */
module QOffloadRuns {
  import opened Ids
  import opened Messages
  import opened Tasks
  import opened Forwarding
  import opened ControlProtocol
  import opened Control
  import opened QOffload
  import opened QOffloadInvariant

  // ---------- the invariant over steps ----------

  lemma SubmissionsKeep(id: Numbering, config: Config, s: State, requests: seq<QuantumTask>, controls: seq<APIRequest>)
    requires InvFor(id, config, s)
    ensures InvFor(id, config, s.(requests := requests))
    ensures InvFor(id, config, s.(controls := controls))
  {
    MoveKeeps(id, config, s, s.(requests := requests));
    MoveKeeps(id, config, s, s.(controls := controls));
  }

  lemma ReturningAfterAnswer(outbound: map<nat, QuantumTask>, queue: string, handed: seq<Handout>,
                             results: seq<Answer>, result: ResultWorker, answer: Answer)
    requires Returning(outbound, queue, handed, results, result) && answer.Answer? && Answers(outbound, answer)
    ensures Returning(outbound, queue, handed, results + [answer], result)
  {
  }

  lemma QrmKeeps(id: Numbering, config: Config, s: State, answer: Answer)
    requires InvFor(id, config, s) && answer.Answer? && Answers(s.h.outbound, answer)
    ensures InvFor(id, config, s.(results := s.results + [answer]))
  {
    ReturningAfterAnswer(s.h.outbound, config.resultQueue, s.h.handed, s.results, s.result, answer);
    AnswerKeeps(id, config, s, s.results + [answer]);
  }

  lemma DirectReceivingKeeps(id: Numbering, config: Config, s: State, readable: bool)
    requires InvFor(id, config, s) && s.direct.DirectIdle? && s.requests != []
    ensures InvFor(id, config, DirectReceiving(s, readable))
  {
    MoveKeeps(id, config, s, DirectReceiving(s, readable));
  }

  lemma DirectNumberingKeeps(id: Numbering, c: Setup, s: State)
    requires InvFor(id, c.config, s) && s.direct.DirectReceived?
    requires id(|s.h.issued|) == TaskId(s.nextIndex, c.uid)
    ensures InvFor(id, c.config, DirectNumbering(c, s))
  {
    var t := DirectNumbering(c, s);
    var issue := DirectIssue(s.direct.request);
    NumbersAfterNumber(id, s.h.issued, s.h.owner, s.direct, s.control, t.direct, t.control, issue);
    NumberKeeps(id, c.config, s, t, issue);
  }

  ghost predicate Distinct(id: Numbering, n: nat) {
    forall i: nat, j: nat :: i < n && j < n && id(i) == id(j) ==> i == j
  }

  lemma DirectRegisteringKeeps(id: Numbering, c: Setup, s: State)
    requires InvFor(id, c.config, s) && s.direct.DirectNumbered? && Distinct(id, |s.h.issued|)
    ensures InvFor(id, c.config, DirectRegistering(c, s))
  {
    var t := DirectRegistering(c, s);
    var index := s.direct.index;
    NumbersAfterRegister(id, s.h.issued, s.h.owner, s.direct, s.control, t.direct, t.control, index);
    RegisterKeeps(id, c.config, s, t, index);
  }

  lemma DirectSendingKeeps(id: Numbering, config: Config, s: State, accepted: bool)
    requires InvFor(id, config, s) && s.direct.DirectRegistered?
    ensures InvFor(id, config, DirectSending(s, accepted))
  {
    if accepted {
      SendKeeps(id, config, s, DirectSending(s, accepted), s.direct.index, s.direct.task);
    } else {
      MoveKeeps(id, config, s, DirectSending(s, accepted));
    }
  }

  lemma ControlReceivingKeeps(id: Numbering, config: Config, s: State, readable: bool)
    requires InvFor(id, config, s) && s.control.ControlIdle? && s.controls != []
    ensures InvFor(id, config, ControlReceiving(s, readable))
  {
    MoveKeeps(id, config, s, ControlReceiving(s, readable));
  }

  lemma ControlCreatingKeeps(id: Numbering, c: Setup, s: State)
    requires InvFor(id, c.config, s) && s.control.ControlDecoded? && s.control.command.CreateQuantumTask?
    requires id(|s.h.issued|) == TaskId(s.nextIndex, c.uid)
    ensures InvFor(id, c.config, ControlActing(c, s))
  {
    var t := ControlActing(c, s);
    var issue := ControlIssue(TaskFor(s.control.command));
    NumbersAfterNumber(id, s.h.issued, s.h.owner, s.direct, s.control, t.direct, t.control, issue);
    NumberKeeps(id, c.config, s, t, issue);
  }

  /** Every other command leaves everything but the control worker alone, and checks before it takes. */
  lemma ControlLooking(c: Setup, s: State)
    requires s.control.ControlDecoded? && !s.control.command.CreateQuantumTask?
    ensures ControlActing(c, s) == s.(control := ControlActing(c, s).control)
    ensures ControlMoves(s.control, ControlActing(c, s).control)
    ensures Checks(ControlActing(c, s).control, s.store.completed)
  {
  }

  lemma ControlActingKeeps(id: Numbering, c: Setup, s: State)
    requires InvFor(id, c.config, s) && s.control.ControlDecoded?
    requires id(|s.h.issued|) == TaskId(s.nextIndex, c.uid)
    ensures InvFor(id, c.config, ControlActing(c, s))
  {
    if s.control.command.CreateQuantumTask? {
      ControlCreatingKeeps(id, c, s);
    } else {
      ControlLooking(c, s);
      MoveKeeps(id, c.config, s, s.(control := ControlActing(c, s).control));
    }
  }

  lemma ControlRegisteringKeeps(id: Numbering, c: Setup, s: State)
    requires InvFor(id, c.config, s) && s.control.ControlNumbered? && Distinct(id, |s.h.issued|)
    ensures InvFor(id, c.config, ControlRegistering(c, s))
  {
    var t := ControlRegistering(c, s);
    var index := s.control.index;
    NumbersAfterRegister(id, s.h.issued, s.h.owner, s.direct, s.control, t.direct, t.control, index);
    RegisterKeeps(id, c.config, s, t, index);
  }

  lemma ControlSendingKeeps(id: Numbering, config: Config, s: State, accepted: bool)
    requires InvFor(id, config, s) && s.control.ControlRegistered?
    ensures InvFor(id, config, ControlSending(s, accepted))
  {
    if accepted {
      SendKeeps(id, config, s, ControlSending(s, accepted), s.control.index, s.control.task);
    } else {
      MoveKeeps(id, config, s, ControlSending(s, accepted));
    }
  }

  lemma ControlTakingNothing(s: State)
    requires s.control.ControlChecked? && Fetches(s.control.command)
    requires s.control.command.taskId !in s.store.completed
    ensures ControlTaking(s) ==
            s.(control := ControlReplying(s.control.request, ControlError(JOB_NOT_FOUND)))
  {
    assert s.store.completed - {s.control.command.taskId} == s.store.completed;
  }

  lemma ControlTakingNothingKeeps(id: Numbering, config: Config, s: State)
    requires InvFor(id, config, s) && s.control.ControlChecked? && Fetches(s.control.command)
    requires s.control.command.taskId !in s.store.completed
    ensures InvFor(id, config, ControlTaking(s))
  {
    ControlTakingNothing(s);
    MoveKeeps(id, config, s,
              s.(control := ControlReplying(s.control.request, ControlError(JOB_NOT_FOUND))));
  }

  lemma ControlTakingKeeps(id: Numbering, config: Config, s: State)
    requires InvFor(id, config, s) && s.control.ControlChecked? && Fetches(s.control.command)
    ensures InvFor(id, config, ControlTaking(s))
  {
    var key := s.control.command.taskId;
    if key in s.store.completed {
      FetchKeeps(id, config, s, ControlTaking(s),
                 Fetch(key, s.control.request, s.control.command, s.store.completed[key]));
    } else {
      ControlTakingNothingKeeps(id, config, s);
    }
  }

  lemma ControlRepliedKeeps(id: Numbering, config: Config, s: State, accepted: bool)
    requires InvFor(id, config, s) && s.control.ControlReplying?
    ensures InvFor(id, config, ControlReplied(s, accepted))
  {
    MoveKeeps(id, config, s, ControlReplied(s, accepted));
  }

  lemma ReceivingMoves(queue: string, s: State, readable: bool)
    requires Returning(s.h.outbound, queue, s.h.handed, s.results, s.result)
    requires s.result.ResultIdle? && s.results != []
    ensures var t := ResultReceiving(s, readable);
            && t.h == s.h && t.store == s.store && t.direct == s.direct && t.control == s.control
            && Returning(s.h.outbound, queue, s.h.handed, t.results, t.result)
            && TransferCount(t.result) == 0
  {
  }

  lemma ResultReceivingKeeps(id: Numbering, config: Config, s: State, readable: bool)
    requires InvFor(id, config, s) && s.result.ResultIdle? && s.results != []
    ensures InvFor(id, config, ResultReceiving(s, readable))
  {
    ReceivingMoves(config.resultQueue, s, readable);
    ReceiveKeeps(id, config, s, ResultReceiving(s, readable));
  }

  function ReceivedKey(s: State): uint64
    requires s.result.ResultReceived?
  {
    ToUint64(s.result.answer.result.taskId)
  }

  lemma ResultTakingKnownKeeps(id: Numbering, config: Config, s: State)
    requires InvFor(id, config, s) && s.result.ResultReceived? && ReceivedKey(s) in s.store.pending
    ensures InvFor(id, config, ResultTaking(s))
  {
    TakeKeeps(id, config, s, ResultTaking(s), ReceivedKey(s));
  }

  lemma ResultTakingUnknownKeeps(id: Numbering, config: Config, s: State)
    requires InvFor(id, config, s) && s.result.ResultReceived? && ReceivedKey(s) !in s.store.pending
    ensures InvFor(id, config, ResultTaking(s))
  {
    UnknownKeeps(id, config, s, ResultTaking(s));
  }

  lemma ResultStoredKeeps(id: Numbering, config: Config, s: State)
    requires InvFor(id, config, s) && s.result.ResultStoring?
    ensures InvFor(id, config, ResultStored(s))
  {
    StoreKeeps(id, config, s, ResultStored(s));
  }

  lemma ResultSentKeeps(id: Numbering, c: Setup, s: State, accepted: bool)
    requires InvFor(id, c.config, s) && s.result.ResultSending?
    ensures InvFor(id, c.config, ResultSent(c, s, accepted))
  {
    var ResultSending(key, destination, result) := s.result;
    HandKeeps(id, c.config, s, ResultSent(c, s, accepted),
              Handout(key, destination, result, accepted && destination != ""));
  }

  lemma ControlStepsKeep(id: Numbering, c: Setup, s: State, step: Step)
    requires InvFor(id, c.config, s) && Enabled(s, step)
    requires id(|s.h.issued|) == TaskId(s.nextIndex, c.uid) && Distinct(id, |s.h.issued|)
    requires step.ControlAct? || step.ControlRegister? || step.ControlSend?
    ensures InvFor(id, c.config, Apply(c, s, step))
  {
    match step
    case ControlAct => ControlActingKeeps(id, c, s);
    case ControlRegister => ControlRegisteringKeeps(id, c, s);
    case ControlSend(accepted) => ControlSendingKeeps(id, c.config, s, accepted);
  }

  lemma ControlMessagesKeep(id: Numbering, c: Setup, s: State, step: Step)
    requires InvFor(id, c.config, s) && Enabled(s, step)
    requires step.ControlReceive? || step.ControlTake? || step.ControlReply?
    ensures InvFor(id, c.config, Apply(c, s, step))
  {
    match step
    case ControlReceive(readable) => ControlReceivingKeeps(id, c.config, s, readable);
    case ControlTake => ControlTakingKeeps(id, c.config, s);
    case ControlReply(accepted) => ControlRepliedKeeps(id, c.config, s, accepted);
  }

  lemma ResultStepsKeep(id: Numbering, c: Setup, s: State, step: Step)
    requires InvFor(id, c.config, s) && Enabled(s, step)
    requires step.ResultReceive? || step.ResultTake? || step.ResultStore? || step.ResultSend?
    ensures InvFor(id, c.config, Apply(c, s, step))
  {
    match step
    case ResultReceive(readable) => ResultReceivingKeeps(id, c.config, s, readable);
    case ResultTake =>
      if ReceivedKey(s) in s.store.pending {
        ResultTakingKnownKeeps(id, c.config, s);
      } else {
        ResultTakingUnknownKeeps(id, c.config, s);
      }
    case ResultStore => ResultStoredKeeps(id, c.config, s);
    case ResultSend(accepted) => ResultSentKeeps(id, c, s, accepted);
  }

  lemma DirectStepsKeep(id: Numbering, c: Setup, s: State, step: Step)
    requires InvFor(id, c.config, s) && Enabled(s, step)
    requires id(|s.h.issued|) == TaskId(s.nextIndex, c.uid) && Distinct(id, |s.h.issued|)
    requires step.DirectReceive? || step.DirectNumber? || step.DirectRegister? || step.DirectSend?
    ensures InvFor(id, c.config, Apply(c, s, step))
  {
    match step
    case DirectReceive(readable) => DirectReceivingKeeps(id, c.config, s, readable);
    case DirectNumber => DirectNumberingKeeps(id, c, s);
    case DirectRegister => DirectRegisteringKeeps(id, c, s);
    case DirectSend(accepted) => DirectSendingKeeps(id, c.config, s, accepted);
  }

  lemma EnvironmentStepsKeep(id: Numbering, c: Setup, s: State, step: Step)
    requires InvFor(id, c.config, s) && Enabled(s, step)
    requires step.ClientSubmits? || step.ControlSubmits? || step.QrmAnswers?
    ensures InvFor(id, c.config, Apply(c, s, step))
  {
    match step
    case ClientSubmits(request) => SubmissionsKeep(id, c.config, s, s.requests + [request], s.controls);
    case ControlSubmits(apiRequest) => SubmissionsKeep(id, c.config, s, s.requests, s.controls + [apiRequest]);
    case QrmAnswers(origin, answer) =>
      if QrmAnswering(c, s, origin, answer) != s {
        QrmKeeps(id, c.config, s, Answer(origin, answer));
      }
  }

  /** One step keeps the invariant, whichever worker takes it. */
  lemma StepKeeps(id: Numbering, c: Setup, s: State, step: Step)
    requires InvFor(id, c.config, s) && Enabled(s, step)
    requires id(|s.h.issued|) == TaskId(s.nextIndex, c.uid) && Distinct(id, |s.h.issued|)
    ensures InvFor(id, c.config, Apply(c, s, step))
  {
    if step.ClientSubmits? || step.ControlSubmits? || step.QrmAnswers? {
      EnvironmentStepsKeep(id, c, s, step);
    } else if step.DirectReceive? || step.DirectNumber? || step.DirectRegister? || step.DirectSend? {
      DirectStepsKeep(id, c, s, step);
    } else if step.ResultReceive? || step.ResultTake? || step.ResultStore? || step.ResultSend? {
      ResultStepsKeep(id, c, s, step);
    } else if step.ControlReceive? || step.ControlTake? || step.ControlReply? {
      ControlMessagesKeep(id, c, s, step);
    } else {
      ControlStepsKeep(id, c, s, step);
    }
  }

  // ---------- the invariant over runs ----------

  /** Only numbering touches the counter, and it issues one number. */
  lemma StepNumbers(c: Setup, s: State, step: Step)
    requires Enabled(s, step)
    ensures var t := Apply(c, s, step);
            || (t.nextIndex == s.nextIndex && t.h.issued == s.h.issued)
            || (&& t.nextIndex == ToUint64(s.nextIndex + 1)
                && |t.h.issued| == |s.h.issued| + 1
                && t.h.issued[..|s.h.issued|] == s.h.issued)
  {
  }

  lemma CounterKept(c: Setup, s: State, step: Step)
    requires s.nextIndex == ToUint64(|s.h.issued|) && Enabled(s, step)
    ensures Apply(c, s, step).nextIndex == ToUint64(|Apply(c, s, step).h.issued|)
    ensures |s.h.issued| <= |Apply(c, s, step).h.issued|
  {
    StepNumbers(c, s, step);
    CounterWraps(|s.h.issued|);
  }

  lemma NumberingFits(c: Setup, s: State)
    requires s.nextIndex == ToUint64(|s.h.issued|) && Fresh(s)
    ensures IdsOf(c)(|s.h.issued|) == TaskId(s.nextIndex, c.uid)
    ensures Distinct(IdsOf(c), |s.h.issued|)
  {
    var id := IdsOf(c);
    forall i: nat, j: nat | i < |s.h.issued| && j < |s.h.issued| && id(i) == id(j) ensures i == j {
      IdsDistinct(c, i, j);
    }
  }

  lemma InvKept(c: Setup, s: State, step: Step)
    requires Inv(c, s) && Enabled(s, step) && Fresh(Apply(c, s, step))
    ensures Fresh(s) && Inv(c, Apply(c, s, step))
  {
    CounterKept(c, s, step);
    NumberingFits(c, s);
    StepKeeps(IdsOf(c), c, s, step);
  }

  lemma InitialInv(c: Setup)
    ensures Inv(c, INITIAL)
  {
  }

  lemma {:induction false} InvAlong(c: Setup, s: State, steps: seq<Step>)
    requires Inv(c, s) && Resume(c, s, steps).Some? && Fresh(Resume(c, s, steps).value)
    ensures Inv(c, Resume(c, s, steps).value)
  {
    if steps != [] {
      var prefix := steps[..|steps| - 1];
      var last := steps[|steps| - 1];
      var t := Resume(c, s, prefix).value;
      StepNumbers(c, t, last);
      InvAlong(c, s, prefix);
      InvKept(c, t, last);
    }
  }

  /** In every reachable state that has not run out of ids, the invariant holds. */
  lemma ReachableInv(c: Setup, s: State)
    requires Reachable(c, s) && Fresh(s)
    ensures Inv(c, s)
  {
    var steps :| Resume(c, INITIAL, steps) == Some(s);
    InitialInv(c);
    InvAlong(c, INITIAL, steps);
  }
}
