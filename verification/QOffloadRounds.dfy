/** Uninterrupted worker rounds: they have the effect of the methods, and they build runs. */
module QOffloadRounds {
  import opened Ids
  import opened Messages
  import opened Tasks
  import opened Forwarding
  import opened ControlProtocol
  import opened Control
  import opened QOffload
  import opened QOffloadInvariant
  import opened QOffloadRuns
  import opened QOffloadTheorems
  import T = TypedControlProtocol
  import R = RestControlProtocol

  // ---------- the steps of a worker compose to the method it calls ----------

  lemma DirectRoundIsForwarding(c: Setup, s: State)
    requires s.direct.DirectReceived?
    ensures var id := TaskId(s.nextIndex, c.uid);
            var t := DirectRegistering(c, DirectNumbering(c, s));
            && t.nextIndex == ToUint64(s.nextIndex + 1)
            && t.store == s.store.AddPending(DirectEntry(s.direct.request, id))
            && t.direct.task == ForwardedTask(s.direct.request, id, c.config)
  {
  }

  lemma ResultRoundIsProcessing(s: State)
    requires s.result.ResultReceived?
    ensures var key := ReceivedKey(s);
            var result := s.result.answer.result;
            var t := ResultTaking(s);
            match s.store.Pending(key)
            case None => t.result.ResultIdle? && t.store == s.store
            case Some(entry) =>
              if entry.kind.ControlTask? then
                && t.result.ResultStoring?
                && ResultStored(t).store == s.store.DropPending(key).AddCompleted(CompletedFrom(result, entry))
              else
                && t.store == s.store.DropPending(key)
                && t.result == ResultSending(key, entry.originalResultDestination, RestoredResult(result, entry))
  {
  }

  /** The steps of a control worker up to its reply, when nothing comes between. */
  function ControlRound(c: Setup, s: State): State
    requires s.control.ControlDecoded?
  {
    var t := ControlActing(c, s);
    if t.control.ControlNumbered? then ControlSending(ControlRegistering(c, t), true)
    else if t.control.ControlChecked? && Fetches(t.control.command) then ControlTaking(t)
    else t
  }

  lemma ControlRoundIsExecution(c: Setup, s: State)
    requires s.control.ControlDecoded?
    ensures var e := Execute(s.control.command, s.store, s.nextIndex, c.uid, c.config);
            var t := ControlRound(c, s);
            && t.store == e.store
            && t.nextIndex == e.nextIndex
            && t.control == ControlReplying(s.control.request, e.result)
            && (e.outbound.Some? ==>
                  |s.h.issued| in t.h.outbound && t.h.outbound[|s.h.issued|] == e.outbound.value)
            && (e.outbound.None? ==> t.h.outbound == s.h.outbound)
  {
  }

  /** A control request that is read and worked off without interruption is processed: the adapter chosen by the request
      decodes it and encodes the answer, around one execution. */
  lemma ControlRequestIsProcessed(c: Setup, s: State, request: APIRequest)
    requires s.control.ControlIdle? && s.controls == [request]
    ensures var decoded := if request.typedRequest.RequestNotSet? then R.Decoded(request) else T.Decoded(request);
            var e := Execute(decoded.command, s.store, s.nextIndex, c.uid, c.config);
            var t := ControlRound(c, ControlReceiving(s, true));
            var response := if request.typedRequest.RequestNotSet? then R.Encoded(e.result, decoded.responseQueue)
                            else T.Encoded(e.result, decoded.responseQueue);
            && t.store == e.store && t.nextIndex == e.nextIndex && t.controls == []
            && t.control == ControlReplying(request, e.result)
            && (ControlReplied(t, true).h.replies != t.h.replies ==>
                  ControlReplied(t, true).h.replies
                  == t.h.replies + [Reply(request, e.result, |t.h.fetched|, |t.h.created|, response)])
            && (ControlReplied(t, true).h.replies == t.h.replies <==> decoded.responseQueue == "")
  {
    ControlRoundIsExecution(c, ControlReceiving(s, true));
  }

  /** A fetch takes even if its status check found nothing, so a result that is stored in between is still fetched. */
  lemma LateResultIsFetched(c: Setup, s: State)
    requires s.control.ControlDecoded? && Fetches(s.control.command) && s.result.ResultStoring?
    requires s.result.completed.taskId == s.result.key == s.control.command.taskId
    requires s.store.Status(s.result.key) == NotFound
    ensures ControlActing(c, s).control.ControlChecked? && ControlActing(c, s).result == s.result
    ensures var stored := ResultStored(ControlActing(c, s));
            ControlTaking(stored).control
            == ControlReplying(s.control.request, FetchAnswer(s.control.command, Some(s.result.completed)))
  {
  }

  // ---------- rounds build runs ----------

  lemma StepLeads(c: Setup, s: State, t: State, step: Step)
    requires Leads(c, s, t) && Enabled(t, step)
    ensures Leads(c, s, Apply(c, t, step))
  {
    var steps :| Resume(c, s, steps) == Some(t);
    assert (steps + [step])[..|steps|] == steps;
    assert Resume(c, s, steps + [step]) == Some(Apply(c, t, step));
  }

  /** What a direct client submits, or a control client that creates a task. */
  datatype Submission = DirectSubmission(request: QuantumTask) | ControlSubmission(create: CreateTaskRequest)

  function CreateRequest(create: CreateTaskRequest): APIRequest {
    APIRequest("", "", "", map[], "", CreateTask(create))
  }

  function IssueOf(submission: Submission): Issue {
    match submission
    case DirectSubmission(request) => DirectIssue(request)
    case ControlSubmission(create) => ControlIssue(TaskFor(T.Command(CreateTask(create))))
  }

  function Issues(submissions: seq<Submission>): seq<Issue> {
    seq(|submissions|, i requires 0 <= i < |submissions| => IssueOf(submissions[i]))
  }

  /** Nothing is under way and nothing has come back. */
  predicate Calm(s: State) {
    && s.requests == [] && s.controls == [] && s.results == []
    && s.direct.DirectIdle? && s.control.ControlIdle? && s.result.ResultIdle?
    && s.h.correlated == map[] && s.h.unknown == [] && s.h.handed == []
    && s.h.fetched == [] && s.h.replies == []
  }

  function DirectRound(c: Setup, s: State, request: QuantumTask): State
    requires Calm(s)
  {
    var received := DirectReceiving(s.(requests := [request]), true);
    DirectSending(DirectRegistering(c, DirectNumbering(c, received)), true)
  }

  function CreateRound(c: Setup, s: State, create: CreateTaskRequest): State
    requires Calm(s)
  {
    var received := ControlReceiving(s.(controls := [CreateRequest(create)]), true);
    ControlReplied(ControlSending(ControlRegistering(c, ControlActing(c, received)), true), true)
  }

  function SubmissionRound(c: Setup, s: State, submission: Submission): State
    requires Calm(s)
  {
    match submission
    case DirectSubmission(request) => DirectRound(c, s, request)
    case ControlSubmission(create) => CreateRound(c, s, create)
  }

  /** The round leaves everything calm and the task at QRM. */
  predicate Forwards(c: Setup, s: State, submission: Submission, t: State) {
    && Calm(t)
    && t.nextIndex == ToUint64(s.nextIndex + 1)
    && t.h.issued == s.h.issued + [IssueOf(submission)]
    && t.h.outbound.Keys == s.h.outbound.Keys + {|s.h.issued|}
    && (forall i <- s.h.outbound :: i != |s.h.issued| ==> t.h.outbound[i] == s.h.outbound[i])
    && t.h.outbound[|s.h.issued|].taskId == ToInt32(TaskId(s.nextIndex, c.uid))
  }

  lemma DirectRoundForwards(c: Setup, s: State, request: QuantumTask)
    requires Calm(s)
    ensures Forwards(c, s, DirectSubmission(request), DirectRound(c, s, request))
  {
  }

  lemma CreateRoundForwards(c: Setup, s: State, create: CreateTaskRequest)
    requires Calm(s)
    ensures Forwards(c, s, ControlSubmission(create), CreateRound(c, s, create))
  {
  }

  lemma DirectRoundLeads(c: Setup, s: State, request: QuantumTask)
    requires Reachable(c, s) && Calm(s)
    ensures Reachable(c, DirectRound(c, s, request))
  {
    var t0 := s.(requests := [request]);
    var t1 := DirectReceiving(t0, true);
    var t2 := DirectNumbering(c, t1);
    var t3 := DirectRegistering(c, t2);
    assert s.requests + [request] == [request];
    StepLeads(c, INITIAL, s, ClientSubmits(request));
    StepLeads(c, INITIAL, t0, DirectReceive(true));
    StepLeads(c, INITIAL, t1, DirectNumber);
    StepLeads(c, INITIAL, t2, DirectRegister);
    StepLeads(c, INITIAL, t3, DirectSend(true));
  }

  lemma CreateReceivedLeads(c: Setup, s: State, create: CreateTaskRequest)
    requires Reachable(c, s) && Calm(s)
    ensures var t := ControlReceiving(s.(controls := [CreateRequest(create)]), true);
            && Reachable(c, t)
            && t == s.(control := ControlDecoded(CreateRequest(create), T.Command(CreateTask(create))))
  {
    assert s.controls + [CreateRequest(create)] == [CreateRequest(create)];
    StepLeads(c, INITIAL, s, ControlSubmits(CreateRequest(create)));
    StepLeads(c, INITIAL, s.(controls := [CreateRequest(create)]), ControlReceive(true));
  }

  lemma CreationLeads(c: Setup, s: State)
    requires Reachable(c, s) && s.control.ControlDecoded? && s.control.command.CreateQuantumTask?
    ensures Reachable(c, ControlReplied(ControlSending(ControlRegistering(c, ControlActing(c, s)), true), true))
  {
    var t2 := ControlActing(c, s);
    var t3 := ControlRegistering(c, t2);
    var t4 := ControlSending(t3, true);
    StepLeads(c, INITIAL, s, ControlAct);
    StepLeads(c, INITIAL, t2, ControlRegister);
    StepLeads(c, INITIAL, t3, ControlSend(true));
    StepLeads(c, INITIAL, t4, ControlReply(true));
  }

  lemma CreateRoundLeads(c: Setup, s: State, create: CreateTaskRequest)
    requires Reachable(c, s) && Calm(s)
    ensures Reachable(c, CreateRound(c, s, create))
  {
    CreateReceivedLeads(c, s, create);
    CreationLeads(c, ControlReceiving(s.(controls := [CreateRequest(create)]), true));
  }

  lemma RoundForwards(c: Setup, s: State, submission: Submission)
    requires Reachable(c, s) && Calm(s)
    ensures Reachable(c, SubmissionRound(c, s, submission))
    ensures Forwards(c, s, submission, SubmissionRound(c, s, submission))
  {
    match submission
    case DirectSubmission(request) =>
      DirectRoundForwards(c, s, request);
      DirectRoundLeads(c, s, request);
    case ControlSubmission(create) =>
      CreateRoundForwards(c, s, create);
      CreateRoundLeads(c, s, create);
  }

  /** The tasks with the first n counter values are at QRM, each under the wire id of its value. */
  predicate AtQrm(id: Numbering, outbound: map<nat, QuantumTask>, n: nat) {
    forall i: nat :: i < n ==> i in outbound && outbound[i].taskId == ToInt32(id(i))
  }

  /** All submissions are at QRM and unanswered. */
  predicate AllForwarded(c: Setup, s: State, submissions: seq<Submission>) {
    && Calm(s)
    && s.h.issued == Issues(submissions)
    && s.nextIndex == ToUint64(|submissions|)
    && AtQrm(IdsOf(c), s.h.outbound, |submissions|)
  }

  lemma OneMoreAtQrm(id: Numbering, outbound: map<nat, QuantumTask>, outbound': map<nat, QuantumTask>, n: nat)
    requires AtQrm(id, outbound, n)
    requires outbound'.Keys == outbound.Keys + {n} && outbound'[n].taskId == ToInt32(id(n))
    requires forall i <- outbound :: i != n ==> outbound'[i] == outbound[i]
    ensures AtQrm(id, outbound', n + 1)
  {
    forall i: nat | i < n + 1 ensures i in outbound' && outbound'[i].taskId == ToInt32(id(i)) {
      if i < n {
        assert i in outbound && i in outbound'.Keys;
      }
    }
  }

  lemma OneMoreForwarded(c: Setup, s: State, submissions: seq<Submission>, t: State)
    requires submissions != [] && AllForwarded(c, s, submissions[..|submissions| - 1])
    requires Forwards(c, s, submissions[|submissions| - 1], t)
    ensures AllForwarded(c, t, submissions)
  {
    var n := |submissions| - 1;
    CounterWraps(n);
    assert Issues(submissions) == Issues(submissions[..n]) + [IssueOf(submissions[n])];
    OneMoreAtQrm(IdsOf(c), s.h.outbound, t.h.outbound, n);
  }

  lemma NothingForwarded(c: Setup)
    ensures Reachable(c, INITIAL) && AllForwarded(c, INITIAL, [])
  {
    assert Resume(c, INITIAL, []) == Some(INITIAL);
  }

  /** Any list of submissions can all be waiting for their answers. */
  lemma {:induction false} RoundsForward(c: Setup, submissions: seq<Submission>) returns (s: State)
    ensures Reachable(c, s) && AllForwarded(c, s, submissions)
  {
    if submissions == [] {
      s := INITIAL;
      NothingForwarded(c);
    } else {
      var last := submissions[|submissions| - 1];
      var t := RoundsForward(c, submissions[..|submissions| - 1]);
      RoundForwards(c, t, last);
      s := SubmissionRound(c, t, last);
      OneMoreForwarded(c, t, submissions, s);
    }
  }

  /** In a calm reachable state every submission is pending with its own entry. */
  lemma CalmIsPending(c: Setup, s: State, i: nat)
    requires Reachable(c, s) && Calm(s) && Fresh(s) && i < |s.h.issued|
    ensures IdAt(c, i) in s.store.pending
    ensures s.store.pending[IdAt(c, i)] == EntryFor(s.h.issued[i], IdAt(c, i))
  {
    ReachableInv(c, s);
    assert !Holds(s.direct, s.control, i);
    assert IdsOf(c)(i) in s.h.owner;
    KeyIsTraced(c, s, IdAt(c, i));
    IdsDistinct(c, s.h.owner[IdAt(c, i)].index, i);
  }

  // ---------- QRM answers a calm state ----------

  /** QRM's answer to one of the tasks. */
  function AnswerTo(s: State, i: nat, payload: QuantumResult): Answer
    requires i in s.h.outbound
  {
    Answer(i, payload.(taskId := s.h.outbound[i].taskId))
  }

  function ResultTaken(s: State): State
    requires s.result.ResultIdle? && s.results != []
  {
    ResultTaking(ResultReceiving(s, true))
  }

  lemma ResultTakenLeads(c: Setup, s: State)
    requires Reachable(c, s) && s.result.ResultIdle? && s.results != []
    ensures Reachable(c, ResultTaken(s))
  {
    StepLeads(c, INITIAL, s, ResultReceive(true));
    StepLeads(c, INITIAL, ResultReceiving(s, true), ResultTake);
  }

  /** QRM answers task i, and the result worker receives and takes. */
  function Answered(s: State, i: nat, payload: QuantumResult): State
    requires Calm(s) && i in s.h.outbound
  {
    ResultTaken(s.(results := [AnswerTo(s, i, payload)]))
  }

  lemma AnsweredLeads(c: Setup, s: State, i: nat, payload: QuantumResult)
    requires Reachable(c, s) && Calm(s) && Fresh(s) && i in s.h.outbound
    ensures Reachable(c, Answered(s, i, payload))
  {
    OutboundIsSubmission(c, s, i);
    assert s.results + [AnswerTo(s, i, payload)] == [AnswerTo(s, i, payload)];
    StepLeads(c, INITIAL, s, QrmAnswers(i, AnswerTo(s, i, payload).result));
    ResultTakenLeads(c, s.(results := [AnswerTo(s, i, payload)]));
  }

  /** Taking the entry of a submission puts its result under way to its client. */
  predicate UnderWay(s: State, k: uint64, issue: Issue, payload: QuantumResult) {
    match issue
    case DirectIssue(request) =>
      s.result == ResultSending(k, request.resultDestination,
                                payload.(taskId := request.taskId, destination := request.resultDestination))
    case ControlIssue(_) =>
      s.result == ResultStoring(k, CompletedFrom(payload, ControlEntry(k)))
  }

  lemma TakenIsUnderWay(s: State, k: uint64, issue: Issue)
    requires s.result.ResultIdle? && s.results != []
    requires k == ToUint64(s.results[0].result.taskId) && k !in s.h.correlated
    requires k in s.store.pending && s.store.pending[k] == EntryFor(issue, k)
    ensures var t := ResultTaken(s);
            && t.results == s.results[1..]
            && t.store == s.store.DropPending(k)
            && t.h == s.h.(correlated := s.h.correlated[k := s.results[0]], takes := s.h.takes + 1)
            && UnderWay(t, k, issue, s.results[0].result)
  {
    if issue.DirectIssue? {
      RestorationInvertsRegistration(issue.task, k, s.results[0].result);
    }
  }

  // ---------- results that are lost ----------

  /** The answer to a submission whose id is out of range is dropped, and the submission keeps waiting. */
  lemma LostAnswer(c: Setup, submissions: seq<Submission>, i: nat, payload: QuantumResult) returns (s: State)
    requires i < |submissions| <= TWO_28 && !InRange(IdAt(c, i))
    ensures Reachable(c, s) && s.h.issued == Issues(submissions)
    ensures i in s.h.outbound && s.h.unknown == [AnswerTo(s, i, payload)]
    ensures IdAt(c, i) in s.store.pending && s.store.pending[IdAt(c, i)] == EntryFor(s.h.issued[i], IdAt(c, i))
  {
    var t := RoundsForward(c, submissions);
    CalmIsPending(c, t, i);
    AnsweredLeads(c, t, i, payload);
    MissedWhenLost(c, t, i);
    s := Answered(t, i, payload);
  }

  lemma MissedWhenLost(c: Setup, s: State, i: nat)
    requires Reachable(c, s) && Calm(s) && |s.h.issued| <= TWO_28 && i < |s.h.issued| && !InRange(IdAt(c, i))
    ensures ReturnKey(IdAt(c, i)) !in s.store.pending
  {
    ReachableInv(c, s);
    var key := ReturnKey(IdAt(c, i));
    if key in s.store.pending {
      KeyIsTraced(c, s, key);
      EarlyIdsOwnKey(c, i, s.h.owner[key].index);
    }
  }

  lemma IdsFromStart(c: Setup, i: nat)
    requires c.uid == 0 && i < 214750
    ensures IdAt(c, i) == i * 10000
    ensures InRange(IdAt(c, i)) <==> i < 214749
  {
    assert ToUint64(i) == i;
    UnwrappedTaskId(i, 0);
  }

  /** With instance uid 0 the first 214749 tasks have ids in range, and QRM's first answer to the next one is lost. */
  lemma FirstLostAnswer(c: Setup, request: QuantumTask, payload: QuantumResult) returns (s: State)
    requires c.uid == 0
    ensures Reachable(c, s) && |s.h.issued| == 214750
    ensures forall i: nat :: i < 214749 ==> InRange(IdAt(c, i))
    ensures |s.h.unknown| == 1 && s.h.unknown[0].Answer? && s.h.unknown[0].origin == 214749
    ensures 2147490000 in s.store.pending && s.store.pending[2147490000] == DirectEntry(request, 2147490000)
  {
    forall i: nat | i < 214749 ensures InRange(IdAt(c, i)) {
      IdsFromStart(c, i);
    }
    IdsFromStart(c, 214749);
    s := LostAnswer(c, seq(214750, _ => DirectSubmission(request)), 214749, payload);
  }

  // ---------- results that reach the wrong submission ----------

  /** A submission in a calm state whose id comes back unchanged: QRM's answer takes its entry. */
  lemma AnsweredIsUnderWay(c: Setup, s: State, i: nat, k: uint64, issue: Issue, payload: QuantumResult)
    requires Reachable(c, s) && Calm(s) && Fresh(s) && i in s.h.outbound && ToUint64(s.h.outbound[i].taskId) == k
    requires k in s.store.pending && s.store.pending[k] == EntryFor(issue, k)
    ensures var t := Answered(s, i, payload);
            && Reachable(c, t) && t.results == []
            && t.store == s.store.DropPending(k)
            && t.h == s.h.(correlated := map[k := AnswerTo(s, i, payload)], takes := s.h.takes + 1)
            && UnderWay(t, k, issue, AnswerTo(s, i, payload).result)
  {
    AnsweredLeads(c, s, i, payload);
    TakenIsUnderWay(s.(results := [AnswerTo(s, i, payload)]), k, issue);
  }

  /** A direct result that is sent to the result queue waits there as an echo. */
  lemma SentIsEcho(c: Setup, s: State, k: uint64, request: QuantumTask, payload: QuantumResult)
    requires Reachable(c, s) && UnderWay(s, k, DirectIssue(request), payload) && s.results == [] && s.h.handed == []
    requires request.resultDestination == c.config.resultQueue != ""
    ensures var t := ResultSent(c, s, true);
            && Reachable(c, t) && t.result.ResultIdle? && t.store == s.store
            && |t.h.handed| == 1 && t.h.handed[0].key == k
            && t.h == s.h.(handed := t.h.handed)
            && t.results == [Echo(0, t.h.handed[0].result)]
            && t.h.handed[0].result.taskId == request.taskId
            && t.h.handed[0].result.results == payload.results
  {
    StepLeads(c, INITIAL, s, ResultSend(true));
  }

  /** QRM answers request j, whose result goes to the result queue, comes back as an echo and takes the entry of
      submission i. */
  lemma CrossingRun(c: Setup, submissions: seq<Submission>, i: nat, j: nat, payload: QuantumResult)
    returns (s: State, sent: Answer)
    requires |submissions| <= TWO_60 && Crosses(c, Issues(submissions), i, j)
    ensures Reachable(c, s) && s.h.issued == Issues(submissions)
    ensures sent.Answer? && sent.origin == j && sent.result.results == payload.results
    ensures |s.h.handed| == 1 && s.h.handed[0].key == IdAt(c, j) && s.h.handed[0].result.results == payload.results
    ensures s.h.correlated == map[IdAt(c, j) := sent, IdAt(c, i) := Echo(0, s.h.handed[0].result)]
    ensures UnderWay(s, IdAt(c, i), s.h.issued[i], s.h.handed[0].result)
  {
    var t := RoundsForward(c, submissions);
    var own, other := IdAt(c, j), IdAt(c, i);
    CalmIsPending(c, t, i);
    CalmIsPending(c, t, j);
    IdsDistinct(c, i, j);
    ReturnsUnchangedIffInRange(own);
    AnsweredIsUnderWay(c, t, j, own, t.h.issued[j], payload);
    sent := AnswerTo(t, j, payload);
    var answered := Answered(t, j, payload);
    SentIsEcho(c, answered, own, t.h.issued[j].task, sent.result);
    var echoed := ResultSent(c, answered, true);
    TakenIsUnderWay(echoed, other, t.h.issued[i]);
    ResultTakenLeads(c, echoed);
    s := ResultTaken(echoed);
  }

  /** Some entry was taken by something other than QRM's answer to its own task. */
  ghost predicate Misrouted(s: State) {
    exists k :: k in s.h.correlated && k in s.h.owner && !TakenByAnswerTo(s, k, s.h.owner[k].index)
  }

  /** QRM answers task i, and its result takes the entry of submission j. */
  lemma CollidingRun(c: Setup, submissions: seq<Submission>, i: nat, j: nat, payload: QuantumResult) returns (s: State)
    requires |submissions| <= TWO_60 && Collides(c, |submissions|, i, j)
    ensures Reachable(c, s) && s.h.issued == Issues(submissions) && i in s.h.outbound
    ensures IdAt(c, j) in s.h.correlated && s.h.correlated[IdAt(c, j)].Answer?
    ensures s.h.correlated[IdAt(c, j)].origin == i
    ensures UnderWay(s, IdAt(c, j), s.h.issued[j], s.h.correlated[IdAt(c, j)].result)
    ensures s.h.correlated[IdAt(c, j)].result == payload.(taskId := s.h.outbound[i].taskId)
  {
    var t := RoundsForward(c, submissions);
    CalmIsPending(c, t, j);
    AnsweredIsUnderWay(c, t, i, IdAt(c, j), t.h.issued[j], payload);
    s := Answered(t, i, payload);
  }

  /** A result can take an entry that is not its own: by an echo, or because wire ids repeat. */
  ghost predicate Disturbed(c: Setup, issued: seq<Issue>) {
    exists k: nat :: !Undisturbed(c, issued, k)
  }

  /** Misrouting is characterised on the submissions alone: some run misroutes them if and only if one of them crosses
      another or the result for one of them comes back under the id of another. */
  lemma MisroutedIffDisturbed(c: Setup, submissions: seq<Submission>)
    requires |submissions| <= TWO_60
    ensures (exists s :: Reachable(c, s) && s.h.issued == Issues(submissions) && Misrouted(s))
       <==> Disturbed(c, Issues(submissions))
  {
    if s :| Reachable(c, s) && s.h.issued == Issues(submissions) && Misrouted(s) {
      MisroutedIsDisturbed(c, s);
    }
    if Disturbed(c, Issues(submissions)) {
      var k: nat :| !Undisturbed(c, Issues(submissions), k);
      var s := DisturbedRun(c, submissions, k);
    }
  }

  lemma MisroutedIsDisturbed(c: Setup, s: State)
    requires Reachable(c, s) && Fresh(s) && Misrouted(s)
    ensures Disturbed(c, s.h.issued)
  {
    var k :| k in s.h.correlated && k in s.h.owner && !TakenByAnswerTo(s, k, s.h.owner[k].index);
    if Undisturbed(c, s.h.issued, s.h.owner[k].index) {
      UndisturbedIsRight(c, s, k);
    }
  }

  lemma DisturbedRun(c: Setup, submissions: seq<Submission>, k: nat) returns (s: State)
    requires |submissions| <= TWO_60 && !Undisturbed(c, Issues(submissions), k)
    ensures Reachable(c, s) && s.h.issued == Issues(submissions) && Misrouted(s)
  {
    var payload := QuantumResult(0, [], "", false, "", [], "", 0.0);
    if j: nat :| Crosses(c, Issues(submissions), k, j) {
      var sent;
      s, sent := CrossingRun(c, submissions, k, j, payload);
    } else {
      var i: nat :| Collides(c, |submissions|, i, k);
      s := CollidingRun(c, submissions, i, k, payload);
    }
    TakenByOther(c, s, k);
  }

  lemma TakenByOther(c: Setup, s: State, k: nat)
    requires Reachable(c, s) && Fresh(s) && k < |s.h.issued| && IdAt(c, k) in s.h.correlated
    requires s.h.correlated[IdAt(c, k)].Answer? ==> s.h.correlated[IdAt(c, k)].origin != k
    ensures Misrouted(s)
  {
    ReachableInv(c, s);
    CorrelationIsTraced(c, s, IdAt(c, k));
    KeyIsTraced(c, s, IdAt(c, k));
    IdsDistinct(c, s.h.owner[IdAt(c, k)].index, k);
    assert !TakenByAnswerTo(s, IdAt(c, k), s.h.owner[IdAt(c, k)].index);
  }

  lemma EarlyIsDisturbedIffCrossed(c: Setup, issued: seq<Issue>)
    requires |issued| <= TWO_28
    ensures Disturbed(c, issued) <==> !Uncrossed(c, issued)
  {
    if Uncrossed(c, issued) {
      forall k: nat ensures Undisturbed(c, issued, k) {
        EarlyIsUndisturbed(c, issued, k);
      }
    } else {
      var k: nat, j: nat :| Crosses(c, issued, k, j);
      assert !Undisturbed(c, issued, k);
    }
  }

  lemma UnnamedIsUncrossed(c: Setup, submissions: seq<Submission>)
    requires forall request :: DirectSubmission(request) in submissions ==>
                                 request.resultDestination != c.config.resultQueue
    ensures Uncrossed(c, Issues(submissions))
  {
  }

  /** The condition of NoMisrouting is exact: up to 2^28 submissions can be misrouted in some run if and only if one of
      them crosses another. None does if no direct request names the result queue. */
  lemma MisroutedIffCrossed(c: Setup, submissions: seq<Submission>)
    requires |submissions| <= TWO_28
    ensures (exists s :: Reachable(c, s) && s.h.issued == Issues(submissions) && Misrouted(s))
       <==> !Uncrossed(c, Issues(submissions))
    ensures (forall request :: DirectSubmission(request) in submissions ==>
                                 request.resultDestination != c.config.resultQueue)
            ==> Uncrossed(c, Issues(submissions))
  {
    MisroutedIffDisturbed(c, submissions);
    EarlyIsDisturbedIffCrossed(c, Issues(submissions));
    if forall request :: DirectSubmission(request) in submissions ==>
                           request.resultDestination != c.config.resultQueue {
      UnnamedIsUncrossed(c, submissions);
    }
  }

  /** Two requests and an honest QRM: the second client names the result queue as its destination and the first id as
      its own, and the first client gets the counts of the second under its own task id. */
  lemma MisroutedByTwo(c: Setup, first: QuantumTask, second: QuantumTask, payload: QuantumResult)
    returns (s: State, sent: Answer)
    requires c.uid < 10000
    requires second.resultDestination == c.config.resultQueue != "" && second.taskId == c.uid
    ensures Reachable(c, s) && s.h.issued == [DirectIssue(first), DirectIssue(second)]
    ensures sent.Answer? && sent.origin == 1 && sent.result.results == payload.results
    ensures forall k <- s.h.correlated :: s.h.correlated[k].Answer? ==> s.h.correlated[k] == sent
    ensures |s.h.handed| == 2 && s.h.handed[1].destination == first.resultDestination
    ensures s.h.handed[1].result.taskId == first.taskId && s.h.handed[1].result.results == payload.results
  {
    var submissions := [DirectSubmission(first), DirectSubmission(second)];
    UnwrappedTaskId(0, c.uid);
    UnwrappedTaskId(1, c.uid);
    assert Issues(submissions) == [DirectIssue(first), DirectIssue(second)];
    assert IdAt(c, 0) == c.uid;
    assert Crosses(c, Issues(submissions), 0, 1);
    var t;
    t, sent := CrossingRun(c, submissions, 0, 1, payload);
    StepLeads(c, INITIAL, t, ResultSend(true));
    s := ResultSent(c, t, true);
  }

  // ---------- the bound on misrouting is tight ----------

  lemma CollidingKeys(c: Setup)
    requires c.uid < TWO_31
    ensures ReturnKey(IdAt(c, TWO_28)) == IdAt(c, 0)
  {
    assert ToUint64(TWO_28) == TWO_28 && ToUint64(0) == 0;
    FirstCollision(c.uid);
  }

  /** 2^28 unanswered requests and one more, whose wire id is that of the first. */
  lemma FullRun(c: Setup, first: QuantumTask, last: QuantumTask) returns (s: State)
    requires c.uid < TWO_31
    ensures Reachable(c, s) && Calm(s) && |s.h.issued| == TWO_28 + 1
    ensures s.h.issued[0] == DirectIssue(first) && s.h.issued[TWO_28] == DirectIssue(last)
    ensures TWO_28 in s.h.outbound && ToUint64(s.h.outbound[TWO_28].taskId) == IdAt(c, 0)
  {
    var submissions := seq(TWO_28, _ => DirectSubmission(first)) + [DirectSubmission(last)];
    s := RoundsForward(c, submissions);
    CollidingKeys(c);
  }

  /** One id more and misrouting needs no crossing: there is a run in which the answer to the last of 2^28 + 1 requests
      is sent to the destination, and under the id, of the first one. */
  lemma MisroutedBeyondBound(c: Setup, first: QuantumTask, last: QuantumTask, payload: QuantumResult) returns (s: State)
    requires c.uid < TWO_31
    ensures Reachable(c, s) && |s.h.issued| == TWO_28 + 1
    ensures s.h.issued[TWO_28] == DirectIssue(last)
    ensures |s.h.handed| == 1 && s.h.handed[0].key in s.h.correlated
    ensures s.h.correlated[s.h.handed[0].key].Answer? && s.h.correlated[s.h.handed[0].key].origin == TWO_28
    ensures s.h.handed[0].destination == first.resultDestination && s.h.handed[0].result.taskId == first.taskId
  {
    var t := FullRun(c, first, last);
    CalmIsPending(c, t, 0);
    AnsweredIsUnderWay(c, t, TWO_28, IdAt(c, 0), DirectIssue(first), payload);
    var answered := Answered(t, TWO_28, payload);
    StepLeads(c, INITIAL, answered, ResultSend(true));
    s := ResultSent(c, answered, true);
  }
}
