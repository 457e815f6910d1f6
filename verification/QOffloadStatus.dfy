/** What control clients are told about the status of tasks. */
module QOffloadStatus {
  import opened Ids
  import opened Messages
  import opened Tasks
  import opened Forwarding
  import opened ControlProtocol
  import opened Control
  import opened QOffload
  import opened QOffloadInvariant
  import opened QOffloadRuns
  import opened QOffloadTheorems
  import opened QOffloadReplies
  import T = TypedControlProtocol
  import R = RestControlProtocol

  /** A status answer is true of the id that was asked for, now and from then on. */
  predicate IsTrue(owner: Owner, correlated: Correlated, request: APIRequest, result: ControlResult) {
    result.TaskStatusResult? ==>
      && Understood(request).command.GetTaskStatus?
      && var k := Understood(request).command.taskId;
         match result.status
         case Waiting => k in owner
         case Completed => k in owner && k in correlated && correlated[k].result.executionStatus
         case Cancelled => k in owner && k in correlated && !correlated[k].result.executionStatus
         case NotFound => true
  }

  predicate AllTrue(owner: Owner, correlated: Correlated, control: ControlWorker, replies: seq<Reply>) {
    && (control.ControlReplying? ==> IsTrue(owner, correlated, control.request, control.result))
    && forall n :: 0 <= n < |replies| ==> IsTrue(owner, correlated, replies[n].request, replies[n].result)
  }

  predicate Grows(owner: Owner, correlated: Correlated, owner': Owner, correlated': Correlated) {
    && (forall k <- owner :: k in owner')
    && (forall k <- correlated :: k in correlated' && correlated'[k] == correlated[k])
  }

  lemma StepGrows(c: Setup, s: State, step: Step)
    requires Enabled(s, step)
    ensures Grows(s.h.owner, s.h.correlated, Apply(c, s, step).h.owner, Apply(c, s, step).h.correlated)
  {
  }

  lemma GrowthKeeps(owner: Owner, correlated: Correlated, owner': Owner, correlated': Correlated,
                    control: ControlWorker, replies: seq<Reply>)
    requires AllTrue(owner, correlated, control, replies) && Grows(owner, correlated, owner', correlated')
    ensures AllTrue(owner', correlated', control, replies)
  {
  }

  /** The status that the store gives for an id is true of it. */
  lemma StatusOfStore(c: Setup, s: State, k: uint64)
    requires Reachable(c, s) && Fresh(s)
    ensures s.store.Status(k) == Waiting <==> k in s.store.pending
    ensures s.store.Status(k) == Waiting ==> k in s.h.owner
    ensures s.store.Status(k) == Completed || s.store.Status(k) == Cancelled <==> k in s.store.completed
    ensures k in s.store.completed ==>
              && k in s.h.owner && k in s.h.correlated
              && (s.store.Status(k) == Completed <==> s.h.correlated[k].result.executionStatus)
  {
    ReachableInv(c, s);
    if k in s.store.completed {
      CompletedTask(c, s, k);
    }
  }

  /** Only acting on a status query makes a status answer. */
  lemma NewAnswers(c: Setup, s: State, step: Step)
    requires Enabled(s, step)
    ensures var t := Apply(c, s, step);
            && (t.control.ControlReplying? && t.control.result.TaskStatusResult? && t.control != s.control ==>
                  && s.control.ControlDecoded? && t.control.request == s.control.request
                  && s.control.command.GetTaskStatus?
                  && t.control.result.status == s.store.Status(s.control.command.taskId))
            && (t.h.replies == s.h.replies ||
                (&& s.control.ControlReplying? && |t.h.replies| == |s.h.replies| + 1
                 && t.h.replies[..|s.h.replies|] == s.h.replies
                 && t.h.replies[|s.h.replies|].request == s.control.request
                 && t.h.replies[|s.h.replies|].result == s.control.result))
  {
  }

  lemma StepKeepsTrue(c: Setup, s: State, step: Step)
    requires Reachable(c, s) && Fresh(s) && Enabled(s, step)
    requires AllTrue(s.h.owner, s.h.correlated, s.control, s.h.replies)
    ensures var t := Apply(c, s, step); AllTrue(t.h.owner, t.h.correlated, t.control, t.h.replies)
  {
    var t := Apply(c, s, step);
    StepGrows(c, s, step);
    GrowthKeeps(s.h.owner, s.h.correlated, t.h.owner, t.h.correlated, s.control, s.h.replies);
    NewAnswers(c, s, step);
    ReachableReplies(c, s);
    if s.control.ControlDecoded? && s.control.command.GetTaskStatus? {
      StatusOfStore(c, s, s.control.command.taskId);
    }
    RepliesStayTrue(t.h.owner, t.h.correlated, s.control, s.h.replies, t.h.replies);
  }

  lemma RepliesStayTrue(owner: Owner, correlated: Correlated, control: ControlWorker, replies: seq<Reply>,
                        replies': seq<Reply>)
    requires AllTrue(owner, correlated, control, replies)
    requires replies' == replies ||
             (&& control.ControlReplying? && |replies'| == |replies| + 1 && replies'[..|replies|] == replies
              && replies'[|replies|].request == control.request && replies'[|replies|].result == control.result)
    ensures forall n :: 0 <= n < |replies'| ==> IsTrue(owner, correlated, replies'[n].request, replies'[n].result)
  {
    forall n | 0 <= n < |replies'| ensures IsTrue(owner, correlated, replies'[n].request, replies'[n].result) {
      assert n < |replies| ==> replies'[n] == replies'[..|replies|][n];
    }
  }

  lemma {:induction false} TrueAlong(c: Setup, steps: seq<Step>)
    requires Resume(c, INITIAL, steps).Some? && Fresh(Resume(c, INITIAL, steps).value)
    ensures var t := Resume(c, INITIAL, steps).value;
            AllTrue(t.h.owner, t.h.correlated, t.control, t.h.replies)
  {
    if steps != [] {
      var prefix := steps[..|steps| - 1];
      var t := Resume(c, INITIAL, prefix).value;
      StepNumbers(c, t, steps[|steps| - 1]);
      TrueAlong(c, prefix);
      StepKeepsTrue(c, t, steps[|steps| - 1]);
    }
  }

  lemma StatusReadsKind(request: APIRequest, result: ControlResult)
    ensures var read := ReadBy(ProtocolFor(request), ResponseTo(request, result));
            read.Some? && read.value.StatusView? ==> result == TaskStatusResult(read.value.status)
  {
    R.ReadInvertsEncode(result, request.responseQueue);
    TypedStatusReadsKind(result, request.responseQueue);
  }

  lemma TypedStatusReadsKind(result: ControlResult, queue: string)
    ensures var read := T.Read(T.Encoded(result, queue));
            read.Some? && read.value.StatusView? ==> result == TaskStatusResult(read.value.status)
  {
    match result
    case TaskStatusResult(Waiting) =>
    case TaskStatusResult(Completed) =>
    case TaskStatusResult(Cancelled) =>
    case TaskStatusResult(NotFound) =>
    case _ =>
  }

  /** A response in which a client reads a status answers its status query, and is true: the task was registered, and
      completed or cancelled is what the first result correlated with the id says. */
  lemma StatusRepliesAreFaithful(c: Setup, s: State, n: nat)
    requires Reachable(c, s) && Fresh(s) && n < |s.h.replies|
    requires ReadIn(s.h.replies[n]).Some? && ReadIn(s.h.replies[n]).value.StatusView?
    ensures var reply := s.h.replies[n];
            var status := ReadIn(reply).value.status;
            && Understood(reply.request).command.GetTaskStatus?
            && reply.response.destinationQueue == reply.request.responseQueue
            && var k := Understood(reply.request).command.taskId;
            && k in s.h.owner && status != NotFound
            && (status == Completed ==> k in s.h.correlated && s.h.correlated[k].result.executionStatus)
            && (status == Cancelled ==> k in s.h.correlated && !s.h.correlated[k].result.executionStatus)
  {
    var steps :| Resume(c, INITIAL, steps) == Some(s);
    TrueAlong(c, steps);
    ReplyTraced(c, s, n);
    ReachableReplies(c, s);
    StatusReadsKind(s.h.replies[n].request, s.h.replies[n].result);
    NotFoundIsNoStatus(s.h.replies[n].request);
  }

  lemma NotFoundIsNoStatus(request: APIRequest)
    ensures ReadBy(ProtocolFor(request), ResponseTo(request, TaskStatusResult(NotFound)))
         == Some(ErrorView("JOB NOT FOUND"))
  {
    R.ReadInvertsEncode(TaskStatusResult(NotFound), request.responseQueue);
  }
}
