/** What control clients are told about tasks they create: every number belongs to one registered task. */
module QOffloadCreations {
  import opened Ids
  import opened Messages
  import opened Tasks
  import opened Forwarding
  import opened ControlProtocol
  import opened Control
  import opened QOffload
  import opened QOffloadInvariant
  import opened QOffloadRuns
  import opened QOffloadTheorems
  import opened QOffloadReplies

  // ---------- an invariant of the control worker and the numbers ----------

  predicate Submitted(issued: seq<Issue>, request: APIRequest, index: nat) {
    && Understood(request).command.CreateQuantumTask?
    && index < |issued|
    && issued[index] == ControlIssue(TaskFor(Understood(request).command))
  }

  /** Each creation has a number of its own, taken for its request. */
  predicate Creations(id: Numbering, issued: seq<Issue>, created: seq<Creation>) {
    && (forall n :: 0 <= n < |created| ==>
          Submitted(issued, created[n].request, created[n].index) && created[n].id == id(created[n].index))
    && Increasing(created)
  }

  predicate Increasing(created: seq<Creation>) {
    forall m, n :: 0 <= m < n < |created| ==> created[m].index < created[n].index
  }

  lemma StaysIncreasing(created: seq<Creation>, creation: Creation)
    requires Increasing(created) && (created != [] ==> created[|created| - 1].index < creation.index)
    ensures Increasing(created + [creation])
  {
    forall m | 0 <= m < |created| ensures created[m].index < creation.index {
      assert m < |created| - 1 ==> created[m].index < created[|created| - 1].index;
    }
  }

  /** A create answer reports the n-th creation, for the same request. */
  predicate AnswersCreation(created: seq<Creation>, request: APIRequest, result: ControlResult, n: nat) {
    result.TaskCreated? ==>
      && 0 < n <= |created|
      && created[n - 1].request == request
      && result == TaskCreated(ReturnKey(created[n - 1].id))
  }

  /** No reply has reported the last creation yet. */
  predicate Unreported(created: seq<Creation>, replies: seq<Reply>) {
    replies != [] ==> replies[|replies| - 1].creations < |created|
  }

  predicate Creating(id: Numbering, control: ControlWorker, issued: seq<Issue>, created: seq<Creation>,
                     replies: seq<Reply>) {
    match control
    case ControlNumbered(request, index, taskId, task) =>
      && Submitted(issued, request, index) && taskId == id(index)
      && task == TaskFor(Understood(request).command)
      && (created != [] ==> created[|created| - 1].index < index)
    case ControlRegistered(request, _, task) =>
      && created != [] && created[|created| - 1].request == request
      && task.taskId == ToInt32(created[|created| - 1].id)
      && Unreported(created, replies)
    case ControlReplying(request, result) =>
      && AnswersCreation(created, request, result, |created|)
      && (result.TaskCreated? ==> Unreported(created, replies))
    case _ => true
  }

  predicate CreationsReported(created: seq<Creation>, replies: seq<Reply>) {
    && (forall n :: 0 <= n < |replies| ==>
          && replies[n].creations <= |created|
          && AnswersCreation(created, replies[n].request, replies[n].result, replies[n].creations))
    && (forall m, n :: 0 <= m < n < |replies| ==>
          && replies[m].creations <= replies[n].creations
          && (replies[n].result.TaskCreated? ==> replies[m].creations < replies[n].creations))
  }

  predicate CreationsInv(id: Numbering, control: ControlWorker, issued: seq<Issue>, created: seq<Creation>,
                         replies: seq<Reply>) {
    && UnderstoodAs(control)
    && Creations(id, issued, created)
    && Creating(id, control, issued, created, replies)
    && CreationsReported(created, replies)
  }

  ghost predicate CreationsIn(c: Setup, s: State) {
    CreationsInv(IdsOf(c), s.control, s.h.issued, s.h.created, s.h.replies)
  }

  // ---------- preservation ----------

  /** Numbers come and go, and the control worker moves without creating anything. */
  lemma MoveKeepsCreations(id: Numbering, control: ControlWorker, issued: seq<Issue>, created: seq<Creation>,
                           replies: seq<Reply>, control': ControlWorker, issued': seq<Issue>)
    requires CreationsInv(id, control, issued, created, replies) && issued <= issued'
    requires || control' == control
             || (&& UnderstoodAs(control') && !control'.ControlNumbered? && !control'.ControlRegistered?
                 && (control'.ControlReplying? ==> !control'.result.TaskCreated?))
    ensures CreationsInv(id, control', issued', created, replies)
  {
  }

  lemma NumberKeepsCreations(id: Numbering, control: ControlWorker, issued: seq<Issue>, created: seq<Creation>,
                             replies: seq<Reply>)
    requires CreationsInv(id, control, issued, created, replies)
    requires control.ControlDecoded? && control.command.CreateQuantumTask?
    ensures var task := TaskFor(control.command);
            CreationsInv(id, ControlNumbered(control.request, |issued|, id(|issued|), task),
                         issued + [ControlIssue(task)], created, replies)
  {
  }

  lemma OneMoreCreation(id: Numbering, issued: seq<Issue>, created: seq<Creation>, creation: Creation)
    requires Creations(id, issued, created)
    requires Submitted(issued, creation.request, creation.index) && creation.id == id(creation.index)
    requires created != [] ==> created[|created| - 1].index < creation.index
    ensures Creations(id, issued, created + [creation])
  {
    StaysIncreasing(created, creation);
  }

  lemma ReportedStays(created: seq<Creation>, replies: seq<Reply>, creation: Creation)
    requires CreationsReported(created, replies)
    ensures CreationsReported(created + [creation], replies) && Unreported(created + [creation], replies)
  {
  }

  lemma RegisterKeepsCreations(id: Numbering, control: ControlWorker, issued: seq<Issue>, created: seq<Creation>,
                               replies: seq<Reply>, task: QuantumTask)
    requires CreationsInv(id, control, issued, created, replies) && control.ControlNumbered?
    requires task.taskId == ToInt32(control.id)
    ensures CreationsInv(id, ControlRegistered(control.request, control.index, task), issued,
                         created + [Creation(control.request, control.index, control.id)], replies)
  {
    var creation := Creation(control.request, control.index, control.id);
    OneMoreCreation(id, issued, created, creation);
    ReportedStays(created, replies, creation);
  }

  lemma SendKeepsCreations(id: Numbering, control: ControlWorker, issued: seq<Issue>, created: seq<Creation>,
                           replies: seq<Reply>)
    requires CreationsInv(id, control, issued, created, replies) && control.ControlRegistered?
    ensures CreationsInv(id, ControlReplying(control.request, TaskCreated(ToUint64(control.task.taskId))), issued,
                         created, replies)
  {
  }

  lemma ReplyKeepsCreations(id: Numbering, control: ControlWorker, issued: seq<Issue>, created: seq<Creation>,
                            replies: seq<Reply>, reply: Reply)
    requires CreationsInv(id, control, issued, created, replies) && control.ControlReplying?
    requires reply.request == control.request && reply.result == control.result && reply.creations == |created|
    ensures CreationsInv(id, ControlIdle, issued, created, replies + [reply])
  {
    var replies' := replies + [reply];
    forall m, n | 0 <= m < n < |replies'|
      ensures replies'[m].creations <= replies'[n].creations
      ensures replies'[n].result.TaskCreated? ==> replies'[m].creations < replies'[n].creations
    {
      assert m < |replies| - 1 ==> replies[m].creations <= replies[|replies| - 1].creations;
    }
  }

  predicate Creates(s: State, step: Step) {
    || (step.ControlAct? && s.control.ControlDecoded? && s.control.command.CreateQuantumTask?)
    || step.ControlRegister? || step.ControlSend?
  }

  lemma CreatingStepKeeps(c: Setup, s: State, step: Step)
    requires CreationsIn(c, s) && Enabled(s, step) && Creates(s, step) && s.nextIndex == ToUint64(|s.h.issued|)
    ensures CreationsIn(c, Apply(c, s, step))
  {
    var id := IdsOf(c);
    match step
    case ControlAct => NumberKeepsCreations(id, s.control, s.h.issued, s.h.created, s.h.replies);
    case ControlRegister =>
      RegisterKeepsCreations(id, s.control, s.h.issued, s.h.created, s.h.replies,
                             ForwardedTask(s.control.task, s.control.id, c.config));
    case ControlSend(_) => SendKeepsCreations(id, s.control, s.h.issued, s.h.created, s.h.replies);
  }

  lemma ReplyStepKeeps(c: Setup, s: State, accepted: bool)
    requires CreationsIn(c, s) && s.control.ControlReplying?
    ensures CreationsIn(c, ControlReplied(s, accepted))
  {
    var reply := Reply(s.control.request, s.control.result, |s.h.fetched|, |s.h.created|,
                       ResponseTo(s.control.request, s.control.result));
    ReplyKeepsCreations(IdsOf(c), s.control, s.h.issued, s.h.created, s.h.replies, reply);
    MoveKeepsCreations(IdsOf(c), s.control, s.h.issued, s.h.created, s.h.replies, ControlIdle, s.h.issued);
  }

  lemma OtherStepMoves(c: Setup, s: State, step: Step)
    requires Enabled(s, step) && !Creates(s, step) && !step.ControlReply? && UnderstoodAs(s.control)
    ensures var t := Apply(c, s, step);
            && t.h.created == s.h.created && t.h.replies == s.h.replies && s.h.issued <= t.h.issued
            && (|| t.control == s.control
                || (&& UnderstoodAs(t.control) && !t.control.ControlNumbered? && !t.control.ControlRegistered?
                    && (t.control.ControlReplying? ==> !t.control.result.TaskCreated?)))
  {
  }

  lemma StepKeepsCreations(c: Setup, s: State, step: Step)
    requires CreationsIn(c, s) && Enabled(s, step) && s.nextIndex == ToUint64(|s.h.issued|)
    ensures CreationsIn(c, Apply(c, s, step))
  {
    if Creates(s, step) {
      CreatingStepKeeps(c, s, step);
    } else if step.ControlReply? {
      ReplyStepKeeps(c, s, step.accepted);
    } else {
      var t := Apply(c, s, step);
      OtherStepMoves(c, s, step);
      MoveKeepsCreations(IdsOf(c), s.control, s.h.issued, s.h.created, s.h.replies, t.control, t.h.issued);
    }
  }

  lemma {:induction false} CreationsAlong(c: Setup, steps: seq<Step>)
    requires Resume(c, INITIAL, steps).Some?
    ensures var t := Resume(c, INITIAL, steps).value;
            CreationsIn(c, t) && t.nextIndex == ToUint64(|t.h.issued|)
  {
    if steps != [] {
      var prefix := steps[..|steps| - 1];
      var t := Resume(c, INITIAL, prefix).value;
      CreationsAlong(c, prefix);
      CounterKept(c, t, steps[|steps| - 1]);
      StepKeepsCreations(c, t, steps[|steps| - 1]);
    }
  }

  lemma ReachableCreations(c: Setup, s: State)
    requires Reachable(c, s)
    ensures CreationsIn(c, s)
  {
    var steps :| Resume(c, INITIAL, steps) == Some(s);
    CreationsAlong(c, steps);
  }

  // ---------- what a create reply tells ----------

  function CreationOf(s: State, reply: Reply): Creation
    requires 0 < reply.creations <= |s.h.created|
  {
    s.h.created[reply.creations - 1]
  }

  /** What the client of a protocol reads for an id. */
  function NumberRead(protocol: Protocol, id: uint64): int {
    if protocol.Typed? then ToInt32(id) else ReturnKey(id)
  }

  lemma CreationIsRegistered(c: Setup, s: State, n: nat)
    requires Reachable(c, s) && Fresh(s) && n < |s.h.created|
    ensures var creation := s.h.created[n];
            && creation.id == IdAt(c, creation.index)
            && Understood(creation.request).command.CreateQuantumTask?
            && creation.id in s.h.owner
            && s.h.owner[creation.id]
               == Registration(creation.index, ControlIssue(TaskFor(Understood(creation.request).command)))
  {
    ReachableCreations(c, s);
    ReachableInv(c, s);
    var creation := s.h.created[n];
    CreatedIsReleased(IdsOf(c), s.direct, s.control, s.h.issued, s.h.owner, s.h.created, s.h.replies, n);
    assert IdsOf(c)(creation.index) in s.h.owner;
    KeyIsTraced(c, s, creation.id);
    IdsDistinct(c, s.h.owner[creation.id].index, creation.index);
  }

  lemma CreatedIsIssued(id: Numbering, issued: seq<Issue>, created: seq<Creation>, n: nat)
    requires Creations(id, issued, created) && n < |created|
    ensures created[n].index < |issued| && issued[created[n].index].ControlIssue?
  {
  }

  /** A number that became a creation is held by no worker. */
  lemma CreatedIsReleased(id: Numbering, direct: DirectWorker, control: ControlWorker, issued: seq<Issue>,
                          owner: Owner, created: seq<Creation>, replies: seq<Reply>, n: nat)
    requires CreationsInv(id, control, issued, created, replies) && HeldNumbers(id, issued, direct, control)
    requires n < |created|
    ensures created[n].index < |issued| && !Holds(direct, control, created[n].index)
  {
    CreatedIsIssued(id, issued, created, n);
    assert n < |created| - 1 ==> created[n].index < created[|created| - 1].index;
  }

  /** The task that QRM gets for a create command, field by field. */
  lemma CreatedTaskIs(c: Setup, s: State, n: nat)
    requires Reachable(c, s) && Fresh(s) && n < |s.h.created| && s.h.created[n].index in s.h.outbound
    ensures Understood(s.h.created[n].request).command.CreateQuantumTask?
    ensures var command := Understood(s.h.created[n].request).command;
            var priority := if c.config.hpcNode then 1 else 0;
            s.h.outbound[s.h.created[n].index]
            == QuantumTask(ToInt32(s.h.created[n].id), 0, command.shots, command.circuitFiles, command.circuitFormat,
                           c.config.resultQueue, command.resourceName, "", priority, 0, command.noModify, false, 0,
                           "", [], "", [], "", "", true)
  {
    CreationIsRegistered(c, s, n);
    OutboundIsSubmission(c, s, s.h.created[n].index);
    ReachableInv(c, s);
    KeyIsTraced(c, s, s.h.created[n].id);
  }

  /** A create reply goes to the queue of its request and carries the number of a task that was registered for that
      request. */
  lemma CreateRepliesAreFaithful(c: Setup, s: State, n: nat)
    requires Reachable(c, s) && Fresh(s) && n < |s.h.replies| && s.h.replies[n].result.TaskCreated?
    ensures var reply := s.h.replies[n];
            && 0 < reply.creations <= |s.h.created|
            && var creation := CreationOf(s, reply);
            && creation.request == reply.request
            && creation.id == IdAt(c, creation.index) && creation.id in s.h.owner
            && Understood(reply.request).command.CreateQuantumTask?
            && s.h.owner[creation.id]
               == Registration(creation.index, ControlIssue(TaskFor(Understood(reply.request).command)))
            && reply.response.destinationQueue == reply.request.responseQueue
            && ReadIn(reply) == Some(CreatedView(NumberRead(ProtocolFor(reply.request), creation.id)))
  {
    ReachableCreations(c, s);
    ReachableReplies(c, s);
    var reply := s.h.replies[n];
    CreationIsRegistered(c, s, reply.creations - 1);
    ReadsKind(reply.request, reply.result);
    CreatedReadsAs(CreationOf(s, reply).id, reply.request.responseQueue);
  }

  /** Up to 2^28 ids no two create replies carry the same number, whatever their protocols. */
  lemma CreateNumbersDiffer(c: Setup, s: State, m: nat, n: nat)
    requires Reachable(c, s) && |s.h.issued| <= TWO_28 && m < n < |s.h.replies|
    requires s.h.replies[m].result.TaskCreated? && s.h.replies[n].result.TaskCreated?
    ensures ReadIn(s.h.replies[m]) != ReadIn(s.h.replies[n])
  {
    CreateRepliesAreFaithful(c, s, m);
    CreateRepliesAreFaithful(c, s, n);
    var first, second := CreationOf(s, s.h.replies[m]), CreationOf(s, s.h.replies[n]);
    CreationIndicesDiffer(c, s, m, n);
    EarlyIdsOwnKey(c, first.index, second.index);
    NumbersReadDiffer(ProtocolFor(s.h.replies[m].request), ProtocolFor(s.h.replies[n].request), first.id, second.id);
  }

  lemma CreationIndicesDiffer(c: Setup, s: State, m: nat, n: nat)
    requires Reachable(c, s) && m < n < |s.h.replies|
    requires s.h.replies[m].result.TaskCreated? && s.h.replies[n].result.TaskCreated?
    ensures 0 < s.h.replies[m].creations < s.h.replies[n].creations <= |s.h.created|
    ensures CreationOf(s, s.h.replies[m]).index < CreationOf(s, s.h.replies[n]).index < |s.h.issued|
  {
    ReachableCreations(c, s);
  }

  lemma NumbersReadDiffer(p: Protocol, q: Protocol, a: uint64, b: uint64)
    requires ToInt32(a) != ToInt32(b)
    ensures NumberRead(p, a) != NumberRead(q, b)
  {
    Int32Survives(ToInt32(a));
    Int32Survives(ToInt32(b));
  }
}
