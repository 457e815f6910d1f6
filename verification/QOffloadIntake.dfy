/** Every readable request is worked off exactly once, in the order in which the requests were submitted. */
module QOffloadIntake {
  import opened Ids
  import opened Messages
  import opened ControlProtocol
  import opened Control
  import opened QOffload
  import opened QOffloadReplies

  // ---------- direct requests ----------

  function DirectSubmitted(steps: seq<Step>): seq<QuantumTask> {
    if steps == [] then []
    else
      var earlier, last := DirectSubmitted(steps[..|steps| - 1]), steps[|steps| - 1];
      if last.ClientSubmits? then earlier + [last.request] else earlier
  }

  function DirectReceives(steps: seq<Step>): nat {
    if steps == [] then 0
    else DirectReceives(steps[..|steps| - 1]) + if steps[|steps| - 1].DirectReceive? then 1 else 0
  }

  /** The n-th receive gets the n-th submission; these are the ones that could be read. */
  function DirectRead(steps: seq<Step>): seq<QuantumTask> {
    if steps == [] then []
    else
      var prefix, last := steps[..|steps| - 1], steps[|steps| - 1];
      if last == DirectReceive(true) && DirectReceives(prefix) < |DirectSubmitted(prefix)|
      then DirectRead(prefix) + [DirectSubmitted(prefix)[DirectReceives(prefix)]]
      else DirectRead(prefix)
  }

  /** The direct requests among the numbered submissions. */
  function DirectTasks(issued: seq<Issue>): seq<QuantumTask> {
    if issued == [] then []
    else
      var earlier, last := DirectTasks(issued[..|issued| - 1]), issued[|issued| - 1];
      if last.DirectIssue? then earlier + [last.task] else earlier
  }

  predicate DirectIntake(s: State, submitted: seq<QuantumTask>, receives: nat, read: seq<QuantumTask>) {
    && receives <= |submitted| && s.requests == submitted[receives..]
    && read == DirectTasks(s.h.issued) + if s.direct.DirectReceived? then [s.direct.request] else []
  }

  lemma DirectTasksOfMore(issued: seq<Issue>, issue: Issue)
    ensures DirectTasks(issued + [issue]) == DirectTasks(issued) + if issue.DirectIssue? then [issue.task] else []
  {
    assert (issued + [issue])[..|issued|] == issued;
  }

  lemma DirectSubmitTakesIn(s: State, submitted: seq<QuantumTask>, receives: nat, read: seq<QuantumTask>,
                            request: QuantumTask)
    requires DirectIntake(s, submitted, receives, read)
    ensures DirectIntake(s.(requests := s.requests + [request]), submitted + [request], receives, read)
  {
    assert (submitted + [request])[receives..] == submitted[receives..] + [request];
  }

  lemma DirectReceiveTakesIn(c: Setup, s: State, submitted: seq<QuantumTask>, receives: nat, read: seq<QuantumTask>,
                             readable: bool)
    requires Enabled(s, DirectReceive(readable)) && DirectIntake(s, submitted, receives, read)
    ensures receives < |submitted|
    ensures DirectIntake(DirectReceiving(s, readable), submitted, receives + 1,
                         if readable then read + [submitted[receives]] else read)
  {
    assert s.requests[1..] == submitted[receives + 1..];
  }

  lemma DirectNumberTakesIn(c: Setup, s: State, submitted: seq<QuantumTask>, receives: nat, read: seq<QuantumTask>)
    requires Enabled(s, DirectNumber) && DirectIntake(s, submitted, receives, read)
    ensures DirectIntake(DirectNumbering(c, s), submitted, receives, read)
  {
    DirectTasksOfMore(s.h.issued, DirectIssue(s.direct.request));
  }

  lemma OtherTakesIn(c: Setup, s: State, step: Step)
    requires Enabled(s, step) && !step.ClientSubmits? && !step.DirectReceive? && !step.DirectNumber?
    ensures var t := Apply(c, s, step);
            && t.requests == s.requests
            && t.direct.DirectReceived? == s.direct.DirectReceived?
            && (t.direct.DirectReceived? ==> t.direct == s.direct)
            && (|| t.h.issued == s.h.issued
                || exists task :: t.h.issued == s.h.issued + [ControlIssue(task)])
  {
  }

  lemma OtherKeepsIntake(s: State, t: State, submitted: seq<QuantumTask>, receives: nat, read: seq<QuantumTask>)
    requires DirectIntake(s, submitted, receives, read)
    requires t.requests == s.requests && t.direct.DirectReceived? == s.direct.DirectReceived?
    requires t.direct.DirectReceived? ==> t.direct == s.direct
    requires t.h.issued == s.h.issued || exists task :: t.h.issued == s.h.issued + [ControlIssue(task)]
    ensures DirectIntake(t, submitted, receives, read)
  {
    if task :| t.h.issued == s.h.issued + [ControlIssue(task)] {
      DirectTasksOfMore(s.h.issued, ControlIssue(task));
    }
  }

  lemma DirectStepTakesIn(c: Setup, s: State, step: Step, submitted: seq<QuantumTask>, receives: nat,
                          read: seq<QuantumTask>)
    requires Enabled(s, step) && DirectIntake(s, submitted, receives, read)
    ensures step.DirectReceive? ==> receives < |submitted|
    ensures DirectIntake(Apply(c, s, step),
                         if step.ClientSubmits? then submitted + [step.request] else submitted,
                         receives + if step.DirectReceive? then 1 else 0,
                         if step == DirectReceive(true) then read + [submitted[receives]] else read)
  {
    match step
    case ClientSubmits(request) => DirectSubmitTakesIn(s, submitted, receives, read, request);
    case DirectReceive(readable) => DirectReceiveTakesIn(c, s, submitted, receives, read, readable);
    case DirectNumber => DirectNumberTakesIn(c, s, submitted, receives, read);
    case _ =>
      OtherTakesIn(c, s, step);
      OtherKeepsIntake(s, Apply(c, s, step), submitted, receives, read);
  }

  /** Direct requests wait in the order of submission, and those that could be read are numbered once each, in that
      order; nothing else is numbered as a direct task. */
  lemma {:induction false} DirectRequestsAreNumberedOnce(c: Setup, steps: seq<Step>)
    requires Resume(c, INITIAL, steps).Some?
    ensures DirectIntake(Resume(c, INITIAL, steps).value, DirectSubmitted(steps), DirectReceives(steps),
                         DirectRead(steps))
  {
    if steps != [] {
      var prefix, last := steps[..|steps| - 1], steps[|steps| - 1];
      DirectRequestsAreNumberedOnce(c, prefix);
      DirectStepTakesIn(c, Resume(c, INITIAL, prefix).value, last, DirectSubmitted(prefix), DirectReceives(prefix),
                        DirectRead(prefix));
    }
  }

  // ---------- control requests ----------

  function ControlSubmitted(steps: seq<Step>): seq<APIRequest> {
    if steps == [] then []
    else
      var earlier, last := ControlSubmitted(steps[..|steps| - 1]), steps[|steps| - 1];
      if last.ControlSubmits? then earlier + [last.apiRequest] else earlier
  }

  function ControlReceives(steps: seq<Step>): nat {
    if steps == [] then 0
    else ControlReceives(steps[..|steps| - 1]) + if steps[|steps| - 1].ControlReceive? then 1 else 0
  }

  function ControlRead(steps: seq<Step>): seq<APIRequest> {
    if steps == [] then []
    else
      var prefix, last := steps[..|steps| - 1], steps[|steps| - 1];
      if last == ControlReceive(true) && ControlReceives(prefix) < |ControlSubmitted(prefix)|
      then ControlRead(prefix) + [ControlSubmitted(prefix)[ControlReceives(prefix)]]
      else ControlRead(prefix)
  }

  /** How many requests the control worker is done with. */
  function Replies(steps: seq<Step>): nat {
    if steps == [] then 0
    else Replies(steps[..|steps| - 1]) + if steps[|steps| - 1].ControlReply? then 1 else 0
  }

  /** The requests whose response was sent: their reply was accepted and they named a queue for it. */
  function RepliedTo(steps: seq<Step>): seq<APIRequest> {
    if steps == [] then []
    else
      var prefix, last := steps[..|steps| - 1], steps[|steps| - 1];
      if last == ControlReply(true) && Replies(prefix) < |ControlRead(prefix)| &&
         ControlRead(prefix)[Replies(prefix)].responseQueue != ""
      then RepliedTo(prefix) + [ControlRead(prefix)[Replies(prefix)]]
      else RepliedTo(prefix)
  }

  function RequestsOf(replies: seq<Reply>): seq<APIRequest> {
    seq(|replies|, n requires 0 <= n < |replies| => replies[n].request)
  }

  predicate ControlIntake(s: State, submitted: seq<APIRequest>, receives: nat, read: seq<APIRequest>, replies: nat,
                          repliedTo: seq<APIRequest>) {
    && receives <= |submitted| && s.controls == submitted[receives..]
    && |read| == replies + (if s.control.ControlIdle? then 0 else 1)
    && (!s.control.ControlIdle? ==> s.control.request == read[replies])
    && RequestsOf(s.h.replies) == repliedTo
  }

  lemma ControlSubmitTakesIn(s: State, submitted: seq<APIRequest>, receives: nat, read: seq<APIRequest>, replies: nat,
                             repliedTo: seq<APIRequest>, request: APIRequest)
    requires ControlIntake(s, submitted, receives, read, replies, repliedTo)
    ensures ControlIntake(s.(controls := s.controls + [request]), submitted + [request], receives, read, replies,
                          repliedTo)
  {
    assert (submitted + [request])[receives..] == submitted[receives..] + [request];
  }

  lemma ControlReceiveTakesIn(c: Setup, s: State, submitted: seq<APIRequest>, receives: nat, read: seq<APIRequest>,
                              replies: nat, repliedTo: seq<APIRequest>, readable: bool)
    requires Enabled(s, ControlReceive(readable)) && ControlIntake(s, submitted, receives, read, replies, repliedTo)
    ensures receives < |submitted|
    ensures ControlIntake(ControlReceiving(s, readable), submitted, receives + 1,
                          if readable then read + [submitted[receives]] else read, replies, repliedTo)
  {
    assert s.controls[1..] == submitted[receives + 1..];
  }

  lemma ControlReplyTakesIn(c: Setup, s: State, submitted: seq<APIRequest>, receives: nat, read: seq<APIRequest>,
                            replies: nat, repliedTo: seq<APIRequest>, accepted: bool)
    requires Enabled(s, ControlReply(accepted)) && ControlIntake(s, submitted, receives, read, replies, repliedTo)
    ensures replies < |read|
    ensures ControlIntake(ControlReplied(s, accepted), submitted, receives, read, replies + 1,
                          if accepted && read[replies].responseQueue != "" then repliedTo + [read[replies]]
                          else repliedTo)
  {
    ReadsKind(s.control.request, s.control.result);
    var t := ControlReplied(s, accepted);
    if t.h.replies != s.h.replies {
      assert RequestsOf(t.h.replies) == RequestsOf(s.h.replies) + [s.control.request];
    }
  }

  lemma ControlWorks(c: Setup, s: State, step: Step)
    requires Enabled(s, step) && !step.ControlSubmits? && !step.ControlReceive? && !step.ControlReply?
    ensures var t := Apply(c, s, step);
            && t.controls == s.controls && t.h.replies == s.h.replies
            && t.control.ControlIdle? == s.control.ControlIdle?
            && (!t.control.ControlIdle? ==> t.control.request == s.control.request)
  {
  }

  /** Control requests wait in the order of submission, and those that could be read are answered once each, in that
      order: what was sent are the accepted replies to requests that named a queue. */
  lemma {:induction false} ControlRequestsAreAnsweredOnce(c: Setup, steps: seq<Step>)
    requires Resume(c, INITIAL, steps).Some?
    ensures ControlIntake(Resume(c, INITIAL, steps).value, ControlSubmitted(steps), ControlReceives(steps),
                          ControlRead(steps), Replies(steps), RepliedTo(steps))
  {
    if steps != [] {
      var prefix, last := steps[..|steps| - 1], steps[|steps| - 1];
      var s := Resume(c, INITIAL, prefix).value;
      var submitted, receives, read := ControlSubmitted(prefix), ControlReceives(prefix), ControlRead(prefix);
      ControlRequestsAreAnsweredOnce(c, prefix);
      match last
      case ControlSubmits(request) =>
        ControlSubmitTakesIn(s, submitted, receives, read, Replies(prefix), RepliedTo(prefix), request);
      case ControlReceive(readable) =>
        ControlReceiveTakesIn(c, s, submitted, receives, read, Replies(prefix), RepliedTo(prefix), readable);
      case ControlReply(accepted) =>
        ControlReplyTakesIn(c, s, submitted, receives, read, Replies(prefix), RepliedTo(prefix), accepted);
      case _ => ControlWorks(c, s, last);
    }
  }
}
