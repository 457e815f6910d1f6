/** What control clients are sent: every response that carries counts belongs to one fetch, and no other does. */
module QOffloadReplies {
  import opened Ids
  import opened Messages
  import opened Tasks
  import opened Forwarding
  import opened ControlProtocol
  import opened Control
  import opened QOffload
  import opened QOffloadInvariant
  import opened QOffloadRuns
  import opened QOffloadTheorems
  import T = TypedControlProtocol
  import R = RestControlProtocol

  // ---------- an invariant of the control worker alone ----------

  /** The results that only a fetch can give. */
  predicate IsFetched(result: ControlResult) {
    result.TaskResultResult? || result.CancelReasonResult?
  }

  /** A fetched result answers the n-th fetch, for the same request. */
  predicate AnswersFetch(fetched: seq<Fetch>, request: APIRequest, result: ControlResult, n: nat) {
    IsFetched(result) ==>
      && 0 < n <= |fetched|
      && fetched[n - 1].request == request
      && Fetches(fetched[n - 1].command)
      && result == FetchAnswer(fetched[n - 1].command, Some(fetched[n - 1].task))
  }

  predicate UnderstoodAs(control: ControlWorker) {
    match control
    case ControlDecoded(request, command) => command == Understood(request).command
    case ControlChecked(request, command, _) => command == Understood(request).command
    case _ => true
  }

  predicate Replying(control: ControlWorker, fetched: seq<Fetch>, replies: seq<Reply>) {
    control.ControlReplying? ==>
      && AnswersFetch(fetched, control.request, control.result, |fetched|)
      && (IsFetched(control.result) && replies != [] ==> replies[|replies| - 1].fetches < |fetched|)
  }

  /** The number of fetches grows along the replies, strictly so where a reply used the last of them. */
  predicate InOrder(fetched: seq<Fetch>, replies: seq<Reply>) {
    && (forall n :: 0 <= n < |replies| ==> replies[n].fetches <= |fetched|)
    && (forall m, n :: 0 <= m < n < |replies| ==>
          && replies[m].fetches <= replies[n].fetches
          && (IsFetched(replies[n].result) ==> replies[m].fetches < replies[n].fetches))
  }

  predicate RepliesAnswer(fetched: seq<Fetch>, replies: seq<Reply>) {
    forall n :: 0 <= n < |replies| ==>
      && AnswersFetch(fetched, replies[n].request, replies[n].result, replies[n].fetches)
      && replies[n].response == ResponseTo(replies[n].request, replies[n].result)
  }

  predicate FetchesUnderstood(fetched: seq<Fetch>) {
    forall n :: 0 <= n < |fetched| ==>
      && Fetches(fetched[n].command) && fetched[n].command.taskId == fetched[n].key
      && fetched[n].command == Understood(fetched[n].request).command
  }

  predicate RepliesInv(control: ControlWorker, fetched: seq<Fetch>, replies: seq<Reply>) {
    && UnderstoodAs(control)
    && FetchesUnderstood(fetched)
    && Replying(control, fetched, replies)
    && InOrder(fetched, replies)
    && RepliesAnswer(fetched, replies)
  }

  lemma ReplyingKeeps(control: ControlWorker, fetched: seq<Fetch>, replies: seq<Reply>, reply: Reply)
    requires RepliesInv(control, fetched, replies) && control.ControlReplying?
    requires reply == Reply(control.request, control.result, |fetched|, reply.creations,
                            ResponseTo(control.request, control.result))
    ensures RepliesInv(ControlIdle, fetched, replies + [reply])
  {
    var replies' := replies + [reply];
    forall m, n | 0 <= m < n < |replies'|
      ensures replies'[m].fetches <= replies'[n].fetches
      ensures IsFetched(replies'[n].result) ==> replies'[m].fetches < replies'[n].fetches
    {
      assert m < |replies| - 1 ==> replies[m].fetches <= replies[|replies| - 1].fetches;
    }
  }

  lemma FetchingKeeps(control: ControlWorker, fetched: seq<Fetch>, replies: seq<Reply>, task: CompletedControlTask)
    requires RepliesInv(control, fetched, replies) && control.ControlChecked? && Fetches(control.command)
    ensures var fetch := Fetch(control.command.taskId, control.request, control.command, task);
            RepliesInv(ControlReplying(control.request, FetchAnswer(control.command, Some(task))),
                       fetched + [fetch], replies)
  {
  }

  lemma PlainStepKeeps(c: Setup, s: State, step: Step)
    requires RepliesInv(s.control, s.h.fetched, s.h.replies) && Enabled(s, step)
    requires !step.ControlTake? && !step.ControlReply?
    ensures var t := Apply(c, s, step); RepliesInv(t.control, t.h.fetched, t.h.replies)
  {
    var t := Apply(c, s, step);
    assert t.h.fetched == s.h.fetched && t.h.replies == s.h.replies;
    assert || t.control == s.control
           || (UnderstoodAs(t.control) && (t.control.ControlReplying? ==> !IsFetched(t.control.result)));
  }

  lemma StepKeepsReplies(c: Setup, s: State, step: Step)
    requires RepliesInv(s.control, s.h.fetched, s.h.replies) && Enabled(s, step)
    ensures var t := Apply(c, s, step); RepliesInv(t.control, t.h.fetched, t.h.replies)
  {
    if step.ControlTake? {
      var key := s.control.command.taskId;
      if key in s.store.completed {
        FetchingKeeps(s.control, s.h.fetched, s.h.replies, s.store.completed[key]);
      }
    } else if step.ControlReply? {
      var reply := Reply(s.control.request, s.control.result, |s.h.fetched|, |s.h.created|,
                         ResponseTo(s.control.request, s.control.result));
      ReplyingKeeps(s.control, s.h.fetched, s.h.replies, reply);
    } else {
      PlainStepKeeps(c, s, step);
    }
  }

  lemma {:induction false} RepliesAlong(c: Setup, steps: seq<Step>)
    requires Resume(c, INITIAL, steps).Some?
    ensures var t := Resume(c, INITIAL, steps).value; RepliesInv(t.control, t.h.fetched, t.h.replies)
  {
    if steps != [] {
      var prefix := steps[..|steps| - 1];
      RepliesAlong(c, prefix);
      StepKeepsReplies(c, Resume(c, INITIAL, prefix).value, steps[|steps| - 1]);
    }
  }

  lemma ReachableReplies(c: Setup, s: State)
    requires Reachable(c, s)
    ensures RepliesInv(s.control, s.h.fetched, s.h.replies)
  {
    var steps :| Resume(c, INITIAL, steps) == Some(s);
    RepliesAlong(c, steps);
  }

  // ---------- reading a response ----------

  /** What the client of a reply reads in it. */
  function ReadIn(reply: Reply): Option<View> {
    ReadBy(ProtocolFor(reply.request), reply.response)
  }

  predicate CarriesCounts(reply: Reply) {
    ReadIn(reply).Some? && ReadIn(reply).value.ResultView?
  }

  lemma TypedReadsKind(result: ControlResult, queue: string)
    ensures T.Read(T.Encoded(result, queue)).Some?
    ensures T.Read(T.Encoded(result, queue)).value.ResultView? <==> result.TaskResultResult?
    ensures IsFetched(result) ==> T.Read(T.Encoded(result, queue)) == Some(ViewOf(result))
  {
    match result
    case TaskStatusResult(Waiting) =>
    case TaskStatusResult(Completed) =>
    case TaskStatusResult(Cancelled) =>
    case TaskStatusResult(NotFound) =>
    case _ =>
  }

  lemma ReadsKind(request: APIRequest, result: ControlResult)
    ensures var read := ReadBy(ProtocolFor(request), ResponseTo(request, result));
            && read.Some?
            && (read.value.ResultView? <==> result.TaskResultResult?)
            && (IsFetched(result) ==> read == Some(ViewOf(result)))
    ensures ResponseTo(request, result).destinationQueue == request.responseQueue
  {
    TypedReadsKind(result, request.responseQueue);
    R.ReadInvertsEncode(result, request.responseQueue);
  }

  // ---------- end to end ----------

  /** The fetch that a reply reports. */
  function FetchOf(s: State, reply: Reply): Fetch
    requires 0 < reply.fetches <= |s.h.fetched|
  {
    s.h.fetched[reply.fetches - 1]
  }

  predicate Reports(reply: Reply, f: nat) {
    IsFetched(reply.result) && reply.fetches == f + 1
  }

  lemma ReplyTraced(c: Setup, s: State, n: nat)
    requires Reachable(c, s) && n < |s.h.replies|
    ensures var reply := s.h.replies[n];
            && AnswersFetch(s.h.fetched, reply.request, reply.result, reply.fetches)
            && FetchesUnderstood(s.h.fetched)
            && reply.response.destinationQueue == reply.request.responseQueue
            && ReadIn(reply).Some?
            && (CarriesCounts(reply) <==> reply.result.TaskResultResult?)
            && (IsFetched(reply.result) ==> ReadIn(reply) == Some(ViewOf(reply.result)))
  {
    ReachableReplies(c, s);
    ReadsKind(s.h.replies[n].request, s.h.replies[n].result);
  }

  /** A response with counts reports a fetch by a result request. */
  lemma CarrierFetch(c: Setup, s: State, n: nat)
    requires Reachable(c, s) && n < |s.h.replies| && CarriesCounts(s.h.replies[n])
    ensures var reply := s.h.replies[n];
            && 0 < reply.fetches <= |s.h.fetched|
            && var fetch := FetchOf(s, reply);
            && fetch.request == reply.request
            && fetch.command == GetTaskResult(fetch.key) == Understood(reply.request).command
            && reply.response.destinationQueue == reply.request.responseQueue
            && ReadIn(reply) == Some(ViewOf(TaskResultResult(fetch.task)))
  {
    ReplyTraced(c, s, n);
  }

  /** A response in which a client reads counts was sent for one result request, through its protocol and to its queue,
      and the counts are, circuit by circuit and state by state, those of the first result correlated with the id that
      the request names: up to 2^28 ids and without crossings, QRM's answer to the control task with that id. */
  lemma RepliesAreFaithful(c: Setup, s: State, n: nat)
    requires Reachable(c, s) && Fresh(s) && n < |s.h.replies| && CarriesCounts(s.h.replies[n])
    ensures var reply := s.h.replies[n];
            && 0 < reply.fetches <= |s.h.fetched|
            && var fetch := FetchOf(s, reply);
            && fetch.request == reply.request
            && Understood(reply.request).command == GetTaskResult(fetch.key)
            && reply.response.destinationQueue == reply.request.responseQueue
            && fetch.key in s.h.correlated
            && ReadIn(reply) == Some(ResultView(s.h.correlated[fetch.key].result.results, "", "", ""))
            && (|s.h.issued| <= TWO_28 && Uncrossed(c, s.h.issued) ==> AnswersControlTask(c, s, fetch.key))
  {
    CarrierFetch(c, s, n);
    FetchedTask(c, s, s.h.replies[n].fetches - 1);
    if |s.h.issued| <= TWO_28 && Uncrossed(c, s.h.issued) {
      FetchAnswersOwnTask(c, s, s.h.replies[n].fetches - 1);
    }
  }

  /** No fetch is reported twice, so the counts of an id are sent to at most one client, at most once. */
  lemma CountsAreSentOnce(c: Setup, s: State, m: nat, n: nat)
    requires Reachable(c, s) && Fresh(s) && m < n < |s.h.replies|
    requires CarriesCounts(s.h.replies[m]) && CarriesCounts(s.h.replies[n])
    ensures s.h.replies[m].fetches != s.h.replies[n].fetches
    ensures 0 < s.h.replies[m].fetches <= |s.h.fetched| && 0 < s.h.replies[n].fetches <= |s.h.fetched|
    ensures FetchOf(s, s.h.replies[m]).key != FetchOf(s, s.h.replies[n]).key
  {
    ReplyTraced(c, s, m);
    ReplyTraced(c, s, n);
    ReachableReplies(c, s);
    AnsweredAtMostOnce(c, s);
  }

  /** The reply to a fetch carries the counts exactly if it was a result request; to a cancel-reason request it says
      that the reason is empty. */
  lemma ReportedFetch(c: Setup, s: State, n: nat, f: nat)
    requires Reachable(c, s) && Fresh(s) && n < |s.h.replies| && f < |s.h.fetched| && Reports(s.h.replies[n], f)
    ensures CarriesCounts(s.h.replies[n]) <==> s.h.fetched[f].command.GetTaskResult?
    ensures s.h.fetched[f].key in s.h.correlated
    ensures ReadIn(s.h.replies[n])
         == if s.h.fetched[f].command.GetTaskResult?
            then Some(ResultView(s.h.correlated[s.h.fetched[f].key].result.results, "", "", ""))
            else Some(ReasonView(""))
  {
    ReplyTraced(c, s, n);
    FetchedTask(c, s, f);
  }

  predicate CarriesCountsOf(s: State, reply: Reply, key: uint64) {
    CarriesCounts(reply) && 0 < reply.fetches <= |s.h.fetched| && FetchOf(s, reply).key == key
  }

  lemma CountsReport(c: Setup, s: State, n: nat, f: nat)
    requires Reachable(c, s) && Fresh(s) && f < |s.h.fetched| && n < |s.h.replies|
    requires CarriesCountsOf(s, s.h.replies[n], s.h.fetched[f].key)
    ensures Reports(s.h.replies[n], f)
  {
    ReplyTraced(c, s, n);
    AnsweredAtMostOnce(c, s);
  }

  lemma ReportCarries(c: Setup, s: State, n: nat, f: nat)
    requires Reachable(c, s) && Fresh(s) && f < |s.h.fetched| && n < |s.h.replies| && Reports(s.h.replies[n], f)
    ensures CarriesCountsOf(s, s.h.replies[n], s.h.fetched[f].key) <==> s.h.fetched[f].command.GetTaskResult?
  {
    ReportedFetch(c, s, n, f);
  }

  /** The counts of a fetched id were sent to some client exactly if they were fetched by a result request and the reply
      to it was sent. */
  lemma CountsSentIff(c: Setup, s: State, f: nat)
    requires Reachable(c, s) && Fresh(s) && f < |s.h.fetched|
    ensures (exists n :: 0 <= n < |s.h.replies| && CarriesCountsOf(s, s.h.replies[n], s.h.fetched[f].key))
       <==> s.h.fetched[f].command.GetTaskResult? && exists n :: 0 <= n < |s.h.replies| && Reports(s.h.replies[n], f)
  {
    if n :| 0 <= n < |s.h.replies| && CarriesCountsOf(s, s.h.replies[n], s.h.fetched[f].key) {
      CountsReport(c, s, n, f);
      ReportCarries(c, s, n, f);
    }
    if n :| 0 <= n < |s.h.replies| && Reports(s.h.replies[n], f) {
      ReportCarries(c, s, n, f);
    }
  }

  lemma FetchedIsGone(c: Setup, s: State, f: nat)
    requires Reachable(c, s) && Fresh(s) && f < |s.h.fetched|
    ensures s.store.Status(s.h.fetched[f].key) == NotFound
  {
    assert WasFetched(s.h.fetched, s.h.fetched[f].key);
    StageMeans(c, s, s.h.fetched[f].key);
  }

  lemma OtherFetch(c: Setup, s: State, f: nat, n: nat)
    requires Reachable(c, s) && Fresh(s) && f < |s.h.fetched| && s.h.fetched[f].command.GetCancelReason?
    requires n < |s.h.replies| && CarriesCounts(s.h.replies[n])
    ensures 0 < s.h.replies[n].fetches <= |s.h.fetched|
    ensures FetchOf(s, s.h.replies[n]).key != s.h.fetched[f].key
  {
    CarrierFetch(c, s, n);
    AnsweredAtMostOnce(c, s);
  }

  /** Asking for the cancel reason of a finished task uses up its counts: a reply for it says that the reason is empty,
      no reply to anyone carries the counts, and the id is found no more. */
  lemma ReasonConsumesCounts(c: Setup, s: State, f: nat)
    requires Reachable(c, s) && Fresh(s) && f < |s.h.fetched| && s.h.fetched[f].command.GetCancelReason?
    ensures var fetch := s.h.fetched[f];
            && fetch.key in s.h.correlated
            && fetch.task.resultCounts == s.h.correlated[fetch.key].result.results
            && s.store.Status(fetch.key) == NotFound
            && (forall n :: 0 <= n < |s.h.replies| && CarriesCounts(s.h.replies[n]) ==>
                  && 0 < s.h.replies[n].fetches <= |s.h.fetched|
                  && FetchOf(s, s.h.replies[n]).key != fetch.key)
            && (forall n :: 0 <= n < |s.h.replies| && Reports(s.h.replies[n], f) ==>
                  ReadIn(s.h.replies[n]) == Some(ReasonView("")))
  {
    FetchedTask(c, s, f);
    FetchedIsGone(c, s, f);
    forall n | 0 <= n < |s.h.replies| && CarriesCounts(s.h.replies[n])
      ensures 0 < s.h.replies[n].fetches <= |s.h.fetched|
      ensures FetchOf(s, s.h.replies[n]).key != s.h.fetched[f].key
    {
      OtherFetch(c, s, f, n);
    }
    forall n | 0 <= n < |s.h.replies| && Reports(s.h.replies[n], f)
      ensures ReadIn(s.h.replies[n]) == Some(ReasonView(""))
    {
      ReplyTraced(c, s, n);
    }
  }
}
