/** The three workers, the shared store and an adversarial QRM as one transition system.

    A step is one atomic action of the program: one receive, one fetch_add on the counter, one locked
    TaskStore call, or one send. Steps of the three workers interleave freely. QRM may drop, delay, reorder
    and repeat results and may put anything into them, but it answers only tasks that were sent to it.
    Where a direct client wants its result is the client's choice, the result worker's own queue included.
 */
module QOffload {
  import opened Ids
  import opened Messages
  import opened Tasks
  import opened Forwarding
  import opened ControlProtocol
  import opened Control

  datatype Setup = Setup(uid: uint64, config: Config)

  /** What was submitted under one value of the counter. */
  datatype Issue = DirectIssue(task: QuantumTask) | ControlIssue(task: QuantumTask)

  /** A result in the result queue: QRM's answer to the task sent under the counter value `origin`, or an earlier
      handout that its client let be sent there. No worker can tell which. */
  datatype Answer =
    | Answer(origin: nat, result: QuantumResult)
    | Echo(handout: nat, result: QuantumResult)

  /** Which counter value an id was registered for, and what was submitted under it. */
  datatype Registration = Registration(index: nat, issue: Issue)

  datatype Handout = Handout(key: uint64, destination: string, result: QuantumResult, accepted: bool)

  datatype Fetch = Fetch(key: uint64, request: APIRequest, command: ControlCommand, task: CompletedControlTask)

  /** A control task that was registered, for which request, and under which counter value and id. */
  datatype Creation = Creation(request: APIRequest, index: nat, id: uint64)

  /** A response that was sent, for which request and result, and how many fetches and creations there had been. */
  datatype Reply = Reply(request: APIRequest, result: ControlResult, fetches: nat, creations: nat,
                         response: APIResponse)

  datatype DirectWorker =
    | DirectIdle
    | DirectReceived(request: QuantumTask)
    | DirectNumbered(index: nat, id: uint64, request: QuantumTask)
    | DirectRegistered(index: nat, task: QuantumTask)

  datatype ControlWorker =
    | ControlIdle
    | ControlDecoded(request: APIRequest, command: ControlCommand)
    | ControlNumbered(request: APIRequest, index: nat, id: uint64, task: QuantumTask)
    | ControlRegistered(request: APIRequest, index: nat, task: QuantumTask)
    | ControlChecked(request: APIRequest, command: ControlCommand, seen: TaskStatus)
    | ControlReplying(request: APIRequest, result: ControlResult)

  datatype ResultWorker =
    | ResultIdle
    | ResultReceived(answer: Answer)
    | ResultStoring(key: uint64, completed: CompletedControlTask)
    | ResultSending(key: uint64, destination: string, result: QuantumResult)

  /** What happened so far. No worker reads any of it.
      issued:     by counter value, what was numbered
      owner:      by registered id, its registration
      outbound:   by counter value, the task that reached the QRM queue
      correlated: by key, the first result for which a pending entry was taken; takes counts the takes
      unknown:    the results for which none was found
      handed:     the results sent to client queues
      created:    the control tasks registered
      fetched:    the completed entries taken by control commands
      replies:    the responses sent to control clients */
  datatype History = History(
    issued: seq<Issue>,
    owner: map<uint64, Registration>,
    outbound: map<nat, QuantumTask>,
    correlated: map<uint64, Answer>,
    takes: nat,
    unknown: seq<Answer>,
    handed: seq<Handout>,
    created: seq<Creation>,
    fetched: seq<Fetch>,
    replies: seq<Reply>)

  datatype State = State(
    requests: seq<QuantumTask>,
    controls: seq<APIRequest>,
    results: seq<Answer>,
    nextIndex: uint64,
    store: Store,
    direct: DirectWorker,
    control: ControlWorker,
    result: ResultWorker,
    h: History)

  const INITIAL := State([], [], [], 0, EMPTY_STORE, DirectIdle, ControlIdle, ResultIdle,
                         History([], map[], map[], map[], 0, [], [], [], [], []))

  /** An unreadable message is consumed and dropped; a refused send loses the message. */
  datatype Step =
    | ClientSubmits(request: QuantumTask)
    | ControlSubmits(apiRequest: APIRequest)
    | QrmAnswers(origin: nat, answer: QuantumResult)
    | DirectReceive(readable: bool)
    | DirectNumber
    | DirectRegister
    | DirectSend(accepted: bool)
    | ControlReceive(readable: bool)
    | ControlAct
    | ControlRegister
    | ControlSend(accepted: bool)
    | ControlTake
    | ControlReply(accepted: bool)
    | ResultReceive(readable: bool)
    | ResultTake
    | ResultStore
    | ResultSend(accepted: bool)

  predicate Enabled(s: State, step: Step) {
    match step
    case ClientSubmits(_) => true
    case ControlSubmits(_) => true
    case QrmAnswers(origin, answer) => origin in s.h.outbound && answer.taskId == s.h.outbound[origin].taskId
    case DirectReceive(_) => s.direct.DirectIdle? && s.requests != []
    case DirectNumber => s.direct.DirectReceived?
    case DirectRegister => s.direct.DirectNumbered?
    case DirectSend(_) => s.direct.DirectRegistered?
    case ControlReceive(_) => s.control.ControlIdle? && s.controls != []
    case ControlAct => s.control.ControlDecoded?
    case ControlRegister => s.control.ControlNumbered?
    case ControlSend(_) => s.control.ControlRegistered?
    case ControlTake => s.control.ControlChecked? && Fetches(s.control.command)
    case ControlReply(_) => s.control.ControlReplying?
    case ResultReceive(_) => s.result.ResultIdle? && s.results != []
    case ResultTake => s.result.ResultReceived?
    case ResultStore => s.result.ResultStoring?
    case ResultSend(_) => s.result.ResultSending?
  }

  function Numbering(s: State, issue: Issue): State {
    s.(nextIndex := ToUint64(s.nextIndex + 1), h := s.h.(issued := s.h.issued + [issue]))
  }

  function Registering(s: State, registration: Registration, entry: PendingTask): State {
    s.(store := s.store.AddPending(entry), h := s.h.(owner := s.h.owner[entry.forwardedTaskId := registration]))
  }

  function Sending(s: State, index: nat, task: QuantumTask, accepted: bool): State {
    if accepted then s.(h := s.h.(outbound := s.h.outbound[index := task])) else s
  }

  // ---------- the direct worker ----------

  function DirectReceiving(s: State, readable: bool): State
    requires s.requests != []
  {
    s.(requests := s.requests[1..], direct := if readable then DirectReceived(s.requests[0]) else DirectIdle)
  }

  function DirectNumbering(c: Setup, s: State): State
    requires s.direct.DirectReceived?
  {
    Numbering(s, DirectIssue(s.direct.request))
    .(direct := DirectNumbered(|s.h.issued|, TaskId(s.nextIndex, c.uid), s.direct.request))
  }

  function DirectRegistering(c: Setup, s: State): State
    requires s.direct.DirectNumbered?
  {
    var DirectNumbered(index, id, request) := s.direct;
    Registering(s, Registration(index, DirectIssue(request)), DirectEntry(request, id))
    .(direct := DirectRegistered(index, ForwardedTask(request, id, c.config)))
  }

  function DirectSending(s: State, accepted: bool): State
    requires s.direct.DirectRegistered?
  {
    Sending(s, s.direct.index, s.direct.task, accepted).(direct := DirectIdle)
  }

  // ---------- the control worker ----------

  function Understood(request: APIRequest): DecodedControlRequest {
    DecodedBy(ProtocolFor(request), request)
  }

  function ControlReceiving(s: State, readable: bool): State
    requires s.controls != []
  {
    var request := s.controls[0];
    s.(controls := s.controls[1..],
       control := if readable then ControlDecoded(request, Understood(request).command) else ControlIdle)
  }

  function ControlActing(c: Setup, s: State): State
    requires s.control.ControlDecoded?
  {
    var ControlDecoded(request, command) := s.control;
    if command.CreateQuantumTask? then
      Numbering(s, ControlIssue(TaskFor(command)))
      .(control := ControlNumbered(request, |s.h.issued|, TaskId(s.nextIndex, c.uid), TaskFor(command)))
    else if !Fetches(command) then
      s.(control := ControlReplying(request, PlainAnswer(command, s.store)))
    else if s.store.Status(command.taskId) == Waiting then
      s.(control := ControlReplying(request, ControlError(JOB_IS_WAITING)))
    else
      s.(control := ControlChecked(request, command, s.store.Status(command.taskId)))
  }

  function ControlRegistering(c: Setup, s: State): State
    requires s.control.ControlNumbered?
  {
    var ControlNumbered(request, index, id, task) := s.control;
    var t := Registering(s, Registration(index, ControlIssue(task)), ControlEntry(id));
    t.(control := ControlRegistered(request, index, ForwardedTask(task, id, c.config)),
       h := t.h.(created := t.h.created + [Creation(request, index, id)]))
  }

  function ControlSending(s: State, accepted: bool): State
    requires s.control.ControlRegistered?
  {
    var ControlRegistered(request, index, task) := s.control;
    Sending(s, index, task, accepted).(control := ControlReplying(request, TaskCreated(ToUint64(task.taskId))))
  }

  function ControlTaking(s: State): State
    requires s.control.ControlChecked? && Fetches(s.control.command)
  {
    var ControlChecked(request, command, _) := s.control;
    var taken := s.store.Result(command.taskId);
    s.(store := s.store.DropCompleted(command.taskId),
       control := ControlReplying(request, FetchAnswer(command, taken)),
       h := if taken.Some?
            then s.h.(fetched := s.h.fetched + [Fetch(command.taskId, request, command, taken.value)])
            else s.h)
  }

  function ResponseTo(request: APIRequest, result: ControlResult): APIResponse {
    EncodedBy(ProtocolFor(request), result, Understood(request).responseQueue)
  }

  function ControlReplied(s: State, accepted: bool): State
    requires s.control.ControlReplying?
  {
    var ControlReplying(request, result) := s.control;
    var response := ResponseTo(request, result);
    s.(control := ControlIdle,
       h := if response.destinationQueue != "" && accepted
            then s.h.(replies := s.h.replies + [Reply(request, result, |s.h.fetched|, |s.h.created|, response)])
            else s.h)
  }

  // ---------- the result worker ----------

  function ResultReceiving(s: State, readable: bool): State
    requires s.results != []
  {
    s.(results := s.results[1..], result := if readable then ResultReceived(s.results[0]) else ResultIdle)
  }

  function Correlating(s: State, key: uint64, answer: Answer): History {
    s.h.(correlated := if key in s.h.correlated then s.h.correlated else s.h.correlated[key := answer],
         takes := s.h.takes + 1)
  }

  function ResultTaking(s: State): State
    requires s.result.ResultReceived?
  {
    var answer := s.result.answer;
    var key := ToUint64(answer.result.taskId);
    match s.store.Pending(key)
    case None => s.(result := ResultIdle, h := s.h.(unknown := s.h.unknown + [answer]))
    case Some(entry) =>
      s.(store := s.store.DropPending(key),
         h := Correlating(s, key, answer),
         result := if entry.kind.ControlTask?
                   then ResultStoring(key, CompletedFrom(answer.result, entry))
                   else ResultSending(key, entry.originalResultDestination, RestoredResult(answer.result, entry)))
  }

  function ResultStored(s: State): State
    requires s.result.ResultStoring?
  {
    s.(store := s.store.AddCompleted(s.result.completed), result := ResultIdle)
  }

  /** Nothing can be sent to an empty destination; what is sent to the result queue waits there like any result. */
  function ResultSent(c: Setup, s: State, accepted: bool): State
    requires s.result.ResultSending?
  {
    var ResultSending(key, destination, result) := s.result;
    var sent := accepted && destination != "";
    s.(result := ResultIdle,
       results := if sent && destination == c.config.resultQueue
                  then s.results + [Echo(|s.h.handed|, result)]
                  else s.results,
       h := s.h.(handed := s.h.handed + [Handout(key, destination, result, sent)]))
  }

  /** QRM sends a result to the destination that the task names; only the result queue leads back to the workers. */
  function QrmAnswering(c: Setup, s: State, origin: nat, answer: QuantumResult): State
    requires origin in s.h.outbound
  {
    if s.h.outbound[origin].resultDestination == c.config.resultQueue
    then s.(results := s.results + [Answer(origin, answer)])
    else s
  }

  function Apply(c: Setup, s: State, step: Step): State
    requires Enabled(s, step)
  {
    match step
    case ClientSubmits(request) => s.(requests := s.requests + [request])
    case ControlSubmits(apiRequest) => s.(controls := s.controls + [apiRequest])
    case QrmAnswers(origin, answer) => QrmAnswering(c, s, origin, answer)
    case DirectReceive(readable) => DirectReceiving(s, readable)
    case DirectNumber => DirectNumbering(c, s)
    case DirectRegister => DirectRegistering(c, s)
    case DirectSend(accepted) => DirectSending(s, accepted)
    case ControlReceive(readable) => ControlReceiving(s, readable)
    case ControlAct => ControlActing(c, s)
    case ControlRegister => ControlRegistering(c, s)
    case ControlSend(accepted) => ControlSending(s, accepted)
    case ControlTake => ControlTaking(s)
    case ControlReply(accepted) => ControlReplied(s, accepted)
    case ResultReceive(readable) => ResultReceiving(s, readable)
    case ResultTake => ResultTaking(s)
    case ResultStore => ResultStored(s)
    case ResultSend(accepted) => ResultSent(c, s, accepted)
  }

  /** The state after a sequence of steps, if every step was enabled when it was taken. */
  function Resume(c: Setup, s: State, steps: seq<Step>): Option<State> {
    if steps == [] then Some(s)
    else
      match Resume(c, s, steps[..|steps| - 1])
      case None => None
      case Some(t) =>
        if Enabled(t, steps[|steps| - 1]) then Some(Apply(c, t, steps[|steps| - 1])) else None
  }

  /** Some interleaving leads from one state to the other. */
  ghost predicate Leads(c: Setup, s: State, t: State) {
    exists steps :: Resume(c, s, steps) == Some(t)
  }

  ghost predicate Reachable(c: Setup, s: State) {
    Leads(c, INITIAL, s)
  }
}
