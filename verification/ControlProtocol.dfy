/** The command model shared by the two control protocols. */
module ControlProtocol {
  import opened Ids
  import opened Messages
  import opened Tasks

  type uint32 = n: int | 0 <= n < 0x1_0000_0000

  datatype ResourceInfo = ResourceInfo(name: string, qubits: uint32, online: bool)

  datatype ControlCommand =
    | CreateQuantumTask(shots: int32, circuitFiles: seq<string>, circuitFormat: string, resourceName: string,
                        noModify: bool)
    | GetTaskStatus(taskId: uint64)
    | GetTaskResult(taskId: uint64)
    | GetCancelReason(taskId: uint64)
    | ListResourcesCommand
    | GetResourceInfo(resourceName: string)
    | QueryPendingTasks(resourceName: string)
    | InvalidControl(message: string)

  datatype ControlResult =
    | TaskCreated(taskId: uint64)
    | TaskStatusResult(status: TaskStatus)
    | TaskResultResult(task: CompletedControlTask)
    | CancelReasonResult(reason: string)
    | ResourceListResult(resources: seq<ResourceInfo>)
    | ResourceInfoResult(resource: ResourceInfo)
    | PendingTasksResult(count: nat)
    | ControlError(message: string)

  datatype DecodedControlRequest = DecodedControlRequest(command: ControlCommand, responseQueue: string)

  const JOB_NOT_FOUND := "JOB NOT FOUND"

  datatype Protocol = Typed | Rest

  /** The protocol is chosen once, by whether the oneof is set. */
  function ProtocolFor(request: APIRequest): Protocol {
    if request.typedRequest.RequestNotSet? then Rest else Typed
  }

  /** What a client learns from a response, whichever protocol carries it. */
  datatype View =
    | CreatedView(taskId: int)
    | StatusView(status: TaskStatus)
    | ResultView(counts: seq<Counts>, scheduled: string, submitted: string, completed: string)
    | ReasonView(reason: string)
    | NamesView(names: seq<string>)
    | ResourceView(name: string, qubits: int, online: bool)
    | PendingView(count: int)
    | ErrorView(message: string)

  function Names(resources: seq<ResourceInfo>): seq<string> {
    seq(|resources|, i requires 0 <= i < |resources| => resources[i].name)
  }

  function ViewOf(result: ControlResult): View {
    match result
    case TaskCreated(id) => CreatedView(id)
    case TaskStatusResult(status) => if status.NotFound? then ErrorView(JOB_NOT_FOUND) else StatusView(status)
    case TaskResultResult(t) =>
      ResultView(t.resultCounts, t.timestampScheduled, t.timestampSubmitted, t.timestampCompleted)
    case CancelReasonResult(reason) => ReasonView(reason)
    case ResourceListResult(resources) => NamesView(Names(resources))
    case ResourceInfoResult(r) => ResourceView(r.name, r.qubits, r.online)
    case PendingTasksResult(count) => PendingView(count)
    case ControlError(message) => ErrorView(message)
  }
}
