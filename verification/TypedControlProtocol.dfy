/** The adapter for the fully typed control protocol. */
module TypedControlProtocol {
  import opened Ids
  import opened Messages
  import opened Tasks
  import opened ControlProtocol

  const INVALID_CONTROL_REQUEST := "INVALID CONTROL REQUEST"

  function Command(request: TypedRequest): ControlCommand {
    match request
    case CreateTask(r) => CreateQuantumTask(r.shots, r.circuit, r.circuitFormat, r.resourceName, r.noModify)
    case TaskStatusOf(uuid) => GetTaskStatus(ToUint64(uuid))
    case TaskResultOf(uuid) => GetTaskResult(ToUint64(uuid))
    case CancelReasonOf(uuid) => GetCancelReason(ToUint64(uuid))
    case ListResources => ListResourcesCommand
    case ResourceInfoOf(name) => GetResourceInfo(name)
    case PendingTasksOf(name) => QueryPendingTasks(name)
    case RequestNotSet => InvalidControl(INVALID_CONTROL_REQUEST)
  }

  function Decoded(request: APIRequest): DecodedControlRequest {
    DecodedControlRequest(Command(request.typedRequest), request.responseQueue)
  }

  function Response(result: ControlResult): TypedResponse {
    match result
    case TaskCreated(id) => CreateTaskResponse(ToInt32(id))
    case TaskStatusResult(Waiting) => TaskStatusResponse(StatusWaiting)
    case TaskStatusResult(Completed) => TaskStatusResponse(StatusCompleted)
    case TaskStatusResult(Cancelled) => TaskStatusResponse(StatusCancelled)
    case TaskStatusResult(NotFound) => ErrorResponse(JOB_NOT_FOUND)
    case TaskResultResult(t) =>
      TaskResultResponse(t.resultCounts, t.timestampSubmitted, t.timestampScheduled, t.timestampCompleted)
    case CancelReasonResult(reason) => CancelReasonResponse(reason)
    case ResourceListResult(resources) => ResourcesResponse(Names(resources))
    case ResourceInfoResult(r) => ResourceInfoResponse(r.name, ToInt32(r.qubits), r.online)
    case PendingTasksResult(count) => PendingTasksResponse(ToInt32(count))
    case ControlError(message) => ErrorResponse(message)
  }

  function Encoded(result: ControlResult, destinationQueue: string): APIResponse {
    APIResponse(map[], destinationQueue, Response(result))
  }

  method SetTaskResult(task: CompletedControlTask) returns (response: TypedResponse)
    ensures response == Response(TaskResultResult(task))
  {
    var result: seq<Counts> := [];
    for i := 0 to |task.resultCounts|
      invariant result == task.resultCounts[..i]
    {
      var counts := task.resultCounts[i];
      var output: Counts := map[];
      var rest := counts.Keys;
      while rest != {}
        invariant rest <= counts.Keys
        invariant output == map state | state in counts.Keys - rest :: counts[state]
        decreases |rest|
      {
        var state :| state in rest;
        output := output[state := counts[state]];
        rest := rest - {state};
      }
      assert output == counts;
      result := result + [output];
    }
    assert result == task.resultCounts;
    response := TaskResultResponse(result, task.timestampSubmitted, task.timestampScheduled, task.timestampCompleted);
  }

  /** What a typed client reads out of a response. */
  function Read(response: APIResponse): Option<View> {
    match response.typedResponse
    case ResponseNotSet => None
    case CreateTaskResponse(uuid) => Some(CreatedView(uuid))
    case TaskStatusResponse(StatusWaiting) => Some(StatusView(Waiting))
    case TaskStatusResponse(StatusCompleted) => Some(StatusView(Completed))
    case TaskStatusResponse(StatusCancelled) => Some(StatusView(Cancelled))
    case TaskStatusResponse(StatusUnspecified) => None
    case TaskResultResponse(counts, submitted, scheduled, completed) =>
      Some(ResultView(counts, scheduled, submitted, completed))
    case CancelReasonResponse(reason) => Some(ReasonView(reason))
    case ResourcesResponse(names) => Some(NamesView(names))
    case ResourceInfoResponse(name, qubits, online) => Some(ResourceView(name, qubits, online))
    case PendingTasksResponse(count) => Some(PendingView(count))
    case ErrorResponse(message) => Some(ErrorView(message))
  }

  /** The results whose numbers fit the int32 fields of the typed responses. */
  predicate Fits(result: ControlResult) {
    match result
    case TaskCreated(id) => id < TWO_31
    case ResourceInfoResult(resource) => resource.qubits < TWO_31
    case PendingTasksResult(count) => count < TWO_31
    case _ => true
  }

  /** A typed client reads back exactly what was encoded, unless a number was narrowed. */
  lemma ReadInvertsEncodeIffFits(result: ControlResult, queue: string)
    ensures Read(Encoded(result, queue)) == Some(ViewOf(result)) <==> Fits(result)
    ensures Encoded(result, queue).destinationQueue == queue
  {
    match result
    case TaskCreated(_) =>
    case TaskStatusResult(Waiting) =>
    case TaskStatusResult(Completed) =>
    case TaskStatusResult(Cancelled) =>
    case TaskStatusResult(NotFound) =>
    case _ =>
  }

  method Encode(result: ControlResult, destinationQueue: string) returns (response: APIResponse)
    ensures response == Encoded(result, destinationQueue)
    ensures Read(response) == Some(ViewOf(result)) <==> Fits(result)
  {
    response := APIResponse(map[], destinationQueue, ResponseNotSet);
    match result {
      case TaskResultResult(task) =>
        var typed := SetTaskResult(task);
        response := response.(typedResponse := typed);
      case ResourceListResult(resources) =>
        var names: seq<string> := [];
        for i := 0 to |resources|
          invariant names == Names(resources)[..i]
        {
          names := names + [resources[i].name];
        }
        assert names == Names(resources);
        response := response.(typedResponse := ResourcesResponse(names));
      case _ =>
        response := response.(typedResponse := Response(result));
    }
    ReadInvertsEncodeIffFits(result, destinationQueue);
  }
}
