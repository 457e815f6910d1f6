/** The messages that QOffload exchanges with its clients and with QRM, as values. */
module Messages {
  import opened Ids

  datatype Option<+T> = None | Some(value: T)

  /** Measurement counts of one circuit. */
  type Counts = map<string, int32>

  datatype QuantumTask = QuantumTask(
    taskId: int32,
    nQbits: int32,
    nShots: int32,
    circuitFiles: seq<string>,
    circuitFileType: string,
    resultDestination: string,
    preferredQpu: string,
    scheduledQpu: string,
    priority: int32,
    optimisationLevel: int32,
    noModify: bool,
    transpilerFlag: bool,
    resultType: int32,
    submitTime: string,
    circuitsQiskit: seq<Value>,
    additionalInformation: string,
    restrictedResourceNames: seq<string>,
    userIdentity: string,
    token: string,
    viaHpc: bool)

  /** A freshly constructed task: every field has its protobuf default. */
  const EMPTY_TASK := QuantumTask(0, 0, 0, [], "", "", "", "", 0, 0, false, false, 0, "", [], "", [], "", "", false)

  datatype QuantumResult = QuantumResult(
    taskId: int32,
    results: seq<Counts>,
    destination: string,
    executionStatus: bool,
    executedQpu: string,
    executedCircuits: seq<string>,
    additionalInformation: string,
    executionTime: real)

  /** A protobuf number: a double, taken as a real or as one of the values that are not finite. */
  datatype Number = Finite(value: real) | NonFinite

  datatype Value =
    | KindNotSet
    | NullValue
    | NumberValue(number: Number)
    | StringValue(text: string)
    | BoolValue(flag: bool)
    | StructValue(fields: map<string, Value>)
    | ListValue(values: seq<Value>)

  type Struct = map<string, Value>

  datatype CreateTaskRequest = CreateTaskRequest(
    shots: int32, circuit: seq<string>, circuitFormat: string, resourceName: string, noModify: bool)

  /** The oneof of APIRequest. */
  datatype TypedRequest =
    | RequestNotSet
    | CreateTask(create: CreateTaskRequest)
    | TaskStatusOf(uuid: int32)
    | TaskResultOf(uuid: int32)
    | CancelReasonOf(uuid: int32)
    | ListResources
    | ResourceInfoOf(resourceName: string)
    | PendingTasksOf(resourceName: string)

  datatype APIRequest = APIRequest(
    authorization: string,
    method_: string,
    request: string,
    data: Struct,
    responseQueue: string,
    typedRequest: TypedRequest)

  datatype ApiTaskStatus = StatusUnspecified | StatusWaiting | StatusCompleted | StatusCancelled

  /** The oneof of APIResponse. */
  datatype TypedResponse =
    | ResponseNotSet
    | CreateTaskResponse(uuid: int32)
    | TaskStatusResponse(status: ApiTaskStatus)
    | TaskResultResponse(result: seq<Counts>, timestampSubmitted: string, timestampScheduled: string,
                         timestampCompleted: string)
    | CancelReasonResponse(cancelReason: string)
    | ResourcesResponse(resources: seq<string>)
    | ResourceInfoResponse(name: string, numQubits: int32, online: bool)
    | PendingTasksResponse(numPendingJobs: int32)
    | ErrorResponse(message: string)

  datatype APIResponse = APIResponse(responseBody: Struct, destinationQueue: string, typedResponse: TypedResponse)

  /** The settings that forwarding reads. */
  datatype Config = Config(resultQueue: string, hpcNode: bool)
}
