/** The adapter for the REST-like control protocol. */
module RestControlProtocol {
  import opened Ids
  import opened Messages
  import opened Tasks
  import opened ControlProtocol
  import opened Paths
  import opened Decimal

  const INVALID_METHOD := "INVALID METHOD"
  const INVALID_JOB_REQUEST := "INVALID JOB REQUEST"
  const INVALID_JOB_ID := "INVALID JOB ID"
  const UNKNOWN_CONTROL_REQUEST := "UNKNOWN CONTROL REQUEST"

  // ---------- fields ----------

  function FindField(data: Struct, key: string): Option<Value> {
    if key in data then Some(data[key]) else None
  }

  function RequiredInt(data: Struct, key: string): Option<int32> {
    match FindField(data, key)
    case Some(NumberValue(Finite(number))) =>
      if number.Floor as real == number && -0x8000_0000 <= number.Floor < 0x8000_0000
      then Some(number.Floor) else None
    case _ => None
  }

  function RequiredBool(data: Struct, key: string): Option<bool> {
    match FindField(data, key)
    case Some(BoolValue(flag)) => Some(flag)
    case _ => None
  }

  function RequiredString(data: Struct, key: string): Option<string> {
    match FindField(data, key)
    case Some(StringValue(text)) => Some(text)
    case _ => None
  }

  /** Every entry of the list must be a string. */
  function Strings(values: seq<Value>): Option<seq<string>> {
    if forall i :: 0 <= i < |values| ==> values[i].StringValue?
    then Some(seq(|values|, i requires 0 <= i < |values| && values[i].StringValue? => values[i].text))
    else None
  }

  function StringList(data: Struct, key: string): Option<seq<string>> {
    match FindField(data, key)
    case Some(ListValue(values)) => Strings(values)
    case _ => None
  }

  method RequiredStringList(data: Struct, key: string) returns (list: Option<seq<string>>)
    ensures list == StringList(data, key)
  {
    var field := FindField(data, key);
    if field.None? || !field.value.ListValue? {
      return None;
    }
    var entries := field.value.values;
    var values: seq<string> := [];
    for i := 0 to |entries|
      invariant |values| == i
      invariant forall j :: 0 <= j < i ==> entries[j].StringValue? && values[j] == entries[j].text
    {
      if !entries[i].StringValue? {
        return None;
      }
      values := values + [entries[i].text];
    }
    assert Strings(entries).Some? && values == Strings(entries).value;
    return Some(values);
  }

  // ---------- decoding ----------

  function CreateCommand(method_: string, data: Struct, circuit: Option<seq<string>>): ControlCommand {
    if method_ != "POST" then InvalidControl(INVALID_METHOD)
    else
      var shots := RequiredInt(data, "shots");
      var circuitFormat := RequiredString(data, "circuit_format");
      var resourceName := RequiredString(data, "resource_name");
      var noModify := RequiredBool(data, "no_modify");
      if shots.None? || shots.value < 0 || circuit.None? || circuitFormat.None? || resourceName.None? || noModify.None?
      then InvalidControl(INVALID_JOB_REQUEST)
      else CreateQuantumTask(shots.value, circuit.value, circuitFormat.value, resourceName.value, noModify.value)
  }

  function JobCommand(id: Option<uint64>, operation: string): ControlCommand {
    if id.None? then InvalidControl(INVALID_JOB_ID)
    else if operation == "status" then GetTaskStatus(id.value)
    else if operation == "result" then GetTaskResult(id.value)
    else if operation == "cancel_reason" then GetCancelReason(id.value)
    else InvalidControl(UNKNOWN_CONTROL_REQUEST)
  }

  function ResourceCommand(path: seq<string>): ControlCommand {
    if |path| == 1 && path[0] == "resources" then ListResourcesCommand
    else if |path| == 2 && path[0] == "resources" && path[1] != "" then GetResourceInfo(path[1])
    else if |path| == 3 && path[0] == "resources" && path[1] != "" && path[2] == "num_pending_jobs"
    then QueryPendingTasks(path[1])
    else InvalidControl(UNKNOWN_CONTROL_REQUEST)
  }

  function CommandAt(path: seq<string>, request: APIRequest): ControlCommand {
    if |path| == 1 && path[0] == "job" then
      CreateCommand(request.method_, request.data, StringList(request.data, "circuit"))
    else if request.method_ != "GET" then InvalidControl(INVALID_METHOD)
    else if |path| == 3 && path[0] == "job" then JobCommand(ParseTaskId(path[1]), path[2])
    else ResourceCommand(path)
  }

  function Decoded(request: APIRequest): DecodedControlRequest {
    DecodedControlRequest(CommandAt(PathParts(request.request), request), request.responseQueue)
  }

  method Decode(request: APIRequest) returns (decoded: DecodedControlRequest)
    ensures decoded == Decoded(request)
  {
    decoded := DecodedControlRequest(InvalidControl(UNKNOWN_CONTROL_REQUEST), request.responseQueue);
    var path := SplitPath(request.request);
    if |path| == 1 && path[0] == "job" {
      var circuit := RequiredStringList(request.data, "circuit");
      decoded := decoded.(command := CreateCommand(request.method_, request.data, circuit));
      return;
    }
    if request.method_ != "GET" {
      decoded := decoded.(command := InvalidControl(INVALID_METHOD));
      return;
    }
    if |path| == 3 && path[0] == "job" {
      decoded := decoded.(command := JobCommand(ParseTaskId(path[1]), path[2]));
      return;
    }
    decoded := decoded.(command := ResourceCommand(path));
  }

  // ---------- encoding ----------

  function NumberOf(n: int): Value {
    NumberValue(Finite(n as real))
  }

  function CountsValue(counts: Counts): Value {
    StructValue(map state | state in counts :: NumberOf(counts[state]))
  }

  function ResultBody(task: CompletedControlTask): Struct {
    map["result" := ListValue(seq(|task.resultCounts|,
                              i requires 0 <= i < |task.resultCounts| => CountsValue(task.resultCounts[i]))),
        "timestamp_scheduled" := StringValue(task.timestampScheduled),
        "timestamp_submitted" := StringValue(task.timestampSubmitted),
        "timestamp_completed" := StringValue(task.timestampCompleted)]
  }

  function ResourceBody(resource: ResourceInfo): Struct {
    map["name" := StringValue(resource.name),
        "qubits" := NumberOf(resource.qubits),
        "online" := BoolValue(resource.online)]
  }

  function ResourceValues(resources: seq<ResourceInfo>): seq<Value> {
    seq(|resources|, i requires 0 <= i < |resources| => StructValue(ResourceBody(resources[i])))
  }

  function ErrorBody(message: string): Struct {
    map["Error" := StringValue(message)]
  }

  function Body(result: ControlResult): Struct {
    match result
    case TaskCreated(id) => map["uuid" := StringValue(ToString(id))]
    case TaskStatusResult(Waiting) => map["status" := StringValue("WAITING")]
    case TaskStatusResult(Completed) => map["status" := StringValue("COMPLETED")]
    case TaskStatusResult(Cancelled) => map["status" := StringValue("CANCELLED")]
    case TaskStatusResult(NotFound) => ErrorBody(JOB_NOT_FOUND)
    case TaskResultResult(task) => ResultBody(task)
    case CancelReasonResult(reason) => map["cancel_reason" := StringValue(reason)]
    case ResourceListResult(resources) => map["resources" := ListValue(ResourceValues(resources))]
    case ResourceInfoResult(resource) => ResourceBody(resource)
    case PendingTasksResult(count) => map["num_pending_jobs" := NumberOf(count)]
    case ControlError(message) => ErrorBody(message)
  }

  function Encoded(result: ControlResult, destinationQueue: string): APIResponse {
    APIResponse(Body(result), destinationQueue, ResponseNotSet)
  }

  method SetTaskResult(task: CompletedControlTask) returns (body: Struct)
    ensures body == ResultBody(task)
  {
    var results: seq<Value> := [];
    for i := 0 to |task.resultCounts|
      invariant |results| == i
      invariant forall j :: 0 <= j < i ==> results[j] == CountsValue(task.resultCounts[j])
    {
      var counts := task.resultCounts[i];
      var entry: Struct := map[];
      var rest := counts.Keys;
      while rest != {}
        invariant rest <= counts.Keys
        invariant entry == map state | state in counts.Keys - rest :: NumberOf(counts[state])
        decreases |rest|
      {
        var state :| state in rest;
        entry := entry[state := NumberOf(counts[state])];
        rest := rest - {state};
      }
      assert StructValue(entry) == CountsValue(counts);
      results := results + [StructValue(entry)];
    }
    assert results == ResultBody(task)["result"].values;
    body := map["result" := ListValue(results)];
    body := body["timestamp_scheduled" := StringValue(task.timestampScheduled)];
    body := body["timestamp_submitted" := StringValue(task.timestampSubmitted)];
    body := body["timestamp_completed" := StringValue(task.timestampCompleted)];
  }

  method SetResources(resources: seq<ResourceInfo>) returns (values: seq<Value>)
    ensures values == ResourceValues(resources)
    ensures |values| == |resources|
    ensures forall i :: 0 <= i < |values| ==>
              values[i] == StructValue(map["name" := StringValue(resources[i].name),
                                           "qubits" := NumberValue(Finite(resources[i].qubits as real)),
                                           "online" := BoolValue(resources[i].online)])
  {
    values := [];
    for i := 0 to |resources|
      invariant values == ResourceValues(resources)[..i]
    {
      values := values + [StructValue(ResourceBody(resources[i]))];
    }
    assert values == ResourceValues(resources);
  }

  // ---------- what a REST client reads ----------

  function ReadInt(value: Value): int {
    match value
    case NumberValue(Finite(number)) => number.Floor
    case _ => 0
  }

  function ReadText(value: Value): string {
    if value.StringValue? then value.text else ""
  }

  function ReadCounts(value: Value): Counts {
    if value.StructValue?
    then map state | state in value.fields :: ToInt32(ReadInt(value.fields[state]))
    else map[]
  }

  function ReadStatus(text: string): Option<View> {
    if text == "WAITING" then Some(StatusView(Waiting))
    else if text == "COMPLETED" then Some(StatusView(Completed))
    else if text == "CANCELLED" then Some(StatusView(Cancelled))
    else None
  }

  function ReadName(value: Value): string {
    if value.StructValue? && "name" in value.fields then ReadText(value.fields["name"]) else ""
  }

  function ReadList(value: Value): seq<Value> {
    if value.ListValue? then value.values else []
  }

  function ReadFlag(value: Value): bool {
    value.BoolValue? && value.flag
  }

  function Read(response: APIResponse): Option<View> {
    var body := response.responseBody;
    if "Error" in body then Some(ErrorView(ReadText(body["Error"])))
    else if "uuid" in body then
      match ParseTaskId(ReadText(body["uuid"]))
      case Some(id) => Some(CreatedView(id))
      case None => None
    else if "status" in body then ReadStatus(ReadText(body["status"]))
    else if body.Keys == {"result", "timestamp_scheduled", "timestamp_submitted", "timestamp_completed"} then
      var list := ReadList(body["result"]);
      Some(ResultView(seq(|list|, i requires 0 <= i < |list| => ReadCounts(list[i])),
                      ReadText(body["timestamp_scheduled"]), ReadText(body["timestamp_submitted"]),
                      ReadText(body["timestamp_completed"])))
    else if "cancel_reason" in body then Some(ReasonView(ReadText(body["cancel_reason"])))
    else if "resources" in body then
      var list := ReadList(body["resources"]);
      Some(NamesView(seq(|list|, i requires 0 <= i < |list| => ReadName(list[i]))))
    else if body.Keys == {"name", "qubits", "online"} then
      Some(ResourceView(ReadText(body["name"]), ReadInt(body["qubits"]), ReadFlag(body["online"])))
    else if "num_pending_jobs" in body then Some(PendingView(ReadInt(body["num_pending_jobs"])))
    else None
  }

  lemma ReadCountsInverts(counts: Counts)
    ensures ReadCounts(CountsValue(counts)) == counts
  {
  }

  lemma ReadResult(task: CompletedControlTask, queue: string)
    ensures Read(Encoded(TaskResultResult(task), queue)) == Some(ViewOf(TaskResultResult(task)))
  {
    var body := ResultBody(task);
    assert body.Keys == {"result", "timestamp_scheduled", "timestamp_submitted", "timestamp_completed"};
    var list := ReadList(body["result"]);
    forall i | 0 <= i < |list| ensures ReadCounts(list[i]) == task.resultCounts[i] {
      ReadCountsInverts(task.resultCounts[i]);
    }
    assert seq(|list|, i requires 0 <= i < |list| => ReadCounts(list[i])) == task.resultCounts;
  }

  lemma ReadResource(resource: ResourceInfo, queue: string)
    ensures Read(Encoded(ResourceInfoResult(resource), queue)) == Some(ViewOf(ResourceInfoResult(resource)))
  {
    assert ResourceBody(resource).Keys == {"name", "qubits", "online"};
  }

  /** What a REST client reads of one entry of the list. */
  function ReadEntry(value: Value): Option<View> {
    if value.StructValue? && value.fields.Keys == {"name", "qubits", "online"}
    then Some(ResourceView(ReadText(value.fields["name"]), ReadInt(value.fields["qubits"]),
                           ReadFlag(value.fields["online"])))
    else None
  }

  /** Each entry of the list reads as its resource: name, qubits and flag. */
  lemma EntriesRead(resources: seq<ResourceInfo>, queue: string)
    ensures var body := Encoded(ResourceListResult(resources), queue).responseBody;
            && "resources" in body && body["resources"].ListValue?
            && |body["resources"].values| == |resources|
            && forall i :: 0 <= i < |resources| ==>
                 ReadEntry(body["resources"].values[i])
                 == Some(ResourceView(resources[i].name, resources[i].qubits, resources[i].online))
  {
    var list := ResourceValues(resources);
    forall i | 0 <= i < |resources|
      ensures ReadEntry(list[i]) == Some(ResourceView(resources[i].name, resources[i].qubits, resources[i].online))
    {
      assert ResourceBody(resources[i]).Keys == {"name", "qubits", "online"};
    }
  }

  lemma ReadResources(resources: seq<ResourceInfo>, queue: string)
    ensures Read(Encoded(ResourceListResult(resources), queue)) == Some(ViewOf(ResourceListResult(resources)))
  {
    var list := ResourceValues(resources);
    assert Body(ResourceListResult(resources)).Keys == {"resources"};
    forall i | 0 <= i < |list| ensures ReadName(list[i]) == resources[i].name {
      assert list[i] == StructValue(ResourceBody(resources[i]));
    }
    assert seq(|list|, i requires 0 <= i < |list| => ReadName(list[i])) == Names(resources);
  }

  /** A REST client reads back exactly what was encoded. */
  lemma ReadInvertsEncode(result: ControlResult, queue: string)
    ensures Read(Encoded(result, queue)) == Some(ViewOf(result))
    ensures Encoded(result, queue).destinationQueue == queue
  {
    match result
    case TaskCreated(id) => ParseInvertsToString(id);
    case TaskStatusResult(Waiting) =>
    case TaskStatusResult(Completed) =>
    case TaskStatusResult(Cancelled) =>
    case TaskStatusResult(NotFound) =>
    case TaskResultResult(task) => ReadResult(task, queue);
    case CancelReasonResult(_) => assert Body(result).Keys == {"cancel_reason"};
    case ResourceListResult(resources) => ReadResources(resources, queue);
    case ResourceInfoResult(resource) => ReadResource(resource, queue);
    case PendingTasksResult(_) => assert Body(result).Keys == {"num_pending_jobs"};
    case ControlError(_) =>
  }

  method Encode(result: ControlResult, destinationQueue: string) returns (response: APIResponse)
    ensures response == Encoded(result, destinationQueue)
    ensures Read(response) == Some(ViewOf(result))
  {
    response := APIResponse(map[], destinationQueue, ResponseNotSet);
    match result {
      case TaskResultResult(task) =>
        var body := SetTaskResult(task);
        response := response.(responseBody := body);
      case ResourceListResult(resources) =>
        var values := SetResources(resources);
        response := response.(responseBody := map["resources" := ListValue(values)]);
      case _ =>
        response := response.(responseBody := Body(result));
    }
    ReadInvertsEncode(result, destinationQueue);
  }

  // ---------- the REST spelling of a command ----------

  function StringValues(texts: seq<string>): seq<Value> {
    seq(|texts|, i requires 0 <= i < |texts| => StringValue(texts[i]))
  }

  function CreateData(command: ControlCommand): Struct
    requires command.CreateQuantumTask?
  {
    map["shots" := NumberOf(command.shots),
        "circuit" := ListValue(StringValues(command.circuitFiles)),
        "circuit_format" := StringValue(command.circuitFormat),
        "resource_name" := StringValue(command.resourceName),
        "no_modify" := BoolValue(command.noModify)]
  }

  function PathOf(command: ControlCommand): seq<string> {
    match command
    case CreateQuantumTask(_, _, _, _, _) => ["job"]
    case GetTaskStatus(id) => ["job", ToString(id), "status"]
    case GetTaskResult(id) => ["job", ToString(id), "result"]
    case GetCancelReason(id) => ["job", ToString(id), "cancel_reason"]
    case ListResourcesCommand => ["resources"]
    case GetResourceInfo(name) => ["resources", name]
    case QueryPendingTasks(name) => ["resources", name, "num_pending_jobs"]
    case InvalidControl(_) => []
  }

  function RestForm(command: ControlCommand, queue: string): APIRequest {
    APIRequest("",
               if command.CreateQuantumTask? then "POST" else "GET",
               Join(PathOf(command)),
               if command.CreateQuantumTask? then CreateData(command) else map[],
               queue,
               RequestNotSet)
  }

  /** The commands that REST requests can name. */
  predicate Expressible(command: ControlCommand) {
    match command
    case CreateQuantumTask(shots, _, _, _, _) => shots >= 0
    case GetResourceInfo(name) => name != "" && SlashFree(name)
    case QueryPendingTasks(name) => name != "" && SlashFree(name)
    case InvalidControl(_) => false
    case _ => true
  }

  lemma JobPathSplits(id: uint64, operation: string)
    requires SlashFree(operation) && operation != ""
    ensures Splittable(["job", ToString(id), operation])
  {
    ValueOfToString(id);
    DigitsAreSlashFree(ToString(id));
  }

  lemma PathOfIsSplittable(command: ControlCommand)
    requires Expressible(command)
    ensures Splittable(PathOf(command))
  {
    match command
    case GetTaskStatus(id) => JobPathSplits(id, "status");
    case GetTaskResult(id) => JobPathSplits(id, "result");
    case GetCancelReason(id) => JobPathSplits(id, "cancel_reason");
    case _ =>
  }

  lemma PathOfSplits(command: ControlCommand)
    requires Expressible(command)
    ensures PathParts(Join(PathOf(command))) == PathOf(command)
  {
    PathOfIsSplittable(command);
    UnpaddedSplits(PathOf(command));
  }

  lemma CreateDataReads(command: ControlCommand)
    requires command.CreateQuantumTask? && command.shots >= 0
    ensures CreateCommand("POST", CreateData(command), StringList(CreateData(command), "circuit")) == command
  {
    var data := CreateData(command);
    assert RequiredInt(data, "shots") == Some(command.shots);
    assert Strings(StringValues(command.circuitFiles)).value == command.circuitFiles;
  }

  lemma JobPathReads(id: uint64, operation: string, request: APIRequest)
    requires request.method_ == "GET"
    ensures CommandAt(["job", ToString(id), operation], request) == JobCommand(Some(id), operation)
  {
    ParseInvertsToString(id);
  }

  lemma ResourcePathReads(path: seq<string>, request: APIRequest)
    requires request.method_ == "GET" && path != [] && path[0] == "resources"
    ensures CommandAt(path, request) == ResourceCommand(path)
  {
    assert "resources"[0] != "job"[0];
  }

  lemma GetPathReads(command: ControlCommand, request: APIRequest)
    requires Expressible(command) && !command.CreateQuantumTask? && request.method_ == "GET"
    ensures CommandAt(PathOf(command), request) == command
  {
    match command
    case GetTaskStatus(id) => JobPathReads(id, "status", request);
    case GetTaskResult(id) => JobPathReads(id, "result", request);
    case GetCancelReason(id) => JobPathReads(id, "cancel_reason", request);
    case _ => ResourcePathReads(PathOf(command), request);
  }

  /** The REST form of a command decodes to that command. */
  lemma RestFormDecodes(command: ControlCommand, queue: string)
    requires Expressible(command)
    ensures Decoded(RestForm(command, queue)) == DecodedControlRequest(command, queue)
  {
    PathOfSplits(command);
    if command.CreateQuantumTask? {
      CreateDataReads(command);
    } else {
      GetPathReads(command, RestForm(command, queue));
    }
  }

  lemma CommandsAreExpressible(path: seq<string>, request: APIRequest)
    requires forall part <- path :: SlashFree(part)
    requires !CommandAt(path, request).InvalidControl?
    ensures Expressible(CommandAt(path, request))
  {
  }

  /** No other valid command is the meaning of any REST request. */
  lemma ExpressibleIff(command: ControlCommand)
    requires !command.InvalidControl?
    ensures Expressible(command) <==> exists request :: Decoded(request).command == command
  {
    if Expressible(command) {
      RestFormDecodes(command, "");
    }
    if request :| Decoded(request).command == command {
      JoinInvertsSplit(request.request);
      CommandsAreExpressible(PathParts(request.request), request);
    }
  }
}
