/** Execution of control commands and the request/response round around it. */
module Control {
  import opened Ids
  import opened Messages
  import opened Tasks
  import opened Forwarding
  import opened ControlProtocol
  import T = TypedControlProtocol
  import R = RestControlProtocol
  import Decimal
  import Paths

  const JOB_IS_WAITING := "JOB IS WAITING"
  const RESOURCE_NOT_FOUND := "RESOURCE NOT FOUND"

  const RESOURCES: seq<ResourceInfo> := [
    ResourceInfo("QLM", 38, false),
    ResourceInfo("Q5", 5, false),
    ResourceInfo("Q20", 20, true),
    ResourceInfo("AQT20", 20, true),
    ResourceInfo("QExa20", 20, true)
  ]

  function Find(resources: seq<ResourceInfo>, name: string): Option<ResourceInfo> {
    if resources == [] then None
    else if resources[0].name == name then Some(resources[0])
    else Find(resources[1..], name)
  }

  // ---------- what each command does ----------

  function TaskFor(command: ControlCommand): QuantumTask
    requires command.CreateQuantumTask?
  {
    EMPTY_TASK.(nShots := command.shots,
                circuitFiles := command.circuitFiles,
                circuitFileType := command.circuitFormat,
                preferredQpu := command.resourceName,
                noModify := command.noModify,
                viaHpc := true)
  }

  /** The commands that make two store calls: a status check, then a take. */
  predicate Fetches(command: ControlCommand) {
    command.GetTaskResult? || command.GetCancelReason?
  }

  /** The answer once the completed entry, if any, has been taken. */
  function FetchAnswer(command: ControlCommand, taken: Option<CompletedControlTask>): ControlResult
    requires Fetches(command)
  {
    match taken
    case None => ControlError(JOB_NOT_FOUND)
    case Some(task) =>
      if command.GetTaskResult? then TaskResultResult(task) else CancelReasonResult(task.cancelReason)
  }

  /** The answer to a command that makes at most one store call, which changes nothing. */
  function PlainAnswer(command: ControlCommand, store: Store): ControlResult
    requires !Fetches(command) && !command.CreateQuantumTask?
  {
    match command
    case GetTaskStatus(id) => TaskStatusResult(store.Status(id))
    case ListResourcesCommand => ResourceListResult(RESOURCES)
    case GetResourceInfo(name) =>
      (match Find(RESOURCES, name)
       case None => ControlError(RESOURCE_NOT_FOUND)
       case Some(resource) => ResourceInfoResult(resource))
    case QueryPendingTasks(name) =>
      if Find(RESOURCES, name).None? then ControlError(RESOURCE_NOT_FOUND) else PendingTasksResult(|store.pending|)
    case InvalidControl(message) => ControlError(message)
  }

  datatype Execution = Execution(
    store: Store, nextIndex: uint64, result: ControlResult, outbound: Option<QuantumTask>)

  function Execute(command: ControlCommand, store: Store, nextIndex: uint64, uid: uint64, config: Config): Execution {
    if command.CreateQuantumTask? then
      var id := TaskId(nextIndex, uid);
      var task := ForwardedTask(TaskFor(command), id, config);
      Execution(store.AddPending(ControlEntry(id)), ToUint64(nextIndex + 1),
                TaskCreated(ToUint64(task.taskId)), Some(task))
    else if !Fetches(command) then
      Execution(store, nextIndex, PlainAnswer(command, store), None)
    else if store.Status(command.taskId) == Waiting then
      Execution(store, nextIndex, ControlError(JOB_IS_WAITING), None)
    else
      Execution(store.DropCompleted(command.taskId), nextIndex,
                FetchAnswer(command, store.Result(command.taskId)), None)
  }

  function DecodedBy(protocol: Protocol, request: APIRequest): DecodedControlRequest {
    if protocol.Typed? then T.Decoded(request) else R.Decoded(request)
  }

  function EncodedBy(protocol: Protocol, result: ControlResult, queue: string): APIResponse {
    if protocol.Typed? then T.Encoded(result, queue) else R.Encoded(result, queue)
  }

  /** What a client reads that speaks the protocol of the response. */
  function ReadBy(protocol: Protocol, response: APIResponse): Option<View> {
    if protocol.Typed? then T.Read(response) else R.Read(response)
  }

  // ---------- the methods ----------

  method HandleFetch(command: ControlCommand, tasks: TaskStore) returns (result: ControlResult)
    requires Fetches(command)
    modifies tasks
    ensures var before := old(tasks.Contents());
            var id := command.taskId;
            if before.Status(id) == Waiting then
              result == ControlError(JOB_IS_WAITING) && tasks.Contents() == before
            else
              result == FetchAnswer(command, before.Result(id)) && tasks.Contents() == before.DropCompleted(id)
  {
    var status := tasks.Status(command.taskId);
    if status == Waiting {
      return ControlError(JOB_IS_WAITING);
    }
    var taken := tasks.TakeCompletedControlTask(command.taskId);
    if taken.None? {
      return ControlError(JOB_NOT_FOUND);
    }
    if command.GetTaskResult? {
      return TaskResultResult(taken.value);
    }
    return CancelReasonResult(taken.value.cancelReason);
  }

  method HandlePlain(command: ControlCommand, tasks: TaskStore) returns (result: ControlResult)
    requires !Fetches(command) && !command.CreateQuantumTask?
    ensures result == PlainAnswer(command, tasks.Contents())
  {
    match command {
      case GetTaskStatus(id) =>
        var status := tasks.Status(id);
        result := TaskStatusResult(status);
      case ListResourcesCommand =>
        result := ResourceListResult(RESOURCES);
      case GetResourceInfo(name) =>
        var resource := Find(RESOURCES, name);
        result := if resource.None? then ControlError(RESOURCE_NOT_FOUND) else ResourceInfoResult(resource.value);
      case QueryPendingTasks(name) =>
        if Find(RESOURCES, name).None? {
          return ControlError(RESOURCE_NOT_FOUND);
        }
        var count := tasks.PendingCount();
        result := PendingTasksResult(count);
      case InvalidControl(message) =>
        result := ControlError(message);
    }
  }

  method ApplyCreateTaskCommand(task: QuantumTask, command: ControlCommand) returns (applied: QuantumTask)
    requires command.CreateQuantumTask?
    ensures applied == task.(nQbits := 0, nShots := command.shots, circuitFileType := command.circuitFormat,
                             preferredQpu := command.resourceName, noModify := command.noModify, viaHpc := true,
                             circuitFiles := task.circuitFiles + command.circuitFiles)
  {
    applied := task.(nQbits := 0);
    applied := applied.(nShots := command.shots);
    applied := applied.(circuitFileType := command.circuitFormat);
    applied := applied.(preferredQpu := command.resourceName);
    applied := applied.(noModify := command.noModify);
    applied := applied.(viaHpc := true);
    ghost var before := applied;
    for i := 0 to |command.circuitFiles|
      invariant applied == before.(circuitFiles := task.circuitFiles + command.circuitFiles[..i])
    {
      applied := applied.(circuitFiles := applied.circuitFiles + [command.circuitFiles[i]]);
      assert command.circuitFiles[..i + 1] == command.circuitFiles[..i] + [command.circuitFiles[i]];
    }
    assert command.circuitFiles[..|command.circuitFiles|] == command.circuitFiles;
  }

  method ExecuteControlCommand(command: ControlCommand, tasks: TaskStore, config: Config, forwarder: Forward)
    returns (result: ControlResult, outbound: Option<QuantumTask>)
    modifies tasks, forwarder
    ensures Execution(tasks.Contents(), forwarder.nextTaskIndex, result, outbound)
         == Execute(command, old(tasks.Contents()), old(forwarder.nextTaskIndex), forwarder.instanceUid, config)
  {
    if command.CreateQuantumTask? {
      var task := ApplyCreateTaskCommand(EMPTY_TASK, command);
      assert task == TaskFor(command);
      var forwarded := forwarder.CreateControlTask(task, tasks, config);
      result, outbound := TaskCreated(ToUint64(forwarded.taskId)), Some(forwarded);
    } else if Fetches(command) {
      result := HandleFetch(command, tasks);
      outbound := None;
    } else {
      result := HandlePlain(command, tasks);
      outbound := None;
    }
  }

  method Process(request: APIRequest, tasks: TaskStore, config: Config, forwarder: Forward)
    returns (response: APIResponse, outbound: Option<QuantumTask>)
    modifies tasks, forwarder
    ensures var protocol := ProtocolFor(request);
            var decoded := DecodedBy(protocol, request);
            var e := Execute(decoded.command, old(tasks.Contents()), old(forwarder.nextTaskIndex),
                             forwarder.instanceUid, config);
            && tasks.Contents() == e.store
            && forwarder.nextTaskIndex == e.nextIndex
            && outbound == e.outbound
            && response == EncodedBy(protocol, e.result, decoded.responseQueue)
  {
    var protocol := ProtocolFor(request);
    var decoded;
    if protocol.Typed? {
      decoded := T.Decoded(request);
    } else {
      decoded := R.Decode(request);
    }
    var result;
    result, outbound := ExecuteControlCommand(decoded.command, tasks, config, forwarder);
    if protocol.Typed? {
      response := T.Encode(result, decoded.responseQueue);
    } else {
      response := R.Encode(result, decoded.responseQueue);
    }
  }

  // ---------- properties ----------

  /** An error answer means that nothing happened. */
  lemma ErrorsChangeNothing(command: ControlCommand, store: Store, nextIndex: uint64, uid: uint64, config: Config)
    requires Execute(command, store, nextIndex, uid, config).result.ControlError?
    ensures Execute(command, store, nextIndex, uid, config).store == store
    ensures Execute(command, store, nextIndex, uid, config).nextIndex == nextIndex
    ensures Execute(command, store, nextIndex, uid, config).outbound == None
  {
    if Fetches(command) {
      assert store.completed - {command.taskId} == store.completed || command.taskId in store.completed;
    }
  }

  /** A fetched entry is gone: no later fetch of either kind gets anything for that id. */
  lemma FetchedOnce(command: ControlCommand, again: ControlCommand, store: Store, nextIndex: uint64, uid: uint64,
                    config: Config)
    requires Fetches(command) && Fetches(again) && again.taskId == command.taskId
    requires !Execute(command, store, nextIndex, uid, config).result.ControlError?
    ensures var after := Execute(command, store, nextIndex, uid, config).store;
            && Execute(again, after, nextIndex, uid, config).result == ControlError(JOB_NOT_FOUND)
            && after == store.DropCompleted(command.taskId)
            && command.taskId in store.completed
  {
  }

  /** A find gives the first resource with the name, and none exactly if there is no such resource. */
  lemma {:induction false} FindsFirst(resources: seq<ResourceInfo>, name: string)
    ensures Find(resources, name).None? <==> forall resource <- resources :: resource.name != name
    ensures Find(resources, name).Some? ==>
              exists i :: 0 <= i < |resources| && Find(resources, name).value == resources[i] &&
                          resources[i].name == name && forall j :: 0 <= j < i ==> resources[j].name != name
  {
    if resources != [] && resources[0].name != name {
      FindsFirst(resources[1..], name);
      if Find(resources[1..], name).Some? {
        var i :| 0 <= i < |resources| - 1 && Find(resources[1..], name).value == resources[1..][i] &&
                 resources[1..][i].name == name && forall j :: 0 <= j < i ==> resources[1..][j].name != name;
        assert resources[i + 1] == resources[1..][i];
        forall j | 0 <= j < i + 1 ensures resources[j].name != name {
          assert j > 0 ==> resources[j] == resources[1..][j - 1];
        }
      }
    }
  }

  /** The registry, name by name. */
  function Qubits(name: string): Option<int> {
    if name == "QLM" then Some(38)
    else if name == "Q5" then Some(5)
    else if name in {"Q20", "AQT20", "QExa20"} then Some(20)
    else None
  }

  predicate Online(name: string) {
    name in {"Q20", "AQT20", "QExa20"}
  }

  lemma RegistryFinds(name: string)
    ensures match Find(RESOURCES, name)
            case None => Qubits(name) == None
            case Some(resource) =>
              resource.name == name && Qubits(name) == Some(resource.qubits) && resource.online == Online(name)
  {
    FindsFirst(RESOURCES, name);
    if Find(RESOURCES, name).None? {
      NotInRegistry(name);
    }
  }

  lemma NotInRegistry(name: string)
    requires forall resource <- RESOURCES :: resource.name != name
    ensures Qubits(name) == None
  {
    assert RESOURCES[0] in RESOURCES && RESOURCES[1] in RESOURCES && RESOURCES[2] in RESOURCES;
    assert RESOURCES[3] in RESOURCES && RESOURCES[4] in RESOURCES;
  }

  /** What a client reads, through either protocol, in the answer to a command. */
  function Told(protocol: Protocol, command: ControlCommand, store: Store, index: uint64, uid: uint64, config: Config,
                queue: string): Option<View> {
    ReadBy(protocol, EncodedBy(protocol, Execute(command, store, index, uid, config).result, queue))
  }

  lemma ToldIsView(protocol: Protocol, command: ControlCommand, store: Store, index: uint64, uid: uint64,
                   config: Config, queue: string)
    requires protocol.Typed? ==> AnswerFits(command, store, index, uid)
    ensures Told(protocol, command, store, index, uid, config, queue)
         == Some(ViewOf(Execute(command, store, index, uid, config).result))
  {
    var result := Execute(command, store, index, uid, config).result;
    AnswerFitsIff(command, store, index, uid, config);
    T.ReadInvertsEncodeIffFits(result, queue);
    R.ReadInvertsEncode(result, queue);
  }

  /** An info query reads the qubits and the flag of the resource with that name, or that there is none. */
  lemma InfoIsTold(protocol: Protocol, name: string, store: Store, index: uint64, uid: uint64, config: Config,
                   queue: string)
    ensures Told(protocol, GetResourceInfo(name), store, index, uid, config, queue)
         == if Qubits(name).Some? then Some(ResourceView(name, Qubits(name).value, Online(name)))
            else Some(ErrorView("RESOURCE NOT FOUND"))
  {
    RegistryFinds(name);
    ToldIsView(protocol, GetResourceInfo(name), store, index, uid, config, queue);
  }

  /** A query for pending tasks reads how many are pending, for a resource that exists. */
  lemma PendingIsTold(protocol: Protocol, name: string, store: Store, index: uint64, uid: uint64, config: Config,
                      queue: string)
    requires protocol.Typed? ==> |store.pending| < TWO_31
    ensures Told(protocol, QueryPendingTasks(name), store, index, uid, config, queue)
         == if Qubits(name).Some? then Some(PendingView(|store.pending|)) else Some(ErrorView("RESOURCE NOT FOUND"))
  {
    RegistryFinds(name);
    ToldIsView(protocol, QueryPendingTasks(name), store, index, uid, config, queue);
  }

  /** The list reads all names in order. */
  lemma ListIsTold(protocol: Protocol, store: Store, index: uint64, uid: uint64, config: Config, queue: string)
    ensures Told(protocol, ListResourcesCommand, store, index, uid, config, queue)
         == Some(NamesView(["QLM", "Q5", "Q20", "AQT20", "QExa20"]))
  {
    ToldIsView(protocol, ListResourcesCommand, store, index, uid, config, queue);
    assert Names(RESOURCES) == ["QLM", "Q5", "Q20", "AQT20", "QExa20"];
  }

  /** A status query reads where the id is, and for a completed task how its execution went. */
  lemma StatusIsTold(protocol: Protocol, id: uint64, store: Store, index: uint64, uid: uint64, config: Config,
                     queue: string)
    ensures Told(protocol, GetTaskStatus(id), store, index, uid, config, queue)
         == if id in store.pending then Some(StatusView(Waiting))
            else if id in store.completed && store.completed[id].executionStatus then Some(StatusView(Completed))
            else if id in store.completed then Some(StatusView(Cancelled))
            else Some(ErrorView("JOB NOT FOUND"))
  {
    ToldIsView(protocol, GetTaskStatus(id), store, index, uid, config, queue);
  }

  /** A fetch reads that the task waits, that there is none, or what was asked for of the completed one. */
  lemma FetchIsTold(protocol: Protocol, id: uint64, store: Store, index: uint64, uid: uint64, config: Config,
                    queue: string)
    ensures var result := Told(protocol, GetTaskResult(id), store, index, uid, config, queue);
            var reason := Told(protocol, GetCancelReason(id), store, index, uid, config, queue);
            if id in store.pending then
              result == reason == Some(ErrorView("JOB IS WAITING"))
            else if id !in store.completed then
              result == reason == Some(ErrorView("JOB NOT FOUND"))
            else
              var task := store.completed[id];
              && result == Some(ResultView(task.resultCounts, task.timestampScheduled, task.timestampSubmitted,
                                           task.timestampCompleted))
              && reason == Some(ReasonView(task.cancelReason))
  {
    ToldIsView(protocol, GetTaskResult(id), store, index, uid, config, queue);
    ToldIsView(protocol, GetCancelReason(id), store, index, uid, config, queue);
  }

  /** How a client of the REST-like protocol writes a typed request. */
  function RestSpelling(request: TypedRequest, queue: string): APIRequest {
    var get := APIRequest("", "GET", "", map[], queue, RequestNotSet);
    match request
    case CreateTask(r) =>
      APIRequest("", "POST", "job",
                 map["shots" := NumberValue(Finite(r.shots as real)),
                     "circuit" := ListValue(R.StringValues(r.circuit)),
                     "circuit_format" := StringValue(r.circuitFormat),
                     "resource_name" := StringValue(r.resourceName),
                     "no_modify" := BoolValue(r.noModify)],
                 queue, RequestNotSet)
    case TaskStatusOf(uuid) => get.(request := Paths.Join(["job", Decimal.ToString(ToUint64(uuid)), "status"]))
    case TaskResultOf(uuid) => get.(request := Paths.Join(["job", Decimal.ToString(ToUint64(uuid)), "result"]))
    case CancelReasonOf(uuid) => get.(request := Paths.Join(["job", Decimal.ToString(ToUint64(uuid)), "cancel_reason"]))
    case ListResources => get.(request := "resources")
    case ResourceInfoOf(name) => get.(request := Paths.Join(["resources", name]))
    case PendingTasksOf(name) => get.(request := Paths.Join(["resources", name, "num_pending_jobs"]))
    case RequestNotSet => get
  }

  /** The typed requests that REST can express. */
  predicate HasRestSpelling(request: TypedRequest) {
    match request
    case CreateTask(r) => r.shots >= 0
    case ResourceInfoOf(name) => name != "" && Paths.SlashFree(name)
    case PendingTasksOf(name) => name != "" && Paths.SlashFree(name)
    case RequestNotSet => false
    case _ => true
  }

  lemma SpellingIsForm(request: TypedRequest, queue: string)
    requires !request.RequestNotSet?
    ensures RestSpelling(request, queue) == R.RestForm(T.Command(request), queue)
    ensures HasRestSpelling(request) <==> R.Expressible(T.Command(request))
  {
  }

  /** The two protocols decode a request and its spelling to the same command, and no REST request at all decodes to
      the command of a typed request without a spelling. */
  lemma SpellingDecodes(request: TypedRequest, queue: string)
    requires !request.RequestNotSet?
    ensures HasRestSpelling(request) ==>
              R.Decoded(RestSpelling(request, queue)) == DecodedControlRequest(T.Command(request), queue)
    ensures HasRestSpelling(request) <==> exists rest :: R.Decoded(rest).command == T.Command(request)
  {
    SpellingIsForm(request, queue);
    R.ExpressibleIff(T.Command(request));
    if HasRestSpelling(request) {
      R.RestFormDecodes(T.Command(request), queue);
    }
  }

  /** Before the execution of a command: its answer has no number that an int32 cannot hold. */
  predicate AnswerFits(command: ControlCommand, store: Store, index: uint64, uid: uint64) {
    match command
    case CreateQuantumTask(_, _, _, _, _) => ToInt32(TaskId(index, uid)) >= 0
    case QueryPendingTasks(name) => Find(RESOURCES, name).Some? ==> |store.pending| < TWO_31
    case _ => true
  }

  lemma {:induction false} FoundQubitsFit(resources: seq<ResourceInfo>, name: string)
    requires forall resource <- resources :: resource.qubits < TWO_31
    ensures Find(resources, name).Some? ==> Find(resources, name).value.qubits < TWO_31
  {
    if resources != [] {
      FoundQubitsFit(resources[1..], name);
    }
  }

  lemma AnswerFitsIff(command: ControlCommand, store: Store, index: uint64, uid: uint64, config: Config)
    ensures T.Fits(Execute(command, store, index, uid, config).result) <==> AnswerFits(command, store, index, uid)
  {
    match command
    case CreateQuantumTask(_, _, _, _, _) => CreatedFitsIff(TaskId(index, uid));
    case GetResourceInfo(name) => FoundQubitsFit(RESOURCES, name);
    case _ =>
  }

  lemma CreatedFitsIff(id: uint64)
    ensures ReturnKey(id) < TWO_31 <==> ToInt32(id) >= 0
  {
  }

  /** A typed request and its REST spelling have the same effect, the same outbound task, and answers to the same queue,
      which read the same exactly when the command, the store and the counter leave nothing to be narrowed. */
  lemma ProtocolIndependence(request: APIRequest, store: Store, index: uint64, uid: uint64, config: Config)
    requires HasRestSpelling(request.typedRequest)
    ensures var rest := RestSpelling(request.typedRequest, request.responseQueue);
            var typedCommand := DecodedBy(ProtocolFor(request), request);
            var restCommand := DecodedBy(ProtocolFor(rest), rest);
            var e := Execute(typedCommand.command, store, index, uid, config);
            var f := Execute(restCommand.command, store, index, uid, config);
            var typedResponse := EncodedBy(ProtocolFor(request), e.result, typedCommand.responseQueue);
            var restResponse := EncodedBy(ProtocolFor(rest), f.result, restCommand.responseQueue);
            && e == f
            && typedResponse.destinationQueue == restResponse.destinationQueue == request.responseQueue
            && (T.Read(typedResponse) == R.Read(restResponse)
                <==> AnswerFits(T.Command(request.typedRequest), store, index, uid))
  {
    SpellingDecodes(request.typedRequest, request.responseQueue);
    AnswersAgreeIff(T.Command(request.typedRequest), store, index, uid, config, request.responseQueue);
  }

  lemma AnswersAgreeIff(command: ControlCommand, store: Store, index: uint64, uid: uint64, config: Config,
                        queue: string)
    ensures var result := Execute(command, store, index, uid, config).result;
            && (T.Read(T.Encoded(result, queue)) == R.Read(R.Encoded(result, queue))
                <==> AnswerFits(command, store, index, uid))
            && T.Encoded(result, queue).destinationQueue == R.Encoded(result, queue).destinationQueue == queue
  {
    var result := Execute(command, store, index, uid, config).result;
    AnswerFitsIff(command, store, index, uid, config);
    T.ReadInvertsEncodeIffFits(result, queue);
    R.ReadInvertsEncode(result, queue);
  }

  lemma CreatedReadsAs(id: uint64, queue: string)
    ensures T.Read(T.Encoded(TaskCreated(ReturnKey(id)), queue)) == Some(CreatedView(ToInt32(id)))
    ensures R.Read(R.Encoded(TaskCreated(ReturnKey(id)), queue)) == Some(CreatedView(ReturnKey(id)))
  {
    Int32Survives(ToInt32(id));
    R.ReadInvertsEncode(TaskCreated(ReturnKey(id)), queue);
  }

  lemma CreatedResult(command: ControlCommand, store: Store, index: uint64, uid: uint64, config: Config)
    requires command.CreateQuantumTask?
    ensures Execute(command, store, index, uid, config).result == TaskCreated(ReturnKey(TaskId(index, uid)))
  {
  }

  lemma NarrowedExample()
    ensures TaskId(214749, 0) == 2147490000
    ensures ToInt32(2147490000) == -2147477296 && ReturnKey(2147490000) == 18446744071562074320
  {
    UnwrappedTaskId(214749, 0);
  }

  /** With instance uid 0 the create response for index 214749 gives a typed client a negative number and a REST client
      its 64-bit image. */
  lemma CreateAnswersDiffer(command: ControlCommand, store: Store, config: Config, queue: string)
    requires command.CreateQuantumTask?
    ensures var result := Execute(command, store, 214749, 0, config).result;
            && T.Read(T.Encoded(result, queue)) == Some(CreatedView(-2147477296))
            && R.Read(R.Encoded(result, queue)) == Some(CreatedView(18446744071562074320))
  {
    NarrowedExample();
    CreatedResult(command, store, 214749, 0, config);
    CreatedReadsAs(2147490000, queue);
  }

  // ---------- create, then query ----------

  datatype Query = StatusQuery | ResultQuery | ReasonQuery

  function QueryCommand(query: Query, id: uint64): ControlCommand {
    match query
    case StatusQuery => GetTaskStatus(id)
    case ResultQuery => GetTaskResult(id)
    case ReasonQuery => GetCancelReason(id)
  }

  /** A typed query puts the number into the int32 field, as a C++ client would. */
  function TypedQuery(query: Query, number: int): TypedRequest {
    match query
    case StatusQuery => TaskStatusOf(ToInt32(number))
    case ResultQuery => TaskResultOf(ToInt32(number))
    case ReasonQuery => CancelReasonOf(ToInt32(number))
  }

  function Signed(number: int): string {
    if number < 0 then "-" + Decimal.ToString(-number) else Decimal.ToString(number)
  }

  function Operation(query: Query): string {
    match query
    case StatusQuery => "status"
    case ResultQuery => "result"
    case ReasonQuery => "cancel_reason"
  }

  /** A REST query prints the number into the path. */
  function RestQuery(query: Query, number: int): APIRequest {
    APIRequest("", "GET", Paths.Join(["job", Signed(number), Operation(query)]), map[], "", RequestNotSet)
  }

  /** The number a client is given in the response to a create command. */
  function GivenNumber(protocol: Protocol, response: APIResponse): int {
    match ReadBy(protocol, response)
    case Some(CreatedView(number)) => number
    case _ => -1
  }

  lemma GivenNumberIs(protocol: Protocol, id: uint64, queue: string)
    ensures GivenNumber(protocol, EncodedBy(protocol, TaskCreated(ReturnKey(id)), queue))
         == if protocol.Typed? then ToInt32(id) else ReturnKey(id)
  {
    CreatedReadsAs(id, queue);
  }

  lemma RestQueryReads(query: Query, number: int)
    requires number < TWO_64
    ensures R.Decoded(RestQuery(query, number)).command
         == if number < 0 then InvalidControl(R.INVALID_JOB_ID) else QueryCommand(query, number)
  {
    if number >= 0 {
      R.RestFormDecodes(QueryCommand(query, number), "");
      assert RestQuery(query, number) == R.RestForm(QueryCommand(query, number), "");
    } else {
      NegativeIsNoId(query, number);
    }
  }

  lemma NegativeDoesNotParse(number: int)
    requires number < 0
    ensures Signed(number) != "" && Paths.SlashFree(Signed(number))
    ensures Decimal.ParseTaskId(Signed(number)) == None
  {
    Decimal.ValueOfToString(-number);
    Decimal.DigitsAreSlashFree(Decimal.ToString(-number));
    Decimal.DigitRunSplits(Signed(number));
    assert Signed(number)[0] == '-';
  }

  lemma NegativeIsNoId(query: Query, number: int)
    requires number < 0
    ensures R.Decoded(RestQuery(query, number)).command == InvalidControl(R.INVALID_JOB_ID)
  {
    var parts := ["job", Signed(number), Operation(query)];
    NegativeDoesNotParse(number);
    Paths.UnpaddedSplits(parts);
  }

  lemma RestQueryNames(query: Query, number: int, id: uint64)
    requires number < TWO_64
    ensures R.Decoded(RestQuery(query, number)).command == QueryCommand(query, id) <==> number == id
  {
    RestQueryReads(query, number);
  }

  lemma TypedQueryNames(query: Query, number: int, id: uint64)
    ensures T.Command(TypedQuery(query, number)) == QueryCommand(query, id) <==> ToUint64(ToInt32(number)) == id
  {
  }

  lemma NumbersName(id: uint64)
    ensures ReturnKey(id) == id <==> InRange(id)
    ensures ToInt32(id) == id <==> id < TWO_31
  {
    ReturnsUnchangedIffInRange(id);
  }

  /** What a client is told about a task that waits. */
  function WaitingAnswer(query: Query): ControlResult {
    if query.StatusQuery? then TaskStatusResult(Waiting) else ControlError(JOB_IS_WAITING)
  }

  /** Creating a task registers it, and whoever then asks for its id is told that it waits. */
  lemma CreatedWaits(command: ControlCommand, query: Query, store: Store, index: uint64, uid: uint64, config: Config)
    requires command.CreateQuantumTask?
    ensures var e := Execute(command, store, index, uid, config);
            var id := TaskId(index, uid);
            var asked := Execute(QueryCommand(query, id), e.store, e.nextIndex, uid, config);
            && e.result == TaskCreated(ReturnKey(id))
            && asked.result == WaitingAnswer(query)
            && asked.store == e.store
  {
  }

  /** The number from create, fed back into a REST path, names the created task exactly when the id survived the wire
      (below 2^31 when it came from the typed protocol); the query is then answered that the task waits. */
  lemma CreateThenRestQuery(protocol: Protocol, queue: string, command: ControlCommand, query: Query, store: Store,
                            index: uint64, uid: uint64, config: Config)
    requires command.CreateQuantumTask?
    ensures var e := Execute(command, store, index, uid, config);
            var number := GivenNumber(protocol, EncodedBy(protocol, e.result, queue));
            var asked := R.Decoded(RestQuery(query, number)).command;
            var named := if protocol.Rest? then InRange(TaskId(index, uid)) else TaskId(index, uid) < TWO_31;
            && (asked == QueryCommand(query, TaskId(index, uid)) <==> named)
            && (named ==> Execute(asked, e.store, e.nextIndex, uid, config).result == WaitingAnswer(query))
  {
    CreatedWaits(command, query, store, index, uid, config);
    RestNumberNames(protocol, queue, query, TaskId(index, uid));
  }

  lemma RestNumberNames(protocol: Protocol, queue: string, query: Query, id: uint64)
    ensures var number := GivenNumber(protocol, EncodedBy(protocol, TaskCreated(ReturnKey(id)), queue));
            R.Decoded(RestQuery(query, number)).command == QueryCommand(query, id)
            <==> if protocol.Rest? then InRange(id) else id < TWO_31
  {
    var number := GivenNumber(protocol, EncodedBy(protocol, TaskCreated(ReturnKey(id)), queue));
    GivenNumberIs(protocol, id, queue);
    NumbersName(id);
    RestQueryNames(query, number, id);
  }

  /** The number from either create, put into a typed query, names the created task exactly when the id is in range. */
  lemma CreateThenTypedQuery(protocol: Protocol, queue: string, command: ControlCommand, query: Query, store: Store,
                             index: uint64, uid: uint64, config: Config)
    requires command.CreateQuantumTask?
    ensures var e := Execute(command, store, index, uid, config);
            var number := GivenNumber(protocol, EncodedBy(protocol, e.result, queue));
            var asked := T.Command(TypedQuery(query, number));
            var named := InRange(TaskId(index, uid));
            && (asked == QueryCommand(query, TaskId(index, uid)) <==> named)
            && (named ==> Execute(asked, e.store, e.nextIndex, uid, config).result == WaitingAnswer(query))
  {
    CreatedWaits(command, query, store, index, uid, config);
    TypedNumberNames(protocol, queue, query, TaskId(index, uid));
  }

  lemma TypedNumberNames(protocol: Protocol, queue: string, query: Query, id: uint64)
    ensures var number := GivenNumber(protocol, EncodedBy(protocol, TaskCreated(ReturnKey(id)), queue));
            T.Command(TypedQuery(query, number)) == QueryCommand(query, id) <==> InRange(id)
  {
    var number := GivenNumber(protocol, EncodedBy(protocol, TaskCreated(ReturnKey(id)), queue));
    GivenNumberIs(protocol, id, queue);
    ReturnsUnchangedIffInRange(id);
    Int32Survives(ToInt32(id));
    TypedQueryNames(query, number, id);
  }
}
