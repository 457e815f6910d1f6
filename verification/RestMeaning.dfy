/** Which REST-like requests mean which command, and which are refused with which message. */
module RestMeaning {
  import opened Ids
  import opened Messages
  import opened ControlProtocol
  import opened Paths
  import Decimal
  import R = RestControlProtocol

  // ---------- what a request must hold ----------

  predicate HasInteger(data: Struct, key: string, n: int) {
    key in data && data[key] == NumberValue(Finite(n as real))
  }

  predicate HasText(data: Struct, key: string, text: string) {
    key in data && data[key] == StringValue(text)
  }

  predicate HasFlag(data: Struct, key: string, flag: bool) {
    key in data && data[key] == BoolValue(flag)
  }

  predicate HasTexts(data: Struct, key: string, texts: seq<string>) {
    && key in data && data[key].ListValue? && |data[key].values| == |texts|
    && forall i :: 0 <= i < |texts| ==> data[key].values[i] == StringValue(texts[i])
  }

  /** The five fields of a create request. */
  predicate HasTask(data: Struct, shots: int, files: seq<string>, format: string, resource: string, noModify: bool) {
    && 0 <= shots < 0x8000_0000
    && HasInteger(data, "shots", shots)
    && HasTexts(data, "circuit", files)
    && HasText(data, "circuit_format", format)
    && HasText(data, "resource_name", resource)
    && HasFlag(data, "no_modify", noModify)
  }

  ghost predicate HoldsTask(data: Struct) {
    exists shots, files, format, resource, noModify :: HasTask(data, shots, files, format, resource, noModify)
  }

  predicate IsId(text: string) {
    text != "" && Decimal.AllDigits(text) && Decimal.DecimalValue(text) < TWO_64
  }

  predicate Names(text: string, id: uint64) {
    text != "" && Decimal.AllDigits(text) && Decimal.DecimalValue(text) == id
  }

  predicate IsJobPath(parts: seq<string>, operation: string) {
    |parts| == 3 && parts[0] == "job" && parts[2] == operation
  }

  predicate IsResourcePath(parts: seq<string>) {
    || parts == ["resources"]
    || (|parts| == 2 && parts[0] == "resources")
    || (|parts| == 3 && parts[0] == "resources" && parts[1] != "" && parts[2] == "num_pending_jobs")
  }

  /** The meaning of a request, command by command. */
  ghost predicate Means(request: APIRequest, command: ControlCommand) {
    var parts := PathParts(request.request);
    match command
    case CreateQuantumTask(shots, files, format, resource, noModify) =>
      parts == ["job"] && request.method_ == "POST" && HasTask(request.data, shots, files, format, resource, noModify)
    case GetTaskStatus(id) => request.method_ == "GET" && IsJobPath(parts, "status") && Names(parts[1], id)
    case GetTaskResult(id) => request.method_ == "GET" && IsJobPath(parts, "result") && Names(parts[1], id)
    case GetCancelReason(id) => request.method_ == "GET" && IsJobPath(parts, "cancel_reason") && Names(parts[1], id)
    case ListResourcesCommand => request.method_ == "GET" && parts == ["resources"]
    case GetResourceInfo(name) => request.method_ == "GET" && parts == ["resources", name] && name != ""
    case QueryPendingTasks(name) =>
      request.method_ == "GET" && parts == ["resources", name, "num_pending_jobs"] && name != ""
    case InvalidControl(message) => Refused(request, parts, message)
  }

  ghost predicate Refused(request: APIRequest, parts: seq<string>, message: string) {
    if parts == ["job"] then
      if request.method_ != "POST" then message == "INVALID METHOD"
      else !HoldsTask(request.data) && message == "INVALID JOB REQUEST"
    else if request.method_ != "GET" then message == "INVALID METHOD"
    else if |parts| == 3 && parts[0] == "job" then
      if !IsId(parts[1]) then message == "INVALID JOB ID"
      else parts[2] !in {"status", "result", "cancel_reason"} && message == "UNKNOWN CONTROL REQUEST"
    else !IsResourcePath(parts) && message == "UNKNOWN CONTROL REQUEST"
  }

  // ---------- the fields ----------

  lemma IntegerRead(data: Struct, key: string, n: int32)
    ensures R.RequiredInt(data, key) == Some(n) <==> HasInteger(data, key, n)
  {
  }

  lemma TextsRead(data: Struct, key: string, texts: seq<string>)
    ensures R.StringList(data, key) == Some(texts) <==> HasTexts(data, key, texts)
  {
    if key in data && data[key].ListValue? {
      var values := data[key].values;
      if R.Strings(values).Some? {
        assert forall i :: 0 <= i < |values| ==> values[i].StringValue? && R.Strings(values).value[i] == values[i].text;
      }
      if HasTexts(data, key, texts) {
        assert R.Strings(values).Some? && R.Strings(values).value == texts;
      }
    }
  }

  lemma TextRead(data: Struct, key: string, text: string)
    ensures R.RequiredString(data, key) == Some(text) <==> HasText(data, key, text)
  {
  }

  lemma FlagRead(data: Struct, key: string, flag: bool)
    ensures R.RequiredBool(data, key) == Some(flag) <==> HasFlag(data, key, flag)
  {
  }

  lemma TaskRead(data: Struct, shots: int32, files: seq<string>, format: string, resource: string, noModify: bool)
    ensures R.CreateCommand("POST", data, R.StringList(data, "circuit"))
            == CreateQuantumTask(shots, files, format, resource, noModify)
       <==> HasTask(data, shots, files, format, resource, noModify)
  {
    IntegerRead(data, "shots", shots);
    TextsRead(data, "circuit", files);
    TextRead(data, "circuit_format", format);
    TextRead(data, "resource_name", resource);
    FlagRead(data, "no_modify", noModify);
  }

  lemma TaskRefused(data: Struct)
    ensures var command := R.CreateCommand("POST", data, R.StringList(data, "circuit"));
            if HoldsTask(data) then command.CreateQuantumTask? else command == InvalidControl("INVALID JOB REQUEST")
  {
    var command := R.CreateCommand("POST", data, R.StringList(data, "circuit"));
    if command.CreateQuantumTask? {
      var CreateQuantumTask(shots, files, format, resource, noModify) := command;
      TaskRead(data, shots, files, format, resource, noModify);
    }
    if shots, files, format, resource, noModify :| HasTask(data, shots, files, format, resource, noModify) {
      TaskRead(data, shots, files, format, resource, noModify);
    }
  }

  lemma IdRead(text: string)
    ensures match Decimal.ParseTaskId(text)
            case Some(id) => Names(text, id)
            case None => !IsId(text)
  {
    match Decimal.ParseTaskId(text)
    case Some(id) => Decimal.ParseAccepts(text, id);
    case None =>
      if IsId(text) {
        Decimal.ParseAccepts(text, Decimal.DecimalValue(text));
      }
  }

  // ---------- the request ----------

  lemma CreateMeans(request: APIRequest, command: ControlCommand)
    requires PathParts(request.request) == ["job"]
    ensures R.Decoded(request).command == command <==> Means(request, command)
  {
    TaskRefused(request.data);
    if command.CreateQuantumTask? {
      var CreateQuantumTask(shots, files, format, resource, noModify) := command;
      TaskRead(request.data, shots, files, format, resource, noModify);
    }
  }

  lemma JobMeans(request: APIRequest, command: ControlCommand)
    requires request.method_ == "GET"
    requires |PathParts(request.request)| == 3 && PathParts(request.request)[0] == "job"
    ensures R.Decoded(request).command == command <==> Means(request, command)
  {
    IdRead(PathParts(request.request)[1]);
  }

  lemma ResourcePathRead(parts: seq<string>)
    requires Splittable(parts)
    ensures R.ResourceCommand(parts)
         == if parts == ["resources"] then ListResourcesCommand
            else if |parts| == 2 && parts[0] == "resources" then GetResourceInfo(parts[1])
            else if |parts| == 3 && parts[0] == "resources" && parts[1] != "" && parts[2] == "num_pending_jobs"
            then QueryPendingTasks(parts[1])
            else InvalidControl("UNKNOWN CONTROL REQUEST")
  {
    assert |parts| == 1 ==> parts == [parts[0]];
  }

  /** What a GET request for anything but a job means. */
  ghost predicate MeansResource(parts: seq<string>, command: ControlCommand) {
    match command
    case ListResourcesCommand => parts == ["resources"]
    case GetResourceInfo(name) => parts == ["resources", name] && name != ""
    case QueryPendingTasks(name) => parts == ["resources", name, "num_pending_jobs"] && name != ""
    case InvalidControl(message) => !IsResourcePath(parts) && message == "UNKNOWN CONTROL REQUEST"
    case _ => false
  }

  lemma ResourceMeans(parts: seq<string>, command: ControlCommand)
    requires Splittable(parts)
    ensures R.ResourceCommand(parts) == command <==> MeansResource(parts, command)
  {
    ResourcePathRead(parts);
    assert |parts| == 2 ==> parts == [parts[0], parts[1]];
    assert |parts| == 3 ==> parts == [parts[0], parts[1], parts[2]];
  }

  lemma OtherMeans(request: APIRequest, command: ControlCommand)
    requires PathParts(request.request) != ["job"] && request.method_ == "GET"
    requires |PathParts(request.request)| == 3 ==> PathParts(request.request)[0] != "job"
    ensures R.Decoded(request).command == command <==> Means(request, command)
  {
    JoinInvertsSplit(request.request);
    ResourceMeans(PathParts(request.request), command);
  }

  /** A REST-like request decodes to a command, error commands included, exactly if it means that command: method, path
      and the kinds and values of all fields are decisive, and each of the four refusals has its own cause. */
  lemma DecodesIffMeans(request: APIRequest, command: ControlCommand)
    ensures R.Decoded(request).command == command <==> Means(request, command)
    ensures R.Decoded(request).responseQueue == request.responseQueue
  {
    var parts := PathParts(request.request);
    if parts == ["job"] {
      CreateMeans(request, command);
    } else if request.method_ == "GET" {
      if |parts| == 3 && parts[0] == "job" {
        JobMeans(request, command);
      } else {
        OtherMeans(request, command);
      }
    } else {
      assert |parts| == 1 && parts[0] == "job" ==> parts == ["job"];
    }
  }

  /** A number of shots with a fraction is refused, whatever else the request holds. */
  lemma FractionalShotsAreRefused(request: APIRequest, shots: real)
    requires PathParts(request.request) == ["job"] && request.method_ == "POST"
    requires "shots" in request.data && request.data["shots"] == NumberValue(Finite(shots))
    requires shots != shots.Floor as real
    ensures R.Decoded(request).command == InvalidControl("INVALID JOB REQUEST")
  {
    DecodesIffMeans(request, InvalidControl("INVALID JOB REQUEST"));
  }
}
