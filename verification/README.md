# Verified model of the MQSS integration framework

The project models the parts of the framework that correlate, queue and translate messages, and proves what they promise.

- **QOffload** numbers quantum tasks, registers them, sends them to the resource manager (QRM) and brings results back to
  the client that asked. `TaskStore`, `Forward` and `Control` are classes and methods (`TaskStore.dfy`, `Forward.dfy`,
  `Control.dfy`) proved against functions on values. `QOffload.dfy` builds the three concurrent workers from those same
  functions, one atomic action a step, with a QRM that may drop, delay, reorder and repeat results and put anything into
  them, but answers only tasks it was sent. Clients choose where their results go, the service's own result queue
  included, and what is sent there comes back. `QOffloadInvariant.dfy` and `QOffloadRuns.dfy` prove an invariant over every
  interleaving, `QOffloadTheorems.dfy`, `QOffloadReplies.dfy`, `QOffloadCreations.dfy`, `QOffloadStatus.dfy` and `QOffloadIntake.dfy` draw
  the promises from it.
  `QOffloadRounds.dfy` shows that uninterrupted worker steps have the effect of the methods and constructs the runs in which
  a promise fails; `QOffloadContinuations.dfy` shows that what is promised can still be reached from every reachable state.
- **The control protocols** (`Paths.dfy`, `Decimal.dfy`, `RestControlProtocol.dfy`, `TypedControlProtocol.dfy`) are parsers
  and printers into one command model (`ControlProtocol.dfy`). `RestMeaning.dfy` says what a REST-like request means without
  the parser, and which requests are refused with which message.
- **The in-memory transport** is a monitor: `InMemoryTransport.dfy` has its critical sections on the shared state,
  `TransportThreads.dfy` any number of threads with the mutex, the condition variable and a late `notify_all`;
  `TransportCalls.dfy` follows each call from its arguments to its outcome.
- **RabbitMQ** (`RabbitMqAck.dfy`, `RabbitMqReceive.dfy`, `RabbitMqEnvelope.dfy`) covers manual acknowledgement, the polling
  loops and the conversion of envelopes.
- **Gate stripping** (`GateStrip.dfy`) is the line filter in front of the QRM example's compiler.

`Ids.dfy` keeps the 64-bit counter and the int32 wire field exact. Invariants use predicates on as few components as
possible, and the numbering is a parameter there, so that only the theorems meet modular arithmetic.

What the code does not promise, each stated as a theorem:

- A direct client may name the service's result queue as its destination. Its restored result then returns to the result
  worker under a task id that the client chose, and takes the entry of whatever submission has that id: with two requests
  and an honest QRM the first client gets the counts of the second (`MisroutedByTwo`). Up to 2^28 ids, submissions can be
  misrouted in some run exactly when one of them crosses another in this way (`MisroutedIffCrossed`); that no request
  names the result queue is enough to exclude it, and `NoMisrouting` is proved under the exact condition.
- Wire ids repeat after 2^28 numberings, and from then on a result can reach the wrong client without any crossing
  (`MisroutedBeyondBound`). Up to 2^60 ids, some run misroutes exactly when one submission crosses another or two of them
  share a wire id of which one is in range (`MisroutedIffDisturbed`, `CollidesIff`).
- An id outside `[0, 2^31)` and `[2^64 - 2^31, 2^64)` does not survive the int32 field. Its result is dropped as unknown and
  its entry stays pending for good (`OutOfRangeStaysPending`). With instance uid 0 the first 214749 tasks are safe, and
  QRM's first answer to the next one, index 214749, is lost (`FirstLostAnswer`). The documentation calls the generated id
  the externally visible one; the create response carries the narrowed and widened value instead, which names the task
  exactly when the id is in range (`CreateThenRestQuery`, `CreateThenTypedQuery`).
- Asking for the cancel reason of a finished task takes its result out of the store and answers with an empty reason; the
  counts are sent to nobody (`ReasonConsumesCounts`, with a run in `CountsAreLost`). The counts of a fetched id are sent
  exactly when it was fetched by a result request whose reply was sent (`CountsSentIff`).
- The typed protocol narrows numbers to an int32. It answers like the REST-like one exactly when the wire id that a create
  command gets is not negative, and when fewer than 2^31 tasks are pending for a query of their number
  (`ProtocolIndependence`); with instance uid 0 the create answers first differ at index 214749 (`CreateAnswersDiffer`).
- The typed protocol accepts negative shot counts and resource names that are empty or hold a slash, which no REST request
  can express (`SpellingDecodes`).
- A gate definition that opens and closes on one line makes the filter swallow lines after it
  (`RightIffOneLinersAreFollowed`, `OneLinerSwallowsNextLine`).

## Model

| member | source | states |
|---|---|---|
| Ids.SameIdIff | examples/qoffload_service/src/Forward.cpp:90-93 | two counter values give the same 64-bit id iff they are congruent modulo 2^60 |
| Ids.SameWireIdIff | examples/qoffload_service/src/Forward.cpp:19 | two counter values give the same int32 wire id iff they are congruent modulo 2^28 |
| Ids.ReturnsUnchangedIffInRange | examples/qoffload_service/src/Forward.cpp:53 | narrowing and sign-extending is the identity on exactly [0, 2^31) and [2^64 - 2^31, 2^64) |
| Ids.Int32Survives | examples/qoffload_service/src/Forward.cpp:80 | widening a client's int32 id and narrowing it again gives it back |
| Ids.KeyMatchesIff | examples/qoffload_service/src/Forward.cpp:53 | a result for one id looks under another iff both share the wire id and the other is in range |
| Ids.OwnKeyOrNone | examples/qoffload_service/src/Forward.cpp:90-93 | among the first 2^28 ids a result finds its own key, or none when its id is out of range |
| Ids.FirstCollision | examples/qoffload_service/src/Forward.cpp:90-93 | the bound is tight: index 2^28 comes back under the key of index 0 |
| Ids.UnwrappedTaskId | examples/qoffload_service/src/Forward.cpp:90-93 | while index * 10000 + uid is below 2^64 it is the id, in range iff it is below 2^31 or among the last 2^31 values |
| Ids.InstancesStayApart | examples/qoffload_service/src/Forward.cpp:92 | unwrapped ids of instances with uids below 10000 agree only for the same index and uid |
| Tasks.TaskStore.AddDirectTask | examples/qoffload_service/src/TaskStore.cpp:8-11 | the entry is inserted or replaced under its forwarded id, nothing else changes |
| Tasks.TaskStore.AddControlTask | examples/qoffload_service/src/TaskStore.cpp:13-18 | a control entry is registered under and for its own id, without destination |
| Tasks.TaskStore.TakePending | examples/qoffload_service/src/TaskStore.cpp:20-31 | returns and removes the entry, or returns none and changes nothing |
| Tasks.TaskStore.Status | examples/qoffload_service/src/TaskStore.cpp:33-47 | waiting before completed or cancelled before not found, by the two maps and the execution status |
| Tasks.TaskStore.PendingCount | examples/qoffload_service/src/TaskStore.cpp:49-52 | the number of pending entries |
| Tasks.TaskStore.StoreCompletedControlTask | examples/qoffload_service/src/TaskStore.cpp:54-57 | the completed task is inserted or replaced under its id |
| Tasks.TaskStore.TakeCompletedControlTask | examples/qoffload_service/src/TaskStore.cpp:59-71 | returns and removes the completed task, or returns none and changes nothing |
| Forwarding.Forward.NextTaskId | examples/qoffload_service/src/Forward.cpp:90-93 | returns the wrapped id of the old counter value and advances the wrapping counter by one |
| Forwarding.Forward.ForwardDirectTask | examples/qoffload_service/src/Forward.cpp:13-34 | the copy has the narrowed id, the result queue as destination, priority 1 on an HPC node, and is otherwise the request; client id and destination are registered |
| Forwarding.Forward.CreateControlTask | examples/qoffload_service/src/Forward.cpp:36-49 | the task gets the narrowed id, the result queue and the priority policy, and is registered as a control task |
| Forwarding.Forward.ProcessResult | examples/qoffload_service/src/Forward.cpp:51-88 | unknown, direct and control results: outcome and whole new store, with QRM's status and counts in a completed task |
| Forwarding.CopyCounts | examples/qoffload_service/src/Forward.cpp:65-68 | copying counts entry by entry, in any order, gives the same counts |
| Forwarding.RestorationInvertsRegistration | examples/qoffload_service/src/Forward.cpp:26-31 | what registration remembers restores the client's id and destination exactly |
| Paths.SplitPath | examples/qoffload_service/src/control/RestControlProtocol.cpp:39-57 | the three loops terminate and compute the path parts |
| Paths.StripPads | examples/qoffload_service/src/control/RestControlProtocol.cpp:40-45 | a path is its stripped form between outer slashes, and the stripped form has none |
| Paths.JoinInvertsSplit | examples/qoffload_service/src/control/RestControlProtocol.cpp:39-57 | joining the parts gives the stripped path; parts hold no slash and the outer ones are not empty |
| Paths.SplitInvertsJoin | examples/qoffload_service/src/control/RestControlProtocol.cpp:39-57 | joined parts, padded with any number of outer slashes, split into the same parts |
| Paths.SplitImage | examples/qoffload_service/src/control/RestControlProtocol.cpp:39-57 | the part lists that paths split into are exactly the slash-free ones with non-empty ends |
| Decimal.ParseAccepts | examples/qoffload_service/src/control/RestControlProtocol.cpp:59-70 | accepted are exactly the non-empty digit strings with a value below 2^64, with that value |
| Decimal.ParseInvertsToString | examples/qoffload_service/src/control/RestControlProtocol.cpp:59-70 | every 64-bit id survives printing and parsing |
| TypedControlProtocol.SetTaskResult | examples/qoffload_service/src/control/TypedControlProtocol.cpp:41-53 | the nested loops copy every circuit's counts and the timestamps |
| TypedControlProtocol.Encode | examples/qoffload_service/src/control/TypedControlProtocol.cpp:100-149 | builds the typed response; a typed client reads the result back from it iff its numbers fit an int32 |
| TypedControlProtocol.ReadInvertsEncodeIffFits | examples/qoffload_service/src/control/TypedControlProtocol.cpp:100-149 | a typed client reads back what was encoded iff id, qubits and count fit an int32 |
| RestControlProtocol.RequiredStringList | examples/qoffload_service/src/control/RestControlProtocol.cpp:115-132 | the strings of the list in order, or none when the field is missing, no list, or holds anything else |
| RestControlProtocol.Decode | examples/qoffload_service/src/control/RestControlProtocol.cpp:208-252 | path, method and fields select the command, as the lemma of RestMeaning characterises it |
| RestMeaning.DecodesIffMeans | examples/qoffload_service/src/control/RestControlProtocol.cpp:86-252 | a request decodes to a command iff path parts, method, kinds and values of the fields are the required ones, and to each error message under its exact condition |
| RestMeaning.FractionalShotsAreRefused | examples/qoffload_service/src/control/RestControlProtocol.cpp:86-91 | a create request whose number of shots has a fraction is an invalid job request |
| RestControlProtocol.SetTaskResult | examples/qoffload_service/src/control/RestControlProtocol.cpp:177-189 | the nested loops build the list of count structures and the timestamps |
| RestControlProtocol.SetResources | examples/qoffload_service/src/control/RestControlProtocol.cpp:197-204 | one structure per resource, in order |
| RestControlProtocol.Encode | examples/qoffload_service/src/control/RestControlProtocol.cpp:254-298 | builds the response body; a REST client reads every result back from it |
| RestControlProtocol.ReadInvertsEncode | examples/qoffload_service/src/control/RestControlProtocol.cpp:254-298 | a REST client reads back every result that was encoded |
| RestControlProtocol.EntriesRead | examples/qoffload_service/src/control/RestControlProtocol.cpp:191-204 | every entry of a resource list reads as its resource, with qubits and flag |
| RestControlProtocol.RestFormDecodes | examples/qoffload_service/src/control/RestControlProtocol.cpp:208-252 | the REST form of an expressible command decodes to that command and reply queue |
| RestControlProtocol.ExpressibleIff | examples/qoffload_service/src/control/RestControlProtocol.cpp:134-252 | a valid command is the meaning of some REST request iff shots are non-negative and the resource name is non-empty and slash-free |
| Control.HandleFetch | examples/qoffload_service/src/Control.cpp:30-59 | waiting leaves the store alone; otherwise the completed entry, if any, is taken and answered by the kind of the command |
| Control.HandlePlain | examples/qoffload_service/src/Control.cpp:24-90 | status, resource, pending count and error answers, which leave the store alone |
| Control.FindsFirst | examples/qoffload_service/include/qoffload/ResourceRegistry.hpp:46-57 | find gives the first resource with the name, and none iff no resource has it |
| Control.InfoIsTold | examples/qoffload_service/src/Control.cpp:67-75 | an info query reads the qubits and flag of the named resource, or RESOURCE NOT FOUND iff there is none |
| Control.PendingIsTold | examples/qoffload_service/src/Control.cpp:77-84 | a pending query reads the number of pending tasks, or RESOURCE NOT FOUND iff the name is not in the registry |
| Control.ListIsTold | examples/qoffload_service/src/Control.cpp:61-65 | a list query reads the five names of the registry in order |
| Control.StatusIsTold | examples/qoffload_service/src/Control.cpp:24-28 | a status query reads waiting, completed or cancelled by the execution flag, or JOB NOT FOUND, by where the id is |
| Control.FetchIsTold | examples/qoffload_service/src/Control.cpp:30-59 | a fetch reads JOB IS WAITING, JOB NOT FOUND, or the counts and reason of the completed task |
| Control.ApplyCreateTaskCommand | examples/qoffload_service/src/Control.cpp:97-108 | every field the command sets, with the circuit files appended in order |
| Control.ExecuteControlCommand | examples/qoffload_service/src/Control.cpp:110-138 | result, outbound task, store and counter after any command |
| Control.Process | examples/qoffload_service/src/Control.cpp:142-157 | the adapter that decoded a request also encodes its answer, around one execution |
| Control.ErrorsChangeNothing | examples/qoffload_service/src/Control.cpp:30-90 | an error answer leaves store and counter unchanged and sends nothing |
| Control.FetchedOnce | examples/qoffload_service/src/Control.cpp:37-58 | after a successful fetch every fetch of either kind for that id is answered not found |
| Control.SpellingDecodes | examples/qoffload_service/src/control/TypedControlProtocol.cpp:58-98 | a typed request and its REST spelling decode to the same command; without a spelling no REST request does |
| Control.AnswerFitsIff | examples/qoffload_service/src/control/TypedControlProtocol.cpp:109-143 | an answer has no number beyond an int32 iff, before the call, the wire id to be created is not negative and fewer than 2^31 tasks are pending for a query of a known resource |
| Control.ProtocolIndependence | examples/qoffload_service/src/Control.cpp:142-157 | both have the same effect and outbound task, and answers that read the same iff that condition on command, store and counter holds |
| Control.CreateAnswersDiffer | examples/qoffload_service/src/control/TypedControlProtocol.cpp:109-111 | with instance uid 0 and index 214749 the typed create answer is negative and the REST one its 64-bit image |
| Control.CreateThenRestQuery | examples/qoffload_service/src/Control.cpp:121-129 | the number in the create response, put into a REST path, names the created task iff the id is in range (below 2^31 when it came from the typed protocol), and is then answered that the task waits |
| Control.CreateThenTypedQuery | examples/qoffload_service/src/control/TypedControlProtocol.cpp:70-81 | the number in either create response, put into a typed query, names the created task iff the id is in range, and is then answered that the task waits |
| QOffloadRuns.InvKept | examples/qoffload_service/src/QOffload.cpp:69-179 | every step of every worker, client and of QRM keeps the invariant while at most 2^60 numbers were issued |
| QOffloadRuns.ReachableInv | examples/qoffload_service/src/QOffload.cpp:69-179 | the invariant holds in every reachable state with at most 2^60 numbers issued |
| QOffloadTheorems.UndisturbedIsRight | examples/qoffload_service/src/Forward.cpp:53-57 | up to 2^60 ids, the entry of a task is taken by QRM's answer to it if no echo and no other task's result comes back under its id |
| QOffloadTheorems.CollidesIff | examples/qoffload_service/src/Forward.cpp:53 | the result for one task comes back under the id of another iff their indices agree modulo 2^28 and the other's id is in range |
| QOffloadTheorems.HandoutIsRight | examples/qoffload_service/src/QOffload.cpp:146-178 | up to 2^60 ids, what was sent for such a task answers exactly that task, under the id and at the destination of its direct request |
| QOffloadTheorems.NoMisrouting | examples/qoffload_service/src/QOffload.cpp:146-178 | up to 2^28 ids and without crossing submissions, what was sent to a client queue answers exactly one forwarded task, under the id and at the destination of its direct request |
| QOffloadTheorems.OutboundIsSubmission | examples/qoffload_service/src/Forward.cpp:16-24 | every task at QRM is its submission under the narrowed id, with the result queue as destination, priority 1 on an HPC node, and no other change |
| QOffloadTheorems.RoutedRightIffInRange | examples/qoffload_service/src/Forward.cpp:51-88 | up to 2^60 ids, an answer of QRM that found an entry found its own iff the id of its request is in range |
| QOffloadTheorems.CorrelatedWithOwnTask | examples/qoffload_service/src/Forward.cpp:53-57 | up to 2^28 ids and without crossing submissions, every entry was taken by QRM's answer to its own task |
| QOffloadTheorems.EchoCrosses | examples/qoffload_service/src/QOffload.cpp:171-172 | a handout that returns through the result queue finds the entry of another submission only if its request crosses that submission |
| QOffloadTheorems.EchoFindsNothing | examples/qoffload_service/src/QOffload.cpp:150-172 | without crossing submissions a handout that returns through the result queue finds no entry |
| QOffloadRounds.MisroutedIffDisturbed | examples/qoffload_service/src/Forward.cpp:51-57 | up to 2^60 submissions are misrouted in some run iff one of them crosses another or the result for one comes back under the id of another |
| QOffloadRounds.CollidingRun | examples/qoffload_service/src/Forward.cpp:53-57 | whenever the result for one submission comes back under the id of another there is a run in which it takes that entry |
| QOffloadRounds.MisroutedIffCrossed | examples/qoffload_service/src/Forward.cpp:26-31 | up to 2^28 submissions are misrouted in some run iff one of them crosses another: it names the result queue and the other's id, and its own id is in range |
| QOffloadRounds.CrossingRun | examples/qoffload_service/src/QOffload.cpp:146-178 | whenever one submission crosses another there is a run that puts its counts under way to the other's client |
| QOffloadRounds.MisroutedByTwo | examples/qoffload_service/src/QOffload.cpp:146-178 | a run with two direct requests in which the first client is sent the counts of the second under its own task id |
| QOffloadRounds.MisroutedBeyondBound | examples/qoffload_service/src/Forward.cpp:90-93 | a run with 2^28 + 1 ids and no crossing sends the last answer to the first client |
| QOffloadTheorems.PendingUntilAnswered | examples/qoffload_service/src/Forward.cpp:26-33 | every task at QRM is registered with its own entry and pending until the entry is taken; up to 2^28 ids and without crossings its own answer takes it |
| QOffloadTheorems.FoundIffFirstAndInRange | examples/qoffload_service/src/Forward.cpp:54-57 | up to 2^28 ids an answer of QRM finds an entry iff its id is in range and the entry was not taken before, without crossings by an answer to the same task |
| QOffloadTheorems.OutOfRangeStaysPending | examples/qoffload_service/src/Forward.cpp:53-57 | a registered id out of range is pending in every reachable state up to 2^60 ids |
| QOffloadRounds.LostAnswer | examples/qoffload_service/src/Forward.cpp:53-57 | for up to 2^28 submissions and any one whose id is out of range, a run in which QRM's first answer to it is dropped while it stays pending |
| QOffloadRounds.FirstLostAnswer | examples/qoffload_service/src/Forward.cpp:90-93 | with instance uid 0 the first 214749 ids are in range, and a run loses the answer to index 214749 |
| QOffloadContinuations.CanBeTakenIffInRange | examples/qoffload_service/src/Forward.cpp:53-57 | from every reachable state the untaken entry of a task at QRM can still be taken iff its id is in range |
| QOffloadContinuations.DirectCanBeAnswered | examples/qoffload_service/src/QOffload.cpp:149-177 | from every reachable state the client of an undisturbed direct task in range can still be sent QRM's payload, under its id and at its destination, after everything that waits was processed |
| QOffloadContinuations.ControlCanBeAnswered | examples/qoffload_service/src/QOffload.cpp:105-177 | and a control client can still fetch the counts of its task, after all waiting control requests and results were processed |
| QOffloadTheorems.UnknownIsLostOrRepeated | examples/qoffload_service/src/Forward.cpp:55-57 | an answer of QRM is dropped as unknown only when its id is out of range or its entry was taken before: up to 2^28 ids and without crossings, by an answer to the same task |
| QOffloadTheorems.AnsweredAtMostOnce | examples/qoffload_service/src/QOffload.cpp:146-178 | no id is handed out twice, fetched twice or both; pending and completed ids are disjoint |
| QOffloadTheorems.Conservation | examples/qoffload_service/src/TaskStore.cpp:8-71 | registered = pending + in transfer + handed out + completed + fetched, and pending = registered - correlated, up to 2^60 ids |
| QOffloadTheorems.FetchedTask | examples/qoffload_service/src/Forward.cpp:59-72 | a fetched entry belongs to a control task and has the id, status and counts of the first result correlated with its id |
| QOffloadTheorems.CompletedTask | examples/qoffload_service/src/Forward.cpp:59-72 | so has every completed entry of every reachable state |
| QOffloadStatus.StatusOfStore | examples/qoffload_service/src/TaskStore.cpp:33-47 | in every reachable state a completed id has status completed iff QRM's first correlated result says that it was executed, and cancelled otherwise |
| QOffloadStatus.StatusRepliesAreFaithful | examples/qoffload_service/src/Control.cpp:24-28 | a sent status response answers its status query, and completed or cancelled is what QRM's first correlated result says |
| QOffloadReplies.RepliesAreFaithful | examples/qoffload_service/src/Control.cpp:30-43 | a sent response that carries counts answers one result request through its protocol and queue, with the counts of the first result correlated with the requested id, up to 2^28 ids and without crossings QRM's answer to that task |
| QOffloadReplies.CountsAreSentOnce | examples/qoffload_service/src/Control.cpp:37-42 | no two responses with counts report the same fetch or the same id |
| QOffloadReplies.ReasonConsumesCounts | examples/qoffload_service/src/Control.cpp:45-59 | a cancel-reason query of a finished task takes its counts, which no response carries, and is answered with an empty reason |
| QOffloadReplies.ReportedFetch | examples/qoffload_service/src/Control.cpp:30-59 | the reply to a fetch carries the counts iff it was a result request, and an empty reason otherwise |
| QOffloadReplies.CountsSentIff | examples/qoffload_service/src/Control.cpp:30-59 | the counts of a fetched id were sent to a client iff a result request fetched them and its reply was sent |
| QOffloadContinuations.CountsAreDelivered | examples/qoffload_service/src/Control.cpp:30-43 | a run in which a result request is sent QRM's counts |
| QOffloadContinuations.CountsAreLost | examples/qoffload_service/src/Control.cpp:45-59 | a run in which a cancel-reason request uses up the same counts and is sent an empty reason |
| QOffloadCreations.CreateRepliesAreFaithful | examples/qoffload_service/src/Control.cpp:118-131 | a create reply goes to the queue of its request and carries the number of a task registered for that request |
| QOffloadCreations.CreateNumbersDiffer | examples/qoffload_service/src/Control.cpp:125-129 | up to 2^28 ids no two create replies carry the same number |
| QOffloadCreations.CreatedTaskIs | examples/qoffload_service/src/Control.cpp:97-129 | the task that QRM gets for a create command, field by field |
| QOffloadIntake.DirectRequestsAreNumberedOnce | examples/qoffload_service/src/QOffload.cpp:76-97 | direct requests wait in order, and the readable ones are numbered once each in that order, and nothing else is |
| QOffloadIntake.ControlRequestsAreAnsweredOnce | examples/qoffload_service/src/QOffload.cpp:105-141 | control requests wait in order, and the readable ones are answered once each in that order, by sending to the queue they name |
| QOffloadTheorems.FetchAnswersOwnTask | examples/qoffload_service/src/Forward.cpp:59-72 | up to 2^28 ids and without crossings, what is fetched is QRM's answer to the control task created under the fetched id |
| QOffloadTheorems.OnlyForward | examples/qoffload_service/src/TaskStore.cpp:20-71 | in every continuation of every run an id only moves forward and keeps its first correlation |
| QOffloadTheorems.StageMeans | examples/qoffload_service/src/TaskStore.cpp:20-71 | the stages are waiting, in transfer, completed, and handed out or fetched, one at a time |
| QOffloadTheorems.NotFoundWindow | examples/qoffload_service/src/Forward.cpp:54-72 | an unfetched control id reads as not found iff the result worker is between take and store for it |
| QOffloadTheorems.SeenIsTaken | examples/qoffload_service/src/Control.cpp:33-37 | a fetch that saw a completed task finds it when it takes, whatever came between |
| QOffloadTheorems.ControlErrorsChangeNothing | examples/qoffload_service/src/Control.cpp:30-59 | a control step that ends in an error answer leaves the store unchanged |
| QOffloadRounds.DirectRoundIsForwarding | examples/qoffload_service/src/QOffload.cpp:90-92 | the direct worker's steps compose to forwardDirectTask |
| QOffloadRounds.ResultRoundIsProcessing | examples/qoffload_service/src/QOffload.cpp:165-169 | the result worker's steps compose to processResult |
| QOffloadRounds.ControlRoundIsExecution | examples/qoffload_service/src/QOffload.cpp:121-131 | the control worker's steps compose to the execution of the decoded command, outbound task included |
| QOffloadRounds.ControlRequestIsProcessed | examples/qoffload_service/src/Control.cpp:142-157 | reading a request and working it off is decoding, one execution and encoding by the adapter that the request selects |
| QOffloadRounds.LateResultIsFetched | examples/qoffload_service/src/Control.cpp:33-37 | a fetch whose check found nothing still gets a result that is stored before it takes |
| InMemoryTransport.SharedState.Send | src/transport/InMemoryTransport.cpp:53-82 | status codes in order of the checks; on success the message is pushed, as in the thread model, and nothing else changes |
| InMemoryTransport.SharedState.Take | src/transport/InMemoryTransport.cpp:129-149 | unavailable, timeout or the oldest message, by the function that the thread model uses; the map keeps no empty queue |
| InMemoryTransport.SharedState.Shutdown | src/transport/InMemoryTransport.cpp:167-183 | the stop flag is set, the queues stay, and only the first call notifies |
| TransportThreads.InvKept | src/transport/InMemoryTransport.cpp:69-147 | every step of any number of threads keeps mutual exclusion, FIFO order, non-empty queues and wakeups |
| TransportThreads.NoWakeupIsLost | src/transport/InMemoryTransport.cpp:102-127 | no receiver sleeps on a non-empty address or stopped transport unless a notify_all is outstanding |
| TransportThreads.ShutdownReleasesEveryone | src/transport/InMemoryTransport.cpp:167-183 | after the stop, once no notify_all is outstanding, nobody sleeps |
| TransportThreads.StoppedReceiversReturn | src/transport/InMemoryTransport.cpp:114-132 | in every run after the stop a receiver has returned unavailable once it took its remaining steps, four at most |
| TransportThreads.AwakeThreadsCanMove | src/transport/InMemoryTransport.cpp:53-183 | no deadlock: a thread in a call that is not asleep can move, or the holder of the lock can |
| TransportThreads.FifoPerAddress | src/transport/InMemoryTransport.cpp:76-147 | per address, accepted = received followed by what waits |
| TransportThreads.StepRefinesAtomic | src/transport/InMemoryTransport.cpp:53-149 | every step is one operation of an atomic transport or none, with exact outcomes |
| TransportThreads.UntimedNeverTimesOut | src/transport/InMemoryTransport.cpp:111-140 | a receive without a timeout never reports one |
| TransportCalls.CallsEndRight | src/transport/InMemoryTransport.cpp:53-149 | in every run every finished call ended as its arguments allow: argument errors in order, Timeout only for a zero timeout or after a timed wait expired |
| TransportCalls.TimeoutsAreDue | src/transport/InMemoryTransport.cpp:115-140 | a receive that reported a timeout had timeout zero, or one of its timed waits expired since it was called |
| TransportCalls.PollsNeverSleep | src/transport/InMemoryTransport.cpp:118-120 | a receive with timeout zero never waits |
| TransportCalls.EventsServeCalls | src/transport/InMemoryTransport.cpp:53-149 | what is put into or taken out of a queue is what the call of the thread named |
| TransportCalls.ReceivesWhatIsSentLater | src/transport/InMemoryTransport.cpp:99-149 | from every running state a receive without timeout or with a non-zero one on an empty address can still receive just the message that another thread sends afterwards |
| TransportCalls.ExpiredTimesOut | src/transport/InMemoryTransport.cpp:122-140 | a timed wait that expires with nothing there ends in Timeout |
| TransportThreads.StopIsAbsorbing | src/transport/InMemoryTransport.cpp:70-73 | after the stop no run accepts or delivers anything |
| RabbitMqAck.AckState.Ack | src/transport/RabbitMqSimpleTransport.cpp:252-265 | succeeds iff the delivery is outstanding and the broker operation works, with the effect of one call in the model of all messages |
| RabbitMqAck.AckState.Nack | src/transport/RabbitMqSimpleTransport.cpp:266-279 | the same for rejection, with or without requeue |
| RabbitMqAck.CallsActOnTheirMessage | src/transport/RabbitMqSimpleTransport.cpp:246-281 | among many messages a call acts on its own as if that were alone and leaves the others as they were |
| RabbitMqAck.AckAtMostOnce | src/transport/RabbitMqSimpleTransport.cpp:246-281 | over any calls on any copies no message completes twice, and deliveries = acked + requeued + dropped + outstanding |
| RabbitMqAck.SucceedsIffFirst | src/transport/RabbitMqSimpleTransport.cpp:252-279 | a call succeeds iff its broker operation does and no earlier call for the message succeeded |
| RabbitMqReceive.ReceiveTimed | src/transport/RabbitMqSimpleTransport.cpp:172-198 | every wait ends by the deadline and is the longest such slice up to 200 ms; the loop ends with one outcome and its cause, cancelling once unless an exception escapes |
| RabbitMqReceive.ReceiveUntimed | src/transport/RabbitMqSimpleTransport.cpp:159-170 | only a message, an exception or the stop ends the loop, with the same cancellation |
| RabbitMqEnvelope.ToBasicMessage | src/transport/RabbitMqSimpleTransport.cpp:285-309 | sets exactly the non-empty parts, all headers as strings |
| RabbitMqEnvelope.FromBasicMessage | src/transport/RabbitMqSimpleTransport.cpp:312-339 | reads exactly the set parts and the string headers |
| RabbitMqEnvelope.SetsWhatIsThere | src/transport/RabbitMqSimpleTransport.cpp:285-309 | part by part, a message holds exactly what the envelope has |
| RabbitMqEnvelope.ReadsWhatIsSet | src/transport/RabbitMqSimpleTransport.cpp:312-339 | part by part, an envelope has what is set in the message, and exactly its string headers |
| RabbitMqEnvelope.RoundTrip | src/transport/RabbitMqSimpleTransport.cpp:285-339 | the round trip is the identity iff the reply address is not a nameless one, which becomes absent |
| RabbitMqEnvelope.ForwardedReadsTheSame | src/transport/RabbitMqSimpleTransport.cpp:285-339 | receiving, sending on and receiving again gives the same envelope up to that |
| GateStrip.StripSpuriousGateDefs | examples/qrm_workflow/src/Compiler.cpp:26-46 | the line loop with its block flag computes the stripped text |
| GateStrip.StrippedLines | examples/qrm_workflow/src/Compiler.cpp:31-44 | the output lines are a subsequence of the input lines and none opens a gate |
| GateStrip.OpensAndCloses | examples/qrm_workflow/src/Compiler.cpp:32-38 | a line opens a definition iff it holds "gate " and an opening brace, and closes one iff it holds a closing brace |
| GateStrip.HalfOpeningsStay | examples/qrm_workflow/src/Compiler.cpp:32-43 | a line with only one of "gate " and an opening brace stays |
| GateStrip.StrippingIsIdempotent | examples/qrm_workflow/src/Compiler.cpp:26-46 | stripping twice is stripping once |
| GateStrip.BlocksAreRemoved | examples/qrm_workflow/src/Compiler.cpp:32-42 | of any text made of plain lines and definitions that open and close on different lines, the text of the plain lines remains |
| GateStrip.RightIffOneLinersAreFollowed | examples/qrm_workflow/src/Compiler.cpp:32-42 | with one-line definitions allowed, the output is right iff each of them is last or followed by another opening line |
| GateStrip.OneLinerSwallowsNextLine | examples/qrm_workflow/src/Compiler.cpp:32-36 | a text of two lines, the first opening and closing a definition, becomes the empty text |

## Left out

- Start and stop of the workers (`running_`, `workers_`): a stopped worker is one that takes no more steps, which every run allows.
- The three worker loops are a transition system rather than methods on objects, since their point is the interleaving; each worker's steps are shown to compose to the methods of the classes.
- Refused or unreadable messages are modelled as lost, without their error texts and log lines. A response that a control
  client lets be sent to one of the service's own queues, or a result sent to one of its request queues, is unreadable
  there: it has a field that the expected message lacks, and the JSON parser rejects unknown fields.
- Locks are taken as atomic steps for `TaskStore`; memory order of the counter beyond the atomicity of `fetch_add` is not modelled.
- Real time: the in-memory timeout may expire at any moment after falling asleep, and nothing is said about latency or fairness.
- Reasons inside status values: only the codes are kept.
- Protobuf and JSON codecs, `Messenger`, configuration, logging and `main`: messages are values.
- Doubles: a number is a real or not finite, so a pending count above 2^53 is not rounded; execution time is an opaque real.
- Broker internals: a failed acknowledgement has no effect at the broker, and a requeued message that is delivered again counts as a new delivery.
- The zero-timeout poll, channel creation and the send path of the RabbitMQ transport: single library calls.
- The rest of the QRM workflow example: passes and forwarding over foreign libraries.
