/** Forward: numbers tasks, registers them, and correlates returned results. */
module Forwarding {
  import opened Ids
  import opened Messages
  import opened Tasks

  /** The direct client's task as QRM sees it. */
  function ForwardedTask(request: QuantumTask, id: uint64, config: Config): QuantumTask {
    request.(taskId := ToInt32(id),
             resultDestination := config.resultQueue,
             priority := if config.hpcNode then 1 else request.priority)
  }

  /** What is remembered about a direct task until its result returns. */
  function DirectEntry(request: QuantumTask, id: uint64): PendingTask {
    PendingTask(DirectTask, id, ToUint64(request.taskId), request.resultDestination)
  }

  /** The result as the direct client gets it. */
  function RestoredResult(result: QuantumResult, entry: PendingTask): QuantumResult {
    result.(taskId := ToInt32(entry.originalTaskId), destination := entry.originalResultDestination)
  }

  /** The result as it is kept for the control client. */
  function CompletedFrom(result: QuantumResult, entry: PendingTask): CompletedControlTask {
    CompletedControlTask(entry.originalTaskId, result.executionStatus, result.results, "", "", "", "")
  }

  /** A direct task's id and destination survive registration and restoration unchanged. */
  lemma RestorationInvertsRegistration(request: QuantumTask, id: uint64, result: QuantumResult)
    ensures RestoredResult(result, DirectEntry(request, id))
         == result.(taskId := request.taskId, destination := request.resultDestination)
  {
    Int32Survives(request.taskId);
  }

  datatype Outcome =
    | UnknownTask
    | DirectResult(result: QuantumResult, destination: string)
    | ControlResultStored

  class Forward {
    const instanceUid: uint64
    var nextTaskIndex: uint64

    constructor (instanceUid: uint64)
      ensures this.instanceUid == instanceUid && nextTaskIndex == 0
    {
      this.instanceUid := instanceUid;
      nextTaskIndex := 0;
    }

    method NextTaskId() returns (id: uint64)
      modifies this
      ensures id == TaskId(old(nextTaskIndex), instanceUid)
      ensures nextTaskIndex == ToUint64(old(nextTaskIndex) + 1)
    {
      var index: int := nextTaskIndex;
      nextTaskIndex := ToUint64(nextTaskIndex + 1);
      id := ToUint64(ToUint64(index * 10000) + instanceUid);
    }

    method ForwardDirectTask(request: QuantumTask, tasks: TaskStore, config: Config) returns (forwarded: QuantumTask)
      modifies this, tasks
      ensures nextTaskIndex == ToUint64(old(nextTaskIndex) + 1)
      ensures forwarded.resultDestination == config.resultQueue
      ensures forwarded.priority == if config.hpcNode then 1 else request.priority
      ensures var id := TaskId(old(nextTaskIndex), instanceUid);
              && forwarded.taskId == ToInt32(id)
              && forwarded == ForwardedTask(request, id, config)
              && tasks.Contents() == old(tasks.Contents()).AddPending(DirectEntry(request, id))
    {
      var forwardedTaskId := NextTaskId();
      forwarded := request.(taskId := ToInt32(forwardedTaskId));
      forwarded := forwarded.(resultDestination := config.resultQueue);
      if config.hpcNode {
        forwarded := forwarded.(priority := 1);
      }
      tasks.AddDirectTask(
        PendingTask(DirectTask, forwardedTaskId, ToUint64(request.taskId), request.resultDestination));
    }

    method CreateControlTask(task: QuantumTask, tasks: TaskStore, config: Config) returns (created: QuantumTask)
      modifies this, tasks
      ensures nextTaskIndex == ToUint64(old(nextTaskIndex) + 1)
      ensures created.resultDestination == config.resultQueue
      ensures created.priority == if config.hpcNode then 1 else task.priority
      ensures var id := TaskId(old(nextTaskIndex), instanceUid);
              && created.taskId == ToInt32(id)
              && created == ForwardedTask(task, id, config)
              && tasks.Contents() == old(tasks.Contents()).AddPending(ControlEntry(id))
    {
      var taskId := NextTaskId();
      created := task.(taskId := ToInt32(taskId));
      created := created.(resultDestination := config.resultQueue);
      if config.hpcNode {
        created := created.(priority := 1);
      }
      tasks.AddControlTask(taskId);
    }

    method ProcessResult(result: QuantumResult, tasks: TaskStore) returns (outcome: Outcome)
      modifies tasks
      ensures var before := old(tasks.Contents());
              var key := ToUint64(result.taskId);
              match before.Pending(key)
              case None =>
                outcome == UnknownTask && tasks.Contents() == before
              case Some(entry) =>
                if entry.kind.ControlTask? then
                  && outcome == ControlResultStored
                  && tasks.Contents() == before.DropPending(key).AddCompleted(
                       CompletedControlTask(entry.originalTaskId, result.executionStatus, result.results,
                                            "", "", "", ""))
                else
                  && outcome == DirectResult(RestoredResult(result, entry), entry.originalResultDestination)
                  && tasks.Contents() == before.DropPending(key)
    {
      var forwardedTaskId := ToUint64(result.taskId);
      var pending := tasks.TakePending(forwardedTaskId);
      if pending.None? {
        assert tasks.Contents().pending == old(tasks.Contents()).pending;
        return UnknownTask;
      }
      var entry := pending.value;
      if entry.kind.ControlTask? {
        var resultCounts: seq<Counts> := [];
        var i := 0;
        while i < |result.results|
          invariant 0 <= i <= |result.results|
          invariant resultCounts == result.results[..i]
          modifies {}
        {
          var counts := CopyCounts(result.results[i]);
          resultCounts := resultCounts + [counts];
          i := i + 1;
        }
        assert resultCounts == result.results;
        tasks.StoreCompletedControlTask(
          CompletedControlTask(entry.originalTaskId, result.executionStatus, resultCounts, "", "", "", ""));
        return ControlResultStored;
      }
      var restored := result.(taskId := ToInt32(entry.originalTaskId));
      restored := restored.(destination := entry.originalResultDestination);
      return DirectResult(restored, entry.originalResultDestination);
    }
  }

  /** The inner loop of result processing: entries are copied one at a time, in whatever order the map gives. */
  method CopyCounts(source: Counts) returns (counts: Counts)
    ensures counts == source
  {
    counts := map[];
    var rest := source.Keys;
    while rest != {}
      invariant rest <= source.Keys
      invariant counts == map state | state in source.Keys - rest :: source[state]
      decreases |rest|
    {
      var state :| state in rest;
      counts := counts[state := source[state]];
      rest := rest - {state};
    }
  }
}
