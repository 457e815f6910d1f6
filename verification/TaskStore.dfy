/** The pending tasks and the completed control results, behind one lock. */
module Tasks {
  import opened Ids
  import opened Messages

  datatype PendingTaskKind = DirectTask | ControlTask

  datatype TaskStatus = Waiting | Completed | Cancelled | NotFound

  datatype PendingTask = PendingTask(
    kind: PendingTaskKind,
    forwardedTaskId: uint64,
    originalTaskId: uint64,
    originalResultDestination: string)

  datatype CompletedControlTask = CompletedControlTask(
    taskId: uint64,
    executionStatus: bool,
    resultCounts: seq<Counts>,
    cancelReason: string,
    timestampScheduled: string,
    timestampSubmitted: string,
    timestampCompleted: string)

  /** The two maps as one value; each function below is what one locked call does to them. */
  datatype Store = Store(
    pending: map<uint64, PendingTask>,
    completed: map<uint64, CompletedControlTask>)
  {
    function AddPending(task: PendingTask): Store {
      this.(pending := pending[task.forwardedTaskId := task])
    }

    function Pending(id: uint64): Option<PendingTask> {
      if id in pending then Some(pending[id]) else None
    }

    function DropPending(id: uint64): Store {
      this.(pending := pending - {id})
    }

    function Status(id: uint64): TaskStatus {
      if id in pending then Waiting
      else if id !in completed then NotFound
      else if completed[id].executionStatus then Completed
      else Cancelled
    }

    function AddCompleted(task: CompletedControlTask): Store {
      this.(completed := completed[task.taskId := task])
    }

    function Result(id: uint64): Option<CompletedControlTask> {
      if id in completed then Some(completed[id]) else None
    }

    function DropCompleted(id: uint64): Store {
      this.(completed := completed - {id})
    }
  }

  const EMPTY_STORE := Store(map[], map[])

  function ControlEntry(id: uint64): PendingTask {
    PendingTask(ControlTask, id, id, "")
  }

  class TaskStore {
    var pending: map<uint64, PendingTask>
    var completedControlTasks: map<uint64, CompletedControlTask>

    function Contents(): Store
      reads this
    {
      Store(pending, completedControlTasks)
    }

    constructor ()
      ensures Contents() == EMPTY_STORE
    {
      pending := map[];
      completedControlTasks := map[];
    }

    method AddDirectTask(task: PendingTask)
      modifies this
      ensures Contents() == old(Contents()).AddPending(task)
    {
      pending := pending[task.forwardedTaskId := task];
    }

    method AddControlTask(taskId: uint64)
      modifies this
      ensures Contents() == old(Contents()).AddPending(ControlEntry(taskId))
    {
      AddDirectTask(PendingTask(ControlTask, taskId, taskId, ""));
    }

    method TakePending(taskId: uint64) returns (task: Option<PendingTask>)
      modifies this
      ensures task == old(Contents()).Pending(taskId)
      ensures Contents() == old(Contents()).DropPending(taskId)
    {
      if taskId !in pending {
        assert pending - {taskId} == pending;
        return None;
      }
      task := Some(pending[taskId]);
      pending := pending - {taskId};
    }

    method Status(taskId: uint64) returns (status: TaskStatus)
      ensures status == Contents().Status(taskId)
    {
      if taskId in pending {
        return Waiting;
      }
      if taskId !in completedControlTasks {
        return NotFound;
      }
      return if completedControlTasks[taskId].executionStatus then Completed else Cancelled;
    }

    method PendingCount() returns (count: nat)
      ensures count == |Contents().pending|
    {
      count := |pending|;
    }

    method StoreCompletedControlTask(result: CompletedControlTask)
      modifies this
      ensures Contents() == old(Contents()).AddCompleted(result)
    {
      completedControlTasks := completedControlTasks[result.taskId := result];
    }

    method TakeCompletedControlTask(taskId: uint64) returns (result: Option<CompletedControlTask>)
      modifies this
      ensures result == old(Contents()).Result(taskId)
      ensures Contents() == old(Contents()).DropCompleted(taskId)
    {
      if taskId !in completedControlTasks {
        assert completedControlTasks - {taskId} == completedControlTasks;
        return None;
      }
      result := Some(completedControlTasks[taskId]);
      completedControlTasks := completedControlTasks - {taskId};
    }
  }
}
