/** The persisted task record (pkg/model/execution_task.go). `TaskStatus`
    is an integer in Go; the five named codes are the constants below. */
module TaskModel {
  import opened Wrappers

  const TaskPending: int := 0
  const TaskRunning: int := 1
  const TaskSuccess: int := 2
  const TaskFailed: int := 3
  const TaskCancelled: int := 4

  /** One row of `execution_task`. Times are nanoseconds; `duration` is in
      milliseconds. `taskId` is unique across the table. */
  datatype ExecutionTask = ExecutionTask(
    taskId: string,
    resourceId: int,
    action: string,
    status: int,
    output: string,
    error: string,
    startedAt: Option<int>,
    finishedAt: Option<int>,
    duration: int)

  /** A failed or cancelled task may be retried. */
  predicate IsRetryable(t: ExecutionTask) {
    t.status == TaskFailed || t.status == TaskCancelled
  }

  /** The codes are numbered from zero in declaration order, and of the five
      only Failed and Cancelled are retryable. */
  lemma RetryableCodes(t: ExecutionTask)
    requires 0 <= t.status <= 4
    ensures [TaskPending, TaskRunning, TaskSuccess, TaskFailed, TaskCancelled] == [0, 1, 2, 3, 4]
    ensures IsRetryable(t) <==> t.status == 3 || t.status == 4
    ensures !IsRetryable(t) <==> t.status in {TaskPending, TaskRunning, TaskSuccess}
  {
  }
}
