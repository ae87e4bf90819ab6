/** The task record table (pkg/dao/execution_task.go). Rows are keyed by the
    unique `task_id`; `order` lists the task IDs in creation order, which is
    the order of `created_at` as long as the clock does not go back. Every
    update is by `task_id` and matching no row is no error. */
module TaskDao {
  import opened Wrappers
  import opened TaskModel

  /** gorm's error for a query that finds no row. */
  const RecordNotFound: string := "record not found"

  /** The driver's error for an insert that breaks the unique index on
      `execution_task.task_id`. The real text depends on the driver. */
  const DuplicateTaskId: string := "duplicate key value violates unique index execution_task.task_id"

  const NanosPerMilli: int := 1_000_000

  /** `Duration.Milliseconds`: the quotient truncated toward zero. */
  function Milliseconds(d: int): int {
    if d >= 0 then d / NanosPerMilli else -((-d) / NanosPerMilli)
  }

  /** Truncation toward zero: the result is the whole milliseconds of the
      magnitude, with the sign of the input. */
  lemma MillisecondsMeaning(d: int)
    ensures Milliseconds(-d) == -Milliseconds(d)
    ensures d >= 0 ==> 0 <= Milliseconds(d) && Milliseconds(d) * NanosPerMilli <= d < (Milliseconds(d) + 1) * NanosPerMilli
  {
  }

  /** The record Create inserts. */
  function NewTask(taskId: string, resourceId: int, action: string): ExecutionTask {
    ExecutionTask(taskId, resourceId, action, TaskPending, "", "", None, None, 0)
  }

  function WithStatus(t: ExecutionTask, status: int): ExecutionTask {
    t.(status := status)
  }

  /** The row after Start at `now`. */
  function Started(t: ExecutionTask, now: int): ExecutionTask {
    t.(status := TaskRunning, startedAt := Some(now))
  }

  /** The row after Complete at `now`: the duration runs from the start
      when there is one and is zero otherwise. */
  function Completed(t: ExecutionTask, success: bool, output: string, errMsg: string, now: int): ExecutionTask {
    var duration := if t.startedAt.Some? then Milliseconds(now - t.startedAt.value) else 0;
    t.(status := if success then TaskSuccess else TaskFailed, output := output, error := errMsg,
       finishedAt := Some(now), duration := duration)
  }

  /** The row after Reset. */
  function Cleared(t: ExecutionTask): ExecutionTask {
    t.(status := TaskPending, output := "", error := "", startedAt := None, finishedAt := None, duration := 0)
  }

  /** `s` without the entries equal to `k`. */
  function Without(s: seq<string>, k: string): (r: seq<string>)
    ensures forall x :: x in r <==> x in s && x != k
  {
    if s == [] then [] else (if s[0] == k then [] else [s[0]]) + Without(s[1..], k)
  }

  /** The two list queries of the DAO. */
  datatype Query = ByResource(resourceId: int) | FailedOnes

  predicate Matches(q: Query, t: ExecutionTask) {
    match q
    case ByResource(r) => t.resourceId == r
    case FailedOnes => t.status == TaskFailed
  }

  /** The positions at or after `i` in `order` whose tasks match `q`, newest
      (latest created) first. */
  function Positions(order: seq<string>, tasks: map<string, ExecutionTask>, q: Query, i: nat): (ps: seq<nat>)
    requires i <= |order|
    requires forall k :: k in order ==> k in tasks
    ensures forall a :: 0 <= a < |ps| ==> i <= ps[a] < |order| && Matches(q, tasks[order[ps[a]]])
    ensures forall a, b :: 0 <= a < b < |ps| ==> ps[a] > ps[b]
    ensures forall j :: i <= j < |order| && Matches(q, tasks[order[j]]) ==> j in ps
    decreases |order| - i
  {
    if i == |order| then []
    else Positions(order, tasks, q, i + 1) + (if Matches(q, tasks[order[i]]) then [i] else [])
  }

  /** The tasks at the given positions, in that order. */
  function TasksAt(order: seq<string>, tasks: map<string, ExecutionTask>, ps: seq<nat>): (r: seq<ExecutionTask>)
    requires forall a :: 0 <= a < |ps| ==> ps[a] < |order| && order[ps[a]] in tasks
    ensures |r| == |ps| && forall a :: 0 <= a < |ps| ==> r[a] == tasks[order[ps[a]]]
  {
    seq(|ps|, a requires 0 <= a < |ps| => tasks[order[ps[a]]])
  }

  lemma TasksAtSnoc(order: seq<string>, tasks: map<string, ExecutionTask>, ps: seq<nat>, i: nat)
    requires forall a :: 0 <= a < |ps| ==> ps[a] < |order| && order[ps[a]] in tasks
    requires i < |order| && order[i] in tasks
    ensures TasksAt(order, tasks, ps + [i]) == TasksAt(order, tasks, ps) + [tasks[order[i]]]
  {
  }

  /** One step of the listing loop: position `i` joins the listing at its
      end when its task matches. */
  lemma ListStep(order: seq<string>, tasks: map<string, ExecutionTask>, q: Query, i: nat)
    requires i < |order|
    requires forall k :: k in order ==> k in tasks
    ensures TasksAt(order, tasks, Positions(order, tasks, q, i)) ==
      TasksAt(order, tasks, Positions(order, tasks, q, i + 1)) + (if Matches(q, tasks[order[i]]) then [tasks[order[i]]] else [])
  {
    var ps := Positions(order, tasks, q, i + 1);
    if Matches(q, tasks[order[i]]) {
      TasksAtSnoc(order, tasks, ps, i);
    } else {
      assert Positions(order, tasks, q, i) == ps;
    }
  }

  class ExecutionTaskDao {
    var tasks: map<string, ExecutionTask>
    var order: seq<string>

    /** Every row is filed under its own task ID and listed in `order`, and
        `order` names only rows. */
    predicate Valid()
      reads this`tasks, this`order
    {
      (forall k :: k in tasks ==> tasks[k].taskId == k && k in order) &&
      (forall k :: k in order ==> k in tasks)
    }

    constructor ()
      ensures Valid() && tasks == map[] && order == []
    {
      tasks := map[];
      order := [];
    }

    /** Inserts a pending record; the unique index refuses a second record
        with the same task ID. The record is returned either way. */
    method Create(taskId: string, resourceId: int, action: string) returns (task: ExecutionTask, err: Option<string>)
      requires Valid()
      modifies this`tasks, this`order
      ensures Valid()
      ensures task == NewTask(taskId, resourceId, action)
      ensures taskId in old(tasks) ==> err == Some(DuplicateTaskId) && tasks == old(tasks) && order == old(order)
      ensures taskId !in old(tasks) ==>
        err == None && tasks == old(tasks)[taskId := task] && order == old(order) + [taskId]
    {
      task := NewTask(taskId, resourceId, action);
      if taskId in tasks {
        return task, Some(DuplicateTaskId);
      }
      tasks := tasks[taskId := task];
      order := order + [taskId];
      err := None;
    }

    method Get(taskId: string) returns (r: Result<ExecutionTask>)
      ensures r.Ok? <==> taskId in tasks
      ensures r.Ok? ==> r.value == tasks[taskId]
      ensures r.Err? ==> r.error == RecordNotFound
    {
      if taskId in tasks {
        r := Ok(tasks[taskId]);
      } else {
        r := Err(RecordNotFound);
      }
    }

    method UpdateStatus(taskId: string, status: int) returns (err: Option<string>)
      requires Valid()
      modifies this`tasks
      ensures Valid() && err == None
      ensures taskId in old(tasks) ==> tasks == old(tasks)[taskId := WithStatus(old(tasks)[taskId], status)]
      ensures taskId !in old(tasks) ==> tasks == old(tasks)
    {
      if taskId in tasks {
        tasks := tasks[taskId := WithStatus(tasks[taskId], status)];
      }
      err := None;
    }

    method Start(taskId: string, now: int) returns (err: Option<string>)
      requires Valid()
      modifies this`tasks
      ensures Valid() && err == None
      ensures taskId in old(tasks) ==> tasks == old(tasks)[taskId := Started(old(tasks)[taskId], now)]
      ensures taskId !in old(tasks) ==> tasks == old(tasks)
    {
      if taskId in tasks {
        tasks := tasks[taskId := Started(tasks[taskId], now)];
      }
      err := None;
    }

    /** Reads the row for its start time, then updates it. A missing row
        reads as a zero record, so the duration would be zero, and the
        update then matches nothing. */
    method Complete(taskId: string, success: bool, output: string, errMsg: string, now: int) returns (err: Option<string>)
      requires Valid()
      modifies this`tasks
      ensures Valid() && err == None
      ensures taskId in old(tasks) ==>
        tasks == old(tasks)[taskId := Completed(old(tasks)[taskId], success, output, errMsg, now)]
      ensures taskId !in old(tasks) ==> tasks == old(tasks)
    {
      var status := if success then TaskSuccess else TaskFailed;
      var startedAt := if taskId in tasks then tasks[taskId].startedAt else None;
      var duration := 0;
      if startedAt.Some? {
        duration := Milliseconds(now - startedAt.value);
      }
      if taskId in tasks {
        tasks := tasks[taskId := tasks[taskId].(status := status, output := output, error := errMsg,
                                                finishedAt := Some(now), duration := duration)];
      }
      err := None;
    }

    method Reset(taskId: string) returns (err: Option<string>)
      requires Valid()
      modifies this`tasks
      ensures Valid() && err == None
      ensures taskId in old(tasks) ==> tasks == old(tasks)[taskId := Cleared(old(tasks)[taskId])]
      ensures taskId !in old(tasks) ==> tasks == old(tasks)
    {
      if taskId in tasks {
        tasks := tasks[taskId := Cleared(tasks[taskId])];
      }
      err := None;
    }

    method Delete(taskId: string) returns (err: Option<string>)
      requires Valid()
      modifies this`tasks, this`order
      ensures Valid() && err == None
      ensures tasks == old(tasks) - {taskId} && order == Without(old(order), taskId)
    {
      tasks := tasks - {taskId};
      order := Without(order, taskId);
      err := None;
    }

    /** The matching tasks, newest first. */
    method List(q: Query) returns (list: seq<ExecutionTask>, err: Option<string>)
      requires Valid()
      ensures err == None
      ensures list == TasksAt(order, tasks, Positions(order, tasks, q, 0))
    {
      list := [];
      var i := |order|;
      while i > 0
        invariant 0 <= i <= |order|
        invariant list == TasksAt(order, tasks, Positions(order, tasks, q, i))
      {
        i := i - 1;
        ListStep(order, tasks, q, i);
        if Matches(q, tasks[order[i]]) {
          list := list + [tasks[order[i]]];
        }
      }
      err := None;
    }

    method ListByResource(resourceId: int) returns (list: seq<ExecutionTask>, err: Option<string>)
      requires Valid()
      ensures err == None
      ensures list == TasksAt(order, tasks, Positions(order, tasks, ByResource(resourceId), 0))
    {
      list, err := List(ByResource(resourceId));
    }

    method ListFailed() returns (list: seq<ExecutionTask>, err: Option<string>)
      requires Valid()
      ensures err == None
      ensures list == TasksAt(order, tasks, Positions(order, tasks, FailedOnes, 0))
    {
      list, err := List(FailedOnes);
    }

    /** A missing task is an error that wraps gorm's; otherwise whether the
        stored record is retryable. */
    method CanRetry(taskId: string) returns (b: bool, err: Option<string>)
      ensures taskId !in tasks ==> !b && err == Some("task not found: " + RecordNotFound)
      ensures taskId in tasks ==> err == None && b == IsRetryable(tasks[taskId])
    {
      var r := Get(taskId);
      if r.Err? {
        return false, Some("task not found: " + r.error);
      }
      b, err := IsRetryable(r.value), None;
    }
  }

  /** Start, Reset and UpdateStatus change only the fields they name; the
      identity of a task (its ID, resource and action) survives every
      update. */
  lemma UpdatesKeepIdentity(t: ExecutionTask, status: int, success: bool, output: string, errMsg: string, now: int)
    ensures Started(t, now).(status := t.status, startedAt := t.startedAt) == t
    ensures WithStatus(t, status).(status := t.status) == t
    ensures var c := Completed(t, success, output, errMsg, now);
      c.taskId == t.taskId && c.resourceId == t.resourceId && c.action == t.action && c.startedAt == t.startedAt
    ensures var c := Cleared(t);
      c.taskId == t.taskId && c.resourceId == t.resourceId && c.action == t.action
  {
  }

  /** A completed task is Success or Failed as `success` says and so never
      retryable after success, always after failure; a reset task is a
      fresh pending record of the same identity. */
  lemma CompleteThenRetry(t: ExecutionTask, success: bool, output: string, errMsg: string, now: int)
    ensures IsRetryable(Completed(t, success, output, errMsg, now)) <==> !success
    ensures Completed(t, success, output, errMsg, now).duration ==
      (if t.startedAt.Some? then Milliseconds(now - t.startedAt.value) else 0)
    ensures Cleared(Completed(t, success, output, errMsg, now)) == NewTask(t.taskId, t.resourceId, t.action)
    ensures !IsRetryable(Cleared(t))
  {
  }

  /** Listing returns each matching task once, newest first, and nothing
      that does not match. */
  lemma ListMeaning(order: seq<string>, tasks: map<string, ExecutionTask>, q: Query)
    requires forall k :: k in order ==> k in tasks
    ensures var ps := Positions(order, tasks, q, 0);
      (forall a :: 0 <= a < |ps| ==> Matches(q, TasksAt(order, tasks, ps)[a])) &&
      (forall j :: 0 <= j < |order| && Matches(q, tasks[order[j]]) ==>
        exists a :: 0 <= a < |ps| && TasksAt(order, tasks, ps)[a] == tasks[order[j]] && ps[a] == j) &&
      (forall a, b :: 0 <= a < b < |ps| ==> ps[a] > ps[b])
  {
    var ps := Positions(order, tasks, q, 0);
    forall j | 0 <= j < |order| && Matches(q, tasks[order[j]])
      ensures exists a :: 0 <= a < |ps| && TasksAt(order, tasks, ps)[a] == tasks[order[j]] && ps[a] == j
    {
      var a :| 0 <= a < |ps| && ps[a] == j;
    }
  }
}
