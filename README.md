# Prism execution engine in Dafny

Prism runs Terraform on behalf of its callers. This project models Prism's
execution engine. Each request carries a task ID, a resource ID and an
action (`init`, `plan`, `apply` or `destroy`). The executor takes one
request through seven steps:

1. record the task in the task table;
2. take a lease lock on the resource;
3. start the task state machine;
4. install the run's cancel function;
5. create a work directory;
6. run the action's `terraform` commands;
7. complete the record and broadcast the outcome to the task's observers.

While the commands run, every output line is cleaned of colour codes and
forwarded to the observers. Error diagnostics found along the way are
collected, and the record's output is a summary of them.

The modules follow the repository's packages:

| module | file | models |
|---|---|---|
| `Executor` | `executor_base.dfy` | the shared request/result types and the base executor: a four-event state machine, a cancel handle and a progress record |
| `Lock` | `lock.dfy` | the lock contract: lease records, the default 30-minute lease |
| `MemoryLock` | `lock_memory.dfy` | the in-memory locker, a map from resource to lease |
| `DbLock` | `lock_db.dfy` | the row-table locker: purge expired rows, check, upsert |
| `LockDao` | `lock_dao.dfy` | the older lock DAO, which relies on a unique `resource_id` index |
| `TaskModel` | `task_model.dfy` | the task record, with its numeric status codes and `IsRetryable` |
| `TaskDao` | `task_dao.dfy` | the task table, keyed by a unique task ID, with its insertion order for listing |
| `Runner` | `runner.dfy` | `NewRunner`, the classification of a finished process, the line-splitting writer and `StripANSI` |
| `TerraformParser` | `parser.dfy` | the output classifier: `ParseJSONOutput`, `ParsePlan`, `ParseTfstate` and `ExtractAttributes` |
| `Hub` | `hub.dfy` | the broadcast hub: observers per task, each with a bounded queue that drops a message when full |
| `Workspace` | `workspace.dfy` | the work-directory manager, over an abstract file system |
| `TerraformExecutor` | `terraform_executor.dfy` | the orchestrator: `Execute`, `Retry`, `sendLog`, `getErrorSummary` and `completeTask` |
| `RdbStore` | `rdb_store.dfy` | store configuration: validation, type names, pool defaults, the once-only `Initialize` |
| `Wrappers`, `Text`, `Json` | `wrappers.dfy`, `text.dfy`, `json.dfy` | helpers: `Option`/`Result`, decimal printing and `strconv.Atoi`, split/join/trim, and a decoded JSON tree with gjson's plain dotted paths |

Modelling conventions:

- Time is an integer count of nanoseconds, Go's `time.Duration` unit, and is passed in as `now`.
- Strings and byte slices are both `string`, one character per byte.
- An error is its `Error()` text.
- The objects that Go updates in place are classes:
  - the base executor, the lockers and the DAOs;
  - the hub and its observers;
  - the file system, the store and the executor.
- Their methods state the whole new state, either against specification functions or against reference functions such as `Lock.Table` steps or `TaskDao.Completed`.
- The executor keeps two ghost logs: the messages it handed to the hub (`published`) and the command lines it handed to the runner (`invoked`).
- The queues of the task's observers are tied to the `published` log by an invariant.

## Model

| member | source | states |
|---|---|---|
| Executor.Next | pkg/executor/base.go:33-36 | The four moves of the machine: start Pending→Running, success/fail Running→Success/Failed, cancel Pending or Running→Cancelled; no move leads back to Pending and a terminal state has no move |
| Executor.TransitionTable | pkg/executor/base.go:29-40 | The first-match lookup over initFSM's event list agrees with Next for every state and every event name, so the table admits exactly those four moves |
| Executor.KnownIsDeclared | pkg/executor/base.go:32-37 | An event name is declared by the list exactly when it is one of start, success, fail, cancel, which decides the error text of a refused event |
| Executor.BaseExecutor.constructor | pkg/executor/base.go:20-26 | A new machine is Pending with an empty progress record and no cancel function |
| Executor.BaseExecutor.GetProgress | pkg/executor/base.go:43-52 | Returns the progress record by value, so later changes to the copy cannot reach the executor |
| Executor.BaseExecutor.UpdateProgress | pkg/executor/base.go:55-61 | Overwrites phase, percent and message and keeps elapsed |
| Executor.BaseExecutor.Transition | pkg/executor/base.go:69-71 | A move of the table changes the state and returns no error; any other (state, event) pair returns the error and leaves the state unchanged |
| Executor.BaseExecutor.Cancel | pkg/executor/base.go:74-79 | Calls the stored cancel function when one is set (and only then); from Pending or Running it succeeds and the state becomes Cancelled, even with no function set; from a terminal state it returns the transition error and the state stays as it was |
| Executor.BaseExecutor.SetCancel | pkg/executor/base.go:82-84 | The given function becomes the stored cancel handle |
| Executor.RunEndsTerminal | pkg/executor/base.go:33-36 | A fresh machine accepts start, each of success, fail and cancel then reaches a terminal state, and no event at all moves it from there |
| Lock.DefaultConfig | pkg/executor/lock/locker.go:48-53 | The default locker is the memory one with a 30-minute lease |
| Lock.ResolveConfig | pkg/executor/lock/memory.go:18-25 | A nil configuration yields a 30-minute lease and a given one is kept |
| Lock.NewLease | pkg/executor/lock/memory.go:40-47 | A granted lease names the resource and the task, is "running", starts at now and lasts exactly the lease time |
| MemoryLock.MemoryLocker.constructor | pkg/executor/lock/memory.go:18-25 | A new locker has the resolved configuration and holds no lease |
| MemoryLock.MemoryLocker.Acquire | pkg/executor/lock/memory.go:28-50 | The error and the new table are those of the memory acquire step on the old table |
| MemoryLock.MemoryLocker.Release | pkg/executor/lock/memory.go:53-56 | Deletes the resource's entry unconditionally and never fails |
| MemoryLock.MemoryLocker.GetStatus | pkg/executor/lock/memory.go:59-64 | Returns the stored entry, with no expiry check, or none when absent; never an error |
| MemoryLock.MemoryLocker.IsLocked | pkg/executor/lock/memory.go:67-73 | True exactly when an entry exists and now is before its expiry |
| MemoryLock.AcquireOutcome | pkg/executor/lock/memory.go:28-50 | Acquire fails exactly when a live lease exists (now < expiresAt), with the error naming its holder and the table unchanged; otherwise the entry becomes the new lease, replacing an expired one |
| MemoryLock.AcquireKeepsOthers | pkg/executor/lock/memory.go:28-50 | Acquire on one resource leaves every other resource's presence and entry unchanged |
| MemoryLock.LeaseExclusive | pkg/executor/lock/memory.go:32-47 | After a granted Acquire, any other task's Acquire before the lease expires is refused naming the holder, and once it has expired it is granted |
| MemoryLock.ReleaseThenAcquire | pkg/executor/lock/memory.go:28-56 | Release is idempotent, leaves the resource unlocked, and any task's Acquire then succeeds |
| MemoryLock.Scenario | pkg/executor/lock/memory_test.go:9-81 | Acquire(1,A) succeeds, Acquire(1,B) is refused naming A, another resource is free, and B gets resource 1 after a Release and, separately, after the lease has passed |
| DbLock.PurgeExpired | pkg/executor/lock/db.go:35 | The purge keeps exactly the rows, of every resource, whose expiry is not before now, and keeps them unchanged |
| DbLock.DbLocker.constructor | pkg/executor/lock/db.go:19-29 | A new locker has the resolved configuration, with the default lease for nil, over the given rows |
| DbLock.DbLocker.Acquire | pkg/executor/lock/db.go:32-56 | The error and the new table are those of the purge-check-upsert step on the old table |
| DbLock.DbLocker.Release | pkg/executor/lock/db.go:59-62 | Deletes the resource's rows and never fails, even when there are none |
| DbLock.DbLocker.GetStatus | pkg/executor/lock/db.go:65-81 | No lock and no error when there is no row; otherwise the row as stored, with no expiry filter |
| DbLock.DbLocker.IsLocked | pkg/executor/lock/db.go:84-88 | True exactly when a row exists whose expiry is after now |
| DbLock.AcquireOutcome | pkg/executor/lock/db.go:32-56 | Acquire fails exactly when a row with expiry after now exists, naming its holder and keeping its row; otherwise exactly one row for the resource remains and it is the new lease, even when a row expiring at now was there |
| DbLock.AcquireOthers | pkg/executor/lock/db.go:35 | On another resource, Acquire keeps a row exactly when it has not expired before now, and keeps it unchanged |
| DbLock.AgreesWithMemory | pkg/executor/lock/db.go:38-51 | The row-table locker refuses and grants exactly as the memory locker does and stores the same lease |
| DbLock.LeaseExclusive | pkg/executor/lock/db.go:32-56 | After a granted Acquire, another task's Acquire before expiry is refused naming the holder |
| LockDao.EffectiveExpire | pkg/dao/execution_lock.go:17-23 | An expiry setting of 0 becomes 30 minutes and any other is kept |
| LockDao.PurgeResource | pkg/dao/execution_lock.go:30-31 | The delete removes only this resource's row, and only when it expired before now; other resources' rows, expired or not, stay as they were |
| LockDao.CleanExpiredStep | pkg/dao/execution_lock.go:86-89 | Keeps exactly the rows, of every resource, whose expiry is not before now |
| LockDao.ExecutionLockDao.constructor | pkg/dao/execution_lock.go:17-23 | The DAO's lease is the effective expiry of its setting |
| LockDao.ExecutionLockDao.Acquire | pkg/dao/execution_lock.go:26-44 | The error and the new table are those of the delete-then-insert step, where the unique index refuses an insert over a remaining row |
| LockDao.ExecutionLockDao.Release | pkg/dao/execution_lock.go:47-50 | Deletes the resource's row and never fails |
| LockDao.ExecutionLockDao.Get | pkg/dao/execution_lock.go:53-60 | Returns the row when there is one, and the record-not-found error otherwise |
| LockDao.ExecutionLockDao.IsLocked | pkg/dao/execution_lock.go:63-69 | True exactly when a row exists whose expiry is after now |
| LockDao.ExecutionLockDao.UpdateStatus | pkg/dao/execution_lock.go:72-76 | Sets the status of the resource's row, and only that |
| LockDao.ExecutionLockDao.Extend | pkg/dao/execution_lock.go:79-83 | Sets the resource's expiry to now plus the lease, and only that |
| LockDao.ExecutionLockDao.CleanExpired | pkg/dao/execution_lock.go:86-89 | Removes exactly the expired rows of all resources |
| LockDao.AcquireOutcome | pkg/dao/execution_lock.go:26-44 | Acquire fails exactly when the resource's row has not expired before now (expiresAt >= now); on success the row is the new lease; other resources are never touched |
| LockDao.RefusesAtExpiryInstant | pkg/dao/execution_lock.go:30-31 | Unlike the two lockers, the DAO refuses an Acquire at the very instant a lease expires |
| LockDao.UpdatesTouchOneField | pkg/dao/execution_lock.go:72-83 | UpdateStatus changes only the status of one row and Extend only its expiry; the key set and every other row are unchanged |
| TaskDao.MillisecondsMeaning | pkg/dao/execution_task.go:76 | Duration.Milliseconds truncates toward zero: it is odd-symmetric, and for a non-negative duration it is the whole number of milliseconds it holds |
| TaskDao.Positions | pkg/dao/execution_task.go:105-116 | The positions a query selects are exactly the matching records of the order, newest first |
| TaskDao.ExecutionTaskDao.constructor | pkg/dao/execution_task.go:18-21 | A new DAO holds no record |
| TaskDao.ExecutionTaskDao.Create | pkg/dao/execution_task.go:24-33 | A new Pending record with the given ID, resource and action is inserted; an ID already there is refused by the unique index and nothing changes |
| TaskDao.ExecutionTaskDao.Get | pkg/dao/execution_task.go:36-43 | Returns the stored record, or the record-not-found error |
| TaskDao.ExecutionTaskDao.UpdateStatus | pkg/dao/execution_task.go:46-50 | Changes only the status of the one record; a missing ID matches nothing |
| TaskDao.ExecutionTaskDao.Start | pkg/dao/execution_task.go:53-61 | Sets Running and startedAt = now on the one record |
| TaskDao.ExecutionTaskDao.Complete | pkg/dao/execution_task.go:64-88 | Sets Success or Failed, output, error, finishedAt = now and the duration on the one record |
| TaskDao.ExecutionTaskDao.Reset | pkg/dao/execution_task.go:91-102 | Sets Pending and clears output, error, both instants and the duration on the one record |
| TaskDao.ExecutionTaskDao.Delete | pkg/dao/execution_task.go:119-121 | Removes the record from the table and from the order |
| TaskDao.ExecutionTaskDao.List | pkg/dao/execution_task.go:105-116 | The records the query selects, newest first |
| TaskDao.ExecutionTaskDao.ListByResource | pkg/dao/execution_task.go:105-109 | The records of the resource, newest first |
| TaskDao.ExecutionTaskDao.ListFailed | pkg/dao/execution_task.go:112-116 | The Failed records, newest first |
| TaskDao.ExecutionTaskDao.CanRetry | pkg/dao/execution_task.go:124-130 | Errors for a missing task and otherwise answers IsRetryable of its record |
| TaskDao.UpdatesKeepIdentity | pkg/dao/execution_task.go:46-102 | Start, UpdateStatus, Complete and Reset keep task ID, resource and action and change only their own fields |
| TaskDao.CompleteThenRetry | pkg/dao/execution_task.go:64-102 | A completed record is retryable exactly when it failed; its duration is finish minus start in milliseconds when started, else 0; resetting it gives back the freshly created record, which is not retryable |
| TaskDao.ListMeaning | pkg/dao/execution_task.go:105-116 | A listing holds exactly the matching records, each once, newer before older |
| Runner.NewRunner | pkg/executor/cmd/runner.go:28-33 | A zero timeout becomes 30 minutes and any other is kept |
| Runner.DurationExamples | pkg/executor/cmd/runner.go:70 | Durations print as Go prints them in the timeout error: 30 minutes as "30m0s", 5 seconds as "5s" |
| Runner.Classify | pkg/executor/cmd/runner.go:63-82 | A clean run has exit code 0 and no error; a run past its deadline has exit code -1 and the timeout error, which wins over the exit status; otherwise the exit status of an exit error or -1, with the run's error |
| Runner.Exec | pkg/executor/cmd/runner.go:36-85 | An empty command line is refused with exit code 0 before anything runs; otherwise the output is all of stdout followed by all of stderr, classified as above |
| Runner.EmptyCommandSpawnsNothing | pkg/executor/cmd/runner.go:37-39 | The refusal of an empty command does not depend on anything the process would have done |
| Runner.FeedAppend | pkg/executor/cmd/runner.go:146-155 | Feeding two writes one after the other is feeding their concatenation: a partial line is carried across writes |
| Runner.FeedWithoutHandler | pkg/executor/cmd/runner.go:148-150 | Without a handler no line is delivered, and the carried line is the same |
| Runner.FeedSplitsLines | pkg/executor/cmd/runner.go:146-155 | The handler receives, once per newline, the text since the previous newline, without the newline; the unterminated tail is carried and never delivered |
| Runner.OutputWriter.constructor | pkg/executor/cmd/runner.go:103-106 | A new writer has an empty buffer, an empty partial line and no delivered line |
| Runner.OutputWriter.Write | pkg/executor/cmd/runner.go:142-157 | Returns the length of the input and no error, appends all of it to the buffer, and advances the partial line and the delivered lines as Feed says |
| Runner.ExecWithHandler | pkg/executor/cmd/runner.go:88-133 | The same refusal of an empty command with no line delivered; otherwise the classification of the combined output, with the handler receiving that output's complete lines in order |
| Runner.SgrLength | pkg/executor/cmd/runner.go:161 | A colour sequence found at the start is ESC, then [, then digits and semicolons, then m |
| Runner.NoEscapeUnchanged | pkg/executor/cmd/runner.go:160-163 | A string with no ESC is returned unchanged |
| Runner.StripAppend | pkg/executor/cmd/runner.go:160-163 | Stripping distributes over a concatenation whose right part starts with ESC (or is empty) |
| Runner.StripInserted | pkg/executor/cmd/runner.go:160-163 | A colour sequence inserted anywhere into escape-free text is removed and nothing else is |
| Runner.StripColoured | pkg/executor/cmd/runner.go:160-163 | Text wrapped in an opening and a closing colour sequence comes back as the bare text |
| Runner.NotIdempotent | pkg/executor/cmd/runner.go:160-163 | One pass of the replace can leave a new sequence behind: ESC [ ESC[0m m strips to ESC[m, which strips again to nothing |
| Runner.StripExample | pkg/executor/cmd/runner_test.go:110-139 | "\x1b[1;31mred bold\x1b[0m" strips to "red bold" |
| TerraformParser.ParseJSONOutput | pkg/executor/terraform/parser.go:107-146 | The loop over the lines computes the fold over the decoded messages that the lemmas below characterise |
| TerraformParser.DecodedAppend | pkg/executor/terraform/parser.go:114-126 | Lines contribute messages independently: the messages of two batches of lines are those of each, in order |
| TerraformParser.SkippedLineIsInert | pkg/executor/terraform/parser.go:116-124 | A blank line, a line not starting with {, or one that does not decode can be removed without changing anything before or after it |
| TerraformParser.AbsorbFields | pkg/executor/terraform/parser.go:126-142 | One message is appended; a version record sets the version; a change summary with changes sets them; a diagnostic is appended to the errors and clears success exactly when its severity is error |
| TerraformParser.SummarizeKeepsAll | pkg/executor/terraform/parser.go:126-137 | Messages holds every decoded message in order, and Errors every diagnostic of any severity in order |
| TerraformParser.SummarizeSuccess | pkg/executor/terraform/parser.go:108-141 | Success is false exactly when some decoded diagnostic has severity error |
| TerraformParser.SummarizeVersion | pkg/executor/terraform/parser.go:129-130 | The version is that of the last version record |
| TerraformParser.SummarizeNoVersion | pkg/executor/terraform/parser.go:108-130 | With no version record the version stays empty |
| TerraformParser.SummarizeChanges | pkg/executor/terraform/parser.go:131-134 | The changes are those of the last change summary that carried any |
| TerraformParser.SummarizeNoChanges | pkg/executor/terraform/parser.go:131-134 | With no such record there are no changes |
| TerraformParser.ParseOutputMeaning | pkg/executor/terraform/parser.go:107-146 | The messages are the decoded lines of the output split at newlines, and success holds exactly when none is an error diagnostic |
| TerraformParser.MatchAt | pkg/executor/terraform/parser.go:102 | A match of the Plan pattern at the start of a text begins with "Plan:" and captures three digit strings |
| TerraformParser.FindIn | pkg/executor/terraform/parser.go:162 | Any match found captures three digit strings |
| TerraformParser.FindInMeaning | pkg/executor/terraform/parser.go:162 | The search finds nothing exactly when the pattern matches at no position, and otherwise returns the match at the first position where it matches |
| TerraformParser.PlanLineMatches | pkg/executor/terraform/parser.go:102 | The pattern matches a printed "Plan: a to add, c to change, d to destroy" line and captures the three printed numbers |
| TerraformParser.FindPrinted | pkg/executor/terraform/parser.go:162 | With no "P" before it, a printed plan line anywhere in a text is the match the search returns |
| TerraformParser.ParsePlan | pkg/executor/terraform/parser.go:149-170 | A structured change summary wins and maps add, change and remove to the three counts; otherwise the first text match gives them by Atoi; with neither, all three are zero |
| TerraformParser.AtoiOfCount | pkg/executor/terraform/parser.go:164-166 | Atoi of a captured digit string is non-negative and within the int64 range |
| TerraformParser.NoJsonRecord | pkg/executor/terraform/parser.go:114-119 | Output with no { holds no record, so no message and no change summary |
| TerraformParser.DecodedNone | pkg/executor/terraform/parser.go:116-119 | Lines without { contribute no message |
| TerraformParser.ParsePlanText | pkg/executor/terraform/parser.go:149-170 | Plain-text output containing "Plan: 3 to add, 1 to change, 2 to destroy." (any counts) parses to exactly those counts |
| TerraformParser.ParseTfstate | pkg/executor/terraform/parser.go:173-207 | The nested loops compute the attribute map of the state document as specified, with gjson's String of each id and arn value |
| TerraformParser.AddResource | pkg/executor/terraform/parser.go:181-204 | One resource's instances are added to the map |
| TerraformParser.AddInstances | pkg/executor/terraform/parser.go:186-202 | Each instance of one resource is added in turn |
| TerraformParser.AddAttributes | pkg/executor/terraform/parser.go:187-200 | An instance with attributes writes <type>.<name>.id and .arn when those keys exist, each as gjson's String of its value (a number keeps its text only when it is an integer literal); one without attributes writes nothing |
| TerraformParser.AddInstanceMeaning | pkg/executor/terraform/parser.go:187-200 | After one instance a key is present exactly when it was, or the instance writes it; a written key has the written value and others keep theirs |
| TerraformParser.IdArnKeysDiffer | pkg/executor/terraform/parser.go:193-197 | The id key and the arn key of an instance never collide |
| TerraformParser.CollectKeys | pkg/executor/terraform/parser.go:181-204 | A key is in the result exactly when some instance writes it |
| TerraformParser.CollectValue | pkg/executor/terraform/parser.go:192-198 | A key's value is that of the last instance that writes it |
| TerraformParser.TfstateMeaning | pkg/executor/terraform/parser.go:173-207 | The map holds exactly the id and arn keys that some instance of some resource has; with no resources it is empty |
| TerraformParser.TfstateValue | pkg/executor/terraform/parser.go:181-204 | Each key's value is the attribute of the last instance that has it |
| TerraformParser.ExtractAttributes | pkg/executor/terraform/parser.go:242-253 | The names in the result are among the configured ones; a name is present exactly when its path exists, carrying gjson's String of that value (a non-integer number printed from its float64 value); a missing path is simply absent |
| Json.NumberString | pkg/executor/terraform/parser.go:192-199 | gjson's String keeps an integer literal's text, with or without a minus sign, and prints a number with a fraction from its float64 value instead |
| Hub.Offer | pkg/executor/ws/hub.go:98-104 | A non-blocking send queues the message when there is room and drops it when the queue is full |
| Hub.OfferKeepsBound | pkg/executor/ws/hub.go:98-104 | A send never overfills a queue and never loses what it held |
| Hub.OfferAllKeepsBound | pkg/executor/ws/hub.go:98-104 | However many messages are sent, a queue stays within its capacity, keeps its old contents as a prefix, and gains only sent messages |
| Hub.Added | pkg/executor/ws/hub.go:59-67 | Register adds the client to its task's set, creating the set when needed |
| Hub.RegisterIdempotent | pkg/executor/ws/hub.go:59-67 | Registering twice is registering once |
| Hub.RegistryMaintained | pkg/executor/ws/hub.go:59-81 | Register and Unregister keep every set non-empty and filed under its task, leave every other task as it was, remove the client, drop the task once its set is empty, and Unregister undoes a Register of a new client |
| Hub.ObserversOfOwnTask | pkg/executor/ws/hub.go:84-91 | An observer is reached only by broadcasts for its own task |
| Hub.Hub.constructor | pkg/executor/ws/hub.go:52-56 | A new hub has an empty registry |
| Hub.Hub.Register | pkg/executor/ws/hub.go:59-67 | The registry becomes Added of the old one |
| Hub.Hub.Unregister | pkg/executor/ws/hub.go:70-81 | The registry becomes Removed of the old one and the client's queue is closed |
| Hub.Hub.Broadcast | pkg/executor/ws/hub.go:84-105 | The registry is unchanged; each observer of the task gets one copy when its queue has room and is unchanged otherwise; a task without observers is a no-op |
| Hub.Hub.SendLog | pkg/executor/ws/hub.go:108-115 | Broadcasts a log envelope with the given task ID and text |
| Hub.Hub.SendProgress | pkg/executor/ws/hub.go:118-125 | Broadcasts a progress envelope with the given task ID and record |
| Hub.Hub.SendComplete | pkg/executor/ws/hub.go:128-138 | Broadcasts a complete envelope with payload {success, result} |
| Workspace.NonEmpty | pkg/executor/workspace/manager.go:31 | filepath.Join skips empty elements |
| Workspace.Ancestry | pkg/executor/workspace/manager.go:23 | The directories MkdirAll needs for a path include the path itself, and none is empty |
| Workspace.FileSystem.MkdirAll | pkg/executor/workspace/manager.go:23 | An empty path, or one where a file stands in place of a needed directory, is refused with nothing created; otherwise every directory on the path exists afterwards |
| Workspace.FileSystem.RemoveAll | pkg/executor/workspace/manager.go:39 | The empty path is a no-op and a path ending in "." fails with EINVAL, both removing nothing; any other path loses exactly the entries at or under it, with no error even when it is missing |
| Workspace.FileSystem.WriteFile | pkg/executor/workspace/manager.go:44-45 | Succeeds exactly when the path is non-empty, the directory it lies in exists and the path is not a directory, and then stores the content; a failure changes nothing |
| Workspace.FileSystem.ReadFile | pkg/executor/workspace/manager.go:51 | Returns a file's stored content, and an error otherwise |
| Workspace.FileSystem.Stat | pkg/executor/workspace/manager.go:56 | Finds exactly the existing directories and files |
| Workspace.Manager.constructor | pkg/executor/workspace/manager.go:16-18 | The base path is stored unchanged |
| Workspace.Manager.Create | pkg/executor/workspace/manager.go:21-27 | Returns GenPath's path, which then exists, on success, and "" with the wrapped, prefixed error on failure |
| Workspace.Manager.Clean | pkg/executor/workspace/manager.go:35-40 | "" and "/" are refused and nothing is deleted; a path ending in "." is refused by RemoveAll, also deleting nothing; any other path is removed with everything under it, so it no longer exists |
| Workspace.Manager.WriteFile | pkg/executor/workspace/manager.go:43-46 | Writes the file at dir/filename; it succeeds exactly when that path is non-empty, the directory it lies in exists and the path is not a directory |
| Workspace.ParentOfJoin | pkg/executor/workspace/manager.go:44-45 | A plain file name joined to a directory lies directly in that directory, so the write needs exactly that directory |
| Workspace.Manager.ReadFile | pkg/executor/workspace/manager.go:49-52 | Reads the file at dir/filename |
| Workspace.Manager.Exists | pkg/executor/workspace/manager.go:55-58 | True exactly when a directory or file is at the path |
| Workspace.GenPathSegments | pkg/executor/workspace/manager.go:30-32 | GenPath is base/provider/region/resource/task, and splitting it at slashes gives back the base's pieces followed by the four segments |
| Workspace.JoinFile | pkg/executor/workspace/manager.go:44 | A file joined to a directory lies under it and differs from it |
| Workspace.Scenario | pkg/executor/workspace/manager_test.go:30-100 | After Create the path exists; a file written there reads back; after Clean it is gone, and reading a missing file errors |
| RdbStore.TypeName | pkg/store/rdb_store.go:339-350 | MySQL, PostgreSQL and SQLite are named "mysql", "postgresql" and "sqlite", and every other type (and only those) "unknown" |
| RdbStore.ValidateMeaning | pkg/store/rdb_store.go:266-292 | For MySQL and PostgreSQL the checks are, in order, empty host, port <= 0, empty database, empty username; SQLite fails exactly when the file is empty; any other type is unsupported; a config passing its checks is accepted |
| RdbStore.PoolSize | pkg/store/rdb_store.go:158-169 | The pool size is always positive: a parsed positive value is kept, and an unparseable or non-positive one becomes the default |
| RdbStore.ConfigInfo | pkg/store/rdb_store.go:318-336 | The info has exactly the listed keys and never the password |
| RdbStore.ConfigInfoHidesPassword | pkg/store/rdb_store.go:318-336 | The info of two configurations that differ only in their password is the same |
| RdbStore.RdbStore.constructor | pkg/store/rdb_store.go:41-43 | A new store has no connection and has not run Initialize |
| RdbStore.RdbStore.Initialize | pkg/store/rdb_store.go:46-181 | The body runs once: a later call returns no error and changes nothing, even after a failed first call; the first call stores the config and returns the validation, open, connection or ping error, in that order, or none; once validation passes the handle is kept even if the open failed, and the pool is sized before the ping but not when the connection could not be had |
| RdbStore.RdbStore.GetConfigInfo | pkg/store/rdb_store.go:318-336 | Returns the info of the stored configuration |
| RdbStore.Scenario | pkg/store/rdb_store_test.go:141-173 | A fresh store is not initialized; a first Initialize with a bad config fails, a second with a good one returns no error without running, and the store is still not initialized |
| RdbStore.FailedOpenScenario | pkg/store/rdb_store.go:58-61 | A valid configuration whose open fails returns the wrapped open error, yet the store counts as initialised, since the handle gorm returned with the error is kept |
| TerraformExecutor.DefaultConfig | pkg/executor/terraform/executor.go:28-34 | The default binary is "terraform" on the search path and the timeout is 30 minutes |
| TerraformExecutor.ResolveConfig | pkg/executor/terraform/executor.go:50-53 | A nil configuration means the default one and a given one is kept |
| TerraformExecutor.LockerStep | pkg/executor/terraform/executor.go:92-98 | Whichever locker is configured, a refusal names the live holder and keeps its lease, and a grant stores the new lease |
| TerraformExecutor.AcquireLock | pkg/executor/terraform/executor.go:93 | Calls the configured locker's Acquire, with its own error and new table |
| TerraformExecutor.ReleaseLock | pkg/executor/terraform/executor.go:99 | The configured locker's Release removes the resource's entry |
| TerraformExecutor.Caught | pkg/executor/terraform/executor.go:361-364 | A line keeps at most one diagnostic, and one exactly when it decodes to a diagnostic record of severity error |
| TerraformExecutor.HandlerErrorsAreErrors | pkg/executor/terraform/executor.go:361-364 | The error list collects nothing but error diagnostics |
| TerraformExecutor.HandlerLogsAt | pkg/executor/terraform/executor.go:226-229 | The k-th log message of a command is the forwarded text of its k-th line once cleaned of colour codes |
| TerraformExecutor.HandlerStep | pkg/executor/terraform/executor.go:226-229 | Each further line appends its own log message and its own diagnostic, if any, to what came before |
| TerraformExecutor.PlainLineForwarded | pkg/executor/terraform/executor.go:345-354 | A line that is not JSON is forwarded verbatim (once cleaned) and adds no error |
| TerraformExecutor.SummaryEmpty | pkg/executor/terraform/executor.go:368-371 | The error summary is "" exactly when there are no errors |
| TerraformExecutor.SummaryIsJoin | pkg/executor/terraform/executor.go:373-389 | The summary is the errors' blocks joined by "\n---\n", as strings.Join would put them |
| TerraformExecutor.BlockShape | pkg/executor/terraform/executor.go:378-387 | Each block opens with "Error: <summary>\n" and ends with a newline |
| TerraformExecutor.BlocksAt | pkg/executor/terraform/executor.go:374-388 | The k-th block is that of the k-th error: its summary line, then Resource, File f:line and Detail lines, each only when present, in that order |
| TerraformExecutor.PlanSummaryRoundTrip | pkg/executor/terraform/executor.go:265-267 | The counts line that plan logs is read back by the parser as the same counts |
| TerraformExecutor.Executor.constructor | pkg/executor/terraform/executor.go:50-65 | New uses the default configuration for nil, a work-directory manager on its base path, a runner with its timeout, a fresh Pending machine and no errors |
| TerraformExecutor.Executor.RunFailureClassified | pkg/executor/terraform/executor.go:231-233 | The error a phase wraps is the runner's classification of the process |
| TerraformExecutor.Executor.InitFirst | pkg/executor/terraform/executor.go:240-242 | Every action that runs, runs init first; when init fails its error is the action's and the action's command never runs; when it succeeds the action's own command runs next and decides success |
| TerraformExecutor.Executor.UnsupportedRunsNothing | pkg/executor/terraform/executor.go:143-145 | Exactly the unsupported actions run no command, and they fail with "unsupported action: <a>" |
| TerraformExecutor.Executor.Publish | pkg/executor/terraform/executor.go:410-414 | The envelope is logged as published and offered to every observer of the task, keeping their queues in step with the log |
| TerraformExecutor.Executor.SendProgress | pkg/executor/terraform/executor.go:398-407 | Publishes a progress envelope with elapsed 0 |
| TerraformExecutor.Executor.SendComplete | pkg/executor/terraform/executor.go:410-414 | Publishes a complete envelope with the success flag and the result |
| TerraformExecutor.Executor.SendLog | pkg/executor/terraform/executor.go:345-365 | Publishes the line itself when it does not decode and its @message when it does, and appends exactly the error diagnostic it carries, if any, to the error list |
| TerraformExecutor.Executor.ErrorSummary | pkg/executor/terraform/executor.go:368-390 | The builder loop produces the summary of the error list |
| TerraformExecutor.Executor.CompleteTask | pkg/executor/terraform/executor.go:168-172 | Completes the task's record, when there is a task store, with the error summary as its output |
| TerraformExecutor.Executor.RunCommand | pkg/executor/terraform/executor.go:226-229 | Runs the command line, logs it as invoked, merges the files the process wrote into the file system, and hands every delivered line, cleaned, to sendLog in order |
| TerraformExecutor.Executor.Handle | pkg/executor/terraform/executor.go:226-229 | The handler publishes one log per line and collects their error diagnostics, in order |
| TerraformExecutor.Executor.Stage | pkg/executor/terraform/executor.go:216-229 | A phase updates the progress, announces it, then runs its command with the handler |
| TerraformExecutor.Executor.RunPhase | pkg/executor/terraform/executor.go:216-234 | A phase's error is the runner's error wrapped as "terraform <phase> failed: ..." |
| TerraformExecutor.Executor.Init | pkg/executor/terraform/executor.go:215-235 | init runs "terraform -chdir=<dir> init -no-color" at 10 percent and wraps its error |
| TerraformExecutor.Executor.Pair | pkg/executor/terraform/executor.go:238-262 | init first; the action's own command only when init succeeded, and then its error decides |
| TerraformExecutor.Executor.ReportPlan | pkg/executor/terraform/executor.go:264-267 | Logs the counts line of the parser's reading of the plan output |
| TerraformExecutor.Executor.Plan | pkg/executor/terraform/executor.go:238-270 | plan runs init then "plan -input=false -json" at 30 percent, and logs the counts line only when both succeeded |
| TerraformExecutor.Executor.ReportState | pkg/executor/terraform/executor.go:301-309 | When the state file exists in the current file system it is read and the number of attributes found is logged; otherwise nothing is sent |
| TerraformExecutor.Executor.Apply | pkg/executor/terraform/executor.go:273-312 | apply runs init then "apply -auto-approve -json" at 50 percent; after success the progress moves to 90 percent parsing and the state file as it stands after both commands wrote their files is reported |
| TerraformExecutor.Executor.ApplyReadsWrittenState | pkg/executor/terraform/executor.go:296-309 | After a successful apply, the attribute count logged is that of the state file apply's own command wrote, whatever was there before |
| TerraformExecutor.Executor.Destroy | pkg/executor/terraform/executor.go:315-342 | destroy runs init then "destroy -auto-approve -json" at 50 percent |
| TerraformExecutor.Executor.Dispatch | pkg/executor/terraform/executor.go:133-145 | The switch gives each action its commands, error, progress, log messages, diagnostics and the files its commands wrote; an unsupported action changes nothing and fails |
| TerraformExecutor.Executor.Conclude | pkg/executor/terraform/executor.go:147-164 | The result carries the error summary and the duration in milliseconds; the machine fires success or fail, the record is completed accordingly, and the complete envelope is published |
| TerraformExecutor.Executor.Act | pkg/executor/terraform/executor.go:132-164 | Steps 6 and 7: the action, then its conclusion, with every effect stated |
| TerraformExecutor.Executor.StartRun | pkg/executor/terraform/executor.go:102-111 | The record is started; a machine that is not Pending refuses start with the transition error and the record is completed as failed |
| TerraformExecutor.Executor.Abandon | pkg/executor/terraform/executor.go:122-127 | A run that cannot get its directory fires fail and completes its record as failed |
| TerraformExecutor.Executor.OpenWorkDir | pkg/executor/terraform/executor.go:117-130 | The request's own directory, or a created one; the run fails exactly when a needed directory is blocked, with the workspace error |
| TerraformExecutor.Executor.Prepare | pkg/executor/terraform/executor.go:102-130 | Steps 3 to 5: the run gets past them exactly when the machine was Pending and a needed directory could be made; the cancel function is installed only after start |
| TerraformExecutor.Executor.Begin | pkg/executor/terraform/executor.go:72-74 | The run starts with nothing published or invoked, noting the observers' queues |
| TerraformExecutor.Executor.Perform | pkg/executor/terraform/executor.go:129-164 | Steps 6 and 7 including the deferred Clean of a created directory, which removes what the commands wrote there too; a request's own directory is left alone |
| TerraformExecutor.Executor.Tidy | pkg/executor/terraform/executor.go:129 | The deferred Clean removes the created directory and what is under it |
| TerraformExecutor.Executor.Proceed | pkg/executor/terraform/executor.go:102-164 | Steps 3 to 7: a run that cannot reach its action fails with the start or workspace error and publishes nothing; one that does returns the action's error and result; the machine ends Success or Failed from Pending; the record is started and completed |
| TerraformExecutor.Executor.Lock | pkg/executor/terraform/executor.go:91-98 | Step 2: the locker's step decides; a refusal completes the record as failed |
| TerraformExecutor.Executor.Unlock | pkg/executor/terraform/executor.go:99 | The deferred Release of the resource |
| TerraformExecutor.Executor.Locked | pkg/executor/terraform/executor.go:99-164 | Steps 3 to 7 under the lock, and the lock is released on every return path |
| TerraformExecutor.Executor.Run | pkg/executor/terraform/executor.go:91-164 | A refused lock fails the run before start, leaves the holder's lease and the machine alone and completes the record as failed; a granted one is released at the end |
| TerraformExecutor.Executor.Record | pkg/executor/terraform/executor.go:81-89 | Step 1: a task ID the table already holds is refused by the unique index and nothing changes; otherwise a new Pending record is inserted |
| TerraformExecutor.Executor.Admit | pkg/executor/terraform/executor.go:81-164 | Steps 1 to 7 as Admission says: a duplicate task fails first and touches nothing else |
| TerraformExecutor.Executor.Execute | pkg/executor/terraform/executor.go:72-165 | The error list is reset and the run goes through step 1 to step 7 in order, with the deferred Release and Clean |
| TerraformExecutor.Executor.Resume | pkg/executor/terraform/executor.go:74-165 | Execute from step 2 on, for a record already in the table |
| TerraformExecutor.Executor.RetryRequest | pkg/executor/terraform/executor.go:200-204 | The retried request takes the stored record's resource and action, with no work directory |
| TerraformExecutor.Executor.Reopen | pkg/executor/terraform/executor.go:175-197 | Fails without a task store, for a missing task, and with "task <id> is not retryable", each time changing nothing; otherwise resets the record and rebuilds the request |
| TerraformExecutor.Executor.Retry | pkg/executor/terraform/executor.go:175-206 | As written: a retryable task is reset and then refused at step 1 with the duplicate-ID error, never reaching the lock or the machine |
| TerraformExecutor.Executor.RetryFixed | pkg/executor/terraform/executor.go:175-206 | Corrected: a retryable task is reset and run again from step 2, as Ran says |
| TerraformExecutor.Executor.RanCompletesRecord | pkg/executor/terraform/executor.go:91-172 | A run past step 1 leaves the record Success exactly when it returned no error, and retryable exactly when it did; the result says Success exactly when there is no error; a success implies the machine went Pending to Success |
| TerraformExecutor.Executor.RetryAsWrittenStuck | pkg/executor/terraform/executor.go:195-205 | Retry as written leaves the record Pending and no longer retryable, with the lock, the machine and the observers untouched |
| TerraformExecutor.Executor.RetryFixedCompletes | pkg/executor/terraform/executor.go:195-205 | The corrected Retry, from a fresh machine with the lock granted and the directory made, completes the record again with new start and finish instants, retryable exactly when the new run failed |

## Left out

- Subprocess control is not modelled: spawning, process groups, SIGKILL and context deadlines (pkg/executor/cmd/runner.go:45-57, 96-110) are operating-system I/O. What a process did is a `Runner.Outcome` parameter: its writes to its output streams in order, its error, whether the deadline had passed and the files it wrote (for terraform, the state file).
- The two pipes of `ExecWithHandler` are given as one `Outcome`. Their interleaving is the order of its chunks.
- Concurrency is not modelled: mutexes, `sync.Map`, `sync.Once` and channel blocking. A sequential model cannot exhibit the race between the non-atomic delete, select and upsert in pkg/executor/lock/db.go:35-51, and only the sequential contract is proved.
- The hub's delivery pumps and WebSocket connections are not modelled. The JSON encoding of an envelope is the envelope itself, so the `json.Marshal` failure branch never happens.
- Wall-clock time is a parameter. `now` is when a run starts, used for the lease, the record's start and every message sent during the run, and `finish` is when it ends. Each lock, DAO and store operation gets `now` passed in.
- JSON decoding is a parameter `decode` from a line to an optional message. The state document is a decoded JSON tree, and gjson's wildcards and escapes are not modelled, only dotted paths. The `Plan:` regular expression and the colour-sequence pattern are hand-written matchers.
- `Json.String` of a number that is not an integer literal is gjson's `strconv.FormatFloat(num, 'f', -1, 64)`. The float64 conversion and its shortest printing are not modelled: the decoder supplies that text with the number, and `TerraformParser.ParseTfstate`, `TerraformParser.AddAttributes` and `TerraformParser.ExtractAttributes` use it through `Json.String`.
- The `hook` payload of a Terraform message is left out because nothing reads it.
- `filepath.Join` is modelled as a join of its non-empty elements with `/`. Its cleaning of `.`, `..` and repeated slashes is not modelled.
- Database errors are modelled as never happening in the DAOs and lockers. The DAO's error texts (record not found, duplicate key) are placeholder strings, not the drivers' messages.
- The store's database plumbing is not modelled: DSN building, `gorm.Open` and ping, `Close`, `HealthCheck`, `MonitorConnectionPool`, `AutoMigrate`, `GetDB`, `GetDatabaseType` and `GetInstance`. `Initialize`'s open, connection and ping errors are parameters.
- `Hub.Hub.Unregister` requires an open client queue. A second Unregister of the same client panics in Go (the repeated `close(client.send)` at pkg/executor/ws/hub.go:80), and the model excludes that panic by this precondition instead of modelling it.
- `Hub.Hub.Broadcast`, `Hub.Hub.SendLog`, `Hub.Hub.SendProgress` and `Hub.Hub.SendComplete` require every observer of the task to be open, as the executor's `Open` requirement on `Execute` does. A send on a closed queue panics in Go (pkg/executor/ws/hub.go:99-101), and the model excludes that panic instead of modelling it.
- `MemoryLock.MemoryLocker.GetStatus` returns a copy of the stored lease. Go returns the stored `*LockInfo` pointer, which a caller could alias and modify; the model has no such aliasing.
- Logging (pkg/logger) is left out.
- The pass-through CRUD DAOs and their models, the Redis stub, migrations, the CLI and the examples are left out.
- `Validate` is a TODO that always succeeds, so it is left out. `Type` and `GetErrors` are one-line getters and are left out too. `BaseExecutor.Status` is `Executor.BaseExecutor.CurrentStatus`.
- `ParseTfstateJSON` is left out because it is a bare `json.Unmarshal`.
- `TerraformExecutor.DefaultConfig` does not state the base path. The code sets it to "/opt/homebrew/bin/terraform", which looks like a binary path, while the tests expect "/tmp/terraform". The model keeps the code's value but proves nothing about it.
- Apply's state-file attributes are only counted in a log line. The result's attributes stay empty, as in the code.
- The executor's parser is reached through two function fields with the parser's meaning:
  - plan's output goes to `TerraformParser.ParsePlan`;
  - a state file's text goes to `TerraformParser.TfstateAttrs` of a decoded document, and the text decoding step is a constructor parameter.
- `TerraformExecutor.Executor.Proceed` states the broadcast trace, the command lines and the work-directory effects only for the path that stops before the action. `Perform` and `Act` state them in full for the path that runs it.
- `TerraformExecutor.Executor.Locked`: the same reduction as `Proceed`.
- `TerraformExecutor.Executor.Run` and the `Ran` predicate: the same reduction as `Proceed`, for the lease, the record table and the machine.
- `TerraformExecutor.Executor.Admit`, `TerraformExecutor.Executor.Execute` and `TerraformExecutor.Executor.Resume`: the same reduction, through `Admission` and `Ran`.
- `TerraformExecutor.Executor.RetryFixed`: the same reduction, through `Ran`.
- `TerraformExecutor.Executor.Retry` states the duplicate-ID refusal but not the published and invoked logs. Those stay empty, as `RetryAsWrittenStuck` shows from `Admission`.

## Findings

| source | as written | input that shows it | evidently intended | confidence | as-written member | corrected member |
|---|---|---|---|---|---|---|
| pkg/executor/terraform/executor.go:175-206 | Retry resets the record and then calls Execute, whose step 1 (executor.go:82-88) creates the record again. The task ID is a unique index (pkg/model/execution_task.go:19), so that insert is refused. | A task T whose record is Failed: Retry(T) returns the duplicate-ID error, and T's record is left reset to Pending, which is no longer retryable. | Retry re-executes the stored task: a run from step 2 on over the reset record | not executed | TerraformExecutor.Executor.Retry | TerraformExecutor.Executor.RetryFixed |
