/** The Terraform orchestrator (pkg/executor/terraform/executor.go). An
    executor takes one request through a fixed order of steps: record the
    task, take the resource's lease, start the state machine, prepare a work
    directory, run the action's terraform commands, then complete the record
    and tell the observers. The lease and a created work directory are given
    back on every path after they were taken.

    The collaborators are the objects of the other modules. Each terraform
    process is an abstract `Runner.Outcome`; `decode` stands for
    `json.Unmarshal` of a line into a message and `parseState` for gjson's
    reading of a state file. Time is two instants: `now`, when the run
    starts (the lease, the start of the record, every progress and log
    message), and `finish`, when it ends (the completion of the record and
    the complete message). */
module TerraformExecutor {
  import opened Wrappers
  import Text
  import Json
  import Base = Executor
  import Lock
  import MemoryLock
  import DbLock
  import opened TaskModel
  import TaskDao
  import Runner
  import Parser = TerraformParser
  import Hub
  import Workspace

  type Diagnostic = Parser.Diagnostic

  datatype Config = Config(binaryPath: string, basePath: string, timeout: int)

  /** The `terraform` binary of the search path and a 30-minute timeout. */
  function DefaultConfig(): (c: Config)
    ensures c.binaryPath == "terraform" && c.timeout == 30 * Runner.Minute
  {
    Config("terraform", "/opt/homebrew/bin/terraform", 30 * Runner.Minute)
  }

  /** New: a nil configuration means the default one. */
  function ResolveConfig(config: Option<Config>): (c: Config)
    ensures config.None? ==> c == DefaultConfig()
    ensures config.Some? ==> c == config.value
  {
    if config.Some? then config.value else DefaultConfig()
  }

  // ----- the lock manager -----

  /** The lock manager an executor is given: one of the two lockers. */
  datatype Locker = Memory(mem: MemoryLock.MemoryLocker) | Database(db: DbLock.DbLocker) {
    /** The locker itself, by its kind. */
    function Mems(): set<MemoryLock.MemoryLocker> {
      if Memory? then {mem} else {}
    }

    function Dbs(): set<DbLock.DbLocker> {
      if Database? then {db} else {}
    }

    function Table(): Lock.Table
      reads Mems()`locks, Dbs()`rows
    {
      match this
      case Memory(m) => m.locks
      case Database(d) => d.rows
    }

    function Expire(): int {
      match this
      case Memory(m) => m.config.expireTime
      case Database(d) => d.config.expireTime
    }

    /** Acquire as a step on the lock table, as this locker takes it. */
    function Step(t: Lock.Table, r: int, task: string, now: int): (Option<string>, Lock.Table) {
      match this
      case Memory(_) => MemoryLock.AcquireStep(t, r, task, now, Expire())
      case Database(_) => DbLock.AcquireStep(t, r, task, now, Expire())
    }
  }

  /** Whichever locker is used, a refused Acquire names the live holder and
      leaves its lease as it was, and a granted one stores the new lease. */
  lemma LockerStep(l: Locker, t: Lock.Table, r: int, task: string, now: int)
    ensures l.Step(t, r, task, now).0.Some? ==>
      r in t && now < t[r].expiresAt && l.Step(t, r, task, now).0 == Some(Lock.LockedError(r, t[r].taskId)) &&
      r in l.Step(t, r, task, now).1 && l.Step(t, r, task, now).1[r] == t[r]
    ensures l.Step(t, r, task, now).0.None? ==>
      r in l.Step(t, r, task, now).1 && l.Step(t, r, task, now).1[r] == Lock.NewLease(r, task, now, l.Expire())
  {
    match l
    case Memory(_) =>
      MemoryLock.AcquireOutcome(t, r, task, now, l.Expire());
    case Database(_) =>
      DbLock.AcquireOutcome(t, r, task, now, l.Expire());
  }

  method AcquireLock(l: Locker, r: int, task: string, now: int) returns (err: Option<string>)
    modifies l.Mems()`locks, l.Dbs()`rows
    ensures (err, l.Table()) == l.Step(old(l.Table()), r, task, now)
  {
    match l
    case Memory(m) =>
      err := m.Acquire(r, task, now);
    case Database(d) =>
      err := d.Acquire(r, task, now);
  }

  method ReleaseLock(l: Locker, r: int)
    modifies l.Mems()`locks, l.Dbs()`rows
    ensures l.Table() == old(l.Table()) - {r}
  {
    match l
    case Memory(m) =>
      var _ := m.Release(r);
    case Database(d) =>
      var _ := d.Release(r);
  }

  // ----- messages and the log handler -----

  function ProgressMsg(t: string, phase: string, percent: int, message: string, now: int): Hub.Message {
    Hub.Message(Hub.ProgressType, t, Hub.ProgressPayload(Hub.ProgressData(phase, percent, 0, message)), now)
  }

  function LogMsg(t: string, text: string, now: int): Hub.Message {
    Hub.Message(Hub.Log, t, Hub.LogText(text), now)
  }

  function CompleteMsg(t: string, success: bool, result: Base.ExecuteResult, now: int): Hub.Message {
    Hub.Message(Hub.Complete, t, Hub.CompletePayload(success, result), now)
  }

  /** The text sendLog forwards for a line: the record's `@message` when the
      line decodes, the line itself when it does not. */
  function Forwarded(line: string, decode: Parser.Decoder): string {
    var m := decode(line);
    if m.Some? then m.value.message else line
  }

  /** The diagnostic sendLog keeps from a line: only that of a decoded
      `diagnostic` record of severity `error`. */
  function Caught(line: string, decode: Parser.Decoder): (r: seq<Diagnostic>)
    ensures |r| <= 1
    ensures forall d :: d in r ==> d.severity == "error"
    ensures r != [] <==> (decode(line).Some? && decode(line).value.msgType == "diagnostic" &&
      decode(line).value.diagnostic.Some? && decode(line).value.diagnostic.value.severity == "error")
    ensures r != [] ==> r == [decode(line).value.diagnostic.value]
  {
    var m := decode(line);
    if m.Some? && m.value.msgType == "diagnostic" && m.value.diagnostic.Some? && m.value.diagnostic.value.severity == "error"
    then [m.value.diagnostic.value] else []
  }

  /** The lines the runner hands to the handler for a process. */
  function Delivered(run: Runner.Outcome): seq<string> {
    Runner.Feed([], [], Runner.Written(run.chunks), true).1
  }

  /** The diagnostics the handler keeps from `lines`, each line cleaned of
      colour sequences first: error diagnostics only, at most one a line. */
  function HandlerErrors(lines: seq<string>, decode: Parser.Decoder): (r: seq<Diagnostic>)
    ensures |r| <= |lines|
    decreases |lines|
  {
    if lines == [] then []
    else HandlerErrors(lines[..|lines| - 1], decode) + Caught(Runner.StripANSI(lines[|lines| - 1]), decode)
  }

  /** The log messages the handler publishes for `lines`: one a line, in
      order, each carrying the forwarded text of the cleaned line. */
  function HandlerLogs(t: string, lines: seq<string>, decode: Parser.Decoder, now: int): (r: seq<Hub.Message>)
    ensures |r| == |lines|
    decreases |lines|
  {
    if lines == [] then []
    else HandlerLogs(t, lines[..|lines| - 1], decode, now) + [LogMsg(t, Forwarded(Runner.StripANSI(lines[|lines| - 1]), decode), now)]
  }

  /** The handler keeps nothing but error diagnostics. */
  lemma {:induction false} HandlerErrorsAreErrors(lines: seq<string>, decode: Parser.Decoder)
    ensures forall d :: d in HandlerErrors(lines, decode) ==> d.severity == "error"
    decreases |lines|
  {
    if lines != [] {
      HandlerErrorsAreErrors(lines[..|lines| - 1], decode);
    }
  }

  /** The k-th log message is the forwarded text of the k-th cleaned line. */
  lemma {:induction false} HandlerLogsAt(t: string, lines: seq<string>, decode: Parser.Decoder, now: int)
    ensures forall k :: 0 <= k < |lines| ==>
      HandlerLogs(t, lines, decode, now)[k] == LogMsg(t, Forwarded(Runner.StripANSI(lines[k]), decode), now)
    decreases |lines|
  {
    if lines != [] {
      var init := lines[..|lines| - 1];
      HandlerLogsAt(t, init, decode, now);
      assert forall k :: 0 <= k < |init| ==> lines[k] == init[k];
    }
  }

  /** Handling one more line appends what that line gives. */
  lemma HandlerStep(t: string, lines: seq<string>, i: int, decode: Parser.Decoder, now: int)
    requires 0 <= i < |lines|
    ensures HandlerErrors(lines[..i + 1], decode) == HandlerErrors(lines[..i], decode) + Caught(Runner.StripANSI(lines[i]), decode)
    ensures HandlerLogs(t, lines[..i + 1], decode, now) ==
      HandlerLogs(t, lines[..i], decode, now) + [LogMsg(t, Forwarded(Runner.StripANSI(lines[i]), decode), now)]
  {
    assert lines[..i + 1][..i] == lines[..i];
  }

  /** A line that is not JSON is published verbatim (once cleaned) and
      contributes no error. */
  lemma PlainLineForwarded(t: string, lines: seq<string>, line: string, decode: Parser.Decoder, now: int)
    requires decode(Runner.StripANSI(line)).None?
    ensures HandlerErrors(lines + [line], decode) == HandlerErrors(lines, decode)
    ensures HandlerLogs(t, lines + [line], decode, now) ==
      HandlerLogs(t, lines, decode, now) + [LogMsg(t, Runner.StripANSI(line), now)]
  {
    assert (lines + [line])[..|lines|] == lines;
  }

  // ----- getErrorSummary -----

  /** One line of a block: a label, a value and a newline. */
  function Line(tag: string, value: string): string {
    tag + value + "\n"
  }

  const Separator: string := "\n---\n"

  /** The file line of a diagnostic that has a source range. */
  function FileLine(r: Parser.SourceRange): string {
    Line("File: ", r.filename + ":" + Text.IntToString(r.line))
  }

  /** One block of the error summary: the summary line, then the resource,
      file and detail lines, each only when the diagnostic has it. */
  function Block(d: Diagnostic): string {
    Line("Error: ", d.summary) + Rest(d)
  }

  /** The lines of a block after its summary line. */
  function Rest(d: Diagnostic): string {
    (if d.address != "" then Line("Resource: ", d.address) else "") +
    ((if d.range.Some? then FileLine(d.range.value) else "") +
     (if d.detail != "" then Line("Detail: ", d.detail) else ""))
  }

  /** Texts written one after another with the separator between each two. */
  function Joined(bs: seq<string>): string
    decreases |bs|
  {
    if bs == [] then ""
    else if |bs| == 1 then bs[0]
    else Joined(bs[..|bs| - 1]) + Separator + bs[|bs| - 1]
  }

  /** The blocks of the errors, one an error. */
  function Blocks(es: seq<Diagnostic>): (bs: seq<string>)
    ensures |bs| == |es|
    decreases |es|
  {
    if es == [] then [] else Blocks(es[..|es| - 1]) + [Block(es[|es| - 1])]
  }

  /** The blocks of the errors, in order, with the separator between each two. */
  function Summary(es: seq<Diagnostic>): string {
    Joined(Blocks(es))
  }

  /** The summary is empty exactly when there are no errors. */
  lemma SummaryEmpty(es: seq<Diagnostic>)
    ensures Summary(es) == "" <==> es == []
  {
    if es != [] {
      var d := es[|es| - 1];
      BlockShape(d);
      if |es| > 1 {
        assert |Blocks(es)| > 1;
        assert Summary(es) == Joined(Blocks(es)[..|es| - 1]) + Separator + Block(d);
      }
    }
  }

  lemma BlocksSnoc(es: seq<Diagnostic>, d: Diagnostic)
    ensures Blocks(es + [d]) == Blocks(es) + [Block(d)]
  {
    assert (es + [d])[..|es|] == es;
  }

  /** One more error adds the separator and its block. */
  lemma SummarySnoc(es: seq<Diagnostic>, d: Diagnostic)
    requires es != []
    ensures Summary(es + [d]) == Summary(es) + Separator + Block(d)
  {
    BlocksSnoc(es, d);
    assert (Blocks(es) + [Block(d)])[..|es|] == Blocks(es);
  }

  /** Writing the blocks with separators is joining them. */
  lemma {:induction false} JoinedIsJoin(bs: seq<string>)
    ensures Joined(bs) == Text.Join(bs, Separator)
    decreases |bs|
  {
    if |bs| > 1 {
      var init := bs[..|bs| - 1];
      JoinedIsJoin(init);
      assert bs == init + [bs[|bs| - 1]];
      Text.JoinSnoc(init, bs[|bs| - 1], Separator);
    }
  }

  /** The k-th block is that of the k-th error. */
  lemma {:induction false} BlocksAt(es: seq<Diagnostic>)
    ensures forall k :: 0 <= k < |es| ==> Blocks(es)[k] == Block(es[k])
    decreases |es|
  {
    if es != [] {
      var init := es[..|es| - 1];
      BlocksAt(init);
      assert forall k :: 0 <= k < |init| ==> es[k] == init[k];
    }
  }

  /** The summary is the blocks joined with the separator, as
      `strings.Join` would put them. */
  lemma SummaryIsJoin(es: seq<Diagnostic>)
    ensures Summary(es) == Text.Join(Blocks(es), Separator)
  {
    JoinedIsJoin(Blocks(es));
  }

  predicate EndsWithNewline(s: string) {
    |s| > 0 && s[|s| - 1] == '\n'
  }

  lemma EndsWithNewlineAppend(a: string, b: string)
    requires EndsWithNewline(a) && (b == "" || EndsWithNewline(b))
    ensures EndsWithNewline(a + b)
  {
    if b == "" {
      assert a + b == a;
    }
  }

  /** Each block opens with its summary line and ends with a newline. */
  lemma BlockShape(d: Diagnostic)
    ensures Text.HasPrefix(Block(d), Line("Error: ", d.summary))
    ensures EndsWithNewline(Block(d))
  {
    var head := Line("Error: ", d.summary);
    assert (head + Rest(d))[..|head|] == head;
    var res := if d.address != "" then Line("Resource: ", d.address) else "";
    var file := if d.range.Some? then FileLine(d.range.value) else "";
    var det := if d.detail != "" then Line("Detail: ", d.detail) else "";
    assert EndsWithNewline(head);
    assert det == "" || EndsWithNewline(det);
    assert file == "" || EndsWithNewline(file);
    assert res == "" || EndsWithNewline(res);
    if file == "" {
      assert file + det == det;
    } else {
      EndsWithNewlineAppend(file, det);
    }
    if res == "" {
      assert res + (file + det) == file + det;
    } else {
      EndsWithNewlineAppend(res, file + det);
    }
    EndsWithNewlineAppend(head, Rest(d));
  }

  // ----- commands -----

  /** A terraform command line: the binary, the directory flag, the
      subcommand and its flags. */
  function Command(bin: string, workDir: string, sub: string, flags: seq<string>): seq<string> {
    [bin, "-chdir=" + workDir, sub] + flags
  }

  /** init asks for plain output; plan for JSON and no prompt for input;
      apply and destroy for JSON and no confirmation. */
  const InitFlags: seq<string> := ["-no-color"]
  const PlanFlags: seq<string> := ["-input=false", "-json"]
  const ApplyFlags: seq<string> := ["-auto-approve", "-json"]

  /** The announcement of a phase. */
  function Announcement(action: string): string {
    "Running terraform " + action + "..."
  }

  /** A failed command's error, wrapped with the command's name. */
  function Failure(action: string, reason: string): string {
    "terraform " + action + " failed: " + reason
  }

  /** The log line plan sends with the counts it found: the summary line of
      the text output, `Plan: %d to add, %d to change, %d to destroy`, is
      the parser's pattern with the numbers between its words. */
  function PlanSummary(info: Parser.PlanInfo): string {
    var p := Parser.PlanPattern;
    p.lead + " " + Text.IntToString(info.toAdd) + " " + p.add + " " + Text.IntToString(info.toChange) + " " +
    p.change + " " + Text.IntToString(info.toDestroy) + " " + p.destroy
  }

  /** The log line apply sends after reading the state file. */
  function ExtractedLine(n: nat): string {
    "Extracted " + Text.IntToString(n) + " attributes from tfstate"
  }

  lemma DigitsLackBrace(n: nat)
    ensures '{' !in Text.NatToString(n)
  {
    Text.NatToStringDigits(n);
    assert forall k :: 0 <= k < |Text.NatToString(n)| ==> Text.IsDigit(Text.NatToString(n)[k]);
  }

  lemma PatternLacksBrace()
    ensures '{' !in Parser.PlanPattern.lead && '{' !in Parser.PlanPattern.add
    ensures '{' !in Parser.PlanPattern.change && '{' !in Parser.PlanPattern.destroy
  {
  }

  /** The plan summary the executor logs is plain text that the parser
      reads back as the same counts. */
  lemma PlanSummaryRoundTrip(a: nat, c: nat, d: nat, decode: Parser.Decoder)
    requires a <= Text.MaxInt64 && c <= Text.MaxInt64 && d <= Text.MaxInt64
    ensures Parser.ParsePlan(PlanSummary(Parser.PlanInfo(a, c, d)), decode) == Parser.PlanInfo(a, c, d)
  {
    var line := Parser.PlanLine(Parser.PlanPattern, a, c, d);
    assert PlanSummary(Parser.PlanInfo(a, c, d)) == line;
    DigitsLackBrace(a);
    DigitsLackBrace(c);
    DigitsLackBrace(d);
    PatternLacksBrace();
    assert "" + line + "" == line;
    Parser.ParsePlanText("", a, c, d, "", decode);
  }

  /** Appending two pieces one after another is appending their concatenation. */
  lemma AppendTwo<T>(s: seq<T>, a: seq<T>, b: seq<T>)
    ensures s + a + b == s + (a + b)
  {
  }

  /** The state file terraform writes in the work directory. */
  const StateFile: string := "terraform.tfstate"

  function ErrText(err: Option<string>): string {
    if err.Some? then err.value else ""
  }

  /** The task table after Start of `t`, which matches no row when `t` has none. */
  function StartIn(tasks: map<string, ExecutionTask>, t: string, now: int): map<string, ExecutionTask> {
    if t in tasks then tasks[t := TaskDao.Started(tasks[t], now)] else tasks
  }

  /** The task table after Complete of `t`. */
  function CompleteIn(tasks: map<string, ExecutionTask>, t: string, success: bool, output: string, errMsg: string, now: int)
    : map<string, ExecutionTask>
  {
    if t in tasks then tasks[t := TaskDao.Completed(tasks[t], success, output, errMsg, now)] else tasks
  }

  /** The result of a run that stopped before its action: failed, with the
      error, no output and no duration. */
  function Refused(t: string, e: string): Base.ExecuteResult {
    Base.ExecuteResult(t, Base.Failed, "", e, 0, map[])
  }

  /** The result of a run that reached its action: its status follows the
      error, its output is the error summary and its duration is counted in
      whole milliseconds. */
  function Finished(t: string, err: Option<string>, output: string, elapsed: int): Base.ExecuteResult {
    Base.ExecuteResult(t, if err.None? then Base.Success else Base.Failed, output, ErrText(err),
                       TaskDao.Milliseconds(elapsed), map[])
  }

  /** MkdirAll refuses the path: it is empty or a file stands where one of
      its directories belongs. */
  predicate Blocked(files: map<string, string>, path: string) {
    path == "" || exists d :: d in Workspace.Ancestry(path) && d in files
  }

  /** The directories after Clean of `path`, which refuses "", "/" and a
      path ending in ".". */
  function CleanedDirs(dirs: set<string>, path: string): set<string> {
    if path == "" || path == "/" || Workspace.EndsWithDot(path) then dirs else set d | d in dirs && !Workspace.Under(d, path)
  }

  function CleanedFiles(files: map<string, string>, path: string): map<string, string> {
    if path == "" || path == "/" || Workspace.EndsWithDot(path) then files else map f | f in files && !Workspace.Under(f, path) :: files[f]
  }

  class Executor {
    const base: Base.BaseExecutor
    const config: Config
    const locker: Option<Locker>
    const taskDao: Option<TaskDao.ExecutionTaskDao>
    const workspace: Workspace.Manager
    /** The file system the work directories live on. */
    const fs: Workspace.FileSystem
    const runner: Runner.Runner
    const hub: Option<Hub.Hub>
    const decode: Parser.Decoder
    /** The executor's parser (`e.parser`), by the two entry points the
        executor calls: the plan summary of a command's output, and the
        attributes of a state file's text. */
    const parsePlan: string -> Parser.PlanInfo
    const parseTfstate: string -> map<string, string>
    /** The error diagnostics collected from the output of the current run. */
    var errors: seq<Diagnostic>
    /** The envelopes this run has handed to the hub, in order. */
    ghost var published: seq<Hub.Message>
    /** The command lines this run has handed to the runner, in order. */
    ghost var invoked: seq<seq<string>>
    /** The queues of the task's observers when the run began. */
    ghost var snapshot: map<Hub.Client, seq<Hub.Message>>

    /** New: the default configuration when none is given, a work-directory
        manager on its base path, a runner with its timeout and a new state
        machine. */
    constructor (config: Option<Config>, locker: Option<Locker>, taskDao: Option<TaskDao.ExecutionTaskDao>,
                 hub: Option<Hub.Hub>, fs: Workspace.FileSystem, decode: Parser.Decoder, parseState: string -> Json.Json)
      ensures this.config == ResolveConfig(config)
      ensures this.locker == locker && this.taskDao == taskDao && this.hub == hub && this.fs == fs
      ensures this.decode == decode && Wired(parseState)
      ensures workspace.basePath == this.config.basePath
      ensures runner == Runner.NewRunner(this.config.timeout)
      ensures fresh(base) && base.status == Base.Pending && base.cancel == None
      ensures errors == []
    {
      var c := ResolveConfig(config);
      this.config := c;
      this.locker := locker;
      this.taskDao := taskDao;
      this.hub := hub;
      this.fs := fs;
      this.decode := decode;
      parsePlan := (output: string) => Parser.ParsePlan(output, decode);
      parseTfstate := (data: string) => Parser.TfstateAttrs(parseState(data));
      base := new Base.BaseExecutor();
      workspace := new Workspace.Manager(c.basePath);
      runner := Runner.NewRunner(c.timeout);
      errors := [];
    }

    /** The parser entry points are TerraformParser's, with the executor's
        decoder and `parseState` decoding the state file. */
    ghost predicate Wired(parseState: string -> Json.Json) {
      (forall output :: parsePlan(output) == Parser.ParsePlan(output, decode)) &&
      (forall data :: parseTfstate(data) == Parser.TfstateAttrs(parseState(data)))
    }

    function HubObjects(): set<Hub.Hub> {
      if hub.Some? then {hub.value} else {}
    }

    function DaoObjects(): set<TaskDao.ExecutionTaskDao> {
      if taskDao.Some? then {taskDao.value} else {}
    }

    function LockMems(): set<MemoryLock.MemoryLocker> {
      if locker.Some? then locker.value.Mems() else {}
    }

    function LockDbs(): set<DbLock.DbLocker> {
      if locker.Some? then locker.value.Dbs() else {}
    }

    /** The observers a message about task `t` reaches. */
    function Watchers(t: string): set<Hub.Client>
      reads HubObjects()`clients
    {
      if hub.Some? then Hub.Observers(hub.value.clients, t) else {}
    }

    function LockTable(): Lock.Table
      reads LockMems()`locks, LockDbs()`rows
    {
      if locker.Some? then locker.value.Table() else map[]
    }

    function LockStep(table: Lock.Table, r: int, t: string, now: int): (Option<string>, Lock.Table) {
      if locker.Some? then locker.value.Step(table, r, t, now) else (None, table)
    }

    /** The lock table after the deferred Release. */
    function Released(table: Lock.Table, r: int): Lock.Table {
      if locker.Some? then table - {r} else table
    }

    function Tasks(): map<string, ExecutionTask>
      reads DaoObjects()`tasks
    {
      if taskDao.Some? then taskDao.value.tasks else map[]
    }

    predicate DaoValid()
      reads DaoObjects()`tasks, DaoObjects()`order
    {
      taskDao.Some? ==> taskDao.value.Valid()
    }

    /** Every observer of `t` is open: Go panics on a send to a closed queue. */
    ghost predicate Open(t: string)
      reads HubObjects()`clients, Watchers(t)`closed
    {
      forall c :: c in Watchers(t) ==> !c.closed
    }

    /** The queues of the observers of `t`. */
    ghost function Queues(t: string): map<Hub.Client, seq<Hub.Message>>
      reads HubObjects()`clients, Watchers(t)`queue
    {
      map c | c in Watchers(t) :: c.queue
    }

    /** Every observer of `t` is open and its queue is its queue at the start
        of the run with every published envelope offered to it. */
    ghost predicate HubInv(t: string)
      reads this`published, this`snapshot, HubObjects()`clients, Watchers(t)`queue, Watchers(t)`closed
    {
      hub.Some? ==> forall c :: c in Watchers(t) ==>
        c in snapshot && !c.closed && c.queue == Hub.OfferAll(snapshot[c], c.capacity, published)
    }

    /** The error of one terraform command: the runner's error wrapped with
        the command's name, or none. */
    function PhaseError(action: string, run: Runner.Outcome): Option<string> {
      var e := RunFailure(run);
      if e.Some? then Some(Failure(action, e.value)) else None
    }

    /** The runner's error for a process: none when it succeeded, the
        timeout when it was killed at the deadline, its own error otherwise. */
    function RunFailure(run: Runner.Outcome): Option<string> {
      if run.err.None? then None
      else if run.deadlineExceeded then Some(Runner.TimedOut(runner.timeout))
      else Some(run.err.value.message)
    }

    /** It is the error the runner classifies the process with. */
    lemma RunFailureClassified(run: Runner.Outcome)
      ensures RunFailure(run) == Runner.Classify(runner.timeout, Runner.Written(run.chunks), run).error
    {
    }

    /** The flags of the action's own command. */
    function ActionFlags(action: string): seq<string> {
      if action == Base.ActionPlan then PlanFlags else ApplyFlags
    }

    /** The share of the work announced with the action's own command. */
    function ActionPercent(action: string): int {
      if action == Base.ActionPlan then 30 else 50
    }

    predicate RunsAfterInit(action: string) {
      action == Base.ActionPlan || action == Base.ActionApply || action == Base.ActionDestroy
    }

    /** The error of an action: init's when init fails, then that of the
        action's own command; an unsupported action fails without a command. */
    function ActionError(action: string, initRun: Runner.Outcome, actionRun: Runner.Outcome): Option<string> {
      if action == Base.ActionInit then PhaseError(Base.ActionInit, initRun)
      else if RunsAfterInit(action) then PairError(action, initRun, actionRun)
      else Some("unsupported action: " + action)
    }

    /** The commands an action runs: init first, and the action's own command
        only when init succeeded; none for an unsupported action. */
    function Invocations(action: string, workDir: string, initRun: Runner.Outcome): seq<seq<string>> {
      var init := Command(config.binaryPath, workDir, Base.ActionInit, InitFlags);
      if action == Base.ActionInit then [init]
      else if RunsAfterInit(action) then
        if PhaseError(Base.ActionInit, initRun).Some? then [init]
        else [init, Command(config.binaryPath, workDir, action, ActionFlags(action))]
      else []
    }

    /** The envelopes of one phase: its progress announcement, then a log
        message for every line of its command. */
    function Phase(t: string, action: string, percent: int, run: Runner.Outcome, now: int): seq<Hub.Message> {
      [ProgressMsg(t, action, percent, Announcement(action), now)] + HandlerLogs(t, Delivered(run), decode, now)
    }

    /** Every action that is run starts with init; when init fails, its error
        is the action's and the action's own command never runs; when init
        succeeds the action's own command runs next and decides the error. */
    lemma InitFirst(action: string, workDir: string, initRun: Runner.Outcome, actionRun: Runner.Outcome)
      requires action == Base.ActionInit || RunsAfterInit(action)
      ensures Invocations(action, workDir, initRun)[0] == Command(config.binaryPath, workDir, Base.ActionInit, InitFlags)
      ensures PhaseError(Base.ActionInit, initRun).Some? ==>
        ActionError(action, initRun, actionRun) == PhaseError(Base.ActionInit, initRun) &&
        |Invocations(action, workDir, initRun)| == 1
      ensures RunsAfterInit(action) && initRun.err.None? ==>
        |Invocations(action, workDir, initRun)| == 2 && Invocations(action, workDir, initRun)[1][2] == action &&
        (ActionError(action, initRun, actionRun).None? <==> actionRun.err.None?)
    {
    }

    /** Only the four actions run anything, and their errors are wrapped. */
    lemma UnsupportedRunsNothing(action: string, workDir: string, initRun: Runner.Outcome, actionRun: Runner.Outcome)
      ensures action != Base.ActionInit && !RunsAfterInit(action) <==> Invocations(action, workDir, initRun) == []
      ensures action != Base.ActionInit && !RunsAfterInit(action) ==>
        ActionError(action, initRun, actionRun) == Some("unsupported action: " + action)
    {
    }

    // ----- publishing -----

    /** Hands one envelope to the hub, when there is one. Each of the hub's
        Send methods broadcasts the envelope it builds. */
    method Publish(t: string, msg: Hub.Message)
      requires HubInv(t)
      modifies this`published, Watchers(t)`queue
      ensures published == old(published) + [msg]
      ensures HubInv(t)
    {
      if hub.Some? {
        hub.value.Broadcast(t, msg);
        forall c | c in Watchers(t)
          ensures c.queue == Hub.OfferAll(snapshot[c], c.capacity, published + [msg])
        {
          Hub.OfferAllSnoc(snapshot[c], c.capacity, published, msg);
        }
      }
      published := published + [msg];
    }

    method SendProgress(t: string, phase: string, percent: int, message: string, now: int)
      requires HubInv(t)
      modifies this`published, Watchers(t)`queue
      ensures published == old(published) + [ProgressMsg(t, phase, percent, message, now)]
      ensures HubInv(t)
    {
      Publish(t, ProgressMsg(t, phase, percent, message, now));
    }

    method SendComplete(t: string, success: bool, result: Base.ExecuteResult, now: int)
      requires HubInv(t)
      modifies this`published, Watchers(t)`queue
      ensures published == old(published) + [CompleteMsg(t, success, result, now)]
      ensures HubInv(t)
    {
      Publish(t, CompleteMsg(t, success, result, now));
    }

    /** sendLog: a line that does not decode is forwarded as it is; one that
        does is forwarded as its `@message`, and an error diagnostic in it
        is kept. */
    method SendLog(t: string, line: string, now: int)
      requires HubInv(t)
      modifies this`errors, this`published, Watchers(t)`queue
      ensures errors == old(errors) + Caught(line, decode)
      ensures published == old(published) + [LogMsg(t, Forwarded(line, decode), now)]
      ensures HubInv(t)
    {
      var msg := decode(line);
      if msg.None? {
        Publish(t, LogMsg(t, line, now));
        return;
      }
      Publish(t, LogMsg(t, msg.value.message, now));
      if msg.value.msgType == "diagnostic" && msg.value.diagnostic.Some? && msg.value.diagnostic.value.severity == "error" {
        errors := errors + [msg.value.diagnostic.value];
      }
    }

    /** getErrorSummary: the blocks are written one after another into a
        builder, with the separator before every block but the first. */
    method ErrorSummary() returns (s: string)
      ensures s == Summary(errors)
    {
      if |errors| == 0 {
        return "";
      }
      s := "";
      var i := 0;
      while i < |errors|
        invariant 0 <= i <= |errors|
        invariant s == Summary(errors[..i])
      {
        if i > 0 {
          s := s + Separator;
          SummarySnoc(errors[..i], errors[i]);
        } else {
          assert Blocks(errors[..1]) == [Block(errors[0])];
        }
        s := s + Block(errors[i]);
        assert errors[..i + 1] == errors[..i] + [errors[i]];
        i := i + 1;
      }
      assert errors[..i] == errors;
    }

    /** completeTask: completes the record, when there is a task store, with
        the current error summary as its output. */
    method CompleteTask(t: string, success: bool, errMsg: string, finish: int)
      requires DaoValid()
      modifies DaoObjects()`tasks
      ensures DaoValid()
      ensures Tasks() == CompleteIn(old(Tasks()), t, success, Summary(errors), errMsg, finish)
    {
      if taskDao.Some? {
        var summary := ErrorSummary();
        var _ := taskDao.value.Complete(t, success, summary, errMsg, finish);
      }
    }

    // ----- the phases -----

    /** ExecWithHandler with the executor's handler: every delivered line is
        cleaned of colour sequences and handed to sendLog, in order. */
    method RunCommand(t: string, args: seq<string>, run: Runner.Outcome, now: int) returns (r: Runner.Result)
      requires args != []
      requires HubInv(t)
      modifies this`errors, this`published, this`invoked, Watchers(t)`queue, fs`files
      ensures r == Runner.Classify(runner.timeout, Runner.Written(run.chunks), run)
      ensures invoked == old(invoked) + [args]
      ensures fs.files == old(fs.files) + run.writes
      ensures errors == old(errors) + HandlerErrors(Delivered(run), decode)
      ensures published == old(published) + HandlerLogs(t, Delivered(run), decode, now)
      ensures HubInv(t)
    {
      var lines;
      r, lines := Runner.ExecWithHandler(runner, args, run, true);
      fs.files := fs.files + run.writes;
      invoked := invoked + [args];
      Handle(t, lines, now);
    }

    /** The handler over the delivered lines, one line after another. */
    method Handle(t: string, lines: seq<string>, now: int)
      requires HubInv(t)
      modifies this`errors, this`published, Watchers(t)`queue
      ensures errors == old(errors) + HandlerErrors(lines, decode)
      ensures published == old(published) + HandlerLogs(t, lines, decode, now)
      ensures HubInv(t)
    {
      var i := 0;
      while i < |lines|
        invariant 0 <= i <= |lines|
        invariant errors == old(errors) + HandlerErrors(lines[..i], decode)
        invariant published == old(published) + HandlerLogs(t, lines[..i], decode, now)
        invariant HubInv(t)
      {
        SendLog(t, Runner.StripANSI(lines[i]), now);
        HandlerStep(t, lines, i, decode, now);
        i := i + 1;
      }
      assert lines[..i] == lines;
    }

    /** One phase: the progress is updated and announced, then the
        phase's command is run with the log handler. */
    method Stage(t: string, workDir: string, action: string, percent: int, flags: seq<string>, run: Runner.Outcome, now: int)
      returns (r: Runner.Result)
      requires HubInv(t)
      modifies base`progress, this`errors, this`published, this`invoked, Watchers(t)`queue, fs`files
      ensures r == Runner.Classify(runner.timeout, Runner.Written(run.chunks), run)
      ensures invoked == old(invoked) + [Command(config.binaryPath, workDir, action, flags)]
      ensures fs.files == old(fs.files) + run.writes
      ensures base.progress == Base.Progress(action, percent, old(base.progress).elapsed, Announcement(action))
      ensures published == old(published) + Phase(t, action, percent, run, now)
      ensures errors == old(errors) + HandlerErrors(Delivered(run), decode)
      ensures HubInv(t)
    {
      base.UpdateProgress(action, percent, Announcement(action));
      SendProgress(t, action, percent, Announcement(action), now);
      r := RunCommand(t, Command(config.binaryPath, workDir, action, flags), run, now);
    }

    /** One phase with its error: the runner's error wrapped with the
        phase's name. */
    method RunPhase(t: string, workDir: string, action: string, percent: int, flags: seq<string>, run: Runner.Outcome,
                    now: int) returns (err: Option<string>)
      requires HubInv(t)
      modifies base`progress, this`errors, this`published, this`invoked, Watchers(t)`queue, fs`files
      ensures err == PhaseError(action, run)
      ensures invoked == old(invoked) + [Command(config.binaryPath, workDir, action, flags)]
      ensures fs.files == old(fs.files) + run.writes
      ensures base.progress == Base.Progress(action, percent, old(base.progress).elapsed, Announcement(action))
      ensures published == old(published) + Phase(t, action, percent, run, now)
      ensures errors == old(errors) + HandlerErrors(Delivered(run), decode)
      ensures HubInv(t)
    {
      var r := Stage(t, workDir, action, percent, flags, run, now);
      if r.error.Some? {
        return Some(Failure(action, r.error.value));
      }
      err := None;
    }

    /** init: announces itself, runs `terraform init` and wraps its error. */
    method Init(t: string, workDir: string, run: Runner.Outcome, now: int) returns (err: Option<string>)
      requires HubInv(t)
      modifies base`progress, this`errors, this`published, this`invoked, Watchers(t)`queue, fs`files
      ensures err == PhaseError(Base.ActionInit, run)
      ensures fs.files == old(fs.files) + run.writes
      ensures invoked == old(invoked) + [Command(config.binaryPath, workDir, Base.ActionInit, InitFlags)]
      ensures base.progress == Base.Progress(Base.ActionInit, 10, old(base.progress).elapsed, Announcement(Base.ActionInit))
      ensures published == old(published) + Phase(t, Base.ActionInit, 10, run, now)
      ensures errors == old(errors) + HandlerErrors(Delivered(run), decode)
      ensures HubInv(t)
    {
      err := RunPhase(t, workDir, Base.ActionInit, 10, InitFlags, run, now);
    }

    /** The files after init and, when init succeeded, the action's own
        command have written theirs. */
    function PairFiles(files: map<string, string>, initRun: Runner.Outcome, actionRun: Runner.Outcome)
      : map<string, string>
    {
      if PhaseError(Base.ActionInit, initRun).Some? then files + initRun.writes
      else files + initRun.writes + actionRun.writes
    }

    /** The error of an action that runs after init: init's when init
        fails, otherwise that of the action's own command. */
    function PairError(action: string, initRun: Runner.Outcome, actionRun: Runner.Outcome): Option<string> {
      if PhaseError(Base.ActionInit, initRun).Some? then PhaseError(Base.ActionInit, initRun)
      else PhaseError(action, actionRun)
    }

    /** The envelopes of init's phase, then of the action's own phase when
        init succeeded. */
    function PairLog(t: string, action: string, percent: int, initRun: Runner.Outcome, actionRun: Runner.Outcome, now: int)
      : seq<Hub.Message>
    {
      Phase(t, Base.ActionInit, 10, initRun, now) +
      (if PhaseError(Base.ActionInit, initRun).Some? then [] else Phase(t, action, percent, actionRun, now))
    }

    /** The diagnostics of the same phases. */
    function PairErrors(action: string, initRun: Runner.Outcome, actionRun: Runner.Outcome): seq<Diagnostic> {
      HandlerErrors(Delivered(initRun), decode) +
      (if PhaseError(Base.ActionInit, initRun).Some? then [] else HandlerErrors(Delivered(actionRun), decode))
    }

    /** The progress record of the last phase that started. */
    function PairProgress(p: Base.Progress, action: string, percent: int, initRun: Runner.Outcome): Base.Progress {
      if PhaseError(Base.ActionInit, initRun).Some? then
        Base.Progress(Base.ActionInit, 10, p.elapsed, Announcement(Base.ActionInit))
      else Base.Progress(action, percent, p.elapsed, Announcement(action))
    }

    /** The common part of plan, apply and destroy: init, then the action's
        own command when init succeeded. */
    method Pair(t: string, workDir: string, action: string, percent: int, flags: seq<string>,
                initRun: Runner.Outcome, actionRun: Runner.Outcome, now: int) returns (err: Option<string>)
      requires HubInv(t)
      modifies base`progress, this`errors, this`published, this`invoked, Watchers(t)`queue, fs`files
      ensures err == PairError(action, initRun, actionRun)
      ensures fs.files == PairFiles(old(fs.files), initRun, actionRun)
      ensures PhaseError(Base.ActionInit, initRun).Some? ==>
        invoked == old(invoked) + [Command(config.binaryPath, workDir, Base.ActionInit, InitFlags)]
      ensures PhaseError(Base.ActionInit, initRun).None? ==>
        invoked == old(invoked) + [Command(config.binaryPath, workDir, Base.ActionInit, InitFlags),
                                   Command(config.binaryPath, workDir, action, flags)]
      ensures base.progress == PairProgress(old(base.progress), action, percent, initRun)
      ensures published == old(published) + PairLog(t, action, percent, initRun, actionRun, now)
      ensures errors == old(errors) + PairErrors(action, initRun, actionRun)
      ensures HubInv(t)
    {
      err := Init(t, workDir, initRun, now);
      if err.Some? {
        assert Phase(t, Base.ActionInit, 10, initRun, now) + [] == Phase(t, Base.ActionInit, 10, initRun, now);
        assert HandlerErrors(Delivered(initRun), decode) + [] == HandlerErrors(Delivered(initRun), decode);
        return;
      }
      err := RunPhase(t, workDir, action, percent, flags, actionRun, now);
      AppendTwo(old(published), Phase(t, Base.ActionInit, 10, initRun, now), Phase(t, action, percent, actionRun, now));
      AppendTwo(old(errors), HandlerErrors(Delivered(initRun), decode), HandlerErrors(Delivered(actionRun), decode));
    }

    /** The log line plan sends for the output of its command. */
    function PlanNotice(output: string): string {
      PlanSummary(parsePlan(output))
    }

    /** The tail of plan: the counts found in the output are logged. */
    method ReportPlan(t: string, output: string, now: int)
      requires HubInv(t)
      modifies this`errors, this`published, Watchers(t)`queue
      ensures published == old(published) + [LogMsg(t, Forwarded(PlanNotice(output), decode), now)]
      ensures errors == old(errors) + Caught(PlanNotice(output), decode)
      ensures HubInv(t)
    {
      var info := parsePlan(output);
      SendLog(t, PlanSummary(info), now);
    }

    /** plan: init, then `terraform plan`, then a log line with the counts
        the parser finds in its output. */
    method Plan(t: string, workDir: string, initRun: Runner.Outcome, planRun: Runner.Outcome, now: int)
      returns (err: Option<string>)
      requires HubInv(t)
      modifies base`progress, this`errors, this`published, this`invoked, Watchers(t)`queue, fs`files
      ensures err == PairError(Base.ActionPlan, initRun, planRun)
      ensures fs.files == PairFiles(old(fs.files), initRun, planRun)
      ensures PhaseError(Base.ActionInit, initRun).Some? ==>
        invoked == old(invoked) + [Command(config.binaryPath, workDir, Base.ActionInit, InitFlags)]
      ensures PhaseError(Base.ActionInit, initRun).None? ==>
        invoked == old(invoked) + [Command(config.binaryPath, workDir, Base.ActionInit, InitFlags),
                                   Command(config.binaryPath, workDir, Base.ActionPlan, PlanFlags)]
      ensures base.progress == PairProgress(old(base.progress), Base.ActionPlan, 30, initRun)
      ensures published == old(published) + (PairLog(t, Base.ActionPlan, 30, initRun, planRun, now) +
        (if err.Some? then [] else [LogMsg(t, Forwarded(PlanNotice(Runner.Written(planRun.chunks)), decode), now)]))
      ensures errors == old(errors) + (PairErrors(Base.ActionPlan, initRun, planRun) +
        (if err.Some? then [] else Caught(PlanNotice(Runner.Written(planRun.chunks)), decode)))
      ensures HubInv(t)
    {
      err := Pair(t, workDir, Base.ActionPlan, 30, PlanFlags, initRun, planRun, now);
      ghost var log, errs := PairLog(t, Base.ActionPlan, 30, initRun, planRun, now), PairErrors(Base.ActionPlan, initRun, planRun);
      if err.None? {
        ReportPlan(t, Runner.Written(planRun.chunks), now);
      }
      AppendTwo(old(published), log, published[|old(published)| + |log|..]);
      AppendTwo(old(errors), errs, errors[|old(errors)| + |errs|..]);
    }

    /** The line apply logs after reading the state file, when there is one. */
    function StateLine(files: map<string, string>, workDir: string): Option<string> {
      var statePath := Workspace.PathJoin([workDir, StateFile]);
      if statePath in files then Some(ExtractedLine(|parseTfstate(files[statePath])|)) else None
    }

    /** What sendLog publishes and keeps for a line that may be missing. */
    function LogOf(t: string, line: Option<string>, now: int): seq<Hub.Message> {
      if line.Some? then [LogMsg(t, Forwarded(line.value, decode), now)] else []
    }

    function CaughtOf(line: Option<string>): seq<Diagnostic> {
      if line.Some? then Caught(line.value, decode) else []
    }

    /** The tail of apply: the state file is read when it exists and the
        number of attributes found is logged. */
    method ReportState(t: string, workDir: string, ghost files: map<string, string>, now: int)
      requires files == fs.files && HubInv(t)
      modifies this`errors, this`published, Watchers(t)`queue
      ensures published == old(published) + LogOf(t, StateLine(files, workDir), now)
      ensures errors == old(errors) + CaughtOf(StateLine(files, workDir))
      ensures HubInv(t)
    {
      var statePath := Workspace.PathJoin([workDir, StateFile]);
      var present := workspace.Exists(fs, statePath);
      if present {
        var data := workspace.ReadFile(fs, workDir, StateFile);
        if data.Ok? {
          var attrs := parseTfstate(data.value);
          SendLog(t, ExtractedLine(|attrs|), now);
          return;
        }
      }
    }

    /** The progress record apply leaves after its command succeeded. */
    function Parsing(p: Base.Progress): Base.Progress {
      Base.Progress(Base.ActionApply, 90, p.elapsed, "Parsing tfstate...")
    }

    /** apply: init, then `terraform apply`, then the state report. */
    method Apply(t: string, workDir: string, ghost files: map<string, string>, initRun: Runner.Outcome,
                 applyRun: Runner.Outcome, now: int) returns (err: Option<string>)
      requires files == fs.files && HubInv(t)
      modifies base`progress, this`errors, this`published, this`invoked, Watchers(t)`queue, fs`files
      ensures err == PairError(Base.ActionApply, initRun, applyRun)
      ensures fs.files == PairFiles(old(fs.files), initRun, applyRun)
      ensures PhaseError(Base.ActionInit, initRun).Some? ==>
        invoked == old(invoked) + [Command(config.binaryPath, workDir, Base.ActionInit, InitFlags)]
      ensures PhaseError(Base.ActionInit, initRun).None? ==>
        invoked == old(invoked) + [Command(config.binaryPath, workDir, Base.ActionInit, InitFlags),
                                   Command(config.binaryPath, workDir, Base.ActionApply, ApplyFlags)]
      ensures base.progress ==
        if err.Some? then PairProgress(old(base.progress), Base.ActionApply, 50, initRun) else Parsing(old(base.progress))
      ensures published == old(published) + (PairLog(t, Base.ActionApply, 50, initRun, applyRun, now) +
        (if err.Some? then [] else LogOf(t, StateLine(PairFiles(files, initRun, applyRun), workDir), now)))
      ensures errors == old(errors) + (PairErrors(Base.ActionApply, initRun, applyRun) +
        (if err.Some? then [] else CaughtOf(StateLine(PairFiles(files, initRun, applyRun), workDir))))
      ensures HubInv(t)
    {
      err := Pair(t, workDir, Base.ActionApply, 50, ApplyFlags, initRun, applyRun, now);
      ghost var log, errs := PairLog(t, Base.ActionApply, 50, initRun, applyRun, now), PairErrors(Base.ActionApply, initRun, applyRun);
      if err.None? {
        base.UpdateProgress(Base.ActionApply, 90, "Parsing tfstate...");
        ReportState(t, workDir, fs.files, now);
      }
      AppendTwo(old(published), log, published[|old(published)| + |log|..]);
      AppendTwo(old(errors), errs, errors[|old(errors)| + |errs|..]);
    }

    /** After a successful apply, the attribute count apply logs is that of
        the state file its own command wrote, whatever was there before. */
    lemma ApplyReadsWrittenState(files: map<string, string>, workDir: string, initRun: Runner.Outcome,
                                 applyRun: Runner.Outcome)
      requires PairError(Base.ActionApply, initRun, applyRun).None?
      requires Workspace.PathJoin([workDir, StateFile]) in applyRun.writes
      ensures StateLine(PairFiles(files, initRun, applyRun), workDir) ==
        Some(ExtractedLine(|parseTfstate(applyRun.writes[Workspace.PathJoin([workDir, StateFile])])|))
    {
    }

    /** destroy: init, then `terraform destroy`. */
    method Destroy(t: string, workDir: string, initRun: Runner.Outcome, destroyRun: Runner.Outcome, now: int)
      returns (err: Option<string>)
      requires HubInv(t)
      modifies base`progress, this`errors, this`published, this`invoked, Watchers(t)`queue, fs`files
      ensures err == PairError(Base.ActionDestroy, initRun, destroyRun)
      ensures fs.files == PairFiles(old(fs.files), initRun, destroyRun)
      ensures PhaseError(Base.ActionInit, initRun).Some? ==>
        invoked == old(invoked) + [Command(config.binaryPath, workDir, Base.ActionInit, InitFlags)]
      ensures PhaseError(Base.ActionInit, initRun).None? ==>
        invoked == old(invoked) + [Command(config.binaryPath, workDir, Base.ActionInit, InitFlags),
                                   Command(config.binaryPath, workDir, Base.ActionDestroy, ApplyFlags)]
      ensures base.progress == PairProgress(old(base.progress), Base.ActionDestroy, 50, initRun)
      ensures published == old(published) + PairLog(t, Base.ActionDestroy, 50, initRun, destroyRun, now)
      ensures errors == old(errors) + PairErrors(Base.ActionDestroy, initRun, destroyRun)
      ensures HubInv(t)
    {
      err := Pair(t, workDir, Base.ActionDestroy, 50, ApplyFlags, initRun, destroyRun, now);
    }

    /** The closing log line of an action whose command succeeded: plan's
        counts, apply's attribute count when the state file is there. */
    function TailLog(t: string, action: string, workDir: string, files: map<string, string>,
                     actionRun: Runner.Outcome, now: int): seq<Hub.Message>
    {
      if action == Base.ActionPlan then [LogMsg(t, Forwarded(PlanNotice(Runner.Written(actionRun.chunks)), decode), now)]
      else if action == Base.ActionApply then LogOf(t, StateLine(files, workDir), now)
      else []
    }

    /** The diagnostics kept from that line. */
    function TailErrors(action: string, workDir: string, files: map<string, string>, actionRun: Runner.Outcome)
      : seq<Diagnostic>
    {
      if action == Base.ActionPlan then Caught(PlanNotice(Runner.Written(actionRun.chunks)), decode)
      else if action == Base.ActionApply then CaughtOf(StateLine(files, workDir))
      else []
    }

    /** The envelopes an action publishes: init's phase for init; for the
        others init's phase, their own when init succeeded and their closing
        line when they succeeded too; nothing for an unsupported action. */
    function DispatchLog(t: string, action: string, workDir: string, files: map<string, string>,
                         initRun: Runner.Outcome, actionRun: Runner.Outcome, now: int): seq<Hub.Message>
    {
      if action == Base.ActionInit then Phase(t, Base.ActionInit, 10, initRun, now)
      else if RunsAfterInit(action) then
        PairLog(t, action, ActionPercent(action), initRun, actionRun, now) +
        (if PairError(action, initRun, actionRun).Some? then [] else
          TailLog(t, action, workDir, PairFiles(files, initRun, actionRun), actionRun, now))
      else []
    }

    /** The diagnostics an action keeps, with the same structure. */
    function DispatchErrors(action: string, workDir: string, files: map<string, string>,
                            initRun: Runner.Outcome, actionRun: Runner.Outcome): seq<Diagnostic>
    {
      if action == Base.ActionInit then HandlerErrors(Delivered(initRun), decode)
      else if RunsAfterInit(action) then
        PairErrors(action, initRun, actionRun) +
        (if PairError(action, initRun, actionRun).Some? then [] else
          TailErrors(action, workDir, PairFiles(files, initRun, actionRun), actionRun))
      else []
    }

    /** The files after an action's commands: what init wrote, then what
        the action's own command wrote when it ran; an unsupported action runs
        nothing. */
    function DispatchFiles(files: map<string, string>, action: string, initRun: Runner.Outcome, actionRun: Runner.Outcome)
      : map<string, string>
    {
      if action == Base.ActionInit then files + initRun.writes
      else if RunsAfterInit(action) then PairFiles(files, initRun, actionRun)
      else files
    }

    /** The progress record after an action: that of the last phase that
        started, or apply's parsing step after a successful apply; an
        unsupported action leaves it as it was. */
    function DispatchProgress(p: Base.Progress, action: string, initRun: Runner.Outcome, actionRun: Runner.Outcome)
      : Base.Progress
    {
      if action == Base.ActionInit then Base.Progress(Base.ActionInit, 10, p.elapsed, Announcement(Base.ActionInit))
      else if RunsAfterInit(action) then
        (if action == Base.ActionApply && PairError(action, initRun, actionRun).None? then Parsing(p)
         else PairProgress(p, action, ActionPercent(action), initRun))
      else p
    }

    /** The switch on the action. */
    method Dispatch(req: Base.ExecuteRequest, workDir: string, ghost files: map<string, string>, initRun: Runner.Outcome,
                    actionRun: Runner.Outcome, now: int) returns (err: Option<string>)
      requires files == fs.files && HubInv(req.taskId)
      modifies base`progress, this`errors, this`published, this`invoked, Watchers(req.taskId)`queue, fs`files
      ensures err == ActionError(req.action, initRun, actionRun)
      ensures fs.files == DispatchFiles(files, req.action, initRun, actionRun)
      ensures invoked == old(invoked) + Invocations(req.action, workDir, initRun)
      ensures base.progress == DispatchProgress(old(base.progress), req.action, initRun, actionRun)
      ensures published == old(published) + DispatchLog(req.taskId, req.action, workDir, files, initRun, actionRun, now)
      ensures errors == old(errors) + DispatchErrors(req.action, workDir, files, initRun, actionRun)
      ensures HubInv(req.taskId)
    {
      var t := req.taskId;
      if req.action == Base.ActionInit {
        err := Init(t, workDir, initRun, now);
      } else if req.action == Base.ActionPlan {
        err := Plan(t, workDir, initRun, actionRun, now);
      } else if req.action == Base.ActionApply {
        err := Apply(t, workDir, files, initRun, actionRun, now);
      } else if req.action == Base.ActionDestroy {
        err := Destroy(t, workDir, initRun, actionRun, now);
      } else {
        err := Some("unsupported action: " + req.action);
      }
    }

    /** What follows the action: the result is filled in, the machine fires
        `fail` or `success`, the record is completed with the error summary
        and the observers get the complete message. */
    method Conclude(t: string, err: Option<string>, elapsed: int, finish: int) returns (result: Base.ExecuteResult)
      requires base.status == Base.Running
      requires HubInv(t) && DaoValid()
      modifies base`status, this`published, Watchers(t)`queue, DaoObjects()`tasks
      ensures base.status == if err.None? then Base.Success else Base.Failed
      ensures result == Finished(t, err, Summary(errors), elapsed)
      ensures Tasks() == CompleteIn(old(Tasks()), t, err.None?, Summary(errors), ErrText(err), finish)
      ensures published == old(published) + [CompleteMsg(t, err.None?, result, finish)]
      ensures HubInv(t) && DaoValid()
    {
      var output := ErrorSummary();
      result := Base.ExecuteResult(t, Base.Running, output, "", TaskDao.Milliseconds(elapsed), map[]);
      if err.Some? {
        result := result.(status := Base.Failed, error := err.value);
        var _ := base.Transition("fail");
        CompleteTask(t, false, err.value, finish);
        SendComplete(t, false, result, finish);
        return;
      }
      result := result.(status := Base.Success);
      var _ := base.Transition("success");
      CompleteTask(t, true, "", finish);
      SendComplete(t, true, result, finish);
    }

    /** The action, then its conclusion. */
    method Act(req: Base.ExecuteRequest, workDir: string, ghost files: map<string, string>, initRun: Runner.Outcome,
               actionRun: Runner.Outcome, now: int, finish: int) returns (result: Base.ExecuteResult, err: Option<string>)
      requires files == fs.files && base.status == Base.Running
      requires HubInv(req.taskId) && DaoValid()
      modifies base`progress, base`status, this`errors, this`published, this`invoked, Watchers(req.taskId)`queue,
        DaoObjects()`tasks, fs`files
      ensures err == ActionError(req.action, initRun, actionRun)
      ensures fs.files == DispatchFiles(files, req.action, initRun, actionRun)
      ensures errors == old(errors) + DispatchErrors(req.action, workDir, files, initRun, actionRun)
      ensures invoked == old(invoked) + Invocations(req.action, workDir, initRun)
      ensures base.progress == DispatchProgress(old(base.progress), req.action, initRun, actionRun)
      ensures base.status == if err.None? then Base.Success else Base.Failed
      ensures result == Finished(req.taskId, err, Summary(errors), finish - now)
      ensures Tasks() == CompleteIn(old(Tasks()), req.taskId, err.None?, Summary(errors), ErrText(err), finish)
      ensures published == old(published) + DispatchLog(req.taskId, req.action, workDir, files, initRun, actionRun, now) +
        [CompleteMsg(req.taskId, err.None?, result, finish)]
      ensures HubInv(req.taskId) && DaoValid()
    {
      err := Dispatch(req, workDir, files, initRun, actionRun, now);
      result := Conclude(req.taskId, err, finish - now, finish);
    }

    // ----- the run around the action -----

    /** The directory a request runs in: its own, or a new one under the
        base path for its resource and task. */
    function WorkDirOf(req: Base.ExecuteRequest): string {
      if req.workDir != "" then req.workDir
      else workspace.GenPath("default", "default", Text.IntToString(req.resourceId), req.taskId)
    }

    /** The run gets to its action: the machine was fresh and a needed work
        directory could be created. */
    predicate Reaches(req: Base.ExecuteRequest, status: Base.Status, files: map<string, string>) {
      status == Base.Pending && !(req.workDir == "" && Blocked(files, WorkDirOf(req)))
    }

    /** Step 3 of a run: the record is started and the machine fires
        `start`; a machine that is not fresh refuses, and the record is then
        completed as failed. */
    method StartRun(t: string, now: int, finish: int) returns (err: Option<string>)
      requires DaoValid()
      modifies base`status, DaoObjects()`tasks
      ensures DaoValid()
      ensures err == if old(base.status) == Base.Pending then None
        else Some(Base.TransitionError(old(base.status), "start"))
      ensures base.status == if err.None? then Base.Running else old(base.status)
      ensures Tasks() == if err.Some? then CompleteIn(StartIn(old(Tasks()), t, now), t, false, Summary(errors), err.value, finish)
        else StartIn(old(Tasks()), t, now)
    {
      if taskDao.Some? {
        var _ := taskDao.value.Start(t, now);
      }
      err := base.Transition("start");
      if err.Some? {
        CompleteTask(t, false, err.value, finish);
      }
    }

    /** A run that cannot get its work directory: the machine fires `fail`
        and the record is completed as failed with the error. */
    method Abandon(t: string, e: string, finish: int)
      requires base.status == Base.Running && DaoValid()
      modifies base`status, DaoObjects()`tasks
      ensures DaoValid()
      ensures base.status == Base.Failed
      ensures Tasks() == CompleteIn(old(Tasks()), t, false, Summary(errors), e, finish)
    {
      var _ := base.Transition("fail");
      CompleteTask(t, false, e, finish);
    }

    /** Step 5: the request's own directory, or a new one; when it cannot
        be created the run is abandoned. */
    method OpenWorkDir(req: Base.ExecuteRequest, finish: int) returns (workDir: string, err: Option<string>)
      requires base.status == Base.Running && DaoValid()
      modifies base`status, DaoObjects()`tasks, fs`dirs
      ensures DaoValid()
      ensures err.Some? <==> req.workDir == "" && Blocked(fs.files, WorkDirOf(req))
      ensures err.None? ==> workDir == WorkDirOf(req) && base.status == Base.Running && Tasks() == old(Tasks())
      ensures err.Some? ==>
        Text.HasPrefix(err.value, "failed to create workspace: ") && base.status == Base.Failed &&
        Tasks() == CompleteIn(old(Tasks()), req.taskId, false, Summary(errors), err.value, finish)
      ensures fs.dirs == if req.workDir == "" && err.None? then old(fs.dirs) + Workspace.Ancestry(workDir) else old(fs.dirs)
    {
      workDir, err := req.workDir, None;
      if workDir == "" {
        workDir, err := workspace.Create(fs, "default", "default", Text.IntToString(req.resourceId), req.taskId);
        if err.Some? {
          Abandon(req.taskId, err.value, finish);
        }
      }
    }

    /** Steps 3 to 5 of a run: start, the cancel function, the work
        directory. */
    method Prepare(req: Base.ExecuteRequest, cancelFn: Base.CancelFunc, now: int, finish: int)
      returns (workDir: string, err: Option<string>)
      requires DaoValid()
      modifies base`status, base`cancel, DaoObjects()`tasks, fs`dirs
      ensures DaoValid()
      ensures err.Some? <==> !Reaches(req, old(base.status), fs.files)
      ensures old(base.status) != Base.Pending ==>
        err == Some(Base.TransitionError(old(base.status), "start")) && base.status == old(base.status) &&
        base.cancel == old(base.cancel)
      ensures old(base.status) == Base.Pending ==> base.cancel == Some(cancelFn)
      ensures old(base.status) == Base.Pending && err.Some? ==>
        Text.HasPrefix(err.value, "failed to create workspace: ") && base.status == Base.Failed
      ensures err.None? ==> workDir == WorkDirOf(req) && base.status == Base.Running
      ensures Tasks() == if err.Some? then CompleteIn(StartIn(old(Tasks()), req.taskId, now), req.taskId, false, Summary(errors), err.value, finish)
        else StartIn(old(Tasks()), req.taskId, now)
      ensures fs.dirs == if req.workDir == "" && err.None? then old(fs.dirs) + Workspace.Ancestry(workDir) else old(fs.dirs)
    {
      workDir := "";
      err := StartRun(req.taskId, now, finish);
      if err.Some? {
        return;
      }
      base.SetCancel(cancelFn);
      workDir, err := OpenWorkDir(req, finish);
    }

    /** The start of the action: no envelope handed over yet, and the
        observers' queues noted as they stand. */
    method Begin(t: string)
      requires Open(t)
      modifies this`snapshot, this`published, this`invoked
      ensures published == [] && invoked == [] && snapshot == Queues(t) && snapshot == old(Queues(t))
      ensures HubInv(t)
      ensures Tasks() == old(Tasks()) && LockTable() == old(LockTable())
    {
      snapshot, published, invoked := Queues(t), [], [];
    }

    /** Steps 6 and 7 of a run, with the deferred Clean of a created work
        directory. */
    method Perform(req: Base.ExecuteRequest, workDir: string, initRun: Runner.Outcome, actionRun: Runner.Outcome,
                   now: int, finish: int) returns (result: Base.ExecuteResult, err: Option<string>)
      requires base.status == Base.Running && workDir == WorkDirOf(req)
      requires HubInv(req.taskId) && DaoValid()
      modifies base`progress, base`status, this`errors, this`published, this`invoked,
        Watchers(req.taskId)`queue, DaoObjects()`tasks, fs`dirs, fs`files
      ensures HubInv(req.taskId) && DaoValid()
      ensures err == ActionError(req.action, initRun, actionRun)
      ensures errors == old(errors) + DispatchErrors(req.action, workDir, old(fs.files), initRun, actionRun)
      ensures invoked == old(invoked) + Invocations(req.action, workDir, initRun)
      ensures base.progress == DispatchProgress(old(base.progress), req.action, initRun, actionRun)
      ensures base.status == if err.None? then Base.Success else Base.Failed
      ensures result == Finished(req.taskId, err, Summary(errors), finish - now)
      ensures Tasks() == CompleteIn(old(Tasks()), req.taskId, err.None?, Summary(errors), ErrText(err), finish)
      ensures published == old(published) + DispatchLog(req.taskId, req.action, workDir, old(fs.files), initRun, actionRun, now) +
        [CompleteMsg(req.taskId, err.None?, result, finish)]
      ensures fs.dirs == if req.workDir == "" then CleanedDirs(old(fs.dirs), workDir) else old(fs.dirs)
      ensures fs.files == if req.workDir == "" then CleanedFiles(DispatchFiles(old(fs.files), req.action, initRun, actionRun), workDir)
        else DispatchFiles(old(fs.files), req.action, initRun, actionRun)
    {
      result, err := Act(req, workDir, fs.files, initRun, actionRun, now, finish);
      if req.workDir == "" {
        Tidy(req.taskId, workDir);
      }
    }

    /** The deferred Clean of a work directory the run created. */
    method Tidy(t: string, workDir: string)
      requires HubInv(t) && DaoValid()
      modifies fs`dirs, fs`files
      ensures HubInv(t) && DaoValid() && Tasks() == old(Tasks())
      ensures fs.dirs == CleanedDirs(old(fs.dirs), workDir) && fs.files == CleanedFiles(old(fs.files), workDir)
    {
      var _ := workspace.Clean(fs, workDir);
    }

    /** Steps 3 to 7 of a run. */
    method Proceed(req: Base.ExecuteRequest, cancelFn: Base.CancelFunc, initRun: Runner.Outcome, actionRun: Runner.Outcome,
                   now: int, finish: int) returns (result: Base.ExecuteResult, err: Option<string>)
      requires HubInv(req.taskId) && DaoValid()
      modifies base`progress, base`status, base`cancel, this`errors, this`published, this`invoked,
        Watchers(req.taskId)`queue, DaoObjects()`tasks, fs`dirs, fs`files
      ensures HubInv(req.taskId) && DaoValid()
      ensures !Reaches(req, old(base.status), old(fs.files)) ==>
        err.Some? && result == Refused(req.taskId, err.value) &&
        (old(base.status) != Base.Pending ==> err == Some(Base.TransitionError(old(base.status), "start"))) &&
        (old(base.status) == Base.Pending ==> Text.HasPrefix(err.value, "failed to create workspace: ")) &&
        errors == old(errors) && published == old(published)
      ensures Reaches(req, old(base.status), old(fs.files)) ==>
        err == ActionError(req.action, initRun, actionRun) &&
        result == Finished(req.taskId, err, Summary(errors), finish - now)
      ensures base.status == if old(base.status) != Base.Pending then old(base.status)
        else if err.None? then Base.Success else Base.Failed
      ensures Tasks() == CompleteIn(StartIn(old(Tasks()), req.taskId, now), req.taskId, err.None?, Summary(errors),
        ErrText(err), finish)
    {
      var workDir;
      workDir, err := Prepare(req, cancelFn, now, finish);
      if err.Some? {
        result := Refused(req.taskId, err.value);
        return;
      }
      result, err := Perform(req, workDir, initRun, actionRun, now, finish);
    }

    /** Step 2 of a run: the lock on the resource, when there is a lock
        manager; a refusal completes the record as failed. */
    method Lock(req: Base.ExecuteRequest, now: int, finish: int) returns (err: Option<string>)
      requires HubInv(req.taskId) && DaoValid()
      modifies LockMems()`locks, LockDbs()`rows, DaoObjects()`tasks
      ensures HubInv(req.taskId) && DaoValid()
      ensures (err, LockTable()) == LockStep(old(LockTable()), req.resourceId, req.taskId, now)
      ensures Tasks() == if err.Some? then CompleteIn(old(Tasks()), req.taskId, false, Summary(errors), err.value, finish)
        else old(Tasks())
    {
      err := None;
      if locker.Some? {
        err := AcquireLock(locker.value, req.resourceId, req.taskId, now);
        if err.Some? {
          CompleteTask(req.taskId, false, err.value, finish);
        }
      }
    }

    /** What steps 2 to 7 of a run do, from the record table, lock table,
        machine state, files, error list and broadcasts a run starts from to
        those it ends with, its result and its error. A refused lock ends the
        run before `start`; otherwise the lock is released at the end, and
        only a run that reaches its action reports on it. */
    predicate Ran(req: Base.ExecuteRequest, initRun: Runner.Outcome, actionRun: Runner.Outcome, now: int, finish: int,
                  tasks0: map<string, ExecutionTask>, table0: Lock.Table, status0: Base.Status,
                  files0: map<string, string>, errors0: seq<Diagnostic>, published0: seq<Hub.Message>,
                  tasks: map<string, ExecutionTask>, table: Lock.Table, status: Base.Status,
                  errors: seq<Diagnostic>, published: seq<Hub.Message>,
                  result: Base.ExecuteResult, err: Option<string>)
    {
      var step := LockStep(table0, req.resourceId, req.taskId, now);
      (step.0.Some? ==>
        err == step.0 && result == Refused(req.taskId, err.value) && table == step.1 &&
        status == status0 && errors == errors0 && published == published0 &&
        tasks == CompleteIn(tasks0, req.taskId, false, Summary(errors), err.value, finish)) &&
      (step.0.None? ==>
        table == Released(step.1, req.resourceId) &&
        status == (if status0 != Base.Pending then status0 else if err.None? then Base.Success else Base.Failed) &&
        tasks == CompleteIn(StartIn(tasks0, req.taskId, now), req.taskId, err.None?, Summary(errors), ErrText(err), finish) &&
        (Reaches(req, status0, files0) ==>
          err == ActionError(req.action, initRun, actionRun) && result == Finished(req.taskId, err, Summary(errors), finish - now)) &&
        (!Reaches(req, status0, files0) ==>
          err.Some? && result == Refused(req.taskId, err.value) && errors == errors0 && published == published0))
    }

    /** Steps 2 to 7 of a run, with the deferred Release of the lock. */
    method Run(req: Base.ExecuteRequest, cancelFn: Base.CancelFunc, initRun: Runner.Outcome, actionRun: Runner.Outcome,
               now: int, finish: int) returns (result: Base.ExecuteResult, err: Option<string>)
      requires HubInv(req.taskId) && DaoValid()
      modifies base`progress, base`status, base`cancel, this`errors, this`published, this`invoked,
        Watchers(req.taskId)`queue, DaoObjects()`tasks, fs`dirs, fs`files, LockMems()`locks, LockDbs()`rows
      ensures HubInv(req.taskId) && DaoValid()
      ensures Ran(req, initRun, actionRun, now, finish, old(Tasks()), old(LockTable()), old(base.status), old(fs.files),
        old(errors), old(published), Tasks(), LockTable(), base.status, errors, published, result, err)
    {
      err := Lock(req, now, finish);
      if err.Some? {
        result := Refused(req.taskId, err.value);
        return;
      }
      result, err := Locked(req, cancelFn, initRun, actionRun, now, finish);
    }

    /** Steps 3 to 7 of a run under the lock, and the deferred Release. */
    method Locked(req: Base.ExecuteRequest, cancelFn: Base.CancelFunc, initRun: Runner.Outcome, actionRun: Runner.Outcome,
                  now: int, finish: int) returns (result: Base.ExecuteResult, err: Option<string>)
      requires HubInv(req.taskId) && DaoValid()
      modifies base`progress, base`status, base`cancel, this`errors, this`published, this`invoked,
        Watchers(req.taskId)`queue, DaoObjects()`tasks, fs`dirs, fs`files, LockMems()`locks, LockDbs()`rows
      ensures HubInv(req.taskId) && DaoValid()
      ensures LockTable() == Released(old(LockTable()), req.resourceId)
      ensures !Reaches(req, old(base.status), old(fs.files)) ==>
        err.Some? && result == Refused(req.taskId, err.value) &&
        (old(base.status) != Base.Pending ==> err == Some(Base.TransitionError(old(base.status), "start"))) &&
        (old(base.status) == Base.Pending ==> Text.HasPrefix(err.value, "failed to create workspace: ")) &&
        errors == old(errors) && published == old(published)
      ensures Reaches(req, old(base.status), old(fs.files)) ==>
        err == ActionError(req.action, initRun, actionRun) &&
        result == Finished(req.taskId, err, Summary(errors), finish - now)
      ensures base.status == if old(base.status) != Base.Pending then old(base.status)
        else if err.None? then Base.Success else Base.Failed
      ensures Tasks() == CompleteIn(StartIn(old(Tasks()), req.taskId, now), req.taskId, err.None?, Summary(errors),
        ErrText(err), finish)
    {
      result, err := Proceed(req, cancelFn, initRun, actionRun, now, finish);
      Unlock(req);
    }

    /** The deferred Release of the lock, when there is a lock manager. */
    method Unlock(req: Base.ExecuteRequest)
      requires HubInv(req.taskId) && DaoValid()
      modifies LockMems()`locks, LockDbs()`rows
      ensures HubInv(req.taskId) && DaoValid()
      ensures LockTable() == Released(old(LockTable()), req.resourceId)
    {
      if locker.Some? {
        ReleaseLock(locker.value, req.resourceId);
      }
    }

    // ----- the entry points -----

    /** The record table after step 1 admits a request: a new pending record
        under its task ID, when there is a task store. */
    function Admitted(tasks: map<string, ExecutionTask>, req: Base.ExecuteRequest): map<string, ExecutionTask> {
      if taskDao.Some? then tasks[req.taskId := TaskDao.NewTask(req.taskId, req.resourceId, req.action)] else tasks
    }

    /** Step 1 of a run: the task record, which the store's unique index
        refuses for a task ID it already holds. */
    method Record(req: Base.ExecuteRequest) returns (err: Option<string>)
      requires DaoValid()
      modifies DaoObjects()`tasks, DaoObjects()`order
      ensures DaoValid()
      ensures err.Some? <==> req.taskId in old(Tasks())
      ensures err.Some? ==> err == Some(TaskDao.DuplicateTaskId) && Tasks() == old(Tasks())
      ensures err.None? ==> Tasks() == Admitted(old(Tasks()), req)
      ensures LockTable() == old(LockTable())
      ensures old(HubInv(req.taskId)) ==> HubInv(req.taskId)
    {
      err := None;
      if taskDao.Some? {
        var task;
        task, err := taskDao.value.Create(req.taskId, req.resourceId, req.action);
      }
    }

    /** What steps 1 to 7 of a run do: a task ID the record table already
        holds is refused before anything else happens; otherwise the new
        record is inserted and the run goes on as Ran says. */
    predicate Admission(req: Base.ExecuteRequest, initRun: Runner.Outcome, actionRun: Runner.Outcome, now: int, finish: int,
                        tasks0: map<string, ExecutionTask>, table0: Lock.Table, status0: Base.Status,
                        files0: map<string, string>, errors0: seq<Diagnostic>, published0: seq<Hub.Message>,
                        tasks: map<string, ExecutionTask>, table: Lock.Table, status: Base.Status,
                        errors: seq<Diagnostic>, published: seq<Hub.Message>,
                        result: Base.ExecuteResult, err: Option<string>)
    {
      (req.taskId in tasks0 ==>
        err == Some(TaskDao.DuplicateTaskId) && result == Refused(req.taskId, err.value) &&
        tasks == tasks0 && table == table0 && status == status0 && errors == errors0 && published == published0) &&
      (req.taskId !in tasks0 ==>
        Ran(req, initRun, actionRun, now, finish, Admitted(tasks0, req), table0, status0, files0, errors0, published0,
            tasks, table, status, errors, published, result, err))
    }

    /** Steps 1 to 7 of a run. */
    method Admit(req: Base.ExecuteRequest, cancelFn: Base.CancelFunc, initRun: Runner.Outcome, actionRun: Runner.Outcome,
                   now: int, finish: int) returns (result: Base.ExecuteResult, err: Option<string>)
      requires HubInv(req.taskId) && DaoValid()
      modifies base`progress, base`status, base`cancel, this`errors, this`published, this`invoked,
        Watchers(req.taskId)`queue, DaoObjects()`tasks, DaoObjects()`order, fs`dirs, fs`files, LockMems()`locks, LockDbs()`rows
      ensures HubInv(req.taskId) && DaoValid()
      ensures Admission(req, initRun, actionRun, now, finish, old(Tasks()), old(LockTable()), old(base.status), old(fs.files),
        old(errors), old(published), Tasks(), LockTable(), base.status, errors, published, result, err)
    {
      err := Record(req);
      if err.Some? {
        result := Refused(req.taskId, err.value);
        return;
      }
      result, err := Run(req, cancelFn, initRun, actionRun, now, finish);
    }

    /** Execute: the error list is reset and the run goes through its seven
        steps. The process outcomes, the clock readings and the cancel
        function of the run's context are parameters. */
    method Execute(req: Base.ExecuteRequest, cancelFn: Base.CancelFunc, initRun: Runner.Outcome, actionRun: Runner.Outcome,
                   now: int, finish: int) returns (result: Base.ExecuteResult, err: Option<string>)
      requires Open(req.taskId) && DaoValid()
      modifies base`progress, base`status, base`cancel, this`errors, this`published, this`invoked, this`snapshot,
        Watchers(req.taskId)`queue, DaoObjects()`tasks, DaoObjects()`order, fs`dirs, fs`files, LockMems()`locks, LockDbs()`rows
      ensures HubInv(req.taskId) && DaoValid() && snapshot == old(Queues(req.taskId))
      ensures Admission(req, initRun, actionRun, now, finish, old(Tasks()), old(LockTable()), old(base.status), old(fs.files),
        [], [], Tasks(), LockTable(), base.status, errors, published, result, err)
    {
      errors := [];
      Begin(req.taskId);
      result, err := Admit(req, cancelFn, initRun, actionRun, now, finish);
    }

    /** Execute without step 1, for a record that is already there: the error
        list is reset and the run goes through steps 2 to 7. */
    method Resume(req: Base.ExecuteRequest, cancelFn: Base.CancelFunc, initRun: Runner.Outcome, actionRun: Runner.Outcome,
                  now: int, finish: int) returns (result: Base.ExecuteResult, err: Option<string>)
      requires Open(req.taskId) && DaoValid()
      modifies base`progress, base`status, base`cancel, this`errors, this`published, this`invoked, this`snapshot,
        Watchers(req.taskId)`queue, DaoObjects()`tasks, fs`dirs, fs`files, LockMems()`locks, LockDbs()`rows
      ensures HubInv(req.taskId) && DaoValid() && snapshot == old(Queues(req.taskId))
      ensures Ran(req, initRun, actionRun, now, finish, old(Tasks()), old(LockTable()), old(base.status), old(fs.files),
        [], [], Tasks(), LockTable(), base.status, errors, published, result, err)
    {
      errors := [];
      Begin(req.taskId);
      result, err := Run(req, cancelFn, initRun, actionRun, now, finish);
    }

    /** The request Retry builds from a stored record: its resource and its
        action, no work directory, no configuration and no parameters. */
    function RetryRequest(t: string, task: ExecutionTask): (req: Base.ExecuteRequest)
      ensures req.taskId == t && req.resourceId == task.resourceId && req.action == task.action && req.workDir == ""
    {
      Base.ExecuteRequest(t, task.resourceId, task.action, "", "", map[])
    }

    /** The record table after Retry's reset of `t`. */
    function ResetIn(tasks: map<string, ExecutionTask>, t: string): map<string, ExecutionTask>
      requires t in tasks
    {
      tasks[t := TaskDao.Cleared(tasks[t])]
    }

    /** The checks of Retry and the reset: there must be a task store, the
        task must be there and it must be retryable; then its record is
        reset and the request to run it again is built from it. */
    method Reopen(t: string) returns (req: Base.ExecuteRequest, err: Option<string>)
      requires DaoValid()
      modifies DaoObjects()`tasks
      ensures DaoValid()
      ensures LockTable() == old(LockTable()) && Queues(t) == old(Queues(t)) && (old(Open(t)) ==> Open(t))
      ensures err.None? <==> taskDao.Some? && t in old(Tasks()) && IsRetryable(old(Tasks())[t])
      ensures taskDao.None? ==> err == Some("task store not configured")
      ensures taskDao.Some? && t !in old(Tasks()) ==> err == Some("task not found: " + TaskDao.RecordNotFound)
      ensures taskDao.Some? && t in old(Tasks()) && !IsRetryable(old(Tasks())[t]) ==>
        err == Some("task " + t + " is not retryable")
      ensures err.Some? ==> Tasks() == old(Tasks())
      ensures err.None? ==> req == RetryRequest(t, old(Tasks())[t]) && Tasks() == ResetIn(old(Tasks()), t)
    {
      req := RetryRequest(t, TaskDao.NewTask(t, 0, ""));
      if taskDao.None? {
        return req, Some("task store not configured");
      }
      var dao := taskDao.value;
      var canRetry;
      canRetry, err := dao.CanRetry(t);
      if err.Some? {
        return;
      }
      if !canRetry {
        return req, Some("task " + t + " is not retryable");
      }
      var got := dao.Get(t);
      match got
      case Err(e) =>
        return req, Some(e);
      case Ok(task) =>
        err := dao.Reset(t);
        if err.Some? {
          return;
        }
        req := RetryRequest(t, task);
    }

    /** Retry as written: after the checks and the reset it calls Execute,
        whose step 1 creates the record again; the store refuses the task ID
        it still holds, so a retryable task is never run again and is left
        reset. */
    method Retry(t: string, cancelFn: Base.CancelFunc, initRun: Runner.Outcome, actionRun: Runner.Outcome,
                 now: int, finish: int) returns (result: Option<Base.ExecuteResult>, err: Option<string>)
      requires Open(t) && DaoValid()
      modifies base`progress, base`status, base`cancel, this`errors, this`published, this`invoked, this`snapshot,
        Watchers(t)`queue, DaoObjects()`tasks, DaoObjects()`order, fs`dirs, fs`files, LockMems()`locks, LockDbs()`rows
      ensures DaoValid()
      ensures !(taskDao.Some? && t in old(Tasks()) && IsRetryable(old(Tasks())[t])) ==>
        result == None && err.Some? && Tasks() == old(Tasks())
      ensures taskDao.Some? && t in old(Tasks()) && IsRetryable(old(Tasks())[t]) ==>
        err == Some(TaskDao.DuplicateTaskId) && result == Some(Refused(t, err.value)) &&
        Tasks() == ResetIn(old(Tasks()), t) && LockTable() == old(LockTable()) && base.status == old(base.status)
    {
      var req;
      req, err := Reopen(t);
      if err.Some? {
        return None, err;
      }
      var r;
      r, err := Execute(req, cancelFn, initRun, actionRun, now, finish);
      result := Some(r);
    }

    /** Retry as evidently intended: after the checks and the reset the
        stored record is run again from step 2 on. */
    method RetryFixed(t: string, cancelFn: Base.CancelFunc, initRun: Runner.Outcome, actionRun: Runner.Outcome,
                      now: int, finish: int) returns (result: Option<Base.ExecuteResult>, err: Option<string>)
      requires Open(t) && DaoValid()
      modifies base`progress, base`status, base`cancel, this`errors, this`published, this`invoked, this`snapshot,
        Watchers(t)`queue, DaoObjects()`tasks, fs`dirs, fs`files, LockMems()`locks, LockDbs()`rows
      ensures DaoValid()
      ensures !(taskDao.Some? && t in old(Tasks()) && IsRetryable(old(Tasks())[t])) ==>
        result == None && err.Some? && Tasks() == old(Tasks())
      ensures taskDao.Some? && t in old(Tasks()) && IsRetryable(old(Tasks())[t]) ==>
        result.Some? && HubInv(t) &&
        Ran(RetryRequest(t, old(Tasks())[t]), initRun, actionRun, now, finish, ResetIn(old(Tasks()), t), old(LockTable()),
            old(base.status), old(fs.files), [], [], Tasks(), LockTable(), base.status, errors, published, result.value, err)
    {
      var req;
      req, err := Reopen(t);
      if err.Some? {
        return None, err;
      }
      var r;
      r, err := Resume(req, cancelFn, initRun, actionRun, now, finish);
      result := Some(r);
    }

    /** A run that gets past the lock leaves its record completed: Success
        exactly when the run returned no error, and retryable exactly when
        it did. A refused lock completes it as failed. Either way the result
        is the run's own and says Success exactly when there is no error. */
    lemma RanCompletesRecord(req: Base.ExecuteRequest, initRun: Runner.Outcome, actionRun: Runner.Outcome, now: int, finish: int,
                             tasks0: map<string, ExecutionTask>, table0: Lock.Table, status0: Base.Status,
                             files0: map<string, string>, errors0: seq<Diagnostic>, published0: seq<Hub.Message>,
                             tasks: map<string, ExecutionTask>, table: Lock.Table, status: Base.Status,
                             errors: seq<Diagnostic>, published: seq<Hub.Message>,
                             result: Base.ExecuteResult, err: Option<string>)
      requires Ran(req, initRun, actionRun, now, finish, tasks0, table0, status0, files0, errors0, published0,
                   tasks, table, status, errors, published, result, err)
      requires req.taskId in tasks0
      ensures req.taskId in tasks
      ensures tasks[req.taskId].status == if err.None? then TaskSuccess else TaskFailed
      ensures IsRetryable(tasks[req.taskId]) <==> err.Some?
      ensures result.taskId == req.taskId && (result.status == Base.Success <==> err.None?)
      ensures err.None? ==> status0 == Base.Pending && status == Base.Success
    {
    }

    /** Retry as written leaves the task stuck: the request rebuilt from the
        stored record meets the reset record in step 1 and is refused, so the
        record stays Pending, is no longer retryable, and neither the lock
        nor the machine is touched. */
    lemma RetryAsWrittenStuck(t: string, initRun: Runner.Outcome, actionRun: Runner.Outcome, now: int, finish: int,
                              stored: map<string, ExecutionTask>, table0: Lock.Table, status0: Base.Status,
                              files0: map<string, string>,
                              tasks: map<string, ExecutionTask>, table: Lock.Table, status: Base.Status,
                              errors: seq<Diagnostic>, published: seq<Hub.Message>,
                              result: Base.ExecuteResult, err: Option<string>)
      requires t in stored && IsRetryable(stored[t])
      requires Admission(RetryRequest(t, stored[t]), initRun, actionRun, now, finish, ResetIn(stored, t), table0, status0,
                         files0, [], [], tasks, table, status, errors, published, result, err)
      ensures err == Some(TaskDao.DuplicateTaskId) && result.status == Base.Failed
      ensures t in tasks && tasks[t].status == TaskPending && !IsRetryable(tasks[t])
      ensures table == table0 && status == status0 && published == []
    {
    }

    /** The corrected Retry does run the task again: from a fresh machine,
        with the lock granted and the directory created, the stored record
        ends completed, retryable again exactly when the new run failed. */
    lemma RetryFixedCompletes(t: string, initRun: Runner.Outcome, actionRun: Runner.Outcome, now: int, finish: int,
                              stored: map<string, ExecutionTask>, table0: Lock.Table, files0: map<string, string>,
                              tasks: map<string, ExecutionTask>, table: Lock.Table, status: Base.Status,
                              errors: seq<Diagnostic>, published: seq<Hub.Message>,
                              result: Base.ExecuteResult, err: Option<string>)
      requires t in stored && IsRetryable(stored[t])
      requires LockStep(table0, stored[t].resourceId, t, now).0.None?
      requires Reaches(RetryRequest(t, stored[t]), Base.Pending, files0)
      requires Ran(RetryRequest(t, stored[t]), initRun, actionRun, now, finish, ResetIn(stored, t), table0, Base.Pending,
                   files0, [], [], tasks, table, status, errors, published, result, err)
      ensures err == ActionError(stored[t].action, initRun, actionRun)
      ensures t in tasks && (IsRetryable(tasks[t]) <==> err.Some?)
      ensures status == if err.None? then Base.Success else Base.Failed
      ensures tasks[t].startedAt == Some(now) && tasks[t].finishedAt == Some(finish)
    {
    }
  }
}
