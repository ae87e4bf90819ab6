/** The executor package: the request/result/progress types every executor
    shares (pkg/executor/executor.go) and the base executor with its task
    state machine, cancel handle and progress record (pkg/executor/base.go). */
module Executor {
  import opened Wrappers

  /** Execution status. The Go type is a string; `Name` gives its value. */
  datatype Status = Pending | Running | Success | Failed | Cancelled {
    function Name(): string {
      match this
      case Pending => "pending"
      case Running => "running"
      case Success => "success"
      case Failed => "failed"
      case Cancelled => "cancelled"
    }

    predicate IsTerminal() {
      Success? || Failed? || Cancelled?
    }
  }

  /** Actions are free strings in Go; these are the named ones. */
  const ActionInit: string := "init"
  const ActionPlan: string := "plan"
  const ActionApply: string := "apply"
  const ActionDestroy: string := "destroy"
  const ActionImport: string := "import"

  datatype ExecuteRequest = ExecuteRequest(
    taskId: string,
    resourceId: int,
    action: string,
    workDir: string,
    config: string,
    params: map<string, string>)

  datatype ExecuteResult = ExecuteResult(
    taskId: string,
    status: Status,
    output: string,
    error: string,
    duration: int,      // milliseconds
    attributes: map<string, string>)

  datatype Progress = Progress(phase: string, percent: int, elapsed: int, message: string)

  /** One entry of the event list handed to the state machine: firing `name`
      from any state in `src` moves to `dst`. */
  datatype EventDesc = EventDesc(name: string, src: set<Status>, dst: Status)

  /** The event list of `initFSM`, in its order. */
  const FsmEvents: seq<EventDesc> := [
    EventDesc("start", {Pending}, Running),
    EventDesc("success", {Running}, Success),
    EventDesc("fail", {Running}, Failed),
    EventDesc("cancel", {Pending, Running}, Cancelled)
  ]

  /** The destination of the first listed event called `event` whose sources
      contain `s`. */
  function Lookup(events: seq<EventDesc>, event: string, s: Status): Option<Status>
    decreases |events|
  {
    if events == [] then None
    else if events[0].name == event && s in events[0].src then Some(events[0].dst)
    else Lookup(events[1..], event, s)
  }

  predicate Declared(events: seq<EventDesc>, event: string) {
    exists i :: 0 <= i < |events| && events[i].name == event
  }

  lemma {:induction false} LookupFinds(events: seq<EventDesc>, event: string, s: Status, i: nat)
    requires i < |events| && events[i].name == event && s in events[i].src
    requires forall j :: 0 <= j < i ==> !(events[j].name == event && s in events[j].src)
    ensures Lookup(events, event, s) == Some(events[i].dst)
    decreases i
  {
    if i > 0 {
      LookupFinds(events[1..], event, s, i - 1);
    }
  }

  lemma {:induction false} LookupMisses(events: seq<EventDesc>, event: string, s: Status)
    requires forall j :: 0 <= j < |events| ==> !(events[j].name == event && s in events[j].src)
    ensures Lookup(events, event, s) == None
    decreases |events|
  {
    if events != [] {
      LookupMisses(events[1..], event, s);
    }
  }

  /** The state `event` leads to from `s`, or None when the machine refuses
      it: the four moves of `initFSM`. */
  function Next(s: Status, event: string): (r: Option<Status>)
    ensures r != Some(Pending)
    ensures s.IsTerminal() ==> r == None
  {
    if event == "start" && s == Pending then Some(Running)
    else if event == "success" && s == Running then Some(Success)
    else if event == "fail" && s == Running then Some(Failed)
    else if event == "cancel" && (s == Pending || s == Running) then Some(Cancelled)
    else None
  }

  /** The machine built from the event list moves as Next says, for every
      state and every event name. */
  lemma TransitionTable(s: Status, event: string)
    ensures Lookup(FsmEvents, event, s) == Next(s, event)
  {
    var evs := FsmEvents;
    if event == "start" && s == Pending {
      LookupFinds(evs, event, s, 0);
    } else if event == "success" && s == Running {
      LookupFinds(evs, event, s, 1);
    } else if event == "fail" && s == Running {
      LookupFinds(evs, event, s, 2);
    } else if event == "cancel" && (s == Pending || s == Running) {
      LookupFinds(evs, event, s, 3);
    } else {
      LookupMisses(evs, event, s);
    }
  }

  /** The event names the list declares. */
  predicate Known(event: string) {
    event == "start" || event == "success" || event == "fail" || event == "cancel"
  }

  lemma KnownIsDeclared(event: string)
    ensures Known(event) <==> Declared(FsmEvents, event)
  {
    var evs := FsmEvents;
    if event == "start" {
      assert evs[0].name == event;
    } else if event == "success" {
      assert evs[1].name == event;
    } else if event == "fail" {
      assert evs[2].name == event;
    } else if event == "cancel" {
      assert evs[3].name == event;
    } else {
      assert forall i :: 0 <= i < |evs| ==> evs[i].name != event;
    }
  }

  /** The error text of a refused event: an event the machine knows but
      that is not allowed from `s`, or an event it does not know at all. */
  function TransitionError(s: Status, event: string): string {
    if Known(event) then "event " + event + " inappropriate in current state " + s.Name()
    else "event " + event + " does not exist"
  }

  /** A context cancel function, known by its identity. */
  datatype CancelFunc = CancelFunc(id: nat)

  class BaseExecutor {
    var taskId: string
    var progress: Progress
    var status: Status
    var cancel: Option<CancelFunc>
    /** The cancel functions called so far, in order: calling one cancels the
        context of the subprocess it belongs to. */
    var cancelled: seq<CancelFunc>

    /** NewBaseExecutor: an empty progress record and a machine in Pending. */
    constructor ()
      ensures status == Pending
      ensures progress == Progress("", 0, 0, "")
      ensures cancel == None && cancelled == [] && taskId == ""
    {
      taskId := "";
      progress := Progress("", 0, 0, "");
      status := Pending;
      cancel := None;
      cancelled := [];
    }

    function CurrentStatus(): Status
      reads this
    {
      status
    }

    /** Progress is a value: the caller gets a copy whose later changes cannot
        reach the stored record. */
    method GetProgress() returns (p: Progress)
      ensures p == progress
    {
      p := progress;
    }

    /** Overwrites phase, percent and message; elapsed is kept. */
    method UpdateProgress(phase: string, percent: int, message: string)
      modifies this`progress
      ensures progress == Progress(phase, percent, old(progress).elapsed, message)
    {
      progress := progress.(phase := phase, percent := percent, message := message);
    }

    /** Fires `event`: a move of the table, or an error and no change. */
    method Transition(event: string) returns (err: Option<string>)
      modifies this`status
      ensures Next(old(status), event).Some? ==> err == None && status == Next(old(status), event).value
      ensures Next(old(status), event).None? ==>
        err == Some(TransitionError(old(status), event)) && status == old(status)
    {
      var next := Next(status, event);
      if next.Some? {
        status := next.value;
        err := None;
      } else {
        err := Some(TransitionError(status, event));
      }
    }

    /** Calls the stored cancel function if there is one, then fires `cancel`. */
    method Cancel() returns (err: Option<string>)
      modifies this`status, this`cancelled
      ensures cancelled == old(cancelled) + (if cancel.Some? then [cancel.value] else [])
      ensures old(status) == Pending || old(status) == Running ==> err == None && status == Cancelled
      ensures old(status).IsTerminal() ==>
        err == Some(TransitionError(old(status), "cancel")) && status == old(status)
    {
      if cancel.Some? {
        cancelled := cancelled + [cancel.value];
      }
      err := Transition("cancel");
    }

    method SetCancel(c: CancelFunc)
      modifies this`cancel
      ensures cancel == Some(c)
    {
      cancel := Some(c);
    }
  }

  /** A new machine accepts `start`, and a whole run ends in a terminal state
      from which no event moves it. */
  lemma RunEndsTerminal(outcome: string, event: string)
    requires outcome == "success" || outcome == "fail" || outcome == "cancel"
    ensures Next(Pending, "start") == Some(Running)
    ensures Next(Running, outcome).Some? && Next(Running, outcome).value.IsTerminal()
    ensures Next(Next(Running, outcome).value, event) == None
  {
  }
}
