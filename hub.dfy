/** The broadcast hub (pkg/executor/ws/hub.go): a registry from task ID to the
    set of observers of that task, each owning a bounded send queue. Sends
    never block: a message for an observer whose queue is full is dropped.
    The WebSocket connection behind an observer and the pump that drains
    its queue are not part of this model; the JSON encoding of a message is
    kept as the message value itself. */
module Hub {
  import Executor

  datatype MessageType = Log | ProgressType | Complete | ErrorType {
    /** The wire name of the type. */
    function Name(): string {
      match this
      case Log => "log"
      case ProgressType => "progress"
      case Complete => "complete"
      case ErrorType => "error"
    }
  }

  datatype ProgressData = ProgressData(phase: string, percent: int, elapsed: int, message: string)

  /** The `Data` field of a message: a log line, a progress record or the
      `{success, result}` object of a completion. */
  datatype Payload =
    | LogText(text: string)
    | ProgressPayload(progress: ProgressData)
    | CompletePayload(success: bool, result: Executor.ExecuteResult)

  datatype Message = Message(msgType: MessageType, taskId: string, data: Payload, time: int)

  /** A non-blocking send on a channel buffered to `capacity`: the message is
      queued when there is room and dropped otherwise. */
  function Offer(queue: seq<Message>, capacity: nat, msg: Message): (q: seq<Message>)
    ensures |queue| < capacity ==> q == queue + [msg]
    ensures |queue| >= capacity ==> q == queue
  {
    if |queue| < capacity then queue + [msg] else queue
  }

  /** Offering never overfills a queue and never loses what was queued. */
  lemma OfferKeepsBound(queue: seq<Message>, capacity: nat, msg: Message)
    requires |queue| <= capacity
    ensures |Offer(queue, capacity, msg)| <= capacity
    ensures Offer(queue, capacity, msg)[..|queue|] == queue
  {
  }

  /** The queue after offering each of `msgs` in turn. */
  function OfferAll(queue: seq<Message>, capacity: nat, msgs: seq<Message>): seq<Message>
    decreases |msgs|
  {
    if msgs == [] then queue
    else Offer(OfferAll(queue, capacity, msgs[..|msgs| - 1]), capacity, msgs[|msgs| - 1])
  }

  lemma OfferAllSnoc(queue: seq<Message>, capacity: nat, msgs: seq<Message>, msg: Message)
    ensures OfferAll(queue, capacity, msgs + [msg]) == Offer(OfferAll(queue, capacity, msgs), capacity, msg)
  {
    assert (msgs + [msg])[..|msgs|] == msgs;
  }

  /** However many messages are offered, a queue within its capacity stays
      within it, keeps what it held, and holds only offered messages after. */
  lemma {:induction false} OfferAllKeepsBound(queue: seq<Message>, capacity: nat, msgs: seq<Message>)
    requires |queue| <= capacity
    ensures |queue| <= |OfferAll(queue, capacity, msgs)| <= capacity
    ensures OfferAll(queue, capacity, msgs)[..|queue|] == queue
    ensures forall k :: |queue| <= k < |OfferAll(queue, capacity, msgs)| ==> OfferAll(queue, capacity, msgs)[k] in msgs
    decreases |msgs|
  {
    if msgs != [] {
      var init := msgs[..|msgs| - 1];
      OfferAllKeepsBound(queue, capacity, init);
      var q := OfferAll(queue, capacity, init);
      assert forall m :: m in init ==> m in msgs;
      assert q[..|queue|] == queue;
      if |q| < capacity {
        assert (q + [msgs[|msgs| - 1]])[..|queue|] == q[..|queue|];
      }
    }
  }

  /** An observer of one task with its send queue. */
  class Client {
    const taskId: string
    const capacity: nat
    var queue: seq<Message>
    var closed: bool

    constructor (taskId: string, capacity: nat)
      ensures this.taskId == taskId && this.capacity == capacity
      ensures queue == [] && !closed
    {
      this.taskId := taskId;
      this.capacity := capacity;
      queue := [];
      closed := false;
    }
  }

  type Registry = map<string, set<Client>>

  /** Every set is non-empty and filed under its observers' task ID. */
  predicate WellFormed(reg: Registry) {
    forall t :: t in reg ==> reg[t] != {} && forall c :: c in reg[t] ==> c.taskId == t
  }

  /** The registry after Register: the client joins its task's set, which is
      created when needed. */
  function Added(reg: Registry, c: Client): (r: Registry)
    ensures r.Keys == reg.Keys + {c.taskId}
    ensures c in r[c.taskId]
  {
    var members := if c.taskId in reg then reg[c.taskId] else {};
    reg[c.taskId := members + {c}]
  }

  /** The registry after Unregister: the client leaves its task's set and the
      task is dropped once its set is empty. */
  function Removed(reg: Registry, c: Client): Registry {
    if c.taskId in reg then
      var rest := reg[c.taskId] - {c};
      if rest == {} then reg - {c.taskId} else reg[c.taskId := rest]
    else reg
  }

  /** The observers a broadcast for `taskId` reaches. */
  function Observers(reg: Registry, taskId: string): set<Client> {
    if taskId in reg then reg[taskId] else {}
  }

  /** Registering twice is registering once. */
  lemma RegisterIdempotent(reg: Registry, c: Client)
    ensures Added(Added(reg, c), c) == Added(reg, c)
  {
  }

  /** Register and Unregister keep the registry well formed, touch only the
      client's own task, and Unregister undoes a Register of a new client. */
  lemma RegistryMaintained(reg: Registry, c: Client)
    requires WellFormed(reg)
    ensures WellFormed(Added(reg, c)) && WellFormed(Removed(reg, c))
    ensures forall t :: t != c.taskId && t in reg ==> t in Added(reg, c) && Added(reg, c)[t] == reg[t]
    ensures forall t :: t != c.taskId ==> (t in Removed(reg, c) <==> t in reg)
    ensures forall t :: t != c.taskId && t in reg ==> Removed(reg, c)[t] == reg[t]
    ensures c !in Observers(Removed(reg, c), c.taskId)
    ensures c !in Observers(reg, c.taskId) ==> Removed(Added(reg, c), c) == reg
  {
    if c !in Observers(reg, c.taskId) && c.taskId in reg {
      assert reg[c.taskId] + {c} - {c} == reg[c.taskId];
    }
  }

  /** An observer is only reached by broadcasts for its own task. */
  lemma ObserversOfOwnTask(reg: Registry, c: Client, t: string)
    requires WellFormed(reg)
    requires c in Observers(reg, t)
    ensures t == c.taskId
  {
  }

  class Hub {
    var clients: Registry

    /** NewHub: an empty registry. */
    constructor ()
      ensures clients == map[]
    {
      clients := map[];
    }

    method Register(c: Client)
      modifies this`clients
      ensures clients == Added(old(clients), c)
    {
      if c.taskId !in clients {
        clients := clients[c.taskId := {}];
      }
      clients := clients[c.taskId := clients[c.taskId] + {c}];
    }

    /** Removes the client and closes its queue. Closing a queue twice
        panics in Go, so the client must still be open. */
    method Unregister(c: Client)
      requires !c.closed
      modifies this`clients, c`closed
      ensures clients == Removed(old(clients), c)
      ensures c.closed
    {
      if c.taskId in clients {
        var remaining := clients[c.taskId] - {c};
        clients := clients[c.taskId := remaining];
        if |remaining| == 0 {
          clients := clients - {c.taskId};
        }
      }
      c.closed := true;
    }

    /** Offers `msg` to every observer of `taskId` without blocking; a task
        without observers is a no-op. The registry is not changed. Sending
        on a closed queue panics in Go, so the observers must be open. */
    method Broadcast(taskId: string, msg: Message)
      requires forall c :: c in Observers(clients, taskId) ==> !c.closed
      modifies Observers(clients, taskId)`queue
      ensures clients == old(clients)
      ensures forall c :: c in Observers(clients, taskId) ==> c.queue == Offer(old(c.queue), c.capacity, msg)
    {
      if taskId !in clients {
        return;
      }
      var observers := clients[taskId];
      var todo := observers;
      while todo != {}
        invariant todo <= observers
        invariant forall c :: c in observers && c !in todo ==> c.queue == Offer(old(c.queue), c.capacity, msg)
        invariant forall c :: c in todo ==> c.queue == old(c.queue)
        decreases todo
      {
        var c :| c in todo;
        if |c.queue| < c.capacity {
          c.queue := c.queue + [msg];
        }
        todo := todo - {c};
      }
    }

    method SendLog(taskId: string, message: string, now: int)
      requires forall c :: c in Observers(clients, taskId) ==> !c.closed
      modifies Observers(clients, taskId)`queue
      ensures clients == old(clients)
      ensures forall c :: c in Observers(clients, taskId) ==>
        c.queue == Offer(old(c.queue), c.capacity, Message(Log, taskId, LogText(message), now))
    {
      Broadcast(taskId, Message(Log, taskId, LogText(message), now));
    }

    method SendProgress(taskId: string, data: ProgressData, now: int)
      requires forall c :: c in Observers(clients, taskId) ==> !c.closed
      modifies Observers(clients, taskId)`queue
      ensures clients == old(clients)
      ensures forall c :: c in Observers(clients, taskId) ==>
        c.queue == Offer(old(c.queue), c.capacity, Message(ProgressType, taskId, ProgressPayload(data), now))
    {
      Broadcast(taskId, Message(ProgressType, taskId, ProgressPayload(data), now));
    }

    method SendComplete(taskId: string, success: bool, result: Executor.ExecuteResult, now: int)
      requires forall c :: c in Observers(clients, taskId) ==> !c.closed
      modifies Observers(clients, taskId)`queue
      ensures clients == old(clients)
      ensures forall c :: c in Observers(clients, taskId) ==>
        c.queue == Offer(old(c.queue), c.capacity, Message(Complete, taskId, CompletePayload(success, result), now))
    {
      Broadcast(taskId, Message(Complete, taskId, CompletePayload(success, result), now));
    }
  }

  /** Two observers, one per task: a log for the first task reaches only the
      first observer, and once its one-slot queue is full the next message is
      dropped while the registry stays as it was. */
  method Scenario()
  {
    var hub := new Hub();
    var a := new Client("task-1", 1);
    var b := new Client("task-2", 1);
    hub.Register(a);
    hub.Register(b);
    assert Observers(hub.clients, "task-1") == {a};
    hub.SendLog("task-1", "first", 0);
    assert a.queue == [Message(Log, "task-1", LogText("first"), 0)];
    assert b.queue == [];
    hub.SendLog("task-1", "second", 1);
    assert a.queue == [Message(Log, "task-1", LogText("first"), 0)];
    hub.Unregister(a);
    assert "task-1" !in hub.clients && a.closed;
    hub.SendLog("task-1", "third", 2);
    assert a.queue == [Message(Log, "task-1", LogText("first"), 0)];
  }
}
