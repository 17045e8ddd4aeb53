/**
 The diagnostics rendezvous as a transition system: any number of request handlers inside
 `SwiftCompleter::DiagnosticsForFile` and any number of `NotificationReceiver` calls share one
 `FutureChannel`.  One step is one access to shared memory, so steps interleave inside `set` and
 `future`; only the mutex keeps them apart.  Undefined behaviour is not excluded by the rules, it
 is what sets `fault`.
 */
module Rendezvous {
  import opened Wrappers
  import opened EventLog

  type Tid = nat
  type Address = nat  // every allocation has an identity of its own

  /** A heap-allocated promise and the state it shares with its future.  `owner` is history. */
  datatype Cell = Cell(owner: Tid, alive: bool, retrieved: bool, value: Option<string>)

  /** Where a call of `SwiftCompleter::DiagnosticsForFile` is. */
  datatype HandlerStage =
    | Opening | Replacing | Allocating | Acquiring | Pushing | Retrieving | Releasing | Blocked
    | Returned | ReturnedEmpty

  /** `p` is the promise it allocated; `at`, which is history, is the log position of its registration. */
  datatype Handler = Handler(
    file: string, stage: HandlerStage, answered: bool, p: Option<Address>, at: Option<nat>, reply: Option<string>)

  /** What can be had from a C string: no NUL in it. */
  type CString = s: string | '\0' !in s

  datatype Payload = Null | NoName | Named(name: CString)

  /** SourceKit can notify for a file by its name, and the notification is not ignored. */
  predicate IsNotifiable(file: string) {
    file != "" && '\0' !in file
  }

  /** Where a call of `NotificationReceiver` is. */
  datatype NotificationStage = Received | Requesting | Locking | Finding | Looping | Erasing | Unlocking | Done

  /**
   The loop of `set`: entry `n` of `vector` is next, and `half` says that it has been given its
   value but is still to be deleted.  `ids`, which is history, are the registrations of the entries.
   */
  datatype Batch = Batch(vector: seq<Address>, n: nat, half: bool, ids: seq<nat>)

  datatype Notification = Notification(
    stage: NotificationStage, payload: Payload, name: string, value: string, batch: Option<Batch>)

  datatype Lock = Free | HeldByHandler(t: Tid) | HeldByNotification(t: Tid)

  /** History: the log, and what it says about every registration. */
  datatype History = History(log: Log, board: Board, queues: Queues)

  function Record(h: History, e: Event): History {
    History(h.log + [e], Advance(h.board, |h.log|, e), Requeue(h.queues, |h.log|, e))
  }

  datatype State = State(
    lock: Lock,
    promises: map<string, seq<Address>>,
    heap: map<Address, Cell>,
    handlers: map<Tid, Handler>,
    notifications: map<Tid, Notification>,
    history: History,
    issued: map<nat, Address>,  // history: the promise pushed at each registration
    fault: bool)

  const INITIAL := State(Free, map[], map[], map[], map[], History([], map[], map[]), map[], false)

  datatype Step =
    | Request(t: Tid, file: string)                   // a handler calls DiagnosticsForFile
    | Notify(t: Tid, payload: Payload)                // NotificationReceiver is called
    // with SourceKit's answer and new's result, where they are asked for
    | RunHandler(t: Tid, answered: bool, addr: Address)
    | RunNotification(t: Tid, reply: string)          // SourceKit's reply to the semantic request

  predicate IsAlive(heap: map<Address, Cell>, p: Address) {
    p in heap && heap[p].alive
  }

  function Move(s: State, t: Tid, h: Handler): State {
    s.(handlers := s.handlers[t := h])
  }

  function Shift(s: State, t: Tid, n: Notification): State {
    s.(notifications := s.notifications[t := n])
  }

  // ----- SwiftCompleter::DiagnosticsForFile and FutureChannel::future

  predicate HandlerCanRun(s: State, t: Tid, addr: Address) {
    && t in s.handlers
    && match s.handlers[t].stage
       case Allocating => addr !in s.heap
       case Acquiring => s.lock.Free?
       case Blocked =>
         // future.get() waits for the shared state
         var p := s.handlers[t].p;
         p.Some? && p.value in s.heap ==> s.heap[p.value].value.Some?
       case Returned => false
       case ReturnedEmpty => false
       case _ => true
  }

  function HandlerStep(s: State, t: Tid, answered: bool, addr: Address): State
    requires HandlerCanRun(s, t, addr)
  {
    var h := s.handlers[t];
    match h.stage
    case Opening => Move(s, t, h.(stage := Replacing, answered := answered))
    case Replacing =>
      // the response is NULL exactly when neither request was answered
      Move(s, t, h.(stage := if h.answered || answered then Allocating else ReturnedEmpty))
    case Allocating =>
      Move(s, t, h.(stage := Acquiring, p := Some(addr))).(heap := s.heap[addr := Cell(t, true, false, None)])
    case Acquiring => Move(s, t, h.(stage := Pushing)).(lock := HeldByHandler(t))
    case Pushing =>
      if h.p.None? then s.(fault := true)
      else
        var at := |s.history.log|;
        Move(s, t, h.(stage := Retrieving, at := Some(at))).(
          promises := s.promises[h.file := Waiting(s.promises, h.file) + [h.p.value]],
          history := Record(s.history, Registered(h.file)),
          issued := s.issued[at := h.p.value])
    case Retrieving =>
      // get_future on a deleted promise, or a second time, is a fault
      if h.p.Some? && IsAlive(s.heap, h.p.value) && !s.heap[h.p.value].retrieved
      then Move(s, t, h.(stage := Releasing)).(heap := s.heap[h.p.value := s.heap[h.p.value].(retrieved := true)])
      else s.(fault := true)
    case Releasing =>
      if s.lock == HeldByHandler(t) then Move(s, t, h.(stage := Blocked)).(lock := Free) else s.(fault := true)
    case Blocked =>
      if h.p.Some? && h.p.value in s.heap
      then Move(s, t, h.(stage := Returned, reply := s.heap[h.p.value].value))
      else s.(fault := true)
    case _ => s
  }

  // ----- NotificationReceiver and FutureChannel::set

  predicate NotificationCanRun(s: State, t: Tid) {
    t in s.notifications && match s.notifications[t].stage
                            case Locking => s.lock.Free?
                            case Done => false
                            case _ => true
  }

  function NotificationStep(s: State, t: Tid, reply: string): State
    requires NotificationCanRun(s, t)
  {
    var n := s.notifications[t];
    match n.stage
    case Received =>
      Shift(s, t, if n.payload.Named? && n.payload.name != ""
                  then n.(stage := Requesting, name := n.payload.name) else n.(stage := Done))
    case Requesting => Shift(s, t, n.(stage := Locking, value := reply))
    case Locking => Shift(s, t, n.(stage := Finding)).(lock := HeldByNotification(t))
    case Finding =>
      Shift(s, t, if n.name in s.promises
                  then n.(stage := Looping,
                          batch := Some(Batch(s.promises[n.name], 0, false, Waiting(s.history.queues, n.name))))
                  else n.(stage := Unlocking)).(
        history := Record(s.history, Published(n.name, n.value)))
    case Looping => LoopStep(s, t)
    case Erasing => Shift(s, t, n.(stage := Unlocking, batch := None)).(promises := s.promises - {n.name})
    case Unlocking =>
      if s.lock == HeldByNotification(t) then Shift(s, t, n.(stage := Done)).(lock := Free) else s.(fault := true)
    case Done => s
  }

  /** One access of the loop: the value of an entry is set, or the entry is deleted, or the loop ends. */
  function LoopStep(s: State, t: Tid): State
    requires t in s.notifications
  {
    var n := s.notifications[t];
    if n.batch.None? || n.name !in s.promises || s.promises[n.name] != n.batch.value.vector then
      // the loop's iterators are valid only while the vector stays as it was
      s.(fault := true)
    else
      var b := n.batch.value;
      if b.n >= |b.vector| then
        if b.half then s.(fault := true) else Shift(s, t, n.(stage := Erasing))
      else
        var p := b.vector[b.n];
        if !IsAlive(s.heap, p) then s.(fault := true)  // used or deleted after deletion
        else if b.half then
          Shift(s, t, n.(batch := Some(b.(half := false, n := b.n + 1)))).(
            heap := s.heap[p := s.heap[p].(alive := false)])
        else if s.heap[p].value.Some? then s.(fault := true)  // set_value would throw
        else
          Shift(s, t, n.(batch := Some(b.(half := true)))).(
            heap := s.heap[p := s.heap[p].(value := Some(n.value))])
  }

  // ----- The whole system

  predicate Enabled(s: State, step: Step) {
    match step
    case Request(t, _) => t !in s.handlers
    case Notify(t, _) => t !in s.notifications
    case RunHandler(t, _, addr) => HandlerCanRun(s, t, addr)
    case RunNotification(t, _) => NotificationCanRun(s, t)
  }

  function Take(s: State, step: Step): State
    requires Enabled(s, step)
  {
    match step
    case Request(t, file) => Move(s, t, Handler(file, Opening, false, None, None, None))
    case Notify(t, payload) => Shift(s, t, Notification(Received, payload, "", "", None))
    case RunHandler(t, answered, addr) => HandlerStep(s, t, answered, addr)
    case RunNotification(t, reply) => NotificationStep(s, t, reply)
  }

  /** The steps can be taken one after the other, starting in `s`. */
  predicate IsRun(s: State, steps: seq<Step>)
    decreases |steps|
  {
    steps == [] || (Enabled(s, steps[0]) && IsRun(Take(s, steps[0]), steps[1..]))
  }

  function After(s: State, steps: seq<Step>): State
    requires IsRun(s, steps)
    decreases |steps|
  {
    if steps == [] then s else After(Take(s, steps[0]), steps[1..])
  }
}
