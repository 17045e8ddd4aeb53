/** The invariant of the rendezvous, and the proof that every step keeps it. */
module RendezvousProof {
  import opened Wrappers
  import opened EventLog
  import opened Rendezvous

  ghost predicate Faithful(h: History) {
    h.board == BoardOf(h.log) && h.queues == QueuesOf(h.log)
  }

  predicate HandlerIsInside(h: Handler) {
    h.stage.Pushing? || h.stage.Retrieving? || h.stage.Releasing?
  }

  predicate NotificationIsInside(n: Notification) {
    n.stage.Finding? || n.stage.Looping? || n.stage.Erasing? || n.stage.Unlocking?
  }

  /** Exactly the lock's holder is inside the critical section. */
  ghost predicate Exclusive(lock: Lock, handlers: map<Tid, Handler>, notifications: map<Tid, Notification>) {
    && (lock.HeldByHandler? ==> lock.t in handlers)
    && (lock.HeldByNotification? ==> lock.t in notifications)
    && (forall t :: t in handlers ==> (HandlerIsInside(handlers[t]) <==> lock == HeldByHandler(t)))
    && (forall t :: t in notifications ==> (NotificationIsInside(notifications[t]) <==> lock == HeldByNotification(t)))
  }

  /** The publication that the lock's holder is in the middle of. */
  datatype Publication = Publication(name: string, value: string, batch: Batch)

  function Current(lock: Lock, notifications: map<Tid, Notification>): Option<Publication> {
    if lock.HeldByNotification? && lock.t in notifications && notifications[lock.t].batch.Some? then
      var n := notifications[lock.t];
      Some(Publication(n.name, n.value, n.batch.value))
    else None
  }

  ghost predicate LockSide(lock: Lock, handlers: map<Tid, Handler>, notifications: map<Tid, Notification>,
                           promises: map<string, seq<Address>>) {
    Exclusive(lock, handlers, notifications) && NotificationsOk(notifications, promises)
  }

  ghost predicate NotificationOk(n: Notification, promises: map<string, seq<Address>>) {
    && (n.batch.Some? <==> n.stage.Looping? || n.stage.Erasing?)
    && (n.stage.Looping? ==> n.name in promises && promises[n.name] == n.batch.value.vector)
    && (n.stage.Erasing? ==> n.batch.value.n == |n.batch.value.ids|)
  }

  /** A handler's promise is its own, and its registration is its own promise under its own file name. */
  ghost predicate HandlerOk(t: Tid, h: Handler, heap: map<Address, Cell>, issued: map<nat, Address>, board: Board) {
    && (h.p.Some? ==> h.p.value in heap && heap[h.p.value].owner == t)
    && (h.p.Some? && h.at.None? ==> heap[h.p.value] == Cell(t, true, false, None))
    && (h.at.Some? ==>
          && h.p.Some? && h.at.value in issued && issued[h.at.value] == h.p.value
          && h.at.value in board && board[h.at.value].key == h.file
          && (heap[h.p.value].retrieved <==> !h.stage.Retrieving?))
    && (h.p.Some? <==> !(h.stage.Opening? || h.stage.Replacing? || h.stage.Allocating? || h.stage.ReturnedEmpty?))
    && (h.at.Some? <==> h.p.Some? && !h.stage.Acquiring? && !h.stage.Pushing?)
    && (h.stage.Retrieving? ==> board[h.at.value].outcome.None?)
    && (h.reply.Some? <==> h.stage.Returned?)
    && (h.stage.Returned? ==> heap[h.p.value].value == h.reply)
  }

  ghost predicate HandlersOk(handlers: map<Tid, Handler>, heap: map<Address, Cell>, issued: map<nat, Address>,
                             board: Board) {
    forall t :: t in handlers ==> HandlerOk(t, handlers[t], heap, issued, board)
  }

  ghost predicate NotificationsOk(notifications: map<Tid, Notification>, promises: map<string, seq<Address>>) {
    forall t :: t in notifications ==> NotificationOk(notifications[t], promises)
  }

  /** Every promise belongs to the handler that allocated it, and every registration to one handler. */
  ghost predicate Owned(handlers: map<Tid, Handler>, heap: map<Address, Cell>, issued: map<nat, Address>) {
    && (forall p :: p in heap ==> heap[p].owner in handlers && handlers[heap[p].owner].p == Some(p))
    && (forall i :: i in issued ==> issued[i] in heap && handlers[heap[issued[i]].owner].at == Some(i))
  }

  ghost predicate HandlerSide(handlers: map<Tid, Handler>, heap: map<Address, Cell>, issued: map<nat, Address>,
                              board: Board) {
    HandlersOk(handlers, heap, issued, board) && Owned(handlers, heap, issued)
  }

  predicate Unfinished(i: nat, pub: Option<Publication>) {
    pub.Some? && pub.value.batch.n <= |pub.value.batch.ids| && i in pub.value.batch.ids[pub.value.batch.n..]
  }

  /** A promise is fulfilled and freed exactly when its registration is answered, save in a batch's unfinished part. */
  ghost predicate CellOk(cell: Cell, i: nat, outcome: Option<string>, pub: Option<Publication>) {
    if Unfinished(i, pub) then
      && cell.alive
      && outcome == Some(pub.value.value)
      && cell.value == if pub.value.batch.half && i == pub.value.batch.ids[pub.value.batch.n] then outcome else None
    else
      cell.value == outcome && (cell.alive <==> outcome.None?)
  }

  ghost predicate CellsOk(heap: map<Address, Cell>, issued: map<nat, Address>, board: Board, pub: Option<Publication>) {
    && issued.Keys == board.Keys
    && forall i :: i in issued ==> issued[i] in heap && CellOk(heap[issued[i]], i, board[i].outcome, pub)
  }

  ghost predicate PublicationOk(pub: Publication, board: Board, queues: Queues) {
    var b := pub.batch;
    && b.n <= |b.ids| && b.ids != [] && (b.half ==> b.n < |b.ids|)
    && pub.name !in queues
    && (forall i :: i in b.ids ==> i in board && board[i] == Ticket(pub.name, Some(pub.value)))
    && (forall m, n :: 0 <= m < n < |b.ids| ==> b.ids[m] < b.ids[n])
  }

  /** A batch being published is still stored in the map although its queue is empty. */
  function StoredQueues(queues: Queues, pub: Option<Publication>): Queues {
    match pub
    case None => queues
    case Some(b) => queues[b.name := b.batch.ids]
  }

  ghost predicate MemorySide(promises: map<string, seq<Address>>, heap: map<Address, Cell>, issued: map<nat, Address>,
                             board: Board, queues: Queues, pub: Option<Publication>) {
    && CellsOk(heap, issued, board, pub)
    && (pub.Some? ==> PublicationOk(pub.value, board, queues))
    && Stores(promises, StoredQueues(queues, pub), issued)
  }

  ghost predicate Coherent(s: State) {
    && !s.fault
    && LockSide(s.lock, s.handlers, s.notifications, s.promises)
    && HandlerSide(s.handlers, s.heap, s.issued, s.history.board)
    && MemorySide(s.promises, s.heap, s.issued, s.history.board, s.history.queues, Current(s.lock, s.notifications))
  }

  ghost predicate Inv(s: State) {
    Coherent(s) && Faithful(s.history)
  }

  lemma InitiallyInv()
    ensures Inv(INITIAL)
  {
  }

  lemma RecordIsFaithful(h: History, e: Event)
    requires Faithful(h)
    ensures Faithful(Record(h, e))
  {
    BoardExtends(h.log, e);
    QueuesExtend(h.log, e);
  }

  // ----- What the steps leave alone.

  /** A notification's step changes that notification only, and publishes only what it was told. */
  lemma NotificationFrame(s: State, t: Tid, reply: string)
    requires NotificationCanRun(s, t)
    ensures var n, s' := s.notifications[t], NotificationStep(s, t, reply);
            && s'.handlers == s.handlers
            && t in s'.notifications
            && var n' := s'.notifications[t];
            && s'.notifications == s.notifications[t := n']
            && n'.payload == n.payload
            && (if n.stage.Received? then n'.stage.Done? || (n.payload.Named? && n.payload.name == n'.name
                  && n'.name != "")
                else n'.name == n.name)
            && (s'.history == s.history || (n.stage.Finding?
                  && s'.history == Record(s.history, Published(n.name, n.value))))
  {
    match s.notifications[t].stage
    case Received =>
    case Requesting =>
    case Locking =>
    case Finding =>
    case Looping => LoopFrame(s, t);
    case Erasing =>
    case _ =>
  }

  lemma LoopFrame(s: State, t: Tid)
    requires t in s.notifications
    ensures var s' := LoopStep(s, t);
            && s'.handlers == s.handlers && s'.history == s.history && s'.lock == s.lock && s'.promises == s.promises
            && t in s'.notifications && s'.notifications == s.notifications[t := s'.notifications[t]]
            && s'.notifications[t].payload == s.notifications[t].payload
            && s'.notifications[t].name == s.notifications[t].name
  {
    assert s.notifications == s.notifications[t := s.notifications[t]];
  }

  /** A handler's step registers its own file or nothing. */
  lemma HandlerFrame(s: State, t: Tid, answered: bool, addr: Address)
    requires HandlerCanRun(s, t, addr)
    ensures var s' := HandlerStep(s, t, answered, addr);
            && s'.notifications == s.notifications
            && (s'.history == s.history || s'.history == Record(s.history, Registered(s.handlers[t].file)))
  {
    match s.handlers[t].stage
    case Opening =>
    case Replacing =>
    case Allocating =>
    case Acquiring =>
    case Pushing =>
    case Retrieving =>
    case Releasing =>
    case Blocked =>
    case _ =>
  }

  lemma OtherHandlersStay(s: State, t: Tid, answered: bool, addr: Address, u: Tid)
    requires HandlerCanRun(s, t, addr) && u in s.handlers && u != t
    ensures var s' := HandlerStep(s, t, answered, addr);
            u in s'.handlers && s'.handlers[u] == s.handlers[u]
  {
    match s.handlers[t].stage
    case Opening =>
    case Replacing =>
    case Allocating =>
    case Acquiring =>
    case Pushing =>
    case Retrieving =>
    case Releasing =>
    case Blocked =>
    case _ =>
  }

  // ----- What the steps do to the handlers and the promises they own.

  lemma ArrivalSide(handlers: map<Tid, Handler>, heap: map<Address, Cell>, issued: map<nat, Address>, board: Board,
                    t: Tid, file: string)
    requires HandlerSide(handlers, heap, issued, board) && t !in handlers
    ensures HandlerSide(handlers[t := Handler(file, Opening, false, None, None, None)], heap, issued, board)
  {
  }

  lemma StageSide(handlers: map<Tid, Handler>, heap: map<Address, Cell>, issued: map<nat, Address>, board: Board,
                  t: Tid, h: Handler)
    requires HandlerSide(handlers, heap, issued, board) && t in handlers
    requires HandlerOk(t, h, heap, issued, board)
    requires h.p == handlers[t].p && h.at == handlers[t].at
    ensures HandlerSide(handlers[t := h], heap, issued, board)
  {
  }

  lemma LockingSide(handlers: map<Tid, Handler>, heap: map<Address, Cell>, issued: map<nat, Address>, board: Board,
                    t: Tid, stage: HandlerStage)
    requires HandlerSide(handlers, heap, issued, board) && t in handlers
    requires (handlers[t].stage.Acquiring? && stage.Pushing?) || (handlers[t].stage.Releasing? && stage.Blocked?)
    ensures HandlerSide(handlers[t := handlers[t].(stage := stage)], heap, issued, board)
  {
    StageSide(handlers, heap, issued, board, t, handlers[t].(stage := stage));
  }

  lemma AllocationSide(handlers: map<Tid, Handler>, heap: map<Address, Cell>, issued: map<nat, Address>, board: Board,
                       t: Tid, addr: Address)
    requires HandlerSide(handlers, heap, issued, board) && t in handlers
    requires handlers[t].stage.Allocating? && addr !in heap
    ensures HandlerSide(handlers[t := handlers[t].(stage := Acquiring, p := Some(addr))],
                        heap[addr := Cell(t, true, false, None)], issued, board)
  {
  }

  lemma PushSide(handlers: map<Tid, Handler>, heap: map<Address, Cell>, issued: map<nat, Address>, board: Board,
                 t: Tid, n: nat)
    requires HandlerSide(handlers, heap, issued, board) && t in handlers
    requires handlers[t].stage.Pushing? && n !in issued && n !in board
    ensures handlers[t].p.Some?
    ensures HandlerSide(handlers[t := handlers[t].(stage := Retrieving, at := Some(n))],
                        heap, issued[n := handlers[t].p.value], Advance(board, n, Registered(handlers[t].file)))
  {
  }

  lemma RetrieveSide(handlers: map<Tid, Handler>, heap: map<Address, Cell>, issued: map<nat, Address>,
                     board: Board, t: Tid)
    requires HandlerSide(handlers, heap, issued, board) && t in handlers
    requires handlers[t].stage.Retrieving?
    ensures handlers[t].p.Some? && handlers[t].p.value in heap
    ensures HandlerSide(handlers[t := handlers[t].(stage := Releasing)],
                        heap[handlers[t].p.value := heap[handlers[t].p.value].(retrieved := true)], issued, board)
  {
  }

  lemma PublishSide(handlers: map<Tid, Handler>, heap: map<Address, Cell>, issued: map<nat, Address>, board: Board,
                    n: nat, name: string, value: string)
    requires HandlerSide(handlers, heap, issued, board)
    requires forall t :: t in handlers ==> !HandlerIsInside(handlers[t])
    ensures HandlerSide(handlers, heap, issued, Advance(board, n, Published(name, value)))
  {
  }

  /** The loop changes one registered promise, and gives it no second value. */
  lemma LoopSide(handlers: map<Tid, Handler>, heap: map<Address, Cell>, issued: map<nat, Address>, board: Board,
                 i: nat, cell: Cell)
    requires HandlerSide(handlers, heap, issued, board) && i in issued
    requires var before := heap[issued[i]];
             cell.owner == before.owner && cell.retrieved == before.retrieved
                 && (before.value.Some? ==> cell.value == before.value)
    ensures HandlerSide(handlers, heap[issued[i] := cell], issued, board)
  {
  }

  // ----- What the steps do to the shared memory.

  lemma AllocationMemory(promises: map<string, seq<Address>>, heap: map<Address, Cell>, issued: map<nat, Address>,
                         board: Board, queues: Queues, pub: Option<Publication>, addr: Address, cell: Cell)
    requires MemorySide(promises, heap, issued, board, queues, pub) && addr !in heap
    ensures MemorySide(promises, heap[addr := cell], issued, board, queues, pub)
  {
  }

  lemma PushMemory(promises: map<string, seq<Address>>, heap: map<Address, Cell>, issued: map<nat, Address>,
                   board: Board, queues: Queues, key: string, n: nat, p: Address)
    requires MemorySide(promises, heap, issued, board, queues, None)
    requires n !in issued && p in heap && heap[p].alive && heap[p].value.None?
    ensures MemorySide(promises[key := Waiting(promises, key) + [p]], heap, issued[n := p],
                       Advance(board, n, Registered(key)), Requeue(queues, n, Registered(key)), None)
  {
    StoresRegistration(promises, queues, issued, key, n, p);
  }

  lemma RetrieveMemory(promises: map<string, seq<Address>>, heap: map<Address, Cell>, issued: map<nat, Address>,
                       board: Board, queues: Queues, pub: Option<Publication>, p: Address)
    requires MemorySide(promises, heap, issued, board, queues, pub) && p in heap
    ensures MemorySide(promises, heap[p := heap[p].(retrieved := true)], issued, board, queues, pub)
  {
  }

  /** A queue lists the unanswered registrations of its key, each once and oldest first. */
  ghost predicate IsQueueOf(board: Board, queues: Queues, key: string) {
    var queue := Waiting(queues, key);
    && (forall i :: i in queue <==> i in board && board[i] == Ticket(key, None))
    && (forall a, b :: 0 <= a < b < |queue| ==> queue[a] < queue[b])
    && (key in queues ==> queue != [])
  }

  lemma FindMemory(promises: map<string, seq<Address>>, heap: map<Address, Cell>, issued: map<nat, Address>,
                   board: Board, queues: Queues, n: nat, name: string, value: string)
    requires MemorySide(promises, heap, issued, board, queues, None)
    requires IsQueueOf(board, queues, name)
    ensures var pub := if name in promises
                       then Some(Publication(name, value, Batch(promises[name], 0, false, Waiting(queues, name))))
                       else None;
            MemorySide(promises, heap, issued, Advance(board, n, Published(name, value)),
                       Requeue(queues, n, Published(name, value)), pub)
  {
    if name in promises {
      var ids := queues[name];
      assert ids[0..] == ids;
      assert queues == (queues - {name})[name := ids];
    }
  }

  ghost predicate Injective(issued: map<nat, Address>) {
    forall i, j :: i in issued && j in issued && issued[i] == issued[j] ==> i == j
  }

  lemma OwnedIsInjective(handlers: map<Tid, Handler>, heap: map<Address, Cell>, issued: map<nat, Address>)
    requires Owned(handlers, heap, issued)
    ensures Injective(issued)
  {
  }

  /** The entry the loop is at is a live promise, and it is empty unless the loop itself has filled it. */
  lemma LoopIsSafe(promises: map<string, seq<Address>>, heap: map<Address, Cell>, issued: map<nat, Address>,
                   board: Board, queues: Queues, pub: Publication)
    requires MemorySide(promises, heap, issued, board, queues, Some(pub))
    ensures pub.name in promises && |promises[pub.name]| == |pub.batch.ids|
    ensures var b := pub.batch; b.n < |b.ids| ==>
              && b.ids[b.n] in issued && promises[pub.name][b.n] == issued[b.ids[b.n]]
              && IsAlive(heap, issued[b.ids[b.n]])
              && heap[issued[b.ids[b.n]]].value == if b.half then Some(pub.value) else None
  {
    var b := pub.batch;
    if b.n < |b.ids| {
      assert b.ids[b.n..][0] == b.ids[b.n];
      assert b.ids[b.n] in b.ids[b.n..];
    }
  }

  lemma FulfilMemory(promises: map<string, seq<Address>>, heap: map<Address, Cell>, issued: map<nat, Address>,
                     board: Board, queues: Queues, pub: Publication)
    requires MemorySide(promises, heap, issued, board, queues, Some(pub)) && Injective(issued)
    requires pub.batch.n < |pub.batch.ids| && !pub.batch.half
    ensures var p := issued[pub.batch.ids[pub.batch.n]];
            p in heap && MemorySide(promises, heap[p := heap[p].(value := Some(pub.value))], issued, board, queues,
                                    Some(pub.(batch := pub.batch.(half := true))))
  {
    LoopIsSafe(promises, heap, issued, board, queues, pub);
  }

  lemma DeleteMemory(promises: map<string, seq<Address>>, heap: map<Address, Cell>, issued: map<nat, Address>,
                     board: Board, queues: Queues, pub: Publication)
    requires MemorySide(promises, heap, issued, board, queues, Some(pub)) && Injective(issued)
    requires pub.batch.half
    ensures var b := pub.batch;
            var p := issued[b.ids[b.n]];
            p in heap && MemorySide(promises, heap[p := heap[p].(alive := false)], issued, board, queues,
                                    Some(pub.(batch := b.(half := false, n := b.n + 1))))
  {
    LoopIsSafe(promises, heap, issued, board, queues, pub);
    DropOne(pub.batch.ids, pub.batch.n);
  }

  lemma DropOne(ids: seq<nat>, n: nat)
    requires n < |ids| && forall a, b :: 0 <= a < b < |ids| ==> ids[a] < ids[b]
    ensures forall i :: i in ids[n + 1..] <==> i in ids[n..] && i != ids[n]
  {
    assert ids[n..] == [ids[n]] + ids[n + 1..];
    assert forall k :: n < k < |ids| ==> ids[k] != ids[n];
  }

  lemma EraseMemory(promises: map<string, seq<Address>>, heap: map<Address, Cell>, issued: map<nat, Address>,
                    board: Board, queues: Queues, pub: Publication)
    requires MemorySide(promises, heap, issued, board, queues, Some(pub))
    requires pub.batch.n == |pub.batch.ids|
    ensures MemorySide(promises - {pub.name}, heap, issued, board, queues, None)
  {
  }

  // ----- What the steps do to the lock.

  /** A handler that stays inside, or stays outside, the critical section. */
  lemma HandlerMoves(lock: Lock, handlers: map<Tid, Handler>, notifications: map<Tid, Notification>,
                     promises: map<string, seq<Address>>, t: Tid, h: Handler)
    requires LockSide(lock, handlers, notifications, promises)
    requires HandlerIsInside(h) <==> t in handlers && HandlerIsInside(handlers[t])
    ensures LockSide(lock, handlers[t := h], notifications, promises)
  {
  }

  lemma HandlerLocks(handlers: map<Tid, Handler>, notifications: map<Tid, Notification>,
                     promises: map<string, seq<Address>>, t: Tid, h: Handler)
    requires LockSide(Free, handlers, notifications, promises) && HandlerIsInside(h)
    ensures LockSide(HeldByHandler(t), handlers[t := h], notifications, promises)
  {
  }

  lemma HandlerUnlocks(handlers: map<Tid, Handler>, notifications: map<Tid, Notification>,
                       promises: map<string, seq<Address>>, t: Tid, h: Handler)
    requires LockSide(HeldByHandler(t), handlers, notifications, promises) && !HandlerIsInside(h)
    ensures LockSide(Free, handlers[t := h], notifications, promises)
  {
  }

  /** While a handler has the lock no loop is running, so it may change the map. */
  lemma HandlerMayPush(lock: Lock, handlers: map<Tid, Handler>, notifications: map<Tid, Notification>,
                       promises: map<string, seq<Address>>, promises': map<string, seq<Address>>)
    requires LockSide(lock, handlers, notifications, promises) && lock.HeldByHandler?
    ensures LockSide(lock, handlers, notifications, promises')
  {
  }

  lemma NotificationMoves(lock: Lock, handlers: map<Tid, Handler>, notifications: map<Tid, Notification>,
                          promises: map<string, seq<Address>>, t: Tid, n: Notification)
    requires LockSide(lock, handlers, notifications, promises) && NotificationOk(n, promises)
    requires NotificationIsInside(n) <==> t in notifications && NotificationIsInside(notifications[t])
    ensures LockSide(lock, handlers, notifications[t := n], promises)
  {
  }

  lemma NotificationLocks(handlers: map<Tid, Handler>, notifications: map<Tid, Notification>,
                          promises: map<string, seq<Address>>, t: Tid, n: Notification)
    requires LockSide(Free, handlers, notifications, promises) && NotificationIsInside(n) && NotificationOk(n, promises)
    ensures LockSide(HeldByNotification(t), handlers, notifications[t := n], promises)
  {
  }

  lemma NotificationUnlocks(handlers: map<Tid, Handler>, notifications: map<Tid, Notification>,
                            promises: map<string, seq<Address>>, t: Tid, n: Notification)
    requires LockSide(HeldByNotification(t), handlers, notifications, promises)
    requires !NotificationIsInside(n) && NotificationOk(n, promises)
    ensures LockSide(Free, handlers, notifications[t := n], promises)
  {
  }

  lemma NotificationErases(handlers: map<Tid, Handler>, notifications: map<Tid, Notification>,
                           promises: map<string, seq<Address>>, promises': map<string, seq<Address>>,
                           t: Tid, n: Notification)
    requires LockSide(HeldByNotification(t), handlers, notifications, promises)
    requires n.stage.Unlocking? && n.batch.None?
    ensures LockSide(HeldByNotification(t), handlers, notifications[t := n], promises')
  {
  }

  // ----- The steps themselves.

  lemma RequestKeeps(s: State, t: Tid, file: string)
    requires Coherent(s) && t !in s.handlers
    ensures Coherent(Take(s, Request(t, file)))
  {
    var h := Handler(file, Opening, false, None, None, None);
    ArrivalSide(s.handlers, s.heap, s.issued, s.history.board, t, file);
    HandlerMoves(s.lock, s.handlers, s.notifications, s.promises, t, h);
  }

  lemma NotifyKeeps(s: State, t: Tid, payload: Payload)
    requires Coherent(s) && t !in s.notifications
    ensures Coherent(Take(s, Notify(t, payload)))
  {
    NotificationMoves(s.lock, s.handlers, s.notifications, s.promises, t,
        Notification(Received, payload, "", "", None));
  }

  lemma PrivateStepKeeps(s: State, t: Tid, answered: bool, addr: Address)
    requires Coherent(s) && HandlerCanRun(s, t, addr)
    requires var stage := s.handlers[t].stage; stage.Opening? || stage.Replacing? || stage.Blocked?
    ensures Coherent(HandlerStep(s, t, answered, addr))
  {
    var h := HandlerStep(s, t, answered, addr).handlers[t];
    StageSide(s.handlers, s.heap, s.issued, s.history.board, t, h);
    HandlerMoves(s.lock, s.handlers, s.notifications, s.promises, t, h);
  }

  lemma AllocationKeeps(s: State, t: Tid, answered: bool, addr: Address)
    requires Coherent(s) && HandlerCanRun(s, t, addr) && s.handlers[t].stage.Allocating?
    ensures Coherent(HandlerStep(s, t, answered, addr))
  {
    var h := s.handlers[t].(stage := Acquiring, p := Some(addr));
    AllocationSide(s.handlers, s.heap, s.issued, s.history.board, t, addr);
    AllocationMemory(s.promises, s.heap, s.issued, s.history.board, s.history.queues, Current(s.lock, s.notifications),
                     addr, Cell(t, true, false, None));
    HandlerMoves(s.lock, s.handlers, s.notifications, s.promises, t, h);
  }

  lemma AcquireKeeps(s: State, t: Tid, answered: bool, addr: Address)
    requires Coherent(s) && HandlerCanRun(s, t, addr) && s.handlers[t].stage.Acquiring?
    ensures Coherent(HandlerStep(s, t, answered, addr))
  {
    var h := s.handlers[t].(stage := Pushing);
    LockingSide(s.handlers, s.heap, s.issued, s.history.board, t, Pushing);
    HandlerLocks(s.handlers, s.notifications, s.promises, t, h);
  }

  lemma ReleaseKeeps(s: State, t: Tid, answered: bool, addr: Address)
    requires Coherent(s) && HandlerCanRun(s, t, addr) && s.handlers[t].stage.Releasing?
    ensures Coherent(HandlerStep(s, t, answered, addr))
  {
    var h := s.handlers[t].(stage := Blocked);
    LockingSide(s.handlers, s.heap, s.issued, s.history.board, t, Blocked);
    HandlerUnlocks(s.handlers, s.notifications, s.promises, t, h);
  }

  lemma PushKeeps(s: State, t: Tid, answered: bool, addr: Address)
    requires Coherent(s) && HandlerCanRun(s, t, addr) && s.handlers[t].stage.Pushing?
    requires |s.history.log| !in s.history.board
    ensures Coherent(HandlerStep(s, t, answered, addr))
  {
    var n, h := |s.history.log|, s.handlers[t];
    PushSide(s.handlers, s.heap, s.issued, s.history.board, t, n);
    PushMemory(s.promises, s.heap, s.issued, s.history.board, s.history.queues, h.file, n, h.p.value);
    HandlerMoves(s.lock, s.handlers, s.notifications, s.promises, t, h.(stage := Retrieving, at := Some(n)));
    var s' := HandlerStep(s, t, answered, addr);
    HandlerMayPush(s.lock, s'.handlers, s.notifications, s.promises, s'.promises);
  }

  lemma RetrieveKeeps(s: State, t: Tid, answered: bool, addr: Address)
    requires Coherent(s) && HandlerCanRun(s, t, addr) && s.handlers[t].stage.Retrieving?
    ensures Coherent(HandlerStep(s, t, answered, addr))
  {
    var h := s.handlers[t];
    RetrieveSide(s.handlers, s.heap, s.issued, s.history.board, t);
    RetrieveMemory(s.promises, s.heap, s.issued, s.history.board, s.history.queues, None, h.p.value);
    HandlerMoves(s.lock, s.handlers, s.notifications, s.promises, t, h.(stage := Releasing));
  }

  lemma OutsideStepKeeps(s: State, t: Tid, reply: string)
    requires Coherent(s) && NotificationCanRun(s, t)
    requires s.notifications[t].stage.Received? || s.notifications[t].stage.Requesting?
    ensures Coherent(NotificationStep(s, t, reply))
  {
    var n := NotificationStep(s, t, reply).notifications[t];
    NotificationMoves(s.lock, s.handlers, s.notifications, s.promises, t, n);
  }

  lemma LockKeeps(s: State, t: Tid, reply: string)
    requires Coherent(s) && NotificationCanRun(s, t)
    requires s.notifications[t].stage.Locking? || s.notifications[t].stage.Unlocking?
    ensures Coherent(NotificationStep(s, t, reply))
  {
    var n := NotificationStep(s, t, reply).notifications[t];
    if s.notifications[t].stage.Locking? {
      NotificationLocks(s.handlers, s.notifications, s.promises, t, n);
    } else {
      NotificationUnlocks(s.handlers, s.notifications, s.promises, t, n);
    }
  }

  lemma FindKeeps(s: State, t: Tid, reply: string)
    requires Coherent(s) && NotificationCanRun(s, t) && s.notifications[t].stage.Finding?
    requires IsQueueOf(s.history.board, s.history.queues, s.notifications[t].name)
    ensures Coherent(NotificationStep(s, t, reply))
  {
    var n, i := s.notifications[t], |s.history.log|;
    FindMemory(s.promises, s.heap, s.issued, s.history.board, s.history.queues, i, n.name, n.value);
    PublishSide(s.handlers, s.heap, s.issued, s.history.board, i, n.name, n.value);
    NotificationMoves(s.lock, s.handlers, s.notifications, s.promises, t,
        NotificationStep(s, t, reply).notifications[t]);
  }

  /** The notification that holds the mutex and runs the loop is the current publication. */
  lemma CurrentLoop(s: State, t: Tid)
    requires Coherent(s) && t in s.notifications && s.notifications[t].stage.Looping?
    ensures s.lock == HeldByNotification(t) && s.notifications[t].batch.Some?
    ensures var n := s.notifications[t];
            && Current(s.lock, s.notifications) == Some(Publication(n.name, n.value, n.batch.value))
            && n.name in s.promises && s.promises[n.name] == n.batch.value.vector
            && MemorySide(s.promises, s.heap, s.issued, s.history.board, s.history.queues,
               Current(s.lock, s.notifications))
  {
  }

  lemma FulfilKeeps(s: State, t: Tid)
    requires Coherent(s) && t in s.notifications && s.notifications[t].stage.Looping? && s.notifications[t].batch.Some?
    requires var b := s.notifications[t].batch.value; b.n < |b.ids| && !b.half
    ensures Coherent(LoopStep(s, t))
  {
    CurrentLoop(s, t);
    var n, board, queues := s.notifications[t], s.history.board, s.history.queues;
    var b := n.batch.value;
    var pub, p := Publication(n.name, n.value, b), s.issued[b.ids[b.n]];
    LoopIsSafe(s.promises, s.heap, s.issued, board, queues, pub);
    OwnedIsInjective(s.handlers, s.heap, s.issued);
    FulfilMemory(s.promises, s.heap, s.issued, board, queues, pub);
    LoopSide(s.handlers, s.heap, s.issued, board, b.ids[b.n], s.heap[p].(value := Some(n.value)));
    NotificationMoves(s.lock, s.handlers, s.notifications, s.promises, t, n.(batch := Some(b.(half := true))));
  }

  lemma DeleteKeeps(s: State, t: Tid)
    requires Coherent(s) && t in s.notifications && s.notifications[t].stage.Looping? && s.notifications[t].batch.Some?
    requires s.notifications[t].batch.value.half
    ensures Coherent(LoopStep(s, t))
  {
    CurrentLoop(s, t);
    var n, board, queues := s.notifications[t], s.history.board, s.history.queues;
    var b := n.batch.value;
    var pub, p := Publication(n.name, n.value, b), s.issued[b.ids[b.n]];
    LoopIsSafe(s.promises, s.heap, s.issued, board, queues, pub);
    OwnedIsInjective(s.handlers, s.heap, s.issued);
    DeleteMemory(s.promises, s.heap, s.issued, board, queues, pub);
    LoopSide(s.handlers, s.heap, s.issued, board, b.ids[b.n], s.heap[p].(alive := false));
    NotificationMoves(s.lock, s.handlers, s.notifications, s.promises, t,
                      n.(batch := Some(b.(half := false, n := b.n + 1))));
  }

  lemma LoopEndKeeps(s: State, t: Tid)
    requires Coherent(s) && t in s.notifications && s.notifications[t].stage.Looping? && s.notifications[t].batch.Some?
    requires var b := s.notifications[t].batch.value; b.n >= |b.ids| && !b.half
    ensures Coherent(LoopStep(s, t))
  {
    CurrentLoop(s, t);
    var n := s.notifications[t];
    LoopIsSafe(s.promises, s.heap, s.issued, s.history.board, s.history.queues,
        Publication(n.name, n.value, n.batch.value));
    NotificationMoves(s.lock, s.handlers, s.notifications, s.promises, t, n.(stage := Erasing));
  }

  lemma LoopKeeps(s: State, t: Tid)
    requires Coherent(s) && t in s.notifications && s.notifications[t].stage.Looping?
    ensures Coherent(LoopStep(s, t))
  {
    CurrentLoop(s, t);
    var b := s.notifications[t].batch.value;
    if b.half {
      DeleteKeeps(s, t);
    } else if b.n < |b.ids| {
      FulfilKeeps(s, t);
    } else {
      LoopEndKeeps(s, t);
    }
  }

  lemma EraseKeeps(s: State, t: Tid, reply: string)
    requires Coherent(s) && NotificationCanRun(s, t) && s.notifications[t].stage.Erasing?
    ensures Coherent(NotificationStep(s, t, reply))
  {
    var pub := Current(s.lock, s.notifications).value;
    var s' := NotificationStep(s, t, reply);
    EraseMemory(s.promises, s.heap, s.issued, s.history.board, s.history.queues, pub);
    NotificationErases(s.handlers, s.notifications, s.promises, s'.promises, t, s'.notifications[t]);
  }

  lemma StepKeepsInv(s: State, step: Step)
    requires Inv(s) && Enabled(s, step)
    ensures Inv(Take(s, step))
  {
    match step
    case Request(t, file) => RequestKeeps(s, t, file);
    case Notify(t, payload) => NotifyKeeps(s, t, payload);
    case RunHandler(t, answered, addr) => HandlerKeepsInv(s, t, answered, addr);
    case RunNotification(t, reply) => NotificationKeepsInv(s, t, reply);
  }

  lemma HandlerKeeps(s: State, t: Tid, answered: bool, addr: Address)
    requires Coherent(s) && HandlerCanRun(s, t, addr)
    requires |s.history.log| !in s.history.board
    ensures Coherent(HandlerStep(s, t, answered, addr))
  {
    match s.handlers[t].stage
    case Allocating => AllocationKeeps(s, t, answered, addr);
    case Acquiring => AcquireKeeps(s, t, answered, addr);
    case Pushing => PushKeeps(s, t, answered, addr);
    case Retrieving => RetrieveKeeps(s, t, answered, addr);
    case Releasing => ReleaseKeeps(s, t, answered, addr);
    case _ => PrivateStepKeeps(s, t, answered, addr);
  }

  lemma HandlerKeepsInv(s: State, t: Tid, answered: bool, addr: Address)
    requires Inv(s) && HandlerCanRun(s, t, addr)
    ensures Inv(HandlerStep(s, t, answered, addr))
  {
    PositionIsNew(s.history.log);
    HandlerKeeps(s, t, answered, addr);
    HandlerFrame(s, t, answered, addr);
    RecordIsFaithful(s.history, Registered(s.handlers[t].file));
  }

  lemma NotificationKeeps(s: State, t: Tid, reply: string)
    requires Coherent(s) && NotificationCanRun(s, t)
    requires IsQueueOf(s.history.board, s.history.queues, s.notifications[t].name)
    ensures Coherent(NotificationStep(s, t, reply))
  {
    match s.notifications[t].stage
    case Finding => FindKeeps(s, t, reply);
    case Looping => LoopKeeps(s, t);
    case Erasing => EraseKeeps(s, t, reply);
    case Received => OutsideStepKeeps(s, t, reply);
    case Requesting => OutsideStepKeeps(s, t, reply);
    case _ => LockKeeps(s, t, reply);
  }

  lemma NotificationKeepsInv(s: State, t: Tid, reply: string)
    requires Inv(s) && NotificationCanRun(s, t)
    ensures Inv(NotificationStep(s, t, reply))
  {
    var n := s.notifications[t];
    QueueIsUnanswered(s.history.log, n.name);
    NotificationKeeps(s, t, reply);
    NotificationFrame(s, t, reply);
    RecordIsFaithful(s.history, Published(n.name, n.value));
  }
}
