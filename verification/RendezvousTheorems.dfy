/** What holds of every run of the rendezvous, whatever the interleaving. */
module RendezvousTheorems {
  import opened Wrappers
  import opened EventLog
  import opened Rendezvous
  import opened RendezvousProof

  lemma {:induction false} RunKeepsInv(s: State, steps: seq<Step>)
    requires Inv(s) && IsRun(s, steps)
    ensures Inv(After(s, steps))
    decreases |steps|
  {
    if steps != [] {
      StepKeepsInv(s, steps[0]);
      RunKeepsInv(Take(s, steps[0]), steps[1..]);
    }
  }

  lemma {:induction false} RunsCompose(s: State, first: seq<Step>, second: seq<Step>)
    requires IsRun(s, first) && IsRun(After(s, first), second)
    ensures IsRun(s, first + second)
    ensures After(s, first + second) == After(After(s, first), second)
    decreases |first|
  {
    if first == [] {
      assert first + second == second;
    } else {
      assert (first + second)[1..] == first[1..] + second;
      RunsCompose(Take(s, first[0]), first[1..], second);
    }
  }

  /** No new handler arrives in this step, and no new notification but the one that `who` names, if any. */
  predicate IsQuiet(step: Step, who: Option<Tid>) {
    !step.Request? && (step.Notify? ==> who == Some(step.t))
  }

  predicate OnlyArrives(steps: seq<Step>, who: Option<Tid>) {
    forall k :: 0 <= k < |steps| ==> IsQuiet(steps[k], who)
  }

  lemma QuietRunsCompose(s: State, first: seq<Step>, second: seq<Step>, who: Option<Tid>)
    requires IsRun(s, first) && IsRun(After(s, first), second) && OnlyArrives(first, who) && OnlyArrives(second, who)
    ensures IsRun(s, first + second) && OnlyArrives(first + second, who)
    ensures After(s, first + second) == After(After(s, first), second)
  {
    RunsCompose(s, first, second);
  }

  /** The same, for a single first step. */
  lemma QuietStepAndRun(s: State, step: Step, rest: seq<Step>, who: Option<Tid>)
    requires Enabled(s, step) && IsQuiet(step, who) && IsRun(Take(s, step), rest) && OnlyArrives(rest, who)
    ensures IsRun(s, [step] + rest) && OnlyArrives([step] + rest, who)
    ensures After(s, [step] + rest) == After(Take(s, step), rest)
  {
    assert ([step] + rest)[1..] == rest;
  }

  lemma OneStepRun(s: State, step: Step)
    requires Enabled(s, step)
    ensures IsRun(s, [step]) && After(s, [step]) == Take(s, step)
  {
  }

  /**
   No run ever uses a promise after its deletion, deletes one twice, fulfils or retrieves one twice,
   follows an invalidated iterator or unlocks a mutex it does not hold.
   */
  lemma NoUndefinedBehaviour(steps: seq<Step>)
    requires IsRun(INITIAL, steps)
    ensures !After(INITIAL, steps).fault
  {
    InitiallyInv();
    RunKeepsInv(INITIAL, steps);
  }

  /** The registration at `at` has not been followed by a publication on its key. */
  ghost predicate Unanswered(log: Log, at: nat) {
    IsRegistration(log, at) && forall j :: at < j < |log| ==> !PublishesOn(log[j], log[at].key)
  }

  /** Handler `t` has registered for `file` and no publication for it has come since. */
  ghost predicate Waits(s: State, t: Tid, file: string) {
    && t in s.handlers && s.handlers[t].file == file
    && s.handlers[t].p.Some? && s.handlers[t].at.Some?
    && Unanswered(s.history.log, s.handlers[t].at.value)
  }

  /** The board of the log, in terms of the log alone. */
  lemma BoardMeaning(s: State, i: nat)
    requires Inv(s) && i in s.issued
    ensures i in s.history.board && IsRegistration(s.history.log, i)
    ensures s.history.board[i].key == s.history.log[i].key
    ensures s.history.board[i].outcome.None? <==> Unanswered(s.history.log, i)
    ensures forall v :: s.history.board[i].outcome == Some(v) <==>
                        exists j: nat :: FirstAfter(s.history.log, i, j) && s.history.log[j].value == v
  {
    BoardListsRegistrations(s.history.log);
    AnswerIsFirstPublication(s.history.log, i);
  }

  /** While the mutex is free, every promise is as its owner and the board say. */
  lemma QuietCell(s: State, p: Address)
    requires Inv(s) && s.lock.Free? && p in s.heap
    ensures s.heap[p].owner in s.handlers
    ensures var cell, h := s.heap[p], s.handlers[s.heap[p].owner];
            && h.p == Some(p)
            && (h.at.None? ==> cell.alive && cell.value.None? && p !in s.issued.Values)
            && (h.at.Some? ==>
                  && h.at.value in s.issued && s.issued[h.at.value] == p
                  && h.at.value in s.history.board && s.history.board[h.at.value].key == h.file
                  && cell.value == s.history.board[h.at.value].outcome
                  && (cell.alive <==> cell.value.None?))
  {
  }

  /** A vector holds the promises of the open registrations of its key, and nothing else. */
  lemma VectorMeaning(log: Log, promises: map<string, seq<Address>>, issued: map<nat, Address>, key: string)
    requires Stores(promises, QueuesOf(log), issued)
    ensures forall p :: p in Waiting(promises, key) <==>
                        exists i :: i in issued && issued[i] == p && i in BoardOf(log)
                            && BoardOf(log)[i] == Ticket(key, None)
  {
    QueueIsUnanswered(log, key);
    var queue, vector := Waiting(QueuesOf(log), key), Waiting(promises, key);
    forall p
      ensures p in vector <==>
              exists i :: i in issued && issued[i] == p && i in BoardOf(log) && BoardOf(log)[i] == Ticket(key, None)
    {
      if p in vector {
        var n :| 0 <= n < |vector| && vector[n] == p;
        assert queue[n] in queue;
      }
      if i :| i in issued && issued[i] == p && i in BoardOf(log) && BoardOf(log)[i] == Ticket(key, None) {
        var n :| 0 <= n < |queue| && queue[n] == i;
        assert vector[n] == p;
      }
    }
  }

  lemma StoredIffWaiting(s: State, p: Address)
    requires Inv(s) && s.lock.Free? && p in s.heap
    ensures s.heap[p].owner in s.handlers
    ensures forall file :: p in Waiting(s.promises, file) <==> Waits(s, s.heap[p].owner, file)
    ensures Waits(s, s.heap[p].owner, s.handlers[s.heap[p].owner].file) <==>
              s.handlers[s.heap[p].owner].at.Some? && s.heap[p].alive
  {
    QuietCell(s, p);
    OwnedIsInjective(s.handlers, s.heap, s.issued);
    var h := s.handlers[s.heap[p].owner];
    if h.at.Some? {
      BoardMeaning(s, h.at.value);
    }
    forall file
      ensures p in Waiting(s.promises, file) <==> Waits(s, s.heap[p].owner, file)
    {
      VectorMeaning(s.history.log, s.promises, s.issued, file);
    }
  }

  /**
   An entry of a vector is the promise of some registration under that very key, and no two entries
   are of one registration.
   */
  lemma VectorIds(s: State, file: string) returns (ids: seq<nat>)
    requires Inv(s)
    ensures var vector := Waiting(s.promises, file);
            && |ids| == |vector|
            && (forall m :: 0 <= m < |ids| ==> ids[m] in s.issued && s.issued[ids[m]] == vector[m])
            && (forall m :: 0 <= m < |ids| ==> ids[m] in s.history.board && s.history.board[ids[m]].key == file)
            && (forall m, n :: 0 <= m < n < |ids| ==> ids[m] < ids[n])
  {
    var pub := Current(s.lock, s.notifications);
    ids := Waiting(StoredQueues(s.history.queues, pub), file);
    if pub.Some? && pub.value.name == file {
      assert forall m :: 0 <= m < |ids| ==> ids[m] in pub.value.batch.ids;
    } else {
      QueueIsUnanswered(s.history.log, file);
      assert forall m :: 0 <= m < |ids| ==> ids[m] in Waiting(s.history.queues, file);
    }
  }

  /**
   At every moment, also inside `set`: every entry of a vector is an allocated promise, registered
   by its owner under that very file, and no vector has an entry twice; so no promise is stored twice.
   */
  lemma StoredPromisesAreAllocatedAndDistinct(steps: seq<Step>, file: string)
    requires IsRun(INITIAL, steps)
    ensures var s := After(INITIAL, steps);
            var vector := Waiting(s.promises, file);
            && (forall p :: p in vector ==>
                  && p in s.heap && s.heap[p].owner in s.handlers
                  && var h := s.handlers[s.heap[p].owner];
                  && h.p == Some(p) && h.file == file && h.at.Some?)
            && (forall m, n :: 0 <= m < n < |vector| ==> vector[m] != vector[n])
  {
    InitiallyInv();
    RunKeepsInv(INITIAL, steps);
    VectorIsSound(After(INITIAL, steps), file);
  }

  lemma VectorIsSound(s: State, file: string)
    requires Inv(s)
    ensures var vector := Waiting(s.promises, file);
            && (forall p :: p in vector ==>
                  && p in s.heap && s.heap[p].owner in s.handlers
                  && var h := s.handlers[s.heap[p].owner];
                  && h.p == Some(p) && h.file == file && h.at.Some?)
            && (forall m, n :: 0 <= m < n < |vector| ==> vector[m] != vector[n])
  {
    var ids := VectorIds(s, file);
    var vector := Waiting(s.promises, file);
    OwnedIsInjective(s.handlers, s.heap, s.issued);
    forall p | p in vector
      ensures p in s.heap && s.heap[p].owner in s.handlers
      ensures var h := s.handlers[s.heap[p].owner]; h.p == Some(p) && h.file == file && h.at.Some?
    {
      var m :| 0 <= m < |vector| && vector[m] == p;
      IssuedIsOwned(s, ids[m]);
    }
  }

  lemma IssuedIsOwned(s: State, i: nat)
    requires Inv(s) && i in s.issued
    ensures s.issued[i] in s.heap && s.heap[s.issued[i]].owner in s.handlers && i in s.history.board
    ensures var h := s.handlers[s.heap[s.issued[i]].owner];
            h.p == Some(s.issued[i]) && h.at == Some(i) && h.file == s.history.board[i].key
  {
  }

  /** The promise of handler `t`, which waits: allocated, its own, alive and empty. */
  ghost predicate HasLivePromise(s: State, t: Tid) {
    && t in s.handlers && s.handlers[t].p.Some? && s.handlers[t].p.value in s.heap
    && var cell := s.heap[s.handlers[t].p.value];
    && cell.owner == t && cell.alive && cell.value.None?
  }

  ghost predicate IsRegisteredAndAlive(s: State, p: Address, file: string) {
    && p in s.heap && s.heap[p].alive && s.heap[p].owner in s.handlers
    && s.handlers[s.heap[p].owner].file == file && s.handlers[s.heap[p].owner].at.Some?
  }

  lemma WaitsMeansStored(s: State, t: Tid, file: string)
    requires Inv(s) && s.lock.Free? && Waits(s, t, file)
    ensures HasLivePromise(s, t) && s.handlers[t].p.value in Waiting(s.promises, file)
  {
    var p := s.handlers[t].p.value;
    QuietCell(s, p);
    StoredIffWaiting(s, p);
  }

  /**
   Whenever the mutex is free, the vector stored under a file and the handlers that wait for that
   file are in one-to-one correspondence: its entries are allocated, alive and all different; each is
   the promise of a handler that waits for the file, and each such handler has its own among them.
   Over all files, these are the registered promises that are still alive.
   */
  lemma StoredPromisesAreTheWaitingHandlers(steps: seq<Step>, file: string)
    requires IsRun(INITIAL, steps)
    ensures var s := After(INITIAL, steps);
            var vector := Waiting(s.promises, file);
            s.lock.Free? ==>
              && (forall p :: p in vector ==>
                    && p in s.heap && s.heap[p].alive && Waits(s, s.heap[p].owner, file)
                    && s.handlers[s.heap[p].owner].p == Some(p))
              && (forall m, n :: 0 <= m < n < |vector| ==> vector[m] != vector[n])
              && (forall t :: Waits(s, t, file) ==> HasLivePromise(s, t) && s.handlers[t].p.value in vector)
              && (forall p :: IsRegisteredAndAlive(s, p, file) ==> p in vector)
  {
    var s := After(INITIAL, steps);
    var vector := Waiting(s.promises, file);
    InitiallyInv();
    RunKeepsInv(INITIAL, steps);
    if s.lock.Free? {
      VectorIsSound(s, file);
      forall p | p in s.heap
        ensures p in vector ==> s.heap[p].alive && Waits(s, s.heap[p].owner, file)
        ensures p in vector ==> s.handlers[s.heap[p].owner].p == Some(p)
        ensures IsRegisteredAndAlive(s, p, file) ==> p in vector
      {
        QuietCell(s, p);
        StoredIffWaiting(s, p);
      }
      forall t | Waits(s, t, file)
        ensures HasLivePromise(s, t) && s.handlers[t].p.value in vector
      {
        WaitsMeansStored(s, t, file);
      }
    }
  }

  /** The lock's holder is in the loop of `set` over the vector of `file`, or about to erase it. */
  ghost predicate InBatch(s: State, file: string) {
    && s.lock.HeldByNotification? && s.lock.t in s.notifications
    && var n := s.notifications[s.lock.t];
    n.batch.Some? && n.name == file
  }

  /** The lock's holder has given this promise its value and is yet to delete it. */
  ghost predicate HalfDone(s: State, p: Address) {
    && s.lock.HeldByNotification? && s.lock.t in s.notifications
    && var n := s.notifications[s.lock.t];
    && n.batch.Some? && n.batch.value.half && n.batch.value.n < |n.batch.value.vector|
    && n.batch.value.vector[n.batch.value.n] == p
  }

  /**
   At every moment each allocated promise is in one of three places.  It is unregistered, alive and
   empty; or it is registered, empty, alive and stored under its own file; or it has its value, and
   is freed, save for the one that `set` is just between fulfilling and deleting, and is stored
   nowhere, save in the vector that `set` is just working on.
   */
  lemma PromisesAreConserved(steps: seq<Step>, p: Address)
    requires IsRun(INITIAL, steps) && p in After(INITIAL, steps).heap
    ensures var s := After(INITIAL, steps);
            && s.heap[p].owner in s.handlers
            && var cell, h := s.heap[p], s.handlers[s.heap[p].owner];
            && (h.at.None? ==> cell.alive && cell.value.None? && forall f :: p !in Waiting(s.promises, f))
            && (h.at.Some? && cell.value.None? ==>
                  cell.alive && forall f :: p in Waiting(s.promises, f) <==> f == h.file)
            && (cell.value.Some? ==>
                  && h.at.Some? && (cell.alive <==> HalfDone(s, p))
                  && forall f :: p in Waiting(s.promises, f) ==> f == h.file && InBatch(s, f))
  {
    var s := After(INITIAL, steps);
    InitiallyInv();
    RunKeepsInv(INITIAL, steps);
    forall f
      ensures p in Waiting(s.promises, f) ==>
                s.handlers[s.heap[p].owner].at.Some? && f == s.handlers[s.heap[p].owner].file
    {
      VectorIsSound(s, f);
    }
    if s.handlers[s.heap[p].owner].at.Some? {
      RegisteredIsStoredOrFreed(s, p);
    }
  }

  /** A registered promise without a value is in the queue of its file, or in the part of a batch still to be done. */
  lemma RegisteredIsStoredOrFreed(s: State, p: Address)
    requires Inv(s) && p in s.heap && s.heap[p].owner in s.handlers && s.handlers[s.heap[p].owner].at.Some?
    ensures var cell, h := s.heap[p], s.handlers[s.heap[p].owner];
            && (cell.value.None? ==> cell.alive && p in Waiting(s.promises, h.file))
            && (cell.value.Some? ==>
                  && (cell.alive <==> HalfDone(s, p))
                  && (p in Waiting(s.promises, h.file) ==> InBatch(s, h.file)))
  {
    var h, pub := s.handlers[s.heap[p].owner], Current(s.lock, s.notifications);
    var i := h.at.value;
    IssuedIsOwned(s, i);
    if Unfinished(i, pub) {
      UnfinishedIsStored(s, i);
    } else {
      FinishedIsFreed(s, i);
    }
  }

  lemma UnfinishedIsStored(s: State, i: nat)
    requires Inv(s) && i in s.issued && Unfinished(i, Current(s.lock, s.notifications))
    ensures s.issued[i] in s.heap && i in s.history.board
    ensures var p := s.issued[i];
            && s.heap[p].alive && p in Waiting(s.promises, s.history.board[i].key) && InBatch(s, s.history.board[i].key)
            && (s.heap[p].value.Some? <==> HalfDone(s, p))
  {
    var pub := Current(s.lock, s.notifications).value;
    var b := pub.batch;
    var m :| b.n <= m < |b.ids| && b.ids[m] == i;
    assert b.ids[m] in b.ids;
    assert Waiting(s.promises, pub.name)[m] == s.issued[i];
    OwnedIsInjective(s.handlers, s.heap, s.issued);
  }

  lemma FinishedIsFreed(s: State, i: nat)
    requires Inv(s) && i in s.issued && !Unfinished(i, Current(s.lock, s.notifications))
    ensures s.issued[i] in s.heap && i in s.history.board
    ensures var p, key := s.issued[i], s.history.board[i].key;
            && (s.heap[p].alive <==> s.heap[p].value.None?) && !HalfDone(s, p)
            && (s.heap[p].value.None? ==> p in Waiting(s.promises, key))
            && (s.heap[p].value.Some? && p in Waiting(s.promises, key) ==> InBatch(s, key))
  {
    var p, key := s.issued[i], s.history.board[i].key;
    QueueIsUnanswered(s.history.log, key);
    StoredIffQueued(s, i, key);
    if HalfDone(s, p) {
      HalfDoneIsUnfinished(s, i);
    }
  }

  lemma StoredIffQueued(s: State, i: nat, key: string)
    requires Inv(s) && i in s.issued
    ensures s.issued[i] in Waiting(s.promises, key)
       <==> i in Waiting(StoredQueues(s.history.queues, Current(s.lock, s.notifications)), key)
  {
    var queue, vector := Waiting(StoredQueues(s.history.queues, Current(s.lock, s.notifications)), key),
        Waiting(s.promises, key);
    OwnedIsInjective(s.handlers, s.heap, s.issued);
    if s.issued[i] in vector {
      var m :| 0 <= m < |vector| && vector[m] == s.issued[i];
      assert queue[m] == i;
    }
    if i in queue {
      var m :| 0 <= m < |queue| && queue[m] == i;
      assert vector[m] == s.issued[i];
    }
  }

  lemma HalfDoneIsUnfinished(s: State, i: nat)
    requires Inv(s) && i in s.issued && HalfDone(s, s.issued[i])
    ensures Unfinished(i, Current(s.lock, s.notifications))
  {
    var b := Current(s.lock, s.notifications).value.batch;
    OwnedIsInjective(s.handlers, s.heap, s.issued);
    assert s.issued[b.ids[b.n]] == b.vector[b.n];
    assert b.ids[b.n] in b.ids[b.n..];
  }

  /** The handler has returned what the first publication for its file after its registration carried. */
  ghost predicate ReturnsTheFirst(s: State, t: Tid) {
    && t in s.handlers && s.handlers[t].stage.Returned?
    && var h := s.handlers[t];
    && h.at.Some? && IsRegistration(s.history.log, h.at.value) && s.history.log[h.at.value].key == h.file
    && exists j: nat :: FirstAfter(s.history.log, h.at.value, j) && h.reply == Some(s.history.log[j].value)
  }

  lemma ReturnedIsFirst(s: State, t: Tid)
    requires Inv(s) && t in s.handlers && s.handlers[t].stage.Returned?
    ensures ReturnsTheFirst(s, t)
  {
    BoardMeaning(s, s.handlers[t].at.value);
  }

  /**
   A handler that has returned a notification's reply returned that of the first publication for
   its file that the mutex admitted after its own registration.
   */
  lemma ReplyIsFirstPublication(steps: seq<Step>, t: Tid)
    requires IsRun(INITIAL, steps)
    ensures var s := After(INITIAL, steps);
            t in s.handlers && s.handlers[t].stage.Returned? ==> ReturnsTheFirst(s, t)
  {
    var s := After(INITIAL, steps);
    InitiallyInv();
    RunKeepsInv(INITIAL, steps);
    if t in s.handlers && s.handlers[t].stage.Returned? {
      ReturnedIsFirst(s, t);
    }
  }

  /** The state that a blocked handler waits for says what the log says. */
  lemma BlockedCell(s: State, t: Tid)
    requires Inv(s) && s.lock.Free? && t in s.handlers && s.handlers[t].stage.Blocked?
    ensures var h := s.handlers[t];
            && h.p.Some? && h.at.Some? && h.p.value in s.heap
            && IsRegistration(s.history.log, h.at.value) && s.history.log[h.at.value].key == h.file
            && (s.heap[h.p.value].value.Some? ==> exists j: nat :: FirstAfter(s.history.log, h.at.value, j))
            && forall j: nat :: FirstAfter(s.history.log, h.at.value, j) ==>
                 s.heap[h.p.value].value == Some(s.history.log[j].value)
  {
    var h := s.handlers[t];
    QuietCell(s, h.p.value);
    BoardMeaning(s, h.at.value);
    var value := s.heap[h.p.value].value;
    if value.Some? {
      var j: nat :| FirstAfter(s.history.log, h.at.value, j) && s.history.log[j].value == value.value;
    }
  }

  /**
   Whenever the mutex is free, a blocked handler can return if and only if a publication for its
   file has followed its registration.
   */
  lemma BlockedHandlerCanReturnIffPublished(steps: seq<Step>, t: Tid, addr: Address)
    requires IsRun(INITIAL, steps)
    ensures var s := After(INITIAL, steps);
            s.lock.Free? && t in s.handlers && s.handlers[t].stage.Blocked? ==>
              var h := s.handlers[t];
              && h.at.Some? && IsRegistration(s.history.log, h.at.value)
              && s.history.log[h.at.value].key == h.file
              && (HandlerCanRun(s, t, addr) <==> exists j: nat :: FirstAfter(s.history.log, h.at.value, j))
  {
    var s := After(INITIAL, steps);
    InitiallyInv();
    RunKeepsInv(INITIAL, steps);
    if s.lock.Free? && t in s.handlers && s.handlers[t].stage.Blocked? {
      BlockedCell(s, t);
      assert HandlerCanRun(s, t, addr) <==> s.heap[s.handlers[t].p.value].value.Some?;
    }
  }

  /** The value it then returns is the one that this first publication carries. */
  lemma BlockedHandlerReturnsFirstPublication(s: State, t: Tid, answered: bool, addr: Address, j: nat)
    requires Inv(s) && s.lock.Free? && t in s.handlers && s.handlers[t].stage.Blocked?
    requires s.handlers[t].at.Some? && FirstAfter(s.history.log, s.handlers[t].at.value, j)
    ensures HandlerCanRun(s, t, addr)
    ensures HandlerStep(s, t, answered, addr).handlers[t]
              == s.handlers[t].(stage := Returned, reply := Some(s.history.log[j].value))
  {
    BlockedCell(s, t);
  }

  /** A reply, once returned, is never changed. */
  lemma {:induction false} ReplyIsFinal(s: State, steps: seq<Step>, t: Tid)
    requires IsRun(s, steps) && t in s.handlers && s.handlers[t].stage.Returned?
    ensures t in After(s, steps).handlers && After(s, steps).handlers[t] == s.handlers[t]
    decreases |steps|
  {
    if steps != [] {
      match steps[0] {
        case RunHandler(u, answered, addr) =>
          if u != t {
            OtherHandlersStay(s, u, answered, addr, t);
          }
        case RunNotification(u, reply) => NotificationFrame(s, u, reply);
        case _ =>
      }
      ReplyIsFinal(Take(s, steps[0]), steps[1..], t);
    }
  }

  // ----- Only files that SourceKit can name are ever notified for.

  ghost predicate NamesOk(s: State) {
    && (forall t :: t in s.notifications && !s.notifications[t].stage.Received? && !s.notifications[t].stage.Done? ==>
          IsNotifiable(s.notifications[t].name))
    && (forall j :: 0 <= j < |s.history.log| && s.history.log[j].Published? ==> IsNotifiable(s.history.log[j].key))
  }

  lemma HandlerKeepsNames(s: State, t: Tid, answered: bool, addr: Address)
    requires NamesOk(s) && HandlerCanRun(s, t, addr)
    ensures NamesOk(HandlerStep(s, t, answered, addr))
  {
    HandlerFrame(s, t, answered, addr);
  }

  lemma NotificationKeepsNames(s: State, t: Tid, reply: string)
    requires NamesOk(s) && NotificationCanRun(s, t)
    ensures NamesOk(NotificationStep(s, t, reply))
  {
    NotificationFrame(s, t, reply);
  }

  lemma StepKeepsNames(s: State, step: Step)
    requires NamesOk(s) && Enabled(s, step)
    ensures NamesOk(Take(s, step))
  {
    match step
    case RunHandler(t, answered, addr) => HandlerKeepsNames(s, t, answered, addr);
    case RunNotification(t, reply) => NotificationKeepsNames(s, t, reply);
    case _ =>
  }

  lemma {:induction false} RunKeepsNames(s: State, steps: seq<Step>)
    requires NamesOk(s) && IsRun(s, steps)
    ensures NamesOk(After(s, steps))
    decreases |steps|
  {
    if steps != [] {
      StepKeepsNames(s, steps[0]);
      RunKeepsNames(Take(s, steps[0]), steps[1..]);
    }
  }

  lemma ReturnedIsNotifiable(s: State, t: Tid)
    requires Inv(s) && NamesOk(s) && t in s.handlers && s.handlers[t].stage.Returned?
    ensures IsNotifiable(s.handlers[t].file)
  {
    ReturnedIsFirst(s, t);
    var j: nat :| FirstAfter(s.history.log, s.handlers[t].at.value, j);
  }

  /** Only what has a name is published, so only handlers of a file with such a name return a reply. */
  lemma OnlyNotifiableFilesReturn(steps: seq<Step>, t: Tid)
    requires IsRun(INITIAL, steps)
    ensures var s := After(INITIAL, steps);
            && (forall j :: 0 <= j < |s.history.log| && s.history.log[j].Published? ==>
                  IsNotifiable(s.history.log[j].key))
            && (t in s.handlers && s.handlers[t].stage.Returned? ==> IsNotifiable(s.handlers[t].file))
  {
    var s := After(INITIAL, steps);
    InitiallyInv();
    RunKeepsInv(INITIAL, steps);
    RunKeepsNames(INITIAL, steps);
    if t in s.handlers && s.handlers[t].stage.Returned? {
      ReturnedIsNotifiable(s, t);
    }
  }

  /** The call waits for a notification, or is bound to: an editor request has been answered. */
  predicate IsBound(h: Handler) {
    && !h.stage.Opening? && !h.stage.Returned? && !h.stage.ReturnedEmpty?
    && (h.stage.Replacing? ==> h.answered)
  }

  /**
   The call is bound to wait for a file that no notification names: null payloads and empty names
   are ignored, and no name from SourceKit holds a NUL.
   */
  predicate IsHopeless(h: Handler) {
    IsBound(h) && !IsNotifiable(h.file)
  }

  /** Only the push gives a handler its registration, at the end of the log. */
  lemma RegistersLater(s: State, t: Tid, answered: bool, addr: Address)
    requires HandlerCanRun(s, t, addr)
    ensures var s' := HandlerStep(s, t, answered, addr);
            t in s'.handlers
            && (s'.handlers[t].at == s.handlers[t].at || s'.handlers[t].at == Some(|s.history.log|))
  {
    if !s.handlers[t].stage.Pushing? {
      RegistrationStays(s, t, answered, addr);
    }
  }

  lemma RegistrationStays(s: State, t: Tid, answered: bool, addr: Address)
    requires HandlerCanRun(s, t, addr) && !s.handlers[t].stage.Pushing?
    ensures var s' := HandlerStep(s, t, answered, addr);
            t in s'.handlers && s'.handlers[t].at == s.handlers[t].at
  {
    match s.handlers[t].stage
    case Opening =>
    case Replacing =>
    case Allocating =>
    case Acquiring =>
    case Retrieving =>
    case Releasing =>
    case Blocked =>
    case _ =>
  }

  lemma KeysStay(s: State, t: Tid, answered: bool, addr: Address)
    requires HandlerCanRun(s, t, addr)
    ensures HandlerStep(s, t, answered, addr).handlers.Keys == s.handlers.Keys
  {
    match s.handlers[t].stage
    case Opening =>
    case Replacing =>
    case Allocating =>
    case Acquiring =>
    case Pushing =>
    case Retrieving =>
    case Releasing =>
    case Blocked =>
    case _ =>
  }

  lemma OwnFileStays(s: State, t: Tid, answered: bool, addr: Address)
    requires HandlerCanRun(s, t, addr)
    ensures var s' := HandlerStep(s, t, answered, addr);
            t in s'.handlers && s'.handlers[t].file == s.handlers[t].file
  {
    match s.handlers[t].stage
    case Opening =>
    case Replacing =>
    case Allocating =>
    case Acquiring =>
    case Pushing =>
    case Retrieving =>
    case Releasing =>
    case Blocked =>
    case _ =>
  }

  /** The call goes on, and unless it has returned it is bound to wait still. */
  lemma OwnStepOfBound(s: State, t: Tid, answered: bool, addr: Address)
    requires HandlerCanRun(s, t, addr) && IsBound(s.handlers[t])
    ensures var s' := HandlerStep(s, t, answered, addr);
            t in s'.handlers && (s'.handlers[t].stage.Returned? || IsBound(s'.handlers[t]))
  {
    if HandlerIsInside(s.handlers[t]) {
      StepUnderTheLock(s, t, answered, addr);
    } else if !s.handlers[t].stage.Blocked? {
      StepTowardsTheLock(s, t, answered, addr);
    }
  }

  lemma StepTowardsTheLock(s: State, t: Tid, answered: bool, addr: Address)
    requires HandlerCanRun(s, t, addr) && IsBound(s.handlers[t])
    requires !HandlerIsInside(s.handlers[t]) && !s.handlers[t].stage.Blocked?
    ensures var s' := HandlerStep(s, t, answered, addr);
            t in s'.handlers && IsBound(s'.handlers[t])
  {
    match s.handlers[t].stage
    case Replacing =>
    case Allocating =>
    case Acquiring =>
  }

  lemma StepUnderTheLock(s: State, t: Tid, answered: bool, addr: Address)
    requires HandlerCanRun(s, t, addr) && HandlerIsInside(s.handlers[t])
    ensures var s' := HandlerStep(s, t, answered, addr);
            t in s'.handlers && IsBound(s'.handlers[t])
  {
    match s.handlers[t].stage
    case Pushing =>
    case Retrieving =>
    case Releasing =>
  }

  /** No step ends a hopeless wait. */
  lemma StepKeepsHopeless(s: State, step: Step, t: Tid)
    requires Inv(s) && NamesOk(s) && Enabled(s, step) && t in s.handlers && IsHopeless(s.handlers[t])
    ensures t in Take(s, step).handlers && IsHopeless(Take(s, step).handlers[t])
  {
    match step
    case RunHandler(u, answered, addr) =>
      if u == t {
        OwnFileStays(s, t, answered, addr);
        OwnStepOfBound(s, t, answered, addr);
        StepKeepsInv(s, step);
        StepKeepsNames(s, step);
        if Take(s, step).handlers[t].stage.Returned? {
          ReturnedIsNotifiable(Take(s, step), t);
        }
      } else {
        OtherHandlersStay(s, u, answered, addr, t);
      }
    case RunNotification(u, reply) => NotificationFrame(s, u, reply);
    case _ =>
  }

  lemma {:induction false} HopelessNeverReturns(s: State, steps: seq<Step>, t: Tid)
    requires Inv(s) && NamesOk(s) && IsRun(s, steps) && t in s.handlers && IsHopeless(s.handlers[t])
    ensures t in After(s, steps).handlers && IsHopeless(After(s, steps).handlers[t])
    decreases |steps|
  {
    if steps != [] {
      StepKeepsHopeless(s, steps[0], t);
      StepKeepsInv(s, steps[0]);
      StepKeepsNames(s, steps[0]);
      HopelessNeverReturns(Take(s, steps[0]), steps[1..], t);
    }
  }
}
