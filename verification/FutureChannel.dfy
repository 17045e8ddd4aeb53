/**
 `FutureChannel` with its real promise objects: a map from a key to the vector of promises waiting
 on it, whose entries are fulfilled, deleted and erased a batch at a time.  Both operations run
 under the channel's mutex, so each is one atomic step here; `Rendezvous` splits them up.

 The class is proved against `EventLog`: the map holds exactly the unanswered registrations, and
 the state shared with each future holds exactly that registration's answer.
 */
module FutureChannel {
  import opened Wrappers
  import opened EventLog

  /**
   A heap-allocated `std::promise` together with the state it shares with its future.  Deleting
   the promise clears `alive`; the shared `value` outlives it and is all that the future reads.
   */
  class Promise {
    var value: Option<string>
    var retrieved: bool
    ghost var alive: bool

    constructor ()
      ensures alive && !retrieved && value == None
    {
      value, retrieved, alive := None, false, true;
    }

    // A second value would throw promise_already_satisfied; any use after deletion is undefined.
    method SetValue(value: string)
      requires alive && this.value.None?
      modifies this`value
      ensures this.value == Some(value)
    {
      this.value := Some(value);
    }

    // A second retrieval would throw future_already_retrieved.
    method GetFuture() returns (future: Promise)
      requires alive && !retrieved
      modifies this`retrieved
      ensures retrieved && future == this
    {
      retrieved := true;
      future := this;
    }

    method Delete()
      requires alive
      modifies this`alive
      ensures !alive
    {
      alive := false;
    }
  }

  /** The promise is alive and empty while its outcome is open, and fulfilled and freed afterwards. */
  ghost predicate Holds(p: Promise, outcome: Option<string>)
    reads p`value, p`alive
  {
    p.value == outcome && (p.alive <==> outcome.None?)
  }

  /** The loop of `set`: each promise of the vector is fulfilled, then deleted. */
  method FulfilAll(entries: seq<Promise>, value: string)
    requires forall m, n :: 0 <= m < n < |entries| ==> entries[m] != entries[n]
    requires forall m :: 0 <= m < |entries| ==> Holds(entries[m], None)
    modifies entries
    ensures forall m :: 0 <= m < |entries| ==> Holds(entries[m], Some(value))
  {
    for n := 0 to |entries|
      // a fulfilled and freed prefix, a live and empty suffix
      invariant forall m :: 0 <= m < n ==> Holds(entries[m], Some(value))
      invariant forall m :: n <= m < |entries| ==> Holds(entries[m], None)
    {
      entries[n].SetValue(value);
      entries[n].Delete();
    }
  }

  /** One promise was allocated per registration; it is alive exactly while that is unanswered. */
  ghost predicate AllHold(issued: map<nat, Promise>, board: Board)
    reads issued.Values`value, issued.Values`alive
  {
    && issued.Keys == board.Keys
    && (forall i :: i in issued ==> Holds(issued[i], board[i].outcome))
    && (forall i, j :: i in issued && j in issued && i != j ==> issued[i] != issued[j])
  }

  lemma HoldRegistration(issued: map<nat, Promise>, board: Board, key: string, n: nat, p: Promise)
    requires AllHold(issued, board) && n !in issued && p !in issued.Values && Holds(p, None)
    ensures AllHold(issued[n := p], Advance(board, n, Registered(key)))
  {
  }

  /** The promises waiting on a key are distinct, alive and empty, and they are those of its open registrations. */
  lemma EntriesWait(promises: map<string, seq<Promise>>, issued: map<nat, Promise>, log: Log, key: string)
    requires AllHold(issued, BoardOf(log)) && Stores(promises, QueuesOf(log), issued)
    ensures var entries := Waiting(promises, key);
            && (forall m, n :: 0 <= m < n < |entries| ==> entries[m] != entries[n])
            && (forall m :: 0 <= m < |entries| ==> entries[m] in issued.Values && Holds(entries[m], None))
    ensures forall i :: i in issued ==> (issued[i] in Waiting(promises, key) <==> BoardOf(log)[i] == Ticket(key, None))
  {
    QueueIsUnanswered(log, key);
    var queue, entries := Waiting(QueuesOf(log), key), Waiting(promises, key);
    assert forall m :: 0 <= m < |queue| ==> queue[m] in queue;
    forall i | i in issued
      ensures issued[i] in entries <==> BoardOf(log)[i] == Ticket(key, None)
    {
      if issued[i] in entries {
        var m :| 0 <= m < |entries| && entries[m] == issued[i];
        assert queue[m] == i;
      }
      if BoardOf(log)[i] == Ticket(key, None) {
        var m :| 0 <= m < |queue| && queue[m] == i;
        assert entries[m] == issued[i];
      }
    }
  }

  lemma HoldPublication(issued: map<nat, Promise>, board: Board, n: nat, key: string, value: string,
                        entries: seq<Promise>)
    requires issued.Keys == board.Keys
    requires forall i :: i in issued ==> (issued[i] in entries <==> board[i] == Ticket(key, None))
    requires forall i :: i in issued ==>
             Holds(issued[i], if issued[i] in entries then Some(value) else board[i].outcome)
    requires forall i, j :: i in issued && j in issued && i != j ==> issued[i] != issued[j]
    ensures AllHold(issued, Advance(board, n, Published(key, value)))
  {
  }

  class Channel {
    var promises: map<string, seq<Promise>>
    ghost var log: Log
    ghost var issued: map<nat, Promise>  // every promise ever allocated, by its registration
    ghost var Repr: set<object>

    ghost predicate Valid()
      reads this, Repr
    {
      && this in Repr && issued.Values <= Repr
      && AllHold(issued, BoardOf(log))
      && Stores(promises, QueuesOf(log), issued)
    }

    constructor ()
      ensures Valid() && log == [] && issued == map[] && fresh(Repr)
    {
      promises, log, issued := map[], [], map[];
      Repr := {this};
    }

    /** Fulfils and deletes every promise waiting on `key`, then forgets the key. */
    method Set(key: string, value: string)
      requires Valid()
      modifies Repr
      ensures Valid() && Repr == old(Repr)
      ensures log == old(log) + [Published(key, value)] && issued == old(issued)
      ensures promises == old(promises) - {key}
    {
      ghost var board, entries := BoardOf(log), Waiting(promises, key);
      EntriesWait(promises, issued, log, key);
      BoardExtends(log, Published(key, value));
      QueuesExtend(log, Published(key, value));
      StoresPublication(promises, QueuesOf(log), issued, key, |log|, value);
      assert key !in promises ==> promises - {key} == promises;
      if key in promises {
        FulfilAll(promises[key], value);
        promises := promises - {key};
      }
      log := log + [Published(key, value)];
      HoldPublication(issued, board, |log| - 1, key, value, entries);
    }

    /** Registers a fresh promise under `key` and returns its future. */
    method Future(key: string) returns (future: Promise)
      requires Valid()
      modifies Repr
      ensures Valid() && Repr == old(Repr) + {future} && fresh(future)
      ensures log == old(log) + [Registered(key)]
      ensures issued == old(issued)[|old(log)| := future]
      ensures promises == old(promises)[key := Waiting(old(promises), key) + [future]]
    {
      var promise := new Promise();
      PushBack(key, promise);
      future := promise.GetFuture();
    }

    method PushBack(key: string, promise: Promise)
      requires Valid() && promise !in Repr && Holds(promise, None)
      modifies this
      ensures Valid() && Repr == old(Repr) + {promise}
      ensures log == old(log) + [Registered(key)]
      ensures issued == old(issued)[|old(log)| := promise]
      ensures promises == old(promises)[key := Waiting(old(promises), key) + [promise]]
    {
      ghost var board, queues, n := BoardOf(log), QueuesOf(log), |log|;
      PositionIsNew(log);
      BoardExtends(log, Registered(key));
      QueuesExtend(log, Registered(key));
      StoresRegistration(promises, queues, issued, key, n, promise);
      HoldRegistration(issued, board, key, n, promise);
      promises := promises[key := Waiting(promises, key) + [promise]];
      issued, Repr, log := issued[n := promise], Repr + {promise}, log + [Registered(key)];
    }
  }

  /**
   After any calls of `Set` and `Future`: the state shared with a future holds `v` if and only if the
   first publication on its key after its registration carries `v`; its promise is freed if and only
   if there is one, and is stored, under its own key alone, if and only if there is none.
   */
  lemma FutureHoldsFirstPublication(channel: Channel, i: nat)
    requires channel.Valid() && i in channel.issued
    ensures IsRegistration(channel.log, i)
    ensures var promise, log := channel.issued[i], channel.log;
            && (forall v :: promise.value == Some(v) <==> exists j: nat :: FirstAfter(log, i, j) && log[j].value == v)
            && (promise.alive <==> forall j :: i < j < |log| ==> !PublishesOn(log[j], log[i].key))
            && (forall key :: promise in Waiting(channel.promises, key) <==> promise.alive && key == log[i].key)
  {
    var log := channel.log;
    BoardListsRegistrations(log);
    AnswerIsFirstPublication(log, i);
    forall key
      ensures channel.issued[i] in Waiting(channel.promises, key) <==> BoardOf(log)[i] == Ticket(key, None)
    {
      EntriesWait(channel.promises, channel.issued, log, key);
    }
  }
}
