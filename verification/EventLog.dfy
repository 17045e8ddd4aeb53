/**
 The simple specification that the diagnostics channel is held to.

 A log lists, in the order in which the channel's mutex admitted them, the registrations made by
 `FutureChannel::future` and the publications made by `FutureChannel::set`.  A registration is
 named by its position in the log.
 */
module EventLog {
  import opened Wrappers

  datatype Event =
    | Registered(key: string)
    | Published(key: string, value: string)

  type Log = seq<Event>

  predicate IsRegistration(log: Log, i: nat) {
    i < |log| && log[i].Registered?
  }

  predicate PublishesOn(e: Event, key: string) {
    e.Published? && e.key == key
  }

  /** Position `j` holds the first publication on the key registered at `i` that follows it. */
  ghost predicate FirstAfter(log: Log, i: nat, j: nat) {
    && IsRegistration(log, i)
    && i < j < |log|
    && PublishesOn(log[j], log[i].key)
    && forall k :: i < k < j ==> !PublishesOn(log[k], log[i].key)
  }

  // ----- The board: what every registration has been answered with so far.

  datatype Ticket = Ticket(key: string, outcome: Option<string>)

  type Board = map<nat, Ticket>

  /** What a publication does to one registration: only an open one on its key is answered. */
  function Answer(t: Ticket, key: string, value: string): Ticket {
    if t.key == key && t.outcome.None? then t.(outcome := Some(value)) else t
  }

  /** The board after an event that takes position `n`. */
  function Advance(board: Board, n: nat, e: Event): Board {
    match e
    case Registered(key) => board[n := Ticket(key, None)]
    case Published(key, value) => map i | i in board :: Answer(board[i], key, value)
  }

  function BoardOf(log: Log): Board {
    if log == [] then map[]
    else Advance(BoardOf(log[..|log| - 1]), |log| - 1, log[|log| - 1])
  }

  lemma BoardExtends(log: Log, e: Event)
    ensures BoardOf(log + [e]) == Advance(BoardOf(log), |log|, e)
  {
    assert (log + [e])[..|log|] == log;
  }

  /** The board lists exactly the registrations, each under its own key. */
  lemma {:induction false} BoardListsRegistrations(log: Log)
    ensures forall i: nat :: i in BoardOf(log) <==> IsRegistration(log, i)
    ensures forall i :: i in BoardOf(log) ==> i < |log| && log[i] == Registered(BoardOf(log)[i].key)
  {
    if log == [] {
    } else {
      BoardListsRegistrations(log[..|log| - 1]);
    }
  }

  lemma PositionIsNew(log: Log)
    ensures |log| !in BoardOf(log)
  {
    BoardListsRegistrations(log);
  }

  lemma FirstAfterPrefix(log: Log, n: nat, i: nat, j: nat)
    requires n <= |log| && FirstAfter(log[..n], i, j)
    ensures FirstAfter(log, i, j) && log[j] == log[..n][j]
  {
  }

  /** One event leaves a registration as it was, or is the publication that answers it. */
  lemma EventAnswers(board: Board, n: nat, e: Event, i: nat)
    requires i in board && i < n
    ensures i in Advance(board, n, e)
    ensures Advance(board, n, e)[i] ==
      if board[i].outcome.None? && PublishesOn(e, board[i].key) then board[i].(outcome := Some(e.value)) else board[i]
  {
  }

  /** `j` is the publication that answered the registration at `i`, if there is one at all. */
  ghost predicate IsAnswer(log: Log, i: nat, j: nat) {
    && IsRegistration(log, i) && i in BoardOf(log)
    && (BoardOf(log)[i].outcome.None? ==> forall k :: i < k < |log| ==> !PublishesOn(log[k], log[i].key))
    && (BoardOf(log)[i].outcome.Some? ==> FirstAfter(log, i, j) && BoardOf(log)[i].outcome == Some(log[j].value))
  }

  lemma AnswerStays(log: Log, e: Event, i: nat, j: nat)
    requires IsAnswer(log, i, j) && BoardOf(log)[i].outcome.Some?
    ensures IsAnswer(log + [e], i, j)
  {
    BoardExtends(log, e);
    EventAnswers(BoardOf(log), |log|, e, i);
    assert (log + [e])[..|log|] == log;
    FirstAfterPrefix(log + [e], |log|, i, j);
  }

  lemma AnswerComes(log: Log, e: Event, i: nat, j: nat)
    requires IsAnswer(log, i, j) && BoardOf(log)[i].outcome.None?
    ensures IsAnswer(log + [e], i, |log|)
  {
    BoardListsRegistrations(log);
    BoardExtends(log, e);
    EventAnswers(BoardOf(log), |log|, e, i);
    assert forall k :: 0 <= k < |log| ==> (log + [e])[k] == log[k];
  }

  /** Finds the publication that answered a registration, or shows that there is none. */
  lemma {:induction false} FindAnswer(log: Log, i: nat) returns (j: nat)
    requires IsRegistration(log, i)
    ensures IsAnswer(log, i, j)
  {
    j := |log| - 1;
    if i == j {
      BoardListsRegistrations(log);
    } else {
      var before := log[..j];
      assert log == before + [log[j]];
      var earlier := FindAnswer(before, i);
      if BoardOf(before)[i].outcome.Some? {
        AnswerStays(before, log[j], i, earlier);
        j := earlier;
      } else {
        AnswerComes(before, log[j], i, earlier);
      }
    }
  }

  /**
   A registration is answered with `v` if and only if the first publication on its key after it
   carries `v`; it is open if and only if no publication on its key follows it.
   */
  lemma AnswerIsFirstPublication(log: Log, i: nat)
    requires IsRegistration(log, i)
    ensures i in BoardOf(log)
    ensures BoardOf(log)[i].outcome.None? <==> forall j :: i < j < |log| ==> !PublishesOn(log[j], log[i].key)
    ensures forall v :: BoardOf(log)[i].outcome == Some(v) <==>
                        exists j: nat :: FirstAfter(log, i, j) && log[j].value == v
  {
    var j := FindAnswer(log, i);
    assert forall k: nat :: FirstAfter(log, i, k) && FirstAfter(log, i, j) ==> k == j;
  }

  /** A registration, and an answer once given, are never changed by anything that happens later. */
  lemma {:induction false} AnswersAreFinal(log: Log, more: Log, i: nat)
    requires i in BoardOf(log)
    ensures i in BoardOf(log + more) && BoardOf(log + more)[i].key == BoardOf(log)[i].key
    ensures BoardOf(log)[i].outcome.Some? ==> BoardOf(log + more)[i] == BoardOf(log)[i]
    decreases |more|
  {
    if more == [] {
      assert log + more == log;
    } else {
      var n := |more| - 1;
      AnswersAreFinal(log, more[..n], i);
      BoardListsRegistrations(log);
      assert log + more == (log + more[..n]) + [more[n]];
      BoardExtends(log + more[..n], more[n]);
    }
  }

  // ----- The queues: which registrations are still waiting, by key.

  type Queues = map<string, seq<nat>>

  /** `queues[key]`, which creates an empty vector for a key that is not there. */
  function Waiting<T>(queues: map<string, seq<T>>, key: string): seq<T> {
    if key in queues then queues[key] else []
  }

  function Requeue(queues: Queues, n: nat, e: Event): Queues {
    match e
    case Registered(key) => queues[key := Waiting(queues, key) + [n]]
    case Published(key, _) => queues - {key}
  }

  function QueuesOf(log: Log): Queues {
    if log == [] then map[]
    else Requeue(QueuesOf(log[..|log| - 1]), |log| - 1, log[|log| - 1])
  }

  lemma QueuesExtend(log: Log, e: Event)
    ensures QueuesOf(log + [e]) == Requeue(QueuesOf(log), |log|, e)
  {
    assert (log + [e])[..|log|] == log;
  }

  /** A queue lists the unanswered registrations of its key, each once and oldest first. */
  lemma {:induction false} QueueIsUnanswered(log: Log, key: string)
    ensures forall i :: i in Waiting(QueuesOf(log), key) <==>
              i in BoardOf(log) && BoardOf(log)[i] == Ticket(key, None)
    ensures var queue := Waiting(QueuesOf(log), key);
            forall a, b :: 0 <= a < b < |queue| ==> queue[a] < queue[b]
    ensures key in QueuesOf(log) ==> QueuesOf(log)[key] != []
  {
    if log == [] {
    } else {
      var before := log[..|log| - 1];
      QueueIsUnanswered(before, key);
      BoardListsRegistrations(before);
      var queue := Waiting(QueuesOf(before), key);
      assert forall a :: 0 <= a < |queue| ==> queue[a] in queue;
    }
  }

  /** Each vector is the queue of its key, every registration turned into the promise issued for it. */
  ghost predicate Stores<P>(promises: map<string, seq<P>>, queues: Queues, issued: map<nat, P>) {
    && promises.Keys == queues.Keys
    && forall key :: key in promises ==>
         && |promises[key]| == |queues[key]|
         && forall n :: 0 <= n < |queues[key]| ==>
              queues[key][n] in issued && promises[key][n] == issued[queues[key][n]]
  }

  lemma StoresRegistration<P>(promises: map<string, seq<P>>, queues: Queues, issued: map<nat, P>,
                              key: string, n: nat, p: P)
    requires Stores(promises, queues, issued) && n !in issued
    ensures Stores(promises[key := Waiting(promises, key) + [p]], Requeue(queues, n, Registered(key)), issued[n := p])
  {
  }

  lemma StoresPublication<P>(promises: map<string, seq<P>>, queues: Queues, issued: map<nat, P>,
                             key: string, n: nat, value: string)
    requires Stores(promises, queues, issued)
    ensures Stores(promises - {key}, Requeue(queues, n, Published(key, value)), issued)
  {
  }
}
