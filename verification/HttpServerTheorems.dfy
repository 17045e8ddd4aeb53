/** What holds of every run of the server, whatever the interleaving of its threads. */
module HttpServerTheorems {
  import opened Wrappers
  import opened EventLog
  import opened HttpSession
  import opened HttpServer
  import opened HttpServerProof
  import A = AcceptLoop
  import AT = AcceptLoopTheorems

  lemma {:induction false} RunKeepsInv(s: Server, steps: seq<Step>)
    requires Inv(s) && IsRun(s, steps)
    ensures Inv(After(s, steps))
    decreases |steps|
  {
    if steps != [] {
      StepKeepsInv(s, steps[0]);
      RunKeepsInv(Take(s, steps[0]), steps[1..]);
    }
  }

  lemma ReachableInv(steps: seq<Step>)
    requires IsRun(INITIAL, steps)
    ensures Inv(After(INITIAL, steps))
  {
    InitiallyInv();
    RunKeepsInv(INITIAL, steps);
  }

  /**
   A session never has two operations outstanding, so its reads, handler blocks and writes never
   overlap although only its reads go through the strand; and it has one until a read has failed.
   */
  lemma OneOperationPerSession(steps: seq<Step>)
    requires IsRun(INITIAL, steps)
    ensures var s := After(INITIAL, steps);
            && (forall a, b :: a in s.ops && b in s.ops && s.ops[a].sid == s.ops[b].sid ==> a == b)
            && (forall id :: id in s.ops ==> s.ops[id].sid in s.sessions)
            && (forall sid :: sid in s.sessions ==>
                  (s.sessions[sid].ended <==> forall id :: id in s.ops ==> s.ops[id].sid != sid))
  {
    ReachableInv(steps);
    var s := After(INITIAL, steps);
    forall sid | sid in s.sessions
      ensures s.sessions[sid].ended <==> forall id :: id in s.ops ==> s.ops[id].sid != sid
    {
      if !s.sessions[sid].ended {
        var id := s.sessions[sid].current.value;
        assert id in s.ops && s.ops[id].sid == sid;
      }
    }
  }

  /** What the server runs for session `sid` is what the session's own method has started. */
  predicate Runs(op: Op, sid: Sid, started: Operation) {
    op.sid == sid
    && match started
       case ReadOperation => op.Reading?
       case WriteOperation(response) => op == Writing(sid, response)
       case Block(endpoint, loaded) => op == Job(sid, Work(endpoint, 0, [loaded], "", None, None))
  }

  /**
   `s'` is `s` with the operations `over` gone and those in `started` begun for session `sid`; no
   other session, and nothing outside the sessions and the accept loop, has changed.
   */
  ghost predicate GoesOnWith(s: Server, s': Server, over: set<OpId>, sid: Sid, started: seq<Operation>) {
    && s'.next == s.next + |started|
    && (forall k :: k in s'.ops <==> (k in s.ops && k !in over) || s.next <= k < s'.next)
    && (forall k :: k in s.ops && k !in over ==> s'.ops[k] == s.ops[k])
    && (forall n :: 0 <= n < |started| ==> s.next + n in s'.ops && Runs(s'.ops[s.next + n], sid, started[n]))
    && (forall x :: x in s.sessions && x != sid ==> x in s'.sessions && s'.sessions[x] == s.sessions[x])
    && s'.sessions.Keys == s.sessions.Keys + {sid}
    && s'.completer == s.completer && s'.completions == s.completions
    && s'.exitArmed == s.exitArmed && s'.exited == s.exited && s'.aborted == s.aborted
  }

  /** The session has kept its request, and what it has received; `sent` is what it has scheduled since. */
  predicate Keeps(session: SessionState, session': SessionState, sent: seq<Sent>) {
    && session'.request == session.request && session'.received == session.received
    && session'.since == session.since && session'.replies == session.replies + sent
  }

  lemma ReplacedGoesOn(s: Server, id: OpId, session: SessionState, op: Op, started: Operation)
    requires id in s.ops && s.ops[id].sid in s.sessions && Runs(op, s.ops[id].sid, started)
    requires forall k :: k in s.ops ==> k < s.next
    ensures GoesOnWith(s, s.(sessions := s.sessions[op.sid := session], ops := (s.ops - {id})[s.next := op],
            next := s.next + 1),
                       {id}, op.sid, [started])
  {
  }

  lemma EndedGoesOn(s: Server, id: OpId, session: SessionState)
    requires id in s.ops && s.ops[id].sid in s.sessions && forall k :: k in s.ops ==> k < s.next
    ensures GoesOnWith(s, s.(sessions := s.sessions[s.ops[id].sid := session], ops := s.ops - {id}), {id},
            s.ops[id].sid, [])
  {
  }

  /** What the session looks like when its read's callback is over. */
  function Called(session: SessionState, outcome: ReadOutcome, next: OpId): SessionState {
    match outcome
    case Ends => session.(current := None, ended := true)
    case Dispatches(_, _) => session.(current := Some(next))
    case Replies(response) => Replied(session, Sent(response, None, None, session.since), next)
  }

  /** The read's callback ends the read and starts what `Session.OnRead` starts, for that session alone. */
  lemma OnReadRunsTheSession(before: seq<Step>, id: OpId)
    requires IsRun(INITIAL, before) && Enabled(After(INITIAL, before), OnRead(id))
    ensures var s := After(INITIAL, before);
            var sid, s' := s.ops[id].sid, Take(s, OnRead(id));
            var outcome := AfterRead(s.ops[id].failed, s.sessions[sid].request);
            && GoesOnWith(s, s', {id}, sid, Started(outcome)) && s'.acceptor == s.acceptor
            && Keeps(s.sessions[sid], s'.sessions[sid],
                     if outcome.Replies? then [Sent(outcome.response, None, None, s.sessions[sid].since)] else [])
            && s'.sessions[sid].ended == outcome.Ends?
  {
    ReachableInv(before);
    var s := After(INITIAL, before);
    OnReadIs(s, id);
    var sid := s.ops[id].sid;
    var outcome := AfterRead(s.ops[id].failed, s.sessions[sid].request);
    var session := Called(s.sessions[sid], outcome, s.next);
    match outcome
    case Ends => EndedGoesOn(s, id, session);
    case Dispatches(endpoint, loaded) =>
      ReplacedGoesOn(s, id, session, Job(sid, Work(endpoint, 0, [loaded], "", None, None)), Block(endpoint, loaded));
    case Replies(response) => ReplacedGoesOn(s, id, session, Writing(sid, response), WriteOperation(response));
  }

  lemma OnReadIs(s: Server, id: OpId)
    requires Enabled(s, OnRead(id)) && s.sessions[s.ops[id].sid].current == Some(id)
    ensures var sid, s' := s.ops[id].sid, Take(s, OnRead(id));
            var outcome := AfterRead(s.ops[id].failed, s.sessions[sid].request);
            var session := Called(s.sessions[sid], outcome, s.next);
            match outcome
            case Ends => s' == s.(sessions := s.sessions[sid := session], ops := s.ops - {id})
            case Dispatches(endpoint, loaded) =>
              s' == s.(sessions := s.sessions[sid := session],
                       ops := (s.ops - {id})[s.next := Job(sid, Work(endpoint, 0, [loaded], "", None, None))],
                           next := s.next + 1)
            case Replies(response) =>
              s' == s.(sessions := s.sessions[sid := session],
                       ops := (s.ops - {id})[s.next := Writing(sid, response)], next := s.next + 1)
  {
    var sid := s.ops[id].sid;
    match AfterRead(s.ops[id].failed, s.sessions[sid].request)
    case Ends => assert Take(s, OnRead(id)).sessions
        == s.sessions[sid := s.sessions[sid].(current := None, ended := true)];
    case Dispatches(endpoint, loaded) => EndThenStart(s, id, Job(sid, Work(endpoint, 0, [loaded], "", None, None)));
    case Replies(response) => EndThenWrite(s, id, Sent(response, None, None, s.sessions[sid].since));
  }

  /** The write's callback ends the write and starts what `Session.OnWrite` starts: a read. */
  lemma OnWriteRunsTheSession(before: seq<Step>, id: OpId)
    requires IsRun(INITIAL, before) && Enabled(After(INITIAL, before), OnWrite(id))
    ensures var s := After(INITIAL, before);
            var sid, s' := s.ops[id].sid, Take(s, OnWrite(id));
            && GoesOnWith(s, s', {id}, sid, [ReadOperation]) && s'.acceptor == s.acceptor
            && Keeps(s.sessions[sid], s'.sessions[sid], []) && !s'.sessions[sid].ended
  {
    ReachableInv(before);
    var s := After(INITIAL, before);
    var sid := s.ops[id].sid;
    EndThenStart(s, id, Reading(sid));
    ReplacedGoesOn(s, id, s.sessions[sid].(current := Some(s.next)), Reading(sid), ReadOperation);
  }

  /** A call of `onAccept` that starts a session starts what `Session.Start` starts, on a connection that had none. */
  lemma StartRunsTheSession(before: seq<Step>, k: A.AcceptId)
    requires IsRun(INITIAL, before) && Enabled(After(INITIAL, before), InAcceptor(A.StartSession(k)))
    ensures var s := After(INITIAL, before);
            var s', sock := Take(s, InAcceptor(A.StartSession(k))), s.acceptor.accepts[k].stage.sock;
            && sock.Some? && sock.value !in s.sessions
            && GoesOnWith(s, s', {}, sock.value, [ReadOperation])
            && s'.sessions[sock.value].received == [] && s'.sessions[sock.value].replies == []
  {
    ReachableInv(before);
    var s := After(INITIAL, before);
    StartIsFresh(s, A.StartSession(k));
    StartGoesOn(s, s.acceptor.accepts[k].stage.sock.value, A.Take(s.acceptor, A.StartSession(k)));
  }

  lemma StartGoesOn(s: Server, sid: Sid, acceptor: A.Acceptor)
    requires sid !in s.sessions && forall k :: k in s.ops ==> k < s.next
    ensures var s' := StartSession(s.(acceptor := acceptor), sid);
            GoesOnWith(s, s', {}, sid, [ReadOperation]) && s'.sessions[sid] == NEW_SESSION.(current := Some(s.next))
  {
    StartSessionIs(s.(acceptor := acceptor), sid);
  }

  /** The k-th response a session schedules answers the k-th request it received, and at most one is owed. */
  lemma ResponsesAreInOrder(steps: seq<Step>, sid: Sid)
    requires IsRun(INITIAL, steps)
    ensures var s := After(INITIAL, steps);
            sid in s.sessions ==>
              var session := s.sessions[sid];
              && |session.replies| <= |session.received| <= |session.replies| + 1
              && (forall k :: 0 <= k < |session.replies| ==>
                    Answers(session.received[k], session.replies[k], WorldOf(s)))
  {
    ReachableInv(steps);
    var s := After(INITIAL, steps);
    if sid in s.sessions && !s.sessions[sid].ended {
      var id := s.sessions[sid].current.value;
      assert PhaseOk(s.ops[id], s.sessions[sid], WorldOf(s));
    }
  }

  /** A response is owed exactly while a successful read waits for its callback or a handler block is at work. */
  lemma ResponseIsOwedIffHandled(steps: seq<Step>, id: OpId)
    requires IsRun(INITIAL, steps)
    ensures var s := After(INITIAL, steps);
            id in s.ops ==>
              var op := s.ops[id];
              && op.sid in s.sessions
              && (|s.sessions[op.sid].received| == |s.sessions[op.sid].replies| + 1
                  <==> op.Job? || op.Diagnosing? || (op.ReadDone? && !op.failed))
  {
    ReachableInv(steps);
  }

  /**
   Every call of `session->request()` made for a handler block, however late, has returned the
   request whose read dispatched the block, and the next one will too.
   */
  lemma RequestIsStable(steps: seq<Step>, id: OpId)
    requires IsRun(INITIAL, steps)
    ensures var s := After(INITIAL, steps);
            id in s.ops && (s.ops[id].Job? || s.ops[id].Diagnosing?) ==>
              var op := s.ops[id];
              && op.sid in s.sessions
              && var session := s.sessions[op.sid];
              && session.received != []
              && var dispatched := session.received[|session.received| - 1];
              && session.request == dispatched
              && (forall k :: 0 <= k < |op.job.loaded| ==> op.job.loaded[k] == dispatched)
              && dispatched.url in ENDPOINTS && ENDPOINTS[dispatched.url] == op.job.endpoint
  {
    ReachableInv(steps);
  }

  /** The diagnostics rendezvous stays free of undefined behaviour inside the server. */
  lemma CompleterIsSafe(steps: seq<Step>)
    requires IsRun(INITIAL, steps)
    ensures !After(INITIAL, steps).completer.fault
  {
    ReachableInv(steps);
  }

  // ----- The accept loop.

  /** What a run of the server does to the accept loop is a run of the accept loop. */
  lemma {:induction false} AcceptorRuns(s: Server, steps: seq<Step>) returns (accepting: seq<A.Step>)
    requires IsRun(s, steps)
    ensures A.IsRun(s.acceptor, accepting) && A.After(s.acceptor, accepting) == After(s, steps).acceptor
    decreases |steps|
  {
    if steps == [] {
      accepting := [];
    } else {
      var rest := AcceptorRuns(Take(s, steps[0]), steps[1..]);
      if steps[0].InAcceptor? {
        AT.StepAndRun(s.acceptor, steps[0].accepting, rest);
        accepting := [steps[0].accepting] + rest;
      } else {
        SessionsStay(s, steps[0]);
        accepting := rest;
      }
    }
  }

  /** The server's view of a run of the accept loop. */
  function AcceptingOnly(accepting: seq<A.Step>): seq<Step> {
    if accepting == [] then [] else [InAcceptor(accepting[0])] + AcceptingOnly(accepting[1..])
  }

  lemma {:induction false} AcceptingRuns(s: Server, accepting: seq<A.Step>)
    requires IsUp(s) && A.IsRun(s.acceptor, accepting)
    ensures IsRun(s, AcceptingOnly(accepting)) && IsUp(After(s, AcceptingOnly(accepting)))
    ensures After(s, AcceptingOnly(accepting)).acceptor == A.After(s.acceptor, accepting)
    decreases |accepting|
  {
    if accepting != [] {
      AcceptingRuns(AcceptStep(s, accepting[0]), accepting[1..]);
      assert AcceptingOnly(accepting)[1..] == AcceptingOnly(accepting[1..]);
    }
  }

  /**
   In every run at most one accept is outstanding or has a call that is yet to arm the next; every
   session has a connection of its own; and the connections whose call found the acceptor open and
   no error number as many as the sessions and the calls that are still to start one.
   */
  lemma AcceptsAreCounted(steps: seq<Step>)
    requires IsRun(INITIAL, steps)
    ensures var s := After(INITIAL, steps);
            && AT.OneUnarmed(s.acceptor.accepts) && !s.acceptor.fault
            && s.sessions.Keys == s.acceptor.started <= s.acceptor.admitted
            && |s.acceptor.admitted| == |s.sessions| + |AT.Pending(s.acceptor.accepts)|
  {
    ReachableInv(steps);
    var s := After(INITIAL, steps);
    assert |s.sessions| == |s.sessions.Keys|;
  }

  /** The accept loop changes no session that is there and nothing that it is doing. */
  lemma AcceptLeavesSessionsAlone(before: seq<Step>, accepting: A.Step)
    requires IsRun(INITIAL, before) && Enabled(After(INITIAL, before), InAcceptor(accepting))
    ensures var s := After(INITIAL, before);
            var s' := Take(s, InAcceptor(accepting));
            && (forall x :: x in s.sessions ==> x in s'.sessions && s'.sessions[x] == s.sessions[x])
            && (forall id :: id in s.ops ==> id in s'.ops && s'.ops[id] == s.ops[id])
            && s'.completer == s.completer && s'.completions == s.completions
  {
    ReachableInv(before);
    var s := After(INITIAL, before);
    if accepting.StartSession? {
      StartIsFresh(s, accepting);
      StartGoesOn(s, s.acceptor.accepts[accepting.k].stage.sock.value, A.Take(s.acceptor, accepting));
    }
  }

  ghost predicate ArmsAgain(s: Server, steps: seq<Step>) {
    IsRun(s, steps) && After(s, steps).acceptor.next > s.acceptor.next
  }

  /** At any point of any run while the server is up, another accept can be armed if and only if the loop goes on. */
  lemma AnotherAcceptIffLoopGoesOn(before: seq<Step>)
    requires IsRun(INITIAL, before) && IsUp(After(INITIAL, before))
    ensures (exists steps :: ArmsAgain(After(INITIAL, before), steps))
            <==> AT.LoopGoesOn(After(INITIAL, before).acceptor)
  {
    var s := After(INITIAL, before);
    var past := AcceptorRuns(INITIAL, before);
    AT.AnotherAcceptIffLoopGoesOn(past);
    if AT.LoopGoesOn(s.acceptor) {
      var accepting :| AT.ArmsAgain(s.acceptor, accepting);
      AcceptingRuns(s, accepting);
      assert ArmsAgain(s, AcceptingOnly(accepting));
    }
    if steps :| ArmsAgain(s, steps) {
      var accepting := AcceptorRuns(s, steps);
      assert AT.ArmsAgain(s.acceptor, accepting);
    }
  }

  ghost predicate AddsSession(s: Server, steps: seq<Step>) {
    IsRun(s, steps) && After(s, steps).sessions.Keys != s.sessions.Keys
  }

  /**
   Once the acceptor is closed, at any point of any run while the server is up: a session can still be added if
   and only if some call of `onAccept` is past its check; no run adds any but one for each of those.
   */
  lemma SessionAfterCloseIffAdmitted(before: seq<Step>)
    requires IsRun(INITIAL, before) && IsUp(After(INITIAL, before)) && !After(INITIAL, before).acceptor.open
    ensures var s := After(INITIAL, before);
            && ((exists steps :: AddsSession(s, steps)) <==>
                  exists k :: k in s.acceptor.accepts && AT.IsAdmitted(s.acceptor.accepts[k]))
            && (forall steps :: IsRun(s, steps) ==>
                  s.sessions.Keys <= After(s, steps).sessions.Keys <= s.acceptor.admitted)
            && (exists steps :: IsRun(s, steps) && After(s, steps).sessions.Keys == s.acceptor.admitted)
            && |s.acceptor.admitted| == |s.sessions| + |AT.Pending(s.acceptor.accepts)|
  {
    var s := After(INITIAL, before);
    ReachableInv(before);
    AcceptsAreCounted(before);
    AT.SessionAfterCloseIffAdmitted(s.acceptor);
    forall steps | IsRun(s, steps)
      ensures After(s, steps).sessions.Keys == After(s, steps).acceptor.started
      ensures s.sessions.Keys <= After(s, steps).sessions.Keys <= s.acceptor.admitted
      ensures exists accepting ::
                A.IsRun(s.acceptor, accepting) && A.After(s.acceptor, accepting) == After(s, steps).acceptor
    {
      RunKeepsInv(s, steps);
      var accepting := AcceptorRuns(s, steps);
    }
    var all :| A.IsRun(s.acceptor, all) && A.After(s.acceptor, all).started == s.acceptor.admitted;
    AcceptingRuns(s, all);
    assert IsRun(s, AcceptingOnly(all));
    if accepting :| AT.AddsSession(s.acceptor, accepting) {
      AcceptingRuns(s, accepting);
      assert AddsSession(s, AcceptingOnly(accepting));
    }
    if steps :| AddsSession(s, steps) {
      var accepting := AcceptorRuns(s, steps);
      assert AT.AddsSession(s.acceptor, accepting);
    }
  }

  /** The run of `CloseCanBeOvertaken`, in the server: a session is added after the close. */
  lemma SessionCanFollowTheClose()
    ensures IsRun(INITIAL, AcceptingOnly(AT.RACE[..3])) && IsRun(INITIAL, AcceptingOnly(AT.RACE))
    ensures var s := After(INITIAL, AcceptingOnly(AT.RACE[..3])); !s.acceptor.open && s.sessions == map[]
    ensures After(INITIAL, AcceptingOnly(AT.RACE)).sessions.Keys == {7}
  {
    AT.CloseCanBeOvertaken(true, 0);
    AcceptingRuns(INITIAL, AT.RACE[..3]);
    AcceptingRuns(INITIAL, AT.RACE);
    ReachableInv(AcceptingOnly(AT.RACE[..3]));
    ReachableInv(AcceptingOnly(AT.RACE));
  }
}
