/** Which requests can still be answered, and which are stuck for good. */
module HttpServerProgress {
  import opened Wrappers
  import opened EventLog
  import opened HttpSession
  import opened HttpServer
  import opened HttpServerProof
  import opened HttpServerTheorems
  import R = Rendezvous
  import RP = RendezvousProof
  import A = AcceptLoop
  import AT = AcceptLoopTheorems
  import RG = RendezvousProgress
  import RT = RendezvousTheorems

  lemma {:induction false} RunsCompose(s: Server, first: seq<Step>, second: seq<Step>)
    requires IsRun(s, first) && IsRun(After(s, first), second)
    ensures IsRun(s, first + second)
    ensures After(s, first + second) == After(After(s, first), second)
    decreases |first|
  {
    if first == [] {
      assert first + second == second;
    } else {
      assert (first + second)[1..] == first[1..] + second;
      RunsCompose(Take(s, first[0]), first[1..], second);
    }
  }

  lemma StepAndRun(s: Server, step: Step, rest: seq<Step>)
    requires Enabled(s, step) && IsRun(Take(s, step), rest)
    ensures IsRun(s, [step] + rest) && After(s, [step] + rest) == After(Take(s, step), rest)
  {
    assert ([step] + rest)[1..] == rest;
  }

  /** The server's view of a run of the rendezvous. */
  function Embed(steps: seq<R.Step>): seq<Step> {
    if steps == [] then [] else [InCompleter(steps[0])] + Embed(steps[1..])
  }

  lemma {:induction false} EmbeddedRun(s: Server, steps: seq<R.Step>, who: Option<R.Tid>)
    requires IsUp(s) && R.IsRun(s.completer, steps) && RT.OnlyArrives(steps, who)
    ensures IsRun(s, Embed(steps)) && After(s, Embed(steps)) == s.(completer := R.After(s.completer, steps))
    decreases |steps|
  {
    if steps == [] {
      assert s.completer == R.After(s.completer, steps);
    } else {
      var s1 := s.(completer := R.Take(s.completer, steps[0]));
      EmbeddedRun(s1, steps[1..], who);
      StepAndRun(s, InCompleter(steps[0]), Embed(steps[1..]));
    }
  }

  ghost predicate Owes(s: Server, sid: Sid) {
    sid in s.sessions && |s.sessions[sid].received| == |s.sessions[sid].replies| + 1
  }

  /** Session `sid` has received nothing new and has scheduled a response to all it has received. */
  ghost predicate Settled(s: Server, s': Server, sid: Sid) {
    && sid in s.sessions && sid in s'.sessions
    && s'.sessions[sid].received == s.sessions[sid].received
    && |s'.sessions[sid].replies| == |s'.sessions[sid].received|
  }

  /** The operation is a handler block whose diagnostics call can never return. */
  ghost predicate StuckAt(s: Server, id: OpId) {
    && id in s.ops && s.ops[id].Diagnosing?
    && s.ops[id].call in s.completer.handlers && RT.IsHopeless(s.completer.handlers[s.ops[id].call])
  }

  /** A code completion in an empty buffer is asked for, and ends the server. */
  predicate IsFatal(request: Request) {
    request.url == "/completions" && CompletionAborts(request)
  }

  lemma BlockGoesOn(s: Server, id: OpId, call: R.Tid, s': Server)
    requires JobCanRun(s, id, call) && BlockGoes(s, id, call, None, None, s') && IsUp(s) && id < s.next
    requires var sid, w := s.ops[id].sid, s.ops[id].job;
             && Unanswered(s.sessions[sid]) && WorkOk(w, s.sessions[sid].request) && !IsFatal(s.sessions[sid].request)
    ensures var sid, w := s.ops[id].sid, s.ops[id].job;
            && IsUp(s')
            && (Program(w.endpoint)[w.pc].Send? ==> Settled(s, s', sid))
            && (!Program(w.endpoint)[w.pc].Send? ==>
                  && s'.sessions == s.sessions && id in s'.ops && s'.ops[id].sid == sid
                  && (s'.ops[id].Job? || s'.ops[id].Diagnosing?)
                  && !StuckAt(s', id)
                  && s'.ops[id].job.endpoint == w.endpoint && s'.ops[id].job.pc == w.pc + 1)
  {
    var w := s.ops[id].job;
    WhoMakesTheBody(w);
    match Program(w.endpoint)[w.pc]
    case Load =>
    case Wait =>
    case ArmExit =>
    case Say(_) =>
    case Complete =>
    case Diagnose =>
    case Send =>
  }

  /** One action of a block: the block sends and the session is settled, or it goes on. */
  lemma ActionGoesOn(s: Server, id: OpId, call: R.Tid)
    requires Serves(s) && IsUp(s) && id in s.ops && s.ops[id].Job? && call !in s.completer.handlers
    requires s.ops[id].sid in s.sessions && !IsFatal(s.sessions[s.ops[id].sid].request)
    ensures Enabled(s, RunJob(id, call, None, None))
    ensures var s', sid, w := RunJobStep(s, id, call, None, None), s.ops[id].sid, s.ops[id].job;
            && IsUp(s')
            && (Program(w.endpoint)[w.pc].Send? ==> Settled(s, s', sid))
            && (!Program(w.endpoint)[w.pc].Send? ==>
                  && s'.sessions == s.sessions && id in s'.ops && s'.ops[id].sid == sid
                  && (s'.ops[id].Job? || s'.ops[id].Diagnosing?)
                  && !StuckAt(s', id)
                  && s'.ops[id].job.endpoint == w.endpoint && s'.ops[id].job.pc == w.pc + 1)
  {
    JobFacts(s, id);
    var w := s.ops[id].job;
    OnlyTheLastSends(w);
    BlockStepGoes(s, id, call, None, None);
    BlockGoesOn(s, id, call, RunJobStep(s, id, call, None, None));
  }

  function ActionsLeft(w: Work): int {
    |Program(w.endpoint)| - w.pc
  }

  /** A handler block that is not stuck can run on until it has scheduled its response. */
  lemma {:induction false} BlockCanReply(s: Server, id: OpId) returns (steps: seq<Step>)
    requires Inv(s) && IsUp(s) && id in s.ops && s.ops[id].sid in s.sessions
    requires (s.ops[id].Job? || s.ops[id].Diagnosing?) && !StuckAt(s, id) && !IsFatal(s.sessions[s.ops[id].sid].request)
    ensures IsRun(s, steps) && Settled(s, After(s, steps), s.ops[id].sid)
    decreases ActionsLeft(s.ops[id].job), if s.ops[id].Job? then 1 else 2
  {
    if s.ops[id].Job? {
      steps := JobCanReply(s, id);
    } else {
      var first := CallCanReturn(s, id);
      var s1 := After(s, first);
      var leave := LeaveCompleter(id);
      StepKeepsInv(s1, leave);
      var second := BlockCanReply(Take(s1, leave), id);
      StepAndRun(s1, leave, second);
      RunsCompose(s, first, [leave] + second);
      steps := first + ([leave] + second);
    }
  }

  lemma {:induction false} JobCanReply(s: Server, id: OpId) returns (steps: seq<Step>)
    requires Inv(s) && IsUp(s) && id in s.ops && s.ops[id].sid in s.sessions
    requires s.ops[id].Job? && !IsFatal(s.sessions[s.ops[id].sid].request)
    ensures IsRun(s, steps) && Settled(s, After(s, steps), s.ops[id].sid)
    decreases ActionsLeft(s.ops[id].job), 0
  {
    var call := FreshKey(s.completer.handlers);
    var w := s.ops[id].job;
    JobFacts(s, id);
    ActionGoesOn(s, id, call);
    var step := RunJob(id, call, None, None);
    var s1 := Take(s, step);
    var rest := [];
    if !Program(w.endpoint)[w.pc].Send? {
      StepKeepsInv(s, step);
      rest := BlockCanReply(s1, id);
    }
    StepAndRun(s, step, rest);
    steps := [step] + rest;
  }

  /** What a block inside the completer can rely on. */
  lemma DiagnosingFacts(s: Server, id: OpId)
    requires Inv(s) && id in s.ops && s.ops[id].Diagnosing?
    ensures var op := s.ops[id];
            && op.sid in s.sessions && Unanswered(s.sessions[op.sid])
            && op.call in s.completer.handlers && RP.Inv(s.completer)
  {
  }

  /** A block inside the completer can get out of it. */
  lemma CallCanReturn(s: Server, id: OpId) returns (steps: seq<Step>)
    requires Inv(s) && IsUp(s) && id in s.ops && s.ops[id].Diagnosing?
    requires !StuckAt(s, id)
    ensures IsRun(s, steps)
    ensures var s' := After(s, steps);
            && Inv(s') && s'.sessions == s.sessions && s'.ops == s.ops && Enabled(s', LeaveCompleter(id))
  {
    DiagnosingFacts(s, id);
    var n := FreshKey(s.completer.notifications);
    var addr := FreshKey(s.completer.heap);
    var inner := RG.CallCanReturn(s.completer, s.ops[id].call, n, addr, "");
    EmbeddedRun(s, inner, Some(n));
    steps := Embed(inner);
    RunKeepsInv(s, steps);
  }

  lemma OwedByOperation(s: Server, sid: Sid) returns (id: OpId)
    requires Inv(s) && Owes(s, sid)
    ensures id in s.ops && s.ops[id].sid == sid
    ensures s.ops[id].Job? || s.ops[id].Diagnosing? || (s.ops[id].ReadDone? && !s.ops[id].failed)
  {
    assert SessionOk(s.sessions[sid], WorldOf(s));
    id := s.sessions[sid].current.value;
    assert PhaseOk(s.ops[id], s.sessions[sid], WorldOf(s));
  }

  lemma ReadCanBeAnswered(s: Server, id: OpId) returns (steps: seq<Step>)
    requires Inv(s) && IsUp(s) && id in s.ops && s.ops[id].ReadDone? && !s.ops[id].failed
    requires Owes(s, s.ops[id].sid) && !IsFatal(s.sessions[s.ops[id].sid].request)
    ensures IsRun(s, steps) && Settled(s, After(s, steps), s.ops[id].sid)
  {
    var sid, step := s.ops[id].sid, OnRead(id);
    var s1 := Take(s, step);
    var rest := [];
    if s.sessions[sid].request.url in ENDPOINTS {
      StepKeepsInv(s, step);
      rest := BlockCanReply(s1, s.next);
    }
    StepAndRun(s, step, rest);
    steps := [step] + rest;
  }

  // ----- A stuck block stays stuck.

  lemma NamesStay(s: Server, step: Step)
    requires RT.NamesOk(s.completer) && Enabled(s, step)
    ensures RT.NamesOk(Take(s, step).completer)
  {
    match step
    case InCompleter(inner) => RT.StepKeepsNames(s.completer, inner);
    case RunJob(id, call, openAnswer, updateAnswer) => JobCompleter(s, id, call, openAnswer, updateAnswer);
    case _ => OtherCompleter(s, step);
  }

  /** No step but its own leaving touches a block inside the completer. */
  lemma DiagnosingStays(s: Server, step: Step, id: OpId)
    requires (forall k :: k in s.ops ==> k < s.next) && id in s.ops && s.ops[id].Diagnosing?
    requires Enabled(s, step) && step != LeaveCompleter(id)
    ensures id in Take(s, step).ops && Take(s, step).ops[id] == s.ops[id]
  {
    match step
    case RunJob(other, call, openAnswer, updateAnswer) => JobLeavesOthers(s, other, call, openAnswer, updateAnswer, id);
    case OnRead(other) => ReadLeavesOthers(s, other, id);
    case _ =>
  }

  lemma JobLeavesOthers(s: Server, other: OpId, call: R.Tid, openAnswer: Option<string>,
                        updateAnswer: Option<string>, id: OpId)
    requires JobCanRun(s, other, call)
    requires id in s.ops && id < s.next && other < s.next && id != other
    ensures var s' := RunJobStep(s, other, call, openAnswer, updateAnswer);
            id in s'.ops && s'.ops[id] == s.ops[id]
  {
    BlockStepGoes(s, other, call, openAnswer, updateAnswer);
    match Program(s.ops[other].job.endpoint)[s.ops[other].job.pc]
    case Load =>
    case Wait =>
    case ArmExit =>
    case Say(_) =>
    case Complete =>
    case Diagnose =>
    case Send =>
  }

  lemma ReadLeavesOthers(s: Server, other: OpId, id: OpId)
    requires Enabled(s, OnRead(other)) && id in s.ops && id < s.next && id != other
    ensures var s' := OnReadStep(s, other);
            id in s'.ops && s'.ops[id] == s.ops[id]
  {
  }

  lemma HopelessStays(s: Server, step: Step, call: R.Tid)
    requires RP.Inv(s.completer) && RT.NamesOk(s.completer) && Enabled(s, step)
    requires call in s.completer.handlers && RT.IsHopeless(s.completer.handlers[call])
    ensures call in Take(s, step).completer.handlers && RT.IsHopeless(Take(s, step).completer.handlers[call])
  {
    match step
    case InCompleter(inner) => RT.StepKeepsHopeless(s.completer, inner, call);
    case RunJob(id, other, openAnswer, updateAnswer) => JobCompleter(s, id, other, openAnswer, updateAnswer);
    case _ => OtherCompleter(s, step);
  }

  lemma {:induction false} StuckForGood(s: Server, steps: seq<Step>, id: OpId)
    requires Inv(s) && RT.NamesOk(s.completer) && IsRun(s, steps) && StuckAt(s, id)
    ensures StuckAt(After(s, steps), id) && After(s, steps).ops[id] == s.ops[id]
    decreases |steps|
  {
    if steps != [] {
      DiagnosingStays(s, steps[0], id);
      HopelessStays(s, steps[0], s.ops[id].call);
      StepKeepsInv(s, steps[0]);
      NamesStay(s, steps[0]);
      StuckForGood(Take(s, steps[0]), steps[1..], id);
    }
  }

  lemma {:induction false} RunKeepsNames(s: Server, steps: seq<Step>)
    requires RT.NamesOk(s.completer) && IsRun(s, steps)
    ensures RT.NamesOk(After(s, steps).completer)
    decreases |steps|
  {
    if steps != [] {
      NamesStay(s, steps[0]);
      RunKeepsNames(Take(s, steps[0]), steps[1..]);
    }
  }

  /** The session's handler block is in a diagnostics call that can never return. */
  ghost predicate IsStuck(s: Server, sid: Sid) {
    exists id :: StuckAt(s, id) && s.ops[id].sid == sid
  }

  ghost predicate CanSettle(s: Server, steps: seq<Step>, sid: Sid) {
    IsRun(s, steps) && Settled(s, After(s, steps), sid)
  }

  lemma OwedCanSettle(s: Server, sid: Sid) returns (steps: seq<Step>)
    requires Inv(s) && IsUp(s) && Owes(s, sid) && !IsStuck(s, sid) && !IsFatal(s.sessions[sid].request)
    ensures CanSettle(s, steps, sid)
  {
    var id := OwedByOperation(s, sid);
    if s.ops[id].ReadDone? {
      steps := ReadCanBeAnswered(s, id);
    } else {
      steps := BlockCanReply(s, id);
    }
  }

  lemma StuckNeverSettles(s: Server, steps: seq<Step>, id: OpId)
    requires Inv(s) && RT.NamesOk(s.completer) && IsRun(s, steps) && StuckAt(s, id)
    ensures !CanSettle(s, steps, s.ops[id].sid)
  {
    StuckForGood(s, steps, id);
    RunKeepsInv(s, steps);
    DiagnosingFacts(After(s, steps), id);
  }

  /** No response to a fatal request is ever scheduled. */
  lemma FatalNeverSettles(s: Server, steps: seq<Step>, sid: Sid)
    requires Inv(s) && Owes(s, sid) && IsFatal(s.sessions[sid].request)
    ensures !CanSettle(s, steps, sid)
  {
    OwedIsLast(s, sid);
    if IsRun(s, steps) {
      RunKeepsInv(s, steps);
      var s' := After(s, steps);
      if sid in s'.sessions {
        NoFatalIsAnswered(s'.sessions[sid], WorldOf(s'));
      }
    }
  }

  lemma NoFatalIsAnswered(session: SessionState, world: World)
    requires SessionOk(session, world)
    ensures forall k :: 0 <= k < |session.replies| ==> !IsFatal(session.received[k])
  {
    forall k | 0 <= k < |session.replies|
      ensures !IsFatal(session.received[k])
    {
      assert Answers(session.received[k], session.replies[k], world);
    }
  }

  lemma OwedIsLast(s: Server, sid: Sid)
    requires Inv(s) && Owes(s, sid)
    ensures Unanswered(s.sessions[sid])
  {
    var id := OwedByOperation(s, sid);
    assert PhaseOk(s.ops[id], s.sessions[sid], WorldOf(s));
  }

  /**
   At any point of any run while the server is up: the response that a session owes can still be
   scheduled if and only if its handler block is not in a diagnostics call that cannot return, and
   it is not owed to a request for a completion in an empty buffer.
   */
  lemma RequestCanBeAnsweredIff(before: seq<Step>, sid: Sid)
    requires IsRun(INITIAL, before) && IsUp(After(INITIAL, before)) && Owes(After(INITIAL, before), sid)
    ensures var s := After(INITIAL, before);
            (exists steps :: CanSettle(s, steps, sid)) <==> !IsStuck(s, sid) && !IsFatal(s.sessions[sid].request)
  {
    ReachableInv(before);
    RunKeepsNames(INITIAL, before);
    var s := After(INITIAL, before);
    forall steps | IsStuck(s, sid) || IsFatal(s.sessions[sid].request)
      ensures !CanSettle(s, steps, sid)
    {
      if IsFatal(s.sessions[sid].request) {
        FatalNeverSettles(s, steps, sid);
      } else if IsRun(s, steps) {
        var id :| StuckAt(s, id) && s.ops[id].sid == sid;
        StuckNeverSettles(s, steps, id);
      }
    }
    if !IsStuck(s, sid) && !IsFatal(s.sessions[sid].request) {
      var steps := OwedCanSettle(s, sid);
    }
  }

  // ----- Requests that get a session stuck, or end the server.

  /** Some time after a session has begun to read, its handler block is about to do action `pc` for `request`. */
  ghost predicate Serving(s: Server, id: OpId, request: Request, pc: nat) {
    && Inv(s) && IsUp(s)
    && request.url in ENDPOINTS
    && id in s.ops && s.ops[id].Job? && s.ops[id].job.endpoint == ENDPOINTS[request.url] && s.ops[id].job.pc == pc
    && s.ops[id].sid in s.sessions && s.sessions[s.ops[id].sid].request == request
  }

  lemma TwoSteps(s: Server, first: Step, second: Step)
    requires Enabled(s, first) && Enabled(Take(s, first), second)
    ensures IsRun(s, [first, second]) && After(s, [first, second]) == Take(Take(s, first), second)
  {
    StepAndRun(Take(s, first), second, []);
    StepAndRun(s, first, [second]);
    assert [first] + [second] == [first, second];
  }

  lemma ThreeSteps(s: Server, first: Step, second: Step, third: Step)
    requires Enabled(s, first) && Enabled(Take(s, first), second) && Enabled(Take(Take(s, first), second), third)
    ensures IsRun(s, [first, second, third])
    ensures After(s, [first, second, third]) == Take(Take(Take(s, first), second), third)
  {
    TwoSteps(Take(s, first), second, third);
    StepAndRun(s, first, [second, third]);
    assert [first] + [second, third] == [first, second, third];
  }

  lemma Filled(s: Server, id: OpId, request: Request)
    requires Inv(s) && IsUp(s) && id in s.ops && s.ops[id].Reading?
    ensures Enabled(s, Fill(id, request)) && Enabled(Take(s, Fill(id, request)), FinishRead(id, false))
    ensures var s' := Take(Take(s, Fill(id, request)), FinishRead(id, false));
            && Inv(s') && IsUp(s') && s'.next == s.next
            && id in s'.ops && s'.ops[id] == ReadDone(s.ops[id].sid, false)
            && s.ops[id].sid in s'.sessions && s'.sessions[s.ops[id].sid].request == request
  {
    StepKeepsInv(s, Fill(id, request));
    StepKeepsInv(Take(s, Fill(id, request)), FinishRead(id, false));
  }

  lemma Dispatched(s: Server, id: OpId)
    requires Inv(s) && IsUp(s) && id in s.ops && s.ops[id].ReadDone? && !s.ops[id].failed
    requires s.ops[id].sid in s.sessions && s.sessions[s.ops[id].sid].request.url in ENDPOINTS
    ensures Enabled(s, OnRead(id)) && Serving(Take(s, OnRead(id)), s.next, s.sessions[s.ops[id].sid].request, 0)
    ensures Take(s, OnRead(id)).ops[s.next].sid == s.ops[id].sid
  {
    StepKeepsInv(s, OnRead(id));
    OnReadIs(s, id);
  }

  lemma ReadIsServed(s: Server, id: OpId, request: Request) returns (steps: seq<Step>)
    requires Inv(s) && IsUp(s) && id in s.ops && s.ops[id].Reading? && request.url in ENDPOINTS
    ensures IsRun(s, steps) && Serving(After(s, steps), s.next, request, 0)
    ensures After(s, steps).ops[s.next].sid == s.ops[id].sid
  {
    var fill, finish, callback := Fill(id, request), FinishRead(id, false), OnRead(id);
    Filled(s, id, request);
    Dispatched(Take(Take(s, fill), finish), id);
    steps := [fill, finish, callback];
    ThreeSteps(s, fill, finish, callback);
  }

  /** The server can come to serve any request for one of its endpoints, as the first of its first session. */
  lemma FirstRequestIsServed(request: Request) returns (steps: seq<Step>, id: OpId)
    requires request.url in ENDPOINTS
    ensures IsRun(INITIAL, steps) && Serving(After(INITIAL, steps), id, request, 0)
  {
    var begin, start := AcceptingOnly(AT.FIRST), InAcceptor(A.StartSession(0));
    AT.FirstConnection();
    AcceptingRuns(INITIAL, AT.FIRST);
    var s := After(INITIAL, begin);
    ReachableInv(begin);
    StartIsFresh(s, A.StartSession(0));
    StartGoesOn(s, 7, A.Take(s.acceptor, A.StartSession(0)));
    var s1 := Take(s, start);
    StepKeepsInv(s, start);
    id := s1.next;
    var read := ReadIsServed(s1, s.next, request);
    StepAndRun(s, start, read);
    RunsCompose(INITIAL, begin, [start] + read);
    steps := begin + ([start] + read);
  }

  /** The request that no notification will ever answer. */
  const NAMELESS := NO_REQUEST.(url := "/diagnostics")

  lemma BlockGetsStuck(s: Server, id: OpId) returns (steps: seq<Step>)
    requires Serving(s, id, NAMELESS, 0)
    ensures IsRun(s, steps) && StuckAt(After(s, steps), id) && After(s, steps).ops[id].sid == s.ops[id].sid
  {
    var call := FreshKey(s.completer.handlers);
    var load, wait := RunJob(id, call, None, None), InCompleter(R.RunHandler(call, true, 0));
    LoadsRequest(s, id, call);
    var s1 := Take(s, load);
    DiagnosesNameless(s1, id, call);
    var s2 := Take(s1, load);
    NamelessIsAnswered(s2, id);
    steps := [load, load, wait];
    ThreeSteps(s, load, load, wait);
  }

  lemma LoadsRequest(s: Server, id: OpId, call: R.Tid)
    requires Serving(s, id, NAMELESS, 0) && call !in s.completer.handlers
    ensures Enabled(s, RunJob(id, call, None, None))
    ensures var s' := Take(s, RunJob(id, call, None, None));
            && Serving(s', id, NAMELESS, 1) && call !in s'.completer.handlers && s'.ops[id].sid == s.ops[id].sid
  {
    JobFacts(s, id);
    StepKeepsInv(s, RunJob(id, call, None, None));
    BlockStepGoes(s, id, call, None, None);
  }

  lemma NamelessIsAnswered(s: Server, id: OpId)
    requires IsUp(s) && id in s.ops && s.ops[id].Diagnosing? && s.ops[id].call in s.completer.handlers
    requires s.completer.handlers[s.ops[id].call] == R.Handler("", R.Opening, false, None, None, None)
    ensures var wait := InCompleter(R.RunHandler(s.ops[id].call, true, 0));
            && Enabled(s, wait) && StuckAt(Take(s, wait), id) && Take(s, wait).ops == s.ops
  {
  }

  lemma DiagnosesNameless(s: Server, id: OpId, call: R.Tid)
    requires Serving(s, id, NAMELESS, 1) && call !in s.completer.handlers
    ensures Enabled(s, RunJob(id, call, None, None))
    ensures var s' := RunJobStep(s, id, call, None, None);
            && IsUp(s') && id in s'.ops && s'.ops[id].Diagnosing?
            && s'.ops[id].call == call && s'.ops[id].sid == s.ops[id].sid
            && call in s'.completer.handlers
            && s'.completer.handlers[call] == R.Handler("", R.Opening, false, None, None, None)
  {
    JobFacts(s, id);
  }

  /** The first session can get stuck by its first request, and is then stuck for good. */
  lemma SessionCanGetStuck() returns (steps: seq<Step>, id: OpId)
    ensures IsRun(INITIAL, steps) && StuckAt(After(INITIAL, steps), id)
    ensures forall more :: !CanSettle(After(INITIAL, steps), more, After(INITIAL, steps).ops[id].sid)
  {
    var first;
    first, id := FirstRequestIsServed(NAMELESS);
    var block := BlockGetsStuck(After(INITIAL, first), id);
    RunsCompose(INITIAL, first, block);
    steps := first + block;
    ReachableInv(steps);
    RunKeepsNames(INITIAL, steps);
    forall more | IsRun(After(INITIAL, steps), more)
      ensures !CanSettle(After(INITIAL, steps), more, After(INITIAL, steps).ops[id].sid)
    {
      StuckNeverSettles(After(INITIAL, steps), more, id);
    }
  }

  /**
   After a failed assertion, as after an exit, nothing happens any more: no response that is owed is
   ever scheduled, for any session.
   */
  ghost predicate IsOver(s: Server) {
    && !IsUp(s)
    && forall more, sid :: Owes(s, sid) ==> !CanSettle(s, more, sid)
  }

  lemma NothingAfterTheEnd(s: Server)
    requires !IsUp(s)
    ensures IsOver(s)
  {
    forall more, sid | Owes(s, sid)
      ensures !CanSettle(s, more, sid)
    {
      if IsRun(s, more) {
        assert more == [];
        assert After(s, more) == s;
      }
    }
  }

  lemma FatalBlockAborts(s: Server, id: OpId) returns (steps: seq<Step>)
    requires Inv(s) && IsUp(s) && id in s.ops && s.ops[id].Job? && s.ops[id].sid in s.sessions
    requires IsFatal(s.sessions[s.ops[id].sid].request)
    ensures IsRun(s, steps) && After(s, steps).aborted && After(s, steps).sessions == s.sessions
  {
    var call := FreshKey(s.completer.handlers);
    var step := RunJob(id, call, None, None);
    JobFacts(s, id);
    FatalAction(s, id, call);
    if s.ops[id].job.pc == 0 {
      StepKeepsInv(s, step);
      FatalAction(Take(s, step), id, call);
      steps := [step, step];
      TwoSteps(s, step, step);
    } else {
      steps := [step];
      StepAndRun(s, step, []);
    }
  }

  lemma FatalAction(s: Server, id: OpId, call: R.Tid)
    requires Inv(s) && IsUp(s) && id in s.ops && s.ops[id].Job? && s.ops[id].sid in s.sessions
    requires IsFatal(s.sessions[s.ops[id].sid].request) && call !in s.completer.handlers
    ensures Enabled(s, RunJob(id, call, None, None)) && s.ops[id].job.pc < 2
    ensures var s' := Take(s, RunJob(id, call, None, None));
            && s'.sessions == s.sessions
            && (s.ops[id].job.pc == 0 ==>
                  IsUp(s') && s'.completer == s.completer && id in s'.ops && s'.ops[id].Job?
                  && s'.ops[id].sid == s.ops[id].sid && s'.ops[id].job.pc == 1)
            && (s.ops[id].job.pc == 1 ==> s'.aborted)
  {
    JobFacts(s, id);
    BlockStepGoes(s, id, call, None, None);
  }

  /** An owed response to a fatal request is not merely never scheduled: the server can end by it, for all sessions. */
  lemma FatalCanAbort(s: Server, sid: Sid) returns (steps: seq<Step>)
    requires Inv(s) && IsUp(s) && Owes(s, sid) && IsFatal(s.sessions[sid].request)
    ensures IsRun(s, steps) && After(s, steps).aborted && IsOver(After(s, steps))
  {
    var id := OwedByOperation(s, sid);
    if s.ops[id].ReadDone? {
      Dispatched(s, id);
      var rest := FatalBlockAborts(Take(s, OnRead(id)), s.next);
      StepAndRun(s, OnRead(id), rest);
      steps := [OnRead(id)] + rest;
    } else {
      FatalIsNoDiagnosis(s, id);
      steps := FatalBlockAborts(s, id);
    }
    NothingAfterTheEnd(After(s, steps));
  }

  lemma FatalIsNoDiagnosis(s: Server, id: OpId)
    requires Inv(s) && id in s.ops && s.ops[id].sid in s.sessions && IsFatal(s.sessions[s.ops[id].sid].request)
    ensures !s.ops[id].Diagnosing?
  {
  }

  /** A request for a completion in an empty buffer. */
  const EMPTY_BUFFER := NO_REQUEST.(url := "/completions")

  /** The first request of the first session can end the server. */
  lemma ServerCanAbort() returns (steps: seq<Step>)
    ensures IsRun(INITIAL, steps) && After(INITIAL, steps).aborted && IsOver(After(INITIAL, steps))
  {
    var first, id := FirstRequestIsServed(EMPTY_BUFFER);
    var rest := FatalBlockAborts(After(INITIAL, first), id);
    RunsCompose(INITIAL, first, rest);
    steps := first + rest;
    NothingAfterTheEnd(After(INITIAL, steps));
  }
}
