/** What is sent in reply to each request, and when the server exits, in every run. */
module HttpServerReplies {
  import opened Wrappers
  import opened EventLog
  import opened HttpSession
  import opened HttpServer
  import opened HttpServerProof
  import opened HttpServerTheorems
  import A = AcceptLoop
  import R = Rendezvous
  import RP = RendezvousProof
  import RS = RendezvousSteps
  import RT = RendezvousTheorems

  lemma {:induction false} RunPrefix(s: Server, steps: seq<Step>)
    requires steps != [] && IsRun(s, steps)
    ensures var n := |steps| - 1;
            && IsRun(s, steps[..n]) && Enabled(After(s, steps[..n]), steps[n])
            && After(s, steps) == Take(After(s, steps[..n]), steps[n])
    decreases |steps|
  {
    var n := |steps| - 1;
    if n > 0 {
      RunPrefix(Take(s, steps[0]), steps[1..]);
      assert steps[1..][..n - 1] == steps[..n][1..];
      assert steps[1..][n - 1] == steps[n];
    }
  }

  // ----- The replies.

  /** Reply `k` of the session is there, and judged by its request. */
  lemma ReplyAnswers(steps: seq<Step>, sid: Sid, k: nat)
    requires IsRun(INITIAL, steps)
    requires sid in After(INITIAL, steps).sessions && k < |After(INITIAL, steps).sessions[sid].replies|
    ensures var s := After(INITIAL, steps);
            && k < |s.sessions[sid].received|
            && Answers(s.sessions[sid].received[k], s.sessions[sid].replies[k], WorldOf(s))
  {
    ReachableInv(steps);
    var s := After(INITIAL, steps);
    assert SessionOk(s.sessions[sid], WorldOf(s));
  }

  /** What each of the endpoints with a constant response sends, and what is sent for any other URL. */
  lemma ConstantReplies(steps: seq<Step>, sid: Sid, k: nat)
    requires IsRun(INITIAL, steps)
    requires sid in After(INITIAL, steps).sessions && k < |After(INITIAL, steps).sessions[sid].replies|
    ensures k < |After(INITIAL, steps).sessions[sid].received|
    ensures var session := After(INITIAL, steps).sessions[sid];
            var request, response := session.received[k], session.replies[k].response;
            && (request.url == "/status" || request.url == "/shutdown" ==>
                  response == Response(200, request.version, ""))
            && (request.url == "/slow_test" ==> response == Response(200, request.version, "Hello World"))
            && (request.url == "/completions" || request.url == "/diagnostics" ==>
                  response.status == 200 && response.version == request.version)
            && (request.url !in {"/status", "/shutdown", "/slow_test", "/completions", "/diagnostics"} ==>
                  response == Response(404, request.version, "Endpoint: '" + request.url + "' not found"))
  {
    ReplyAnswers(steps, sid, k);
  }

  /**
   The reply to a completions request is SourceKit's answer to the update if there is one, else the
   one to the open request, else the empty result: of a completion made for this very request.
   */
  lemma CompletionsReply(steps: seq<Step>, sid: Sid, k: nat)
    requires IsRun(INITIAL, steps)
    requires sid in After(INITIAL, steps).sessions && k < |After(INITIAL, steps).sessions[sid].replies|
    ensures k < |After(INITIAL, steps).sessions[sid].received|
    ensures var s := After(INITIAL, steps);
            var request, sent := s.sessions[sid].received[k], s.sessions[sid].replies[k];
            request.url == "/completions" ==> CompletionOk(request, sent.response.body, sent.source, s.completions)
  {
    ReplyAnswers(steps, sid, k);
  }

  /** Both answers recorded of a completion are those that one step of a handler block was given. */
  lemma {:induction false} CompletionIsOfOneStep(steps: seq<Step>, j: nat)
    requires IsRun(INITIAL, steps) && j < |After(INITIAL, steps).completions|
    ensures var made := After(INITIAL, steps).completions[j];
            exists m :: 0 <= m < |steps| && WasGiven(steps[m], made.onOpen, made.onUpdate)
    decreases |steps|
  {
    if steps != [] {
      var n := |steps| - 1;
      RunPrefix(INITIAL, steps);
      ReachableInv(steps[..n]);
      var s := After(INITIAL, steps[..n]);
      CompletionsGrow(s, steps[n]);
      if j < |s.completions| {
        CompletionIsOfOneStep(steps[..n], j);
        var made := s.completions[j];
        var m :| 0 <= m < n && WasGiven(steps[..n][m], made.onOpen, made.onUpdate);
        assert WasGiven(steps[m], made.onOpen, made.onUpdate);
      }
    }
  }

  predicate WasGiven(step: Step, onOpen: Option<string>, onUpdate: Option<string>) {
    step.RunJob? && step.openAnswer == onOpen && step.updateAnswer == onUpdate
  }

  lemma CompletionsGrow(s: Server, step: Step)
    requires Inv(s) && Enabled(s, step)
    ensures var s' := Take(s, step);
            || s'.completions == s.completions
            || exists made: Completion ::
                 && s'.completions == s.completions + [made] && WasGiven(step, made.onOpen, made.onUpdate)
  {
    match step
    case RunJob(id, call, openAnswer, updateAnswer) =>
      BlockStepGoes(s, id, call, openAnswer, updateAnswer);
      BlockCompletions(s, id, call, openAnswer, updateAnswer, Take(s, step));
    case OnRead(id) => ReadKeepsCompletions(s, id);
    case _ =>
  }

  lemma ReadKeepsCompletions(s: Server, id: OpId)
    requires Enabled(s, OnRead(id))
    ensures OnReadStep(s, id).completions == s.completions
  {
  }

  lemma BlockCompletions(s: Server, id: OpId, call: R.Tid, openAnswer: Option<string>, updateAnswer: Option<string>,
                         s': Server)
    requires JobCanRun(s, id, call) && BlockGoes(s, id, call, openAnswer, updateAnswer, s')
    ensures || s'.completions == s.completions
            || exists made: Completion ::
                 s'.completions == s.completions + [made] && made.onOpen == openAnswer && made.onUpdate == updateAnswer
  {
    var w := s.ops[id].job;
    match Program(w.endpoint)[w.pc]
    case Load =>
    case Wait =>
    case ArmExit =>
    case Say(_) =>
    case Complete =>
      if !CompletionAborts(w.loaded[|w.loaded| - 1]) {
        assert s'.completions == s.completions + [Completion(w.loaded[|w.loaded| - 1], openAnswer, updateAnswer)];
      }
    case Diagnose =>
    case Send =>
  }

  // ----- The replies to diagnostics requests.

  /** SourceKit's answers to the steps of diagnostics call `t`; only the first two are asked for. */
  function EditorAnswers(steps: seq<Step>, t: R.Tid): seq<bool> {
    if steps == [] then []
    else
      var n := |steps| - 1;
      var step := steps[n];
      EditorAnswers(steps[..n], t)
      + if step.InCompleter? && step.inner.RunHandler? && step.inner.t == t then [step.inner.answered] else []
  }

  lemma AnswersExtend(inner: seq<R.Step>, step: R.Step, t: R.Tid)
    ensures RS.AnswersOf(inner + [step], t)
         == RS.AnswersOf(inner, t) + if step.RunHandler? && step.t == t then [step.answered] else []
  {
    assert (inner + [step])[..|inner|] == inner;
  }

  lemma InnerExtends(inner: seq<R.Step>, step: R.Step)
    requires R.IsRun(R.INITIAL, inner) && R.Enabled(R.After(R.INITIAL, inner), step)
    ensures R.IsRun(R.INITIAL, inner + [step])
    ensures R.After(R.INITIAL, inner + [step]) == R.Take(R.After(R.INITIAL, inner), step)
  {
    RT.OneStepRun(R.After(R.INITIAL, inner), step);
    RT.RunsCompose(R.INITIAL, inner, [step]);
  }

  /** What a run of the server does to the rendezvous is a run of the rendezvous, with the same answers. */
  lemma {:induction false} CompleterRuns(steps: seq<Step>) returns (inner: seq<R.Step>)
    requires IsRun(INITIAL, steps)
    ensures R.IsRun(R.INITIAL, inner) && R.After(R.INITIAL, inner) == After(INITIAL, steps).completer
    ensures forall t :: RS.AnswersOf(inner, t) == EditorAnswers(steps, t)
    decreases |steps|
  {
    if steps == [] {
      inner := [];
    } else {
      var n := |steps| - 1;
      RunPrefix(INITIAL, steps);
      var s := After(INITIAL, steps[..n]);
      inner := CompleterRuns(steps[..n]);
      var more := CompleterStep(s, steps[n]);
      if more.Some? {
        InnerExtends(inner, more.value);
        forall t
          ensures RS.AnswersOf(inner + [more.value], t) == EditorAnswers(steps, t)
        {
          AnswersExtend(inner, more.value, t);
        }
        inner := inner + [more.value];
      }
    }
  }

  /** The step of the rendezvous that a step of the server makes, if it makes one. */
  lemma CompleterStep(s: Server, step: Step) returns (more: Option<R.Step>)
    requires Enabled(s, step)
    ensures if more.None? then Take(s, step).completer == s.completer
            else R.Enabled(s.completer, more.value) && Take(s, step).completer == R.Take(s.completer, more.value)
    ensures if step.InCompleter? then more == Some(step.inner) else more.Some? ==> more.value.Request?
  {
    match step
    case InCompleter(inner) => more := Some(inner);
    case RunJob(id, call, openAnswer, updateAnswer) =>
      var w := s.ops[id].job;
      JobCompleter(s, id, call, openAnswer, updateAnswer);
      more := if Program(w.endpoint)[w.pc].Diagnose?
              then Some(R.Request(call, w.loaded[|w.loaded| - 1].fileName)) else None;
    case _ =>
      OtherCompleter(s, step);
      more := None;
  }

  /**
   The reply to a diagnostics request is that of a call made for its file.  It is the empty result if
   both editor requests of this call were answered by an error; otherwise it is what the call
   returned: what the first publication carried that followed the call's registration, which was
   made after the request had been received.
   */
  lemma DiagnosticsReplyIsOfItsCall(steps: seq<Step>, sid: Sid, k: nat)
    requires IsRun(INITIAL, steps)
    requires sid in After(INITIAL, steps).sessions && k < |After(INITIAL, steps).sessions[sid].replies|
    requires k < |After(INITIAL, steps).sessions[sid].received|
    requires After(INITIAL, steps).sessions[sid].received[k].url == "/diagnostics"
    ensures var s := After(INITIAL, steps);
            var request, sent := s.sessions[sid].received[k], s.sessions[sid].replies[k];
            && sent.call.Some? && sent.call.value in s.completer.handlers
            && var h, answers := s.completer.handlers[sent.call.value], EditorAnswers(steps, sent.call.value);
            && h.file == request.fileName && |answers| >= 2
            && (!answers[0] && !answers[1] ==>
                  h.stage.ReturnedEmpty? && sent.source.None? && sent.response.body == "{ 'key.diagnostics':[] }")
            && (answers[0] || answers[1] ==>
                  && h.stage.Returned? && h.reply == Some(sent.response.body)
                  && h.at.Some? && h.at == sent.source && sent.since <= h.at.value
                  && PublishedAfter(s.completer.history.log, h.at.value, request.fileName, sent.response.body))
  {
    var s := After(INITIAL, steps);
    ReplyAnswers(steps, sid, k);
    var sent := s.sessions[sid].replies[k];
    assert DiagnosticsOk(s.sessions[sid].received[k], sent.response.body, sent.source, sent.call, sent.since,
                         s.completer.handlers, s.completer.history.log);
    var inner := CompleterRuns(steps);
    RS.CallFollowsItsSteps(inner, sent.call.value);
  }

  // ----- The exit.

  /** The session has received a request for "/shutdown". */
  ghost predicate WasAsked(session: SessionState) {
    exists k :: 0 <= k < |session.received| && session.received[k].url == "/shutdown"
  }

  ghost predicate SomeoneAsked(sessions: map<Sid, SessionState>) {
    exists sid :: sid in sessions && WasAsked(sessions[sid])
  }

  /** If the session has scheduled a response to such a request, the exit is armed. */
  ghost predicate IsHeeded(session: SessionState, armed: bool) {
    forall k :: 0 <= k < |session.replies| && k < |session.received| && session.received[k].url == "/shutdown" ==> armed
  }

  predicate IsPastArming(op: Op) {
    op.Job? && op.job.endpoint.Shutdown? && op.job.pc >= 2
  }

  ghost predicate ExitOk(s: Server) {
    && (s.exited ==> s.exitArmed)
    && (s.exitArmed ==> SomeoneAsked(s.sessions))
    && (forall sid :: sid in s.sessions ==> IsHeeded(s.sessions[sid], s.exitArmed))
    && (forall id :: id in s.ops && IsPastArming(s.ops[id]) ==> s.exitArmed)
  }

  lemma AskedStays(session: SessionState, session': SessionState)
    requires WasAsked(session) && session.received <= session'.received
    ensures WasAsked(session')
  {
    var k :| 0 <= k < |session.received| && session.received[k].url == "/shutdown";
    assert session'.received[k] == session.received[k];
  }

  lemma AskedMoves(sessions: map<Sid, SessionState>, sid: Sid, session: SessionState)
    requires SomeoneAsked(sessions)
    requires sid in sessions ==> sessions[sid].received <= session.received
    ensures SomeoneAsked(sessions[sid := session])
  {
    var x :| x in sessions && WasAsked(sessions[x]);
    if x == sid {
      AskedStays(sessions[sid], session);
    }
    assert x in sessions[sid := session] && WasAsked(sessions[sid := session][x]);
  }

  /** A step that concerns session `sid` keeps `ExitOk` if it does so for that session and its operations. */
  lemma ExitMoves(s: Server, s': Server, sid: Sid, session: SessionState)
    requires ExitOk(s) && s'.sessions == s.sessions[sid := session]
    requires sid in s.sessions ==> s.sessions[sid].received <= session.received
    requires IsHeeded(session, s'.exitArmed)
    requires (s.exitArmed ==> s'.exitArmed) && (s'.exitArmed ==> s.exitArmed || WasAsked(session))
    requires s'.exited ==> s'.exitArmed
    requires forall id :: id in s'.ops && IsPastArming(s'.ops[id]) ==>
               s'.exitArmed || (id in s.ops && s.ops[id] == s'.ops[id])
    ensures ExitOk(s')
  {
    if s.exitArmed {
      AskedMoves(s.sessions, sid, session);
    } else if s'.exitArmed {
      assert sid in s'.sessions && WasAsked(s'.sessions[sid]);
    }
  }

  lemma ExitStays(s: Server, s': Server)
    requires ExitOk(s) && s'.sessions == s.sessions && s'.exitArmed == s.exitArmed && (s'.exited ==> s'.exitArmed)
    requires forall id :: id in s'.ops && IsPastArming(s'.ops[id]) ==>
               s'.exitArmed || (id in s.ops && s.ops[id] == s'.ops[id])
    ensures ExitOk(s')
  {
  }

  /** The request that a block for "/shutdown" works for is one. */
  lemma ShutdownBlockWasAsked(session: SessionState, w: Work)
    requires Unanswered(session) && WorkOk(w, session.request) && w.endpoint.Shutdown?
    ensures WasAsked(session)
  {
    assert session.received[|session.received| - 1].url == "/shutdown";
  }

  lemma ArmingKeepsExit(s: Server, id: OpId, s': Server)
    requires ExitOk(s) && id in s.ops && s.ops[id].Job? && s.ops[id].sid in s.sessions && !s.exited
    requires s'.sessions == s.sessions && s'.exitArmed && !s'.exited && s.ops[id].job.endpoint.Shutdown?
    requires Unanswered(s.sessions[s.ops[id].sid]) && WorkOk(s.ops[id].job, s.sessions[s.ops[id].sid].request)
    ensures ExitOk(s')
  {
    ShutdownBlockWasAsked(s.sessions[s.ops[id].sid], s.ops[id].job);
  }

  lemma SendKeepsExit(s: Server, id: OpId)
    requires ExitOk(s) && id in s.ops && s.ops[id].Job? && s.ops[id].sid in s.sessions && !s.exited
    requires Does(s.ops[id].job, Send) && s.ops[id].job.loaded != []
    requires Unanswered(s.sessions[s.ops[id].sid]) && WorkOk(s.ops[id].job, s.sessions[s.ops[id].sid].request)
    ensures ExitOk(Answered(s, id, SentBy(s, id)))
  {
    var sid := s.ops[id].sid;
    HeededBySend(s, id);
    ExitMoves(s, Answered(s, id, SentBy(s, id)), sid, Replied(s.sessions[sid], SentBy(s, id), s.next));
  }

  /** A block for "/shutdown" loads, arms the exit and sends. */
  lemma ShutdownLoadsFirst(w: Work)
    requires w.endpoint.Shutdown? && w.pc < |Program(w.endpoint)|
    ensures Program(w.endpoint)[w.pc].Load? <==> w.pc == 0
    ensures Program(w.endpoint)[w.pc].ArmExit? <==> w.pc == 1
    ensures Program(w.endpoint)[w.pc].Send? <==> w.pc == 2
  {
  }

  /** Only operation `id` is another one, and nothing that the exit depends on has changed. */
  ghost predicate OnlyMoves(s: Server, s': Server, id: OpId) {
    && s'.sessions == s.sessions && s'.exitArmed == s.exitArmed && s'.exited == s.exited
    && id in s'.ops && s'.ops == s.ops[id := s'.ops[id]]
  }

  lemma AskingKeeps(s: Server, id: OpId, call: R.Tid, openAnswer: Option<string>, updateAnswer: Option<string>,
                    s': Server)
    requires JobCanRun(s, id, call) && BlockGoes(s, id, call, openAnswer, updateAnswer, s')
    requires Does(s.ops[id].job, Complete) || Does(s.ops[id].job, Diagnose)
    ensures OnlyMoves(s, s', id)
  {
    assert s.ops == s.ops[id := s.ops[id]];
  }

  /** What an action that neither arms the exit nor sends leaves as it is. */
  lemma QuietActionKeeps(s: Server, id: OpId, call: R.Tid, openAnswer: Option<string>, updateAnswer: Option<string>,
                         s': Server)
    requires JobCanRun(s, id, call) && BlockGoes(s, id, call, openAnswer, updateAnswer, s')
    requires var w := s.ops[id].job; !Program(w.endpoint)[w.pc].ArmExit? && !Program(w.endpoint)[w.pc].Send?
    ensures OnlyMoves(s, s', id)
  {
    var w := s.ops[id].job;
    match Program(w.endpoint)[w.pc]
    case Load =>
    case Wait =>
    case Say(_) =>
    case _ => AskingKeeps(s, id, call, openAnswer, updateAnswer, s');
  }

  lemma QuietActionMovesOn(s: Server, id: OpId, call: R.Tid, openAnswer: Option<string>,
                           updateAnswer: Option<string>, s': Server)
    requires JobCanRun(s, id, call) && BlockGoes(s, id, call, openAnswer, updateAnswer, s')
    requires var w := s.ops[id].job;
             w.endpoint.Shutdown? && !Program(w.endpoint)[w.pc].ArmExit? && !Program(w.endpoint)[w.pc].Send?
    ensures id in s'.ops && !IsPastArming(s'.ops[id])
  {
    ShutdownLoadsFirst(s.ops[id].job);
    assert Program(s.ops[id].job.endpoint)[s.ops[id].job.pc] == Load;
  }

  lemma QuietActionOfAnother(s: Server, id: OpId, call: R.Tid, openAnswer: Option<string>,
                             updateAnswer: Option<string>, s': Server)
    requires JobCanRun(s, id, call) && BlockGoes(s, id, call, openAnswer, updateAnswer, s')
    requires var w := s.ops[id].job;
             !w.endpoint.Shutdown? && !Program(w.endpoint)[w.pc].ArmExit? && !Program(w.endpoint)[w.pc].Send?
    ensures id in s'.ops && !IsPastArming(s'.ops[id])
  {
    var w := s.ops[id].job;
    match Program(w.endpoint)[w.pc]
    case Load =>
    case Wait =>
    case Say(_) =>
    case Complete =>
    case Diagnose =>
  }

  lemma BlockKeepsExit(s: Server, id: OpId, call: R.Tid, openAnswer: Option<string>, updateAnswer: Option<string>,
                       s': Server)
    requires ExitOk(s) && JobCanRun(s, id, call) && !s.exited
    requires BlockGoes(s, id, call, openAnswer, updateAnswer, s')
    requires Unanswered(s.sessions[s.ops[id].sid]) && WorkOk(s.ops[id].job, s.sessions[s.ops[id].sid].request)
    ensures ExitOk(s')
  {
    var w := s.ops[id].job;
    if Program(w.endpoint)[w.pc].Send? {
      SendKeepsExit(s, id);
    } else if Program(w.endpoint)[w.pc].ArmExit? {
      OnlyShutdownArms(w);
      ArmingKeepsExit(s, id, s');
    } else {
      QuietActionKeeps(s, id, call, openAnswer, updateAnswer, s');
      if w.endpoint.Shutdown? {
        QuietActionMovesOn(s, id, call, openAnswer, updateAnswer, s');
      } else {
        QuietActionOfAnother(s, id, call, openAnswer, updateAnswer, s');
      }
      ExitStays(s, s');
    }
  }

  lemma OnlyShutdownArms(w: Work)
    requires w.pc < |Program(w.endpoint)| && Program(w.endpoint)[w.pc].ArmExit?
    ensures w.endpoint.Shutdown?
  {
  }

  /** A block for "/shutdown" sends only after it has armed the exit. */
  lemma HeededBySend(s: Server, id: OpId)
    requires ExitOk(s) && id in s.ops && s.ops[id].Job? && s.ops[id].sid in s.sessions
    requires Does(s.ops[id].job, Send) && s.ops[id].job.loaded != []
    requires Unanswered(s.sessions[s.ops[id].sid]) && WorkOk(s.ops[id].job, s.sessions[s.ops[id].sid].request)
    ensures IsHeeded(Replied(s.sessions[s.ops[id].sid], SentBy(s, id), s.next), s.exitArmed)
  {
    var session := s.sessions[s.ops[id].sid];
    assert IsHeeded(session, s.exitArmed);
    if session.request.url == "/shutdown" {
      assert IsPastArming(s.ops[id]);
    }
  }

  lemma ReadKeepsExit(s: Server, id: OpId)
    requires ExitOk(s) && Inv(s) && Enabled(s, OnRead(id))
    ensures ExitOk(OnReadStep(s, id))
  {
    OnlyOperation(s, id);
    var session := s.sessions[s.ops[id].sid];
    var outcome := AfterRead(s.ops[id].failed, session.request);
    HeededByRead(session, s.ops[id], outcome, s.next, s.exitArmed, WorldOf(s));
    HeededReadKeepsExit(s, id);
  }

  lemma HeededReadKeepsExit(s: Server, id: OpId)
    requires ExitOk(s) && Enabled(s, OnRead(id)) && s.sessions[s.ops[id].sid].current == Some(id)
    requires var session := s.sessions[s.ops[id].sid];
             var called := Called(session, AfterRead(s.ops[id].failed, session.request), s.next);
             IsHeeded(called, s.exitArmed) && called.received == session.received
    ensures ExitOk(OnReadStep(s, id))
  {
    OnReadIs(s, id);
    var session := s.sessions[s.ops[id].sid];
    var outcome := AfterRead(s.ops[id].failed, session.request);
    ExitMoves(s, OnReadStep(s, id), s.ops[id].sid, Called(session, outcome, s.next));
  }

  lemma HeededByRead(session: SessionState, op: Op, outcome: ReadOutcome, next: OpId, armed: bool, world: World)
    requires op.ReadDone? && outcome == AfterRead(op.failed, session.request) && PhaseOk(op, session, world)
    requires IsHeeded(session, armed)
    ensures IsHeeded(Called(session, outcome, next), armed)
    ensures Called(session, outcome, next).received == session.received
  {
  }

  lemma AcceptKeepsExit(s: Server, accepting: A.Step)
    requires ExitOk(s) && Inv(s) && !s.exited && A.Enabled(s.acceptor, accepting)
    ensures ExitOk(AcceptStep(s, accepting))
  {
    if accepting.StartSession? {
      var sid := s.acceptor.accepts[accepting.k].stage.sock.value;
      StartIsFresh(s, accepting);
      StartSessionIs(s.(acceptor := A.Take(s.acceptor, accepting)), sid);
      ExitMoves(s, AcceptStep(s, accepting), sid, NEW_SESSION.(current := Some(s.next)));
    } else {
      ExitStays(s, AcceptStep(s, accepting));
    }
  }

  lemma FinishKeepsExit(s: Server, id: OpId, failed: bool)
    requires ExitOk(s) && Inv(s) && Enabled(s, FinishRead(id, failed))
    ensures ExitOk(FinishReadStep(s, id, failed))
  {
    OnlyOperation(s, id);
    var s', session := FinishReadStep(s, id, failed), s.sessions[s.ops[id].sid];
    assert IsHeeded(session, s.exitArmed);
    if failed {
      ExitStays(s, s');
    } else {
      ExitMoves(s, s', s.ops[id].sid, s'.sessions[s.ops[id].sid]);
    }
  }

  lemma WriteKeepsExit(s: Server, id: OpId)
    requires ExitOk(s) && Enabled(s, OnWrite(id))
    ensures ExitOk(DoRead(End(s, id), s.ops[id].sid))
  {
    var sid := s.ops[id].sid;
    EndThenStart(s, id, Reading(sid));
    assert IsHeeded(s.sessions[sid], s.exitArmed);
    ExitMoves(s, DoRead(End(s, id), sid), sid, s.sessions[sid].(current := Some(s.next)));
  }

  lemma DiagnosisIsNoShutdown(s: Server, id: OpId)
    requires Inv(s) && id in s.ops && s.ops[id].Diagnosing?
    ensures !s.ops[id].job.endpoint.Shutdown?
  {
    OnlyOperation(s, id);
  }

  lemma FillKeepsExit(s: Server, id: OpId, request: Request)
    requires ExitOk(s) && Enabled(s, Fill(id, request))
    ensures ExitOk(Take(s, Fill(id, request)))
  {
    assert IsHeeded(s.sessions[s.ops[id].sid], s.exitArmed);
    ExitMoves(s, Take(s, Fill(id, request)), s.ops[id].sid, s.sessions[s.ops[id].sid].(request := request));
  }

  lemma JobKeepsExit(s: Server, id: OpId, call: R.Tid, openAnswer: Option<string>, updateAnswer: Option<string>)
    requires ExitOk(s) && Inv(s) && !s.exited && JobCanRun(s, id, call)
    ensures ExitOk(RunJobStep(s, id, call, openAnswer, updateAnswer))
  {
    JobFacts(s, id);
    BlockStepGoes(s, id, call, openAnswer, updateAnswer);
    BlockKeepsExit(s, id, call, openAnswer, updateAnswer, RunJobStep(s, id, call, openAnswer, updateAnswer));
  }

  lemma LeavingIs(s: Server, id: OpId)
    requires Enabled(s, LeaveCompleter(id))
    ensures var s' := LeaveCompleterStep(s, id);
            && s'.sessions == s.sessions && s'.exitArmed == s.exitArmed && s'.exited == s.exited
            && (forall k :: k in s'.ops && k != id ==> k in s.ops && s'.ops[k] == s.ops[k])
            && id in s'.ops && s'.ops[id].Job? && s'.ops[id].job.endpoint == s.ops[id].job.endpoint
  {
  }

  lemma LeaveKeepsExit(s: Server, id: OpId)
    requires ExitOk(s) && Inv(s) && !s.exited && Enabled(s, LeaveCompleter(id))
    ensures ExitOk(LeaveCompleterStep(s, id))
  {
    DiagnosisIsNoShutdown(s, id);
    LeavingIs(s, id);
    ExitStays(s, LeaveCompleterStep(s, id));
  }

  lemma OtherKeepsExit(s: Server, step: Step)
    requires ExitOk(s) && Enabled(s, step) && (step.FinishWrite? || step.InCompleter? || step.Exit?)
    ensures ExitOk(Take(s, step))
  {
    ExitStays(s, Take(s, step));
  }

  lemma StepKeepsExit(s: Server, step: Step)
    requires ExitOk(s) && Inv(s) && Enabled(s, step)
    ensures ExitOk(Take(s, step))
  {
    match step
    case InAcceptor(accepting) => AcceptKeepsExit(s, accepting);
    case Fill(id, request) => FillKeepsExit(s, id, request);
    case FinishRead(id, failed) => FinishKeepsExit(s, id, failed);
    case OnRead(id) => ReadKeepsExit(s, id);
    case RunJob(id, call, openAnswer, updateAnswer) => JobKeepsExit(s, id, call, openAnswer, updateAnswer);
    case LeaveCompleter(id) => LeaveKeepsExit(s, id);
    case FinishWrite(_, _) => OtherKeepsExit(s, step);
    case OnWrite(id) => WriteKeepsExit(s, id);
    case InCompleter(_) => OtherKeepsExit(s, step);
    case Exit => OtherKeepsExit(s, step);
  }

  lemma {:induction false} RunKeepsExit(s: Server, steps: seq<Step>)
    requires ExitOk(s) && Inv(s) && IsRun(s, steps)
    ensures ExitOk(After(s, steps))
    decreases |steps|
  {
    if steps != [] {
      StepKeepsExit(s, steps[0]);
      StepKeepsInv(s, steps[0]);
      RunKeepsExit(Take(s, steps[0]), steps[1..]);
    }
  }

  /**
   In every run the exit is armed, and the server exits, only after a request for "/shutdown" has been
   received; and once a response to such a request has been scheduled, the exit is armed.
   */
  lemma ExitIffShutdown(steps: seq<Step>)
    requires IsRun(INITIAL, steps)
    ensures var s := After(INITIAL, steps);
            && (s.exited ==> s.exitArmed)
            && (s.exitArmed ==> SomeoneAsked(s.sessions))
            && (forall sid :: sid in s.sessions ==> IsHeeded(s.sessions[sid], s.exitArmed))
  {
    InitiallyInv();
    RunKeepsExit(INITIAL, steps);
  }

  /** Once armed the exit can be made at any time, and nothing happens after it. */
  lemma ArmedCanExit(s: Server)
    requires IsUp(s)
    ensures Enabled(s, Exit) <==> s.exitArmed
    ensures s.exitArmed ==> Take(s, Exit).exited && forall step :: !Enabled(Take(s, Exit), step)
  {
  }
}
