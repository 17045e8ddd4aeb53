/**
 The whole server as a transition system: the accept loop, any number of sessions on any number of
 threads, the handler blocks on the global queue, and the diagnostics rendezvous they share.

 Every operation that has been started and has not finished is in `ops`.  Nothing in the rules
 keeps a session from having several of them; that it never has is what is proved.
 */
module HttpServer {
  import opened Wrappers
  import opened HttpSession
  import A = AcceptLoop
  import R = Rendezvous

  type Sid = A.Connection  // a session is named by the connection it was given
  type OpId = nat

  datatype Op =
    | Reading(sid: Sid)                    // async_read is filling the session's _request
    | ReadDone(sid: Sid, failed: bool)     // its completion waits on the session's strand
    | Job(sid: Sid, job: Work)             // a handler block, queued or running
    | Diagnosing(sid: Sid, job: Work, call: R.Tid)  // a handler block inside DiagnosticsForFile
    | Writing(sid: Sid, response: Response)
    | WriteDone(sid: Sid, failed: bool)

  /**
   A handler block: the next action of its program, every request that `session->request()` has returned
   on its behalf, and the body it has so far.  History: `source` is where the body is from, and `call`
   is the diagnostics call it has made.
   */
  datatype Work = Work(
    endpoint: Endpoint, pc: nat, loaded: seq<Request>, body: string, source: Option<nat>, call: Option<R.Tid>)

  /** A scheduled response; `source` and `call` as in `Work`, and `since` as in `SessionState`, are history. */
  datatype Sent = Sent(response: Response, source: Option<nat>, call: Option<R.Tid>, since: nat)

  /**
   Only `request` is the source's; the rest is history: the requests read and the responses
   scheduled so far, the operation started last (None once it is over), whether a read has failed,
   and how long the diagnostics log was when the last request had been received.
   */
  datatype SessionState = SessionState(
    request: Request, received: seq<Request>, replies: seq<Sent>, current: Option<OpId>, ended: bool, since: nat)

  /** History: one code completion, the request it was made for and SourceKit's two answers. */
  datatype Completion = Completion(request: Request, onOpen: Option<string>, onUpdate: Option<string>)

  datatype Server = Server(
    acceptor: A.Acceptor,
    sessions: map<Sid, SessionState>,
    ops: map<OpId, Op>,
    next: OpId,
    completer: R.State,
    completions: seq<Completion>,
    exitArmed: bool,
    exited: bool,
    aborted: bool)  // by a failed assertion

  const INITIAL := Server(A.INITIAL, map[], map[], 0, R.INITIAL, [], false, false, false)

  const EMPTY_RESULTS := "{ 'key.results':[] }"
  const EMPTY_DIAGNOSTICS := "{ 'key.diagnostics':[] }"

  datatype Step =
    | InAcceptor(accepting: A.Step)
    | Fill(id: OpId, request: Request)          // a read in flight stores what it has parsed so far
    | FinishRead(id: OpId, failed: bool)
    | OnRead(id: OpId)
    | RunJob(id: OpId, call: R.Tid, openAnswer: Option<string>, updateAnswer: Option<string>)
    | LeaveCompleter(id: OpId)
    | FinishWrite(id: OpId, failed: bool)
    | OnWrite(id: OpId)
    | InCompleter(inner: R.Step)
    | Exit

  // ----- Operations start and end.

  function Start(s: Server, op: Op): Server
    requires op.sid in s.sessions
  {
    s.(ops := s.ops[s.next := op],
       sessions := s.sessions[op.sid := s.sessions[op.sid].(current := Some(s.next))],
       next := s.next + 1)
  }

  function End(s: Server, id: OpId): Server
    requires id in s.ops && s.ops[id].sid in s.sessions
  {
    var session := s.sessions[s.ops[id].sid];
    s.(ops := s.ops - {id},
       sessions := s.sessions[s.ops[id].sid :=
         if session.current == Some(id) then session.(current := None) else session])
  }

  function Become(s: Server, id: OpId, op: Op): Server {
    s.(ops := s.ops[id := op])
  }

  function DoRead(s: Server, sid: Sid): Server
    requires sid in s.sessions
  {
    Start(s, Reading(sid))
  }

  function Write(s: Server, sid: Sid, sent: Sent): Server
    requires sid in s.sessions
  {
    var session := s.sessions[sid];
    Start(s.(sessions := s.sessions[sid := session.(replies := session.replies + [sent])]), Writing(sid, sent.response))
  }

  // ----- The steps.

  predicate IsUp(s: Server) {
    !s.exited && !s.aborted
  }

  predicate JobCanRun(s: Server, id: OpId, call: R.Tid) {
    && id in s.ops && s.ops[id].Job? && s.ops[id].sid in s.sessions
    && s.ops[id].job.pc < |Program(s.ops[id].job.endpoint)| && s.ops[id].job.loaded != []
    && call !in s.completer.handlers
  }

  predicate Enabled(s: Server, step: Step) {
    && IsUp(s)
    && match step
       case InAcceptor(accepting) => A.Enabled(s.acceptor, accepting)
       case Fill(id, _) => id in s.ops && s.ops[id].Reading? && s.ops[id].sid in s.sessions
       case FinishRead(id, _) => id in s.ops && s.ops[id].Reading? && s.ops[id].sid in s.sessions
       case OnRead(id) => id in s.ops && s.ops[id].ReadDone? && s.ops[id].sid in s.sessions
       case RunJob(id, call, _, _) => JobCanRun(s, id, call)
       case LeaveCompleter(id) =>
         && id in s.ops && s.ops[id].Diagnosing? && s.ops[id].call in s.completer.handlers
         && var stage := s.completer.handlers[s.ops[id].call].stage;
            stage.Returned? || stage.ReturnedEmpty?
       case FinishWrite(id, _) => id in s.ops && s.ops[id].Writing? && s.ops[id].sid in s.sessions
       case OnWrite(id) => id in s.ops && s.ops[id].WriteDone? && s.ops[id].sid in s.sessions
       case InCompleter(inner) => !inner.Request? && R.Enabled(s.completer, inner)
       case Exit => s.exitArmed
  }

  const NEW_SESSION := SessionState(NO_REQUEST, [], [], None, false, 0)

  /** The constructor of `Session`, and its `start`. */
  function StartSession(s: Server, sid: Sid): Server {
    DoRead(s.(sessions := s.sessions[sid := NEW_SESSION]), sid)
  }

  function AcceptStep(s: Server, accepting: A.Step): Server
    requires A.Enabled(s.acceptor, accepting)
  {
    var s' := s.(acceptor := A.Take(s.acceptor, accepting));
    if accepting.StartSession? && s.acceptor.accepts[accepting.k].stage.sock.Some?
    then StartSession(s', s.acceptor.accepts[accepting.k].stage.sock.value) else s'
  }

  function FinishReadStep(s: Server, id: OpId, failed: bool): Server
    requires id in s.ops && s.ops[id].sid in s.sessions
  {
    var sid := s.ops[id].sid;
    var session := s.sessions[sid];
    var s' := Become(s, id, ReadDone(sid, failed));
    if failed then s' else s'.(sessions := s.sessions[sid := session.(
      received := session.received + [session.request], since := |s.completer.history.log|)])
  }

  function OnReadStep(s: Server, id: OpId): Server
    requires id in s.ops && s.ops[id].ReadDone? && s.ops[id].sid in s.sessions
  {
    var sid := s.ops[id].sid;
    var s' := End(s, id);
    match AfterRead(s.ops[id].failed, s.sessions[sid].request)
    case Ends => s'.(sessions := s'.sessions[sid := s'.sessions[sid].(ended := true)])
    case Dispatches(endpoint, loaded) => Start(s', Job(sid, Work(endpoint, 0, [loaded], "", None, None)))
    case Replies(response) => Write(s', sid, Sent(response, None, None, s.sessions[sid].since))
  }

  /** The answer to codecomplete.update replaces that to codecomplete.open; an error answers nothing. */
  function CompletionBody(openAnswer: Option<string>, updateAnswer: Option<string>): string {
    var answer := if updateAnswer.Some? then updateAnswer else openAnswer;
    if answer.Some? then answer.value else EMPTY_RESULTS
  }

  function RunJobStep(s: Server, id: OpId, call: R.Tid, openAnswer: Option<string>,
                      updateAnswer: Option<string>): Server
    requires JobCanRun(s, id, call)
  {
    var sid, w := s.ops[id].sid, s.ops[id].job;
    var last, rest := w.loaded[|w.loaded| - 1], w.(pc := w.pc + 1);
    match Program(w.endpoint)[w.pc]
    case Load => Become(s, id, Job(sid, rest.(loaded := w.loaded + [s.sessions[sid].request])))
    case Wait => Become(s, id, Job(sid, rest))
    case ArmExit => Become(s, id, Job(sid, rest)).(exitArmed := true)
    case Say(text) => Become(s, id, Job(sid, rest.(body := text, source := None)))
    case Complete =>
      if CompletionAborts(last) then s.(aborted := true)
      else
        var body := CompletionBody(openAnswer, updateAnswer);
        Become(s, id, Job(sid, rest.(body := body, source := Some(|s.completions|)))).(
          completions := s.completions + [Completion(last, openAnswer, updateAnswer)])
    case Diagnose =>
      Become(s, id, Diagnosing(sid, rest.(call := Some(call)), call)).(
        completer := R.Take(s.completer, R.Request(call, last.fileName)))
    case Send =>
      var s' := Write(s, sid, Sent(Response(200, last.version, w.body), w.source, w.call, s.sessions[sid].since));
      if rest.pc == |Program(w.endpoint)| then End(s', id) else Become(s', id, Job(sid, rest))
  }

  function LeaveCompleterStep(s: Server, id: OpId): Server
    requires Enabled(s, LeaveCompleter(id))
  {
    var op := s.ops[id];
    var h := s.completer.handlers[op.call];
    Become(s, id, Job(op.sid,
      if h.stage.Returned? && h.reply.Some? then op.job.(body := h.reply.value, source := h.at)
      else op.job.(body := EMPTY_DIAGNOSTICS, source := None)))
  }

  function Take(s: Server, step: Step): Server
    requires Enabled(s, step)
  {
    match step
    case InAcceptor(accepting) => AcceptStep(s, accepting)
    case Fill(id, request) =>
      s.(sessions := s.sessions[s.ops[id].sid := s.sessions[s.ops[id].sid].(request := request)])
    case FinishRead(id, failed) => FinishReadStep(s, id, failed)
    case OnRead(id) => OnReadStep(s, id)
    case RunJob(id, call, openAnswer, updateAnswer) => RunJobStep(s, id, call, openAnswer, updateAnswer)
    case LeaveCompleter(id) => LeaveCompleterStep(s, id)
    case FinishWrite(id, failed) => Become(s, id, WriteDone(s.ops[id].sid, failed))
    case OnWrite(id) => DoRead(End(s, id), s.ops[id].sid)
    case InCompleter(inner) => s.(completer := R.Take(s.completer, inner))
    case Exit => s.(exited := true)
  }

  predicate IsRun(s: Server, steps: seq<Step>)
    decreases |steps|
  {
    steps == [] || (Enabled(s, steps[0]) && IsRun(Take(s, steps[0]), steps[1..]))
  }

  function After(s: Server, steps: seq<Step>): Server
    requires IsRun(s, steps)
    decreases |steps|
  {
    if steps == [] then s else After(Take(s, steps[0]), steps[1..])
  }
}
