/** The invariant of the server, and the proof that every step keeps it. */
module HttpServerProof {
  import opened Wrappers
  import opened EventLog
  import opened HttpSession
  import opened HttpServer
  import A = AcceptLoop
  import AT = AcceptLoopTheorems
  import R = Rendezvous
  import RP = RendezvousProof
  import RT = RendezvousTheorems

  // ----- Which response answers which request.

  /** What the responses are judged by: the diagnostics calls, the log of the channel, and the completions. */
  datatype World = World(handlers: map<R.Tid, R.Handler>, log: Log, completions: seq<Completion>)

  function WorldOf(s: Server): World {
    World(s.completer.handlers, s.completer.history.log, s.completions)
  }

  /** SourceKit's answer to the update, or else to the open request, or else the empty result. */
  ghost predicate CompletionOk(request: Request, body: string, source: Option<nat>, completions: seq<Completion>) {
    && source.Some? && source.value < |completions|
    && var made := completions[source.value];
    && request.contents != "" && made.request == request
    && (made.onUpdate.Some? ==> body == made.onUpdate.value)
    && (made.onUpdate.None? && made.onOpen.Some? ==> body == made.onOpen.value)
    && (made.onUpdate.None? && made.onOpen.None? ==> body == "{ 'key.results':[] }")
  }

  /** The empty result if the block's own call returned that, and otherwise the reply of this very call. */
  ghost predicate DiagnosticsOk(request: Request, body: string, source: Option<nat>, call: Option<R.Tid>, since: nat,
                                handlers: map<R.Tid, R.Handler>, log: Log) {
    && call.Some? && call.value in handlers
    && var h := handlers[call.value];
    && h.file == request.fileName && (h.stage.ReturnedEmpty? || h.stage.Returned?)
    && (h.stage.ReturnedEmpty? ==> source.None? && body == "{ 'key.diagnostics':[] }")
    && (h.stage.Returned? ==>
          && h.reply == Some(body) && h.at == source && source.Some? && since <= source.value
          && PublishedAfter(log, source.value, request.fileName, body))
  }

  /** The body is the one that the endpoint promises for this very request. */
  ghost predicate BodyOk(endpoint: Endpoint, request: Request, body: string, source: Option<nat>,
                         call: Option<R.Tid>, since: nat, world: World) {
    match endpoint
    case Status => body == ""
    case Shutdown => body == ""
    case SlowTest => body == "Hello World"
    case Completions => CompletionOk(request, body, source, world.completions)
    case Diagnostics => DiagnosticsOk(request, body, source, call, since, world.handlers, world.log)
  }

  /** The first publication for `file` after its registration at position `i` carries `body`. */
  ghost predicate PublishedAfter(log: Log, i: nat, file: string, body: string) {
    && IsRegistration(log, i) && log[i].key == file
    && exists j: nat :: FirstAfter(log, i, j) && log[j].value == body
  }

  ghost predicate Answers(request: Request, sent: Sent, world: World) {
    if request.url !in ENDPOINTS then sent.response == NotFoundResponse(request)
    else
      && sent.response.status == 200
      && sent.response.version == request.version
      && BodyOk(ENDPOINTS[request.url], request, sent.response.body, sent.source, sent.call, sent.since, world)
  }

  /**
   No call goes away or changes its file, one that has registered since did so beyond the log, and
   one that has returned stays as it is.
   */
  ghost predicate CallsGoOn(handlers: map<R.Tid, R.Handler>, log: Log, handlers': map<R.Tid, R.Handler>) {
    forall t :: t in handlers ==> CallGoesOn(handlers, log, handlers', t)
  }

  ghost predicate CallGoesOn(handlers: map<R.Tid, R.Handler>, log: Log, handlers': map<R.Tid, R.Handler>, t: R.Tid)
    requires t in handlers
  {
    && t in handlers' && handlers'[t].file == handlers[t].file
    && (handlers'[t].at == handlers[t].at || (handlers'[t].at.Some? && handlers'[t].at.value >= |log|))
    && (handlers[t].stage.Returned? || handlers[t].stage.ReturnedEmpty? ==> handlers'[t] == handlers[t])
  }

  ghost predicate IsLater(world: World, world': World) {
    && world.log <= world'.log && world.completions <= world'.completions
    && CallsGoOn(world.handlers, world.log, world'.handlers)
  }

  lemma AnswersStay(request: Request, sent: Sent, world: World, world': World)
    requires Answers(request, sent, world) && IsLater(world, world')
    ensures Answers(request, sent, world')
  {
    if request.url in ENDPOINTS {
      BodyStays(ENDPOINTS[request.url], request, sent.response.body, sent.source, sent.call, sent.since, world, world');
    }
  }

  lemma BodyStays(endpoint: Endpoint, request: Request, body: string, source: Option<nat>, call: Option<R.Tid>,
                  since: nat, world: World, world': World)
    requires BodyOk(endpoint, request, body, source, call, since, world) && IsLater(world, world')
    ensures BodyOk(endpoint, request, body, source, call, since, world')
  {
    if endpoint.Diagnostics? && world.handlers[call.value].stage.Returned? {
      var j: nat :| FirstAfter(world.log, source.value, j) && world.log[j].value == body;
      assert FirstAfter(world'.log, source.value, j);
    }
  }

  // ----- The invariant.

  /** From which action on the block has its body. */
  function BodyFrom(endpoint: Endpoint): nat {
    match endpoint
    case Status => 0
    case Shutdown => 0
    case Completions => 2
    case Diagnostics => 2
    case SlowTest => 4
  }

  /** A block works for `request`: every request it has been shown is that one. */
  ghost predicate WorkOk(w: Work, request: Request) {
    && request.url in ENDPOINTS && ENDPOINTS[request.url] == w.endpoint
    && w.pc < |Program(w.endpoint)|
    && w.loaded != [] && (forall k :: 0 <= k < |w.loaded| ==> w.loaded[k] == request)
    && (w.pc < BodyFrom(w.endpoint) ==> w.body == "")
  }

  ghost predicate PhaseOk(op: Op, session: SessionState, world: World) {
    match op
    case Reading(_) => |session.received| == |session.replies|
    case ReadDone(_, failed) => if failed then |session.received| == |session.replies| else Unanswered(session)
    case Job(_, w) =>
      && Unanswered(session) && WorkOk(w, session.request)
      && (w.pc >= BodyFrom(w.endpoint) ==>
            BodyOk(w.endpoint, session.request, w.body, w.source, w.call, session.since, world))
    case Diagnosing(_, w, call) =>
      && Unanswered(session) && WorkOk(w, session.request)
      && w.endpoint.Diagnostics? && w.pc == BodyFrom(w.endpoint)
      && w.call == Some(call)
      && call in world.handlers && world.handlers[call].file == session.request.fileName
      && session.since <= |world.log|
      && (world.handlers[call].at.Some? ==> session.since <= world.handlers[call].at.value)
    case Writing(_, _) => |session.received| == |session.replies|
    case WriteDone(_, _) => |session.received| == |session.replies|
  }

  /** The session's last request is still in `_request`, and it is the only one without a response. */
  ghost predicate Unanswered(session: SessionState) {
    && |session.received| == |session.replies| + 1
    && session.request == session.received[|session.received| - 1]
  }

  /** Operations and sessions agree on who is doing what. */
  ghost predicate Book(sessions: map<Sid, SessionState>, ops: map<OpId, Op>, next: OpId) {
    && (forall id :: id in ops ==>
          id < next && ops[id].sid in sessions && sessions[ops[id].sid].current == Some(id))
    && (forall sid :: sid in sessions && sessions[sid].current.Some? ==>
          sessions[sid].current.value in ops && ops[sessions[sid].current.value].sid == sid)
    && (forall sid :: sid in sessions ==> (sessions[sid].current.None? <==> sessions[sid].ended))
  }

  ghost predicate Phases(sessions: map<Sid, SessionState>, ops: map<OpId, Op>,
                         world: World) {
    forall id :: id in ops ==>
      ops[id].sid in sessions && PhaseOk(ops[id], sessions[ops[id].sid], world)
  }

  ghost predicate SessionOk(session: SessionState, world: World) {
    && |session.replies| <= |session.received| && session.since <= |world.log|
    && (forall k :: 0 <= k < |session.replies| ==> Answers(session.received[k], session.replies[k], world))
    && (session.ended ==> |session.received| == |session.replies|)
  }

  ghost predicate SessionsOk(sessions: map<Sid, SessionState>, world: World) {
    forall sid :: sid in sessions ==> SessionOk(sessions[sid], world)
  }

  /** There is a session for each connection that the accept loop has started one on. */
  ghost predicate AcceptorOk(acceptor: A.Acceptor, sessions: map<Sid, SessionState>) {
    AT.Inv(acceptor) && sessions.Keys == acceptor.started
  }

  ghost predicate Inv(s: Server) {
    Serves(s) && AcceptorOk(s.acceptor, s.sessions) && RP.Inv(s.completer)
  }

  lemma InitiallyInv()
    ensures Inv(INITIAL)
  {
    AT.InitiallyInv();
    RP.InitiallyInv();
  }

  // ----- A step concerns one session.

  /** Outside session `sid`, the operations are the same. */
  ghost predicate SameElsewhere(ops: map<OpId, Op>, ops': map<OpId, Op>, sid: Sid) {
    && (forall k :: k in ops && ops[k].sid != sid ==> k in ops' && ops'[k] == ops[k])
    && (forall k :: k in ops' && ops'[k].sid != sid ==> k in ops && ops'[k] == ops[k])
  }

  lemma BookMoves(sessions: map<Sid, SessionState>, ops: map<OpId, Op>, next: OpId,
                  sid: Sid, session: SessionState, ops': map<OpId, Op>, next': OpId)
    requires Book(sessions, ops, next) && SameElsewhere(ops, ops', sid) && next <= next'
    requires forall k :: k in ops' && ops'[k].sid == sid ==> k < next' && session.current == Some(k)
    requires session.current.Some? ==> session.current.value in ops' && ops'[session.current.value].sid == sid
    requires session.current.None? <==> session.ended
    ensures Book(sessions[sid := session], ops', next')
  {
  }

  lemma PhasesMove(sessions: map<Sid, SessionState>, ops: map<OpId, Op>, world: World,
                   sid: Sid, session: SessionState, ops': map<OpId, Op>)
    requires Phases(sessions, ops, world) && SameElsewhere(ops, ops', sid)
    requires forall k :: k in ops' && ops'[k].sid == sid ==> PhaseOk(ops'[k], session, world)
    ensures Phases(sessions[sid := session], ops', world)
  {
  }

  /** Nothing that is already there is spoilt by a longer log, more completions or later handler stages. */
  lemma PhaseStays(op: Op, session: SessionState, world: World,
                   world': World)
    requires PhaseOk(op, session, world) && IsLater(world, world')
    ensures PhaseOk(op, session, world')
  {
    if op.Job? && op.job.pc >= BodyFrom(op.job.endpoint) {
      var w := op.job;
      BodyStays(w.endpoint, session.request, w.body, w.source, w.call, session.since, world, world');
    }
  }

  lemma HistoryGrows(sessions: map<Sid, SessionState>, ops: map<OpId, Op>,
                     world: World,
                     world': World)
    requires Phases(sessions, ops, world) && SessionsOk(sessions, world)
    requires IsLater(world, world')
    ensures Phases(sessions, ops, world') && SessionsOk(sessions, world')
  {
    forall id | id in ops
      ensures PhaseOk(ops[id], sessions[ops[id].sid], world')
    {
      PhaseStays(ops[id], sessions[ops[id].sid], world, world');
    }
    forall sid | sid in sessions
      ensures SessionOk(sessions[sid], world')
    {
      forall k | 0 <= k < |sessions[sid].replies|
        ensures Answers(sessions[sid].received[k], sessions[sid].replies[k], world')
      {
        AnswersStay(sessions[sid].received[k], sessions[sid].replies[k], world, world');
      }
    }
  }

  lemma HandlerGoesOn(c: R.State, t: R.Tid, answered: bool, addr: R.Address, u: R.Tid)
    requires R.HandlerCanRun(c, t, addr) && u in c.handlers
    ensures var c' := R.HandlerStep(c, t, answered, addr);
            && u in c'.handlers && c'.handlers[u].file == c.handlers[u].file
            && (c'.handlers[u].at == c.handlers[u].at || c'.handlers[u].at == Some(|c.history.log|))
            && (u != t ==> c'.handlers[u] == c.handlers[u])
  {
    if u == t {
      RT.OwnFileStays(c, t, answered, addr);
      RT.RegistersLater(c, t, answered, addr);
    } else {
      RP.OtherHandlersStay(c, t, answered, addr, u);
    }
  }

  lemma HandlerCallsGoOn(c: R.State, t: R.Tid, answered: bool, addr: R.Address)
    requires R.HandlerCanRun(c, t, addr)
    ensures CallsGoOn(c.handlers, c.history.log, R.HandlerStep(c, t, answered, addr).handlers)
  {
    assert !c.handlers[t].stage.Returned? && !c.handlers[t].stage.ReturnedEmpty?;
    forall u | u in c.handlers
      ensures CallGoesOn(c.handlers, c.history.log, R.HandlerStep(c, t, answered, addr).handlers, u)
    {
      HandlerGoesOn(c, t, answered, addr, u);
    }
  }

  /** The log only grows, and no handler goes away or changes its file. */
  lemma CompleterMovesOn(c: R.State, step: R.Step)
    requires R.Enabled(c, step)
    ensures var c' := R.Take(c, step);
            c.history.log <= c'.history.log && CallsGoOn(c.handlers, c.history.log, c'.handlers)
  {
    match step
    case RunHandler(t, answered, addr) =>
      RP.HandlerFrame(c, t, answered, addr);
      HandlerCallsGoOn(c, t, answered, addr);
    case RunNotification(t, reply) => RP.NotificationFrame(c, t, reply);
    case _ =>
  }

  // ----- The steps.

  /** Session `sid` and its operations are as they should be. */
  ghost predicate LocalOk(sid: Sid, session: SessionState, ops: map<OpId, Op>, next: OpId,
                          world: World) {
    && (forall k :: k in ops && ops[k].sid == sid ==>
          k < next && session.current == Some(k) && PhaseOk(ops[k], session, world))
    && (session.current.Some? ==> session.current.value in ops && ops[session.current.value].sid == sid)
    && (session.current.None? <==> session.ended)
    && SessionOk(session, world)
  }

  /** All but the count of accepted connections. */
  ghost predicate Serves(s: Server) {
    AllServed(s.sessions, s.ops, s.next, WorldOf(s))
  }

  ghost predicate AllServed(sessions: map<Sid, SessionState>, ops: map<OpId, Op>, next: OpId, world: World) {
    Book(sessions, ops, next) && Phases(sessions, ops, world) && SessionsOk(sessions, world)
  }

  lemma OneSessionServed(sessions: map<Sid, SessionState>, ops: map<OpId, Op>, next: OpId, world: World,
                         sid: Sid, session: SessionState, ops': map<OpId, Op>, next': OpId)
    requires AllServed(sessions, ops, next, world) && SameElsewhere(ops, ops', sid) && next <= next'
    requires LocalOk(sid, session, ops', next', world)
    ensures AllServed(sessions[sid := session], ops', next', world)
  {
    BookMoves(sessions, ops, next, sid, session, ops', next');
    PhasesMove(sessions, ops, world, sid, session, ops');
  }

  /** `s` with another state of session `sid`, and other operations. */
  function Moved(s: Server, sid: Sid, session: SessionState, ops: map<OpId, Op>, next: OpId): Server {
    s.(sessions := s.sessions[sid := session], ops := ops, next := next)
  }

  lemma OneSessionMoves(s: Server, sid: Sid, session: SessionState, ops: map<OpId, Op>, next: OpId)
    requires Serves(s) && SameElsewhere(s.ops, ops, sid) && s.next <= next
    requires LocalOk(sid, session, ops, next, WorldOf(s))
    ensures Serves(Moved(s, sid, session, ops, next))
  {
    OneSessionServed(s.sessions, s.ops, s.next, WorldOf(s), sid, session, ops, next);
    assert WorldOf(Moved(s, sid, session, ops, next)) == WorldOf(s);
  }

  /** A session is started on a connection that has none. */
  lemma StartIsFresh(s: Server, accepting: A.Step)
    requires AcceptorOk(s.acceptor, s.sessions) && A.Enabled(s.acceptor, accepting) && accepting.StartSession?
    ensures var sock := s.acceptor.accepts[accepting.k].stage.sock;
            sock.Some? && sock.value !in s.sessions
                && A.Take(s.acceptor, accepting).started == s.acceptor.started + {sock.value}
  {
    assert AT.AcceptOk(s.acceptor.accepts[accepting.k], s.acceptor.socket);
    assert AT.DeliveryOk(s.acceptor.accepts[accepting.k], s.acceptor);
  }

  lemma AcceptServes(s: Server, accepting: A.Step)
    requires Serves(s) && AcceptorOk(s.acceptor, s.sessions) && A.Enabled(s.acceptor, accepting)
    ensures Serves(AcceptStep(s, accepting))
  {
    if accepting.StartSession? {
      StartIsFresh(s, accepting);
      var s' := s.(acceptor := A.Take(s.acceptor, accepting));
      StartSessionIs(s', s.acceptor.accepts[accepting.k].stage.sock.value);
      NewSessionServes(s', s.acceptor.accepts[accepting.k].stage.sock.value);
    }
  }

  lemma StartSessionIs(s: Server, sid: Sid)
    ensures StartSession(s, sid)
              == s.(sessions := s.sessions[sid := NEW_SESSION.(current := Some(s.next))],
                    ops := s.ops[s.next := Reading(sid)], next := s.next + 1)
  {
    var started := NEW_SESSION.(current := Some(s.next));
    assert s.sessions[sid := NEW_SESSION][sid := started] == s.sessions[sid := started];
  }

  lemma NewSessionServes(s: Server, sid: Sid)
    requires Serves(s) && sid !in s.sessions
    ensures Serves(s.(sessions := s.sessions[sid := NEW_SESSION.(current := Some(s.next))],
                      ops := s.ops[s.next := Reading(sid)], next := s.next + 1))
  {
    var session := NEW_SESSION.(current := Some(s.next));
    var ops := s.ops[s.next := Reading(sid)];
    assert s.next !in s.ops;
    assert forall k :: k in s.ops ==> s.ops[k].sid != sid;
    OneSessionMoves(s, sid, session, ops, s.next + 1);
  }

  lemma FillServes(s: Server, id: OpId, request: Request)
    requires Serves(s) && Enabled(s, Fill(id, request))
    ensures Serves(Take(s, Fill(id, request)))
  {
    var sid := s.ops[id].sid;
    OneSessionMoves(s, sid, s.sessions[sid].(request := request), s.ops, s.next);
  }

  /** The session's one operation is `k`. */
  lemma OneOperationIsLocal(sid: Sid, session: SessionState, ops: map<OpId, Op>, k: OpId, next: OpId,
                            world: World)
    requires k in ops && ops[k].sid == sid && k < next && forall j :: j in ops && ops[j].sid == sid ==> j == k
    requires session.current == Some(k) && !session.ended
    requires PhaseOk(ops[k], session, world) && SessionOk(session, world)
    ensures LocalOk(sid, session, ops, next, world)
  {
  }

  lemma OnlyOperation(s: Server, id: OpId)
    requires Serves(s) && id in s.ops
    ensures s.ops[id].sid in s.sessions && id < s.next && s.next !in s.ops
    ensures forall k :: k in s.ops && s.ops[k].sid == s.ops[id].sid ==> k == id
    ensures var session := s.sessions[s.ops[id].sid];
            && session.current == Some(id) && !session.ended
            && PhaseOk(s.ops[id], session, WorldOf(s))
            && SessionOk(session, WorldOf(s))
  {
  }

  lemma ReadIsReceived(session: SessionState, world: World)
    requires SessionOk(session, world) && |session.received| == |session.replies| && !session.ended
    ensures var session' := session.(received := session.received + [session.request], since := |world.log|);
            Unanswered(session') && SessionOk(session', world)
  {
  }

  lemma FinishReadServes(s: Server, id: OpId, failed: bool)
    requires Serves(s) && Enabled(s, FinishRead(id, failed))
    ensures Serves(FinishReadStep(s, id, failed))
  {
    var sid, world := s.ops[id].sid, WorldOf(s);
    var session := s.sessions[sid];
    var ops := s.ops[id := ReadDone(sid, failed)];
    OnlyOperation(s, id);
    ReadIsReceived(session, world);
    var session' := if failed then session
                    else session.(received := session.received + [session.request], since := |world.log|);
    OneOperationIsLocal(sid, session', ops, id, s.next, world);
    OneSessionMoves(s, sid, session', ops, s.next);
    assert s.sessions == s.sessions[sid := session];
  }

  /** `s` once operation `id` is over and `op` has been started, which leaves its session as `session`. */
  function Replaced(s: Server, id: OpId, session: SessionState, op: Op): Server {
    Moved(s, op.sid, session, (s.ops - {id})[s.next := op], s.next + 1)
  }

  /** The operation is over and, when `op` is given, another one has been started in its place. */
  lemma OperationReplaced(s: Server, id: OpId, session: SessionState, op: Op)
    requires Serves(s) && id in s.ops && op.sid == s.ops[id].sid
    requires session.current == Some(s.next) && !session.ended
    requires PhaseOk(op, session, WorldOf(s))
    requires SessionOk(session, WorldOf(s))
    ensures Serves(Replaced(s, id, session, op))
  {
    var ops := (s.ops - {id})[s.next := op];
    OnlyOperation(s, id);
    OneOperationIsLocal(op.sid, session, ops, s.next, s.next + 1, WorldOf(s));
    OneSessionServed(s.sessions, s.ops, s.next, WorldOf(s), op.sid, session, ops, s.next + 1);
    assert WorldOf(Replaced(s, id, session, op)) == WorldOf(s);
  }

  lemma FailedReadServes(s: Server, id: OpId)
    requires Serves(s) && id in s.ops && s.ops[id].ReadDone? && s.ops[id].sid in s.sessions && s.ops[id].failed
    ensures Serves(OnReadStep(s, id))
  {
    var sid := s.ops[id].sid;
    var session, s' := s.sessions[sid].(current := None, ended := true), OnReadStep(s, id);
    OneSessionMoves(s, sid, session, s.ops - {id}, s.next);
    assert s'.sessions == s.sessions[sid := session];
  }

  /** An operation ends and another of the same session starts. */
  lemma EndThenStart(s: Server, id: OpId, op: Op)
    requires id in s.ops && op.sid == s.ops[id].sid && op.sid in s.sessions
    ensures Start(End(s, id), op) == Replaced(s, id, s.sessions[op.sid].(current := Some(s.next)), op)
  {
    assert Start(End(s, id), op).sessions == s.sessions[op.sid := s.sessions[op.sid].(current := Some(s.next))];
  }

  /** The session once `sent` has been scheduled as operation `next`. */
  function Replied(session: SessionState, sent: Sent, next: OpId): SessionState {
    session.(current := Some(next), replies := session.replies + [sent])
  }

  /** `s` once operation `id` is over and `sent` has been scheduled for its session. */
  function Answered(s: Server, id: OpId, sent: Sent): Server
    requires id in s.ops && s.ops[id].sid in s.sessions
  {
    var sid := s.ops[id].sid;
    Replaced(s, id, Replied(s.sessions[sid], sent, s.next), Writing(sid, sent.response))
  }

  lemma EndThenWrite(s: Server, id: OpId, sent: Sent)
    requires id in s.ops && s.ops[id].sid in s.sessions
    ensures Write(End(s, id), s.ops[id].sid, sent) == Answered(s, id, sent)
  {
    var sid := s.ops[id].sid;
    assert Write(End(s, id), sid, sent).sessions == s.sessions[sid := Replied(s.sessions[sid], sent, s.next)];
  }

  lemma WriteThenEnd(s: Server, id: OpId, sent: Sent)
    requires id in s.ops && id < s.next && s.ops[id].sid in s.sessions
    ensures End(Write(s, s.ops[id].sid, sent), id) == Answered(s, id, sent)
  {
    var sid, s' := s.ops[id].sid, End(Write(s, s.ops[id].sid, sent), id);
    assert s'.sessions == s.sessions[sid := Replied(s.sessions[sid], sent, s.next)];
    assert s'.ops == (s.ops - {id})[s.next := Writing(sid, sent.response)];
  }

  /** What a finished read, seen by its callback, says of its session. */
  lemma ReadFacts(s: Server, id: OpId)
    requires Serves(s) && id in s.ops && s.ops[id].ReadDone? && !s.ops[id].failed
    ensures s.ops[id].sid in s.sessions
    ensures var session := s.sessions[s.ops[id].sid];
            Unanswered(session) && !session.ended && SessionOk(session, WorldOf(s))
  {
  }

  lemma DispatchServes(s: Server, id: OpId)
    requires Serves(s) && id in s.ops && s.ops[id].ReadDone? && s.ops[id].sid in s.sessions && !s.ops[id].failed
    requires s.sessions[s.ops[id].sid].request.url in ENDPOINTS
    ensures Serves(OnReadStep(s, id))
  {
    ReadFacts(s, id);
    var sid := s.ops[id].sid;
    var session := s.sessions[sid].(current := Some(s.next));
    var op := Job(sid, Work(ENDPOINTS[session.request.url], 0, [session.request], "", None, None));
    EndThenStart(s, id, op);
    OperationReplaced(s, id, session, op);
  }

  lemma NotFoundServes(s: Server, id: OpId)
    requires Serves(s) && id in s.ops && s.ops[id].ReadDone? && s.ops[id].sid in s.sessions && !s.ops[id].failed
    requires s.sessions[s.ops[id].sid].request.url !in ENDPOINTS
    ensures Serves(OnReadStep(s, id))
  {
    ReadFacts(s, id);
    var sid := s.ops[id].sid;
    var sent := Sent(NotFoundResponse(s.sessions[sid].request), None, None, s.sessions[sid].since);
    EndThenWrite(s, id, sent);
    ReplyIsInOrder(s.sessions[sid], Replied(s.sessions[sid], sent, s.next), sent, WorldOf(s));
    WrittenServes(s, id, sent);
  }

  /** The operation is over, and the response that its session owed has been scheduled. */
  lemma WrittenServes(s: Server, id: OpId, sent: Sent)
    requires Serves(s) && id in s.ops && s.ops[id].sid in s.sessions
    requires var session := Replied(s.sessions[s.ops[id].sid], sent, s.next);
             !session.ended && |session.received| == |session.replies| && SessionOk(session, WorldOf(s))
    ensures Serves(Answered(s, id, sent))
  {
    var sid := s.ops[id].sid;
    OperationReplaced(s, id, Replied(s.sessions[sid], sent, s.next), Writing(sid, sent.response));
  }

  lemma OnReadServes(s: Server, id: OpId)
    requires Serves(s) && id in s.ops && s.ops[id].ReadDone? && s.ops[id].sid in s.sessions
    ensures Serves(OnReadStep(s, id))
  {
    if s.ops[id].failed {
      FailedReadServes(s, id);
    } else if s.sessions[s.ops[id].sid].request.url in ENDPOINTS {
      DispatchServes(s, id);
    } else {
      NotFoundServes(s, id);
    }
  }

  lemma OnWriteServes(s: Server, id: OpId)
    requires Serves(s) && id in s.ops && s.ops[id].WriteDone? && s.ops[id].sid in s.sessions
    ensures Serves(DoRead(End(s, id), s.ops[id].sid))
  {
    var sid := s.ops[id].sid;
    EndThenStart(s, id, Reading(sid));
    OperationReplaced(s, id, s.sessions[sid].(current := Some(s.next)), Reading(sid));
  }

  /** The operation goes on, as `op`; the session is as it was. */
  lemma OperationGoesOn(s: Server, id: OpId, op: Op)
    requires Serves(s) && id in s.ops && op.sid == s.ops[id].sid
    requires PhaseOk(op, s.sessions[op.sid], WorldOf(s))
    ensures Serves(Become(s, id, op))
  {
    OnlyOperation(s, id);
    OneOperationIsLocal(op.sid, s.sessions[op.sid], s.ops[id := op], id, s.next,
                        WorldOf(s));
    OneSessionMoves(s, op.sid, s.sessions[op.sid], s.ops[id := op], s.next);
    assert s.sessions == s.sessions[op.sid := s.sessions[op.sid]];
  }

  lemma LeaveServes(s: Server, id: OpId)
    requires Serves(s) && Enabled(s, LeaveCompleter(id)) && RP.Inv(s.completer)
    ensures Serves(LeaveCompleterStep(s, id))
  {
    var op := s.ops[id];
    CallIsOver(s.completer, op.call);
    LeftWithBody(s, id);
    OperationGoesOn(s, id, LeaveCompleterStep(s, id).ops[id]);
  }

  lemma LeftWithBody(s: Server, id: OpId)
    requires Serves(s) && Enabled(s, LeaveCompleter(id))
    requires HasEnded(s.completer, s.ops[id].call)
    ensures var op := LeaveCompleterStep(s, id).ops[id];
            op.sid == s.ops[id].sid
            && PhaseOk(op, s.sessions[op.sid], WorldOf(s))
  {
  }

  /** A call that has returned, with what `PublishedAfter` asks for, or has returned the empty result. */
  ghost predicate HasEnded(c: R.State, t: R.Tid) {
    && t in c.handlers
    && var h := c.handlers[t];
    && (h.stage.Returned? ==>
          h.at.Some? && h.reply.Some? && PublishedAfter(c.history.log, h.at.value, h.file, h.reply.value))
  }

  lemma CallIsOver(c: R.State, t: R.Tid)
    requires RP.Inv(c) && t in c.handlers
    ensures HasEnded(c, t)
  {
    var h := c.handlers[t];
    if h.stage.Returned? {
      RT.BoardMeaning(c, h.at.value);
    }
  }

  // ----- The actions of a handler block.

  predicate Does(w: Work, action: Action) {
    w.pc < |Program(w.endpoint)| && Program(w.endpoint)[w.pc] == action
  }

  /** Only the last action sends, so after any other there is one left to do. */
  lemma OnlyTheLastSends(w: Work)
    requires w.pc < |Program(w.endpoint)|
    ensures Program(w.endpoint)[w.pc].Send? <==> w.pc + 1 == |Program(w.endpoint)|
    ensures w.pc >= BodyFrom(w.endpoint) || !Program(w.endpoint)[w.pc].Send?
  {
  }

  /** Where in a program each action that makes a body stands. */
  lemma WhoMakesTheBody(w: Work)
    requires w.pc < |Program(w.endpoint)|
    ensures var action := Program(w.endpoint)[w.pc];
            && (action.Complete? ==> w.endpoint.Completions? && w.pc + 1 == BodyFrom(w.endpoint))
            && (action.Diagnose? ==> w.endpoint.Diagnostics? && w.pc + 1 == BodyFrom(w.endpoint))
            && (action.Say? ==>
                  w.endpoint.SlowTest? && w.pc + 1 == BodyFrom(w.endpoint) && action.text == "Hello World")
            && (w.pc + 1 == BodyFrom(w.endpoint) ==> action.Complete? || action.Diagnose? || action.Say?)
  {
  }

  /** Facts about a block that is about to run. */
  lemma JobFacts(s: Server, id: OpId)
    requires Serves(s) && id in s.ops && s.ops[id].Job?
    ensures var sid, w := s.ops[id].sid, s.ops[id].job;
            && sid in s.sessions && s.sessions[sid].current == Some(id) && id < s.next && !s.sessions[sid].ended
            && Unanswered(s.sessions[sid]) && WorkOk(w, s.sessions[sid].request)
            && (w.pc >= BodyFrom(w.endpoint) ==>
                  BodyOk(w.endpoint, s.sessions[sid].request, w.body, w.source, w.call, s.sessions[sid].since,
                         WorldOf(s)))
            && SessionOk(s.sessions[sid], WorldOf(s))
  {
  }

  lemma QuietActionServes(s: Server, id: OpId, w': Work)
    requires Serves(s) && id in s.ops && s.ops[id].Job?
    requires s.ops[id].job.pc < |Program(s.ops[id].job.endpoint)|
    requires var w := s.ops[id].job;
             var action := Program(w.endpoint)[w.pc];
             && (action.Load? || action.Wait? || action.ArmExit?)
             && w'.(loaded := w.loaded) == w.(pc := w.pc + 1)
             && s.ops[id].sid in s.sessions
             && (w'.loaded == w.loaded || w'.loaded == w.loaded + [s.sessions[s.ops[id].sid].request])
    ensures Serves(Become(s, id, Job(s.ops[id].sid, w')))
  {
    JobFacts(s, id);
    OnlyTheLastSends(s.ops[id].job);
    WhoMakesTheBody(s.ops[id].job);
    OperationGoesOn(s, id, Job(s.ops[id].sid, w'));
  }

  lemma SayServes(s: Server, id: OpId, text: string)
    requires Serves(s) && id in s.ops && s.ops[id].Job? && Does(s.ops[id].job, Say(text))
    ensures var w := s.ops[id].job;
            Serves(Become(s, id, Job(s.ops[id].sid, w.(pc := w.pc + 1, body := text, source := None))))
  {
    var w := s.ops[id].job;
    JobFacts(s, id);
    OnlyTheLastSends(w);
    WhoMakesTheBody(w);
    OperationGoesOn(s, id, Job(s.ops[id].sid, w.(pc := w.pc + 1, body := text, source := None)));
  }

  /** `s` once the block has its completion. */
  function Completed(s: Server, id: OpId, openAnswer: Option<string>, updateAnswer: Option<string>): Server
    requires id in s.ops && s.ops[id].Job? && s.ops[id].job.loaded != []
  {
    var w := s.ops[id].job;
    Become(s, id, Job(s.ops[id].sid, w.(pc := w.pc + 1, body := CompletionBody(openAnswer, updateAnswer),
                                        source := Some(|s.completions|)))).(
      completions := s.completions + [Completion(w.loaded[|w.loaded| - 1], openAnswer, updateAnswer)])
  }

  lemma CompleteServes(s: Server, id: OpId, openAnswer: Option<string>, updateAnswer: Option<string>)
    requires Serves(s) && id in s.ops && s.ops[id].Job? && Does(s.ops[id].job, Complete) && s.ops[id].job.loaded != []
    requires !CompletionAborts(s.ops[id].job.loaded[|s.ops[id].job.loaded| - 1])
    ensures Serves(Completed(s, id, openAnswer, updateAnswer))
  {
    var w := s.ops[id].job;
    JobFacts(s, id);
    OnlyTheLastSends(w);
    WhoMakesTheBody(w);
    var s1 := s.(completions := s.completions + [Completion(w.loaded[|w.loaded| - 1], openAnswer, updateAnswer)]);
    HistoryGrows(s.sessions, s.ops, WorldOf(s), WorldOf(s1));
    var body := CompletionBody(openAnswer, updateAnswer);
    assert CompletionOk(s.sessions[s.ops[id].sid].request, body, Some(|s.completions|), s1.completions);
    OperationGoesOn(s1, id, Job(s.ops[id].sid, w.(pc := w.pc + 1, body := body, source := Some(|s.completions|))));
  }

  lemma CompleterServes(s: Server, step: R.Step)
    requires Serves(s) && R.Enabled(s.completer, step)
    ensures Serves(s.(completer := R.Take(s.completer, step)))
  {
    var c' := R.Take(s.completer, step);
    CompleterMovesOn(s.completer, step);
    HistoryGrows(s.sessions, s.ops, WorldOf(s), World(c'.handlers, c'.history.log, s.completions));
  }

  lemma DiagnoseServes(s: Server, id: OpId, call: R.Tid)
    requires Serves(s) && id in s.ops && s.ops[id].Job? && Does(s.ops[id].job, Diagnose) && s.ops[id].job.loaded != []
    requires call !in s.completer.handlers
    ensures var w := s.ops[id].job;
            Serves(Become(s, id, Diagnosing(s.ops[id].sid, w.(pc := w.pc + 1, call := Some(call)), call)).(
                     completer := R.Take(s.completer, R.Request(call, w.loaded[|w.loaded| - 1].fileName))))
  {
    var w := s.ops[id].job;
    var enter := R.Request(call, w.loaded[|w.loaded| - 1].fileName);
    JobFacts(s, id);
    OnlyTheLastSends(w);
    WhoMakesTheBody(w);
    CompleterServes(s, enter);
    OperationGoesOn(s.(completer := R.Take(s.completer, enter)), id,
        Diagnosing(s.ops[id].sid, w.(pc := w.pc + 1, call := Some(call)), call));
  }

  /** The response that a block sends. */
  function SentBy(s: Server, id: OpId): Sent
    requires id in s.ops && s.ops[id].Job? && s.ops[id].job.loaded != [] && s.ops[id].sid in s.sessions
  {
    var w := s.ops[id].job;
    Sent(Response(200, w.loaded[|w.loaded| - 1].version, w.body), w.source, w.call, s.sessions[s.ops[id].sid].since)
  }

  lemma SendServes(s: Server, id: OpId)
    requires Serves(s) && id in s.ops && s.ops[id].Job? && Does(s.ops[id].job, Send) && s.ops[id].job.loaded != []
    ensures s.ops[id].sid in s.sessions && Serves(Answered(s, id, SentBy(s, id)))
  {
    JobFacts(s, id);
    OnlyTheLastSends(s.ops[id].job);
    var session := s.sessions[s.ops[id].sid];
    ReplyIsInOrder(session, Replied(session, SentBy(s, id), s.next), SentBy(s, id), WorldOf(s));
    WrittenServes(s, id, SentBy(s, id));
  }

  /** The response scheduled next answers the request received last. */
  lemma ReplyIsInOrder(before: SessionState, after: SessionState, sent: Sent, world: World)
    requires SessionOk(before, world) && Unanswered(before) && !after.ended
    requires sent.since == before.since && after.since == before.since
    requires after.received == before.received && after.replies == before.replies + [sent]
    requires Answers(before.request, sent, world)
    ensures SessionOk(after, world) && |after.received| == |after.replies|
  {
  }

  /** What the step of a block comes to, action by action. */
  ghost predicate BlockGoes(s: Server, id: OpId, call: R.Tid, openAnswer: Option<string>,
                            updateAnswer: Option<string>, s': Server)
    requires JobCanRun(s, id, call)
  {
    var w, sid := s.ops[id].job, s.ops[id].sid;
    var last, rest := w.loaded[|w.loaded| - 1], w.(pc := w.pc + 1);
    match Program(w.endpoint)[w.pc]
    case Load => s' == Become(s, id, Job(sid, rest.(loaded := w.loaded + [s.sessions[sid].request])))
    case Wait => s' == Become(s, id, Job(sid, rest))
    case ArmExit => s' == Become(s, id, Job(sid, rest)).(exitArmed := true)
    case Say(text) => s' == Become(s, id, Job(sid, rest.(body := text, source := None)))
    case Complete =>
      if CompletionAborts(last) then s' == s.(aborted := true)
      else s' == Completed(s, id, openAnswer, updateAnswer)
    case Diagnose =>
      s' == Become(s, id, Diagnosing(sid, rest.(call := Some(call)), call)).(completer := R.Take(s.completer,
          R.Request(call, last.fileName)))
    case Send => s' == Answered(s, id, SentBy(s, id))
  }

  lemma BlockStepGoes(s: Server, id: OpId, call: R.Tid, openAnswer: Option<string>, updateAnswer: Option<string>)
    requires JobCanRun(s, id, call) && id < s.next
    ensures BlockGoes(s, id, call, openAnswer, updateAnswer, RunJobStep(s, id, call, openAnswer, updateAnswer))
  {
    OnlyTheLastSends(s.ops[id].job);
    WriteThenEnd(s, id, SentBy(s, id));
  }

  lemma BlockServes(s: Server, id: OpId, call: R.Tid, openAnswer: Option<string>, updateAnswer: Option<string>,
                    s': Server)
    requires Serves(s) && JobCanRun(s, id, call) && BlockGoes(s, id, call, openAnswer, updateAnswer, s')
    ensures Serves(s')
  {
    var w, sid := s.ops[id].job, s.ops[id].sid;
    var last, rest := w.loaded[|w.loaded| - 1], w.(pc := w.pc + 1);
    match Program(w.endpoint)[w.pc]
    case Load => QuietActionServes(s, id, rest.(loaded := w.loaded + [s.sessions[sid].request]));
    case Wait => QuietActionServes(s, id, rest);
    case ArmExit => QuietActionServes(s, id, rest);
    case Say(text) => SayServes(s, id, text);
    case Complete => if !CompletionAborts(last) {
      CompleteServes(s, id, openAnswer, updateAnswer);
    }
    case Diagnose => DiagnoseServes(s, id, call);
    case Send => SendServes(s, id);
  }

  lemma RunJobServes(s: Server, id: OpId, call: R.Tid, openAnswer: Option<string>, updateAnswer: Option<string>)
    requires Serves(s) && JobCanRun(s, id, call)
    ensures Serves(RunJobStep(s, id, call, openAnswer, updateAnswer))
  {
    JobFacts(s, id);
    BlockStepGoes(s, id, call, openAnswer, updateAnswer);
    BlockServes(s, id, call, openAnswer, updateAnswer, RunJobStep(s, id, call, openAnswer, updateAnswer));
  }

  // ----- Every step.

  lemma SessionsStay(s: Server, step: Step)
    requires Enabled(s, step) && !step.InAcceptor?
    ensures Take(s, step).acceptor == s.acceptor
    ensures Book(s.sessions, s.ops, s.next) ==> Take(s, step).sessions.Keys == s.sessions.Keys
  {
    match step
    case RunJob(id, call, openAnswer, updateAnswer) => JobKeepsSessions(s, id, call, openAnswer, updateAnswer);
    case OnRead(id) => ReadKeepsSessions(s, id);
    case _ =>
  }

  lemma JobKeepsSessions(s: Server, id: OpId, call: R.Tid, openAnswer: Option<string>, updateAnswer: Option<string>)
    requires JobCanRun(s, id, call)
    ensures var s' := RunJobStep(s, id, call, openAnswer, updateAnswer);
            s'.sessions.Keys == s.sessions.Keys && s'.acceptor == s.acceptor
  {
    match Program(s.ops[id].job.endpoint)[s.ops[id].job.pc]
    case Load =>
    case Wait =>
    case ArmExit =>
    case Say(_) =>
    case Complete =>
    case Diagnose =>
    case Send =>
  }

  lemma ReadKeepsSessions(s: Server, id: OpId)
    requires Enabled(s, OnRead(id))
    ensures var s' := OnReadStep(s, id);
            s'.sessions.Keys == s.sessions.Keys && s'.acceptor == s.acceptor
  {
  }

  lemma AcceptStepIs(s: Server, accepting: A.Step)
    requires A.Enabled(s.acceptor, accepting)
    ensures AcceptStep(s, accepting).acceptor == A.Take(s.acceptor, accepting)
    ensures AcceptStep(s, accepting).sessions.Keys
         == s.sessions.Keys + if accepting.StartSession? then A.Only(s.acceptor.accepts[accepting.k].stage.sock) else {}
  {
  }

  lemma StartedAre(a: A.Acceptor, accepting: A.Step)
    requires A.Enabled(a, accepting)
    ensures A.Take(a, accepting).started
         == a.started + if accepting.StartSession? then A.Only(a.accepts[accepting.k].stage.sock) else {}
  {
  }

  lemma AcceptKeepsAcceptor(s: Server, accepting: A.Step)
    requires AcceptorOk(s.acceptor, s.sessions) && A.Enabled(s.acceptor, accepting)
    ensures AcceptorOk(AcceptStep(s, accepting).acceptor, AcceptStep(s, accepting).sessions)
  {
    AT.StepKeepsInv(s.acceptor, accepting);
    AcceptStepIs(s, accepting);
    StartedAre(s.acceptor, accepting);
  }

  lemma StepServes(s: Server, step: Step)
    requires Serves(s) && AcceptorOk(s.acceptor, s.sessions) && RP.Inv(s.completer) && Enabled(s, step)
    ensures Serves(Take(s, step))
  {
    match step
    case InAcceptor(accepting) => AcceptServes(s, accepting);
    case Fill(id, request) => FillServes(s, id, request);
    case FinishRead(id, failed) => FinishReadServes(s, id, failed);
    case OnRead(id) => OnReadServes(s, id);
    case RunJob(id, call, openAnswer, updateAnswer) => RunJobServes(s, id, call, openAnswer, updateAnswer);
    case LeaveCompleter(id) => LeaveServes(s, id);
    case FinishWrite(id, failed) => OperationGoesOn(s, id, WriteDone(s.ops[id].sid, failed));
    case OnWrite(id) => OnWriteServes(s, id);
    case InCompleter(inner) => CompleterServes(s, inner);
    case Exit =>
  }

  lemma JobCompleter(s: Server, id: OpId, call: R.Tid, openAnswer: Option<string>, updateAnswer: Option<string>)
    requires JobCanRun(s, id, call)
    ensures var w := s.ops[id].job;
            RunJobStep(s, id, call, openAnswer, updateAnswer).completer
              == if Program(w.endpoint)[w.pc].Diagnose?
                 then R.Take(s.completer, R.Request(call, w.loaded[|w.loaded| - 1].fileName)) else s.completer
  {
  }

  lemma OtherCompleter(s: Server, step: Step)
    requires Enabled(s, step) && !step.RunJob? && !step.InCompleter?
    ensures Take(s, step).completer == s.completer
  {
  }

  lemma CompleterStays(s: Server, step: Step)
    requires RP.Inv(s.completer) && Enabled(s, step)
    ensures RP.Inv(Take(s, step).completer)
  {
    match step
    case InCompleter(inner) => RP.StepKeepsInv(s.completer, inner);
    case RunJob(id, call, openAnswer, updateAnswer) => JobKeepsCompleter(s, id, call, openAnswer, updateAnswer);
    case _ => OtherCompleter(s, step);
  }

  lemma JobKeepsCompleter(s: Server, id: OpId, call: R.Tid, openAnswer: Option<string>, updateAnswer: Option<string>)
    requires RP.Inv(s.completer) && JobCanRun(s, id, call)
    ensures RP.Inv(RunJobStep(s, id, call, openAnswer, updateAnswer).completer)
  {
    var w := s.ops[id].job;
    JobCompleter(s, id, call, openAnswer, updateAnswer);
    RP.StepKeepsInv(s.completer, R.Request(call, w.loaded[|w.loaded| - 1].fileName));
  }

  lemma StepKeepsInv(s: Server, step: Step)
    requires Inv(s) && Enabled(s, step)
    ensures Inv(Take(s, step))
  {
    StepServes(s, step);
    CompleterStays(s, step);
    if step.InAcceptor? {
      AcceptKeepsAcceptor(s, step.accepting);
    } else {
      SessionsStay(s, step);
    }
  }
}
