/**
 The accept loop as a transition system: the accepts that have been armed, the calls of
 `SemanticHTTPServer::onAccept` that complete them, and the closing of the acceptor.

 The calls run on any of the I/O threads, under no strand and no mutex, so each makes one step per
 access to what they share: the acceptor and `_socket`.
 */
module AcceptLoop {
  import opened Wrappers

  type AcceptId = nat
  type Connection = nat  // every connection has an identity of its own

  /** Where an accept, or the call of `onAccept` that completes it, is. */
  datatype Stage =
    | Outstanding                        // async_accept has been called
    | Completed(failed: bool)            // onAccept has been called, with or without an error
    | Passed                             // it has found the acceptor open and no error
    | Moved(sock: Option<Connection>)    // it has moved _socket into a local variable
    | Rearmed(sock: Option<Connection>)  // it has called async_accept again

  /** `delivered`, which is history, is the connection that the accept completed with. */
  datatype Accept = Accept(stage: Stage, delivered: Option<Connection>)

  /**
   `socket` is `_socket`, and `next` is how many accepts have been armed.  `connections`, `admitted`
   and `started` are history: the connections that were made, whose call passed its check, and that
   a session was started on.
   */
  datatype Acceptor = Acceptor(
    open: bool,
    socket: Option<Connection>,
    accepts: map<AcceptId, Accept>,
    next: AcceptId,
    connections: set<Connection>,
    admitted: set<Connection>,
    started: set<Connection>,
    fault: bool)

  // The constructor arms the first accept.
  const INITIAL := Acceptor(true, None, map[0 := Accept(Outstanding, None)], 1, {}, {}, {}, false)

  datatype Step =
    | Complete(k: AcceptId, failed: bool, c: Connection)
    | Check(k: AcceptId)
    | Move(k: AcceptId)
    | Arm(k: AcceptId)
    | StartSession(k: AcceptId)
    | Close

  predicate Enabled(a: Acceptor, step: Step) {
    match step
    case Complete(k, failed, c) => k in a.accepts && a.accepts[k].stage.Outstanding? && (failed || c !in a.connections)
    case Check(k) => k in a.accepts && a.accepts[k].stage.Completed?
    case Move(k) => k in a.accepts && a.accepts[k].stage.Passed?
    case Arm(k) => k in a.accepts && a.accepts[k].stage.Moved?
    case StartSession(k) => k in a.accepts && a.accepts[k].stage.Rearmed?
    case Close => true
  }

  function Only(c: Option<Connection>): set<Connection> {
    if c.Some? then {c.value} else {}
  }

  function Take(a: Acceptor, step: Step): Acceptor
    requires Enabled(a, step)
  {
    match step
    case Complete(k, failed, c) =>
      if failed then a.(accepts := a.accepts[k := Accept(Completed(true), None)])
      else a.(accepts := a.accepts[k := Accept(Completed(false), Some(c))],
              socket := Some(c), connections := a.connections + {c})
    case Check(k) =>
      if !a.open || a.accepts[k].stage.failed then a.(accepts := a.accepts - {k})
      else a.(accepts := a.accepts[k := a.accepts[k].(stage := Passed)],
          admitted := a.admitted + Only(a.accepts[k].delivered))
    case Move(k) => a.(accepts := a.accepts[k := a.accepts[k].(stage := Moved(a.socket))], socket := None)
    case Arm(k) =>
      var rearmed := a.accepts[k].(stage := Rearmed(a.accepts[k].stage.sock));
      a.(accepts := a.accepts[k := rearmed][a.next := Accept(Outstanding, None)], next := a.next + 1)
    case StartSession(k) =>
      // a session without a connection, or on another session's, is a fault
      var sock := a.accepts[k].stage.sock;
      a.(accepts := a.accepts - {k}, started := a.started + Only(sock),
          fault := a.fault || sock.None? || sock.value in a.started)
    case Close => a.(open := false)
  }

  predicate IsRun(a: Acceptor, steps: seq<Step>)
    decreases |steps|
  {
    steps == [] || (Enabled(a, steps[0]) && IsRun(Take(a, steps[0]), steps[1..]))
  }

  function After(a: Acceptor, steps: seq<Step>): Acceptor
    requires IsRun(a, steps)
    decreases |steps|
  {
    if steps == [] then a else After(Take(a, steps[0]), steps[1..])
  }
}
