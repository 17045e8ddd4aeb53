/**
 One HTTP session: what its callbacks do to it and which operation each of them starts.  The class
 is the source's object; the functions above it are what its methods are proved against, and
 `HttpServer` runs any number of sessions with the same functions.
 */
module HttpSession {
  import opened Wrappers

  /** A parsed request, with what the JSON body of a request for completions or diagnostics holds. */
  datatype Request = Request(
    url: string, version: int, fileName: string, contents: string, line: int, column: int, flags: seq<string>)

  const NO_REQUEST := Request("", 0, "", "", 0, 0, [])

  /** A code completion for this request fails the assertion that there is something to complete in. */
  predicate CompletionAborts(request: Request) {
    request.contents == ""
  }

  datatype Response = Response(status: int, version: int, body: string)

  datatype Endpoint = Status | Shutdown | Completions | Diagnostics | SlowTest

  const ENDPOINTS: map<string, Endpoint> :=
    map["/status" := Status, "/shutdown" := Shutdown, "/completions" := Completions,
        "/diagnostics" := Diagnostics, "/slow_test" := SlowTest]

  function NotFoundResponse(request: Request): Response {
    Response(404, request.version, "Endpoint: '" + request.url + "' not found")
  }

  /** What a handler block does, in order.  `Load` is a call of `session->request()`. */
  datatype Action = Load | Wait | ArmExit | Complete | Diagnose | Say(text: string) | Send

  function Program(endpoint: Endpoint): seq<Action> {
    match endpoint
    case Status => [Load, Send]
    case Shutdown => [Load, ArmExit, Send]
    case Completions => [Load, Complete, Load, Send]
    case Diagnostics => [Load, Diagnose, Load, Send]
    case SlowTest => [Wait, Load, Load, Say("Hello World"), Send]
  }

  /** What follows a completed read. */
  datatype ReadOutcome =
    | Ends                                              // the read failed: nothing is started
    | Dispatches(endpoint: Endpoint, loaded: Request)   // handleRequest logs the request and queues the block
    | Replies(response: Response)                       // no such endpoint: 404 straight away

  function AfterRead(failed: bool, request: Request): ReadOutcome {
    if failed then Ends
    else if request.url in ENDPOINTS then Dispatches(ENDPOINTS[request.url], request)
    else Replies(NotFoundResponse(request))
  }

  /** An operation handed to the I/O service or to the global queue. */
  datatype Operation =
    | ReadOperation
    | WriteOperation(response: Response)
    | Block(endpoint: Endpoint, loaded: Request)

  function Started(outcome: ReadOutcome): seq<Operation> {
    match outcome
    case Ends => []
    case Dispatches(endpoint, loaded) => [Block(endpoint, loaded)]
    case Replies(response) => [WriteOperation(response)]
  }

  class Session {
    var request: Request
    var endpoint: Option<Endpoint>
    var endpoints: map<string, Endpoint>
    ghost var started: seq<Operation>  // everything this session has started

    ghost predicate Valid()
      reads this
    {
      endpoints == ENDPOINTS
    }

    constructor ()
      ensures Valid() && started == [] && endpoint == None
    {
      request, endpoint, started := NO_REQUEST, None, [];
      endpoints := map[];
      new;
      endpoints := endpoints["/status" := Status];
      endpoints := endpoints["/shutdown" := Shutdown];
      endpoints := endpoints["/completions" := Completions];
      endpoints := endpoints["/diagnostics" := Diagnostics];
      endpoints := endpoints["/slow_test" := SlowTest];
    }

    method Start()
      requires Valid()
      modifies this`started
      ensures Valid() && started == old(started) + [ReadOperation]
    {
      DoRead();
    }

    method DoRead()
      requires Valid()
      modifies this`started
      ensures Valid() && started == old(started) + [ReadOperation]
    {
      started := started + [ReadOperation];
    }

    method Write(response: Response)
      requires Valid()
      modifies this`started
      ensures Valid() && started == old(started) + [WriteOperation(response)]
    {
      started := started + [WriteOperation(response)];
    }

    method GetRequest() returns (r: Request)
      ensures r == request
    {
      r := request;
    }

    /** Starts what `AfterRead` says and nothing else; the request it was given is left alone. */
    method OnRead(failed: bool)
      requires Valid()
      modifies this`endpoint, this`started
      ensures Valid() && started == old(started) + Started(AfterRead(failed, request))
      ensures endpoint == if !failed && request.url in ENDPOINTS then Some(ENDPOINTS[request.url]) else old(endpoint)
    {
      if failed {
        return;
      }
      var path := request.url;
      if path in endpoints {
        endpoint := Some(endpoints[path]);
        HandleRequest(endpoints[path]);
        return;
      }
      Write(NotFoundResponse(request));
    }

    /** `EndpointImpl::handleRequest`: the request is looked at for the log, then the block is queued. */
    method HandleRequest(impl: Endpoint)
      requires Valid()
      modifies this`started
      ensures Valid() && started == old(started) + [Block(impl, request)]
    {
      var seen := GetRequest();
      started := started + [Block(impl, seen)];
    }

    /** A failed write is logged and no more: the next request is read either way. */
    method OnWrite(failed: bool)
      requires Valid()
      modifies this`started
      ensures Valid() && started == old(started) + [ReadOperation]
    {
      DoRead();
    }
  }
}
