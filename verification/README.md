# Verification of the Swift semantic HTTP server

The server answers editor requests over HTTP and has SourceKit do the work.  This project models
the parts of it whose correctness is not visible in any one function, and proves what they promise.

* **The diagnostics rendezvous** (`SwiftCompleter.cpp`).  A request handler registers a promise under
  a file name in the shared `FutureChannel` and blocks; a notification from SourceKit on another
  thread fulfils, deletes and erases all promises of its file.  `EventLog` is the specification: a log
  of registrations and publications, in which a registration is answered by the first publication on
  its key that follows it.  `FutureChannel` is the class with real promise objects, proved against the
  log.  `Rendezvous` splits `set`, `future`, `NotificationReceiver` and `DiagnosticsForFile` into
  single accesses to shared memory and lets any number of them interleave; undefined behaviour
  (use after deletion, a second `set_value` or `get_future`, an invalidated iterator, unlocking
  a mutex that is not held) is a state the rules can reach unless it is proved that they do not.
* **Sessions and the accept loop** (`SemanticHTTPServer.cpp`, `SemanticHTTPServer.hpp`).  `HttpSession`
  is the class `Session`; `AcceptLoop` is `onAccept`, its calls interleaved with each other and with the
  closing of the acceptor at each access to what they share; `HttpServer` runs any number of sessions,
  their reads, writes and handler blocks, the accept loop and the rendezvous together.
* **The worker pool.**  Diagnostics calls block on the global queue that the notifications they wait
  for need too.  `WorkerPool` is the rendezvous with a bound on how many of both run at a time.
* **The completion point** (`SwiftCompleter.cpp`).  `CompletionPoint` is `GetOffset` with its 32-bit
  unsigned arithmetic, over `TextLines`, a model of `std::getline` on a `std::istringstream`
  ([string.io] of ISO/IEC 14882:2017), and is proved against a definition over the buffer's lines.
* **Requests to SourceKit** (`SwiftCompleter.cpp`).  `SourceKitRequest` is the compiler-argument
  pipeline and what is sent with a code completion.
* **File bodies** (`file_body.hpp`).  `FileBody` is the writer that sends a file buffer by buffer.

Some properties the code has only under a condition.  The condition is stated both ways, for all
inputs or runs, and a lemma beside it gives an input or a run at which the property fails:

| property | exact condition | where it fails |
|---|---|---|
| a diagnostics call can still return | `RendezvousProgress.CallCanReturnIffNotHopeless`: no editor request was answered, or the file's name is neither empty nor holds a NUL | `RendezvousProgress.NamelessCallGetsStuck`, `RendezvousSteps.NamelessCallGetsStuckBySecondAnswer` |
| the same on a bounded pool | `WorkerPool.CallCanReturnIffPoolServes` | `WorkerPool.PoolCanBeUsedUp` |
| a request can still be answered | `HttpServerProgress.RequestCanBeAnsweredIff`: its block is not in a hopeless diagnostics call, and it is not for a completion in an empty buffer | `HttpServerProgress.SessionCanGetStuck`, `HttpServerProgress.ServerCanAbort` (after which nothing is answered for any session) |
| no session follows the close of the acceptor | `HttpServerTheorems.SessionAfterCloseIffAdmitted` | `HttpServerTheorems.SessionCanFollowTheClose` |
| the clean file keeps the offset | `CompletionPointTheorems.CleaningIsIdempotent` | `CompletionPointTheorems.OffsetOfEmptyLineIsLost` |
| the offset grows with the column | `CompletionPointTheorems.CleanFileGrowsWithColumn` | `CompletionPointTheorems.ColumnToTheRightCanCut` |
| the offset is the end of the text sent | `SourceKitRequest.OffsetIsTheEndOfTheText` | `SourceKitRequest.NulCutsTheText` |
| the file is named once | `SourceKitRequest.FileIsNamedOnce` | `SourceKitRequest.NamedLikeADefault`, `SourceKitRequest.NamedLikeAFlag` |
| a file is sent to its end | `FileBody.Writer.Stream` | `FileBody.SendEmptyFile` |

`RendezvousProgress.NotificationCanBeLost` shows that a notification published between the editor's
answer and the registration is not kept for the handler, although the comment at
`SwiftCompleter.cpp:512-515` describes waiting for it.

`dafny verify dfyconfig.toml` checks the project.

## Model

| member | source | states |
|---|---|---|
| `EventLog.AnswerIsFirstPublication` | SwiftCompleter.cpp:38-55 | For every log: a registration is answered with v if and only if the first publication on its key after it carries v, and open if and only if none follows |
| `EventLog.AnswersAreFinal` | SwiftCompleter.cpp:38-48 | Nothing that happens later changes an answer or moves a registration to another key |
| `EventLog.BoardListsRegistrations` | SwiftCompleter.cpp:50-55 | Exactly the calls of `future` are registrations, each under the key it was called with |
| `EventLog.QueueIsUnanswered` | SwiftCompleter.cpp:40-53 | The batch-erased map agrees with the log: a key's queue lists its unanswered registrations, each once and oldest first, and no queue is empty |
| `FutureChannel.Promise.SetValue` | SwiftCompleter.cpp:43 | Needs a promise that is alive and empty; leaves the value in the shared state |
| `FutureChannel.Promise.Delete` | SwiftCompleter.cpp:44 | Needs a promise that is alive, so none is deleted twice |
| `FutureChannel.Promise.GetFuture` | SwiftCompleter.cpp:54 | Needs a promise that is alive and whose future was not taken before |
| `FutureChannel.FulfilAll` | SwiftCompleter.cpp:42-45 | The loop of `set` fulfils and frees each promise of the batch once, with a freed prefix and a live suffix at every iteration |
| `FutureChannel.Channel.constructor` | SwiftCompleter.cpp:33-35 | A new channel is valid, with an empty log |
| `FutureChannel.Channel.Set` | SwiftCompleter.cpp:38-48 | Appends the publication to the log, forgets the key and keeps the channel valid: stored promises are the live ones and those of the open registrations, everything else is fulfilled and freed |
| `FutureChannel.Channel.Future` | SwiftCompleter.cpp:50-55 | Appends the registration to the log, stores one fresh promise last under its key, returns that promise's future and keeps the channel valid |
| `FutureChannel.Channel.PushBack` | SwiftCompleter.cpp:53 | Storing a live promise that the channel does not own yet keeps it valid, also when the key is new |
| `FutureChannel.FutureHoldsFirstPublication` | SwiftCompleter.cpp:38-55 | After any calls of both methods a future holds v if and only if v came with the first publication after its registration; its promise is freed exactly then, and until then is stored under its own key and no other |
| `RendezvousProof.StepKeepsInv` | SwiftCompleter.cpp:33-56 | Every step of every handler and notification keeps the whole invariant: mutual exclusion, ownership of promises, agreement of heap and map with the log, no undefined behaviour |
| `RendezvousProof.LoopIsSafe` | SwiftCompleter.cpp:42-45 | The entry that the loop is at is alive, and has its value exactly between `set_value` and `delete` |
| `RendezvousProof.NotificationFrame` | SwiftCompleter.cpp:142-177 | A notification's step touches no handler and no other notification, and publishes at most once, under the payload's name with the reply's value; it goes on only with a payload that has a non-empty name |
| `RendezvousProof.HandlerFrame` | SwiftCompleter.cpp:490-522 | A handler's step touches no notification and registers its own file or nothing |
| `RendezvousTheorems.RunKeepsInv` | SwiftCompleter.cpp:33-56 | The invariant holds in every state of every run |
| `RendezvousTheorems.NoUndefinedBehaviour` | SwiftCompleter.cpp:38-55 | No interleaving uses, fulfils, retrieves or deletes a promise it must not, follows a stale iterator, or unlocks a mutex it does not hold |
| `RendezvousTheorems.StoredPromisesAreAllocatedAndDistinct` | SwiftCompleter.cpp:42-53 | At every moment, also inside `set`: each entry of a vector is an allocated promise registered by its owner under that very file, and no promise is stored twice, in one vector or in two |
| `RendezvousTheorems.StoredPromisesAreTheWaitingHandlers` | SwiftCompleter.cpp:33-56 | Whenever the mutex is free, the vector under a file and the handlers that wait for that file are in one-to-one correspondence: entries are allocated, alive and different, each is owned by a handler that waits for the file, and each such handler has its own live promise among them; they are all the registered live promises of that file |
| `RendezvousTheorems.PromisesAreConserved` | SwiftCompleter.cpp:38-55 | At every moment, also inside `set`: an allocated promise is either unregistered, alive and empty, or registered, empty, alive and stored under its own file alone, or fulfilled; a fulfilled one is freed unless `set` is just between its `set_value` and its `delete`, and stored nowhere unless in the vector `set` is just working on |
| `RendezvousTheorems.ReplyIsFirstPublication` | SwiftCompleter.cpp:519-521 | In every run, a handler that returned a reply returned that of the first publication for its own file after its own registration |
| `RendezvousTheorems.BlockedHandlerCanReturnIffPublished` | SwiftCompleter.cpp:519-520 | Whenever the mutex is free, `future.get()` can return if and only if a publication for the file has followed the registration |
| `RendezvousTheorems.BlockedHandlerReturnsFirstPublication` | SwiftCompleter.cpp:519-521 | What it then returns is the value of the first such publication |
| `RendezvousTheorems.ReplyIsFinal` | SwiftCompleter.cpp:520-521 | No later step changes what a handler has returned |
| `RendezvousTheorems.OnlyNotifiableFilesReturn` | SwiftCompleter.cpp:147-160 | Null payloads and empty names publish nothing, so only handlers of a file with a name that SourceKit can give back ever return a reply |
| `RendezvousSteps.CallFollowsItsSteps` | SwiftCompleter.cpp:490-522 | In every run, where a call of `DiagnosticsForFile` is follows from the number of its steps and SourceKit's answers to the first two |
| `RendezvousSteps.EmptyIffBothRequestsFail` | SwiftCompleter.cpp:501-510 | In every run, a call past its two editor requests has returned the empty result if and only if both were answered by an error; otherwise its third step allocates, its fifth registers it under its own file, and its eighth returns |
| `RendezvousSteps.CallIsForItsFile` | SwiftCompleter.cpp:490-496 | A call works for the file that it was made for |
| `RendezvousSteps.PublishedIsTheReply` | SwiftCompleter.cpp:156-176 | Whatever is published came with a notification for that file, and is what SourceKit replied to the request made for it |
| `RendezvousProgress.NotificationCanBeLost` | SwiftCompleter.cpp:503-519 | From every reachable state with a handler about to register: a run in which its file is published first and it still ends up blocked |
| `RendezvousProgress.HolderProgresses` | SwiftCompleter.cpp:39-52 | The holder of the mutex can always go on, and each of its steps brings the release nearer |
| `RendezvousProgress.MutexGetsReleased` | SwiftCompleter.cpp:39-52 | From every reachable state the holder alone reaches a state with the mutex free, within a bound given by the batch's length |
| `RendezvousProgress.EveryWaitCanEnd` | SwiftCompleter.cpp:516-520 | From every reachable state there is a run, with one more notification for its file and nothing else arriving, in which a blocked handler returns, with what the first publication since its registration carried |
| `RendezvousTheorems.StepKeepsHopeless` | SwiftCompleter.cpp:516-520 | No step ends the wait for a file that no notification names |
| `RendezvousProgress.CallCanReturn` | SwiftCompleter.cpp:490-522 | From every reachable state a call of `DiagnosticsForFile` that is not hopeless can return |
| `RendezvousProgress.CallCanReturnIffNotHopeless` | SwiftCompleter.cpp:490-522 | At any point of any run a call can still return if and only if no editor request was answered yet, or it has returned, or its file's name is neither empty nor holds a NUL |
| `RendezvousProgress.NamelessCallGetsStuck` | SwiftCompleter.cpp:490-522 | A run from the start to a call that can never return: a request for the file "" whose first editor request is answered |
| `RendezvousSteps.NamelessCallGetsStuckBySecondAnswer` | SwiftCompleter.cpp:501-510 | Another such run: the first editor request fails and the second is answered |
| `WorkerPool.CallCanReturnIffPoolServes` | SwiftCompleter.cpp:337-342 | With any bound on how many diagnostics calls and notifications run at a time: at any point of any run, a call can still return if and only if it is not hopeless and some worker is free, or is on a notification, on a call not yet bound to wait, or on one that has its answer |
| `WorkerPool.UsedUpForGood` | SwiftCompleter.cpp:516-520 | Once all workers are on calls that wait unanswered, they stay so in every run |
| `WorkerPool.PoolCanBeUsedUp` | SwiftCompleter.cpp:516-520 | For every number of workers, a run to such a state in which no call is hopeless by itself |
| `HttpSession.Session.constructor` | SemanticHTTPServer.cpp:92-109 | The five endpoints, each under its own path, and nothing started |
| `HttpSession.Session.Start` | SemanticHTTPServer.cpp:112-114 | Starts one read and nothing else |
| `HttpSession.Session.OnRead` | SemanticHTTPServer.cpp:130-154 | Starts nothing after an error, the block of the path's endpoint if there is one, and the 404 otherwise; never two of these |
| `HttpSession.Session.HandleRequest` | SemanticHTTPServer.cpp:245-259 | Queues one block, for the request the session holds now |
| `HttpSession.Session.OnWrite` | SemanticHTTPServer.cpp:156-160 | Reads again whether or not the write failed |
| `HttpServerTheorems.OnReadRunsTheSession` | SemanticHTTPServer.cpp:130-154 | In every run, the server's step for a finished read ends it and starts just what the session's method starts, for that session alone; the session keeps its request and what it received, schedules a response exactly for an unknown path, and ends exactly after an error; other sessions, the accept loop and the completer stay as they were |
| `HttpServerTheorems.OnWriteRunsTheSession` | SemanticHTTPServer.cpp:156-160 | The same for a finished write, failed or not: it ends and a read starts, as in the session's method |
| `HttpServerTheorems.StartRunsTheSession` | SemanticHTTPServer.cpp:205-207 | The call of `onAccept` that starts a session starts its first read and nothing else, on a connection that had no session |
| `HttpServerProof.StepKeepsInv` | SemanticHTTPServer.cpp:112-208 | Every step of the whole server keeps its invariant |
| `HttpServerProof.OnReadServes` | SemanticHTTPServer.cpp:130-154 | The read callback keeps one operation per session, and responses matched to requests, in each of its three branches |
| `HttpServerProof.RunJobServes` | SemanticHTTPServer.cpp:212-240 | So does every action of every handler block |
| `HttpServerProof.SendServes` | SemanticHTTPServer.cpp:324-331 | The response that a block sends, and the end of the block, keep them too |
| `HttpServerProof.LeaveServes` | SemanticHTTPServer.cpp:366-378 | The body that a block takes out of `DiagnosticsForFile` answers the block's own request |
| `HttpServerProof.AcceptServes` | SemanticHTTPServer.cpp:193-208 | So does every step of the accept loop, whether or not it adds a session |
| `HttpServerTheorems.OneOperationPerSession` | SemanticHTTPServer.cpp:124-175 | In every run a session never has two operations outstanding (read, block, write), also after errors, and has one exactly until a read fails |
| `HttpServerTheorems.ResponsesAreInOrder` | SemanticHTTPServer.cpp:212-240 | In every run the k-th response a session schedules answers the k-th request it received, in status, version and body, and at most one is owed; the order of section 6.3.2 of RFC 7230 |
| `HttpServerTheorems.ResponseIsOwedIffHandled` | SemanticHTTPServer.cpp:130-154 | A response is owed exactly while a successful read waits for its callback or a block is at work |
| `HttpServerTheorems.RequestIsStable` | SemanticHTTPServer.cpp:382-400 | Every `session->request()` of a block, however late, returned the request whose read dispatched it, and the next one will |
| `HttpServerReplies.DiagnosticsReplyIsOfItsCall` | SemanticHTTPServer.cpp:341-379 | In every run the reply to a diagnostics request is that of one call made for its file: the empty result if both editor requests of that call were answered by an error, and otherwise what this call returned, the first publication after its registration, which was made after the request was received |
| `HttpServerReplies.CompletionsReply` | SwiftCompleter.cpp:478-487 | In every run the reply to a completions request is SourceKit's answer to the update, or else to the open request, or else the empty result, of a completion made for this very request |
| `HttpServerReplies.CompletionIsOfOneStep` | SwiftCompleter.cpp:478-480 | Both answers recorded of a completion are those that SourceKit gave in one step of a handler block |
| `HttpServerReplies.ConstantReplies` | SemanticHTTPServer.cpp:104-108 | In every run: status, version and body of the reply to each of "/status", "/shutdown" and "/slow_test", status and version for "/completions" and "/diagnostics", and the 404 with its text for any other URL |
| `HttpServerReplies.ExitIffShutdown` | SemanticHTTPServer.cpp:224-240 | In every run the server exits, and the exit is armed, only after a request for "/shutdown" was received; once the response to such a request is scheduled the exit is armed |
| `HttpServerReplies.ArmedCanExit` | SemanticHTTPServer.cpp:234-238 | The exit can be made at any time once it is armed, not before, and nothing happens after it |
| `HttpServerTheorems.CompleterIsSafe` | SemanticHTTPServer.cpp:341-379 | The rendezvous stays free of undefined behaviour inside the server |
| `AcceptLoopTheorems.StepKeepsInv` | SemanticHTTPServer.cpp:193-208 | Every step of the accept loop, its callbacks interleaved access by access, keeps its invariant |
| `AcceptLoopTheorems.OneAcceptAtATime` | SemanticHTTPServer.cpp:193-208 | In every run at most one accept is outstanding or has a callback that is still to arm the next, `_socket` is empty while one is outstanding, and no session is started without a connection or on that of another |
| `AcceptLoopTheorems.AdmittedAreStartedOrPending` | SemanticHTTPServer.cpp:194-207 | In every run the connections whose callback found the acceptor open and no error are exactly those with a session and those whose callback is still to start one, and their numbers add up |
| `AcceptLoopTheorems.AnotherAcceptIffLoopGoesOn` | SemanticHTTPServer.cpp:194-203 | At any point of any run another accept can be armed if and only if one is outstanding on an open acceptor, or a callback without an error has the check before it and the acceptor is open, or a callback is past the check and yet to arm |
| `AcceptLoopTheorems.LoopStaysOver` | SemanticHTTPServer.cpp:194-200 | Otherwise no run arms an accept or admits a connection any more, so after an error the loop has ended for good |
| `AcceptLoopTheorems.ClosedRun` | SemanticHTTPServer.hpp:65-70 | After the close no connection is admitted and at most one more accept is armed, in every run |
| `AcceptLoopTheorems.SessionAfterCloseIffAdmitted` | SemanticHTTPServer.hpp:65-70 | After the close a session can still be added if and only if some callback is past its check; no run adds any but one for each of those, and all of these can be added |
| `AcceptLoopTheorems.CloseCanBeOvertaken` | SemanticHTTPServer.cpp:194-207 | A run in which the close falls between the check and the arming: an accept is armed on the closed acceptor and a session is started; that accept, however it completes, ends without arming another |
| `HttpServerTheorems.AcceptsAreCounted` | SemanticHTTPServer.cpp:193-208 | In the whole server: at most one accept outstanding or yet to be re-armed, one connection for each session, and as many admitted connections as sessions and callbacks that are still to start one |
| `HttpServerTheorems.AcceptLeavesSessionsAlone` | SemanticHTTPServer.cpp:193-208 | In every run, no step of the accept loop changes a session or an operation that is there |
| `HttpServerTheorems.AnotherAcceptIffLoopGoesOn` | SemanticHTTPServer.cpp:194-203 | The condition under which another accept can be armed, in every run of the whole server before exit |
| `HttpServerTheorems.SessionAfterCloseIffAdmitted` | SemanticHTTPServer.hpp:65-70 | The condition under which a session can be added after the close, and which ones, in every run of the whole server before exit |
| `HttpServerTheorems.SessionCanFollowTheClose` | SemanticHTTPServer.cpp:194-207 | The run of `CloseCanBeOvertaken` in the server: no session at the close, one session later |
| `HttpServerProgress.CallCanReturn` | SemanticHTTPServer.cpp:366-367 | A block inside `DiagnosticsForFile` that is not stuck can get out, with the sessions unchanged |
| `HttpServerProgress.BlockCanReply` | SemanticHTTPServer.cpp:212-240 | A block that is not stuck, and not for a completion in an empty buffer, can run on until its response is scheduled |
| `HttpServerProgress.StuckForGood` | SemanticHTTPServer.cpp:366-367 | A block in a hopeless diagnostics call stays there in every run |
| `HttpServerProgress.FatalNeverSettles` | SwiftCompleter.cpp:287 | In no run is a response scheduled to a request for a completion in an empty buffer |
| `HttpServerProgress.FatalCanAbort` | SwiftCompleter.cpp:287 | From every reachable state in which such a request is served, a run in which the assertion fails; after it nothing happens, and no response owed by any session is ever scheduled |
| `HttpServerProgress.RequestCanBeAnsweredIff` | SemanticHTTPServer.cpp:130-154 | At any point of any run while the server is up, an owed response can still be scheduled if and only if its block is not in a hopeless diagnostics call and it is not owed to a request for a completion in an empty buffer |
| `HttpServerProgress.SessionCanGetStuck` | SemanticHTTPServer.cpp:341-379 | A run of the server from the start in which the first session gets stuck for good by a diagnostics request with an empty file name |
| `HttpServerProgress.ServerCanAbort` | SemanticHTTPServer.cpp:288-333 | A run of the server from the start in which the first request, for a completion in an empty buffer, ends it for all sessions |
| `TextLines.StringStream.constructor` | SwiftCompleter.cpp:289 | The stream is at the beginning of the text |
| `TextLines.StringStream.GetLine` | SwiftCompleter.cpp:292 | `std::getline` takes the next line off the stream, and fails exactly at the end of the text, so that a trailing empty line is never returned |
| `TextLines.SplitAtLine` | SwiftCompleter.cpp:292-317 | A text is its first t lines joined, and a rest that begins with line t |
| `TextLines.LinesOfJoin` | SwiftCompleter.cpp:315-317 | Lines joined with newlines are read back as those lines, before the lines of what follows |
| `TextLines.JoinLines` | SwiftCompleter.cpp:315-317 | Appending every line and a newline gives the text back, with a final newline if it had none |
| `CompletionPoint.FindUnsavedInput` | SwiftCompleter.cpp:278-285 | The contents of the first unsaved file of that name, and nothing if no file has it |
| `CompletionPoint.PartialLine` | SwiftCompleter.cpp:294-312 | The backward scan keeps the line up to its last ' ' or '.' at an index from 1 to the column, or the whole line if there is none; the case of a non-zero index past the line's end is never reached |
| `CompletionPoint.WrapNext` | SwiftCompleter.cpp:291-293 | The wrapped line count meets the requested line at one index only, also for line 0 |
| `CompletionPoint.GetOffset` | SwiftCompleter.cpp:272-320 | For all inputs: aborts exactly if there are no contents; otherwise the clean file is all earlier lines and the kept part of the target line, the offset its length in 32 bits, or on a miss all lines and 0 |
| `CompletionPointTheorems.OffsetLocatesThePoint` | SwiftCompleter.cpp:292-318 | On a hit the clean file is a prefix of the contents, and locating its end in them gives the requested line and the length of the kept part |
| `CompletionPointTheorems.CutAfterLastBlankOrDot` | SwiftCompleter.cpp:294-312 | For a target line anywhere in a buffer: the clean file is what comes before it and the line up to and including the last ' ' or '.' at an index from 1 to the column, or all of the line if there is none, and the offset is its length in 32 bits |
| `CompletionPointTheorems.NothingWraps` | SwiftCompleter.cpp:274-319 | Below 4 GiB the hit lines are exactly 1 to the number of lines, and the offset is exactly the clean file's length |
| `CompletionPointTheorems.MissKeepsTheBuffer` | SwiftCompleter.cpp:314-319 | On a miss the offset stays 0 and the clean file is the contents, with a final newline if there was none |
| `CompletionPointTheorems.LinesOfClean` | SwiftCompleter.cpp:287-319 | The lines of the clean file are the earlier lines and the kept part, unless that is empty |
| `CompletionPointTheorems.CleaningIsIdempotent` | SwiftCompleter.cpp:287-319 | A non-empty clean file is its own clean file; the offset is found again if and only if the target line is not an empty line that is hit, or the lines before it are a multiple of 4 GiB long |
| `CompletionPointTheorems.OffsetOfEmptyLineIsLost` | SwiftCompleter.cpp:287-319 | Inputs at which it is not: line 2 of any two-line buffer below 4 GiB whose second line is empty |
| `CompletionPointTheorems.TextAfterTheLineIsIrrelevant` | SwiftCompleter.cpp:293-312 | What follows the target line's newline never matters |
| `CompletionPointTheorems.OnlyTheLastSeparatorMatters` | SwiftCompleter.cpp:294-312 | A buffer that agrees up to and including the last separator in range gives the same clean file if and only if it has no later separator in range; it then gives the same offset, and otherwise, below 4 GiB, a greater one |
| `CompletionPointTheorems.CleanFileGrowsWithColumn` | SwiftCompleter.cpp:295-311 | For a column further right the clean file extends that of the nearer one, and below 4 GiB the offset is no smaller, if and only if the nearer finds a separator, or the line has no separator in range of the further before its last character, or that is one itself; neither passes the line's end |
| `CompletionPointTheorems.ColumnToTheRightCanCut` | SwiftCompleter.cpp:295-311 | An input at which the offset gets smaller |
| `SourceKitRequest.DiagnosticFlagsFromFlags` | SwiftCompleter.cpp:454-464 | The flags without the file's name |
| `SourceKitRequest.WithoutIsTheRest` | SwiftCompleter.cpp:454-464 | What remains are the other flags with their multiplicity |
| `SourceKitRequest.WithoutKeepsOrder` | SwiftCompleter.cpp:454-464 | They keep their order: filtering distributes over concatenation |
| `SourceKitRequest.OthersRemain` | SwiftCompleter.cpp:98-104 | A flag remains if and only if it is not the file's name; the compiler arguments are the four defaults if all flags were that name or there were none, and otherwise what remains |
| `SourceKitRequest.ArgumentArray` | SwiftCompleter.cpp:217-224 | One element more than the arguments: the file's name first, then argument k at index k + 1, each as a C string |
| `SourceKitRequest.DiagnosticArguments` | SwiftCompleter.cpp:248-256 | The array sent for diagnostics: the file's name, then one by one the other flags, or the four arguments for the OS X SDK if all flags were that name |
| `SourceKitRequest.DiagnosticsFor` | SemanticHTTPServer.cpp:341-364 | What both editor requests carry: the request's file name, its contents, and that array |
| `SourceKitRequest.CStrOf` | SwiftCompleter.cpp:221-223 | A string handed over as a C string is cut at its first NUL |
| `SourceKitRequest.FileIsNamedOnce` | SwiftCompleter.cpp:248-256 | The file is named first, and again if and only if another flag reads the same as a C string, or no other flag is given and a default argument does |
| `SourceKitRequest.NamedLikeADefault` | SwiftCompleter.cpp:98-113 | An input at which the file is named twice: no flags, and the name of a default argument |
| `SourceKitRequest.NamedLikeAFlag` | SwiftCompleter.cpp:454-464 | Another: a flag that is the name and a NUL |
| `SourceKitRequest.CodeComplete` | SwiftCompleter.cpp:199-230 | Name, offset, text and arguments sent for a code completion, for all contexts; the flags, or the defaults if there are none, follow the name one by one |
| `SourceKitRequest.CandidatesForLocationInFile` | SwiftCompleter.cpp:466-480 | The same for an `int` line and column, which are converted to unsigned |
| `SourceKitRequest.CompletionsFor` | SemanticHTTPServer.cpp:288-319 | What the completions endpoint asks for: it aborts if and only if the contents in the request are empty, and otherwise sends name, offset, text and arguments made of the request |
| `SourceKitRequest.OffsetIsTheEndOfTheText` | SwiftCompleter.cpp:353-359 | Below 4 GiB the offset of a hit is the end of the text that SourceKit sees if and only if no line before the target line has a NUL, and each NUL of the target line is behind a separator in range and has none in range behind it |
| `SourceKitRequest.NulCutsTheText` | SwiftCompleter.cpp:353-359 | An input at which the offset lies beyond the text that is sent |
| `SourceKitRequest.NonPositiveLineMisses` | SwiftCompleter.cpp:466-473 | For a line that is not positive, and a buffer below 2 GiB, the offset is 0 and the text is the whole buffer, with a final newline |
| `SourceKitRequest.NegativeColumnMeansLineEnd` | SwiftCompleter.cpp:466-473 | For a negative column, and a buffer below 2 GiB, text and offset are those of a column at the end of the line |
| `FileBody.FileStream.Read` | file_body.hpp:65 | `fread`: a full buffer or all that is left, from the current position; or an error, after any number of bytes that were still delivered |
| `FileBody.Writer.constructor` | file_body.hpp:38-40 | Nothing opened, nothing sent |
| `FileBody.Writer.Init` | file_body.hpp:47-53 | Fails exactly if the file cannot be opened, and otherwise knows its size |
| `FileBody.Writer.Write` | file_body.hpp:60-74 | Sends the next min(4096, rest) bytes, the length worked out beforehand being the length read and never 0; says true exactly when all is sent; each error exactly when it occurs |
| `FileBody.Writer.Stream` | file_body.hpp:60-74 | Calling `write` until it returns true: the chunks are the file, in ceil(size / 4096) calls with 4096 bytes in all but the last, if and only if the file is not empty and no needed read fails; the assertion fails if and only if the file is empty and its first read does not fail; after a read error a prefix has been sent |
| `FileBody.SendEmptyFile` | file_body.hpp:60-74 | The input at which the assertion fails: an empty file |
| `FileBody.CallsSteps` | file_body.hpp:61-72 | Each call that does not end in an error leaves one call fewer to make |

## Left out

- SourceKit itself, uid creation, response dumping and descriptions: an answer is an arbitrary value of the environment, or an error.
- Beast, Asio and Dispatch internals, sockets, the strand, HTTP parsing, `prepare`, response header fields, and the unused `writeOp`/`asyncWrite` template: an operation is started and later completes. A session is named by the connection it was given.
- Parsing of JSON bodies, and exceptions thrown from it: handlers get well-formed bodies with at least one unsaved file.
- `Session::error` and `errorResponse`: nothing calls them.
- Real time: the two-second and ten-second delays are later steps. The server stops at exit.
- Logging, option parsing, the run loop, `Driver.cpp`.
- Weak memory: accesses interleave one at a time, also those to `_acceptor`, which nothing guards.
- Callbacks of a session: `onRead` and `onWrite` are one step each. What they touch is their own session's, and starting the next operation is the last thing they do. A handler block likewise ends with its `session->write`.
- Accepting: whether the acceptor is open and whether there was an error is looked at in one step; the error is an argument of the call. An accept on a closed acceptor may complete in any way.
- Workers: `HttpServer` gives each handler block and notification one of its own. `WorkerPool` bounds the diagnostics calls and the notifications, and leaves out the blocks of other endpoints.
- Reuse of addresses: every allocation has an identity of its own. A promise and the state it shares with its future are one object, of which only the promise is freed.
- `std::getline`'s limit `max_size`: a string may have any length.
- Characters: a `char` stands for one byte.
- `file_size` failing, or the file changing while it is sent. `assert` and `BOOST_ASSERT` are taken to be compiled in, their failure is an outcome, and ends the server.
- History: the fields marked as such (`at`, `ids`, `history`, `issued`, `owner`; `received`, `replies`, `current`, `ended`, `since`, `source`, `call`, `completions`; `delivered`, `connections`, `admitted`, `started`; `log`, `started`) are not in the source; they record what happened for the properties to speak of, and steps use them only to keep them up to date and, `connections` and `started`, to say that a new connection is new and that a second session on one is a fault.
- Unconditional liveness: the wait has no timeout, so what is proved is which calls and requests can still end, not that they do.
- HttpServer: a completion's body is the environment's answer, recorded with the request it was made for; what SourceKit is asked for that request is `SourceKitRequest.CompletionsFor`, which shares with `HttpServer` the condition under which it aborts.
- CompletionPoint.GetOffset: the out-parameters start as 0 and the empty string, as both callers pass them.
- HttpSession.Session.OnRead: the map of endpoints is that of the constructor, which nothing changes.
