/** What a run of the rendezvous comes to, in terms of the steps that were taken. */
module RendezvousSteps {
  import opened Wrappers
  import opened EventLog
  import opened Rendezvous
  import opened RendezvousProof
  import opened RendezvousTheorems
  import opened RendezvousProgress

  /** SourceKit's answers to the steps of call `t`, one for each step; only the first two are asked for. */
  function AnswersOf(steps: seq<Step>, t: Tid): seq<bool> {
    if steps == [] then []
    else
      var n := |steps| - 1;
      AnswersOf(steps[..n], t) + if steps[n].RunHandler? && steps[n].t == t then [steps[n].answered] else []
  }

  /** SourceKit's replies to the steps of notification `t`; only the second is asked for. */
  function RepliesOf(steps: seq<Step>, t: Tid): seq<string> {
    if steps == [] then []
    else
      var n := |steps| - 1;
      RepliesOf(steps[..n], t) + if steps[n].RunNotification? && steps[n].t == t then [steps[n].reply] else []
  }

  lemma {:induction false} RunPrefix(s: State, steps: seq<Step>)
    requires steps != [] && IsRun(s, steps)
    ensures var n := |steps| - 1;
            && IsRun(s, steps[..n]) && Enabled(After(s, steps[..n]), steps[n])
            && After(s, steps) == Take(After(s, steps[..n]), steps[n])
    decreases |steps|
  {
    var n := |steps| - 1;
    if n > 0 {
      RunPrefix(Take(s, steps[0]), steps[1..]);
      assert steps[1..][..n - 1] == steps[..n][1..];
      assert steps[1..][n - 1] == steps[n];
    }
  }

  // ----- Where a call is.

  /** Where a call is after these answers: its first two steps are the editor requests. */
  function StageAfter(answers: seq<bool>): HandlerStage {
    if |answers| == 0 then Opening
    else if |answers| == 1 then Replacing
    else if !answers[0] && !answers[1] then ReturnedEmpty
    else if |answers| == 2 then Allocating
    else if |answers| == 3 then Acquiring
    else if |answers| == 4 then Pushing
    else if |answers| == 5 then Retrieving
    else if |answers| == 6 then Releasing
    else if |answers| == 7 then Blocked
    else Returned
  }

  ghost predicate Follows(h: Handler, answers: seq<bool>) {
    h.stage == StageAfter(answers) && (|answers| == 1 ==> h.answered == answers[0])
  }

  lemma EarlyStepFollows(s: State, t: Tid, answered: bool, addr: Address, answers: seq<bool>)
    requires HandlerCanRun(s, t, addr) && Follows(s.handlers[t], answers) && |answers| <= 4
    ensures var s' := HandlerStep(s, t, answered, addr);
            !s'.fault ==> t in s'.handlers && Follows(s'.handlers[t], answers + [answered])
  {
    match s.handlers[t].stage
    case Opening =>
    case Replacing =>
    case Allocating =>
    case Acquiring =>
    case Pushing =>
  }

  lemma LateStepFollows(s: State, t: Tid, answered: bool, addr: Address, answers: seq<bool>)
    requires HandlerCanRun(s, t, addr) && Follows(s.handlers[t], answers) && |answers| > 4
    ensures var s' := HandlerStep(s, t, answered, addr);
            !s'.fault ==> t in s'.handlers && Follows(s'.handlers[t], answers + [answered])
  {
    match s.handlers[t].stage
    case Retrieving =>
    case Releasing =>
    case Blocked =>
  }

  lemma StepFollows(s: State, step: Step, t: Tid, answers: seq<bool>)
    requires Inv(s) && Enabled(s, step) && t in Take(s, step).handlers
    requires if t in s.handlers then Follows(s.handlers[t], answers) else answers == []
    ensures Follows(Take(s, step).handlers[t],
                    answers + if step.RunHandler? && step.t == t then [step.answered] else [])
  {
    match step
    case Request(u, file) =>
    case Notify(u, payload) =>
    case RunHandler(u, answered, addr) =>
      if u == t {
        HandlerKeepsInv(s, t, answered, addr);
        if |answers| <= 4 {
          EarlyStepFollows(s, t, answered, addr, answers);
        } else {
          LateStepFollows(s, t, answered, addr, answers);
        }
      } else {
        OtherHandlersKnown(s, u, answered, addr, t);
      }
    case RunNotification(u, reply) => NotificationFrame(s, u, reply);
  }

  lemma OtherHandlersKnown(s: State, u: Tid, answered: bool, addr: Address, t: Tid)
    requires HandlerCanRun(s, u, addr) && u != t && t in HandlerStep(s, u, answered, addr).handlers
    ensures t in s.handlers && HandlerStep(s, u, answered, addr).handlers[t] == s.handlers[t]
  {
    KeysStay(s, u, answered, addr);
    OtherHandlersStay(s, u, answered, addr, t);
  }

  lemma {:induction false} NoStepsBefore(steps: seq<Step>, t: Tid)
    requires IsRun(INITIAL, steps) && t !in After(INITIAL, steps).handlers
    ensures AnswersOf(steps, t) == []
    decreases |steps|
  {
    if steps != [] {
      var n := |steps| - 1;
      RunPrefix(INITIAL, steps);
      var s := After(INITIAL, steps[..n]);
      match steps[n] {
        case RunHandler(u, answered, addr) => KeysStay(s, u, answered, addr);
        case RunNotification(u, reply) => NotificationFrame(s, u, reply);
        case _ =>
      }
      NoStepsBefore(steps[..n], t);
    }
  }

  /** In every run, where a call is follows from the number of its steps and from the first two answers. */
  lemma {:induction false} CallFollowsItsSteps(steps: seq<Step>, t: Tid)
    requires IsRun(INITIAL, steps) && t in After(INITIAL, steps).handlers
    ensures Follows(After(INITIAL, steps).handlers[t], AnswersOf(steps, t))
    decreases |steps|
  {
    if steps != [] {
      var n := |steps| - 1;
      RunPrefix(INITIAL, steps);
      var s := After(INITIAL, steps[..n]);
      InitiallyInv();
      RunKeepsInv(INITIAL, steps[..n]);
      if t in s.handlers {
        CallFollowsItsSteps(steps[..n], t);
      } else {
        NoStepsBefore(steps[..n], t);
      }
      StepFollows(s, steps[n], t, AnswersOf(steps[..n], t));
    }
  }

  /**
   A call that is past its two editor requests has returned the empty result if and only if both
   were answered by an error.  Otherwise it goes on: its third step allocates, its fifth registers it
   under its own file, and its eighth returns what it waited for.
   */
  lemma EmptyIffBothRequestsFail(steps: seq<Step>, t: Tid)
    requires IsRun(INITIAL, steps) && t in After(INITIAL, steps).handlers && |AnswersOf(steps, t)| >= 2
    ensures var s, answers := After(INITIAL, steps), AnswersOf(steps, t);
            var h := s.handlers[t];
            && (h.stage.ReturnedEmpty? <==> !answers[0] && !answers[1])
            && (answers[0] || answers[1] ==>
                  && (h.p.Some? <==> |answers| >= 3)
                  && (h.at.Some? <==> |answers| >= 5)
                  && (h.stage.Returned? <==> |answers| >= 8)
                  && (h.at.Some? ==>
                        IsRegistration(s.history.log, h.at.value) && s.history.log[h.at.value].key == h.file))
  {
    var s := After(INITIAL, steps);
    InitiallyInv();
    RunKeepsInv(INITIAL, steps);
    CallFollowsItsSteps(steps, t);
    CallHasByStage(s, t);
    StagesInOrder(s.handlers[t], AnswersOf(steps, t));
  }

  lemma StagesInOrder(h: Handler, answers: seq<bool>)
    requires Follows(h, answers) && |answers| >= 2
    ensures h.stage.ReturnedEmpty? <==> !answers[0] && !answers[1]
    ensures answers[0] || answers[1] ==>
      && !h.stage.Opening? && !h.stage.Replacing?
      && (h.stage.Allocating? <==> |answers| == 2)
      && (h.stage.Acquiring? || h.stage.Pushing? <==> |answers| == 3 || |answers| == 4)
      && (h.stage.Returned? <==> |answers| >= 8)
  {
  }

  /** When a call has its promise and its registration. */
  lemma CallHasByStage(s: State, t: Tid)
    requires Inv(s) && t in s.handlers
    ensures var h := s.handlers[t];
            && (h.p.Some? <==>
                  !h.stage.Opening? && !h.stage.Replacing? && !h.stage.Allocating? && !h.stage.ReturnedEmpty?)
            && (h.at.Some? <==> h.p.Some? && !h.stage.Acquiring? && !h.stage.Pushing?)
            && (h.at.Some? ==> IsRegistration(s.history.log, h.at.value) && s.history.log[h.at.value].key == h.file)
  {
    assert HandlerOk(t, s.handlers[t], s.heap, s.issued, s.history.board);
    if s.handlers[t].at.Some? {
      BoardMeaning(s, s.handlers[t].at.value);
    }
  }

  /** A call works for the file that it was made for. */
  lemma {:induction false} CallIsForItsFile(steps: seq<Step>, t: Tid)
    requires IsRun(INITIAL, steps) && t in After(INITIAL, steps).handlers
    ensures Request(t, After(INITIAL, steps).handlers[t].file) in steps
    decreases |steps|
  {
    if steps != [] {
      var n := |steps| - 1;
      RunPrefix(INITIAL, steps);
      var s := After(INITIAL, steps[..n]);
      match steps[n] {
        case RunHandler(u, answered, addr) =>
          KeysStay(s, u, answered, addr);
          StepKeepsFile(s, u, answered, addr, t);
        case RunNotification(u, reply) => NotificationFrame(s, u, reply);
        case _ =>
      }
      if t in s.handlers {
        CallIsForItsFile(steps[..n], t);
      }
      assert steps[n] in steps;
    }
  }

  lemma StepKeepsFile(s: State, u: Tid, answered: bool, addr: Address, t: Tid)
    requires HandlerCanRun(s, u, addr) && t in s.handlers
    ensures var s' := HandlerStep(s, u, answered, addr);
            t in s'.handlers && s'.handlers[t].file == s.handlers[t].file
  {
    if u == t {
      OwnFileStays(s, t, answered, addr);
    } else {
      OtherHandlersStay(s, u, answered, addr, t);
    }
  }

  /** An answer to the second editor request alone is enough to wait for a file that never comes. */
  lemma NamelessCallGetsStuckBySecondAnswer()
    ensures var steps := [Request(0, ""), RunHandler(0, false, 0), RunHandler(0, true, 0)];
            && IsRun(INITIAL, steps)
            && 0 in After(INITIAL, steps).handlers && IsHopeless(After(INITIAL, steps).handlers[0])
            && forall more :: !CanEnd(After(INITIAL, steps), more, 0)
  {
    var steps := [Request(0, ""), RunHandler(0, false, 0), RunHandler(0, true, 0)];
    var s1 := Take(INITIAL, steps[0]);
    var s2 := Take(s1, steps[1]);
    OneStepRun(s2, steps[2]);
    assert steps[1..] == [steps[1], steps[2]];
    assert steps[1..][1..] == [steps[2]];
    CallCanReturnIffNotHopeless(steps, 0);
  }

  // ----- What is published.

  /** How far a notification is, and what it has got, by the replies to its steps. */
  ghost predicate Got(n: Notification, replies: seq<string>) {
    && (n.stage.Received? ==> |replies| == 0)
    && (n.stage.Requesting? ==> |replies| == 1)
    && (!n.stage.Received? && !n.stage.Requesting? && !n.stage.Done? ==> |replies| >= 2 && n.value == replies[1])
  }

  lemma StepGets(s: State, t: Tid, reply: string, replies: seq<string>)
    requires NotificationCanRun(s, t) && Got(s.notifications[t], replies)
    ensures var s' := NotificationStep(s, t, reply);
            !s'.fault ==> t in s'.notifications && Got(s'.notifications[t], replies + [reply])
  {
    match s.notifications[t].stage
    case Received =>
    case Requesting =>
    case Locking =>
    case Finding =>
    case Looping => LoopFrame(s, t);
    case Erasing =>
    case Unlocking =>
  }

  lemma {:induction false} NoRepliesBefore(steps: seq<Step>, t: Tid)
    requires IsRun(INITIAL, steps) && t !in After(INITIAL, steps).notifications
    ensures RepliesOf(steps, t) == []
    decreases |steps|
  {
    if steps != [] {
      var n := |steps| - 1;
      RunPrefix(INITIAL, steps);
      var s := After(INITIAL, steps[..n]);
      match steps[n] {
        case RunHandler(u, answered, addr) => HandlerFrame(s, u, answered, addr);
        case RunNotification(u, reply) => NotificationFrame(s, u, reply);
        case _ =>
      }
      NoRepliesBefore(steps[..n], t);
    }
  }

  lemma {:induction false} NotificationGets(steps: seq<Step>, t: Tid)
    requires IsRun(INITIAL, steps) && t in After(INITIAL, steps).notifications
    ensures Got(After(INITIAL, steps).notifications[t], RepliesOf(steps, t))
    ensures Notify(t, After(INITIAL, steps).notifications[t].payload) in steps
    decreases |steps|
  {
    if steps != [] {
      var n := |steps| - 1;
      RunPrefix(INITIAL, steps);
      var s := After(INITIAL, steps[..n]);
      assert steps[n] in steps && forall x :: x in steps[..n] ==> x in steps;
      if t in s.notifications {
        NotificationGets(steps[..n], t);
      } else {
        NoRepliesBefore(steps[..n], t);
      }
      match steps[n] {
        case RunHandler(u, answered, addr) => HandlerFrame(s, u, answered, addr);
        case RunNotification(u, reply) =>
          NotificationFrame(s, u, reply);
          if u == t {
            InitiallyInv();
            RunKeepsInv(INITIAL, steps);
            StepGets(s, t, reply, RepliesOf(steps[..n], t));
          }
        case _ =>
      }
    }
  }

  /** Notification `t` was for `name`, and SourceKit's reply to the request it made was `value`. */
  ghost predicate Brought(steps: seq<Step>, t: Tid, name: string, value: string) {
    && (exists payload: Payload :: payload.Named? && payload.name == name && Notify(t, payload) in steps)
    && |RepliesOf(steps, t)| >= 2 && RepliesOf(steps, t)[1] == value
  }

  lemma BroughtStays(steps: seq<Step>, t: Tid, name: string, value: string)
    requires steps != [] && Brought(steps[..|steps| - 1], t, name, value)
    ensures Brought(steps, t, name, value)
  {
    var payload: Payload :| payload.Named? && payload.name == name && Notify(t, payload) in steps[..|steps| - 1];
    assert Notify(t, payload) in steps;
  }

  /** Whatever is published came with a notification for that file, and is what SourceKit replied to its request. */
  lemma {:induction false} PublishedIsTheReply(steps: seq<Step>, j: nat)
    requires IsRun(INITIAL, steps)
    requires j < |After(INITIAL, steps).history.log| && After(INITIAL, steps).history.log[j].Published?
    ensures var log := After(INITIAL, steps).history.log;
            exists t :: Brought(steps, t, log[j].key, log[j].value)
    decreases |steps|
  {
    if steps != [] {
      var n := |steps| - 1;
      RunPrefix(INITIAL, steps);
      var s, s' := After(INITIAL, steps[..n]), After(INITIAL, steps);
      match steps[n] {
        case RunHandler(u, answered, addr) => HandlerFrame(s, u, answered, addr);
        case RunNotification(u, reply) => NotificationFrame(s, u, reply);
        case _ =>
      }
      if j < |s.history.log| {
        PublishedIsTheReply(steps[..n], j);
        var t :| Brought(steps[..n], t, s.history.log[j].key, s.history.log[j].value);
        BroughtStays(steps, t, s.history.log[j].key, s.history.log[j].value);
      } else {
        PublisherBrought(steps[..n], steps[n].t);
        BroughtStays(steps, steps[n].t, s.notifications[steps[n].t].name, s.notifications[steps[n].t].value);
      }
    }
  }

  lemma PublisherBrought(steps: seq<Step>, t: Tid)
    requires IsRun(INITIAL, steps)
    requires t in After(INITIAL, steps).notifications && After(INITIAL, steps).notifications[t].stage.Finding?
    ensures var n := After(INITIAL, steps).notifications[t]; Brought(steps, t, n.name, n.value)
  {
    NotificationGets(steps, t);
    NamedByPayload(steps, t);
  }

  /** A notification that goes on goes on under its payload's name. */
  lemma {:induction false} NamedByPayload(steps: seq<Step>, t: Tid)
    requires IsRun(INITIAL, steps) && t in After(INITIAL, steps).notifications
    ensures var n := After(INITIAL, steps).notifications[t];
            n.stage.Received? || n.stage.Done? || (n.payload.Named? && n.payload.name == n.name && n.name != "")
    decreases |steps|
  {
    if steps != [] {
      var n := |steps| - 1;
      RunPrefix(INITIAL, steps);
      var s := After(INITIAL, steps[..n]);
      if t in s.notifications {
        NamedByPayload(steps[..n], t);
      }
      match steps[n] {
        case RunHandler(u, answered, addr) => HandlerFrame(s, u, answered, addr);
        case RunNotification(u, reply) => NotificationFrame(s, u, reply);
        case _ =>
      }
    }
  }
}
