/**
 The rendezvous on a bounded pool.  Calls of `DiagnosticsForFile` and of `NotificationReceiver` are
 blocks on the same global queue, and the former block there.  With a bound on how many run at a
 time, the calls that wait can keep out the very notifications that they wait for.
 */
module WorkerPool {
  import opened Wrappers
  import opened EventLog
  import opened Rendezvous
  import opened RendezvousProof
  import opened RendezvousTheorems
  import opened RendezvousProgress

  function BusyHandlers(s: State): set<Tid> {
    set t | t in s.handlers && !s.handlers[t].stage.Returned? && !s.handlers[t].stage.ReturnedEmpty?
  }

  function BusyNotifications(s: State): set<Tid> {
    set t | t in s.notifications && !s.notifications[t].stage.Done?
  }

  /** How many workers are in use. */
  function Busy(s: State): nat {
    |BusyHandlers(s)| + |BusyNotifications(s)|
  }

  /** The step can be taken with this many workers: a new call needs one that is not in use. */
  predicate Fits(s: State, step: Step, workers: nat) {
    Enabled(s, step) && (step.Request? || step.Notify? ==> Busy(s) < workers)
  }

  predicate IsPoolRun(s: State, steps: seq<Step>, workers: nat)
    decreases |steps|
  {
    steps == [] || (Fits(s, steps[0], workers) && IsPoolRun(Take(s, steps[0]), steps[1..], workers))
  }

  lemma {:induction false} PoolRunIsRun(s: State, steps: seq<Step>, workers: nat)
    requires IsPoolRun(s, steps, workers)
    ensures IsRun(s, steps)
    decreases |steps|
  {
    if steps != [] {
      PoolRunIsRun(Take(s, steps[0]), steps[1..], workers);
    }
  }

  // ----- A step that brings nothing new leaves no fewer workers, and makes no call hopeless.

  /** No worker more is in use than in `s`, and no call has become hopeless. */
  ghost predicate NoWorse(s: State, s': State) {
    && BusyHandlers(s') <= BusyHandlers(s) && BusyNotifications(s') <= BusyNotifications(s)
    && forall t :: t in s.handlers ==> t in s'.handlers && (IsHopeless(s'.handlers[t]) ==> IsHopeless(s.handlers[t]))
  }

  lemma NoWorseTwice(s: State, s1: State, s2: State)
    requires NoWorse(s, s1) && NoWorse(s1, s2)
    ensures NoWorse(s, s2)
  {
  }

  lemma Fewer(s: State, s': State)
    requires NoWorse(s, s')
    ensures Busy(s') <= Busy(s)
    ensures BusyNotifications(s') != BusyNotifications(s) || BusyHandlers(s') != BusyHandlers(s) ==> Busy(s') < Busy(s)
  {
    SubsetIsSmaller(BusyHandlers(s'), BusyHandlers(s));
    SubsetIsSmaller(BusyNotifications(s'), BusyNotifications(s));
  }

  lemma SubsetIsSmaller<T>(a: set<T>, b: set<T>)
    requires a <= b
    ensures |a| <= |b| && (a != b ==> |a| < |b|)
  {
    assert |b| == |a| + |b - a| by {
      assert b == a + (b - a);
    }
    if a != b {
      assert b - a != {};
    }
  }

  lemma NotificationStepIsNoWorse(s: State, t: Tid, reply: string)
    requires NotificationCanRun(s, t)
    ensures NoWorse(s, NotificationStep(s, t, reply))
  {
    NotificationFrame(s, t, reply);
  }

  /** What its own step makes of a call. */
  lemma HandlerStepIsNoWorse(s: State, t: Tid, addr: Address)
    requires HandlerCanRun(s, t, addr)
    requires IsBound(s.handlers[t]) || s.handlers[t].stage.Opening? || s.handlers[t].stage.Replacing?
    ensures NoWorse(s, HandlerStep(s, t, false, addr))
  {
    var s' := HandlerStep(s, t, false, addr);
    HandlerFrame(s, t, false, addr);
    OwnFileStays(s, t, false, addr);
    forall u | u in s.handlers
      ensures u in s'.handlers && (u != t ==> s'.handlers[u] == s.handlers[u])
    {
      if u != t {
        OtherHandlersStay(s, t, false, addr, u);
      }
    }
    KeysStay(s, t, false, addr);
    if !IsBound(s.handlers[t]) {
      UnboundStaysUnbound(s, t, addr);
    }
  }

  /** If no editor request is answered, a call that was not bound yet returns the empty result. */
  lemma UnboundStaysUnbound(s: State, t: Tid, addr: Address)
    requires HandlerCanRun(s, t, addr) && !IsBound(s.handlers[t])
    requires s.handlers[t].stage.Opening? || s.handlers[t].stage.Replacing?
    ensures HandlerStep(s, t, false, addr)
         == Move(s, t, s.handlers[t].(stage := if s.handlers[t].stage.Opening? then Replacing
             else ReturnedEmpty, answered := false))
  {
  }

  lemma UnboundIsNoWorse(s: State, t: Tid)
    requires t in s.handlers && (s.handlers[t].stage.Opening? || (s.handlers[t].stage.Replacing?
             && !s.handlers[t].answered))
    ensures HandlerCanRun(s, t, 0) && NoWorse(s, HandlerStep(s, t, false, 0))
  {
    HandlerStepIsNoWorse(s, t, 0);
  }

  // ----- Which runs fit.

  /** Nothing arrives in such a step, so no worker more is in use after it. */
  lemma QuietStepFrees(s: State, step: Step)
    requires Enabled(s, step) && IsQuiet(step, None)
    ensures Busy(Take(s, step)) <= Busy(s) && Take(s, step).notifications.Keys == s.notifications.Keys
  {
    var s' := Take(s, step);
    match step {
      case RunHandler(t, answered, addr) =>
        HandlerFrame(s, t, answered, addr);
        KeysStay(s, t, answered, addr);
        forall u | u in BusyHandlers(s')
          ensures u in BusyHandlers(s)
        {
          if u != t {
            OtherHandlersStay(s, t, answered, addr, u);
          }
        }
      case RunNotification(t, reply) => NotificationFrame(s, t, reply);
    }
    SubsetIsSmaller(BusyHandlers(s'), BusyHandlers(s));
    SubsetIsSmaller(BusyNotifications(s'), BusyNotifications(s));
  }

  lemma OneMore<T>(a: set<T>, x: T, b: set<T>)
    requires x !in a && b == a + {x}
    ensures |b| == |a| + 1
  {
  }

  lemma RequestTakesOne(s: State, t: Tid, file: string)
    requires t !in s.handlers
    ensures Busy(Take(s, Request(t, file))) == Busy(s) + 1
  {
    var s' := Take(s, Request(t, file));
    OneMore(BusyHandlers(s), t, BusyHandlers(s'));
    assert BusyNotifications(s') == BusyNotifications(s);
  }

  lemma NotificationTakesOne(s: State, t: Tid, payload: Payload)
    requires t !in s.notifications
    ensures Busy(Take(s, Notify(t, payload))) == Busy(s) + 1
  {
    var s' := Take(s, Notify(t, payload));
    OneMore(BusyNotifications(s), t, BusyNotifications(s'));
    assert BusyHandlers(s') == BusyHandlers(s);
  }

  lemma FittingStepKeepsBound(s: State, step: Step, workers: nat)
    requires Busy(s) <= workers && Fits(s, step, workers)
    ensures Busy(Take(s, step)) <= workers
  {
    match step
    case Request(t, file) => RequestTakesOne(s, t, file);
    case Notify(t, payload) => NotificationTakesOne(s, t, payload);
    case _ => QuietStepFrees(s, step);
  }

  /** A run in which at most one notification arrives fits if there is a worker for it. */
  lemma {:induction false} QuietRunFits(s: State, steps: seq<Step>, n: Tid, workers: nat)
    requires IsRun(s, steps) && OnlyArrives(steps, Some(n))
    requires n in s.notifications || Busy(s) < workers
    ensures IsPoolRun(s, steps, workers)
    decreases |steps|
  {
    if steps != [] {
      assert IsQuiet(steps[0], Some(n));
      if !steps[0].Notify? {
        QuietStepFrees(s, steps[0]);
      }
      QuietRunFits(Take(s, steps[0]), steps[1..], n, workers);
    }
  }

  /** A run in which nothing arrives always fits. */
  lemma {:induction false} SilentRunFits(s: State, steps: seq<Step>, workers: nat)
    requires IsRun(s, steps) && OnlyArrives(steps, None)
    ensures IsPoolRun(s, steps, workers)
    decreases |steps|
  {
    if steps != [] {
      assert IsQuiet(steps[0], None);
      SilentRunFits(Take(s, steps[0]), steps[1..], workers);
    }
  }

  lemma {:induction false} PoolRunsCompose(s: State, first: seq<Step>, second: seq<Step>, workers: nat)
    requires IsPoolRun(s, first, workers) && IsRun(s, first) && IsPoolRun(After(s, first), second, workers)
    ensures IsPoolRun(s, first + second, workers)
    decreases |first|
  {
    if first == [] {
      assert first + second == second;
    } else {
      assert (first + second)[1..] == first[1..] + second;
      PoolRunsCompose(Take(s, first[0]), first[1..], second, workers);
    }
  }

  lemma {:induction false} PoolIsNeverExceeded(s: State, steps: seq<Step>, workers: nat)
    requires Busy(s) <= workers && IsPoolRun(s, steps, workers) && IsRun(s, steps)
    ensures Busy(After(s, steps)) <= workers
    decreases |steps|
  {
    if steps != [] {
      FittingStepKeepsBound(s, steps[0], workers);
      PoolIsNeverExceeded(Take(s, steps[0]), steps[1..], workers);
    }
  }

  // ----- Which workers can be freed.

  ghost predicate IsAnswered(s: State, h: Handler) {
    h.at.Some? && h.at.value in s.history.board && s.history.board[h.at.value].outcome.Some?
  }

  /** The call can return although nothing new arrives. */
  ghost predicate CanFinish(s: State, t: Tid) {
    t in BusyHandlers(s) && (!IsBound(s.handlers[t]) || IsAnswered(s, s.handlers[t]))
  }

  /** Some worker is on a notification, on a call that is not bound to wait yet, or on one that is answered. */
  ghost predicate CanFree(s: State) {
    BusyNotifications(s) != {} || exists t :: CanFinish(s, t)
  }

  /** Nothing arrived in these steps, and a worker has been freed. */
  ghost predicate Frees(s: State, steps: seq<Step>) {
    && IsRun(s, steps) && OnlyArrives(steps, None)
    && Inv(After(s, steps)) && NoWorse(s, After(s, steps)) && Busy(After(s, steps)) < Busy(s)
  }

  /** How many steps a notification is from the mutex. */
  function Distance(n: Notification): nat {
    match n.stage
    case Received => 3
    case Requesting => 2
    case Locking => 1
    case _ => 0
  }

  lemma HolderStepIsNoWorse(s: State, u: Tid)
    requires Inv(s) && !s.lock.Free? && u in BusyNotifications(s)
    ensures Enabled(s, HolderStep(s))
    ensures var s' := Take(s, HolderStep(s));
            && Inv(s') && NoWorse(s, s') && StepsLeft(s') < StepsLeft(s)
            && u in s'.notifications && Distance(s'.notifications[u]) <= Distance(s.notifications[u])
  {
    HolderProgresses(s);
    StepKeepsInv(s, HolderStep(s));
    if s.lock.HeldByHandler? {
      HandlerStepIsNoWorse(s, s.lock.t, 0);
      HandlerFrame(s, s.lock.t, false, 0);
    } else {
      NotificationStepIsNoWorse(s, s.lock.t, "");
      NotificationFrame(s, s.lock.t, "");
      HolderStaysNear(s, s.lock.t);
    }
  }

  lemma HolderStaysNear(s: State, t: Tid)
    requires NotificationCanRun(s, t) && NotificationIsInside(s.notifications[t])
    ensures var s' := NotificationStep(s, t, "");
            t in s'.notifications && Distance(s'.notifications[t]) == 0
  {
    match s.notifications[t].stage
    case Finding =>
    case Looping =>
    case Erasing =>
    case Unlocking =>
  }

  lemma NotificationNears(s: State, u: Tid)
    requires Inv(s) && s.lock.Free? && u in BusyNotifications(s)
    ensures NotificationCanRun(s, u)
    ensures var s' := NotificationStep(s, u, "");
            && Inv(s') && NoWorse(s, s')
            && u in s'.notifications && Distance(s'.notifications[u]) < Distance(s.notifications[u])
  {
    NotificationKeepsInv(s, u, "");
    NotificationStepIsNoWorse(s, u, "");
    match s.notifications[u].stage
    case Received =>
    case Requesting =>
    case Locking =>
  }

  /** A notification can run to its end. */
  lemma {:induction false} NotificationCanEnd(s: State, u: Tid) returns (steps: seq<Step>)
    requires Inv(s) && u in s.notifications
    ensures IsRun(s, steps) && OnlyArrives(steps, None)
    ensures Inv(After(s, steps)) && NoWorse(s, After(s, steps)) && u !in BusyNotifications(After(s, steps))
    decreases Distance(s.notifications[u]), StepsLeft(s)
  {
    if u !in BusyNotifications(s) {
      steps := [];
    } else {
      var step := if s.lock.Free? then RunNotification(u, "") else HolderStep(s);
      if s.lock.Free? {
        NotificationNears(s, u);
      } else {
        HolderStepIsNoWorse(s, u);
      }
      var rest := NotificationCanEnd(Take(s, step), u);
      QuietStepAndRun(s, step, rest, None);
      NoWorseTwice(s, Take(s, step), After(Take(s, step), rest));
      steps := [step] + rest;
    }
  }

  lemma AnsweredIsBlocked(s: State, t: Tid)
    requires Inv(s) && BusyNotifications(s) == {} && t in s.handlers && IsAnswered(s, s.handlers[t])
    requires !s.handlers[t].stage.Returned?
    ensures s.handlers[t].stage.Releasing? || (s.handlers[t].stage.Blocked? && HandlerCanRun(s, t, 0))
  {
    forall u | u in s.notifications
      ensures s.notifications[u].stage.Done?
    {
      assert u !in BusyNotifications(s);
    }
  }

  lemma FreesLater(s: State, step: Step, rest: seq<Step>)
    requires Enabled(s, step) && IsQuiet(step, None) && NoWorse(s, Take(s, step)) && Frees(Take(s, step), rest)
    ensures Frees(s, [step] + rest)
  {
    QuietStepAndRun(s, step, rest, None);
    QuietStepFrees(s, step);
    NoWorseTwice(s, Take(s, step), After(Take(s, step), rest));
  }

  lemma LastStepFrees(s: State, t: Tid)
    requires Inv(s) && t in BusyHandlers(s) && HandlerCanRun(s, t, 0) && NoWorse(s, HandlerStep(s, t, false, 0))
    requires t !in BusyHandlers(HandlerStep(s, t, false, 0))
    ensures Frees(s, [RunHandler(t, false, 0)])
  {
    OneStepRun(s, RunHandler(t, false, 0));
    HandlerKeepsInv(s, t, false, 0);
    Fewer(s, HandlerStep(s, t, false, 0));
  }

  lemma BlockedFrees(s: State, t: Tid)
    requires Inv(s) && t in s.handlers && s.handlers[t].stage.Blocked? && HandlerCanRun(s, t, 0)
    ensures Frees(s, [RunHandler(t, false, 0)])
  {
    HandlerStepIsNoWorse(s, t, 0);
    BlockedReturns(s, t);
    LastStepFrees(s, t);
  }

  lemma AnsweredCanReturn(s: State, t: Tid) returns (steps: seq<Step>)
    requires Inv(s) && BusyNotifications(s) == {} && t in BusyHandlers(s) && IsAnswered(s, s.handlers[t])
    ensures Frees(s, steps)
  {
    var step := RunHandler(t, false, 0);
    AnsweredIsBlocked(s, t);
    if s.handlers[t].stage.Blocked? {
      BlockedFrees(s, t);
      steps := [step];
    } else {
      ReleaseGoesOn(s, t);
      AnsweredIsBlocked(Take(s, step), t);
      BlockedFrees(Take(s, step), t);
      FreesLater(s, step, [step]);
      steps := [step] + [step];
    }
  }

  lemma BlockedReturns(s: State, t: Tid)
    requires Inv(s) && t in s.handlers && s.handlers[t].stage.Blocked? && HandlerCanRun(s, t, 0)
    ensures var s' := HandlerStep(s, t, false, 0); t in s'.handlers && s'.handlers[t].stage.Returned?
  {
  }

  lemma ReleaseGoesOn(s: State, t: Tid)
    requires Inv(s) && t in s.handlers && s.handlers[t].stage.Releasing?
    ensures HandlerCanRun(s, t, 0)
    ensures var s' := HandlerStep(s, t, false, 0);
            && Inv(s') && NoWorse(s, s') && s'.notifications == s.notifications && s'.history == s.history
            && t in s'.handlers && s'.handlers[t] == s.handlers[t].(stage := Blocked)
  {
    HandlerKeepsInv(s, t, false, 0);
    HandlerStepIsNoWorse(s, t, 0);
  }

  lemma UnansweredFrees(s: State, t: Tid)
    requires Inv(s) && t in s.handlers && s.handlers[t].stage.Replacing? && !s.handlers[t].answered
    ensures Frees(s, [RunHandler(t, false, 0)])
  {
    UnboundIsNoWorse(s, t);
    UnboundStaysUnbound(s, t, 0);
    LastStepFrees(s, t);
  }

  lemma UnboundCanReturn(s: State, t: Tid) returns (steps: seq<Step>)
    requires Inv(s) && t in BusyHandlers(s) && !IsBound(s.handlers[t])
    ensures Frees(s, steps)
  {
    var step := RunHandler(t, false, 0);
    if s.handlers[t].stage.Replacing? {
      UnansweredFrees(s, t);
      steps := [step];
    } else {
      UnboundIsNoWorse(s, t);
      UnboundStaysUnbound(s, t, 0);
      HandlerKeepsInv(s, t, false, 0);
      UnansweredFrees(Take(s, step), t);
      FreesLater(s, step, [step]);
      steps := [step] + [step];
    }
  }

  lemma WorkerCanBeFreed(s: State) returns (steps: seq<Step>)
    requires Inv(s) && CanFree(s)
    ensures Frees(s, steps)
  {
    if u :| u in BusyNotifications(s) {
      steps := NotificationCanEnd(s, u);
      Fewer(s, After(s, steps));
    } else {
      var t :| CanFinish(s, t);
      if IsBound(s.handlers[t]) {
        steps := AnsweredCanReturn(s, t);
      } else {
        steps := UnboundCanReturn(s, t);
      }
    }
  }

  // ----- A pool that is used up by waiting calls stays so.

  ghost predicate IsUsedUp(s: State, workers: nat) {
    Busy(s) >= workers && !CanFree(s)
  }

  lemma ReturnedIsAnswered(s: State, t: Tid)
    requires Inv(s) && t in s.handlers && s.handlers[t].stage.Returned?
    ensures IsAnswered(s, s.handlers[t])
  {
    var at := s.handlers[t].at.value;
    ReturnedIsFirst(s, t);
    BoardMeaning(s, at);
    var j: nat :| FirstAfter(s.history.log, at, j);
    assert s.history.board[at].outcome == Some(s.history.log[j].value);
  }

  /** A handler's step answers no call. */
  lemma HandlerAnswersNothing(s: State, u: Tid, answered: bool, addr: Address, t: Tid)
    requires Inv(s) && HandlerCanRun(s, u, addr) && t in s.handlers && !IsAnswered(s, s.handlers[t])
    ensures var s' := HandlerStep(s, u, answered, addr);
            t in s'.handlers && !IsAnswered(s', s'.handlers[t])
  {
    BoardListsRegistrations(s.history.log);
    HandlerFrame(s, u, answered, addr);
    if u == t {
      RegistersLater(s, t, answered, addr);
    } else {
      OtherHandlersStay(s, u, answered, addr, t);
    }
  }

  lemma WaitingStaysWaiting(s: State, u: Tid, answered: bool, addr: Address, t: Tid)
    requires Inv(s) && HandlerCanRun(s, u, addr)
    requires t in BusyHandlers(s) && IsBound(s.handlers[t]) && !IsAnswered(s, s.handlers[t])
    ensures var s' := HandlerStep(s, u, answered, addr);
            t in BusyHandlers(s') && IsBound(s'.handlers[t]) && !IsAnswered(s', s'.handlers[t])
  {
    var s' := HandlerStep(s, u, answered, addr);
    HandlerAnswersNothing(s, u, answered, addr, t);
    if u == t {
      OwnStepOfBound(s, t, answered, addr);
      HandlerKeepsInv(s, t, answered, addr);
      if s'.handlers[t].stage.Returned? {
        ReturnedIsAnswered(s', t);
      }
    } else {
      OtherHandlersStay(s, u, answered, addr, t);
    }
  }

  lemma StepKeepsUsedUp(s: State, step: Step, workers: nat)
    requires Inv(s) && IsUsedUp(s, workers) && Fits(s, step, workers)
    ensures IsUsedUp(Take(s, step), workers) && BusyHandlers(Take(s, step)) == BusyHandlers(s)
  {
    forall u | u in s.notifications
      ensures !NotificationCanRun(s, u)
    {
      assert u !in BusyNotifications(s);
    }
    assert step.RunHandler?;
    var s' := Take(s, step);
    HandlerFrame(s, step.t, step.answered, step.addr);
    forall t | t in BusyHandlers(s)
      ensures t in BusyHandlers(s') && !CanFinish(s', t)
    {
      assert !CanFinish(s, t);
      WaitingStaysWaiting(s, step.t, step.answered, step.addr, t);
    }
    KeysStay(s, step.t, step.answered, step.addr);
    forall t | t in BusyHandlers(s')
      ensures t in BusyHandlers(s)
    {
      if t != step.t {
        OtherHandlersStay(s, step.t, step.answered, step.addr, t);
      }
    }
    assert BusyHandlers(s') == BusyHandlers(s) && BusyNotifications(s') == BusyNotifications(s);
  }

  lemma {:induction false} UsedUpForGood(s: State, steps: seq<Step>, workers: nat)
    requires Inv(s) && IsUsedUp(s, workers) && IsPoolRun(s, steps, workers) && IsRun(s, steps)
    ensures IsUsedUp(After(s, steps), workers) && BusyHandlers(After(s, steps)) == BusyHandlers(s)
    decreases |steps|
  {
    if steps != [] {
      StepKeepsUsedUp(s, steps[0], workers);
      StepKeepsInv(s, steps[0]);
      UsedUpForGood(Take(s, steps[0]), steps[1..], workers);
    }
  }

  // ----- The main result.

  ghost predicate CanEndInPool(s: State, steps: seq<Step>, t: Tid, workers: nat) {
    IsPoolRun(s, steps, workers) && IsRun(s, steps) && IsOver(After(s, steps), t)
  }

  lemma ServedByPool(s: State, t: Tid, workers: nat) returns (steps: seq<Step>)
    requires Inv(s) && t in s.handlers && !IsHopeless(s.handlers[t]) && Busy(s) <= workers && !IsUsedUp(s, workers)
    ensures CanEndInPool(s, steps, t, workers)
  {
    var first := [];
    if Busy(s) >= workers {
      first := WorkerCanBeFreed(s);
    }
    var s1 := After(s, first);
    var n := FreshKey(s1.notifications);
    var addr := FreshKey(s1.heap);
    var second := CallCanReturn(s1, t, n, addr, "");
    SilentRunFits(s, first, workers);
    QuietRunFits(s1, second, n, workers);
    RunsCompose(s, first, second);
    PoolRunsCompose(s, first, second, workers);
    steps := first + second;
  }

  /**
   At any point of any run on a bounded pool, a call that has not returned can still return if and
   only if it is not hopeless, and the pool is not used up: a worker is free, or is on a
   notification, on a call not bound to wait yet, or on one that has its answer.
   */
  lemma CallCanReturnIffPoolServes(before: seq<Step>, t: Tid, workers: nat)
    requires IsPoolRun(INITIAL, before, workers) && IsRun(INITIAL, before)
    requires t in BusyHandlers(After(INITIAL, before))
    ensures var s := After(INITIAL, before);
            (exists steps :: CanEndInPool(s, steps, t, workers))
            <==> !IsHopeless(s.handlers[t]) && (Busy(s) < workers || CanFree(s))
  {
    var s := After(INITIAL, before);
    InitiallyInv();
    RunKeepsInv(INITIAL, before);
    RunKeepsNames(INITIAL, before);
    assert BusyHandlers(INITIAL) == {} && BusyNotifications(INITIAL) == {};
    PoolIsNeverExceeded(INITIAL, before, workers);
    if !IsHopeless(s.handlers[t]) && !IsUsedUp(s, workers) {
      var steps := ServedByPool(s, t, workers);
    } else if steps :| CanEndInPool(s, steps, t, workers) {
      if IsHopeless(s.handlers[t]) {
        HopelessNeverReturns(s, steps, t);
      } else {
        UsedUpForGood(s, steps, workers);
      }
    }
  }

  // ----- Every pool can be used up, by calls none of which is hopeless by itself.

  /** The workers in use are on calls that are bound to wait, for a file that can be notified for. */
  ghost predicate AllWait(s: State) {
    && BusyNotifications(s) == {}
    && forall t :: t in BusyHandlers(s) ==>
         IsBound(s.handlers[t]) && s.handlers[t].at.None? && IsNotifiable(s.handlers[t].file)
  }

  lemma ArrivesAndIsAnswered(s: State, t: Tid, file: string)
    requires t !in s.handlers
    ensures var s1 := Take(s, Request(t, file));
            && HandlerCanRun(s1, t, 0)
            && HandlerStep(s1, t, true, 0) == Move(s, t, Handler(file, Replacing, true, None, None, None))
  {
    var before, after := Handler(file, Opening, false, None, None, None),
        Handler(file, Replacing, true, None, None, None);
    assert s.handlers[t := before][t := after] == s.handlers[t := after];
  }

  /** A call arrives and its first editor request is answered: it will wait. */
  lemma OneMoreWaits(s: State, t: Tid, file: string)
    requires AllWait(s) && t !in s.handlers && IsNotifiable(file)
    ensures var s' := Move(s, t, Handler(file, Replacing, true, None, None, None));
            AllWait(s') && Busy(s') == Busy(s) + 1
  {
    var s' := Move(s, t, Handler(file, Replacing, true, None, None, None));
    OneMore(BusyHandlers(s), t, BusyHandlers(s'));
    assert BusyNotifications(s') == BusyNotifications(s);
  }

  lemma {:induction false} FillUp(s: State, file: string, workers: nat) returns (steps: seq<Step>)
    requires AllWait(s) && IsNotifiable(file) && Busy(s) <= workers
    ensures IsPoolRun(s, steps, workers) && IsRun(s, steps)
    ensures AllWait(After(s, steps)) && Busy(After(s, steps)) == workers
    decreases workers - Busy(s)
  {
    if Busy(s) == workers {
      steps := [];
    } else {
      var t := FreshKey(s.handlers);
      var first, second := Request(t, file), RunHandler(t, true, 0);
      ArrivesAndIsAnswered(s, t, file);
      OneMoreWaits(s, t, file);
      var s1 := Take(s, first);
      var rest := FillUp(Take(s1, second), file, workers);
      steps := [first] + ([second] + rest);
      assert steps[1..] == [second] + rest && steps[1..][1..] == rest;
    }
  }

  /**
   For every number of workers there is a run that uses the pool up with that many calls, all for
   files that can be notified for: none can return any more, though without the bound each could.
   */
  lemma PoolCanBeUsedUp(file: string, workers: nat) returns (steps: seq<Step>)
    requires IsNotifiable(file)
    ensures IsPoolRun(INITIAL, steps, workers) && IsRun(INITIAL, steps)
    ensures var s := After(INITIAL, steps);
            && |BusyHandlers(s)| == workers && IsUsedUp(s, workers)
            && forall t :: t in BusyHandlers(s) ==> !IsHopeless(s.handlers[t])
  {
    assert BusyHandlers(INITIAL) == {} && BusyNotifications(INITIAL) == {};
    steps := FillUp(INITIAL, file, workers);
    var s := After(INITIAL, steps);
    assert forall t :: t in BusyHandlers(s) ==> IsBound(s.handlers[t]) && !IsAnswered(s, s.handlers[t]);
  }
}
