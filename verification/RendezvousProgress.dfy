/** Which waits of the rendezvous can end, and which cannot. */
module RendezvousProgress {
  import opened Wrappers
  import opened EventLog
  import opened Rendezvous
  import opened RendezvousProof
  import opened RendezvousTheorems

  // ----- The mutex is always released.

  /** How many steps the lock's holder is away from releasing it. */
  function StepsLeft(s: State): nat {
    match s.lock
    case Free => 0
    case HeldByHandler(t) =>
      if t !in s.handlers then 0
      else
        match s.handlers[t].stage {
          case Pushing => 3
          case Retrieving => 2
          case _ => 1
        }
    case HeldByNotification(t) =>
      if t !in s.notifications then 0
      else
        var n := s.notifications[t];
        match n.stage {
          case Finding => 2 * |Waiting(s.promises, n.name)| + 5
          case Looping =>
            if n.batch.Some? && n.batch.value.n <= |n.batch.value.vector|
            then 2 * (|n.batch.value.vector| - n.batch.value.n) + (if n.batch.value.half then 2 else 3)
            else 0
          case Erasing => 2
          case _ => 1
        }
  }

  function HolderStep(s: State): Step
    requires !s.lock.Free?
  {
    if s.lock.HeldByHandler? then RunHandler(s.lock.t, false, 0) else RunNotification(s.lock.t, "")
  }

  /** `s'` is nearer to the release of the mutex than `s`, and no handler outside the critical section has noticed. */
  ghost predicate Nearer(s: State, s': State) {
    && StepsLeft(s') < StepsLeft(s)
    && Unnoticed(s, s')
  }

  ghost predicate Unnoticed(s: State, s': State) {
    && (forall t :: t in s.handlers && !HandlerIsInside(s.handlers[t]) ==>
          t in s'.handlers && s'.handlers[t] == s.handlers[t])
    && s.history.log <= s'.history.log
    && s'.notifications.Keys == s.notifications.Keys
    && s'.heap.Keys == s.heap.Keys
  }

  lemma HandlerNears(s: State, t: Tid)
    requires s.lock == HeldByHandler(t) && t in s.handlers && HandlerIsInside(s.handlers[t])
    requires var h := s.handlers[t];
             h.p.Some? && (h.stage.Retrieving? ==> IsAlive(s.heap, h.p.value) && !s.heap[h.p.value].retrieved)
    ensures HandlerCanRun(s, t, 0) && Nearer(s, HandlerStep(s, t, false, 0))
  {
  }

  lemma HandlerHolderProgresses(s: State, t: Tid)
    requires Inv(s) && s.lock == HeldByHandler(t)
    ensures HandlerCanRun(s, t, 0) && Nearer(s, HandlerStep(s, t, false, 0))
  {
    HandlerNears(s, t);
  }

  lemma LoopNears(s: State, t: Tid)
    requires s.lock == HeldByNotification(t) && t in s.notifications && s.notifications[t].batch.Some?
    requires s.notifications[t].stage.Looping?
    requires var n, b := s.notifications[t], s.notifications[t].batch.value;
             && n.name in s.promises && s.promises[n.name] == b.vector
             && b.n <= |b.vector| && (b.half ==> b.n < |b.vector|)
             && (b.n < |b.vector| ==>
                   IsAlive(s.heap, b.vector[b.n]) && (s.heap[b.vector[b.n]].value.Some? <==> b.half))
    ensures Nearer(s, LoopStep(s, t))
  {
    LoopFrame(s, t);
  }

  lemma LoopProgresses(s: State, t: Tid)
    requires Inv(s) && s.lock == HeldByNotification(t) && s.notifications[t].stage.Looping?
    ensures NotificationCanRun(s, t) && Nearer(s, NotificationStep(s, t, ""))
  {
    var pub := Current(s.lock, s.notifications).value;
    LoopIsSafe(s.promises, s.heap, s.issued, s.history.board, s.history.queues, pub);
    LoopNears(s, t);
  }

  lemma NotificationHolderProgresses(s: State, t: Tid)
    requires Inv(s) && s.lock == HeldByNotification(t) && !s.notifications[t].stage.Looping?
    ensures NotificationCanRun(s, t) && Nearer(s, NotificationStep(s, t, ""))
  {
    var s' := NotificationStep(s, t, "");
    assert s'.handlers == s.handlers && s.history.log <= s'.history.log;
  }

  /** The holder of the mutex is never blocked, and each of its steps brings the release nearer. */
  lemma HolderProgresses(s: State)
    requires Inv(s) && !s.lock.Free?
    ensures Enabled(s, HolderStep(s)) && Nearer(s, Take(s, HolderStep(s)))
  {
    if s.lock.HeldByHandler? {
      HandlerHolderProgresses(s, s.lock.t);
    } else if s.notifications[s.lock.t].stage.Looping? {
      LoopProgresses(s, s.lock.t);
    } else {
      NotificationHolderProgresses(s, s.lock.t);
    }
  }

  /** From any reachable state the holder alone can run on until the mutex is free. */
  lemma {:induction false} MutexGetsReleased(s: State) returns (steps: seq<Step>)
    requires Inv(s)
    ensures IsRun(s, steps) && |steps| <= StepsLeft(s) && OnlyArrives(steps, None)
    ensures var s' := After(s, steps);
            Inv(s') && s'.lock.Free? && Unnoticed(s, s')
    decreases StepsLeft(s)
  {
    if s.lock.Free? {
      steps := [];
    } else {
      HolderProgresses(s);
      StepKeepsInv(s, HolderStep(s));
      var rest := MutexGetsReleased(Take(s, HolderStep(s)));
      steps := [HolderStep(s)] + rest;
      QuietStepAndRun(s, HolderStep(s), rest, None);
    }
  }

  /** The steps a notification for `name` takes from its arrival until it holds the mutex. */
  function ArriveAndLock(t: Tid, name: string, reply: string): seq<Step>
    requires IsNotifiable(name)
  {
    [Notify(t, Named(name)), RunNotification(t, ""), RunNotification(t, reply), RunNotification(t, "")]
  }

  /** One step of a notification that shares nothing, or takes the free mutex, and puts it into state `n'`. */
  lemma NotificationTakes(s: State, t: Tid, reply: string, n': Notification, lock: Lock)
    requires NotificationCanRun(s, t)
    requires var n := s.notifications[t];
             match n.stage
             case Requesting => n' == n.(stage := Locking, value := reply) && lock == s.lock
             case Locking => n' == n.(stage := Finding) && lock == HeldByNotification(t)
             case _ => false
    ensures NotificationStep(s, t, reply) == Shift(s, t, n').(lock := lock)
  {
  }

  lemma ShiftTwice(s: State, t: Tid, n: Notification, n': Notification, lock: Lock)
    ensures Shift(Shift(s, t, n), t, n').(lock := lock) == Shift(s, t, n').(lock := lock)
  {
    assert s.notifications[t := n][t := n'] == s.notifications[t := n'];
  }

  /** The rest of the way, from a stage before the mutex. */
  lemma LastStepToTheLock(s: State, t: Tid, n: Notification)
    requires s.lock.Free? && n.stage.Locking?
    ensures var s1, steps := Shift(s, t, n), [RunNotification(t, "")];
            IsRun(s1, steps) && After(s1, steps) == Shift(s, t, n.(stage := Finding)).(lock := HeldByNotification(t))
  {
    var s1 := Shift(s, t, n);
    NotificationTakes(s1, t, "", n.(stage := Finding), HeldByNotification(t));
    ShiftTwice(s, t, n, n.(stage := Finding), HeldByNotification(t));
    OneStepRun(s1, RunNotification(t, ""));
  }

  lemma TwoStepsToTheLock(s: State, t: Tid, n: Notification, reply: string)
    requires s.lock.Free? && n.stage.Requesting?
    ensures var s1, steps := Shift(s, t, n), [RunNotification(t, reply), RunNotification(t, "")];
            IsRun(s1, steps) && After(s1, steps)
                == Shift(s, t, n.(stage := Finding, value := reply)).(lock := HeldByNotification(t))
  {
    var s1, n', step, rest := Shift(s, t, n), n.(stage := Locking, value := reply), RunNotification(t, reply),
        [RunNotification(t, "")];
    NotificationTakes(s1, t, reply, n', Free);
    ShiftTwice(s, t, n, n', Free);
    LastStepToTheLock(s, t, n');
    QuietStepAndRun(s1, step, rest, None);
    assert [step] + rest == [step, rest[0]];
  }

  lemma NotificationReachesTheLock(s: State, t: Tid, name: string, reply: string)
    requires s.lock.Free? && t !in s.notifications && IsNotifiable(name)
    ensures IsRun(s, ArriveAndLock(t, name, reply))
    ensures After(s, ArriveAndLock(t, name, reply))
              == Shift(s, t, Notification(Finding, Named(name), name, reply, None)).(lock := HeldByNotification(t))
  {
    var steps := ArriveAndLock(t, name, reply);
    var arrived := Notification(Received, Named(name), "", "", None);
    var named := Notification(Requesting, Named(name), name, "", None);
    var s1 := Shift(s, t, arrived);
    assert Take(s, steps[0]) == s1;
    assert Take(s1, steps[1]) == Shift(s1, t, named);
    ShiftTwice(s, t, arrived, named, Free);
    TwoStepsToTheLock(s, t, named, reply);
    QuietStepAndRun(s1, steps[1], [steps[2], steps[3]], Some(t));
    assert [steps[1]] + [steps[2], steps[3]] == [steps[1], steps[2], steps[3]];
    QuietStepAndRun(s, steps[0], [steps[1], steps[2], steps[3]], Some(t));
    assert [steps[0]] + [steps[1], steps[2], steps[3]] == steps;
  }

  /** `s'` is a later state in which `reply` has been published for `name` since `s`. */
  ghost predicate HasPublished(s: State, s': State, n: Tid, name: string, reply: string) {
    && s'.lock.Free? && s.history.log <= s'.history.log
    && (exists j :: |s.history.log| <= j < |s'.history.log| && s'.history.log[j] == Published(name, reply))
    && (forall t :: t in s.handlers && !HandlerIsInside(s.handlers[t]) ==>
          t in s'.handlers && s'.handlers[t] == s.handlers[t])
    && s'.heap.Keys == s.heap.Keys
    && s'.notifications.Keys == s.notifications.Keys + {n}
  }

  lemma UnnoticedTwice(s: State, s1: State, s2: State)
    requires Unnoticed(s, s1) && Unnoticed(s1, s2)
    ensures Unnoticed(s, s2)
  {
  }

  lemma PublishAndRelease(s: State, n: Tid) returns (steps: seq<Step>)
    requires Inv(s) && s.lock == HeldByNotification(n) && s.notifications[n].stage.Finding?
    ensures IsRun(s, steps) && OnlyArrives(steps, None)
    ensures var s' := After(s, steps);
            && Inv(s') && s'.lock.Free? && Unnoticed(s, s')
            && |s.history.log| < |s'.history.log|
            && s'.history.log[|s.history.log|] == Published(s.notifications[n].name, s.notifications[n].value)
  {
    var find := RunNotification(n, "");
    NotificationHolderProgresses(s, n);
    NotificationKeepsInv(s, n, "");
    var s1 := Take(s, find);
    assert s1.history.log == s.history.log + [Published(s.notifications[n].name, s.notifications[n].value)];
    var rest := MutexGetsReleased(s1);
    steps := [find] + rest;
    QuietStepAndRun(s, find, rest, None);
    UnnoticedTwice(s, s1, After(s1, rest));
  }

  /** A notification that finds the mutex free can publish and release it again. */
  lemma PublishWhenFree(s: State, n: Tid, name: string, reply: string) returns (steps: seq<Step>)
    requires Inv(s) && s.lock.Free? && n !in s.notifications && IsNotifiable(name)
    ensures IsRun(s, steps) && OnlyArrives(steps, Some(n))
    ensures Inv(After(s, steps)) && HasPublished(s, After(s, steps), n, name, reply)
  {
    var arrive := ArriveAndLock(n, name, reply);
    NotificationReachesTheLock(s, n, name, reply);
    RunKeepsInv(s, arrive);
    var finish := PublishAndRelease(After(s, arrive), n);
    QuietRunsCompose(s, arrive, finish, Some(n));
    steps := arrive + finish;
    assert After(s, steps).history.log[|s.history.log|] == Published(name, reply);
  }

  /** Whatever is going on, a notification for `name` can arrive and publish. */
  lemma Publish(s: State, n: Tid, name: string, reply: string) returns (steps: seq<Step>)
    requires Inv(s) && n !in s.notifications && IsNotifiable(name)
    ensures IsRun(s, steps) && OnlyArrives(steps, Some(n))
    ensures Inv(After(s, steps)) && HasPublished(s, After(s, steps), n, name, reply)
  {
    var first := MutexGetsReleased(s);
    var second := PublishWhenFree(After(s, first), n, name, reply);
    QuietRunsCompose(s, first, second, Some(n));
    steps := first + second;
  }

  /**
   From any reachable state, a blocked handler of a file that can be notified for can still return,
   in a run in which one more notification for that file arrives; and it then returns what the
   first publication since its registration carried.
   */
  lemma EveryWaitCanEnd(s: State, t: Tid, n: Tid, reply: string) returns (steps: seq<Step>)
    requires Inv(s) && t in s.handlers && s.handlers[t].stage.Blocked? && IsNotifiable(s.handlers[t].file)
    requires n !in s.notifications
    ensures IsRun(s, steps) && OnlyArrives(steps, Some(n))
    ensures var s' := After(s, steps);
            ReturnsTheFirst(s', t) && s'.handlers[t].at == s.handlers[t].at && s'.handlers[t].file == s.handlers[t].file
  {
    var first := Publish(s, n, s.handlers[t].file, reply);
    RegisteredBefore(s, t);
    WakesAfter(s.handlers[t], |s.history.log|, After(s, first), t, reply);
    var wake := [RunHandler(t, false, 0)];
    QuietRunsCompose(s, first, wake, Some(n));
    steps := first + wake;
  }

  /** A blocked handler that can run returns, with the first publication since its registration. */
  lemma BlockedReturnsTheFirst(s: State, t: Tid)
    requires Inv(s) && t in s.handlers && s.handlers[t].stage.Blocked? && HandlerCanRun(s, t, 0)
    ensures var s' := HandlerStep(s, t, false, 0);
            ReturnsTheFirst(s', t) && s'.handlers[t].at == s.handlers[t].at && s'.handlers[t].file == s.handlers[t].file
  {
    HandlerKeepsInv(s, t, false, 0);
    ReturnedIsFirst(HandlerStep(s, t, false, 0), t);
  }

  lemma WakesAfter(h: Handler, n: nat, s: State, t: Tid, reply: string)
    requires Inv(s) && s.lock.Free? && t in s.handlers && s.handlers[t] == h
    requires h.stage.Blocked? && h.at.Some? && h.at.value < n
    requires exists j :: n <= j < |s.history.log| && s.history.log[j] == Published(h.file, reply)
    ensures var wake := [RunHandler(t, false, 0)];
            && IsRun(s, wake) && OnlyArrives(wake, None)
            && ReturnsTheFirst(After(s, wake), t)
            && After(s, wake).handlers[t].at == h.at && After(s, wake).handlers[t].file == h.file
  {
    var j :| n <= j < |s.history.log| && s.history.log[j] == Published(h.file, reply);
    PublishedMeansAnswered(s, t, j);
    BlockedReturnsTheFirst(s, t);
    OneStepRun(s, RunHandler(t, false, 0));
  }

  lemma RegisteredBefore(s: State, t: Tid)
    requires Inv(s) && t in s.handlers && s.handlers[t].at.Some?
    ensures s.handlers[t].at.value < |s.history.log|
  {
    BoardListsRegistrations(s.history.log);
  }

  /** A publication after the registration means that a first one exists, so the handler can run. */
  lemma PublishedMeansAnswered(s: State, t: Tid, j: nat)
    requires Inv(s) && s.lock.Free? && t in s.handlers && s.handlers[t].stage.Blocked?
    requires s.handlers[t].at.Some? && s.handlers[t].at.value < j < |s.history.log|
    requires PublishesOn(s.history.log[j], s.handlers[t].file)
    ensures HandlerCanRun(s, t, 0)
  {
    BlockedCell(s, t);
    QuietCell(s, s.handlers[t].p.value);
    BoardMeaning(s, s.handlers[t].at.value);
  }

  // ----- The window in which a notification is lost.

  lemma AllocateAndLock(s: State, t: Tid, addr: Address)
    requires s.lock.Free? && t in s.handlers && s.handlers[t].stage.Allocating? && addr !in s.heap
    ensures var steps := [RunHandler(t, false, addr), RunHandler(t, false, 0)];
            && IsRun(s, steps)
            && After(s, steps) == s.(lock := HeldByHandler(t),
                 heap := s.heap[addr := Cell(t, true, false, None)],
                 handlers := s.handlers[t := s.handlers[t].(stage := Pushing, p := Some(addr))])
  {
    var first, second := RunHandler(t, false, addr), RunHandler(t, false, 0);
    OneStepRun(Take(s, first), second);
    assert [first, second][1..] == [second];
    var h := s.handlers[t];
    assert s.handlers[t := h.(stage := Acquiring, p := Some(addr))][t := h.(stage := Pushing, p := Some(addr))]
        == s.handlers[t := h.(stage := Pushing, p := Some(addr))];
  }

  /**
   A notification that is published after the editor request was answered but before the handler
   has registered is lost: whatever the state, the handler can end up blocked although its
   file was published while it was already waiting to register.
   */
  lemma NotificationCanBeLost(s: State, t: Tid, n: Tid, addr: Address, reply: string) returns (steps: seq<Step>)
    requires Inv(s) && t in s.handlers && s.handlers[t].stage.Allocating? && IsNotifiable(s.handlers[t].file)
    requires n !in s.notifications && addr !in s.heap
    ensures IsRun(s, steps)
    ensures var s' := After(s, steps);
            && s'.lock.Free?
            && (exists j :: |s.history.log| <= j < |s'.history.log|
                  && s'.history.log[j] == Published(s.handlers[t].file, reply))
            && t in s'.handlers && s'.handlers[t].stage.Blocked? && s'.handlers[t].file == s.handlers[t].file
            && forall x :: !HandlerCanRun(s', t, x)
  {
    var first := Publish(s, n, s.handlers[t].file, reply);
    var s1 := After(s, first);
    var register := [RunHandler(t, false, addr), RunHandler(t, false, 0)];
    AllocateAndLock(s1, t, addr);
    RunKeepsInv(s1, register);
    var s2 := After(s1, register);
    var last := RegistrationEndsBlocked(s2, t);
    RunsCompose(s, first, register);
    RunsCompose(s, first + register, last);
    steps := first + register + last;
    assert s1.history.log <= After(s, steps).history.log;
  }

  lemma PushEffect(s: State, t: Tid, addr: Address)
    requires Inv(s) && s.lock == HeldByHandler(t) && s.handlers[t].stage.Pushing?
    ensures HandlerCanRun(s, t, addr)
    ensures var s' := HandlerStep(s, t, false, addr);
            && Inv(s') && s'.lock == s.lock && t in s'.handlers && s'.handlers[t].stage.Retrieving?
            && s'.handlers[t].file == s.handlers[t].file && s'.handlers[t].at == Some(|s.history.log|)
            && s'.history.log == s.history.log + [Registered(s.handlers[t].file)]
  {
    HandlerKeepsInv(s, t, false, addr);
  }

  lemma RetrieveEffect(s: State, t: Tid, addr: Address)
    requires Inv(s) && s.lock == HeldByHandler(t) && s.handlers[t].stage.Retrieving?
    ensures HandlerCanRun(s, t, addr)
    ensures var s' := HandlerStep(s, t, false, addr);
            && Inv(s') && s'.lock == s.lock && t in s'.handlers && s'.handlers[t].stage.Releasing?
            && s'.handlers[t].file == s.handlers[t].file && s'.handlers[t].at == s.handlers[t].at
               && s'.history == s.history
  {
    HandlerKeepsInv(s, t, false, addr);
  }

  lemma ReleaseEffect(s: State, t: Tid, addr: Address)
    requires Inv(s) && s.lock == HeldByHandler(t) && s.handlers[t].stage.Releasing?
    ensures HandlerCanRun(s, t, addr)
    ensures var s' := HandlerStep(s, t, false, addr);
            && Inv(s') && s'.lock.Free? && t in s'.handlers && s'.handlers[t].stage.Blocked?
            && s'.handlers[t].file == s.handlers[t].file && s'.handlers[t].at == s.handlers[t].at
               && s'.history == s.history
  {
    HandlerKeepsInv(s, t, false, addr);
  }

  lemma NotRunnable(s: State, t: Tid)
    requires Inv(s) && s.lock.Free? && t in s.handlers && s.handlers[t].stage.Blocked?
    requires s.history.log != [] && s.history.log[|s.history.log| - 1].Registered?
    requires s.handlers[t].at == Some(|s.history.log| - 1)
    ensures forall x :: !HandlerCanRun(s, t, x)
  {
    BlockedCell(s, t);
  }

  /** `s'` is `s` once handler `t` has left the critical section with nothing else having happened. */
  ghost predicate Leaves(s: State, s': State, t: Tid) {
    && s'.lock.Free? && s'.history == s.history
    && t in s.handlers && t in s'.handlers && s'.handlers[t].stage.Blocked?
    && s'.handlers[t].file == s.handlers[t].file
    && forall x :: !HandlerCanRun(s', t, x)
  }

  lemma LeavesFromRetrieving(s: State, t: Tid) returns (steps: seq<Step>)
    requires Inv(s) && s.lock == HeldByHandler(t) && s.handlers[t].stage.Retrieving?
    requires s.history.log != [] && s.history.log[|s.history.log| - 1].Registered?
    requires s.handlers[t].at == Some(|s.history.log| - 1)
    ensures IsRun(s, steps) && Leaves(s, After(s, steps), t)
  {
    var step := RunHandler(t, false, 0);
    RetrieveEffect(s, t, 0);
    LeavesFromReleasing(Take(s, step), t);
    OneStepRun(Take(s, step), step);
    steps := [step, step];
    assert steps[1..] == [step];
  }

  lemma LeavesFromReleasing(s: State, t: Tid)
    requires Inv(s) && s.lock == HeldByHandler(t) && s.handlers[t].stage.Releasing?
    requires s.history.log != [] && s.history.log[|s.history.log| - 1].Registered?
    requires s.handlers[t].at == Some(|s.history.log| - 1)
    ensures HandlerCanRun(s, t, 0) && Leaves(s, HandlerStep(s, t, false, 0), t)
  {
    ReleaseEffect(s, t, 0);
    NotRunnable(HandlerStep(s, t, false, 0), t);
  }

  /** A registration that completes undisturbed leaves its handler blocked, with nothing to wake it. */
  lemma RegistrationEndsBlocked(s: State, t: Tid) returns (steps: seq<Step>)
    requires Inv(s) && s.lock == HeldByHandler(t) && t in s.handlers && s.handlers[t].stage.Pushing?
    ensures IsRun(s, steps)
    ensures var s' := After(s, steps);
            && s'.lock.Free? && s'.history.log == s.history.log + [Registered(s.handlers[t].file)]
            && t in s'.handlers && s'.handlers[t].stage.Blocked? && s'.handlers[t].file == s.handlers[t].file
            && forall x :: !HandlerCanRun(s', t, x)
  {
    var step := RunHandler(t, false, 0);
    PushEffect(s, t, 0);
    var rest := LeavesFromRetrieving(Take(s, step), t);
    steps := [step] + rest;
    assert steps[1..] == rest;
  }

  // ----- Which calls of DiagnosticsForFile can still return.

  /** What a handler inside the critical section can rely on. */
  ghost predicate InsideFacts(s: State, t: Tid) {
    && s.lock == HeldByHandler(t) && t in s.handlers && HandlerIsInside(s.handlers[t])
    && var h := s.handlers[t];
    && h.p.Some? && (h.stage.Retrieving? ==> IsAlive(s.heap, h.p.value) && !s.heap[h.p.value].retrieved)
  }

  lemma InvInside(s: State, t: Tid)
    requires Inv(s) && s.lock == HeldByHandler(t)
    ensures InsideFacts(s, t)
  {
  }

  lemma InsideStep(s: State, t: Tid)
    requires InsideFacts(s, t)
    ensures HandlerCanRun(s, t, 0)
    ensures var s' := HandlerStep(s, t, false, 0);
            && t in s'.handlers && s'.handlers[t].file == s.handlers[t].file
            && s'.notifications == s.notifications
            && (s'.lock == s.lock || (s'.lock.Free? && s'.handlers[t].stage.Blocked?))
            && StepsLeft(s') < StepsLeft(s)
  {
    match s.handlers[t].stage
    case Pushing =>
    case Retrieving =>
    case _ =>
  }

  /** A handler inside the critical section can run on until it is blocked. */
  lemma {:induction false} HandlerGetsBlocked(s: State, t: Tid) returns (steps: seq<Step>)
    requires Inv(s) && s.lock == HeldByHandler(t)
    ensures IsRun(s, steps) && OnlyArrives(steps, None)
    ensures Inv(After(s, steps)) && IsBlockedNow(s, After(s, steps), t)
    decreases StepsLeft(s)
  {
    var step := RunHandler(t, false, 0);
    InvInside(s, t);
    InsideStep(s, t);
    HandlerKeepsInv(s, t, false, 0);
    var s1 := Take(s, step);
    var rest := [];
    if !s1.lock.Free? {
      rest := HandlerGetsBlocked(s1, t);
    }
    steps := [step] + rest;
    QuietStepAndRun(s, step, rest, None);
  }

  ghost predicate IsBlockedNow(s: State, s': State, t: Tid) {
    && s'.lock.Free? && s'.notifications == s.notifications
    && t in s.handlers && t in s'.handlers && s'.handlers[t].stage.Blocked? && s'.handlers[t].file == s.handlers[t].file
  }

  /** A handler that has the mutex to itself, or is blocked, can return. */
  lemma ReturnsFromInside(s: State, t: Tid, n: Tid, reply: string) returns (steps: seq<Step>)
    requires Inv(s) && t in s.handlers && IsNotifiable(s.handlers[t].file) && n !in s.notifications
    requires s.lock == HeldByHandler(t) || s.handlers[t].stage.Blocked?
    ensures IsRun(s, steps) && OnlyArrives(steps, Some(n))
    ensures t in After(s, steps).handlers && After(s, steps).handlers[t].stage.Returned?
  {
    if s.handlers[t].stage.Blocked? {
      steps := EveryWaitCanEnd(s, t, n, reply);
    } else {
      var first := HandlerGetsBlocked(s, t);
      var second := EveryWaitCanEnd(After(s, first), t, n, reply);
      QuietRunsCompose(s, first, second, Some(n));
      steps := first + second;
    }
  }

  /** With the mutex free, a handler that is about to allocate, or waits for the mutex, can take it. */
  lemma TakesTheMutex(s: State, t: Tid, addr: Address) returns (steps: seq<Step>)
    requires Inv(s) && s.lock.Free? && t in s.handlers && addr !in s.heap
    requires s.handlers[t].stage.Allocating? || s.handlers[t].stage.Acquiring?
    ensures IsRun(s, steps) && OnlyArrives(steps, None)
    ensures var s' := After(s, steps);
            && Inv(s') && s'.lock == HeldByHandler(t) && s'.notifications == s.notifications
            && t in s'.handlers && s'.handlers[t].file == s.handlers[t].file
  {
    if s.handlers[t].stage.Allocating? {
      steps := [RunHandler(t, false, addr), RunHandler(t, false, 0)];
      AllocateAndLock(s, t, addr);
    } else {
      steps := [RunHandler(t, false, 0)];
      OneStepRun(s, steps[0]);
    }
    RunKeepsInv(s, steps);
  }

  lemma ReturnsFromOutside(s: State, t: Tid, n: Tid, addr: Address, reply: string) returns (steps: seq<Step>)
    requires Inv(s) && t in s.handlers && IsNotifiable(s.handlers[t].file) && n !in s.notifications && addr !in s.heap
    requires s.handlers[t].stage.Allocating? || s.handlers[t].stage.Acquiring?
    ensures IsRun(s, steps) && OnlyArrives(steps, Some(n))
    ensures t in After(s, steps).handlers && After(s, steps).handlers[t].stage.Returned?
  {
    var first := MutexGetsReleased(s);
    var second := ReturnsWhenFree(After(s, first), t, n, addr, reply);
    QuietRunsCompose(s, first, second, Some(n));
    steps := first + second;
  }

  lemma ReturnsWhenFree(s: State, t: Tid, n: Tid, addr: Address, reply: string) returns (steps: seq<Step>)
    requires Inv(s) && s.lock.Free? && t in s.handlers && IsNotifiable(s.handlers[t].file)
    requires n !in s.notifications && addr !in s.heap
    requires s.handlers[t].stage.Allocating? || s.handlers[t].stage.Acquiring?
    ensures IsRun(s, steps) && OnlyArrives(steps, Some(n))
    ensures t in After(s, steps).handlers && After(s, steps).handlers[t].stage.Returned?
  {
    var first := TakesTheMutex(s, t, addr);
    var second := ReturnsFromInside(After(s, first), t, n, reply);
    QuietRunsCompose(s, first, second, Some(n));
    steps := first + second;
  }

  lemma OutsideStage(s: State, t: Tid)
    requires Inv(s) && t in s.handlers && HandlerIsInside(s.handlers[t])
    ensures s.lock == HeldByHandler(t)
  {
  }

  /** From any reachable state, every call that is not hopeless can still return. */
  lemma CallCanReturn(s: State, t: Tid, n: Tid, addr: Address, reply: string) returns (steps: seq<Step>)
    requires Inv(s) && t in s.handlers && !IsHopeless(s.handlers[t]) && n !in s.notifications && addr !in s.heap
    ensures IsRun(s, steps) && OnlyArrives(steps, Some(n)) && IsOver(After(s, steps), t)
  {
    match s.handlers[t].stage
    case Returned => steps := [];
    case ReturnedEmpty => steps := [];
    case Opening =>
      var step := RunHandler(t, false, 0);
      OneStepRun(Take(s, step), step);
      steps := [step, step];
      assert steps[1..] == [step];
    case Replacing => steps := ReturnsFromReplacing(s, t, n, addr, reply);
    case Allocating => steps := ReturnsFromOutside(s, t, n, addr, reply);
    case Acquiring => steps := ReturnsFromOutside(s, t, n, addr, reply);
    case Blocked => steps := ReturnsFromInside(s, t, n, reply);
    case _ =>
      OutsideStage(s, t);
      steps := ReturnsFromInside(s, t, n, reply);
  }

  ghost predicate IsOver(s: State, t: Tid) {
    t in s.handlers && (s.handlers[t].stage.Returned? || s.handlers[t].stage.ReturnedEmpty?)
  }

  lemma ReturnsFromReplacing(s: State, t: Tid, n: Tid, addr: Address, reply: string) returns (steps: seq<Step>)
    requires Inv(s) && t in s.handlers && !IsHopeless(s.handlers[t]) && n !in s.notifications && addr !in s.heap
    requires s.handlers[t].stage.Replacing?
    ensures IsRun(s, steps) && OnlyArrives(steps, Some(n)) && IsOver(After(s, steps), t)
  {
    var step := RunHandler(t, false, 0);
    OneStepRun(s, step);
    if s.handlers[t].answered {
      StepKeepsInv(s, step);
      var rest := ReturnsFromOutside(Take(s, step), t, n, addr, reply);
      steps := [step] + rest;
      QuietStepAndRun(s, step, rest, Some(n));
    } else {
      steps := [step];
    }
  }

  ghost predicate CanEnd(s: State, steps: seq<Step>, t: Tid) {
    IsRun(s, steps) && IsOver(After(s, steps), t)
  }

  /** At any point of any run, a call can still return if and only if it is not hopeless. */
  lemma CallCanReturnIffNotHopeless(before: seq<Step>, t: Tid)
    requires IsRun(INITIAL, before) && t in After(INITIAL, before).handlers
    ensures (exists steps :: CanEnd(After(INITIAL, before), steps, t))
            <==> !IsHopeless(After(INITIAL, before).handlers[t])
  {
    var s := After(INITIAL, before);
    InitiallyInv();
    RunKeepsInv(INITIAL, before);
    RunKeepsNames(INITIAL, before);
    if !IsHopeless(s.handlers[t]) {
      var n := FreshKey(s.notifications);
      var addr := FreshKey(s.heap);
      var steps := CallCanReturn(s, t, n, addr, "");
      assert CanEnd(s, steps, t);
    } else if steps :| CanEnd(s, steps, t) {
      HopelessNeverReturns(s, steps, t);
    }
  }

  /** A call for the file "" is hopeless as soon as one editor request has been answered. */
  lemma NamelessCallGetsStuck()
    ensures var steps := [Request(0, ""), RunHandler(0, true, 0)];
            && IsRun(INITIAL, steps)
            && 0 in After(INITIAL, steps).handlers && IsHopeless(After(INITIAL, steps).handlers[0])
            && forall more :: !CanEnd(After(INITIAL, steps), more, 0)
  {
    var steps := [Request(0, ""), RunHandler(0, true, 0)];
    var s1 := Take(INITIAL, steps[0]);
    OneStepRun(s1, steps[1]);
    assert steps[1..] == [steps[1]];
    CallCanReturnIffNotHopeless(steps, 0);
  }
}
