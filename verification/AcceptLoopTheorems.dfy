/** What holds of every run of the accept loop, whatever the interleaving of its callbacks. */
module AcceptLoopTheorems {
  import opened Wrappers
  import opened AcceptLoop

  // ----- The invariant.

  /** The call has passed its check and is to start a session. */
  predicate IsAdmitted(x: Accept) {
    x.stage.Passed? || x.stage.Moved? || x.stage.Rearmed?
  }

  /** The connection is where the stage says: nowhere, in `_socket`, or in the call's own variable. */
  ghost predicate AcceptOk(x: Accept, socket: Option<Connection>) {
    match x.stage
    case Outstanding => x.delivered.None? && socket.None?
    case Completed(failed) => if failed then x.delivered.None? else x.delivered.Some? && socket == x.delivered
    case Passed => x.delivered.Some? && socket == x.delivered
    case Moved(sock) => x.delivered.Some? && sock == x.delivered && socket.None?
    case Rearmed(sock) => x.delivered.Some? && sock == x.delivered
  }

  ghost predicate AcceptsOk(a: Acceptor) {
    forall k :: k in a.accepts ==> k < a.next && AcceptOk(a.accepts[k], a.socket)
  }

  ghost predicate OneUnarmed(accepts: map<AcceptId, Accept>) {
    forall k, l :: k in accepts && l in accepts && !accepts[k].stage.Rearmed? && !accepts[l].stage.Rearmed? ==> k == l
  }

  /** The calls that are to start a session. */
  function Pending(accepts: map<AcceptId, Accept>): set<AcceptId> {
    set k | k in accepts && IsAdmitted(accepts[k])
  }

  ghost predicate DeliveriesDiffer(accepts: map<AcceptId, Accept>) {
    forall k, l :: k in accepts && l in accepts && k != l && accepts[k].delivered.Some? ==>
      accepts[k].delivered != accepts[l].delivered
  }

  ghost predicate DeliveryOk(x: Accept, a: Acceptor) {
    x.delivered.Some? ==>
      && x.delivered.value in a.connections && x.delivered.value !in a.started
      && (x.delivered.value in a.admitted <==> IsAdmitted(x))
  }

  ghost predicate DeliveriesOk(a: Acceptor) {
    DeliveriesDiffer(a.accepts) && forall k :: k in a.accepts ==> DeliveryOk(a.accepts[k], a)
  }

  ghost predicate HasCall(accepts: map<AcceptId, Accept>, c: Connection) {
    exists k :: k in accepts && accepts[k].delivered == Some(c)
  }

  ghost predicate CountOk(a: Acceptor) {
    a.started <= a.admitted <= a.connections && |a.admitted| == |a.started| + |Pending(a.accepts)|
  }

  /** What was admitted has its session, or a call that is to start it. */
  ghost predicate AdmittedOk(a: Acceptor) {
    (forall c :: c in a.admitted ==> c in a.started || HasCall(a.accepts, c)) && CountOk(a)
  }

  ghost predicate Inv(a: Acceptor) {
    && AcceptsOk(a) && OneUnarmed(a.accepts) && DeliveriesOk(a) && AdmittedOk(a)
    && !a.fault
  }

  lemma InitiallyInv()
    ensures Inv(INITIAL)
  {
    assert Pending(INITIAL.accepts) == {};
  }

  /** An accept whose stage changes within the same side of the check, or that is new, leaves `Pending` alone. */
  lemma PendingStays(accepts: map<AcceptId, Accept>, k: AcceptId, x: Accept)
    requires IsAdmitted(x) <==> k in accepts && IsAdmitted(accepts[k])
    ensures Pending(accepts[k := x]) == Pending(accepts)
  {
  }

  lemma StepKeepsAccepts(a: Acceptor, step: Step)
    requires AcceptsOk(a) && OneUnarmed(a.accepts) && Enabled(a, step)
    ensures AcceptsOk(Take(a, step)) && OneUnarmed(Take(a, step).accepts)
  {
    match step
    case Complete(_, _, _) =>
    case Check(_) =>
    case Move(_) =>
    case Arm(_) =>
    case StartSession(_) =>
    case Close =>
  }

  lemma StepKeepsDifference(a: Acceptor, step: Step)
    requires DeliveriesOk(a) && Enabled(a, step)
    ensures DeliveriesDiffer(Take(a, step).accepts)
  {
    match step
    case Complete(_, _, _) =>
    case Check(_) =>
    case Move(_) =>
    case Arm(_) =>
    case StartSession(_) =>
    case Close =>
  }

  lemma StepKeepsDelivery(a: Acceptor, step: Step, k: AcceptId)
    requires AcceptsOk(a) && DeliveriesOk(a) && a.started <= a.admitted <= a.connections
    requires Enabled(a, step) && k in Take(a, step).accepts
    ensures DeliveryOk(Take(a, step).accepts[k], Take(a, step))
  {
    match step
    case Complete(_, _, _) =>
    case Check(_) =>
    case Move(_) =>
    case Arm(_) =>
    case StartSession(_) =>
    case Close =>
  }

  lemma StepKeepsDeliveries(a: Acceptor, step: Step)
    requires AcceptsOk(a) && DeliveriesOk(a) && a.started <= a.admitted <= a.connections && Enabled(a, step)
    ensures DeliveriesOk(Take(a, step)) && (!a.fault ==> !Take(a, step).fault)
  {
    StepKeepsDifference(a, step);
    forall k | k in Take(a, step).accepts
      ensures DeliveryOk(Take(a, step).accepts[k], Take(a, step))
    {
      StepKeepsDelivery(a, step, k);
    }
  }

  /** A step that forgets no call with an admitted connection, unless it starts its session, forgets no connection. */
  lemma CallsStay(a: Acceptor, a': Acceptor)
    requires forall c :: c in a.admitted ==> c in a.started || HasCall(a.accepts, c)
    requires a.started <= a'.started
    requires forall k :: k in a.accepts && a.accepts[k].delivered.Some? ==>
      || a.accepts[k].delivered.value !in a.admitted
      || a.accepts[k].delivered.value in a'.started
      || (k in a'.accepts && a'.accepts[k].delivered == a.accepts[k].delivered)
    ensures forall c :: c in a.admitted ==> c in a'.started || HasCall(a'.accepts, c)
  {
    forall c | c in a.admitted && c !in a'.started
      ensures HasCall(a'.accepts, c)
    {
      var k :| k in a.accepts && a.accepts[k].delivered == Some(c);
      assert a'.accepts[k].delivered == Some(c);
    }
  }

  lemma StepKeepsCalls(a: Acceptor, step: Step)
    requires AcceptsOk(a) && DeliveriesOk(a) && Enabled(a, step)
    requires forall c :: c in a.admitted ==> c in a.started || HasCall(a.accepts, c)
    ensures var a' := Take(a, step);
            forall c :: c in a'.admitted ==> c in a'.started || HasCall(a'.accepts, c)
  {
    var a' := Take(a, step);
    CallsStay(a, a');
    if step.Check? && a.open && !a.accepts[step.k].stage.failed {
      assert a'.accepts[step.k].delivered == a.accepts[step.k].delivered;
    }
  }

  lemma PendingGrows(accepts: map<AcceptId, Accept>, k: AcceptId, x: Accept)
    requires k in accepts && !IsAdmitted(accepts[k]) && IsAdmitted(x)
    ensures |Pending(accepts[k := x])| == |Pending(accepts)| + 1
  {
    assert Pending(accepts[k := x]) == Pending(accepts) + {k};
  }

  lemma PendingShrinks(accepts: map<AcceptId, Accept>, k: AcceptId)
    requires k in accepts
    ensures Pending(accepts - {k}) == Pending(accepts) - {k}
    ensures |Pending(accepts - {k})| == |Pending(accepts)| - if IsAdmitted(accepts[k]) then 1 else 0
  {
    assert Pending(accepts - {k}) == Pending(accepts) - {k};
  }

  lemma CheckKeepsCount(a: Acceptor, k: AcceptId)
    requires CountOk(a) && Enabled(a, Check(k))
    requires var d := a.accepts[k].delivered;
             !a.accepts[k].stage.failed ==> d.Some? && d.value in a.connections && d.value !in a.admitted
    ensures CountOk(Take(a, Check(k)))
  {
    if a.open && !a.accepts[k].stage.failed {
      PendingGrows(a.accepts, k, a.accepts[k].(stage := Passed));
    } else {
      PendingShrinks(a.accepts, k);
    }
  }

  lemma StartKeepsCount(a: Acceptor, k: AcceptId)
    requires CountOk(a) && Enabled(a, StartSession(k))
    requires var sock := a.accepts[k].stage.sock; sock.Some? && sock.value in a.admitted && sock.value !in a.started
    ensures CountOk(Take(a, StartSession(k)))
  {
    PendingShrinks(a.accepts, k);
  }

  lemma ArmKeepsPending(a: Acceptor, k: AcceptId)
    requires AcceptsOk(a) && Enabled(a, Arm(k))
    ensures Pending(Take(a, Arm(k)).accepts) == Pending(a.accepts)
  {
    var rearmed := a.accepts[k].(stage := Rearmed(a.accepts[k].stage.sock));
    PendingStays(a.accepts, k, rearmed);
    PendingStays(a.accepts[k := rearmed], a.next, Accept(Outstanding, None));
  }

  lemma StepKeepsAdmitted(a: Acceptor, step: Step)
    requires AcceptsOk(a) && DeliveriesOk(a) && AdmittedOk(a) && Enabled(a, step)
    ensures AdmittedOk(Take(a, step))
  {
    StepKeepsCalls(a, step);
    match step
    case Complete(k, _, _) => PendingStays(a.accepts, k, Take(a, step).accepts[k]);
    case Check(k) => CheckKeepsCount(a, k);
    case Move(k) => PendingStays(a.accepts, k, Take(a, step).accepts[k]);
    case Arm(k) => ArmKeepsPending(a, k);
    case StartSession(k) => StartKeepsCount(a, k);
    case Close =>
  }

  lemma StepKeepsInv(a: Acceptor, step: Step)
    requires Inv(a) && Enabled(a, step)
    ensures Inv(Take(a, step))
  {
    StepKeepsAccepts(a, step);
    StepKeepsDeliveries(a, step);
    StepKeepsAdmitted(a, step);
  }

  lemma {:induction false} RunKeepsInv(a: Acceptor, steps: seq<Step>)
    requires Inv(a) && IsRun(a, steps)
    ensures Inv(After(a, steps))
    decreases |steps|
  {
    if steps != [] {
      StepKeepsInv(a, steps[0]);
      RunKeepsInv(Take(a, steps[0]), steps[1..]);
    }
  }

  // ----- The main results.

  /**
   At most one accept is outstanding or has a call that is still to arm the next one, and what it is
   to accept into is empty; so no two calls ever share `_socket`, and every session is started on a
   connection of its own.
   */
  lemma OneAcceptAtATime(steps: seq<Step>)
    requires IsRun(INITIAL, steps)
    ensures var a := After(INITIAL, steps);
            && OneUnarmed(a.accepts) && !a.fault
            && forall k :: k in a.accepts && a.accepts[k].stage.Outstanding? ==> a.socket.None?
  {
    InitiallyInv();
    RunKeepsInv(INITIAL, steps);
  }

  /**
   The connections whose call found the acceptor open and no error are those with a session and
   those about to get one.
   */
  lemma AdmittedAreStartedOrPending(steps: seq<Step>)
    requires IsRun(INITIAL, steps)
    ensures var a := After(INITIAL, steps);
            && (forall c :: c in a.admitted <==>
                  || c in a.started
                  || exists k :: k in a.accepts && IsAdmitted(a.accepts[k]) && a.accepts[k].delivered == Some(c))
            && |a.admitted| == |a.started| + |Pending(a.accepts)|
  {
    InitiallyInv();
    RunKeepsInv(INITIAL, steps);
    var a := After(INITIAL, steps);
    forall c | c in a.admitted && c !in a.started
      ensures exists k :: k in a.accepts && IsAdmitted(a.accepts[k]) && a.accepts[k].delivered == Some(c)
    {
      var k :| k in a.accepts && a.accepts[k].delivered == Some(c);
      assert IsAdmitted(a.accepts[k]);
    }
  }

  // ----- Which accepts lead to another one.

  /** The accept, or its call, can still arm the next accept. */
  predicate CanGoOn(x: Accept, open: bool) {
    match x.stage
    case Outstanding => open
    case Completed(failed) => open && !failed
    case Passed => true
    case Moved(_) => true
    case Rearmed(_) => false
  }

  ghost predicate LoopGoesOn(a: Acceptor) {
    exists k :: k in a.accepts && CanGoOn(a.accepts[k], a.open)
  }

  lemma StepKeepsOver(a: Acceptor, step: Step)
    requires Enabled(a, step) && !LoopGoesOn(a)
    ensures !LoopGoesOn(Take(a, step))
    ensures Take(a, step).next == a.next && Take(a, step).admitted == a.admitted
  {
    var a' := Take(a, step);
    assert forall k :: k in a.accepts ==> !CanGoOn(a.accepts[k], a.open);
    assert !step.Move? && !step.Arm?;
    assert forall k :: k in a'.accepts ==> !CanGoOn(a'.accepts[k], a'.open);
  }

  /** Once the loop is over, no run arms an accept or admits a connection. */
  lemma {:induction false} LoopStaysOver(a: Acceptor, steps: seq<Step>)
    requires IsRun(a, steps) && !LoopGoesOn(a)
    ensures !LoopGoesOn(After(a, steps))
    ensures After(a, steps).next == a.next && After(a, steps).admitted == a.admitted
    decreases |steps|
  {
    if steps != [] {
      StepKeepsOver(a, steps[0]);
      LoopStaysOver(Take(a, steps[0]), steps[1..]);
    }
  }

  /** What a call does from a stage on until it has armed the next accept. */
  function ToRearm(a: Acceptor, k: AcceptId, c: Connection): seq<Step>
    requires k in a.accepts
  {
    match a.accepts[k].stage
    case Outstanding => [Complete(k, false, c), Check(k), Move(k), Arm(k)]
    case Completed(_) => [Check(k), Move(k), Arm(k)]
    case Passed => [Move(k), Arm(k)]
    case Moved(_) => [Arm(k)]
    case Rearmed(_) => []
  }

  lemma FirstOfRun(a: Acceptor, steps: seq<Step>)
    requires steps != [] && Enabled(a, steps[0]) && IsRun(Take(a, steps[0]), steps[1..])
    ensures IsRun(a, steps) && After(a, steps) == After(Take(a, steps[0]), steps[1..])
  {
  }

  lemma StepAndRun(a: Acceptor, step: Step, rest: seq<Step>)
    requires Enabled(a, step) && IsRun(Take(a, step), rest)
    ensures IsRun(a, [step] + rest) && After(a, [step] + rest) == After(Take(a, step), rest)
  {
    assert ([step] + rest)[1..] == rest;
  }

  /** What the way from `a` to `a'`, on which call `k` arms the next accept, leaves as it was. */
  ghost predicate OnItsWay(a: Acceptor, a': Acceptor, k: AcceptId) {
    && k in a.accepts && k in a'.accepts && a'.open == a.open && a'.started == a.started
    && (IsAdmitted(a.accepts[k]) ==>
          && a'.admitted == a.admitted && Pending(a'.accepts) == Pending(a.accepts)
          && IsAdmitted(a'.accepts[k]) && a'.accepts[k].delivered == a.accepts[k].delivered)
  }

  lemma OnItsWayTwice(a: Acceptor, a1: Acceptor, a2: Acceptor, k: AcceptId)
    requires OnItsWay(a, a1, k) && OnItsWay(a1, a2, k)
    ensures OnItsWay(a, a2, k)
  {
  }

  lemma FirstStepToRearm(a: Acceptor, k: AcceptId, c: Connection)
    requires Inv(a) && k in a.accepts && (a.accepts[k].stage.Outstanding? ==> c !in a.connections)
    requires CanGoOn(a.accepts[k], a.open)
    ensures var steps := ToRearm(a, k, c);
            && Enabled(a, steps[0])
            && var a1 := Take(a, steps[0]);
            && Inv(a1) && OnItsWay(a, a1, k) && !a1.accepts[k].stage.Outstanding?
            && steps[1..] == ToRearm(a1, k, c)
            && (a1.accepts[k].stage.Rearmed? || CanGoOn(a1.accepts[k], a1.open))
            && a1.next == if a1.accepts[k].stage.Rearmed? then a.next + 1 else a.next
  {
    var step := ToRearm(a, k, c)[0];
    StepKeepsInv(a, step);
    if step.Move? {
      PendingStays(a.accepts, k, Take(a, step).accepts[k]);
    } else if step.Arm? {
      ArmKeepsPending(a, k);
    }
  }

  /** An accept that can go on does arm the next one if it is left alone. */
  lemma {:induction false} Rearms(a: Acceptor, k: AcceptId, c: Connection) returns (a': Acceptor)
    requires Inv(a) && k in a.accepts && (a.accepts[k].stage.Outstanding? ==> c !in a.connections)
    requires a.accepts[k].stage.Rearmed? || CanGoOn(a.accepts[k], a.open)
    ensures IsRun(a, ToRearm(a, k, c)) && a' == After(a, ToRearm(a, k, c))
    ensures Inv(a') && OnItsWay(a, a', k) && a'.accepts[k].stage.Rearmed?
    ensures a'.next == if a.accepts[k].stage.Rearmed? then a.next else a.next + 1
    decreases |ToRearm(a, k, c)|
  {
    if a.accepts[k].stage.Rearmed? {
      a' := a;
    } else {
      FirstStepToRearm(a, k, c);
      var steps := ToRearm(a, k, c);
      var a1 := Take(a, steps[0]);
      a' := Rearms(a1, k, c);
      OnItsWayTwice(a, a1, a', k);
      FirstOfRun(a, steps);
    }
  }

  ghost predicate ArmsAgain(a: Acceptor, steps: seq<Step>) {
    IsRun(a, steps) && After(a, steps).next > a.next
  }

  /**
   At any point of any run, another accept can be armed if and only if one is outstanding on an open
   acceptor, or a call is about to find it open and no error, or has found so and is yet to arm.
   */
  lemma AnotherAcceptIffLoopGoesOn(before: seq<Step>)
    requires IsRun(INITIAL, before)
    ensures (exists steps :: ArmsAgain(After(INITIAL, before), steps)) <==> LoopGoesOn(After(INITIAL, before))
  {
    var a := After(INITIAL, before);
    InitiallyInv();
    RunKeepsInv(INITIAL, before);
    if k :| k in a.accepts && CanGoOn(a.accepts[k], a.open) {
      var c := FreshNumber(a.connections);
      var a' := Rearms(a, k, c);
      assert ArmsAgain(a, ToRearm(a, k, c));
    } else if steps :| ArmsAgain(a, steps) {
      LoopStaysOver(a, steps);
    }
  }

  // ----- The acceptor is closed under the callbacks' feet.

  lemma ClosedStep(a: Acceptor, step: Step)
    requires Inv(a) && Enabled(a, step) && !a.open
    ensures var a' := Take(a, step);
            && !a'.open && a'.admitted == a.admitted
            && (a'.next == a.next || (a'.next == a.next + 1 && !LoopGoesOn(a')))
  {
    if step.Arm? {
      var a' := Take(a, step);
      forall k | k in a'.accepts
        ensures !CanGoOn(a'.accepts[k], a'.open)
      {
        assert k != step.k && k != a.next ==> a.accepts[k].stage.Rearmed?;
      }
    }
  }

  /** After the close no connection is admitted, and at most one more accept is armed. */
  lemma {:induction false} ClosedRun(a: Acceptor, steps: seq<Step>)
    requires Inv(a) && IsRun(a, steps) && !a.open
    ensures var a' := After(a, steps);
            !a'.open && a'.admitted == a.admitted && a.next <= a'.next <= a.next + 1
    decreases |steps|
  {
    if steps != [] {
      var a1 := Take(a, steps[0]);
      ClosedStep(a, steps[0]);
      StepKeepsInv(a, steps[0]);
      if a1.next == a.next {
        ClosedRun(a1, steps[1..]);
      } else {
        LoopStaysOver(a1, steps[1..]);
        ClosedRun(a1, steps[1..]);
      }
    }
  }

  lemma {:induction false} StartedGrows(a: Acceptor, steps: seq<Step>)
    requires IsRun(a, steps)
    ensures a.started <= After(a, steps).started
    decreases |steps|
  {
    if steps != [] {
      StartedGrows(Take(a, steps[0]), steps[1..]);
    }
  }

  lemma {:induction false} RunsCompose(a: Acceptor, first: seq<Step>, second: seq<Step>)
    requires IsRun(a, first) && IsRun(After(a, first), second)
    ensures IsRun(a, first + second)
    ensures After(a, first + second) == After(After(a, first), second)
    decreases |first|
  {
    if first == [] {
      assert first + second == second;
    } else {
      assert (first + second)[1..] == first[1..] + second;
      RunsCompose(Take(a, first[0]), first[1..], second);
    }
  }

  /** A call that has passed its check does start its session if it is left alone. */
  lemma Starts(a: Acceptor, k: AcceptId) returns (steps: seq<Step>)
    requires Inv(a) && k in a.accepts && IsAdmitted(a.accepts[k])
    ensures IsRun(a, steps)
    ensures var a' := After(a, steps);
            && Inv(a') && a'.open == a.open && a'.admitted == a.admitted
            && a.accepts[k].delivered.Some? && a'.started == a.started + {a.accepts[k].delivered.value}
            && Pending(a'.accepts) == Pending(a.accepts) - {k}
  {
    var a1 := Rearms(a, k, 0);
    var last := [StartSession(k)];
    StepKeepsInv(a1, last[0]);
    StepAndRun(a1, last[0], []);
    RunsCompose(a, ToRearm(a, k, 0), last);
    steps := ToRearm(a, k, 0) + last;
    PendingShrinks(a1.accepts, k);
  }

  /** Every admitted connection can still get its session. */
  lemma {:induction false} AllStart(a: Acceptor) returns (steps: seq<Step>)
    requires Inv(a)
    ensures IsRun(a, steps)
    ensures After(a, steps).started == a.admitted
    decreases |Pending(a.accepts)|
  {
    if k :| k in Pending(a.accepts) {
      var first := Starts(a, k);
      var rest := AllStart(After(a, first));
      RunsCompose(a, first, rest);
      steps := first + rest;
    } else {
      NothingPending(a);
      steps := [];
    }
  }

  lemma NothingPending(a: Acceptor)
    requires Inv(a) && Pending(a.accepts) == {}
    ensures a.started == a.admitted
  {
    forall k | k in a.accepts
      ensures !IsAdmitted(a.accepts[k])
    {
      assert k !in Pending(a.accepts);
    }
  }

  ghost predicate AddsSession(a: Acceptor, steps: seq<Step>) {
    IsRun(a, steps) && After(a, steps).started != a.started
  }

  /**
   Once the acceptor is closed: a session can still be added if and only if some call had passed its
   check before the close; all that is ever added is one session for each such call; and these can
   all be added.
   */
  lemma SessionAfterCloseIffAdmitted(a: Acceptor)
    requires Inv(a) && !a.open
    ensures (exists steps :: AddsSession(a, steps)) <==> exists k :: k in a.accepts && IsAdmitted(a.accepts[k])
    ensures forall steps :: IsRun(a, steps) ==> a.started <= After(a, steps).started <= a.admitted
    ensures exists steps :: IsRun(a, steps) && After(a, steps).started == a.admitted
    ensures |a.admitted| == |a.started| + |Pending(a.accepts)|
  {
    forall steps | IsRun(a, steps)
      ensures a.started <= After(a, steps).started <= a.admitted
    {
      StartedGrows(a, steps);
      RunKeepsInv(a, steps);
      ClosedRun(a, steps);
    }
    var all := AllStart(a);
    if k :| k in a.accepts && IsAdmitted(a.accepts[k]) {
      var steps := Starts(a, k);
      assert a.accepts[k].delivered.value !in a.started;
      assert AddsSession(a, steps);
    } else {
      assert Pending(a.accepts) == {};
      NothingPending(a);
    }
  }

  const FIRST: seq<Step> := [Complete(0, false, 7), Check(0), Move(0), Arm(0)]

  /** The first connection that is accepted, up to where its session is to be started. */
  lemma FirstConnection()
    ensures IsRun(INITIAL, FIRST)
    ensures var a := After(INITIAL, FIRST);
            a.open && a.next == 2 && 0 in a.accepts && a.accepts[0].stage == Rearmed(Some(7))
  {
    var a1 := Take(INITIAL, FIRST[0]);
    var a2 := Take(a1, FIRST[1]);
    var a3 := Take(a2, FIRST[2]);
    StepAndRun(a3, FIRST[3], []);
    StepAndRun(a2, FIRST[2], [FIRST[3]]);
    StepAndRun(a1, FIRST[1], [FIRST[2], FIRST[3]]);
    StepAndRun(INITIAL, FIRST[0], [FIRST[1], FIRST[2], FIRST[3]]);
  }

  /** The run in which the acceptor is closed between the check and the arming. */
  const RACE: seq<Step> := [Complete(0, false, 7), Check(0), Close, Move(0), Arm(0), StartSession(0)]

  lemma RaceToTheClose()
    ensures IsRun(INITIAL, RACE[..3])
    ensures After(INITIAL, RACE[..3])
         == Acceptor(false, Some(7), map[0 := Accept(Passed, Some(7))], 1, {7}, {7}, {}, false)
  {
    var a1 := Take(INITIAL, RACE[0]);
    var a2 := Take(a1, RACE[1]);
    assert a2.accepts == map[0 := Accept(Passed, Some(7))];
    StepAndRun(a2, RACE[2], []);
    StepAndRun(a1, RACE[1], [RACE[2]]);
    StepAndRun(INITIAL, RACE[0], [RACE[1], RACE[2]]);
    assert RACE[..3] == [RACE[0]] + [RACE[1], RACE[2]];
  }

  lemma RaceFromTheClose(a: Acceptor)
    requires a == Acceptor(false, Some(7), map[0 := Accept(Passed, Some(7))], 1, {7}, {7}, {}, false)
    ensures IsRun(a, RACE[3..])
    ensures After(a, RACE[3..]) == Acceptor(false, None, map[1 := Accept(Outstanding, None)], 2, {7}, {7}, {7}, false)
  {
    var a1 := Take(a, RACE[3]);
    var a2 := Take(a1, RACE[4]);
    var a3 := Take(a2, RACE[5]);
    assert a3.accepts == map[1 := Accept(Outstanding, None)];
    StepAndRun(a2, RACE[5], []);
    StepAndRun(a1, RACE[4], [RACE[5]]);
    StepAndRun(a, RACE[3], [RACE[4], RACE[5]]);
    assert RACE[3..] == [RACE[3]] + [RACE[4], RACE[5]];
  }

  /**
   Closing the acceptor does not stop a call that is past its check: it arms an accept on the closed
   acceptor and starts its session.  The accept it has armed ends the loop, however it completes.
   */
  lemma CloseCanBeOvertaken(failed: bool, c: Connection)
    requires failed || c != 7
    ensures IsRun(INITIAL, RACE[..3]) && IsRun(INITIAL, RACE)
    ensures var a := After(INITIAL, RACE);
            && !After(INITIAL, RACE[..3]).open && After(INITIAL, RACE[..3]).started == {}
            && a.started == {7} && a.accepts == map[1 := Accept(Outstanding, None)]
            && IsRun(a, [Complete(1, failed, c), Check(1)])
            && var a' := After(a, [Complete(1, failed, c), Check(1)]);
            a'.accepts == map[] && a'.started == {7}
  {
    RaceToTheClose();
    RaceFromTheClose(After(INITIAL, RACE[..3]));
    RunsCompose(INITIAL, RACE[..3], RACE[3..]);
    assert RACE[..3] + RACE[3..] == RACE;
    var a, first, second := After(INITIAL, RACE), Complete(1, failed, c), Check(1);
    StepAndRun(Take(a, first), second, []);
    StepAndRun(a, first, [second]);
    assert [first] + [second] == [first, second];
  }
}
