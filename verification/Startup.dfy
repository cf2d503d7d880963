/** Start-up of `Connman`: the two uncounted list calls are posted before the counted
    GetProperties call of the clock, and that order is what protects them from an early `stop`. */
module Startup {
  import opened Wrappers
  import opened Bus
  import opened Works
  import opened Registry
  import opened Calls
  import opened CallsInvariant
  import opened Drain

  /** Program order of the constructor: calls 0 and 1 are GetTechnologies and GetServices, call 2
      is the clock's GetProperties; `stop` and user callbacks come after construction. */
  ghost predicate ConstructorOrder(s: State, step: Step) {
    && (step.StartList? ==> |s.calls| < 2)
    && (step.Start? ==> |s.calls| >= 2)
    && (step == BusStep(StopClear) ==> |s.calls| > 2)
    && (step.ListReply? && |s.calls| <= 2 ==> step.body == [])
  }

  /** The assumption on replies: the two lists' replies precede the clock's. */
  ghost predicate RepliesInOrder(s: State, step: Step) {
    step.Reply? && step.id == 2 < |s.calls| ==> !Waiting(s.calls[0]) && !Waiting(s.calls[1])
  }

  ghost predicate StartupRun(s: State, steps: seq<Step>, inOrder: bool)
    requires Feasible(s, steps)
    decreases |steps|
  {
    steps != [] ==>
      && ConstructorOrder(s, steps[0])
      && (inOrder ==> RepliesInOrder(s, steps[0]))
      && StartupRun(Apply(s, steps[0]), steps[1..], inOrder)
  }

  /** The list call's one reply has been dealt with, its list-changed callback included. */
  predicate Through(c: Call) {
    c.origin.Listing? && c.phase.Released? && |c.results| == 1
  }

  /** A quit has been requested, or `stop` has decided on one. */
  predicate Closing(b: Bus) {
    b.quit || b.stop.Decided?
  }

  ghost predicate StartupInv(s: State) {
    && (forall i :: 0 <= i < |s.calls| && i < 2 ==> s.calls[i].origin.Listing?)
    && (forall i :: 0 <= i < |s.calls| && s.calls[i].origin.Listing? ==> i < 2)
    && (|s.calls| <= 2 ==> s.bus.stop.NotCalled? && forall i :: 0 <= i < |s.calls| ==> Future(s.calls[i]) == [])
    && (|s.calls| > 2 ==> s.calls[2].origin.Tracked?)
    && (|s.calls| > 2 && !Waiting(s.calls[2]) ==> Through(s.calls[0]) && Through(s.calls[1]))
    && (Closing(s.bus) ==> |s.calls| > 2 && !Waiting(s.calls[2]))
  }

  /** One call over one step: its history only grows, by the reply it is waiting for. */
  ghost predicate Evolves(c: Call, c': Call, step: Step, i: nat) {
    && c'.origin == c.origin
    && (Waiting(c') ==> Waiting(c))
    && (!Waiting(c) ==> c'.results == c.results)
    && (c.phase.Released? ==> c'.phase.Released?)
    && (Waiting(c) && !Waiting(c') ==>
         (step.Reply? || step.ListReply?) && step.id == i && |c'.results| == |c.results| + 1)
  }

  lemma StepEvolves(s: State, step: Step, i: nat)
    requires CanStep(s, step) && Sound(s, step) && i < |s.calls|
    ensures i < |Apply(s, step).calls| && Evolves(s.calls[i], Apply(s, step).calls[i], step, i)
  {
    match step
    case Return => EndTouches(s, step);
    case Done => EndTouches(s, step);
    case Release => EndTouches(s, step);
    case _ =>
  }

  /** At most one call is added, and it starts out waiting. */
  lemma StepAppends(s: State, step: Step)
    requires CanStep(s, step) && Sound(s, step)
    ensures var s' := Apply(s, step);
      && |s.calls| <= |s'.calls| <= |s.calls| + 1
      && (|s'.calls| > |s.calls| ==>
           (step.Start? || step.StartList? || step.Child?) && Waiting(s'.calls[|s.calls|])
           && s'.calls[|s.calls|].origin.Listing? == step.StartList?
           && (step.StartList? ==> Future(s'.calls[|s.calls|]) == []))
  {
    match step
    case Return => EndTouches(s, step);
    case Done => EndTouches(s, step);
    case Release => EndTouches(s, step);
    case _ =>
  }

  ghost predicate NoFutures(s: State) {
    forall i :: 0 <= i < |s.calls| ==> Future(s.calls[i]) == []
  }

  /** Before the third call exists no callback starts anything. */
  lemma EarlyFutures(s: State, step: Step)
    requires CanStep(s, step) && Sound(s, step) && ConstructorOrder(s, step)
    requires |s.calls| <= 2 && NoFutures(s)
    ensures !step.Child?
    ensures !step.Start? ==> NoFutures(Apply(s, step))
  {
    assert OnLoop(s) ==> Future(s.calls[s.loop.value]) == [];
    if !step.Start? {
      assert Injected(step) == multiset{};
      ClosedStep(s, step);
    }
  }

  lemma EarlyBus(b: Bus, b': Bus, step: Step)
    requires BusMoves(b, b', step) && BusInv(b') && b.stop.NotCalled? && step != BusStep(StopClear)
    ensures b'.stop.NotCalled? && !b'.quit
  {
  }

  /** The clock's reply is handled by a free loop thread: both lists are past their callbacks. */
  lemma ClockReply(s: State, step: Step)
    requires CallsOk(s) && LoopOk(s) && CanStep(s, step) && RepliesInOrder(s, step)
    requires step.Reply? && step.id == 2 < |s.calls| && StartupInv(s)
    ensures Through(s.calls[0]) && Through(s.calls[1])
  {
    assert CallOk(s.calls[0]) && CallOk(s.calls[1]);
    assert !Busy(s.calls[0]) && !Busy(s.calls[1]);
  }

  /** A quit means that the clock's call is finished. */
  lemma QuitAfterClock(s: State)
    requires Inv(s) && s.bus.pending == 0 && |s.calls| < WRAP
    ensures forall i :: 0 <= i < |s.calls| && s.calls[i].origin.Tracked? ==> !Waiting(s.calls[i])
  {
    OutstandingWithinLength(s.calls);
    CounterAtZero(s);
    forall i | 0 <= i < |s.calls| && s.calls[i].origin.Tracked? ensures !Waiting(s.calls[i]) {
      assert !Unfinished(s.calls[i]);
    }
  }

  lemma {:induction false} OutstandingWithinLength(cs: seq<Call>)
    ensures Tally(cs, OneIfUnfinished) <= |cs|
  {
    if cs != [] {
      OutstandingWithinLength(cs[..|cs| - 1]);
    }
  }

  lemma StartupStepInv(s: State, step: Step)
    requires Inv(s) && CanStep(s, step) && ConstructorOrder(s, step) && RepliesInOrder(s, step)
    requires StartupInv(s) && |Apply(s, step).calls| < WRAP
    ensures StartupInv(Apply(s, step))
  {
    var s' := Apply(s, step);
    StepSound(s, step);
    StepAppends(s, step);
    AllEvolve(s, step);
    StepInv(s, step);
    EarlySteps(s, step);
    AnsweredKind(s, step);
    if |s.calls| > 2 && step.Reply? && step.id == 2 {
      ClockReply(s, step);
    }
    ClosingAfterClock(s, step);
    FollowsFrom(s, s', step);
  }

  /** Before the third call exists, `stop` is not called and no callback starts anything. */
  lemma EarlySteps(s: State, step: Step)
    requires Inv(s) && CanStep(s, step) && Sound(s, step) && ConstructorOrder(s, step) && StartupInv(s)
    requires BusInv(Apply(s, step).bus)
    ensures |s.calls| <= 2 ==> !step.Child?
    ensures |s.calls| <= 2 ==> Apply(s, step).bus.stop.NotCalled? && !Apply(s, step).bus.quit
    ensures |s.calls| <= 2 && !step.Start? ==> NoFutures(Apply(s, step))
  {
    if |s.calls| <= 2 {
      StepBus(s, step);
      EarlyBus(s.bus, Apply(s, step).bus, step);
      EarlyFutures(s, step);
    }
  }

  /** Reply answers counted calls, ListReply list calls; Start always adds a call. */
  lemma AnsweredKind(s: State, step: Step)
    requires CanStep(s, step) && Sound(s, step)
    ensures step.Reply? && step.id < |s.calls| ==> s.calls[step.id].origin.Tracked?
    ensures step.ListReply? && step.id < |s.calls| ==> s.calls[step.id].origin.Listing?
    ensures step.Start? ==> |Apply(s, step).calls| > |s.calls|
  {
  }

  ghost predicate EvolvesAt(s: State, s': State, step: Step, i: nat) {
    && i < |s.calls| && i < |s'.calls|
    && Evolves(s.calls[i], s'.calls[i], step, i)
    && (Waiting(s.calls[i]) ==> s.calls[i].results == [])
  }

  lemma AllEvolve(s: State, step: Step)
    requires CanStep(s, step) && Sound(s, step) && CallsOk(s)
    ensures forall i :: 0 <= i < |s.calls| ==> EvolvesAt(s, Apply(s, step), step, i)
  {
    forall i | 0 <= i < |s.calls| ensures EvolvesAt(s, Apply(s, step), step, i) {
      StepEvolves(s, step, i);
      assert CallOk(s.calls[i]);
    }
  }

  /** The counter reads zero when the last completion quits and when `stop` decides to. */
  lemma ClosingBus(b: Bus, b': Bus, step: Step)
    requires BusMoves(b, b', step) && !Closing(b) && Closing(b')
    ensures b'.pending == 0 && (step.Done? || step == BusStep(StopCount))
  {
  }

  lemma ClosingAfterClock(s: State, step: Step)
    requires Inv(s) && CanStep(s, step) && Sound(s, step) && Inv(Apply(s, step)) && |Apply(s, step).calls| < WRAP
    ensures var s' := Apply(s, step);
      Closing(s'.bus) && !Closing(s.bus) ==>
        forall i :: 0 <= i < |s'.calls| && s'.calls[i].origin.Tracked? ==> !Waiting(s'.calls[i])
  {
    if Closing(Apply(s, step).bus) && !Closing(s.bus) {
      StepBus(s, step);
      ClosingBus(s.bus, Apply(s, step).bus, step);
      QuitAfterClock(Apply(s, step));
    }
  }

  /** The bookkeeping of the step, on the two states alone. */
  lemma FollowsFrom(s: State, s': State, step: Step)
    requires StartupInv(s) && RepliesInOrder(s, step) && ConstructorOrder(s, step)
    requires |s.calls| <= |s'.calls| <= |s.calls| + 1
    requires forall i :: 0 <= i < |s.calls| ==> EvolvesAt(s, s', step, i)
    requires |s'.calls| > |s.calls| ==>
      Waiting(s'.calls[|s.calls|]) && s'.calls[|s.calls|].origin.Listing? == step.StartList?
      && (step.Start? || step.StartList? || |s.calls| > 2)
    requires |s.calls| <= 2 ==> s'.bus.stop.NotCalled? && !s'.bus.quit && (!step.Start? ==> NoFutures(s'))
    requires step.Start? ==> |s'.calls| > |s.calls|
    requires |s.calls| > 2 && step.Reply? && step.id == 2 ==> Through(s.calls[0]) && Through(s.calls[1])
    requires Closing(s'.bus) && !Closing(s.bus) && |s'.calls| > 2 && s'.calls[2].origin.Tracked? ==>
      !Waiting(s'.calls[2])
    requires step.Reply? && step.id < |s.calls| ==> s.calls[step.id].origin.Tracked?
    requires step.ListReply? && step.id < |s.calls| ==> s.calls[step.id].origin.Listing?
    ensures StartupInv(s')
  {
    forall i | 0 <= i < |s.calls| ensures s'.calls[i].origin == s.calls[i].origin {
      assert EvolvesAt(s, s', step, i);
    }
    assert |s.calls| > 0 ==> EvolvesAt(s, s', step, 0);
    assert |s.calls| > 1 ==> EvolvesAt(s, s', step, 1);
    assert |s.calls| > 2 ==> EvolvesAt(s, s', step, 2);
  }

  lemma StepGrows(s: State, step: Step)
    requires CanStep(s, step)
    ensures |s.calls| <= |Apply(s, step).calls|
  {
  }

  lemma {:induction false} RunGrows(s: State, steps: seq<Step>)
    requires Feasible(s, steps)
    ensures |s.calls| <= |Run(s, steps).calls|
    decreases |steps|
  {
    if steps != [] {
      StepGrows(s, steps[0]);
      RunGrows(Apply(s, steps[0]), steps[1..]);
    }
  }

  lemma {:induction false} StartupRunInv(s: State, steps: seq<Step>)
    requires Inv(s) && StartupInv(s) && Feasible(s, steps) && StartupRun(s, steps, true)
    requires |Run(s, steps).calls| < WRAP
    ensures Inv(Run(s, steps)) && StartupInv(Run(s, steps))
    decreases |steps|
  {
    if steps != [] {
      RunGrows(Apply(s, steps[0]), steps[1..]);
      StepInv(s, steps[0]);
      StartupStepInv(s, steps[0]);
      StartupRunInv(Apply(s, steps[0]), steps[1..]);
    }
  }

  /** Some reply of the run brought list call i this list. */
  ghost predicate RepliedWith(steps: seq<Step>, i: nat, list: seq<string>) {
    exists k :: 0 <= k < |steps| && steps[k].ListReply? && steps[k].id == i && steps[k].list == Some(list)
  }

  lemma StoredStep(s: State, step: Step)
    requires CanStep(s, step)
    ensures Apply(s, step).stored ==
      if step.ListReply? && step.list.Some? then s.stored[step.id := step.list.value] else s.stored
  {
  }

  /** Lists are stored by successful replies only, and stay stored. */
  lemma {:induction false} StoredHistory(s: State, steps: seq<Step>, i: nat)
    requires Feasible(s, steps)
    ensures i in Run(s, steps).stored ==>
      (i in s.stored && Run(s, steps).stored[i] == s.stored[i]) || RepliedWith(steps, i, Run(s, steps).stored[i])
    ensures i in s.stored || (exists list :: RepliedWith(steps, i, list)) ==> i in Run(s, steps).stored
    decreases |steps|
  {
    if steps != [] {
      var s', rest := Apply(s, steps[0]), steps[1..];
      StoredStep(s, steps[0]);
      StoredHistory(s', rest, i);
      assert forall k :: 0 <= k < |rest| ==> rest[k] == steps[k + 1];
      if list :| RepliedWith(steps, i, list) {
        var k :| 0 <= k < |steps| && steps[k].ListReply? && steps[k].id == i && steps[k].list == Some(list);
        if k > 0 {
          assert rest[k - 1] == steps[k];
          assert RepliedWith(rest, i, list);
        }
      }
      if i in Run(s', rest).stored {
        var list := Run(s', rest).stored[i];
        if RepliedWith(rest, i, list) {
          var k :| 0 <= k < |rest| && rest[k].ListReply? && rest[k].id == i && rest[k].list == Some(list);
          assert steps[k + 1] == rest[k];
        }
      }
    }
  }

  /** List call i is through, and its list is stored exactly if its reply succeeded. */
  ghost predicate DealtWith(steps: seq<Step>, s: State, i: nat)
    requires i < |s.calls|
  {
    && Through(s.calls[i])
    && (i in s.stored <==> exists list :: RepliedWith(steps, i, list))
    && (i in s.stored ==> RepliedWith(steps, i, s.stored[i]))
  }

  /** Start-up delivery: with replies in call order, however early `stop` comes and however the threads
      interleave, a quit is requested only after both initial list calls are through. Each list
      that the daemon sent is then stored and its callback has returned; the list of an error reply
      is the only one missing. */
  lemma StartupDelivery(steps: seq<Step>)
    requires Feasible(INIT, steps) && StartupRun(INIT, steps, true)
    requires |Run(INIT, steps).calls| < WRAP
    ensures var s := Run(INIT, steps);
      s.bus.quit ==> |s.calls| > 2 && DealtWith(steps, s, 0) && DealtWith(steps, s, 1) && !Waiting(s.calls[2])
  {
    InitInv();
    StartupRunInv(INIT, steps);
    StoredHistory(INIT, steps, 0);
    StoredHistory(INIT, steps, 1);
  }

  /** ... and when the last completion quits, or `stop` decides to, all calls ever started have
      completed with their whole trees, those which the two list callbacks started among them. (What
      can still be started before a decided `stop` quits is the matter of Quits.) */
  lemma StartupDrains(steps: seq<Step>, step: Step)
    requires Feasible(INIT, steps) && StartupRun(INIT, steps, true)
    requires CanStep(Run(INIT, steps), step) && ConstructorOrder(Run(INIT, steps), step)
    requires RepliesInOrder(Run(INIT, steps), step)
    requires !Closing(Run(INIT, steps).bus) && Closing(Apply(Run(INIT, steps), step).bus)
    requires |Apply(Run(INIT, steps), step).calls| < WRAP
    ensures var s := Apply(Run(INIT, steps), step);
      Drained(s) && Completed(s) == InjectedAll(steps)
  {
    var s := Run(INIT, steps);
    var s' := Apply(s, step);
    InitInv();
    StepGrows(s, step);
    StartupRunInv(INIT, steps);
    StepInv(s, step);
    StartupStepInv(s, step);
    StepSound(s, step);
    StepBus(s, step);
    ClosingBus(s.bus, s'.bus, step);
    StepTotal(s, step);
    RunTotal(INIT, steps);
    assert Total(INIT) == multiset{};
    OutstandingWithinLength(s'.calls);
    CounterAtZero(s');
    ThroughDrains(s');
  }

  lemma ThroughDrains(s: State)
    requires CallsOk(s) && StartupInv(s) && Closing(s.bus) && AllFinished(s)
    ensures Drained(s) && Completed(s) == Total(s)
  {
    forall i | 0 <= i < |s.calls| ensures Future(s.calls[i]) == [] {
      assert CallOk(s.calls[i]);
      if s.calls[i].origin.Tracked? { assert FinishedOnce(s.calls[i]); }
    }
    DrainedCompletesAll(s);
  }

  // ----- Without the order of replies -----

  /** A run from the start that respects the constructor's order, and the state it reaches. */
  ghost predicate Reaches(steps: seq<Step>, s: State) {
    Feasible(INIT, steps) && StartupRun(INIT, steps, false) && Run(INIT, steps) == s
  }

  lemma {:induction false} Extend(s: State, steps: seq<Step>, step: Step)
    requires Feasible(s, steps) && StartupRun(s, steps, false)
    requires CanStep(Run(s, steps), step) && ConstructorOrder(Run(s, steps), step)
    ensures Feasible(s, steps + [step]) && StartupRun(s, steps + [step], false)
    ensures Run(s, steps + [step]) == Apply(Run(s, steps), step)
    decreases |steps|
  {
    if steps == [] {
      assert [step][1..] == [];
      assert Feasible(Apply(s, step), []);
    } else {
      assert (steps + [step])[1..] == steps[1..] + [step];
      Extend(Apply(s, steps[0]), steps[1..], step);
    }
  }

  lemma Then(steps: seq<Step>, s: State, step: Step) returns (longer: seq<Step>)
    requires Reaches(steps, s) && CanStep(s, step) && ConstructorOrder(s, step)
    ensures Reaches(longer, Apply(s, step))
  {
    Extend(INIT, steps, step);
    longer := steps + [step];
  }

  const CLOCK_CALL := Plain(0, GotProperties)

  /** The bus up and running, as the DBus constructor leaves it. */
  const UP := Bus(true, 0, Some(true), InLoop, false, true, NotCalled, false)

  /** The state in which the constructor's calls have these phases: the clock is proxy 0. */
  function Booted(pending: UInt32, clockRefs: nat, calls: seq<Call>): State {
    State(UP.(pending := pending), map[0 := ProxyState(EMPTY, 0, 1, clockRefs), 1 := ProxyState(EMPTY, 0, 1, 1)],
          calls, None, false, map[], Workers(0, 0), None)
  }

  lemma BootRun() returns (steps: seq<Step>)
    ensures Reaches(steps, Booted(0, 1, []))
  {
    assert Reaches([], INIT);
    var s := INIT;
    steps := Then([], s, BusStep(Spawn)); s := Apply(s, BusStep(Spawn));
    steps := Then(steps, s, BusStep(BusAct.MakeLoop)); s := Apply(s, BusStep(BusAct.MakeLoop));
    steps := Then(steps, s, BusStep(BusAct.RunLoop)); s := Apply(s, BusStep(BusAct.RunLoop));
    steps := Then(steps, s, BusStep(Announce)); s := Apply(s, BusStep(Announce));
    steps := Then(steps, s, BusStep(StartReturns)); s := Apply(s, BusStep(StartReturns));
    steps := Then(steps, s, NewProxy(0)); s := Apply(s, NewProxy(0));
    steps := Then(steps, s, NewProxy(1)); s := Apply(s, NewProxy(1));
    assert s == Booted(0, 1, []);
  }

  function ThreeCalls(list: Phase, clock: Phase): seq<Call> {
    [Call(Listing, list, [], [], 0), Call(Listing, list, [], [], 0),
     Call(Tracked(CLOCK_CALL, None), clock, [], [], 0)]
  }

  /** The constructor's three calls, posted in order. */
  lemma ThreeCallsPosted() returns (steps: seq<Step>)
    ensures Reaches(steps, Booted(1, 2, ThreeCalls(Queued, Prepared)))
  {
    steps := BootRun();
    var s := Booted(0, 1, []);
    steps := Then(steps, s, StartList); s := PostList(s);
    steps := Then(steps, s, StartList); s := PostList(s);
    steps := Then(steps, s, Start(CLOCK_CALL)); s := Prepare(s, CLOCK_CALL, Prepared);
    assert s == Booted(1, 2, ThreeCalls(Queued, Prepared));
  }

  lemma ThreeCallsSent() returns (steps: seq<Step>)
    ensures Reaches(steps, Booted(1, 2, ThreeCalls(InFlight, InFlight)))
  {
    steps := ThreeCallsPosted();
    var s := Booted(1, 2, ThreeCalls(Queued, Prepared));
    steps := Then(steps, s, Post(2)); s := SetPhase(s, 2, Queued);
    steps := Then(steps, s, Dispatch(0)); s := SetPhase(s, 0, InFlight);
    steps := Then(steps, s, Dispatch(1)); s := SetPhase(s, 1, InFlight);
    steps := Then(steps, s, Dispatch(2)); s := SetPhase(s, 2, InFlight);
    assert s == Booted(1, 2, ThreeCalls(InFlight, InFlight));
  }

  /** The clock's call answered before the two lists: its completion is executing. */
  lemma ClockReplied() returns (steps: seq<Step>, s: State)
    ensures Reaches(steps, s)
    ensures s == Booted(1, 2, ThreeCalls(InFlight, InFlight)[2 :=
      Call(Tracked(CLOCK_CALL, None), Erased, [true], [], 0)]).(loop := Some(2))
  {
    steps := ThreeCallsSent();
    s := Booted(1, 2, ThreeCalls(InFlight, InFlight));
    steps := Then(steps, s, Reply(2, true)); s := Complete(s, 2, true);
    assert [] + [true] == [true];
    assert s.calls == ThreeCalls(InFlight, InFlight)[2 := Call(Tracked(CLOCK_CALL, None), Erased, [true], [], 0)];
  }

  /** The state after the clock's call has completed, with both lists still on the wire. */
  function ClockDone(): State {
    Booted(0, 1, ThreeCalls(InFlight, InFlight)[2 := Call(Tracked(CLOCK_CALL, None), Released, [true], [], 1)])
  }

  /** The clock's call answered and completed before the two lists. */
  lemma ClockAnsweredFirst() returns (steps: seq<Step>)
    ensures Reaches(steps, ClockDone())
  {
    var s;
    steps, s := ClockReplied();
    steps := Then(steps, s, Done); s := Settle(s, 2);
    steps := Then(steps, s, Release); s := Forget(s, 2);
    assert s.calls == ClockDone().calls;
    assert s.proxies == ClockDone().proxies;
  }

  /** The order of replies is needed: if the clock is answered first, `stop` may quit the loop
      while both lists are still on the wire. */
  lemma OrderIsNeeded() returns (steps: seq<Step>, s: State)
    ensures Feasible(INIT, steps) && StartupRun(INIT, steps, false) && s == Run(INIT, steps)
    ensures s.bus.quit && |s.calls| == 3 && s.calls[0].phase.InFlight? && s.calls[1].phase.InFlight?
    ensures s.bus == UP.(running := false, stop := Checked, quit := true, loop := Some(false))
    ensures s.loop.None? && !s.crashed && s.halted.None?
    ensures s.calls[0] == s.calls[1] == Call(Listing, InFlight, [], [], 0) && s.calls[2].phase.Released?
    ensures MANAGER in s.proxies && s.proxies[MANAGER] == ProxyState(EMPTY, 0, 1, 1)
  {
    steps := ClockAnsweredFirst();
    s := ClockDone();
    steps := Then(steps, s, BusStep(StopClear)); s := s.(bus := Act(s.bus, StopClear));
    steps := Then(steps, s, BusStep(StopLook)); s := s.(bus := Act(s.bus, StopLook));
    steps := Then(steps, s, BusStep(StopCount)); s := s.(bus := Act(s.bus, StopCount));
    steps := Then(steps, s, BusStep(StopQuit)); s := s.(bus := Act(s.bus, StopQuit));
  }

  lemma StopReturned() returns (steps: seq<Step>, s: State)
    ensures Reaches(steps, s) && s.bus.thread.Gone? && s.bus.stop.Returned? && s.loop.None?
    ensures !s.crashed && s.halted.None? && MANAGER in s.proxies && s.proxies[MANAGER] == ProxyState(EMPTY, 0, 1, 1)
    ensures |s.calls| == 3 && s.calls[0] == s.calls[1] == Call(Listing, InFlight, [], [], 0)
    ensures s.calls[2].phase.Released?
  {
    steps, s := OrderIsNeeded();
    steps := Then(steps, s, BusStep(BusAct.LoopReturns)); s := s.(bus := Act(s.bus, BusAct.LoopReturns));
    steps := Then(steps, s, BusStep(BusAct.FreeLoop)); s := s.(bus := Act(s.bus, BusAct.FreeLoop));
    steps := Then(steps, s, BusStep(JoinReturns)); s := s.(bus := Act(s.bus, JoinReturns));
  }

  /** ... and when `stop` has returned, Connman frees the Manager. */
  lemma ManagerReleased() returns (steps: seq<Step>, s: State)
    ensures Reaches(steps, s) && s.bus.thread.Gone? && s.bus.stop.Returned? && s.loop.None?
    ensures !s.crashed && s.halted.None? && MANAGER !in s.proxies
    ensures |s.calls| == 3 && s.calls[0] == Call(Listing, InFlight, [], [], 0)
  {
    steps, s := StopReturned();
    NoNeeds(s);
    steps := Then(steps, s, DropHandle(MANAGER)); s := Drop(s, MANAGER, false);
  }

  lemma NoNeeds(s: State)
    requires forall i :: 0 <= i < |s.calls| ==> Future(s.calls[i]) == []
    ensures MayDrop(s, MANAGER)
  {
  }

  /** ... and from there the destructor's drain runs a list completion on the freed Manager. */
  lemma FreedManagerReached() returns (steps: seq<Step>, s: State)
    ensures Feasible(INIT, steps) && StartupRun(INIT, steps, false) && s == Run(INIT, steps)
    ensures s.halted == Some(ManagerFreed)
  {
    steps, s := ManagerReleased();
    steps := Then(steps, s, BusStep(BeginDrain)); s := s.(bus := Act(s.bus, BeginDrain));
    steps := Then(steps, s, Dangle(0)); s := s.(halted := Some(ManagerFreed));
  }
}
