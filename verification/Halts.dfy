/** How a run can end in the middle (an exception on the loop thread, or a list call or an agent's worker
    using a freed Manager), exactly when, and what the 32-bit counter does at its limit. */
module Halts {
  import opened Wrappers
  import opened Bus
  import opened Calls
  import opened CallsInvariant
  import opened Startup

  /** A run is cut short by nothing but its own last step. */
  lemma {:induction false} HaltsExactlyWhen(s: State, steps: seq<Step>)
    requires s.halted.None? && Feasible(s, steps)
    ensures Run(s, steps).halted ==
      if steps == [] then None
      else match steps[|steps| - 1]
        case Reject(_) => Some(Uncaught)
        case Dangle(_) => Some(ManagerFreed)
        case Agent(a) =>
          if a.UseFreedManager? then Some(ManagerFreed) else if a.UseFreedContext? then Some(ContextFreed) else None
        case _ => None
    decreases |steps|
  {
    if steps != [] {
      StepHalt(s, steps[0]);
      if |steps| > 1 {
        assert CanStep(Apply(s, steps[0]), steps[1..][0]);
        HaltsExactlyWhen(Apply(s, steps[0]), steps[1..]);
      }
    }
  }

  // ----- The freed Manager -----

  /** A list call whose reply has not been handled. */
  predicate ListWaiting(s: State) {
    exists i :: 0 <= i < |s.calls| && s.calls[i].origin.Listing? && Waiting(s.calls[i])
  }

  /** While the loop thread lives no list call can dangle: Connman frees the Manager after its `stop`. */
  lemma ManagerOutlivesLoop(steps: seq<Step>, id: nat)
    requires Feasible(INIT, steps) && CanStep(Run(INIT, steps), Dangle(id))
    ensures Run(INIT, steps).bus.thread.Draining?
  {
    var s := Run(INIT, steps);
    Reachable(steps);
    assert AnyListing(s.calls);
  }

  /** One step away: a free loop dangles exactly if the Manager is gone and a list call waits. */
  lemma DanglesExactly(steps: seq<Step>)
    requires Feasible(INIT, steps) && LoopFree(Run(INIT, steps)) && Run(INIT, steps).halted.None?
    ensures var s := Run(INIT, steps);
      (exists id: nat :: CanStep(s, Dangle(id))) <==> MANAGER !in s.proxies && ListWaiting(s)
  {
    var s := Run(INIT, steps);
    CallsReached(steps);
    forall id: nat | CanStep(s, Dangle(id)) ensures MANAGER !in s.proxies && ListWaiting(s) {
      assert s.calls[id].origin.Listing? && Waiting(s.calls[id]);
    }
    if MANAGER !in s.proxies && ListWaiting(s) {
      var id := SomeDangle(s);
      assert CanStep(s, Dangle(id));
    }
  }

  lemma CallsReached(steps: seq<Step>)
    requires Feasible(INIT, steps)
    ensures CallsOk(Run(INIT, steps)) && !Run(INIT, steps).crashed
  {
    Reachable(steps);
  }

  lemma SomeDangle(s: State) returns (id: nat)
    requires CallsOk(s) && MANAGER !in s.proxies && ListWaiting(s)
    ensures id < |s.calls| && Dangles(s, id)
  {
    id :| id < |s.calls| && s.calls[id].origin.Listing? && Waiting(s.calls[id]);
    assert CallOk(s.calls[id]);
    if s.calls[id].phase.Queued? && ListInFlight(s) {
      id :| id < |s.calls| && s.calls[id].origin.Listing? && s.calls[id].phase.InFlight?;
    }
  }

  /** Somebody has still to use the Manager: a list call, or an agent's worker in its handler. */
  predicate ManagerNeeded(s: State) {
    ListWaiting(s) || s.workers.asking > 0
  }

  lemma NoListComesBack(s: State, step: Step)
    requires CallsOk(s) && CanStep(s, step) && Sound(s, step) && MANAGER !in s.proxies && !ListWaiting(s)
    ensures !ListWaiting(Apply(s, step))
  {
    StepAppends(s, step);
    AllEvolve(s, step);
    var s' := Apply(s, step);
    forall i | 0 <= i < |s'.calls| ensures !(s'.calls[i].origin.Listing? && Waiting(s'.calls[i])) {
      if i < |s.calls| {
        assert EvolvesAt(s, s', step, i);
      }
    }
  }

  /** Once the Manager is gone, no list call is made or waits anew, and no worker is started. */
  lemma NoNeedComesBack(s: State, step: Step)
    requires Inv(s) && CanStep(s, step) && MANAGER !in s.proxies && !s.bus.stop.NotCalled? && !ManagerNeeded(s)
    ensures MANAGER !in Apply(s, step).proxies && !Apply(s, step).bus.stop.NotCalled?
    ensures !ManagerNeeded(Apply(s, step))
    ensures !step.Dangle? && step != Agent(UseFreedManager)
  {
    StepSound(s, step);
    StaysGone(s, step);
    StepBus(s, step);
    StaysCalled(s.bus, Apply(s, step).bus, step);
    WorkersStep(s, step);
    NoListComesBack(s, step);
  }

  lemma StaysGone(s: State, step: Step)
    requires CanStep(s, step) && Sound(s, step) && MANAGER !in s.proxies && !s.bus.stop.NotCalled?
    ensures MANAGER !in Apply(s, step).proxies
  {
  }

  /** `stop` is not un-called. */
  lemma StaysCalled(b: Bus, b': Bus, step: Step)
    requires BusMoves(b, b', step) && !b.stop.NotCalled?
    ensures !b'.stop.NotCalled?
  {
  }

  /** Workers come only from a dispatch on the loop, and post only after their handler returned. */
  lemma WorkersStep(s: State, step: Step)
    requires CanStep(s, step)
    ensures Apply(s, step).workers == if step.Agent? then Worked(s, step.worker).workers else s.workers
  {
  }

  lemma {:induction false} NeverFreed(s: State, steps: seq<Step>)
    requires Inv(s) && Feasible(s, steps) && s.halted != Some(ManagerFreed)
    requires MANAGER !in s.proxies && !s.bus.stop.NotCalled? && !ManagerNeeded(s)
    ensures Run(s, steps).halted != Some(ManagerFreed)
    decreases |steps|
  {
    if steps != [] {
      StepInv(s, steps[0]);
      StepHalt(s, steps[0]);
      NoNeedComesBack(s, steps[0]);
      NeverFreed(Apply(s, steps[0]), steps[1..]);
    }
  }

  lemma OneStep(s: State, steps: seq<Step>)
    requires |steps| == 1 && CanStep(s, steps[0])
    ensures Feasible(s, steps) && Run(s, steps) == Apply(s, steps[0])
  {
    assert steps[1..] == [];
  }

  lemma TwoSteps(s: State, a: Step, b: Step)
    requires CanStep(s, a) && CanStep(Apply(s, a), b)
    ensures Feasible(s, [a, b]) && Run(s, [a, b]) == Apply(Apply(s, a), b)
  {
    var steps := [a, b];
    assert steps[1..] == [b];
    OneStep(Apply(s, a), steps[1..]);
  }

  lemma DrainDangles(s: State) returns (more: seq<Step>)
    requires CallsOk(s) && LoopOk(s) && !s.crashed && s.halted.None? && MANAGER !in s.proxies && ListWaiting(s)
    requires s.bus.thread.Gone? && s.bus.stop.Returned?
    ensures Feasible(s, more) && Run(s, more).halted == Some(ManagerFreed)
  {
    var id := SomeDangle(s);
    TwoSteps(s, BusStep(BeginDrain), Dangle(id));
    more := [BusStep(BeginDrain), Dangle(id)];
  }

  lemma WorkerDangles(s: State) returns (more: seq<Step>)
    requires !s.crashed && s.halted.None? && MANAGER !in s.proxies && s.workers.asking > 0
    ensures Feasible(s, more) && Run(s, more).halted == Some(ManagerFreed)
  {
    more := [Agent(UseFreedManager)];
    OneStep(s, more);
  }

  /** Connman's destructor, after `stop` and the release of the Manager: some continuation uses the freed
      Manager if and only if a list call is still waiting or a worker's handler still running. */
  lemma FreedExactlyWhen(steps: seq<Step>)
    requires Feasible(INIT, steps) && Run(INIT, steps).halted.None? && MANAGER !in Run(INIT, steps).proxies
    requires Run(INIT, steps).bus.thread.Gone? && Run(INIT, steps).bus.stop.Returned?
    ensures var s := Run(INIT, steps);
      (exists more :: Feasible(s, more) && Run(s, more).halted == Some(ManagerFreed)) <==> ManagerNeeded(s)
  {
    var s := Run(INIT, steps);
    Reachable(steps);
    if s.workers.asking > 0 {
      var more := WorkerDangles(s);
    } else if ListWaiting(s) {
      var more := DrainDangles(s);
    } else {
      forall more | Feasible(s, more) ensures Run(s, more).halted != Some(ManagerFreed) {
        NeverFreed(s, more);
      }
    }
  }

  ghost predicate NoneDangles(steps: seq<Step>) {
    forall i :: 0 <= i < |steps| ==> !steps[i].Dangle?
  }

  lemma NoneDanglesSplit(steps: seq<Step>)
    requires steps != [] && !steps[0].Dangle? && NoneDangles(steps[1..])
    ensures NoneDangles(steps)
  {
    assert forall i :: 0 < i < |steps| ==> steps[i] == steps[1..][i - 1];
  }

  lemma {:induction false} InOrderNoDangle(s: State, steps: seq<Step>)
    requires Inv(s) && StartupInv(s) && Feasible(s, steps) && StartupRun(s, steps, true)
    requires |Run(s, steps).calls| < WRAP
    ensures NoneDangles(steps)
    decreases |steps|
  {
    if steps != [] {
      RunGrows(Apply(s, steps[0]), steps[1..]);
      StepInv(s, steps[0]);
      StartupStepInv(s, steps[0]);
      NoDangle(s, steps[0]);
      InOrderNoDangle(Apply(s, steps[0]), steps[1..]);
      NoneDanglesSplit(steps);
    }
  }

  lemma NoDangle(s: State, step: Step)
    requires Inv(s) && StartupInv(s) && CanStep(s, step)
    ensures !step.Dangle?
  {
    if AnyListing(s.calls) && MANAGER !in s.proxies {
      NoListWaits(s);
    }
  }

  lemma NoListWaits(s: State)
    requires CallsOk(s) && StartupInv(s) && s.bus.quit
    ensures !ListWaiting(s)
  {
  }

  /** With replies in call order no list call ever meets a freed Manager ... */
  lemma ListsNeverDangle(steps: seq<Step>)
    requires Feasible(INIT, steps) && StartupRun(INIT, steps, true)
    requires |Run(INIT, steps).calls| < WRAP
    ensures NoneDangles(steps)
  {
    InitInv();
    InOrderNoDangle(INIT, steps);
  }

  /** ... so that in the destructor only a worker whose handler still runs can use it. */
  lemma InOrderFreedExactlyWhen(steps: seq<Step>)
    requires Feasible(INIT, steps) && StartupRun(INIT, steps, true) && |Run(INIT, steps).calls| < WRAP
    requires Run(INIT, steps).halted.None? && MANAGER !in Run(INIT, steps).proxies
    requires Run(INIT, steps).bus.thread.Gone? && Run(INIT, steps).bus.stop.Returned?
    ensures var s := Run(INIT, steps);
      (exists more :: Feasible(s, more) && Run(s, more).halted == Some(ManagerFreed)) <==> s.workers.asking > 0
  {
    InitInv();
    StartupRunInv(INIT, steps);
    NoListWaits(Run(INIT, steps));
    FreedExactlyWhen(steps);
  }

  // ----- The freed context -----

  /** A worker has still to post, or to end a handler that can still end. */
  predicate ContextNeeded(s: State) {
    s.workers.posting > 0 || (s.workers.asking > 0 && MANAGER in s.proxies)
  }

  lemma NoPostComesBack(s: State, step: Step)
    requires Inv(s) && CanStep(s, step) && s.bus.thread.Destroyed? && !ContextNeeded(s)
    ensures Apply(s, step).bus.thread.Destroyed? && !ContextNeeded(Apply(s, step))
    ensures step != Agent(UseFreedContext)
  {
    StepSound(s, step);
    assert !s.bus.stop.NotCalled?;
    if MANAGER !in s.proxies {
      StaysGone(s, step);
    }
    WorkersStep(s, step);
    StepBus(s, step);
  }

  lemma {:induction false} NeverPosts(s: State, steps: seq<Step>)
    requires Inv(s) && Feasible(s, steps) && s.halted != Some(ContextFreed)
    requires s.bus.thread.Destroyed? && !ContextNeeded(s)
    ensures Run(s, steps).halted != Some(ContextFreed)
    decreases |steps|
  {
    if steps != [] {
      StepInv(s, steps[0]);
      StepHalt(s, steps[0]);
      NoPostComesBack(s, steps[0]);
      NeverPosts(Apply(s, steps[0]), steps[1..]);
    }
  }

  lemma WorkerPosts(s: State) returns (more: seq<Step>)
    requires !s.crashed && s.halted.None? && s.bus.thread.Destroyed? && ContextNeeded(s)
    ensures Feasible(s, more) && Run(s, more).halted == Some(ContextFreed)
  {
    if s.workers.posting > 0 {
      more := [Agent(UseFreedContext)];
      OneStep(s, more);
    } else {
      more := [Agent(HandlerReturns), Agent(UseFreedContext)];
      TwoSteps(s, Agent(HandlerReturns), Agent(UseFreedContext));
    }
  }

  /** After the destructor: some continuation posts to the freed context if and only if a worker has still
      to post, or its handler runs on a Manager that somebody else kept alive. */
  lemma ContextFreedExactlyWhen(steps: seq<Step>)
    requires Feasible(INIT, steps) && Run(INIT, steps).halted.None? && Run(INIT, steps).bus.thread.Destroyed?
    ensures var s := Run(INIT, steps);
      (exists more :: Feasible(s, more) && Run(s, more).halted == Some(ContextFreed)) <==> ContextNeeded(s)
  {
    var s := Run(INIT, steps);
    Reachable(steps);
    if ContextNeeded(s) {
      var more := WorkerPosts(s);
    } else {
      forall more | Feasible(s, more) ensures Run(s, more).halted != Some(ContextFreed) {
        NeverPosts(s, more);
      }
    }
  }

  // ----- The limit of the counter -----

  const LIST_CALL := Call(Listing, Queued, [], [], 0)
  const COUNTED_CALL := Call(Tracked(CLOCK_CALL, None), Prepared, [], [], 0)

  /** After construction, n counted calls started and none posted. */
  function Crowd(n: nat): State {
    Booted(n % WRAP, n + 1, [LIST_CALL, LIST_CALL] + seq(n, _ => COUNTED_CALL))
  }

  lemma {:induction false} CrowdReached(n: nat) returns (steps: seq<Step>)
    ensures Reaches(steps, Crowd(n))
  {
    if n == 0 {
      steps := BootRun();
      var s := Booted(0, 1, []);
      steps := Then(steps, s, StartList); s := PostList(s);
      steps := Then(steps, s, StartList); s := PostList(s);
      assert s == Crowd(0);
    } else {
      steps := CrowdReached(n - 1);
      steps := Then(steps, Crowd(n - 1), Start(CLOCK_CALL));
      OneMore(n - 1);
    }
  }

  lemma OneMore(n: nat)
    ensures Prepare(Crowd(n), CLOCK_CALL, Prepared) == Crowd(n + 1)
  {
    var s := Prepare(Crowd(n), CLOCK_CALL, Prepared);
    assert seq(n + 1, _ => COUNTED_CALL) == seq(n, _ => COUNTED_CALL) + [COUNTED_CALL];
    assert s.calls == Crowd(n + 1).calls;
    assert (n % WRAP + 1) % WRAP == (n + 1) % WRAP;
  }

  lemma {:induction false} CrowdOutstanding(n: nat)
    ensures Outstanding(Crowd(n)) == n
  {
    if n == 0 {
      TallyZero(Crowd(0).calls, OneIfUnfinished);
    } else {
      CrowdOutstanding(n - 1);
      OneMore(n - 1);
      TallyAppend(Crowd(n - 1).calls, COUNTED_CALL, OneIfUnfinished);
    }
  }

  /** Any number of counted calls can be outstanding. */
  lemma AnyNumberOutstanding(n: nat) returns (steps: seq<Step>)
    ensures Feasible(INIT, steps) && Outstanding(Run(INIT, steps)) == n
    ensures Run(INIT, steps).bus.pending == n % WRAP
  {
    steps := CrowdReached(n);
    CrowdOutstanding(n);
  }

  /** With 2^32 calls outstanding the counter reads zero, and `stop` quits under all of them. */
  lemma FullCircle() returns (steps: seq<Step>)
    ensures Feasible(INIT, steps)
    ensures var s := Run(INIT, steps);
      s.bus.quit && Outstanding(s) == WRAP && forall i :: 2 <= i < |s.calls| ==> Unfinished(s.calls[i])
  {
    steps := CrowdReached(WRAP);
    CrowdOutstanding(WRAP);
    var s := Crowd(WRAP);
    var cleared := s.(bus := Act(s.bus, StopClear));
    steps := Then(steps, s, BusStep(StopClear));
    steps := Then(steps, cleared, BusStep(StopLook));
    var looked := cleared.(bus := Act(cleared.bus, StopLook));
    steps := Then(steps, looked, BusStep(StopCount));
    var decided := looked.(bus := Act(looked.bus, StopCount));
    steps := Then(steps, decided, BusStep(StopQuit));
  }
}
