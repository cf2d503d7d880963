/** When the loop is told to quit too early, exactly: by a `stop` under which a call is started between
    its test and its quit, and by any `stop` while an initial list is still waited for. */
module Quits {
  import opened Bus
  import opened Calls
  import opened CallsInvariant
  import opened Drain
  import opened Startup

  // ----- Between the test and the quit of `stop` -----

  /** How many counted calls a run starts, and how many it completes. */
  ghost function Starts(steps: seq<Step>): nat {
    if steps == [] then 0 else (if steps[0].Start? || steps[0].Child? then 1 else 0) + Starts(steps[1..])
  }

  ghost function Dones(steps: seq<Step>): nat {
    if steps == [] then 0 else (if steps[0].Done? then 1 else 0) + Dones(steps[1..])
  }

  lemma StartedOne(s: State, step: Step)
    requires CanStep(s, step) && Sound(s, step) && (step.Start? || step.Child?)
    ensures Outstanding(Apply(s, step)) == Outstanding(s) + 1
  {
    if step.Start? {
      TallyAppend(s.calls, Prepare(s, step.work, Prepared).calls[|s.calls|], OneIfUnfinished);
    } else {
      var id := s.loop.value;
      var todo := s.calls[id].phase.todo;
      var mid := SetPhase(s, id, Calling(todo[1..]));
      SameUnfinished(s.calls, id, mid.calls[id]);
      TallyAppend(mid.calls, Prepare(mid, todo[0], InFlight).calls[|mid.calls|], OneIfUnfinished);
    }
  }

  lemma CarriedSame(s: State, step: Step)
    requires CallsOk(s) && CanStep(s, step) && Sound(s, step)
    requires step.Post? || step.Dispatch? || step.Reply? || step.ListReply? || step.Return? || step.Release?
    ensures Outstanding(Apply(s, step)) == Outstanding(s)
  {
    var id := if step.Return? || step.Release? then s.loop.value else step.id;
    assert CallOk(s.calls[id]);
    SameUnfinished(s.calls, id, Apply(s, step).calls[id]);
  }

  /** Conservation, step by step. */
  lemma OutstandingStep(s: State, step: Step)
    requires CallsOk(s) && CanStep(s, step) && Sound(s, step)
    ensures Outstanding(Apply(s, step)) == Outstanding(s) + Starts([step]) - Dones([step])
  {
    assert [step][1..] == [];
    if OnHandles(step) || Aside(step) {
      SameCalls(s, step);
    } else if step.Start? || step.Child? {
      StartedOne(s, step);
    } else if step.Done? {
      SettledOutstanding(s, s.loop.value);
    } else if step.StartList? {
      TallyAppend(s.calls, Call(Listing, Queued, [], [], 0), OneIfUnfinished);
    } else {
      CarriedSame(s, step);
    }
  }

  ghost predicate NoStopQuit(steps: seq<Step>) {
    forall i :: 0 <= i < |steps| ==> steps[i] != BusStep(StopQuit)
  }

  lemma StaysDecided(b: Bus, b': Bus, step: Step)
    requires BusMoves(b, b', step) && b.stop.Decided? && step != BusStep(StopQuit)
    ensures b'.stop.Decided? && (b.quit ==> b'.quit)
  {
  }

  /** With `stop` decided, the completion that brings the number of calls to zero quits itself. */
  lemma LastDoneQuits(s: State, step: Step)
    requires Inv(s) && CanStep(s, step) && Sound(s, step) && s.bus.stop.Decided?
    requires Outstanding(s) == 1 && step.Done?
    ensures Apply(s, step).bus.quit
  {
    StepBus(s, step);
    SettledQuit(s.bus);
  }

  /** The calls among the first n that are unfinished after a step were so before. */
  lemma OldOnesFinished(s: State, step: Step, n: nat)
    requires CanStep(s, step) && Sound(s, step) && n <= |s.calls|
    requires forall i :: 0 <= i < n ==> !Unfinished(s.calls[i])
    ensures n <= |Apply(s, step).calls| && forall i :: 0 <= i < n ==> !Unfinished(Apply(s, step).calls[i])
  {
    StepAppends(s, step);
    if OnHandles(step) || Aside(step) {
      SameCalls(s, step);
    }
  }

  /** One step of a decided `stop`, for the first n calls. */
  ghost predicate DecidedMoves(s: State, s': State, step: Step, n: nat)
    requires n <= |s.calls|
  {
    && s'.bus.stop.Decided? && (s.bus.quit ==> s'.bus.quit)
    && Outstanding(s') == Outstanding(s) + Starts([step]) - Dones([step])
    && n <= |s'.calls|
    && (OldFinished(s, n) ==> OldFinished(s', n))
    && (!s'.bus.quit && (Outstanding(s) > 0 || Starts([step]) > 0) ==> Outstanding(s') > 0)
  }

  ghost predicate OldFinished(s: State, n: nat)
    requires n <= |s.calls|
  {
    forall i :: 0 <= i < n ==> !Unfinished(s.calls[i])
  }

  lemma DecidedStep(s: State, step: Step, n: nat)
    requires Inv(s) && CanStep(s, step) && s.bus.stop.Decided? && step != BusStep(StopQuit) && n <= |s.calls|
    ensures Inv(Apply(s, step)) && DecidedMoves(s, Apply(s, step), step, n)
  {
    StepInv(s, step);
    StepSound(s, step);
    StepBus(s, step);
    StaysDecided(s.bus, Apply(s, step).bus, step);
    OutstandingStep(s, step);
    assert [step][1..] == [];
    StepAppends(s, step);
    if OldFinished(s, n) {
      OldOnesFinished(s, step, n);
    }
    if Outstanding(s) == 1 && step.Done? {
      LastDoneQuits(s, step);
    }
  }

  lemma CountsFirst(mid: seq<Step>)
    requires mid != []
    ensures Starts(mid) == Starts([mid[0]]) + Starts(mid[1..]) && Dones(mid) == Dones([mid[0]]) + Dones(mid[1..])
  {
    assert [mid[0]][1..] == [];
  }

  /** The account of what happens while `stop` has decided and not yet quit. */
  lemma {:induction false} DecidedRun(s: State, mid: seq<Step>, n: nat)
    requires Inv(s) && s.bus.stop.Decided? && Feasible(s, mid) && NoStopQuit(mid) && n <= |s.calls|
    ensures Run(s, mid).bus.stop.Decided? && (s.bus.quit ==> Run(s, mid).bus.quit)
    ensures Outstanding(Run(s, mid)) == Outstanding(s) + Starts(mid) - Dones(mid)
    ensures n <= |Run(s, mid).calls| && (OldFinished(s, n) ==> OldFinished(Run(s, mid), n))
    ensures !Run(s, mid).bus.quit && (Outstanding(s) > 0 || Starts(mid) > 0) ==> Outstanding(Run(s, mid)) > 0
    decreases |mid|
  {
    if mid != [] {
      assert mid[0] != BusStep(StopQuit);
      assert forall i :: 0 <= i < |mid| - 1 ==> mid[1..][i] == mid[i + 1];
      DecidedStep(s, mid[0], n);
      CountsFirst(mid);
      DecidedRun(Apply(s, mid[0]), mid[1..], n);
    }
  }

  /** The quit of `stop`, exactly: what it leaves outstanding are the calls started since its test read
      zero and not completed by then (modulo 2^32 counting those of the test itself). Below that width
      it is early if and only if a call was started in between, and only such calls are cut off. */
  lemma QuitByStopExactly(before: seq<Step>, mid: seq<Step>)
    requires Feasible(INIT, before) && CanStep(Run(INIT, before), BusStep(StopCount))
    requires Decision(Run(INIT, before)).bus.stop.Decided? && Feasible(Decision(Run(INIT, before)), mid)
    requires NoStopQuit(mid) && !Run(Decision(Run(INIT, before)), mid).bus.quit
    ensures QuitAccount(Run(INIT, before), mid, Run(Decision(Run(INIT, before)), mid))
  {
    Reachable(before);
    DecisionAccount(Run(INIT, before), mid);
  }

  /** The state after `stop` has read the counter. */
  function Decision(s: State): State
    requires s.bus.stop.Looked?
  {
    s.(bus := Act(s.bus, StopCount))
  }

  /** What is outstanding when `stop` quits, s0 being the state of its test and mid the steps since. */
  ghost predicate QuitAccount(s0: State, mid: seq<Step>, s2: State) {
    && s2.bus.stop.Decided?
    && Outstanding(s0) % WRAP == 0
    && Outstanding(s2) == Outstanding(s0) + Starts(mid) - Dones(mid)
    && (|s0.calls| < WRAP ==>
          && (Outstanding(s2) > 0 <==> Starts(mid) > 0)
          && |s0.calls| <= |s2.calls| && OldFinished(s2, |s0.calls|))
  }

  lemma DecisionAccount(s0: State, mid: seq<Step>)
    requires Inv(s0) && CanStep(s0, BusStep(StopCount)) && Decision(s0).bus.stop.Decided?
    requires Feasible(Decision(s0), mid) && NoStopQuit(mid) && !Run(Decision(s0), mid).bus.quit
    ensures QuitAccount(s0, mid, Run(Decision(s0), mid))
  {
    assert Apply(s0, BusStep(StopCount)) == Decision(s0);
    StepInv(s0, BusStep(StopCount));
    DecidedRun(Decision(s0), mid, |s0.calls|);
    assert Outstanding(Decision(s0)) == Outstanding(s0);
    if |s0.calls| < WRAP {
      NothingAtTest(s0);
    }
  }

  /** Below the counter's width, a zero counter means that nothing is unfinished. */
  lemma NothingAtTest(s: State)
    requires Inv(s) && s.bus.pending == 0 && |s.calls| < WRAP
    ensures Outstanding(s) == 0 && OldFinished(s, |s.calls|)
  {
    OutstandingWithinLength(s.calls);
    NothingOutstanding(s);
  }

  /** One such run: a call started between the test of `stop` and its quit is left unfinished. */
  lemma EarlyQuitReached() returns (steps: seq<Step>, s: State)
    ensures Feasible(INIT, steps) && StartupRun(INIT, steps, false) && s == Run(INIT, steps)
    ensures s.bus.quit && s.bus.pending == 1 && |s.calls| == 4 && Unfinished(s.calls[3])
  {
    steps, s := DecidedReached();
    steps := Then(steps, s, Start(CLOCK_CALL)); s := Prepare(s, CLOCK_CALL, Prepared);
    steps := Then(steps, s, BusStep(StopQuit)); s := s.(bus := Act(s.bus, StopQuit));
  }

  lemma DecidedReached() returns (steps: seq<Step>, s: State)
    ensures Reaches(steps, s) && s == ClockDone().(bus := UP.(running := false, stop := Decided))
  {
    steps := ClockAnsweredFirst();
    s := ClockDone();
    steps := Then(steps, s, BusStep(StopClear)); s := s.(bus := Act(s.bus, StopClear));
    steps := Then(steps, s, BusStep(StopLook)); s := s.(bus := Act(s.bus, StopLook));
    steps := Then(steps, s, BusStep(StopCount)); s := s.(bus := Act(s.bus, StopCount));
  }

  // ----- Initial lists cut off -----

  lemma Prepend(s: State, a: Step, rest: seq<Step>)
    requires CanStep(s, a) && ConstructorOrder(s, a)
    requires Feasible(Apply(s, a), rest) && StartupRun(Apply(s, a), rest, false)
    ensures Feasible(s, [a] + rest) && StartupRun(s, [a] + rest, false)
    ensures Run(s, [a] + rest) == Run(Apply(s, a), rest)
  {
    assert ([a] + rest)[1..] == rest;
  }

  function StopActsLeft(stop: StopPc): nat {
    match stop
    case NotCalled => 4
    case Cleared => 3
    case Looked => 2
    case Decided => 1
    case Checked => 0
    case Returned => 0
  }

  /** With nothing outstanding, `stop` goes through to its quit. */
  lemma {:induction false} FinishStop(s: State) returns (more: seq<Step>)
    requires Inv(s) && s.halted.None? && s.bus.ready && |s.calls| > 2 && Outstanding(s) == 0 && !s.bus.quit
    ensures Feasible(s, more) && StartupRun(s, more, false)
    ensures Run(s, more).bus.quit && Run(s, more).calls == s.calls
    decreases StopActsLeft(s.bus.stop)
  {
    assert s.bus.thread.InLoop? && !s.bus.stop.Checked? && !s.bus.stop.Returned?;
    var act := match s.bus.stop case NotCalled => StopClear case Cleared => StopLook case Looked => StopCount
                                case _ => StopQuit;
    var s' := s.(bus := Act(s.bus, act));
    assert CanStep(s, BusStep(act)) && Apply(s, BusStep(act)) == s';
    more := [];
    if act != StopQuit {
      StepInv(s, BusStep(act));
      more := FinishStop(s');
    }
    Prepend(s, BusStep(act), more);
    more := [BusStep(act)] + more;
  }

  /** A list call that waits goes on waiting while the counted calls are carried to their end and the
      loop is told to quit. */
  lemma {:induction false} QuitUnderList(s: State, j: nat) returns (more: seq<Step>)
    requires Inv(s) && s.halted.None? && s.bus.ready && |s.calls| > 2
    requires j < 2 && s.calls[j].origin.Listing? && Waiting(s.calls[j])
    ensures Feasible(s, more) && StartupRun(s, more, false) && CutsOff(Run(s, more))
    decreases Measure(s)
  {
    more := [];
    if !s.bus.quit {
      if Outstanding(s) == 0 {
        more := FinishUnderList(s, j);
      } else {
        var i, step := SomeCountedStep(s);
        CarriedOn(s, step, i, j);
        more := QuitUnderList(Apply(s, step), j);
        Prepend(s, step, more);
        more := [step] + more;
      }
    }
  }

  lemma FinishUnderList(s: State, j: nat) returns (more: seq<Step>)
    requires Inv(s) && s.halted.None? && s.bus.ready && |s.calls| > 2 && Outstanding(s) == 0 && !s.bus.quit
    requires j < 2 && Waiting(s.calls[j])
    ensures Feasible(s, more) && StartupRun(s, more, false) && CutsOff(Run(s, more))
  {
    more := FinishStop(s);
    CutsOffAt(Run(s, more), j);
  }

  lemma CutsOffAt(s: State, j: nat)
    requires s.bus.quit && |s.calls| > 2 && j < 2 && Waiting(s.calls[j])
    ensures CutsOff(s)
  {
  }

  /** A step that carries some counted call on. */
  lemma SomeCountedStep(s: State) returns (i: nat, step: Step)
    requires Inv(s) && s.halted.None? && s.bus.ready && !s.bus.quit && Outstanding(s) > 0
    ensures i < |s.calls| && s.calls[i].origin.Tracked? && CanStep(s, step) && Progresses(step) && !step.ListReply?
    ensures step.Post? || step.Dispatch? || step.Reply? ==> step.id == i
  {
    TallyZero(s.calls, OneIfUnfinished);
    i :| 0 <= i < |s.calls| && OneIfUnfinished(s.calls[i]) != 0;
    step := NextStep(s, i);
  }

  /** One step of that, for counted call i and waiting list call j. */
  lemma CarriedOn(s: State, step: Step, i: nat, j: nat)
    requires Inv(s) && CanStep(s, step) && Progresses(step) && s.bus.ready && |s.calls| > 2
    requires i < |s.calls| && s.calls[i].origin.Tracked? && j < 2 && s.calls[j].origin.Listing? && Waiting(s.calls[j])
    requires !step.ListReply? && (step.Post? || step.Dispatch? || step.Reply? ==> step.id == i)
    ensures var s' := Apply(s, step);
      && Inv(s') && s'.halted.None? && s'.bus.ready && |s'.calls| > 2
      && s'.calls[j].origin.Listing? && Waiting(s'.calls[j]) && Measure(s') < Measure(s)
    ensures ConstructorOrder(s, step)
  {
    StepInv(s, step);
    StepSound(s, step);
    StepHalt(s, step);
    StepBus(s, step);
    StepWeight(s, step);
    StepEvolves(s, step, j);
    StepAppends(s, step);
  }

  /** The first two calls of a run in constructor order are the two list calls. */
  ghost predicate ListsFirst(s: State) {
    && (forall i :: 0 <= i < |s.calls| && i < 2 ==> s.calls[i].origin.Listing?)
    && (|s.calls| <= 2 ==> NoFutures(s))
  }

  lemma ListsFirstStep(s: State, step: Step)
    requires Inv(s) && CanStep(s, step) && ConstructorOrder(s, step) && ListsFirst(s)
    ensures ListsFirst(Apply(s, step))
  {
    StepSound(s, step);
    StepAppends(s, step);
    AllEvolve(s, step);
    if |s.calls| <= 2 {
      EarlyFutures(s, step);
    }
    AnsweredKind(s, step);
    var s' := Apply(s, step);
    forall i | 0 <= i < |s'.calls| && i < 2 ensures s'.calls[i].origin.Listing? {
      if i < |s.calls| { assert EvolvesAt(s, s', step, i); }
    }
  }

  lemma {:induction false} ListsFirstRun(s: State, steps: seq<Step>)
    requires Inv(s) && ListsFirst(s) && Feasible(s, steps) && StartupRun(s, steps, false)
    ensures ListsFirst(Run(s, steps))
    decreases |steps|
  {
    if steps != [] {
      StepInv(s, steps[0]);
      ListsFirstStep(s, steps[0]);
      ListsFirstRun(Apply(s, steps[0]), steps[1..]);
    }
  }

  /** No call ever waits again. */
  lemma {:induction false} NeverWaitsAgain(s: State, more: seq<Step>, j: nat)
    requires Inv(s) && Feasible(s, more) && j < |s.calls| && !Waiting(s.calls[j])
    ensures j < |Run(s, more).calls| && !Waiting(Run(s, more).calls[j])
    decreases |more|
  {
    if more != [] {
      StepInv(s, more[0]);
      StepSound(s, more[0]);
      StepEvolves(s, more[0], j);
      NeverWaitsAgain(Apply(s, more[0]), more[1..], j);
    }
  }

  ghost predicate ListWaits(s: State) {
    |s.calls| > 2 && (Waiting(s.calls[0]) || Waiting(s.calls[1]))
  }

  /** Some continuation quits the loop with an initial list still waited for. */
  ghost predicate CanCutOff(s: State) {
    exists more :: Feasible(s, more) && StartupRun(s, more, false) && CutsOff(Run(s, more))
  }

  ghost predicate CutsOff(s: State) {
    s.bus.quit && ListWaits(s)
  }

  lemma CutOffBy(s: State, more: seq<Step>)
    requires Feasible(s, more) && StartupRun(s, more, false) && CutsOff(Run(s, more))
    ensures CanCutOff(s)
  {
  }

  /** From any state after construction in which no quit has been requested, whatever is outstanding and
      wherever `stop` stands: some continuation quits with an initial list still waited for, if and only
      if one is waited for now. So nothing but the order of the replies protects the lists. */
  lemma StopCutsOffExactly(steps: seq<Step>)
    requires Feasible(INIT, steps) && StartupRun(INIT, steps, false)
    requires Run(INIT, steps).halted.None? && |Run(INIT, steps).calls| > 2 && !Run(INIT, steps).bus.quit
    ensures CanCutOff(Run(INIT, steps)) <==> ListWaits(Run(INIT, steps))
  {
    var s := Run(INIT, steps);
    InitInv();
    Reachable(steps);
    ListsFirstRun(INIT, steps);
    if ListWaits(s) {
      var more := QuitUnderList(s, if Waiting(s.calls[0]) then 0 else 1);
      CutOffBy(s, more);
    } else {
      forall more | Feasible(s, more) ensures !CutsOff(Run(s, more)) {
        NeverWaitsAgain(s, more, 0);
        NeverWaitsAgain(s, more, 1);
      }
    }
  }
}
