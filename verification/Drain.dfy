/** What holds of every run: conservation, no early and no lost quit, routing, lifetime, and the
    drain of any forest of nested calls. */
module Drain {
  import opened Wrappers
  import opened Bus
  import opened Works
  import opened Calls
  import opened CallsInvariant
  import opened History

  // ----- Every reachable state -----

  /** Counter conservation: modulo the width of `unsigned int`, hence exactly while fewer than
      2^32 calls are outstanding; the decrement never starts from zero calls. */
  lemma CounterConservation(steps: seq<Step>)
    requires Feasible(INIT, steps)
    ensures var s := Run(INIT, steps);
      && s.bus.pending == Outstanding(s) % WRAP
      && (Outstanding(s) < WRAP ==> s.bus.pending == Outstanding(s))
  {
    CountReached(steps);
  }

  lemma CountReached(steps: seq<Step>)
    requires Feasible(INIT, steps)
    ensures CountOk(Run(INIT, steps))
  {
    Reachable(steps);
  }

  /** Each decrement is on behalf of an outstanding call, so it never starts from zero calls. */
  lemma DecrementIsCovered(steps: seq<Step>)
    requires Feasible(INIT, steps) && CanStep(Run(INIT, steps), Done)
    ensures var s := Run(INIT, steps);
      Outstanding(s) > 0 && Outstanding(Settle(s, s.loop.value)) == Outstanding(s) - 1
  {
    var s := Run(INIT, steps);
    Reachable(steps);
    assert CallOk(s.calls[s.loop.value]);
    SettleCount(s, s.loop.value);
  }

  /** No lost quit: past the check of `stop`, with nothing outstanding, a quit has been requested,
      whatever was started at whatever time; once `stop` has returned too. */
  lemma NoLostQuit(steps: seq<Step>)
    requires Feasible(INIT, steps)
    ensures var s := Run(INIT, steps);
      && !(s.bus.stop.Checked? && !s.bus.quit && Outstanding(s) == 0)
      && (s.bus.stop.Returned? ==> s.bus.quit)
      && (s.bus.running ==> s.bus.thread.InLoop? && s.bus.loop == Some(true))
  {
    Reachable(steps);
  }

  /** No early quit by a completion: the quit that onAnyAsyncDone requests leaves a multiple of 2^32
      calls outstanding, so none at all below that width; then every counted call has completed. The
      only other step that requests a quit is that of `stop`, which has decided on it earlier. */
  lemma NoEarlyQuit(steps: seq<Step>, step: Step)
    requires Feasible(INIT, steps) && CanStep(Run(INIT, steps), step)
    requires !Run(INIT, steps).bus.quit && Apply(Run(INIT, steps), step).bus.quit
    ensures var s := Apply(Run(INIT, steps), step);
      if step.Done? then Outstanding(s) % WRAP == 0 && (Outstanding(s) < WRAP ==> AllFinished(s))
      else step == BusStep(StopQuit)
  {
    Reachable(steps);
    var s := Run(INIT, steps);
    StepInv(s, step);
    StepSound(s, step);
    StepBus(s, step);
    QuitBus(s.bus, Apply(s, step).bus, step);
    if step.Done? {
      CounterAtZero(Apply(s, step));
    }
  }

  /** `stop` decides to quit only when nothing is outstanding (modulo 2^32). */
  lemma NoEarlyDecision(steps: seq<Step>)
    requires Feasible(INIT, steps) && CanStep(Run(INIT, steps), BusStep(StopCount))
    ensures var s := Run(INIT, steps);
      Apply(s, BusStep(StopCount)).bus.stop.Decided? <==> Outstanding(s) % WRAP == 0
  {
    CountReached(steps);
  }

  /** Exactly once, with the right flag: every counted call that has been settled got one reply,
      one decrement, and one run of its own callback, with that reply's flag. */
  ghost predicate AllFinished(s: State) {
    forall i :: 0 <= i < |s.calls| && s.calls[i].origin.Tracked? ==> FinishedOnce(s.calls[i])
  }

  ghost predicate FinishedOnce(c: Call)
    requires c.origin.Tracked?
  {
    && (c.phase.Settled? || c.phase.Released?)
    && c.finished == 1
    && |c.results| == 1
    && c.runs == if c.origin.work.Notifying? then c.results else []
  }

  /** Result routing and exactly-once, for all runs: what a call records are exactly the flags of the
      replies that the run brought for it, at most one; its own callback, if it has one, has run exactly
      with those, whatever the order of replies; and a settled call has had exactly one. */
  lemma ResultRouting(steps: seq<Step>, i: nat)
    requires Feasible(INIT, steps) && i < |Run(INIT, steps).calls|
    ensures var c := Run(INIT, steps).calls[i];
      && |Replies(steps, i)| <= 1 && c.finished <= 1
      && c.results == Replies(steps, i)
      && (c.runs == if c.origin.Tracked? && c.origin.work.Notifying? then Replies(steps, i) else [])
      && (c.origin.Tracked? && (c.phase.Settled? || c.phase.Released?) ==> FinishedOnce(c) && |Replies(steps, i)| == 1)
  {
    InitInv();
    RunRecords(INIT, steps, i);
    assert [] + Replies(steps, i) == Replies(steps, i);
    CallReached(steps, i);
  }

  lemma CallReached(steps: seq<Step>, i: nat)
    requires Feasible(INIT, steps) && i < |Run(INIT, steps).calls|
    ensures CallOk(Run(INIT, steps).calls[i])
  {
    Reachable(steps);
  }

  /** Registry: the keys of a proxy are exactly the counters of its calls whose callback has not
      returned; distinct calls have distinct keys; no lookup has ever failed. */
  lemma RegistryKeys(steps: seq<Step>, p: nat)
    requires Feasible(INIT, steps) && p in Run(INIT, steps).proxies
    ensures var s := Run(INIT, steps);
      var r := s.proxies[p].registry;
      && !s.crashed
      && (forall k :: k in r.callbacks <==> exists i :: 0 <= i < |s.calls| && UsesKey(s.calls[i], p, k))
      && (forall i, j, k | 0 <= i < |s.calls| && 0 <= j < |s.calls| ::
            UsesKey(s.calls[i], p, k) && UsesKey(s.calls[j], p, k) ==> i == j)
      && (forall k :: k in r.callbacks ==> 1 <= k <= r.counter)
  {
    var s := Run(INIT, steps);
    Reachable(steps);
    forall k ensures k in s.proxies[p].registry.callbacks <==>
        exists i :: 0 <= i < |s.calls| && UsesKey(s.calls[i], p, k) {
      if k in s.proxies[p].registry.callbacks {
        assert EntryOk(s, p, k);
        assert UsesKey(s.calls[s.proxies[p].registry.callbacks[k].owner], p, k);
      }
      if i :| 0 <= i < |s.calls| && UsesKey(s.calls[i], p, k) {
        assert KeyOk(s, i);
      }
    }
    forall i, j, k | 0 <= i < |s.calls| && 0 <= j < |s.calls|
        && UsesKey(s.calls[i], p, k) && UsesKey(s.calls[j], p, k) ensures i == j {
      assert KeyOk(s, i) && KeyOk(s, j);
    }
    forall k | k in s.proxies[p].registry.callbacks ensures 1 <= k <= s.proxies[p].registry.counter {
      assert EntryOk(s, p, k);
    }
  }

  predicate UsesKey(c: Call, p: nat, k: nat) {
    Registered(c) && c.origin.work.proxy == p && c.origin.counter == Some(k)
  }

  /** Lifetime, by the history of the run: a proxy exists exactly while an entry of the list, a handle of
      user code or an unreleased counted call is left that refers to it, and its strong count is the
      number of those; so no completion of a counted call meets a dangling proxy. (List calls refer to
      the Manager without holding it: see Halts.) */
  lemma ProxyLifetime(steps: seq<Step>, p: nat)
    requires Feasible(INIT, steps)
    ensures var s := Run(INIT, steps);
      var listed, held := ListedBy(steps, p, 0), HeldBy(steps, p, 0);
      && (p in s.proxies <==> listed + held + RefsByCalls(s, p) > 0)
      && (p in s.proxies ==> s.proxies[p].refs == listed + held + RefsByCalls(s, p))
      && (p in s.proxies ==> s.proxies[p].listed == listed && s.proxies[p].held == held)
      && (forall i :: 0 <= i < |s.calls| && HoldsProxy(s.calls[i], p) ==> p in s.proxies)
  {
    InitInv();
    RunCounts(INIT, steps, p);
    Lifetime(steps, p);
  }

  lemma Lifetime(steps: seq<Step>, p: nat)
    requires Feasible(INIT, steps)
    ensures var s := Run(INIT, steps);
      && (p in s.proxies <==> Handles(s, p) + RefsByCalls(s, p) > 0)
      && (p in s.proxies ==> s.proxies[p].refs == Handles(s, p) + RefsByCalls(s, p))
      && (forall i :: 0 <= i < |s.calls| && HoldsProxy(s.calls[i], p) ==> p in s.proxies)
  {
    var s := Run(INIT, steps);
    Reachable(steps);
    if RefsByCalls(s, p) > 0 {
      TallyZero(s.calls, OneIfHolds(p));
    }
  }

  // ----- Conservation of the nodes of a forest -----

  /** A call's own node, once it is counted, and the nodes its callback has still to start. */
  function Share(c: Call): multiset<Work> {
    (if c.origin.Tracked? then multiset{c.origin.work} else multiset{}) + NodesAll(Future(c))
  }

  function Total(s: State): multiset<Work> {
    Gather(s.calls, Share)
  }

  function CompletedShare(c: Call): multiset<Work> {
    if c.origin.Tracked? && (c.phase.Settled? || c.phase.Released?) then multiset{c.origin.work} else multiset{}
  }

  function Completed(s: State): multiset<Work> {
    Gather(s.calls, CompletedShare)
  }

  /** The nodes a step brings in from outside: a user's call, or what a list callback starts. */
  function Injected(step: Step): multiset<Work> {
    match step
    case Start(w) => Nodes(w)
    case ListReply(_, _, body) => NodesAll(body)
    case _ => multiset{}
  }

  lemma PrepareTotal(s: State, w: Work, phase: Phase)
    requires w.proxy in s.proxies && (phase.Prepared? || phase.InFlight?)
    ensures Total(Prepare(s, w, phase)) == Total(s) + Nodes(w)
  {
    var c := Prepare(s, w, phase).calls[|s.calls|];
    GatherAppend(s.calls, c, Share);
    NodesOfWork(w);
    assert Share(c) == Nodes(w);
  }

  lemma Cancel(a: multiset<Work>, b: multiset<Work>, c: multiset<Work>)
    requires a + c == b + c
    ensures a == b
  {
    assert a == (a + c) - c;
    assert b == (b + c) - c;
  }

  lemma AdvanceTotal(s: State, id: nat)
    requires id < |s.calls| && s.calls[id].phase.Calling? && s.calls[id].phase.todo != []
    ensures var todo := s.calls[id].phase.todo;
      Total(SetPhase(s, id, Calling(todo[1..]))) + Nodes(todo[0]) == Total(s)
  {
    var todo := s.calls[id].phase.todo;
    var c := s.calls[id].(phase := Calling(todo[1..]));
    GatherUpdate(s.calls, id, c, Share);
    assert Share(s.calls[id]) == Share(c) + Nodes(todo[0]);
    Cancel(Gather(s.calls[id := c], Share) + Nodes(todo[0]), Total(s), Share(c));
  }

  lemma ChildTotal(s: State, id: nat)
    requires id < |s.calls| && s.calls[id].phase.Calling? && s.calls[id].phase.todo != []
    requires s.calls[id].phase.todo[0].proxy in s.proxies
    ensures Total(StartChild(s, id)) == Total(s)
  {
    var todo := s.calls[id].phase.todo;
    AdvanceTotal(s, id);
    PrepareTotal(SetPhase(s, id, Calling(todo[1..])), todo[0], InFlight);
  }

  /** A call moves on: its own node and its callback's remaining nodes stay the same. */
  lemma QuietTotal(s: State, s': State, id: nat)
    requires id < |s.calls| == |s'.calls| && s'.calls == s.calls[id := s'.calls[id]]
    requires s'.calls[id].origin == s.calls[id].origin && Future(s'.calls[id]) == Future(s.calls[id])
    ensures Total(s') == Total(s)
  {
    GatherUpdate(s.calls, id, s'.calls[id], Share);
    Cancel(Total(s'), Total(s), Share(s.calls[id]));
  }

  lemma ListTotal(s: State, id: nat, list: Option<seq<string>>, body: seq<Work>)
    requires id < |s.calls| && s.calls[id].origin.Listing? && Future(s.calls[id]) == []
    ensures Total(CompleteList(s, id, list, body)) == Total(s) + NodesAll(body)
  {
    var c := CompleteList(s, id, list, body).calls[id];
    GatherUpdate(s.calls, id, c, Share);
    assert Share(s.calls[id]) == multiset{} && Share(c) == NodesAll(body);
  }

  /** No step loses a node, runs one twice or invents one. */
  lemma StepTotal(s: State, step: Step)
    requires CanStep(s, step) && Sound(s, step)
    ensures Total(Apply(s, step)) == Total(s) + Injected(step)
  {
    if OnHandles(step) || Aside(step) {
      SameCalls(s, step);
    } else if step.Start? || step.StartList? || step.ListReply? {
      OutsideTotal(s, step);
    } else {
      CarriedTotal(s, step);
    }
  }

  lemma OutsideTotal(s: State, step: Step)
    requires CanStep(s, step) && Sound(s, step) && (step.Start? || step.StartList? || step.ListReply?)
    ensures Total(Apply(s, step)) == Total(s) + Injected(step)
  {
    match step
    case Start(w) => PrepareTotal(s, w, Prepared);
    case StartList => GatherAppend(s.calls, Call(Listing, Queued, [], [], 0), Share);
    case ListReply(id, list, body) => ListTotal(s, id, list, body);
  }

  /** The steps that carry a call along, other than by a list. */
  predicate Carries(step: Step) {
    step.Post? || step.Dispatch? || step.Reply? || step.Child? || step.Return? || step.Done? || step.Release?
  }

  lemma CarriedTotal(s: State, step: Step)
    requires CanStep(s, step) && Sound(s, step) && Carries(step)
    ensures Total(Apply(s, step)) == Total(s)
  {
    match step
    case Post(id) => QuietTotal(s, SetPhase(s, id, Queued), id);
    case Dispatch(id) => QuietTotal(s, SetPhase(s, id, InFlight), id);
    case Reply(id, ok) => QuietTotal(s, Complete(s, id, ok), id);
    case Child => ChildTotal(s, s.loop.value);
    case Return => EndTotal(s, step);
    case Done => EndTotal(s, step);
    case Release => EndTotal(s, step);
  }

  lemma EndTotal(s: State, step: Step)
    requires CanStep(s, step) && Sound(s, step) && (step.Return? || step.Done? || step.Release?)
    ensures Total(Apply(s, step)) == Total(s)
  {
    var id := s.loop.value;
    if step.Return? && s.calls[id].origin.Tracked? {
      QuietTotal(s, EraseKey(s, id), id);
    } else if step.Return? {
      QuietTotal(s, EndList(s, id), id);
    } else if step.Done? {
      QuietTotal(s, Settle(s, id), id);
    } else {
      QuietTotal(s, Forget(s, id), id);
    }
  }

  ghost function InjectedAll(steps: seq<Step>): multiset<Work> {
    if steps == [] then multiset{} else Injected(steps[0]) + InjectedAll(steps[1..])
  }

  lemma {:induction false} RunTotal(s: State, steps: seq<Step>)
    requires Inv(s) && Feasible(s, steps)
    ensures Total(Run(s, steps)) == Total(s) + InjectedAll(steps)
    decreases |steps|
  {
    if steps != [] {
      StepInv(s, steps[0]);
      StepSound(s, steps[0]);
      StepTotal(s, steps[0]);
      RunTotal(Apply(s, steps[0]), steps[1..]);
    }
  }

  // ----- The quit step, and finished states -----

  /** When the counter reads zero: a multiple of 2^32 calls outstanding, none below that width. */
  lemma CounterAtZero(s: State)
    requires Inv(s) && s.bus.pending == 0
    ensures Outstanding(s) % WRAP == 0
    ensures Outstanding(s) < WRAP ==> AllFinished(s) && NoneUnfinished(s)
  {
    if Outstanding(s) < WRAP {
      NothingOutstanding(s);
    }
  }

  /** Only onAnyAsyncDone and `stop` request a quit, the former with the counter at 0. */
  lemma QuitBus(b: Bus, b': Bus, step: Step)
    requires BusMoves(b, b', step) && !b.quit && b'.quit
    ensures (step.Done? && b'.pending == 0) || (step == BusStep(StopQuit) && b.stop.Decided?)
  {
  }

  /** `stop` decides on it with the counter at 0. */
  lemma DecidedBus(b: Bus, b': Bus, step: Step)
    requires BusMoves(b, b', step) && !b.stop.Decided? && b'.stop.Decided?
    ensures step == BusStep(StopCount) && b'.pending == 0
  {
  }

  ghost predicate NoneUnfinished(s: State) {
    forall i :: 0 <= i < |s.calls| ==> !Unfinished(s.calls[i])
  }

  lemma NothingOutstanding(s: State)
    requires Inv(s) && Outstanding(s) == 0
    ensures AllFinished(s) && NoneUnfinished(s)
  {
    TallyZero(s.calls, OneIfUnfinished);
    forall i | 0 <= i < |s.calls| ensures !Unfinished(s.calls[i]) {
      assert OneIfUnfinished(s.calls[i]) == 0;
    }
    forall i | 0 <= i < |s.calls| && s.calls[i].origin.Tracked? ensures FinishedOnce(s.calls[i]) {
      assert CallOk(s.calls[i]);
    }
  }

  // ----- The measure -----

  /** The steps that carry a call along; the others belong to users, handles and the bus. */
  predicate Progresses(step: Step) {
    step.Post? || step.Dispatch? || step.Reply? || step.ListReply?
    || step.Child? || step.Return? || step.Done? || step.Release?
  }

  function PhaseWeight(p: Phase): nat {
    match p
    case Prepared => 7
    case Queued => 6
    case InFlight => 5
    case Calling(_) => 4
    case Erased => 3
    case Settled => 2
    case Released => 0
  }

  /** What is left of a call: its own phases, and eight steps for each node still to start. */
  function Weight(c: Call): nat {
    PhaseWeight(c.phase) + 8 * |NodesAll(Future(c))|
  }

  function Measure(s: State): nat {
    Tally(s.calls, Weight)
  }

  function InjectedWeight(step: Step): nat {
    match step
    case Start(w) => 8 * |Nodes(w)|
    case StartList => 6
    case ListReply(_, _, body) => 8 * |NodesAll(body)|
    case _ => 0
  }

  lemma MovedWeight(s: State, s': State, id: nat, added: nat)
    requires id < |s.calls| == |s'.calls| && s'.calls == s.calls[id := s'.calls[id]]
    requires Weight(s'.calls[id]) < Weight(s.calls[id]) + added
    ensures Measure(s') < Measure(s) + added
  {
    TallyUpdate(s.calls, id, s'.calls[id], Weight);
  }

  lemma PrepareWeight(s: State, w: Work, phase: Phase)
    requires w.proxy in s.proxies && (phase.Prepared? || phase.InFlight?)
    ensures Measure(Prepare(s, w, phase)) < Measure(s) + 8 * |Nodes(w)|
  {
    NodesOfWork(w);
    assert |Nodes(w)| == 1 + |NodesAll(Body(w))|;
    TallyAppend(s.calls, Prepare(s, w, phase).calls[|s.calls|], Weight);
  }

  lemma ChildWeight(s: State, id: nat)
    requires id < |s.calls| && s.calls[id].phase.Calling? && s.calls[id].phase.todo != []
    requires s.calls[id].phase.todo[0].proxy in s.proxies
    ensures Measure(StartChild(s, id)) < Measure(s)
  {
    var todo := s.calls[id].phase.todo;
    var mid := SetPhase(s, id, Calling(todo[1..]));
    TallyUpdate(s.calls, id, mid.calls[id], Weight);
    assert NodesAll(todo) == Nodes(todo[0]) + NodesAll(todo[1..]);
    assert Measure(mid) + 8 * |Nodes(todo[0])| == Measure(s);
    PrepareWeight(mid, todo[0], InFlight);
  }

  /** Every progress step uses up weight; nothing but injected work adds any. */
  lemma StepWeight(s: State, step: Step)
    requires CanStep(s, step) && Sound(s, step)
    ensures Measure(Apply(s, step)) + (if Progresses(step) then 1 else 0) <= Measure(s) + InjectedWeight(step)
  {
    if OnHandles(step) || Aside(step) {
      SameCalls(s, step);
    } else if step.Start? || step.StartList? || step.ListReply? {
      OutsideWeight(s, step);
    } else {
      ProgressWeight(s, step);
    }
  }

  lemma OutsideWeight(s: State, step: Step)
    requires CanStep(s, step) && Sound(s, step) && (step.Start? || step.StartList? || step.ListReply?)
    ensures Measure(Apply(s, step)) + (if Progresses(step) then 1 else 0) <= Measure(s) + InjectedWeight(step)
  {
    match step
    case Start(w) => PrepareWeight(s, w, Prepared);
    case StartList => TallyAppend(s.calls, Call(Listing, Queued, [], [], 0), Weight);
    case ListReply(id, list, body) =>
      MovedWeight(s, CompleteList(s, id, list, body), id, 8 * |NodesAll(body)|);
  }

  lemma ProgressWeight(s: State, step: Step)
    requires CanStep(s, step) && Sound(s, step) && Carries(step)
    ensures Measure(Apply(s, step)) < Measure(s)
  {
    match step
    case Post(id) => MovedWeight(s, SetPhase(s, id, Queued), id, 0);
    case Dispatch(id) => MovedWeight(s, SetPhase(s, id, InFlight), id, 0);
    case Reply(id, ok) => MovedWeight(s, Complete(s, id, ok), id, 0);
    case Child => ChildWeight(s, s.loop.value);
    case Return => EndWeight(s, step);
    case Done => EndWeight(s, step);
    case Release => EndWeight(s, step);
  }

  lemma EndWeight(s: State, step: Step)
    requires CanStep(s, step) && Sound(s, step) && (step.Return? || step.Done? || step.Release?)
    ensures Measure(Apply(s, step)) < Measure(s)
  {
    var id := s.loop.value;
    if step.Return? && s.calls[id].origin.Tracked? {
      MovedWeight(s, EraseKey(s, id), id, 0);
    } else if step.Return? {
      MovedWeight(s, EndList(s, id), id, 0);
    } else if step.Done? {
      MovedWeight(s, Settle(s, id), id, 0);
    } else {
      MovedWeight(s, Forget(s, id), id, 0);
    }
  }

  ghost function ProgressCount(steps: seq<Step>): nat {
    if steps == [] then 0 else (if Progresses(steps[0]) then 1 else 0) + ProgressCount(steps[1..])
  }

  ghost function InjectedWeightAll(steps: seq<Step>): nat {
    if steps == [] then 0 else InjectedWeight(steps[0]) + InjectedWeightAll(steps[1..])
  }

  /** Termination: in any run, the progress steps are bounded by the work there was and the work
      that came in. */
  lemma {:induction false} RunWeight(s: State, steps: seq<Step>)
    requires Inv(s) && Feasible(s, steps)
    ensures ProgressCount(steps) + Measure(Run(s, steps)) <= Measure(s) + InjectedWeightAll(steps)
    decreases |steps|
  {
    if steps != [] {
      StepInv(s, steps[0]);
      StepSound(s, steps[0]);
      StepWeight(s, steps[0]);
      RunWeight(Apply(s, steps[0]), steps[1..]);
    }
  }

  // ----- Progress -----

  /** No call can be carried further. */
  ghost predicate Stuck(s: State) {
    forall step: Step :: Progresses(step) ==> !CanStep(s, step)
  }

  /** While a completion is executing, the loop thread can go on with it. */
  lemma BusyStep(s: State) returns (step: Step)
    requires !s.crashed && s.halted.None? && CallsOk(s) && LoopOk(s) && s.loop.Some?
    ensures Progresses(step) && CanStep(s, step)
    ensures step.Child? || step.Return? || step.Done? || step.Release?
  {
    var c := s.calls[s.loop.value];
    assert CallOk(c) && Busy(c);
    match c.phase
    case Calling(todo) => step := if todo == [] then Return else Child;
    case Erased => step := Done;
    case Settled => step := Release;
  }

  /** While the loop iterates, a call that is not released can be carried further: no call waits
      for anything but its reply. A list call needs the Manager too. */
  lemma NextStep(s: State, i: nat) returns (step: Step)
    requires !s.crashed && s.halted.None? && CallsOk(s) && LoopOk(s) && Executing(s.bus)
    requires i < |s.calls| && !s.calls[i].phase.Released?
    requires s.calls[i].origin.Listing? ==> MANAGER in s.proxies
    ensures Progresses(step) && CanStep(s, step)
    ensures step.Post? || step.Dispatch? || step.Reply? || step.ListReply? ==> step.id == i
    ensures step.ListReply? ==> s.calls[i].origin.Listing?
  {
    if s.loop.Some? {
      step := BusyStep(s);
    } else {
      var c := s.calls[i];
      assert CallOk(c) && !Busy(c);
      match c.phase
      case Prepared => step := Post(i);
      case Queued => step := Dispatch(i);
      case InFlight => step := if c.origin.Tracked? then Reply(i, true) else ListReply(i, Some([]), []);
    }
  }

  /** `stop` returns: past its check there is always a step of the loop thread left, up to the
      join; with RunWeight, only finitely many of them. */
  lemma StopCannotHang(s: State) returns (step: Step)
    requires Inv(s) && s.halted.None? && s.bus.stop.Checked?
    ensures CanStep(s, step)
    ensures Progresses(step) || step in [BusStep(BusAct.LoopReturns), BusStep(BusAct.FreeLoop), BusStep(JoinReturns)]
  {
    if s.bus.thread.Gone? {
      step := BusStep(JoinReturns);
    } else if s.bus.thread.LoopLeft? {
      step := BusStep(BusAct.FreeLoop);
    } else if i :| 0 <= i < |s.calls| && !s.calls[i].phase.Released? {
      step := NextStep(s, i);
    } else {
      TallyZero(s.calls, OneIfUnfinished);
      step := BusStep(BusAct.LoopReturns);
    }
  }

  // ----- The drain theorem -----

  /** Nothing new from outside: no user calls, and list callbacks that start none. Replies in any
      order with any result, handles, `stop` and the loop's own end are all free. */
  ghost predicate Closed(steps: seq<Step>) {
    forall i :: 0 <= i < |steps| ==> Injected(steps[i]) == multiset{}
  }

  ghost predicate ListsIdle(s: State) {
    forall i :: 0 <= i < |s.calls| && s.calls[i].origin.Listing? ==> Future(s.calls[i]) == []
  }

  /** Every call of the forest has been started and has completed. */
  ghost predicate Drained(s: State) {
    && (forall i :: 0 <= i < |s.calls| ==> Future(s.calls[i]) == [])
    && AllFinished(s)
  }

  lemma {:induction false} GatherSame(cs: seq<Call>, g: Call -> multiset<Work>, h: Call -> multiset<Work>)
    requires forall i :: 0 <= i < |cs| ==> g(cs[i]) == h(cs[i])
    ensures Gather(cs, g) == Gather(cs, h)
  {
    if cs != [] {
      var n := |cs| - 1;
      forall i | 0 <= i < n ensures g(cs[..n][i]) == h(cs[..n][i]) { assert cs[..n][i] == cs[i]; }
      GatherSame(cs[..n], g, h);
    }
  }

  /** In a drained state the completed calls are, node for node, the whole forest. */
  lemma DrainedCompletesAll(s: State)
    requires Drained(s)
    ensures Completed(s) == Total(s)
  {
    forall i | 0 <= i < |s.calls| ensures Share(s.calls[i]) == CompletedShare(s.calls[i]) {
      if s.calls[i].origin.Tracked? { assert FinishedOnce(s.calls[i]); }
    }
    GatherSame(s.calls, Share, CompletedShare);
  }

  lemma {:induction false} OutstandingWithinTotal(cs: seq<Call>)
    ensures Tally(cs, OneIfUnfinished) <= |Gather(cs, Share)|
  {
    if cs != [] {
      OutstandingWithinTotal(cs[..|cs| - 1]);
    }
  }

  /** The step changes at most call id, keeping its origin, and gives it no new work to start. */
  ghost predicate Touches(s: State, s': State, id: nat)
    requires id < |s.calls|
  {
    && |s'.calls| == |s.calls| && s'.calls == s.calls[id := s'.calls[id]]
    && s'.calls[id].origin == s.calls[id].origin
    && (Future(s'.calls[id]) == [] || Future(s'.calls[id]) == Future(s.calls[id]))
    && (Unfinished(s'.calls[id]) ==> Unfinished(s.calls[id]))
  }

  /** Without injected work a step touches one call, or starts a child, or adds an idle list call. */
  lemma ClosedStep(s: State, step: Step)
    requires CanStep(s, step) && Sound(s, step) && Injected(step) == multiset{}
    ensures step.Child? || step.StartList? || Apply(s, step).calls == s.calls
         || exists id: nat :: id < |s.calls| && Touches(s, Apply(s, step), id)
  {
    if OnHandles(step) || Aside(step) {
      SameCalls(s, step);
    } else {
      CarriedTouches(s, step);
    }
  }

  lemma CarriedTouches(s: State, step: Step)
    requires CanStep(s, step) && Sound(s, step) && Injected(step) == multiset{}
    requires !OnHandles(step) && !Aside(step)
    ensures step.Child? || step.StartList? || exists id: nat :: id < |s.calls| && Touches(s, Apply(s, step), id)
  {
    match step
    case Start(w) => NodesOfWork(w);
    case Post(id) => assert Touches(s, Apply(s, step), id);
    case Dispatch(id) => assert Touches(s, Apply(s, step), id);
    case Reply(id, ok) => assert Touches(s, Apply(s, step), id);
    case ListReply(id, list, body) =>
      NodesCount(body);
      assert Touches(s, Apply(s, step), id);
    case Return => EndTouches(s, step);
    case Done => EndTouches(s, step);
    case Release => EndTouches(s, step);
    case _ =>
  }

  lemma EndTouches(s: State, step: Step)
    requires CanStep(s, step) && Sound(s, step) && (step.Return? || step.Done? || step.Release?)
    ensures Touches(s, Apply(s, step), s.loop.value)
  {
    var id := s.loop.value;
    if step.Return? && s.calls[id].origin.Tracked? {
      assert Touches(s, EraseKey(s, id), id);
    } else if step.Return? {
      assert Touches(s, EndList(s, id), id);
    } else if step.Done? {
      assert Touches(s, Settle(s, id), id);
    } else {
      assert Touches(s, Forget(s, id), id);
    }
  }

  lemma ListsStayIdle(s: State, step: Step)
    requires CallsOk(s) && CanStep(s, step) && Sound(s, step) && Injected(step) == multiset{} && ListsIdle(s)
    ensures ListsIdle(Apply(s, step))
    ensures NoneUnfinished(s) ==> NoneUnfinished(Apply(s, step))
  {
    ClosedStep(s, step);
    if step.Child? {
      ChildStaysIdle(s, s.loop.value);
    }
  }

  /** Only a counted call can be in the middle of starting calls, and it is unfinished then. */
  lemma ChildStaysIdle(s: State, id: nat)
    requires CallsOk(s) && ListsIdle(s) && id < |s.calls|
    requires s.calls[id].phase.Calling? && s.calls[id].phase.todo != []
    requires s.calls[id].phase.todo[0].proxy in s.proxies
    ensures ListsIdle(StartChild(s, id)) && !NoneUnfinished(s)
  {
    var c := s.calls[id];
    assert CallOk(c) && Future(c) == c.phase.todo;
    assert c.origin.Tracked? && Unfinished(c);
  }

  /** `stop` has not decided to quit under unfinished calls. */
  ghost predicate Undecided(s: State) {
    s.bus.stop.Decided? ==> NoneUnfinished(s)
  }

  /** `safe` says that the run began undecided. */
  ghost predicate DrainInv(s: State, total: multiset<Work>, safe: bool) {
    && Inv(s) && ListsIdle(s) && Total(s) == total
    && (safe ==> Undecided(s) && (s.bus.quit ==> NoneUnfinished(s)))
  }

  lemma QuitDrains(s: State, total: multiset<Work>)
    requires Inv(s) && s.bus.pending == 0 && Total(s) == total && |total| < WRAP
    ensures NoneUnfinished(s)
  {
    OutstandingWithinTotal(s.calls);
    CounterAtZero(s);
  }

  lemma DrainStep(s: State, step: Step, total: multiset<Work>, safe: bool)
    requires DrainInv(s, total, safe) && CanStep(s, step) && Injected(step) == multiset{} && |total| < WRAP
    ensures DrainInv(Apply(s, step), total, safe)
  {
    var s' := Apply(s, step);
    StepInv(s, step);
    StepSound(s, step);
    StepTotal(s, step);
    ListsStayIdle(s, step);
    StepBus(s, step);
    if s'.bus.stop.Decided? && !s.bus.stop.Decided? {
      DecidedBus(s.bus, s'.bus, step);
      QuitDrains(s', total);
    }
    if s'.bus.quit && !s.bus.quit {
      QuitBus(s.bus, s'.bus, step);
      if step.Done? {
        QuitDrains(s', total);
      }
    }
  }

  lemma {:induction false} DrainRun(s: State, steps: seq<Step>, total: multiset<Work>, safe: bool)
    requires DrainInv(s, total, safe) && Feasible(s, steps) && Closed(steps) && |total| < WRAP
    ensures DrainInv(Run(s, steps), total, safe)
    decreases |steps|
  {
    if steps != [] {
      assert Injected(steps[0]) == multiset{};
      DrainStep(s, steps[0], total, safe);
      DrainRun(Apply(s, steps[0]), steps[1..], total, safe);
    }
  }

  lemma NoneUnfinishedDrained(s: State)
    requires Inv(s) && ListsIdle(s) && NoneUnfinished(s)
    ensures Drained(s) && Completed(s) == Total(s)
  {
    forall i | 0 <= i < |s.calls| && s.calls[i].origin.Tracked? ensures FinishedOnce(s.calls[i]) {
      assert CallOk(s.calls[i]);
    }
    DrainedCompletesAll(s);
  }

  /** The drain theorem. Take any reachable situation with any forest of outstanding calls whose
      callbacks start finite trees of further calls, fewer than 2^32 nodes in all, and let no
      further work come from outside. Then in every continuation, whatever the order and the
      results of the replies and wherever `stop` falls: the forest is conserved; a quit has been
      requested only once every node has completed, each exactly once; the calls cannot get stuck
      short of that, unless a rejected reply ends the program, and only finitely many steps lead
      there; and once all have completed and `stop` has made its check, the quit has been
      requested. The one exception is a `stop` that read a zero counter before these calls were
      started and has not quit yet: see DecidedQuitsEarly. */
  lemma DrainTheorem(s0: State, steps: seq<Step>)
    requires Inv(s0) && s0.bus.ready && !s0.bus.quit && ListsIdle(s0) && |Total(s0)| < WRAP
    requires Feasible(s0, steps) && Closed(steps)
    ensures var s := Run(s0, steps);
      && Total(s) == Total(s0)
      && (Undecided(s0) && s.bus.quit ==> Drained(s) && Completed(s) == Total(s0))
      && (Undecided(s0) && Stuck(s) && s.halted.None? ==> Drained(s) && Completed(s) == Total(s0))
      && (Drained(s) && (s.bus.stop.Checked? || s.bus.stop.Returned?) ==> s.bus.quit)
      && ProgressCount(steps) <= Measure(s0) + InjectedWeightAll(steps)
  {
    var s := Run(s0, steps);
    DrainRun(s0, steps, Total(s0), Undecided(s0));
    RunWeight(s0, steps);
    StaysReady(s0, steps);
    if Undecided(s0) && s.bus.quit {
      NoneUnfinishedDrained(s);
    } else if Undecided(s0) && Stuck(s) && s.halted.None? {
      StuckReleased(s);
      NoneUnfinishedDrained(s);
    }
    if Drained(s) {
      DrainedHasQuit(s);
    }
  }

  lemma DrainedHasQuit(s: State)
    requires Inv(s) && Drained(s)
    ensures s.bus.stop.Checked? || s.bus.stop.Returned? ==> s.bus.quit
  {
    forall i | 0 <= i < |s.calls| ensures OneIfUnfinished(s.calls[i]) == 0 {
      if s.calls[i].origin.Tracked? { assert FinishedOnce(s.calls[i]); }
    }
    TallyZero(s.calls, OneIfUnfinished);
  }

  lemma StuckReleased(s: State)
    requires Inv(s) && s.halted.None? && s.bus.thread.InLoop? && Stuck(s)
    ensures NoneUnfinished(s)
  {
    forall i | 0 <= i < |s.calls| ensures s.calls[i].phase.Released? {
      if !s.calls[i].phase.Released? {
        var step := NextStep(s, i);
      }
    }
  }

  /** ... and from such a state the next step of `stop` does quit under unfinished calls. */
  lemma DecidedQuitsEarly(s: State)
    requires Inv(s) && s.halted.None? && !Undecided(s)
    ensures CanStep(s, BusStep(StopQuit))
    ensures Apply(s, BusStep(StopQuit)).bus.quit && !NoneUnfinished(Apply(s, BusStep(StopQuit)))
  {
    var quit := s.(bus := Act(s.bus, StopQuit));
    assert Apply(s, BusStep(StopQuit)) == quit && quit.calls == s.calls;
  }

  lemma {:induction false} StaysReady(s: State, steps: seq<Step>)
    requires Inv(s) && Feasible(s, steps) && s.bus.ready
    ensures Run(s, steps).bus.ready
    decreases |steps|
  {
    if steps != [] {
      StepInv(s, steps[0]);
      StepSound(s, steps[0]);
      StepBus(s, steps[0]);
      StaysReady(Apply(s, steps[0]), steps[1..]);
    }
  }
}
