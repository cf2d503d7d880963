/** What the calls, the handles and the workers record, told from the steps of a run alone. */
module History {
  import opened Wrappers
  import opened Works
  import opened Calls
  import opened CallsInvariant

  // ----- Replies -----

  /** The success flags of the replies that a run brings to call i: finish() of a counted call, a list or
      an error for a list call. */
  ghost function Replies(steps: seq<Step>, i: nat): seq<bool> {
    if steps == [] then [] else FlagOf(steps[0], i) + Replies(steps[1..], i)
  }

  function FlagOf(step: Step, i: nat): seq<bool> {
    match step
    case Reply(id, ok) => if id == i then [ok] else []
    case ListReply(id, list, _) => if id == i then [list != None] else []
    case _ => []
  }

  /** The flags recorded for call i; none before it is made. */
  function ResultsIn(s: State, i: nat): seq<bool> {
    if i < |s.calls| then s.calls[i].results else []
  }

  /** What a step adds to the record of call i. */
  ghost predicate Records(s: State, s': State, step: Step, i: nat) {
    ResultsIn(s', i) == ResultsIn(s, i) + FlagOf(step, i)
  }

  lemma AnswerRecords(s: State, step: Step, i: nat)
    requires CanStep(s, step) && Sound(s, step) && Answers(step)
    ensures Records(s, Apply(s, step), step, i)
  {
  }

  lemma OtherRecords(s: State, step: Step, i: nat)
    requires CanStep(s, step) && Sound(s, step) && !Answers(step)
    ensures Records(s, Apply(s, step), step, i)
  {
    if OnHandles(step) || Aside(step) {
      SameCalls(s, step);
    }
  }

  lemma StepRecords(s: State, step: Step, i: nat)
    requires CanStep(s, step) && Sound(s, step)
    ensures Records(s, Apply(s, step), step, i)
  {
    if Answers(step) {
      AnswerRecords(s, step, i);
    } else {
      OtherRecords(s, step, i);
    }
  }

  /** A call's record is what it was, followed by the replies of the run. */
  lemma {:induction false} RunRecords(s: State, steps: seq<Step>, i: nat)
    requires Inv(s) && Feasible(s, steps)
    ensures ResultsIn(Run(s, steps), i) == ResultsIn(s, i) + Replies(steps, i)
    decreases |steps|
  {
    if steps == [] {
      assert ResultsIn(s, i) + [] == ResultsIn(s, i);
    } else {
      StepInv(s, steps[0]);
      StepSound(s, steps[0]);
      StepRecords(s, steps[0], i);
      RunRecords(Apply(s, steps[0]), steps[1..], i);
      Regroup(ResultsIn(s, i), FlagOf(steps[0], i), Replies(steps[1..], i));
    }
  }

  lemma Regroup(a: seq<bool>, b: seq<bool>, c: seq<bool>)
    ensures a + b + c == a + (b + c)
  {
  }

  // ----- The life of a call -----

  /** What each step makes of call i, with `onLoop` saying that its completion is the one executing. In
      this order and no other: counted and registered, posted, on the wire; its callback, call by call;
      its key erased; onAnyAsyncDone; CallbackData destroyed. */
  ghost predicate Moves(c: Call, c': Call, step: Step, i: nat, onLoop: bool) {
    match step
    case Post(id) => if id == i then c.phase.Prepared? && c'.phase == Queued else c' == c
    case Dispatch(id) => if id == i then c.phase.Queued? && c'.phase == InFlight else c' == c
    case Reply(id, _) =>
      if id != i then c' == c
      else
        && c.phase.InFlight? && c.origin.Tracked?
        && c'.phase == if c.origin.work.Notifying? then Calling(c.origin.work.body) else Erased
    case ListReply(id, _, body) =>
      if id != i then c' == c else c.phase.InFlight? && c.origin.Listing? && c'.phase == Calling(body)
    case Child =>
      if onLoop then c.phase.Calling? && c.phase.todo != [] && c'.phase == Calling(c.phase.todo[1..]) else c' == c
    case Return =>
      if onLoop then c.phase == Calling([]) && c'.phase == (if c.origin.Tracked? then Erased else Released) else c' == c
    case Done => if onLoop then c.phase.Erased? && c'.phase == Settled && c'.finished == c.finished + 1 else c' == c
    case Release => if onLoop then c.phase.Settled? && c'.phase == Released else c' == c
    case _ => c' == c
  }

  ghost predicate MovesAt(s: State, s': State, step: Step, i: nat)
    requires i < |s.calls|
  {
    i < |s'.calls| && s'.calls[i].origin == s.calls[i].origin && Moves(s.calls[i], s'.calls[i], step, i, s.loop == Some(i))
  }

  lemma AnswerMoves(s: State, step: Step, i: nat)
    requires CanStep(s, step) && Sound(s, step) && i < |s.calls| && Answers(step)
    ensures MovesAt(s, Apply(s, step), step, i)
  {
  }

  lemma LoopMoves(s: State, step: Step, i: nat)
    requires CanStep(s, step) && Sound(s, step) && i < |s.calls|
    requires step.Child? || step.Return? || step.Done? || step.Release?
    ensures MovesAt(s, Apply(s, step), step, i)
  {
  }

  lemma OutwardMoves(s: State, step: Step, i: nat)
    requires CanStep(s, step) && Sound(s, step) && i < |s.calls|
    requires Outward(step) || OnHandles(step) || Aside(step)
    ensures MovesAt(s, Apply(s, step), step, i)
  {
    if !Outward(step) {
      SameCalls(s, step);
    }
  }

  /** In every reachable state each step moves each call along that order. */
  lemma CallMoves(steps: seq<Step>, step: Step, i: nat)
    requires Feasible(INIT, steps) && CanStep(Run(INIT, steps), step) && i < |Run(INIT, steps).calls|
    ensures MovesAt(Run(INIT, steps), Apply(Run(INIT, steps), step), step, i)
  {
    var s := Run(INIT, steps);
    Reachable(steps);
    StepSound(s, step);
    if Answers(step) {
      AnswerMoves(s, step, i);
    } else if Outward(step) || OnHandles(step) || Aside(step) {
      OutwardMoves(s, step, i);
    } else {
      LoopMoves(s, step, i);
    }
  }

  /** The call a step adds: the one asked for, counted by the thread that starts it; the callback's next
      one, posted inline; or a list call, posted uncounted. */
  ghost predicate Adds(s: State, s': State, step: Step) {
    match step
    case Start(w) => |s'.calls| == |s.calls| + 1 && IsNew(s'.calls[|s.calls|], w, Prepared)
    case Child =>
      && OnLoop(s) && s.calls[s.loop.value].phase.Calling? && s.calls[s.loop.value].phase.todo != []
      && |s'.calls| == |s.calls| + 1 && IsNew(s'.calls[|s.calls|], s.calls[s.loop.value].phase.todo[0], InFlight)
    case StartList => s'.calls == s.calls + [Call(Listing, Queued, [], [], 0)]
    case _ => |s'.calls| == |s.calls|
  }

  ghost predicate IsNew(c: Call, w: Work, phase: Phase) {
    c.origin.Tracked? && c.origin.work == w && c.phase == phase && c.results == [] && c.runs == [] && c.finished == 0
  }

  lemma AddedOutward(s: State, step: Step)
    requires CanStep(s, step) && Sound(s, step) && (step.Start? || step.StartList? || step.Child?)
    ensures Adds(s, Apply(s, step), step)
  {
  }

  lemma AddedNone(s: State, step: Step)
    requires CanStep(s, step) && Sound(s, step) && !step.Start? && !step.StartList? && !step.Child?
    ensures Adds(s, Apply(s, step), step)
  {
    if OnHandles(step) || Aside(step) {
      SameCalls(s, step);
    }
  }

  lemma CallAdded(steps: seq<Step>, step: Step)
    requires Feasible(INIT, steps) && CanStep(Run(INIT, steps), step)
    ensures Adds(Run(INIT, steps), Apply(Run(INIT, steps), step), step)
  {
    Reachable(steps);
    StepSound(Run(INIT, steps), step);
    if step.Start? || step.StartList? || step.Child? {
      AddedOutward(Run(INIT, steps), step);
    } else {
      AddedNone(Run(INIT, steps), step);
    }
  }

  // ----- Handles -----

  /** The entries of the Manager's list and the handles of user code on proxy p, counted over a run from
      the counts before it: a new proxy starts with one handle and no entry. */
  ghost function ListedBy(steps: seq<Step>, p: nat, before: int): int {
    if steps == [] then before else ListedBy(steps[1..], p, ListedStep(steps[0], p, before))
  }

  ghost function HeldBy(steps: seq<Step>, p: nat, before: int): int {
    if steps == [] then before else HeldBy(steps[1..], p, HeldStep(steps[0], p, before))
  }

  function ListedStep(step: Step, p: nat, n: int): int {
    if step == NewProxy(p) then 0 else if step == Enlist(p) then n + 1 else if step == Delist(p) then n - 1 else n
  }

  function HeldStep(step: Step, p: nat, n: int): int {
    if step == NewProxy(p) then 1 else if step == TakeHandle(p) then n + 1 else if step == DropHandle(p) then n - 1
    else n
  }

  function ListedIn(s: State, p: nat): nat {
    if p in s.proxies then s.proxies[p].listed else 0
  }

  function HeldIn(s: State, p: nat): nat {
    if p in s.proxies then s.proxies[p].held else 0
  }

  ghost predicate CountsMove(s: State, s': State, step: Step, p: nat) {
    && ListedIn(s', p) == ListedStep(step, p, ListedIn(s, p))
    && HeldIn(s', p) == HeldStep(step, p, HeldIn(s, p))
  }

  lemma HandleCounts(s: State, step: Step, p: nat)
    requires RefsOk(s) && CanStep(s, step) && OnHandles(step)
    ensures CountsMove(s, Apply(s, step), step, p)
  {
  }

  lemma CallCounts(s: State, step: Step, p: nat)
    requires RefsOk(s) && CanStep(s, step) && Sound(s, step) && !OnHandles(step) && !step.Release?
    ensures CountsMove(s, Apply(s, step), step, p)
  {
  }

  /** The last reference of a completed call goes only when no handle is left. */
  lemma ReleaseCounts(s: State, p: nat)
    requires RefsOk(s) && CanStep(s, Release) && Sound(s, Release)
    ensures CountsMove(s, Apply(s, Release), Release, p)
  {
    var id := s.loop.value;
    RefsUpdate(s.calls, id, s.calls[id], s.calls[id].origin.work.proxy);
  }

  lemma StepCounts(s: State, step: Step, p: nat)
    requires RefsOk(s) && CanStep(s, step) && Sound(s, step)
    ensures CountsMove(s, Apply(s, step), step, p)
  {
    if OnHandles(step) {
      HandleCounts(s, step, p);
    } else if step.Release? {
      ReleaseCounts(s, p);
    } else {
      CallCounts(s, step, p);
    }
  }

  lemma {:induction false} RunCounts(s: State, steps: seq<Step>, p: nat)
    requires Inv(s) && Feasible(s, steps)
    ensures ListedIn(Run(s, steps), p) == ListedBy(steps, p, ListedIn(s, p))
    ensures HeldIn(Run(s, steps), p) == HeldBy(steps, p, HeldIn(s, p))
    decreases |steps|
  {
    if steps != [] {
      StepInv(s, steps[0]);
      StepSound(s, steps[0]);
      StepCounts(s, steps[0], p);
      RunCounts(Apply(s, steps[0]), steps[1..], p);
    }
  }

  // ----- Workers -----

  /** How often the run has this step of a worker. */
  ghost function Count(steps: seq<Step>, a: WorkerAct): nat {
    if steps == [] then 0 else (if steps[0] == Agent(a) then 1 else 0) + Count(steps[1..], a)
  }

  lemma WorkersStep(s: State, step: Step)
    requires CanStep(s, step)
    ensures Apply(s, step).workers.asking == s.workers.asking + Count([step], AskUser)
      - Count([step], HandlerReturns) - Count([step], HandlerThrows)
    ensures Apply(s, step).workers.posting == s.workers.posting + Count([step], HandlerReturns)
      - Count([step], PostAnswer)
  {
    assert [step][1..] == [];
  }

  lemma {:induction false} RunWorkers(s: State, steps: seq<Step>)
    requires Feasible(s, steps)
    ensures Run(s, steps).workers.asking == s.workers.asking + Count(steps, AskUser)
      - Count(steps, HandlerReturns) - Count(steps, HandlerThrows)
    ensures Run(s, steps).workers.posting == s.workers.posting + Count(steps, HandlerReturns)
      - Count(steps, PostAnswer)
    decreases |steps|
  {
    if steps != [] {
      WorkersStep(s, steps[0]);
      assert [steps[0]][1..] == [];
      RunWorkers(Apply(s, steps[0]), steps[1..]);
    }
  }

  /** Every worker was dispatched once; it is in its handler until that returns or throws, and then has to
      post until it does. */
  lemma WorkersOfRun(steps: seq<Step>)
    requires Feasible(INIT, steps)
    ensures var w := Run(INIT, steps).workers;
      && w.asking == Count(steps, AskUser) - Count(steps, HandlerReturns) - Count(steps, HandlerThrows)
      && w.posting == Count(steps, HandlerReturns) - Count(steps, PostAnswer)
  {
    RunWorkers(INIT, steps);
  }
}
