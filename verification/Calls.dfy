/** The life of asynchronous calls (gproxy.hpp) around the shared bus (gdbus.cpp), as a state
    machine whose steps are the atomic regions of user threads, the loop thread and `stop`. */
module Calls {
  import opened Wrappers
  import opened Bus
  import opened Works
  import opened Registry

  /** Tracked: started through prepareCallback, so counted in `pending_calls_`, holding its proxy
      through CallbackData. Listing: GetTechnologies/GetServices, posted without either. */
  datatype Origin = Tracked(work: Work, counter: Option<nat>) | Listing

  /** Prepared: counted and registered. Queued: posted to the loop. InFlight: on the wire.
      Calling: the user callback is running and has `todo` left to start. Erased: its key is gone
      (or it never had one), the proxy mutex is held. Settled: onAnyAsyncDone has run.
      Released: CallbackData has been destroyed. */
  datatype Phase = Prepared | Queued | InFlight | Calling(todo: seq<Work>) | Erased | Settled | Released

  /** History: `results` the success flags of the replies handled for this call, `runs` the flags
      its own callback was run with, `finished` how often onAnyAsyncDone ran for it. */
  datatype Call = Call(origin: Origin, phase: Phase, results: seq<bool>, runs: seq<bool>, finished: nat)

  /** A live proxy: its registry and its strong references, of which `listed` come from the
      Manager's list and `held` from user code. */
  datatype ProxyState = ProxyState(registry: Registry, listed: nat, held: nat, refs: nat)

  /** What can end the program in the middle of a run: the loop (for a list call) or an agent's worker
      uses a freed Manager, a worker posts to a freed context, or an exception leaves a completion
      function and the loop thread with it. */
  datatype Halt = ManagerFreed | ContextFreed | Uncaught

  /** The agent's detached workers: those whose handler has still to use the Manager, and those that have
      still to post its answer. */
  datatype Workers = Workers(asking: nat, posting: nat)

  datatype WorkerAct = AskUser | HandlerReturns | HandlerThrows | PostAnswer | UseFreedManager | UseFreedContext

  /** `loop` is the call whose completion the loop thread is executing. `crashed` records a counted
      call that met a dangling proxy or a failed any_cast. `stored` holds, per list call, the
      object paths of the list that get_proxies_cb stored for it. */
  datatype State = State(bus: Bus, proxies: map<nat, ProxyState>, calls: seq<Call>, loop: Option<nat>,
                         crashed: bool, stored: map<nat, seq<string>>, workers: Workers, halted: Option<Halt>)

  const INIT := State(FRESH, map[], [], None, false, map[], Workers(0, 0), None)

  /** The Manager among the proxies. `Connman` holds one handle on it until its own `stop` returned. */
  const MANAGER: nat := 1

  datatype Step =
    | BusStep(act: BusAct)
    | NewProxy(proxy: nat) | Enlist(proxy: nat) | Delist(proxy: nat)
    | TakeHandle(proxy: nat) | DropHandle(proxy: nat)
    | Start(work: Work) | StartList | Post(id: nat)                     // any user thread
    | Dispatch(id: nat) | Reply(id: nat, ok: bool)                      // the loop thread
    | ListReply(id: nat, list: Option<seq<string>>, body: seq<Work>)    // None: an error reply
    | Reject(id: nat)                                // the reply's properties make `update` throw
    | Dangle(id: nat)                                // a list call is handled on a freed Manager
    | Agent(worker: WorkerAct)
    | Child | Return | Done | Release

  // ----- Classification of calls -----

  predicate Waiting(c: Call) {
    c.phase.Prepared? || c.phase.Queued? || c.phase.InFlight?
  }

  predicate Unfinished(c: Call) {
    c.origin.Tracked? && (Waiting(c) || c.phase.Calling? || c.phase.Erased?)
  }

  predicate Registered(c: Call) {
    c.origin.Tracked? && c.origin.counter.Some? && (Waiting(c) || c.phase.Calling?)
  }

  predicate HoldsProxy(c: Call, p: nat) {
    c.origin.Tracked? && !c.phase.Released? && c.origin.work.proxy == p
  }

  predicate Busy(c: Call) {
    c.phase.Calling? || c.phase.Erased? || c.phase.Settled?
  }

  /** The calls that this call's callback has still to start. */
  function Future(c: Call): seq<Work> {
    if c.phase.Calling? then c.phase.todo
    else if c.origin.Tracked? && Waiting(c) then Body(c.origin.work)
    else []
  }

  // ----- Guards -----

  function Handles(s: State, p: nat): nat {
    if p in s.proxies then s.proxies[p].listed + s.proxies[p].held else 0
  }

  /** The proxy that a call itself keeps alive. */
  function Own(c: Call): Option<nat> {
    if c.origin.Tracked? then Some(c.origin.work.proxy) else None
  }

  /** Somebody holds every proxy that a callback body needs held. */
  ghost predicate Holdable(s: State, body: seq<Work>, own: Option<nat>) {
    forall q :: q in Needs(body, own) ==> Handles(s, q) > 0
  }

  /** Callbacks capture the other proxies they use: the last handle stays while one needs it. */
  ghost predicate MayDrop(s: State, p: nat) {
    Handles(s, p) > 1 || forall i :: 0 <= i < |s.calls| ==> p !in Needs(Future(s.calls[i]), Own(s.calls[i]))
  }

  /** Connman lets go of the Manager after its `stop`, as the last of the Manager's users or not. */
  predicate MayRelease(s: State, p: nat) {
    p == MANAGER ==> s.bus.stop.Returned? || (p in s.proxies && s.proxies[p].held > 1)
  }

  /** A list call on the wire: GLib keeps the GDBusProxy it was made on, though not the Manager. */
  predicate ListInFlight(s: State) {
    exists i :: 0 <= i < |s.calls| && s.calls[i].origin.Listing? && s.calls[i].phase.InFlight?
  }

  /** Handling list call id now reads freed memory: the raw `this` of a successful reply, or the
      GDBusProxy of a call not yet made. */
  predicate Dangles(s: State, id: nat)
    requires id < |s.calls|
  {
    && s.calls[id].origin.Listing? && MANAGER !in s.proxies
    && (s.calls[id].phase.InFlight? || (s.calls[id].phase.Queued? && !ListInFlight(s)))
  }

  predicate LoopFree(s: State) {
    Executing(s.bus) && s.loop.None?
  }

  /** RequestInput is dispatched on the loop; its worker then runs the Manager's handler with its raw
      `this`, and posts to the context. */
  predicate CanWork(s: State, a: WorkerAct) {
    match a
    case AskUser => LoopFree(s) && MANAGER in s.proxies
    case HandlerReturns => s.workers.asking > 0 && MANAGER in s.proxies
    case HandlerThrows => s.workers.asking > 0 && MANAGER in s.proxies
    case PostAnswer => s.workers.posting > 0 && !s.bus.thread.Destroyed?
    case UseFreedManager => s.workers.asking > 0 && MANAGER !in s.proxies
    case UseFreedContext => s.workers.posting > 0 && s.bus.thread.Destroyed?
  }

  ghost predicate CanStep(s: State, step: Step) {
    !s.crashed && s.halted.None? &&
    match step
    case BusStep(a) =>
      CanAct(s.bus, a) && (a.Announce? || a.LoopReturns? || a.EndDrain? ==> s.loop.None?)
    case NewProxy(p) => Usable(s.bus) && p !in s.proxies && (p == MANAGER ==> s.bus.stop.NotCalled?)
    case Enlist(p) => Handles(s, p) > 0
    case TakeHandle(p) => Handles(s, p) > 0
    case Delist(p) => p in s.proxies && s.proxies[p].listed > 0 && MayDrop(s, p)
    case DropHandle(p) => p in s.proxies && s.proxies[p].held > 0 && MayDrop(s, p) && MayRelease(s, p)
    case Start(w) => Usable(s.bus) && Handles(s, w.proxy) > 0 && Holdable(s, Body(w), Some(w.proxy))
    case StartList => Usable(s.bus) && MANAGER in s.proxies
    case Post(id) => Usable(s.bus) && id < |s.calls| && s.calls[id].phase.Prepared?
    case Dispatch(id) => LoopFree(s) && id < |s.calls| && s.calls[id].phase.Queued? && !Dangles(s, id)
    case Reply(id, _) =>
      LoopFree(s) && id < |s.calls| && s.calls[id].phase.InFlight? && s.calls[id].origin.Tracked?
    case ListReply(id, list, body) =>
      LoopFree(s) && id < |s.calls| && s.calls[id].phase.InFlight? && s.calls[id].origin.Listing?
      && Holdable(s, body, None) && (list.None? || list.value == [] ==> body == [])
      && (list.Some? ==> !Dangles(s, id))
    case Reject(id) =>
      LoopFree(s) && id < |s.calls| && s.calls[id].phase.InFlight? && !Dangles(s, id)
      && (s.calls[id].origin.Tracked? ==> s.calls[id].origin.work.kind.GotProperties?)
    case Dangle(id) => LoopFree(s) && id < |s.calls| && Dangles(s, id)
    case Agent(a) => CanWork(s, a)
    case Child => OnLoop(s) && s.calls[s.loop.value].phase.Calling? && s.calls[s.loop.value].phase.todo != []
    case Return => OnLoop(s) && s.calls[s.loop.value].phase == Calling([])
    case Done => OnLoop(s) && s.calls[s.loop.value].phase.Erased?
    case Release => OnLoop(s) && s.calls[s.loop.value].phase.Settled?
  }

  /** The DBus object can be called: constructed, and not yet destroyed. */
  predicate Usable(b: Bus) {
    b.ready && !b.thread.Destroyed?
  }

  predicate OnLoop(s: State) {
    s.loop.Some? && s.loop.value < |s.calls|
  }

  // ----- Effects -----

  function Crash(s: State): State {
    s.(crashed := true)
  }

  /** prepareCallback: count the call, register its callback, take a reference on the proxy. */
  function Prepare(s: State, w: Work, phase: Phase): State {
    if w.proxy !in s.proxies then Crash(s) else
      var p := s.proxies[w.proxy];
      var (registry, counter) := Register(p.registry, CallbackOf(w, |s.calls|));
      s.(bus := AsyncStart(s.bus),
         proxies := s.proxies[w.proxy := p.(registry := registry, refs := p.refs + 1)],
         calls := s.calls + [Call(Tracked(w, counter), phase, [], [], 0)])
  }

  /** Give up one strong reference; the last one destroys the proxy. */
  function Unref(ps: map<nat, ProxyState>, p: nat): map<nat, ProxyState>
    requires p in ps
  {
    if ps[p].refs <= 1 then ps - {p} else ps[p := ps[p].(refs := ps[p].refs - 1)]
  }

  function SetPhase(s: State, id: nat, phase: Phase): State
    requires id < |s.calls|
  {
    s.(calls := s.calls[id := s.calls[id].(phase := phase)])
  }

  /** finishAsyncCall / get_property_cb up to the user callback: executeCallBack's first region. */
  function Complete(s: State, id: nat, ok: bool): State
    requires id < |s.calls| && s.calls[id].origin.Tracked?
  {
    var c := s.calls[id];
    var done := c.(results := c.results + [ok]);
    if c.origin.work.proxy !in s.proxies then Crash(s)
    else if c.origin.counter.None? then
      s.(calls := s.calls[id := done.(phase := Erased)], loop := Some(id))
    else
      match Fetch(s.proxies[c.origin.work.proxy].registry, c.origin.counter.value, c.origin.work.kind)
      case Err(_) => Crash(s)
      case Ok(cb) =>
        var calls := s.calls[id := done.(phase := Calling(cb.body))];
        if cb.owner >= |calls| then Crash(s) else
          s.(calls := calls[cb.owner := calls[cb.owner].(runs := calls[cb.owner].runs + [ok])],
             loop := Some(id))
  }

  /** One more strong reference, for the Manager's list or for user code. */
  function Take(s: State, p: nat, listing: bool): State
    requires p in s.proxies
  {
    var x := s.proxies[p];
    var y := if listing then x.(listed := x.listed + 1) else x.(held := x.held + 1);
    s.(proxies := s.proxies[p := y.(refs := x.refs + 1)])
  }

  function Drop(s: State, p: nat, listing: bool): State
    requires p in s.proxies && (if listing then s.proxies[p].listed else s.proxies[p].held) > 0
  {
    var x := s.proxies[p];
    var y := if listing then x.(listed := x.listed - 1) else x.(held := x.held - 1);
    s.(proxies := Unref(s.proxies[p := y], p))
  }

  function Create(s: State, p: nat): State {
    s.(proxies := s.proxies[p := ProxyState(EMPTY, 0, 1, 1)])
  }

  function PostList(s: State): State {
    s.(calls := s.calls + [Call(Listing, Queued, [], [], 0)])
  }

  /** get_proxies_cb: store the list, then run the list-changed callback, unless there are none. */
  function CompleteList(s: State, id: nat, list: Option<seq<string>>, body: seq<Work>): State
    requires id < |s.calls|
  {
    var c := s.calls[id];
    s.(calls := s.calls[id := c.(phase := Calling(body), results := c.results + [list.Some?])], loop := Some(id),
       stored := if list.Some? then s.stored[id := list.value] else s.stored)
  }

  /** The running callback starts its next call: prepareCallback, then posted inline, because the
      loop thread owns the context. */
  function StartChild(s: State, id: nat): State
    requires id < |s.calls| && s.calls[id].phase.Calling? && s.calls[id].phase.todo != []
  {
    var todo := s.calls[id].phase.todo;
    Prepare(SetPhase(s, id, Calling(todo[1..])), todo[0], InFlight)
  }

  /** The callback returned: relock the proxy and erase its key. */
  function EraseKey(s: State, id: nat): State
    requires id < |s.calls| && s.calls[id].origin.Tracked?
  {
    var origin := s.calls[id].origin;
    if origin.work.proxy !in s.proxies || origin.counter.None? then Crash(s) else
      var p := s.proxies[origin.work.proxy];
      SetPhase(s, id, Erased).(
        proxies := s.proxies[origin.work.proxy := p.(registry := Erase(p.registry, origin.counter.value))])
  }

  function EndList(s: State, id: nat): State
    requires id < |s.calls|
  {
    SetPhase(s, id, Released).(loop := None)
  }

  /** onAnyAsyncDone on behalf of call id. */
  function Settle(s: State, id: nat): State
    requires id < |s.calls|
  {
    var c := s.calls[id];
    s.(bus := AsyncDone(s.bus), calls := s.calls[id := c.(phase := Settled, finished := c.finished + 1)])
  }

  /** CallbackData goes out of scope. */
  function Forget(s: State, id: nat): State
    requires id < |s.calls| && s.calls[id].origin.Tracked?
  {
    var p := s.calls[id].origin.work.proxy;
    if p !in s.proxies then Crash(s)
    else SetPhase(s, id, Released).(proxies := Unref(s.proxies, p), loop := None)
  }

  function Worked(s: State, a: WorkerAct): State
    requires CanWork(s, a)
  {
    var Workers(asking, posting) := s.workers;
    match a
    case AskUser => s.(workers := Workers(asking + 1, posting))
    case HandlerReturns => s.(workers := Workers(asking - 1, posting + 1))
    case HandlerThrows => s.(workers := Workers(asking - 1, posting))
    case PostAnswer => s.(workers := Workers(asking, posting - 1))
    case UseFreedManager => s.(halted := Some(ManagerFreed))
    case UseFreedContext => s.(halted := Some(ContextFreed))
  }

  function Apply(s: State, step: Step): State
    requires CanStep(s, step)
  {
    match step
    case BusStep(a) => s.(bus := Act(s.bus, a))
    case NewProxy(p) => Create(s, p)
    case Enlist(p) => Take(s, p, true)
    case TakeHandle(p) => Take(s, p, false)
    case Delist(p) => Drop(s, p, true)
    case DropHandle(p) => Drop(s, p, false)
    case Start(w) => Prepare(s, w, Prepared)
    case StartList => PostList(s)
    case Post(id) => SetPhase(s, id, Queued)
    case Dispatch(id) => SetPhase(s, id, InFlight)
    case Reply(id, ok) => Complete(s, id, ok)
    case ListReply(id, list, body) => CompleteList(s, id, list, body)
    case Reject(_) => s.(halted := Some(Uncaught))
    case Dangle(_) => s.(halted := Some(ManagerFreed))
    case Agent(a) => Worked(s, a)
    case Child => StartChild(s, s.loop.value)
    case Return =>
      if s.calls[s.loop.value].origin.Tracked? then EraseKey(s, s.loop.value) else EndList(s, s.loop.value)
    case Done => Settle(s, s.loop.value)
    case Release =>
      if s.calls[s.loop.value].origin.Tracked? then Forget(s, s.loop.value) else EndList(s, s.loop.value)
  }

  /** A run: every step possible where it is taken. */
  ghost predicate Feasible(s: State, steps: seq<Step>)
    decreases |steps|
  {
    steps == [] || (CanStep(s, steps[0]) && Feasible(Apply(s, steps[0]), steps[1..]))
  }

  ghost function Run(s: State, steps: seq<Step>): State
    requires Feasible(s, steps)
    decreases |steps|
  {
    if steps == [] then s else Run(Apply(s, steps[0]), steps[1..])
  }

  // ----- Sums over the calls -----

  function Tally(cs: seq<Call>, g: Call -> nat): nat {
    if cs == [] then 0 else Tally(cs[..|cs| - 1], g) + g(cs[|cs| - 1])
  }

  function Gather(cs: seq<Call>, g: Call -> multiset<Work>): multiset<Work> {
    if cs == [] then multiset{} else Gather(cs[..|cs| - 1], g) + g(cs[|cs| - 1])
  }

  lemma {:induction false} TallyUpdate(cs: seq<Call>, i: nat, c: Call, g: Call -> nat)
    requires i < |cs|
    ensures Tally(cs[i := c], g) + g(cs[i]) == Tally(cs, g) + g(c)
    ensures g(cs[i]) <= Tally(cs, g)
  {
    var n := |cs| - 1;
    if i < n {
      TallyUpdate(cs[..n], i, c, g);
      assert cs[i := c][..n] == cs[..n][i := c];
    } else {
      assert cs[i := c][..n] == cs[..n];
    }
  }

  lemma TallyAppend(cs: seq<Call>, c: Call, g: Call -> nat)
    ensures Tally(cs + [c], g) == Tally(cs, g) + g(c)
  {
    assert (cs + [c])[..|cs|] == cs;
  }

  lemma {:induction false} TallyZero(cs: seq<Call>, g: Call -> nat)
    ensures Tally(cs, g) == 0 <==> forall i :: 0 <= i < |cs| ==> g(cs[i]) == 0
  {
    if cs != [] {
      var n := |cs| - 1;
      TallyZero(cs[..n], g);
      if forall i :: 0 <= i < |cs| ==> g(cs[i]) == 0 {
        forall i | 0 <= i < n ensures g(cs[..n][i]) == 0 { assert cs[..n][i] == cs[i]; }
      }
      if Tally(cs, g) == 0 {
        forall i | 0 <= i < |cs| ensures g(cs[i]) == 0 {
          if i < n { assert cs[i] == cs[..n][i]; }
        }
      }
    }
  }

  lemma {:induction false} GatherUpdate(cs: seq<Call>, i: nat, c: Call, g: Call -> multiset<Work>)
    requires i < |cs|
    ensures Gather(cs[i := c], g) + g(cs[i]) == Gather(cs, g) + g(c)
  {
    var n := |cs| - 1;
    if i < n {
      GatherUpdate(cs[..n], i, c, g);
      assert cs[i := c][..n] == cs[..n][i := c] && cs[..n][i] == cs[i];
      var before, after := Gather(cs[..n], g), Gather(cs[..n][i := c], g);
      assert after + g(cs[i]) == before + g(c);
      assert (after + g(cs[n])) + g(cs[i]) == (after + g(cs[i])) + g(cs[n]);
      assert (before + g(cs[n])) + g(c) == (before + g(c)) + g(cs[n]);
    } else {
      assert cs[i := c][..n] == cs[..n];
    }
  }

  lemma GatherAppend(cs: seq<Call>, c: Call, g: Call -> multiset<Work>)
    ensures Gather(cs + [c], g) == Gather(cs, g) + g(c)
  {
    assert (cs + [c])[..|cs|] == cs;
  }

  function OneIfUnfinished(c: Call): nat {
    if Unfinished(c) then 1 else 0
  }

  function OneIfHolds(p: nat): Call -> nat {
    (c: Call) => if HoldsProxy(c, p) then 1 else 0
  }

  /** The number of counted calls whose onAnyAsyncDone is still to come. */
  function Outstanding(s: State): nat {
    Tally(s.calls, OneIfUnfinished)
  }
}
