/** The invariants of the call machine, kept by every step of every thread. */
module CallsInvariant {
  import opened Wrappers
  import opened Bus
  import opened Works
  import opened Registry
  import opened Calls

  /** Per call: one reply, the callback run exactly once with that reply's flag, one decrement. */
  ghost predicate CallOk(c: Call) {
    && (Waiting(c) ==> c.results == [] && c.runs == [])
    && (!Waiting(c) ==> |c.results| == 1)
    && match c.origin
       case Tracked(work, counter) =>
         && (counter.Some? <==> work.Notifying?)
         && (c.phase.Calling? ==> counter.Some?)
         && (!Waiting(c) ==> c.runs == if work.Notifying? then c.results else [])
         && c.finished == (if c.phase.Settled? || c.phase.Released? then 1 else 0)
       case Listing =>
         && (c.phase.Queued? || c.phase.InFlight? || c.phase.Calling? || c.phase.Released?)
         && c.runs == [] && c.finished == 0
  }

  ghost predicate CallsOk(s: State) {
    && (s.calls != [] ==> s.bus.ready)
    && forall i :: 0 <= i < |s.calls| ==> CallOk(s.calls[i])
  }

  /** The loop thread executes at most one completion, and only while it iterates the context. */
  ghost predicate LoopOk(s: State) {
    && (s.loop.Some? ==> OnLoop(s) && Executing(s.bus))
    && forall i :: 0 <= i < |s.calls| ==> (Busy(s.calls[i]) <==> s.loop == Some(i))
  }

  /** `pending_calls_` is the number of counted calls queued, in flight or in completion; and
      no quit is lost. */
  ghost predicate CountOk(s: State) {
    && s.bus.pending == Outstanding(s) % WRAP
    && (s.bus.stop.Checked? && !s.bus.quit ==> Outstanding(s) > 0)
  }

  /** The entry under key k of proxy p belongs to one unfinished call that registered it. */
  ghost predicate EntryOk(s: State, p: nat, k: nat)
    requires p in s.proxies && k in s.proxies[p].registry.callbacks
  {
    var cb := s.proxies[p].registry.callbacks[k];
    && 1 <= k <= s.proxies[p].registry.counter
    && cb.Stored? && cb.owner < |s.calls|
    && var c := s.calls[cb.owner];
    && Registered(c)
    && c.origin.counter == Some(k)
    && c.origin.work == Notifying(p, cb.kind, cb.body)
  }

  ghost predicate KeyOk(s: State, i: nat)
    requires i < |s.calls|
  {
    var c := s.calls[i];
    Registered(c) ==>
      && c.origin.work.proxy in s.proxies
      && var callbacks := s.proxies[c.origin.work.proxy].registry.callbacks;
      && c.origin.counter.value in callbacks
      && callbacks[c.origin.counter.value].Stored? && callbacks[c.origin.counter.value].owner == i
  }

  ghost predicate RegistryOk(s: State) {
    && (forall p, k :: p in s.proxies && k in s.proxies[p].registry.callbacks ==> EntryOk(s, p, k))
    && (forall i :: 0 <= i < |s.calls| ==> KeyOk(s, i))
  }

  function RefsByCalls(s: State, p: nat): nat {
    Tally(s.calls, OneIfHolds(p))
  }

  ghost predicate RefsOk(s: State) {
    && (forall p :: p in s.proxies ==>
         s.proxies[p].refs == Handles(s, p) + RefsByCalls(s, p) && s.proxies[p].refs > 0)
    && (forall i :: 0 <= i < |s.calls| && s.calls[i].origin.Tracked? && !s.calls[i].phase.Released? ==>
         s.calls[i].origin.work.proxy in s.proxies)
  }

  /** Every proxy that a pending callback will use is held. */
  ghost predicate FutureOk(s: State) {
    forall i :: 0 <= i < |s.calls| ==> Holdable(s, Future(s.calls[i]), Own(s.calls[i]))
  }

  ghost predicate Core(s: State) {
    && !s.crashed
    && BusInv(s.bus)
    && CallsOk(s)
    && LoopOk(s)
    && CountOk(s)
    && RegistryOk(s)
    && RefsOk(s)
    && FutureOk(s)
  }

  lemma InitInv()
    ensures Inv(INIT)
  {
  }

  /** Replacing call i changes every reference count by what that call holds before and after. */
  lemma RefsUpdate(cs: seq<Call>, i: nat, c: Call, p: nat)
    requires i < |cs|
    ensures Tally(cs[i := c], OneIfHolds(p)) + OneIfHolds(p)(cs[i]) == Tally(cs, OneIfHolds(p)) + OneIfHolds(p)(c)
    ensures HoldsProxy(cs[i], p) ==> Tally(cs, OneIfHolds(p)) > 0
  {
    TallyUpdate(cs, i, c, OneIfHolds(p));
  }

  /** Replacing a call by one that holds the same proxy changes no count. */
  lemma SameHold(cs: seq<Call>, i: nat, c: Call)
    requires i < |cs|
    requires c.origin == cs[i].origin && (c.origin.Listing? || (c.phase.Released? <==> cs[i].phase.Released?))
    ensures forall p :: Tally(cs[i := c], OneIfHolds(p)) == Tally(cs, OneIfHolds(p))
  {
    forall p ensures Tally(cs[i := c], OneIfHolds(p)) == Tally(cs, OneIfHolds(p)) {
      RefsUpdate(cs, i, c, p);
    }
  }

  lemma SameUnfinished(cs: seq<Call>, i: nat, c: Call)
    requires i < |cs| && Unfinished(c) == Unfinished(cs[i])
    ensures Tally(cs[i := c], OneIfUnfinished) == Tally(cs, OneIfUnfinished)
  {
    TallyUpdate(cs, i, c, OneIfUnfinished);
  }

  /** The registries are in order after a step that registers and erases nothing. */
  lemma RegistryStable(s: State, s': State)
    requires RegistryOk(s) && |s'.calls| == |s.calls|
    requires forall i :: 0 <= i < |s.calls| ==>
      s'.calls[i].origin == s.calls[i].origin && (Registered(s'.calls[i]) <==> Registered(s.calls[i]))
    requires forall p :: p in s'.proxies && s'.proxies[p].registry != EMPTY ==>
      p in s.proxies && s'.proxies[p].registry == s.proxies[p].registry
    requires forall i :: 0 <= i < |s.calls| && Registered(s.calls[i]) ==>
      var p := s.calls[i].origin.work.proxy;
      p in s.proxies ==> p in s'.proxies && s'.proxies[p].registry == s.proxies[p].registry
    ensures RegistryOk(s')
  {
    forall q, k | q in s'.proxies && k in s'.proxies[q].registry.callbacks ensures EntryOk(s', q, k) {
      assert EntryOk(s, q, k);
    }
    forall i | 0 <= i < |s.calls| ensures KeyOk(s', i) {
      assert KeyOk(s, i);
    }
  }

  /** What pending callbacks need is still held when no handle count falls to zero under them. */
  lemma FutureStable(s: State, s': State)
    requires FutureOk(s) && |s'.calls| == |s.calls|
    requires forall i :: 0 <= i < |s.calls| ==>
      Future(s'.calls[i]) == Future(s.calls[i]) || Future(s'.calls[i]) == []
    requires forall i :: 0 <= i < |s.calls| ==> s'.calls[i].origin == s.calls[i].origin
    requires forall i, q :: 0 <= i < |s.calls| && q in Needs(Future(s.calls[i]), Own(s.calls[i])) && Handles(s, q) > 0 ==>
      Handles(s', q) > 0
    ensures FutureOk(s')
  {
    forall i | 0 <= i < |s.calls| ensures Holdable(s', Future(s'.calls[i]), Own(s'.calls[i])) {
      assert Holdable(s, Future(s.calls[i]), Own(s.calls[i]));
    }
  }

  // ----- Steps of the bus and of the handles -----

  lemma BusStepInv(s: State, a: BusAct)
    requires Core(s) && CanAct(s.bus, a) && (a.Announce? || a.LoopReturns? || a.EndDrain? ==> s.loop.None?)
    ensures Core(s.(bus := Act(s.bus, a)))
  {
    var s' := s.(bus := Act(s.bus, a));
    BusStepKeepsInv(s.bus, a);
    RegistryStable(s, s');
    FutureStable(s, s');
    assert Outstanding(s') == Outstanding(s);
    assert forall p :: RefsByCalls(s', p) == RefsByCalls(s, p);
  }

  lemma CreateInv(s: State, p: nat)
    requires Core(s) && p !in s.proxies
    ensures Core(Create(s, p))
  {
    var s' := Create(s, p);
    assert Outstanding(s') == Outstanding(s);
    assert forall q :: RefsByCalls(s', q) == RefsByCalls(s, q);
    TallyZero(s.calls, OneIfHolds(p));
    RegistryStable(s, s');
    FutureStable(s, s');
  }

  lemma TakeInv(s: State, p: nat, listing: bool)
    requires Core(s) && p in s.proxies
    ensures Core(Take(s, p, listing))
  {
    var s' := Take(s, p, listing);
    assert Outstanding(s') == Outstanding(s);
    assert forall q :: RefsByCalls(s', q) == RefsByCalls(s, q);
    RegistryStable(s, s');
    FutureStable(s, s');
  }

  /** Giving up a handle; the last reference destroys the proxy, which then no call uses. */
  lemma DropInv(s: State, p: nat, listing: bool)
    requires Core(s) && p in s.proxies && (if listing then s.proxies[p].listed else s.proxies[p].held) > 0
    requires MayDrop(s, p)
    ensures Core(Drop(s, p, listing))
  {
    var s' := Drop(s, p, listing);
    assert Outstanding(s') == Outstanding(s);
    DropRefs(s, p, listing);
    RegistryStable(s, s');
    FutureStable(s, s');
  }

  lemma DropRefs(s: State, p: nat, listing: bool)
    requires RefsOk(s) && p in s.proxies && (if listing then s.proxies[p].listed else s.proxies[p].held) > 0
    ensures var s' := Drop(s, p, listing);
      && RefsOk(s')
      && (forall q :: q in s'.proxies ==> q in s.proxies && s'.proxies[q].registry == s.proxies[q].registry)
      && (forall q :: q != p && q in s.proxies ==> q in s'.proxies)
      && (forall i :: 0 <= i < |s.calls| && Registered(s.calls[i]) ==> s.calls[i].origin.work.proxy in s'.proxies)
      && (forall q :: Handles(s', q) == Handles(s, q) - if q == p then 1 else 0)
  {
    var s' := Drop(s, p, listing);
    assert forall q :: RefsByCalls(s', q) == RefsByCalls(s, q);
    if p !in s'.proxies {
      UnusedByCalls(s.calls, p);
    }
  }

  lemma UnusedByCalls(cs: seq<Call>, p: nat)
    requires Tally(cs, OneIfHolds(p)) == 0
    ensures forall i :: 0 <= i < |cs| ==> !HoldsProxy(cs[i], p)
  {
    TallyZero(cs, OneIfHolds(p));
    forall i | 0 <= i < |cs| ensures !HoldsProxy(cs[i], p) {
      assert OneIfHolds(p)(cs[i]) == 0;
    }
  }

  // ----- Steps that add or move one call -----

  /** Post and Dispatch: the call stays waiting. */
  lemma MoveInv(s: State, id: nat, phase: Phase)
    requires Core(s) && id < |s.calls| && (phase.Queued? || phase.InFlight?)
    requires Waiting(s.calls[id])
    ensures Core(SetPhase(s, id, phase))
  {
    var s' := SetPhase(s, id, phase);
    assert CallOk(s.calls[id]);
    MoveCalls(s, id, phase);
    SameHold(s.calls, id, s'.calls[id]);
    SameUnfinished(s.calls, id, s'.calls[id]);
    RegistryStable(s, s');
    FutureStable(s, s');
  }

  lemma MoveCalls(s: State, id: nat, phase: Phase)
    requires CallsOk(s) && LoopOk(s) && id < |s.calls| && (phase.Queued? || phase.InFlight?)
    requires Waiting(s.calls[id])
    ensures CallsOk(SetPhase(s, id, phase)) && LoopOk(SetPhase(s, id, phase))
  {
    assert CallOk(s.calls[id]);
  }

  lemma PostListInv(s: State)
    requires Core(s) && s.bus.ready
    ensures Core(PostList(s))
  {
    PostListCalls(s);
    PostListCount(s);
    PostListRefs(s);
    PostListRegistry(s);
  }

  lemma PostListCount(s: State)
    requires CountOk(s)
    ensures CountOk(PostList(s))
  {
    TallyAppend(s.calls, Call(Listing, Queued, [], [], 0), OneIfUnfinished);
  }

  lemma PostListCalls(s: State)
    requires CallsOk(s) && LoopOk(s) && s.bus.ready
    ensures CallsOk(PostList(s)) && LoopOk(PostList(s))
  {
  }

  lemma PostListRefs(s: State)
    requires RefsOk(s)
    ensures RefsOk(PostList(s))
  {
    forall p ensures RefsByCalls(PostList(s), p) == RefsByCalls(s, p) {
      TallyAppend(s.calls, Call(Listing, Queued, [], [], 0), OneIfHolds(p));
    }
  }

  lemma PostListRegistry(s: State)
    requires RegistryOk(s) && FutureOk(s)
    ensures RegistryOk(PostList(s)) && FutureOk(PostList(s))
  {
    var s' := PostList(s);
    forall q, k | q in s'.proxies && k in s'.proxies[q].registry.callbacks ensures EntryOk(s', q, k) {
      assert EntryOk(s, q, k);
    }
    forall i | 0 <= i < |s'.calls| ensures KeyOk(s', i) && Holdable(s', Future(s'.calls[i]), Own(s'.calls[i])) {
      if i < |s.calls| { assert KeyOk(s, i) && Holdable(s, Future(s.calls[i]), Own(s.calls[i])); }
    }
  }

  /** prepareCallback keeps everything, whoever calls it, provided the proxy is held. */
  lemma PrepareInv(s: State, w: Work, phase: Phase)
    requires Core(s) && s.bus.ready && w.proxy in s.proxies && Holdable(s, Body(w), Some(w.proxy))
    requires phase.Prepared? || phase.InFlight?
    ensures Core(Prepare(s, w, phase))
  {
    CallEventsKeepInv(s.bus);
    PrepareCalls(s, w, phase);
    PrepareCount(s, w, phase);
    PrepareRegistry(s, w, phase);
    PrepareRefs(s, w, phase);
    PrepareFuture(s, w, phase);
  }

  lemma PrepareCalls(s: State, w: Work, phase: Phase)
    requires CallsOk(s) && LoopOk(s) && s.bus.ready && w.proxy in s.proxies
    requires phase.Prepared? || phase.InFlight?
    ensures CallsOk(Prepare(s, w, phase)) && LoopOk(Prepare(s, w, phase))
  {
  }

  lemma PrepareCount(s: State, w: Work, phase: Phase)
    requires CountOk(s) && w.proxy in s.proxies
    requires phase.Prepared? || phase.InFlight?
    ensures CountOk(Prepare(s, w, phase))
  {
    TallyAppend(s.calls, Prepare(s, w, phase).calls[|s.calls|], OneIfUnfinished);
    WrapUp(Outstanding(s));
  }

  lemma PrepareFuture(s: State, w: Work, phase: Phase)
    requires FutureOk(s) && w.proxy in s.proxies && Holdable(s, Body(w), Some(w.proxy))
    requires phase.Prepared? || phase.InFlight?
    ensures FutureOk(Prepare(s, w, phase))
  {
    var s' := Prepare(s, w, phase);
    assert forall q :: Handles(s', q) == Handles(s, q);
    forall i | 0 <= i < |s'.calls| ensures Holdable(s', Future(s'.calls[i]), Own(s'.calls[i])) {
      if i < |s.calls| { assert Holdable(s, Future(s.calls[i]), Own(s.calls[i])); }
    }
  }

  lemma PrepareRefs(s: State, w: Work, phase: Phase)
    requires RefsOk(s) && w.proxy in s.proxies
    requires phase.Prepared? || phase.InFlight?
    ensures RefsOk(Prepare(s, w, phase))
  {
    var s' := Prepare(s, w, phase);
    forall p ensures RefsByCalls(s', p) == RefsByCalls(s, p) + if p == w.proxy then 1 else 0 {
      TallyAppend(s.calls, s'.calls[|s.calls|], OneIfHolds(p));
    }
  }

  lemma PrepareRegistry(s: State, w: Work, phase: Phase)
    requires RegistryOk(s) && w.proxy in s.proxies
    requires phase.Prepared? || phase.InFlight?
    ensures RegistryOk(Prepare(s, w, phase))
  {
    var s' := Prepare(s, w, phase);
    forall q, k | q in s'.proxies && k in s'.proxies[q].registry.callbacks ensures EntryOk(s', q, k) {
      if k in s.proxies[q].registry.callbacks { assert EntryOk(s, q, k); }
    }
    forall i | 0 <= i < |s'.calls| ensures KeyOk(s', i) {
      if i < |s.calls| {
        assert KeyOk(s, i);
        if Registered(s.calls[i]) {
          assert EntryOk(s, s.calls[i].origin.work.proxy, s.calls[i].origin.counter.value);
        }
      }
    }
  }

  // ----- Steps of the loop thread -----

  /** The loop thread's own call changes, and it is the one being executed or none is. */
  lemma LoopStep(s: State, s': State, id: nat)
    requires CallsOk(s) && LoopOk(s) && id < |s.calls| && |s'.calls| == |s.calls|
    requires s'.calls == s.calls[id := s'.calls[id]] && CallOk(s'.calls[id])
    requires s'.bus.ready == s.bus.ready && s'.bus.thread == s.bus.thread && Executing(s.bus)
    requires s.loop == None || s.loop == Some(id)
    requires s'.loop == if Busy(s'.calls[id]) then Some(id) else None
    ensures CallsOk(s') && LoopOk(s')
  {
  }

  /** The lookup of executeCallBack finds the callback that this very call registered: any_cast
      never fails and operator[] never inserts. */
  lemma LookupFindsOwn(s: State, id: nat)
    requires RegistryOk(s) && id < |s.calls| && Registered(s.calls[id])
    ensures var origin := s.calls[id].origin;
      && origin.work.proxy in s.proxies && origin.work.Notifying?
      && Fetch(s.proxies[origin.work.proxy].registry, origin.counter.value, origin.work.kind)
         == Ok(Stored(origin.work.kind, id, Body(origin.work)))
  {
    var origin := s.calls[id].origin;
    assert KeyOk(s, id);
    assert EntryOk(s, origin.work.proxy, origin.counter.value);
  }

  /** Call id after its reply has been taken. */
  function Answered(c: Call, ok: bool): Call
    requires c.origin.Tracked?
  {
    if c.origin.work.Notifying?
    then c.(phase := Calling(Body(c.origin.work)), results := c.results + [ok], runs := c.runs + [ok])
    else c.(phase := Erased, results := c.results + [ok])
  }

  /** Result routing, one step: the reply of call id runs the callback of call id. */
  lemma CompleteRunsOwn(s: State, id: nat, ok: bool)
    requires Core(s) && id < |s.calls| && s.calls[id].origin.Tracked? && Waiting(s.calls[id])
    ensures Complete(s, id, ok) == s.(calls := s.calls[id := Answered(s.calls[id], ok)], loop := Some(id))
  {
    assert CallOk(s.calls[id]);
    if s.calls[id].origin.counter.Some? {
      LookupFindsOwn(s, id);
    }
  }

  lemma CompleteInv(s: State, id: nat, ok: bool)
    requires Core(s) && id < |s.calls| && s.calls[id].origin.Tracked? && Waiting(s.calls[id]) && LoopFree(s)
    ensures Core(Complete(s, id, ok))
  {
    var c := Answered(s.calls[id], ok);
    var s' := s.(calls := s.calls[id := c], loop := Some(id));
    CompleteRunsOwn(s, id, ok);
    assert CallOk(s.calls[id]);
    LoopStep(s, s', id);
    SameHold(s.calls, id, c);
    SameUnfinished(s.calls, id, c);
    RegistryStable(s, s');
    FutureStable(s, s');
  }

  lemma CompleteListInv(s: State, id: nat, list: Option<seq<string>>, body: seq<Work>)
    requires Core(s) && id < |s.calls| && s.calls[id].origin.Listing? && Waiting(s.calls[id]) && LoopFree(s)
    requires Holdable(s, body, None)
    ensures Core(CompleteList(s, id, list, body))
  {
    var s' := CompleteList(s, id, list, body);
    assert CallOk(s.calls[id]);
    LoopStep(s, s', id);
    SameHold(s.calls, id, s'.calls[id]);
    SameUnfinished(s.calls, id, s'.calls[id]);
    RegistryStable(s, s');
    forall i | 0 <= i < |s.calls| ensures Holdable(s', Future(s'.calls[i]), Own(s'.calls[i])) {
      assert Holdable(s, Future(s.calls[i]), Own(s.calls[i]));
    }
  }

  /** The callback moves on to its next call; the calls it has left are still held. */
  lemma AdvanceInv(s: State, id: nat)
    requires Core(s) && id < |s.calls| && s.calls[id].phase.Calling? && s.calls[id].phase.todo != []
    ensures var todo := s.calls[id].phase.todo;
      var s' := SetPhase(s, id, Calling(todo[1..]));
      && Core(s') && s'.bus.ready && todo[0].proxy in s'.proxies
      && Holdable(s', Body(todo[0]), Some(todo[0].proxy))
  {
    var todo := s.calls[id].phase.todo;
    var s' := SetPhase(s, id, Calling(todo[1..]));
    assert CallOk(s.calls[id]);
    LoopStep(s, s', id);
    SameHold(s.calls, id, s'.calls[id]);
    SameUnfinished(s.calls, id, s'.calls[id]);
    RegistryStable(s, s');
    AdvanceFuture(s, id);
  }

  lemma AdvanceFuture(s: State, id: nat)
    requires FutureOk(s) && RefsOk(s) && id < |s.calls| && s.calls[id].phase.Calling? && s.calls[id].phase.todo != []
    ensures var todo := s.calls[id].phase.todo;
      var s' := SetPhase(s, id, Calling(todo[1..]));
      FutureOk(s') && todo[0].proxy in s'.proxies && Holdable(s', Body(todo[0]), Some(todo[0].proxy))
  {
    var s' := SetPhase(s, id, Calling(s.calls[id].phase.todo[1..]));
    NeedsHead(s.calls[id].phase.todo, Own(s.calls[id]));
    assert Holdable(s, Future(s.calls[id]), Own(s.calls[id]));
    forall i | 0 <= i < |s.calls| ensures Holdable(s', Future(s'.calls[i]), Own(s'.calls[i])) {
      assert Holdable(s, Future(s.calls[i]), Own(s.calls[i]));
    }
  }

  lemma StartChildInv(s: State, id: nat)
    requires Core(s) && id < |s.calls| && s.calls[id].phase.Calling? && s.calls[id].phase.todo != []
    ensures Core(StartChild(s, id))
  {
    var todo := s.calls[id].phase.todo;
    AdvanceInv(s, id);
    PrepareInv(SetPhase(s, id, Calling(todo[1..])), todo[0], InFlight);
  }

  /** Erasing a key removes exactly this call's entry, also when its callback registered others. */
  lemma EraseKeyInv(s: State, id: nat)
    requires Core(s) && id < |s.calls| && s.calls[id].origin.Tracked? && s.calls[id].phase == Calling([])
    ensures Core(EraseKey(s, id))
  {
    assert CallOk(s.calls[id]);
    LookupFindsOwn(s, id);
    EraseCalls(s, id);
    EraseRegistry(s, id);
    EraseRefs(s, id);
    EraseFuture(s, id);
  }

  lemma EraseFuture(s: State, id: nat)
    requires FutureOk(s) && id < |s.calls| && s.calls[id].phase == Calling([])
    requires s.calls[id].origin.Tracked? && s.calls[id].origin.counter.Some?
    requires s.calls[id].origin.work.proxy in s.proxies
    ensures FutureOk(EraseKey(s, id))
  {
    var s' := EraseKey(s, id);
    assert forall q :: Handles(s', q) == Handles(s, q);
    FutureStable(s, s');
  }

  lemma EraseCalls(s: State, id: nat)
    requires CallsOk(s) && LoopOk(s) && CountOk(s) && id < |s.calls| && s.calls[id].phase == Calling([])
    requires s.calls[id].origin.Tracked? && s.calls[id].origin.counter.Some?
    requires s.calls[id].origin.work.proxy in s.proxies
    ensures CallsOk(EraseKey(s, id)) && LoopOk(EraseKey(s, id)) && CountOk(EraseKey(s, id))
  {
    var s' := EraseKey(s, id);
    assert CallOk(s.calls[id]);
    LoopStep(s, s', id);
    SameUnfinished(s.calls, id, s'.calls[id]);
  }

  lemma EraseRefs(s: State, id: nat)
    requires RefsOk(s) && id < |s.calls| && s.calls[id].phase == Calling([])
    requires s.calls[id].origin.Tracked? && s.calls[id].origin.counter.Some?
    requires s.calls[id].origin.work.proxy in s.proxies
    ensures RefsOk(EraseKey(s, id))
    ensures forall q :: Handles(EraseKey(s, id), q) == Handles(s, q)
  {
    SameHold(s.calls, id, EraseKey(s, id).calls[id]);
  }

  lemma EraseRegistry(s: State, id: nat)
    requires RegistryOk(s) && id < |s.calls| && s.calls[id].origin.Tracked? && s.calls[id].phase == Calling([])
    requires s.calls[id].origin.counter.Some? && s.calls[id].origin.work.proxy in s.proxies
    ensures RegistryOk(EraseKey(s, id))
  {
    var s' := EraseKey(s, id);
    assert KeyOk(s, id);
    forall q, k | q in s'.proxies && k in s'.proxies[q].registry.callbacks ensures EntryOk(s', q, k) {
      assert EntryOk(s, q, k);
    }
    forall i | 0 <= i < |s.calls| ensures KeyOk(s', i) {
      assert KeyOk(s, i);
    }
  }

  lemma EndListInv(s: State, id: nat)
    requires Core(s) && s.loop == Some(id) && id < |s.calls|
    requires s.calls[id].origin.Listing? && s.calls[id].phase == Calling([])
    ensures Core(EndList(s, id))
  {
    var s' := EndList(s, id);
    assert CallOk(s.calls[id]);
    LoopStep(s, s', id);
    SameHold(s.calls, id, s'.calls[id]);
    SameUnfinished(s.calls, id, s'.calls[id]);
    RegistryStable(s, s');
    FutureStable(s, s');
  }

  /** onAnyAsyncDone: the counter follows, and the last one out quits for a waiting `stop`. */
  lemma SettleInv(s: State, id: nat)
    requires Core(s) && id < |s.calls| && s.calls[id].phase.Erased?
    ensures Core(Settle(s, id))
  {
    var s' := Settle(s, id);
    assert CallOk(s.calls[id]);
    CallEventsKeepInv(s.bus);
    LoopStep(s, s', id);
    SettleCount(s, id);
    SameHold(s.calls, id, s'.calls[id]);
    RegistryStable(s, s');
    FutureStable(s, s');
  }

  lemma SettleCount(s: State, id: nat)
    requires CountOk(s) && BusInv(s.bus) && id < |s.calls| && Unfinished(s.calls[id])
    ensures CountOk(Settle(s, id)) && Outstanding(Settle(s, id)) == Outstanding(s) - 1
  {
    SettledOutstanding(s, id);
    WrapDown(Outstanding(s));
    SettledQuit(s.bus);
    assert Settle(s, id).bus == AsyncDone(s.bus);
  }

  lemma SettledOutstanding(s: State, id: nat)
    requires id < |s.calls| && Unfinished(s.calls[id])
    ensures Outstanding(s) > 0 && Outstanding(Settle(s, id)) == Outstanding(s) - 1
  {
    TallyUpdate(s.calls, id, Settle(s, id).calls[id], OneIfUnfinished);
  }

  /** The counter and the number of calls wrap alike. */
  lemma WrapDown(n: nat)
    requires n > 0
    ensures (n % WRAP - 1) % WRAP == (n - 1) % WRAP
    ensures n == 1 ==> n % WRAP == 1
  {
  }

  lemma WrapUp(n: nat)
    ensures (n % WRAP + 1) % WRAP == (n + 1) % WRAP
  {
  }

  /** Past the test of `stop`, the completion that brings the counter to zero quits. */
  lemma SettledQuit(b: Bus)
    requires BusInv(b)
    ensures AsyncDone(b).pending == (b.pending - 1) % WRAP && AsyncDone(b).stop == b.stop
    ensures b.quit ==> AsyncDone(b).quit
    ensures !b.stop.NotCalled? && b.pending == 1 ==> AsyncDone(b).quit
  {
    RunningMeansLiveLoop(b);
  }

  lemma ForgetInv(s: State, id: nat)
    requires Core(s) && s.loop == Some(id) && id < |s.calls| && s.calls[id].phase.Settled?
    requires s.calls[id].origin.Tracked?
    ensures Core(Forget(s, id))
  {
    var s' := Forget(s, id);
    assert CallOk(s.calls[id]);
    LoopStep(s, s', id);
    SameUnfinished(s.calls, id, s'.calls[id]);
    ForgetRefs(s, id);
    RegistryStable(s, s');
    FutureStable(s, s');
  }

  /** Releasing CallbackData keeps the account of references; if it destroys the proxy, no other
      unreleased call is on it. */
  lemma ForgetRefs(s: State, id: nat)
    requires RefsOk(s) && id < |s.calls| && s.calls[id].phase.Settled? && s.calls[id].origin.Tracked?
    ensures var s', p := Forget(s, id), s.calls[id].origin.work.proxy;
      && RefsOk(s') && !s'.crashed == !s.crashed
      && (forall q :: q in s'.proxies ==> q in s.proxies && s'.proxies[q].registry == s.proxies[q].registry)
      && (forall q :: q in s.proxies && q != p ==> q in s'.proxies)
      && (forall i :: 0 <= i < |s.calls| && Registered(s.calls[i]) ==> s.calls[i].origin.work.proxy in s'.proxies)
      && (forall q :: Handles(s', q) == Handles(s, q))
  {
    var s', p := Forget(s, id), s.calls[id].origin.work.proxy;
    forall q ensures RefsByCalls(s', q) == RefsByCalls(s, q) - if q == p then 1 else 0 {
      RefsUpdate(s.calls, id, s'.calls[id], q);
    }
    if p !in s'.proxies {
      UnusedByCalls(s'.calls, p);
      forall i | 0 <= i < |s.calls| && Registered(s.calls[i]) ensures s.calls[i].origin.work.proxy != p {
        assert !HoldsProxy(s'.calls[i], p);
      }
    }
  }

  /** Halting, and the agent's workers, change nothing else. */
  lemma AsideInv(s: State, workers: Workers, halted: Option<Halt>)
    requires Core(s)
    ensures Core(s.(workers := workers, halted := halted))
  {
    var s' := s.(workers := workers, halted := halted);
    RegistryStable(s, s');
    FutureStable(s, s');
    assert Outstanding(s') == Outstanding(s);
    assert forall p :: RefsByCalls(s', p) == RefsByCalls(s, p);
  }

  // ----- The Manager and its list calls -----

  /** The loop thread has ended: only the destructor's drain is left. */
  predicate Over(b: Bus) {
    b.thread.Gone? || b.thread.Draining? || b.thread.Destroyed?
  }

  predicate AnyListing(cs: seq<Call>) {
    exists i :: 0 <= i < |cs| && cs[i].origin.Listing?
  }

  /** While the loop thread lives, so does the Manager. */
  ghost predicate ManagerOk(s: State) {
    && (MANAGER in s.proxies && !Over(s.bus) ==> s.proxies[MANAGER].held > 0)
    && (MANAGER !in s.proxies && AnyListing(s.calls) ==> Over(s.bus))
  }

  /** A list is stored exactly for the list calls with a successful reply. */
  ghost predicate StoredOk(s: State) {
    forall i: nat :: i in s.stored <==>
      i < |s.calls| && s.calls[i].origin.Listing? && s.calls[i].results == [true]
  }

  ghost predicate Inv(s: State) {
    Core(s) && ManagerOk(s) && StoredOk(s)
  }

  /** What the invariant says about one step: it meets live proxies and its own callback. */
  ghost predicate Sound(s: State, step: Step)
    requires CanStep(s, step)
  {
    match step
    case Start(w) => w.proxy in s.proxies
    case Reply(id, ok) =>
      Complete(s, id, ok) == s.(calls := s.calls[id := Answered(s.calls[id], ok)], loop := Some(id))
    case Child => s.calls[s.loop.value].phase.todo[0].proxy in s.proxies
    case Return =>
      var o := s.calls[s.loop.value].origin;
      o.Tracked? ==> o.work.proxy in s.proxies && o.counter.Some?
    case Release =>
      var o := s.calls[s.loop.value].origin;
      o.Tracked? && o.work.proxy in s.proxies
    case _ => true
  }

  lemma StepSound(s: State, step: Step)
    requires Core(s) && CanStep(s, step)
    ensures Sound(s, step)
  {
    match step
    case Reply(id, ok) => CompleteRunsOwn(s, id, ok);
    case Child => AdvanceFuture(s, s.loop.value);
    case Return =>
      assert CallOk(s.calls[s.loop.value]);
      if s.calls[s.loop.value].origin.Tracked? { LookupFindsOwn(s, s.loop.value); }
    case Release => assert CallOk(s.calls[s.loop.value]);
    case _ =>
  }

  /** Nothing happens to the Manager or to the lists: its handles, the set of list calls and what they
      stored stay as they are. */
  ghost predicate Quiet(s: State, s': State) {
    && s'.bus.thread == s.bus.thread
    && (MANAGER in s'.proxies ==> MANAGER in s.proxies && s'.proxies[MANAGER].held == s.proxies[MANAGER].held)
    && (MANAGER in s.proxies && s.proxies[MANAGER].held > 0 ==> MANAGER in s'.proxies)
    && (AnyListing(s'.calls) ==> AnyListing(s.calls))
    && s'.stored == s.stored && |s'.calls| >= |s.calls|
    && (forall i :: 0 <= i < |s.calls| ==> s'.calls[i].origin == s.calls[i].origin)
    && (forall i :: 0 <= i < |s.calls| && s.calls[i].origin.Listing? ==> s'.calls[i].results == s.calls[i].results)
    && (forall i :: |s.calls| <= i < |s'.calls| ==> s'.calls[i].results == [])
  }

  lemma QuietKeeps(s: State, s': State)
    requires ManagerOk(s) && StoredOk(s) && Quiet(s, s')
    ensures ManagerOk(s') && StoredOk(s')
  {
  }

  lemma QuietPrepare(s: State, w: Work, phase: Phase)
    requires w.proxy in s.proxies
    ensures Quiet(s, Prepare(s, w, phase))
  {
  }

  lemma QuietPhase(s: State, id: nat, phase: Phase)
    requires id < |s.calls|
    ensures Quiet(s, SetPhase(s, id, phase))
  {
  }

  lemma QuietChild(s: State, id: nat)
    requires id < |s.calls| && s.calls[id].phase.Calling? && s.calls[id].phase.todo != []
    requires s.calls[id].phase.todo[0].proxy in s.proxies
    ensures Quiet(s, StartChild(s, id))
  {
    var todo := s.calls[id].phase.todo;
    QuietPhase(s, id, Calling(todo[1..]));
    QuietPrepare(SetPhase(s, id, Calling(todo[1..])), todo[0], InFlight);
  }

  lemma QuietReply(s: State, id: nat, ok: bool)
    requires id < |s.calls| && s.calls[id].origin.Tracked?
    ensures Quiet(s, s.(calls := s.calls[id := Answered(s.calls[id], ok)], loop := Some(id)))
  {
  }

  lemma QuietErase(s: State, id: nat)
    requires id < |s.calls| && s.calls[id].origin.Tracked? && s.calls[id].origin.counter.Some?
    requires s.calls[id].origin.work.proxy in s.proxies
    ensures Quiet(s, EraseKey(s, id))
  {
  }

  lemma QuietEnd(s: State, id: nat)
    requires id < |s.calls|
    ensures Quiet(s, EndList(s, id)) && Quiet(s, Settle(s, id))
  {
  }

  /** CallbackData gives up its reference; a proxy with a handle survives that. */
  lemma QuietForget(s: State, id: nat)
    requires RefsOk(s) && id < |s.calls| && s.calls[id].origin.Tracked? && !s.calls[id].phase.Released?
    ensures Quiet(s, Forget(s, id))
  {
    RefsUpdate(s.calls, id, s.calls[id], s.calls[id].origin.work.proxy);
  }

  /** The steps that carry one counted call along. */
  lemma QuietStep(s: State, step: Step)
    requires RefsOk(s) && CanStep(s, step) && Sound(s, step)
    requires step.Start? || step.Post? || step.Dispatch? || step.Reply? || step.Child? || step.Return? || step.Done?
      || step.Release?
    ensures Quiet(s, Apply(s, step))
  {
    match step
    case Start(w) => QuietPrepare(s, w, Prepared);
    case Post(id) => QuietPhase(s, id, Queued);
    case Dispatch(id) => QuietPhase(s, id, InFlight);
    case Reply(id, ok) => QuietReply(s, id, ok);
    case Child => QuietChild(s, s.loop.value);
    case Return =>
      if s.calls[s.loop.value].origin.Tracked? {
        QuietErase(s, s.loop.value);
      } else {
        QuietEnd(s, s.loop.value);
      }
    case Done => QuietEnd(s, s.loop.value);
    case Release => QuietForget(s, s.loop.value);
  }

  /** The list calls themselves: posted while the Manager lives, and stored when answered. */
  lemma ListStep(s: State, id: nat, list: Option<seq<string>>, body: seq<Work>)
    requires ManagerOk(s) && StoredOk(s) && id < |s.calls| && s.calls[id].origin.Listing? && s.calls[id].results == []
    ensures ManagerOk(CompleteList(s, id, list, body)) && StoredOk(CompleteList(s, id, list, body))
  {
    assert CompleteList(s, id, list, body).calls[id].results == [list.Some?];
  }

  lemma PostListStep(s: State)
    requires ManagerOk(s) && StoredOk(s) && MANAGER in s.proxies
    ensures ManagerOk(PostList(s)) && StoredOk(PostList(s))
  {
  }

  /** Handles and the bus: Connman's handle on the Manager is released only after its `stop`. */
  lemma HandleStep(s: State, step: Step)
    requires BusInv(s.bus) && RefsOk(s) && ManagerOk(s) && StoredOk(s) && CanStep(s, step)
    requires OnHandles(step)
    ensures ManagerOk(Apply(s, step)) && StoredOk(Apply(s, step))
  {
  }

  lemma ListReplyStep(s: State, step: Step)
    requires CallsOk(s) && ManagerOk(s) && StoredOk(s) && CanStep(s, step) && step.ListReply?
    ensures ManagerOk(Apply(s, step)) && StoredOk(Apply(s, step))
  {
    assert CallOk(s.calls[step.id]);
    ListStep(s, step.id, step.list, step.body);
  }

  lemma StartListStep(s: State, step: Step)
    requires ManagerOk(s) && StoredOk(s) && CanStep(s, step) && step.StartList?
    ensures ManagerOk(Apply(s, step)) && StoredOk(Apply(s, step))
  {
    PostListStep(s);
  }

  lemma AsideStep(s: State, step: Step)
    requires ManagerOk(s) && StoredOk(s) && CanStep(s, step) && Aside(step)
    ensures ManagerOk(Apply(s, step)) && StoredOk(Apply(s, step))
  {
  }

  lemma CarryingStep(s: State, step: Step)
    requires Core(s) && ManagerOk(s) && StoredOk(s) && CanStep(s, step)
    requires !OnHandles(step) && !step.ListReply? && !step.StartList? && !Aside(step)
    ensures ManagerOk(Apply(s, step)) && StoredOk(Apply(s, step))
  {
    StepSound(s, step);
    QuietStep(s, step);
    QuietKeeps(s, Apply(s, step));
  }

  lemma StepManager(s: State, step: Step)
    requires Core(s) && ManagerOk(s) && StoredOk(s) && CanStep(s, step)
    ensures ManagerOk(Apply(s, step)) && StoredOk(Apply(s, step))
  {
    if OnHandles(step) {
      HandleStep(s, step);
    } else if step.ListReply? {
      ListReplyStep(s, step);
    } else if step.StartList? {
      StartListStep(s, step);
    } else if Aside(step) {
      AsideStep(s, step);
    } else {
      CarryingStep(s, step);
    }
  }

  // ----- What a step does to the bus, and which steps leave the calls alone -----

  lemma SameCalls(s: State, step: Step)
    requires CanStep(s, step) && (OnHandles(step) || Aside(step))
    ensures Apply(s, step).calls == s.calls
  {
  }

  lemma StepHalt(s: State, step: Step)
    requires CanStep(s, step)
    ensures Apply(s, step).halted ==
      if step.Reject? then Some(Uncaught)
      else if step.Dangle? || step == Agent(UseFreedManager) then Some(ManagerFreed)
      else if step == Agent(UseFreedContext) then Some(ContextFreed)
      else None
  {
  }

  ghost predicate BusMoves(b: Bus, b': Bus, step: Step) {
    match step
    case BusStep(a) => CanAct(b, a) && b' == Act(b, a)
    case Start(_) => b' == AsyncStart(b)
    case Child => b' == AsyncStart(b)
    case Done => b' == AsyncDone(b)
    case _ => b' == b
  }

  lemma StepBus(s: State, step: Step)
    requires CanStep(s, step) && Sound(s, step)
    ensures BusMoves(s.bus, Apply(s, step).bus, step)
  {
  }

  // ----- All steps, all runs -----

  lemma StepInv(s: State, step: Step)
    requires Inv(s) && CanStep(s, step)
    ensures Inv(Apply(s, step))
  {
    StepCore(s, step);
    StepManager(s, step);
  }

  predicate OnHandles(step: Step) {
    step.BusStep? || step.NewProxy? || step.Enlist? || step.TakeHandle? || step.Delist? || step.DropHandle?
  }

  predicate Outward(step: Step) {
    step.Start? || step.StartList? || step.Post? || step.Dispatch?
  }

  predicate Aside(step: Step) {
    step.Reject? || step.Dangle? || step.Agent?
  }

  predicate Answers(step: Step) {
    step.Reply? || step.ListReply?
  }

  /** The steps of the bus and of the handles. */
  lemma HandleStepCore(s: State, step: Step)
    requires Core(s) && CanStep(s, step) && OnHandles(step)
    ensures Core(Apply(s, step))
  {
    match step
    case BusStep(a) => BusStepInv(s, a);
    case NewProxy(p) => CreateInv(s, p);
    case Enlist(p) => TakeInv(s, p, true);
    case TakeHandle(p) => TakeInv(s, p, false);
    case Delist(p) => DropInv(s, p, true);
    case DropHandle(p) => DropInv(s, p, false);
  }

  /** The steps that start a call or bring it to the wire. */
  lemma OutwardStepCore(s: State, step: Step)
    requires Core(s) && CanStep(s, step) && Outward(step)
    ensures Core(Apply(s, step))
  {
    match step
    case Start(w) => PrepareInv(s, w, Prepared);
    case StartList => PostListInv(s);
    case Post(id) => MoveInv(s, id, Queued);
    case Dispatch(id) => MoveInv(s, id, InFlight);
  }

  /** The steps beside the calls. */
  lemma AsideStepCore(s: State, step: Step)
    requires Core(s) && CanStep(s, step) && Aside(step)
    ensures Core(Apply(s, step))
  {
    AsideInv(s, Apply(s, step).workers, Apply(s, step).halted);
  }

  lemma AnswerStepCore(s: State, step: Step)
    requires Core(s) && CanStep(s, step) && Answers(step)
    ensures Core(Apply(s, step))
  {
    match step
    case Reply(id, ok) => CompleteInv(s, id, ok);
    case ListReply(id, list, body) => CompleteListInv(s, id, list, body);
  }

  /** The steps of the loop thread in the middle of a completion. */
  lemma LoopStepCore(s: State, step: Step)
    requires Core(s) && CanStep(s, step) && (step.Child? || step.Return? || step.Done? || step.Release?)
    ensures Core(Apply(s, step))
  {
    var id := s.loop.value;
    assert CallOk(s.calls[id]);
    match step
    case Child => StartChildInv(s, id);
    case Return =>
      if s.calls[id].origin.Tracked? {
        EraseKeyInv(s, id);
      } else {
        EndListInv(s, id);
      }
    case Done => SettleInv(s, id);
    case Release => ForgetInv(s, id);
  }

  lemma StepCore(s: State, step: Step)
    requires Core(s) && CanStep(s, step)
    ensures Core(Apply(s, step))
  {
    if OnHandles(step) {
      HandleStepCore(s, step);
    } else if Outward(step) {
      OutwardStepCore(s, step);
    } else if Aside(step) {
      AsideStepCore(s, step);
    } else if Answers(step) {
      AnswerStepCore(s, step);
    } else {
      LoopStepCore(s, step);
    }
  }

  /** Every state reached from some good state. */
  lemma {:induction false} RunInv(s: State, steps: seq<Step>)
    requires Inv(s) && Feasible(s, steps)
    ensures Inv(Run(s, steps))
    decreases |steps|
  {
    if steps != [] {
      StepInv(s, steps[0]);
      RunInv(Apply(s, steps[0]), steps[1..]);
    }
  }

  /** Every reachable state: counter conservation, no lost quit, registry, references. */
  lemma Reachable(steps: seq<Step>)
    requires Feasible(INIT, steps)
    ensures Inv(Run(INIT, steps))
  {
    InitInv();
    RunInv(INIT, steps);
  }
}
