/** The lock regions around the library's operations and the user's callbacks (gproxy.hpp:50-60,
    182-187, 203-217, 280-292; gconnman_manager.cpp:286-310, 355-379, 418-443; gdbus.cpp:13-18, 63-67). */
module Locks {
  import opened Wrappers

  /** A proxy's `cb_mtx_` and `mtx_`, the Manager's own `mtx_`, the DBus `mtx_`, and the log's mutex. */
  datatype Lock = Callbacks(p: nat) | Manager | Proxy(p: nat) | Bus | Log

  /** The one order in which locks nest. */
  function Rank(l: Lock): nat {
    match l
    case Callbacks(_) => 0
    case Manager => 1
    case Proxy(_) => 2
    case Bus => 3
    case Log => 4
  }

  /** Which kind of user code starts. */
  datatype Entry = Completion | ListChanged | AgentRequest | PropertyChanged(p: nat)

  /** Await blocks on a condition variable or a join until the loop thread has at most `left` acts to go. */
  datatype Act = Acquire(lock: Lock) | Release(lock: Lock) | Enter(entry: Entry) | Await(left: nat)

  // ----- The library's operations as sequences of lock acts -----

  /** What user code may call, in or out of a callback. */
  datatype Api = Properties(p: nat)           // properties()
               | StartCall(p: nat)            // any asynchronous call: prepareCallback, then a post
               | OnPropertyChanged(p: nat)    // registers the per-property callback
               | ManagerAccess                // lists, and every setter of a Manager callback

  /** What the loop thread dispatches; the callback, when set, makes these calls. `logged` counts the
      log lines written on the way: a failed reply, or the unknown keys of the properties. `threw`
      says that the callback ended in an exception, which is logged. */
  datatype Event = LoopStarted
                 | Posted(logged: nat)
                 | AsyncDone(p: nat, logged: nat, callback: Option<seq<Api>>)
                 | PropertySignal(p: nat, logged: nat, callback: Option<seq<Api>>)
                 | ListEvent(logged: nat, callback: Option<seq<Api>>)
                 | ErrorReport(callback: Option<seq<Api>>, threw: bool)

  /** What other threads do: user threads, and the workers that ask the user for input. Construct is any
      proxy or agent construction or signal connection: posted to the loop and waited for. AwaitStart
      and Construct wait for a point of the loop thread's program, Stop for its end. */
  datatype Task = Call(api: Api) | AwaitStart(left: nat) | Construct(left: nat) | Stop
                | AskUser(callback: Option<seq<Api>>, threw: bool)

  function Guarded(l: Lock): seq<Act> {
    [Acquire(l), Release(l)]
  }

  function ApiActs(api: Api): seq<Act> {
    match api
    case Properties(p) => Guarded(Proxy(p))
    case StartCall(p) => Guarded(Proxy(p))
    case OnPropertyChanged(p) => Guarded(Callbacks(p))
    case ManagerAccess => Guarded(Manager)
  }

  function CallsActs(calls: seq<Api>): seq<Act> {
    if calls == [] then [] else ApiActs(calls[0]) + CallsActs(calls[1..])
  }

  function UserCode(entry: Entry, callback: Option<seq<Api>>): seq<Act> {
    if callback.None? then [] else [Enter(entry)] + CallsActs(callback.value)
  }

  function LogLines(n: nat): seq<Act> {
    if n == 0 then [] else Guarded(Log) + LogLines(n - 1)
  }

  /** The callback runs between an unlock and a relock; the pending count is lowered under both locks. */
  function CompletionActs(p: nat, callback: Option<seq<Api>>): seq<Act> {
    [Acquire(Proxy(p))]
    + (if callback.None? then []
       else [Release(Proxy(p))] + UserCode(Completion, callback) + [Acquire(Proxy(p))])
    + Guarded(Bus) + [Release(Proxy(p))]
  }

  /** The per-property callback runs under `cb_mtx_`. */
  function SignalActs(p: nat, callback: Option<seq<Api>>): seq<Act> {
    if callback.None? then []
    else [Acquire(Callbacks(p))] + UserCode(PropertyChanged(p), callback) + [Release(Callbacks(p))]
  }

  /** The Manager's two agent handlers: look the service up, then ask the user. */
  function AgentActs(callback: Option<seq<Api>>, threw: bool): seq<Act> {
    Guarded(Manager) + UserCode(AgentRequest, callback) + LogLines(if threw then 1 else 0)
  }

  function EventActs(e: Event): seq<Act> {
    match e
    case LoopStarted => Guarded(Bus)
    case Posted(logged) => LogLines(logged)
    case AsyncDone(p, logged, callback) => LogLines(logged) + CompletionActs(p, callback)
    case PropertySignal(p, logged, callback) => LogLines(logged) + SignalActs(p, callback)
    case ListEvent(logged, callback) =>
      [Acquire(Manager)] + LogLines(logged) + [Release(Manager)] + UserCode(ListChanged, callback)
    case ErrorReport(callback, threw) => LogLines(1) + AgentActs(callback, threw)
  }

  function TaskActs(t: Task): seq<Act> {
    match t
    case Call(api) => ApiActs(api)
    case AwaitStart(left) => Guarded(Bus) + [Await(left)] + Guarded(Bus)
    case Construct(left) => [Await(left)]
    case Stop => Guarded(Bus) + [Await(0)]
    case AskUser(callback, threw) => AgentActs(callback, threw)
  }

  function LoopProgram(events: seq<Event>): seq<Act> {
    if events == [] then [] else EventActs(events[0]) + LoopProgram(events[1..])
  }

  function ThreadProgram(tasks: seq<Task>): seq<Act> {
    if tasks == [] then [] else TaskActs(tasks[0]) + ThreadProgram(tasks[1..])
  }

  /** The per-property callback of a proxy registers a new callback on that same proxy. */
  predicate SelfRegisters(e: Event) {
    e.PropertySignal? && e.callback.Some? && OnPropertyChanged(e.p) in e.callback.value
  }

  // ----- The discipline of one thread -----

  function Holding(held: set<Lock>, a: Act): set<Lock> {
    match a
    case Acquire(l) => held + {l}
    case Release(l) => held - {l}
    case Enter(_) => held
    case Await(_) => held
  }

  /** The locks held after these acts. */
  function HeldAfter(held: set<Lock>, acts: seq<Act>): set<Lock>
    decreases |acts|
  {
    if acts == [] then held else HeldAfter(Holding(held, acts[0]), acts[1..])
  }

  /** `l` may be taken on top of `h`: in rank order, except that a per-property callback on the loop
      thread may register on another proxy. */
  predicate Above(onLoop: bool, h: Lock, l: Lock) {
    Rank(h) < Rank(l) || (onLoop && h.Callbacks? && l.Callbacks? && h != l)
  }

  /** One act keeps the discipline: locks nest in order, only held locks are released, user code starts
      with no lock held, except the per-property callback with just its own, and nobody waits for the
      loop thread with a lock held, the loop thread least of all. */
  ghost predicate Proper(onLoop: bool, held: set<Lock>, a: Act) {
    match a
    case Acquire(l) => forall h :: h in held ==> Above(onLoop, h, l)
    case Release(l) => l in held
    case Enter(entry) => held == if entry.PropertyChanged? then {Callbacks(entry.p)} else {}
    case Await(_) => !onLoop && held == {}
  }

  ghost predicate Disciplined(onLoop: bool, held: set<Lock>, acts: seq<Act>)
    decreases |acts|
  {
    acts == [] || (Proper(onLoop, held, acts[0]) && Disciplined(onLoop, Holding(held, acts[0]), acts[1..]))
  }

  /** The acts never take a lock the thread already holds. */
  ghost predicate NeverRetakes(held: set<Lock>, acts: seq<Act>)
    decreases |acts|
  {
    acts == [] || (!(acts[0].Acquire? && acts[0].lock in held) && NeverRetakes(Holding(held, acts[0]), acts[1..]))
  }

  lemma {:induction false} Join(onLoop: bool, held: set<Lock>, a: seq<Act>, b: seq<Act>)
    ensures HeldAfter(held, a + b) == HeldAfter(HeldAfter(held, a), b)
    ensures Disciplined(onLoop, held, a + b)
      <==> Disciplined(onLoop, held, a) && Disciplined(onLoop, HeldAfter(held, a), b)
    ensures NeverRetakes(held, a + b) <==> NeverRetakes(held, a) && NeverRetakes(HeldAfter(held, a), b)
    decreases |a|
  {
    if a == [] {
      assert a + b == b;
    } else {
      assert (a + b)[1..] == a[1..] + b;
      Join(onLoop, Holding(held, a[0]), a[1..], b);
    }
  }

  lemma GuardedHolds(onLoop: bool, held: set<Lock>, l: Lock)
    ensures l !in held ==> HeldAfter(held, Guarded(l)) == held
    ensures Disciplined(onLoop, held, Guarded(l)) <==> forall h :: h in held ==> Above(onLoop, h, l)
    ensures NeverRetakes(held, Guarded(l)) <==> l !in held
  {
    var acts := Guarded(l);
    assert acts[1..] == [Release(l)] && acts[1..][1..] == [];
    assert HeldAfter(held + {l} - {l}, []) == held + {l} - {l};
    assert HeldAfter(held + {l}, [Release(l)]) == held + {l} - {l};
    assert l !in held ==> held + {l} - {l} == held;
    assert Disciplined(onLoop, held + {l}, acts[1..]);
    assert NeverRetakes(held + {l}, acts[1..]);
  }

  /** The one lock that a call of the library takes. */
  function LockOf(api: Api): Lock {
    match api
    case Properties(p) => Proxy(p)
    case StartCall(p) => Proxy(p)
    case OnPropertyChanged(p) => Callbacks(p)
    case ManagerAccess => Manager
  }

  /** Which calls a callback can make under `held`: none at all forbidden when nothing is held, only the
      self-registration under a per-property callback. */
  predicate CallsFree(held: set<Lock>, calls: seq<Api>) {
    forall c :: c in calls && c.OnPropertyChanged? ==> Callbacks(c.p) !in held
  }

  lemma {:induction false} CallsHold(onLoop: bool, held: set<Lock>, calls: seq<Api>)
    requires held == {} || (onLoop && exists p :: held == {Callbacks(p)})
    ensures CallsFree(held, calls) ==> HeldAfter(held, CallsActs(calls)) == held
    ensures CallsFree(held, calls) <==> Disciplined(onLoop, held, CallsActs(calls))
    ensures CallsFree(held, calls) <==> NeverRetakes(held, CallsActs(calls))
  {
    if calls != [] {
      var first, rest := calls[0], calls[1..];
      var l := LockOf(first);
      assert ApiActs(first) == Guarded(l);
      GuardedHolds(onLoop, held, l);
      Join(onLoop, held, Guarded(l), CallsActs(rest));
      assert calls == [first] + rest;
      CallsHold(onLoop, held, rest);
    }
  }

  lemma {:induction false} LogLinesHold(onLoop: bool, held: set<Lock>, n: nat)
    requires forall h :: h in held ==> Rank(h) < Rank(Log)
    ensures HeldAfter(held, LogLines(n)) == held
    ensures Disciplined(onLoop, held, LogLines(n)) && NeverRetakes(held, LogLines(n))
  {
    if n > 0 {
      GuardedHolds(onLoop, held, Log);
      Join(onLoop, held, Guarded(Log), LogLines(n - 1));
      LogLinesHold(onLoop, held, n - 1);
    }
  }

  /** User code that starts with no lock held is disciplined, whatever it calls. */
  lemma FreeCallback(onLoop: bool, entry: Entry, callback: Option<seq<Api>>)
    requires !entry.PropertyChanged?
    ensures HeldAfter({}, UserCode(entry, callback)) == {}
    ensures Disciplined(onLoop, {}, UserCode(entry, callback)) && NeverRetakes({}, UserCode(entry, callback))
  {
    if callback.Some? {
      CallsHold(onLoop, {}, callback.value);
      assert UserCode(entry, callback)[1..] == CallsActs(callback.value);
    }
  }

  lemma Single(onLoop: bool, held: set<Lock>, a: Act)
    ensures HeldAfter(held, [a]) == Holding(held, a)
    ensures Disciplined(onLoop, held, [a]) <==> Proper(onLoop, held, a)
    ensures NeverRetakes(held, [a]) <==> !(a.Acquire? && a.lock in held)
  {
    assert [a][1..] == [];
  }

  lemma CompletionHolds(p: nat, callback: Option<seq<Api>>)
    ensures HeldAfter({}, CompletionActs(p, callback)) == {}
    ensures Disciplined(true, {}, CompletionActs(p, callback)) && NeverRetakes({}, CompletionActs(p, callback))
  {
    var lock, unlock := [Acquire(Proxy(p))], [Release(Proxy(p))];
    var held := {Proxy(p)};
    Single(true, {}, Acquire(Proxy(p)));
    Single(true, held, Release(Proxy(p)));
    assert {} + {Proxy(p)} == held && held - {Proxy(p)} == {};
    var user := UserCode(Completion, callback);
    FreeCallback(true, Completion, callback);
    var middle := if callback.None? then [] else unlock + user + lock;
    Join(true, held, unlock, user);
    Join(true, held, unlock + user, lock);
    GuardedHolds(true, held, Bus);
    Join(true, {}, lock, middle);
    Join(true, {}, lock + middle, Guarded(Bus));
    Join(true, {}, lock + middle + Guarded(Bus), unlock);
  }

  lemma SignalHolds(p: nat, callback: Option<seq<Api>>)
    ensures !SelfRegisters(PropertySignal(p, 0, callback)) ==> HeldAfter({}, SignalActs(p, callback)) == {}
    ensures !SelfRegisters(PropertySignal(p, 0, callback)) <==> Disciplined(true, {}, SignalActs(p, callback))
    ensures !SelfRegisters(PropertySignal(p, 0, callback)) <==> NeverRetakes({}, SignalActs(p, callback))
  {
    if callback.Some? {
      var calls := callback.value;
      var held := {Callbacks(p)};
      var lock, enter, unlock := [Acquire(Callbacks(p))], [Enter(PropertyChanged(p))], [Release(Callbacks(p))];
      Single(true, {}, Acquire(Callbacks(p)));
      Single(true, held, Enter(PropertyChanged(p)));
      Single(true, held, Release(Callbacks(p)));
      assert {} + held == held && held - held == {};
      CallsHold(true, held, calls);
      Join(true, held, enter, CallsActs(calls));
      Join(true, {}, lock, enter + CallsActs(calls));
      Join(true, {}, lock + (enter + CallsActs(calls)), unlock);
    }
  }

  lemma ListEventHolds(logged: nat, callback: Option<seq<Api>>)
    ensures var acts := EventActs(ListEvent(logged, callback));
            HeldAfter({}, acts) == {} && Disciplined(true, {}, acts) && NeverRetakes({}, acts)
  {
    var held := {Lock.Manager};
    var lock, unlock := [Acquire(Manager)], [Release(Manager)];
    Single(true, {}, Acquire(Manager));
    Single(true, held, Release(Manager));
    assert {} + held == held && held - held == {};
    LogLinesHold(true, held, logged);
    FreeCallback(true, ListChanged, callback);
    Join(true, {}, lock, LogLines(logged));
    Join(true, {}, lock + LogLines(logged), unlock);
    Join(true, {}, lock + LogLines(logged) + unlock, UserCode(ListChanged, callback));
  }

  lemma AgentHolds(onLoop: bool, callback: Option<seq<Api>>, threw: bool)
    ensures var acts := AgentActs(callback, threw);
            HeldAfter({}, acts) == {} && Disciplined(onLoop, {}, acts) && NeverRetakes({}, acts)
  {
    GuardedHolds(onLoop, {}, Manager);
    FreeCallback(onLoop, AgentRequest, callback);
    LogLinesHold(onLoop, {}, if threw then 1 else 0);
    Join(onLoop, {}, Guarded(Manager), UserCode(AgentRequest, callback));
    Join(onLoop, {}, Guarded(Manager) + UserCode(AgentRequest, callback), LogLines(if threw then 1 else 0));
  }

  /** Waiting for the loop thread with nothing held. */
  lemma AwaitHolds(left: nat)
    ensures HeldAfter({}, [Await(left)]) == {} && Disciplined(false, {}, [Await(left)])
  {
    Single(false, {}, Await(left));
  }

  /** Every event is disciplined except exactly a self-registering per-property callback. */
  lemma EventHolds(e: Event)
    ensures !SelfRegisters(e) ==> HeldAfter({}, EventActs(e)) == {}
    ensures !SelfRegisters(e) <==> Disciplined(true, {}, EventActs(e))
    ensures !SelfRegisters(e) <==> NeverRetakes({}, EventActs(e))
  {
    match e {
      case LoopStarted => GuardedHolds(true, {}, Bus);
      case Posted(logged) => LogLinesHold(true, {}, logged);
      case AsyncDone(p, logged, callback) =>
        LogLinesHold(true, {}, logged);
        CompletionHolds(p, callback);
        Join(true, {}, LogLines(logged), CompletionActs(p, callback));
      case PropertySignal(p, logged, callback) =>
        LogLinesHold(true, {}, logged);
        SignalHolds(p, callback);
        Join(true, {}, LogLines(logged), SignalActs(p, callback));
      case ListEvent(logged, callback) => ListEventHolds(logged, callback);
      case ErrorReport(callback, threw) =>
        LogLinesHold(true, {}, 1);
        AgentHolds(true, callback, threw);
        Join(true, {}, LogLines(1), AgentActs(callback, threw));
    }
  }

  // ----- What each event does, lock by lock and callback by callback -----

  /** A lock taken or user code entered, with the locks held at that point. */
  datatype Observed = Takes(lock: Lock, held: set<Lock>) | Runs(entry: Entry, held: set<Lock>)

  function Seen(held: set<Lock>, acts: seq<Act>): seq<Observed>
    decreases |acts|
  {
    if acts == [] then [] else
      (match acts[0]
       case Acquire(l) => [Takes(l, held)]
       case Enter(entry) => [Runs(entry, held)]
       case _ => [])
      + Seen(Holding(held, acts[0]), acts[1..])
  }

  lemma {:induction false} SeenJoin(held: set<Lock>, a: seq<Act>, b: seq<Act>)
    ensures Seen(held, a + b) == Seen(held, a) + Seen(HeldAfter(held, a), b)
    decreases |a|
  {
    if a == [] {
      assert a + b == b;
    } else {
      assert (a + b)[1..] == a[1..] + b;
      SeenJoin(Holding(held, a[0]), a[1..], b);
    }
  }

  lemma SeenSingle(held: set<Lock>, a: Act)
    ensures a.Acquire? ==> Seen(held, [a]) == [Takes(a.lock, held)]
    ensures a.Enter? ==> Seen(held, [a]) == [Runs(a.entry, held)]
    ensures a.Release? || a.Await? ==> Seen(held, [a]) == []
  {
    assert [a][1..] == [];
    assert Seen(Holding(held, a), []) == [];
  }

  lemma GuardedSeen(held: set<Lock>, l: Lock)
    ensures Seen(held, Guarded(l)) == [Takes(l, held)]
  {
    SeenSingle(held, Acquire(l));
    SeenSingle(held + {l}, Release(l));
    Single(true, held, Acquire(l));
    SeenJoin(held, [Acquire(l)], [Release(l)]);
    assert [Acquire(l)] + [Release(l)] == Guarded(l);
  }

  /** A callback takes one lock per call, on top of what was held when it started. */
  function CallsTake(held: set<Lock>, calls: seq<Api>): seq<Observed> {
    seq(|calls|, i requires 0 <= i < |calls| => Takes(LockOf(calls[i]), held))
  }

  function LogsTake(held: set<Lock>, n: nat): seq<Observed> {
    seq(n, _ => Takes(Log, held))
  }

  /** One call: its lock, and then as before. */
  lemma CallSeen(held: set<Lock>, call: Api, rest: seq<Act>)
    requires LockOf(call) !in held
    ensures Seen(held, ApiActs(call) + rest) == [Takes(LockOf(call), held)] + Seen(held, rest)
  {
    var l := LockOf(call);
    assert ApiActs(call) == Guarded(l);
    GuardedSeen(held, l);
    GuardedHolds(true, held, l);
    SeenJoin(held, Guarded(l), rest);
  }

  lemma {:induction false} CallsSeen(held: set<Lock>, calls: seq<Api>)
    requires forall h :: h in held ==> h.Callbacks?
    requires CallsFree(held, calls)
    ensures Seen(held, CallsActs(calls)) == CallsTake(held, calls)
  {
    if calls != [] {
      var first, rest := calls[0], calls[1..];
      assert calls == [first] + rest;
      CallSeen(held, first, CallsActs(rest));
      CallsSeen(held, rest);
      assert CallsTake(held, calls) == [Takes(LockOf(first), held)] + CallsTake(held, rest);
    }
  }

  lemma {:induction false} LogsSeen(held: set<Lock>, n: nat)
    requires Log !in held
    ensures Seen(held, LogLines(n)) == LogsTake(held, n)
  {
    if n > 0 {
      GuardedSeen(held, Log);
      GuardedHolds(true, held, Log);
      SeenJoin(held, Guarded(Log), LogLines(n - 1));
      LogsSeen(held, n - 1);
      assert LogsTake(held, n) == [Takes(Log, held)] + LogsTake(held, n - 1);
    }
  }

  /** A callback that is set runs once with `held`, and makes its calls. */
  function Callback(held: set<Lock>, entry: Entry, callback: Option<seq<Api>>): seq<Observed> {
    if callback.None? then [] else [Runs(entry, held)] + CallsTake(held, callback.value)
  }

  lemma CallbackSeen(held: set<Lock>, entry: Entry, callback: Option<seq<Api>>)
    requires forall h :: h in held ==> h.Callbacks?
    requires callback.Some? ==> CallsFree(held, callback.value)
    ensures Seen(held, UserCode(entry, callback)) == Callback(held, entry, callback)
  {
    if callback.Some? {
      CallsSeen(held, callback.value);
      SeenSingle(held, Enter(entry));
      Single(true, held, Enter(entry));
      SeenJoin(held, [Enter(entry)], CallsActs(callback.value));
    }
  }

  /** A completion runs a set callback exactly once, with nothing held, and takes the bus lock once, with
      the proxy's lock held. */
  lemma CompletionSeen(p: nat, callback: Option<seq<Api>>)
    ensures Seen({}, CompletionActs(p, callback)) ==
      (if callback.None? then [] else [Takes(Proxy(p), {})] + Callback({}, Completion, callback))
      + [Takes(Proxy(p), {}), Takes(Bus, {Proxy(p)})]
  {
    var lock, unlock := [Acquire(Proxy(p))], [Release(Proxy(p))];
    var held := {Proxy(p)};
    SeenSingle({}, Acquire(Proxy(p)));
    SeenSingle(held, Release(Proxy(p)));
    Single(true, {}, Acquire(Proxy(p)));
    Single(true, held, Release(Proxy(p)));
    assert {} + {Proxy(p)} == held && held - {Proxy(p)} == {};
    var user := UserCode(Completion, callback);
    FreeCallback(true, Completion, callback);
    CallbackSeen({}, Completion, callback);
    var middle := if callback.None? then [] else unlock + user + lock;
    Join(true, held, unlock, user);
    Join(true, held, unlock + user, lock);
    SeenJoin(held, unlock, user);
    SeenJoin(held, unlock + user, lock);
    Join(true, {}, lock, middle);
    SeenJoin({}, lock, middle);
    GuardedHolds(true, held, Bus);
    GuardedSeen(held, Bus);
    Join(true, {}, lock + middle, Guarded(Bus));
    SeenJoin({}, lock + middle, Guarded(Bus));
    SeenJoin({}, lock + middle + Guarded(Bus), unlock);
  }

  /** A property signal runs the property's callback exactly once, under `cb_mtx_` alone. */
  lemma SignalSeen(p: nat, callback: Option<seq<Api>>)
    requires !SelfRegisters(PropertySignal(p, 0, callback))
    ensures Seen({}, SignalActs(p, callback)) ==
      if callback.None? then []
      else [Takes(Callbacks(p), {})] + Callback({Callbacks(p)}, PropertyChanged(p), callback)
  {
    if callback.Some? {
      var held := {Callbacks(p)};
      var lock, unlock := [Acquire(Callbacks(p))], [Release(Callbacks(p))];
      var user := UserCode(PropertyChanged(p), callback);
      SeenSingle({}, Acquire(Callbacks(p)));
      Single(true, {}, Acquire(Callbacks(p)));
      assert {} + held == held;
      CallbackSeen(held, PropertyChanged(p), callback);
      SeenJoin({}, lock, user);
      SeenJoin({}, lock + user, unlock);
      SeenSingle(HeldAfter({}, lock + user), Release(Callbacks(p)));
    }
  }

  lemma ListLockSeen(logged: nat)
    ensures var region := [Acquire(Manager)] + LogLines(logged) + [Release(Manager)];
            HeldAfter({}, region) == {} && Seen({}, region) == [Takes(Manager, {})] + LogsTake({Manager}, logged)
  {
    var held := {Lock.Manager};
    var lock, unlock := [Acquire(Manager)], [Release(Manager)];
    Single(true, {}, Acquire(Manager));
    Single(true, held, Release(Manager));
    SeenSingle({}, Acquire(Manager));
    SeenSingle(held, Release(Manager));
    assert {} + held == held && held - held == {};
    LogLinesHold(true, held, logged);
    LogsSeen(held, logged);
    Join(true, {}, lock, LogLines(logged));
    SeenJoin({}, lock, LogLines(logged));
    Join(true, {}, lock + LogLines(logged), unlock);
    SeenJoin({}, lock + LogLines(logged), unlock);
  }

  /** A list event, a snapshot or a signal, runs the callback once, after the Manager's lock is released. */
  lemma ListSeen(logged: nat, callback: Option<seq<Api>>)
    ensures Seen({}, EventActs(ListEvent(logged, callback))) ==
      [Takes(Manager, {})] + LogsTake({Manager}, logged) + Callback({}, ListChanged, callback)
  {
    var region := [Acquire(Manager)] + LogLines(logged) + [Release(Manager)];
    ListLockSeen(logged);
    CallbackSeen({}, ListChanged, callback);
    SeenJoin({}, region, UserCode(ListChanged, callback));
  }

  /** An agent handler looks the service up under the Manager's lock and asks the user once, with nothing held. */
  lemma AgentSeen(callback: Option<seq<Api>>, threw: bool)
    ensures Seen({}, AgentActs(callback, threw)) ==
      [Takes(Manager, {})] + Callback({}, AgentRequest, callback) + LogsTake({}, if threw then 1 else 0)
  {
    GuardedHolds(true, {}, Manager);
    GuardedSeen({}, Manager);
    FreeCallback(true, AgentRequest, callback);
    CallbackSeen({}, AgentRequest, callback);
    LogsSeen({}, if threw then 1 else 0);
    Join(true, {}, Guarded(Manager), UserCode(AgentRequest, callback));
    SeenJoin({}, Guarded(Manager), UserCode(AgentRequest, callback));
    SeenJoin({}, Guarded(Manager) + UserCode(AgentRequest, callback), LogLines(if threw then 1 else 0));
  }

  /** No per-property callback re-registers on its own proxy. */
  predicate NoneSelfRegisters(events: seq<Event>) {
    forall e :: e in events ==> !SelfRegisters(e)
  }

  lemma NoneSelfRegistersSplit(events: seq<Event>)
    requires events != []
    ensures NoneSelfRegisters(events) <==> !SelfRegisters(events[0]) && NoneSelfRegisters(events[1..])
  {
    assert events == [events[0]] + events[1..];
  }

  lemma {:induction false} LoopHolds(events: seq<Event>)
    ensures NoneSelfRegisters(events) ==> HeldAfter({}, LoopProgram(events)) == {}
    ensures NoneSelfRegisters(events) <==> Disciplined(true, {}, LoopProgram(events))
    ensures NoneSelfRegisters(events) <==> NeverRetakes({}, LoopProgram(events))
  {
    if events != [] {
      EventHolds(events[0]);
      Join(true, {}, EventActs(events[0]), LoopProgram(events[1..]));
      LoopHolds(events[1..]);
      NoneSelfRegistersSplit(events);
    }
  }

  lemma {:induction false} ThreadHolds(tasks: seq<Task>)
    ensures HeldAfter({}, ThreadProgram(tasks)) == {} && Disciplined(false, {}, ThreadProgram(tasks))
  {
    if tasks != [] {
      var t := tasks[0];
      match t {
        case Call(api) =>
          CallsHold(false, {}, [api]);
          assert [api][1..] == [] && ApiActs(api) + [] == ApiActs(api);
        case AwaitStart(left) =>
          GuardedHolds(false, {}, Bus);
          AwaitHolds(left);
          Join(false, {}, Guarded(Bus), [Await(left)]);
          Join(false, {}, Guarded(Bus) + [Await(left)], Guarded(Bus));
        case Construct(left) => AwaitHolds(left);
        case Stop =>
          GuardedHolds(false, {}, Bus);
          AwaitHolds(0);
          Join(false, {}, Guarded(Bus), [Await(0)]);
        case AskUser(callback, threw) => AgentHolds(false, callback, threw);
      }
      Join(false, {}, TaskActs(t), ThreadProgram(tasks[1..]));
      ThreadHolds(tasks[1..]);
    }
  }

  // ----- Threads running together -----

  datatype Thread = Thread(held: set<Lock>, todo: seq<Act>)

  /** Thread 0 is the loop thread. */
  type State = seq<Thread>

  predicate Free(s: State, l: Lock) {
    forall i :: 0 <= i < |s| ==> l !in s[i].held
  }

  predicate CanStep(s: State, i: nat) {
    && i < |s| && s[i].todo != []
    && (s[i].todo[0].Acquire? ==> Free(s, s[i].todo[0].lock))
    && (s[i].todo[0].Await? ==> |s[0].todo| <= s[i].todo[0].left)
  }

  function Apply(s: State, i: nat): State
    requires CanStep(s, i)
  {
    s[i := Thread(Holding(s[i].held, s[i].todo[0]), s[i].todo[1..])]
  }

  function Start(events: seq<Event>, threads: seq<seq<Task>>): State {
    [Thread({}, LoopProgram(events))]
    + seq(|threads|, i requires 0 <= i < |threads| => Thread({}, ThreadProgram(threads[i])))
  }

  /** Any interleaving: `run` names the thread taking each step. */
  function After(start: State, run: seq<nat>): Option<State> {
    if run == [] then Some(start)
    else
      var before := After(start, run[..|run| - 1]);
      var i := run[|run| - 1];
      if before.Some? && CanStep(before.value, i) then Some(Apply(before.value, i)) else None
  }

  ghost predicate Exclusive(s: State) {
    forall i, j :: 0 <= i < j < |s| ==> s[i].held !! s[j].held
  }

  ghost predicate Behaves(onLoop: bool, t: Thread) {
    Disciplined(onLoop, t.held, t.todo) && HeldAfter(t.held, t.todo) == {}
  }

  ghost predicate AllBehave(s: State) {
    forall i :: 0 <= i < |s| ==> Behaves(i == 0, s[i])
  }

  lemma StepBehaves(s: State, i: nat)
    requires Exclusive(s) && AllBehave(s) && CanStep(s, i)
    ensures Exclusive(Apply(s, i)) && AllBehave(Apply(s, i))
  {
    var a := s[i].todo[0];
    assert Behaves(i == 0, s[i]);
    assert Holding(s[i].held, a) <= s[i].held + if a.Acquire? then {a.lock} else {};
  }

  lemma {:induction false} RunBehaves(start: State, run: seq<nat>)
    requires Exclusive(start) && AllBehave(start) && After(start, run).Some?
    ensures Exclusive(After(start, run).value) && AllBehave(After(start, run).value)
  {
    if run != [] {
      var last := |run| - 1;
      RunBehaves(start, run[..last]);
      StepBehaves(After(start, run[..last]).value, run[last]);
    }
  }

  lemma LoopStarts(events: seq<Event>)
    requires NoneSelfRegisters(events)
    ensures Behaves(true, Thread({}, LoopProgram(events)))
  {
    LoopHolds(events);
  }

  lemma ThreadStarts(tasks: seq<Task>)
    ensures Behaves(false, Thread({}, ThreadProgram(tasks)))
  {
    ThreadHolds(tasks);
  }

  lemma StartBehaves(events: seq<Event>, threads: seq<seq<Task>>)
    requires NoneSelfRegisters(events)
    ensures Exclusive(Start(events, threads)) && AllBehave(Start(events, threads))
  {
    var s := Start(events, threads);
    LoopStarts(events);
    forall i | 0 <= i < |s|
      ensures Behaves(i == 0, s[i]) && s[i].held == {}
    {
      if i > 0 {
        assert s[i] == Thread({}, ThreadProgram(threads[i - 1]));
        ThreadStarts(threads[i - 1]);
      }
    }
  }

  /** How far a blocked thread is from a runnable one along the chain of lock holders, or through the
      loop thread it waits for. */
  function Distance(s: State, i: nat): nat
    requires i < |s| && s[i].todo != []
  {
    match s[i].todo[0]
    case Acquire(l) => 2 * (4 - Rank(l)) + (if i == 0 then 0 else 1)
    case Await(_) => 10
    case Release(_) => 0
    case Enter(_) => 0
  }

  /** From any unfinished thread, the chain of holders leads to a thread that can run. */
  lemma {:induction false} SomeoneRuns(s: State, i: nat) returns (j: nat)
    requires Exclusive(s) && AllBehave(s) && i < |s| && s[i].todo != []
    ensures CanStep(s, j)
    decreases Distance(s, i)
  {
    if CanStep(s, i) {
      return i;
    }
    if s[i].todo[0].Await? {
      assert Behaves(i == 0, s[i]) && Behaves(true, s[0]);
      j := SomeoneRuns(s, 0);
      return;
    }
    var wanted := s[i].todo[0].lock;
    var holder :| 0 <= holder < |s| && wanted in s[holder].held;
    assert Behaves(i == 0, s[i]) && Behaves(holder == 0, s[holder]);
    assert s[holder].todo != [];
    if CanStep(s, holder) {
      return holder;
    }
    assert Above(holder == 0, wanted, s[holder].todo[0].lock);
    assert holder == 0 && i == 0 ==> !Above(true, wanted, wanted);
    j := SomeoneRuns(s, holder);
  }

  /** The acts still to run in all threads. */
  function Left(s: State): nat {
    if s == [] then 0 else Left(s[..|s| - 1]) + |s[|s| - 1].todo|
  }

  lemma {:induction false} LeftUpdate(s: State, i: nat, t: Thread)
    requires i < |s|
    ensures Left(s[i := t]) == Left(s) - |s[i].todo| + |t.todo|
  {
    var last := |s| - 1;
    if i == last {
      assert s[i := t][..last] == s[..last];
    } else {
      LeftUpdate(s[..last], i, t);
      assert s[i := t][..last] == s[..last][i := t];
    }
  }

  /** No deadlock: whatever the events, the callbacks' calls, the threads and the interleaving, as long as
      no per-property callback re-registers on its own proxy, some thread can always run until all are
      done, and every step brings the end nearer. */
  lemma NoDeadlock(events: seq<Event>, threads: seq<seq<Task>>, run: seq<nat>)
    requires NoneSelfRegisters(events)
    requires After(Start(events, threads), run).Some?
    ensures var s := After(Start(events, threads), run).value;
            || (forall i :: 0 <= i < |s| ==> s[i].todo == [])
            || (exists j: nat :: CanStep(s, j))
    ensures var s := After(Start(events, threads), run).value;
            forall j: nat :: CanStep(s, j) ==> Left(Apply(s, j)) < Left(s)
  {
    var s := After(Start(events, threads), run).value;
    StartBehaves(events, threads);
    RunBehaves(Start(events, threads), run);
    if i :| 0 <= i < |s| && s[i].todo != [] {
      var j := SomeoneRuns(s, i);
    }
    forall j: nat | CanStep(s, j)
      ensures Left(Apply(s, j)) < Left(s)
    {
      LeftUpdate(s, j, Thread(Holding(s[j].held, s[j].todo[0]), s[j].todo[1..]));
    }
  }

  /** In every reachable state a thread about to enter completion, list or agent callbacks holds no lock,
      and one about to enter a per-property callback holds only that proxy's callback lock. */
  lemma CallbacksStartUnlocked(events: seq<Event>, threads: seq<seq<Task>>, run: seq<nat>, i: nat)
    requires NoneSelfRegisters(events)
    requires After(Start(events, threads), run).Some?
    requires i < |After(Start(events, threads), run).value|
    ensures var t := After(Start(events, threads), run).value[i];
            t.todo != [] && t.todo[0].Enter? ==>
              t.held == if t.todo[0].entry.PropertyChanged? then {Callbacks(t.todo[0].entry.p)} else {}
  {
    StartBehaves(events, threads);
    RunBehaves(Start(events, threads), run);
    assert Behaves(i == 0, After(Start(events, threads), run).value[i]);
  }

  // ----- The exception -----

  /** A loop thread doomed to retake a lock it holds stays doomed, whatever the other threads do. */
  lemma {:induction false} DoomedStays(start: State, run: seq<nat>)
    requires start != [] && !NeverRetakes(start[0].held, start[0].todo) && After(start, run).Some?
    ensures var s := After(start, run).value;
            s != [] && !NeverRetakes(s[0].held, s[0].todo)
  {
    if run != [] {
      DoomedStays(start, run[..|run| - 1]);
    }
  }

  /** If any per-property callback re-registers on its own proxy, the loop thread never finishes, in any
      interleaving; together with NoDeadlock this is exactly when the library can hang. */
  lemma SelfRegistrationHangs(events: seq<Event>, threads: seq<seq<Task>>, run: seq<nat>, e: Event)
    requires e in events && SelfRegisters(e)
    requires After(Start(events, threads), run).Some?
    ensures After(Start(events, threads), run).value != []
    ensures After(Start(events, threads), run).value[0].todo != []
  {
    LoopHolds(events);
    DoomedStays(Start(events, threads), run);
  }

  ghost predicate AllDone(s: State) {
    forall i :: 0 <= i < |s| ==> s[i].todo == []
  }

  lemma {:induction false} AfterFirst(s: State, i: nat, rest: seq<nat>)
    requires CanStep(s, i)
    ensures After(s, [i] + rest) == After(Apply(s, i), rest)
  {
    var run := [i] + rest;
    if rest == [] {
      assert run[..|run| - 1] == [];
    } else {
      assert run[..|run| - 1] == [i] + rest[..|rest| - 1];
      AfterFirst(s, i, rest[..|rest| - 1]);
    }
  }

  lemma {:induction false} Finish(s: State) returns (run: seq<nat>)
    requires Exclusive(s) && AllBehave(s)
    ensures After(s, run).Some? && AllDone(After(s, run).value)
    decreases Left(s)
  {
    run := [];
    if i :| 0 <= i < |s| && s[i].todo != [] {
      var j := SomeoneRuns(s, i);
      LeftUpdate(s, j, Thread(Holding(s[j].held, s[j].todo[0]), s[j].todo[1..]));
      StepBehaves(s, j);
      var rest := Finish(Apply(s, j));
      AfterFirst(s, j, rest);
      run := [j] + rest;
    }
  }

  /** The threads can all run to their end exactly when no per-property callback re-registers on its own
      proxy. */
  lemma FinishesExactlyWhen(events: seq<Event>, threads: seq<seq<Task>>)
    ensures (exists run :: After(Start(events, threads), run).Some? && AllDone(After(Start(events, threads), run).value))
      <==> NoneSelfRegisters(events)
  {
    if e :| e in events && SelfRegisters(e) {
      forall run | After(Start(events, threads), run).Some?
        ensures !AllDone(After(Start(events, threads), run).value)
      {
        SelfRegistrationHangs(events, threads, run, e);
      }
    } else {
      StartBehaves(events, threads);
      var run := Finish(Start(events, threads));
    }
  }
}
