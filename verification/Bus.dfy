/** The shared `DBus` object of src/dbus/gdbus.cpp: the counter of outstanding calls, the loop
    thread, and the two-sided decision (last completion or `stop`) to quit the loop. */
module Bus {
  import opened Wrappers

  const WRAP: int := 0x1_0000_0000  // `pending_calls_` is a 32-bit unsigned int
  type UInt32 = n: int | 0 <= n < WRAP

  /** Where the GLib thread is: the lambda of `start()`, then the drain in the destructor. */
  datatype ThreadPc = Unborn | Booting | LoopMade | InLoop | LoopLeft | Gone | Draining | Destroyed

  /** Where the thread calling `stop()` is: past the locked region (Cleared), having read a running loop
      (Looked), having read a zero counter too (Decided), past the quit or past a test that failed
      (Checked), joined (Returned). */
  datatype StopPc = NotCalled | Cleared | Looked | Decided | Checked | Returned

  /** `loop` is `loop_`: None for nullptr, Some(b) for a GMainLoop whose is-running flag is b.
      `announced` says that on_loop_started has been queued and has not run, `ready` that start()
      has returned, `quit` records that g_main_loop_quit has been called. */
  datatype Bus = Bus(running: bool, pending: UInt32, loop: Option<bool>, thread: ThreadPc,
                     announced: bool, ready: bool, stop: StopPc, quit: bool)

  const FRESH := Bus(false, 0, None, Unborn, false, false, NotCalled, false)

  /** g_main_loop_quit. */
  function Quit(b: Bus): Bus {
    b.(loop := Some(false), quit := true)
  }

  /** onAnyAsyncStart: one atomic increment, no lock. */
  function AsyncStart(b: Bus): Bus {
    b.(pending := (b.pending + 1) % WRAP)
  }

  /** onAnyAsyncDone: the whole body runs under the bus mutex. */
  function AsyncDone(b: Bus): Bus {
    var after := b.(pending := (b.pending - 1) % WRAP);
    if b.pending == 1 && !b.running && b.loop.Some? then Quit(after) else after
  }

  /** The part of `stop` after the locked region, with no mutex: the loop is read, then the counter, and
      then the loop is quit, each on its own. */
  function StopReadsLoop(b: Bus): Bus {
    b.(stop := if b.loop == Some(true) then Looked else Checked)
  }

  function StopReadsCounter(b: Bus): Bus {
    b.(stop := if b.pending == 0 then Decided else Checked)
  }

  function StopQuits(b: Bus): Bus {
    Quit(b).(stop := Checked)
  }

  /** The atomic actions of the constructor, of the loop thread, of `stop` and of the destructor. */
  datatype BusAct =
    | Spawn | MakeLoop | RunLoop | Announce | StartReturns
    | StopClear | StopLook | StopCount | StopQuit | LoopReturns | FreeLoop | JoinReturns
    | BeginDrain | EndDrain

  predicate CanAct(b: Bus, a: BusAct) {
    match a
    case Spawn => b.thread.Unborn?
    case MakeLoop => b.thread.Booting?
    case RunLoop => b.thread.LoopMade?
    case Announce => b.thread.InLoop? && b.announced
    case StartReturns => b.running && !b.ready
    case StopClear => b.ready && (b.stop.NotCalled? || b.stop.Returned?)
                   && !b.thread.Draining? && !b.thread.Destroyed?
    case StopLook => b.stop.Cleared?
    case StopCount => b.stop.Looked?
    case StopQuit => b.stop.Decided?
    case LoopReturns => b.thread.InLoop? && b.loop == Some(false)
    case FreeLoop => b.thread.LoopLeft? && !b.stop.Looked? && !b.stop.Decided?  // not under the test of `stop`
    case JoinReturns => b.stop.Checked? && b.thread.Gone?
    case BeginDrain => b.stop.Returned? && b.thread.Gone?
    case EndDrain => b.thread.Draining?
  }

  function Act(b: Bus, a: BusAct): Bus
    requires CanAct(b, a)
  {
    match a
    case Spawn => b.(thread := Booting, announced := true)
    case MakeLoop => b.(thread := LoopMade, loop := Some(false))
    case RunLoop => b.(thread := InLoop, loop := Some(true))
    case Announce => b.(running := true, announced := false)
    case StartReturns => b.(ready := true)
    case StopClear => b.(running := false, stop := Cleared)
    case StopLook => StopReadsLoop(b)
    case StopCount => StopReadsCounter(b)
    case StopQuit => StopQuits(b)
    case LoopReturns => b.(thread := LoopLeft)
    case FreeLoop => b.(thread := Gone, loop := None)
    case JoinReturns => b.(stop := Returned)
    case BeginDrain => b.(thread := Draining)
    case EndDrain => b.(thread := Destroyed)
  }

  /** A thread is iterating the main context, so queued events and replies can be handled. */
  predicate Executing(b: Bus) {
    b.thread.InLoop? || b.thread.Draining?
  }

  predicate Past(t: ThreadPc) {
    t.LoopLeft? || t.Gone? || t.Draining? || t.Destroyed?
  }

  /** The invariant behind "running_ implies a live, running loop". */
  ghost predicate BusInv(b: Bus) {
    && (b.loop.Some? <==> b.thread.LoopMade? || b.thread.InLoop? || b.thread.LoopLeft?)
    && (b.thread.InLoop? ==> b.loop == Some(!b.quit))
    && (b.thread.LoopLeft? || b.thread.LoopMade? ==> b.loop == Some(false))
    && (b.quit ==> b.thread.InLoop? || Past(b.thread))
    && (Past(b.thread) ==> b.quit)
    && (b.running ==> b.thread.InLoop? && !b.quit && !b.announced)
    && (b.announced ==> !b.ready)
    && (b.ready ==> b.thread.InLoop? || Past(b.thread))
    && (!b.stop.NotCalled? ==> b.ready && !b.running)
    && (b.quit ==> !b.stop.NotCalled?)
    && (b.stop.Looked? || b.stop.Decided? ==> b.loop.Some?)
    && (b.thread.Draining? || b.thread.Destroyed? ==> b.stop.Returned?)
    && (b.stop.Returned? ==> b.thread.Gone? || b.thread.Draining? || b.thread.Destroyed?)
    && (b.ready && b.stop.NotCalled? ==> b.running)
    && (!b.ready ==> b.pending == 0)
  }

  /** Every action of every thread keeps the invariant; the two calls from the proxies do too. */
  lemma BusStepKeepsInv(b: Bus, a: BusAct)
    requires BusInv(b) && CanAct(b, a)
    ensures BusInv(Act(b, a))
  {
  }

  lemma CallEventsKeepInv(b: Bus)
    requires BusInv(b) && b.ready
    ensures BusInv(AsyncStart(b)) && BusInv(AsyncDone(b))
  {
  }

  /** "running_ implies a live, running loop", with what follows from it for `stop`. */
  lemma RunningMeansLiveLoop(b: Bus)
    requires BusInv(b)
    ensures b.running ==> b.loop == Some(true)
    ensures (b.stop.Cleared? || b.stop.Looked? || b.stop.Decided?) && !b.quit ==> b.loop == Some(true)
    ensures b.loop.None? && b.ready ==> b.quit
  {
  }

  /** A GMainLoop: only its is-running flag matters here. */
  class MainLoop {
    var isRunning: bool

    constructor ()
      ensures !isRunning
    {
      isRunning := false;
    }

    method Quit()
      modifies this
      ensures !isRunning
    {
      isRunning := false;
    }
  }

  /** The object itself. The ghost fields record what the C++ object does not store: where its
      threads are and whether a quit has been requested. */
  class DBus {
    var running: bool
    var pendingCalls: UInt32
    var loop: MainLoop?
    ghost var thread: ThreadPc
    ghost var announced: bool
    ghost var ready: bool
    ghost var stop: StopPc
    ghost var quit: bool

    ghost function Loop(): Option<bool>
      reads this, loop
    {
      if loop == null then None else Some(loop.isRunning)
    }

    ghost function State(): Bus
      reads this, loop
    {
      Bus(running, pendingCalls, Loop(), thread, announced, ready, stop, quit)
    }

    constructor ()
      ensures State() == FRESH && BusInv(State())
    {
      running, pendingCalls, loop := false, 0, null;
      thread, announced, ready, stop, quit := Unborn, false, false, NotCalled, false;
    }

    method OnAnyAsyncStart()
      modifies this`pendingCalls
      ensures State() == AsyncStart(old(State()))
    {
      pendingCalls := (pendingCalls + 1) % WRAP;
    }

    method OnAnyAsyncDone()
      modifies this`pendingCalls, this`quit, loop
      ensures State() == AsyncDone(old(State()))
    {
      var before := pendingCalls;
      pendingCalls := (pendingCalls - 1) % WRAP;
      if before == 1 && !running && loop != null {
        loop.Quit();
        quit := true;
      }
    }

    /** The callback start() posts; `Announce` in the steps. */
    method OnLoopStarted()
      requires CanAct(State(), Announce)
      modifies this
      ensures State() == Act(old(State()), Announce)
    {
      running, announced := true, false;
    }

    /** start()'s thread body up to the loop, and after the loop returned. */
    method MakeAndRunLoop()
      requires CanAct(State(), BusAct.MakeLoop)
      modifies this
      ensures State() == Act(Act(old(State()), BusAct.MakeLoop), BusAct.RunLoop)
      ensures fresh(loop)
    {
      loop := new MainLoop();
      loop.isRunning := true;
      thread := InLoop;
    }

    method AfterLoop()
      requires CanAct(State(), BusAct.FreeLoop)
      modifies this
      ensures State() == Act(old(State()), BusAct.FreeLoop)
    {
      loop := null;
      thread := Gone;
    }

    /** stop(), first region (under the mutex). */
    method ClearRunning()
      requires CanAct(State(), StopClear)
      modifies this`running, this`stop
      ensures State() == Act(old(State()), StopClear)
    {
      running := false;
      stop := Cleared;
    }

    /** stop() after the mutex: the two operands of the test ... */
    method ReadLoop() returns (isRunning: bool)
      requires CanAct(State(), StopLook)
      modifies this`stop
      ensures State() == Act(old(State()), StopLook) && (isRunning <==> stop.Looked?)
    {
      isRunning := loop != null && loop.isRunning;
      stop := if isRunning then Looked else Checked;
    }

    method ReadCounter() returns (isZero: bool)
      requires CanAct(State(), StopCount)
      modifies this`stop
      ensures State() == Act(old(State()), StopCount) && (isZero <==> stop.Decided?)
    {
      isZero := pendingCalls == 0;
      stop := if isZero then Decided else Checked;
    }

    /** ... and the quit. */
    method QuitLoop()
      requires CanAct(State(), StopQuit) && loop != null
      modifies this`stop, this`quit, loop
      ensures State() == Act(old(State()), StopQuit)
    {
      loop.Quit();
      quit := true;
      stop := Checked;
    }
  }
}
