/** The agent's method calls (gconnman_agent.cpp:110-231): each invocation is answered in dispatch, or
    handed to a detached worker that posts the answer back to the loop. */
module AgentLedger {
  import opened Wrappers
  import opened AgentReply

  /** How a user's callback ends. */
  datatype Outcome<T> = Returns(value: T) | Throws

  /** What goes back on the bus: a value (with a dictionary for RequestInput), the Retry error, or
      "Unknown method". */
  datatype Message = Value(body: Option<Reply>) | RetryError | NotSupported

  /** Who will touch the invocation next. */
  datatype Holder = Dispatch | Worker | Posted(result: Reply) | Replied | Nobody

  /** An invocation: its reference count, what was sent for it, how often the user's callback ran. */
  datatype Record = Record(refs: int, sent: seq<Message>, asked: nat, holder: Holder)

  /** Which of the user's callbacks are set. */
  datatype Installed = Installed(requestInput: bool, cancel: bool, release: bool, reportError: bool)

  const ARRIVED := Record(1, [], 0, Dispatch)

  // ----- What each piece of code does to one invocation -----

  /** Sending a reply consumes one reference. */
  function Send(r: Record, m: Message): Record {
    r.(sent := r.sent + [m], refs := r.refs - 1)
  }

  function Ask(r: Record, isSet: bool): Record {
    if isSet then r.(asked := r.asked + 1) else r
  }

  predicate Deferred(h: Installed, name: string) {
    name == "RequestInput" && h.requestInput
  }

  function Dispatched(h: Installed, r: Record, name: string, verdict: Outcome<bool>): Record {
    if Deferred(h, name) then r.(refs := r.refs + 1, holder := Worker)
    else if name == "Cancel" then Send(Ask(r, h.cancel), Value(None)).(holder := Nobody)
    else if name == "Release" then Send(Ask(r, h.release), Value(None)).(holder := Nobody)
    else if name == "ReportError" then
      Send(Ask(r, h.reportError), if h.reportError && verdict == Returns(true) then RetryError else Value(None))
        .(holder := Nobody)
    else Send(r, NotSupported).(holder := Nobody)
  }

  /** The worker's thread: the callback's result is posted with the worker's reference, an exception
      only drops that reference. */
  function Worked(r: Record, outcome: Outcome<Reply>): Record {
    var asked := Ask(r, true);
    match outcome
    case Returns(result) => asked.(holder := Posted(result))
    case Throws => asked.(refs := r.refs - 1, holder := Nobody)
  }

  function Answered(r: Record): Record
    requires r.holder.Posted?
  {
    Send(r, Value(Some(r.holder.result))).(holder := Replied)
  }

  function Destroyed(r: Record): Record {
    r.(refs := r.refs - 1, holder := Nobody)
  }

  // ----- The objects -----

  class Invocation {
    var refs: int
    var sent: seq<Message>
    var asked: nat
    var holder: Holder

    constructor ()
      ensures View() == ARRIVED
    {
      refs, sent, asked, holder := 1, [], 0, Dispatch;
    }

    function View(): Record
      reads this
    {
      Record(refs, sent, asked, holder)
    }

    method Return(m: Message)
      modifies this
      ensures View() == Send(old(View()), m)
    {
      sent := sent + [m];
      refs := refs - 1;
    }

    /** The worker's thread. */
    method RunWorker(outcome: Outcome<Reply>)
      modifies this
      ensures View() == Worked(old(View()), outcome)
    {
      asked := asked + 1;
      if outcome.Returns? {
        holder := Posted(outcome.value);
      } else {
        refs := refs - 1;
        holder := Nobody;
      }
    }

    /** The posted source's callback. */
    method RunPosted()
      requires holder.Posted?
      modifies this
      ensures View() == Answered(old(View()))
    {
      var result := holder.result;
      Return(Value(Some(result)));
      holder := Replied;
    }

    /** The posted source's destroy notification. */
    method Destroy()
      modifies this
      ensures View() == Destroyed(old(View()))
    {
      refs := refs - 1;
      holder := Nobody;
    }
  }

  class Agent {
    var installed: Installed

    constructor (h: Installed)
      ensures installed == h
    {
      installed := h;
    }

    method DispatchMethodCall(invocation: Invocation, name: string, verdict: Outcome<bool>)
      modifies invocation
      ensures invocation.View() == Dispatched(installed, old(invocation.View()), name, verdict)
    {
      if name == "RequestInput" && installed.requestInput {
        invocation.refs := invocation.refs + 1;
        invocation.holder := Worker;
        return;
      }
      if name == "Cancel" {
        if installed.cancel {
          invocation.asked := invocation.asked + 1;
        }
        invocation.Return(Value(None));
        invocation.holder := Nobody;
        return;
      }
      if name == "Release" {
        if installed.release {
          invocation.asked := invocation.asked + 1;
        }
        invocation.Return(Value(None));
        invocation.holder := Nobody;
        return;
      }
      if name == "ReportError" {
        var retry := false;
        if installed.reportError {
          invocation.asked := invocation.asked + 1;
          if verdict.Returns? {
            retry := verdict.value;
          }
        }
        invocation.Return(if retry then RetryError else Value(None));
        invocation.holder := Nobody;
        return;
      }
      invocation.Return(NotSupported);
      invocation.holder := Nobody;
    }
  }

  // ----- Runs with any number of open invocations -----

  /** Arrive is the whole dispatch of a new invocation; the other steps name an earlier one. */
  datatype Step = Arrive(name: string, verdict: Outcome<bool>)
                | Finish(i: nat, outcome: Outcome<Reply>)
                | Run(i: nat)
                | Destroy(i: nat)

  predicate CanStep(s: seq<Record>, a: Step) {
    match a
    case Arrive(_, _) => true
    case Finish(i, _) => i < |s| && s[i].holder.Worker?
    case Run(i) => i < |s| && s[i].holder.Posted?
    case Destroy(i) => i < |s| && s[i].holder.Replied?
  }

  function Apply(h: Installed, s: seq<Record>, a: Step): seq<Record>
    requires CanStep(s, a)
  {
    match a
    case Arrive(name, verdict) => s + [Dispatched(h, ARRIVED, name, verdict)]
    case Finish(i, outcome) => s[i := Worked(s[i], outcome)]
    case Run(i) => s[i := Answered(s[i])]
    case Destroy(i) => s[i := Destroyed(s[i])]
  }

  /** The steps can be taken in this order, from no invocation to `s`. */
  ghost predicate Reaches(h: Installed, run: seq<Step>, s: seq<Record>) {
    if run == [] then s == []
    else
      var last := |run| - 1;
      exists before :: Reaches(h, run[..last], before) && CanStep(before, run[last]) && s == Apply(h, before, run[last])
  }

  /** The calls that arrived, in order. */
  function Calls(run: seq<Step>): seq<(string, Outcome<bool>)> {
    if run == [] then []
    else
      var last := run[|run| - 1];
      Calls(run[..|run| - 1]) + if last.Arrive? then [(last.name, last.verdict)] else []
  }

  /** The user's callback behind a call that is not deferred, if it is set. */
  predicate Notifies(h: Installed, name: string) {
    || (name == "Cancel" && h.cancel)
    || (name == "Release" && h.release)
    || (name == "ReportError" && h.reportError)
  }

  /** The one answer to a call that is answered in dispatch: RequestInput without a handler is unknown. */
  function Immediate(h: Installed, name: string, verdict: Outcome<bool>): Message {
    if name in {"Cancel", "Release"} then Value(None)
    else if name != "ReportError" then NotSupported
    else if h.reportError && verdict == Returns(true) then RetryError
    else Value(None)
  }

  /** The account of invocation `i` after a run, told from the history alone. */
  ghost predicate Settled(h: Installed, run: seq<Step>, i: nat, r: Record)
    requires i < |Calls(run)|
  {
    var (name, verdict) := Calls(run)[i];
    if name != "RequestInput" || !h.requestInput then
      r == Record(0, [Immediate(h, name, verdict)], if Notifies(h, name) then 1 else 0, Nobody)
    else if Finish(i, Throws) in run then
      r == Record(1, [], 1, Nobody)
    else if exists result :: Finish(i, Returns(result)) in run then
      && r.asked == 1
      && if Run(i) !in run then
           && r.sent == [] && r.refs == 2 && r.holder.Posted? && Finish(i, Returns(r.holder.result)) in run
           && Destroy(i) !in run
         else
           && (exists result :: Finish(i, Returns(result)) in run && r.sent == [Value(Some(result))])
           && r.holder == (if Destroy(i) in run then Nobody else Replied)
           && r.refs == if Destroy(i) in run then 0 else 1
    else r == Record(2, [], 0, Worker) && Run(i) !in run && Destroy(i) !in run
  }

  /** No step of the run names an invocation that has not arrived. */
  ghost predicate NamesArrived(run: seq<Step>, n: nat) {
    forall a :: a in run && !a.Arrive? ==> a.i < n
  }

  /** A worker's callback ends at most once, so it cannot both return and throw, nor return twice. */
  ghost predicate FinishesOnce(run: seq<Step>) {
    forall i: nat, o, p :: Finish(i, o) in run && Finish(i, p) in run ==> o == p
  }

  ghost predicate Book(h: Installed, run: seq<Step>, s: seq<Record>) {
    && |Calls(run)| == |s|
    && NamesArrived(run, |s|)
    && FinishesOnce(run)
    && forall i :: 0 <= i < |s| ==> Settled(h, run, i, s[i])
  }

  lemma ArriveKeepsBook(h: Installed, run: seq<Step>, s: seq<Record>, a: Step)
    requires Book(h, run, s) && a.Arrive?
    ensures Book(h, run + [a], Apply(h, s, a))
  {
    var after := run + [a];
    assert after[..|after| - 1] == run;
    forall i | 0 <= i <= |s|
      ensures Settled(h, after, i, Apply(h, s, a)[i])
    {
      SameHistory(h, run, a, i);
    }
  }

  /** A step that does not name `i` leaves its history as it was. */
  lemma SameHistory(h: Installed, run: seq<Step>, a: Step, i: nat)
    requires a.Arrive? || a.i != i
    ensures forall o :: Finish(i, o) in run + [a] <==> Finish(i, o) in run
    ensures Run(i) in run + [a] <==> Run(i) in run
    ensures Destroy(i) in run + [a] <==> Destroy(i) in run
  {
  }

  lemma OtherStepKeepsBook(h: Installed, run: seq<Step>, s: seq<Record>, a: Step)
    requires Book(h, run, s) && !a.Arrive? && CanStep(s, a)
    ensures Book(h, run + [a], Apply(h, s, a))
  {
    var after := run + [a];
    assert after[..|after| - 1] == run;
    forall i | 0 <= i < |s|
      ensures Settled(h, after, i, Apply(h, s, a)[i])
    {
      if i != a.i {
        SameHistory(h, run, a, i);
      } else {
        NamedStep(h, run, s, a);
      }
    }
    if a.Finish? {
      NotFinishedBefore(h, run, s, a.i);
    }
  }

  /** An invocation whose worker is still running has no Finish in its history. */
  lemma NotFinishedBefore(h: Installed, run: seq<Step>, s: seq<Record>, i: nat)
    requires Book(h, run, s) && i < |s| && s[i].holder.Worker?
    ensures forall o :: Finish(i, o) !in run
  {
    assert Settled(h, run, i, s[i]);
    forall o
      ensures Finish(i, o) !in run
    {
      match o
      case Returns(result) =>
      case Throws =>
    }
  }

  lemma NamedStep(h: Installed, run: seq<Step>, s: seq<Record>, a: Step)
    requires Book(h, run, s) && !a.Arrive? && CanStep(s, a)
    ensures Calls(run + [a]) == Calls(run)
    ensures Settled(h, run + [a], a.i, Apply(h, s, a)[a.i])
  {
    var after := run + [a];
    assert after[..|after| - 1] == run;
    assert a in after && forall b :: b in run ==> b in after;
    assert forall b :: b in after ==> b in run || b == a;
    assert Settled(h, run, a.i, s[a.i]);
    match a {
      case Finish(i, outcome) => NotFinishedBefore(h, run, s, i);
      case Run(i) => assert Finish(i, Returns(s[i].holder.result)) in after;
      case Destroy(i) =>
        var result :| Finish(i, Returns(result)) in run && s[i].sent == [Value(Some(result))];
        assert Finish(i, Returns(result)) in after;
      case Arrive(_, _) =>
    }
  }

  /** Over every run: each invocation's replies and references are what its history says. */
  lemma {:induction false} LedgerOfRun(h: Installed, run: seq<Step>, s: seq<Record>)
    requires Reaches(h, run, s)
    ensures Book(h, run, s)
  {
    if run != [] {
      var last := |run| - 1;
      var before :| Reaches(h, run[..last], before) && CanStep(before, run[last]) && s == Apply(h, before, run[last]);
      LedgerOfRun(h, run[..last], before);
      assert run == run[..last] + [run[last]];
      if run[last].Arrive? {
        ArriveKeepsBook(h, run[..last], before, run[last]);
      } else {
        OtherStepKeepsBook(h, run[..last], before, run[last]);
      }
    }
  }

  /** No invocation is answered twice, none is used after its last reference is gone, and the references
      are gone exactly when it was answered and nobody holds it. */
  lemma AnsweredAtMostOnce(h: Installed, run: seq<Step>, s: seq<Record>, i: nat)
    requires Reaches(h, run, s) && i < |s|
    ensures |s[i].sent| <= 1 && s[i].asked <= 1
    ensures s[i].refs == 0 <==> s[i].sent != [] && s[i].holder == Nobody
    ensures s[i].holder != Nobody ==> s[i].refs > 0
  {
    LedgerOfRun(h, run, s);
    assert Settled(h, run, i, s[i]);
  }

  /** A reply once sent is never taken back or followed by another. */
  lemma StepKeepsSent(h: Installed, run: seq<Step>, s: seq<Record>, a: Step, i: nat)
    requires Reaches(h, run, s) && CanStep(s, a) && i < |s|
    ensures i < |Apply(h, s, a)|
    ensures s[i].sent != [] ==> Apply(h, s, a)[i].sent == s[i].sent
  {
    LedgerOfRun(h, run, s);
    assert Settled(h, run, i, s[i]);
  }

  /** Nothing is left to do for any invocation. */
  ghost predicate Quiet(s: seq<Record>) {
    forall a: Step :: CanStep(s, a) ==> a.Arrive?
  }

  /** When every worker has ended and every posted reply was run and destroyed, each invocation was
      answered exactly once and released, except exactly the deferred ones whose callback threw: those
      are never answered and keep one reference. */
  lemma QuietLedger(h: Installed, run: seq<Step>, s: seq<Record>, i: nat)
    requires Reaches(h, run, s) && Quiet(s) && i < |s|
    ensures |Calls(run)| == |s|
    ensures var (name, verdict) := Calls(run)[i];
            if name != "RequestInput" || !h.requestInput then s[i].sent == [Immediate(h, name, verdict)] && s[i].refs == 0
            else if Finish(i, Throws) in run then s[i].sent == [] && s[i].refs == 1
            else exists result :: Finish(i, Returns(result)) in run && s[i].sent == [Value(Some(result))] && s[i].refs == 0
  {
    LedgerOfRun(h, run, s);
    assert Settled(h, run, i, s[i]);
    assert !CanStep(s, Finish(i, Throws));
    assert !CanStep(s, Run(i));
    assert !CanStep(s, Destroy(i));
  }

  /** RequestInput, with and without a handler, and every other name, at any point of any run and whatever
      else is installed. With a handler it is never answered NotSupported and not in dispatch, its
      callback is asked exactly once, when its worker ends, and it gets that callback's result or
      nothing. Without one it is answered NotSupported at once and nothing is asked. Every other name has
      its one answer from dispatch on, and asks its own callback if that is set. */
  lemma RequestInputLedger(h: Installed, run: seq<Step>, s: seq<Record>, i: nat)
    requires Reaches(h, run, s) && i < |s|
    ensures i < |Calls(run)|
    ensures var (name, verdict) := Calls(run)[i];
      if name == "RequestInput" && h.requestInput then
        && NotSupported !in s[i].sent
        && (s[i].sent == [] || Run(i) in run)
        && (forall m :: m in s[i].sent ==> exists d :: m == Value(Some(d)) && Finish(i, Returns(d)) in run)
        && (s[i].asked == if exists o :: Finish(i, o) in run then 1 else 0)
      else if name == "RequestInput" then s[i].sent == [NotSupported] && s[i].asked == 0 && s[i].refs == 0
      else
        && s[i].refs == 0 && s[i].holder == Nobody
        && (s[i].asked == if (name == "Cancel" && h.cancel) || (name == "Release" && h.release)
                             || (name == "ReportError" && h.reportError) then 1 else 0)
        && s[i].sent == [if name == "Cancel" || name == "Release" then Value(None)
                         else if name != "ReportError" then NotSupported
                         else if h.reportError && verdict == Returns(true) then RetryError else Value(None)]
  {
    LedgerOfRun(h, run, s);
    assert Settled(h, run, i, s[i]);
    var (name, verdict) := Calls(run)[i];
    if name == "RequestInput" && h.requestInput {
      if o :| Finish(i, o) in run {
        match o {
          case Returns(d) =>
          case Throws =>
        }
      }
    }
  }

  // ----- Every started invocation comes to rest -----

  function StepsLeft(s: seq<Record>): nat {
    if s == [] then 0 else StepsLeft(s[..|s| - 1]) + HolderWeight(s[|s| - 1].holder)
  }

  function HolderWeight(holder: Holder): nat {
    match holder
    case Worker => 3
    case Posted(_) => 2
    case Replied => 1
    case Dispatch => 0
    case Nobody => 0
  }

  lemma {:induction false} StepsLeftUpdate(s: seq<Record>, i: nat, r: Record)
    requires i < |s|
    ensures StepsLeft(s[i := r]) == StepsLeft(s) - HolderWeight(s[i].holder) + HolderWeight(r.holder)
  {
    var last := |s| - 1;
    if i == last {
      assert s[i := r][..last] == s[..last];
    } else {
      StepsLeftUpdate(s[..last], i, r);
      assert s[i := r][..last] == s[..last][i := r];
    }
  }

  /** Each step other than an arrival uses up some of the work left, so between two arrivals only
      finitely many steps fit, whatever the interleaving. */
  lemma WorkRunsOut(h: Installed, s: seq<Record>, a: Step)
    requires CanStep(s, a)
    ensures if a.Arrive? then StepsLeft(Apply(h, s, a)) <= StepsLeft(s) + 3
            else StepsLeft(Apply(h, s, a)) < StepsLeft(s)
  {
    match a {
      case Arrive(name, verdict) =>
        var r := Dispatched(h, ARRIVED, name, verdict);
        assert (s + [r])[..|s|] == s;
      case Finish(i, outcome) => StepsLeftUpdate(s, i, Worked(s[i], outcome));
      case Run(i) => StepsLeftUpdate(s, i, Answered(s[i]));
      case Destroy(i) => StepsLeftUpdate(s, i, Destroyed(s[i]));
    }
  }
}
