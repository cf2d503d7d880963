/** The passphrase hand-off of the example program (examples/connmanctl.cpp:202-209, 244-253): request
    handlers sleep on a condition variable until the input loop stores a line for them. */
module Handoff {
  import opened Wrappers

  /** A request handler's thread: asleep in the wait (`notified` since it last slept), or returned. */
  datatype Requester = Waiting(notified: bool) | Returned(passphrase: string)

  /** The input loop: at the prompt, holding a line it has not looked at, or past a check that saw
      `connecting`. */
  datatype Input = Prompt | Holding(line: string) | Storing(line: string)

  datatype State = State(connecting: bool, connectingName: string, passphrase: string,
                         requesters: seq<Requester>, input: Input, commands: seq<string>)

  const START := State(false, "", "", [], Prompt, [])

  /** Every critical section is one step; Request starts a new handler thread, Wake is one round of its
      wait loop, after a notification or spuriously. */
  datatype Step = Request(name: string) | Wake(i: nat) | Read(line: string) | Check | Store

  predicate CanStep(s: State, a: Step) {
    match a
    case Request(_) => true
    case Wake(i) => i < |s.requesters| && s.requesters[i].Waiting?
    case Read(_) => s.input.Prompt?
    case Check => s.input.Holding?
    case Store => s.input.Storing?
  }

  function Asked(s: State, name: string): State {
    s.(connecting := true, connectingName := name, requesters := s.requesters + [Waiting(false)])
  }

  function Woken(s: State, i: nat): State
    requires i < |s.requesters|
  {
    s.(requesters := s.requesters[i := if s.connecting then Waiting(false) else Returned(s.passphrase)])
  }

  function Looked(s: State): State
    requires s.input.Holding?
  {
    if s.connecting then s.(input := Storing(s.input.line))
    else s.(input := Prompt, commands := s.commands + [s.input.line])
  }

  function Notified(r: Requester): Requester {
    if r.Waiting? then Waiting(true) else r
  }

  function NotifyAll(rs: seq<Requester>): seq<Requester> {
    seq(|rs|, i requires 0 <= i < |rs| => Notified(rs[i]))
  }

  function Stored(s: State): State
    requires s.input.Storing?
  {
    s.(passphrase := s.input.line, connecting := false, requesters := NotifyAll(s.requesters), input := Prompt)
  }

  function Apply(s: State, a: Step): State
    requires CanStep(s, a)
  {
    match a
    case Request(name) => Asked(s, name)
    case Wake(i) => Woken(s, i)
    case Read(line) => s.(input := Holding(line))
    case Check => Looked(s)
    case Store => Stored(s)
  }

  /** The globals of the program, changed in place. */
  class Terminal {
    var connecting: bool
    var connectingName: string
    var passphrase: string
    var requesters: seq<Requester>
    var input: Input
    var commands: seq<string>

    constructor ()
      ensures View() == START
    {
      connecting, connectingName, passphrase := false, "", "";
      requesters, input, commands := [], Prompt, [];
    }

    function View(): State
      reads this
    {
      State(connecting, connectingName, passphrase, requesters, input, commands)
    }

    /** The handler up to its first sleep. */
    method Request(name: string)
      modifies this
      ensures View() == Asked(old(View()), name)
    {
      connecting := true;
      connectingName := name;
      requesters := requesters + [Waiting(false)];
    }

    /** One round of the handler's wait. */
    method Wake(i: nat) returns (result: Option<string>)
      requires i < |requesters| && requesters[i].Waiting?
      modifies this
      ensures View() == Woken(old(View()), i)
      ensures result == if old(connecting) then None else Some(passphrase)
    {
      if connecting {
        requesters := requesters[i := Waiting(false)];
        return None;
      }
      requesters := requesters[i := Returned(passphrase)];
      return Some(passphrase);
    }

    /** The test of the input loop, outside the mutex. */
    method Check()
      requires input.Holding?
      modifies this
      ensures View() == Looked(old(View()))
    {
      var line := input.line;
      if connecting {
        input := Storing(line);
      } else {
        commands := commands + [line];
        input := Prompt;
      }
    }

    method Store()
      requires input.Storing?
      modifies this
      ensures View() == Stored(old(View()))
    {
      passphrase := input.line;
      connecting := false;
      requesters := NotifyAll(requesters);
      input := Prompt;
    }
  }

  // ----- Runs, and what their history says -----

  function After(run: seq<Step>): Option<State> {
    if run == [] then Some(START)
    else
      var before := After(run[..|run| - 1]);
      var a := run[|run| - 1];
      if before.Some? && CanStep(before.value, a) then Some(Apply(before.value, a)) else None
  }

  /** The lines read, in order. */
  function Lines(run: seq<Step>): seq<string> {
    if run == [] then []
    else
      var a := run[|run| - 1];
      Lines(run[..|run| - 1]) + if a.Read? then [a.line] else []
  }

  /** For each line looked at, whether `connecting` was set at the check. */
  function Fates(run: seq<Step>): seq<bool> {
    if run == [] then []
    else
      var before := After(run[..|run| - 1]);
      Fates(run[..|run| - 1])
      + if run[|run| - 1].Check? && before.Some? then [before.value.connecting] else []
  }

  /** How many lines the input loop has stored. */
  function Stores(run: seq<Step>): nat {
    if run == [] then 0 else Stores(run[..|run| - 1]) + if run[|run| - 1].Store? then 1 else 0
  }

  /** How many lines had been stored when each handler set `connecting`. */
  function AskedAt(run: seq<Step>): seq<nat> {
    if run == [] then []
    else AskedAt(run[..|run| - 1]) + if run[|run| - 1].Request? then [Stores(run[..|run| - 1])] else []
  }

  /** The lines with this fate. */
  function Pick(lines: seq<string>, fates: seq<bool>, fate: bool): seq<string>
    requires |fates| <= |lines|
  {
    if fates == [] then []
    else
      var last := |fates| - 1;
      Pick(lines, fates[..last], fate) + if fates[last] == fate then [lines[last]] else []
  }

  lemma {:induction false} PickAppend(lines: seq<string>, line: string, fates: seq<bool>, fate: bool)
    requires |fates| <= |lines|
    ensures Pick(lines + [line], fates, fate) == Pick(lines, fates, fate)
  {
    if fates != [] {
      PickAppend(lines, line, fates[..|fates| - 1], fate);
    }
  }

  /** A handler that has not been woken since it slept can rely on `connecting`; a sleeping handler with
      no line stored since it asked can too. */
  ghost predicate WaitersOk(s: State, asked: seq<nat>, stores: nat) {
    && |asked| == |s.requesters|
    && (forall i :: 0 <= i < |asked| ==> asked[i] <= stores)
    && (forall i :: 0 <= i < |asked| && s.requesters[i].Waiting? && asked[i] == stores ==> s.connecting)
    && (forall i :: 0 <= i < |asked| && s.requesters[i] == Waiting(false) ==> s.connecting)
  }

  /** What the input loop has done with the lines read so far. */
  ghost predicate LinesOk(s: State, lines: seq<string>, fates: seq<bool>, stores: nat) {
    && (s.input.Prompt? ==> |lines| == |fates|)
    && (s.input.Holding? ==> |lines| == |fates| + 1 && lines[|fates|] == s.input.line)
    && (s.input.Storing? ==> |lines| == |fates| && fates != [] && lines[|fates| - 1] == s.input.line && s.connecting
                             && fates[|fates| - 1])
    && |fates| <= |lines|
    && s.commands == Pick(lines, fates, false)
    && var handed := Pick(lines, fates, true);
       && |handed| == stores + (if s.input.Storing? then 1 else 0)
       && s.passphrase == if stores == 0 then "" else handed[stores - 1]
  }

  ghost predicate Inv(run: seq<Step>, s: State) {
    WaitersOk(s, AskedAt(run), Stores(run)) && LinesOk(s, Lines(run), Fates(run), Stores(run))
  }

  /** How one step adds to the history. */
  lemma HistoryStep(run: seq<Step>, s: State, a: Step)
    requires After(run) == Some(s) && CanStep(s, a)
    ensures After(run + [a]) == Some(Apply(s, a))
    ensures Lines(run + [a]) == if a.Read? then Lines(run) + [a.line] else Lines(run)
    ensures Fates(run + [a]) == if a.Check? then Fates(run) + [s.connecting] else Fates(run)
    ensures Stores(run + [a]) == if a.Store? then Stores(run) + 1 else Stores(run)
    ensures AskedAt(run + [a]) == if a.Request? then AskedAt(run) + [Stores(run)] else AskedAt(run)
  {
    assert (run + [a])[..|run|] == run;
  }

  lemma WaitersStep(s: State, asked: seq<nat>, stores: nat, a: Step)
    requires WaitersOk(s, asked, stores) && CanStep(s, a)
    ensures WaitersOk(Apply(s, a), if a.Request? then asked + [stores] else asked,
                      if a.Store? then stores + 1 else stores)
  {
  }

  lemma LinesStep(s: State, lines: seq<string>, fates: seq<bool>, stores: nat, a: Step)
    requires LinesOk(s, lines, fates, stores) && CanStep(s, a)
    ensures LinesOk(Apply(s, a), if a.Read? then lines + [a.line] else lines,
                    if a.Check? then fates + [s.connecting] else fates, if a.Store? then stores + 1 else stores)
  {
    match a {
      case Read(line) =>
        PickAppend(lines, line, fates, true);
        PickAppend(lines, line, fates, false);
      case Check => assert (fates + [s.connecting])[..|fates|] == fates;
      case Request(_) =>
      case Wake(_) =>
      case Store =>
    }
  }

  lemma StepInv(run: seq<Step>, s: State, a: Step)
    requires After(run) == Some(s) && Inv(run, s) && CanStep(s, a)
    ensures After(run + [a]) == Some(Apply(s, a)) && Inv(run + [a], Apply(s, a))
  {
    HistoryStep(run, s, a);
    WaitersStep(s, AskedAt(run), Stores(run), a);
    LinesStep(s, Lines(run), Fates(run), Stores(run), a);
  }

  lemma {:induction false} RunInv(run: seq<Step>)
    requires After(run).Some?
    ensures Inv(run, After(run).value)
  {
    if run != [] {
      var last := |run| - 1;
      RunInv(run[..last]);
      StepInv(run[..last], After(run[..last]).value, run[last]);
      assert run == run[..last] + [run[last]];
    }
  }

  /** A line is handed over or run as a command, never both: the lines whose check saw `connecting` are
      exactly those stored (the last of them possibly not yet), the others exactly the commands. */
  lemma EachLineOnce(run: seq<Step>)
    requires After(run).Some?
    ensures var s, lines, fates := After(run).value, Lines(run), Fates(run);
            && |fates| <= |lines|
            && s.commands == Pick(lines, fates, false)
            && |Pick(lines, fates, true)| == Stores(run) + if s.input.Storing? then 1 else 0
  {
    RunInv(run);
  }

  /** A handler returns the latest line stored, and that line was stored after the handler set
      `connecting`, with any number of handlers waiting. */
  lemma ReturnsLatestLine(run: seq<Step>, i: nat)
    requires After(run).Some? && CanStep(After(run).value, Wake(i))
    requires Woken(After(run).value, i).requesters[i].Returned?
    ensures i < |AskedAt(run)| && AskedAt(run)[i] < Stores(run)
    ensures |Fates(run)| <= |Lines(run)| && Stores(run) <= |Pick(Lines(run), Fates(run), true)|
    ensures Woken(After(run).value, i).requesters[i] == Returned(Pick(Lines(run), Fates(run), true)[Stores(run) - 1])
  {
    LatestLineAt(run, After(run).value, i);
  }

  lemma LatestLineAt(run: seq<Step>, s: State, i: nat)
    requires After(run) == Some(s) && i < |s.requesters| && s.requesters[i].Waiting? && !s.connecting
    ensures i < |AskedAt(run)| && AskedAt(run)[i] < Stores(run)
    ensures |Fates(run)| <= |Lines(run)| && Stores(run) <= |Pick(Lines(run), Fates(run), true)|
    ensures s.passphrase == Pick(Lines(run), Fates(run), true)[Stores(run) - 1]
  {
    RunInv(run);
    LatestLine(s, i, Lines(run), Fates(run), AskedAt(run), Stores(run));
  }

  lemma LatestLine(s: State, i: nat, lines: seq<string>, fates: seq<bool>, asked: seq<nat>, stores: nat)
    requires WaitersOk(s, asked, stores) && LinesOk(s, lines, fates, stores)
    requires i < |s.requesters| && s.requesters[i].Waiting? && !s.connecting
    ensures |fates| <= |lines| && asked[i] < stores <= |Pick(lines, fates, true)|
    ensures s.passphrase == Pick(lines, fates, true)[stores - 1]
  {
    assert asked[i] <= stores;
  }

  /** What a handler returned stays what it returned, in every continuation. */
  lemma {:induction false} ReturnedForGood(run: seq<Step>, more: seq<Step>, i: nat)
    requires After(run).Some? && After(run + more).Some?
    requires i < |After(run).value.requesters| && After(run).value.requesters[i].Returned?
    ensures i < |After(run + more).value.requesters|
    ensures After(run + more).value.requesters[i] == After(run).value.requesters[i]
    decreases |more|
  {
    if more == [] {
      assert run + more == run;
    } else {
      var last := |more| - 1;
      assert (run + more)[..|run + more| - 1] == run + more[..last];
      ReturnedForGood(run, more[..last], i);
    }
  }

  /** No lost wake-up: a handler asleep without a notification is one the input loop still owes a line;
      once `connecting` is clear every sleeping handler has been notified and its next round returns. */
  lemma NoLostWakeup(run: seq<Step>, i: nat)
    requires After(run).Some? && i < |After(run).value.requesters|
    ensures var s := After(run).value;
            && (s.requesters[i] == Waiting(false) ==> s.connecting)
            && (s.requesters[i].Waiting? && !s.connecting ==>
                  s.requesters[i].notified && Woken(s, i).requesters[i] == Returned(s.passphrase))
  {
    RunInv(run);
  }

  // ----- When the returned line was read -----

  /** The number of the line stored last: lines are counted as they are read. */
  function LastStored(run: seq<Step>): Option<nat> {
    if run == [] then None
    else if run[|run| - 1].Store? then
      var fates := Fates(run[..|run| - 1]);
      if fates == [] then None else Some(|fates| - 1)
    else LastStored(run[..|run| - 1])
  }

  /** The number of the line that handler i returned, if it has returned. */
  function ReturnedLine(run: seq<Step>, i: nat): Option<nat> {
    if run == [] then None
    else
      var front := run[..|run| - 1];
      var before := After(front);
      if run[|run| - 1] == Wake(i) && before.Some? && CanStep(before.value, Wake(i)) && !before.value.connecting
      then LastStored(front) else ReturnedLine(front, i)
  }

  lemma LastStoredStep(run: seq<Step>, a: Step)
    ensures LastStored(run + [a]) ==
      if !a.Store? then LastStored(run) else if Fates(run) == [] then None else Some(|Fates(run)| - 1)
  {
    assert (run + [a])[..|run|] == run;
  }

  lemma ReturnedLineStep(run: seq<Step>, s: State, a: Step, i: nat)
    requires After(run) == Some(s) && CanStep(s, a)
    ensures ReturnedLine(run + [a], i) ==
      if a == Wake(i) && !s.connecting then LastStored(run) else ReturnedLine(run, i)
  {
    assert (run + [a])[..|run|] == run;
  }

  /** The passphrase is the line stored last, and a handler that has returned has its line. */
  ghost predicate ReturnsOk(run: seq<Step>, s: State) {
    && (Stores(run) > 0 ==>
          LastStored(run).Some? && LastStored(run).value < |Lines(run)|
          && s.passphrase == Lines(run)[LastStored(run).value])
    && (forall i: nat :: i < |s.requesters| ==>
          if s.requesters[i].Waiting? then ReturnedLine(run, i) == None
          else ReturnedLine(run, i).Some? && ReturnedLine(run, i).value < |Lines(run)|
               && s.requesters[i] == Returned(Lines(run)[ReturnedLine(run, i).value]))
    && (forall i: nat :: i >= |s.requesters| ==> ReturnedLine(run, i) == None)
  }

  lemma ReturnsStep(run: seq<Step>, s: State, a: Step)
    requires After(run) == Some(s) && CanStep(s, a) && ReturnsOk(run, s)
    ensures ReturnsOk(run + [a], Apply(s, a))
  {
    HistoryStep(run, s, a);
    LastStoredStep(run, a);
    forall i: nat
      ensures ReturnedLine(run + [a], i) ==
        if a == Wake(i) && !s.connecting then LastStored(run) else ReturnedLine(run, i)
    {
      ReturnedLineStep(run, s, a, i);
    }
    if a.Store? {
      StoringLine(run, s);
    }
    if a.Wake? && !s.connecting {
      LatestLineAt(run, s, a.i);
    }
  }

  lemma StoringLine(run: seq<Step>, s: State)
    requires After(run) == Some(s) && s.input.Storing?
    ensures Fates(run) != [] && |Lines(run)| == |Fates(run)| && Lines(run)[|Fates(run)| - 1] == s.input.line
  {
    RunInv(run);
  }

  lemma {:induction false} RunReturns(run: seq<Step>)
    requires After(run).Some?
    ensures ReturnsOk(run, After(run).value)
  {
    if run != [] {
      var last := |run| - 1;
      RunReturns(run[..last]);
      ReturnsStep(run[..last], After(run[..last]).value, run[last]);
      assert run == run[..last] + [run[last]];
    }
  }

  /** A handler that asked while the input loop was at its prompt, before line n was read: no line before
      n is stored from then on, and none is returned to it. */
  ghost predicate OnlyNewLines(run: seq<Step>, s: State, i: nat, n: nat, stores: nat) {
    && i < |AskedAt(run)| && AskedAt(run)[i] == stores
    && |Fates(run)| >= n
    && (s.input.Storing? ==> |Fates(run)| > n)
    && (Stores(run) > stores ==> LastStored(run).Some? && LastStored(run).value >= n)
    && (ReturnedLine(run, i).Some? ==> ReturnedLine(run, i).value >= n)
  }

  lemma OnlyNewStep(run: seq<Step>, s: State, a: Step, i: nat, n: nat, stores: nat)
    requires After(run) == Some(s) && CanStep(s, a) && OnlyNewLines(run, s, i, n, stores)
    ensures OnlyNewLines(run + [a], Apply(s, a), i, n, stores)
  {
    HistoryStep(run, s, a);
    LastStoredStep(run, a);
    ReturnedLineStep(run, s, a, i);
    if a == Wake(i) && !s.connecting {
      LatestLineAt(run, s, i);
    }
  }

  lemma {:induction false} OnlyNewRun(asked: seq<Step>, more: seq<Step>, i: nat, n: nat, stores: nat)
    requires After(asked + more).Some? && After(asked).Some?
    requires OnlyNewLines(asked, After(asked).value, i, n, stores)
    ensures OnlyNewLines(asked + more, After(asked + more).value, i, n, stores)
    decreases |more|
  {
    if more == [] {
      assert asked + more == asked;
    } else {
      var last := |more| - 1;
      var run := asked + more[..last];
      assert (asked + more)[..|asked + more| - 1] == run;
      assert asked + more == run + [more[last]];
      OnlyNewRun(asked, more[..last], i, n, stores);
      OnlyNewStep(run, After(run).value, more[last], i, n, stores);
    }
  }

  /** Handler i returns, in some continuation, a line read before it asked. */
  ghost predicate CanReturnEarlyLine(asked: seq<Step>, i: nat, n: nat) {
    exists more :: After(asked + more).Some? && ReturnsBefore(asked + more, i, n)
  }

  ghost predicate ReturnsBefore(run: seq<Step>, i: nat, n: nat) {
    ReturnedLine(run, i).Some? && ReturnedLine(run, i).value < n
  }

  /** Asking at the prompt is enough ... */
  lemma AskedAtPrompt(run: seq<Step>, name: string)
    requires After(run).Some? && After(run).value.input.Prompt?
    ensures !CanReturnEarlyLine(run + [Request(name)], |After(run).value.requesters|, |Lines(run)|)
  {
    var s := After(run).value;
    var asked, i, n := run + [Request(name)], |s.requesters|, |Lines(run)|;
    PromptState(run, s);
    HistoryStep(run, s, Request(name));
    LastStoredStep(run, Request(name));
    ReturnedLineStep(run, s, Request(name), i);
    forall more | After(asked + more).Some? ensures !ReturnsBefore(asked + more, i, n) {
      OnlyNewRun(asked, more, i, n, Stores(run));
    }
  }

  lemma PromptState(run: seq<Step>, s: State)
    requires After(run) == Some(s) && s.input.Prompt?
    ensures |Fates(run)| == |Lines(run)| && |AskedAt(run)| == |s.requesters|
    ensures ReturnedLine(run, |s.requesters|) == None
  {
    RunInv(run);
    RunReturns(run);
  }

  /** A stored line goes to the next handler woken. */
  lemma StoreThenWake(run: seq<Step>, s: State, i: nat)
    requires After(run) == Some(s) && s.input.Storing? && i < |s.requesters| && s.requesters[i].Waiting?
    ensures After(run + [Store] + [Wake(i)]).Some? && Fates(run) != []
    ensures ReturnedLine(run + [Store] + [Wake(i)], i) == Some(|Fates(run)| - 1)
  {
    StoringLine(run, s);
    HistoryStep(run, s, Store);
    LastStoredStep(run, Store);
    var after := Stored(s);
    HistoryStep(run + [Store], after, Wake(i));
    ReturnedLineStep(run + [Store], after, Wake(i), i);
  }

  lemma AskedWhileStoring(run: seq<Step>, s: State, name: string)
    requires After(run) == Some(s) && s.input.Storing?
    ensures CanReturnEarlyLine(run + [Request(name)], |s.requesters|, |Lines(run)|)
  {
    var i, asked := |s.requesters|, run + [Request(name)];
    NotAtPrompt(run, s);
    HistoryStep(run, s, Request(name));
    StoreThenWake(asked, Asked(s, name), i);
    assert asked + [Store] + [Wake(i)] == asked + [Store, Wake(i)];
    Early(asked, [Store, Wake(i)], i, |Lines(run)|);
  }

  lemma AskedWhileHolding(run: seq<Step>, s: State, name: string)
    requires After(run) == Some(s) && s.input.Holding?
    ensures CanReturnEarlyLine(run + [Request(name)], |s.requesters|, |Lines(run)|)
  {
    var i, asked := |s.requesters|, run + [Request(name)];
    NotAtPrompt(run, s);
    HistoryStep(run, s, Request(name));
    HistoryStep(asked, Asked(s, name), Check);
    StoreThenWake(asked + [Check], Looked(Asked(s, name)), i);
    assert asked + [Check] + [Store] + [Wake(i)] == asked + [Check, Store, Wake(i)];
    Early(asked, [Check, Store, Wake(i)], i, |Lines(run)|);
  }

  /** ... and needed: a line already held or about to be stored is taken for the passphrase. */
  lemma AskedTooLate(run: seq<Step>, name: string)
    requires After(run).Some? && !After(run).value.input.Prompt?
    ensures CanReturnEarlyLine(run + [Request(name)], |After(run).value.requesters|, |Lines(run)|)
  {
    if After(run).value.input.Storing? {
      AskedWhileStoring(run, After(run).value, name);
    } else {
      AskedWhileHolding(run, After(run).value, name);
    }
  }

  lemma NotAtPrompt(run: seq<Step>, s: State)
    requires After(run) == Some(s) && !s.input.Prompt?
    ensures |Lines(run)| == |Fates(run)| + if s.input.Holding? then 1 else 0
  {
    RunInv(run);
  }

  lemma Early(asked: seq<Step>, more: seq<Step>, i: nat, n: nat)
    requires After(asked + more).Some? && ReturnsBefore(asked + more, i, n)
    ensures CanReturnEarlyLine(asked, i, n)
  {
  }

  /** A handler can return a line that was read before it asked if and only if the input loop was not at
      its prompt when it asked: it held a line, checked or not. */
  lemma EarlyLineExactly(run: seq<Step>, name: string)
    requires After(run).Some?
    ensures CanReturnEarlyLine(run + [Request(name)], |After(run).value.requesters|, |Lines(run)|)
      <==> !After(run).value.input.Prompt?
  {
    if After(run).value.input.Prompt? {
      AskedAtPrompt(run, name);
    } else {
      AskedTooLate(run, name);
    }
  }

  /** One such run: a line typed as a command before the request is taken for the passphrase. */
  lemma EarlyLineIsTaken(line: string, name: string)
    ensures var run := [Read(line), Request(name), Check, Store, Wake(0)];
            After(run).Some? && After(run).value.requesters == [Returned(line)]
  {
    var s1 := Apply(START, Read(line));
    var s2 := Apply(s1, Request(name));
    var s3 := Apply(s2, Check);
    var s4 := Apply(s3, Store);
    var run := [Read(line), Request(name), Check, Store, Wake(0)];
    assert run[..1] == [Read(line)] && run[..2] == run[..1] + [Request(name)];
    assert run[..3] == run[..2] + [Check] && run[..4] == run[..3] + [Store];
    assert run[..0] == [] && After(run[..0]) == Some(START);
    assert run[..1][..0] == run[..0] && After(run[..1]) == Some(s1);
    assert run[..2][..1] == run[..1] && After(run[..2]) == Some(s2);
    assert run[..3][..2] == run[..2] && After(run[..3]) == Some(s3);
    assert run[..4][..3] == run[..3] && After(run[..4]) == Some(s4);
    assert run == run[..4] + [Wake(0)];
  }
}
