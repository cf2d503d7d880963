/** The Manager's list against the daemon's, over whole runs of replies and signals. */
module DaemonRuns {
  import opened Wrappers
  import opened Variants
  import opened Folds
  import opened ServiceProperties
  import opened ServiceCache

  /** The daemon's ordered services: a path and the current value of each property. */
  type Daemon = seq<(string, map<Key, Variant>)>

  ghost predicate DistinctPaths(d: Daemon) {
    forall i, j :: 0 <= i < j < |d| ==> d[i].0 != d[j].0
  }

  /** What the daemon sends. Listed answers GetServices; Changed is ServicesChanged; Property is
      PropertyChanged on the service object with that path. */
  datatype Event =
    | Listed(entries: seq<Entry>)
    | Changed(removed: seq<string>, entries: seq<Entry>)
    | Property(path: string, name: string, value: Variant)

  /** The entries name the services of `next` in order, with acceptable values. */
  ghost predicate Names(entries: seq<Entry>, next: Daemon) {
    && |entries| == |next| && AllAccepted(entries)
    && forall i :: 0 <= i < |next| ==> entries[i].0 == next[i].0
  }

  /** The daemon's side of the protocol: going from `d` to `next` it sends `e`. A snapshot and a
      new or re-added service carry complete dictionaries, a retained service carries a delta. */
  ghost predicate Sends(d: Daemon, e: Event, next: Daemon) {
    && DistinctPaths(d) && DistinctPaths(next)
    && match e
       case Listed(entries) =>
         Names(entries, next) && forall i :: 0 <= i < |next| ==> next[i].1 == AsMap(entries[i].1)
       case Changed(removed, entries) =>
         && Names(entries, next)
         && (forall i :: 0 <= i < |next| && Retained(d, removed, next[i].0) ==>
              exists j :: 0 <= j < |d| && d[j].0 == next[i].0 && next[i].1 == d[j].1 + AsMap(entries[i].1))
         && (forall i :: 0 <= i < |next| && !Retained(d, removed, next[i].0) ==>
              next[i].1 == AsMap(entries[i].1))
       case Property(path, name, value) =>
         && ValidEntry(KeyOf(name), value)
         && exists j :: 0 <= j < |d| && d[j].0 == path && next == d[j := (path, d[j].1[KeyOf(name) := value])]
  }

  ghost predicate Retained(d: Daemon, removed: seq<string>, path: string) {
    path !in removed && exists j :: 0 <= j < |d| && d[j].0 == path
  }

  /** The list shows the daemon's services, in the daemon's order, with the daemon's values. */
  ghost predicate Agrees(list: seq<Service>, d: Daemon)
    reads set s | s in list
  {
    && |list| == |d|
    && forall i :: 0 <= i < |list| ==> list[i].path == d[i].0 && list[i].props == View(d[i].1)
  }

  function DaemonView(d: Daemon): seq<(string, ServProperties)> {
    seq(|d|, i requires 0 <= i < |d| => (d[i].0, View(d[i].1)))
  }

  // ----- The merge, read against the daemon -----

  lemma AppliedView(m: map<Key, Variant>, d: Dictionary)
    requires AllValid(ValidEntry, d)
    ensures Applied(View(m), d) == View(m + AsMap(d))
  {
    ServiceLastWriterWins(m, d);
    ReachedIsFold(Update, View(m), d);
  }

  /** With distinct paths, exactly one entry speaks about each. */
  lemma {:induction false} OneEntry(entries: seq<Entry>, i: nat)
    requires i < |entries| && forall j, k :: 0 <= j < k < |entries| ==> entries[j].0 != entries[k].0
    ensures EntriesFor(entries, entries[i].0) == entries[i].1
  {
    var n := |entries| - 1;
    if i == n {
      NoEntries(entries[..n], entries[n].0);
    } else {
      OneEntry(entries[..n], i);
      assert entries[..n][i] == entries[i];
    }
  }

  /** With distinct paths, a retained path finds its own old object. */
  lemma FindsOldObject(ss: seq<Service>, removed: seq<string>, j: nat)
    requires j < |ss| && ss[j].path !in removed
    requires forall i, k :: 0 <= i < k < |ss| ==> ss[i].path != ss[k].path
    ensures Find(Without(ss, removed), ss[j].path) == Some(ss[j])
  {
    WithoutKeeps(ss, removed);
    FindIn(Without(ss, removed), ss[j].path);
    assert ss[j] in Without(ss, removed);
  }

  lemma FindsNothing(ss: seq<Service>, removed: seq<string>, path: string)
    requires path in removed || forall j :: 0 <= j < |ss| ==> ss[j].path != path
    ensures Find(Without(ss, removed), path) == None
  {
    WithoutKeeps(ss, removed);
    FindIn(Without(ss, removed), path);
  }

  // ----- One event, and runs of events -----

  method DeliverListed(m: Manager, entries: seq<Entry>, ghost next: Daemon)
    requires m.Valid() && DistinctPaths(next) && Names(entries, next)
    requires forall i :: 0 <= i < |next| ==> next[i].1 == AsMap(entries[i].1)
    modifies m`services
    ensures m.Valid() && Agrees(m.services, next) && fresh(m.Objects() - old(m.Objects()))
  {
    var handed, ok := m.GotServices(true, Some(entries));
    forall i | 0 <= i < |next| ensures m.services[i].props == View(next[i].1) {
      AppliedView(map[], entries[i].1);
      assert map[] + AsMap(entries[i].1) == AsMap(entries[i].1);
    }
  }

  /** The paths of the list are the daemon's. */
  ghost predicate SamePaths(ss: seq<Service>, d: Daemon) {
    |ss| == |d| && DistinctPaths(d) && forall i :: 0 <= i < |d| ==> ss[i].path == d[i].0
  }

  /** A retained entry: its old object is found, and the delta brings it to the daemon's values. */
  lemma RetainedEntry(before: seq<Service>, d: Daemon, removed: seq<string>, entries: seq<Entry>, next: Daemon, i: nat)
    returns (j: nat)
    requires SamePaths(before, d) && Sends(d, Changed(removed, entries), next)
    requires i < |next| && Retained(d, removed, next[i].0)
    ensures j < |d| && Find(Without(before, removed), next[i].0) == Some(before[j])
    ensures PropsAfter(View(d[j].1), Without(before, removed), before[j], entries) == View(next[i].1)
  {
    j :| 0 <= j < |d| && d[j].0 == next[i].0 && next[i].1 == d[j].1 + AsMap(entries[i].1);
    assert before[j].path == next[i].0;
    FindsOldObject(before, removed, j);
    OneEntry(entries, i);
    AppliedView(d[j].1, entries[i].1);
  }

  /** Any other entry: nothing is found, and the complete dictionary gives the daemon's values. */
  lemma NewEntry(before: seq<Service>, d: Daemon, removed: seq<string>, entries: seq<Entry>, next: Daemon, i: nat)
    requires SamePaths(before, d) && Sends(d, Changed(removed, entries), next)
    requires i < |next| && !Retained(d, removed, next[i].0)
    ensures Find(Without(before, removed), next[i].0) == None
    ensures Applied(BLANK, entries[i].1) == View(next[i].1)
  {
    FindsNothing(before, removed, next[i].0);
    AppliedView(map[], entries[i].1);
    assert map[] + AsMap(entries[i].1) == AsMap(entries[i].1);
  }

  method DeliverChanged(m: Manager, ghost d: Daemon, removed: seq<string>, entries: seq<Entry>, ghost next: Daemon)
    requires m.Valid() && Agrees(m.services, d) && Sends(d, Changed(removed, entries), next)
    modifies m`services, m.Objects()
    ensures m.Valid() && Agrees(m.services, next) && fresh(m.Objects() - old(m.Objects()))
  {
    ghost var before := m.services;
    var handed := m.OnServicesChanged(removed, entries);
    forall i | 0 <= i < |next|
      ensures m.services[i].props == View(next[i].1) && (m.services[i] in before || fresh(m.services[i]))
    {
      if Retained(d, removed, next[i].0) {
        var j := RetainedEntry(before, d, removed, entries, next, i);
        assert before[j] in before;
      } else {
        NewEntry(before, d, removed, entries, next, i);
      }
    }
  }

  lemma OneProperty(m: map<Key, Variant>, name: string, value: Variant)
    requires ValidEntry(KeyOf(name), value)
    ensures Applied(View(m), [(name, value)]) == View(m[KeyOf(name) := value])
  {
    var d := [(name, value)];
    assert AsMap(d) == map[KeyOf(name) := value] + AsMap(d[1..]);
    assert m + AsMap(d) == m[KeyOf(name) := value];
    AppliedView(m, d);
  }

  /** With distinct paths, looking a path up in the list finds the daemon's service. */
  lemma FindsListed(ss: seq<Service>, d: Daemon, j: nat)
    requires SamePaths(ss, d) && j < |d|
    ensures Find(ss, d[j].0) == Some(ss[j])
  {
    FindIn(ss, d[j].0);
    assert ss[j] in ss;
  }

  method DeliverProperty(m: Manager, ghost d: Daemon, path: string, name: string, value: Variant, ghost next: Daemon)
    requires m.Valid() && Agrees(m.services, d) && Sends(d, Property(path, name, value), next)
    modifies m.Objects()
    ensures m.Valid() && m.services == old(m.services) && Agrees(m.services, next)
  {
    ghost var j :| 0 <= j < |d| && d[j].0 == path && next == d[j := (path, d[j].1[KeyOf(name) := value])];
    FindsListed(m.services, d, j);
    OneProperty(d[j].1, name, value);
    var found := m.FindService(path);
    assert found.value == m.services[j];
    var r := found.value.UpdateProperty(name, value);
    assert forall i :: 0 <= i < |d| && i != j ==> m.services[i] != m.services[j];
  }

  method Deliver(m: Manager, ghost d: Daemon, e: Event, ghost next: Daemon)
    requires m.Valid() && Agrees(m.services, d) && Sends(d, e, next)
    modifies m`services, m.Objects()
    ensures m.Valid() && Agrees(m.services, next) && fresh(m.Objects() - old(m.Objects()))
  {
    match e {
      case Listed(entries) => DeliverListed(m, entries, next);
      case Changed(removed, entries) => DeliverChanged(m, d, removed, entries, next);
      case Property(path, name, value) => DeliverProperty(m, d, path, name, value, next);
    }
  }

  /** Cache refinement: through any sequence of snapshots, service signals and property signals,
      the list shows after every one of them exactly what the daemon has, in the same order. */
  method DeliverAll(m: Manager, ghost daemon: seq<Daemon>, events: seq<Event>)
    returns (ghost shown: seq<seq<(string, ServProperties)>>)
    requires |daemon| == |events| + 1
    requires m.Valid() && Agrees(m.services, daemon[0])
    requires forall i :: 0 <= i < |events| ==> Sends(daemon[i], events[i], daemon[i + 1])
    modifies m`services, m.Objects()
    ensures m.Valid() && Agrees(m.services, daemon[|events|])
    ensures |shown| == |events| && forall i :: 0 <= i < |events| ==> shown[i] == DaemonView(daemon[i + 1])
  {
    shown := [];
    for i := 0 to |events|
      invariant m.Valid() && Agrees(m.services, daemon[i])
      invariant fresh(m.Objects() - old(m.Objects()))
      invariant |shown| == i && forall k :: 0 <= k < i ==> shown[k] == DaemonView(daemon[k + 1])
    {
      Deliver(m, daemon[i], events[i], daemon[i + 1]);
      assert m.Contents() == DaemonView(daemon[i + 1]);
      shown := shown + [m.Contents()];
    }
  }
}
