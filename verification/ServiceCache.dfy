/** The Manager's list of services (gconnman_manager.cpp): an ordered list of shared proxy
    objects, merged in place with what the daemon signals. */
module ServiceCache {
  import opened Wrappers
  import opened Bus
  import opened Variants
  import opened Folds
  import opened Proxies
  import opened ServiceProperties

  type Service = DBusProxy<ServProperties>

  /** One element of a GetServices reply or of a ServicesChanged signal. */
  type Entry = (string, Dictionary)

  /** remove_if for each removed path: every proxy with such a path goes, the order stays. */
  function Without(ss: seq<Service>, removed: seq<string>): seq<Service> {
    if ss == [] then []
    else Without(ss[..|ss| - 1], removed) + if ss[|ss| - 1].path in removed then [] else [ss[|ss| - 1]]
  }

  /** find_if: the first proxy with that path. */
  function Find(ss: seq<Service>, path: string): Option<Service> {
    if ss == [] then None else if ss[0].path == path then Some(ss[0]) else Find(ss[1..], path)
  }

  /** Everything that `changed` says about one path, in order. */
  function EntriesFor(changed: seq<Entry>, path: string): Dictionary {
    if changed == [] then []
    else
      var last := changed[|changed| - 1];
      EntriesFor(changed[..|changed| - 1], path) + if last.0 == path then last.1 else []
  }

  predicate AllAccepted(changed: seq<Entry>) {
    forall i :: 0 <= i < |changed| ==> AllValid(ValidEntry, changed[i].1)
  }

  function Entries(body: Option<seq<Entry>>): seq<Entry> {
    if body.Some? then body.value else []
  }

  lemma {:induction false} FindIn(ss: seq<Service>, path: string)
    ensures match Find(ss, path)
      case Some(s) => s in ss && s.path == path
      case None => forall s :: s in ss ==> s.path != path
  {
    if ss != [] {
      FindIn(ss[1..], path);
    }
  }

  /** It is the first one: no earlier proxy has that path. */
  lemma {:induction false} FindFirst(ss: seq<Service>, path: string)
    ensures Find(ss, path).Some? ==>
      exists i :: 0 <= i < |ss| && ss[i] == Find(ss, path).value && forall j :: 0 <= j < i ==> ss[j].path != path
  {
    if ss != [] && ss[0].path != path {
      FindFirst(ss[1..], path);
      if Find(ss, path).Some? {
        var i :| 0 <= i < |ss[1..]| && ss[1..][i] == Find(ss, path).value
                 && forall j :: 0 <= j < i ==> ss[1..][j].path != path;
        assert ss[i + 1] == Find(ss, path).value;
        assert forall j :: 0 < j < i + 1 ==> ss[j] == ss[1..][j - 1];
      }
    }
  }

  lemma WithoutOne(s: Service, removed: seq<string>)
    ensures Without([s], removed) == if s.path in removed then [] else [s]
  {
    assert [s][..0] == [];
    assert Without([], removed) == [];
  }

  /** Each part keeps what it would keep alone, in its place. */
  lemma {:induction false} WithoutInTwo(a: seq<Service>, b: seq<Service>, removed: seq<string>)
    ensures Without(a + b, removed) == Without(a, removed) + Without(b, removed)
  {
    if b == [] {
      assert a + b == a;
      assert Without(a, removed) + [] == Without(a, removed);
    } else {
      var n := |b| - 1;
      var last := if b[n].path in removed then [] else [b[n]];
      assert (a + b)[..|a + b| - 1] == a + b[..n];
      WithoutInTwo(a, b[..n], removed);
      assert Without(a + b, removed) == Without(a + b[..n], removed) + last;
    }
  }

  lemma {:induction false} WithoutIn(ss: seq<Service>, removed: seq<string>, s: Service)
    ensures s in Without(ss, removed) <==> s in ss && s.path !in removed
  {
    if ss != [] {
      WithoutIn(ss[..|ss| - 1], removed, s);
      assert ss == ss[..|ss| - 1] + [ss[|ss| - 1]];
    }
  }

  lemma WithoutKeeps(ss: seq<Service>, removed: seq<string>)
    ensures forall s :: s in Without(ss, removed) ==> s in ss && s.path !in removed
    ensures forall s :: s in ss && s.path !in removed ==> s in Without(ss, removed)
  {
    forall s | s in Without(ss, removed) ensures s in ss && s.path !in removed { WithoutIn(ss, removed, s); }
    forall s | s in ss && s.path !in removed ensures s in Without(ss, removed) { WithoutIn(ss, removed, s); }
  }

  lemma ExtendEntries(changed: seq<Entry>, i: nat, path: string)
    requires i < |changed|
    ensures EntriesFor(changed[..i + 1], path) ==
      EntriesFor(changed[..i], path) + if changed[i].0 == path then changed[i].1 else []
  {
    assert changed[..i + 1][..i] == changed[..i];
  }

  lemma {:induction false} EntriesAccepted(changed: seq<Entry>, path: string)
    requires AllAccepted(changed)
    ensures AllValid(ValidEntry, EntriesFor(changed, path))
  {
    if changed != [] {
      EntriesAccepted(changed[..|changed| - 1], path);
    }
  }

  /** What a service shows after the entries d, given what it showed before. */
  function Applied(x: ServProperties, d: Dictionary): ServProperties {
    Reached(Update, x, d)
  }

  lemma AppliedInTurn(x: ServProperties, a: Dictionary, b: Dictionary)
    requires AllValid(ValidEntry, a)
    ensures Applied(x, a + b) == Applied(Applied(x, a), b)
  {
    ReachedInTurn(Update, x, a, b);
    DictionaryAccepted(x, a);
  }

  /** The shape of a merged list: the changed paths in order; kept objects stay, and the other
      entries are objects of their own. */
  ghost predicate Merged(list: seq<Service>, kept: seq<Service>, changed: seq<Entry>) {
    && |list| == |changed|
    && (forall i :: 0 <= i < |list| ==> list[i].path == changed[i].0 && list[i].update == Update)
    && (forall i :: 0 <= i < |list| && Find(kept, changed[i].0).Some? ==> list[i] == Find(kept, changed[i].0).value)
    && (forall i :: 0 <= i < |list| && Find(kept, changed[i].0).None? ==> list[i] !in kept)
    && (forall i, j :: 0 <= i < j < |list| && Find(kept, changed[j].0).None? ==> list[i] != list[j])
  }

  /** What object s shows after the merge, having shown x before. */
  ghost function PropsAfter(x: ServProperties, kept: seq<Service>, s: Service, changed: seq<Entry>): ServProperties {
    if Find(kept, s.path) == Some(s) then Applied(x, EntriesFor(changed, s.path)) else x
  }

  lemma PropsAfterStep(x: ServProperties, kept: seq<Service>, s: Service, changed: seq<Entry>, i: nat)
    requires i < |changed| && AllAccepted(changed[..i])
    ensures PropsAfter(x, kept, s, changed[..i + 1]) ==
      if Find(kept, changed[i].0) == Some(s) then Applied(PropsAfter(x, kept, s, changed[..i]), changed[i].1)
      else PropsAfter(x, kept, s, changed[..i])
  {
    FindIn(kept, changed[i].0);
    ExtendEntries(changed, i, s.path);
    EntriesAccepted(changed[..i], s.path);
    if changed[i].0 == s.path {
      AppliedInTurn(x, EntriesFor(changed[..i], s.path), changed[i].1);
    } else {
      assert EntriesFor(changed[..i], s.path) + [] == EntriesFor(changed[..i], s.path);
    }
  }

  lemma MergedStep(list: seq<Service>, kept: seq<Service>, changed: seq<Entry>, i: nat, s: Service)
    requires i < |changed| && Merged(list, kept, changed[..i])
    requires s.path == changed[i].0 && s.update == Update
    requires match Find(kept, changed[i].0) case Some(x) => s == x case None => s !in kept && s !in list
    ensures Merged(list + [s], kept, changed[..i + 1])
  {
    assert forall k :: 0 <= k < i ==> changed[..i + 1][k] == changed[..i][k];
  }

  lemma {:induction false} FindInTwo(a: seq<Service>, b: seq<Service>, path: string)
    ensures Find(a + b, path) == if Find(a, path).Some? then Find(a, path) else Find(b, path)
  {
    if a == [] {
      assert a + b == b;
    } else {
      assert (a + b)[0] == a[0] && (a + b)[1..] == a[1..] + b;
      FindInTwo(a[1..], b, path);
    }
  }

  lemma {:induction false} FindUnaffected(ss: seq<Service>, removed: seq<string>, path: string)
    requires path !in removed
    ensures Find(Without(ss, removed), path) == Find(ss, path)
  {
    if ss != [] {
      var n := |ss| - 1;
      FindUnaffected(ss[..n], removed, path);
      assert ss == ss[..n] + [ss[n]];
      FindInTwo(ss[..n], [ss[n]], path);
      FindInTwo(Without(ss[..n], removed), if ss[n].path in removed then [] else [ss[n]], path);
    }
  }

  /** If no path is both removed and changed, the removed list has no effect on which objects the
      merge reuses nor on what any object shows afterwards. */
  lemma RemovedListIrrelevant(ss: seq<Service>, removed: seq<string>, changed: seq<Entry>, s: Service, x: ServProperties)
    requires forall i :: 0 <= i < |changed| ==> changed[i].0 !in removed
    ensures forall i :: 0 <= i < |changed| ==> Find(Without(ss, removed), changed[i].0) == Find(ss, changed[i].0)
    ensures PropsAfter(x, Without(ss, removed), s, changed) == PropsAfter(x, ss, s, changed)
  {
    forall i | 0 <= i < |changed| ensures Find(Without(ss, removed), changed[i].0) == Find(ss, changed[i].0) {
      FindUnaffected(ss, removed, changed[i].0);
    }
    if s.path in removed {
      NoEntries(changed, s.path);
    } else {
      FindUnaffected(ss, removed, s.path);
    }
  }

  lemma {:induction false} NoEntries(changed: seq<Entry>, path: string)
    requires forall i :: 0 <= i < |changed| ==> changed[i].0 != path
    ensures EntriesFor(changed, path) == []
  {
    if changed != [] {
      NoEntries(changed[..|changed| - 1], path);
    }
  }

  class Manager {
    const bus: DBus
    var services: seq<Service>

    /** Every proxy in the list is a proxy of a service. */
    ghost predicate Valid()
      reads this
    {
      forall s :: s in services ==> s.update == Update
    }

    ghost function Objects(): set<Service>
      reads this
    {
      set s | s in services
    }

    /** What a reader of the list sees. */
    ghost function Contents(): seq<(string, ServProperties)>
      reads this, services
    {
      seq(|services|, i requires 0 <= i < |services| reads this, services => (services[i].path, services[i].props))
    }

    constructor (bus: DBus)
      ensures Valid() && services == [] && this.bus == bus
    {
      this.bus := bus;
      services := [];
    }

    method EraseRemoved(removed: seq<string>)
      modifies this`services
      ensures services == Without(old(services), removed)
    {
      var kept := [];
      for i := 0 to |services|
        invariant services == old(services) && kept == Without(services[..i], removed)
      {
        assert services[..i + 1][..i] == services[..i];
        if services[i].path !in removed {
          kept := kept + [services[i]];
        }
      }
      assert services[..|services|] == services;
      services := kept;
    }

    method FindService(path: string) returns (found: Option<Service>)
      ensures found == Find(services, path)
    {
      assert services[0..] == services;
      for i := 0 to |services|
        invariant Find(services, path) == Find(services[i..], path)
      {
        assert services[i..][0] == services[i] && services[i..][1..] == services[i + 1..];
        if services[i].path == path {
          return Some(services[i]);
        }
      }
      found := None;
    }

    method NewService(path: string, d: Dictionary) returns (s: Service, ok: bool)
      ensures fresh(s) && s.path == path && s.update == Update && s.bus == bus
      ensures s.props == Applied(BLANK, d) && (ok <==> AllValid(ValidEntry, d))
    {
      s := new DBusProxy(bus, path, Update, BLANK);
      var r := s.UpdateProperties(d);
      ok := r.Ok?;
      DictionaryAccepted(BLANK, d);
    }

    ghost function Found(path: string): set<Service>
      reads this
    {
      if Find(services, path).Some? then {Find(services, path).value} else {}
    }

    /** One turn of the merge loop: reuse the object with that path, or create one. */
    method ReuseOrCreate(path: string, d: Dictionary) returns (s: Service, ok: bool)
      requires Valid()
      modifies Found(path)
      ensures s.path == path && s.update == Update && (ok <==> AllValid(ValidEntry, d))
      ensures Find(services, path).Some? ==>
        s == Find(services, path).value && s.props == Applied(old(Find(services, path).value.props), d)
      ensures Find(services, path).None? ==> fresh(s) && s.props == Applied(BLANK, d)
      ensures forall x :: x in services ==>
        x.props == if Find(services, path) == Some(x) then Applied(old(x.props), d) else old(x.props)
    {
      var found := FindService(path);
      FindIn(services, path);
      if found.Some? {
        s := found.value;
        DictionaryAccepted(s.props, d);
        var r := s.UpdateProperties(d);
        ok := r.Ok?;
      } else {
        s, ok := NewService(path, d);
      }
    }

    /** Where the merge loop stands after i entries: the new order so far, new objects with just what
        their entry says, and the listed objects with what the entries so far made of `was`. */
    ghost predicate MergedSoFar(newOrder: seq<Service>, changed: seq<Entry>, i: nat, was: map<Service, ServProperties>)
      requires i <= |changed|
      reads services, newOrder, this
    {
      && AllAccepted(changed[..i]) && Merged(newOrder, services, changed[..i])
      && (forall k :: 0 <= k < i && Find(services, changed[k].0).None? ==>
            newOrder[k].props == Applied(BLANK, changed[k].1))
      && (forall s :: s in services ==>
            s in was && s.props == PropsAfter(was[s], services, s, changed[..i]))
    }

    /** One turn of the merge loop. */
    method MergeOne(newOrder: seq<Service>, changed: seq<Entry>, i: nat, ghost was: map<Service, ServProperties>)
      returns (s: Service, ok: bool)
      requires Valid() && i < |changed| && MergedSoFar(newOrder, changed, i, was)
      modifies Found(changed[i].0)
      ensures ok <==> AllValid(ValidEntry, changed[i].1)
      ensures ok ==> MergedSoFar(newOrder + [s], changed, i + 1, was)
      ensures Find(services, changed[i].0).None? ==> fresh(s)
    {
      FindIn(services, changed[i].0);
      s, ok := ReuseOrCreate(changed[i].0, changed[i].1);
      if ok {
        forall x | x in services ensures x.props == PropsAfter(was[x], services, x, changed[..i + 1]) {
          PropsAfterStep(was[x], services, x, changed, i);
        }
        MergedStep(newOrder, services, changed, i, s);
      }
    }

    /** The merge loop over the remaining list. */
    method MergeInto(changed: seq<Entry>) returns (newOrder: seq<Service>, ok: bool)
      requires Valid()
      modifies Objects()
      ensures ok <==> AllAccepted(changed)
      ensures ok ==> Merged(newOrder, services, changed)
      ensures ok ==> forall i :: 0 <= i < |changed| && Find(services, changed[i].0).None? ==>
        fresh(newOrder[i]) && newOrder[i].props == Applied(BLANK, changed[i].1)
      ensures ok ==> forall s :: s in services ==> s.props == PropsAfter(old(s.props), services, s, changed)
    {
      ghost var was := map s | s in services :: s.props;
      newOrder := [];
      for i := 0 to |changed|
        invariant MergedSoFar(newOrder, changed, i, was)
        invariant forall k :: 0 <= k < i && Find(services, changed[k].0).None? ==> fresh(newOrder[k])
      {
        FindIn(services, changed[i].0);
        var s, accepted := MergeOne(newOrder, changed, i, was);
        if !accepted {
          return newOrder, false;
        }
        newOrder := newOrder + [s];
      }
      assert changed[..|changed|] == changed;
      ok := true;
    }

    /** process_services_changed. On success the list is the changed entries in order; an entry
        whose path is kept is the same object as before, every other one is new, and new ones are
        all different. A kept object that is first with its path has had all entries for the path
        applied in order; every other object is as it was. An unacceptable entry throws. */
    method ProcessServicesChanged(removed: seq<string>, changed: seq<Entry>) returns (ok: bool)
      requires Valid()
      modifies this`services, Objects()
      ensures Valid()
      ensures ok <==> AllAccepted(changed)
      ensures ok ==> Merged(services, Without(old(services), removed), changed)
      ensures ok ==> forall i :: 0 <= i < |changed| && Find(Without(old(services), removed), changed[i].0).None? ==>
        fresh(services[i]) && services[i].props == Applied(BLANK, changed[i].1)
      ensures ok ==> forall s :: s in old(services) ==>
        s.props == PropsAfter(old(s.props), Without(old(services), removed), s, changed)
      ensures !ok ==> services == Without(old(services), removed)
    {
      ghost var before := services;
      WithoutKeeps(services, removed);
      EraseRemoved(removed);
      assert Objects() <= set s | s in before;
      forall s | s in before && s !in services ensures Find(services, s.path) != Some(s) { FindIn(services, s.path); }
      var newOrder, merged := MergeInto(changed);
      if !merged {
        return false;
      }
      services := newOrder;
      ok := true;
    }

    /** arrays_to_proxies: a new proxy for each entry, in order. */
    method ArraysToProxies(entries: seq<Entry>) returns (proxies: seq<Service>, ok: bool)
      ensures ok <==> AllAccepted(entries)
      ensures ok ==> Merged(proxies, [], entries)
      ensures ok ==> forall i :: 0 <= i < |proxies| ==> fresh(proxies[i]) && proxies[i].props == Applied(BLANK, entries[i].1)
    {
      proxies := [];
      for i := 0 to |entries|
        invariant AllAccepted(entries[..i]) && Merged(proxies, [], entries[..i])
        invariant forall k :: 0 <= k < i ==> fresh(proxies[k]) && proxies[k].props == Applied(BLANK, entries[k].1)
      {
        var s, accepted := NewService(entries[i].0, entries[i].1);
        if !accepted {
          return proxies, false;
        }
        MergedStep(proxies, [], entries, i, s);
        proxies := proxies + [s];
      }
      assert entries[..|entries|] == entries;
      ok := true;
    }

    /** get_proxies_cb<Service>. An error reply changes nothing; a reply stores new proxies in the
        daemon's order, and hands them on unless there are none. An unacceptable entry throws
        before the list is stored. A body of another D-Bus type (None) counts as no entries. */
    method GotServices(reply: bool, body: Option<seq<Entry>>) returns (handed: Option<seq<Service>>, ok: bool)
      requires Valid()
      modifies this`services
      ensures Valid()
      ensures !reply ==> ok && services == old(services) && handed == None
      ensures reply ==> (ok <==> AllAccepted(Entries(body)))
      ensures reply && !ok ==> services == old(services) && handed == None
      ensures reply && ok ==> Merged(services, [], Entries(body))
      ensures reply && ok ==> forall i :: 0 <= i < |services| ==>
        fresh(services[i]) && services[i].props == Applied(BLANK, Entries(body)[i].1)
      ensures reply && ok ==> handed == if services == [] then None else Some(services)
    {
      handed, ok := None, true;
      if reply {
        var proxies;
        proxies, ok := ArraysToProxies(Entries(body));
        if ok {
          services := proxies;
          handed := if services == [] then None else Some(services);
        }
      }
    }

    /** on_services_changed_cb: merge, then hand on the new list. */
    method OnServicesChanged(removed: seq<string>, changed: seq<Entry>) returns (handed: Option<seq<Service>>)
      requires Valid()
      modifies this`services, Objects()
      ensures Valid()
      ensures handed == if AllAccepted(changed) then Some(services) else None
      ensures AllAccepted(changed) ==> Merged(services, Without(old(services), removed), changed)
      ensures AllAccepted(changed) ==>
        forall i :: 0 <= i < |changed| && Find(Without(old(services), removed), changed[i].0).None? ==>
          fresh(services[i]) && services[i].props == Applied(BLANK, changed[i].1)
      ensures AllAccepted(changed) ==> forall s :: s in old(services) ==>
        s.props == PropsAfter(old(s.props), Without(old(services), removed), s, changed)
    {
      var ok := ProcessServicesChanged(removed, changed);
      handed := if ok then Some(services) else None;
    }
  }
}
