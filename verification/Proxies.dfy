/** The proxy object itself (gproxy.hpp): its registry and its properties, updated in place. */
module Proxies {
  import opened Wrappers
  import opened Bus
  import opened Works
  import opened Registry
  import opened Variants
  import opened Folds

  function StartMany(b: Bus, n: nat): Bus {
    if n == 0 then b else AsyncStart(StartMany(b, n - 1))
  }

  /** DBusProxy<P>; `update` is P::update, which the template calls on `props_`. */
  class DBusProxy<P> {
    const bus: DBus
    const path: string
    const update: (P, Key, Variant) -> Result<P, Failure>
    var callbackCounter: nat
    var callbacks: map<nat, Stored>
    var props: P

    ghost function Callbacks(): Registry
      reads this`callbackCounter, this`callbacks
    {
      Registry(callbackCounter, callbacks)
    }

    constructor (bus: DBus, path: string, update: (P, Key, Variant) -> Result<P, Failure>, blank: P)
      ensures this.bus == bus && this.path == path && this.update == update
      ensures props == blank && Callbacks() == EMPTY
    {
      this.bus, this.path, this.update := bus, path, update;
      callbackCounter, callbacks, props := 0, map[], blank;
    }

    /** One entry of a dictionary, or one PropertyChanged signal. */
    method UpdateProperty(name: string, v: Variant) returns (r: Result<(), Failure>)
      modifies this`props
      ensures props == Reached(update, old(props), [(name, v)])
      ensures r.Ok? <==> Fold(update, old(props), [(name, v)]).Ok?
    {
      var next := update(props, KeyOf(name), v);
      if next.Err? {
        return Err(next.error);
      }
      props := next.value;
      r := Ok(());
    }

    /** The dictionary is applied entry by entry; an exception leaves the entries before it in. */
    method UpdateProperties(d: Dictionary) returns (r: Result<(), Failure>)
      modifies this`props
      ensures props == Reached(update, old(props), d)
      ensures r.Ok? <==> Fold(update, old(props), d).Ok?
    {
      assert d[0..] == d;
      for i := 0 to |d|
        invariant Reached(update, old(props), d) == Reached(update, props, d[i..])
        invariant Fold(update, old(props), d) == Fold(update, props, d[i..])
      {
        assert d[i..][0] == d[i] && d[i..][1..] == d[i + 1..];
        var next := update(props, KeyOf(d[i].0), d[i].1);
        if next.Err? {
          return Err(next.error);
        }
        props := next.value;
      }
      r := Ok(());
    }

    /** Counts the call, and registers its callback, if any, under a fresh key. */
    method PrepareCallback(callback: Option<Stored>) returns (counter: Option<nat>)
      modifies this`callbackCounter, this`callbacks, bus`pendingCalls
      ensures (Callbacks(), counter) == Register(old(Callbacks()), callback)
      ensures bus.State() == AsyncStart(old(bus.State()))
    {
      bus.OnAnyAsyncStart();
      counter := None;
      if callback.Some? {
        callbackCounter := callbackCounter + 1;
        counter := Some(callbackCounter);
        callbacks := callbacks[callbackCounter := callback.value];
      }
    }

    /** executeCallBack, with a callback that starts the calls of `nested` on this same proxy
        while its own key is still registered. A failed lookup throws before anything happens. */
    method ExecuteCallBack(counter: Option<nat>, kind: Kind, nested: seq<Option<Stored>>)
      returns (ran: Result<Option<Stored>, LookupError>)
      requires counter.None? ==> nested == []
      modifies this`callbackCounter, this`callbacks, bus`pendingCalls, bus`quit, bus.loop
      ensures counter.Some? && Fetch(old(Callbacks()), counter.value, kind).Err? ==>
        ran == Err(Fetch(old(Callbacks()), counter.value, kind).error)
        && Callbacks() == LookedUp(old(Callbacks()), counter.value) && bus.State() == old(bus.State())
      ensures counter.Some? && Fetch(old(Callbacks()), counter.value, kind).Ok? ==>
        ran == Ok(Some(Fetch(old(Callbacks()), counter.value, kind).value))
        && Callbacks() == Erase(RegisterAll(old(Callbacks()), nested).0, counter.value)
      ensures counter.None? ==> ran == Ok(None) && Callbacks() == old(Callbacks())
      ensures ran.Ok? ==> bus.State() == AsyncDone(StartMany(old(bus.State()), |nested|))
    {
      ran := Ok(None);
      if counter.Some? {
        var found := Fetch(Registry(callbackCounter, callbacks), counter.value, kind);
        if found.Err? {
          if counter.value !in callbacks {
            callbacks := callbacks[counter.value := Vacant];
          }
          return Err(found.error);
        }
        for i := 0 to |nested|
          invariant Callbacks() == RegisterAll(old(Callbacks()), nested[..i]).0
          invariant bus.State() == StartMany(old(bus.State()), i) && bus.loop == old(bus.loop)
        {
          var key := PrepareCallback(nested[i]);
          assert nested[..i + 1][..i] == nested[..i];
        }
        assert nested[..|nested|] == nested;
        callbacks := callbacks - {counter.value};
        ran := Ok(Some(found.value));
      }
      bus.OnAnyAsyncDone();
    }
  }
}
