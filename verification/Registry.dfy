/** The callback registry of one proxy: `callback_counter_` and `callbacks_` of gproxy.hpp. */
module Registry {
  import opened Wrappers
  import opened Works

  /** A std::any: empty, or holding a callback of type `kind`. `owner` tells callbacks apart (it is
      the number of the call that registered it); `body` is what the callback does. */
  datatype Stored = Vacant | Stored(kind: Kind, owner: nat, body: seq<Work>)

  datatype Registry = Registry(counter: nat, callbacks: map<nat, Stored>)

  const EMPTY := Registry(0, map[])

  /** Why std::any_cast throws: there was nothing under the key (operator[] has then inserted an empty
      std::any), or it is empty or a callback of another type. */
  datatype LookupError = Missing | WrongKind

  /** prepareCallback: a fresh key is taken only when there is a callback. */
  function Register(r: Registry, callback: Option<Stored>): (Registry, Option<nat>) {
    match callback
    case None => (r, None)
    case Some(cb) =>
      var key := r.counter + 1;
      (Registry(key, r.callbacks[key := cb]), Some(key))
  }

  function Fetch(r: Registry, key: nat, kind: Kind): (found: Result<Stored, LookupError>)
    ensures found.Ok? ==> found.value.Stored? && key in r.callbacks && r.callbacks[key] == found.value
  {
    if key !in r.callbacks then Err(Missing)
    else if r.callbacks[key].Vacant? || r.callbacks[key].kind != kind then Err(WrongKind)
    else Ok(r.callbacks[key])
  }

  /** The registry after the lookup of executeCallBack: operator[] inserts under a missing key. */
  function LookedUp(r: Registry, key: nat): Registry {
    if key in r.callbacks then r else r.(callbacks := r.callbacks[key := Vacant])
  }

  function Erase(r: Registry, key: nat): Registry {
    r.(callbacks := r.callbacks - {key})
  }

  function CallbackOf(w: Work, owner: nat): Option<Stored> {
    match w
    case Plain(_, _) => None
    case Notifying(_, kind, body) => Some(Stored(kind, owner, body))
  }

  /** Several registrations in a row, as the calls of a callback make them; with their keys. */
  function RegisterAll(r: Registry, callbacks: seq<Option<Stored>>): (Registry, seq<Option<nat>>) {
    if callbacks == [] then (r, []) else
      var (before, keys) := RegisterAll(r, callbacks[..|callbacks| - 1]);
      var (after, key) := Register(before, callbacks[|callbacks| - 1]);
      (after, keys + [key])
  }

  ghost predicate KeysBounded(r: Registry) {
    forall k :: k in r.callbacks ==> 1 <= k <= r.counter
  }

  /** Re-entrancy: whatever a callback registers on its own proxy gets keys above every old one,
      each different, so the later erasure of the callback's own key takes away nothing else. */
  lemma {:induction false} NestedKeysAreNew(r: Registry, callbacks: seq<Option<Stored>>)
    requires KeysBounded(r)
    ensures var (after, keys) := RegisterAll(r, callbacks);
      && KeysBounded(after) && |keys| == |callbacks| && r.counter <= after.counter
      && (forall k :: k <= r.counter ==> (k in after.callbacks <==> k in r.callbacks))
      && (forall k :: k in r.callbacks ==> after.callbacks[k] == r.callbacks[k])
      && (forall i :: 0 <= i < |callbacks| ==> (keys[i].Some? <==> callbacks[i].Some?))
      && (forall i :: 0 <= i < |callbacks| && callbacks[i].Some? ==>
           r.counter < keys[i].value <= after.counter && keys[i].value in after.callbacks
           && after.callbacks[keys[i].value] == callbacks[i].value)
      && (forall i, j :: 0 <= i < j < |callbacks| && keys[i].Some? && keys[j].Some? ==>
           keys[i].value < keys[j].value)
  {
    if callbacks != [] {
      NestedKeysAreNew(r, callbacks[..|callbacks| - 1]);
    }
  }
}
