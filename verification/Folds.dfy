/** Feeding a dictionary to an `update` function, entry by entry, and what that amounts to. */
module Folds {
  import opened Wrappers
  import opened Variants

  /** What a dictionary says: the last value under each key. */
  function AsMap(d: Dictionary): map<Key, Variant> {
    if d == [] then map[] else map[KeyOf(d[0].0) := d[0].1] + AsMap(d[1..])
  }

  /** The entries in order; the first exception ends it. */
  function Fold<T>(update: (T, Key, Variant) -> Result<T, Failure>, x: T, d: Dictionary): Result<T, Failure> {
    if d == [] then Ok(x) else
      match update(x, KeyOf(d[0].0), d[0].1)
      case Err(e) => Err(e)
      case Ok(y) => Fold(update, y, d[1..])
  }

  /** The object when the loop over the entries ends, normally or by the first exception. */
  function Reached<T>(update: (T, Key, Variant) -> Result<T, Failure>, x: T, d: Dictionary): T {
    if d == [] then x else
      match update(x, KeyOf(d[0].0), d[0].1)
      case Err(_) => x
      case Ok(y) => Reached(update, y, d[1..])
  }

  lemma {:induction false} ReachedIsFold<T>(update: (T, Key, Variant) -> Result<T, Failure>, x: T, d: Dictionary)
    ensures Fold(update, x, d).Ok? ==> Fold(update, x, d) == Ok(Reached(update, x, d))
    decreases |d|
  {
    if d != [] && update(x, KeyOf(d[0].0), d[0].1).Ok? {
      ReachedIsFold(update, update(x, KeyOf(d[0].0), d[0].1).value, d[1..]);
    }
  }

  lemma {:induction false} ReachedInTurn<T>(update: (T, Key, Variant) -> Result<T, Failure>, x: T, a: Dictionary, b: Dictionary)
    ensures Fold(update, x, a).Ok? ==> Reached(update, x, a + b) == Reached(update, Reached(update, x, a), b)
    decreases |a|
  {
    if a == [] {
      assert a + b == b;
    } else {
      assert (a + b)[0] == a[0] && (a + b)[1..] == a[1..] + b;
      if update(x, KeyOf(a[0].0), a[0].1).Ok? {
        ReachedInTurn(update, update(x, KeyOf(a[0].0), a[0].1).value, a[1..], b);
      }
    }
  }

  /** GVariantParser::parse, and equally DBusProxy::updateProperties. */
  method Parse<T>(update: (T, Key, Variant) -> Result<T, Failure>, x: T, d: Dictionary)
    returns (r: Result<T, Failure>)
    ensures r == Fold(update, x, d)
  {
    var y := x;
    assert d[0..] == d;
    for i := 0 to |d|
      invariant Fold(update, x, d) == Fold(update, y, d[i..])
    {
      assert d[i..][0] == d[i] && d[i..][1..] == d[i + 1..];
      match update(y, KeyOf(d[i].0), d[i].1) {
        case Err(e) => return Err(e);
        case Ok(z) => y := z;
      }
    }
    r := Ok(y);
  }

  /** Folding a concatenation is folding in turn. */
  lemma {:induction false} FoldConcat<T>(update: (T, Key, Variant) -> Result<T, Failure>, x: T, a: Dictionary, b: Dictionary)
    ensures Fold(update, x, a + b) ==
      match Fold(update, x, a) { case Ok(y) => Fold(update, y, b) case Err(e) => Err(e) }
  {
    if a == [] {
      assert a + b == b;
    } else {
      assert (a + b)[0] == a[0] && (a + b)[1..] == a[1..] + b;
      match update(x, KeyOf(a[0].0), a[0].1) {
        case Err(e) =>
        case Ok(y) => FoldConcat(update, y, a[1..], b);
      }
    }
  }

  /** One entry read declaratively: `view` gives the object for the values under each key, and an
      entry that `valid` rejects throws. */
  ghost predicate FollowsAt<T>(update: (T, Key, Variant) -> Result<T, Failure>,
                               view: map<Key, Variant> -> T, valid: (Key, Variant) -> bool,
                               m: map<Key, Variant>, k: Key, v: Variant) {
    if valid(k, v) then update(view(m), k, v) == Ok(view(m[k := v])) else update(view(m), k, v).Err?
  }

  ghost predicate Follows<T>(update: (T, Key, Variant) -> Result<T, Failure>,
                             view: map<Key, Variant> -> T, valid: (Key, Variant) -> bool) {
    forall m, k, v :: FollowsAt(update, view, valid, m, k, v)
  }

  predicate AllValid(valid: (Key, Variant) -> bool, d: Dictionary) {
    forall i :: 0 <= i < |d| ==> valid(KeyOf(d[i].0), d[i].1)
  }

  lemma AllValidSplit(valid: (Key, Variant) -> bool, d: Dictionary)
    requires d != []
    ensures AllValid(valid, d) <==> valid(KeyOf(d[0].0), d[0].1) && AllValid(valid, d[1..])
  {
    assert forall i :: 0 <= i < |d| - 1 ==> d[1..][i] == d[i + 1];
    assert forall i :: 0 < i < |d| ==> d[i] == d[1..][i - 1];
  }

  lemma UpdateThenMerge(m: map<Key, Variant>, k: Key, v: Variant, r: map<Key, Variant>)
    ensures m[k := v] + r == m + (map[k := v] + r)
  {
  }

  /** Last writer wins: after any dictionary the object shows the last value under each key, over
      what it showed before; and the fold succeeds exactly when every entry is valid. */
  lemma {:induction false} LastWriterWins<T>(update: (T, Key, Variant) -> Result<T, Failure>,
      view: map<Key, Variant> -> T, valid: (Key, Variant) -> bool, m: map<Key, Variant>, d: Dictionary)
    requires Follows(update, view, valid)
    ensures Fold(update, view(m), d).Ok? <==> AllValid(valid, d)
    ensures AllValid(valid, d) ==> Fold(update, view(m), d) == Ok(view(m + AsMap(d)))
    decreases |d|
  {
    if d == [] {
      assert m + map[] == m;
    } else {
      var k, v := KeyOf(d[0].0), d[0].1;
      assert FollowsAt(update, view, valid, m, k, v);
      AllValidSplit(valid, d);
      if valid(k, v) {
        LastWriterWins(update, view, valid, m[k := v], d[1..]);
        UpdateThenMerge(m, k, v, AsMap(d[1..]));
      }
    }
  }

  /** What AsMap records: under each key the last entry with it, and nothing else. */
  lemma {:induction false} AsMapIsLast(d: Dictionary, i: nat)
    requires i < |d| && forall j :: i < j < |d| ==> KeyOf(d[j].0) != KeyOf(d[i].0)
    ensures KeyOf(d[i].0) in AsMap(d) && AsMap(d)[KeyOf(d[i].0)] == d[i].1
  {
    if i > 0 {
      assert forall j :: i - 1 < j < |d| - 1 ==> d[1..][j] == d[j + 1];
      AsMapIsLast(d[1..], i - 1);
    } else {
      AsMapKeys(d[1..]);
      forall j | 0 <= j < |d| - 1 ensures KeyOf(d[1..][j].0) != KeyOf(d[0].0) { assert d[1..][j] == d[j + 1]; }
    }
  }

  lemma {:induction false} AsMapKeys(d: Dictionary)
    ensures forall k :: k in AsMap(d) <==> exists i :: 0 <= i < |d| && KeyOf(d[i].0) == k
  {
    if d != [] {
      AsMapKeys(d[1..]);
      forall k ensures k in AsMap(d) <==> exists i :: 0 <= i < |d| && KeyOf(d[i].0) == k {
        if k in AsMap(d[1..]) {
          var i :| 0 <= i < |d| - 1 && KeyOf(d[1..][i].0) == k;
          assert KeyOf(d[i + 1].0) == k;
        }
        if i :| 0 <= i < |d| && KeyOf(d[i].0) == k && k != KeyOf(d[0].0) {
          assert KeyOf(d[1..][i - 1].0) == k;
        }
      }
    }
  }

  lemma AsMapOfTwo(a: (string, Variant), b: (string, Variant))
    ensures AsMap([a, b]) == map[KeyOf(a.0) := a.1][KeyOf(b.0) := b.1]
  {
    assert [a, b][1..] == [b] && [b][1..] == [];
    assert AsMap([b]) == map[KeyOf(b.0) := b.1] + map[];
  }

  /** Only what a dictionary says counts, not the order or the repetitions in it. */
  lemma SameMapSameFold<T>(update: (T, Key, Variant) -> Result<T, Failure>, view: map<Key, Variant> -> T,
      valid: (Key, Variant) -> bool, m: map<Key, Variant>, d: Dictionary, e: Dictionary)
    requires Follows(update, view, valid) && AllValid(valid, d) && AllValid(valid, e) && AsMap(d) == AsMap(e)
    ensures Fold(update, view(m), d) == Fold(update, view(m), e)
    ensures Fold(update, view(m), d).Ok?
  {
    LastWriterWins(update, view, valid, m, d);
    LastWriterWins(update, view, valid, m, e);
  }

  lemma SwapUpdates(k: Key, v: Variant, l: Key, w: Variant)
    requires k != l
    ensures map[k := v][l := w] == map[l := w][k := v]
  {
  }

  /** Entries with different keys mean the same in either order. */
  lemma DistinctKeysCommute(a: (string, Variant), b: (string, Variant))
    ensures KeyOf(a.0) != KeyOf(b.0) ==> AsMap([a, b]) == AsMap([b, a])
  {
    AsMapOfTwo(a, b);
    AsMapOfTwo(b, a);
    if KeyOf(a.0) != KeyOf(b.0) {
      SwapUpdates(KeyOf(a.0), a.1, KeyOf(b.0), b.1);
    }
  }

  lemma MergeAssociates(a: map<Key, Variant>, b: map<Key, Variant>, c: map<Key, Variant>)
    ensures a + (b + c) == (a + b) + c
  {
  }

  lemma {:induction false} AsMapConcat(d: Dictionary, e: Dictionary)
    ensures AsMap(d + e) == AsMap(d) + AsMap(e)
  {
    if d == [] {
      assert d + e == e;
    } else {
      assert (d + e)[0] == d[0] && (d + e)[1..] == d[1..] + e;
      AsMapConcat(d[1..], e);
      MergeAssociates(map[KeyOf(d[0].0) := d[0].1], AsMap(d[1..]), AsMap(e));
    }
  }

  /** Swapping two neighbours with different keys anywhere in a valid dictionary changes nothing. */
  lemma NeighboursCommute<T>(update: (T, Key, Variant) -> Result<T, Failure>, view: map<Key, Variant> -> T,
      valid: (Key, Variant) -> bool, m: map<Key, Variant>, d: Dictionary, a: (string, Variant),
      b: (string, Variant), e: Dictionary)
    requires Follows(update, view, valid) && AllValid(valid, d + [a, b] + e)
    ensures KeyOf(a.0) != KeyOf(b.0) ==>
      Fold(update, view(m), d + [a, b] + e) == Fold(update, view(m), d + [b, a] + e)
  {
    var x, y := d + [a, b] + e, d + [b, a] + e;
    assert x[|d|] == a && x[|d| + 1] == b;
    forall i | 0 <= i < |y| ensures valid(KeyOf(y[i].0), y[i].1) {
      var j := if i == |d| then i + 1 else if i == |d| + 1 then i - 1 else i;
      assert y[i] == x[j];
    }
    DistinctKeysCommute(a, b);
    AsMapConcat(d + [a, b], e);
    AsMapConcat(d, [a, b]);
    AsMapConcat(d + [b, a], e);
    AsMapConcat(d, [b, a]);
    if KeyOf(a.0) != KeyOf(b.0) {
      SameMapSameFold(update, view, valid, m, x, y);
    }
  }
}
