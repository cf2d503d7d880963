/** The two-way tables between enumerators and D-Bus strings (gdbus_private.hpp). */
module EnumTables {
  import opened Wrappers

  /** The two std::runtime_error cases. */
  datatype TableError = InvalidEnum | InvalidString

  datatype EnumStringMap<E(==)> = EnumStringMap(data: seq<(E, string)>) {

    function EnumFrom(e: E, i: nat): Result<string, TableError>
      requires i <= |data|
      decreases |data| - i
    {
      if i == |data| then Err(InvalidEnum) else if data[i].0 == e then Ok(data[i].1) else EnumFrom(e, i + 1)
    }

    function StringFrom(s: string, i: nat): Result<E, TableError>
      requires i <= |data|
      decreases |data| - i
    {
      if i == |data| then Err(InvalidString) else if data[i].1 == s then Ok(data[i].0) else StringFrom(s, i + 1)
    }

    /** The string of the first row for e. */
    function ToString(e: E): Result<string, TableError> {
      EnumFrom(e, 0)
    }

    /** The enumerator of the first row with string s. */
    function FromString(s: string): Result<E, TableError> {
      StringFrom(s, 0)
    }

    /** toString and fromString as the searches over the array that they are. */
    method SearchEnum(e: E) returns (r: Result<string, TableError>)
      ensures r == ToString(e)
    {
      for i := 0 to |data|
        invariant ToString(e) == EnumFrom(e, i)
      {
        if data[i].0 == e {
          return Ok(data[i].1);
        }
      }
      r := Err(InvalidEnum);
    }

    method SearchString(s: string) returns (r: Result<E, TableError>)
      ensures r == FromString(s)
    {
      for i := 0 to |data|
        invariant FromString(s) == StringFrom(s, i)
      {
        if data[i].1 == s {
          return Ok(data[i].0);
        }
      }
      r := Err(InvalidString);
    }
  }

  predicate DistinctStrings<E(==)>(m: EnumStringMap<E>) {
    forall i, j :: 0 <= i < j < |m.data| ==> m.data[i].1 != m.data[j].1
  }

  predicate DistinctEnums<E(==)>(m: EnumStringMap<E>) {
    forall i, j :: 0 <= i < j < |m.data| ==> m.data[i].0 != m.data[j].0
  }

  /** A search stops at the first row for e; without one it throws. */
  lemma {:induction false} EnumFromFinds<E>(m: EnumStringMap<E>, e: E, i: nat) returns (k: nat)
    requires i <= |m.data|
    ensures i <= k <= |m.data| && forall j :: i <= j < k ==> m.data[j].0 != e
    ensures m.EnumFrom(e, i) == if k == |m.data| then Err(InvalidEnum) else Ok(m.data[k].1)
    ensures k < |m.data| ==> m.data[k].0 == e
    decreases |m.data| - i
  {
    k := i;
    if i < |m.data| && m.data[i].0 != e {
      k := EnumFromFinds(m, e, i + 1);
    }
  }

  lemma {:induction false} StringFromFinds<E>(m: EnumStringMap<E>, s: string, i: nat) returns (k: nat)
    requires i <= |m.data|
    ensures i <= k <= |m.data| && forall j :: i <= j < k ==> m.data[j].1 != s
    ensures m.StringFrom(s, i) == if k == |m.data| then Err(InvalidString) else Ok(m.data[k].0)
    ensures k < |m.data| ==> m.data[k].1 == s
    decreases |m.data| - i
  {
    k := i;
    if i < |m.data| && m.data[i].1 != s {
      k := StringFromFinds(m, s, i + 1);
    }
  }

  /** A string is accepted exactly when some row has it. */
  lemma AcceptedStrings<E>(m: EnumStringMap<E>, s: string)
    ensures m.FromString(s).Ok? <==> exists i :: 0 <= i < |m.data| && m.data[i].1 == s
  {
    var k := StringFromFinds(m, s, 0);
  }

  /** From enumerator to string and back, alias rows allowed: only the strings must differ. */
  lemma EnumRoundTrip<E>(m: EnumStringMap<E>, e: E)
    requires DistinctStrings(m)
    ensures m.ToString(e).Ok? ==> m.FromString(m.ToString(e).value) == Ok(e)
  {
    var i := EnumFromFinds(m, e, 0);
    if i < |m.data| {
      var j := StringFromFinds(m, m.data[i].1, 0);
    }
  }

  /** For any table at all: an enumerator of the table survives the round trip exactly when no
      earlier row gives the string of its first row to another enumerator first. */
  lemma EnumRoundTripExactly<E>(m: EnumStringMap<E>, i: nat)
    requires i < |m.data| && forall j :: 0 <= j < i ==> m.data[j].0 != m.data[i].0
    ensures m.ToString(m.data[i].0) == Ok(m.data[i].1)
    ensures m.FromString(m.data[i].1) == Ok(m.data[i].0) <==>
      forall j :: 0 <= j < i ==> m.data[j].1 != m.data[i].1
  {
    var h := EnumFromFinds(m, m.data[i].0, 0);
    var k := StringFromFinds(m, m.data[i].1, 0);
  }

  /** Without alias rows the two lookups are inverse to each other. */
  lemma StringRoundTrip<E>(m: EnumStringMap<E>, s: string)
    requires DistinctEnums(m)
    ensures m.FromString(s).Ok? ==> m.ToString(m.FromString(s).value) == Ok(s)
  {
    var j := StringFromFinds(m, s, 0);
    if j < |m.data| {
      var i := EnumFromFinds(m, m.data[j].0, 0);
    }
  }

  /** toString after fromString: the canonical spelling of a string. */
  function Canonical<E>(m: EnumStringMap<E>, s: string): Result<string, TableError> {
    match m.FromString(s)
    case Ok(e) => m.ToString(e)
    case Err(x) => Err(x)
  }

  /** With alias rows: every accepted string has a canonical spelling, which means the same and is
      its own canonical spelling. */
  lemma CanonicalIdempotent<E>(m: EnumStringMap<E>, s: string)
    requires DistinctStrings(m)
    ensures Canonical(m, s).Ok? <==> m.FromString(s).Ok?
    ensures Canonical(m, s).Ok? ==>
      var c := Canonical(m, s).value;
      m.FromString(c) == m.FromString(s) && Canonical(m, c) == Ok(c)
  {
    var j := StringFromFinds(m, s, 0);
    if j < |m.data| {
      var i := EnumFromFinds(m, m.data[j].0, 0);
      EnumRoundTrip(m, m.data[j].0);
    }
  }

  // ----- Lists -----

  /** as_to_vector on an `as` value with a table: the first unknown string throws. */
  function Vector<E(==)>(m: EnumStringMap<E>, items: seq<string>): Result<seq<E>, TableError> {
    if items == [] then Ok([]) else
      match m.FromString(items[0])
      case Err(x) => Err(x)
      case Ok(e) =>
        match Vector(m, items[1..])
        case Err(x) => Err(x)
        case Ok(rest) => Ok([e] + rest)
  }

  method AsToVector<E(==)>(m: EnumStringMap<E>, items: seq<string>) returns (r: Result<seq<E>, TableError>)
    ensures r == Vector(m, items)
  {
    var container := [];
    assert items[0..] == items;
    assert Vector(m, items).Ok? ==> container + Vector(m, items).value == Vector(m, items).value;
    for i := 0 to |items|
      invariant Vector(m, items) ==
        match Vector(m, items[i..]) { case Ok(rest) => Ok(container + rest) case Err(x) => Err(x) }
    {
      assert items[i..][0] == items[i] && items[i..][1..] == items[i + 1..];
      var e := m.SearchString(items[i]);
      if e.Err? {
        return Err(e.error);
      }
      ghost var before := container;
      container := container + [e.value];
      if Vector(m, items[i + 1..]).Ok? {
        assert before + ([e.value] + Vector(m, items[i + 1..]).value) == container + Vector(m, items[i + 1..]).value;
      }
    }
    assert container + [] == container;
    r := Ok(container);
  }

  /** Printing a list of enumerators. */
  function Strings<E(==)>(m: EnumStringMap<E>, es: seq<E>): (r: Result<seq<string>, TableError>)
    ensures r.Ok? ==> |r.value| == |es|
  {
    if es == [] then Ok([]) else
      match m.ToString(es[0])
      case Err(x) => Err(x)
      case Ok(s) =>
        match Strings(m, es[1..])
        case Err(x) => Err(x)
        case Ok(rest) => Ok([s] + rest)
  }

  /** The round trip, lifted to lists of any length. */
  lemma {:induction false} ListRoundTrip<E>(m: EnumStringMap<E>, es: seq<E>)
    requires DistinctStrings(m)
    ensures Strings(m, es).Ok? ==> Vector(m, Strings(m, es).value) == Ok(es)
  {
    if es != [] && Strings(m, es).Ok? {
      EnumRoundTrip(m, es[0]);
      ListRoundTrip(m, es[1..]);
      var ss := Strings(m, es).value;
      assert ss[1..] == Strings(m, es[1..]).value;
      assert [es[0]] + es[1..] == es;
    }
  }

  /** Reading a list succeeds exactly when every string is in the table, element by element. */
  lemma {:induction false} VectorElements<E>(m: EnumStringMap<E>, items: seq<string>)
    ensures Vector(m, items).Ok? <==> forall i :: 0 <= i < |items| ==> m.FromString(items[i]).Ok?
    ensures Vector(m, items).Ok? ==> |Vector(m, items).value| == |items|
    ensures Vector(m, items).Ok? ==>
      forall i :: 0 <= i < |items| ==> m.FromString(items[i]) == Ok(Vector(m, items).value[i])
  {
    if items != [] {
      VectorElements(m, items[1..]);
      if forall i :: 0 <= i < |items| ==> m.FromString(items[i]).Ok? {
        forall i | 0 <= i < |items| - 1 ensures m.FromString(items[1..][i]).Ok? {
          assert items[1..][i] == items[i + 1];
        }
      }
      if Vector(m, items).Ok? {
        forall i | 0 <= i < |items| ensures m.FromString(items[i]) == Ok(Vector(m, items).value[i]) {
          if i > 0 { assert items[i] == items[1..][i - 1]; }
        }
      }
    }
  }
}
