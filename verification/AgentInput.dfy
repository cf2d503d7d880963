/** The Manager's reading of an agent request (gconnman_manager.cpp:445-556): parsing the requested
    fields and classifying the request. */
module AgentInput {
  import opened Wrappers
  import opened Variants

  // ----- Parsing -----

  /** A FieldDescription; an absent type or requirement stays a null pointer. */
  datatype Field = Field(name: string, kind: Option<string>, requirement: Option<string>)

  /** `fields` as it comes: a name with a dictionary of its properties. */
  type Request = seq<(string, Dictionary)>

  /** A string as g_variant_dup_string reads it: a value of another type gives a null pointer. */
  function TextOf(v: Variant): Option<string> {
    if v.Str? then Some(v.text) else None
  }

  /** Entry i is the last one under `key`. */
  ghost predicate LastAt(d: Dictionary, key: string, i: nat) {
    i < |d| && d[i].0 == key && forall j :: i < j < |d| ==> d[j].0 != key
  }

  /** What the dictionary says under `key`: the text of the last entry, or nothing. */
  ghost predicate Says(d: Dictionary, key: string, text: Option<string>) {
    && (forall i: nat :: LastAt(d, key, i) ==> text == TextOf(d[i].1))
    && ((forall i :: 0 <= i < |d| ==> d[i].0 != key) ==> text == None)
  }

  /** A description has the entry's name, and what its dictionary says under "Type" and "Requirement". */
  ghost predicate Describes(f: Field, name: string, d: Dictionary) {
    f.name == name && Says(d, "Type", f.kind) && Says(d, "Requirement", f.requirement)
  }

  ghost predicate DescribesAll(fields: seq<Field>, request: Request) {
    |fields| == |request| && forall i :: 0 <= i < |request| ==> Describes(fields[i], request[i].0, request[i].1)
  }

  lemma LastAtAppend(d: Dictionary, e: (string, Variant), key: string, i: nat)
    requires LastAt(d + [e], key, i)
    ensures if e.0 == key then i == |d| else i < |d| && LastAt(d, key, i)
  {
    var longer := d + [e];
    assert longer[|d|] == e;
    if i < |d| {
      assert longer[|d|].0 != key;
      forall j | i < j < |d| ensures d[j].0 != key { assert longer[j] == d[j]; }
      assert longer[i] == d[i];
    }
  }

  lemma SaysAppend(d: Dictionary, e: (string, Variant), key: string, text: Option<string>)
    requires Says(d, key, text)
    ensures Says(d + [e], key, if e.0 == key then TextOf(e.1) else text)
  {
    var longer := d + [e];
    var said := if e.0 == key then TextOf(e.1) else text;
    assert longer[|d|] == e;
    forall i: nat | LastAt(longer, key, i) ensures said == TextOf(longer[i].1) {
      LastAtAppend(d, e, key, i);
    }
    if forall i :: 0 <= i < |longer| ==> longer[i].0 != key {
      forall i | 0 <= i < |d| ensures d[i].0 != key { assert longer[i] == d[i]; }
    }
  }

  lemma DescribesStep(f: Field, name: string, d: Dictionary, i: nat)
    requires i < |d| && Describes(f, name, d[..i])
    ensures Describes(Field(f.name, if d[i].0 == "Type" then TextOf(d[i].1) else f.kind,
                            if d[i].0 == "Requirement" then TextOf(d[i].1) else f.requirement), name, d[..i + 1])
  {
    assert d[..i + 1] == d[..i] + [d[i]];
    SaysAppend(d[..i], d[i], "Type", f.kind);
    SaysAppend(d[..i], d[i], "Requirement", f.requirement);
  }

  lemma TypeIsNotRequirement()
    ensures "Type" != "Requirement"
  {
    assert |"Type"| != |"Requirement"|;
  }

  method ParseField(name: string, d: Dictionary) returns (f: Field)
    ensures Describes(f, name, d)
  {
    f := Field(name, None, None);
    for i := 0 to |d|
      invariant Describes(f, name, d[..i])
    {
      DescribesStep(f, name, d, i);
      TypeIsNotRequirement();
      var text := if d[i].1.Str? then Some(d[i].1.text) else None;
      if d[i].0 == "Type" {
        f := Field(f.name, text, f.requirement);
      } else if d[i].0 == "Requirement" {
        f := Field(f.name, f.kind, text);
      }
    }
    assert d[..|d|] == d;
  }

  method ParseFields(request: Request) returns (fields: seq<Field>)
    ensures DescribesAll(fields, request)
  {
    fields := [];
    for i := 0 to |request|
      invariant DescribesAll(fields, request[..i])
    {
      var f := ParseField(request[i].0, request[i].1);
      fields := fields + [f];
    }
    assert request[..|request|] == request;
  }

  /** There is at most one last entry, so a dictionary says one thing. */
  lemma SaysOne(d: Dictionary, key: string, a: Option<string>, b: Option<string>)
    requires Says(d, key, a) && Says(d, key, b)
    ensures a == b
  {
    if i :| 0 <= i < |d| && d[i].0 == key {
      var last := LastIndex(d, key);
      assert LastAt(d, key, last);
    }
  }

  lemma {:induction false} LastIndex(d: Dictionary, key: string) returns (i: nat)
    requires exists i :: 0 <= i < |d| && d[i].0 == key
    ensures LastAt(d, key, i)
  {
    i := |d| - 1;
    if d[i].0 != key {
      i := LastIndex(d[..i], key);
    }
  }

  // ----- Classification -----

  datatype InputType = Unknown | Wpa2Passphrase | Wpa2PassphraseWpsAlternative | HiddenNetworkName
    | WpaEnterprise | Wispr | ChallengeResponse

  predicate MandatoryPassphrase(f: Field) {
    f.name == "Passphrase" && f.requirement == Some("mandatory")
  }

  predicate Challenge(f: Field) {
    f.name == "Passphrase" && f.kind == Some("response")
  }

  /** Some requested field has this name. */
  predicate Asks(fields: set<Field>, name: string) {
    exists f :: f in fields && f.name == name
  }

  predicate AsksPassphrase(fields: set<Field>) {
    exists f :: f in fields && MandatoryPassphrase(f)
  }

  predicate AsksChallenge(fields: set<Field>) {
    exists f :: f in fields && Challenge(f)
  }

  /** The priority order, on the set of requested fields: when each type is chosen, each case
      excluding the ones before it. */
  ghost predicate Classifies(fields: set<Field>, t: InputType) {
    var passphrase, wps, identity := AsksPassphrase(fields), Asks(fields, "WPS"), Asks(fields, "Identity");
    var name, challenge := Asks(fields, "Name"), AsksChallenge(fields);
    var wispr := Asks(fields, "Username") && Asks(fields, "Password");
    match t
    case Wpa2Passphrase => passphrase && !wps && !identity
    case Wpa2PassphraseWpsAlternative => passphrase && wps
    case HiddenNetworkName => name && (passphrase ==> !wps && identity)
    case ChallengeResponse => identity && challenge && !name && !(passphrase && wps)
    case WpaEnterprise => identity && passphrase && !challenge && !name && !wps
    case Wispr => wispr && !name && !passphrase && !(identity && challenge)
    case Unknown => !passphrase && !name && !(identity && challenge) && !wispr
  }

  function FieldSet(fields: seq<Field>): set<Field> {
    set f | f in fields
  }

  /** The local flags of classify_input. */
  datatype Flags = Flags(passphrase: bool, wps: bool, name: bool, identity: bool, username: bool,
                         password: bool, challenge: bool)

  function FlagsOf(fields: set<Field>): Flags {
    Flags(AsksPassphrase(fields), Asks(fields, "WPS"), Asks(fields, "Name"), Asks(fields, "Identity"),
          Asks(fields, "Username"), Asks(fields, "Password"), AsksChallenge(fields))
  }

  lemma AsksOneMore(fields: set<Field>, f: Field, name: string)
    ensures Asks(fields + {f}, name) <==> Asks(fields, name) || f.name == name
  {
    if Asks(fields, name) {
      var g :| g in fields && g.name == name;
      assert g in fields + {f};
    }
    assert f in fields + {f};
  }

  lemma FlagsOneMore(fields: set<Field>, f: Field)
    ensures FlagsOf(fields + {f}) == Seen(FlagsOf(fields), f)
  {
    AsksOneMore(fields, f, "WPS");
    AsksOneMore(fields, f, "Name");
    AsksOneMore(fields, f, "Identity");
    AsksOneMore(fields, f, "Username");
    AsksOneMore(fields, f, "Password");
    PassphraseOneMore(fields, f);
  }

  lemma PassphraseOneMore(fields: set<Field>, f: Field)
    ensures AsksPassphrase(fields + {f}) <==> AsksPassphrase(fields) || MandatoryPassphrase(f)
    ensures AsksChallenge(fields + {f}) <==> AsksChallenge(fields) || Challenge(f)
  {
    assert f in fields + {f};
    if AsksPassphrase(fields) {
      var g :| g in fields && MandatoryPassphrase(g);
      assert g in fields + {f};
    }
    if AsksChallenge(fields) {
      var g :| g in fields && Challenge(g);
      assert g in fields + {f};
    }
  }

  /** The flags after looking at one field. */
  function Seen(flags: Flags, f: Field): Flags {
    Flags(flags.passphrase || MandatoryPassphrase(f), flags.wps || f.name == "WPS", flags.name || f.name == "Name",
          flags.identity || f.name == "Identity", flags.username || f.name == "Username",
          flags.password || f.name == "Password", flags.challenge || Challenge(f))
  }

  /** The loop of classify_input computes the existential over all fields. */
  method CollectFlags(fields: seq<Field>) returns (flags: Flags)
    ensures flags == FlagsOf(FieldSet(fields))
  {
    flags := Flags(false, false, false, false, false, false, false);
    assert FieldSet([]) == {};
    for i := 0 to |fields|
      invariant flags == FlagsOf(FieldSet(fields[..i]))
    {
      FlagsOneMore(FieldSet(fields[..i]), fields[i]);
      assert fields[..i + 1] == fields[..i] + [fields[i]];
      assert FieldSet(fields[..i + 1]) == FieldSet(fields[..i]) + {fields[i]};
      flags := LookAt(flags, fields[i]);
    }
    assert fields[..|fields|] == fields;
  }

  /** The seven tests of the loop body. */
  method LookAt(before: Flags, f: Field) returns (flags: Flags)
    ensures flags == Seen(before, f)
  {
    var Flags(passphrase, wps, name, identity, username, password, challenge) := before;
    if f.name == "Passphrase" && f.requirement == Some("mandatory") {
      passphrase := true;
    }
    if f.name == "WPS" {
      wps := true;
    }
    if f.name == "Name" {
      name := true;
    }
    if f.name == "Identity" {
      identity := true;
    }
    if f.name == "Username" {
      username := true;
    }
    if f.name == "Password" {
      password := true;
    }
    if f.name == "Passphrase" && f.kind == Some("response") {
      challenge := true;
    }
    flags := Flags(passphrase, wps, name, identity, username, password, challenge);
  }

  /** The cascade of tests after the loop. */
  function Choose(flags: Flags): InputType {
    if flags.passphrase && !flags.wps && !flags.identity then Wpa2Passphrase
    else if flags.passphrase && flags.wps then Wpa2PassphraseWpsAlternative
    else if flags.name then HiddenNetworkName
    else if flags.identity && flags.challenge then ChallengeResponse
    else if flags.identity && flags.passphrase then WpaEnterprise
    else if flags.username && flags.password then Wispr
    else Unknown
  }

  /** Exactly one type fits any set of fields. */
  lemma ClassifiesOnce(fields: set<Field>)
    ensures exists t :: Classifies(fields, t) && forall u :: Classifies(fields, u) ==> u == t
  {
    var t := Choose(FlagsOf(fields));
    assert Classifies(fields, t);
    assert forall u :: Classifies(fields, u) ==> u == t;
  }

  method Classify(fields: seq<Field>) returns (t: InputType)
    ensures Classifies(FieldSet(fields), t)
  {
    var flags := CollectFlags(fields);
    t := Choose(flags);
  }

  // ----- The same, read off the request itself -----

  predicate Requests(request: Request, name: string) {
    exists i :: 0 <= i < |request| && request[i].0 == name
  }

  /** Some "Passphrase" entry says `text` under `key`. */
  ghost predicate PassphraseSays(request: Request, key: string, text: string) {
    exists i :: 0 <= i < |request| && request[i].0 == "Passphrase" && Says(request[i].1, key, Some(text))
  }

  /** The priority order on the request: a mandatory passphrase is a "Passphrase" entry whose last
      "Requirement" is "mandatory", a challenge one whose last "Type" is "response". */
  ghost predicate RequestIs(request: Request, t: InputType) {
    var passphrase := PassphraseSays(request, "Requirement", "mandatory");
    var challenge := PassphraseSays(request, "Type", "response");
    var wps, identity, name := Requests(request, "WPS"), Requests(request, "Identity"), Requests(request, "Name");
    var wispr := Requests(request, "Username") && Requests(request, "Password");
    match t
    case Wpa2Passphrase => passphrase && !wps && !identity
    case Wpa2PassphraseWpsAlternative => passphrase && wps
    case HiddenNetworkName => name && (passphrase ==> !wps && identity)
    case ChallengeResponse => identity && challenge && !name && !(passphrase && wps)
    case WpaEnterprise => identity && passphrase && !challenge && !name && !wps
    case Wispr => wispr && !name && !passphrase && !(identity && challenge)
    case Unknown => !passphrase && !name && !(identity && challenge) && !wispr
  }

  lemma RequestsAsks(request: Request, fields: seq<Field>, name: string)
    requires DescribesAll(fields, request)
    ensures Asks(FieldSet(fields), name) <==> Requests(request, name)
  {
    if i :| 0 <= i < |request| && request[i].0 == name {
      assert Describes(fields[i], request[i].0, request[i].1);
      assert fields[i] in FieldSet(fields);
    }
    if f :| f in FieldSet(fields) && f.name == name {
      var i :| 0 <= i < |fields| && fields[i] == f;
      assert Describes(fields[i], request[i].0, request[i].1);
    }
  }

  lemma RequestsPassphrase(request: Request, fields: seq<Field>)
    requires DescribesAll(fields, request)
    ensures AsksPassphrase(FieldSet(fields)) <==> PassphraseSays(request, "Requirement", "mandatory")
  {
    if i :| 0 <= i < |request| && request[i].0 == "Passphrase" && Says(request[i].1, "Requirement", Some("mandatory")) {
      assert Describes(fields[i], request[i].0, request[i].1);
      SaysOne(request[i].1, "Requirement", fields[i].requirement, Some("mandatory"));
      assert fields[i] in FieldSet(fields) && MandatoryPassphrase(fields[i]);
    }
    if f :| f in FieldSet(fields) && MandatoryPassphrase(f) {
      var i :| 0 <= i < |fields| && fields[i] == f;
      assert Describes(fields[i], request[i].0, request[i].1);
    }
  }

  lemma RequestsChallenge(request: Request, fields: seq<Field>)
    requires DescribesAll(fields, request)
    ensures AsksChallenge(FieldSet(fields)) <==> PassphraseSays(request, "Type", "response")
  {
    if i :| 0 <= i < |request| && request[i].0 == "Passphrase" && Says(request[i].1, "Type", Some("response")) {
      assert Describes(fields[i], request[i].0, request[i].1);
      SaysOne(request[i].1, "Type", fields[i].kind, Some("response"));
      assert fields[i] in FieldSet(fields) && Challenge(fields[i]);
    }
    if f :| f in FieldSet(fields) && Challenge(f) {
      var i :| 0 <= i < |fields| && fields[i] == f;
      assert Describes(fields[i], request[i].0, request[i].1);
    }
  }

  /** Parsing and classifying meet the priority order on the request. */
  lemma RequestClassified(request: Request, fields: seq<Field>, t: InputType)
    requires DescribesAll(fields, request)
    ensures Classifies(FieldSet(fields), t) <==> RequestIs(request, t)
  {
    RequestsPassphrase(request, fields);
    RequestsChallenge(request, fields);
    RequestsAsks(request, fields, "WPS");
    RequestsAsks(request, fields, "Identity");
    RequestsAsks(request, fields, "Name");
    RequestsAsks(request, fields, "Username");
    RequestsAsks(request, fields, "Password");
  }

  /** Order and repetition of the fields play no role. */
  lemma ClassificationDependsOnSet(a: seq<Field>, b: seq<Field>, t: InputType, u: InputType)
    requires FieldSet(a) == FieldSet(b) && Classifies(FieldSet(a), t) && Classifies(FieldSet(b), u)
    ensures t == u
  {
    ClassifiesOnce(FieldSet(a));
  }
}
