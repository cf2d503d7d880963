/** The request-input and report-error handlers the Manager installs on its agent
    (gconnman_manager.cpp:88-223): from the requested fields and the user's callbacks to the reply. */
module AgentReply {
  import opened Wrappers
  import opened AgentInput

  /** A value of the reply dictionary: a string, or a fixed array of the characters' bytes. */
  datatype Answer = Text(text: string) | Octets(bytes: string)

  type Reply = seq<(string, Answer)>

  /** The user's callbacks, each absent or a function of the service it is asked about. A flag says
      that the user picked the primary alternative. */
  datatype Handlers = Handlers(
    passphrase: Option<string -> (bool, string)>,
    hiddenName: Option<string -> (bool, string)>,
    enterprise: Option<string -> (string, (bool, string))>,
    wispr: Option<string -> (string, string)>)

  /** What the reply to a request of type `t` about `service` must hold, key by key. */
  ghost predicate Answers(reply: Reply, t: InputType, service: string, h: Handlers) {
    match t
    case Wpa2Passphrase =>
      if h.passphrase.None? then reply == []
      else Exactly(reply, map["Passphrase" := Text(h.passphrase.value(service).1)])
    case Wpa2PassphraseWpsAlternative =>
      if h.passphrase.None? then reply == []
      else
        var (primary, secret) := h.passphrase.value(service);
        Exactly(reply, if primary then map["Passphrase" := Text(secret)] else map["WPS" := Text(secret)])
    case HiddenNetworkName =>
      if h.hiddenName.None? then reply == []
      else
        var (primary, name) := h.hiddenName.value(service);
        Exactly(reply, if primary then map["Name" := Text(name)] else map["SSID" := Octets(name)])
    case ChallengeResponse => AnswersIdentity(reply, service, h)
    case WpaEnterprise => AnswersIdentity(reply, service, h)
    case Wispr =>
      if h.wispr.None? then reply == []
      else
        var (user, password) := h.wispr.value(service);
        Exactly(reply, map["Username" := Text(user), "Password" := Text(password)])
    case Unknown => reply == []
  }

  ghost predicate AnswersIdentity(reply: Reply, service: string, h: Handlers) {
    if h.enterprise.None? then reply == []
    else
      var (identity, (primary, secret)) := h.enterprise.value(service);
      Exactly(reply, map["Identity" := Text(identity)] +
                     if primary then map["Passphrase" := Text(secret)] else map["WPS" := Octets(secret)])
  }

  /** `reply` lists the entries of `entries`, each key once. */
  ghost predicate Exactly(reply: Reply, entries: map<string, Answer>) {
    && NoDuplicateKeys(reply)
    && (forall i :: 0 <= i < |reply| ==> reply[i].0 in entries && entries[reply[i].0] == reply[i].1)
    && |reply| == |entries|
  }

  ghost predicate NoDuplicateKeys(reply: Reply) {
    forall i, j :: 0 <= i < j < |reply| ==> reply[i].0 != reply[j].0
  }

  /** Every key of the reply is the name of a requested field. */
  ghost predicate KeysRequested(reply: Reply, fields: set<Field>) {
    forall i :: 0 <= i < |reply| ==> Asks(fields, reply[i].0)
  }

  /** The user picked an alternative whose key the request may not name. */
  predicate PicksUnrequested(fields: set<Field>, t: InputType, service: string, h: Handlers) {
    || (t == HiddenNetworkName && h.hiddenName.Some? && !h.hiddenName.value(service).0 && !Asks(fields, "SSID"))
    || (t in {ChallengeResponse, WpaEnterprise} && h.enterprise.Some? && !h.enterprise.value(service).1.0
        && !Asks(fields, "WPS"))
  }

  // ----- The handlers -----

  method PassphraseReply(t: InputType, service: string, h: Handlers) returns (reply: Reply)
    requires t.Wpa2Passphrase? || t.Wpa2PassphraseWpsAlternative?
    ensures Answers(reply, t, service, h)
  {
    reply := [];
    if h.passphrase.Some? {
      var passphrase := h.passphrase.value(service);
      var key := if t.Wpa2Passphrase? || passphrase.0 then "Passphrase" else "WPS";
      reply := reply + [(key, Text(passphrase.1))];
    }
  }

  method HiddenNameReply(service: string, h: Handlers) returns (reply: Reply)
    ensures Answers(reply, HiddenNetworkName, service, h)
  {
    reply := [];
    if h.hiddenName.Some? {
      var name := h.hiddenName.value(service);
      var value := if name.0 then Text(name.1) else Octets(name.1);
      reply := reply + [(if name.0 then "Name" else "SSID", value)];
    }
  }

  method EnterpriseReply(service: string, h: Handlers) returns (reply: Reply)
    ensures AnswersIdentity(reply, service, h)
  {
    reply := [];
    if h.enterprise.Some? {
      var identityPassword := h.enterprise.value(service);
      reply := reply + [("Identity", Text(identityPassword.0))];
      var (primary, secret) := identityPassword.1;
      var value := if primary then Text(secret) else Octets(secret);
      reply := reply + [(if primary then "Passphrase" else "WPS", value)];
      assert |"Identity"| != |"Passphrase"| && |"Identity"| != |"WPS"|;
    }
  }

  method WisprReply(service: string, h: Handlers) returns (reply: Reply)
    ensures Answers(reply, Wispr, service, h)
  {
    reply := [];
    if h.wispr.Some? {
      var userPassword := h.wispr.value(service);
      reply := reply + [("Username", Text(userPassword.0))];
      reply := reply + [("Password", Text(userPassword.1))];
      assert "Username"[0] != "Password"[0];
    }
  }

  /** Every key of the reply is the name of an entry of the request. */
  ghost predicate KeysInRequest(reply: Reply, request: Request) {
    forall i :: 0 <= i < |reply| ==> Requests(request, reply[i].0)
  }

  /** The user picked the SSID or the WPS alternative, and the request has no such entry. */
  predicate PicksMissing(request: Request, t: InputType, service: string, h: Handlers) {
    || (t == HiddenNetworkName && h.hiddenName.Some? && !h.hiddenName.value(service).0 && !Requests(request, "SSID"))
    || (t in {ChallengeResponse, WpaEnterprise} && h.enterprise.Some? && !h.enterprise.value(service).1.0
        && !Requests(request, "WPS"))
  }

  /** The whole request-input handler, from the request to the reply. A service the Manager does not list
      gets an empty reply, without any callback being asked. */
  method HandleRequestInput(paths: seq<string>, service: string, request: Request, h: Handlers)
    returns (reply: Reply, ghost t: InputType)
    ensures service !in paths ==> reply == []
    ensures service in paths ==>
      && RequestIs(request, t)
      && Answers(reply, t, service, h)
      && NoDuplicateKeys(reply)
      && (KeysInRequest(reply, request) <==> !PicksMissing(request, t, service, h))
  {
    reply := [];
    t := Unknown;
    if service in paths {
      var parsed := ParseFields(request);
      var input := Classify(parsed);
      match input {
        case Wpa2Passphrase => reply := PassphraseReply(input, service, h);
        case Wpa2PassphraseWpsAlternative => reply := PassphraseReply(input, service, h);
        case HiddenNetworkName => reply := HiddenNameReply(service, h);
        case ChallengeResponse => reply := EnterpriseReply(service, h);
        case WpaEnterprise => reply := EnterpriseReply(service, h);
        case Wispr => reply := WisprReply(service, h);
        case Unknown =>
      }
      t := input;
      ReplyToRequest(request, parsed, t, service, h, reply);
    }
  }

  lemma ReplyToRequest(request: Request, parsed: seq<Field>, t: InputType, service: string, h: Handlers, reply: Reply)
    requires DescribesAll(parsed, request) && Classifies(FieldSet(parsed), t) && Answers(reply, t, service, h)
    ensures RequestIs(request, t) && NoDuplicateKeys(reply)
    ensures KeysInRequest(reply, request) <==> !PicksMissing(request, t, service, h)
  {
    RequestClassified(request, parsed, t);
    ReplyKeys(FieldSet(parsed), t, service, h, reply);
    RequestsAsks(request, parsed, "SSID");
    RequestsAsks(request, parsed, "WPS");
    forall i | 0 <= i < |reply| ensures Asks(FieldSet(parsed), reply[i].0) <==> Requests(request, reply[i].0) {
      RequestsAsks(request, parsed, reply[i].0);
    }
  }

  /** The report-error handler: false for an unknown service or without a callback. */
  method HandleReportError(paths: seq<string>, service: string, error: string,
                           callback: Option<(string, string) -> bool>) returns (retry: bool)
    ensures retry <==> service in paths && callback.Some? && callback.value(service, error)
  {
    if service !in paths || callback.None? {
      return false;
    }
    return callback.value(service, error);
  }

  // ----- Which keys a reply can hold -----

  /** The keys of a reply are exactly the keys of the entries it lists. */
  lemma KeysOf(reply: Reply, entries: map<string, Answer>)
    requires Exactly(reply, entries)
    ensures forall k :: k in entries <==> exists i :: 0 <= i < |reply| && reply[i].0 == k
  {
    var keys := set i | 0 <= i < |reply| :: reply[i].0;
    KeyCount(reply, keys);
    assert keys <= entries.Keys;
    SameSize(keys, entries.Keys);
  }

  lemma {:induction false} KeyCount(reply: Reply, keys: set<string>)
    requires NoDuplicateKeys(reply)
    requires keys == set i | 0 <= i < |reply| :: reply[i].0
    ensures |keys| == |reply|
  {
    if reply != [] {
      var last := |reply| - 1;
      var rest := set i | 0 <= i < last :: reply[..last][i].0;
      assert keys == rest + {reply[last].0};
      KeyCount(reply[..last], rest);
    }
  }

  lemma {:induction false} SameSize(a: set<string>, b: set<string>)
    requires a <= b && |a| == |b|
    ensures a == b
  {
    if b - a != {} {
      var x :| x in b - a;
      assert a <= b - {x};
      Smaller(a, b - {x});
    }
  }

  lemma {:induction false} Smaller(a: set<string>, b: set<string>)
    requires a <= b
    ensures |a| <= |b|
  {
    assert b == a + (b - a);
  }

  /** For every field list and every handler result: no key twice, and every key was requested except
      exactly when the user picked an alternative the request does not name. */
  lemma ReplyKeys(fields: set<Field>, t: InputType, service: string, h: Handlers, reply: Reply)
    requires Classifies(fields, t) && Answers(reply, t, service, h)
    ensures NoDuplicateKeys(reply)
    ensures KeysRequested(reply, fields) <==> !PicksUnrequested(fields, t, service, h)
  {
    match t {
      case Wpa2Passphrase => PassphraseKeys(fields, t, service, h, reply);
      case Wpa2PassphraseWpsAlternative => PassphraseKeys(fields, t, service, h, reply);
      case HiddenNetworkName => HiddenNameKeys(fields, service, h, reply);
      case ChallengeResponse => IdentityKeys(fields, t, service, h, reply);
      case WpaEnterprise => IdentityKeys(fields, t, service, h, reply);
      case Wispr => WisprKeys(fields, service, h, reply);
      case Unknown =>
    }
  }

  /** Lists the keys of `entries` and says which are requested. */
  lemma RequestedWhenAllAre(fields: set<Field>, reply: Reply, entries: map<string, Answer>)
    requires Exactly(reply, entries)
    ensures KeysRequested(reply, fields) <==> forall k :: k in entries ==> Asks(fields, k)
  {
    KeysOf(reply, entries);
  }

  lemma PassphraseAsked(fields: set<Field>)
    ensures AsksPassphrase(fields) || AsksChallenge(fields) ==> Asks(fields, "Passphrase")
  {
    if AsksPassphrase(fields) {
      var f :| f in fields && MandatoryPassphrase(f);
    } else if AsksChallenge(fields) {
      var f :| f in fields && Challenge(f);
    }
  }

  /** In the two passphrase cases every key is requested, whichever alternative is picked. */
  lemma PassphraseKeys(fields: set<Field>, t: InputType, service: string, h: Handlers, reply: Reply)
    requires t.Wpa2Passphrase? || t.Wpa2PassphraseWpsAlternative?
    requires Classifies(fields, t) && Answers(reply, t, service, h)
    ensures NoDuplicateKeys(reply) && KeysRequested(reply, fields)
  {
    PassphraseAsked(fields);
    if h.passphrase.Some? {
      var (primary, secret) := h.passphrase.value(service);
      RequestedWhenAllAre(fields, reply, if t.Wpa2Passphrase? || primary then map["Passphrase" := Text(secret)]
                                         else map["WPS" := Text(secret)]);
    }
  }

  lemma HiddenNameKeys(fields: set<Field>, service: string, h: Handlers, reply: Reply)
    requires Classifies(fields, HiddenNetworkName) && Answers(reply, HiddenNetworkName, service, h)
    ensures NoDuplicateKeys(reply)
    ensures KeysRequested(reply, fields) <==> !PicksUnrequested(fields, HiddenNetworkName, service, h)
  {
    if h.hiddenName.Some? {
      var (primary, name) := h.hiddenName.value(service);
      RequestedWhenAllAre(fields, reply, if primary then map["Name" := Text(name)] else map["SSID" := Octets(name)]);
    }
  }

  lemma IdentityKeys(fields: set<Field>, t: InputType, service: string, h: Handlers, reply: Reply)
    requires t in {ChallengeResponse, WpaEnterprise}
    requires Classifies(fields, t) && Answers(reply, t, service, h)
    ensures NoDuplicateKeys(reply)
    ensures KeysRequested(reply, fields) <==> !PicksUnrequested(fields, t, service, h)
  {
    PassphraseAsked(fields);
    if h.enterprise.Some? {
      var (identity, (primary, secret)) := h.enterprise.value(service);
      var entries := map["Identity" := Text(identity)] +
                     if primary then map["Passphrase" := Text(secret)] else map["WPS" := Octets(secret)];
      RequestedWhenAllAre(fields, reply, entries);
      assert (if primary then "Passphrase" else "WPS") in entries;
    }
  }

  lemma WisprKeys(fields: set<Field>, service: string, h: Handlers, reply: Reply)
    requires Classifies(fields, Wispr) && Answers(reply, Wispr, service, h)
    ensures NoDuplicateKeys(reply) && KeysRequested(reply, fields)
  {
    if h.wispr.Some? {
      var (user, password) := h.wispr.value(service);
      RequestedWhenAllAre(fields, reply, map["Username" := Text(user), "Password" := Text(password)]);
    }
  }

  /** The primary alternative is always among the requested fields. */
  lemma PrimaryIsRequested(fields: set<Field>, t: InputType, service: string, h: Handlers, reply: Reply)
    requires Classifies(fields, t) && Answers(reply, t, service, h)
    requires h.hiddenName.Some? ==> h.hiddenName.value(service).0
    requires h.enterprise.Some? ==> h.enterprise.value(service).1.0
    ensures KeysRequested(reply, fields)
  {
    ReplyKeys(fields, t, service, h, reply);
  }

  /** A daemon that asks only for a name gets an SSID it did not ask for, when the user answers with
      the network's identifier. */
  lemma SsidWasNotRequested()
    ensures var fields := {Field("Name", Some("string"), Some("mandatory"))};
            var h := Handlers(None, Some((_: string) => (false, "x")), None, None);
            var reply := [("SSID", Octets("x"))];
            && Classifies(fields, HiddenNetworkName)
            && Answers(reply, HiddenNetworkName, "/service", h)
            && !KeysRequested(reply, fields)
  {
    var f := Field("Name", Some("string"), Some("mandatory"));
    var fields := {f};
    var h := Handlers(None, Some((_: string) => (false, "x")), None, None);
    var reply := [("SSID", Octets("x"))];
    assert f in fields && f.name == "Name";
    assert "Name"[0] != "Passphrase"[0];
    assert |"Name"| != |"Identity"|;
    assert "Name"[0] != "SSID"[0];
    assert h.hiddenName.value("/service") == (false, "x");
    assert reply[0].0 == "SSID";
  }
}
