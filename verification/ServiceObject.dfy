/** ServProperties as the object whose fields `update` assigns in place (gconnman_service.cpp:221-288),
    proved against the functions that say what an entry means. */
module ServiceObject {
  import opened Wrappers
  import opened EnumTables
  import opened Variants
  import opened Folds
  import opened ServiceProperties

  /** A nested group: cleared by an empty value, otherwise parsed into a blank one. */
  method BuildGroup<T>(update: (T, Key, Variant) -> Result<T, Failure>, blank: T, value: Variant)
    returns (r: Result<Option<T>, Failure>)
    ensures r == Group(update, blank, value)
  {
    var n :- Children(value);
    if n == 0 {
      return Ok(None);
    }
    if !value.Dict? {
      return Err(BadType);
    }
    var group :- Parse(update, blank, value.entries);
    r := Ok(Some(group));
  }

  method BuildSecurity(value: Variant) returns (r: Result<Option<seq<Security>>, Failure>)
    ensures r == SecurityList(value)
  {
    var n :- Children(value);
    if n == 0 {
      return Ok(None);
    }
    var items := AsToVector(SECURITY_MAP, AsStrings(value));
    r := if items.Ok? then Ok(Some(items.value)) else Err(BadEnum);
  }

  /** At most one part of the chain has a branch for the key, so the others leave their fields alone. */
  lemma OneBranch(x: ServProperties, key: Key, value: Variant, b: Result<Basics, Failure>, g: Result<Groups, Failure>,
                  l: Result<Lists, Failure>, result: Result<ServProperties, Failure>)
    requires b == UpdateBasics(x.basics, key, value)
    requires g == UpdateGroups(x.groups, key, value)
    requires l == UpdateLists(x.lists, key, value)
    requires result == Update(x, key, value)
    ensures result.Ok? <==> b.Ok? && g.Ok? && l.Ok?
    ensures result.Ok? ==> result.value == ServProperties(b.value, l.value, g.value)
    ensures b.Ok? && (g.Err? || l.Err?) ==> b.value == x.basics
    ensures g.Ok? && l.Err? ==> g.value == x.groups
  {
  }

  /** The object's fields, in the three records of ServiceProperties. */
  class Properties {
    var basics: Basics
    var lists: Lists
    var groups: Groups

    function Contents(): ServProperties
      reads this
    {
      ServProperties(basics, lists, groups)
    }

    constructor ()
      ensures Contents() == BLANK
    {
      basics := Basics(Idle, ErrorNone, "", Type.Ethernet, false, false, false, false, false, 0);
      lists := Lists(None, None, None, None, None);
      groups := Groups(None, None, None, None, None);
    }

    /** The keys of plain values. */
    method UpdateBasics(key: Key, value: Variant) returns (r: Result<(), Failure>)
      modifies this`basics
      ensures r.Ok? <==> ServiceProperties.UpdateBasics(old(basics), key, value).Ok?
      ensures basics == match ServiceProperties.UpdateBasics(old(basics), key, value)
        case Ok(x) => x case Err(_) => old(basics)
    {
      if key == NameKey {
        var x :- AsString(value);
        basics := basics.(name := x);
      } else if key == TypeKey {
        var x :- AsEnum(TYPE_MAP, value);
        basics := basics.(kind := x);
      } else if key == StateKey {
        var x :- AsEnum(STATE_MAP, value);
        basics := basics.(state := x);
      } else if key == ErrorKey {
        var x :- AsEnum(ERROR_MAP, value);
        basics := basics.(error := x);
      } else if key == FavoriteKey {
        var x :- AsFlag(value);
        basics := basics.(favorite := x);
      } else if key == ImmutableKey {
        var x :- AsFlag(value);
        basics := basics.(immutable := x);
      } else if key == AutoConnectKey {
        var x :- AsFlag(value);
        basics := basics.(autoconnect := x);
      } else if key == MDNSKey {
        var x :- AsFlag(value);
        basics := basics.(mdns := x);
      } else if key == StrengthKey {
        var x :- AsByte(value);
        basics := basics.(strength := x);
      }
      r := Ok(());
    }

    /** The keys of nested groups. */
    method UpdateGroups(key: Key, value: Variant) returns (r: Result<(), Failure>)
      modifies this`groups
      ensures r.Ok? <==> ServiceProperties.UpdateGroups(old(groups), key, value).Ok?
      ensures groups == match ServiceProperties.UpdateGroups(old(groups), key, value)
        case Ok(x) => x case Err(_) => old(groups)
    {
      if key == IPv4Key {
        var x :- BuildGroup(UpdateIPv4, ViewIPv4(map[]), value);
        groups := groups.(ipv4 := x);
      } else if key == IPv6Key {
        var x :- BuildGroup(UpdateIPv6, ViewIPv6(map[]), value);
        groups := groups.(ipv6 := x);
      } else if key == EthernetKey {
        var x :- BuildGroup(UpdateEthernet, ViewEthernet(map[]), value);
        groups := groups.(ethernet := x);
      } else if key == ProviderKey {
        var x :- BuildGroup(UpdateProvider, ViewProvider(map[]), value);
        groups := groups.(provider := x);
      } else if key == ProxyKey {
        var x :- BuildGroup(UpdateProxy, ViewProxy(map[]), value);
        groups := groups.(proxy := x);
      }
      r := Ok(());
    }

    /** The keys of lists. */
    method UpdateLists(key: Key, value: Variant) returns (r: Result<(), Failure>)
      modifies this`lists
      ensures r.Ok? <==> ServiceProperties.UpdateLists(old(lists), key, value).Ok?
      ensures lists == match ServiceProperties.UpdateLists(old(lists), key, value)
        case Ok(x) => x case Err(_) => old(lists)
    {
      if key == SecurityKey {
        var x :- BuildSecurity(value);
        lists := lists.(security := x);
      } else if key == NameserversKey {
        var x :- StringList(value);
        lists := lists.(nameServers := x);
      } else if key == NameserversConfigurationKey {
        var x :- StringList(value);
        lists := lists.(nameServersConf := x);
      } else if key == DomainsKey {
        var x :- StringList(value);
        lists := lists.(domains := x);
      } else if key == TimeserversKey {
        var x :- StringList(value);
        lists := lists.(timeServers := x);
      }
      r := Ok(());
    }

    /** The three parts of the chain, the first exception ending it. */
    method UpdateInTurn(key: Key, value: Variant) returns (r: Result<(), Failure>,
        ghost b: Result<Basics, Failure>, ghost g: Result<Groups, Failure>, ghost l: Result<Lists, Failure>)
      modifies this
      ensures b == ServiceProperties.UpdateBasics(old(basics), key, value)
      ensures g == ServiceProperties.UpdateGroups(old(groups), key, value)
      ensures l == ServiceProperties.UpdateLists(old(lists), key, value)
      ensures r.Ok? <==> b.Ok? && g.Ok? && l.Ok?
      ensures basics == if b.Ok? then b.value else old(basics)
      ensures groups == if b.Ok? && g.Ok? then g.value else old(groups)
      ensures lists == if b.Ok? && g.Ok? && l.Ok? then l.value else old(lists)
    {
      b := ServiceProperties.UpdateBasics(basics, key, value);
      g := ServiceProperties.UpdateGroups(groups, key, value);
      l := ServiceProperties.UpdateLists(lists, key, value);
      r := UpdateBasics(key, value);
      if r.Ok? {
        r := UpdateGroups(key, value);
      }
      if r.Ok? {
        r := UpdateLists(key, value);
      }
    }

    /** The whole chain of keys. An exception leaves the object as it was. */
    method Update(key: Key, value: Variant) returns (r: Result<(), Failure>)
      modifies this
      ensures r.Ok? <==> ServiceProperties.Update(old(Contents()), key, value).Ok?
      ensures Contents() == match ServiceProperties.Update(old(Contents()), key, value)
        case Ok(x) => x case Err(_) => old(Contents())
    {
      ghost var before := Contents();
      ghost var b, g, l;
      r, b, g, l := UpdateInTurn(key, value);
      ghost var result := ServiceProperties.Update(before, key, value);
      OneBranch(before, key, value, b, g, l, result);
    }
  }
}
