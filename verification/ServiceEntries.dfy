/** What each entry of a dictionary does to a service, property name by property name and value by value,
    in literals (gconnman_service.cpp:124-288). */
module ServiceEntries {
  import opened Wrappers
  import opened EnumTables
  import opened Variants
  import opened PropertyNames
  import opened Folds
  import opened ServiceProperties
  import opened Spellings

  // ----- Plain values -----

  lemma NameEntry(x: ServProperties, s: string)
    ensures Update(x, KeyOf("Name"), Str(s)) == Ok(x.(basics := x.basics.(name := s)))
  {
    PlainNames();
  }

  lemma FlagEntries(x: ServProperties, on: bool)
    ensures Update(x, KeyOf("Favorite"), Flag(on)) == Ok(x.(basics := x.basics.(favorite := on)))
    ensures Update(x, KeyOf("Immutable"), Flag(on)) == Ok(x.(basics := x.basics.(immutable := on)))
    ensures Update(x, KeyOf("AutoConnect"), Flag(on)) == Ok(x.(basics := x.basics.(autoconnect := on)))
    ensures Update(x, KeyOf("mDNS"), Flag(on)) == Ok(x.(basics := x.basics.(mdns := on)))
  {
    PlainNames();
  }

  lemma StrengthEntry(x: ServProperties, n: UInt8)
    ensures Update(x, KeyOf("Strength"), Byte(n)) == Ok(x.(basics := x.basics.(strength := n)))
  {
    GroupNames();
  }

  /** An accepted Type string shows as the enumerator spelled so; any other string throws. */
  lemma TypeEntry(x: ServProperties, e: Type, s: string)
    ensures s == TypeString(e) ==> Update(x, KeyOf("Type"), Str(s)) == Ok(x.(basics := x.basics.(kind := e)))
    ensures (forall any :: s != TypeString(any)) ==> Update(x, KeyOf("Type"), Str(s)) == Err(BadEnum)
  {
    PlainNames();
    TypeSpelling(e, s);
    var read := TYPE_MAP.FromString(s);
    if read.Ok? {
      TypeSpelling(read.value, s);
    }
  }

  /** An accepted State string shows as the enumerator spelled so; any other string throws. */
  lemma StateEntry(x: ServProperties, e: State, s: string)
    ensures s == StateString(e) ==> Update(x, KeyOf("State"), Str(s)) == Ok(x.(basics := x.basics.(state := e)))
    ensures (forall any :: s != StateString(any)) ==> Update(x, KeyOf("State"), Str(s)) == Err(BadEnum)
  {
    PlainNames();
    StateSpelling(e, s);
    var read := STATE_MAP.FromString(s);
    if read.Ok? {
      StateSpelling(read.value, s);
    }
  }

  /** An accepted Error string shows as the enumerator spelled so; any other string throws. */
  lemma ErrorEntry(x: ServProperties, e: Error, s: string)
    ensures s == ErrorString(e) ==> Update(x, KeyOf("Error"), Str(s)) == Ok(x.(basics := x.basics.(error := e)))
    ensures (forall any :: s != ErrorString(any)) ==> Update(x, KeyOf("Error"), Str(s)) == Err(BadEnum)
  {
    PlainNames();
    ErrorSpelling(e, s);
    var read := ERROR_MAP.FromString(s);
    if read.Ok? {
      ErrorSpelling(read.value, s);
    }
  }

  // ----- Lists -----

  /** A list of strings is shown whole and in order, and an empty one as none. */
  lemma ListEntries(x: ServProperties, items: seq<string>)
    ensures var shown := if items == [] then Option.None else Some(items);
      && Update(x, KeyOf("Nameservers"), Strs(items)) == Ok(x.(lists := x.lists.(nameServers := shown)))
      && Update(x, KeyOf("Nameservers.Configuration"), Strs(items)) == Ok(x.(lists := x.lists.(nameServersConf := shown)))
      && Update(x, KeyOf("Domains"), Strs(items)) == Ok(x.(lists := x.lists.(domains := shown)))
      && Update(x, KeyOf("Timeservers"), Strs(items)) == Ok(x.(lists := x.lists.(timeServers := shown)))
  {
    ServerNames();
  }

  function SecurityStrings(es: seq<Security>): seq<string> {
    if es == [] then [] else [SecurityString(es[0])] + SecurityStrings(es[1..])
  }

  lemma {:induction false} SecuritiesRead(es: seq<Security>)
    ensures Vector(SECURITY_MAP, SecurityStrings(es)) == Ok(es) && |SecurityStrings(es)| == |es|
  {
    if es != [] {
      SecuritySpelling(es[0], SecurityString(es[0]));
      SecuritiesRead(es[1..]);
      assert SecurityStrings(es)[1..] == SecurityStrings(es[1..]) && [es[0]] + es[1..] == es;
    }
  }

  /** A list of security modes is shown mode by mode. */
  lemma SecurityEntry(x: ServProperties, es: seq<Security>)
    ensures Update(x, KeyOf("Security"), Strs(SecurityStrings(es)))
      == Ok(x.(lists := x.lists.(security := if es == [] then Option.None else Some(es))))
  {
    MoreGroupNames();
    SecuritiesRead(es);
  }

  // ----- Nested groups -----

  const NO_IPV4 := IPv4(IPv4Method.Off, "", "", "")
  const NO_IPV6 := IPv6(IPv6Method.Off, "", "", Disabled, 0)
  const NO_ETHERNET := Ethernet.Ethernet(EthernetMethod.Manual, "", "", 0)
  const NO_PROVIDER := Provider("", "", "", "")
  const NO_PROXY := Proxy(ProxyMethod.Direct, "", [], [])

  /** An empty group value clears the group; any other one is read into a blank group and replaces what was
      there, or throws as its first bad entry does. */
  function Replaced<T>(read: Result<T, Failure>, d: Dictionary): Result<Option<T>, Failure> {
    if d == [] then Ok(Option.None) else match read case Ok(g) => Ok(Some(g)) case Err(f) => Err(f)
  }

  function With(x: ServProperties, groups: Groups): Result<ServProperties, Failure> {
    Ok(x.(groups := groups))
  }

  lemma IPv4Entry(x: ServProperties, d: Dictionary)
    ensures Update(x, KeyOf("IPv4"), Dict(d)) ==
      match Replaced(Fold(UpdateIPv4, NO_IPV4, d), d)
      case Ok(g) => With(x, x.groups.(ipv4 := g)) case Err(e) => Err(e)
  {
    GroupNames();
    assert ViewIPv4(map[]) == NO_IPV4;
  }

  lemma IPv6Entry(x: ServProperties, d: Dictionary)
    ensures Update(x, KeyOf("IPv6"), Dict(d)) ==
      match Replaced(Fold(UpdateIPv6, NO_IPV6, d), d)
      case Ok(g) => With(x, x.groups.(ipv6 := g)) case Err(e) => Err(e)
  {
    GroupNames();
    assert ViewIPv6(map[]) == NO_IPV6;
  }

  lemma EthernetEntry(x: ServProperties, d: Dictionary)
    ensures Update(x, KeyOf("Ethernet"), Dict(d)) ==
      match Replaced(Fold(UpdateEthernet, NO_ETHERNET, d), d)
      case Ok(g) => With(x, x.groups.(ethernet := g)) case Err(e) => Err(e)
  {
    GroupNames();
    assert ViewEthernet(map[]) == NO_ETHERNET;
  }

  lemma ProviderEntry(x: ServProperties, d: Dictionary)
    ensures Update(x, KeyOf("Provider"), Dict(d)) ==
      match Replaced(Fold(UpdateProvider, NO_PROVIDER, d), d)
      case Ok(g) => With(x, x.groups.(provider := g)) case Err(e) => Err(e)
  {
    MoreGroupNames();
    assert ViewProvider(map[]) == NO_PROVIDER;
  }

  lemma ProxyEntry(x: ServProperties, d: Dictionary)
    ensures Update(x, KeyOf("Proxy"), Dict(d)) ==
      match Replaced(Fold(UpdateProxy, NO_PROXY, d), d)
      case Ok(g) => With(x, x.groups.(proxy := g)) case Err(e) => Err(e)
  {
    MoreGroupNames();
    assert ViewProxy(map[]) == NO_PROXY;
  }

  lemma IPv4Fields(g: IPv4, m: IPv4Method, s: string)
    ensures UpdateIPv4(g, KeyOf("Method"), Str(IPv4MethodString(m))) == Ok(g.(method4 := m))
    ensures UpdateIPv4(g, KeyOf("Address"), Str(s)) == Ok(g.(address := s))
    ensures UpdateIPv4(g, KeyOf("Netmask"), Str(s)) == Ok(g.(netmask := s))
    ensures UpdateIPv4(g, KeyOf("Gateway"), Str(s)) == Ok(g.(gateway := s))
  {
    AddressNames();
    IPv4MethodSpelling(m, IPv4MethodString(m));
  }

  lemma IPv6Fields(g: IPv6, m: IPv6Method, s: string)
    ensures UpdateIPv6(g, KeyOf("Method"), Str(IPv6MethodString(m))) == Ok(g.(method6 := m))
    ensures UpdateIPv6(g, KeyOf("Address"), Str(s)) == Ok(g.(address := s))
    ensures UpdateIPv6(g, KeyOf("Gateway"), Str(s)) == Ok(g.(gateway := s))
  {
    AddressNames();
    IPv6MethodSpelling(m, IPv6MethodString(m));
  }

  lemma PrivacyFields(g: IPv6, p: Privacy, n: UInt8)
    ensures UpdateIPv6(g, KeyOf("Privacy"), Str(PrivacyString(p))) == Ok(g.(privacy := p))
    ensures UpdateIPv6(g, KeyOf("Privacy"), Str("prefered")) == Ok(g.(privacy := Preferred))
    ensures UpdateIPv6(g, KeyOf("PrefixLength"), Byte(n)) == Ok(g.(prefixLength := n))
  {
    IPv6Names();
    PrivacySpelling(p, PrivacyString(p));
    PrivacySpelling(Preferred, "prefered");
  }

  lemma EthernetFields(g: Ethernet, m: EthernetMethod, s: string, n: UInt16)
    ensures UpdateEthernet(g, KeyOf("Method"), Str(EthernetMethodString(m))) == Ok(g.(methodE := m))
    ensures UpdateEthernet(g, KeyOf("Interface"), Str(s)) == Ok(g.(iface := s))
    ensures UpdateEthernet(g, KeyOf("Address"), Str(s)) == Ok(g.(address := s))
    ensures UpdateEthernet(g, KeyOf("MTU"), Short(n)) == Ok(g.(mtu := n))
  {
    AddressNames();
    EthernetNames();
    EthernetMethodSpelling(m, EthernetMethodString(m));
  }

  lemma ProviderFields(g: Provider, s: string)
    ensures UpdateProvider(g, KeyOf("Host"), Str(s)) == Ok(g.(host := s))
    ensures UpdateProvider(g, KeyOf("Domain"), Str(s)) == Ok(g.(domain := s))
    ensures UpdateProvider(g, KeyOf("Name"), Str(s)) == Ok(g.(name := s))
    ensures UpdateProvider(g, KeyOf("Type"), Str(s)) == Ok(g.(kind := s))
  {
    ProviderNames();
    PlainNames();
  }

  lemma ProxyFields(g: Proxy, m: ProxyMethod, s: string)
    ensures UpdateProxy(g, KeyOf("Method"), Str(ProxyMethodString(m))) == Ok(g.(methodP := m))
    ensures UpdateProxy(g, KeyOf("Url"), Str(s)) == Ok(g.(url := s))
  {
    AddressNames();
    UrlName();
    ProxyMethodSpelling(m, ProxyMethodString(m));
  }

  lemma ProxyLists(g: Proxy, items: seq<string>)
    ensures UpdateProxy(g, KeyOf("Servers"), Strs(items)) == Ok(g.(servers := items))
    ensures UpdateProxy(g, KeyOf("Excludes"), Strs(items)) == Ok(g.(excludes := items))
  {
    ProxyListNames();
  }
}
