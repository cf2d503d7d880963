/** The properties of a connman service and their `update` (gconnman_service.cpp). */
module ServiceProperties {
  import opened Wrappers
  import opened EnumTables
  import opened Variants
  import opened Folds

  // ----- Enumerations and their tables -----

  // SecurityNone and ErrorNone are Security::None and Error::None; the others carry their own names.
  datatype State = Idle | Failure | Ready | Online | Disconnect | Association | Configuration
  datatype Type = Ethernet | Wifi | Cellular | Bluetooth | Vpn | Wired | P2p | Gps | Gadget
  datatype Security = SecurityNone | Wep | Psk | Ieee8021x | Wps | WpsAdvertising
  datatype Error = ErrorNone | OutOfRange | PinMissing | DhcpFailed | ConnectFailed | LoginFailed
    | AuthFailed | InvalidKey | Blocked | OnlineCheckFailed
  datatype IPv4Method = Off | Dhcp | Manual | Auto
  datatype IPv6Method = Off | K6to4 | Manual | Fixed | Auto
  datatype Privacy = Disabled | Enabled | Preferred
  datatype EthernetMethod = Manual | Auto
  datatype ProxyMethod = Direct | Auto | Manual

  const TYPE_MAP := EnumStringMap([(Type.Ethernet, "ethernet"), (Wifi, "wifi"), (Cellular, "cellular"),
    (Bluetooth, "bluetooth"), (Vpn, "vpn"), (Wired, "wired"), (P2p, "p2p"), (Gps, "gps"), (Gadget, "gadget")])
  const STATE_MAP := EnumStringMap([(Association, "association"), (Configuration, "configuration"),
    (Disconnect, "disconnect"), (State.Failure, "failure"), (Idle, "idle"), (Online, "online"), (Ready, "ready")])
  const SECURITY_MAP := EnumStringMap([(SecurityNone, "none"), (Wep, "wep"), (Psk, "psk"), (Ieee8021x, "ieee8021x"),
    (Wps, "wps"), (WpsAdvertising, "wps_advertising")])
  const ERROR_MAP := EnumStringMap([(ErrorNone, ""), (OutOfRange, "out-of-range"), (PinMissing, "pin-missing"),
    (DhcpFailed, "dhcp-failed"), (ConnectFailed, "connect-failed"), (LoginFailed, "login-failed"),
    (AuthFailed, "auth-failed"), (InvalidKey, "invalid-key"), (Blocked, "blocked"),
    (OnlineCheckFailed, "online-check-failed")])
  const IPV4_METHOD_MAP := EnumStringMap([(IPv4Method.Off, "off"), (IPv4Method.Dhcp, "dhcp"),
    (IPv4Method.Manual, "manual"), (IPv4Method.Auto, "auto")])
  const IPV6_METHOD_MAP := EnumStringMap([(IPv6Method.Off, "off"), (IPv6Method.K6to4, "6to4"),
    (IPv6Method.Manual, "manual"), (IPv6Method.Fixed, "fixed"), (IPv6Method.Auto, "auto")])
  const IPV6_PRIVACY_MAP := EnumStringMap([(Disabled, "disabled"), (Enabled, "enabled"),
    (Preferred, "preferred"), (Preferred, "prefered")])
  const ETHERNET_METHOD_MAP := EnumStringMap([(EthernetMethod.Manual, "manual"), (EthernetMethod.Auto, "auto")])
  const PROXY_METHOD_MAP := EnumStringMap([(ProxyMethod.Direct, "direct"), (ProxyMethod.Manual, "manual"),
    (ProxyMethod.Auto, "auto")])

  /** The one alias in the tables: both spellings are read, the correct one is written. */
  lemma PrivacyAlias()
    ensures DistinctStrings(IPV6_PRIVACY_MAP)
    ensures IPV6_PRIVACY_MAP.FromString("prefered") == IPV6_PRIVACY_MAP.FromString("preferred") == Ok(Preferred)
    ensures Canonical(IPV6_PRIVACY_MAP, "prefered") == Ok("preferred")
  {
    var a := StringFromFinds(IPV6_PRIVACY_MAP, "prefered", 0);
    var b := StringFromFinds(IPV6_PRIVACY_MAP, "preferred", 0);
    var c := EnumFromFinds(IPV6_PRIVACY_MAP, Preferred, 0);
    var data := IPV6_PRIVACY_MAP.data;
    assert data[0].1 == "disabled" && data[1].1 == "enabled" && data[2].1 == "preferred" && data[3].1 == "prefered";
  }

  // ----- Reading the value under a key -----

  function StringAt(m: map<Key, Variant>, k: Key): string {
    if k in m && m[k].Str? then m[k].text else ""
  }

  function FlagAt(m: map<Key, Variant>, k: Key): bool {
    k in m && m[k].Flag? && m[k].on
  }

  function EnumAt<E(==)>(table: EnumStringMap<E>, m: map<Key, Variant>, k: Key, absent: E): E {
    if k in m && AsEnum(table, m[k]).Ok? then AsEnum(table, m[k]).value else absent
  }

  function StringsAt(m: map<Key, Variant>, k: Key): seq<string> {
    if k in m then AsStrings(m[k]) else []
  }

  // ----- The nested groups -----

  datatype IPv4 = IPv4(method4: IPv4Method, address: string, netmask: string, gateway: string)
  datatype IPv6 = IPv6(method6: IPv6Method, address: string, gateway: string, privacy: Privacy, prefixLength: UInt8)
  datatype Ethernet = Ethernet(methodE: EthernetMethod, iface: string, address: string, mtu: UInt16)
  datatype Provider = Provider(host: string, domain: string, name: string, kind: string)
  datatype Proxy = Proxy(methodP: ProxyMethod, url: string, servers: seq<string>, excludes: seq<string>)

  function UpdateIPv4(x: IPv4, k: Key, v: Variant): Result<IPv4, Failure> {
    match k
    case MethodKey => (match AsEnum(IPV4_METHOD_MAP, v) case Ok(e) => Ok(x.(method4 := e)) case Err(f) => Err(f))
    case AddressKey => (match AsString(v) case Ok(s) => Ok(x.(address := s)) case Err(f) => Err(f))
    case NetmaskKey => (match AsString(v) case Ok(s) => Ok(x.(netmask := s)) case Err(f) => Err(f))
    case GatewayKey => (match AsString(v) case Ok(s) => Ok(x.(gateway := s)) case Err(f) => Err(f))
    case _ => Ok(x)
  }

  predicate ValidIPv4(k: Key, v: Variant) {
    match k
    case MethodKey => AsEnum(IPV4_METHOD_MAP, v).Ok?
    case AddressKey => v.Str?
    case NetmaskKey => v.Str?
    case GatewayKey => v.Str?
    case _ => true
  }

  function ViewIPv4(m: map<Key, Variant>): IPv4 {
    IPv4(EnumAt(IPV4_METHOD_MAP, m, MethodKey, IPv4Method.Off), StringAt(m, AddressKey), StringAt(m, NetmaskKey),
         StringAt(m, GatewayKey))
  }

  function UpdateIPv6(x: IPv6, k: Key, v: Variant): Result<IPv6, Failure> {
    match k
    case MethodKey => (match AsEnum(IPV6_METHOD_MAP, v) case Ok(e) => Ok(x.(method6 := e)) case Err(f) => Err(f))
    case AddressKey => (match AsString(v) case Ok(s) => Ok(x.(address := s)) case Err(f) => Err(f))
    case GatewayKey => (match AsString(v) case Ok(s) => Ok(x.(gateway := s)) case Err(f) => Err(f))
    case PrivacyKey => (match AsEnum(IPV6_PRIVACY_MAP, v) case Ok(e) => Ok(x.(privacy := e)) case Err(f) => Err(f))
    case PrefixLengthKey => (match AsByte(v) case Ok(n) => Ok(x.(prefixLength := n)) case Err(f) => Err(f))
    case _ => Ok(x)
  }

  predicate ValidIPv6(k: Key, v: Variant) {
    match k
    case MethodKey => AsEnum(IPV6_METHOD_MAP, v).Ok?
    case AddressKey => v.Str?
    case GatewayKey => v.Str?
    case PrivacyKey => AsEnum(IPV6_PRIVACY_MAP, v).Ok?
    case PrefixLengthKey => v.Byte?
    case _ => true
  }

  function ViewIPv6(m: map<Key, Variant>): IPv6 {
    IPv6(EnumAt(IPV6_METHOD_MAP, m, MethodKey, IPv6Method.Off), StringAt(m, AddressKey), StringAt(m, GatewayKey),
         EnumAt(IPV6_PRIVACY_MAP, m, PrivacyKey, Disabled),
         if PrefixLengthKey in m && m[PrefixLengthKey].Byte? then m[PrefixLengthKey].octet else 0)
  }

  function UpdateEthernet(x: Ethernet, k: Key, v: Variant): Result<Ethernet, Failure> {
    match k
    case MethodKey => (match AsEnum(ETHERNET_METHOD_MAP, v) case Ok(e) => Ok(x.(methodE := e)) case Err(f) => Err(f))
    case InterfaceKey => (match AsString(v) case Ok(s) => Ok(x.(iface := s)) case Err(f) => Err(f))
    case AddressKey => (match AsString(v) case Ok(s) => Ok(x.(address := s)) case Err(f) => Err(f))
    case MTUKey => (match AsShort(v) case Ok(n) => Ok(x.(mtu := n)) case Err(f) => Err(f))
    case _ => Ok(x)
  }

  predicate ValidEthernet(k: Key, v: Variant) {
    match k
    case MethodKey => AsEnum(ETHERNET_METHOD_MAP, v).Ok?
    case InterfaceKey => v.Str?
    case AddressKey => v.Str?
    case MTUKey => v.Short?
    case _ => true
  }

  function ViewEthernet(m: map<Key, Variant>): Ethernet {
    Ethernet.Ethernet(EnumAt(ETHERNET_METHOD_MAP, m, MethodKey, EthernetMethod.Manual), StringAt(m, InterfaceKey),
             StringAt(m, AddressKey), if MTUKey in m && m[MTUKey].Short? then m[MTUKey].word else 0)
  }

  function UpdateProvider(x: Provider, k: Key, v: Variant): Result<Provider, Failure> {
    match k
    case HostKey => (match AsString(v) case Ok(s) => Ok(x.(host := s)) case Err(f) => Err(f))
    case DomainKey => (match AsString(v) case Ok(s) => Ok(x.(domain := s)) case Err(f) => Err(f))
    case NameKey => (match AsString(v) case Ok(s) => Ok(x.(name := s)) case Err(f) => Err(f))
    case TypeKey => (match AsString(v) case Ok(s) => Ok(x.(kind := s)) case Err(f) => Err(f))
    case _ => Ok(x)
  }

  predicate ValidProvider(k: Key, v: Variant) {
    k.HostKey? || k.DomainKey? || k.NameKey? || k.TypeKey? ==> v.Str?
  }

  function ViewProvider(m: map<Key, Variant>): Provider {
    Provider(StringAt(m, HostKey), StringAt(m, DomainKey), StringAt(m, NameKey), StringAt(m, TypeKey))
  }

  function UpdateProxy(x: Proxy, k: Key, v: Variant): Result<Proxy, Failure> {
    match k
    case MethodKey => (match AsEnum(PROXY_METHOD_MAP, v) case Ok(e) => Ok(x.(methodP := e)) case Err(f) => Err(f))
    case UrlKey => (match AsString(v) case Ok(s) => Ok(x.(url := s)) case Err(f) => Err(f))
    case ServersKey => Ok(x.(servers := AsStrings(v)))
    case ExcludesKey => Ok(x.(excludes := AsStrings(v)))
    case _ => Ok(x)
  }

  predicate ValidProxy(k: Key, v: Variant) {
    match k
    case MethodKey => AsEnum(PROXY_METHOD_MAP, v).Ok?
    case UrlKey => v.Str?
    case _ => true
  }

  function ViewProxy(m: map<Key, Variant>): Proxy {
    Proxy(EnumAt(PROXY_METHOD_MAP, m, MethodKey, ProxyMethod.Direct), StringAt(m, UrlKey),
          StringsAt(m, ServersKey), StringsAt(m, ExcludesKey))
  }

  // ----- The service -----

  /** The fields of ServProperties, by the kind of value they are read from. */
  datatype Basics = Basics(state: State, error: Error, name: string, kind: Type, autoconnect: bool, mdns: bool,
                           favorite: bool, immutable: bool, roaming: bool, strength: UInt8)
  datatype Lists = Lists(security: Option<seq<Security>>, nameServers: Option<seq<string>>,
                         nameServersConf: Option<seq<string>>, domains: Option<seq<string>>,
                         timeServers: Option<seq<string>>)
  datatype Groups = Groups(ipv4: Option<IPv4>, ipv6: Option<IPv6>, ethernet: Option<Ethernet>,
                           provider: Option<Provider>, proxy: Option<Proxy>)
  datatype ServProperties = ServProperties(basics: Basics, lists: Lists, groups: Groups)

  /** A nested group is built anew from the value, or cleared when the value is empty. */
  function Group<T>(update: (T, Key, Variant) -> Result<T, Failure>, blank: T, v: Variant): Result<Option<T>, Failure> {
    match Children(v)
    case Err(f) => Err(f)
    case Ok(n) =>
      if n == 0 then Ok(None)
      else if !v.Dict? then Err(BadType)
      else match Fold(update, blank, v.entries) case Ok(x) => Ok(Some(x)) case Err(f) => Err(f)
  }

  function StringList(v: Variant): Result<Option<seq<string>>, Failure> {
    match Children(v)
    case Err(f) => Err(f)
    case Ok(n) => Ok(if n == 0 then None else Some(AsStrings(v)))
  }

  function SecurityList(v: Variant): Result<Option<seq<Security>>, Failure> {
    match Children(v)
    case Err(f) => Err(f)
    case Ok(n) =>
      if n == 0 then Ok(None) else
        match Vector(SECURITY_MAP, AsStrings(v))
        case Err(_) => Err(BadEnum)
        case Ok(items) => Ok(Some(items))
  }

  function UpdateBasics(x: Basics, k: Key, v: Variant): Result<Basics, Failure> {
    match k
    case NameKey => (match AsString(v) case Ok(s) => Ok(x.(name := s)) case Err(f) => Err(f))
    case TypeKey => (match AsEnum(TYPE_MAP, v) case Ok(e) => Ok(x.(kind := e)) case Err(f) => Err(f))
    case StateKey => (match AsEnum(STATE_MAP, v) case Ok(e) => Ok(x.(state := e)) case Err(f) => Err(f))
    case ErrorKey => (match AsEnum(ERROR_MAP, v) case Ok(e) => Ok(x.(error := e)) case Err(f) => Err(f))
    case FavoriteKey => (match AsFlag(v) case Ok(b) => Ok(x.(favorite := b)) case Err(f) => Err(f))
    case ImmutableKey => (match AsFlag(v) case Ok(b) => Ok(x.(immutable := b)) case Err(f) => Err(f))
    case AutoConnectKey => (match AsFlag(v) case Ok(b) => Ok(x.(autoconnect := b)) case Err(f) => Err(f))
    case MDNSKey => (match AsFlag(v) case Ok(b) => Ok(x.(mdns := b)) case Err(f) => Err(f))
    case StrengthKey => (match AsByte(v) case Ok(n) => Ok(x.(strength := n)) case Err(f) => Err(f))
    case _ => Ok(x)
  }

  function UpdateGroups(x: Groups, k: Key, v: Variant): Result<Groups, Failure> {
    match k
    case IPv4Key => (match Group(UpdateIPv4, ViewIPv4(map[]), v) case Ok(g) => Ok(x.(ipv4 := g)) case Err(f) => Err(f))
    case IPv6Key => (match Group(UpdateIPv6, ViewIPv6(map[]), v) case Ok(g) => Ok(x.(ipv6 := g)) case Err(f) => Err(f))
    case EthernetKey =>
      (match Group(UpdateEthernet, ViewEthernet(map[]), v) case Ok(g) => Ok(x.(ethernet := g)) case Err(f) => Err(f))
    case ProviderKey =>
      (match Group(UpdateProvider, ViewProvider(map[]), v) case Ok(g) => Ok(x.(provider := g)) case Err(f) => Err(f))
    case ProxyKey => (match Group(UpdateProxy, ViewProxy(map[]), v) case Ok(g) => Ok(x.(proxy := g)) case Err(f) => Err(f))
    case _ => Ok(x)
  }

  function UpdateLists(x: Lists, k: Key, v: Variant): Result<Lists, Failure> {
    match k
    case SecurityKey => (match SecurityList(v) case Ok(l) => Ok(x.(security := l)) case Err(f) => Err(f))
    case NameserversKey => (match StringList(v) case Ok(l) => Ok(x.(nameServers := l)) case Err(f) => Err(f))
    case NameserversConfigurationKey =>
      (match StringList(v) case Ok(l) => Ok(x.(nameServersConf := l)) case Err(f) => Err(f))
    case DomainsKey => (match StringList(v) case Ok(l) => Ok(x.(domains := l)) case Err(f) => Err(f))
    case TimeserversKey => (match StringList(v) case Ok(l) => Ok(x.(timeServers := l)) case Err(f) => Err(f))
    case _ => Ok(x)
  }

  /** ServProperties::update: the branch of the key sets one field; an unknown key sets none. */
  function Update(x: ServProperties, k: Key, v: Variant): Result<ServProperties, Failure> {
    match (UpdateBasics(x.basics, k, v), UpdateLists(x.lists, k, v), UpdateGroups(x.groups, k, v))
    case (Ok(b), Ok(l), Ok(g)) => Ok(ServProperties(b, l, g))
    case (Err(f), _, _) => Err(f)
    case (_, Err(f), _) => Err(f)
    case (_, _, Err(f)) => Err(f)
  }

  // ----- What a dictionary means for a service, field by field -----

  predicate ValidGroup(valid: (Key, Variant) -> bool, v: Variant) {
    v == Strs([]) || (v.Dict? && AllValid(valid, v.entries))
  }

  predicate ValidList(v: Variant) {
    v.Strs? || v.Dict?
  }

  predicate ValidBasic(k: Key, v: Variant) {
    match k
    case NameKey => v.Str?
    case TypeKey => AsEnum(TYPE_MAP, v).Ok?
    case StateKey => AsEnum(STATE_MAP, v).Ok?
    case ErrorKey => AsEnum(ERROR_MAP, v).Ok?
    case FavoriteKey => v.Flag?
    case ImmutableKey => v.Flag?
    case AutoConnectKey => v.Flag?
    case MDNSKey => v.Flag?
    case StrengthKey => v.Byte?
    case _ => true
  }

  predicate ValidInGroups(k: Key, v: Variant) {
    match k
    case IPv4Key => ValidGroup(ValidIPv4, v)
    case IPv6Key => ValidGroup(ValidIPv6, v)
    case EthernetKey => ValidGroup(ValidEthernet, v)
    case ProviderKey => ValidGroup(ValidProvider, v)
    case ProxyKey => ValidGroup(ValidProxy, v)
    case _ => true
  }

  predicate ValidInLists(k: Key, v: Variant) {
    match k
    case SecurityKey => ValidList(v) && Vector(SECURITY_MAP, AsStrings(v)).Ok?
    case NameserversKey => ValidList(v)
    case NameserversConfigurationKey => ValidList(v)
    case DomainsKey => ValidList(v)
    case TimeserversKey => ValidList(v)
    case _ => true
  }

  /** The entry has the property's D-Bus type, and its enum strings are in the tables. */
  predicate ValidEntry(k: Key, v: Variant) {
    ValidBasic(k, v) && ValidInLists(k, v) && ValidInGroups(k, v)
  }

  /** The group under a key: only its own last value counts, none of the earlier ones. */
  function GroupAt<T>(view: map<Key, Variant> -> T, m: map<Key, Variant>, k: Key): Option<T> {
    if k in m && m[k].Dict? && m[k].entries != [] then Some(view(AsMap(m[k].entries))) else None
  }

  function ListAt(m: map<Key, Variant>, k: Key): Option<seq<string>> {
    if k in m && Children(m[k]).Ok? && Children(m[k]).value > 0 then Some(AsStrings(m[k])) else None
  }

  function SecurityAt(m: map<Key, Variant>): Option<seq<Security>> {
    if SecurityKey in m && SecurityList(m[SecurityKey]).Ok? then SecurityList(m[SecurityKey]).value else None
  }

  function ViewBasics(m: map<Key, Variant>): Basics {
    Basics(
      EnumAt(STATE_MAP, m, StateKey, Idle), EnumAt(ERROR_MAP, m, ErrorKey, ErrorNone), StringAt(m, NameKey),
      EnumAt(TYPE_MAP, m, TypeKey, Type.Ethernet), FlagAt(m, AutoConnectKey), FlagAt(m, MDNSKey), FlagAt(m, FavoriteKey),
      FlagAt(m, ImmutableKey), false,
      if StrengthKey in m && m[StrengthKey].Byte? then m[StrengthKey].octet else 0)
  }

  function ViewLists(m: map<Key, Variant>): Lists {
    Lists(SecurityAt(m), ListAt(m, NameserversKey), ListAt(m, NameserversConfigurationKey),
          ListAt(m, DomainsKey), ListAt(m, TimeserversKey))
  }

  function ViewGroups(m: map<Key, Variant>): Groups {
    Groups(GroupAt(ViewIPv4, m, IPv4Key), GroupAt(ViewIPv6, m, IPv6Key), GroupAt(ViewEthernet, m, EthernetKey),
           GroupAt(ViewProvider, m, ProviderKey), GroupAt(ViewProxy, m, ProxyKey))
  }

  function View(m: map<Key, Variant>): ServProperties {
    ServProperties(ViewBasics(m), ViewLists(m), ViewGroups(m))
  }

  /** A freshly constructed service. */
  const BLANK := View(map[])

  /** A group value is read as its own dictionary says, from a blank group. */
  ghost predicate ReadsGroup<T>(update: (T, Key, Variant) -> Result<T, Failure>, view: map<Key, Variant> -> T,
                                valid: (Key, Variant) -> bool, v: Variant) {
    if ValidGroup(valid, v)
    then Group(update, view(map[]), v) == Ok(if v.Dict? && v.entries != [] then Some(view(AsMap(v.entries))) else None)
    else Group(update, view(map[]), v).Err?
  }

  lemma GroupFollows<T>(update: (T, Key, Variant) -> Result<T, Failure>, view: map<Key, Variant> -> T,
                        valid: (Key, Variant) -> bool, v: Variant)
    requires Follows(update, view, valid)
    ensures ReadsGroup(update, view, valid, v)
  {
    if v.Dict? {
      LastWriterWins(update, view, valid, map[], v.entries);
      assert map[] + AsMap(v.entries) == AsMap(v.entries);
    }
  }

  /** Each group's `update` is a field-by-field last writer, so its value is read as a dictionary says. */
  lemma IPv4Group(v: Variant)
    ensures ReadsGroup(UpdateIPv4, ViewIPv4, ValidIPv4, v)
  {
    forall m, k, w ensures FollowsAt(UpdateIPv4, ViewIPv4, ValidIPv4, m, k, w) {}
    GroupFollows(UpdateIPv4, ViewIPv4, ValidIPv4, v);
  }

  lemma IPv6Group(v: Variant)
    ensures ReadsGroup(UpdateIPv6, ViewIPv6, ValidIPv6, v)
  {
    forall m, k, w ensures FollowsAt(UpdateIPv6, ViewIPv6, ValidIPv6, m, k, w) {}
    GroupFollows(UpdateIPv6, ViewIPv6, ValidIPv6, v);
  }

  lemma EthernetGroup(v: Variant)
    ensures ReadsGroup(UpdateEthernet, ViewEthernet, ValidEthernet, v)
  {
    forall m, k, w ensures FollowsAt(UpdateEthernet, ViewEthernet, ValidEthernet, m, k, w) {}
    GroupFollows(UpdateEthernet, ViewEthernet, ValidEthernet, v);
  }

  lemma ProviderGroup(v: Variant)
    ensures ReadsGroup(UpdateProvider, ViewProvider, ValidProvider, v)
  {
    forall m, k, w ensures FollowsAt(UpdateProvider, ViewProvider, ValidProvider, m, k, w) {}
    GroupFollows(UpdateProvider, ViewProvider, ValidProvider, v);
  }

  lemma ProxyGroup(v: Variant)
    ensures ReadsGroup(UpdateProxy, ViewProxy, ValidProxy, v)
  {
    forall m, k, w ensures FollowsAt(UpdateProxy, ViewProxy, ValidProxy, m, k, w) {}
    GroupFollows(UpdateProxy, ViewProxy, ValidProxy, v);
  }

  ghost predicate BasicsRead(m: map<Key, Variant>, k: Key, v: Variant) {
    if ValidBasic(k, v) then UpdateBasics(ViewBasics(m), k, v) == Ok(ViewBasics(m[k := v]))
    else UpdateBasics(ViewBasics(m), k, v).Err?
  }

  lemma TextsFollow(m: map<Key, Variant>, k: Key, v: Variant)
    requires k.NameKey? || k.TypeKey? || k.StateKey? || k.ErrorKey?
    ensures BasicsRead(m, k, v)
  {
  }

  lemma FlagsFollow(m: map<Key, Variant>, k: Key, v: Variant)
    requires k.FavoriteKey? || k.ImmutableKey? || k.AutoConnectKey? || k.MDNSKey?
    ensures BasicsRead(m, k, v)
  {
  }

  lemma BasicsFollow(m: map<Key, Variant>, k: Key, v: Variant)
    ensures BasicsRead(m, k, v)
  {
    if k.NameKey? || k.TypeKey? || k.StateKey? || k.ErrorKey? {
      TextsFollow(m, k, v);
    } else if k.FavoriteKey? || k.ImmutableKey? || k.AutoConnectKey? || k.MDNSKey? {
      FlagsFollow(m, k, v);
    }
  }

  lemma ListsFollow(m: map<Key, Variant>, k: Key, v: Variant)
    ensures if ValidInLists(k, v) then UpdateLists(ViewLists(m), k, v) == Ok(ViewLists(m[k := v]))
            else UpdateLists(ViewLists(m), k, v).Err?
  {
  }

  ghost predicate GroupsRead(m: map<Key, Variant>, k: Key, v: Variant) {
    if ValidInGroups(k, v) then UpdateGroups(ViewGroups(m), k, v) == Ok(ViewGroups(m[k := v]))
    else UpdateGroups(ViewGroups(m), k, v).Err?
  }

  /** Setting one key leaves the groups under other keys as they were. */
  lemma AddressGroupsFollow(m: map<Key, Variant>, k: Key, v: Variant)
    requires k.IPv4Key? || k.IPv6Key?
    ensures GroupsRead(m, k, v)
  {
    if k.IPv4Key? {
      IPv4Group(v);
    } else {
      IPv6Group(v);
    }
  }

  lemma LinkGroupsFollow(m: map<Key, Variant>, k: Key, v: Variant)
    requires k.EthernetKey? || k.ProviderKey?
    ensures GroupsRead(m, k, v)
  {
    if k.EthernetKey? {
      EthernetGroup(v);
    } else {
      ProviderGroup(v);
    }
  }

  lemma ProxyGroupFollows(m: map<Key, Variant>, v: Variant)
    ensures GroupsRead(m, ProxyKey, v)
  {
    ProxyGroup(v);
  }

  lemma GroupsFollow(m: map<Key, Variant>, k: Key, v: Variant)
    ensures GroupsRead(m, k, v)
  {
    if k.IPv4Key? || k.IPv6Key? {
      AddressGroupsFollow(m, k, v);
    } else if k.EthernetKey? || k.ProviderKey? {
      LinkGroupsFollow(m, k, v);
    } else if k.ProxyKey? {
      ProxyGroupFollows(m, v);
    }
  }

  /** The service's `update` is a last writer per key; unknown keys change nothing. */
  lemma ServiceFollows()
    ensures Follows(Update, View, ValidEntry)
  {
    forall m, k, v ensures FollowsAt(Update, View, ValidEntry, m, k, v) {
      BasicsFollow(m, k, v);
      ListsFollow(m, k, v);
      GroupsFollow(m, k, v);
    }
  }

  /** Any dictionary, on any service: the last value under each key wins over what was shown
      before, and the update succeeds exactly when every entry is valid. */
  lemma ServiceLastWriterWins(m: map<Key, Variant>, d: Dictionary)
    ensures Fold(Update, View(m), d).Ok? <==> AllValid(ValidEntry, d)
    ensures AllValid(ValidEntry, d) ==> Fold(Update, View(m), d) == Ok(View(m + AsMap(d)))
  {
    ServiceFollows();
    LastWriterWins(Update, View, ValidEntry, m, d);
  }

  /** A key that no branch of ServProperties::update names. */
  predicate UnknownKey(k: Key) {
    k !in {NameKey, TypeKey, StateKey, ErrorKey, FavoriteKey, ImmutableKey, AutoConnectKey, MDNSKey, StrengthKey,
           IPv4Key, IPv6Key, EthernetKey, ProviderKey, ProxyKey, SecurityKey, NameserversKey,
           NameserversConfigurationKey, DomainsKey, TimeserversKey}
  }

  /** Entries with unknown keys can be left out of any dictionary. */
  lemma UnknownKeyIgnored(x: ServProperties, d: Dictionary, entry: (string, Variant), e: Dictionary)
    requires UnknownKey(KeyOf(entry.0))
    ensures Fold(Update, x, d + [entry] + e) == Fold(Update, x, d + e)
  {
    FoldConcat(Update, x, d + [entry], e);
    FoldConcat(Update, x, d, [entry]);
    FoldConcat(Update, x, d, e);
    if Fold(Update, x, d).Ok? {
      var y := Fold(Update, x, d).value;
      assert Update(y, KeyOf(entry.0), entry.1) == Ok(y);
      assert [entry][1..] == [];
    }
  }

  lemma BasicsUniform(x: Basics, k: Key, v: Variant)
    ensures UpdateBasics(x, k, v).Ok? <==> ValidBasic(k, v)
  {
  }

  lemma ListsUniform(x: Lists, k: Key, v: Variant)
    ensures UpdateLists(x, k, v).Ok? <==> ValidInLists(k, v)
  {
  }

  lemma GroupsUniform(x: Groups, k: Key, v: Variant)
    ensures UpdateGroups(x, k, v).Ok? <==> ValidInGroups(k, v)
  {
    GroupsFollow(map[], k, v);
  }

  /** Whether an entry is accepted does not depend on the service it is applied to. */
  lemma AcceptanceIsUniform(x: ServProperties, k: Key, v: Variant)
    ensures Update(x, k, v).Ok? <==> ValidEntry(k, v)
  {
    BasicsUniform(x.basics, k, v);
    ListsUniform(x.lists, k, v);
    GroupsUniform(x.groups, k, v);
  }

  lemma {:induction false} DictionaryAccepted(x: ServProperties, d: Dictionary)
    ensures Fold(Update, x, d).Ok? <==> AllValid(ValidEntry, d)
    decreases |d|
  {
    if d != [] {
      var k, v := KeyOf(d[0].0), d[0].1;
      AcceptanceIsUniform(x, k, v);
      if ValidEntry(k, v) {
        DictionaryAccepted(Update(x, k, v).value, d[1..]);
        AllValidSplit(ValidEntry, d);
      }
    }
  }
}
