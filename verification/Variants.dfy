/** D-Bus values as the library reads them, and the names of properties. */
module Variants {
  import opened Wrappers
  import opened EnumTables

  type UInt8 = n: int | 0 <= n < 0x100
  type UInt16 = n: int | 0 <= n < 0x1_0000

  datatype Variant =
    | Str(text: string) | Flag(on: bool) | Byte(octet: UInt8) | Short(word: UInt16)
    | Strs(items: seq<string>) | Dict(entries: Dictionary)

  type Dictionary = seq<(string, Variant)>

  /** An unknown enum string (std::runtime_error), or a value of another D-Bus type than the
      property has, which GLib reports as a critical error. */
  datatype Failure = BadEnum | BadType

  function AsString(v: Variant): Result<string, Failure> {
    if v.Str? then Ok(v.text) else Err(BadType)
  }

  function AsFlag(v: Variant): Result<bool, Failure> {
    if v.Flag? then Ok(v.on) else Err(BadType)
  }

  function AsByte(v: Variant): Result<UInt8, Failure> {
    if v.Byte? then Ok(v.octet) else Err(BadType)
  }

  function AsShort(v: Variant): Result<UInt16, Failure> {
    if v.Short? then Ok(v.word) else Err(BadType)
  }

  function AsEnum<E(==)>(table: EnumStringMap<E>, v: Variant): Result<E, Failure> {
    if !v.Str? then Err(BadType) else
      match table.FromString(v.text) case Ok(e) => Ok(e) case Err(_) => Err(BadEnum)
  }

  /** g_variant_n_children: only containers have children. */
  function Children(v: Variant): Result<nat, Failure> {
    match v
    case Strs(items) => Ok(|items|)
    case Dict(entries) => Ok(|entries|)
    case _ => Err(BadType)
  }

  /** as_to_vector without a table: a value of another type than `as` gives an empty list. */
  function AsStrings(v: Variant): seq<string> {
    if v.Strs? then v.items else []
  }

  /** The names that some `update` compares with; Other is every further name. */
  datatype Key =
    | NameKey | TypeKey | StateKey | ErrorKey | FavoriteKey | ImmutableKey
    | AutoConnectKey | MDNSKey | StrengthKey | IPv4Key | IPv6Key | EthernetKey
    | ProviderKey | ProxyKey | SecurityKey | NameserversKey | NameserversConfigurationKey | DomainsKey
    | TimeserversKey | MethodKey | AddressKey | NetmaskKey | GatewayKey | PrivacyKey
    | PrefixLengthKey | InterfaceKey | MTUKey | HostKey | DomainKey | UrlKey
    | ServersKey | ExcludesKey
    | Other(name: string)

  function KeyName(k: Key): string {
    match k
    case NameKey => "Name" case TypeKey => "Type" case StateKey => "State"
    case ErrorKey => "Error" case FavoriteKey => "Favorite" case ImmutableKey => "Immutable"
    case AutoConnectKey => "AutoConnect" case MDNSKey => "mDNS"
    case _ => SettingKeyName(k)
  }

  function SettingKeyName(k: Key): string {
    match k
    case StrengthKey => "Strength" case IPv4Key => "IPv4" case IPv6Key => "IPv6"
    case EthernetKey => "Ethernet" case ProviderKey => "Provider" case ProxyKey => "Proxy"
    case SecurityKey => "Security"
    case _ => ListKeyName(k)
  }

  function ListKeyName(k: Key): string {
    match k
    case NameserversKey => "Nameservers" case NameserversConfigurationKey => "Nameservers.Configuration" case DomainsKey => "Domains"
    case TimeserversKey => "Timeservers" case MethodKey => "Method" case AddressKey => "Address"
    case NetmaskKey => "Netmask" case GatewayKey => "Gateway"
    case _ => GroupKeyName(k)
  }

  function GroupKeyName(k: Key): string {
    match k
    case PrivacyKey => "Privacy" case PrefixLengthKey => "PrefixLength" case InterfaceKey => "Interface"
    case MTUKey => "MTU" case HostKey => "Host" case DomainKey => "Domain"
    case UrlKey => "Url" case ServersKey => "Servers" case ExcludesKey => "Excludes"
    case Other(name) => name
    case _ => ""
  }

  /** The branch that a property name takes. */
  function KeyOf(s: string): Key {
    if s == "Name" then NameKey else
    if s == "Type" then TypeKey else
    if s == "State" then StateKey else
    if s == "Error" then ErrorKey else
    if s == "Favorite" then FavoriteKey else
    if s == "Immutable" then ImmutableKey else
    if s == "AutoConnect" then AutoConnectKey else
    if s == "mDNS" then MDNSKey else
    SettingKeyOf(s)
  }

  function SettingKeyOf(s: string): Key {
    if s == "Strength" then StrengthKey else
    if s == "IPv4" then IPv4Key else
    if s == "IPv6" then IPv6Key else
    if s == "Ethernet" then EthernetKey else
    if s == "Provider" then ProviderKey else
    if s == "Proxy" then ProxyKey else
    if s == "Security" then SecurityKey else
    ListKeyOf(s)
  }

  function ListKeyOf(s: string): Key {
    if s == "Nameservers" then NameserversKey else
    if s == "Nameservers.Configuration" then NameserversConfigurationKey else
    if s == "Domains" then DomainsKey else
    if s == "Timeservers" then TimeserversKey else
    if s == "Method" then MethodKey else
    if s == "Address" then AddressKey else
    if s == "Netmask" then NetmaskKey else
    if s == "Gateway" then GatewayKey else
    GroupKeyOf(s)
  }

  function GroupKeyOf(s: string): Key {
    if s == "Privacy" then PrivacyKey else
    if s == "PrefixLength" then PrefixLengthKey else
    if s == "Interface" then InterfaceKey else
    if s == "MTU" then MTUKey else
    if s == "Host" then HostKey else
    if s == "Domain" then DomainKey else
    if s == "Url" then UrlKey else
    if s == "Servers" then ServersKey else
    if s == "Excludes" then ExcludesKey else
    Other(s)
  }

  lemma GroupKeyFaithful(s: string)
    ensures GroupKeyName(GroupKeyOf(s)) == s && ListKeyName(GroupKeyOf(s)) == s
  {
  }

  lemma ListKeyFaithful(s: string)
    ensures ListKeyName(ListKeyOf(s)) == s && SettingKeyName(ListKeyOf(s)) == s
  {
    GroupKeyFaithful(s);
  }

  lemma SettingKeyFaithful(s: string)
    ensures SettingKeyName(SettingKeyOf(s)) == s && KeyName(SettingKeyOf(s)) == s
  {
    ListKeyFaithful(s);
  }

  /** Different names never share a key. */
  lemma KeyFaithful(s: string)
    ensures KeyName(KeyOf(s)) == s
  {
    SettingKeyFaithful(s);
  }
}
