/** How connman spells each enumerator, by cases, and what the nine tables of gconnman_service.cpp make
    of a string: the enumerator so spelled, and no other. */
module Spellings {
  import opened Wrappers
  import opened EnumTables
  import opened ServiceProperties

  /** In a table without alias rows, a string reads as the enumerator of row i exactly if it is the row's
      string, and that enumerator is written with it. */
  lemma RowSpelling<E>(m: EnumStringMap<E>, i: nat, s: string)
    requires DistinctStrings(m) && DistinctEnums(m) && i < |m.data|
    ensures m.ToString(m.data[i].0) == Ok(m.data[i].1)
    ensures m.FromString(s) == Ok(m.data[i].0) <==> s == m.data[i].1
  {
    var k := EnumFromFinds(m, m.data[i].0, 0);
    var j := StringFromFinds(m, s, 0);
  }

  function TypeString(e: Type): string {
    match e
    case Ethernet => "ethernet"
    case Wifi => "wifi"
    case Cellular => "cellular"
    case Bluetooth => "bluetooth"
    case Vpn => "vpn"
    case Wired => "wired"
    case P2p => "p2p"
    case Gps => "gps"
    case Gadget => "gadget"
  }

  lemma TypeStringsDistinct()
    ensures DistinctStrings(TYPE_MAP)
  {
  }

  lemma TypesDistinct()
    ensures DistinctEnums(TYPE_MAP)
  {
  }

  lemma TypeSpelling(e: Type, s: string)
    ensures TYPE_MAP.ToString(e) == Ok(TypeString(e))
    ensures TYPE_MAP.FromString(s) == Ok(e) <==> s == TypeString(e)
  {
    var i := match e case Ethernet => 0 case Wifi => 1 case Cellular => 2 case Bluetooth => 3 case Vpn => 4
                     case Wired => 5 case P2p => 6 case Gps => 7 case Gadget => 8;
    assert TYPE_MAP.data[i] == (e, TypeString(e));
    TypeStringsDistinct();
    TypesDistinct();
    RowSpelling(TYPE_MAP, i, s);
  }

  function StateString(e: State): string {
    match e
    case Association => "association"
    case Configuration => "configuration"
    case Disconnect => "disconnect"
    case Failure => "failure"
    case Idle => "idle"
    case Online => "online"
    case Ready => "ready"
  }

  lemma StateStringsDistinct()
    ensures DistinctStrings(STATE_MAP)
  {
  }

  lemma StatesDistinct()
    ensures DistinctEnums(STATE_MAP)
  {
  }

  lemma StateSpelling(e: State, s: string)
    ensures STATE_MAP.ToString(e) == Ok(StateString(e))
    ensures STATE_MAP.FromString(s) == Ok(e) <==> s == StateString(e)
  {
    var i := match e case Association => 0 case Configuration => 1 case Disconnect => 2 case Failure => 3
                     case Idle => 4 case Online => 5 case Ready => 6;
    assert STATE_MAP.data[i] == (e, StateString(e));
    StateStringsDistinct();
    StatesDistinct();
    RowSpelling(STATE_MAP, i, s);
  }

  function SecurityString(e: Security): string {
    match e
    case SecurityNone => "none"
    case Wep => "wep"
    case Psk => "psk"
    case Ieee8021x => "ieee8021x"
    case Wps => "wps"
    case WpsAdvertising => "wps_advertising"
  }

  lemma SecuritySpelling(e: Security, s: string)
    ensures SECURITY_MAP.ToString(e) == Ok(SecurityString(e))
    ensures SECURITY_MAP.FromString(s) == Ok(e) <==> s == SecurityString(e)
  {
    var i := match e case SecurityNone => 0 case Wep => 1 case Psk => 2 case Ieee8021x => 3 case Wps => 4
                     case WpsAdvertising => 5;
    assert SECURITY_MAP.data[i] == (e, SecurityString(e));
    RowSpelling(SECURITY_MAP, i, s);
  }

  function ErrorString(e: Error): string {
    match e
    case ErrorNone => ""
    case OutOfRange => "out-of-range"
    case PinMissing => "pin-missing"
    case DhcpFailed => "dhcp-failed"
    case ConnectFailed => "connect-failed"
    case LoginFailed => "login-failed"
    case AuthFailed => "auth-failed"
    case InvalidKey => "invalid-key"
    case Blocked => "blocked"
    case OnlineCheckFailed => "online-check-failed"
  }

  lemma ErrorStringsDistinct()
    ensures DistinctStrings(ERROR_MAP)
  {
  }

  lemma ErrorsDistinct()
    ensures DistinctEnums(ERROR_MAP)
  {
  }

  lemma ErrorSpelling(e: Error, s: string)
    ensures ERROR_MAP.ToString(e) == Ok(ErrorString(e))
    ensures ERROR_MAP.FromString(s) == Ok(e) <==> s == ErrorString(e)
  {
    var i := match e case ErrorNone => 0 case OutOfRange => 1 case PinMissing => 2 case DhcpFailed => 3
                     case ConnectFailed => 4 case LoginFailed => 5 case AuthFailed => 6 case InvalidKey => 7
                     case Blocked => 8 case OnlineCheckFailed => 9;
    assert ERROR_MAP.data[i] == (e, ErrorString(e));
    ErrorStringsDistinct();
    ErrorsDistinct();
    RowSpelling(ERROR_MAP, i, s);
  }

  function IPv4MethodString(e: IPv4Method): string {
    match e
    case Off => "off"
    case Dhcp => "dhcp"
    case Manual => "manual"
    case Auto => "auto"
  }

  lemma IPv4MethodSpelling(e: IPv4Method, s: string)
    ensures IPV4_METHOD_MAP.ToString(e) == Ok(IPv4MethodString(e))
    ensures IPV4_METHOD_MAP.FromString(s) == Ok(e) <==> s == IPv4MethodString(e)
  {
    var i := match e case Off => 0 case Dhcp => 1 case Manual => 2 case Auto => 3;
    assert IPV4_METHOD_MAP.data[i] == (e, IPv4MethodString(e));
    RowSpelling(IPV4_METHOD_MAP, i, s);
  }

  function IPv6MethodString(e: IPv6Method): string {
    match e
    case Off => "off"
    case K6to4 => "6to4"
    case Manual => "manual"
    case Fixed => "fixed"
    case Auto => "auto"
  }

  lemma IPv6MethodSpelling(e: IPv6Method, s: string)
    ensures IPV6_METHOD_MAP.ToString(e) == Ok(IPv6MethodString(e))
    ensures IPV6_METHOD_MAP.FromString(s) == Ok(e) <==> s == IPv6MethodString(e)
  {
    var i := match e case Off => 0 case K6to4 => 1 case Manual => 2 case Fixed => 3 case Auto => 4;
    assert IPV6_METHOD_MAP.data[i] == (e, IPv6MethodString(e));
    RowSpelling(IPV6_METHOD_MAP, i, s);
  }

  function EthernetMethodString(e: EthernetMethod): string {
    match e
    case Manual => "manual"
    case Auto => "auto"
  }

  lemma EthernetMethodSpelling(e: EthernetMethod, s: string)
    ensures ETHERNET_METHOD_MAP.ToString(e) == Ok(EthernetMethodString(e))
    ensures ETHERNET_METHOD_MAP.FromString(s) == Ok(e) <==> s == EthernetMethodString(e)
  {
    var i := match e case Manual => 0 case Auto => 1;
    assert ETHERNET_METHOD_MAP.data[i] == (e, EthernetMethodString(e));
    RowSpelling(ETHERNET_METHOD_MAP, i, s);
  }

  function ProxyMethodString(e: ProxyMethod): string {
    match e
    case Direct => "direct"
    case Manual => "manual"
    case Auto => "auto"
  }

  lemma ProxyMethodSpelling(e: ProxyMethod, s: string)
    ensures PROXY_METHOD_MAP.ToString(e) == Ok(ProxyMethodString(e))
    ensures PROXY_METHOD_MAP.FromString(s) == Ok(e) <==> s == ProxyMethodString(e)
  {
    var i := match e case Direct => 0 case Manual => 1 case Auto => 2;
    assert PROXY_METHOD_MAP.data[i] == (e, ProxyMethodString(e));
    RowSpelling(PROXY_METHOD_MAP, i, s);
  }

  function PrivacyString(e: Privacy): string {
    match e
    case Disabled => "disabled"
    case Enabled => "enabled"
    case Preferred => "preferred"
  }

  /** The one alias: "prefered" is read too, and never written. */
  lemma PrivacySpelling(e: Privacy, s: string)
    ensures IPV6_PRIVACY_MAP.ToString(e) == Ok(PrivacyString(e))
    ensures IPV6_PRIVACY_MAP.FromString(s) == Ok(e) <==> s == PrivacyString(e) || (e == Preferred && s == "prefered")
  {
    var m := IPV6_PRIVACY_MAP;
    assert m.data[0] == (Disabled, "disabled") && m.data[1] == (Enabled, "enabled");
    assert m.data[2] == (Preferred, "preferred") && m.data[3] == (Preferred, "prefered");
    assert DistinctStrings(m);
    var k := EnumFromFinds(m, e, 0);
    var j := StringFromFinds(m, s, 0);
  }
}
