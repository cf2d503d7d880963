/** Which branch takes each property name, in literals (gconnman_service.cpp:124-288). */
module PropertyNames {
  import opened Variants

  lemma PlainNames()
    ensures KeyOf("Name") == NameKey
    ensures KeyOf("Type") == TypeKey
    ensures KeyOf("State") == StateKey
    ensures KeyOf("Error") == ErrorKey
    ensures KeyOf("Favorite") == FavoriteKey
    ensures KeyOf("Immutable") == ImmutableKey
    ensures KeyOf("AutoConnect") == AutoConnectKey
    ensures KeyOf("mDNS") == MDNSKey
  {
  }

  lemma GroupNames()
    ensures KeyOf("Strength") == StrengthKey
    ensures KeyOf("IPv4") == IPv4Key
    ensures KeyOf("IPv6") == IPv6Key
    ensures KeyOf("Ethernet") == EthernetKey
  {
  }

  lemma MoreGroupNames()
    ensures KeyOf("Provider") == ProviderKey
    ensures KeyOf("Proxy") == ProxyKey
    ensures KeyOf("Security") == SecurityKey
  {
  }

  lemma ServerNames()
    ensures KeyOf("Nameservers") == NameserversKey
    ensures KeyOf("Nameservers.Configuration") == NameserversConfigurationKey
    ensures KeyOf("Domains") == DomainsKey
    ensures KeyOf("Timeservers") == TimeserversKey
  {
  }

  lemma AddressNames()
    ensures KeyOf("Method") == MethodKey
    ensures KeyOf("Address") == AddressKey
    ensures KeyOf("Netmask") == NetmaskKey
    ensures KeyOf("Gateway") == GatewayKey
  {
  }

  lemma IPv6Names()
    ensures KeyOf("Privacy") == PrivacyKey
    ensures KeyOf("PrefixLength") == PrefixLengthKey
  {
  }

  lemma EthernetNames()
    ensures KeyOf("Interface") == InterfaceKey
    ensures KeyOf("MTU") == MTUKey
  {
  }

  lemma ProviderNames()
    ensures KeyOf("Host") == HostKey
    ensures KeyOf("Domain") == DomainKey
  {
  }

  lemma UrlName()
    ensures KeyOf("Url") == UrlKey
  {
  }

  lemma ProxyListNames()
    ensures KeyOf("Servers") == ServersKey
    ensures KeyOf("Excludes") == ExcludesKey
  {
  }
}
