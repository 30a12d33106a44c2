/** The network-type selector (`check_ip_addr_type`): chooses one of the four
    WAPI object types and strips the selector-only fields from the schema. */
module NetworkTypeSelector {
  import opened PyValues
  import opened Results
  import opened Schema

  /** The four WAPI object types the module can target. */
  datatype NetworkType = Ipv4Network | Ipv6Network | Ipv4Container | Ipv6Container
  {
    predicate IsContainer() {
      Ipv4Container? || Ipv6Container?
    }

    predicate IsIpv6() {
      Ipv6Network? || Ipv6Container?
    }
  }

  /** What `check_ip_addr_type` leaves behind: the type it returned (`None`
      when neither validator accepted the address) and the schema after its
      in-place deletions. */
  datatype Selection = Selection(netType: Option<NetworkType>, spec: map<string, FieldSpec>)

  /** Python's `cidr.split('/')[0]`: the text before the first `/`, or the
      whole string when there is none. */
  function AddressPart(cidr: string): (r: string)
    ensures r <= cidr
    ensures '/' !in r
    ensures |r| < |cidr| ==> cidr[|r|] == '/'
  {
    if |cidr| == 0 || cidr[0] == '/' then ""
    else [cidr[0]] + AddressPart(cidr[1..])
  }

  /** The address part of a CIDR written as address, slash, prefix length. */
  lemma {:induction false} AddressPartOfCidr(address: string, prefixLength: string)
    requires '/' !in address
    ensures AddressPart(address + "/" + prefixLength) == address
  {
    AddressPartBeforeSlash(address + "/" + prefixLength, address);
  }

  /** Any string that starts with a slash-free address followed by `/` has
      that address as its address part. */
  lemma {:induction false} AddressPartBeforeSlash(cidr: string, address: string)
    requires |address| < |cidr| && cidr[..|address|] == address && cidr[|address|] == '/'
    requires '/' !in address
    ensures AddressPart(cidr) == address
  {
    var r := AddressPart(cidr);
    assert r == cidr[..|r|];
  }

  /** The parameters (or the identity filter drawn from them) name the
      network as a string: `network` is a required parameter of type str. */
  predicate HasNetwork(params: map<string, Param>) {
    "network" in params && params["network"].Scalar? && params["network"].v.Str?
  }

  /** The address the selector classifies. */
  function NetworkAddress(params: map<string, Param>): string
    requires HasNetwork(params)
  {
    AddressPart(params["network"].v.s)
  }

  /** `'container' in obj_filter and obj_filter['container']`: a missing or
      `None` flag selects a plain network. */
  predicate ContainerSet(filter: map<string, Param>) {
    "container" in filter && ParamTruthy(filter["container"])
  }

  /** `check_ip_addr_type`. The deletions happen before classification, so
      they are in the returned schema even when no type is selected. */
  function CheckIpAddrType(filter: map<string, Param>, spec: map<string, FieldSpec>,
                           v4: string -> bool, v6: string -> bool): (r: Selection)
    requires HasNetwork(filter)
    requires "container" in spec
    requires ContainerSet(filter) ==> "options" in spec
    ensures "container" !in r.spec
    ensures "options" in r.spec <==> "options" in spec && !ContainerSet(filter)
    ensures forall k :: k != "container" && k != "options" ==> (k in r.spec <==> k in spec)
    ensures forall k :: k in r.spec ==> k in spec && r.spec[k] == spec[k]
    ensures r.netType.Some? <==> v4(NetworkAddress(filter)) || v6(NetworkAddress(filter))
    ensures r.netType.Some? ==> (r.netType.value.IsContainer() <==> ContainerSet(filter))
    ensures r.netType.Some? ==> (r.netType.value.IsIpv6() <==> !v4(NetworkAddress(filter)))
  {
    var checkIp := AddressPart(filter["network"].v.s);
    if ContainerSet(filter) then
      var spec' := spec - {"container"} - {"options"};
      if v4(checkIp) then Selection(Some(Ipv4Container), spec')
      else if v6(checkIp) then Selection(Some(Ipv6Container), spec')
      else Selection(None, spec')
    else
      var spec' := spec - {"container"};
      if v4(checkIp) then Selection(Some(Ipv4Network), spec')
      else if v6(checkIp) then Selection(Some(Ipv6Network), spec')
      else Selection(None, spec')
  }

  /** The schema loses exactly one field for a network and two for a container. */
  lemma SelectionShrinksSpec(filter: map<string, Param>, spec: map<string, FieldSpec>,
                             v4: string -> bool, v6: string -> bool)
    requires HasNetwork(filter)
    requires "container" in spec && "options" in spec
    ensures |CheckIpAddrType(filter, spec, v4, v6).spec| == |spec| - (if ContainerSet(filter) then 2 else 1)
  {
  }

  /** `192.168.10.0/24` without the container flag is an IPv4 network; the
      schema loses `container` and keeps `options`. */
  lemma Ipv4NetworkScenario(spec: map<string, FieldSpec>, v4: string -> bool, v6: string -> bool)
    requires "container" in spec && "options" in spec
    requires v4("192.168.10.0")
    ensures var r := CheckIpAddrType(map["network" := Scalar(Str("192.168.10.0/24")), "container" := Scalar(Bool(false))], spec, v4, v6);
            r.netType == Some(Ipv4Network) && "container" !in r.spec && "options" in r.spec
  {
    var filter := map["network" := Scalar(Str("192.168.10.0/24")), "container" := Scalar(Bool(false))];
    assert NetworkAddress(filter) == "192.168.10.0" by {
      AddressPartBeforeSlash("192.168.10.0/24", "192.168.10.0");
    }
    assert !ContainerSet(filter);
    var r := CheckIpAddrType(filter, spec, v4, v6);
    assert r.netType == Some(Ipv4Network) by {
      assert v4(NetworkAddress(filter));
    }
    assert "options" in r.spec;
  }

  /** `fe80::/64` with the container flag set is an IPv6 network container;
      the schema loses both `container` and `options`. */
  lemma Ipv6ContainerScenario(spec: map<string, FieldSpec>, v4: string -> bool, v6: string -> bool)
    requires "container" in spec && "options" in spec
    requires !v4("fe80::") && v6("fe80::")
    ensures var r := CheckIpAddrType(map["network" := Scalar(Str("fe80::/64")), "container" := Scalar(Bool(true))], spec, v4, v6);
            r.netType == Some(Ipv6Container) && "container" !in r.spec && "options" !in r.spec
  {
    var filter := map["network" := Scalar(Str("fe80::/64")), "container" := Scalar(Bool(true))];
    assert NetworkAddress(filter) == "fe80::" by {
      AddressPartBeforeSlash("fe80::/64", "fe80::");
    }
    assert ContainerSet(filter);
    var r := CheckIpAddrType(filter, spec, v4, v6);
    assert r.netType == Some(Ipv6Container) by {
      assert !v4(NetworkAddress(filter)) && v6(NetworkAddress(filter));
    }
    assert "options" !in r.spec;
  }
}
