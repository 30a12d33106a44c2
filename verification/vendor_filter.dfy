/** The vendor-option filter (`check_vendor_specific_dhcp_option`): WAPI
    rejects `use_option` on vendor-specific DHCP options, so the flag is
    dropped from every option that is not one of the standard ones. */
module VendorOptionFilter {
  import opened PyValues
  import opened Schema

  /** The registry of standard DHCP options, name to code. Two names share
      code 1. */
  const SpecialOptions: map<string, int> := map[
    "routers" := 3,
    "router-templates" := 1,
    "domain-name-servers" := 6,
    "domain-name" := 15,
    "broadcast-address" := 28,
    "broadcast-address-offset" := 1,
    "dhcp-lease-time" := 51,
    "dhcp6.name-servers" := 23
  ]

  /** Eight names but seven distinct codes. */
  lemma RegistryShape()
    ensures |SpecialOptions.Keys| == 8
    ensures SpecialOptions.Values == {3, 1, 6, 15, 28, 51, 23}
    ensures SpecialOptions["router-templates"] == SpecialOptions["broadcast-address-offset"] == 1
  {
    assert SpecialOptions.Keys == {"routers", "router-templates", "domain-name-servers", "domain-name",
                                   "broadcast-address", "broadcast-address-offset", "dhcp-lease-time",
                                   "dhcp6.name-servers"};
    assert SpecialOptions.Values == {3, 1, 6, 15, 28, 51, 23} by {
      assert SpecialOptions["routers"] == 3;
      assert SpecialOptions["router-templates"] == 1;
      assert SpecialOptions["domain-name-servers"] == 6;
      assert SpecialOptions["domain-name"] == 15;
      assert SpecialOptions["broadcast-address"] == 28;
      assert SpecialOptions["dhcp-lease-time"] == 51;
      assert SpecialOptions["dhcp6.name-servers"] == 23;
    }
  }

  /** `v in special_options.values()`: Python compares with `==`, so `True`
      matches code 1 and `False` would match a code 0. */
  predicate IsSpecialCode(v: Value) {
    match v
    case Int(i) => i in SpecialOptions.Values
    case Bool(b) => (if b then 1 else 0) in SpecialOptions.Values
    case _ => false
  }

  /** `v in special_options.keys()`: only a string can equal a name. */
  predicate IsSpecialName(v: Value) {
    v.Str? && v.s in SpecialOptions
  }

  /** An option the filter treats as vendor-specific: when the `num` key is
      present it alone decides (a `None` number is never vendor-specific, and
      the name is then not consulted); otherwise a non-null `name` outside the
      registry does. A dict with neither key is left alone. */
  predicate IsVendorSpecific(d: OptionDict) {
    if "num" in d then d["num"] != Null && !IsSpecialCode(d["num"])
    else "name" in d && d["name"] != Null && !IsSpecialName(d["name"])
  }

  /** The inner loop body for one dict element of a list parameter. */
  function FilterOptionDict(d: OptionDict): (r: OptionDict)
    ensures forall k :: k != "use_option" ==> (k in r <==> k in d)
    ensures forall k :: k in r ==> k in d && r[k] == d[k]
    ensures "use_option" in r <==> "use_option" in d && !IsVendorSpecific(d)
  {
    if "num" in d then
      if !IsSpecialCode(d["num"]) && d["num"] != Null then d - {"use_option"} else d
    else if "name" in d then
      if !IsSpecialName(d["name"]) && d["name"] != Null then d - {"use_option"} else d
    else d
  }

  /** The filter applied to one list parameter. Only lists of dicts are
      rewritten; lists of strings are left as they are. */
  function FilterParam(p: Param): (r: Param)
    ensures p.DictList? ==> r.DictList? && |r.dicts| == |p.dicts| &&
                            forall i :: 0 <= i < |p.dicts| ==> r.dicts[i] == FilterOptionDict(p.dicts[i])
    ensures !p.DictList? ==> r == p
  {
    match p
    case DictList(ds) => DictList(seq(|ds|, i requires 0 <= i < |ds| => FilterOptionDict(ds[i])))
    case _ => p
  }

  /** `check_vendor_specific_dhcp_option`: visits the parameter of every field
      still in the schema, and rewrites it when it is a list. The schema itself
      is returned unchanged, so only the parameters are modelled as output. */
  function FilterParams(params: map<string, Param>, spec: map<string, FieldSpec>): (r: map<string, Param>)
    requires CoversSpec(params, spec)
    ensures r.Keys == params.Keys
    ensures forall k :: k in params && k !in spec ==> r[k] == params[k]
    ensures forall k :: k in spec && !params[k].DictList? ==> r[k] == params[k]
    ensures forall k :: k in spec && params[k].DictList? ==>
              r[k].DictList? && |r[k].dicts| == |params[k].dicts| &&
              forall i :: 0 <= i < |params[k].dicts| ==> r[k].dicts[i] == FilterOptionDict(params[k].dicts[i])
  {
    map k | k in params :: if k in spec && params[k].IsList() then FilterParam(params[k]) else params[k]
  }

  /** Filtering a second time changes nothing. */
  lemma FilterOptionDictIdempotent(d: OptionDict)
    ensures FilterOptionDict(FilterOptionDict(d)) == FilterOptionDict(d)
  {
  }

  /** A standard code keeps `use_option`, whatever the name says. */
  lemma StandardCodeKeepsUseOption(d: OptionDict, code: int)
    requires "num" in d && d["num"] == Int(code)
    requires code in SpecialOptions.Values
    ensures FilterOptionDict(d) == d
  {
  }

  /** A non-null code outside the registry loses `use_option` and nothing else. */
  lemma VendorCodeLosesUseOption(d: OptionDict, code: int)
    requires "num" in d && d["num"] == Int(code)
    requires code !in SpecialOptions.Values
    ensures FilterOptionDict(d) == d - {"use_option"}
  {
  }

  /** A `num` key holding `None` takes the number branch and keeps
      `use_option`, even next to a vendor-specific name. */
  lemma NullNumKeepsUseOption(d: OptionDict)
    requires "num" in d && d["num"] == Null
    ensures FilterOptionDict(d) == d
  {
  }

  /** Without a `num` key, a name outside the registry loses `use_option`. */
  lemma VendorNameLosesUseOption(d: OptionDict, name: string)
    requires "num" !in d && "name" in d && d["name"] == Str(name)
    requires name !in SpecialOptions
    ensures FilterOptionDict(d) == d - {"use_option"}
  {
  }
}
