/** The request schema `ib_spec` that `main` builds and the identity filter it
    extracts from the parameters. */
module Schema {
  import opened PyValues

  /** One field descriptor of `ib_spec`. Only `ib_req` ("required for
      identification") is read by the code modelled here; the other
      attributes (type, default, aliases, the `options` transform) are read
      by the framework and the WAPI client. */
  datatype FieldSpec = FieldSpec(ibReq: bool)

  const Plain := FieldSpec(false)
  const Identifying := FieldSpec(true)

  /** The `ib_spec` literal of `main`. */
  const IbSpec: map<string, FieldSpec> := map[
    "network" := Identifying,
    "network_view" := Identifying,
    "options" := Plain,
    "extattrs" := Plain,
    "comment" := Plain,
    "bootfile" := Plain,
    "use_bootfile" := Plain,
    "container" := Identifying,
    "ddns_domainname" := Plain,
    "use_ddns_domainname" := Plain,
    "email_list" := Plain,
    "use_email_list" := Plain,
    "ipam_email_addresses" := Plain,
    "use_ipam_email_addresses" := Plain,
    "enable_email_warnings" := Plain,
    "use_ipam_trap_settings" := Plain,
    "ipam_trap_settings" := Plain,
    "members" := Plain
  ]

  /** Every schema field has a parameter value: the framework fills
      `module.params` from an argument spec that contains all of `ib_spec`. */
  predicate CoversSpec(params: map<string, Param>, spec: map<string, FieldSpec>) {
    forall k :: k in spec ==> k in params
  }

  /** `obj_filter`: the parameters of the fields marked `ib_req`. */
  function ObjFilter(params: map<string, Param>, spec: map<string, FieldSpec>): (r: map<string, Param>)
    requires CoversSpec(params, spec)
    ensures forall k :: k in r <==> k in spec && spec[k].ibReq
    ensures forall k :: k in r ==> r[k] == params[k]
  {
    map k | k in spec && spec[k].ibReq :: params[k]
  }

  /** On the module's own schema the identity filter holds exactly the
      network, the network view and the container flag. */
  lemma ObjFilterOfIbSpec(params: map<string, Param>)
    requires CoversSpec(params, IbSpec)
    ensures ObjFilter(params, IbSpec).Keys == {"network", "network_view", "container"}
  {
  }
}
