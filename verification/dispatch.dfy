/** The request shaping in `main`: extract the identity filter, select the
    object type, filter vendor-specific options, and hand the result to the
    WAPI client. */
module Dispatch {
  import opened PyValues
  import opened Results
  import opened Schema
  import opened OptionNormalizer
  import opened NetworkTypeSelector
  import opened VendorOptionFilter

  /** What `main` passes on to `WapiModule.run`: the object type, the schema
      after selection, and the parameters after the vendor filter rewrote
      their option dicts in place. */
  datatype Request = Request(netType: NetworkType, spec: map<string, FieldSpec>, params: map<string, Param>)

  /** The fields `main` relies on: `network` and `container` identify the
      object, and `options` is a schema field. `IbSpec` has this shape. */
  predicate SchemaShape(spec: map<string, FieldSpec>) {
    && "network" in spec && spec["network"].ibReq
    && "container" in spec && spec["container"].ibReq
    && "options" in spec
  }

  lemma IbSpecShape()
    ensures SchemaShape(IbSpec)
  {
  }

  /** What the framework guarantees about `module.params`: a value for every
      schema field, and `network` (a required str) set to a string. */
  predicate WellFormedParams(params: map<string, Param>, spec: map<string, FieldSpec>) {
    && SchemaShape(spec)
    && CoversSpec(params, spec)
    && params["network"].Scalar?
    && params["network"].v.Str?
  }

  /** The schema fields that survive type selection. */
  function SelectedKeys(spec: map<string, FieldSpec>, container: bool): set<string> {
    spec.Keys - {"container"} - (if container then {"options"} else {})
  }

  /** `main` up to the remote call. Unpacking the `None` returned for an
      address neither validator accepts fails the module. */
  function Prepare(params: map<string, Param>, spec: map<string, FieldSpec>,
                   v4: string -> bool, v6: string -> bool): (r: Result<Request>)
    requires WellFormedParams(params, spec)
    ensures r.Success? <==> v4(NetworkAddress(params)) || v6(NetworkAddress(params))
    ensures r.Failure? ==> r.error == NoNetworkType
    ensures r.Success? ==> (r.value.netType.IsContainer() <==> ParamTruthy(params["container"]))
    ensures r.Success? ==> (r.value.netType.IsIpv6() <==> !v4(NetworkAddress(params)))
    ensures r.Success? ==> r.value.spec.Keys == SelectedKeys(spec, ParamTruthy(params["container"]))
    ensures r.Success? ==> forall k :: k in r.value.spec ==> r.value.spec[k] == spec[k]
    ensures r.Success? ==> r.value.params.Keys == params.Keys
    ensures r.Success? ==> forall k :: k in r.value.spec && params[k].DictList? ==>
              r.value.params[k] == FilterParam(params[k])
    ensures r.Success? ==> forall k :: k in params && !(k in r.value.spec && params[k].DictList?) ==>
              r.value.params[k] == params[k]
    ensures r.Success? && ParamTruthy(params["container"]) ==> r.value.params["options"] == params["options"]
    ensures r.Success? && !ParamTruthy(params["container"]) ==> r.value.params["options"] == FilterParam(params["options"])
  {
    var objFilter := ObjFilter(params, spec);
    assert objFilter["network"] == params["network"] && objFilter["container"] == params["container"];
    assert ContainerSet(objFilter) == ParamTruthy(params["container"]);
    var selection := CheckIpAddrType(objFilter, spec, v4, v6);
    match selection.netType
    case None => Failure(NoNetworkType)
    case Some(netType) => Success(Request(netType, selection.spec, FilterParams(params, selection.spec)))
  }

  /** The vendor filter never touches `name`, `num` or any other field the
      normalizer tests, so the `options` transform applied after it accepts
      the same lists and differs only in the dropped `use_option`. */
  lemma {:induction false} FilterPreservesNormalization(ds: seq<OptionDict>)
    ensures NormalizeOptions(FilterParam(DictList(ds)).dicts).Success? <==> NormalizeOptions(ds).Success?
    ensures NormalizeOptions(ds).Success? ==>
              forall i :: 0 <= i < |ds| ==>
                NormalizeOptions(FilterParam(DictList(ds)).dicts).value[i] ==
                  (if "use_option" in ds[i] && IsVendorSpecific(ds[i])
                   then NormalizeOptions(ds).value[i] - {"use_option"}
                   else NormalizeOptions(ds).value[i])
  {
    var fs := FilterParam(DictList(ds)).dicts;
    forall i | 0 <= i < |ds|
      ensures Unidentified(fs[i]) == Unidentified(ds[i])
      ensures DropNulls(fs[i]) == (if "use_option" in ds[i] && IsVendorSpecific(ds[i])
                                   then DropNulls(ds[i]) - {"use_option"} else DropNulls(ds[i]))
    {
      var d, f := ds[i], fs[i];
      assert f == FilterOptionDict(d);
      if "use_option" in d && IsVendorSpecific(d) {
        assert f.Keys == d.Keys - {"use_option"};
        assert DropNulls(f).Keys == DropNulls(d).Keys - {"use_option"};
      } else {
        assert f.Keys == d.Keys;
        assert f == d;
      }
    }
  }

  /** For a network, the `options` transform that `run` applies to the
      `options` field sees the filtered dicts, and it succeeds exactly when it
      would have on the caller's. For a container, `options` is gone from the
      schema, so the transform is not part of the request at all; the dicts
      merely stay unfiltered in the parameters, and the lemma then only says
      that they are unchanged. */
  lemma PreparedOptions(params: map<string, Param>, spec: map<string, FieldSpec>,
                        v4: string -> bool, v6: string -> bool)
    requires WellFormedParams(params, spec)
    requires Prepare(params, spec, v4, v6).Success?
    ensures Options(Prepare(params, spec, v4, v6).value.params).Success? <==> Options(params).Success?
    ensures !ParamTruthy(params["container"]) ==> "options" in Prepare(params, spec, v4, v6).value.spec
  {
  }

  /** `{network: 10.0.0.0/8, container: true, options: []}` becomes an IPv4
      network container request without `container` or `options` fields. */
  lemma Ipv4ContainerScenario(params: map<string, Param>, spec: map<string, FieldSpec>,
                              v4: string -> bool, v6: string -> bool)
    requires WellFormedParams(params, spec)
    requires params["network"] == Scalar(Str("10.0.0.0/8"))
    requires params["container"] == Scalar(Bool(true))
    requires params["options"] == DictList([])
    requires v4("10.0.0.0")
    ensures Prepare(params, spec, v4, v6).Success?
    ensures Prepare(params, spec, v4, v6).value.netType == Ipv4Container
    ensures "container" !in Prepare(params, spec, v4, v6).value.spec
    ensures "options" !in Prepare(params, spec, v4, v6).value.spec
  {
    assert NetworkAddress(params) == "10.0.0.0" by {
      AddressPartBeforeSlash("10.0.0.0/8", "10.0.0.0");
    }
    assert ParamTruthy(params["container"]);
    var r := Prepare(params, spec, v4, v6);
    assert r.Success? && r.value.netType == Ipv4Container by {
      assert v4(NetworkAddress(params));
    }
    assert r.value.spec.Keys == SelectedKeys(spec, true);
  }
}
