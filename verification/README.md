# nios_network request shaping, in Dafny

This project models the request-shaping logic of the Ansible module
`nios_network` (Infoblox NIOS). Before the module hands a request to the WAPI
client, it does four things:

- **Option normalizer** (`options`). Every DHCP option dict loses its
  `None`-valued fields. An entry left with neither `name` nor `num` fails the
  module.
- **Network-type selector** (`check_ip_addr_type`). It picks one of four
  object types: IPv4 or IPv6, network or network container. The address part
  of the CIDR and the `container` flag decide. It always deletes `container`
  from the request schema, and deletes `options` too when a container is
  selected.
- **Vendor-option filter** (`check_vendor_specific_dhcp_option`). It drops
  `use_option` from option dicts whose `num`, or else `name`, is not in the
  registry of eight standard DHCP options.
- **Dispatch** (`main`). It extracts the identity filter (fields marked
  `ib_req`), runs the selector and the filter, and passes on the object type,
  the schema and the parameters.

Layout:

- `values.dfy`: the Python values involved: scalars, option dicts and
  parameter values, plus Python truthiness.
- `results.dfy`: `Option`, `Result` and the module's failure kinds.
- `schema.dfy`: the `ib_spec` schema of `main` and the `obj_filter` extraction.
- `option_normalizer.dfy`, `network_type.dfy`, `vendor_filter.dfy`,
  `dispatch.dfy`: the four components above.

The in-place mutations of the source become pure functions. Deleting a key is
map subtraction. The filter's in-place edits of `module.params` become a new
parameter map.

Quirks of the code that the model keeps:

- The filter tests whether the `num` key is *present*. A `num` key holding
  `None` takes the number branch, keeps `use_option` and never consults
  `name`. If the framework fills unset sub-options with `None`, the name
  branch only runs for dicts that lack the key altogether. An option whose
  `num` is `None` is never vendor-specific.
- Code 1 appears twice in the registry.
- Python compares with `==`, so a `num` of `True` equals code 1.
- The selector tests IPv4 first, so an address both validators accept is
  IPv4. For an address neither validator accepts, it returns `None` after
  the deletions. `main` then fails when it unpacks that
  `None`; `Prepare` reports this as `NoNetworkType`.
- The container test is Python truthiness. A `None` or missing flag selects a
  plain network.

## Model

| member | source | states |
|---|---|---|
| OptionNormalizer.DropNulls | plugins/modules/nios_network.py:219 | the result is the largest sub-dict of the input with no `None` value: same values, only null-valued keys gone |
| OptionNormalizer.NormalizeOptions | plugins/modules/nios_network.py:217-223 | succeeds exactly when every entry keeps `name` or `num` after null removal; then the output has the input's length and order, and entry i is entry i with its null fields removed; failure carries the `fail_json` message |
| OptionNormalizer.Options | plugins/modules/nios_network.py:201-223 | a list of dicts is normalized as above, failing with the `fail_json` message; any other value succeeds, with `[]`, exactly when it is an empty iterable; a non-empty string, string list or dict fails as not a mapping; `None`, a bool or an int fails as not iterable |
| OptionNormalizer.NormalizeHaltsAtFirstFailure | plugins/modules/nios_network.py:218-221 | once an unidentified entry follows entries that normalize, the call fails whatever comes after it |
| OptionNormalizer.NormalizeIdempotent | plugins/modules/nios_network.py:219-220 | normalizing a normalized list gives it back unchanged |
| OptionNormalizer.NormalizePopulatedIsIdentity | plugins/modules/nios_network.py:217-223 | a list of identified entries with no null field is returned unchanged, same length and values |
| OptionNormalizer.DropNullsOfPopulated | plugins/modules/nios_network.py:219 | a dict with no null field is its own null-free form |
| OptionNormalizer.DropNullsIdempotent | plugins/modules/nios_network.py:219 | removing null fields twice is removing them once |
| OptionNormalizer.OnlyValueFails | plugins/modules/nios_network.py:219-221 | an entry whose only non-null field is `value` fails the whole list |
| OptionNormalizer.NullIdentifierIsRemoved | plugins/modules/nios_network.py:219-221 | a `name` or `num` holding `None` does not count as present |
| Schema.ObjFilter | plugins/modules/nios_network.py:331 | the filter holds exactly the fields marked `ib_req`, each with its parameter value |
| Schema.ObjFilterOfIbSpec | plugins/modules/nios_network.py:292-331 | on the module's schema the filter keys are exactly `network`, `network_view` and `container` |
| NetworkTypeSelector.AddressPart | plugins/modules/nios_network.py:241 | the result is the prefix of the CIDR before its first `/`, or all of it when there is none |
| NetworkTypeSelector.AddressPartBeforeSlash | plugins/modules/nios_network.py:233 | a string that starts with a slash-free address and then `/` has that address as its address part |
| NetworkTypeSelector.AddressPartOfCidr | plugins/modules/nios_network.py:231-233 | the address part of `address/prefix` is `address` |
| NetworkTypeSelector.CheckIpAddrType | plugins/modules/nios_network.py:226-246 | `container` is always removed; `options` is removed iff the flag is truthy; other fields are untouched; a type is returned iff a validator accepts the address; it is a container iff the flag is truthy, and IPv6 iff the IPv4 validator rejects the address |
| NetworkTypeSelector.SelectionShrinksSpec | plugins/modules/nios_network.py:232-242 | the schema loses one field for a network and two for a container |
| NetworkTypeSelector.Ipv4NetworkScenario | plugins/modules/nios_network.py:240-244 | `192.168.10.0/24` without the flag is an IPv4 network; `options` stays and `container` goes |
| NetworkTypeSelector.Ipv6ContainerScenario | plugins/modules/nios_network.py:232-239 | `fe80::/64` with the flag is an IPv6 container; both `container` and `options` go |
| VendorOptionFilter.RegistryShape | plugins/modules/nios_network.py:257-259 | the registry has eight names and seven codes; two names share code 1 |
| VendorOptionFilter.FilterOptionDict | plugins/modules/nios_network.py:265-274 | only `use_option` can change; it survives iff it was there and the dict is not vendor-specific, which `num` decides when present and `name` otherwise |
| VendorOptionFilter.FilterParam | plugins/modules/nios_network.py:262-274 | a list of dicts keeps its length and order and each dict is filtered; other values are unchanged |
| VendorOptionFilter.FilterParams | plugins/modules/nios_network.py:261-275 | only parameters of fields still in the schema are rewritten, and only when they are lists of dicts; every other parameter, string lists included, is unchanged |
| VendorOptionFilter.FilterOptionDictIdempotent | plugins/modules/nios_network.py:265-274 | filtering twice is filtering once |
| VendorOptionFilter.StandardCodeKeepsUseOption | plugins/modules/nios_network.py:265-270 | a registry code keeps the dict unchanged |
| VendorOptionFilter.VendorCodeLosesUseOption | plugins/modules/nios_network.py:265-270 | a code outside the registry loses exactly `use_option` |
| VendorOptionFilter.NullNumKeepsUseOption | plugins/modules/nios_network.py:265-267 | a `num` key holding `None` leaves the dict unchanged, whatever its name |
| VendorOptionFilter.VendorNameLosesUseOption | plugins/modules/nios_network.py:271-274 | without a `num` key, a name outside the registry loses exactly `use_option` |
| Dispatch.IbSpecShape | plugins/modules/nios_network.py:292-314 | the schema marks `network` and `container` as identifying and declares `options` |
| Dispatch.Prepare | plugins/modules/nios_network.py:331-337 | succeeds iff a validator accepts the address; the type is a container iff the flag is truthy; the schema keeps exactly the fields selection leaves; every list-of-dicts parameter of a field still in the schema (`options` for a network, `members` always) is filtered and every other parameter is passed on unchanged, so a container's option dicts stay unfiltered in the parameters while `options` is absent from its schema |
| Dispatch.FilterPreservesNormalization | plugins/modules/nios_network.py:261-274 | the filtered option list normalizes iff the original does, and each result differs only by the dropped `use_option` |
| Dispatch.PreparedOptions | plugins/modules/nios_network.py:332-337 | the `options` transform succeeds on the prepared parameters iff it does on the caller's; for a network, whose schema keeps `options`, these are the filtered dicts `run` transforms |
| Dispatch.Ipv4ContainerScenario | plugins/modules/nios_network.py:331-337 | `10.0.0.0/8` with the flag and no options becomes an IPv4 container request without `container` or `options` |

## Left out

- The argument spec, `AnsibleModule` construction, `normalize_ib_spec` and
  `WapiModule.provider_spec` (lines 281-326) are framework plumbing. The model
  takes their result as given: a parameter map that covers the schema, with
  `network` a string (`WellFormedParams`).
- `WapiModule.run` and `exit_json` (lines 340-342) do the remote REST calls and
  the process exit. `Prepare` stops at the request they would receive. The
  `options` transform is attached to the `options` schema field and runs
  inside `run`. For a network, `PreparedOptions` states what it sees. For a
  container, `options` has been deleted from the schema, so the transform is
  not part of the request; the option dicts merely stay unfiltered in the
  parameters.
- `fail_json` exits the process. It is modelled as the `Fail` error of the
  normalizer.
- `validate_ip_address` and `validate_ip_v6_address` live in
  `module_utils/network`, which is not part of this model. They are taken as
  parameters `v4` and `v6`.
- The wire names of the four object types (`NIOS_IPV4_NETWORK` and so on) are
  defined in `module_utils/api`, which is not part of this model. They are the
  four constructors of `NetworkType`.
- Python `KeyError`s that the framework rules out are preconditions, not error
  results: a schema field missing from `module.params`, or `container` or
  `options` missing from the schema.
- `FieldSpec` keeps only `ib_req`. The other descriptor attributes are read
  only by the framework.
- Option dicts and dict list elements hold scalar values only. Nested
  containers inside them are not modelled.
- VendorOptionFilter.FilterParam: leaves lists of strings (such as
  `email_list`) unchanged. Python would apply `in` to each string as a
  substring test and fail when a string contains `num` or `name`.
- The documentation strings `DOCUMENTATION`, `EXAMPLES` and `RETURN` are data
  with no behaviour.
