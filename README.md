# proxmoxvm-probe checks, modelled in Dafny

The probe queries the Proxmox VE API for one virtual machine and turns the
answer into a *state*: a dictionary from section names (`vm`, `guest`,
`ballooninfo`, `blockstat`, `ha`, `proxmox_support`, `nics`) to lists of
items, each item a dictionary of metric fields.

The model covers three pieces of the probe:

- `api_request` (lib/helpers.py). It reads the address, port and TLS flag
  from the check configuration and the API-token credentials from the asset
  configuration. It builds the URL for one of four targets (`cluster`,
  `node`, `qemu`, `lxc`) and raises on missing credentials, a missing
  `node` or `vmid`, or an unknown target. Module `Helpers` models
  everything it does before the HTTP GET.
- `check_proxmoxguest` (lib/check/proxmoxguest.py). It repeats that
  request construction inline, with its own order of checks and no default
  realm. It then maps the response to the `guest` and `nics` sections.
  Module `ProxmoxGuest` models it.
- `check_vm` (lib/check/vm.py). It sends its request through `api_request`
  and maps the response to the `vm` section plus up to five optional
  sections. Each optional section is inserted only when its payload is not
  None. Module `Vm` models it:
  - each record builder is a function;
  - the step-by-step construction of the state is a method (`BuildState`,
    which inserts the optional sections through `AddSections`, one method
    per guarded insertion);
  - that method is proved equal to the function `VmState`;
  - the properties of the state are proved as lemmas about `VmState`.

Shared modules:

- `Values` models the JSON and configuration values the checks handle:
  - a `Value` datatype whose `Dict` keeps insertion order;
  - `d.get(k)`, `d.get(k, default)` and `d[k]`;
  - truthiness, `str()`, and multiplication by `100.0`.
- `Results` holds `Option`, `Result` and the exceptions the checks can
  raise: `CheckException`, a bare `Exception`, `KeyError`, `TypeError` and
  `AttributeError`.
- `Decimal` renders integers as decimal numerals and proves that rendering
  injective.
- `Sections` holds the two pieces both checks write out identically: taking
  `data['data']` and building the `nics` comprehension.
- `Utils` holds `to_percent_used` from lib/utils.py.

How the model treats the code:

- `blockstat` items carry `timed_stats`, which holds the device's
  `rd_total_time_ns`, because that is what the code does.
- `check_proxmoxguest` differs from `api_request` in two ways, each proved
  as a lemma:
  - it reads `realm` without the `"pam"` default (`RealmDefaultDiffers`);
  - it checks `node` before the credentials (`ErrorOrderDiffers`).
- Whenever its inline request succeeds, it is exactly the request
  `api_request` builds for target `qemu` (`GuestRequestIsApiRequest`).

## Model

| member | source | states |
|---|---|---|
| Helpers.ParseTarget | lib/helpers.py:33-51 | a string names a target exactly when it is one of `cluster`, `node`, `qemu`, `lxc`, and then names that target |
| Helpers.BaseUri | lib/helpers.py:33-51 | every base URI extends the `https://{address}:{port}/api2/json/` root |
| Helpers.ApiRequest | lib/helpers.py:16-53 | "missing credentials" is raised exactly when a credential (realm defaulting to "pam") is None; a request is built only for a known target; its URL starts with the API root and ends with the resource path |
| Helpers.ApiRequestCredentialCheck | lib/helpers.py:22-27 | the credential error occurs exactly when username, token_id or secret is missing or None, or realm is present and None, whatever the target |
| Helpers.DefaultPortText | lib/helpers.py:19 | a configuration without `port` uses 8006 |
| Helpers.DefaultPortRoot | lib/helpers.py:34 | without `port`, a URL on the API root starts with `https://{host}:8006/api2/json/` |
| Helpers.AddressDefaultsToAssetName | lib/helpers.py:16-18 | any falsy address (missing, None, false, zero, empty string, list or dict) makes the asset's name the host |
| Helpers.AddressUsedWhenTruthy | lib/helpers.py:16-18 | a truthy address is the host, as `str()` renders it |
| Helpers.Address | lib/helpers.py:16-18 | the host is `str(address)` when the address is truthy and the asset's name otherwise |
| Helpers.Port | lib/helpers.py:19 | a configured port is used as `str()` renders it |
| Helpers.Ssl | lib/helpers.py:20 | the TLS flag is the configured `ssl` value, `False` when the key is missing |
| Helpers.ReadCredentials | lib/helpers.py:22-25 | username, token_id and secret are `get` of their keys; realm is the default only when the key is missing, and None exactly when the key holds None or is missing with a None default |
| Helpers.Authorization | lib/helpers.py:29-31 | the header starts with `PVEAPIToken={username}@{realm}!{token_id}` and ends with `={secret}` |
| Helpers.ApiRequestHostAndPort | lib/helpers.py:16-48 | every request URL starts with `https://{host}:`, and with `:8006/api2/json/` after the host when no port is configured |
| Helpers.ApiRequestFromBase | lib/helpers.py:26-53 | with complete credentials the result is the base URI's error, or a request to the base URI followed by the path, with the token header and the TLS flag |
| Helpers.ApiRequestSsl | lib/helpers.py:20 | the TLS flag is the configured `ssl`, false when absent |
| Helpers.ApiRequestAuthorization | lib/helpers.py:22-31 | the header is `PVEAPIToken=user@realm!token_id=secret`, realm "pam" when absent |
| Helpers.ApiRequestCluster | lib/helpers.py:33-34 | the cluster target needs no node or vmid and addresses `/cluster` followed by the path |
| Helpers.ApiRequestNode | lib/helpers.py:35-39 | the node target raises on a missing node, otherwise addresses `/nodes/{node}` followed by the path |
| Helpers.ApiRequestGuest | lib/helpers.py:40-48 | qemu and lxc check node first and then vmid, and address `/nodes/{node}/{target}/{vmid}` followed by the path |
| Helpers.ApiRequestUnknownTarget | lib/helpers.py:50-51 | any other target raises a plain exception `invalid target: {target}` |
| ProxmoxGuest.GuestRequest | lib/check/proxmoxguest.py:13-36 | the request is built exactly when node, vmid and all four credentials are set; node is checked first, then vmid, then credentials, with a missing realm counting as missing; the URL ends in `/qemu/{vmid}/status/current` |
| ProxmoxGuest.GuestItem | lib/check/proxmoxguest.py:44-70 | succeeds exactly when vmid and status are present (KeyError on vmid first, then status); the name is `str(vmid)`; all 20 other fields copy their payload fields |
| ProxmoxGuest.GuestState | lib/check/proxmoxguest.py:42-81 | errors from `data['data']` propagate, then the guest item's KeyError; a present `nics` that is not a dict raises AttributeError; a dict of interfaces gives exactly the comprehension's records or its error; the keys are `guest`, plus `nics` exactly when that payload is not None; `guest` holds the one item |
| ProxmoxGuest.CheckProxmoxGuest | lib/check/proxmoxguest.py:13-81 | every configuration error is raised before the response is read; once the request is valid the result is the state the response maps to, which has exactly one guest item |
| ProxmoxGuest.GuestRequestIsApiRequest | lib/check/proxmoxguest.py:25-36 | whenever the inline construction succeeds, it builds the request `api_request` builds for `qemu` and `/status/current` |
| ProxmoxGuest.RealmDefaultDiffers | lib/check/proxmoxguest.py:26-30 | with no realm key, the check raises "missing credentials" while `api_request` succeeds |
| ProxmoxGuest.ErrorOrderDiffers | lib/check/proxmoxguest.py:18-30 | with missing credentials and no node, the check reports the node and `api_request` reports the credentials |
| ProxmoxGuest.GuestNamesDistinct | lib/check/proxmoxguest.py:45 | two guests with integer vmids get the same item name exactly when the vmids are equal |
| Sections.GuestObject | lib/check/vm.py:13-14 | `data['data']` succeeds exactly on a dict holding a dict under `data`; TypeError on a non-dict, KeyError when `data` is absent, AttributeError (the first `.get`) when it is not a dict |
| Sections.NicRecords | lib/check/vm.py:123-128 | succeeds exactly when every interface has both counters; then gives one record per interface, in order, with its name and counters; otherwise raises what the first failing interface raises |
| Sections.NicRecordsCons | lib/check/vm.py:123-128 | the first interface's record followed by the records of the others are the records of all interfaces |
| Sections.NicRecord | lib/check/vm.py:124-128 | one interface's record has the fields `name`, `netin`, `netout`, in that order, holding its name and counters |
| Utils.PercentUsed | lib/utils.py:4-8 | None exactly when either argument is None or total is a number that is not positive; TypeError exactly when both are present and total is not a number, or total is positive and free is not a number; otherwise `(1 - free/total) * 100` |
| Utils.PercentUsedBounds | lib/utils.py:4-8 | with `0 <= free <= total` and `total > 0`, the result lies between 0 and 100 |
| Values.Subscript | lib/check/vm.py:21 | `v[k]` gives the value when the dict has the key, KeyError when it lacks it, TypeError on a non-dict |
| Values.Copied | lib/check/vm.py:25-40 | a record of copied fields has one field per table entry, holding `d.get(src)` under its output name |
| Values.TimesHundred | lib/check/vm.py:24 | multiplying by 100.0 gives a float for a number and TypeError otherwise |
| Values.ShowIntInjective | lib/check/proxmoxguest.py:45 | `str()` of integers is injective |
| Values.Show | lib/check/proxmoxguest.py:45 | `str()` renders None as `None`, booleans as `True`/`False`, a string as itself, and an integer as a numeral that starts with `-` exactly when it is negative |
| Values.GetOr | lib/check/vm.py:24 | `d.get(k, default)` is the default for a missing key and the stored value otherwise |
| Values.FalsyValues | lib/check/vm.py:22 | exactly None, false, 0, 0.0, the empty string, the empty list and the empty dict are falsy |
| Values.Lookup | lib/check/vm.py:21 | a lookup finds nothing exactly when no entry has the key, and otherwise finds an entry under the key |
| Values.LookupUniqueKeys | lib/check/vm.py:21 | in a dict with distinct keys, every entry is the one its key finds |
| Decimal.DecimalValueOfDecimal | lib/check/proxmoxguest.py:45 | the decimal numeral of `n` reads back as `n` |
| Decimal.IntToDecimalInjective | lib/check/proxmoxguest.py:45 | equal decimal numerals come from equal integers |
| Decimal.IntToDecimal | lib/check/proxmoxguest.py:45 | an integer's decimal form is non-empty and starts with `-` exactly when the integer is negative |
| Decimal.NatToDecimalInjective | lib/check/proxmoxguest.py:45 | distinct naturals have distinct digit strings |
| Vm.VmItem | lib/check/vm.py:19-41 | raises KeyError on vmid, then TypeError on a non-numeric cpu, then KeyError on status; agent is a bool (false when absent); cpu is 100 times the payload's (0.0 when absent); every other field is a copy |
| Vm.BalloonRecord | lib/check/vm.py:45-61 | AttributeError on a non-dict; TypeError when either percentage meets a non-number, `percent_used` being computed first; otherwise the nine driver fields copied, and `percent_used` and `percent_used_actual` are the used shares of total_mem and of actual |
| Vm.BalloonItem | lib/check/vm.py:46-61 | the balloon item has `name`, the nine driver fields in order, then the two percentages |
| Vm.BlockstatRecords | lib/check/vm.py:62-103 | succeeds exactly when every device entry is a dict (AttributeError otherwise); gives one record per device, in order, named by its key, with `timed_stats` copying `rd_total_time_ns` |
| Vm.HaRecord | lib/check/vm.py:104-108 | AttributeError on a non-dict; `managed` is the truthiness of the payload's, false when absent |
| Vm.SupportRecord | lib/check/vm.py:109-122 | AttributeError on a non-dict; the eight hyphenated fields copied under underscore names |
| Vm.BalloonSection | lib/check/vm.py:46-61 | the section is the one balloon record, or its error |
| Vm.BlockstatSection | lib/check/vm.py:62-103 | `.items()` on a non-dict raises AttributeError; otherwise one record per device |
| Vm.HaSection | lib/check/vm.py:104-108 | the section is the one ha record, or AttributeError |
| Vm.SupportSection | lib/check/vm.py:109-122 | the section is the one support record, or AttributeError |
| Vm.NicsSection | lib/check/vm.py:123-128 | `.items()` on a non-dict raises AttributeError; on a dict the section is exactly the comprehension's records, or its error |
| Vm.OptionalSections | lib/check/vm.py:14-18 | five optional sections, no two with the same name and none named `vm` |
| Vm.Insert | lib/check/vm.py:45-46 | an absent payload leaves the state as it is; a present one adds the section or raises its error |
| Vm.IncludeAll | lib/check/vm.py:45-128 | an error already raised stays the result |
| Vm.IncludeAllOk | lib/check/vm.py:45-128 | the insertions succeed exactly when every section with a payload builds |
| Vm.IncludeAllError | lib/check/vm.py:45-128 | a failure raises the error of the first section, in order, that has a payload and does not build |
| Vm.IncludeAllKeys | lib/check/vm.py:45-128 | the state gains exactly the names of the sections whose payload is not None |
| Vm.IncludeAllValue | lib/check/vm.py:45-128 | a present section that no later section overwrites holds what it built |
| Vm.IncludeAllKeeps | lib/check/vm.py:45-128 | a name no section uses keeps its earlier value |
| Vm.IncludeAllStep | lib/check/vm.py:45-128 | inserting the sections is inserting the first and then the rest |
| Vm.VmState | lib/check/vm.py:13-130 | a payload without vmid raises KeyError('vmid') before anything else; any error of the vm item (KeyError on vmid or status, TypeError on cpu) is raised before any optional section is looked at |
| Vm.VmStateOk | lib/check/vm.py:13-130 | a state is produced exactly when the vm item and every present optional section build |
| Vm.VmStateKeys | lib/check/vm.py:42-128 | the state holds `vm` and the optional sections whose payload is not None, and nothing else |
| Vm.VmStateError | lib/check/vm.py:45-128 | after the vm item, the error is that of the first present optional section that fails |
| Vm.VmStateItem | lib/check/vm.py:42-44 | `vm` holds exactly the one vm item |
| Vm.VmStateSection | lib/check/vm.py:45-128 | each present optional section holds what its payload maps to |
| Vm.AddBalloon | lib/check/vm.py:45-61 | the guarded `ballooninfo` insertion performs the specified insertion |
| Vm.AddBlockstat | lib/check/vm.py:62-103 | the guarded `blockstat` insertion performs the specified insertion |
| Vm.AddHa | lib/check/vm.py:104-108 | the guarded `ha` insertion performs the specified insertion |
| Vm.AddSupport | lib/check/vm.py:109-122 | the guarded `proxmox_support` insertion performs the specified insertion |
| Vm.AddNics | lib/check/vm.py:123-128 | the guarded `nics` insertion performs the specified insertion |
| Vm.AddSections | lib/check/vm.py:45-128 | the five guarded insertions in turn give the specified insertions of the optional sections |
| Vm.BuildState | lib/check/vm.py:13-130 | the state built step by step is `VmState` of the payload |
| Vm.CheckVm | lib/check/vm.py:11-130 | `api_request` errors come first, then errors from `data['data']`; otherwise the result is `VmState` of the guest object |

## Left out

- Response caching and retries: the code has neither.
- The HTTP exchange: the aiohttp session, the connector from `get_connector`, `raise_for_status` and JSON decoding. The decoded body is a parameter (`response`), and the model stops at the `Request` the code would send. lib/connector.py is not part of this model.
- Floating-point rounding: floats are exact reals, so `cpu * 100.0` and the percentages are exact.
- Values.Show: `str()` of a float, list or dict is rendered as a fixed marker rather than Python's text. Only None, booleans, integers and strings are rendered as Python does.
- Dict keys are assumed unique: a `Dict` is a list of entries, and a lookup takes the first one.
- main.py, which registers the checks with the probe framework, is not part of this model.
- The libprobe types: an `Asset` is reduced to its name, and `CheckException` to its message.
- The default `target='cluster'` argument of `api_request`: the model always passes the target explicitly.
- ProxmoxGuest.CheckProxmoxGuest: does not state the request it sends, because the response is a parameter rather than the answer to that request; the request itself is stated by `GuestRequest`.
