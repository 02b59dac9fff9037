/** `check_proxmoxguest` of lib/check/proxmoxguest.py: validates the
    configuration, builds the request for a qemu guest's current status (the
    same construction as `api_request`, written out inline with a different
    order of checks and no default realm), and maps the response to the
    `guest` and `nics` sections. */
module ProxmoxGuest {
  import opened Results
  import opened Values
  import opened Helpers
  import opened Sections

  /** The request the check sends, or what it raises before sending it. */
  function GuestRequest(assetName: string, assetConfig: Dict, config: Dict): (r: Result<Request>)
    // The request is built exactly when node, vmid and all four credentials are set.
    ensures r.Ok? <==> Get(config, "node") != Null && Get(config, "vmid") != Null
                       && !MissingCredentialField(assetConfig) && Lookup(assetConfig, "realm").Some?
    // `node` is checked first, then `vmid`, and only then the credentials;
    // a missing realm counts as a missing credential.
    ensures Get(config, "node") == Null ==> r == Err(CheckException(MissingNode))
    ensures Get(config, "node") != Null && Get(config, "vmid") == Null ==> r == Err(CheckException(MissingVmid))
    ensures Get(config, "node") != Null && Get(config, "vmid") != Null ==>
              (r == Err(CheckException(MissingCredentials))
               <==> MissingCredentialField(assetConfig) || Lookup(assetConfig, "realm").None?)
    // The guest is always a qemu guest and the resource its current status.
    ensures r.Ok? ==>
              var suffix := "/qemu/" + Show(Get(config, "vmid")) + "/status/current";
              |suffix| <= |r.value.url| && r.value.url[|r.value.url| - |suffix|..] == suffix
  {
    var node := Get(config, "node");
    if node == Null then Err(CheckException(MissingNode))
    else
      var vmid := Get(config, "vmid");
      if vmid == Null then Err(CheckException(MissingVmid))
      else
        var creds := ReadCredentials(assetConfig, Null);
        if !Complete(creds) then Err(CheckException(MissingCredentials))
        else
          var guest := "/qemu/" + Show(vmid) + "/status/current";
          Ok(Request(ApiRoot(Address(config, assetName), Port(config)) + "nodes/" + Show(node) + guest,
                     Authorization(creds), Ssl(config)))
  }

  /** The fields of a guest item after `name`, in order, each with the
      payload field it holds. */
  const GuestFields: seq<(string, string)> := [
    ("vmid", "vmid"), ("balloon", "balloon"), ("cpu", "cpu"), ("cpus", "cpus"),
    ("disk", "disk"), ("diskread", "diskread"), ("diskwrite", "diskwrite"),
    ("freemem", "freemem"), ("maxdisk", "maxdisk"), ("maxmem", "maxmem"), ("mem", "mem"),
    ("netin", "netin"), ("netout", "netout"), ("pid", "pid"), ("qmpstatus", "qmpstatus"),
    ("running_machine", "running-machine"), ("running_qemu", "running-qemu"),
    ("status", "status"), ("uptime", "uptime"), ("vm_name", "name")]

  /** The single item of the `guest` section. `vm['vmid']` and `vm['status']`
      hold the same values as `vm.get(...)` once they are known to be present,
      so those two fields are copies too. */
  function GuestItem(vm: Dict): (r: Result<Record>)
    // `vmid` and `status` are mandatory, `vmid` being read first.
    ensures r.Ok? <==> Lookup(vm, "vmid").Some? && Lookup(vm, "status").Some?
    ensures Lookup(vm, "vmid").None? ==> r == Err(KeyError("vmid"))
    ensures Lookup(vm, "vmid").Some? && Lookup(vm, "status").None? ==> r == Err(KeyError("status"))
    // The item is named by the vmid as a string; every other field is a copy
    // of its payload field.
    ensures r.Ok? ==> |r.value| == 1 + |GuestFields|
    ensures r.Ok? ==> r.value[0] == ("name", Str(Show(Get(vm, "vmid"))))
    ensures r.Ok? ==> forall i :: 0 <= i < |GuestFields| ==>
                        r.value[i + 1] == (GuestFields[i].0, Get(vm, GuestFields[i].1))
  {
    if Lookup(vm, "vmid").None? then Err(KeyError("vmid"))
    else if Lookup(vm, "status").None? then Err(KeyError("status"))
    else Ok([("name", Str(Show(Get(vm, "vmid"))))] + Copied(vm, GuestFields))
  }

  /** The state built from the response body. */
  function GuestState(data: Value): (r: Result<State>)
    ensures GuestObject(data).Err? ==> r == Err(GuestObject(data).error)
    ensures r.Ok? ==>
              && GuestObject(data).Ok?
              && var vm := GuestObject(data).value;
              // `nics` is there exactly when the payload's is not None ...
              && r.value.Keys == {"guest"} + (if Get(vm, "nics") != Null then {"nics"} else {})
              // ... and `guest` always holds exactly the one item,
              && GuestItem(vm).Ok? && r.value["guest"] == [GuestItem(vm).value]
              // with one record per interface.
              && (Get(vm, "nics") != Null ==>
                    Get(vm, "nics").Dict? && |r.value["nics"]| == |Get(vm, "nics").entries|)
    // After the guest object, the item is built first and raises first ...
    ensures GuestObject(data).Ok? && GuestItem(GuestObject(data).value).Err? ==>
              r == Err(GuestItem(GuestObject(data).value).error)
    // ... then `nics.items()` raises on a present `nics` that is not a dict ...
    ensures (&& GuestObject(data).Ok? && GuestItem(GuestObject(data).value).Ok?
             && Get(GuestObject(data).value, "nics") != Null && !Get(GuestObject(data).value, "nics").Dict?)
            ==> r == Err(AttributeError)
    // ... and a dict of interfaces gives the comprehension's records or its error.
    ensures (&& GuestObject(data).Ok? && GuestItem(GuestObject(data).value).Ok?
             && Get(GuestObject(data).value, "nics").Dict?) ==>
              var nics := NicRecords(Get(GuestObject(data).value, "nics").entries);
              && (r.Ok? <==> nics.Ok?)
              && (r.Ok? ==> r.value["nics"] == nics.value)
              && (r.Err? ==> r.error == nics.error)
    // Without `nics`, the state is the guest item alone.
    ensures (&& GuestObject(data).Ok? && GuestItem(GuestObject(data).value).Ok?
             && Get(GuestObject(data).value, "nics") == Null) ==> r.Ok?
  {
    var vm :- GuestObject(data);
    var nics := Get(vm, "nics");
    var item :- GuestItem(vm);
    var state := map["guest" := [item]];
    if nics == Null then Ok(state)
    else if !nics.Dict? then Err(AttributeError)
    else
      var records :- NicRecords(nics.entries);
      Ok(state["nics" := records])
  }

  /** The whole check, with the HTTP exchange replaced by its decoded JSON
      body `response`: every configuration error is raised before the
      response is looked at. */
  function CheckProxmoxGuest(assetName: string, assetConfig: Dict, config: Dict, response: Value): (r: Result<State>)
    ensures GuestRequest(assetName, assetConfig, config).Err? ==> r == Err(GuestRequest(assetName, assetConfig, config).error)
    ensures r.Ok? ==> GuestRequest(assetName, assetConfig, config).Ok? && "guest" in r.value && |r.value["guest"]| == 1
    // Once the request is valid, the result is the state the response maps to.
    ensures GuestRequest(assetName, assetConfig, config).Ok? ==> r == GuestState(response)
  {
    var _ :- GuestRequest(assetName, assetConfig, config);
    GuestState(response)
  }

  /** Whenever the inline construction succeeds, it sends exactly the request
      `api_request` builds for the qemu target and `/status/current`. */
  lemma GuestRequestIsApiRequest(assetName: string, assetConfig: Dict, config: Dict)
    requires GuestRequest(assetName, assetConfig, config).Ok?
    ensures ApiRequest(assetName, assetConfig, config, "/status/current", "qemu") == GuestRequest(assetName, assetConfig, config)
  {
    assert ReadCredentials(assetConfig, Str("pam")) == ReadCredentials(assetConfig, Null);
    ApiRequestGuest(assetName, assetConfig, config, "/status/current", "qemu");
    QemuStatusUrl(ApiRoot(Address(config, assetName), Port(config)) + "nodes/" + Show(Get(config, "node")),
                  Show(Get(config, "vmid")));
  }

  /** The two ways the qemu status URL is spelled are the same string. */
  lemma QemuStatusUrl(nodeUrl: string, vmid: string)
    ensures nodeUrl + "/" + "qemu" + "/" + vmid + "/status/current"
            == nodeUrl + ("/qemu/" + vmid + "/status/current")
  {
  }

  /** A missing realm: `api_request` builds the request (signing in as realm
      "pam", see `ApiRequestAuthorization`), the inline copy reports missing
      credentials. */
  lemma RealmDefaultDiffers(assetName: string, assetConfig: Dict, config: Dict)
    requires Lookup(assetConfig, "realm").None? && !MissingCredentialField(assetConfig)
    requires Get(config, "node") != Null && Get(config, "vmid") != Null
    ensures GuestRequest(assetName, assetConfig, config) == Err(CheckException(MissingCredentials))
    ensures ApiRequest(assetName, assetConfig, config, "/status/current", "qemu").Ok?
  {
  }

  /** Missing credentials and a missing node: `api_request` reports the
      credentials, the inline copy the node. */
  lemma ErrorOrderDiffers(assetName: string, assetConfig: Dict, config: Dict)
    requires MissingCredentialField(assetConfig) && Get(config, "node") == Null
    ensures ApiRequest(assetName, assetConfig, config, "/status/current", "qemu") == Err(CheckException(MissingCredentials))
    ensures GuestRequest(assetName, assetConfig, config) == Err(CheckException(MissingNode))
  {
  }

  /** Guests with different integer vmids get items with different names. */
  lemma GuestNamesDistinct(vm1: Dict, vm2: Dict)
    requires GuestItem(vm1).Ok? && GuestItem(vm2).Ok?
    requires Get(vm1, "vmid").Int? && Get(vm2, "vmid").Int?
    ensures GuestItem(vm1).value[0] == GuestItem(vm2).value[0] <==> Get(vm1, "vmid") == Get(vm2, "vmid")
  {
    ShowIntInjective(Get(vm1, "vmid").i, Get(vm2, "vmid").i);
  }
}
