/** `api_request` of lib/helpers.py: everything it does before the HTTP GET.
    From the check's configuration, the asset's credentials, the asset's name,
    a resource path and a target kind it either raises or produces the URL,
    the Authorization header and the TLS flag of the request. */
module Helpers {
  import opened Results
  import opened Values

  const DefaultPort: int := 8006

  const MissingCredentials: string := "missing credentials"
  const MissingNode: string := "invalid config: missing `node`"
  const MissingVmid: string := "invalid config: missing `vmid`"

  /** The kinds of guest the API addresses by node and vmid. */
  datatype GuestKind = Qemu | Lxc

  /** The closed set of target strings `api_request` dispatches on. */
  datatype Target = Cluster | Node | Guest(kind: GuestKind)

  function TargetName(t: Target): string {
    match t
    case Cluster => "cluster"
    case Node => "node"
    case Guest(Qemu) => "qemu"
    case Guest(Lxc) => "lxc"
  }

  /** The target a string names, if it names one. */
  function ParseTarget(s: string): (r: Option<Target>)
    ensures r.None? ==> forall t :: TargetName(t) != s
    ensures r.Some? ==> TargetName(r.value) == s
  {
    if s == "cluster" then Some(Cluster)
    else if s == "node" then Some(Node)
    else if s == "qemu" then Some(Guest(Qemu))
    else if s == "lxc" then Some(Guest(Lxc))
    else None
  }

  /** What the code hands to the HTTP client: URL, Authorization header, TLS flag. */
  datatype Request = Request(url: string, authorization: string, ssl: Value)

  /** The four credential fields as read from the asset configuration. */
  datatype Credentials = Credentials(username: Value, realm: Value, tokenId: Value, secret: Value)

  /** Reads the credentials; `defaultRealm` is what a missing `realm` key reads as. */
  function ReadCredentials(assetConfig: Dict, defaultRealm: Value): (c: Credentials)
    // The realm is the default only when the key is missing; a key holding None reads as None.
    ensures Lookup(assetConfig, "realm").None? ==> c.realm == defaultRealm
    ensures c.realm == Null <==> Lookup(assetConfig, "realm") == Some(Null)
                                 || (Lookup(assetConfig, "realm").None? && defaultRealm == Null)
    ensures c.username == Get(assetConfig, "username") && c.tokenId == Get(assetConfig, "token_id")
            && c.secret == Get(assetConfig, "secret")
  {
    Credentials(
      Get(assetConfig, "username"),
      GetOr(assetConfig, "realm", defaultRealm),
      Get(assetConfig, "token_id"),
      Get(assetConfig, "secret"))
  }

  /** `None not in (username, realm, token_id, token)`. */
  predicate Complete(c: Credentials) {
    c.username != Null && c.realm != Null && c.tokenId != Null && c.secret != Null
  }

  /** The Authorization header value of a PVE API token. */
  function Authorization(c: Credentials): (h: string)
    // The token scheme, then `user@realm!token_id`, then `=secret`.
    ensures "PVEAPIToken=" + Show(c.username) + "@" + Show(c.realm) + "!" + Show(c.tokenId) <= h
    ensures |Show(c.secret)| < |h| && h[|h| - |Show(c.secret)| - 1..] == "=" + Show(c.secret)
  {
    "PVEAPIToken=" + Show(c.username) + "@" + Show(c.realm) + "!" + Show(c.tokenId) + "=" + Show(c.secret)
  }

  /** The host: the configured `address`, or the asset's name when that is falsy. */
  function Address(config: Dict, assetName: string): (host: string)
    ensures Truthy(Get(config, "address")) ==> host == Show(Get(config, "address"))
    ensures !Truthy(Get(config, "address")) ==> host == assetName
  {
    var address := Get(config, "address");
    if Truthy(address) then Show(address) else assetName
  }

  /** The configured port, 8006 when the key is missing. */
  function Port(config: Dict): (port: string)
    ensures Lookup(config, "port").Some? ==> port == Show(Lookup(config, "port").value)
  {
    Show(GetOr(config, "port", Int(DefaultPort)))
  }

  /** The configured `ssl` flag, false when the key is missing. */
  function Ssl(config: Dict): (ssl: Value)
    ensures Lookup(config, "ssl").None? ==> ssl == Bool(false)
    ensures Lookup(config, "ssl").Some? ==> ssl == Lookup(config, "ssl").value
  {
    GetOr(config, "ssl", Bool(false))
  }

  /** `https://{address}:{port}/api2/json/`, common to every URL. */
  function ApiRoot(address: string, port: string): string {
    "https://" + address + ":" + port + "/api2/json/"
  }

  /** The URL without the resource path, chosen by target. */
  function BaseUri(root: string, config: Dict, target: string): (r: Result<string>)
    ensures r.Ok? ==> root <= r.value
  {
    match ParseTarget(target)
    case None => Err(PlainException("invalid target: " + target))
    case Some(Cluster) => Ok(root + "cluster")
    case Some(Node) =>
      var node := Get(config, "node");
      if node == Null then Err(CheckException(MissingNode))
      else Ok(root + "nodes/" + Show(node))
    case Some(Guest(_)) =>
      var node := Get(config, "node");
      if node == Null then Err(CheckException(MissingNode))
      else
        var vmid := Get(config, "vmid");
        if vmid == Null then Err(CheckException(MissingVmid))
        else Ok(root + "nodes/" + Show(node) + "/" + target + "/" + Show(vmid))
  }

  /** `api_request` up to the GET: the request it would send, or what it raises. */
  function ApiRequest(assetName: string, assetConfig: Dict, config: Dict, uri: string, target: string): (r: Result<Request>)
    // Incomplete credentials, and only they, give "missing credentials",
    // whatever the target and the node and vmid settings.
    ensures r == Err(CheckException(MissingCredentials))
            <==> !Complete(ReadCredentials(assetConfig, Str("pam")))
    // A request is only built for one of the four known targets.
    ensures r.Ok? ==> ParseTarget(target).Some?
    // The URL is the API root followed by a target part and then exactly `uri`.
    ensures r.Ok? ==> ApiRoot(Address(config, assetName), Port(config)) <= r.value.url
                      && |uri| <= |r.value.url| && r.value.url[|r.value.url| - |uri|..] == uri
  {
    var creds := ReadCredentials(assetConfig, Str("pam"));
    if !Complete(creds) then Err(CheckException(MissingCredentials))
    else
      var root := ApiRoot(Address(config, assetName), Port(config));
      var base :- BaseUri(root, config, target);
      Ok(Request(base + uri, Authorization(creds), Ssl(config)))
  }

  /** The credentials of a config are incomplete exactly when username,
      token_id or secret is missing or None, or realm is present but None. */
  predicate MissingCredentialField(assetConfig: Dict) {
    || Get(assetConfig, "username") == Null
    || Lookup(assetConfig, "realm") == Some(Null)
    || Get(assetConfig, "token_id") == Null
    || Get(assetConfig, "secret") == Null
  }

  /** A missing credential field gives "missing credentials" before anything
      else is looked at: whatever the target and whether or not `node` and
      `vmid` are set. A missing realm is not a missing field: it reads as "pam". */
  lemma ApiRequestCredentialCheck(assetName: string, assetConfig: Dict, config: Dict, uri: string, target: string)
    ensures ApiRequest(assetName, assetConfig, config, uri, target) == Err(CheckException(MissingCredentials))
            <==> MissingCredentialField(assetConfig)
  {
  }

  /** A missing port reads as 8006. */
  lemma DefaultPortText(config: Dict)
    requires Lookup(config, "port").None?
    ensures Port(config) == "8006"
  {
  }

  /** With no port configured, the API root is `https://{host}:8006/api2/json/`. */
  lemma DefaultPortRoot(host: string, url: string, config: Dict)
    requires ApiRoot(host, Port(config)) <= url
    requires Lookup(config, "port").None?
    ensures "https://" + host + ":8006/api2/json/" <= url
  {
    DefaultPortText(config);
  }

  /** Any falsy `address` (missing, None, empty, zero, false, an empty list
      or dict) makes the asset's name the host. */
  lemma AddressDefaultsToAssetName(config: Dict, assetName: string)
    requires !Truthy(Get(config, "address"))
    ensures Address(config, assetName) == assetName
  {
  }

  /** A truthy `address` is the host, as `str()` renders it. */
  lemma AddressUsedWhenTruthy(config: Dict, assetName: string)
    requires Truthy(Get(config, "address"))
    ensures Address(config, assetName) == Show(Get(config, "address"))
  {
  }

  /** Every URL starts with `https://{host}:{port}/api2/json/`, where the port
      is 8006 when the configuration has none. */
  lemma ApiRequestHostAndPort(assetName: string, assetConfig: Dict, config: Dict, uri: string, target: string)
    requires ApiRequest(assetName, assetConfig, config, uri, target).Ok?
    ensures "https://" + Address(config, assetName) + ":" <= ApiRequest(assetName, assetConfig, config, uri, target).value.url
    ensures Lookup(config, "port").None? ==>
              "https://" + Address(config, assetName) + ":8006/api2/json/"
              <= ApiRequest(assetName, assetConfig, config, uri, target).value.url
  {
    var url := ApiRequest(assetName, assetConfig, config, uri, target).value.url;
    var host := Address(config, assetName);
    var root := ApiRoot(host, Port(config));
    assert root <= url;
    assert "https://" + host + ":" <= root;
    if Lookup(config, "port").None? {
      DefaultPortRoot(host, url, config);
    }
  }

  /** The TLS flag is the configured `ssl` value, false when the key is missing. */
  lemma ApiRequestSsl(assetName: string, assetConfig: Dict, config: Dict, uri: string, target: string)
    ensures var r := ApiRequest(assetName, assetConfig, config, uri, target);
            r.Ok? ==> r.value.ssl == if Lookup(config, "ssl").None? then Bool(false) else Lookup(config, "ssl").value
  {
  }

  /** The header is `PVEAPIToken={username}@{realm}!{token_id}={secret}`, with
      realm "pam" when the asset configuration has no realm. */
  lemma ApiRequestAuthorization(assetName: string, assetConfig: Dict, config: Dict, uri: string, target: string)
    ensures var r := ApiRequest(assetName, assetConfig, config, uri, target);
            r.Ok? ==>
              r.value.authorization
              == "PVEAPIToken=" + Show(Get(assetConfig, "username"))
                 + "@" + (if Lookup(assetConfig, "realm").None? then "pam" else Show(Get(assetConfig, "realm")))
                 + "!" + Show(Get(assetConfig, "token_id"))
                 + "=" + Show(Get(assetConfig, "secret"))
  {
  }

  /** With complete credentials, `api_request` raises what choosing the base
      URI raises and otherwise sends that URI followed by `uri`. */
  lemma ApiRequestFromBase(assetName: string, assetConfig: Dict, config: Dict, uri: string, target: string)
    requires !MissingCredentialField(assetConfig)
    ensures var base := BaseUri(ApiRoot(Address(config, assetName), Port(config)), config, target);
            ApiRequest(assetName, assetConfig, config, uri, target)
            == if base.Err? then Err(base.error)
               else Ok(Request(base.value + uri, Authorization(ReadCredentials(assetConfig, Str("pam"))), Ssl(config)))
  {
  }

  /** The cluster target needs neither node nor vmid. */
  lemma ApiRequestCluster(assetName: string, assetConfig: Dict, config: Dict, uri: string)
    requires !MissingCredentialField(assetConfig)
    ensures ApiRequest(assetName, assetConfig, config, uri, "cluster")
            == Ok(Request(ApiRoot(Address(config, assetName), Port(config)) + "cluster" + uri,
                          Authorization(ReadCredentials(assetConfig, Str("pam"))), Ssl(config)))
  {
  }

  /** The node target fails on a missing node and otherwise addresses it. */
  lemma ApiRequestNode(assetName: string, assetConfig: Dict, config: Dict, uri: string)
    requires !MissingCredentialField(assetConfig)
    ensures var r := ApiRequest(assetName, assetConfig, config, uri, "node");
            && (Get(config, "node") == Null ==> r == Err(CheckException(MissingNode)))
            && (Get(config, "node") != Null ==>
                  r == Ok(Request(ApiRoot(Address(config, assetName), Port(config))
                                  + "nodes/" + Show(Get(config, "node")) + uri,
                                  Authorization(ReadCredentials(assetConfig, Str("pam"))), Ssl(config))))
  {
    var root := ApiRoot(Address(config, assetName), Port(config));
    if Get(config, "node") != Null {
      assert BaseUri(root, config, "node") == Ok(root + "nodes/" + Show(Get(config, "node")));
    }
  }

  /** The qemu and lxc targets check node first and vmid second, and embed
      the target string itself in the URL. */
  lemma ApiRequestGuest(assetName: string, assetConfig: Dict, config: Dict, uri: string, target: string)
    requires !MissingCredentialField(assetConfig)
    requires target == "qemu" || target == "lxc"
    ensures var r := ApiRequest(assetName, assetConfig, config, uri, target);
            && (Get(config, "node") == Null ==> r == Err(CheckException(MissingNode)))
            && (Get(config, "node") != Null && Get(config, "vmid") == Null ==> r == Err(CheckException(MissingVmid)))
            && (Get(config, "node") != Null && Get(config, "vmid") != Null ==>
                  r == Ok(Request(ApiRoot(Address(config, assetName), Port(config))
                                  + "nodes/" + Show(Get(config, "node")) + "/" + target + "/" + Show(Get(config, "vmid")) + uri,
                                  Authorization(ReadCredentials(assetConfig, Str("pam"))), Ssl(config))))
  {
    ApiRequestFromBase(assetName, assetConfig, config, uri, target);
    assert ParseTarget(target).Some? && ParseTarget(target).value.Guest?;
  }

  /** Any other target string raises a plain exception naming it. */
  lemma ApiRequestUnknownTarget(assetName: string, assetConfig: Dict, config: Dict, uri: string, target: string)
    requires !MissingCredentialField(assetConfig)
    requires target !in {"cluster", "node", "qemu", "lxc"}
    ensures ApiRequest(assetName, assetConfig, config, uri, target) == Err(PlainException("invalid target: " + target))
  {
  }
}
