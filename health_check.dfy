/** The endpoint health checker of scripts/health_check.py: where the
    configuration is looked for and how it is loaded, the SSH, HTTP, cloud,
    Raspberry Pi and API-registry checks, and the report with its counts,
    its hash and the process exit code.

    The socket probe, the HTTP fetch, the YAML loader, the file hasher and
    the clock are parameters; `latency_ms` and the per-check `timestamp`
    are not modelled. */
module HealthCheck {
  import opened Text
  import opened PyValue
  import opened ApiBase
  import opened ApiRegistry

  /** `EndpointCheck` without its clock fields; `kind` is the field `type`. */
  datatype EndpointCheck = EndpointCheck(
    name: string,
    kind: string,
    endpoint: string,
    healthy: bool,
    statusCode: Option<int>,
    error: Option<string>)

  /** `HealthReport` */
  datatype HealthReport = HealthReport(
    timestamp: string,
    totalChecks: nat,
    healthyCount: nat,
    unhealthyCount: int,
    checks: seq<EndpointCheck>,
    configHash: string,
    reportHash: string)

  // ------------------------------------------------------------ Python values

  /** The name Python gives the type of `v` in its error messages. */
  function TypeName(v: Value): string {
    match v
    case Null => "NoneType"
    case Bool(_) => "bool"
    case Int(_) => "int"
    case Str(_) => "str"
    case Bytes(_) => "bytes"
    case List(_) => "list"
    case Dict(_) => "dict"
  }

  /** The `AttributeError` a method call on a value of the wrong type raises. */
  function NoAttribute(v: Value, attribute: string): string {
    "'" + TypeName(v) + "' object has no attribute '" + attribute + "'"
  }

  /** `v.get(key, default)`, which raises unless `v` is a dict. */
  function Field(v: Value, key: string, default: Value): (r: Result<Value>)
    ensures r.Ok? <==> v.Dict?
    ensures v.Dict? ==> r.value == GetOr(v.entries, key, default)
  {
    if v.Dict? then Ok(GetOr(v.entries, key, default)) else Err(NoAttribute(v, "get"))
  }

  /** What `for x in v` visits: a list's elements, a dict's keys, a string's
      characters, a byte string's integers; anything else is not iterable. */
  function Iterate(v: Value): (r: Result<seq<Value>>)
    ensures v.List? ==> r == Ok(v.elems)
    ensures v.Null? || v.Bool? || v.Int? ==> r.Err?
  {
    match v
    case List(es) => Ok(es)
    case Dict(es) => Ok(seq(|es|, i requires 0 <= i < |es| => Str(es[i].0)))
    case Str(s) => Ok(seq(|s|, i requires 0 <= i < |s| => Str([s[i]])))
    case Bytes(bs) => Ok(seq(|bs|, i requires 0 <= i < |bs| => Int(bs[i] as int)))
    case _ => Err("'" + TypeName(v) + "' object is not iterable")
  }

  // ------------------------------------------------------------ configuration

  /** The three places `_find_config` looks, in order: the repository's
      `config/`, the working directory's `config/` and `~/.blackroad/`. */
  function Candidates(root: string, cwd: string, home: string): (r: seq<string>)
    ensures |r| == 3
  {
    [root + "/config/endpoints.yaml", cwd + "/config/endpoints.yaml", home + "/.blackroad/endpoints.yaml"]
  }

  /** The index of the first path at or after `k` that exists. */
  function FirstExisting(paths: seq<string>, isFile: string -> bool, k: nat): (r: Option<nat>)
    requires k <= |paths|
    ensures r.Some? ==> k <= r.value < |paths| && isFile(paths[r.value]) &&
                        forall j | k <= j < r.value :: !isFile(paths[j])
    ensures r.None? ==> forall j | k <= j < |paths| :: !isFile(paths[j])
    decreases |paths| - k
  {
    if k == |paths| then None
    else if isFile(paths[k]) then Some(k)
    else FirstExisting(paths, isFile, k + 1)
  }

  /** `_find_config`'s loop: the first candidate that exists, else the first. */
  method FindConfig(root: string, cwd: string, home: string, isFile: string -> bool) returns (path: string)
    ensures var cs := Candidates(root, cwd, home);
      path == match FirstExisting(cs, isFile, 0) case Some(i) => cs[i] case None => cs[0]
  {
    var possible := Candidates(root, cwd, home);
    var i := 0;
    while i < |possible|
      invariant 0 <= i <= |possible|
      invariant FirstExisting(possible, isFile, 0) == FirstExisting(possible, isFile, i)
    {
      if isFile(possible[i]) {
        return possible[i];
      }
      i := i + 1;
    }
    return possible[0];
  }

  /** The path chosen is a candidate; it exists whenever some candidate does,
      and then no earlier candidate exists. */
  lemma FindConfigChoice(root: string, cwd: string, home: string, isFile: string -> bool)
    ensures var cs := Candidates(root, cwd, home);
      var path := match FirstExisting(cs, isFile, 0) case Some(i) => cs[i] case None => cs[0];
      path in cs &&
      ((exists i | 0 <= i < 3 :: isFile(cs[i])) ==>
         isFile(path) && forall j | 0 <= j < 3 && cs[j] != path :: (isFile(cs[j]) ==> exists k | 0 <= k < j :: cs[k] == path))
  {
    var cs := Candidates(root, cwd, home);
    var found := FirstExisting(cs, isFile, 0);
    if found.Some? {
      var i := found.value;
      forall j | 0 <= j < 3 && cs[j] != cs[i] && isFile(cs[j])
        ensures exists k | 0 <= k < j :: cs[k] == cs[i]
      {
        assert i < j;
      }
    }
  }

  /** `_load_config`: a missing file or a missing YAML library gives `{}`; so
      does a document that loads as a false value. */
  function LoadConfig(path: string, isFile: string -> bool, yamlAvailable: bool, load: string -> Value): (r: Value)
    ensures !isFile(path) || !yamlAvailable ==> r == Dict([])
    ensures !Falsy(r) || r == Dict([])
    ensures isFile(path) && yamlAvailable && !Falsy(load(path)) ==> r == load(path)
  {
    if !isFile(path) || !yamlAvailable then Dict([])
    else
      var v := load(path);
      if Falsy(v) then Dict([]) else v
  }

  // ------------------------------------------------------------ single checks

  /** What `requests.get` did: the library is missing, a response came back,
      or an exception was raised. */
  datatype HttpOutcome = NoRequests | Reply(status: int, ok: bool) | Raised(reason: string)

  /** `check_http_endpoint` */
  function HttpCheck(url: string, outcome: HttpOutcome): (r: EndpointCheck)
    ensures r.endpoint == url && r.kind == "http"
    ensures r.healthy <==> outcome.Reply? && outcome.ok
    ensures r.statusCode.Some? <==> outcome.Reply?
    ensures r.error.None? <==> outcome.Reply?
  {
    match outcome
    case NoRequests => EndpointCheck("http", "http", url, false, None, Some("requests library not installed"))
    case Reply(status, ok) => EndpointCheck(url, "http", url, ok, Some(status), None)
    case Raised(reason) => EndpointCheck(url, "http", url, false, None, Some(reason))
  }

  /** `check_ssh_host`: healthy exactly when the port is open, with an error
      exactly when it is not. */
  function SshCheck(host: string, port: Value, isOpen: bool, repr: Value -> string): (r: EndpointCheck)
    ensures r.kind == "ssh" && r.healthy == isOpen && (r.error.None? <==> isOpen) && r.statusCode.None?
    ensures r.endpoint == host + ":" + Format(port, repr) && r.name == "ssh://" + r.endpoint
  {
    var target := host + ":" + Format(port, repr);
    EndpointCheck("ssh://" + target, "ssh", target, isOpen, None,
                  if isOpen then None else Some("Port closed or unreachable"))
  }

  /** The default port shows as `22`. */
  lemma SshDefaultPort(host: string, isOpen: bool, repr: Value -> string)
    ensures SshCheck(host, Int(22), isOpen, repr).endpoint == host + ":22"
  {
    assert NatToString(22) == NatToString(2) + [DigitChar(2)];
  }

  // ------------------------------------------------------------ Raspberry Pi cluster

  /** The host expression of `check_pi_cluster`: drop every `${`, keep what
      follows the last `:-`, and strip trailing `}`. */
  function PiHost(raw: string): string {
    RStrip(LastPiece(RemoveAll(raw, "${"), ":-"), {'}'})
  }

  predicate NoChar(s: string, c: char) {
    forall i | 0 <= i < |s| :: s[i] != c
  }

  lemma NoCharNoContains(s: string, sub: string)
    requires |sub| > 0 && NoChar(s, sub[0])
    ensures !Contains(s, sub)
  {
  }

  lemma DropOpening(body: string)
    requires NoChar(body, '$')
    ensures RemoveAll("${" + body, "${") == body
  {
    var raw := "${" + body;
    assert raw[..2] == "${" && raw[2..] == body;
    NoCharNoContains(body, "${");
  }

  lemma AfterLastSeparator(name: string, tail: string)
    requires NoChar(name, ':') && NoChar(tail, ':')
    ensures LastPiece(name + ":-" + tail, ":-") == tail
  {
    var body := name + ":-" + tail;
    NoCharNoContains(tail, ":-");
    SplitWithout(tail, ":-");
    forall j | 0 <= j < |name| ensures !StartsWith(body[j..], ":-") {
      assert body[j] == name[j];
    }
    assert StartsWith(body[|name|..], ":-");
    assert IndexFrom(body, ":-", 0) == Some(|name|);
    assert body[..|name|] == name && body[|name| + 2..] == tail;
    assert Split(body, ":-") == [name] + Split(tail, ":-");
  }

  lemma StripClosing(default: string)
    requires NoChar(default, '}')
    ensures RStrip(default + "}", {'}'}) == default
  {
    assert (default + "}")[..|default|] == default;
  }

  /** A placeholder `${VAR:-default}` gives its default. */
  lemma PlaceholderHost(name: string, default: string)
    requires NoChar(name, '$') && NoChar(name, ':') && NoChar(default, '$') && NoChar(default, ':') && NoChar(default, '}')
    ensures PiHost("${" + name + ":-" + default + "}") == default
  {
    var tail := default + "}";
    var body := name + ":-" + tail;
    assert "${" + name + ":-" + default + "}" == "${" + body;
    DropOpening(body);
    AfterLastSeparator(name, tail);
    StripClosing(default);
  }

  /** A host with no placeholder syntax is used as it is. */
  lemma PlainHost(raw: string)
    requires !Contains(raw, "${") && !Contains(raw, ":-") && (raw == [] || raw[|raw| - 1] != '}')
    ensures PiHost(raw) == raw
  {
    SplitWithout(raw, ":-");
  }

  /** `check_pi_cluster` for one entry of `cluster`: the SSH check of its
      host and port (default 22), renamed `pi:` and its `name` (default the
      host). A non-dict entry or a non-string host raises. */
  function PiCheck(pi: Value, portOpen: (string, Value) -> bool, repr: Value -> string): (r: Result<EndpointCheck>)
    ensures r.Ok? <==> pi.Dict? && GetOr(pi.entries, "host", Str("")).Str?
  {
    if !pi.Dict? then Err(NoAttribute(pi, "get"))
    else
      var hostValue := GetOr(pi.entries, "host", Str(""));
      if !hostValue.Str? then Err(NoAttribute(hostValue, "replace"))
      else
        var host := PiHost(hostValue.s);
        var port := GetOr(pi.entries, "port", Int(22));
        var name := GetOr(pi.entries, "name", Str(host));
        var check := SshCheck(host, port, portOpen(host, port), repr);
        Ok(check.(name := "pi:" + Format(name, repr)))
  }

  /** An entry with only a host is checked on port 22 under `pi:` and its host. */
  lemma PiCheckDefaults(raw: string, portOpen: (string, Value) -> bool, repr: Value -> string)
    ensures var r := PiCheck(Dict([("host", Str(raw))]), portOpen, repr);
      var host := PiHost(raw);
      r.Ok? && r.value.name == "pi:" + host && r.value.endpoint == host + ":22" &&
      r.value.kind == "ssh" && r.value.healthy == portOpen(host, Int(22))
  {
    var entries := [("host", Str(raw))];
    assert Get(entries, "port") == None && Get(entries, "name") == None by {
      assert Keys(entries) == Keys<Value>([]) + ["host"];
    }
    SshDefaultPort(PiHost(raw), portOpen(PiHost(raw), Int(22)), repr);
  }

  /** Each entry's check, whether or not it raises. */
  function PiResults(cluster: seq<Value>, portOpen: (string, Value) -> bool, repr: Value -> string):
    (rs: seq<Result<EndpointCheck>>)
    ensures |rs| == |cluster| && forall i | 0 <= i < |cluster| :: rs[i] == PiCheck(cluster[i], portOpen, repr)
  {
    seq(|cluster|, i requires 0 <= i < |cluster| => PiCheck(cluster[i], portOpen, repr))
  }

  /** The checks for the entries of `cluster`, in order; the first entry
      that raises ends the loop. */
  function PiChecks(cluster: seq<Value>, portOpen: (string, Value) -> bool, repr: Value -> string):
    (r: Result<seq<EndpointCheck>>)
    ensures r.Ok? ==> |r.value| == |cluster|
  {
    Collect(PiResults(cluster, portOpen, repr))
  }

  /** The loop succeeds exactly when every entry can be checked, and then
      the `i`-th result is the `i`-th entry's check. */
  lemma PiChecksEach(cluster: seq<Value>, portOpen: (string, Value) -> bool, repr: Value -> string)
    ensures PiChecks(cluster, portOpen, repr).Ok? <==> forall i | 0 <= i < |cluster| :: PiCheck(cluster[i], portOpen, repr).Ok?
    ensures PiChecks(cluster, portOpen, repr).Ok? ==>
              forall i | 0 <= i < |cluster| :: PiChecks(cluster, portOpen, repr).value[i] == PiCheck(cluster[i], portOpen, repr).value
  {
    CollectEach(PiResults(cluster, portOpen, repr));
  }

  /** `hardware.raspberry_pi.endpoints.cluster`, each level defaulting to
      empty, as the loop iterates it. */
  function ClusterOf(config: Value): Result<seq<Value>> {
    match Field(config, "hardware", Dict([]))
    case Err(e) => Err(e)
    case Ok(hardware) =>
      match Field(hardware, "raspberry_pi", Dict([]))
      case Err(e) => Err(e)
      case Ok(pi) =>
        match Field(pi, "endpoints", Dict([]))
        case Err(e) => Err(e)
        case Ok(endpoints) =>
          match Field(endpoints, "cluster", List([]))
          case Err(e) => Err(e)
          case Ok(cluster) => Iterate(cluster)
  }

  /** What `check_pi_cluster` returns for a configuration. */
  function PiSpec(config: Value, portOpen: (string, Value) -> bool, repr: Value -> string): Result<seq<EndpointCheck>> {
    match ClusterOf(config)
    case Err(e) => Err(e)
    case Ok(cluster) => PiChecks(cluster, portOpen, repr)
  }

  /** A configuration without a `hardware` key has no Pi checks. */
  lemma NoHardwareNoPiChecks(entries: seq<(string, Value)>, portOpen: (string, Value) -> bool, repr: Value -> string)
    requires "hardware" !in Keys(entries)
    ensures PiSpec(Dict(entries), portOpen, repr) == Ok([])
  {
    assert Get([], "raspberry_pi") == None && Get([], "endpoints") == None && Get([], "cluster") == None;
  }

  // ------------------------------------------------------------ cloud services

  /** `check_cloud_services` for one service: a check only when the service
      has a true `endpoints.api` base and a true `health_check.endpoint`; the
      URL is the base without trailing slashes followed by the endpoint. */
  function CloudCheck(serviceName: string, serviceConfig: Value, fetch: string -> HttpOutcome, repr: Value -> string):
    Result<Option<EndpointCheck>>
  {
    match Field(serviceConfig, "health_check", Dict([]))
    case Err(e) => Err(e)
    case Ok(healthCheck) =>
      match Field(serviceConfig, "endpoints", Dict([]))
      case Err(e) => Err(e)
      case Ok(endpoints) =>
        match Field(endpoints, "api", Str(""))
        case Err(e) => Err(e)
        case Ok(baseUrl) =>
          if Falsy(baseUrl) then Ok(None)
          else
            match Field(healthCheck, "endpoint", Null)
            case Err(e) => Err(e)
            case Ok(endpoint) =>
              if Falsy(endpoint) then Ok(None)
              else if !baseUrl.Str? then Err(NoAttribute(baseUrl, "rstrip"))
              else
                var url := RStrip(baseUrl.s, {'/'}) + Format(endpoint, repr);
                var check := HttpCheck(url, fetch(url));
                Ok(Some(check.(name := serviceName, kind := "cloud")))
  }

  /** The base URL and health endpoint of a service, when it has both. */
  function CloudTarget(serviceConfig: Value): Option<(string, Value)> {
    if !serviceConfig.Dict? then None
    else
      var endpoints := GetOr(serviceConfig.entries, "endpoints", Dict([]));
      var healthCheck := GetOr(serviceConfig.entries, "health_check", Dict([]));
      if !endpoints.Dict? || !healthCheck.Dict? then None
      else
        var baseUrl := GetOr(endpoints.entries, "api", Str(""));
        var endpoint := GetOr(healthCheck.entries, "endpoint", Null);
        if baseUrl.Str? && baseUrl.s != "" && !Falsy(endpoint) then Some((baseUrl.s, endpoint)) else None
  }

  /** A service yields a check exactly when it has a base URL and a health
      endpoint; the check is named after the service, has type `cloud`, and
      probes the base without its trailing slashes followed by the endpoint. */
  lemma CloudCheckSpec(serviceName: string, serviceConfig: Value, fetch: string -> HttpOutcome, repr: Value -> string)
    ensures var r := CloudCheck(serviceName, serviceConfig, fetch, repr);
      (r.Ok? && r.value.Some?) <==> CloudTarget(serviceConfig).Some?
    ensures var r := CloudCheck(serviceName, serviceConfig, fetch, repr);
      r.Ok? && r.value.Some? ==>
        var (base, endpoint) := CloudTarget(serviceConfig).value;
        var url := RStrip(base, {'/'}) + Format(endpoint, repr);
        r.value.value == HttpCheck(url, fetch(url)).(name := serviceName, kind := "cloud") &&
        !EndsWith(RStrip(base, {'/'}), "/")
  {
  }

  /** The checks for the services of `cloud`, in order. */
  function CloudChecks(services: seq<(string, Value)>, fetch: string -> HttpOutcome, repr: Value -> string):
    (r: Result<seq<EndpointCheck>>)
    ensures r.Ok? ==> |r.value| <= |services|
  {
    if services == [] then Ok([])
    else
      var n := |services| - 1;
      match CloudChecks(services[..n], fetch, repr)
      case Err(e) => Err(e)
      case Ok(prev) =>
        match CloudCheck(services[n].0, services[n].1, fetch, repr)
        case Err(e) => Err(e)
        case Ok(None) => Ok(prev)
        case Ok(Some(c)) => Ok(prev + [c])
  }

  lemma CloudChecksStep(services: seq<(string, Value)>, i: nat, fetch: string -> HttpOutcome, repr: Value -> string)
    requires i < |services| && CloudChecks(services[..i], fetch, repr).Ok?
    ensures CloudChecks(services[..i + 1], fetch, repr) ==
            match CloudCheck(services[i].0, services[i].1, fetch, repr)
            case Err(e) => Err(e)
            case Ok(None) => CloudChecks(services[..i], fetch, repr)
            case Ok(Some(c)) => Ok(CloudChecks(services[..i], fetch, repr).value + [c])
  {
    assert services[..i + 1][..i] == services[..i];
  }

  lemma {:induction false} CloudChecksErr(services: seq<(string, Value)>, i: nat, fetch: string -> HttpOutcome, repr: Value -> string)
    requires i <= |services| && CloudChecks(services[..i], fetch, repr).Err?
    ensures CloudChecks(services, fetch, repr) == CloudChecks(services[..i], fetch, repr)
    decreases |services| - i
  {
    if i < |services| {
      assert services[..i + 1][..i] == services[..i];
      CloudChecksErr(services, i + 1, fetch, repr);
    } else {
      assert services[..i] == services;
    }
  }

  /** Every cloud check has type `cloud` and names a configured service. */
  lemma {:induction false} CloudChecksNamed(services: seq<(string, Value)>, fetch: string -> HttpOutcome, repr: Value -> string)
    ensures var r := CloudChecks(services, fetch, repr);
      r.Ok? ==> forall i | 0 <= i < |r.value| :: r.value[i].kind == "cloud" && r.value[i].name in Keys(services)
  {
    if services != [] {
      var n := |services| - 1;
      CloudChecksNamed(services[..n], fetch, repr);
      var keys := Keys(services);
      assert keys == Keys(services[..n]) + [services[n].0];
      match CloudChecks(services[..n], fetch, repr)
      case Err(_) =>
      case Ok(prev) =>
        match CloudCheck(services[n].0, services[n].1, fetch, repr)
        case Err(_) =>
        case Ok(None) =>
          assert CloudChecks(services, fetch, repr) == Ok(prev);
        case Ok(Some(c)) =>
          CloudCheckLabel(services[n].0, services[n].1, fetch, repr);
          assert c.kind == "cloud" && c.name == services[n].0 && c.name in keys;
          assert CloudChecks(services, fetch, repr) == Ok(prev + [c]);
    }
  }

  /** A service's check is named after the service and has type `cloud`. */
  lemma CloudCheckLabel(serviceName: string, serviceConfig: Value, fetch: string -> HttpOutcome, repr: Value -> string)
    ensures var r := CloudCheck(serviceName, serviceConfig, fetch, repr);
      r.Ok? && r.value.Some? ==> r.value.value.name == serviceName && r.value.value.kind == "cloud"
  {
  }

  /** What `check_cloud_services` returns for a configuration: `cloud` must
      be a dict for `.items()`. */
  function CloudSpec(config: Value, fetch: string -> HttpOutcome, repr: Value -> string): Result<seq<EndpointCheck>> {
    match Field(config, "cloud", Dict([]))
    case Err(e) => Err(e)
    case Ok(cloud) =>
      if !cloud.Dict? then Err(NoAttribute(cloud, "items")) else CloudChecks(cloud.entries, fetch, repr)
  }

  // ------------------------------------------------------------ API registry

  /** The single check `check_api_endpoints` reports without a registry. */
  const RegistryMissing: EndpointCheck :=
    EndpointCheck("api_registry", "internal", "internal", false, None, Some("API registry not available"))

  /** A registry result as an endpoint check of type `api`. */
  function FromApi(name: string, h: HealthCheckResult): (r: EndpointCheck)
    ensures r.name == name && r.kind == "api"
    ensures r.endpoint == h.endpoint && r.healthy == h.healthy && r.statusCode == h.statusCode && r.error == h.error
  {
    EndpointCheck(name, "api", h.endpoint, h.healthy, h.statusCode, h.error)
  }

  /** The `api` checks copied from a sweep's entries, in order. */
  function FromSweep(entries: seq<(string, HealthCheckResult)>): (r: seq<EndpointCheck>)
    ensures |r| == |entries|
    ensures forall i | 0 <= i < |entries| :: r[i] == FromApi(entries[i].0, entries[i].1)
  {
    if entries == [] then []
    else FromSweep(entries[..|entries| - 1]) + [FromApi(entries[|entries| - 1].0, entries[|entries| - 1].1)]
  }

  /** What `check_api_endpoints` returns for a registry whose names, classes
      and instances' configurations are `order`, `apis` and `configs`:
      without the registry module one unhealthy `api_registry` check,
      otherwise one `api` check per registered name, in order. */
  function ApiSpec(imported: bool, order: seq<string>, apis: map<string, Service>,
                   configs: map<string, ClientConfig>, w: World): (r: seq<EndpointCheck>)
    ensures !imported ==> r == [RegistryMissing]
    ensures imported ==> |r| == |order| && forall i | 0 <= i < |order| :: r[i].name == order[i] && r[i].kind == "api"
  {
    if imported then FromSweep(SweepSpec(order, apis, configs, w).results) else [RegistryMissing]
  }

  /** Over distinct names, each `api` check is the name's own step from the
      instances as they were, with a failure isolated: its endpoint, health,
      status and error do not depend on any other name. */
  lemma ApiSpecIsolated(order: seq<string>, apis: map<string, Service>, configs: map<string, ClientConfig>, w: World)
    requires Distinct(order)
    ensures var r := ApiSpec(true, order, apis, configs, w);
      forall i | 0 <= i < |order| ::
        r[i] == FromApi(order[i], Isolate(order[i], CheckSpec(order[i], apis, configs, w).0))
  {
    SweepIsolated(order, apis, configs, w);
  }

  /** The registry after the API checks of a run, whose names, classes,
      instances and their configurations were `order`, `apis`, `instances`
      and `configs`: without the registry module nothing is touched;
      otherwise the instances are those the sweep leaves. The names and
      classes never change. */
  ghost predicate RegistryAfter(imported: bool, registry: Registry, order: seq<string>, apis: map<string, Service>,
                                instances: map<string, Client>, configs: map<string, ClientConfig>, w: World)
    reads registry, registry.instances.Values
  {
    && registry.Valid() && registry.order == order && registry.apis == apis
    && (imported ==> registry.Configs() == SweepSpec(order, apis, configs, w).configs)
    && (!imported ==> registry.instances == instances && registry.Configs() == configs)
  }

  /** `check_api_endpoints` */
  method CheckApiEndpoints(imported: bool, registry: Registry, w: World) returns (results: seq<EndpointCheck>)
    requires registry.Valid()
    modifies registry, registry.Repr
    ensures results == ApiSpec(imported, old(registry.order), old(registry.apis), old(registry.Configs()), w)
    ensures RegistryAfter(imported, registry, old(registry.order), old(registry.apis), old(registry.instances),
                          old(registry.Configs()), w)
  {
    ghost var order, apis, instances, configs := registry.order, registry.apis, registry.instances, registry.Configs();
    if !imported {
      assert RegistryAfter(imported, registry, order, apis, instances, configs, w);
      return [RegistryMissing];
    }
    var apiResults, _ := registry.HealthCheckAll(w);
    assert RegistryAfter(imported, registry, order, apis, instances, configs, w);
    results := ToApiChecks(apiResults);
  }

  /** The loop of `check_api_endpoints` copying each registry result into an
      `api` check. */
  method ToApiChecks(apiResults: seq<(string, HealthCheckResult)>) returns (results: seq<EndpointCheck>)
    ensures results == FromSweep(apiResults)
  {
    results := [];
    var i := 0;
    while i < |apiResults|
      invariant 0 <= i <= |apiResults|
      invariant results == FromSweep(apiResults[..i])
    {
      var (name, result) := apiResults[i];
      assert apiResults[..i + 1][..i] == apiResults[..i];
      results := results + [FromApi(name, result)];
      i := i + 1;
    }
    assert apiResults[..i] == apiResults;
  }

  // ------------------------------------------------------------ report

  /** `sum(1 for r in checks if r.healthy)` */
  function HealthyCount(checks: seq<EndpointCheck>): (r: nat)
    ensures r <= |checks|
  {
    if checks == [] then 0
    else HealthyCount(checks[..|checks| - 1]) + if checks[|checks| - 1].healthy then 1 else 0
  }

  /** Every check is counted healthy exactly when every check is healthy. */
  lemma {:induction false} AllHealthyCount(checks: seq<EndpointCheck>)
    ensures HealthyCount(checks) == |checks| <==> forall i | 0 <= i < |checks| :: checks[i].healthy
  {
    if checks != [] {
      var n := |checks| - 1;
      var init := checks[..n];
      AllHealthyCount(init);
      assert forall i | 0 <= i < n :: init[i] == checks[i];
    }
  }

  /** `HealthReport.__post_init__`: an empty `report_hash` is replaced by the
      first 16 characters of the digest of the serialised report; a given
      one is kept; nothing else changes. */
  function PostInit(report: HealthReport, sha: string -> string, dumps: HealthReport -> string): (r: HealthReport)
    ensures r.(reportHash := report.reportHash) == report
    ensures report.reportHash != "" ==> r == report
    ensures report.reportHash == "" ==> r.reportHash == Take(sha(dumps(report)), 16)
  {
    if report.reportHash == "" then report.(reportHash := Take(sha(dumps(report)), 16)) else report
  }

  /** The report `run_all_checks` builds from the checks it ran. */
  function Assemble(timestamp: string, checks: seq<EndpointCheck>, configHash: string,
                    sha: string -> string, dumps: HealthReport -> string): (r: HealthReport)
    ensures r.checks == checks && r.timestamp == timestamp && r.configHash == configHash
    ensures r.totalChecks == |checks| == r.healthyCount + r.unhealthyCount && r.unhealthyCount >= 0
  {
    var healthy := HealthyCount(checks);
    PostInit(HealthReport(timestamp, |checks|, healthy, |checks| - healthy, checks, configHash, ""), sha, dumps)
  }

  /** `config_hash`: the first 16 characters of the file's digest when the
      hasher is importable and the file exists, else `no-config`. */
  function ConfigHashOf(path: string, hasher: bool, isFile: string -> bool, hashFile: string -> string): string {
    if hasher && isFile(path) then Take(hashFile(path), 16) else "no-config"
  }

  /** The exit status of `main`. */
  function ExitCode(report: HealthReport): (code: int)
    ensures code == 0 || code == 1
  {
    if report.unhealthyCount == 0 then 0 else 1
  }

  /** A run exits 0 exactly when every check it ran is healthy. */
  lemma ExitZeroIffAllHealthy(timestamp: string, checks: seq<EndpointCheck>, configHash: string,
                              sha: string -> string, dumps: HealthReport -> string)
    ensures ExitCode(Assemble(timestamp, checks, configHash, sha, dumps)) == 0 <==>
            forall i | 0 <= i < |checks| :: checks[i].healthy
  {
    AllHealthyCount(checks);
  }

  /** Without the registry the run always exits 1. */
  lemma MissingRegistryDegrades(timestamp: string, piChecks: seq<EndpointCheck>, configHash: string,
                                sha: string -> string, dumps: HealthReport -> string)
    ensures ExitCode(Assemble(timestamp, [RegistryMissing] + piChecks, configHash, sha, dumps)) == 1
  {
    ExitZeroIffAllHealthy(timestamp, [RegistryMissing] + piChecks, configHash, sha, dumps);
    assert !([RegistryMissing] + piChecks)[0].healthy;
  }

  /** One registered name whose step raises, or whose check comes back
      unhealthy, makes the whole run exit 1, whatever the other names and the
      Pi checks give. */
  lemma ApiFailureFailsRun(order: seq<string>, apis: map<string, Service>, configs: map<string, ClientConfig>,
                           w: World, k: nat, timestamp: string, piChecks: seq<EndpointCheck>, configHash: string,
                           sha: string -> string, dumps: HealthReport -> string)
    requires Distinct(order) && k < |order|
    requires !Isolate(order[k], CheckSpec(order[k], apis, configs, w).0).healthy
    ensures ExitCode(Assemble(timestamp, ApiSpec(true, order, apis, configs, w) + piChecks, configHash, sha, dumps)) == 1
  {
    var api := ApiSpec(true, order, apis, configs, w);
    ApiSpecIsolated(order, apis, configs, w);
    ExitZeroIffAllHealthy(timestamp, api + piChecks, configHash, sha, dumps);
    assert !(api + piChecks)[k].healthy;
  }

  /** The report hash is the digest's prefix: 16 characters for a digest of
      at least 16, and the whole fallback text `hash-unavailable`, which has 16. */
  lemma ReportHashLength(timestamp: string, checks: seq<EndpointCheck>, configHash: string,
                         sha: string -> string, dumps: HealthReport -> string)
    requires forall s :: |sha(s)| >= 16
    ensures |Assemble(timestamp, checks, configHash, sha, dumps).reportHash| == 16
  {
  }

  /** The counting and the construction that end `run_all_checks`. */
  method ReportFor(timestamp: string, allResults: seq<EndpointCheck>, configHash: string,
                   sha: string -> string, dumps: HealthReport -> string)
    returns (report: HealthReport)
    ensures report == Assemble(timestamp, allResults, configHash, sha, dumps)
  {
    var healthy := 0;
    var i := 0;
    while i < |allResults|
      invariant 0 <= i <= |allResults| && healthy == HealthyCount(allResults[..i])
    {
      assert allResults[..i + 1][..i] == allResults[..i];
      if allResults[i].healthy {
        healthy := healthy + 1;
      }
      i := i + 1;
    }
    assert allResults[..i] == allResults;
    report := HealthReport(timestamp, |allResults|, healthy, |allResults| - healthy, allResults, configHash, "");
    report := PostInit(report, sha, dumps);
  }

  // ------------------------------------------------------------ the checker

  /** `HealthChecker`, whose configuration is fixed when it is made. */
  class Checker {
    const configPath: string
    const config: Value

    /** `__init__`: the given path if it is true, else `_find_config`; then
        `_load_config`. */
    constructor (path: Option<string>, root: string, cwd: string, home: string,
                 isFile: string -> bool, yamlAvailable: bool, load: string -> Value)
      ensures Truthy(path) ==> configPath == path.value
      ensures !Truthy(path) ==>
        var cs := Candidates(root, cwd, home);
        configPath == match FirstExisting(cs, isFile, 0) case Some(i) => cs[i] case None => cs[0]
      ensures config == LoadConfig(configPath, isFile, yamlAvailable, load)
    {
      var chosen: string;
      if Truthy(path) {
        chosen := path.value;
      } else {
        chosen := FindConfig(root, cwd, home, isFile);
      }
      configPath := chosen;
      config := LoadConfig(chosen, isFile, yamlAvailable, load);
    }

    /** `check_pi_cluster` */
    method CheckPiCluster(portOpen: (string, Value) -> bool, repr: Value -> string)
      returns (r: Result<seq<EndpointCheck>>)
      ensures r == PiSpec(config, portOpen, repr)
    {
      var cluster := ClusterOf(config);
      if cluster.Err? {
        return Err(cluster.error);
      }
      var pis := cluster.value;
      ghost var rs := PiResults(pis, portOpen, repr);
      var results: seq<EndpointCheck> := [];
      var i := 0;
      assert rs[..0] == [];
      while i < |pis|
        invariant 0 <= i <= |pis|
        invariant Collect(rs[..i]) == Ok(results)
      {
        var check := PiCheck(pis[i], portOpen, repr);
        assert rs[i] == check;
        CollectStep(rs, i, results);
        if check.Err? {
          return Err(check.error);
        }
        results := results + [check.value];
        i := i + 1;
      }
      assert rs[..i] == rs;
      r := Ok(results);
    }

    /** `check_cloud_services` */
    method CheckCloudServices(fetch: string -> HttpOutcome, repr: Value -> string)
      returns (r: Result<seq<EndpointCheck>>)
      ensures r == CloudSpec(config, fetch, repr)
    {
      var cloud := Field(config, "cloud", Dict([]));
      if cloud.Err? {
        return Err(cloud.error);
      }
      if !cloud.value.Dict? {
        return Err(NoAttribute(cloud.value, "items"));
      }
      var services := cloud.value.entries;
      var results: seq<EndpointCheck> := [];
      var i := 0;
      assert services[..0] == [];
      while i < |services|
        invariant 0 <= i <= |services|
        invariant CloudChecks(services[..i], fetch, repr) == Ok(results)
      {
        var check := CloudCheck(services[i].0, services[i].1, fetch, repr);
        CloudChecksStep(services, i, fetch, repr);
        if check.Err? {
          CloudChecksErr(services, i + 1, fetch, repr);
          return Err(check.error);
        }
        if check.value.Some? {
          results := results + [check.value.value];
        }
        i := i + 1;
      }
      assert services[..i] == services;
      r := Ok(results);
    }

    /** `run_all_checks`: the API checks, then the Pi checks (cloud services
        are not part of the run), counted into a report. */
    method RunAllChecks(imported: bool, registry: Registry, w: World,
                        portOpen: (string, Value) -> bool, repr: Value -> string,
                        hasher: bool, isFile: string -> bool, hashFile: string -> string,
                        timestamp: string, sha: string -> string, dumps: HealthReport -> string)
      returns (r: Result<HealthReport>)
      requires registry.Valid()
      modifies registry, registry.Repr
      ensures RegistryAfter(imported, registry, old(registry.order), old(registry.apis), old(registry.instances),
                            old(registry.Configs()), w)
      ensures var api := ApiSpec(imported, old(registry.order), old(registry.apis), old(registry.Configs()), w);
        r == match PiSpec(config, portOpen, repr)
             case Err(e) => Err(e)
             case Ok(pis) => Ok(Assemble(timestamp, api + pis, ConfigHashOf(configPath, hasher, isFile, hashFile), sha, dumps))
    {
      var apiResults := CheckApiEndpoints(imported, registry, w);
      r := Conclude(apiResults, portOpen, repr, hasher, isFile, hashFile, timestamp, sha, dumps);
    }

    /** The rest of `run_all_checks` once the API checks are in: the Pi
        checks, the configuration hash and the counted report. */
    method Conclude(apiResults: seq<EndpointCheck>, portOpen: (string, Value) -> bool, repr: Value -> string,
                    hasher: bool, isFile: string -> bool, hashFile: string -> string,
                    timestamp: string, sha: string -> string, dumps: HealthReport -> string)
      returns (r: Result<HealthReport>)
      ensures r == match PiSpec(config, portOpen, repr)
                   case Err(e) => Err(e)
                   case Ok(pis) =>
                     Ok(Assemble(timestamp, apiResults + pis, ConfigHashOf(configPath, hasher, isFile, hashFile), sha, dumps))
    {
      var pis := CheckPiCluster(portOpen, repr);
      if pis.Err? {
        return Err(pis.error);
      }
      var configHash := "no-config";
      if hasher && isFile(configPath) {
        configHash := Take(hashFile(configPath), 16);
      }
      assert configHash == ConfigHashOf(configPath, hasher, isFile, hashFile);
      var report := ReportFor(timestamp, apiResults + pis.value, configHash, sha, dumps);
      r := Ok(report);
    }
  }
}
