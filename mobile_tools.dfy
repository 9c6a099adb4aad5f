/** The iOS tool integrations of integrations/mobile/mobile_tools.py: the
    Working Copy x-callback URLs and action chains, the Pyto URLs, the
    Shellfish connection configurations, and the manager's tool list and
    Working Copy workflow.

    Percent-encoding (section 2.1 of RFC 3986) is a parameter: `quote` for
    a path component and `quote_plus` for a form field. `urlencode` is
    written out from `quote_plus`, as Python builds it for a dict of
    strings. */
module MobileTools {
  import opened Text
  import opened PyValue

  /** `urllib.parse.quote` and `quote_plus`, each on text and on bytes,
      and `str()` of a container value. */
  datatype Codec = Codec(quote: string -> string, quoteBytes: ByteString -> string,
                         quotePlus: string -> string, quotePlusBytes: ByteString -> string,
                         repr: Value -> string)

  /** How `urlencode` encodes one value: bytes as they are, anything else
      through `str()`. */
  function FormValue(v: Value, c: Codec): (r: string)
    ensures v.Str? ==> r == c.quotePlus(v.s)
  {
    if v.Bytes? then c.quotePlusBytes(v.bs) else c.quotePlus(Format(v, c.repr))
  }

  /** `urlencode(params)`: each key and each value form-encoded, joined by
      `=` and `&`, in insertion order. */
  function UrlEncode(params: seq<(string, Value)>, c: Codec): string {
    Join("&", seq(|params|, i requires 0 <= i < |params| =>
      c.quotePlus(params[i].0) + "=" + FormValue(params[i].1, c)))
  }

  // ------------------------------------------------------------ Working Copy

  const UrlScheme: string := "working-copy://"
  const XCallback: string := "working-copy://x-callback-url"

  /** The parameters of `clone_url`: `path` only when it is true. */
  function CloneParams(repoUrl: string, path: Option<string>): (ps: seq<(string, Value)>)
    ensures Keys(ps) == if Truthy(path) then ["url", "path"] else ["url"]
    ensures ps[0] == ("url", Str(repoUrl))
    ensures Truthy(path) ==> ps[1] == ("path", Str(path.value))
  {
    [("url", Str(repoUrl))] + if Truthy(path) then [("path", Str(path.value))] else []
  }

  /** `clone_url` */
  function CloneUrl(repoUrl: string, path: Option<string>, c: Codec): string {
    XCallback + "/clone?" + UrlEncode(CloneParams(repoUrl, path), c)
  }

  /** `pull_url` */
  function PullUrl(repoName: string, c: Codec): string {
    XCallback + "/pull?repo=" + c.quote(repoName)
  }

  /** `push_url` */
  function PushUrl(repoName: string, c: Codec): string {
    XCallback + "/push?repo=" + c.quote(repoName)
  }

  /** The parameters of `commit_url`: `add=all` only when `add_all`. */
  function CommitParams(repo: Value, message: Value, addAll: bool): (ps: seq<(string, Value)>)
    ensures Keys(ps) == if addAll then ["repo", "message", "add"] else ["repo", "message"]
    ensures ps[0] == ("repo", repo) && ps[1] == ("message", message)
    ensures addAll ==> ps[2] == ("add", Str("all"))
  {
    [("repo", repo), ("message", message)] + if addAll then [("add", Str("all"))] else []
  }

  /** `commit_url` for whatever values the caller passes. */
  function CommitUrlOf(repo: Value, message: Value, addAll: bool, c: Codec): string {
    XCallback + "/commit?" + UrlEncode(CommitParams(repo, message, addAll), c)
  }

  /** `commit_url` */
  function CommitUrl(repoName: string, message: string, addAll: bool, c: Codec): string {
    CommitUrlOf(Str(repoName), Str(message), addAll, c)
  }

  /** `open_file_url` */
  function OpenFileUrl(repoName: string, path: string, c: Codec): string {
    XCallback + "/open?repo=" + c.quote(repoName) + "&path=" + c.quote(path)
  }

  /** Each of these URLs is the x-callback base, an action and a query. */
  lemma ActionUrlShapes(repoName: string, path: string, c: Codec)
    ensures StartsWith(CloneUrl(repoName, Some(path), c), XCallback + "/clone?")
    ensures StartsWith(CommitUrl(repoName, path, true, c), XCallback + "/commit?")
    ensures StartsWith(PullUrl(repoName, c), XCallback + "/pull?repo=")
    ensures StartsWith(PushUrl(repoName, c), XCallback + "/push?repo=")
    ensures StartsWith(OpenFileUrl(repoName, path, c), XCallback + "/open?repo=")
    ensures EndsWith(OpenFileUrl(repoName, path, c), "&path=" + c.quote(path))
  {
    var o := OpenFileUrl(repoName, path, c);
    assert o == (XCallback + "/open?repo=") + (c.quote(repoName) + "&path=" + c.quote(path));
    assert o == (XCallback + "/open?repo=" + c.quote(repoName)) + ("&path=" + c.quote(path));
  }

  /** A pull URL and a push URL never coincide. */
  lemma PullIsNotPush(a: string, b: string, c: Codec)
    ensures PullUrl(a, c) != PushUrl(b, c)
  {
    var k := |XCallback| + 3;
    assert PullUrl(a, c)[k] == 'l';
    assert PushUrl(b, c)[k] == 's';
  }

  /** With an injective `quote`, the pull URL determines the repository. */
  lemma PullUrlInjective(a: string, b: string, c: Codec)
    requires forall x, y :: c.quote(x) == c.quote(y) ==> x == y
    ensures PullUrl(a, c) == PullUrl(b, c) ==> a == b
  {
    var p := XCallback + "/pull?repo=";
    if PullUrl(a, c) == PullUrl(b, c) {
      assert PullUrl(a, c)[|p|..] == c.quote(a);
      assert PullUrl(b, c)[|p|..] == c.quote(b);
    }
  }

  /** `quote(v)`: text and bytes are percent-encoded, anything else raises. */
  function QuoteValue(v: Value, c: Codec): (r: Result<string>)
    ensures r.Ok? <==> v.Str? || v.Bytes?
    ensures v.Str? ==> r == Ok(c.quote(v.s))
  {
    match v
    case Str(s) => Ok(c.quote(s))
    case Bytes(bs) => Ok(c.quoteBytes(bs))
    case _ => Err("TypeError: quote_from_bytes() expected bytes")
  }

  /** The URL `chain_actions` makes for one action, if any: pull and push
      need a `repo` that `quote` accepts, commit takes any `repo` and
      defaults the message to `Auto commit`; a missing `repo` raises; other
      kinds are skipped. */
  function ActionUrl(action: seq<(string, Value)>, c: Codec): (r: Result<Option<string>>)
    ensures var kind := Get(action, "action");
      kind != Some(Str("pull")) && kind != Some(Str("push")) && kind != Some(Str("commit")) ==> r == Ok(None)
    ensures r.Ok? && r.value.Some? ==> "repo" in Keys(action)
    ensures Get(action, "action") == Some(Str("commit")) ==> (r.Ok? <==> "repo" in Keys(action))
    ensures Get(action, "action") in {Some(Str("pull")), Some(Str("push"))} ==>
      (r.Ok? <==> Get(action, "repo").Some? && (Get(action, "repo").value.Str? || Get(action, "repo").value.Bytes?))
    ensures Get(action, "action") == Some(Str("pull")) && Get(action, "repo").Some? && Get(action, "repo").value.Str? ==>
      r == Ok(Some(PullUrl(Get(action, "repo").value.s, c)))
    ensures Get(action, "action") == Some(Str("push")) && Get(action, "repo").Some? && Get(action, "repo").value.Str? ==>
      r == Ok(Some(PushUrl(Get(action, "repo").value.s, c)))
  {
    var kind := Get(action, "action");
    if kind == Some(Str("pull")) || kind == Some(Str("push")) then
      match Get(action, "repo")
      case None => Err("KeyError: 'repo'")
      case Some(repo) =>
        match QuoteValue(repo, c)
        case Err(e) => Err(e)
        case Ok(q) =>
          if kind == Some(Str("pull")) then Ok(Some(XCallback + "/pull?repo=" + q))
          else Ok(Some(XCallback + "/push?repo=" + q))
    else if kind == Some(Str("commit")) then
      match Get(action, "repo")
      case None => Err("KeyError: 'repo'")
      case Some(repo) => Ok(Some(CommitUrlOf(repo, GetOr(action, "message", Str("Auto commit")), true, c)))
    else Ok(None)
  }

  function ActionUrls(actions: seq<seq<(string, Value)>>, c: Codec): (rs: seq<Result<Option<string>>>)
    ensures |rs| == |actions| && forall i | 0 <= i < |actions| :: rs[i] == ActionUrl(actions[i], c)
  {
    seq(|actions|, i requires 0 <= i < |actions| => ActionUrl(actions[i], c))
  }

  /** What `chain_actions` returns: the URLs of the actions, in order (a
      list, whatever its annotation says). */
  function Chain(actions: seq<seq<(string, Value)>>, c: Codec): (r: Result<seq<string>>)
    ensures r.Ok? ==> |r.value| <= |actions|
  {
    Gather(ActionUrls(actions, c))
  }

  /** Chaining two lists of actions chains the first, then the second. */
  lemma ChainAppend(a: seq<seq<(string, Value)>>, b: seq<seq<(string, Value)>>, c: Codec)
    ensures Chain(a + b, c) ==
      match Chain(a, c)
      case Err(e) => Err(e)
      case Ok(x) => match Chain(b, c) case Err(e) => Err(e) case Ok(y) => Ok(x + y)
  {
    assert ActionUrls(a + b, c) == ActionUrls(a, c) + ActionUrls(b, c);
    GatherAppend(ActionUrls(a, c), ActionUrls(b, c));
  }

  /** `chain_actions` */
  method ChainActions(actions: seq<seq<(string, Value)>>, c: Codec) returns (r: Result<seq<string>>)
    ensures r == Chain(actions, c)
  {
    ghost var rs := ActionUrls(actions, c);
    var urls: seq<string> := [];
    var i := 0;
    assert rs[..0] == [];
    while i < |actions|
      invariant 0 <= i <= |actions|
      invariant Gather(rs[..i]) == Ok(urls)
    {
      var action := actions[i];
      var url := ActionUrl(action, c);
      assert rs[i] == url;
      GatherStep(rs, i, urls);
      if url.Err? {
        return Err(url.error);
      }
      if url.value.Some? {
        urls := urls + [url.value.value];
      }
      i := i + 1;
    }
    assert rs[..i] == rs;
    r := Ok(urls);
  }

  // ------------------------------------------------------------ Pyto

  /** `run_script_url` */
  function PytoRunUrl(scriptPath: string, c: Codec): string {
    "pyto://run?script=" + c.quote(scriptPath)
  }

  /** `PytoIntegration.open_url` */
  function PytoOpenUrl(filePath: string, c: Codec): string {
    "pyto://open?path=" + c.quote(filePath)
  }

  /** The run URL and the open URL differ, and with an injective `quote`
      each determines its path. */
  lemma PytoUrls(a: string, b: string, c: Codec)
    requires forall x, y :: c.quote(x) == c.quote(y) ==> x == y
    ensures PytoRunUrl(a, c) != PytoOpenUrl(b, c)
    ensures PytoRunUrl(a, c) == PytoRunUrl(b, c) ==> a == b
    ensures PytoOpenUrl(a, c) == PytoOpenUrl(b, c) ==> a == b
  {
    assert PytoRunUrl(a, c)[7] == 'r' && PytoOpenUrl(b, c)[7] == 'o';
    if PytoRunUrl(a, c) == PytoRunUrl(b, c) {
      assert PytoRunUrl(a, c)[18..] == c.quote(a) && PytoRunUrl(b, c)[18..] == c.quote(b);
    }
    if PytoOpenUrl(a, c) == PytoOpenUrl(b, c) {
      assert PytoOpenUrl(a, c)[17..] == c.quote(a) && PytoOpenUrl(b, c)[17..] == c.quote(b);
    }
  }

  const SupportedPackages: seq<string> :=
    ["requests", "numpy", "pandas", "PIL", "cryptography", "beautifulsoup4", "lxml", "matplotlib", "scipy", "scikit-learn"]

  // ------------------------------------------------------------ iSH

  const IshDefaultPort: int := 8022

  const EssentialPackages: seq<string> :=
    ["git", "python3", "py3-pip", "openssh", "curl", "jq", "bash", "vim", "tmux"]

  // ------------------------------------------------------------ Shellfish

  /** `generate_connection_config`: `privateKey` is added only for a true
      key name. */
  function ConnectionConfig(host: Value, username: Value, port: Value, keyName: Value, c: Codec): (config: Value)
    ensures config.Dict?
    ensures Keys(config.entries) ==
      ["name", "host", "port", "username", "protocol"] + if Falsy(keyName) then [] else ["privateKey"]
  {
    Dict([("name", Str("BlackRoad - " + Format(host, c.repr))), ("host", host), ("port", port),
          ("username", username), ("protocol", Str("sftp"))]
         + if Falsy(keyName) then [] else [("privateKey", keyName)])
  }

  /** The configuration is named after the host, speaks SFTP, and names the
      key exactly when one is given. */
  lemma ConnectionConfigFields(host: string, username: string, port: Value, keyName: Value, c: Codec)
    ensures var es := ConnectionConfig(Str(host), Str(username), port, keyName, c).entries;
      Get(es, "name") == Some(Str("BlackRoad - " + host)) &&
      Get(es, "host") == Some(Str(host)) &&
      Get(es, "username") == Some(Str(username)) &&
      Get(es, "protocol") == Some(Str("sftp")) &&
      Get(es, "port") == Some(port) &&
      Get(es, "privateKey") == if Falsy(keyName) then None else Some(keyName)
  {
    var es := ConnectionConfig(Str(host), Str(username), port, keyName, c).entries;
    ConnectionConfigDistinct(Str(host), Str(username), port, keyName, c);
    GetDistinct(es, 0);
    GetDistinct(es, 1);
    GetDistinct(es, 2);
    GetDistinct(es, 3);
    GetDistinct(es, 4);
    ConnectionConfigKey(Str(host), Str(username), port, keyName, c);
  }

  lemma ConnectionConfigDistinct(host: Value, username: Value, port: Value, keyName: Value, c: Codec)
    ensures DistinctKeys(ConnectionConfig(host, username, port, keyName, c).entries)
  {
    var es := ConnectionConfig(host, username, port, keyName, c).entries;
    var ks := Keys(es);
    assert forall i | 0 <= i < |es| :: es[i].0 == ks[i];
  }

  lemma ConnectionConfigKey(host: Value, username: Value, port: Value, keyName: Value, c: Codec)
    ensures Get(ConnectionConfig(host, username, port, keyName, c).entries, "privateKey") ==
            if Falsy(keyName) then None else Some(keyName)
  {
    var es := ConnectionConfig(host, username, port, keyName, c).entries;
    if Falsy(keyName) {
      assert "privateKey" !in Keys(es);
    } else {
      ConnectionConfigDistinct(host, username, port, keyName, c);
      GetDistinct(es, 5);
    }
  }

  /** The configuration for one host of `generate_pi_cluster_configs`; a
      missing `host` raises. */
  function PiConfigAt(h: seq<(string, Value)>, username: string, c: Codec): (r: Result<Value>)
    ensures r.Ok? <==> "host" in Keys(h)
  {
    match Get(h, "host")
    case None => Err("KeyError: 'host'")
    case Some(host) => Ok(ConnectionConfig(host, Str(username), GetOr(h, "port", Int(22)), GetOr(h, "key_name", Null), c))
  }

  /** `generate_pi_cluster_configs` */
  function PiClusterConfigs(hosts: seq<seq<(string, Value)>>, username: string, c: Codec): (r: Result<seq<Value>>)
    ensures r.Ok? ==> |r.value| == |hosts|
  {
    Collect(seq(|hosts|, i requires 0 <= i < |hosts| => PiConfigAt(hosts[i], username, c)))
  }

  /** One configuration per host, in order, succeeding exactly when every
      host dictionary has a `host`. */
  lemma PiClusterConfigsEach(hosts: seq<seq<(string, Value)>>, username: string, c: Codec)
    ensures PiClusterConfigs(hosts, username, c).Ok? <==> forall i | 0 <= i < |hosts| :: "host" in Keys(hosts[i])
    ensures PiClusterConfigs(hosts, username, c).Ok? ==>
      forall i | 0 <= i < |hosts| :: PiClusterConfigs(hosts, username, c).value[i] == PiConfigAt(hosts[i], username, c).value
  {
    var rs := seq(|hosts|, i requires 0 <= i < |hosts| => PiConfigAt(hosts[i], username, c));
    assert PiClusterConfigs(hosts, username, c) == Collect(rs);
    forall i | 0 <= i < |hosts| ensures rs[i].Ok? <==> "host" in Keys(hosts[i]) {
      assert rs[i] == PiConfigAt(hosts[i], username, c);
    }
    CollectEach(rs);
  }

  /** A host given without a port is configured on port 22. */
  lemma PiConfigDefaultPort(host: Value, username: string, c: Codec)
    ensures PiConfigAt([("host", host)], username, c) ==
            Ok(ConnectionConfig(host, Str(username), Int(22), Null, c))
  {
    assert Keys([("host", host)]) == ["host"];
  }

  // ------------------------------------------------------------ manager

  /** `MobileToolConfig` */
  datatype ToolConfig = ToolConfig(name: string, urlScheme: string, features: seq<string>, setupRequired: bool)

  /** `get_all_tools` */
  function AllTools(): (tools: seq<ToolConfig>)
    ensures |tools| == 4
  {
    [ToolConfig("Working Copy", "working-copy://", ["git", "github", "code_editing", "pr_management"], false),
     ToolConfig("Pyto", "pyto://", ["python", "pip", "shortcuts"], true),
     ToolConfig("iSH", "ish://", ["alpine_linux", "apk", "shell", "git"], true),
     ToolConfig("Shellfish", "shellfish://", ["sftp", "ssh", "file_transfer"], false)]
  }

  /** Only Pyto and iSH need setting up; the names are distinct and every
      scheme ends in `://`. */
  lemma ToolsSetup()
    ensures forall i | 0 <= i < 4 :: AllTools()[i].setupRequired <==> AllTools()[i].name in {"Pyto", "iSH"}
    ensures forall i, j | 0 <= i < j < 4 :: AllTools()[i].name != AllTools()[j].name
    ensures forall i | 0 <= i < 4 :: EndsWith(AllTools()[i].urlScheme, "://")
  {
    var ts := AllTools();
    assert ts[0].name == "Working Copy" && ts[1].name == "Pyto" && ts[2].name == "iSH" && ts[3].name == "Shellfish";
  }

  /** `get_working_copy_workflow` */
  function Workflow(repoName: string, c: Codec): (urls: seq<string>)
    ensures |urls| == 3
  {
    [PullUrl(repoName, c), CommitUrl(repoName, "Update from iOS", true, c), PushUrl(repoName, c)]
  }

  lemma PullAction(repoName: string, c: Codec)
    ensures ActionUrl([("action", Str("pull")), ("repo", Str(repoName))], c) == Ok(Some(PullUrl(repoName, c)))
  {
    var a := [("action", Str("pull")), ("repo", Str(repoName))];
    assert a[..1] == [a[0]];
    assert Get(a, "action") == Some(Str("pull")) && Get(a, "repo") == Some(Str(repoName));
  }

  lemma PushAction(repoName: string, c: Codec)
    ensures ActionUrl([("action", Str("push")), ("repo", Str(repoName))], c) == Ok(Some(PushUrl(repoName, c)))
  {
    var a := [("action", Str("push")), ("repo", Str(repoName))];
    assert a[..1] == [a[0]];
    assert Get(a, "action") == Some(Str("push")) && Get(a, "repo") == Some(Str(repoName));
  }

  lemma CommitAction(repoName: string, c: Codec)
    ensures ActionUrl([("action", Str("commit")), ("repo", Str(repoName)), ("message", Str("Update from iOS"))], c) ==
            Ok(Some(CommitUrl(repoName, "Update from iOS", true, c)))
  {
    var a := [("action", Str("commit")), ("repo", Str(repoName)), ("message", Str("Update from iOS"))];
    assert a[..2] == [a[0], a[1]] && a[..2][..1] == [a[0]];
    assert Get(a, "action") == Some(Str("commit")) && Get(a, "repo") == Some(Str(repoName));
    assert GetOr(a, "message", Str("Auto commit")) == Str("Update from iOS");
  }

  /** A pull, a commit with the message `Update from iOS`, and a push, as
      actions for `chain_actions`. */
  function WorkflowActions(repoName: string): (actions: seq<seq<(string, Value)>>)
    ensures |actions| == 3
  {
    [[("action", Str("pull")), ("repo", Str(repoName))],
     [("action", Str("commit")), ("repo", Str(repoName)), ("message", Str("Update from iOS"))],
     [("action", Str("push")), ("repo", Str(repoName))]]
  }

  lemma WorkflowSteps(repoName: string, c: Codec)
    ensures forall i | 0 <= i < 3 ::
      ActionUrls(WorkflowActions(repoName), c)[i] == Ok(Some(Workflow(repoName, c)[i]))
  {
    var actions := WorkflowActions(repoName);
    var rs := ActionUrls(actions, c);
    forall i | 0 <= i < 3 ensures rs[i] == Ok(Some(Workflow(repoName, c)[i])) {
      assert rs[i] == ActionUrl(actions[i], c);
      if i == 0 {
        PullAction(repoName, c);
      } else if i == 1 {
        CommitAction(repoName, c);
      } else {
        PushAction(repoName, c);
      }
    }
  }

  /** The workflow is the chain of a pull, a commit of everything with the
      message `Update from iOS`, and a push. */
  lemma WorkflowIsChain(repoName: string, c: Codec)
    ensures Chain(WorkflowActions(repoName), c) == Ok(Workflow(repoName, c))
  {
    WorkflowSteps(repoName, c);
    GatherAllSome(ActionUrls(WorkflowActions(repoName), c), Workflow(repoName, c));
  }
}
