/** The Termius host export of integrations/terminal/termius_sync.py: the
    group hierarchy, the Pi-cluster and cloud host builders, `to_dict`, the
    sync manifest and the default infrastructure read from the environment.

    The builders take the host dictionaries as entry sequences of Python
    values, so a field can hold anything the caller put there; the
    manifest's `generated` timestamp is a parameter. */
module TermiusSync {
  import opened Text
  import opened PyValue
  import opened ApiBase

  /** `TermiusHost` as `__post_init__` leaves it; each field holds the Python
      value it was given. */
  datatype Host = Host(
    labelValue: Value,
    address: Value,
    port: Value,
    username: Value,
    sshKey: Value,
    group: Value,
    tags: Value)

  /** `TermiusGroup` */
  datatype Group = Group(labelText: string, parent: Option<string>)

  /** The `TermiusSync` object: the API key and base it was made with. */
  datatype Sync = Sync(apiKey: Option<string>, apiBase: string)

  /** `TermiusSync(api_key)`: a true key is kept, else `TERMIUS_API_KEY` is read. */
  function NewSync(apiKey: Option<string>, env: Env): (s: Sync)
    ensures Truthy(apiKey) ==> s.apiKey == apiKey
    ensures !Truthy(apiKey) ==> s.apiKey == Getenv(env, "TERMIUS_API_KEY")
    ensures s.apiBase == "https://api.termius.com"
  {
    Sync(if Truthy(apiKey) then apiKey else Getenv(env, "TERMIUS_API_KEY"), "https://api.termius.com")
  }

  /** The constructor followed by `__post_init__`, which turns `tags=None`
      into an empty list. */
  function NewHost(labelValue: Value, address: Value, port: Value, username: Value, sshKey: Value,
                   group: Value, tags: Value): (h: Host)
    ensures !h.tags.Null?
    ensures h.tags == (if tags.Null? then List([]) else tags)
    ensures h.(tags := tags) == Host(labelValue, address, port, username, sshKey, group, tags)
  {
    Host(labelValue, address, port, username, sshKey, group, if tags.Null? then List([]) else tags)
  }

  /** `asdict(host)`, in field order. */
  function Fields(h: Host): (fs: seq<(string, Value)>)
    ensures Keys(fs) == ["label", "address", "port", "username", "ssh_key", "group", "tags"]
  {
    [("label", h.labelValue), ("address", h.address), ("port", h.port), ("username", h.username),
     ("ssh_key", h.sshKey), ("group", h.group), ("tags", h.tags)]
  }

  /** The entries whose value is not `None`, in order. */
  function NonNull(es: seq<(string, Value)>): (r: seq<(string, Value)>)
    ensures |r| <= |es|
    ensures forall e | e in r :: e in es && !e.1.Null?
  {
    if es == [] then []
    else
      var n := |es| - 1;
      NonNull(es[..n]) + if es[n].1.Null? then [] else [es[n]]
  }

  /** A key survives exactly when its value is not `None`. */
  lemma {:induction false} NonNullKeys(es: seq<(string, Value)>)
    requires DistinctKeys(es)
    ensures forall i | 0 <= i < |es| :: es[i].0 in Keys(NonNull(es)) <==> !es[i].1.Null?
  {
    if es != [] {
      var n := |es| - 1;
      var init := es[..n];
      assert DistinctKeys(init) by {
        assert forall i | 0 <= i < n :: init[i] == es[i];
      }
      NonNullKeys(init);
      LastKeyFresh(es);
      var last := if es[n].1.Null? then [] else [es[n]];
      var before, after := Keys(NonNull(init)), Keys(last);
      assert after == if es[n].1.Null? then [] else [es[n].0];
      KeysAppend(NonNull(init), last);
      assert Keys(NonNull(es)) == before + after;
      forall i | 0 <= i < |es|
        ensures es[i].0 in before + after <==> !es[i].1.Null?
      {
        if i < n {
          assert init[i] == es[i] && es[i].0 != es[n].0;
          assert es[i].0 !in after;
        }
      }
    }
  }

  /** With distinct keys, the last key is not among the kept earlier ones. */
  lemma LastKeyFresh(es: seq<(string, Value)>)
    requires DistinctKeys(es) && es != []
    ensures es[|es| - 1].0 !in Keys(NonNull(es[..|es| - 1]))
  {
    var n := |es| - 1;
    var kept := NonNull(es[..n]);
    forall k | 0 <= k < |kept| ensures kept[k].0 != es[n].0 {
      var e := kept[k];
      assert e in es[..n];
      var j :| 0 <= j < n && es[..n][j] == e;
      assert es[j] == e;
    }
  }

  lemma {:induction false} KeysAppend(a: seq<(string, Value)>, b: seq<(string, Value)>)
    ensures Keys(a + b) == Keys(a) + Keys(b)
    decreases |b|
  {
    if b != [] {
      var n := |b| - 1;
      KeysAppend(a, b[..n]);
      assert (a + b)[..|a + b| - 1] == a + b[..n];
    }
  }

  /** `to_dict`: the host's fields without the ones that are `None`. */
  function ToDict(h: Host): (d: Value)
    ensures d.Dict?
  {
    Dict(NonNull(Fields(h)))
  }

  /** `to_dict` keeps a field exactly when it is not `None`, with its value;
      `tags` is therefore always there for a constructed host. */
  lemma ToDictOmitsNone(h: Host)
    ensures forall i | 0 <= i < 7 :: Fields(h)[i].0 in Keys(ToDict(h).entries) <==> !Fields(h)[i].1.Null?
    ensures forall e | e in ToDict(h).entries :: e in Fields(h)
  {
    var fs := Fields(h);
    assert DistinctKeys(fs) by {
      assert Keys(fs) == ["label", "address", "port", "username", "ssh_key", "group", "tags"];
      forall i, j | 0 <= i < j < |fs| ensures fs[i].0 != fs[j].0 {
        assert Keys(fs)[i] == fs[i].0 && Keys(fs)[j] == fs[j].0;
      }
    }
    NonNullKeys(fs);
  }

  lemma TagsAlwaysPresent(labelValue: Value, address: Value, port: Value, username: Value, sshKey: Value,
                          group: Value, tags: Value)
    ensures "tags" in Keys(ToDict(NewHost(labelValue, address, port, username, sshKey, group, tags)).entries)
  {
    var h := NewHost(labelValue, address, port, username, sshKey, group, tags);
    ToDictOmitsNone(h);
    assert Fields(h)[6].0 == "tags";
  }

  /** `asdict(group)`: `parent` is present even when it is `None`. */
  function GroupDict(g: Group): (d: Value)
    ensures d.Dict? && Keys(d.entries) == ["label", "parent"]
  {
    Dict([("label", Str(g.labelText)), ("parent", match g.parent case Some(p) => Str(p) case None => Null)])
  }

  /** `create_blackroad_groups` */
  function BlackRoadGroups(): (gs: seq<Group>)
    ensures |gs| == 4
  {
    [Group("BlackRoad", None), Group("Pi Cluster", Some("BlackRoad")),
     Group("Cloud Servers", Some("BlackRoad")), Group("Development", Some("BlackRoad"))]
  }

  /** One root group and three children of it. */
  lemma GroupHierarchy()
    ensures var gs := BlackRoadGroups();
      gs[0].labelText == "BlackRoad" && gs[0].parent.None? &&
      forall i | 1 <= i < 4 :: gs[i].parent == Some("BlackRoad") && gs[i].labelText != "BlackRoad"
  {
  }

  const PiTags: Value := List([Str("blackroad"), Str("raspberry-pi"), Str("cluster")])

  /** The `i`-th host of `create_pi_cluster_hosts`; a missing `host` raises. */
  function PiHostAt(i: nat, host: seq<(string, Value)>, username: string): (r: Result<Host>)
    ensures r.Ok? <==> "host" in Keys(host)
    ensures r.Ok? ==>
      r.value.address == Get(host, "host").value &&
      r.value.labelValue == GetOr(host, "name", Str("pi-" + NatToString(i))) &&
      r.value.port == GetOr(host, "port", Int(22)) &&
      r.value.username == Str(username) && r.value.sshKey == GetOr(host, "ssh_key", Null) &&
      r.value.group == Str("Pi Cluster") && r.value.tags == PiTags
  {
    match Get(host, "host")
    case None => Err("KeyError: 'host'")
    case Some(address) =>
      Ok(NewHost(GetOr(host, "name", Str("pi-" + NatToString(i))), address, GetOr(host, "port", Int(22)),
                 Str(username), GetOr(host, "ssh_key", Null), Str("Pi Cluster"), PiTags))
  }

  /** `create_pi_cluster_hosts`: one host per dictionary, in order. */
  function PiClusterHosts(hosts: seq<seq<(string, Value)>>, username: string): (r: Result<seq<Host>>)
    ensures r.Ok? ==> |r.value| == |hosts|
  {
    Collect(seq(|hosts|, i requires 0 <= i < |hosts| => PiHostAt(i, hosts[i], username)))
  }

  /** The builder succeeds exactly when every dictionary has a `host`, and
      then builds the `i`-th host from the `i`-th dictionary. */
  lemma PiClusterHostsEach(hosts: seq<seq<(string, Value)>>, username: string)
    ensures PiClusterHosts(hosts, username).Ok? <==> forall i | 0 <= i < |hosts| :: "host" in Keys(hosts[i])
    ensures PiClusterHosts(hosts, username).Ok? ==>
      forall i | 0 <= i < |hosts| :: PiClusterHosts(hosts, username).value[i] == PiHostAt(i, hosts[i], username).value
  {
    var rs := seq(|hosts|, i requires 0 <= i < |hosts| => PiHostAt(i, hosts[i], username));
    assert PiClusterHosts(hosts, username) == Collect(rs);
    forall i | 0 <= i < |hosts| ensures rs[i].Ok? <==> "host" in Keys(hosts[i]) {
      assert rs[i] == PiHostAt(i, hosts[i], username);
    }
    CollectEach(rs);
  }

  /** The `i`-th host of `create_cloud_hosts`; a missing `ip` raises. */
  function CloudHostAt(provider: string, i: nat, host: seq<(string, Value)>): (r: Result<Host>)
    ensures r.Ok? <==> "ip" in Keys(host)
    ensures r.Ok? ==>
      r.value.address == Get(host, "ip").value &&
      r.value.labelValue == GetOr(host, "name", Str(provider + "-" + NatToString(i))) &&
      r.value.port == GetOr(host, "port", Int(22)) &&
      r.value.username == GetOr(host, "username", Str("root")) && r.value.sshKey == GetOr(host, "ssh_key", Null) &&
      r.value.group == Str("Cloud Servers") && r.value.tags == List([Str("blackroad"), Str(Lower(provider))])
  {
    match Get(host, "ip")
    case None => Err("KeyError: 'ip'")
    case Some(address) =>
      Ok(NewHost(GetOr(host, "name", Str(provider + "-" + NatToString(i))), address, GetOr(host, "port", Int(22)),
                 GetOr(host, "username", Str("root")), GetOr(host, "ssh_key", Null), Str("Cloud Servers"),
                 List([Str("blackroad"), Str(Lower(provider))])))
  }

  /** `create_cloud_hosts`: one host per dictionary, in order. */
  function CloudHosts(provider: string, hosts: seq<seq<(string, Value)>>): (r: Result<seq<Host>>)
    ensures r.Ok? ==> |r.value| == |hosts|
  {
    Collect(seq(|hosts|, i requires 0 <= i < |hosts| => CloudHostAt(provider, i, hosts[i])))
  }

  lemma CloudHostsEach(provider: string, hosts: seq<seq<(string, Value)>>)
    ensures CloudHosts(provider, hosts).Ok? <==> forall i | 0 <= i < |hosts| :: "ip" in Keys(hosts[i])
    ensures CloudHosts(provider, hosts).Ok? ==>
      forall i | 0 <= i < |hosts| :: CloudHosts(provider, hosts).value[i] == CloudHostAt(provider, i, hosts[i]).value
  {
    var rs := seq(|hosts|, i requires 0 <= i < |hosts| => CloudHostAt(provider, i, hosts[i]));
    assert CloudHosts(provider, hosts) == Collect(rs);
    forall i | 0 <= i < |hosts| ensures rs[i].Ok? <==> "ip" in Keys(hosts[i]) {
      assert rs[i] == CloudHostAt(provider, i, hosts[i]);
    }
    CollectEach(rs);
  }

  /** `generate_sync_manifest` */
  function Manifest(groups: seq<Group>, hosts: seq<Host>, generated: string): (m: Value)
    ensures m.Dict?
  {
    Dict([("version", Str("1.0")),
          ("generated", Str(generated)),
          ("source", Str("blackroad-backup-automator")),
          ("groups", List(seq(|groups|, i requires 0 <= i < |groups| => GroupDict(groups[i])))),
          ("hosts", List(seq(|hosts|, i requires 0 <= i < |hosts| => ToDict(hosts[i])))),
          ("metadata", Dict([("total_groups", Int(|groups|)), ("total_hosts", Int(|hosts|))]))])
  }

  /** The metadata counts the groups and hosts, and the hosts are listed
      through `to_dict` in order. */
  lemma ManifestCounts(groups: seq<Group>, hosts: seq<Host>, generated: string)
    ensures var m := Manifest(groups, hosts, generated).entries;
      var meta := Get(m, "metadata");
      meta.Some? && meta.value.Dict? &&
      Get(meta.value.entries, "total_groups") == Some(Int(|groups|)) &&
      Get(meta.value.entries, "total_hosts") == Some(Int(|hosts|))
    ensures var hs := Get(Manifest(groups, hosts, generated).entries, "hosts");
      hs.Some? && hs.value.List? && |hs.value.elems| == |hosts| &&
      forall i | 0 <= i < |hosts| :: hs.value.elems[i] == ToDict(hosts[i])
  {
    var m := Manifest(groups, hosts, generated).entries;
    assert m[..5][4].0 == "hosts";
    var meta := Dict([("total_groups", Int(|groups|)), ("total_hosts", Int(|hosts|))]);
    assert meta.entries[..1] == [("total_groups", Int(|groups|))];
  }

  function GetenvOr(env: Env, name: string, default: string): string {
    if name in env then env[name] else default
  }

  /** The four Pi hosts of `create_default_infrastructure`, each address
      overridable from the environment. */
  function DefaultPis(env: Env): seq<seq<(string, Value)>> {
    [[("name", Str("pi-master")), ("host", Str(GetenvOr(env, "PI_MASTER_HOST", "192.168.1.100")))],
     [("name", Str("pi-worker-1")), ("host", Str(GetenvOr(env, "PI_WORKER_1_HOST", "192.168.1.101")))],
     [("name", Str("pi-worker-2")), ("host", Str(GetenvOr(env, "PI_WORKER_2_HOST", "192.168.1.102")))],
     [("name", Str("pi-worker-3")), ("host", Str(GetenvOr(env, "PI_WORKER_3_HOST", "192.168.1.103")))]]
  }

  /** The hosts of the default infrastructure: the Pi cluster, then a
      DigitalOcean host when `DO_SERVER_IP` is set to a true value. */
  function DefaultHosts(env: Env): Result<seq<Host>> {
    match PiClusterHosts(DefaultPis(env), "pi")
    case Err(e) => Err(e)
    case Ok(pis) =>
      var ip := Getenv(env, "DO_SERVER_IP");
      if Truthy(ip) then
        match CloudHosts("digitalocean", [[("name", Str("do-primary")), ("ip", Str(ip.value))]])
        case Err(e) => Err(e)
        case Ok(dos) => Ok(pis + dos)
      else Ok(pis)
  }

  /** `create_default_infrastructure` */
  function DefaultInfrastructure(env: Env, generated: string): Result<Value> {
    match DefaultHosts(env)
    case Err(e) => Err(e)
    case Ok(hosts) => Ok(Manifest(BlackRoadGroups(), hosts, generated))
  }

  lemma DefaultPiHosts(env: Env)
    ensures var r := PiClusterHosts(DefaultPis(env), "pi");
      r.Ok? && |r.value| == 4 &&
      forall i | 0 <= i < 4 :: r.value[i].group == Str("Pi Cluster") && r.value[i].username == Str("pi")
  {
    var pis := DefaultPis(env);
    forall i | 0 <= i < 4 ensures "host" in Keys(pis[i]) {
      assert Keys(pis[i]) == Keys(pis[i][..1]) + [pis[i][1].0];
    }
    PiClusterHostsEach(pis, "pi");
  }

  lemma DropletHost(ip: string)
    ensures var r := CloudHosts("digitalocean", [[("name", Str("do-primary")), ("ip", Str(ip))]]);
      r.Ok? && |r.value| == 1 && r.value[0].address == Str(ip) && r.value[0].group == Str("Cloud Servers")
  {
    var dos := [[("name", Str("do-primary")), ("ip", Str(ip))]];
    assert Keys(dos[0]) == Keys(dos[0][..1]) + [dos[0][1].0];
    assert Get(dos[0], "ip") == Some(Str(ip));
    CloudHostsEach("digitalocean", dos);
  }

  /** The default infrastructure always builds: four Pi hosts in the
      `Pi Cluster` group, and a fifth DigitalOcean host exactly when
      `DO_SERVER_IP` is set. */
  lemma DefaultInfrastructureHosts(env: Env, generated: string)
    ensures DefaultHosts(env).Ok?
    ensures var hosts := DefaultHosts(env).value;
      |hosts| == (if Truthy(Getenv(env, "DO_SERVER_IP")) then 5 else 4) &&
      (forall i | 0 <= i < 4 :: hosts[i].group == Str("Pi Cluster") && hosts[i].username == Str("pi"))
    ensures Truthy(Getenv(env, "DO_SERVER_IP")) ==>
      DefaultHosts(env).value[4].address == Str(env["DO_SERVER_IP"]) &&
      DefaultHosts(env).value[4].group == Str("Cloud Servers")
    ensures DefaultInfrastructure(env, generated) == Ok(Manifest(BlackRoadGroups(), DefaultHosts(env).value, generated))
  {
    DefaultPiHosts(env);
    var ip := Getenv(env, "DO_SERVER_IP");
    if Truthy(ip) {
      DropletHost(ip.value);
    }
  }
}
