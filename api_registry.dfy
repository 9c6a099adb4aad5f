/** `APIRegistry` of integrations/apis/base.py: a table from names to client
    classes in registration order, a memoised table of instances, and a
    health sweep that turns each failure into an unhealthy entry without
    disturbing the others.

    The Python registry keeps both tables as class attributes, so there is
    one per process; here it is an object. */
module ApiRegistry {
  import opened Text
  import opened PyValue
  import opened ApiBase

  /** What a class registered at run time does when the registry calls it:
      its constructor's exception text, if it raises, and its `health_check`. */
  datatype ForeignCode = ForeignCode(
    construct: string -> Option<string>,
    probe: string -> Result<HealthCheckResult>)

  /** Everything a health sweep consults outside the registry: whether the
      `requests` library imported, the network, the environment, what a
      Salesforce login does, the encoders, and the classes registered at
      run time. */
  datatype World = World(available: bool, transport: Transport, env: Env, login: LoginOutcome,
                         enc: Encoders, foreign: ForeignCode)

  /** The names and classes the registry starts with, in this order. */
  const DefaultOrder: seq<string> := ["cloudflare", "salesforce", "vercel", "digitalocean", "claude", "github"]

  const DefaultApis: map<string, Service> :=
    map["cloudflare" := Cloudflare, "salesforce" := Salesforce, "vercel" := Vercel,
        "digitalocean" := DigitalOcean, "claude" := Claude, "github" := GitHub]

  /** The entry `health_check_all` records for a name: the check's result, or
      an unhealthy entry whose endpoint is the name and whose error is the
      exception's text. */
  function Isolate(name: string, outcome: Result<HealthCheckResult>): (h: HealthCheckResult)
    ensures outcome.Ok? ==> h == outcome.value
    ensures outcome.Err? ==> !h.healthy && h.endpoint == name && h.statusCode.None? && h.error == Some(outcome.error)
  {
    match outcome
    case Ok(res) => res
    case Err(e) => HealthCheckResult(name, false, None, Some(e))
  }

  /** `health_check` of a client the registry made, on its configuration: a
      class registered at run time answers for itself and changes nothing, a
      built-in one runs its own check. */
  function ClientOutcome(cfg: ClientConfig, w: World): (r: (Result<HealthCheckResult>, ClientConfig))
    ensures cfg.service.Foreign? ==> r == (w.foreign.probe(cfg.service.className), cfg)
    ensures !cfg.service.Foreign? ==> (r.0.Err? <==> NeedsLogin(cfg) && LoginRaises(w.available, w.env, w.login))
    ensures !cfg.service.Foreign? && r.0.Ok? ==> r.0.value == Probe(w.available, r.1, w.transport, w.enc)
    ensures !NeedsLogin(cfg) ==> r.1 == cfg
  {
    if cfg.service.Foreign? then (w.foreign.probe(cfg.service.className), cfg)
    else HealthSpec(cfg, w.available, w.transport, w.env, w.login, w.enc)
  }

  /** `health_check` of a client the registry made. */
  method ProbeClient(client: Client, w: World) returns (outcome: Result<HealthCheckResult>)
    modifies client
    ensures (outcome, client.Config()) == ClientOutcome(old(client.Config()), w)
  {
    if client.service.Foreign? {
      outcome := w.foreign.probe(client.service.className);
    } else {
      outcome := client.HealthCheck(w.available, w.transport, w.env, w.login, w.enc);
    }
  }

  predicate Distinct(s: seq<string>) {
    forall i, j | 0 <= i < j < |s| :: s[i] != s[j]
  }

  /** The configuration of the client `get` returns for `name` when the
      instances made so far have configurations `configs`, or the exception
      it raises: a cached instance as it is, an unknown name, a run-time
      class whose constructor raises, or a fresh instance of the class. */
  function GetSpec(name: string, apis: map<string, Service>, configs: map<string, ClientConfig>, env: Env,
                   foreign: ForeignCode): (r: Result<ClientConfig>)
    ensures name in configs ==> r == Ok(configs[name])
    ensures name !in configs && name !in apis ==> r == Err("Unknown API: " + name)
    ensures r.Err? <==> name !in configs &&
                         (name !in apis || (apis[name].Foreign? && foreign.construct(apis[name].className).Some?))
    ensures name !in configs && name in apis && r.Ok? ==> r.value == CreatedConfig(apis[name], None, env)
  {
    if name in configs then Ok(configs[name])
    else if name !in apis then Err("Unknown API: " + name)
    else if apis[name].Foreign? && foreign.construct(apis[name].className).Some? then
      Err(foreign.construct(apis[name].className).value)
    else Ok(CreatedConfig(apis[name], None, env))
  }

  /** One step of the sweep for `name`: `get` and then `health_check`, with
      an exception from either as `Err`, and the instances' configurations
      afterwards. Only `name`'s instance can be added or changed. */
  function CheckSpec(name: string, apis: map<string, Service>, configs: map<string, ClientConfig>,
                     w: World): (r: (Result<HealthCheckResult>, map<string, ClientConfig>))
    ensures forall n | n != name :: (n in r.1 <==> n in configs) && (n in configs ==> r.1[n] == configs[n])
    ensures name in r.1 <==> GetSpec(name, apis, configs, w.env, w.foreign).Ok?
    ensures name !in configs && name !in apis ==> r.0 == Err("Unknown API: " + name)
  {
    match GetSpec(name, apis, configs, w.env, w.foreign)
    case Err(e) => (Err(e), configs)
    case Ok(cfg) =>
      var (outcome, after) := ClientOutcome(cfg, w);
      (outcome, configs[name := after])
  }

  lemma CheckSpecErr(name: string, apis: map<string, Service>, configs: map<string, ClientConfig>,
                     w: World)
    requires GetSpec(name, apis, configs, w.env, w.foreign).Err?
    ensures CheckSpec(name, apis, configs, w) ==
            (Err(GetSpec(name, apis, configs, w.env, w.foreign).error), configs)
  {
  }

  lemma CheckSpecOk(name: string, apis: map<string, Service>, configs: map<string, ClientConfig>,
                    w: World,
                    cfg: ClientConfig)
    requires GetSpec(name, apis, configs, w.env, w.foreign) == Ok(cfg)
    ensures var (outcome, after) := ClientOutcome(cfg, w);
      CheckSpec(name, apis, configs, w) == (outcome, configs[name := after])
  {
  }

  /** A step for a registered built-in class: a fresh client other than
      Salesforce always completes with its verdict on its probe, and a fresh
      Salesforce client raises exactly when its login raises; a cached
      client that needs no login probes with its configuration as it is. */
  lemma CheckSpecBuiltIn(name: string, apis: map<string, Service>, configs: map<string, ClientConfig>, w: World)
    ensures name !in configs && name in apis && !apis[name].Foreign? && apis[name] != Salesforce ==>
              CheckSpec(name, apis, configs, w).0 ==
              Ok(Probe(w.available, CreatedConfig(apis[name], None, w.env), w.transport, w.enc))
    ensures name !in configs && name in apis && apis[name] == Salesforce ==>
              (CheckSpec(name, apis, configs, w).0.Err? <==> LoginRaises(w.available, w.env, w.login))
    ensures name in configs && !configs[name].service.Foreign? && !NeedsLogin(configs[name]) ==>
              CheckSpec(name, apis, configs, w).0 == Ok(Probe(w.available, configs[name], w.transport, w.enc))
  {
    if name !in configs && name in apis && !apis[name].Foreign? {
      HealthSpecLogin(CreatedConfig(apis[name], None, w.env), w.available, w.transport, w.env, w.login, w.enc);
    }
    if name in configs && !configs[name].service.Foreign? {
      HealthSpecLogin(configs[name], w.available, w.transport, w.env, w.login, w.enc);
    }
  }

  lemma UpdateTwice<K, V>(m: map<K, V>, k: K, a: V, b: V)
    ensures m[k := a][k := b] == m[k := b]
  {
  }

  /** The outcome of `name`'s step depends on its own instance alone. */
  lemma CheckSpecLocal(name: string, apis: map<string, Service>, c1: map<string, ClientConfig>,
                       c2: map<string, ClientConfig>, w: World)
    requires (name in c1 <==> name in c2) && (name in c1 ==> c1[name] == c2[name])
    ensures CheckSpec(name, apis, c1, w).0 ==
            CheckSpec(name, apis, c2, w).0
  {
  }

  /** What `health_check_all` produced: the entries, the outcome behind each,
      and the instances' configurations afterwards. */
  datatype Sweep = Sweep(results: seq<(string, HealthCheckResult)>, outcomes: seq<Result<HealthCheckResult>>,
                         configs: map<string, ClientConfig>)

  /** The sweep over `names` in order, each entry the name's outcome with a
      failure isolated. */
  function SweepSpec(names: seq<string>, apis: map<string, Service>, configs: map<string, ClientConfig>,
                     w: World): (s: Sweep)
    ensures |s.results| == |names| == |s.outcomes|
    ensures forall i | 0 <= i < |names| :: s.results[i] == (names[i], Isolate(names[i], s.outcomes[i]))
  {
    if names == [] then Sweep([], [], configs)
    else
      var n := |names| - 1;
      var prev := SweepSpec(names[..n], apis, configs, w);
      var (outcome, after) := CheckSpec(names[n], apis, prev.configs, w);
      Sweep(prev.results + [(names[n], Isolate(names[n], outcome))], prev.outcomes + [outcome], after)
  }

  lemma SweepSnoc(names: seq<string>, i: nat, apis: map<string, Service>, configs: map<string, ClientConfig>,
                  w: World)
    requires i < |names|
    ensures var prev := SweepSpec(names[..i], apis, configs, w);
      var (outcome, after) := CheckSpec(names[i], apis, prev.configs, w);
      SweepSpec(names[..i + 1], apis, configs, w) ==
      Sweep(prev.results + [(names[i], Isolate(names[i], outcome))], prev.outcomes + [outcome], after)
  {
    assert names[..i + 1][..i] == names[..i];
  }

  /** A sweep touches only the instances of the names it visits. */
  lemma {:induction false} SweepFrame(names: seq<string>, apis: map<string, Service>, configs: map<string, ClientConfig>,
                                      w: World, m: string)
    requires m !in names
    ensures var s := SweepSpec(names, apis, configs, w);
      (m in s.configs <==> m in configs) && (m in configs ==> s.configs[m] == configs[m])
  {
    if names != [] {
      var n := |names| - 1;
      assert m !in names[..n];
      SweepFrame(names[..n], apis, configs, w, m);
    }
  }

  /** Isolation: over distinct names, each name's outcome is what its own
      step gives from the instances as they were before the sweep, so no
      other name's check, whether it raised or not, changes its entry. */
  lemma {:induction false} SweepIsolated(names: seq<string>, apis: map<string, Service>, configs: map<string, ClientConfig>,
                                         w: World)
    requires Distinct(names)
    ensures var s := SweepSpec(names, apis, configs, w);
      forall i | 0 <= i < |names| ::
        s.outcomes[i] == CheckSpec(names[i], apis, configs, w).0
  {
    if names != [] {
      var n := |names| - 1;
      var init := names[..n];
      assert Distinct(init);
      SweepIsolated(init, apis, configs, w);
      assert names[n] !in init;
      SweepFrame(init, apis, configs, w, names[n]);
      var prev := SweepSpec(init, apis, configs, w);
      CheckSpecLocal(names[n], apis, prev.configs, configs, w);
      forall i | 0 <= i < n
        ensures SweepSpec(names, apis, configs, w).outcomes[i] ==
                CheckSpec(names[i], apis, configs, w).0
      {
        assert init[i] == names[i];
      }
    }
  }

  /** The entry a name gets in a sweep of distinct names is the entry it
      gets when swept alone. */
  lemma SweepAlone(names: seq<string>, apis: map<string, Service>, configs: map<string, ClientConfig>,
                   w: World, i: nat)
    requires Distinct(names) && i < |names|
    ensures SweepSpec(names, apis, configs, w).results[i] ==
            SweepSpec([names[i]], apis, configs, w).results[0]
  {
    SweepIsolated(names, apis, configs, w);
    assert [names[i]][..0] == [];
  }

  /** Names whose step raises get an unhealthy entry with the exception's
      text, and every other name keeps its completed result. */
  lemma SweepFailuresIsolated(names: seq<string>, apis: map<string, Service>, configs: map<string, ClientConfig>,
                              w: World)
    requires Distinct(names)
    ensures var s := SweepSpec(names, apis, configs, w);
      forall i | 0 <= i < |names| ::
        var step := CheckSpec(names[i], apis, configs, w).0;
        && (step.Err? ==> s.results[i] == (names[i], HealthCheckResult(names[i], false, None, Some(step.error))))
        && (step.Ok? ==> s.results[i] == (names[i], step.value))
  {
    SweepIsolated(names, apis, configs, w);
  }

  /** No two names share an instance. */
  predicate Injective(instances: map<string, Client>) {
    forall m, n | m in instances && n in instances && m != n :: instances[m] != instances[n]
  }

  /** The registry's invariant: every registered name is listed once, every
      instance belongs to a registered name, and no two names share one. */
  ghost predicate RegistryInvariant(order: seq<string>, apis: map<string, Service>,
                                    instances: map<string, Client>, repr: set<object>)
  {
    Distinct(order) && (forall n :: n in apis <==> n in order) && instances.Keys <= apis.Keys &&
    (forall n | n in instances :: instances[n] in repr) && Injective(instances)
  }

  /** Caching a new instance for a registered name keeps the invariant. */
  lemma InvariantAdd(order: seq<string>, apis: map<string, Service>,
                     instances: map<string, Client>, repr: set<object>, name: string, c: Client)
    requires RegistryInvariant(order, apis, instances, repr)
    requires name in apis && name !in instances && c !in repr
    ensures RegistryInvariant(order, apis, instances[name := c], repr + {c})
  {
  }

  /** Calling a registered class with no arguments: a built-in class's own
      constructor, or a foreign subclass of `BaseAPI` with its defaults. */
  method NewClient(service: Service, env: Env) returns (c: Client)
    ensures fresh(c) && c.service == service && c.Config() == CreatedConfig(service, None, env)
  {
    if service.Foreign? {
      c := new Client.Base(service, None, None, None, 30, 3, 1.0, env);
    } else {
      c := new Client.Create(service, None, env);
    }
  }

  class Registry {
    /** `_apis` */
    var apis: map<string, Service>
    /** the key order of `_apis` */
    var order: seq<string>
    /** `_instances` */
    var instances: map<string, Client>
    /** the clients the registry has made */
    ghost var Repr: set<Client>

    /** Each name has its own instance: a class is called once per name. */
    ghost predicate Valid()
      reads this
    {
      RegistryInvariant(order, apis, instances, Repr)
    }

    /** The configurations of the instances made so far. */
    function Configs(): map<string, ClientConfig>
      reads this, instances.Values
    {
      map n | n in instances :: instances[n].Config()
    }

    constructor ()
      ensures Valid()
      ensures apis == DefaultApis && order == DefaultOrder && instances == map[]
    {
      apis := DefaultApis;
      order := DefaultOrder;
      instances := map[];
      Repr := {};
    }

    /** `register`: the class under `name` is replaced or added at the end
        of the order; an instance already made under that name is kept. */
    method Register(name: string, service: Service)
      requires Valid()
      modifies this
      ensures Valid()
      ensures apis == old(apis)[name := service]
      ensures order == if name in old(apis) then old(order) else old(order) + [name]
      ensures instances == old(instances) && Repr == old(Repr)
    {
      if name !in apis {
        order := order + [name];
      }
      apis := apis[name := service];
    }

    /** `list_apis` */
    method ListApis() returns (names: seq<string>)
      requires Valid()
      ensures names == order
      ensures forall n :: n in names <==> n in apis
    {
      names := order;
    }

    /** `get`: a cached instance is returned as it is; an unknown name raises
        and changes nothing; otherwise the class is called once and the new
        instance cached. */
    method Get(name: string, env: Env, foreign: ForeignCode) returns (r: Result<Client>)
      requires Valid()
      modifies this
      ensures Valid() && apis == old(apis) && order == old(order)
      ensures r.Ok? <==> GetSpec(name, old(apis), old(Configs()), env, foreign).Ok?
      ensures r.Err? ==> r.error == GetSpec(name, old(apis), old(Configs()), env, foreign).error && instances == old(instances)
      ensures r.Ok? ==> r.value.Config() == GetSpec(name, old(apis), old(Configs()), env, foreign).value
      ensures r.Ok? ==> instances == old(instances)[name := r.value] && r.value in Repr
      ensures name in old(instances) ==> r == Ok(old(instances)[name]) && instances == old(instances)
      ensures name !in old(instances) && name in apis && !(apis[name].Foreign? && foreign.construct(apis[name].className).Some?) ==>
                r.Ok? && fresh(r.value) && r.value.service == apis[name] &&
                r.value.Config() == CreatedConfig(apis[name], None, env)
      ensures Configs() == if r.Ok? then old(Configs())[name := r.value.Config()] else old(Configs())
      ensures old(Repr) <= Repr && fresh(Repr - old(Repr))
    {
      if name !in instances {
        if name !in apis {
          return Err("Unknown API: " + name);
        }
        var service := apis[name];
        if service.Foreign? {
          var raised := foreign.construct(service.className);
          if raised.Some? {
            return Err(raised.value);
          }
        }
        var c := Instantiate(name, env);
      }
      r := Ok(instances[name]);
    }

    /** Calling the class registered under `name` and caching the instance. */
    method Instantiate(name: string, env: Env) returns (c: Client)
      requires Valid() && name !in instances && name in apis
      modifies this
      ensures Valid() && apis == old(apis) && order == old(order)
      ensures fresh(c) && c.service == apis[name] && c.Config() == CreatedConfig(apis[name], None, env)
      ensures instances == old(instances)[name := c] && Repr == old(Repr) + {c}
      ensures Configs() == old(Configs())[name := c.Config()]
    {
      ghost var before := Configs();
      c := NewClient(apis[name], env);
      InvariantAdd(order, apis, instances, Repr, name, c);
      instances := instances[name := c];
      Repr := Repr + {c};
      ConfigsUpdate(before, name);
    }

    /** The configurations after the instance under `name` alone was added
        or changed. */
    lemma ConfigsUpdate(before: map<string, ClientConfig>, name: string)
      requires name in instances && instances.Keys == before.Keys + {name}
      requires forall n | n in instances && n != name :: before[n] == instances[n].Config()
      ensures Configs() == before[name := instances[name].Config()]
    {
    }

    /** One step of the sweep: `get` and then `health_check`, with an
        exception from either as `Err`. */
    method CheckOne(name: string, w: World) returns (outcome: Result<HealthCheckResult>)
      requires Valid()
      modifies this, Repr
      ensures Valid() && apis == old(apis) && order == old(order)
      ensures (outcome, Configs()) == CheckSpec(name, old(apis), old(Configs()), w)
      ensures old(Repr) <= Repr && fresh(Repr - old(Repr))
    {
      ghost var c0 := Configs();
      var api := Get(name, w.env, w.foreign);
      if api.Err? {
        CheckSpecErr(name, apis, c0, w);
        return Err(api.error);
      }
      ghost var cfg := api.value.Config();
      CheckSpecOk(name, apis, c0, w, cfg);
      outcome := ProbeInstance(name, w);
      UpdateTwice(c0, name, cfg, ClientOutcome(cfg, w).1);
    }

    /** `health_check` of the instance under `name`; no other instance and
        nothing of the registry changes. */
    method ProbeInstance(name: string, w: World) returns (outcome: Result<HealthCheckResult>)
      requires Valid() && name in instances
      modifies instances[name]
      ensures var (o, after) := ClientOutcome(old(Configs())[name], w);
        outcome == o && Configs() == old(Configs())[name := after]
    {
      ghost var before := Configs();
      var client := instances[name];
      assert forall n | n in instances && n != name :: instances[n] != client;
      outcome := ProbeClient(client, w);
      ConfigsUpdate(before, name);
    }

    /** `health_check_all`: one entry per registered name, in registration
        order; the ghost `outcomes` are what each `get` and `health_check`
        produced. */
    method HealthCheckAll(w: World)
      returns (results: seq<(string, HealthCheckResult)>, ghost outcomes: seq<Result<HealthCheckResult>>)
      requires Valid()
      modifies this, Repr
      ensures Valid() && apis == old(apis) && order == old(order)
      ensures results == SweepSpec(old(order), old(apis), old(Configs()), w).results
      ensures var s := SweepSpec(old(order), old(apis), old(Configs()), w);
        outcomes == s.outcomes && Configs() == s.configs
    {
      ghost var configs0 := Configs();
      results, outcomes := [], [];
      var i := 0;
      while i < |order|
        invariant Valid() && apis == old(apis) && order == old(order)
        invariant 0 <= i <= |order|
        invariant SweepSpec(order[..i], apis, configs0, w)
                  == Sweep(results, outcomes, Configs())
        invariant old(Repr) <= Repr && fresh(Repr - old(Repr))
      {
        results, outcomes := SweepNext(i, configs0, results, outcomes, w);
        i := i + 1;
      }
      assert order[..i] == order;
    }

    /** One iteration of the sweep: the entry for `order[i]` is appended. */
    method SweepNext(i: nat, ghost configs0: map<string, ClientConfig>, results: seq<(string, HealthCheckResult)>,
                     ghost outcomes: seq<Result<HealthCheckResult>>, w: World)
      returns (results': seq<(string, HealthCheckResult)>, ghost outcomes': seq<Result<HealthCheckResult>>)
      requires Valid() && i < |order|
      requires SweepSpec(order[..i], apis, configs0, w)
               == Sweep(results, outcomes, Configs())
      modifies this, Repr
      ensures Valid() && apis == old(apis) && order == old(order)
      ensures SweepSpec(order[..i + 1], apis, configs0, w)
              == Sweep(results', outcomes', Configs())
      ensures old(Repr) <= Repr && fresh(Repr - old(Repr))
    {
      var name := order[i];
      var outcome := CheckOne(name, w);
      SweepSnoc(order, i, apis, configs0, w);
      results' := results + [(name, Isolate(name, outcome))];
      outcomes' := outcomes + [outcome];
    }
  }
}
