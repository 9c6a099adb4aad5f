/** The generic API client of integrations/apis/base.py: authentication
    headers, the request executor with its bounded retry loop and exponential
    backoff, the normalised response envelope, and each service's health rule.

    The HTTP transport is an oracle: for a request and a zero-based attempt
    number it says what that attempt produced (a response, a timeout, a
    connection error or another exception). Sleeping is recorded in a ghost
    log of delays instead of being performed. */
module ApiBase {
  import opened Text
  import opened PyValue

  type Headers = map<string, string>

  /** `os.environ` as the client constructors and Salesforce's login read it. */
  type Env = map<string, string>

  function Getenv(env: Env, name: string): Option<string> {
    if name in env then Some(env[name]) else None
  }

  /** What the body of a completed exchange became: `response.json()`, or
      `response.text` when that raised. */
  datatype Data = Parsed(json: Value) | RawText(text: string)

  /** `APIResponse` without its clock fields (`elapsed_ms`, `timestamp`). */
  datatype APIResponse = APIResponse(
    success: bool,
    statusCode: int,
    data: Option<Data>,
    error: Option<string>,
    headers: Headers)

  /** `HealthCheckResult` without its clock fields (`latency_ms`, `timestamp`). */
  datatype HealthCheckResult = HealthCheckResult(
    endpoint: string,
    healthy: bool,
    statusCode: Option<int>,
    error: Option<string>)

  /** What one call of `requests.request` did. `Response` carries what the code
      reads of the response: status, `ok`, the parsed body if `json()` succeeds,
      the text and the headers. The other three are the exceptions it catches,
      with `str(e)`. */
  datatype Outcome =
    | Response(status: int, ok: bool, json: Option<Value>, text: string, headers: Headers)
    | Timeout
    | ConnError(reason: string)
    | OtherError(reason: string)

  /** The arguments `_request` hands to `requests.request`. */
  datatype HttpRequest = HttpRequest(
    verb: string,
    url: string,
    json: Option<Value>,
    params: Option<Value>,
    headers: Headers,
    timeout: int)

  /** The network: what attempt number `i` of request `req` produces. */
  type Transport = (HttpRequest, nat) -> Outcome

  /** The standard encoders the client calls: base64 (section 4 of RFC 4648)
      for basic authentication, and Python's `str()` of a parsed JSON body. */
  datatype Encoders = Encoders(base64: ByteString -> string, pyStr: Value -> string)

  /** The concrete client classes. `Foreign` stands for a class registered at
      run time whose code is not part of this model, with its `auth_type`. */
  datatype Service =
    | Cloudflare
    | Salesforce
    | Vercel
    | DigitalOcean
    | Claude
    | GitHub
    | Foreign(className: string, authType: string)

  const ContentType := "application/json"
  const UserAgent := "BlackRoad-Backup-Automator/1.0"
  const AnthropicVersion := "2023-06-01"
  const SalesforceApiPath := "/services/data/v58.0"
  const NoTransportError := "requests library not installed"

  /** The class attribute `name`. */
  function ServiceName(s: Service): string {
    match s
    case Cloudflare => "cloudflare"
    case Salesforce => "salesforce"
    case Vercel => "vercel"
    case DigitalOcean => "digitalocean"
    case Claude => "claude"
    case GitHub => "github"
    case Foreign(_, _) => "base"
  }

  /** The class attribute `auth_type`. */
  function AuthType(s: Service): string {
    match s
    case Salesforce => "oauth2"
    case Claude => "x-api-key"
    case Foreign(_, authType) => authType
    case _ => "bearer"
  }

  /** The class attribute `base_url` (Salesforce computes its own). */
  function ClassBaseUrl(s: Service): string {
    match s
    case Cloudflare => "https://api.cloudflare.com/client/v4"
    case Vercel => "https://api.vercel.com"
    case DigitalOcean => "https://api.digitalocean.com/v2"
    case Claude => "https://api.anthropic.com/v1"
    case GitHub => "https://api.github.com"
    case _ => ""
  }

  /** The environment variable a built-in client takes its key from. */
  function KeyVariable(s: Service): Option<string> {
    match s
    case Cloudflare => Some("CLOUDFLARE_API_TOKEN")
    case Vercel => Some("VERCEL_TOKEN")
    case DigitalOcean => Some("DIGITALOCEAN_TOKEN")
    case Claude => Some("ANTHROPIC_API_KEY")
    case GitHub => Some("GITHUB_TOKEN")
    case _ => None
  }

  /** What `health_check` sends: verb, endpoint and body. */
  function ProbeVerb(s: Service): string {
    if s == Claude then "POST" else "GET"
  }

  function ProbeEndpoint(s: Service): string {
    match s
    case Cloudflare => "/user/tokens/verify"
    case Salesforce => "/sobjects"
    case Vercel => "/v2/user"
    case DigitalOcean => "/account"
    case Claude => "/messages"
    case GitHub => "/rate_limit"
    case Foreign(_, _) => ""
  }

  /** The minimal message Claude's probe posts. */
  const ClaudeProbeBody: Value :=
    Dict([("model", Str("claude-haiku-3-5-20241022")),
          ("max_tokens", Int(1)),
          ("messages", List([Dict([("role", Str("user")), ("content", Str("ping"))])]))])

  function ProbeBody(s: Service): Option<Value> {
    if s == Claude then Some(ClaudeProbeBody) else None
  }

  /** What the executor and the header construction read of a client. */
  datatype ClientConfig = ClientConfig(
    service: Service,
    apiKey: Option<string>,
    baseUrl: string,
    timeout: int,
    maxRetries: int,
    retryDelay: real,
    accessToken: Option<string>)

  // ------------------------------------------------------------ headers

  /** `BaseAPI._get_headers` with the two overrides: Salesforce replaces the
      authorisation with its OAuth2 access token once it has one, Claude adds
      its API version header. */
  function AuthHeaders(cfg: ClientConfig, enc: Encoders): (h: Headers)
    ensures "Content-Type" in h && "User-Agent" in h
    ensures h["Content-Type"] == ContentType && h["User-Agent"] == UserAgent
    ensures h.Keys <= {"Content-Type", "User-Agent", "Authorization", "x-api-key", "anthropic-version"}
    ensures ("anthropic-version" in h) <==> cfg.service == Claude
    ensures cfg.service == Claude ==> "anthropic-version" in h && h["anthropic-version"] == AnthropicVersion
    ensures ("x-api-key" in h) <==> Truthy(cfg.apiKey) && AuthType(cfg.service) == "x-api-key"
    ensures "x-api-key" in h ==> h["x-api-key"] == cfg.apiKey.value
    ensures cfg.service == Salesforce && Truthy(cfg.accessToken) ==>
              "Authorization" in h && h["Authorization"] == "Bearer " + cfg.accessToken.value
    ensures !(cfg.service == Salesforce && Truthy(cfg.accessToken)) ==>
              (("Authorization" in h) <==> Truthy(cfg.apiKey) && AuthType(cfg.service) in {"bearer", "basic"})
    ensures !(cfg.service == Salesforce && Truthy(cfg.accessToken)) && Truthy(cfg.apiKey) ==>
              (AuthType(cfg.service) == "bearer" ==>
                 "Authorization" in h && h["Authorization"] == "Bearer " + cfg.apiKey.value) &&
              (AuthType(cfg.service) == "basic" ==>
                 "Authorization" in h && h["Authorization"] == "Basic " + enc.base64(Encode(cfg.apiKey.value)))
  {
    var base := DefaultHeaders(cfg.apiKey, AuthType(cfg.service), enc);
    match cfg.service
    case Salesforce =>
      if Truthy(cfg.accessToken) then base["Authorization" := "Bearer " + cfg.accessToken.value] else base
    case Claude => base["anthropic-version" := AnthropicVersion]
    case _ => base
  }

  /** The base class's rule: the two fixed headers, and then the header the
      auth type calls for when there is a non-empty key; any other auth type
      adds nothing. */
  function DefaultHeaders(apiKey: Option<string>, authType: string, enc: Encoders): (h: Headers)
    ensures "Content-Type" in h && "User-Agent" in h
    ensures h["Content-Type"] == ContentType && h["User-Agent"] == UserAgent
    ensures !Truthy(apiKey) || authType !in {"bearer", "x-api-key", "basic"} ==>
              h == map["Content-Type" := ContentType, "User-Agent" := UserAgent]
    ensures Truthy(apiKey) && authType == "bearer" ==>
              h == map["Content-Type" := ContentType, "User-Agent" := UserAgent,
                       "Authorization" := "Bearer " + apiKey.value]
    ensures Truthy(apiKey) && authType == "x-api-key" ==>
              h == map["Content-Type" := ContentType, "User-Agent" := UserAgent,
                       "x-api-key" := apiKey.value]
    ensures Truthy(apiKey) && authType == "basic" ==>
              h == map["Content-Type" := ContentType, "User-Agent" := UserAgent,
                       "Authorization" := "Basic " + enc.base64(Encode(apiKey.value))]
  {
    var headers := map["Content-Type" := ContentType, "User-Agent" := UserAgent];
    if !Truthy(apiKey) then headers
    else if authType == "bearer" then headers["Authorization" := "Bearer " + apiKey.value]
    else if authType == "x-api-key" then headers["x-api-key" := apiKey.value]
    else if authType == "basic" then headers["Authorization" := "Basic " + enc.base64(Encode(apiKey.value))]
    else headers
  }

  // ------------------------------------------------------------ URL

  /** `f"{base.rstrip('/')}/{endpoint.lstrip('/')}"`: the base up to its
      trailing slashes, exactly one slash, and the endpoint after its leading
      slashes. */
  function JoinUrl(base: string, endpoint: string): (url: string)
    ensures exists k, m | 0 <= k <= |base| && 0 <= m <= |endpoint| ::
              && url == base[..k] + "/" + endpoint[m..]
              && (k == 0 || base[k - 1] != '/') && (forall i | k <= i < |base| :: base[i] == '/')
              && (m == |endpoint| || endpoint[m] != '/') && (forall i | 0 <= i < m :: endpoint[i] == '/')
  {
    var b := RStrip(base, {'/'});
    var e := LStrip(endpoint, {'/'});
    var k := |b|;
    var m := |endpoint| - |e|;
    assert b == base[..k] && e == endpoint[m..];
    assert (k == 0 || base[k - 1] != '/') && (forall i | k <= i < |base| :: base[i] == '/');
    assert (m == |endpoint| || endpoint[m] != '/') && (forall i | 0 <= i < m :: endpoint[i] == '/');
    b + "/" + e
  }

  /** Slashes already at the join are absorbed: adding more never changes
      the URL, and a clean base and endpoint are joined by one slash. */
  lemma JoinUrlSlashes(base: string, endpoint: string)
    ensures JoinUrl(base + "/", "/" + endpoint) == JoinUrl(base, endpoint)
    ensures (|base| == 0 || base[|base| - 1] != '/') && (|endpoint| == 0 || endpoint[0] != '/') ==>
              JoinUrl(base, endpoint) == base + "/" + endpoint
  {
    assert (base + "/")[..|base + "/"| - 1] == base;
    assert ("/" + endpoint)[1..] == endpoint;
  }

  // ------------------------------------------------------------ executor

  function Pow2(k: nat): (r: nat)
    ensures r >= 1
  {
    if k == 0 then 1 else 2 * Pow2(k - 1)
  }

  /** The sleep after failed attempt `i`: `retry_delay * 2 ** i`. */
  function SleepTime(delay: real, i: nat): real {
    delay * (Pow2(i) as real)
  }

  /** The first `k` sleeps of the backoff schedule. */
  function Backoff(delay: real, k: nat): (r: seq<real>)
    ensures |r| == k
    ensures forall i | 0 <= i < k :: r[i] == SleepTime(delay, i)
  {
    if k == 0 then [] else Backoff(delay, k - 1) + [SleepTime(delay, k - 1)]
  }

  function SumReals(s: seq<real>): real {
    if s == [] then 0.0 else SumReals(s[..|s| - 1]) + s[|s| - 1]
  }

  /** `retry_delay * (2 ** k - 1)`: the closed form of `k` backoff sleeps. */
  function BackoffSum(delay: real, k: nat): real {
    delay * ((Pow2(k) - 1) as real)
  }

  lemma BackoffNext(delay: real, k: nat)
    ensures Backoff(delay, k + 1) == Backoff(delay, k) + [SleepTime(delay, k)]
  {
  }

  /** Sleeping `k` times costs `retry_delay * (2 ** k - 1)` in all. */
  lemma {:induction false} BackoffTotal(delay: real, k: nat)
    ensures SumReals(Backoff(delay, k)) == BackoffSum(delay, k)
  {
    if k > 0 {
      assert Backoff(delay, k)[..k - 1] == Backoff(delay, k - 1);
      BackoffTotal(delay, k - 1);
      SleepStep(delay, k);
    }
  }

  lemma SleepStep(delay: real, k: nat)
    requires k > 0
    ensures BackoffSum(delay, k - 1) + SleepTime(delay, k - 1) == BackoffSum(delay, k)
  {
    var p := Pow2(k - 1) as real;
    assert (Pow2(k) - 1) as real == (p - 1.0) + p;
    assert delay * (p - 1.0) + delay * p == delay * ((p - 1.0) + p);
  }

  /** The first attempt in `[i, n)` that produced a response, if any. */
  function FirstResponse(t: Transport, req: HttpRequest, i: nat, n: int): (r: Option<nat>)
    ensures r.Some? ==> i <= r.value < n && t(req, r.value).Response?
    ensures r.Some? ==> forall j | i <= j < r.value :: !t(req, j).Response?
    ensures r.None? ==> forall j | i <= j < n :: !t(req, j).Response?
    decreases n - i
  {
    if i >= n then None
    else if t(req, i).Response? then Some(i)
    else FirstResponse(t, req, i + 1, n)
  }

  /** An attempt preceded only by exceptions is the first response. */
  lemma {:induction false} FirstResponseAt(t: Transport, req: HttpRequest, i: nat, n: int, k: nat)
    requires i <= k < n && t(req, k).Response?
    requires forall j | i <= j < k :: !t(req, j).Response?
    ensures FirstResponse(t, req, i, n) == Some(k)
    decreases k - i
  {
    if i < k {
      FirstResponseAt(t, req, i + 1, n, k);
    }
  }

  /** With no response in `[i, n)` there is no first response. */
  lemma {:induction false} FirstResponseNone(t: Transport, req: HttpRequest, i: nat, n: int)
    requires forall j | i <= j < n :: !t(req, j).Response?
    ensures FirstResponse(t, req, i, n) == None
    decreases n - i
  {
    if i < n {
      FirstResponseNone(t, req, i + 1, n);
    }
  }

  /** The `last_error` text an exception leaves. */
  function AttemptError(o: Outcome): string {
    match o
    case Timeout => "Request timed out"
    case ConnError(reason) => "Connection error: " + reason
    case OtherError(reason) => "Request failed: " + reason
    case Response(_, _, _, _, _) => ""
  }

  /** `str(response_data)` */
  function DataText(d: Data, enc: Encoders): string {
    match d
    case Parsed(v) => enc.pyStr(v)
    case RawText(s) => s
  }

  function BodyOf(o: Outcome): Data
    requires o.Response?
  {
    if o.json.Some? then Parsed(o.json.value) else RawText(o.text)
  }

  /** The envelope for a completed HTTP exchange: `success` is `response.ok`,
      and the error text is present exactly when it is not. */
  function FromResponse(o: Outcome, enc: Encoders): (r: APIResponse)
    requires o.Response?
    ensures r.success == o.ok && r.statusCode == o.status && r.headers == o.headers
    ensures r.data == Some(BodyOf(o))
    ensures r.error.None? <==> o.ok
    ensures !o.ok ==> r.error == Some(DataText(BodyOf(o), enc))
  {
    var data := BodyOf(o);
    APIResponse(o.ok, o.status, Some(data), if o.ok then None else Some(DataText(data, enc)), o.headers)
  }

  /** The envelope after the attempts ran out: status 0 and the last error. */
  function Exhausted(lastError: Option<string>): APIResponse {
    APIResponse(false, 0, None, lastError, map[])
  }

  /** What `_request` sends for a client, a verb, an endpoint, a body, query
      parameters and caller headers (the latter win on a key conflict). */
  function BuildRequest(cfg: ClientConfig, verb: string, endpoint: string, data: Option<Value>,
                        params: Option<Value>, headers: Option<Headers>, enc: Encoders): (req: HttpRequest)
    ensures req.url == JoinUrl(cfg.baseUrl, endpoint) && req.verb == Upper(verb)
    ensures req.json == data && req.params == params && req.timeout == cfg.timeout
    ensures headers.Some? ==> forall k | k in headers.value :: k in req.headers && req.headers[k] == headers.value[k]
    ensures forall k | k in AuthHeaders(cfg, enc) && (headers.None? || k !in headers.value) ::
              k in req.headers && req.headers[k] == AuthHeaders(cfg, enc)[k]
    ensures req.headers.Keys == AuthHeaders(cfg, enc).Keys + (if headers.Some? then headers.value.Keys else {})
  {
    var extra := if headers.Some? then headers.value else map[];
    HttpRequest(Upper(verb), JoinUrl(cfg.baseUrl, endpoint), data, params, AuthHeaders(cfg, enc) + extra, cfg.timeout)
  }

  /** A run of `_request`: the envelope returned, the number of attempts made
      and the delays slept, in order. */
  datatype Execution = Execution(response: APIResponse, attempts: nat, sleeps: seq<real>)

  /** How many sleeps follow `done` failed attempts out of `n`: every failed
      attempt but the last one sleeps. */
  function SleepsAfter(done: nat, n: int): nat {
    if done < n then done else if n > 0 then n - 1 else 0
  }

  /** The specification of `_request`. Without a transport it answers at once.
      Otherwise attempts `0 .. max_retries-1` run until one produces a
      response, which is returned as it is (a 4xx or 5xx is not retried);
      every exception is retried, with a backoff sleep after each failed
      attempt but the last. */
  function Execute(available: bool, cfg: ClientConfig, req: HttpRequest, t: Transport, enc: Encoders): Execution {
    if !available then Execution(Exhausted(Some(NoTransportError)), 0, [])
    else
      match FirstResponse(t, req, 0, cfg.maxRetries)
      case Some(k) => Execution(FromResponse(t(req, k), enc), k + 1, Backoff(cfg.retryDelay, k))
      case None =>
        var n: nat := if cfg.maxRetries > 0 then cfg.maxRetries else 0;
        Execution(Exhausted(if n == 0 then None else Some(AttemptError(t(req, n - 1)))),
                  n, Backoff(cfg.retryDelay, SleepsAfter(n, cfg.maxRetries)))
  }

  /** Attempts stay within `max_retries`, each attempt but the last is
      followed by exactly one sleep, and a successful envelope carries no
      error. */
  lemma ExecuteBounds(available: bool, cfg: ClientConfig, req: HttpRequest, t: Transport, enc: Encoders)
    ensures var x := Execute(available, cfg, req, t, enc);
      && x.attempts <= (if cfg.maxRetries > 0 then cfg.maxRetries else 0)
      && |x.sleeps| == (if x.attempts == 0 then 0 else x.attempts - 1)
      && (x.response.success ==> x.response.error.None?)
  {
  }

  /** The first attempt that yields a response ends the call, whatever its
      status: no retry follows a 4xx or 5xx. */
  lemma ResponseEndsCall(cfg: ClientConfig, req: HttpRequest, t: Transport, enc: Encoders, k: nat)
    requires k < cfg.maxRetries && t(req, k).Response?
    requires forall j | 0 <= j < k :: !t(req, j).Response?
    ensures var x := Execute(true, cfg, req, t, enc);
      && x.attempts == k + 1
      && x.response.success == t(req, k).ok
      && x.response.statusCode == t(req, k).status
      && (x.response.error.None? <==> t(req, k).ok)
      && x.sleeps == Backoff(cfg.retryDelay, k)
  {
    FirstResponseAt(t, req, 0, cfg.maxRetries, k);
  }

  /** When no attempt yields a response, exactly `max_retries` attempts are
      made, `max_retries - 1` sleeps totalling `retry_delay * (2 ** (max_retries-1) - 1)`
      happen, and the envelope has status 0 and the last attempt's error. */
  lemma AllAttemptsFail(cfg: ClientConfig, req: HttpRequest, t: Transport, enc: Encoders)
    requires cfg.maxRetries > 0
    requires forall j | 0 <= j < cfg.maxRetries :: !t(req, j).Response?
    ensures var x := Execute(true, cfg, req, t, enc);
      && x.attempts == cfg.maxRetries
      && x.response == APIResponse(false, 0, None, Some(AttemptError(t(req, cfg.maxRetries - 1))), map[])
      && |x.sleeps| == cfg.maxRetries - 1
      && SumReals(x.sleeps) == BackoffSum(cfg.retryDelay, cfg.maxRetries - 1)
  {
    AllAttemptsFailRun(cfg, req, t, enc);
    AllAttemptsSleepTotal(cfg, req, t, enc);
  }

  lemma AllAttemptsSleepTotal(cfg: ClientConfig, req: HttpRequest, t: Transport, enc: Encoders)
    requires cfg.maxRetries > 0
    requires forall j | 0 <= j < cfg.maxRetries :: !t(req, j).Response?
    ensures SumReals(Execute(true, cfg, req, t, enc).sleeps) == BackoffSum(cfg.retryDelay, cfg.maxRetries - 1)
  {
    var k: nat := cfg.maxRetries - 1;
    AllAttemptsFailRun(cfg, req, t, enc);
    BackoffTotal(cfg.retryDelay, k);
  }

  lemma AllAttemptsFailRun(cfg: ClientConfig, req: HttpRequest, t: Transport, enc: Encoders)
    requires cfg.maxRetries > 0
    requires forall j | 0 <= j < cfg.maxRetries :: !t(req, j).Response?
    ensures Execute(true, cfg, req, t, enc) ==
            Execution(Exhausted(Some(AttemptError(t(req, cfg.maxRetries - 1)))), cfg.maxRetries,
                      Backoff(cfg.retryDelay, cfg.maxRetries - 1))
  {
    FirstResponseNone(t, req, 0, cfg.maxRetries);
  }

  /** With `max_retries <= 0` nothing is attempted and the error is `None`. */
  lemma NoAttemptsAllowed(cfg: ClientConfig, req: HttpRequest, t: Transport, enc: Encoders)
    requires cfg.maxRetries <= 0
    ensures Execute(true, cfg, req, t, enc) == Execution(APIResponse(false, 0, None, None, map[]), 0, [])
  {
  }

  /** Two timeouts and then a response: three attempts, sleeps of one and two
      delays, and the response's envelope. */
  lemma TwoTimeoutsThenResponse(cfg: ClientConfig, req: HttpRequest, t: Transport, enc: Encoders)
    requires cfg.maxRetries >= 3
    requires t(req, 0) == Timeout && t(req, 1) == Timeout && t(req, 2).Response?
    ensures var x := Execute(true, cfg, req, t, enc);
      && x.attempts == 3
      && x.response == FromResponse(t(req, 2), enc)
      && x.sleeps == [cfg.retryDelay, cfg.retryDelay * 2.0]
  {
    ResponseEndsCall(cfg, req, t, enc, 2);
    assert SleepTime(cfg.retryDelay, 0) == cfg.retryDelay && SleepTime(cfg.retryDelay, 1) == cfg.retryDelay * 2.0;
    assert Backoff(cfg.retryDelay, 2) == [SleepTime(cfg.retryDelay, 0), SleepTime(cfg.retryDelay, 1)];
  }

  // ------------------------------------------------------------ health

  /** Each service's `health_check` verdict on the probe's envelope. Claude
      counts 200, 400, 401 and 429 as healthy (the API answered) and then
      drops the error; every other service is healthy iff the call succeeded. */
  function Verdict(s: Service, baseUrl: string, resp: APIResponse): (h: HealthCheckResult)
    ensures h.endpoint == baseUrl + ProbeEndpoint(s) && h.statusCode == Some(resp.statusCode)
    ensures s == Claude ==> (h.healthy <==> resp.statusCode in {200, 400, 401, 429})
    ensures s == Claude ==> h.error == if h.healthy then None else resp.error
    ensures s != Claude ==> h.healthy == resp.success && h.error == resp.error
  {
    if s == Claude then
      var healthy := resp.statusCode in {200, 400, 401, 429};
      HealthCheckResult(baseUrl + ProbeEndpoint(s), healthy, Some(resp.statusCode),
                        if healthy then None else resp.error)
    else
      HealthCheckResult(baseUrl + ProbeEndpoint(s), resp.success, Some(resp.statusCode), resp.error)
  }

  /** A Claude probe rejected with 401 is healthy, a 404 is not, even though
      both envelopes report failure. */
  lemma ClaudeCountsRejectionsAsUp(baseUrl: string, e: Option<string>)
    ensures Verdict(Claude, baseUrl, APIResponse(false, 401, None, e, map[])).healthy
    ensures Verdict(Claude, baseUrl, APIResponse(false, 401, None, e, map[])).error.None?
    ensures !Verdict(Claude, baseUrl, APIResponse(false, 404, None, e, map[])).healthy
    ensures !Verdict(GitHub, baseUrl, APIResponse(false, 401, None, e, map[])).healthy
  {
  }

  /** The request a probe sends. */
  function ProbeRequest(cfg: ClientConfig, enc: Encoders): HttpRequest {
    BuildRequest(cfg, ProbeVerb(cfg.service), ProbeEndpoint(cfg.service), ProbeBody(cfg.service), None, None, enc)
  }

  /** `health_check` of a built-in client once any authentication is done. */
  function Probe(available: bool, cfg: ClientConfig, t: Transport, enc: Encoders): HealthCheckResult {
    Verdict(cfg.service, cfg.baseUrl, Execute(available, cfg, ProbeRequest(cfg, enc), t, enc).response)
  }

  /** What Salesforce's password-grant login did: a token and instance URL;
      a rejection; an exception before the token is stored (the network, a
      body that is not JSON, a body without `access_token`); or a body with
      `access_token` but without `instance_url`, which raises after the token
      has been stored. */
  datatype LoginOutcome =
    | LoginOk(accessToken: string, instanceUrl: string)
    | LoginRejected
    | LoginRaised(error: string)
    | LoginRaisedAfterToken(accessToken: string, error: string)

  /** `os.getenv('SF_PASSWORD') + ...` when the variable is unset. */
  const PasswordUnsetError := "unsupported operand type(s) for +: 'NoneType' and 'str'"

  /** The exception `authenticate` lets escape, if any. */
  predicate LoginRaises(available: bool, env: Env, login: LoginOutcome) {
    available && ("SF_PASSWORD" !in env || login.LoginRaised? || login.LoginRaisedAfterToken?)
  }

  /** Salesforce's `authenticate` on a client configuration: its answer or
      exception, and the configuration it leaves. Only the access token and
      the base URL can change; the token is kept even when the instance URL
      is missing from the body. */
  function Login(cfg: ClientConfig, available: bool, env: Env, login: LoginOutcome): (r: (Result<bool>, ClientConfig))
    ensures r.1.(accessToken := cfg.accessToken, baseUrl := cfg.baseUrl) == cfg
    ensures r.0.Err? <==> LoginRaises(available, env, login)
    ensures r.0 == Ok(true) <==> available && "SF_PASSWORD" in env && login.LoginOk?
    ensures available && "SF_PASSWORD" !in env ==> r == (Err(PasswordUnsetError), cfg)
    ensures r.1 != cfg ==> available && "SF_PASSWORD" in env && (login.LoginOk? || login.LoginRaisedAfterToken?)
    ensures available && "SF_PASSWORD" in env && login.LoginOk? ==>
              r.1.accessToken == Some(login.accessToken) && r.1.baseUrl == login.instanceUrl + SalesforceApiPath
    ensures available && "SF_PASSWORD" in env && login.LoginRaisedAfterToken? ==>
              r == (Err(login.error), cfg.(accessToken := Some(login.accessToken)))
  {
    if !available then (Ok(false), cfg)
    else if "SF_PASSWORD" !in env then (Err(PasswordUnsetError), cfg)
    else
      match login
      case LoginOk(token, inst) => (Ok(true), cfg.(accessToken := Some(token), baseUrl := inst + SalesforceApiPath))
      case LoginRejected => (Ok(false), cfg)
      case LoginRaised(e) => (Err(e), cfg)
      case LoginRaisedAfterToken(token, e) => (Err(e), cfg.(accessToken := Some(token)))
  }

  /** Whether `health_check` logs in first: a Salesforce client without a
      (non-empty) token. */
  predicate NeedsLogin(cfg: ClientConfig) {
    cfg.service == Salesforce && !Truthy(cfg.accessToken)
  }

  /** `health_check` of a built-in client with configuration `cfg`: the check's
      result or the exception that escaped, and the configuration it leaves.
      The boolean `authenticate` answers is ignored: a login that is rejected,
      or skipped for want of the library, is followed by the probe all the
      same. */
  function HealthSpec(cfg: ClientConfig, available: bool, t: Transport, env: Env, login: LoginOutcome,
                      enc: Encoders): (r: (Result<HealthCheckResult>, ClientConfig))
    ensures r.0.Err? <==> NeedsLogin(cfg) && LoginRaises(available, env, login)
    ensures r.0.Err? ==> r.0.error == Login(cfg, available, env, login).0.error
    ensures r.0.Ok? ==> r.0.value == Probe(available, r.1, t, enc)
    ensures r.1 == if NeedsLogin(cfg) then Login(cfg, available, env, login).1 else cfg
  {
    if NeedsLogin(cfg) then
      var (answer, after) := Login(cfg, available, env, login);
      (if answer.Err? then Err(answer.error) else Ok(Probe(available, after, t, enc)), after)
    else (Ok(Probe(available, cfg, t, enc)), cfg)
  }

  /** A client that needs no login, or whose login does not raise, always
      completes its check; a Salesforce login that is rejected probes with the
      configuration as it was, and a successful one probes the returned
      instance with the new token. */
  lemma HealthSpecLogin(cfg: ClientConfig, available: bool, t: Transport, env: Env, login: LoginOutcome, enc: Encoders)
    ensures !NeedsLogin(cfg) ==> HealthSpec(cfg, available, t, env, login, enc) == (Ok(Probe(available, cfg, t, enc)), cfg)
    ensures NeedsLogin(cfg) && available && "SF_PASSWORD" in env && login.LoginRejected? ==>
              HealthSpec(cfg, available, t, env, login, enc) == (Ok(Probe(available, cfg, t, enc)), cfg)
    ensures NeedsLogin(cfg) && !available ==>
              HealthSpec(cfg, available, t, env, login, enc) == (Ok(Probe(false, cfg, t, enc)), cfg)
    ensures NeedsLogin(cfg) && available && "SF_PASSWORD" in env && login.LoginOk? ==>
              var after := cfg.(accessToken := Some(login.accessToken), baseUrl := login.instanceUrl + SalesforceApiPath);
              HealthSpec(cfg, available, t, env, login, enc) == (Ok(Probe(true, after, t, enc)), after)
  {
  }

  /** After a login that stored a token, a later check does not log in again
      unless the token is empty: the token kept by a login that then raised
      on a missing instance URL is used as it is. */
  lemma TokenKeptSkipsLogin(cfg: ClientConfig, available: bool, t: Transport, env: Env, token: string, e: string,
                            enc: Encoders)
    requires cfg.service == Salesforce && !Truthy(cfg.accessToken) && available && "SF_PASSWORD" in env
    requires token != ""
    ensures var (first, after) := HealthSpec(cfg, available, t, env, LoginRaisedAfterToken(token, e), enc);
      && first == Err(e)
      && !NeedsLogin(after)
      && forall login: LoginOutcome :: HealthSpec(after, available, t, env, login, enc) == (Ok(Probe(available, after, t, enc)), after)
  {
  }

  /** The configuration of a client class called with no arguments except
      possibly a key: timeout 30, 3 attempts, a 1 second base delay and no
      token. Salesforce takes its base URL from `SF_INSTANCE_URL` and has no
      key; the other classes read their key variable. */
  function CreatedConfig(service: Service, apiKey: Option<string>, env: Env): (cfg: ClientConfig)
    ensures cfg.service == service && cfg.timeout == 30 && cfg.maxRetries == 3 && cfg.retryDelay == 1.0
    ensures cfg.accessToken.None?
    ensures service == Salesforce ==>
              cfg.apiKey == Getenv(env, "") &&
              cfg.baseUrl == (if "SF_INSTANCE_URL" in env then env["SF_INSTANCE_URL"] else "") + SalesforceApiPath
    ensures service != Salesforce && Truthy(apiKey) ==> cfg.apiKey == apiKey
    ensures service != Salesforce && !Truthy(apiKey) && KeyVariable(service).Some? ==>
              cfg.apiKey == Getenv(env, KeyVariable(service).value)
    ensures service != Salesforce ==> cfg.baseUrl == ClassBaseUrl(service)
  {
    if service == Salesforce then
      ClientConfig(service, Getenv(env, ""),
                   (if "SF_INSTANCE_URL" in env then env["SF_INSTANCE_URL"] else "") + SalesforceApiPath,
                   30, 3, 1.0, None)
    else
      var key := KeyVariable(service);
      ClientConfig(service, if Truthy(apiKey) then apiKey else Getenv(env, if key.Some? then key.value else ""),
                   ClassBaseUrl(service), 30, 3, 1.0, None)
  }

  /** A `BaseAPI` instance. The immutable settings are constants; the fields
      Salesforce's `authenticate` rewrites are variables. */
  class Client {
    const service: Service
    const apiKey: Option<string>
    const timeout: int
    const maxRetries: int
    const retryDelay: real
    const accountId: Option<string>
    var baseUrl: string
    var instanceUrl: string
    var accessToken: Option<string>

    function Config(): ClientConfig
      reads this
    {
      ClientConfig(service, apiKey, baseUrl, timeout, maxRetries, retryDelay, accessToken)
    }

    /** `BaseAPI.__init__`: the key is the explicit one if non-empty, else the
        environment variable's value; a non-empty `base_url` replaces the
        class default. */
    constructor Base(service: Service, apiKey: Option<string>, envVar: Option<string>,
                     baseUrl: Option<string>, timeout: int, maxRetries: int, retryDelay: real, env: Env)
      ensures this.service == service && this.timeout == timeout
      ensures this.maxRetries == maxRetries && this.retryDelay == retryDelay
      ensures this.apiKey == if Truthy(apiKey) then apiKey
                             else Getenv(env, if Truthy(envVar) then envVar.value else "")
      ensures this.baseUrl == if Truthy(baseUrl) then baseUrl.value else ClassBaseUrl(service)
      ensures this.accessToken.None? && this.accountId.None? && this.instanceUrl == ""
    {
      this.service := service;
      this.apiKey := if Truthy(apiKey) then apiKey
                     else Getenv(env, if Truthy(envVar) then envVar.value else "");
      this.baseUrl := if Truthy(baseUrl) then baseUrl.value else ClassBaseUrl(service);
      this.timeout := timeout;
      this.maxRetries := maxRetries;
      this.retryDelay := retryDelay;
      this.accountId := None;
      this.instanceUrl := "";
      this.accessToken := None;
    }

    /** A built-in service class called as the registry calls it, with no
        arguments: default timeout 30, 3 attempts, 1 second base delay.
        Salesforce builds its base URL from `SF_INSTANCE_URL` and has no key;
        Cloudflare also reads its account id. */
    constructor Create(service: Service, apiKey: Option<string>, env: Env)
      ensures this.service == service && this.timeout == 30 && this.maxRetries == 3 && this.retryDelay == 1.0
      ensures service != Salesforce ==>
                this.apiKey == (if Truthy(apiKey) then apiKey
                                else Getenv(env, if KeyVariable(service).Some? then KeyVariable(service).value else ""))
      ensures service != Salesforce ==> this.baseUrl == ClassBaseUrl(service)
      ensures service == Salesforce ==>
                && this.apiKey == Getenv(env, "")
                && this.instanceUrl == (if "SF_INSTANCE_URL" in env then env["SF_INSTANCE_URL"] else "")
                && this.baseUrl == this.instanceUrl + SalesforceApiPath
      ensures this.accountId == if service == Cloudflare then Getenv(env, "CLOUDFLARE_ACCOUNT_ID") else None
      ensures this.accessToken.None?
      ensures Config() == CreatedConfig(service, apiKey, env)
    {
      this.service := service;
      this.timeout := 30;
      this.maxRetries := 3;
      this.retryDelay := 1.0;
      this.accessToken := None;
      if service == Salesforce {
        var inst := if "SF_INSTANCE_URL" in env then env["SF_INSTANCE_URL"] else "";
        this.instanceUrl := inst;
        this.baseUrl := inst + SalesforceApiPath;
        this.apiKey := Getenv(env, "");
      } else {
        this.instanceUrl := "";
        this.baseUrl := ClassBaseUrl(service);
        var key := KeyVariable(service);
        this.apiKey := if Truthy(apiKey) then apiKey
                       else Getenv(env, if key.Some? then key.value else "");
      }
      this.accountId := if service == Cloudflare then Getenv(env, "CLOUDFLARE_ACCOUNT_ID") else None;
    }

    /** `_get_headers`, built by assignment as the source builds it. */
    method GetHeaders(enc: Encoders) returns (headers: Headers)
      ensures headers == AuthHeaders(Config(), enc)
    {
      headers := map["Content-Type" := ContentType, "User-Agent" := UserAgent];
      if Truthy(apiKey) {
        var authType := AuthType(service);
        if authType == "bearer" {
          headers := headers["Authorization" := "Bearer " + apiKey.value];
        } else if authType == "x-api-key" {
          headers := headers["x-api-key" := apiKey.value];
        } else if authType == "basic" {
          headers := headers["Authorization" := "Basic " + enc.base64(Encode(apiKey.value))];
        }
      }
      if service == Salesforce && Truthy(accessToken) {
        headers := headers["Authorization" := "Bearer " + accessToken.value];
      } else if service == Claude {
        headers := headers["anthropic-version" := AnthropicVersion];
      }
    }

    /** `_request`. `available` says whether the `requests` library imported;
        the ghost results are the number of attempts made and the delays
        slept. */
    method Request(available: bool, verb: string, endpoint: string, data: Option<Value>,
                   params: Option<Value>, headers: Option<Headers>, t: Transport, enc: Encoders)
      returns (r: APIResponse, ghost attempts: nat, ghost sleeps: seq<real>)
      ensures r == Execute(available, Config(), BuildRequest(Config(), verb, endpoint, data, params, headers, enc), t, enc).response
      ensures Execution(r, attempts, sleeps)
              == Execute(available, Config(), BuildRequest(Config(), verb, endpoint, data, params, headers, enc), t, enc)
    {
      if !available {
        return Exhausted(Some(NoTransportError)), 0, [];
      }
      var url := RStrip(baseUrl, {'/'}) + "/" + LStrip(endpoint, {'/'});
      var defaults := GetHeaders(enc);
      var reqHeaders := defaults + (if headers.Some? then headers.value else map[]);
      var req := HttpRequest(Upper(verb), url, data, params, reqHeaders, timeout);
      assert req == BuildRequest(Config(), verb, endpoint, data, params, headers, enc);
      r, attempts, sleeps := Attempts(req, t, enc);
    }

    /** The retry loop of `_request` for a prepared request. */
    method Attempts(req: HttpRequest, t: Transport, enc: Encoders)
      returns (r: APIResponse, ghost attempts: nat, ghost sleeps: seq<real>)
      ensures r == Execute(true, Config(), req, t, enc).response
      ensures Execution(r, attempts, sleeps) == Execute(true, Config(), req, t, enc)
    {
      var lastError: Option<string> := None;
      attempts, sleeps := 0, [];
      var attempt := 0;
      while attempt < maxRetries
        invariant 0 <= attempt <= (if maxRetries > 0 then maxRetries else 0)
        invariant attempts == attempt
        invariant forall j | 0 <= j < attempt :: !t(req, j).Response?
        invariant lastError == if attempt == 0 then None else Some(AttemptError(t(req, attempt - 1)))
        invariant sleeps == Backoff(retryDelay, SleepsAfter(attempt, maxRetries))
      {
        var outcome := t(req, attempt);
        attempts := attempts + 1;
        match outcome {
          case Response(status, ok, json, text, respHeaders) =>
            var body := if json.Some? then Parsed(json.value) else RawText(text);
            r := APIResponse(ok, status, Some(body), if ok then None else Some(DataText(body, enc)), respHeaders);
            FirstResponseAt(t, req, 0, maxRetries, attempt);
            assert r == FromResponse(outcome, enc);
            assert sleeps == Backoff(retryDelay, attempt);
            assert Execute(true, Config(), req, t, enc)
                   == Execution(FromResponse(outcome, enc), attempt + 1, Backoff(retryDelay, attempt));
            return;
          case Timeout =>
            lastError := Some("Request timed out");
          case ConnError(e) =>
            lastError := Some("Connection error: " + e);
          case OtherError(e) =>
            lastError := Some("Request failed: " + e);
        }
        assert sleeps == Backoff(retryDelay, attempt);
        if attempt < maxRetries - 1 {
          var sleepTime := SleepTime(retryDelay, attempt);
          BackoffNext(retryDelay, attempt);
          sleeps := sleeps + [sleepTime];
        }
        attempt := attempt + 1;
      }
      FirstResponseNone(t, req, 0, maxRetries);
      r := Exhausted(lastError);
      assert Execute(true, Config(), req, t, enc) == Execution(r, attempt, sleeps);
    }

    method Get(available: bool, endpoint: string, params: Option<Value>, t: Transport, enc: Encoders)
      returns (r: APIResponse, ghost attempts: nat, ghost sleeps: seq<real>)
      ensures r == Execute(available, Config(), BuildRequest(Config(), "GET", endpoint, None, params, None, enc), t, enc).response
      ensures Execution(r, attempts, sleeps)
              == Execute(available, Config(), BuildRequest(Config(), "GET", endpoint, None, params, None, enc), t, enc)
    {
      r, attempts, sleeps := Request(available, "GET", endpoint, None, params, None, t, enc);
    }

    method Post(available: bool, endpoint: string, data: Option<Value>, t: Transport, enc: Encoders)
      returns (r: APIResponse, ghost attempts: nat, ghost sleeps: seq<real>)
      ensures r == Execute(available, Config(), BuildRequest(Config(), "POST", endpoint, data, None, None, enc), t, enc).response
      ensures Execution(r, attempts, sleeps)
              == Execute(available, Config(), BuildRequest(Config(), "POST", endpoint, data, None, None, enc), t, enc)
    {
      r, attempts, sleeps := Request(available, "POST", endpoint, data, None, None, t, enc);
    }

    method Put(available: bool, endpoint: string, data: Option<Value>, t: Transport, enc: Encoders)
      returns (r: APIResponse, ghost attempts: nat, ghost sleeps: seq<real>)
      ensures r == Execute(available, Config(), BuildRequest(Config(), "PUT", endpoint, data, None, None, enc), t, enc).response
      ensures Execution(r, attempts, sleeps)
              == Execute(available, Config(), BuildRequest(Config(), "PUT", endpoint, data, None, None, enc), t, enc)
    {
      r, attempts, sleeps := Request(available, "PUT", endpoint, data, None, None, t, enc);
    }

    method Patch(available: bool, endpoint: string, data: Option<Value>, t: Transport, enc: Encoders)
      returns (r: APIResponse, ghost attempts: nat, ghost sleeps: seq<real>)
      ensures r == Execute(available, Config(), BuildRequest(Config(), "PATCH", endpoint, data, None, None, enc), t, enc).response
      ensures Execution(r, attempts, sleeps)
              == Execute(available, Config(), BuildRequest(Config(), "PATCH", endpoint, data, None, None, enc), t, enc)
    {
      r, attempts, sleeps := Request(available, "PATCH", endpoint, data, None, None, t, enc);
    }

    method Delete(available: bool, endpoint: string, t: Transport, enc: Encoders)
      returns (r: APIResponse, ghost attempts: nat, ghost sleeps: seq<real>)
      ensures r == Execute(available, Config(), BuildRequest(Config(), "DELETE", endpoint, None, None, None, enc), t, enc).response
      ensures Execution(r, attempts, sleeps)
              == Execute(available, Config(), BuildRequest(Config(), "DELETE", endpoint, None, None, None, enc), t, enc)
    {
      r, attempts, sleeps := Request(available, "DELETE", endpoint, None, None, None, t, enc);
    }

    /** Salesforce's `authenticate`, with the login exchange as an input.
        Without the library it answers false; an unset `SF_PASSWORD` raises
        before anything is sent; a successful login stores the token and
        moves the base URL to the returned instance; a body that has the
        token but no instance URL raises after the token is stored. */
    method Authenticate(available: bool, env: Env, login: LoginOutcome) returns (r: Result<bool>)
      modifies this
      ensures (r, Config()) == Login(old(Config()), available, env, login)
      ensures instanceUrl == if available && "SF_PASSWORD" in env && login.LoginOk? then login.instanceUrl
                             else old(instanceUrl)
      ensures !available ==> r == Ok(false) && unchanged(this)
      ensures available && "SF_PASSWORD" !in env ==> r == Err(PasswordUnsetError) && unchanged(this)
      ensures available && "SF_PASSWORD" in env ==>
        match login
        case LoginOk(token, inst) =>
          r == Ok(true) && accessToken == Some(token) && instanceUrl == inst && baseUrl == inst + SalesforceApiPath
        case LoginRejected => r == Ok(false) && unchanged(this)
        case LoginRaised(e) => r == Err(e) && unchanged(this)
        case LoginRaisedAfterToken(token, e) =>
          r == Err(e) && accessToken == Some(token) && instanceUrl == old(instanceUrl) && baseUrl == old(baseUrl)
    {
      if !available {
        return Ok(false);
      }
      if "SF_PASSWORD" !in env {
        return Err(PasswordUnsetError);
      }
      match login {
        case LoginOk(token, inst) =>
          accessToken := Some(token);
          instanceUrl := inst;
          baseUrl := inst + SalesforceApiPath;
          r := Ok(true);
        case LoginRejected =>
          r := Ok(false);
        case LoginRaised(e) =>
          r := Err(e);
        case LoginRaisedAfterToken(token, e) =>
          accessToken := Some(token);
          r := Err(e);
      }
    }

    /** `health_check` of a built-in client. Salesforce first logs in when it
        has no token, ignoring the answer, and an exception there escapes as
        `Err`; otherwise the result is the service's verdict on its probe. */
    method HealthCheck(available: bool, t: Transport, env: Env, login: LoginOutcome, enc: Encoders)
      returns (r: Result<HealthCheckResult>)
      requires !service.Foreign?
      modifies this
      ensures (r, Config()) == HealthSpec(old(Config()), available, t, env, login, enc)
      ensures r.Err? <==> service == Salesforce && !Truthy(old(accessToken)) && LoginRaises(available, env, login)
      ensures !(service == Salesforce && !Truthy(old(accessToken))) ==> unchanged(this)
      ensures instanceUrl == if service == Salesforce && !Truthy(old(accessToken)) && available &&
                                "SF_PASSWORD" in env && login.LoginOk? then login.instanceUrl
                             else old(instanceUrl)
    {
      if service == Salesforce && !Truthy(accessToken) {
        var authenticated := Authenticate(available, env, login);
        if authenticated.Err? {
          return Err(authenticated.error);
        }
      }
      var response, _, _ := Request(available, ProbeVerb(service), ProbeEndpoint(service),
                                    ProbeBody(service), None, None, t, enc);
      r := Ok(Verdict(service, baseUrl, response));
    }

    /** `is_healthy`: the `healthy` flag of `health_check`. */
    method IsHealthy(available: bool, t: Transport, env: Env, login: LoginOutcome, enc: Encoders)
      returns (r: Result<bool>)
      requires !service.Foreign?
      modifies this
      ensures var (check, after) := HealthSpec(old(Config()), available, t, env, login, enc);
        Config() == after && r == if check.Ok? then Ok(check.value.healthy) else Err(check.error)
    {
      var check := HealthCheck(available, t, env, login, enc);
      r := if check.Ok? then Ok(check.value.healthy) else Err(check.error);
    }
  }
}
