# BlackRoad backup automator, modelled in Dafny

This project models the deterministic core of the BlackRoad backup automator
and proves properties about it. That core is its generic API client, its
hashing library and the scripts around them. Each Python file is one Dafny
module:

| module | file | what it covers |
|---|---|---|
| `ApiBase` | `api_base.dfy` | `integrations/apis/base.py`: the client classes, authentication headers, URL joining, the request executor, the response envelope and each service's health rule |
| `ApiRegistry` | `api_registry.dfy` | `APIRegistry` of the same file: registration, memoised instances, and the health sweep |
| `HashLib` | `hash_lib.dfy` | `lib/hash.py`: the algorithm registry, `hash`, `hash_chain`, `hmac_hash`, config hashing, integrity checks, and manifests with their verification |
| `ValidatePr` | `validate_pr.dfy` | `scripts/validate_pr.py`: the nine pull-request checks, git info, the report, its hash, the summary and the exit status |
| `HealthCheck` | `health_check.dfy` | `scripts/health_check.py`: finding and loading the configuration, the SSH, HTTP, cloud, Pi-cluster and API checks, the report and the exit status |
| `SyncState` | `sync_state.dfy` | `scripts/sync_state.py`: state flattening, state records, the Cloudflare and Salesforce sync loops, the manifest, `full_sync` and the exit status |
| `TermiusSync` | `termius_sync.dfy` | `integrations/terminal/termius_sync.py`: group, host and manifest records, and the default infrastructure |
| `MobileTools` | `mobile_tools.dfy` | `integrations/mobile/mobile_tools.py`: Working Copy and Pyto URLs, action chains, Shellfish connection configurations, the tool list and the Working Copy workflow |
| `PyValue` | `pyvalue.dfy` | the Python values the scripts pass around, their sorted-key canonical form, and UTF-8 (RFC 3629) |
| `Text` | `text.dfy` | the `str` operations the scripts use: `startswith`, `in`, `split`, `join`, `rstrip`, `lstrip`, `replace`, `upper`, `lower`, slicing, and `str(int)` |

The code is modelled in the form it is written in:

- Loops become `while` loops with invariants. Each loop's method is proved
  equal to a specification function, and the properties are then lemmas
  about that function:
  - the retry loop of `_request`;
  - `hash_chain`, `create_manifest` and `verify_manifest`;
  - the file scans of the pull-request checks;
  - the sync loops;
  - `chain_actions`;
  - the Pi and cloud loops of the health checker.
- Objects whose fields change are classes with `modifies` clauses: the
  client, the API registry, the algorithm registry and the hasher.
- Comprehensions and builders are functions.

Everything outside the program's own logic is a parameter. A function-typed
input stands for each of these:

- the HTTP transport: for each attempt, a response, a timeout, a connection
  error or another exception;
- the digest functions, which are uninterpreted;
- HMAC as RFC 2104 defines it;
- base64 as section 4 of RFC 4648 defines it;
- percent-encoding (`quote`, `quote_plus`) as section 2.1 of RFC 3986
  defines it;
- JSON serialisation and `str()` of containers;
- what the Salesforce login exchange does (`ApiBase.LoginOutcome`): a token
  and instance URL, a rejection, an exception, or an exception raised after
  the token was stored;
- what classes registered at run time do (`ApiRegistry.ForeignCode`);
- the socket probe and the YAML loader;
- the file system and git output, passed in as values;
- the clock, passed in as values.

A health sweep reads all of its inputs from one value, `ApiRegistry.World`.
Object state is related to these specifications through its configurations:
`ApiBase.Client.Config` for one client and `ApiRegistry.Registry.Configs` for
every instance the registry holds.

Sorted-key JSON is a function of a value's canonical map form. The model
therefore cannot see the order in which a dictionary's keys were inserted.

With `max_retries` of 0 or less, `_request` makes no attempt, so its
envelope has `success` false and no error at all
(`integrations/apis/base.py:134-181`). The model returns the same envelope
(`ApiBase.NoAttemptsAllowed`). A failed envelope therefore does not always
carry an error.

Two quirks of the code are kept as written:

- The branch check tests `startswith(prefix) or branch == prefix`. The
  second clause adds nothing, so `mainline` and `developer` pass
  (`ValidatePr.ConventionExamples`).
- `chain_actions` is annotated as returning a string but returns a list of
  URLs. It is modelled as a list.

## Model

| member | source | states |
|---|---|---|
| ValidatePr.GetGitInfo | scripts/validate_pr.py:83-95 | the branch is the stripped output of `git rev-parse --abbrev-ref HEAD` when it exits 0, else `unknown`; the commit is the stripped hash cut to its first 8 characters when `git rev-parse HEAD` exits 0, else `unknown` |
| ValidatePr.ConventionIsPrefix | scripts/validate_pr.py:103-106 | a branch follows the convention exactly when it starts with one of the eight prefixes: the `branch == prefix` alternative never adds a case |
| ValidatePr.ConventionExamples | scripts/validate_pr.py:103-106 | prefixes are matched without a separator, so `mainline` and `developer` pass, while the fallback `unknown` fails |
| ValidatePr.CheckBranchNaming | scripts/validate_pr.py:97-114 | the result is named `branch_naming`, passes exactly when the branch follows the convention, and its details are the branch and the eight prefixes |
| ValidatePr.ConflictsEmpty | scripts/validate_pr.py:118-138 | no file is reported exactly when no listed path is a readable regular file containing one of the three conflict markers |
| ValidatePr.MergeResult | scripts/validate_pr.py:122-149 | the result is named `merge_conflicts` and passes exactly when the listing succeeded and no file was reported |
| ValidatePr.MergeConflictsPass | scripts/validate_pr.py:116-149 | the check fails whenever `git ls-files` fails, and otherwise passes exactly when no listed path holds a conflict marker |
| ValidatePr.ScanConflicts | scripts/validate_pr.py:130-138 | the loop over the listed paths collects exactly the conflicted paths, in listing order, skipping empty lines |
| ValidatePr.CheckNoMergeConflicts | scripts/validate_pr.py:116-149 | the check's result is the merge result for the listing's exit status and the conflicted listed paths |
| ValidatePr.RFind | scripts/validate_pr.py:176 | the index found holds the character and no later index does; nothing is found exactly when the character is absent |
| ValidatePr.Suffix | scripts/validate_pr.py:176 | a path's suffix is empty, or a dot followed by at least one character |
| ValidatePr.FirstPatternSpec | scripts/validate_pr.py:179-182 | the pattern recorded occurs in the content and no earlier pattern of the list does; nothing is recorded exactly when no pattern occurs |
| ValidatePr.FindDebugPattern | scripts/validate_pr.py:179-182 | the inner loop with its `break` returns the first debug pattern that occurs in the content |
| ValidatePr.DebugHitsEmpty | scripts/validate_pr.py:172-185 | nothing is recorded exactly when no listed path is a scanned-suffix file holding a debug pattern |
| ValidatePr.DebugHitsStep | scripts/validate_pr.py:172-185 | scanning one more listed path appends that path's entry, if it has one, at the end |
| ValidatePr.DebugResult | scripts/validate_pr.py:186-194 | the debug check always passes; its message is the clean one exactly when nothing was recorded; its details keep at most the first five entries |
| ValidatePr.DebugHitOf | scripts/validate_pr.py:173-185 | one path's loop body records the path and its first pattern exactly as the specification of an entry says |
| ValidatePr.ScanDebug | scripts/validate_pr.py:172-185 | the outer loop records exactly the entries of the listed paths, in listing order |
| ValidatePr.CheckNoDebugCode | scripts/validate_pr.py:151-194 | the check scans the staged listing, or every tracked file when `git diff --cached` fails, and reports that scan's entries |
| ValidatePr.CheckConfigHash | scripts/validate_pr.py:196-228 | the config check is named `config_hash` and fails only when the hasher is available, `config/` exists and hashing the directory raises |
| ValidatePr.MissingSpec | scripts/validate_pr.py:238-241 | `missing` holds only required names that do not exist, and every required name that does not exist is in it |
| ValidatePr.RequiredResult | scripts/validate_pr.py:243-250 | the result is named `required_files`, passes exactly when nothing is missing, and lists the required and the missing names |
| ValidatePr.CheckRequiredFiles | scripts/validate_pr.py:230-250 | the check's result is that of the names missing among README.md, LICENSE and AGENTS.md |
| ValidatePr.RequiredFilesPass | scripts/validate_pr.py:230-250 | the required-files check passes exactly when all three names exist |
| ValidatePr.LargeFilesEmpty | scripts/validate_pr.py:310-317 | no large file is reported exactly when no listed path is a file over 10MB |
| ValidatePr.LargeResult | scripts/validate_pr.py:319-326 | the result is named `large_files` and passes exactly when no file was reported |
| ValidatePr.LargeFilesPass | scripts/validate_pr.py:303-326 | the large-files check passes when `git ls-files` fails, and otherwise exactly when no listed file is over 10MB |
| ValidatePr.ScanLarge | scripts/validate_pr.py:310-317 | the loop reports exactly the listed files over 10MB, in order, each with its size |
| ValidatePr.CheckNoLargeFiles | scripts/validate_pr.py:303-326 | the check scans nothing when `git ls-files` fails, and otherwise reports the large listed files |
| ValidatePr.CommittedEnvSpec | scripts/validate_pr.py:341-345 | the committed names are exactly the `.env*` names of the root that are among the tracked paths |
| ValidatePr.SecretsResult | scripts/validate_pr.py:347-354 | the result is named `secrets_check` and passes exactly when no `.env*` file is committed |
| ValidatePr.CheckNoSecrets | scripts/validate_pr.py:328-354 | the check compares the root's `.env*` names with the tracked paths, and compares nothing when `git ls-files` fails |
| ValidatePr.SecretsPass | scripts/validate_pr.py:328-354 | the secrets check fails exactly when `git ls-files` succeeds and some `.env*` name of the root is tracked |
| ValidatePr.ReportHash | scripts/validate_pr.py:46-52 | the report hash is the first (at most 16) characters of the digest of the JSON of timestamp, branch, commit and check names |
| ValidatePr.ReportHashIgnoresOutcomes | scripts/validate_pr.py:46-52 | two check lists with the same names give the same report hash, whatever their outcomes and messages |
| ValidatePr.ReportHashLength | scripts/validate_pr.py:46-52 | with a 64-character digest the report hash has exactly 16 characters |
| ValidatePr.Checks | scripts/validate_pr.py:367-383 | `run_all_validations` produces exactly nine results |
| ValidatePr.CheckOrder | scripts/validate_pr.py:367-377 | the nine results carry the nine check names in the fixed order of the `checks` list |
| ValidatePr.ReportOf | scripts/validate_pr.py:385-395 | the report holds the nine results, is all-passed exactly when every result passed, carries `get_git_info`'s branch and commit, and its hash is the report hash of those |
| ValidatePr.RunCheck | scripts/validate_pr.py:380-383 | calling the `k`-th entry of the `checks` list gives that check's specified result |
| ValidatePr.RunAllValidations | scripts/validate_pr.py:356-402 | the loop over the checks followed by the report construction yields the specified report |
| ValidatePr.Summary | scripts/validate_pr.py:411-412 | the passed count is the number of checks that passed, the failed count is the rest, and nothing failed exactly when all passed |
| ValidatePr.ExitCode | scripts/validate_pr.py:447 | the exit status is 0 or 1, and 0 exactly when the report is all-passed |
| ValidatePr.ExitMatchesSummary | scripts/validate_pr.py:411-447 | the exit status is 0 exactly when the summary counts no failure |
| ApiBase.DefaultHeaders | integrations/apis/base.py:97-114 | the two fixed headers are always present; with a non-empty key, `bearer` adds `Authorization: Bearer <key>`, `x-api-key` adds `x-api-key: <key>`, `basic` adds `Authorization: Basic <base64 of the UTF-8 key>`; with no key or any other auth type nothing else is added |
| ApiBase.AuthHeaders | integrations/apis/base.py:287-291 | on top of the base rule, Salesforce's override replaces the authorisation with `Bearer <access token>` once it has a token, and Claude's adds `anthropic-version: 2023-06-01`; only Claude sends that header, and `x-api-key` is sent exactly when the key is non-empty and the auth type is `x-api-key` |
| ApiBase.JoinUrl | integrations/apis/base.py:131 | the URL is the base without all its trailing slashes, one slash, and the endpoint without all its leading slashes |
| ApiBase.JoinUrlSlashes | integrations/apis/base.py:131 | extra slashes at the join never change the URL, and a base and endpoint without slashes at the join are joined by exactly one |
| ApiBase.BuildRequest | integrations/apis/base.py:131-146 | the request carries the upper-cased verb, the joined URL, the body, the query parameters and the client's timeout; its headers are the client's headers overridden by the caller's on a key conflict |
| ApiBase.Backoff | integrations/apis/base.py:172-175 | the `k`-th sleep of the schedule is `retry_delay * 2 ** k` |
| ApiBase.BackoffTotal | integrations/apis/base.py:172-175 | `k` backoff sleeps add up to `retry_delay * (2 ** k - 1)` |
| ApiBase.FirstResponse | integrations/apis/base.py:135-162 | the first attempt that produced an HTTP response: every earlier attempt raised; when there is none, every attempt raised |
| ApiBase.FromResponse | integrations/apis/base.py:149-162 | a completed exchange's envelope has `success == response.ok`, the response's status and headers, the parsed body (or the text when parsing fails), and an error exactly when the response is not ok, namely `str` of the body |
| ApiBase.ExecuteBounds | integrations/apis/base.py:134-181 | at most `max_retries` attempts are made, every attempt but the last is followed by exactly one sleep, and a successful envelope carries no error |
| ApiBase.ResponseEndsCall | integrations/apis/base.py:135-162 | the first attempt that yields a response ends the call after `k + 1` attempts and `k` backoff sleeps, with that response's `ok` and status and an error exactly when it is not ok, so a 4xx or 5xx is never retried |
| ApiBase.AllAttemptsFail | integrations/apis/base.py:164-181 | when every attempt raises, `max_retries` attempts and `max_retries - 1` sleeps happen, totalling `retry_delay * (2 ** (max_retries - 1) - 1)`, and the envelope has status 0, no data and the last attempt's error |
| ApiBase.AllAttemptsSleepTotal | integrations/apis/base.py:164-181 | when every attempt raises, the sleeps add up to `retry_delay * (2 ** (max_retries - 1) - 1)` |
| ApiBase.AllAttemptsFailRun | integrations/apis/base.py:164-181 | when every attempt raises, the run is the exhausted envelope with the last error, `max_retries` attempts and the first `max_retries - 1` backoff sleeps |
| ApiBase.NoAttemptsAllowed | integrations/apis/base.py:134-181 | with `max_retries <= 0` no attempt and no sleep happen, and the envelope has status 0 and no error |
| ApiBase.TwoTimeoutsThenResponse | integrations/apis/base.py:135-175 | two timeouts followed by a response make three attempts, sleep `retry_delay` and then `2 * retry_delay`, and return that response's envelope |
| ApiBase.Verdict | integrations/apis/base.py:386-393 | Claude is healthy exactly when the status is 200, 400, 401 or 429 and then reports no error; every other service is healthy exactly when the call succeeded and reports the call's error; the endpoint is the base URL plus the probe path |
| ApiBase.ClaudeCountsRejectionsAsUp | integrations/apis/base.py:383-393 | a failed Claude probe with status 401 is healthy and reports no error, a 404 is not healthy, and a 401 leaves GitHub unhealthy |
| ApiBase.Client.Base | integrations/apis/base.py:81-95 | the key is the explicit one when non-empty, else the named environment variable's value; a non-empty `base_url` replaces the class default; timeout, attempts and delay are stored as given |
| ApiBase.Client.Create | integrations/apis/base.py:213-226 | a built-in service created with no arguments has timeout 30, 3 attempts and a 1 second delay, takes its key from its environment variable, and Cloudflare reads its account id; Salesforce instead builds its base URL from `SF_INSTANCE_URL` |
| ApiBase.Client.GetHeaders | integrations/apis/base.py:97-114 | the headers built by assignment are the specified authentication headers of the client |
| ApiBase.Client.Request | integrations/apis/base.py:116-181 | `_request` returns, and records as attempts and sleeps, exactly the specified run of the built request; without the `requests` library it answers at once with status 0 and "requests library not installed" |
| ApiBase.Client.Attempts | integrations/apis/base.py:134-181 | the retry loop makes the specified attempts, sleeps the specified backoff and returns the specified envelope, leaving the client unchanged |
| ApiBase.Client.Get | integrations/apis/base.py:183-185 | `get` is `_request` with `GET`, the query parameters and no body |
| ApiBase.Client.Post | integrations/apis/base.py:187-189 | `post` is `_request` with `POST` and the body |
| ApiBase.Client.Put | integrations/apis/base.py:191-193 | `put` is `_request` with `PUT` and the body |
| ApiBase.Client.Patch | integrations/apis/base.py:195-197 | `patch` is `_request` with `PATCH` and the body |
| ApiBase.Client.Delete | integrations/apis/base.py:199-201 | `delete` is `_request` with `DELETE` and no body |
| ApiBase.Login | integrations/apis/base.py:264-285 | the login raises exactly when the library imported and `SF_PASSWORD` is unset or the exchange raised, with the `NoneType` concatenation error when unset; it answers true exactly when the library imported, the password is set and the login succeeded; a successful login stores the token and moves the base URL to the returned instance; a reply without `instance_url` raises with the token already stored; nothing but the token and base URL ever changes |
| ApiBase.Client.Authenticate | integrations/apis/base.py:264-285 | the outcome and the new configuration are the login's; the instance URL changes only on a successful login; a reply without `instance_url` stores the token and leaves the instance and base URLs as they were |
| ApiBase.HealthSpec | integrations/apis/base.py:293-304 | a health check raises exactly when the client is Salesforce without a token and its login raises, with the login's error; otherwise it completes with the service's verdict on the probe made from the configuration after the login, which is attempted only for Salesforce without a token |
| ApiBase.HealthSpecLogin | integrations/apis/base.py:293-304 | a client that needs no login probes with its configuration unchanged; a rejected login, or no library, probes with the configuration as it was; a successful login probes the returned instance with the new token |
| ApiBase.TokenKeptSkipsLogin | integrations/apis/base.py:280-282 | after a login that stored a token and then raised on a missing instance URL, the next check does not log in again, whatever the login would do |
| ApiBase.CreatedConfig | integrations/apis/base.py:213-226 | a class called with no arguments has timeout 30, 3 attempts, a 1 second delay and no token; Salesforce has no key and a base URL under `SF_INSTANCE_URL`; the others take their class URL and their key variable |
| ApiBase.Client.HealthCheck | integrations/apis/base.py:293-304 | the outcome and new configuration are the specified check's; it raises exactly when the client is Salesforce without a token and the login raises; a client that needs no login is left unchanged; the instance URL moves only on a successful login |
| ApiBase.Client.IsHealthy | integrations/apis/base.py:208-210 | `is_healthy` is the `healthy` flag of the specified check, raises exactly when that check raises, with its error, and leaves the client in the check's new configuration |
| ApiRegistry.Isolate | integrations/apis/base.py:461-470 | a check that completed is recorded as it is; one that raised becomes an unhealthy entry whose endpoint is the name, with no status and the exception's text as error |
| ApiRegistry.ClientOutcome | integrations/apis/base.py:462-463 | a class registered at run time answers its own `health_check` and is not changed; a built-in client raises exactly when it must log in and the login raises, otherwise completes with its service's verdict on its probe; only a login changes the configuration |
| ApiRegistry.ProbeClient | integrations/apis/base.py:462-463 | the outcome and the client's new configuration are the specified ones for its configuration before the call |
| ApiRegistry.Registry.constructor | integrations/apis/base.py:426-435 | the registry starts with the six built-in services in declaration order and no instance |
| ApiRegistry.Registry.Register | integrations/apis/base.py:437-440 | the class under the name is replaced, or added at the end of the order when new; instances already made are kept |
| ApiRegistry.Registry.ListApis | integrations/apis/base.py:451-454 | the registered names, in registration order, each exactly once |
| ApiRegistry.GetSpec | integrations/apis/base.py:442-449 | a cached instance is returned as it is; an unknown name raises `Unknown API: <name>`; it raises exactly when the name is not cached and is unknown or its run-time class's constructor raises; otherwise the new instance has the configuration its class gives when called with no arguments |
| ApiRegistry.Registry.Get | integrations/apis/base.py:442-449 | the outcome is the specified one for the instances before the call: a cached instance is returned again; an error changes nothing; a registered built-in class without an instance always gives a fresh client with the configuration a no-argument call gives, cached under the name; only that name's instance is added |
| ApiRegistry.Registry.Instantiate | integrations/apis/base.py:448 | calling the registered class caches a fresh instance under the name with the no-argument configuration, keeping every other instance |
| ApiRegistry.CheckSpec | integrations/apis/base.py:461-463 | one step of the sweep is `get` followed by `health_check`, with an exception from either as the outcome; only the name's own instance can be added or changed; an unknown name fails with `Unknown API: <name>` |
| ApiRegistry.CheckSpecBuiltIn | integrations/apis/base.py:461-463 | a fresh built-in client other than Salesforce always completes with its verdict on the probe of its no-argument configuration; a fresh Salesforce client raises exactly when its login raises; a cached client that needs no login probes as it is |
| ApiRegistry.CheckSpecLocal | integrations/apis/base.py:461-463 | a step's outcome depends on the name's own instance alone |
| ApiRegistry.Registry.CheckOne | integrations/apis/base.py:461-463 | the step's outcome and the configurations of all instances afterwards are the specified step from the configurations before |
| ApiRegistry.Registry.ProbeInstance | integrations/apis/base.py:463 | `health_check` on the cached instance gives the specified outcome and changes that instance alone, as specified |
| ApiRegistry.SweepSpec | integrations/apis/base.py:456-471 | the sweep has one entry per name, in order, each the name with its outcome, a failure isolated into an unhealthy entry |
| ApiRegistry.SweepFrame | integrations/apis/base.py:456-471 | a sweep changes only the instances of the names it visits |
| ApiRegistry.SweepIsolated | integrations/apis/base.py:458-470 | over distinct names each outcome is that name's own step from the instances before the sweep, so a failing client never changes another name's entry |
| ApiRegistry.SweepAlone | integrations/apis/base.py:458-470 | a name's entry is the entry it gets when swept alone |
| ApiRegistry.SweepFailuresIsolated | integrations/apis/base.py:464-469 | a name whose step raises gets an unhealthy entry with its endpoint the name and the exception's text as error; a name whose step completes keeps its result |
| ApiRegistry.Registry.SweepNext | integrations/apis/base.py:459-470 | one iteration of the loop extends the sweep of the names before it by the next name |
| ApiRegistry.Registry.HealthCheckAll | integrations/apis/base.py:456-471 | the entries, their outcomes and the instances afterwards are the sweep over the registered names in order from the instances before; the names and classes do not change |
| HashLib.DefaultTable | lib/hash.py:123-132 | the registry starts with exactly the seven built-in names, each stored under its own name |
| HashLib.VerifiesExactly | lib/hash.py:32-34 | `verify` accepts the algorithm's own digest of the data and rejects every other text |
| HashLib.Lookup | lib/hash.py:142-147 | `get` returns the algorithm stored under the name, and raises `Unknown algorithm: <name>` exactly when there is none |
| HashLib.Serialize | lib/hash.py:167-173 | `hash` feeds a string's UTF-8 bytes, bytes as they are, and the sorted-key JSON of a dict or list; any other value cannot be hashed |
| HashLib.Chosen | lib/hash.py:167 | `algorithm or cls._default`: a non-empty name is kept, anything else becomes a non-empty default |
| HashLib.HashValue | lib/hash.py:154-175 | an unknown algorithm raises before the value is looked at; a value that cannot be serialised raises; otherwise the result is the algorithm's digest of the serialised bytes |
| HashLib.DefaultIsSha256 | lib/hash.py:135-167 | no algorithm, an empty name and `sha256` hash alike |
| HashLib.StrHashesAsUtf8 | lib/hash.py:169-170 | a string hashes exactly as its UTF-8 encoding does |
| HashLib.DictHashIgnoresOrder | lib/hash.py:171-172 | two dictionaries with the same bindings hash alike, whatever order their keys were inserted in |
| HashLib.ChainBytes | lib/hash.py:183-190 | a chain completes exactly when every name in it is registered |
| HashLib.ChainSnoc | lib/hash.py:186-188 | each step hashes the previous step's hex text re-encoded as UTF-8: the chain through one more name extends the shorter chain by that algorithm's digest, or fails on the new name when it is unknown |
| HashLib.ChainEmpty | lib/hash.py:183-190 | an empty chain returns the string unchanged |
| HashLib.ChainSingle | lib/hash.py:177-190 | a one-step chain over a string is `hash` of that string with that algorithm |
| HashLib.ChainUnknown | lib/hash.py:186-187 | a chain fails with the first unregistered name in it |
| HashLib.HmacDispatch | lib/hash.py:194-207 | names starting `sha3` or `blake` give the plain digest of `key + data`; every other name, and sha256 by default, goes to the RFC 2104 HMAC |
| HashLib.ShaInfinity.constructor | lib/hash.py:123-135 | the registry object starts with the seven built-in algorithms in declaration order |
| HashLib.ShaInfinity.Register | lib/hash.py:137-140 | the algorithm is stored under its own name, replacing any earlier one, and `get` of that name returns it from then on; a new name joins the end of the order |
| HashLib.ShaInfinity.Get | lib/hash.py:142-147 | `get` on the registry object is the lookup in its table |
| HashLib.ShaInfinity.ListAlgorithms | lib/hash.py:149-152 | the registered names, in order, each exactly once |
| HashLib.ShaInfinity.Hash | lib/hash.py:154-175 | `hash` on the registry object is the specified hash of the value |
| HashLib.ShaInfinity.HashChain | lib/hash.py:176-191 | the loop of `hash_chain` computes the specified chain, reading the final bytes back as UTF-8 |
| HashLib.ShaInfinity.HmacHash | lib/hash.py:193-207 | `hmac_hash` on the registry object is the specified keyed hash |
| HashLib.HashItems | lib/hash.py:278-279 | the item digests keep the items' keys in order, each value's digest under its key, and succeed exactly when every value can be hashed |
| HashLib.HashItemsErr | lib/hash.py:278-279 | a value that cannot be hashed stops the manifest with that failure |
| HashLib.CreateSpec | lib/hash.py:271-287 | a manifest records the hasher's algorithm, the digest of every item under its key, and the digest of that table of digests |
| HashLib.CheckItem | lib/hash.py:296-312 | a key absent from the manifest is `missing` and invalid; a present key is `valid` exactly when its value's digest equals the recorded one, with both digests shortened to 16 characters and `...` |
| HashLib.Checks | lib/hash.py:295-312 | the checks cover every item when they complete |
| HashLib.ChecksEach | lib/hash.py:295-312 | the checks complete exactly when every item's check does, and then hold each item's check under its key, in order |
| HashLib.VerifySpec | lib/hash.py:289-314 | the report uses the manifest's algorithm, else the hasher's; it has one check per item, and is valid exactly when every item is in the manifest with a matching digest |
| HashLib.ToMap | lib/hash.py:276-279 | the dictionary of digests has exactly the listed keys |
| HashLib.ToMapDistinct | lib/hash.py:276-279 | with distinct keys each digest is found again under its key |
| HashLib.ManifestRoundTrip | lib/hash.py:271-314 | a manifest verifies, as valid, the very items it was created from, whatever the verifying hasher's own algorithm |
| HashLib.DigestsKnown | lib/hash.py:276-279 | for distinct items every digest listed is found again under its item's key |
| HashLib.ChecksOk | lib/hash.py:295-312 | when every value under a recorded key can be hashed, all the checks complete |
| HashLib.ExtraKeysIgnored | lib/hash.py:295-297 | manifest keys for which there is no item change no check |
| HashLib.Hasher.constructor | lib/hash.py:215-217 | the hasher keeps its algorithm name over the shared registry |
| HashLib.Hasher.HashConfig | lib/hash.py:219-223 | a configuration is hashed as the string of its compact sorted-key JSON, with the hasher's algorithm |
| HashLib.Hasher.VerifyIntegrity | lib/hash.py:264-269 | the given algorithm, else the hasher's, is used, and the answer is whether the digest equals the expected text; a failing hash raises |
| HashLib.Hasher.CreateManifest | lib/hash.py:271-287 | the loop of `create_manifest` builds the specified manifest |
| HashLib.Hasher.VerifyManifest | lib/hash.py:289-314 | `verify_manifest` returns the specified report |
| HashLib.Hasher.CheckAll | lib/hash.py:295-312 | the loop checks every item in order and its `valid` flag is whether every check passed |
| HashLib.Hasher.CheckOf | lib/hash.py:296-312 | one item's loop body gives that item's specified check |
| HealthCheck.Field | scripts/health_check.py:200-202 | `.get(key, default)` succeeds exactly on a dict, and then gives the key's value or the default |
| HealthCheck.Iterate | scripts/health_check.py:204 | iterating a list visits its elements; `None`, a bool or an int is not iterable and raises |
| HealthCheck.Candidates | scripts/health_check.py:85-89 | there are exactly three candidate configuration paths |
| HealthCheck.FirstExisting | scripts/health_check.py:90-92 | the index found is the first existing path at or after the start; none is found only when no such path exists |
| HealthCheck.FindConfig | scripts/health_check.py:83-93 | the loop returns the first candidate that exists, or the repository default when none does |
| HealthCheck.FindConfigChoice | scripts/health_check.py:83-93 | the chosen path is always a candidate; when some candidate exists the chosen one exists and every other existing candidate comes after it |
| HealthCheck.LoadConfig | scripts/health_check.py:95-106 | a missing file or missing YAML library gives `{}`; a loaded document that is false also gives `{}`; otherwise the document is the configuration |
| HealthCheck.HttpCheck | scripts/health_check.py:119-152 | the check has type `http` and the URL as endpoint; it is healthy exactly when a response came back with `ok`; it has a status exactly when a response came back, and an error exactly when none did |
| HealthCheck.SshCheck | scripts/health_check.py:154-167 | the check has type `ssh`, endpoint `host:port` and name `ssh://host:port`; it is healthy exactly when the port is open, and carries an error exactly when it is not |
| HealthCheck.SshDefaultPort | scripts/health_check.py:154 | the default port 22 shows as `host:22` |
| HealthCheck.PlaceholderHost | scripts/health_check.py:205 | a `${VAR:-default}` host resolves to its default |
| HealthCheck.PlainHost | scripts/health_check.py:205 | a host with no placeholder syntax is used unchanged |
| HealthCheck.PiCheck | scripts/health_check.py:204-211 | one cluster entry can be checked exactly when it is a dict whose host (default empty) is a string |
| HealthCheck.PiCheckDefaults | scripts/health_check.py:205-210 | an entry with only a host is checked over SSH on port 22 and named `pi:` followed by its resolved host |
| HealthCheck.PiResults | scripts/health_check.py:204-211 | each entry's outcome is that entry's check, position by position |
| HealthCheck.PiChecks | scripts/health_check.py:204-213 | a successful loop yields one check per cluster entry |
| HealthCheck.PiChecksEach | scripts/health_check.py:204-213 | the loop succeeds exactly when every entry can be checked, and then the i-th result is the i-th entry's check |
| HealthCheck.NoHardwareNoPiChecks | scripts/health_check.py:200-202 | a configuration without `hardware` has no Pi checks |
| HealthCheck.CloudCheckSpec | scripts/health_check.py:222-230 | a service yields a check exactly when it has a non-empty base URL and a true health endpoint; the check is named after the service, has type `cloud` and probes the base without trailing slashes followed by the endpoint |
| HealthCheck.CloudChecks | scripts/health_check.py:221-232 | there are never more cloud checks than services |
| HealthCheck.CloudChecksStep | scripts/health_check.py:221-230 | one more service either raises, adds nothing or appends its check |
| HealthCheck.CloudChecksErr | scripts/health_check.py:221-230 | a service that raises ends the whole loop with its error |
| HealthCheck.CloudChecksNamed | scripts/health_check.py:228-229 | every cloud check has type `cloud` and is named after a configured service |
| HealthCheck.FromApi | scripts/health_check.py:184-192 | the endpoint check keeps the registry result's endpoint, health, status and error, under the service name with type `api` |
| HealthCheck.FromSweep | scripts/health_check.py:183-192 | one `api` check per sweep entry, in order, each copied from the entry |
| HealthCheck.ApiSpec | scripts/health_check.py:169-194 | without the registry the single unhealthy `api_registry` check; otherwise one `api` check per registered name, in registration order |
| HealthCheck.ApiSpecIsolated | scripts/health_check.py:182-192 | each `api` check is the name's own registry step from the instances before the run, with a failure isolated |
| HealthCheck.CheckApiEndpoints | scripts/health_check.py:169-194 | the checks are the specified ones for the registry before the call; afterwards the names and classes are unchanged, and the instances are those the sweep leaves, or untouched without the registry module |
| HealthCheck.ToApiChecks | scripts/health_check.py:183-192 | the loop copies every registry entry into an `api` check, in order |
| HealthCheck.HealthyCount | scripts/health_check.py:261 | the healthy count never exceeds the number of checks |
| HealthCheck.AllHealthyCount | scripts/health_check.py:261 | every check is counted healthy exactly when every check is healthy |
| HealthCheck.PostInit | scripts/health_check.py:68-70 | an empty report hash becomes the first 16 characters of the digest of the serialised report; a given one is kept; no other field changes |
| HealthCheck.Assemble | scripts/health_check.py:261-270 | the report holds the checks, timestamp and configuration hash given, and its total is the healthy count plus a non-negative unhealthy count |
| HealthCheck.ReportFor | scripts/health_check.py:261-270 | the counting loop builds exactly the assembled report |
| HealthCheck.ExitCode | scripts/health_check.py:333 | the exit status is 0 or 1 |
| HealthCheck.ExitZeroIffAllHealthy | scripts/health_check.py:261-333 | a run exits 0 exactly when every check it ran is healthy |
| HealthCheck.MissingRegistryDegrades | scripts/health_check.py:173-180 | without the registry the run always exits 1 |
| HealthCheck.ReportHashLength | scripts/health_check.py:68-70 | the report hash is 16 characters long, for a real digest and for the `hash-unavailable` fallback alike |
| HealthCheck.Checker.constructor | scripts/health_check.py:78-80 | a given path is used, otherwise the first existing candidate or the default; the configuration is what loading that path gives |
| HealthCheck.Checker.CheckPiCluster | scripts/health_check.py:196-213 | the method returns the checks of the configured cluster, or the first error raised on the way down the configuration or in an entry |
| HealthCheck.Checker.CheckCloudServices | scripts/health_check.py:215-232 | the method returns the checks of the configured cloud services, or the first error raised |
| HealthCheck.Checker.RunAllChecks | scripts/health_check.py:234-274 | the report is assembled from the specified API checks of the registry before the run followed by the Pi checks, with the configuration hash and the counts; a Pi error ends the run; the registry is left as the API checks leave it |
| HealthCheck.Checker.Conclude | scripts/health_check.py:248-272 | with the API checks in, the result is the Pi error, or the report assembled from the API checks, the Pi checks and the configuration hash |
| HealthCheck.ApiFailureFailsRun | scripts/health_check.py:261-333 | a registered service whose own step is unhealthy makes the run exit 1 |
| MobileTools.FormValue | integrations/mobile/mobile_tools.py:41 | a text value is form-encoded as it is |
| MobileTools.CloneParams | integrations/mobile/mobile_tools.py:38-40 | the clone query has `url`, then `path` exactly when a true path is given |
| MobileTools.CommitParams | integrations/mobile/mobile_tools.py:56-61 | the commit query has `repo` and `message`, then `add=all` exactly when everything is to be added |
| MobileTools.ActionUrlShapes | integrations/mobile/mobile_tools.py:36-67 | every Working Copy URL is the x-callback base followed by its action (`clone`, `commit`, `pull`, `push`, `open`) and query; the open URL ends with the quoted path |
| MobileTools.PullIsNotPush | integrations/mobile/mobile_tools.py:44-51 | a pull URL never equals a push URL |
| MobileTools.PullUrlInjective | integrations/mobile/mobile_tools.py:44-46 | with an injective percent-encoding, the pull URL determines the repository |
| MobileTools.QuoteValue | integrations/mobile/mobile_tools.py:46 | `quote` accepts exactly text and bytes, and raises on anything else |
| MobileTools.ActionUrl | integrations/mobile/mobile_tools.py:78-87 | an action other than pull, push or commit adds nothing; a commit succeeds exactly when it has a `repo`; a pull or push succeeds exactly when its `repo` is text or bytes, and then gives the pull or push URL of that repository |
| MobileTools.ActionUrls | integrations/mobile/mobile_tools.py:77-87 | each action's outcome is that action's URL, position by position |
| MobileTools.Chain | integrations/mobile/mobile_tools.py:70-88 | the chain never holds more URLs than there are actions |
| MobileTools.ChainAppend | integrations/mobile/mobile_tools.py:76-88 | chaining two lists of actions is chaining the first, then the second, with the first error winning |
| MobileTools.ChainActions | integrations/mobile/mobile_tools.py:70-88 | the loop returns exactly the chained URLs, or the first error raised |
| MobileTools.PytoUrls | integrations/mobile/mobile_tools.py:108-115 | a run URL never equals an open URL, and with an injective percent-encoding each determines its path |
| MobileTools.ConnectionConfig | integrations/mobile/mobile_tools.py:250-266 | the configuration has `name`, `host`, `port`, `username` and `protocol`, then `privateKey` exactly when a true key name is given |
| MobileTools.ConnectionConfigFields | integrations/mobile/mobile_tools.py:257-265 | the configuration is named `BlackRoad - ` and the host, holds the host, user and port given, speaks `sftp`, and names the key exactly when one is given |
| MobileTools.ConnectionConfigDistinct | integrations/mobile/mobile_tools.py:257-265 | no key of the configuration appears twice |
| MobileTools.ConnectionConfigKey | integrations/mobile/mobile_tools.py:264-265 | `privateKey` is present exactly when the key name is true, and is then that key name |
| MobileTools.PiConfigAt | integrations/mobile/mobile_tools.py:275-280 | one host's configuration succeeds exactly when its dictionary has `host` |
| MobileTools.PiClusterConfigs | integrations/mobile/mobile_tools.py:269-282 | a successful run gives one configuration per host |
| MobileTools.PiClusterConfigsEach | integrations/mobile/mobile_tools.py:269-282 | the run succeeds exactly when every host dictionary has `host`, and then the i-th configuration is the i-th host's |
| MobileTools.PiConfigDefaultPort | integrations/mobile/mobile_tools.py:278-279 | a host given without a port or key is configured on port 22 without a key |
| MobileTools.AllTools | integrations/mobile/mobile_tools.py:296-323 | there are four tools |
| MobileTools.ToolsSetup | integrations/mobile/mobile_tools.py:296-323 | exactly Pyto and iSH need setting up; the tool names are distinct; every URL scheme ends in `://` |
| MobileTools.Workflow | integrations/mobile/mobile_tools.py:333-340 | the workflow has three URLs |
| MobileTools.PullAction | integrations/mobile/mobile_tools.py:79-80 | a pull action chains to the repository's pull URL |
| MobileTools.PushAction | integrations/mobile/mobile_tools.py:81-82 | a push action chains to the repository's push URL |
| MobileTools.CommitAction | integrations/mobile/mobile_tools.py:83-87 | a commit action with a message chains to the commit URL that adds everything with that message |
| MobileTools.WorkflowActions | integrations/mobile/mobile_tools.py:333-340 | the workflow is three actions |
| MobileTools.WorkflowSteps | integrations/mobile/mobile_tools.py:333-340 | the workflow's i-th action chains to its i-th URL |
| MobileTools.WorkflowIsChain | integrations/mobile/mobile_tools.py:333-340 | the workflow is exactly the chain of a pull, a commit of everything with the message `Update from iOS`, and a push |
| SyncState.JoinKey | scripts/sync_state.py:201 | a key below the empty key is the child's own name; below any other key it is the parent, a colon and the child |
| SyncState.Put | scripts/sync_state.py:204 | storing a new key appends it; storing an existing key keeps the key order; distinct keys stay distinct; every entry afterwards was there before or is the one stored, and the one stored is present |
| SyncState.FlattenInto | scripts/sync_state.py:198-204 | the walk keeps keys distinct and stores no dict as a value |
| SyncState.FlattenEntries | scripts/sync_state.py:199-202 | walking a dict's entries keeps keys distinct and stores no dict as a value |
| SyncState.Flatten | scripts/sync_state.py:194-207 | the flattened state has distinct keys and no dict among its values |
| SyncState.Leaves | scripts/sync_state.py:198-204 | no leaf is a dict |
| SyncState.LeavesOf | scripts/sync_state.py:199-202 | no leaf below a dict's entries is a dict |
| SyncState.PutAllAppend | scripts/sync_state.py:200-204 | storing two runs of pairs is storing the first and then the second |
| SyncState.FlattenIntoIsPutAll | scripts/sync_state.py:198-204 | the recursive walk stores exactly the leaves, in walk order, a later write to a key replacing the earlier one |
| SyncState.FlattenEntriesIsPutAll | scripts/sync_state.py:199-202 | walking a dict's entries stores exactly their leaves, in order |
| SyncState.PutAllFresh | scripts/sync_state.py:204 | storing pairs whose keys are new and distinct just appends them |
| SyncState.PutKeys | scripts/sync_state.py:204 | a store keeps every key already present and adds its own |
| SyncState.PutAllFrom | scripts/sync_state.py:204 | everything stored comes from the start or from the pairs |
| SyncState.PutAllKeepsKeys | scripts/sync_state.py:204 | no key is lost by storing more pairs |
| SyncState.PutAllStores | scripts/sync_state.py:204 | every pair's key ends up stored |
| SyncState.PutAllContents | scripts/sync_state.py:204 | every stored entry comes from the start or the pairs, every pair's key is stored, and no key is lost |
| SyncState.FlattenSpec | scripts/sync_state.py:194-207 | every flattened entry is a leaf under its joined key and every leaf's key is present; when joined keys do not collide the flattened state is the leaves exactly |
| SyncState.LeafIsStoredWhole | scripts/sync_state.py:203-204 | a list or scalar state is stored whole under the prefix |
| SyncState.FlatDictIsFixed | scripts/sync_state.py:194-207 | with an empty prefix, a dict without nested dicts flattens to itself |
| SyncState.EmptyDictAddsNothing | scripts/sync_state.py:199-202 | an empty nested dict adds no key |
| SyncState.LeavesStartWith | scripts/sync_state.py:198-204 | every key reached below a key extends it |
| SyncState.LeavesOfStartWith | scripts/sync_state.py:199-202 | every key reached below a dict's entries extends the dict's key |
| SyncState.DictKeysUnderPrefix | scripts/sync_state.py:194-207 | under a non-empty prefix every key of a flattened dict starts with the prefix and a colon |
| SyncState.FlattenExample | scripts/sync_state.py:194-207 | a two-level state under prefix `p` flattens to `p:a:b`, `p:a:c` and `p:d`, with the list kept whole |
| SyncState.CreateRecord | scripts/sync_state.py:42-51 | the record keeps its key, value, source and timestamp; its hash is the digest of the value's text cut to 16 characters |
| SyncState.RecordHashOnlyValue | scripts/sync_state.py:44-48 | the record hash depends on the value alone, and a dict's hash not on the order of its keys |
| SyncState.KvTally | scripts/sync_state.py:111-122 | every flattened entry is either counted as synced or reported as an error |
| SyncState.CloudflareSpec | scripts/sync_state.py:111-130 | a configured sync counts or reports every flattened key, succeeds exactly when it reports nothing, and goes from local to cloudflare |
| SyncState.KvTallyClean | scripts/sync_state.py:114-122 | the loop reports nothing exactly when every put succeeded |
| SyncState.CloudflareSucceedsIffAllPut | scripts/sync_state.py:111-130 | a configured Cloudflare sync succeeds exactly when every put of every flattened key succeeds |
| SyncState.KvTallyStep | scripts/sync_state.py:114-122 | one more entry counts its put or adds `key: error` |
| SyncState.SyncToCloudflare | scripts/sync_state.py:100-130 | without a client or namespace the result is the not-configured failure and nothing is written; otherwise the flattened keys are written in order and the result is the tally |
| SyncState.PutEntries | scripts/sync_state.py:114-122 | the loop writes each flattened key once, in order, and ends with the tally |
| SyncState.PutRecord | scripts/sync_state.py:115-118 | one write stores the JSON of the entry's record under its key |
| SyncState.BoardTally | scripts/sync_state.py:157-175 | the board loop succeeds exactly when every board is a dict, and then counts or reports every board |
| SyncState.BoardRejectionKept | scripts/sync_state.py:172-175 | a board whose post is refused and not a 400 leaves an error |
| SyncState.BoardAllAccepted | scripts/sync_state.py:172-173 | when every post succeeds or comes back 400 no error is reported |
| SyncState.BoardTallyClean | scripts/sync_state.py:157-175 | the board loop reports nothing exactly when every post succeeded or came back 400 |
| SyncState.BoardTallyErr | scripts/sync_state.py:158-160 | once a board raises the whole loop raises |
| SyncState.BoardTallyStop | scripts/sync_state.py:158-160 | a board that is not a dict stops the loop with the error |
| SyncState.BoardTallyStep | scripts/sync_state.py:158-175 | one more dict board counts its post or adds `Board id: error` |
| SyncState.SalesforceSpec | scripts/sync_state.py:132-183 | no client gives the not-configured failure; a login that raises propagates; a refused login gives the authentication failure; otherwise the loop succeeds exactly when the boards can be walked, counts or reports each board, and succeeds exactly when nothing is reported |
| SyncState.DuplicateBoardCounts | scripts/sync_state.py:172-173 | a board whose post comes back 400 still counts as synced |
| SyncState.RejectedBoardReported | scripts/sync_state.py:172-175 | a board rejected with another status is reported as `Board id: error` and not counted |
| SyncState.PostBoard | scripts/sync_state.py:159-170 | one post sends the board's Salesforce record |
| SyncState.PostBoards | scripts/sync_state.py:157-175 | the loop over the boards ends with the board tally, or the error a non-dict board raises |
| SyncState.SyncToSalesforce | scripts/sync_state.py:132-183 | the method's result is the Salesforce sync just described |
| SyncState.GenerateManifest | scripts/sync_state.py:209-220 | the manifest lists the keys of the state flattened under `blackroad` and counts them; its state hash is the first 16 characters of the sha256 of the sorted-key JSON of the state (all of it when shorter) |
| SyncState.ManifestHashOrderFree | scripts/sync_state.py:217 | the state hash does not depend on the order of the state's keys |
| SyncState.ManifestKeys | scripts/sync_state.py:209-220 | every manifest key starts with `blackroad:` and no key appears twice |
| SyncState.FullSync | scripts/sync_state.py:222-251 | an empty state gives no results; otherwise the Cloudflare result under prefix `blackroad`, then the Salesforce result, with an exception in the Salesforce login propagating |
| SyncState.ExitCode | scripts/sync_state.py:283-284 | the exit status is 0 exactly when every result succeeded, and 1 otherwise |
| SyncState.EmptyStateExitsZero | scripts/sync_state.py:283-284 | a run with no results exits 0 |
| TermiusSync.NewSync | integrations/terminal/termius_sync.py:50-52 | a true API key is kept, otherwise `TERMIUS_API_KEY` from the environment is used; the API base is `https://api.termius.com` |
| TermiusSync.NewHost | integrations/terminal/termius_sync.py:25-27 | missing tags become the empty list; given tags and every other field are kept |
| TermiusSync.Fields | integrations/terminal/termius_sync.py:15-23 | a host's fields are, in order, `label`, `address`, `port`, `username`, `ssh_key`, `group` and `tags` |
| TermiusSync.NonNull | integrations/terminal/termius_sync.py:30 | filtering keeps only entries that were there and are not `None` |
| TermiusSync.NonNullKeys | integrations/terminal/termius_sync.py:30 | with distinct keys, a key survives the filter exactly when its value is not `None` |
| TermiusSync.ToDict | integrations/terminal/termius_sync.py:29-30 | `to_dict` gives a dict |
| TermiusSync.ToDictOmitsNone | integrations/terminal/termius_sync.py:29-30 | a field appears in `to_dict` exactly when its value is not `None`, and then with its value |
| TermiusSync.TagsAlwaysPresent | integrations/terminal/termius_sync.py:25-30 | a host made through the constructor always has `tags` in its dict |
| TermiusSync.GroupDict | integrations/terminal/termius_sync.py:111 | a group serialises with `label` and `parent`, `parent` included even when it is `None` |
| TermiusSync.BlackRoadGroups | integrations/terminal/termius_sync.py:54-61 | there are four groups |
| TermiusSync.GroupHierarchy | integrations/terminal/termius_sync.py:54-61 | `BlackRoad` is the root and the other three groups sit directly under it |
| TermiusSync.PiHostAt | integrations/terminal/termius_sync.py:70-79 | the i-th Pi host needs `host` and raises without it; it is labelled by its `name` or `pi-i`, on its port or 22, with the given user, its key if any, in group `Pi Cluster` with the cluster tags |
| TermiusSync.PiClusterHosts | integrations/terminal/termius_sync.py:63-80 | a successful run gives one host per dictionary |
| TermiusSync.PiClusterHostsEach | integrations/terminal/termius_sync.py:63-80 | the run succeeds exactly when every dictionary has `host`, and then the i-th host is the i-th dictionary's |
| TermiusSync.CloudHostAt | integrations/terminal/termius_sync.py:89-98 | the i-th cloud host needs `ip` and raises without it; it is labelled by its `name` or `provider-i`, on its port or 22, as its user or `root`, in group `Cloud Servers`, tagged `blackroad` and the lower-cased provider |
| TermiusSync.CloudHosts | integrations/terminal/termius_sync.py:82-99 | a successful run gives one host per dictionary |
| TermiusSync.CloudHostsEach | integrations/terminal/termius_sync.py:82-99 | the run succeeds exactly when every dictionary has `ip`, and then the i-th host is the i-th dictionary's |
| TermiusSync.Manifest | integrations/terminal/termius_sync.py:101-117 | the manifest is a dict |
| TermiusSync.ManifestCounts | integrations/terminal/termius_sync.py:107-117 | the metadata counts the groups and hosts given, and the manifest's hosts are their dicts in order |
| TermiusSync.DefaultPiHosts | integrations/terminal/termius_sync.py:133-139 | the default Pi cluster is four hosts in `Pi Cluster` with user `pi` |
| TermiusSync.DropletHost | integrations/terminal/termius_sync.py:143-146 | the DigitalOcean entry is one host at the given address in `Cloud Servers` |
| TermiusSync.DefaultInfrastructureHosts | integrations/terminal/termius_sync.py:125-150 | the default infrastructure always builds: four Pi hosts, then a fifth DigitalOcean host at `DO_SERVER_IP` exactly when that is set to a true value, in the manifest of the four groups |
| PyValue.DictOrderIrrelevant | lib/hash.py:172 | two dicts with the same entries in any order serialise with sorted keys to the same canonical value |
| PyValue.DecodeEncode | lib/hash.py:185-192 | decoding the UTF-8 encoding of any text gives the text back, section 3 of RFC 3629 |
| PyValue.DecodeEncodeChar | lib/hash.py:190-192 | decoding the encoding of one character yields that character and consumes exactly its encoding |
| Text.SplitJoin | scripts/health_check.py:205 | joining the pieces of `split(sep)` with `sep` gives the text back |
| Text.SplitPieces | scripts/health_check.py:205 | no piece of `split(sep)` contains `sep` |
| Text.RemoveAll | scripts/health_check.py:205 | removing a pattern never lengthens the text, and leaves text without the pattern unchanged |
| Text.RemoveAllIsSplitJoin | scripts/health_check.py:205 | `s.replace(pat, "")` is `"".join(s.split(pat))`: removing every occurrence leaves exactly the pieces between the occurrences, in order |
| Text.RemoveUpTo | scripts/health_check.py:205 | removal keeps the text before the first occurrence and drops that occurrence |
| Text.RStrip | scripts/health_check.py:226 | `rstrip` keeps a prefix of the text that does not end in a stripped character, and removes only stripped characters |
| Text.LStrip | integrations/apis/base.py:131 | `lstrip` keeps a suffix of the text that does not start with a stripped character, and removes only stripped characters |

## Left out

- Real HTTP, sockets and the Salesforce login exchange are the transport oracle and the login outcome. The unused `aiohttp` import is not modelled.
- `time.time`, `time.sleep`, `datetime.utcnow`, and the float fields `elapsed_ms` and `latency_ms` are out of scope. Sleeps go into a ghost log of exact reals; timestamps are parameters.
- HealthCheck.CheckApiEndpoints: `latency_ms` is not copied from the registry result, because latency is not modelled.
- HealthCheck.HttpCheck: latency is not recorded, for the same reason.
- Floating-point values are out of scope. `PyValue` has no float, so a float in YAML or JSON input is not represented.
- Digest internals (SHA-2 per FIPS 180-4, SHA-3, BLAKE2), `hmac.new`, base64, `quote`, `quote_plus` and JSON serialisation are uninterpreted parameters.
- HashLib.Hasher.VerifyIntegrity: `hmac.compare_digest` is modelled as string equality. Python raises on non-ASCII text there; the model does not.
- HashLib.VerifySpec: in a manifest whose stored digest is `None`, Python reports the key as `missing`. Manifest items in the model are strings, so that case does not arise.
- HashLib.HashValue: `json.dumps` of a list or dict that holds bytes raises in Python. The serialiser parameter is total, so the model does not raise there.
- `hash_file`, `hash_directory` and `generate_card_id` read files or the clock. `hash_directory`'s outcome is an input of the config-hash check, and `hash_file`'s digest is an input of the health report.
- `generate_state_hash` is `hash` with the hasher's algorithm, so it has no member of its own.
- The YAML and Python syntax checks of `scripts/validate_pr.py:252-301` parse files with foreign parsers. They enter the report as finished outcomes.
- `run_command`, `read_text`, `rglob`, `stat`, `Path.exists` and `git` are inputs: a command result per git invocation and a table of paths. Paths are taken as written, with no normalisation, and git's output is assumed stable between invocations.
- ValidatePr.LargeFiles: only regular files are measured. Python also takes `st_size` of a listed directory, which the model does not model.
- ValidatePr.ScanLarge: the size in megabytes is formatted by a parameter. The model does not model `.1f` float formatting.
- `secret_patterns` in `check_no_secrets` is defined but never used, so it is not modelled.
- `print`, `_print_result`, `_print_summary`, `argparse`, every `main` and `__main__` block, `export_report` and `export_to_json` are output only.
- The script generators `generate_setup_script`, `generate_backup_script` and `generate_all_setup_scripts` return literal script text. They are not modelled; the constants they use are.
- `load_local_state` and `sync_from_cloudflare` are not modelled. The first reads a YAML file, so `SyncState.FullSync` takes the loaded state as an input. The second always returns `{}`.
- `HealthChecker.results` is initialised but never read, so it is not modelled.
- `check_cloud_services` is modelled (`HealthCheck.Checker.CheckCloudServices`), but `run_all_checks` does not call it, and neither does the model.
- `APIRegistry` keeps its tables as class attributes, one per process. The model makes it an object whose methods modify it.
- Classes registered at run time and their constructors are foreign code. Their `health_check` outcome, and whether they can be constructed, are inputs.
- Text.Strip: strips the ASCII whitespace characters only. Python's `str.strip()` also removes Unicode whitespace such as `\x85`, `\xa0` and `\u2003`, which the model keeps.
- SyncState.CreateRecord, SyncState.GenerateManifest: `json.dumps` raises in Python on bytes or on non-string keys inside the state. The serialiser parameter is total, so the model does not raise there.
- ApiBase.Execute: a negative `retry_delay` makes `time.sleep` raise `ValueError` (`integrations/apis/base.py:172-175`). The model records the negative sleep in its log and goes on.
- SyncState.CreateRecord, SyncState.KvValue, SyncState.KvTally: one timestamp `now` is given to every record of a sync run. Python calls `datetime.utcnow()` once per record (`scripts/sync_state.py:49`), so its records can carry different timestamps.
- SyncState.NotADictError: the message is one fixed text. Python's `AttributeError` names the type of the value that was not a dict, which the model does not reproduce.
- Text.Upper and Text.Lower change ASCII letters only. Python's Unicode case mapping is not modelled.
- `str()`/`repr()` of containers is a parameter. Only strings, booleans, `None` and integers are formatted explicitly.
- Concurrency is out of scope: the scripts are single-threaded and take no locks.
- The `__init__.py` files only re-export names, so they are not modelled.
