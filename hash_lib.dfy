/** lib/hash.py: the extensible algorithm registry ("SHA Infinity"), hashing
    of strings, bytes and JSON-serialisable values, hash chains, HMAC, and the
    `BlackRoadHasher` helpers for configurations and manifests.

    Digest functions are uninterpreted: an algorithm is a name with a
    function from bytes to a hex string. Sorted-key JSON (`json.dumps` with
    `sort_keys=True`, with and without compact separators) is a function of
    the canonical map form of a value, so it cannot see the order of a
    dictionary's insertion. HMAC as RFC 2104 defines it is an input. */
module HashLib {
  import opened Text
  import opened PyValue

  /** A `HashAlgorithm`: its `name` and its `hash`. */
  datatype Algorithm = Algorithm(name: string, digest: ByteString -> string)

  type Table = map<string, Algorithm>

  /** The seven digests `hashlib` supplies for the built-in algorithms. */
  datatype Digests = Digests(
    sha256: ByteString -> string,
    sha384: ByteString -> string,
    sha512: ByteString -> string,
    sha3_256: ByteString -> string,
    sha3_512: ByteString -> string,
    blake2b: ByteString -> string,
    blake2s: ByteString -> string)

  /** The serialisers and `hmac.new(key, data, getattr(hashlib, name)).hexdigest()`;
      the latter fails when `hashlib` has no function of that name. */
  datatype Codecs = Codecs(
    sortedJson: Canon -> string,
    compactJson: Canon -> string,
    hmac: (string, ByteString, ByteString) -> Result<string>)

  /** What `str` or `bytes` a hash chain or HMAC is given. */
  datatype Blob = Utf8(s: string) | Raw(bs: ByteString)

  function BlobBytes(d: Blob): ByteString {
    match d
    case Utf8(s) => Encode(s)
    case Raw(bs) => bs
  }

  const DefaultAlgorithm := "sha256"
  const NotBytesError := "object supporting the buffer API required"
  const NotUtf8Error := "'utf-8' codec can't decode bytes"

  const DefaultNames: seq<string> := ["sha256", "sha384", "sha512", "sha3_256", "sha3_512", "blake2b", "blake2s"]

  function DefaultTable(d: Digests): (t: Table)
    ensures t.Keys == set n | n in DefaultNames
    ensures forall n | n in t :: t[n].name == n
  {
    map["sha256" := Algorithm("sha256", d.sha256),
        "sha384" := Algorithm("sha384", d.sha384),
        "sha512" := Algorithm("sha512", d.sha512),
        "sha3_256" := Algorithm("sha3_256", d.sha3_256),
        "sha3_512" := Algorithm("sha3_512", d.sha3_512),
        "blake2b" := Algorithm("blake2b", d.blake2b),
        "blake2s" := Algorithm("blake2s", d.blake2s)]
  }

  predicate Distinct(s: seq<string>) {
    forall i, j | 0 <= i < j < |s| :: s[i] != s[j]
  }

  /** `HashAlgorithm.verify`: the data hashes to the expected text. */
  predicate Verifies(a: Algorithm, data: ByteString, expected: string) {
    a.digest(data) == expected
  }

  /** A digest always verifies against itself and against nothing else. */
  lemma VerifiesExactly(a: Algorithm, data: ByteString, expected: string)
    ensures Verifies(a, data, a.digest(data))
    ensures expected != a.digest(data) ==> !Verifies(a, data, expected)
  {
  }

  /** `SHAInfinity.get` on a table. */
  function Lookup(t: Table, name: string): (r: Result<Algorithm>)
    ensures r.Err? <==> name !in t
    ensures r.Ok? ==> r.value == t[name]
    ensures r.Err? ==> r.error == "Unknown algorithm: " + name
  {
    if name in t then Ok(t[name]) else Err("Unknown algorithm: " + name)
  }

  /** The bytes `hash` feeds its algorithm: UTF-8 for `str`, bytes as they
      are, sorted-key JSON for a dict or list; for any other value `hashlib`
      raises. */
  function Serialize(v: Value, c: Codecs): (r: Option<ByteString>)
    ensures v.Str? ==> r == Some(Encode(v.s))
    ensures v.Bytes? ==> r == Some(v.bs)
    ensures v.Dict? || v.List? ==> r == Some(Encode(c.sortedJson(Canonical(v))))
    ensures r.None? <==> v.Null? || v.Bool? || v.Int?
  {
    match v
    case Str(s) => Some(Encode(s))
    case Bytes(bs) => Some(bs)
    case List(_) => Some(Encode(c.sortedJson(Canonical(v))))
    case Dict(_) => Some(Encode(c.sortedJson(Canonical(v))))
    case _ => None
  }

  /** The name `algorithm or cls._default` selects. */
  function Chosen(algorithm: Option<string>): (name: string)
    ensures name != ""
    ensures Truthy(algorithm) ==> name == algorithm.value
  {
    if Truthy(algorithm) then algorithm.value else DefaultAlgorithm
  }

  /** `SHAInfinity.hash`: look the algorithm up (the default when none or
      an empty name is given), then hash the serialised value. */
  function HashValue(t: Table, c: Codecs, v: Value, algorithm: Option<string>): (r: Result<string>)
    ensures Chosen(algorithm) !in t ==> r == Err("Unknown algorithm: " + Chosen(algorithm))
    ensures Chosen(algorithm) in t && Serialize(v, c).None? ==> r == Err(NotBytesError)
    ensures Chosen(algorithm) in t && Serialize(v, c).Some? ==>
              r == Ok(t[Chosen(algorithm)].digest(Serialize(v, c).value))
  {
    match Lookup(t, Chosen(algorithm))
    case Err(e) => Err(e)
    case Ok(a) =>
      match Serialize(v, c)
      case None => Err(NotBytesError)
      case Some(bs) => Ok(a.digest(bs))
  }

  /** No algorithm and an empty name both mean sha256. */
  lemma DefaultIsSha256(t: Table, c: Codecs, v: Value)
    ensures HashValue(t, c, v, None) == HashValue(t, c, v, Some(""))
    ensures HashValue(t, c, v, None) == HashValue(t, c, v, Some(DefaultAlgorithm))
  {
  }

  /** A string is hashed as its UTF-8 bytes, so `hash(s) == hash(s.encode())`. */
  lemma StrHashesAsUtf8(t: Table, c: Codecs, s: string, algorithm: Option<string>)
    ensures HashValue(t, c, Str(s), algorithm) == HashValue(t, c, Bytes(Encode(s)), algorithm)
  {
  }

  /** Two dictionaries with the same bindings hash alike, whatever order
      their keys were inserted in. */
  lemma DictHashIgnoresOrder(t: Table, c: Codecs, e1: seq<(string, Value)>, e2: seq<(string, Value)>,
                             algorithm: Option<string>)
    requires DistinctKeys(e1) && DistinctKeys(e2) && multiset(e1) == multiset(e2)
    ensures HashValue(t, c, Dict(e1), algorithm) == HashValue(t, c, Dict(e2), algorithm)
  {
    DictOrderIrrelevant(e1, e2);
  }

  // ------------------------------------------------------------ chains

  /** The bytes after hashing `data` through `names` from left to right;
      the first unknown name stops the chain. */
  function ChainBytes(t: Table, data: ByteString, names: seq<string>): (r: Result<ByteString>)
    ensures (forall i | 0 <= i < |names| :: names[i] in t) <==> r.Ok?
    decreases |names|
  {
    if names == [] then Ok(data)
    else
      match Lookup(t, names[0])
      case Err(e) => Err(e)
      case Ok(a) =>
        var r := ChainBytes(t, Encode(a.digest(data)), names[1..]);
        assert forall i | 1 <= i < |names| :: names[i] == names[1..][i - 1];
        r
  }

  /** `hash_chain`: the chained bytes read back as UTF-8. */
  function Chain(t: Table, data: Blob, names: seq<string>): (r: Result<string>) {
    match ChainBytes(t, BlobBytes(data), names)
    case Err(e) => Err(e)
    case Ok(bs) =>
      match Decode(bs)
      case None => Err(NotUtf8Error)
      case Some(s) => Ok(s)
  }

  /** Each step of a chain hashes the previous step's hex text: the chain
      over `names + [n]` extends the chain over `names` by one digest. */
  lemma {:induction false} ChainSnoc(t: Table, data: ByteString, names: seq<string>, n: string)
    ensures ChainBytes(t, data, names + [n]) ==
      match ChainBytes(t, data, names)
      case Err(e) => Err(e)
      case Ok(r) => if n in t then Ok(Encode(t[n].digest(r))) else Err("Unknown algorithm: " + n)
    decreases |names|
  {
    if names != [] {
      assert (names + [n])[0] == names[0] && (names + [n])[1..] == names[1..] + [n];
      if names[0] in t {
        ChainSnoc(t, Encode(t[names[0]].digest(data)), names[1..], n);
      }
    }
  }

  /** An empty chain gives a string back unchanged. */
  lemma ChainEmpty(t: Table, s: string)
    ensures Chain(t, Utf8(s), []) == Ok(s)
  {
    DecodeEncode(s);
  }

  /** A one-step chain over a string is `hash` of that string. */
  lemma ChainSingle(t: Table, c: Codecs, s: string, n: string)
    requires n != ""
    ensures Chain(t, Utf8(s), [n]) == HashValue(t, c, Str(s), Some(n))
  {
    if n in t {
      var h := t[n].digest(Encode(s));
      assert [n][1..] == [];
      assert ChainBytes(t, Encode(s), [n]) == ChainBytes(t, Encode(h), []);
      DecodeEncode(h);
    }
  }

  /** A chain through an unknown name fails with the first unknown name. */
  lemma {:induction false} ChainUnknown(t: Table, data: ByteString, names: seq<string>, k: nat)
    requires k < |names| && names[k] !in t
    requires forall i | 0 <= i < k :: names[i] in t
    ensures ChainBytes(t, data, names) == Err("Unknown algorithm: " + names[k])
    decreases k
  {
    if k > 0 {
      assert forall i | 0 <= i < k - 1 :: names[1..][i] == names[i + 1];
      ChainUnknown(t, Encode(t[names[0]].digest(data)), names[1..], k - 1);
    }
  }

  // ------------------------------------------------------------ HMAC

  /** `hmac_hash`: for names starting `sha3` or `blake` the digest of
      `key + data` (not an HMAC); otherwise the RFC 2104 HMAC. */
  function Hmac(t: Table, c: Codecs, data: Blob, key: ByteString, algorithm: Option<string>): (r: Result<string>) {
    var name := Chosen(algorithm);
    if StartsWith(name, "sha3") || StartsWith(name, "blake") then
      HashValue(t, c, Bytes(key + BlobBytes(data)), Some(name))
    else
      c.hmac(name, key, BlobBytes(data))
  }

  /** The keyed hash is a plain digest of `key + data` exactly for the
      `sha3*` and `blake*` names; everything else, sha256 included by
      default, goes to HMAC. */
  lemma HmacDispatch(t: Table, c: Codecs, data: Blob, key: ByteString, algorithm: Option<string>)
    ensures var name := Chosen(algorithm);
      (StartsWith(name, "sha3") || StartsWith(name, "blake")) && name in t ==>
        Hmac(t, c, data, key, algorithm) == Ok(t[name].digest(key + BlobBytes(data)))
    ensures !Truthy(algorithm) ==> Hmac(t, c, data, key, algorithm) == c.hmac("sha256", key, BlobBytes(data))
    ensures Truthy(algorithm) && !StartsWith(algorithm.value, "sha3") && !StartsWith(algorithm.value, "blake") ==>
              Hmac(t, c, data, key, algorithm) == c.hmac(algorithm.value, key, BlobBytes(data))
  {
    assert !StartsWith(DefaultAlgorithm, "sha3") by { assert DefaultAlgorithm[..4][3] != "sha3"[3]; }
    assert !StartsWith(DefaultAlgorithm, "blake") by { assert DefaultAlgorithm[..5][0] != "blake"[0]; }
  }

  // ------------------------------------------------------------ the registry

  /** `SHAInfinity`: the class-level table of algorithms with its key order. */
  class ShaInfinity {
    var algorithms: Table
    var names: seq<string>

    ghost predicate Valid()
      reads this
    {
      Distinct(names) && forall n :: n in algorithms <==> n in names
    }

    constructor (d: Digests)
      ensures Valid() && algorithms == DefaultTable(d) && names == DefaultNames
    {
      algorithms := DefaultTable(d);
      names := DefaultNames;
    }

    /** `register`: the algorithm is stored under its own name, replacing any
        earlier one, so `get` of that name returns it from now on. */
    method Register(a: Algorithm)
      requires Valid()
      modifies this
      ensures Valid()
      ensures algorithms == old(algorithms)[a.name := a]
      ensures names == if a.name in old(algorithms) then old(names) else old(names) + [a.name]
      ensures Lookup(algorithms, a.name) == Ok(a)
    {
      if a.name !in algorithms {
        names := names + [a.name];
      }
      algorithms := algorithms[a.name := a];
    }

    method Get(name: string) returns (r: Result<Algorithm>)
      ensures r == Lookup(algorithms, name)
    {
      if name !in algorithms {
        return Err("Unknown algorithm: " + name);
      }
      r := Ok(algorithms[name]);
    }

    /** `list_algorithms`: exactly the registered names. */
    method ListAlgorithms() returns (r: seq<string>)
      requires Valid()
      ensures r == names && Distinct(r)
      ensures forall n :: n in r <==> n in algorithms
    {
      r := names;
    }

    method Hash(data: Value, algorithm: Option<string>, c: Codecs) returns (r: Result<string>)
      ensures r == HashValue(algorithms, c, data, algorithm)
    {
      var algo := Get(if Truthy(algorithm) then algorithm.value else DefaultAlgorithm);
      if algo.Err? {
        return Err(algo.error);
      }
      var bytes := Serialize(data, c);
      if bytes.None? {
        return Err(NotBytesError);
      }
      r := Ok(algo.value.digest(bytes.value));
    }

    /** `hash_chain`, by the loop the source runs. */
    method HashChain(data: Blob, chain: seq<string>) returns (r: Result<string>)
      ensures r == Chain(algorithms, data, chain)
    {
      var result := BlobBytes(data);
      var i := 0;
      while i < |chain|
        invariant 0 <= i <= |chain|
        invariant ChainBytes(algorithms, BlobBytes(data), chain) == ChainBytes(algorithms, result, chain[i..])
      {
        var algo := Get(chain[i]);
        if algo.Err? {
          return Err(algo.error);
        }
        assert chain[i..][1..] == chain[i + 1..];
        result := Encode(algo.value.digest(result));
        i := i + 1;
      }
      assert chain[i..] == [];
      var text := Decode(result);
      if text.None? {
        return Err(NotUtf8Error);
      }
      r := Ok(text.value);
    }

    method HmacHash(data: Blob, key: ByteString, algorithm: Option<string>, c: Codecs) returns (r: Result<string>)
      ensures r == Hmac(algorithms, c, data, key, algorithm)
    {
      var bytes := BlobBytes(data);
      var name := if Truthy(algorithm) then algorithm.value else DefaultAlgorithm;
      if StartsWith(name, "sha3") || StartsWith(name, "blake") {
        r := Hash(Bytes(key + bytes), Some(name), c);
      } else {
        r := c.hmac(name, key, bytes);
      }
    }
  }

  // ------------------------------------------------------------ manifests

  /** A manifest without its creation time. */
  datatype Manifest = Manifest(algorithm: string, items: seq<(string, string)>, manifestHash: string)

  /** What `verify_manifest` reads of a manifest: its `algorithm`, if present,
      and its `items` (empty when absent). */
  datatype ManifestView = ManifestView(algorithm: Option<string>, items: map<string, string>)

  /** One entry of `checks`. `expected` and `actual` are the shortened
      digests, present only when the key was in the manifest. */
  datatype Check = Check(status: string, valid: bool, expected: Option<string>, actual: Option<string>)

  datatype Report = Report(valid: bool, algorithm: string, checks: seq<(string, Check)>)

  /** The digests of `items`' values, key by key; the first failure is the
      result if any value cannot be hashed. */
  function HashItems(t: Table, c: Codecs, alg: string, items: seq<(string, Value)>): (r: Result<seq<(string, string)>>)
    ensures r.Ok? ==> Keys(r.value) == Keys(items)
    ensures r.Ok? ==> forall i | 0 <= i < |items| :: HashValue(t, c, items[i].1, Some(alg)) == Ok(r.value[i].1)
    ensures r.Ok? <==> forall i | 0 <= i < |items| :: HashValue(t, c, items[i].1, Some(alg)).Ok?
    decreases |items|
  {
    if items == [] then Ok([])
    else
      var n := |items| - 1;
      match HashItems(t, c, alg, items[..n])
      case Err(e) => Err(e)
      case Ok(acc) =>
        match HashValue(t, c, items[n].1, Some(alg))
        case Err(e) => Err(e)
        case Ok(h) => Ok(acc + [(items[n].0, h)])
  }

  /** A failure on a prefix is the failure of the whole. */
  lemma {:induction false} HashItemsErr(t: Table, c: Codecs, alg: string, items: seq<(string, Value)>, i: nat)
    requires i <= |items| && HashItems(t, c, alg, items[..i]).Err?
    ensures HashItems(t, c, alg, items) == HashItems(t, c, alg, items[..i])
    decreases |items|
  {
    if i < |items| {
      var n := |items| - 1;
      assert items[..n][..i] == items[..i];
      HashItemsErr(t, c, alg, items[..n], i);
    } else {
      assert items[..i] == items;
    }
  }

  function StrEntries(hs: seq<(string, string)>): (r: seq<(string, Value)>)
    ensures |r| == |hs| && forall i | 0 <= i < |r| :: r[i] == (hs[i].0, Str(hs[i].1))
  {
    seq(|hs|, i requires 0 <= i < |hs| => (hs[i].0, Str(hs[i].1)))
  }

  /** `create_manifest`: the digest of every item, and the digest of that
      table of digests. */
  function CreateSpec(t: Table, c: Codecs, alg: string, items: seq<(string, Value)>): (r: Result<Manifest>)
    ensures r.Ok? ==> r.value.algorithm == alg && Keys(r.value.items) == Keys(items)
    ensures r.Ok? ==> forall i | 0 <= i < |items| :: HashValue(t, c, items[i].1, Some(alg)) == Ok(r.value.items[i].1)
    ensures r.Ok? ==> HashValue(t, c, Dict(StrEntries(r.value.items)), Some(alg)) == Ok(r.value.manifestHash)
  {
    match HashItems(t, c, alg, items)
    case Err(e) => Err(e)
    case Ok(hs) =>
      match HashValue(t, c, Dict(StrEntries(hs)), Some(alg))
      case Err(e) => Err(e)
      case Ok(h) => Ok(Manifest(alg, hs, h))
  }

  /** The check of one item against the manifest's digests. */
  function CheckItem(t: Table, c: Codecs, alg: string, known: map<string, string>, value: Value, key: string): (r: Result<Check>)
    ensures key !in known ==> r == Ok(Check("missing", false, None, None))
    ensures key in known ==> (r.Ok? <==> HashValue(t, c, value, Some(alg)).Ok?)
    ensures key in known && r.Ok? ==>
              (r.value.valid <==> HashValue(t, c, value, Some(alg)) == Ok(known[key])) &&
              r.value.status == (if r.value.valid then "valid" else "invalid") &&
              r.value.expected == Some(Take(known[key], 16) + "...") &&
              r.value.actual == Some(Take(HashValue(t, c, value, Some(alg)).value, 16) + "...")
  {
    if key !in known then Ok(Check("missing", false, None, None))
    else
      match HashValue(t, c, value, Some(alg))
      case Err(e) => Err(e)
      case Ok(actual) =>
        var valid := actual == known[key];
        Ok(Check(if valid then "valid" else "invalid", valid,
                 Some(Take(known[key], 16) + "..."), Some(Take(actual, 16) + "...")))
  }

  /** The check of one item, paired with its key. */
  function KeyedCheck(t: Table, c: Codecs, alg: string, known: map<string, string>, item: (string, Value)):
    (r: Result<(string, Check)>)
    ensures r.Ok? ==> r.value.0 == item.0
  {
    match CheckItem(t, c, alg, known, item.1, item.0)
    case Err(e) => Err(e)
    case Ok(check) => Ok((item.0, check))
  }

  function ItemChecks(t: Table, c: Codecs, alg: string, known: map<string, string>, items: seq<(string, Value)>):
    (rs: seq<Result<(string, Check)>>)
    ensures |rs| == |items| && forall i | 0 <= i < |items| :: rs[i] == KeyedCheck(t, c, alg, known, items[i])
  {
    seq(|items|, i requires 0 <= i < |items| => KeyedCheck(t, c, alg, known, items[i]))
  }

  /** The checks of all items, in order, stopping at the first item whose
      value cannot be hashed. */
  function Checks(t: Table, c: Codecs, alg: string, known: map<string, string>, items: seq<(string, Value)>):
    (r: Result<seq<(string, Check)>>)
    ensures r.Ok? ==> |r.value| == |items|
  {
    Collect(ItemChecks(t, c, alg, known, items))
  }

  /** The checks complete exactly when every item's check does, and then
      hold each item's check under its key. */
  lemma ChecksEach(t: Table, c: Codecs, alg: string, known: map<string, string>, items: seq<(string, Value)>)
    ensures Checks(t, c, alg, known, items).Ok? <==>
            forall i | 0 <= i < |items| :: CheckItem(t, c, alg, known, items[i].1, items[i].0).Ok?
    ensures Checks(t, c, alg, known, items).Ok? ==>
      Keys(Checks(t, c, alg, known, items).value) == Keys(items) &&
      forall i | 0 <= i < |items| ::
        CheckItem(t, c, alg, known, items[i].1, items[i].0) == Ok(Checks(t, c, alg, known, items).value[i].1)
  {
    var rs := ItemChecks(t, c, alg, known, items);
    CollectEach(rs);
    assert Checks(t, c, alg, known, items) == Collect(rs);
    forall i | 0 <= i < |items|
      ensures rs[i].Ok? <==> CheckItem(t, c, alg, known, items[i].1, items[i].0).Ok?
    {
      assert rs[i] == KeyedCheck(t, c, alg, known, items[i]);
    }
    if Collect(rs).Ok? {
      var v := Collect(rs).value;
      forall i | 0 <= i < |items|
        ensures v[i].0 == items[i].0 && CheckItem(t, c, alg, known, items[i].1, items[i].0) == Ok(v[i].1)
      {
        assert rs[i] == KeyedCheck(t, c, alg, known, items[i]);
      }
      assert Keys(v) == Keys(items);
    }
  }

  predicate AllValid(checks: seq<(string, Check)>) {
    forall i | 0 <= i < |checks| :: checks[i].1.valid
  }

  lemma AllValidStep(checks: seq<(string, Check)>, x: (string, Check))
    ensures AllValid(checks + [x]) <==> AllValid(checks) && x.1.valid
  {
    assert (checks + [x])[|checks|] == x;
    assert forall i | 0 <= i < |checks| :: (checks + [x])[i] == checks[i];
  }

  /** `verify_manifest`: the manifest's algorithm (else the hasher's), one
      check per item, and validity when every check passed. */
  function VerifySpec(t: Table, c: Codecs, defaultAlg: string, m: ManifestView, items: seq<(string, Value)>):
    (r: Result<Report>)
    ensures r.Ok? <==> Checks(t, c, if m.algorithm.Some? then m.algorithm.value else defaultAlg, m.items, items).Ok?
    ensures r.Ok? ==> r.value.algorithm == (if m.algorithm.Some? then m.algorithm.value else defaultAlg)
    ensures r.Ok? ==> Keys(r.value.checks) == Keys(items)
    ensures r.Ok? ==> (r.value.valid <==>
              forall i | 0 <= i < |items| ::
                items[i].0 in m.items && HashValue(t, c, items[i].1, Some(r.value.algorithm)) == Ok(m.items[items[i].0]))
  {
    var alg := if m.algorithm.Some? then m.algorithm.value else defaultAlg;
    ChecksEach(t, c, alg, m.items, items);
    match Checks(t, c, alg, m.items, items)
    case Err(e) => Err(e)
    case Ok(checks) =>
      assert AllValid(checks) <==>
             forall i | 0 <= i < |items| ::
               items[i].0 in m.items && HashValue(t, c, items[i].1, Some(alg)) == Ok(m.items[items[i].0]) by {
        forall i | 0 <= i < |items|
          ensures checks[i].1.valid <==>
                  items[i].0 in m.items && HashValue(t, c, items[i].1, Some(alg)) == Ok(m.items[items[i].0])
        {
          assert CheckItem(t, c, alg, m.items, items[i].1, items[i].0) == Ok(checks[i].1);
        }
      }
      Ok(Report(AllValid(checks), alg, checks))
  }

  function ToMap(pairs: seq<(string, string)>): (m: map<string, string>)
    ensures m.Keys == set i | 0 <= i < |pairs| :: pairs[i].0
    decreases |pairs|
  {
    if pairs == [] then map[]
    else
      var n := |pairs| - 1;
      ToMap(pairs[..n])[pairs[n].0 := pairs[n].1]
  }

  lemma {:induction false} ToMapDistinct(pairs: seq<(string, string)>, i: nat)
    requires i < |pairs| && Distinct(Keys(pairs))
    ensures pairs[i].0 in ToMap(pairs) && ToMap(pairs)[pairs[i].0] == pairs[i].1
    decreases |pairs|
  {
    var n := |pairs| - 1;
    if i < n {
      assert Keys(pairs[..n]) == Keys(pairs)[..n];
      ToMapDistinct(pairs[..n], i);
    }
  }

  /** A manifest verifies the very items it was created from. */
  lemma ManifestRoundTrip(t: Table, c: Codecs, alg: string, defaultAlg: string, items: seq<(string, Value)>)
    requires DistinctKeys(items)
    requires CreateSpec(t, c, alg, items).Ok?
    ensures var m := CreateSpec(t, c, alg, items).value;
      var r := VerifySpec(t, c, defaultAlg, ManifestView(Some(m.algorithm), ToMap(m.items)), items);
      r.Ok? && r.value.valid
  {
    var m := CreateSpec(t, c, alg, items).value;
    DigestsKnown(t, c, alg, items, m.items);
    ChecksOk(t, c, alg, ToMap(m.items), items);
  }

  /** The digests listed for distinct items are found again by key. */
  lemma DigestsKnown(t: Table, c: Codecs, alg: string, items: seq<(string, Value)>, hs: seq<(string, string)>)
    requires DistinctKeys(items) && Keys(hs) == Keys(items)
    requires forall i | 0 <= i < |items| :: HashValue(t, c, items[i].1, Some(alg)) == Ok(hs[i].1)
    ensures forall i | 0 <= i < |items| ::
      items[i].0 in ToMap(hs) && HashValue(t, c, items[i].1, Some(alg)) == Ok(ToMap(hs)[items[i].0])
  {
    forall i | 0 <= i < |items|
      ensures items[i].0 in ToMap(hs) && HashValue(t, c, items[i].1, Some(alg)) == Ok(ToMap(hs)[items[i].0])
    {
      assert Keys(hs)[i] == hs[i].0;
      ToMapDistinct(hs, i);
    }
  }

  /** When every present key's value hashes, the checks all complete. */
  lemma ChecksOk(t: Table, c: Codecs, alg: string, known: map<string, string>, items: seq<(string, Value)>)
    requires forall i | 0 <= i < |items| :: items[i].0 in known ==> HashValue(t, c, items[i].1, Some(alg)).Ok?
    ensures Checks(t, c, alg, known, items).Ok?
  {
    ChecksEach(t, c, alg, known, items);
  }

  /** Keys of the manifest that are not among the items change nothing. */
  lemma ExtraKeysIgnored(t: Table, c: Codecs, alg: string, known: map<string, string>,
                         items: seq<(string, Value)>, k: string, h: string)
    requires k !in Keys(items)
    ensures Checks(t, c, alg, known[k := h], items) == Checks(t, c, alg, known, items)
  {
    var rs, rs' := ItemChecks(t, c, alg, known[k := h], items), ItemChecks(t, c, alg, known, items);
    forall i | 0 <= i < |items| ensures rs[i] == rs'[i] {
      assert Keys(items)[i] == items[i].0;
    }
    assert rs == rs';
  }

  /** `BlackRoadHasher`: an algorithm name over the shared registry. */
  class Hasher {
    const algorithm: string
    const hasher: ShaInfinity

    constructor (algorithm: string, hasher: ShaInfinity)
      ensures this.algorithm == algorithm && this.hasher == hasher
    {
      this.algorithm := algorithm;
      this.hasher := hasher;
    }

    /** `hash_config`: the compact sorted-key JSON of the configuration,
        hashed as a string; configurations equal as maps hash alike. */
    method HashConfig(config: Value, c: Codecs) returns (r: Result<string>)
      ensures r == HashValue(hasher.algorithms, c, Str(c.compactJson(Canonical(config))), Some(algorithm))
    {
      var normalized := c.compactJson(Canonical(config));
      r := hasher.Hash(Str(normalized), Some(algorithm), c);
    }

    /** `verify_integrity`: the given algorithm, else the hasher's, and an
        equality test on the digest. */
    method VerifyIntegrity(data: Value, expected: string, algorithm: Option<string>, c: Codecs) returns (r: Result<bool>)
      ensures var used := if Truthy(algorithm) then algorithm.value else this.algorithm;
        r == match HashValue(hasher.algorithms, c, data, Some(used))
             case Err(e) => Err(e)
             case Ok(actual) => Ok(actual == expected)
    {
      var algo := if Truthy(algorithm) then algorithm.value else this.algorithm;
      var actual := hasher.Hash(data, Some(algo), c);
      if actual.Err? {
        return Err(actual.error);
      }
      r := Ok(actual.value == expected);
    }

    method CreateManifest(items: seq<(string, Value)>, c: Codecs) returns (r: Result<Manifest>)
      ensures r == CreateSpec(hasher.algorithms, c, algorithm, items)
    {
      var hashed: seq<(string, string)> := [];
      var i := 0;
      while i < |items|
        invariant 0 <= i <= |items|
        invariant HashItems(hasher.algorithms, c, algorithm, items[..i]) == Ok(hashed)
      {
        var h := hasher.Hash(items[i].1, Some(algorithm), c);
        assert items[..i + 1][..i] == items[..i];
        if h.Err? {
          HashItemsErr(hasher.algorithms, c, algorithm, items, i + 1);
          return Err(h.error);
        }
        hashed := hashed + [(items[i].0, h.value)];
        i := i + 1;
      }
      assert items[..i] == items;
      var manifestHash := hasher.Hash(Dict(StrEntries(hashed)), Some(algorithm), c);
      if manifestHash.Err? {
        return Err(manifestHash.error);
      }
      r := Ok(Manifest(algorithm, hashed, manifestHash.value));
    }

    method VerifyManifest(m: ManifestView, items: seq<(string, Value)>, c: Codecs) returns (r: Result<Report>)
      ensures r == VerifySpec(hasher.algorithms, c, algorithm, m, items)
    {
      var alg := if m.algorithm.Some? then m.algorithm.value else this.algorithm;
      var checks, valid := CheckAll(alg, m.items, items, c);
      if checks.Err? {
        return Err(checks.error);
      }
      r := Ok(Report(valid, alg, checks.value));
    }

    /** The loop of `verify_manifest`: every item checked in order, and
        whether every check passed. */
    method CheckAll(alg: string, known: map<string, string>, items: seq<(string, Value)>, c: Codecs)
      returns (r: Result<seq<(string, Check)>>, valid: bool)
      ensures r == Checks(hasher.algorithms, c, alg, known, items)
      ensures r.Ok? ==> valid == AllValid(r.value)
    {
      valid := true;
      var checks: seq<(string, Check)> := [];
      ghost var rs := ItemChecks(hasher.algorithms, c, alg, known, items);
      var i := 0;
      assert rs[..0] == [];
      while i < |items|
        invariant 0 <= i <= |items|
        invariant Collect(rs[..i]) == Ok(checks)
        invariant valid == AllValid(checks)
      {
        var (key, value) := items[i];
        var check := CheckOf(key, value, alg, known, c);
        assert rs[i] == KeyedCheck(hasher.algorithms, c, alg, known, items[i]);
        CollectStep(rs, i, checks);
        if check.Err? {
          return Err(check.error), false;
        }
        AllValidStep(checks, (key, check.value));
        if !check.value.valid {
          valid := false;
        }
        checks := checks + [(key, check.value)];
        i := i + 1;
      }
      assert rs[..i] == rs;
      r := Ok(checks);
    }

    /** One item of `verify_manifest`: missing from the manifest, or its hash
        compared with the recorded one. */
    method CheckOf(key: string, value: Value, alg: string, known: map<string, string>, c: Codecs)
      returns (r: Result<Check>)
      ensures r == CheckItem(hasher.algorithms, c, alg, known, value, key)
    {
      if key !in known {
        return Ok(Check("missing", false, None, None));
      }
      var expected := known[key];
      var actual := hasher.Hash(value, Some(alg), c);
      if actual.Err? {
        return Err(actual.error);
      }
      var ok := actual.value == expected;
      r := Ok(Check(if ok then "valid" else "invalid", ok,
                    Some(Take(expected, 16) + "..."), Some(Take(actual.value, 16) + "...")));
    }
  }
}
