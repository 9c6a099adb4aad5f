/** scripts/sync_state.py: flattening nested kanban state into `:`-joined
    keys, state records with their short content hash, the accounting of the
    Cloudflare KV and Salesforce sync loops, the sync manifest, and the early
    exit of a full sync.

    The clock is a `now` input; the KV `put` and the Salesforce `post` are
    oracles from what is sent to the envelope that comes back; `sha256` and
    the JSON serialisers are inputs. */
module SyncState {
  import opened Text
  import opened PyValue
  import opened ApiBase

  /** `json.dumps(v, sort_keys=True)` (a function of the canonical form),
      plain `json.dumps(v)`, and `str(v)`. */
  datatype Json = Json(sorted: Canon -> string, plain: Value -> string, pyStr: Value -> string)

  // ------------------------------------------------------------ flattening

  /** `f"{current}:{k}" if current else k` */
  function JoinKey(current: string, k: string): (r: string)
    ensures current == "" ==> r == k
    ensures current != "" ==> r == current + ":" + k
  {
    if current == "" then k else current + ":" + k
  }

  /** Where `k` already is in an ordered dict. */
  function IndexOfKey(d: seq<(string, Value)>, k: string): (r: Option<nat>)
    ensures r.Some? ==> r.value < |d| && d[r.value].0 == k
    ensures r.None? ==> k !in Keys(d)
    decreases |d|
  {
    if d == [] then None
    else if d[|d| - 1].0 == k then Some(|d| - 1)
    else
      var r := IndexOfKey(d[..|d| - 1], k);
      assert Keys(d) == Keys(d[..|d| - 1]) + [d[|d| - 1].0];
      r
  }

  /** `d[k] = v` on an insertion-ordered dict: an existing key keeps its
      place, a new key goes at the end. */
  function Put(d: seq<(string, Value)>, k: string, v: Value): (r: seq<(string, Value)>)
    ensures k !in Keys(d) ==> r == d + [(k, v)]
    ensures k in Keys(d) ==> Keys(r) == Keys(d)
    ensures DistinctKeys(d) ==> DistinctKeys(r)
    ensures forall i | 0 <= i < |r| :: r[i] in d || r[i] == (k, v)
    ensures (k, v) in r
  {
    match IndexOfKey(d, k)
    case None => d + [(k, v)]
    case Some(i) => d[i := (k, v)]
  }

  /** `_flatten(obj, current_key)` writing into `result`: a dict is walked
      entry by entry; anything else is stored under the current key. */
  function FlattenInto(acc: seq<(string, Value)>, obj: Value, key: string): (r: seq<(string, Value)>)
    ensures DistinctKeys(acc) ==> DistinctKeys(r)
    ensures (forall i | 0 <= i < |acc| :: !acc[i].1.Dict?) ==> forall i | 0 <= i < |r| :: !r[i].1.Dict?
    decreases obj, 1
  {
    if obj.Dict? then FlattenEntries(acc, obj, obj.entries, key) else Put(acc, key, obj)
  }

  function FlattenEntries(acc: seq<(string, Value)>, ghost parent: Value, es: seq<(string, Value)>, key: string):
    (r: seq<(string, Value)>)
    requires forall i | 0 <= i < |es| :: es[i].1 < parent
    ensures DistinctKeys(acc) ==> DistinctKeys(r)
    ensures (forall i | 0 <= i < |acc| :: !acc[i].1.Dict?) ==> forall i | 0 <= i < |r| :: !r[i].1.Dict?
    decreases parent, 0, |es|
  {
    if es == [] then acc
    else FlattenEntries(FlattenInto(acc, es[0].1, JoinKey(key, es[0].0)), parent, es[1..], key)
  }

  /** `_flatten_state(state, prefix)`: a dict with distinct keys and no dict
      among its values. */
  function Flatten(state: Value, prefix: string): (r: seq<(string, Value)>)
    ensures DistinctKeys(r)
    ensures forall i | 0 <= i < |r| :: !r[i].1.Dict?
  {
    FlattenInto([], state, prefix)
  }

  /** The reference reading: every non-dict value reached through keys
      `k1 .. kn`, in walk order, paired with its joined key. */
  function Leaves(v: Value, key: string): (r: seq<(string, Value)>)
    ensures forall i | 0 <= i < |r| :: !r[i].1.Dict?
    decreases v, 1
  {
    if v.Dict? then LeavesOf(v, v.entries, key) else [(key, v)]
  }

  function LeavesOf(ghost parent: Value, es: seq<(string, Value)>, key: string): (r: seq<(string, Value)>)
    requires forall i | 0 <= i < |es| :: es[i].1 < parent
    ensures forall i | 0 <= i < |r| :: !r[i].1.Dict?
    decreases parent, 0, |es|
  {
    if es == [] then [] else Leaves(es[0].1, JoinKey(key, es[0].0)) + LeavesOf(parent, es[1..], key)
  }

  /** Storing `pairs` one after the other. */
  function PutAll(acc: seq<(string, Value)>, pairs: seq<(string, Value)>): seq<(string, Value)>
    decreases |pairs|
  {
    if pairs == [] then acc else PutAll(Put(acc, pairs[0].0, pairs[0].1), pairs[1..])
  }

  lemma {:induction false} PutAllAppend(acc: seq<(string, Value)>, a: seq<(string, Value)>, b: seq<(string, Value)>)
    ensures PutAll(acc, a + b) == PutAll(PutAll(acc, a), b)
    decreases |a|
  {
    if a != [] {
      assert (a + b)[0] == a[0] && (a + b)[1..] == a[1..] + b;
      PutAllAppend(Put(acc, a[0].0, a[0].1), a[1..], b);
    } else {
      assert a + b == b;
    }
  }

  /** The walk stores exactly the leaves, in order, with later writes to a
      key replacing earlier ones. */
  lemma {:induction false} FlattenIntoIsPutAll(acc: seq<(string, Value)>, v: Value, key: string)
    ensures FlattenInto(acc, v, key) == PutAll(acc, Leaves(v, key))
    decreases v, 1
  {
    if v.Dict? {
      FlattenEntriesIsPutAll(acc, v, v.entries, key);
    } else {
      assert PutAll(acc, [(key, v)]) == PutAll(Put(acc, key, v), []);
    }
  }

  lemma {:induction false} FlattenEntriesIsPutAll(acc: seq<(string, Value)>, parent: Value, es: seq<(string, Value)>, key: string)
    requires forall i | 0 <= i < |es| :: es[i].1 < parent
    ensures FlattenEntries(acc, parent, es, key) == PutAll(acc, LeavesOf(parent, es, key))
    decreases parent, 0, |es|
  {
    if es != [] {
      var first := JoinKey(key, es[0].0);
      FlattenIntoIsPutAll(acc, es[0].1, first);
      FlattenEntriesIsPutAll(FlattenInto(acc, es[0].1, first), parent, es[1..], key);
      PutAllAppend(acc, Leaves(es[0].1, first), LeavesOf(parent, es[1..], key));
    }
  }

  /** Storing pairs with new, distinct keys just appends them. */
  lemma {:induction false} PutAllFresh(acc: seq<(string, Value)>, pairs: seq<(string, Value)>)
    requires DistinctKeys(acc + pairs)
    ensures PutAll(acc, pairs) == acc + pairs
    decreases |pairs|
  {
    if pairs != [] {
      var (k, v) := pairs[0];
      assert k !in Keys(acc) by {
        forall i | 0 <= i < |acc| ensures acc[i].0 != k {
          assert (acc + pairs)[i] == acc[i] && (acc + pairs)[|acc|] == pairs[0];
        }
      }
      assert acc + pairs == (acc + [(k, v)]) + pairs[1..];
      PutAllFresh(acc + [(k, v)], pairs[1..]);
    }
  }

  /** A put stores its key and keeps every key already there. */
  lemma PutKeys(d: seq<(string, Value)>, k: string, v: Value)
    ensures k in Keys(Put(d, k, v))
    ensures forall k' | k' in Keys(d) :: k' in Keys(Put(d, k, v))
  {
    var r := Put(d, k, v);
    var j :| 0 <= j < |r| && r[j] == (k, v);
    assert Keys(r)[j] == k;
    if k !in Keys(d) {
      assert Keys(r) == Keys(d) + [k];
    }
  }

  lemma {:induction false} PutAllFrom(acc: seq<(string, Value)>, pairs: seq<(string, Value)>)
    ensures forall e | e in PutAll(acc, pairs) :: e in acc || e in pairs
    decreases |pairs|
  {
    if pairs != [] {
      var next := Put(acc, pairs[0].0, pairs[0].1);
      PutAllFrom(next, pairs[1..]);
      assert forall e | e in next :: e in acc || e == pairs[0];
      assert forall e | e in pairs[1..] :: e in pairs;
    }
  }

  lemma {:induction false} PutAllKeepsKeys(acc: seq<(string, Value)>, pairs: seq<(string, Value)>)
    ensures forall k | k in Keys(acc) :: k in Keys(PutAll(acc, pairs))
    decreases |pairs|
  {
    if pairs != [] {
      PutKeys(acc, pairs[0].0, pairs[0].1);
      PutAllKeepsKeys(Put(acc, pairs[0].0, pairs[0].1), pairs[1..]);
    }
  }

  lemma {:induction false} PutAllStores(acc: seq<(string, Value)>, pairs: seq<(string, Value)>)
    ensures forall i | 0 <= i < |pairs| :: pairs[i].0 in Keys(PutAll(acc, pairs))
    decreases |pairs|
  {
    if pairs != [] {
      var next := Put(acc, pairs[0].0, pairs[0].1);
      var rest := pairs[1..];
      var all := PutAll(next, rest);
      assert PutAll(acc, pairs) == all;
      PutKeys(acc, pairs[0].0, pairs[0].1);
      PutAllKeepsKeys(next, rest);
      PutAllStores(next, rest);
      assert pairs[0].0 in Keys(all);
      forall i | 1 <= i < |pairs| ensures pairs[i].0 in Keys(all) {
        assert rest[i - 1] == pairs[i];
      }
    }
  }

  /** Whatever is stored comes from the accumulator or the pairs, every
      pair's key is stored, and no key is lost. */
  lemma PutAllContents(acc: seq<(string, Value)>, pairs: seq<(string, Value)>)
    ensures forall e | e in PutAll(acc, pairs) :: e in acc || e in pairs
    ensures forall i | 0 <= i < |pairs| :: pairs[i].0 in Keys(PutAll(acc, pairs))
    ensures forall k | k in Keys(acc) :: k in Keys(PutAll(acc, pairs))
  {
    PutAllFrom(acc, pairs);
    PutAllStores(acc, pairs);
    PutAllKeepsKeys(acc, pairs);
  }

  /** The flattened state holds leaves under their joined keys, and every
      leaf's key is present; when the joined keys do not collide it is the
      leaves exactly. */
  lemma FlattenSpec(state: Value, prefix: string)
    ensures forall e | e in Flatten(state, prefix) :: e in Leaves(state, prefix)
    ensures forall e | e in Leaves(state, prefix) :: e.0 in Keys(Flatten(state, prefix))
    ensures DistinctKeys(Leaves(state, prefix)) ==> Flatten(state, prefix) == Leaves(state, prefix)
  {
    var leaves := Leaves(state, prefix);
    FlattenIntoIsPutAll([], state, prefix);
    PutAllContents([], leaves);
    if DistinctKeys(leaves) {
      assert [] + leaves == leaves;
      PutAllFresh([], leaves);
    }
  }

  /** Lists and scalars are stored whole under the current key. */
  lemma LeafIsStoredWhole(v: Value, prefix: string)
    requires !v.Dict?
    ensures Flatten(v, prefix) == [(prefix, v)]
  {
  }

  lemma {:induction false} LeavesOfFlat(parent: Value, es: seq<(string, Value)>)
    requires forall i | 0 <= i < |es| :: es[i].1 < parent && !es[i].1.Dict?
    ensures LeavesOf(parent, es, "") == es
    decreases |es|
  {
    if es != [] {
      LeavesOfFlat(parent, es[1..]);
      assert es == [es[0]] + es[1..];
    }
  }

  /** With an empty prefix a dict without nested dicts flattens to itself. */
  lemma FlatDictIsFixed(es: seq<(string, Value)>)
    requires DistinctKeys(es)
    requires forall i | 0 <= i < |es| :: !es[i].1.Dict?
    ensures Flatten(Dict(es), "") == es
  {
    var v := Dict(es);
    assert forall i | 0 <= i < |es| :: es[i].1 < v;
    LeavesOfFlat(v, es);
    FlattenSpec(v, "");
  }

  /** An empty nested dict adds no key. */
  lemma {:induction false} EmptyDictAddsNothing(parent: Value, es: seq<(string, Value)>, k: string, key: string)
    requires forall i | 0 <= i < |es| :: es[i].1 < parent
    requires Dict([]) < parent
    ensures LeavesOf(parent, es + [(k, Dict([]))], key) == LeavesOf(parent, es, key)
    decreases |es|
  {
    if es != [] {
      assert (es + [(k, Dict([]))])[1..] == es[1..] + [(k, Dict([]))];
      EmptyDictAddsNothing(parent, es[1..], k, key);
    } else {
      assert [(k, Dict([]))][1..] == [];
    }
  }

  lemma StartsWithTrans(s: string, m: string, p: string)
    requires StartsWith(s, m) && StartsWith(m, p)
    ensures StartsWith(s, p)
  {
    assert s[..|p|] == s[..|m|][..|p|];
  }

  /** Every key below a non-empty key extends it. */
  lemma {:induction false} LeavesStartWith(v: Value, key: string, p: string)
    requires StartsWith(key, p)
    ensures forall e | e in Leaves(v, key) :: StartsWith(e.0, p)
    decreases v, 1
  {
    if v.Dict? {
      LeavesOfStartWith(v, v.entries, key, p);
    }
  }

  lemma {:induction false} LeavesOfStartWith(parent: Value, es: seq<(string, Value)>, key: string, p: string)
    requires forall i | 0 <= i < |es| :: es[i].1 < parent
    requires StartsWith(key, p)
    ensures forall e | e in LeavesOf(parent, es, key) :: StartsWith(e.0, p)
    decreases parent, 0, |es|
  {
    if es != [] {
      var first := JoinKey(key, es[0].0);
      assert StartsWith(first, p) by {
        if key != "" {
          assert first[..|key|] == key;
          StartsWithTrans(first, key, p);
        }
      }
      LeavesStartWith(es[0].1, first, p);
      LeavesOfStartWith(parent, es[1..], key, p);
    }
  }

  /** Under a non-empty prefix, every key of a flattened dict starts with
      the prefix and a colon. */
  lemma DictKeysUnderPrefix(es: seq<(string, Value)>, prefix: string)
    requires prefix != ""
    ensures forall k | k in Keys(Flatten(Dict(es), prefix)) :: StartsWith(k, prefix + ":")
  {
    var v := Dict(es);
    assert forall i | 0 <= i < |es| :: es[i].1 < v;
    forall i | 0 <= i < |es|
      ensures forall e | e in Leaves(es[i].1, JoinKey(prefix, es[i].0)) :: StartsWith(e.0, prefix + ":")
    {
      var first := JoinKey(prefix, es[i].0);
      assert first[..|prefix + ":"|] == prefix + ":";
      LeavesStartWith(es[i].1, first, prefix + ":");
    }
    LeavesOfSplit(v, es, prefix, prefix + ":");
    FlattenSpec(v, prefix);
    forall k | k in Keys(Flatten(v, prefix)) ensures StartsWith(k, prefix + ":") {
      var j :| 0 <= j < |Flatten(v, prefix)| && Keys(Flatten(v, prefix))[j] == k;
      assert Flatten(v, prefix)[j] in Leaves(v, prefix);
    }
  }

  /** A leaf of the entries is a leaf of one entry. */
  lemma {:induction false} LeavesOfSplit(parent: Value, es: seq<(string, Value)>, key: string, p: string)
    requires forall i | 0 <= i < |es| :: es[i].1 < parent
    requires forall i | 0 <= i < |es| :: forall e | e in Leaves(es[i].1, JoinKey(key, es[i].0)) :: StartsWith(e.0, p)
    ensures forall e | e in LeavesOf(parent, es, key) :: StartsWith(e.0, p)
    decreases |es|
  {
    if es != [] {
      assert forall i | 0 <= i < |es| - 1 :: es[1..][i] == es[i + 1];
      LeavesOfSplit(parent, es[1..], key, p);
    }
  }

  lemma InnerLeavesExample()
    ensures Leaves(Dict([("b", Int(1)), ("c", List([]))]), "p:a") == [("p:a:b", Int(1)), ("p:a:c", List([]))]
  {
    var inner := Dict([("b", Int(1)), ("c", List([]))]);
    assert JoinKey("p:a", "b") == "p:a:b" && JoinKey("p:a", "c") == "p:a:c";
    assert LeavesOf(inner, inner.entries[1..], "p:a") == [("p:a:c", List([]))];
  }

  lemma ExampleLeavesDistinct()
    ensures DistinctKeys([("p:a:b", Int(1)), ("p:a:c", List([])), ("p:d", Str("x"))])
  {
    var ks: seq<string> := ["p:a:b", "p:a:c", "p:d"];
    assert ks[0][4] != ks[1][4] && ks[0][2] != ks[2][2] && ks[1][2] != ks[2][2];
  }

  /** A two-level example: nested keys are joined, lists are kept whole. */
  lemma FlattenExample()
    ensures Flatten(Dict([("a", Dict([("b", Int(1)), ("c", List([]))])), ("d", Str("x"))]), "p")
            == [("p:a:b", Int(1)), ("p:a:c", List([])), ("p:d", Str("x"))]
  {
    var inner := Dict([("b", Int(1)), ("c", List([]))]);
    var outer := Dict([("a", inner), ("d", Str("x"))]);
    var leaves := [("p:a:b", Int(1)), ("p:a:c", List([])), ("p:d", Str("x"))];
    assert JoinKey("p", "a") == "p:a" && JoinKey("p", "d") == "p:d";
    InnerLeavesExample();
    assert LeavesOf(outer, outer.entries[1..], "p") == [("p:d", Str("x"))];
    assert Leaves(outer, "p") == leaves;
    ExampleLeavesDistinct();
    FlattenSpec(outer, "p");
  }

  // ------------------------------------------------------------ records

  /** A `StateRecord`. */
  datatype StateRecord = StateRecord(key: string, value: Value, hash: string, timestamp: string, source: string)

  /** The text `StateRecord.create` hashes: sorted-key JSON for a dict or
      list, `str()` for anything else. */
  function ValueText(v: Value, json: Json): string {
    if v.Dict? || v.List? then json.sorted(Canonical(v)) else json.pyStr(v)
  }

  /** `StateRecord.create`: the hash is the first 16 characters of the
      sha256 of the value's text. */
  function CreateRecord(key: string, value: Value, source: string, now: string,
                        sha: string -> string, json: Json): (r: StateRecord)
    ensures r.key == key && r.value == value && r.source == source && r.timestamp == now
    ensures var digest := sha(ValueText(value, json));
      |r.hash| <= 16 && |r.hash| <= |digest| && r.hash == digest[..|r.hash|] &&
      (|r.hash| == 16 || r.hash == digest)
  {
    StateRecord(key, value, Take(sha(ValueText(value, json)), 16), now, source)
  }

  /** The record hash depends on the value alone, and a dict's hash not on
      the order of its keys. */
  lemma RecordHashOnlyValue(k1: string, k2: string, e1: seq<(string, Value)>, e2: seq<(string, Value)>,
                            s1: string, s2: string, t1: string, t2: string, sha: string -> string, json: Json)
    requires DistinctKeys(e1) && DistinctKeys(e2) && multiset(e1) == multiset(e2)
    ensures CreateRecord(k1, Dict(e1), s1, t1, sha, json).hash == CreateRecord(k2, Dict(e2), s2, t2, sha, json).hash
  {
    DictOrderIrrelevant(e1, e2);
  }

  /** `asdict(record)` */
  function RecordValue(r: StateRecord): Value {
    Dict([("key", Str(r.key)), ("value", r.value), ("hash", Str(r.hash)),
          ("timestamp", Str(r.timestamp)), ("source", Str(r.source))])
  }

  // ------------------------------------------------------------ sync loops

  /** A `SyncResult` without its timestamp. */
  datatype SyncResult = SyncResult(success: bool, source: string, destination: string,
                                   recordsSynced: nat, errors: seq<string>)

  /** An f-string of an optional error: `None` prints as `None`. */
  function ShowError(e: Option<string>): string {
    if e.Some? then e.value else "None"
  }

  /** Whether a sync counts a response as synced; Salesforce also accepts a
      400, which may be a duplicate. */
  predicate Accepted(r: APIResponse, lenient: bool) {
    r.success || (lenient && r.statusCode == 400)
  }

  /** One iteration's bookkeeping: count the record, or add `tag: error`. */
  function Step(t: (nat, seq<string>), tag: string, response: APIResponse, lenient: bool): (nat, seq<string>) {
    if Accepted(response, lenient) then (t.0 + 1, t.1)
    else (t.0, t.1 + [tag + ": " + ShowError(response.error)])
  }

  function NotConfigured(destination: string, message: string): SyncResult {
    SyncResult(false, "local", destination, 0, [message])
  }

  function Finish(destination: string, t: (nat, seq<string>)): SyncResult {
    SyncResult(t.1 == [], "local", destination, t.0, t.1)
  }

  /** What `sync_to_cloudflare` writes under a flattened key. */
  function KvValue(key: string, value: Value, now: string, sha: string -> string, json: Json): string {
    json.plain(RecordValue(CreateRecord(key, value, "local", now, sha, json)))
  }

  /** The response the KV store gives for one flattened entry. */
  function KvPut(e: (string, Value), now: string, sha: string -> string, json: Json,
                 put: (string, string) -> APIResponse): APIResponse {
    put(e.0, KvValue(e.0, e.1, now, sha, json))
  }

  /** The `synced` count and `errors` the Cloudflare loop ends with: every
      entry is counted or reported, and nothing is reported exactly when
      every put succeeded. */
  function KvTally(entries: seq<(string, Value)>, now: string, sha: string -> string, json: Json,
                   put: (string, string) -> APIResponse): (t: (nat, seq<string>))
    ensures t.0 + |t.1| == |entries|
    decreases |entries|
  {
    if entries == [] then (0, [])
    else
      var n := |entries| - 1;
      var prev := KvTally(entries[..n], now, sha, json, put);
      Step(prev, entries[n].0, KvPut(entries[n], now, sha, json, put), false)
  }

  /** `sync_to_cloudflare` once configured. */
  function CloudflareSpec(state: Value, prefix: string, now: string, sha: string -> string, json: Json,
                          put: (string, string) -> APIResponse): (r: SyncResult)
    ensures r.recordsSynced + |r.errors| == |Flatten(state, prefix)|
    ensures r.success <==> r.errors == []
    ensures r.destination == "cloudflare" && r.source == "local"
  {
    Finish("cloudflare", KvTally(Flatten(state, prefix), now, sha, json, put))
  }

  /** The Cloudflare loop reports nothing exactly when every put succeeded. */
  lemma {:induction false} KvTallyClean(entries: seq<(string, Value)>, now: string, sha: string -> string, json: Json,
                                        put: (string, string) -> APIResponse)
    ensures KvTally(entries, now, sha, json, put).1 == [] <==>
            forall i | 0 <= i < |entries| :: KvPut(entries[i], now, sha, json, put).success
    decreases |entries|
  {
    if entries != [] {
      var n := |entries| - 1;
      KvTallyClean(entries[..n], now, sha, json, put);
      AllPutStep(entries, now, sha, json, put);
    }
  }

  lemma AllPutStep(entries: seq<(string, Value)>, now: string, sha: string -> string, json: Json,
                   put: (string, string) -> APIResponse)
    requires entries != []
    ensures var n := |entries| - 1;
      (forall i | 0 <= i < |entries| :: KvPut(entries[i], now, sha, json, put).success) <==>
      (forall i | 0 <= i < n :: KvPut(entries[..n][i], now, sha, json, put).success) &&
      KvPut(entries[n], now, sha, json, put).success
  {
    var n := |entries| - 1;
    assert forall i | 0 <= i < n :: entries[..n][i] == entries[i];
  }

  /** `sync_to_cloudflare` succeeds exactly when every put does. */
  lemma CloudflareSucceedsIffAllPut(state: Value, prefix: string, now: string, sha: string -> string, json: Json,
                                    put: (string, string) -> APIResponse)
    ensures CloudflareSpec(state, prefix, now, sha, json, put).success <==>
            forall i | 0 <= i < |Flatten(state, prefix)| :: KvPut(Flatten(state, prefix)[i], now, sha, json, put).success
  {
    KvTallyClean(Flatten(state, prefix), now, sha, json, put);
  }

  lemma KvTallyStep(entries: seq<(string, Value)>, i: nat, now: string, sha: string -> string, json: Json,
                    put: (string, string) -> APIResponse)
    requires i < |entries|
    ensures KvTally(entries[..i + 1], now, sha, json, put) ==
            Step(KvTally(entries[..i], now, sha, json, put), entries[i].0, KvPut(entries[i], now, sha, json, put), false)
  {
    assert entries[..i + 1][..i] == entries[..i];
  }

  /** `sync_to_cloudflare`. The ghost `puts` lists the keys written, in
      order. */
  method SyncToCloudflare(client: bool, namespaceId: string, state: Value, prefix: string, now: string,
                          sha: string -> string, json: Json, put: (string, string) -> APIResponse)
    returns (r: SyncResult, ghost puts: seq<string>)
    ensures !client || namespaceId == "" ==> r == NotConfigured("cloudflare", "Cloudflare not configured")
    ensures client && namespaceId != "" ==> r == CloudflareSpec(state, prefix, now, sha, json, put)
    ensures puts == if client && namespaceId != "" then Keys(Flatten(state, prefix)) else []
  {
    if !client || namespaceId == "" {
      return NotConfigured("cloudflare", "Cloudflare not configured"), [];
    }
    var entries := Flatten(state, prefix);
    var t;
    t, puts := PutEntries(entries, now, sha, json, put);
    r := SyncResult(|t.1| == 0, "local", "cloudflare", t.0, t.1);
  }

  /** The loop of `sync_to_cloudflare`: one put per flattened entry, in
      order, counting the successes and listing the failures. */
  method PutEntries(entries: seq<(string, Value)>, now: string, sha: string -> string, json: Json,
                    put: (string, string) -> APIResponse)
    returns (t: (nat, seq<string>), ghost puts: seq<string>)
    ensures t == KvTally(entries, now, sha, json, put) && puts == Keys(entries)
  {
    var errors: seq<string> := [];
    var synced: nat := 0;
    puts := [];
    var i := 0;
    assert entries[..0] == [];
    while i < |entries|
      invariant 0 <= i <= |entries|
      invariant (synced, errors) == KvTally(entries[..i], now, sha, json, put)
      invariant puts == Keys(entries[..i])
    {
      var key := entries[i].0;
      var response := PutRecord(entries[i], now, sha, json, put);
      puts := puts + [key];
      ghost var prev := (synced, errors);
      KvTallyStep(entries, i, now, sha, json, put);
      KeysStep(entries, i);
      if response.success {
        synced := synced + 1;
      } else {
        errors := errors + [key + ": " + ShowError(response.error)];
      }
      assert (synced, errors) == Step(prev, key, response, false);
      i := i + 1;
    }
    assert entries[..i] == entries;
    t := (synced, errors);
  }

  lemma KeysStep(entries: seq<(string, Value)>, i: nat)
    requires i < |entries|
    ensures Keys(entries[..i + 1]) == Keys(entries[..i]) + [entries[i].0]
  {
    assert entries[..i + 1] == entries[..i] + [entries[i]];
  }

  /** One put of `sync_to_cloudflare`: the record of the entry, as JSON,
      under the entry's key. */
  method PutRecord(e: (string, Value), now: string, sha: string -> string, json: Json,
                   put: (string, string) -> APIResponse) returns (response: APIResponse)
    ensures response == KvPut(e, now, sha, json, put)
  {
    var record := CreateRecord(e.0, e.1, "local", now, sha, json);
    response := put(e.0, json.plain(RecordValue(record)));
  }

  /** `state.get(...)` and `.items()` on something that is not a dict. */
  const NotADictError := "'object' has no attribute 'get' or 'items'"

  /** The Salesforce record for one board. */
  function BoardRecord(id: string, data: seq<(string, Value)>, sha: string -> string, json: Json): Value {
    Dict([("Name", GetOr(data, "name", Str(id))),
          ("External_ID__c", Str(id)),
          ("Description__c", GetOr(data, "description", Str(""))),
          ("Status__c", Str("Active")),
          ("Hash_ID__c", Str(Take(sha(json.plain(Dict(data))), 16)))])
  }

  /** The boards `sync_to_salesforce` walks: `state.get('boards', {})`, when
      the state and its boards are dicts. */
  function Boards(state: Value): Option<seq<(string, Value)>> {
    if !state.Dict? then None
    else
      var boards := GetOr(state.entries, "boards", Dict([]));
      if boards.Dict? then Some(boards.entries) else None
  }

  predicate AllDicts(es: seq<(string, Value)>) {
    forall i | 0 <= i < |es| :: es[i].1.Dict?
  }

  /** The response Salesforce gives for the record of a board. */
  function BoardPost(b: (string, Value), sha: string -> string, json: Json, post: Value -> APIResponse): APIResponse
    requires b.1.Dict?
  {
    post(BoardRecord(b.0, b.1.entries, sha, json))
  }

  /** The board loop: a 400 counts as synced, every board is counted or
      reported, and a board that is not a dict raises. */
  function BoardTally(boards: seq<(string, Value)>, sha: string -> string, json: Json, post: Value -> APIResponse):
    (r: Result<(nat, seq<string>)>)
    ensures r.Ok? <==> AllDicts(boards)
    ensures r.Err? ==> r.error == NotADictError
    ensures r.Ok? ==> r.value.0 + |r.value.1| == |boards|
    decreases |boards|
  {
    if boards == [] then Ok((0, []))
    else
      var n := |boards| - 1;
      AllDictsStep(boards);
      match BoardTally(boards[..n], sha, json, post)
      case Err(e) => Err(e)
      case Ok(prev) =>
        if !boards[n].1.Dict? then Err(NotADictError)
        else Ok(Step(prev, "Board " + boards[n].0, BoardPost(boards[n], sha, json, post), true))
  }

  lemma AllDictsStep(boards: seq<(string, Value)>)
    requires boards != []
    ensures AllDicts(boards) <==> AllDicts(boards[..|boards| - 1]) && boards[|boards| - 1].1.Dict?
  {
    var n := |boards| - 1;
    assert forall i | 0 <= i < n :: boards[..n][i] == boards[i];
  }

  lemma AllAcceptedStep(boards: seq<(string, Value)>, n: nat, sha: string -> string, json: Json, post: Value -> APIResponse)
    requires AllDicts(boards) && n < |boards|
    requires forall i | 0 <= i < |boards| :: Accepted(BoardPost(boards[i], sha, json, post), true)
    ensures AllDicts(boards[..n])
    ensures forall i | 0 <= i < n :: Accepted(BoardPost(boards[..n][i], sha, json, post), true)
  {
    assert forall i | 0 <= i < n :: boards[..n][i] == boards[i];
  }

  lemma {:induction false} BoardRejectionKept(boards: seq<(string, Value)>, sha: string -> string, json: Json,
                                              post: Value -> APIResponse, i: nat)
    requires AllDicts(boards) && i < |boards| && !Accepted(BoardPost(boards[i], sha, json, post), true)
    ensures BoardTally(boards, sha, json, post).value.1 != []
    decreases |boards|
  {
    var n := |boards| - 1;
    assert forall j | 0 <= j < n :: boards[..n][j] == boards[j];
    if i < n {
      BoardRejectionKept(boards[..n], sha, json, post, i);
    }
  }

  lemma {:induction false} BoardAllAccepted(boards: seq<(string, Value)>, sha: string -> string, json: Json,
                                            post: Value -> APIResponse)
    requires AllDicts(boards)
    requires forall i | 0 <= i < |boards| :: Accepted(BoardPost(boards[i], sha, json, post), true)
    ensures BoardTally(boards, sha, json, post).value.1 == []
    decreases |boards|
  {
    if boards != [] {
      var n := |boards| - 1;
      AllDictsStep(boards);
      AllAcceptedStep(boards, n, sha, json, post);
      BoardAllAccepted(boards[..n], sha, json, post);
    }
  }

  /** The board loop reports nothing exactly when every post was accepted. */
  lemma BoardTallyClean(boards: seq<(string, Value)>, sha: string -> string, json: Json,
                        post: Value -> APIResponse)
    requires AllDicts(boards)
    ensures BoardTally(boards, sha, json, post).value.1 == [] <==>
            forall i | 0 <= i < |boards| :: Accepted(BoardPost(boards[i], sha, json, post), true)
  {
    if forall i | 0 <= i < |boards| :: Accepted(BoardPost(boards[i], sha, json, post), true) {
      BoardAllAccepted(boards, sha, json, post);
    } else {
      var i :| 0 <= i < |boards| && !Accepted(BoardPost(boards[i], sha, json, post), true);
      BoardRejectionKept(boards, sha, json, post, i);
    }
  }

  /** Once a prefix of the boards raises, the loop raises. */
  lemma {:induction false} BoardTallyErr(boards: seq<(string, Value)>, i: nat, sha: string -> string, json: Json,
                                         post: Value -> APIResponse)
    requires i <= |boards| && BoardTally(boards[..i], sha, json, post).Err?
    ensures BoardTally(boards, sha, json, post) == BoardTally(boards[..i], sha, json, post)
    decreases |boards| - i
  {
    if i < |boards| {
      var next := boards[..i + 1];
      assert next[..i] == boards[..i];
      BoardTallyErr(boards, i + 1, sha, json, post);
    } else {
      assert boards[..i] == boards;
    }
  }

  /** A board that is not a dict stops the loop with the error. */
  lemma BoardTallyStop(boards: seq<(string, Value)>, i: nat, sha: string -> string, json: Json,
                       post: Value -> APIResponse)
    requires i < |boards| && BoardTally(boards[..i], sha, json, post).Ok? && !boards[i].1.Dict?
    ensures BoardTally(boards, sha, json, post) == Err(NotADictError)
  {
    assert boards[..i + 1][..i] == boards[..i];
    BoardTallyErr(boards, i + 1, sha, json, post);
  }

  lemma BoardTallyStep(boards: seq<(string, Value)>, i: nat, sha: string -> string, json: Json,
                       post: Value -> APIResponse)
    requires i < |boards| && BoardTally(boards[..i], sha, json, post).Ok? && boards[i].1.Dict?
    ensures BoardTally(boards[..i + 1], sha, json, post) ==
            Ok(Step(BoardTally(boards[..i], sha, json, post).value, "Board " + boards[i].0,
                    BoardPost(boards[i], sha, json, post), true))
  {
    assert boards[..i + 1][..i] == boards[..i];
  }

  /** `sync_to_salesforce`: not configured, login failed (or raised), or the
      board loop. */
  function SalesforceSpec(client: bool, auth: Result<bool>, state: Value, sha: string -> string, json: Json,
                          post: Value -> APIResponse): (r: Result<SyncResult>)
    ensures !client ==> r == Ok(NotConfigured("salesforce", "Salesforce not configured"))
    ensures client && auth.Err? ==> r == Err(auth.error)
    ensures client && auth == Ok(false) ==> r == Ok(NotConfigured("salesforce", "Salesforce authentication failed"))
    ensures client && auth == Ok(true) && Boards(state).None? ==> r == Err(NotADictError)
    ensures client && auth == Ok(true) && Boards(state).Some? ==>
              (r.Ok? <==> AllDicts(Boards(state).value)) &&
              (r.Ok? ==> r.value.recordsSynced + |r.value.errors| == |Boards(state).value| &&
                         (r.value.success <==> r.value.errors == []))
  {
    if !client then Ok(NotConfigured("salesforce", "Salesforce not configured"))
    else match auth
      case Err(e) => Err(e)
      case Ok(false) => Ok(NotConfigured("salesforce", "Salesforce authentication failed"))
      case Ok(true) =>
        match Boards(state)
        case None => Err(NotADictError)
        case Some(boards) =>
          match BoardTally(boards, sha, json, post)
          case Err(e) => Err(e)
          case Ok(t) => Ok(Finish("salesforce", t))
  }

  /** A board whose post comes back 400 still counts as synced. */
  lemma DuplicateBoardCounts(id: string, data: seq<(string, Value)>, sha: string -> string,
                             json: Json, post: Value -> APIResponse, e: Option<string>, h: Headers)
    requires post(BoardRecord(id, data, sha, json)) == APIResponse(false, 400, None, e, h)
    ensures SalesforceSpec(true, Ok(true), Dict([("boards", Dict([(id, Dict(data))]))]), sha, json, post)
            == Ok(SyncResult(true, "local", "salesforce", 1, []))
  {
    var boards := [(id, Dict(data))];
    var state := Dict([("boards", Dict(boards))]);
    assert GetOr(state.entries, "boards", Dict([])) == Dict(boards);
    assert boards[..0] == [];
    assert BoardTally(boards, sha, json, post) == Ok((1, []));
  }

  /** A board rejected with another status is reported under its id. */
  lemma RejectedBoardReported(id: string, data: seq<(string, Value)>, sha: string -> string,
                              json: Json, post: Value -> APIResponse, code: int, e: string, h: Headers)
    requires code != 400
    requires post(BoardRecord(id, data, sha, json)) == APIResponse(false, code, None, Some(e), h)
    ensures SalesforceSpec(true, Ok(true), Dict([("boards", Dict([(id, Dict(data))]))]), sha, json, post)
            == Ok(SyncResult(false, "local", "salesforce", 0, ["Board " + id + ": " + e]))
  {
    var boards := [(id, Dict(data))];
    var state := Dict([("boards", Dict(boards))]);
    assert GetOr(state.entries, "boards", Dict([])) == Dict(boards);
    assert boards[..0] == [];
    assert BoardPost(boards[0], sha, json, post) == APIResponse(false, code, None, Some(e), h);
    assert !Accepted(BoardPost(boards[0], sha, json, post), true);
    assert BoardTally(boards[..0], sha, json, post) == Ok((0, []));
    BoardTallyStep(boards, 0, sha, json, post);
    assert boards[..1] == boards;
    var msg := "Board " + id + ": " + e;
    assert ShowError(BoardPost(boards[0], sha, json, post).error) == e;
    assert [] + [msg] == [msg];
    assert Step((0, []), "Board " + id, BoardPost(boards[0], sha, json, post), true) == (0, [msg]);
  }

  /** One board's post: its record goes to Salesforce. */
  method PostBoard(b: (string, Value), sha: string -> string, json: Json, post: Value -> APIResponse)
    returns (response: APIResponse)
    requires b.1.Dict?
    ensures response == BoardPost(b, sha, json, post)
  {
    var record := BoardRecord(b.0, b.1.entries, sha, json);
    response := post(record);
  }

  /** The loop over the boards. */
  method PostBoards(boards: seq<(string, Value)>, sha: string -> string, json: Json, post: Value -> APIResponse)
    returns (r: Result<(nat, seq<string>)>)
    ensures r == BoardTally(boards, sha, json, post)
  {
    var errors: seq<string> := [];
    var synced: nat := 0;
    var i := 0;
    assert boards[..0] == [];
    while i < |boards|
      invariant 0 <= i <= |boards|
      invariant BoardTally(boards[..i], sha, json, post) == Ok((synced, errors))
    {
      if !boards[i].1.Dict? {
        BoardTallyStop(boards, i, sha, json, post);
        return Err(NotADictError);
      }
      var response := PostBoard(boards[i], sha, json, post);
      BoardTallyStep(boards, i, sha, json, post);
      if response.success || response.statusCode == 400 {
        synced := synced + 1;
      } else {
        errors := errors + ["Board " + boards[i].0 + ": " + ShowError(response.error)];
      }
      i := i + 1;
    }
    assert boards[..i] == boards;
    r := Ok((synced, errors));
  }

  /** `sync_to_salesforce`. `auth` is what `authenticate` returned or
      raised. */
  method SyncToSalesforce(client: bool, auth: Result<bool>, state: Value, sha: string -> string, json: Json,
                          post: Value -> APIResponse)
    returns (r: Result<SyncResult>)
    ensures r == SalesforceSpec(client, auth, state, sha, json, post)
  {
    if !client {
      return Ok(NotConfigured("salesforce", "Salesforce not configured"));
    }
    if auth.Err? {
      return Err(auth.error);
    }
    if !auth.value {
      return Ok(NotConfigured("salesforce", "Salesforce authentication failed"));
    }
    if !state.Dict? {
      return Err(NotADictError);
    }
    var boards := GetOr(state.entries, "boards", Dict([]));
    if !boards.Dict? {
      return Err(NotADictError);
    }
    var t := PostBoards(boards.entries, sha, json, post);
    if t.Err? {
      return Err(t.error);
    }
    r := Ok(SyncResult(|t.value.1| == 0, "local", "salesforce", t.value.0, t.value.1));
  }
  // ------------------------------------------------------------ manifest and full sync

  datatype SyncManifest = SyncManifest(totalKeys: nat, keys: seq<string>, stateHash: string)

  /** `generate_sync_manifest`: the keys of the state flattened under
      `blackroad`, their count, and the first 16 characters of the sha256 of
      the sorted-key JSON of the state. */
  function GenerateManifest(state: Value, sha: string -> string, json: Json): (m: SyncManifest)
    ensures m.totalKeys == |m.keys| == |Flatten(state, "blackroad")|
    ensures m.keys == Keys(Flatten(state, "blackroad"))
    ensures var digest := sha(json.sorted(Canonical(state)));
      |m.stateHash| <= 16 && |m.stateHash| <= |digest| && m.stateHash == digest[..|m.stateHash|] &&
      (|m.stateHash| == 16 || m.stateHash == digest)
  {
    var flattened := Flatten(state, "blackroad");
    SyncManifest(|flattened|, Keys(flattened), Take(sha(json.sorted(Canonical(state))), 16))
  }

  /** The manifest's state hash does not depend on the order of the
      state's keys. */
  lemma ManifestHashOrderFree(e1: seq<(string, Value)>, e2: seq<(string, Value)>, sha: string -> string, json: Json)
    requires DistinctKeys(e1) && DistinctKeys(e2) && multiset(e1) == multiset(e2)
    ensures GenerateManifest(Dict(e1), sha, json).stateHash == GenerateManifest(Dict(e2), sha, json).stateHash
  {
    DictOrderIrrelevant(e1, e2);
  }

  /** The keys of a dict state's manifest all start with `blackroad:` and
      are distinct. */
  lemma ManifestKeys(es: seq<(string, Value)>, sha: string -> string, json: Json)
    ensures var m := GenerateManifest(Dict(es), sha, json);
      (forall k | k in m.keys :: StartsWith(k, "blackroad:")) &&
      (forall i, j | 0 <= i < j < |m.keys| :: m.keys[i] != m.keys[j])
  {
    DictKeysUnderPrefix(es, "blackroad");
  }

  /** What a sync run depends on besides the state. */
  datatype Backends = Backends(
    cloudflare: bool, namespaceId: string, put: (string, string) -> APIResponse,
    salesforce: bool, auth: Result<bool>, post: Value -> APIResponse)

  /** `full_sync`: nothing when the state is empty; otherwise the Cloudflare
      result under prefix `blackroad` and then the Salesforce result. */
  method FullSync(state: Value, b: Backends, now: string, sha: string -> string, json: Json)
    returns (r: Result<seq<(string, SyncResult)>>)
    ensures Falsy(state) ==> r == Ok([])
    ensures !Falsy(state) ==>
      var cf := if b.cloudflare && b.namespaceId != "" then CloudflareSpec(state, "blackroad", now, sha, json, b.put)
                else NotConfigured("cloudflare", "Cloudflare not configured");
      r == match SalesforceSpec(b.salesforce, b.auth, state, sha, json, b.post)
           case Err(e) => Err(e)
           case Ok(sf) => Ok([("cloudflare", cf), ("salesforce", sf)])
  {
    if Falsy(state) {
      return Ok([]);
    }
    var cf, _ := SyncToCloudflare(b.cloudflare, b.namespaceId, state, "blackroad", now, sha, json, b.put);
    var sf := SyncToSalesforce(b.salesforce, b.auth, state, sha, json, b.post);
    if sf.Err? {
      return Err(sf.error);
    }
    r := Ok([("cloudflare", cf), ("salesforce", sf.value)]);
  }

  /** `main`'s exit status: 0 exactly when every result succeeded. */
  function ExitCode(results: seq<(string, SyncResult)>): (code: int)
    ensures code == 0 <==> forall i | 0 <= i < |results| :: results[i].1.success
    ensures code == 0 || code == 1
  {
    if forall i | 0 <= i < |results| :: results[i].1.success then 0 else 1
  }

  /** An empty state syncs nothing and exits 0. */
  lemma EmptyStateExitsZero()
    ensures ExitCode([]) == 0
  {
  }
}
