/** The Python values the scripts pass around (YAML state, JSON bodies,
    hashable data), the order-free form `json.dumps(..., sort_keys=True)`
    serialises, and UTF-8 (RFC 3629), which `str.encode()`/`bytes.decode()` use. */
module PyValue {
  import opened Text

  newtype byte = x: int | 0 <= x < 256

  type ByteString = seq<byte>

  /** A Python value. A dict keeps its insertion order as a sequence of entries;
      a well-formed dict has distinct keys. Floats are not modelled. */
  datatype Value =
    | Null
    | Bool(b: bool)
    | Int(i: int)
    | Str(s: string)
    | Bytes(bs: ByteString)
    | List(elems: seq<Value>)
    | Dict(entries: seq<(string, Value)>)

  /** The same value with every dict seen as a map: what a sorted-key JSON
      serialisation can depend on. */
  datatype Canon =
    | CNull
    | CBool(b: bool)
    | CInt(i: int)
    | CStr(s: string)
    | CBytes(bs: ByteString)
    | CList(elems: seq<Canon>)
    | CDict(m: map<string, Canon>)

  /** The keys of an insertion-ordered dict, in order. */
  function Keys<T>(entries: seq<(string, T)>): (r: seq<string>)
    ensures |r| == |entries| && forall i | 0 <= i < |r| :: r[i] == entries[i].0
  {
    seq(|entries|, i requires 0 <= i < |entries| => entries[i].0)
  }

  predicate DistinctKeys(entries: seq<(string, Value)>) {
    forall i, j | 0 <= i < j < |entries| :: entries[i].0 != entries[j].0
  }

  /** `d.get(key)`: the value bound last to `key`, if any. */
  function Get(entries: seq<(string, Value)>, key: string): (r: Option<Value>)
    ensures r.None? <==> key !in Keys(entries)
    ensures r.Some? ==> (key, r.value) in entries
    decreases |entries|
  {
    if |entries| == 0 then None
    else if entries[|entries| - 1].0 == key then Some(entries[|entries| - 1].1)
    else
      var r := Get(entries[..|entries| - 1], key);
      assert Keys(entries) == Keys(entries[..|entries| - 1]) + [entries[|entries| - 1].0];
      r
  }

  /** `d.get(key, default)` */
  function GetOr(entries: seq<(string, Value)>, key: string, default: Value): Value {
    match Get(entries, key)
    case Some(v) => v
    case None => default
  }

  /** Python truthiness of a value: `not v`. */
  predicate Falsy(v: Value) {
    match v
    case Null => true
    case Bool(b) => !b
    case Int(i) => i == 0
    case Str(s) => s == ""
    case Bytes(bs) => bs == []
    case List(es) => es == []
    case Dict(es) => es == []
  }

  /** `str(v)`, as an f-string shows a value: strings as they are, `None`,
      booleans and integers in Python's spelling, and containers through
      `repr`, which is not modelled. */
  function Format(v: Value, repr: Value -> string): (r: string)
    ensures v.Str? ==> r == v.s
    ensures v.Int? && v.i >= 0 ==> r == NatToString(v.i)
  {
    match v
    case Null => "None"
    case Bool(b) => if b then "True" else "False"
    case Int(i) => IntToString(i)
    case Str(s) => s
    case _ => repr(v)
  }

  /** In a dict with distinct keys, `get` finds the one entry with that key. */
  lemma GetDistinct(entries: seq<(string, Value)>, i: nat)
    requires DistinctKeys(entries) && i < |entries|
    ensures Get(entries, entries[i].0) == Some(entries[i].1)
    decreases |entries|
  {
    if i < |entries| - 1 {
      var init := entries[..|entries| - 1];
      GetDistinct(init, i);
    }
  }

  function Canonical(v: Value): Canon
    decreases v, 1
  {
    match v
    case Null => CNull
    case Bool(b) => CBool(b)
    case Int(i) => CInt(i)
    case Str(s) => CStr(s)
    case Bytes(bs) => CBytes(bs)
    case List(es) => CList(CanonList(v, es))
    case Dict(es) => CDict(CanonMap(v, es))
  }

  function CanonList(ghost parent: Value, es: seq<Value>): (r: seq<Canon>)
    requires forall i | 0 <= i < |es| :: es[i] < parent
    ensures |r| == |es|
    decreases parent, 0, |es|
  {
    if es == [] then [] else [Canonical(es[0])] + CanonList(parent, es[1..])
  }

  /** The entries as a map, later bindings overriding earlier ones. */
  function CanonMap(ghost parent: Value, es: seq<(string, Value)>): (r: map<string, Canon>)
    requires forall i | 0 <= i < |es| :: es[i].1 < parent
    decreases parent, 0, |es|
  {
    if es == [] then map[]
    else CanonMap(parent, es[..|es| - 1])[es[|es| - 1].0 := Canonical(es[|es| - 1].1)]
  }

  /** The map form of a dict binds exactly its keys, each to its `get` value. */
  lemma {:induction false} CanonMapAgrees(parent: Value, es: seq<(string, Value)>)
    requires forall i | 0 <= i < |es| :: es[i].1 < parent
    ensures CanonMap(parent, es).Keys == set k | k in Keys(es)
    ensures forall k | k in Keys(es) :: CanonMap(parent, es)[k] == Canonical(Get(es, k).value)
    decreases |es|
  {
    if es != [] {
      var init := es[..|es| - 1];
      CanonMapAgrees(parent, init);
      assert Keys(es) == Keys(init) + [es[|es| - 1].0];
    }
  }

  /** Every key of one dict is a key of another dict holding the same entries. */
  lemma SameKeys(e1: seq<(string, Value)>, e2: seq<(string, Value)>, k: string)
    requires multiset(e1) == multiset(e2) && k in Keys(e1)
    ensures k in Keys(e2)
  {
    var i :| 0 <= i < |e1| && e1[i].0 == k;
    assert e1[i] in multiset(e2);
    var j :| 0 <= j < |e2| && e2[j] == e1[i];
    assert Keys(e2)[j] == k;
  }

  /** Dict literals listing the same entries in any order (each with distinct
      keys, as every Python dict has) have the same order-free form, so a
      sorted-key serialisation of them is the same text. */
  lemma DictOrderIrrelevant(e1: seq<(string, Value)>, e2: seq<(string, Value)>)
    requires DistinctKeys(e1) && DistinctKeys(e2) && multiset(e1) == multiset(e2)
    ensures Canonical(Dict(e1)) == Canonical(Dict(e2))
  {
    var p1, p2 := Dict(e1), Dict(e2);
    CanonMapAgrees(p1, e1);
    CanonMapAgrees(p2, e2);
    var m1, m2 := CanonMap(p1, e1), CanonMap(p2, e2);
    SameKeySet(e1, e2);
    assert m1.Keys == m2.Keys;
    forall k | k in m1 ensures m1[k] == m2[k] {
      SameBinding(e1, e2, k);
    }
    assert m1 == m2;
    assert Canonical(p1) == CDict(m1) && Canonical(p2) == CDict(m2);
  }

  lemma SameKeySet(e1: seq<(string, Value)>, e2: seq<(string, Value)>)
    requires multiset(e1) == multiset(e2)
    ensures (set k | k in Keys(e1)) == (set k | k in Keys(e2))
  {
    forall k ensures k in Keys(e1) <==> k in Keys(e2) {
      if k in Keys(e1) { SameKeys(e1, e2, k); }
      if k in Keys(e2) { SameKeys(e2, e1, k); }
    }
  }

  /** Two dicts holding the same entries bind each key to the same value. */
  lemma SameBinding(e1: seq<(string, Value)>, e2: seq<(string, Value)>, k: string)
    requires DistinctKeys(e1) && DistinctKeys(e2) && multiset(e1) == multiset(e2)
    requires k in Keys(e1)
    ensures Get(e1, k) == Get(e2, k)
  {
    var i :| 0 <= i < |e1| && e1[i].0 == k;
    assert e1[i] in multiset(e2);
    var j :| 0 <= j < |e2| && e2[j] == e1[i];
    GetDistinct(e1, i);
    GetDistinct(e2, j);
  }

  // ---------------------------------------------------------------- UTF-8

  predicate IsContinuation(b: byte) {
    0x80 <= b < 0xC0
  }

  /** The UTF-8 encoding of one Unicode scalar value: 1 to 4 bytes. */
  function EncodeChar(c: char): (r: ByteString)
    ensures 1 <= |r| <= 4
  {
    var n := c as int;
    if n < 0x80 then [n as byte]
    else if n < 0x800 then [(0xC0 + n / 64) as byte, (0x80 + n % 64) as byte]
    else if n < 0x1_0000 then
      [(0xE0 + n / 64 / 64) as byte, (0x80 + n / 64 % 64) as byte, (0x80 + n % 64) as byte]
    else
      [(0xF0 + n / 64 / 64 / 64) as byte, (0x80 + n / 64 / 64 % 64) as byte,
       (0x80 + n / 64 % 64) as byte, (0x80 + n % 64) as byte]
  }

  /** `s.encode('utf-8')` */
  function Encode(s: string): ByteString
    decreases |s|
  {
    if s == [] then [] else EncodeChar(s[0]) + Encode(s[1..])
  }

  /** Decodes the first character of `bs` with the strict rules of RFC 3629
      (no overlong forms, no surrogates, nothing above U+10FFFF); gives the
      character and the number of bytes it took. */
  function DecodeFirst(bs: ByteString): (r: Option<(char, nat)>)
    ensures r.Some? ==> 1 <= r.value.1 <= |bs|
  {
    if |bs| == 0 then None
    else
      var b0 := bs[0] as int;
      if b0 < 0x80 then Some((b0 as char, 1))
      else if 0xC0 <= b0 < 0xE0 then
        if |bs| < 2 || !IsContinuation(bs[1]) then None
        else
          var cp := (b0 - 0xC0) * 64 + (bs[1] as int - 0x80);
          if cp < 0x80 then None else Some((cp as char, 2))
      else if 0xE0 <= b0 < 0xF0 then
        if |bs| < 3 || !IsContinuation(bs[1]) || !IsContinuation(bs[2]) then None
        else
          var cp := (b0 - 0xE0) * 4096 + (bs[1] as int - 0x80) * 64 + (bs[2] as int - 0x80);
          if cp < 0x800 || 0xD800 <= cp < 0xE000 then None else Some((cp as char, 3))
      else if 0xF0 <= b0 < 0xF8 then
        if |bs| < 4 || !IsContinuation(bs[1]) || !IsContinuation(bs[2]) || !IsContinuation(bs[3]) then None
        else
          var cp := (b0 - 0xF0) * 262144 + (bs[1] as int - 0x80) * 4096
                    + (bs[2] as int - 0x80) * 64 + (bs[3] as int - 0x80);
          if cp < 0x1_0000 || cp > 0x10_FFFF then None else Some((cp as char, 4))
      else None
  }

  /** `bs.decode('utf-8')`; `None` stands for the UnicodeDecodeError it raises. */
  function Decode(bs: ByteString): Option<string>
    decreases |bs|
  {
    if bs == [] then Some("")
    else match DecodeFirst(bs)
      case None => None
      case Some((c, n)) =>
        match Decode(bs[n..])
        case None => None
        case Some(rest) => Some([c] + rest)
  }

  lemma DecodeEncodeTwo(c: char, rest: ByteString)
    requires 0x80 <= c as int < 0x800
    ensures DecodeFirst(EncodeChar(c) + rest) == Some((c, 2))
  {
    var n := c as int;
    var bs := EncodeChar(c) + rest;
    assert bs[0] as int == 0xC0 + n / 64 && bs[1] as int == 0x80 + n % 64;
  }

  lemma DecodeEncodeThree(c: char, rest: ByteString)
    requires 0x800 <= c as int < 0x1_0000
    ensures DecodeFirst(EncodeChar(c) + rest) == Some((c, 3))
  {
    var n := c as int;
    var q1, r0 := n / 64, n % 64;
    var q2, r1 := q1 / 64, q1 % 64;
    assert n == q1 * 64 + r0 && q1 == q2 * 64 + r1;
    var bs := EncodeChar(c) + rest;
    assert bs[0] as int == 0xE0 + q2 && bs[1] as int == 0x80 + r1 && bs[2] as int == 0x80 + r0;
    assert q2 * 4096 + r1 * 64 + r0 == n;
  }

  lemma DecodeEncodeFour(c: char, rest: ByteString)
    requires 0x1_0000 <= c as int
    ensures DecodeFirst(EncodeChar(c) + rest) == Some((c, 4))
  {
    var n := c as int;
    var q1, r0 := n / 64, n % 64;
    var q2, r1 := q1 / 64, q1 % 64;
    var q3, r2 := q2 / 64, q2 % 64;
    assert n == q1 * 64 + r0 && q1 == q2 * 64 + r1 && q2 == q3 * 64 + r2;
    var bs := EncodeChar(c) + rest;
    assert bs[0] as int == 0xF0 + q3 && bs[1] as int == 0x80 + r2;
    assert bs[2] as int == 0x80 + r1 && bs[3] as int == 0x80 + r0;
    assert q3 * 262144 + r2 * 4096 + r1 * 64 + r0 == n;
  }

  lemma DecodeEncodeChar(c: char, rest: ByteString)
    ensures DecodeFirst(EncodeChar(c) + rest) == Some((c, |EncodeChar(c)|))
  {
    var n := c as int;
    if n < 0x80 {
    } else if n < 0x800 {
      DecodeEncodeTwo(c, rest);
    } else if n < 0x1_0000 {
      DecodeEncodeThree(c, rest);
    } else {
      DecodeEncodeFour(c, rest);
    }
  }

  /** Decoding what was encoded gives the string back: `s.encode().decode() == s`. */
  lemma {:induction false} DecodeEncode(s: string)
    ensures Decode(Encode(s)) == Some(s)
    decreases |s|
  {
    if s != [] {
      var head := EncodeChar(s[0]);
      var tail := Encode(s[1..]);
      DecodeEncodeChar(s[0], tail);
      assert (head + tail)[|head|..] == tail;
      DecodeEncode(s[1..]);
      assert [s[0]] + s[1..] == s;
    }
  }
}
