/** The few Python `str` operations the BlackRoad scripts rely on, written over
    `seq<char>`: prefix tests, `in`, `rstrip`/`lstrip`/`strip`, `split`, `join`,
    `replace(pat, "")`, ASCII `upper`/`lower`, slicing `s[:n]` and `str(int)`. */
module Text {

  datatype Option<T> = None | Some(value: T)

  /** A value, or the text of the exception the Python code raises instead. */
  datatype Result<T> = Ok(value: T) | Err(error: string)

  /** The results of a loop or comprehension that stops at the first
      element that raises, with that exception. */
  function Collect<T>(rs: seq<Result<T>>): (r: Result<seq<T>>)
    ensures r.Ok? ==> |r.value| == |rs|
  {
    if rs == [] then Ok([])
    else
      match Collect(rs[..|rs| - 1])
      case Err(e) => Err(e)
      case Ok(prev) =>
        match rs[|rs| - 1]
        case Err(e) => Err(e)
        case Ok(c) => Ok(prev + [c])
  }

  lemma {:induction false} CollectAt<T>(rs: seq<Result<T>>, i: nat)
    requires i < |rs| && Collect(rs).Ok?
    ensures rs[i].Ok? && Collect(rs).value[i] == rs[i].value
  {
    var n := |rs| - 1;
    if i < n {
      assert rs[..n][i] == rs[i];
      CollectAt(rs[..n], i);
    }
  }

  lemma {:induction false} CollectAllOk<T>(rs: seq<Result<T>>)
    requires forall i | 0 <= i < |rs| :: rs[i].Ok?
    ensures Collect(rs).Ok?
  {
    if rs != [] {
      var n := |rs| - 1;
      assert forall i | 0 <= i < n :: rs[..n][i] == rs[i];
      CollectAllOk(rs[..n]);
    }
  }

  lemma {:induction false} CollectErr<T>(rs: seq<Result<T>>, i: nat)
    requires i <= |rs| && Collect(rs[..i]).Err?
    ensures Collect(rs) == Collect(rs[..i])
    decreases |rs| - i
  {
    if i < |rs| {
      assert rs[..i + 1][..i] == rs[..i];
      CollectErr(rs, i + 1);
    } else {
      assert rs[..i] == rs;
    }
  }

  /** One more element that succeeds extends the values; one that raises
      is the result of the whole loop. */
  lemma CollectStep<T>(rs: seq<Result<T>>, i: nat, acc: seq<T>)
    requires i < |rs| && Collect(rs[..i]) == Ok(acc)
    ensures rs[i].Ok? ==> Collect(rs[..i + 1]) == Ok(acc + [rs[i].value])
    ensures rs[i].Err? ==> Collect(rs) == Err(rs[i].error)
  {
    assert rs[..i + 1][..i] == rs[..i];
    if rs[i].Err? {
      CollectErr(rs, i + 1);
    }
  }

  /** The loop succeeds exactly when no element raises, and then keeps
      every element's value in order. */
  lemma CollectEach<T>(rs: seq<Result<T>>)
    ensures Collect(rs).Ok? <==> forall i | 0 <= i < |rs| :: rs[i].Ok?
    ensures Collect(rs).Ok? ==> forall i | 0 <= i < |rs| :: Collect(rs).value[i] == rs[i].value
  {
    if Collect(rs).Ok? {
      forall i | 0 <= i < |rs|
        ensures rs[i].Ok? && Collect(rs).value[i] == rs[i].value
      {
        CollectAt(rs, i);
      }
    } else if forall i | 0 <= i < |rs| :: rs[i].Ok? {
      CollectAllOk(rs);
    }
  }

  /** The results of a loop that keeps only the present values and stops
      at the first element that raises. */
  function Gather<T>(rs: seq<Result<Option<T>>>): (r: Result<seq<T>>)
    ensures r.Ok? ==> |r.value| <= |rs|
  {
    if rs == [] then Ok([])
    else
      match Gather(rs[..|rs| - 1])
      case Err(e) => Err(e)
      case Ok(prev) =>
        match rs[|rs| - 1]
        case Err(e) => Err(e)
        case Ok(None) => Ok(prev)
        case Ok(Some(x)) => Ok(prev + [x])
  }

  lemma {:induction false} GatherErr<T>(rs: seq<Result<Option<T>>>, i: nat)
    requires i <= |rs| && Gather(rs[..i]).Err?
    ensures Gather(rs) == Gather(rs[..i])
    decreases |rs| - i
  {
    if i < |rs| {
      assert rs[..i + 1][..i] == rs[..i];
      GatherErr(rs, i + 1);
    } else {
      assert rs[..i] == rs;
    }
  }

  /** When every element gives a value, the loop keeps all of them. */
  lemma {:induction false} GatherAllSome<T>(rs: seq<Result<Option<T>>>, xs: seq<T>)
    requires |rs| == |xs| && forall i | 0 <= i < |rs| :: rs[i] == Ok(Some(xs[i]))
    ensures Gather(rs) == Ok(xs)
  {
    if rs != [] {
      var n := |rs| - 1;
      GatherAllSome(rs[..n], xs[..n]);
      assert xs[..n] + [xs[n]] == xs;
    }
  }

  /** One more element extends the kept values by what it gives; one that
      raises is the result of the whole loop. */
  lemma GatherStep<T>(rs: seq<Result<Option<T>>>, i: nat, acc: seq<T>)
    requires i < |rs| && Gather(rs[..i]) == Ok(acc)
    ensures rs[i] == Ok(None) ==> Gather(rs[..i + 1]) == Ok(acc)
    ensures rs[i].Ok? && rs[i].value.Some? ==> Gather(rs[..i + 1]) == Ok(acc + [rs[i].value.value])
    ensures rs[i].Err? ==> Gather(rs) == Err(rs[i].error)
  {
    assert rs[..i + 1][..i] == rs[..i];
    if rs[i].Err? {
      GatherErr(rs, i + 1);
    }
  }

  /** Running the loop over two parts in turn is running it over both: the
      order of the kept values is the order of the elements. */
  lemma {:induction false} GatherAppend<T>(a: seq<Result<Option<T>>>, b: seq<Result<Option<T>>>)
    ensures Gather(a + b) ==
      match Gather(a)
      case Err(e) => Err(e)
      case Ok(x) => match Gather(b) case Err(e) => Err(e) case Ok(y) => Ok(x + y)
    decreases |b|
  {
    if b == [] {
      assert a + b == a;
      if Gather(a).Ok? {
        assert Gather(a).value + [] == Gather(a).value;
      }
    } else {
      var n := |b| - 1;
      GatherAppend(a, b[..n]);
      assert (a + b)[..|a + b| - 1] == a + b[..n];
      assert (a + b)[|a + b| - 1] == b[n];
      if Gather(a).Ok? && Gather(b[..n]).Ok? && b[n].Ok? && b[n].value.Some? {
        var x, y, z := Gather(a).value, Gather(b[..n]).value, b[n].value.value;
        assert x + (y + [z]) == (x + y) + [z];
      }
    }
  }

  /** A prefix one longer is the prefix and the next element. */
  lemma PrefixStep<T>(s: seq<T>, i: nat)
    requires i < |s|
    ensures s[..i + 1] == s[..i] + [s[i]]
  {
  }

  /** Python truthiness of an optional string: `None` and `""` are false. */
  predicate Truthy(o: Option<string>) {
    o.Some? && o.value != ""
  }

  /** `s.startswith(p)` */
  predicate StartsWith(s: string, p: string) {
    |p| <= |s| && s[..|p|] == p
  }

  /** `s.endswith(p)` */
  predicate EndsWith(s: string, p: string) {
    |p| <= |s| && s[|s| - |p|..] == p
  }

  /** `sub in s` */
  predicate Contains(s: string, sub: string) {
    exists i | 0 <= i <= |s| :: StartsWith(s[i..], sub)
  }

  lemma ContainsAt(s: string, sub: string, i: nat)
    requires i <= |s| && StartsWith(s[i..], sub)
    ensures Contains(s, sub)
  {
  }

  /** A string never contains a longer one. */
  lemma NotContainsLonger(s: string, sub: string)
    requires |s| < |sub|
    ensures !Contains(s, sub)
  {
  }

  /** `sub in a` for a prefix `a` of `a + b` implies `sub in a + b`. */
  lemma ContainsPrefix(a: string, b: string, sub: string)
    requires Contains(a, sub)
    ensures Contains(a + b, sub)
  {
    var i :| 0 <= i <= |a| && StartsWith(a[i..], sub);
    assert (a + b)[i..][..|sub|] == a[i..][..|sub|];
    ContainsAt(a + b, sub, i);
  }

  /** The least index at or after `i` where `sep` starts, as `s.find(sep, i)`. */
  function IndexFrom(s: string, sep: string, i: nat): (r: Option<nat>)
    requires i <= |s|
    ensures r.Some? ==> i <= r.value && r.value + |sep| <= |s| && StartsWith(s[r.value..], sep)
    ensures r.Some? ==> forall j | i <= j < r.value :: !StartsWith(s[j..], sep)
    ensures r.None? ==> forall j | i <= j <= |s| :: !StartsWith(s[j..], sep)
    decreases |s| - i
  {
    if StartsWith(s[i..], sep) then Some(i)
    else if i == |s| then None
    else IndexFrom(s, sep, i + 1)
  }

  /** `sep.join(parts)` */
  function Join(sep: string, parts: seq<string>): string
    decreases |parts|
  {
    if |parts| == 0 then ""
    else if |parts| == 1 then parts[0]
    else parts[0] + sep + Join(sep, parts[1..])
  }

  /** `s.split(sep)` for a non-empty separator: the pieces between the
      non-overlapping occurrences of `sep`, scanned from the left. */
  function Split(s: string, sep: string): (r: seq<string>)
    requires |sep| > 0
    ensures |r| >= 1
    decreases |s|
  {
    match IndexFrom(s, sep, 0)
    case None => [s]
    case Some(i) => [s[..i]] + Split(s[i + |sep|..], sep)
  }

  /** A separator found at `i` cuts `s` into the part before it and the
      part after it. */
  lemma FoundAt(s: string, sep: string, i: nat)
    requires i + |sep| <= |s| && StartsWith(s[i..], sep)
    ensures s[..i] + sep + s[i + |sep|..] == s
  {
    assert s[i..][..|sep|] == sep;
  }

  /** Nothing before the first occurrence contains the separator. */
  lemma BeforeFirst(s: string, sep: string, i: nat)
    requires |sep| > 0
    requires i <= |s| && forall j | 0 <= j < i :: !StartsWith(s[j..], sep)
    ensures !Contains(s[..i], sep)
  {
    forall j | 0 <= j <= i ensures !StartsWith(s[..i][j..], sep) {
      if j < i && |sep| <= i - j {
        assert !StartsWith(s[j..], sep);
        assert s[..i][j..][..|sep|] == s[j..][..|sep|];
      }
    }
  }

  /** Joining the pieces of a split gives the string back. */
  lemma {:induction false} SplitJoin(s: string, sep: string)
    requires |sep| > 0
    ensures Join(sep, Split(s, sep)) == s
    decreases |s|
  {
    var r := IndexFrom(s, sep, 0);
    if r.Some? {
      var i := r.value;
      var tail := s[i + |sep|..];
      SplitJoin(tail, sep);
      FoundAt(s, sep, i);
      var parts := Split(s, sep);
      assert parts == [s[..i]] + Split(tail, sep);
      assert parts[1..] == Split(tail, sep);
    }
  }

  /** No piece of a split contains the separator. */
  lemma {:induction false} SplitPieces(s: string, sep: string)
    requires |sep| > 0
    ensures forall k | 0 <= k < |Split(s, sep)| :: !Contains(Split(s, sep)[k], sep)
    decreases |s|
  {
    var r := IndexFrom(s, sep, 0);
    if r.Some? {
      var i := r.value;
      var tail := s[i + |sep|..];
      SplitPieces(tail, sep);
      BeforeFirst(s, sep, i);
      var parts := Split(s, sep);
      var rest := Split(tail, sep);
      assert parts == [s[..i]] + rest;
      assert forall k | 1 <= k < |parts| :: parts[k] == rest[k - 1];
    } else {
      assert !Contains(s, sep) by {
        forall j | 0 <= j <= |s| ensures !StartsWith(s[j..], sep) {}
      }
    }
  }

  /** A string without the separator is its own only piece. */
  lemma SplitWithout(s: string, sep: string)
    requires |sep| > 0 && !Contains(s, sep)
    ensures Split(s, sep) == [s]
  {
    var r := IndexFrom(s, sep, 0);
    if r.Some? {
      ContainsAt(s, sep, r.value);
    }
  }

  /** The last element of `s.split(sep)`: everything after the last occurrence. */
  function LastPiece(s: string, sep: string): string
    requires |sep| > 0
  {
    var parts := Split(s, sep);
    parts[|parts| - 1]
  }

  /** `s.replace(pat, "")` for a non-empty pattern (left-to-right, non-overlapping). */
  function RemoveAll(s: string, pat: string): (r: string)
    requires |pat| > 0
    ensures |r| <= |s|
    ensures !Contains(s, pat) ==> r == s
    decreases |s|
  {
    if |s| < |pat| then s
    else if s[..|pat|] == pat then
      assert StartsWith(s[0..], pat);
      RemoveAll(s[|pat|..], pat)
    else
      var rest := RemoveAll(s[1..], pat);
      assert !Contains(s, pat) ==> !Contains(s[1..], pat) by {
        if Contains(s[1..], pat) {
          var j :| 0 <= j <= |s[1..]| && StartsWith(s[1..][j..], pat);
          assert s[1..][j..] == s[j + 1..];
          ContainsAt(s, pat, j + 1);
        }
      }
      assert s == [s[0]] + s[1..];
      [s[0]] + rest
  }

  /** A non-empty slice is its first element and the rest. */
  lemma SliceCons<T>(s: seq<T>, j: nat, i: nat)
    requires j < i <= |s|
    ensures s[j..i] == [s[j]] + s[j + 1..i]
  {
    assert s[j..i][1..] == s[j + 1..i];
  }

  /** One step of `RemoveAll` on text starting with the pattern. */
  lemma RemoveAllDrop(t: string, pat: string)
    requires |pat| > 0 && StartsWith(t, pat)
    ensures RemoveAll(t, pat) == RemoveAll(t[|pat|..], pat)
  {
  }

  /** One step of `RemoveAll` on text not starting with the pattern. */
  lemma RemoveAllKeep(t: string, pat: string)
    requires |pat| > 0 && |pat| <= |t| && !StartsWith(t, pat)
    ensures RemoveAll(t, pat) == [t[0]] + RemoveAll(t[1..], pat)
  {
  }

  /** Removing from `j` on, with the first occurrence at `i`: the text
      before it is kept and the occurrence dropped. */
  lemma {:induction false} RemoveUpTo(s: string, pat: string, j: nat, i: nat)
    requires |pat| > 0 && j <= i && i + |pat| <= |s| && StartsWith(s[i..], pat)
    requires forall k | j <= k < i :: !StartsWith(s[k..], pat)
    ensures RemoveAll(s[j..], pat) == s[j..i] + RemoveAll(s[i + |pat|..], pat)
    decreases i - j
  {
    if j == i {
      assert s[i..][|pat|..] == s[i + |pat|..];
      RemoveAllDrop(s[i..], pat);
    } else {
      RemoveUpTo(s, pat, j + 1, i);
      assert s[j..][1..] == s[j + 1..];
      RemoveKept(s[j..], pat, s[j + 1..i], RemoveAll(s[i + |pat|..], pat));
      SliceCons(s, j, i);
    }
  }

  /** A first character where the pattern does not start is kept in front
      of what the rest leaves. */
  lemma RemoveKept(t: string, pat: string, kept: string, rest: string)
    requires |pat| > 0 && |pat| <= |t| && !StartsWith(t, pat)
    requires RemoveAll(t[1..], pat) == kept + rest
    ensures RemoveAll(t, pat) == ([t[0]] + kept) + rest
  {
    RemoveAllKeep(t, pat);
    assert [t[0]] + (kept + rest) == ([t[0]] + kept) + rest;
  }

  /** Removing every occurrence is joining the pieces of a split with
      nothing between them: `s.replace(pat, "") == "".join(s.split(pat))`. */
  lemma {:induction false} RemoveAllIsSplitJoin(s: string, pat: string)
    requires |pat| > 0
    ensures RemoveAll(s, pat) == Join("", Split(s, pat))
    decreases |s|
  {
    match IndexFrom(s, pat, 0)
    case None =>
      assert !Contains(s, pat) by {
        forall j | 0 <= j <= |s| ensures !StartsWith(s[j..], pat) {}
      }
    case Some(i) =>
      var tail := s[i + |pat|..];
      RemoveUpTo(s, pat, 0, i);
      assert s[0..] == s;
      RemoveAllIsSplitJoin(tail, pat);
      var rest := Split(tail, pat);
      assert Split(s, pat) == [s[..i]] + rest;
      assert Join("", [s[..i]] + rest) == s[..i] + "" + Join("", rest) by {
        assert ([s[..i]] + rest)[1..] == rest;
      }
  }

  /** `s.rstrip(chars)`: the longest prefix of `s` whose last character is not
      in `cs`; everything cut off is in `cs`. */
  function RStrip(s: string, cs: set<char>): (r: string)
    ensures |r| <= |s| && r == s[..|r|]
    ensures |r| > 0 ==> r[|r| - 1] !in cs
    ensures forall i | |r| <= i < |s| :: s[i] in cs
    decreases |s|
  {
    if |s| > 0 && s[|s| - 1] in cs then RStrip(s[..|s| - 1], cs) else s
  }

  /** `s.lstrip(chars)`: the longest suffix of `s` whose first character is not
      in `cs`; everything cut off is in `cs`. */
  function LStrip(s: string, cs: set<char>): (r: string)
    ensures |r| <= |s| && r == s[|s| - |r|..]
    ensures |r| > 0 ==> r[0] !in cs
    ensures forall i | 0 <= i < |s| - |r| :: s[i] in cs
    decreases |s|
  {
    if |s| > 0 && s[0] in cs then LStrip(s[1..], cs) else s
  }

  /** ASCII whitespace as `str.strip()` with no argument sees it (the Unicode
      space characters beyond ASCII are not modelled). */
  const Whitespace: set<char> :=
    {' ', '\t', '\n', '\r', '\U{B}', '\U{C}', '\U{1C}', '\U{1D}', '\U{1E}', '\U{1F}'}

  /** `s.strip()` */
  function Strip(s: string): string {
    RStrip(LStrip(s, Whitespace), Whitespace)
  }

  /** `s[:n]` for `n >= 0`, on strings and lists alike */
  function Take<T>(s: seq<T>, n: nat): (r: seq<T>)
    ensures |r| == if n < |s| then n else |s|
    ensures r == s[..|r|]
  {
    if n < |s| then s[..n] else s
  }

  function UpperChar(c: char): char {
    if 'a' <= c <= 'z' then (c as int - 32) as char else c
  }

  function LowerChar(c: char): char {
    if 'A' <= c <= 'Z' then (c as int + 32) as char else c
  }

  /** `s.upper()` on ASCII letters */
  function Upper(s: string): (r: string)
    ensures |r| == |s|
  {
    seq(|s|, i requires 0 <= i < |s| => UpperChar(s[i]))
  }

  /** `s.lower()` on ASCII letters */
  function Lower(s: string): (r: string)
    ensures |r| == |s|
  {
    seq(|s|, i requires 0 <= i < |s| => LowerChar(s[i]))
  }

  function DigitChar(d: nat): char
    requires d < 10
  {
    "0123456789"[d]
  }

  /** `str(n)` for a natural number */
  function NatToString(n: nat): (r: string)
    ensures |r| >= 1
    decreases n
  {
    if n < 10 then [DigitChar(n)] else NatToString(n / 10) + [DigitChar(n % 10)]
  }

  /** `str(i)` for an integer */
  function IntToString(i: int): string {
    if i < 0 then "-" + NatToString(-i) else NatToString(i)
  }
}
