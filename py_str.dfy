/** The few Python `str` and `list` operations the host and generator code
    relies on: substring search (`in`), `str.split(sep)`, `str.replace(old, new)`,
    indexing with negative indices, decimal rendering and `int()` parsing of
    non-negative decimals. Strings are sequences of characters. */
module PyStr {
  import opened Wrappers

  /** `sub` occurs in `s` at index i. */
  predicate OccursAt(s: string, sub: string, i: int)
  {
    0 <= i && i + |sub| <= |s| && s[i..i + |sub|] == sub
  }

  /** Index of the first occurrence of `sub` in `s` (`str.find`). */
  function Find(s: string, sub: string): (r: Option<nat>)
    ensures r.Some? ==> OccursAt(s, sub, r.value)
    ensures r.Some? ==> forall j :: 0 <= j < r.value ==> !OccursAt(s, sub, j)
    ensures r.None? ==> forall j :: 0 <= j ==> !OccursAt(s, sub, j)
    decreases |s|
  {
    if |s| < |sub| then None
    else if s[..|sub|] == sub then Some(0)
    else
      match Find(s[1..], sub)
      case None =>
        assert forall j :: 1 <= j ==> (OccursAt(s, sub, j) <==> OccursAt(s[1..], sub, j - 1));
        None
      case Some(i) =>
        assert forall j :: 1 <= j ==> (OccursAt(s, sub, j) <==> OccursAt(s[1..], sub, j - 1));
        Some(i + 1)
  }

  /** Python `sub in s`. */
  predicate Contains(s: string, sub: string)
  {
    Find(s, sub).Some?
  }

  /** An occurrence with none before it is what `Find` reports. */
  lemma FindIs(s: string, sub: string, i: nat)
    requires OccursAt(s, sub, i)
    requires forall j :: 0 <= j < i ==> !OccursAt(s, sub, j)
    ensures Find(s, sub) == Some(i)
  {
  }

  /** A string without `c` contains no string starting with `c`. */
  lemma NotContainsWithout(s: string, sub: string, c: char)
    requires |sub| > 0 && sub[0] == c && c !in s
    ensures forall j :: 0 <= j ==> !OccursAt(s, sub, j)
    ensures !Contains(s, sub)
  {
    forall j | 0 <= j
      ensures !OccursAt(s, sub, j)
    {
      if j + |sub| <= |s| {
        assert s[j..j + |sub|][0] == s[j];
      }
    }
  }

  /** Python `s.split(sep)` for a non-empty separator. */
  function Split(s: string, sep: string): (r: seq<string>)
    requires |sep| > 0
    ensures |r| >= 1
    decreases |s|
  {
    match Find(s, sep)
    case None => [s]
    case Some(i) => [s[..i]] + Split(s[i + |sep|..], sep)
  }

  /** Splitting `a + sep + b`, where `a` holds no character that starts `sep`,
      cuts at the end of `a`. */
  lemma SplitAfterPlain(a: string, sep: string, b: string)
    requires |sep| > 0 && sep[0] !in a
    ensures Split(a + sep + b, sep) == [a] + Split(b, sep)
  {
    var s := a + sep + b;
    forall j | 0 <= j < |a|
      ensures !OccursAt(s, sep, j)
    {
      if j + |sep| <= |s| {
        assert s[j..j + |sep|][0] == a[j];
      }
    }
    assert s[|a|..|a| + |sep|] == sep;
    FindIs(s, sep, |a|);
    assert s[..|a|] == a;
    assert s[|a| + |sep|..] == b;
  }

  /** A string holding no character that starts `sep` splits into itself. */
  lemma SplitPlain(a: string, sep: string)
    requires |sep| > 0 && sep[0] !in a
    ensures Split(a, sep) == [a]
  {
    NotContainsWithout(a, sep, sep[0]);
  }

  /** Python `s.replace(old, new)`: every non-overlapping occurrence of `old`,
      leftmost first, becomes `new`; an empty `old` inserts `new` before every
      character and at the end. */
  function Replace(s: string, pat: string, repl: string): string
    decreases |s|
  {
    if |pat| == 0 then
      if |s| == 0 then repl else repl + [s[0]] + Replace(s[1..], pat, repl)
    else if |s| < |pat| then s
    else if s[..|pat|] == pat then repl + Replace(s[|pat|..], pat, repl)
    else [s[0]] + Replace(s[1..], pat, repl)
  }

  /** Text that holds no character starting `pat` passes through `Replace`. */
  lemma {:induction false} ReplacePlainPrefix(a: string, b: string, pat: string, repl: string)
    requires |pat| > 0 && pat[0] !in a
    ensures Replace(a + b, pat, repl) == a + Replace(b, pat, repl)
    decreases |a|
  {
    if |a| > 0 {
      var s := a + b;
      assert s[0] == a[0];
      if |s| >= |pat| {
        assert s[..|pat|][0] == a[0];
      }
      assert s[1..] == a[1..] + b;
      ReplacePlainPrefix(a[1..], b, pat, repl);
    } else {
      assert a + b == b;
    }
  }

  /** Where `pat` does not start the string, `Replace` keeps the first character. */
  lemma ReplaceSkip(s: string, pat: string, repl: string)
    requires |pat| > 0 && |s| > 0
    requires |s| < |pat| || s[..|pat|] != pat
    ensures Replace(s, pat, repl) == [s[0]] + Replace(s[1..], pat, repl)
  {
    if |s| < |pat| {
      assert Replace(s[1..], pat, repl) == s[1..];
      assert s == [s[0]] + s[1..];
    }
  }

  /** `pat` at the front is replaced. */
  lemma ReplaceAtFront(b: string, pat: string, repl: string)
    requires |pat| > 0
    ensures Replace(pat + b, pat, repl) == repl + Replace(b, pat, repl)
  {
    var s := pat + b;
    assert s[..|pat|] == pat;
    assert s[|pat|..] == b;
  }

  /** A string without `pat` is left unchanged. */
  lemma ReplaceAbsent(s: string, pat: string, repl: string)
    requires |pat| > 0 && pat[0] !in s
    ensures Replace(s, pat, repl) == s
  {
    ReplacePlainPrefix(s, [], pat, repl);
    assert s + [] == s;
  }

  /** Python list indexing `xs[i]`, negative indices counting from the end. */
  function PyIndex<T>(xs: seq<T>, i: int): (r: Result<T>)
    ensures r.Ok? <==> -|xs| <= i < |xs|
    ensures 0 <= i < |xs| ==> r == Ok(xs[i])
    ensures -|xs| <= i < 0 ==> r == Ok(xs[|xs| + i])
  {
    if 0 <= i < |xs| then Ok(xs[i])
    else if -|xs| <= i < 0 then Ok(xs[|xs| + i])
    else Err(IndexError)
  }

  predicate IsDigit(c: char)
  {
    '0' <= c <= '9'
  }

  /** `str(n)` for a natural number. */
  function DecimalString(n: nat): (r: string)
    ensures |r| >= 1 && forall i :: 0 <= i < |r| ==> IsDigit(r[i])
    ensures |r| > 1 ==> r[0] != '0'
  {
    if n < 10 then [(n + '0' as int) as char]
    else DecimalString(n / 10) + [((n % 10) + '0' as int) as char]
  }

  /** The value of a string of decimal digits. */
  function DigitsValue(s: string): nat
    requires forall i :: 0 <= i < |s| ==> IsDigit(s[i])
  {
    if |s| == 0 then 0
    else
      var last := s[|s| - 1];
      assert IsDigit(last);
      10 * DigitsValue(s[..|s| - 1]) + (last as int - '0' as int)
  }

  /** `int(s)` for strings of ASCII decimal digits; anything else (including the
      empty string) raises ValueError. Signs and surrounding blanks, which
      `int()` also accepts, are not modelled. */
  function ParseNat(s: string): (r: Result<nat>)
    ensures r.Ok? <==> |s| >= 1 && forall i :: 0 <= i < |s| ==> IsDigit(s[i])
  {
    if |s| >= 1 && forall i :: 0 <= i < |s| ==> IsDigit(s[i]) then Ok(DigitsValue(s)) else Err(ValueError)
  }

  /** Parsing what `str()` renders gives the number back. */
  lemma {:induction false} DecimalRoundTrip(n: nat)
    ensures ParseNat(DecimalString(n)) == Ok(n)
  {
    DecimalValue(n);
  }

  lemma {:induction false} DecimalValue(n: nat)
    ensures DigitsValue(DecimalString(n)) == n
  {
    var s := DecimalString(n);
    if n >= 10 {
      DecimalValue(n / 10);
      assert s[..|s| - 1] == DecimalString(n / 10);
    }
  }
}
