/**
 * Character and string primitives with the meaning of the Python built-ins the
 * orchestrator relies on: `str.isspace`/`\s`, `str.strip()`, substring search
 * (`in`, `str.find`, `str.split(sep, 1)`), decimal digits, `int(...)` on a digit
 * string, and the `{n}` / `{n:02d}` formats.
 */
module Text {
  import opened Wrappers

  /** Python's `str.isspace`, which is also what `\s` matches in a `str` pattern. */
  predicate IsSpace(c: char) {
    || c == ' '
    || ('\U{9}' <= c <= '\U{D}')
    || ('\U{1C}' <= c <= '\U{1F}')
    || c == '\U{85}' || c == '\U{A0}' || c == '\U{1680}'
    || ('\U{2000}' <= c <= '\U{200A}')
    || c == '\U{2028}' || c == '\U{2029}' || c == '\U{202F}' || c == '\U{205F}' || c == '\U{3000}'
  }

  predicate AllSpace(s: string) {
    forall i :: 0 <= i < |s| ==> IsSpace(s[i])
  }

  /** The start of the run of whitespace that ends at `j` (what `rstrip` removes from `s[..j]`). */
  function SkipSpaceBack(s: string, j: nat): (n: nat)
    requires j <= |s|
    ensures n <= j && (n == 0 || !IsSpace(s[n - 1]))
    ensures forall k :: n <= k < j ==> IsSpace(s[k])
  {
    if j > 0 && IsSpace(s[j - 1]) then SkipSpaceBack(s, j - 1) else j
  }

  /** `s.lstrip()`: the longest suffix of `s` that does not start with whitespace. */
  function TrimStart(s: string): (r: string)
    ensures |r| <= |s| && r == s[|s| - |r|..]
    ensures AllSpace(s[..|s| - |r|])
    ensures r == [] || !IsSpace(r[0])
  {
    var n := SkipSpace(s, 0);
    assert forall k :: 0 <= k < n ==> s[..n][k] == s[k];
    s[n..]
  }

  /** `s.rstrip()`: the longest prefix of `s` that does not end with whitespace. */
  function TrimEnd(s: string): (r: string)
    ensures |r| <= |s| && r == s[..|r|]
    ensures AllSpace(s[|r|..])
    ensures r == [] || !IsSpace(r[|r| - 1])
  {
    var n := SkipSpaceBack(s, |s|);
    assert forall k :: n <= k < |s| ==> s[n..][k - n] == s[k];
    s[..n]
  }

  /** `s.strip()`: `s` without its leading and trailing whitespace. */
  function Strip(s: string): (r: string)
    ensures |r| <= |s|
    ensures r == [] || (!IsSpace(r[0]) && !IsSpace(r[|r| - 1]))
  {
    TrimEnd(TrimStart(s))
  }

  /** What `Strip` removes is whitespace, and what it keeps is one contiguous slice of `s`. */
  lemma StripIsSlice(s: string) returns (lo: nat)
    ensures lo + |Strip(s)| <= |s|
    ensures Strip(s) == s[lo..lo + |Strip(s)|]
    ensures AllSpace(s[..lo]) && AllSpace(s[lo + |Strip(s)|..])
  {
    var t := TrimStart(s);
    var r := TrimEnd(t);
    lo := |s| - |t|;
    assert r == t[..|r|];
    assert s[lo + |r|..] == t[|r|..];
  }

  /** Stripping twice is stripping once. */
  lemma StripIdempotent(s: string)
    ensures Strip(Strip(s)) == Strip(s)
  {
    var r := Strip(s);
    if r != [] {
      assert TrimStart(r) == r;
      assert TrimEnd(r) == r;
    }
  }

  /** The stripped text occurs in the text. */
  lemma StripOccurs(s: string)
    ensures Contains(s, Strip(s))
  {
    var lo := StripIsSlice(s);
    ContainsIff(s, Strip(s));
    assert PrefixAt(s, lo, Strip(s));
  }

  /** A text strips to nothing exactly when it is all whitespace. */
  lemma StripEmptyIff(s: string)
    ensures Strip(s) == [] <==> AllSpace(s)
  {
    var lo := StripIsSlice(s);
    var r := Strip(s);
    if r == [] {
      assert forall i :: 0 <= i < |s| ==> IsSpace(s[i]) by {
        forall i | 0 <= i < |s| ensures IsSpace(s[i]) {
          if i < lo { assert s[..lo][i] == s[i]; } else { assert s[lo..][i - lo] == s[i]; }
        }
      }
    } else {
      assert r[0] == s[lo];
    }
  }

  /** The position of the first occurrence of `t` in `s` at or after `from` (Python's `s.find(t, from)`). */
  predicate PrefixAt(s: string, i: nat, t: string) {
    i + |t| <= |s| && s[i..i + |t|] == t
  }

  function FindFrom(s: string, t: string, from: nat): (r: Option<nat>)
    decreases |s| - from
    ensures r.Some? ==> from <= r.value && PrefixAt(s, r.value, t)
    ensures r.Some? ==> forall j :: from <= j < r.value ==> !PrefixAt(s, j, t)
    ensures r.None? ==> forall j :: from <= j ==> !PrefixAt(s, j, t)
  {
    if from + |t| > |s| then None
    else if s[from..from + |t|] == t then Some(from)
    else FindFrom(s, t, from + 1)
  }

  function Find(s: string, t: string): Option<nat> {
    FindFrom(s, t, 0)
  }

  /** Python's `t in s`. */
  predicate Contains(s: string, t: string) {
    Find(s, t).Some?
  }

  /** `Contains` is exactly "some position of `s` starts with `t`". */
  lemma ContainsIff(s: string, t: string)
    ensures Contains(s, t) <==> exists i :: PrefixAt(s, i, t)
  {
  }

  /** `s.split(t, 1)[1]`: the text after the first occurrence of `t`. */
  function AfterFirst(s: string, t: string): (r: string)
    requires Contains(s, t)
    ensures exists i: nat :: PrefixAt(s, i, t) && r == s[i + |t|..] && forall j: nat :: j < i ==> !PrefixAt(s, j, t)
  {
    var i := Find(s, t).value;
    s[i + |t|..]
  }

  /** A slice of a text that does not contain `t` does not contain `t` either. */
  lemma SliceAvoids(s: string, lo: nat, hi: nat, t: string)
    requires lo <= hi <= |s| && !Contains(s, t)
    ensures !Contains(s[lo..hi], t)
  {
    forall j: nat | PrefixAt(s[lo..hi], j, t) ensures PrefixAt(s, lo + j, t) {
      assert j + |t| <= hi - lo;
      var u, v := s[lo..hi][j..j + |t|], s[lo + j..lo + j + |t|];
      assert forall k :: 0 <= k < |t| ==> u[k] == v[k];
      assert s[lo..hi][j..j + |t|] == s[lo + j..lo + j + |t|];
    }
  }

  /** Stripping cannot create an occurrence. */
  lemma StripAvoids(s: string, t: string)
    requires !Contains(s, t)
    ensures !Contains(Strip(s), t)
  {
    var lo := StripIsSlice(s);
    SliceAvoids(s, lo, lo + |Strip(s)|, t);
  }

  // ---------------------------------------------------------------------------
  // Decimal digits

  predicate IsDigit(c: char) {
    '0' <= c <= '9'
  }

  predicate AllDigits(s: string) {
    forall i :: 0 <= i < |s| ==> IsDigit(s[i])
  }

  function DigitChar(d: nat): (c: char)
    requires d < 10
    ensures IsDigit(c)
  {
    (48 + d) as char
  }

  /** Python's `int(s)` on a string of ASCII digits (most significant first). */
  function DigitsValue(s: string): nat
    requires AllDigits(s)
  {
    if s == [] then 0 else DigitsValue(s[..|s| - 1]) * 10 + (s[|s| - 1] as int - 48)
  }

  /** `str(n)` for a natural number: its decimal digits without leading zeros. */
  function Show(n: nat): (r: string)
    ensures 1 <= |r| && AllDigits(r)
    ensures DigitsValue(r) == n
    ensures |r| > 1 ==> r[0] != '0'
  {
    if n < 10 then [DigitChar(n)]
    else
      var r := Show(n / 10) + [DigitChar(n % 10)];
      assert r[..|r| - 1] == Show(n / 10);
      r
  }

  /** `f"{n:02d}"`: at least two digits, zero-padded on the left. */
  function Pad2(n: nat): (r: string)
    ensures 2 <= |r| && AllDigits(r)
    ensures DigitsValue(r) == n
    ensures n < 10 ==> |r| == 2
    ensures n >= 10 ==> r == Show(n)
  {
    if n < 10 then
      var r := "0" + Show(n);
      assert r[..1] == "0";
      r
    else Show(n)
  }

  /** `str(i)` for any integer: a minus sign before the digits of a negative number. */
  function ShowInt(i: int): (r: string)
    ensures r != [] && (i < 0 <==> r[0] == '-')
    ensures i >= 0 ==> AllDigits(r) && DigitsValue(r) == i
    ensures i < 0 ==> AllDigits(r[1..]) && DigitsValue(r[1..]) == -i
    ensures var d := if i < 0 then r[1..] else r; d != [] && (|d| > 1 ==> d[0] != '0')
  {
    if i < 0 then
      var r := "-" + Show(-i);
      assert r[1..] == Show(-i);
      r
    else Show(i)
  }

  /** The length of the run of digits that starts at `j`. */
  function DigitEnd(s: string, j: nat): (r: nat)
    requires j <= |s|
    decreases |s| - j
    ensures j <= r <= |s|
    ensures forall k :: j <= k < r ==> IsDigit(s[k])
    ensures r < |s| ==> !IsDigit(s[r])
  {
    if j < |s| && IsDigit(s[j]) then DigitEnd(s, j + 1) else j
  }

  /** The end of the run of whitespace that starts at `j` (what a greedy `\s*` consumes). */
  function SkipSpace(s: string, j: nat): (r: nat)
    requires j <= |s|
    decreases |s| - j
    ensures j <= r <= |s|
    ensures forall k :: j <= k < r ==> IsSpace(s[k])
    ensures r < |s| ==> !IsSpace(s[r])
  {
    if j < |s| && IsSpace(s[j]) then SkipSpace(s, j + 1) else j
  }

  /** A run of digits followed by a non-digit ends exactly there. */
  lemma DigitEndOf(s: string, j: nat, d: string)
    requires j + |d| <= |s| && s[j..j + |d|] == d && AllDigits(d)
    requires j + |d| == |s| || !IsDigit(s[j + |d|])
    ensures DigitEnd(s, j) == j + |d|
    decreases |d|
  {
    if d != [] {
      assert s[j] == d[0];
      assert s[j + 1..j + 1 + |d[1..]|] == d[1..];
      DigitEndOf(s, j + 1, d[1..]);
    }
  }

  /** A run of whitespace followed by a non-space ends exactly there. */
  lemma SkipSpaceOf(s: string, j: nat, k: nat)
    requires j + k <= |s|
    requires forall m :: j <= m < j + k ==> IsSpace(s[m])
    requires j + k == |s| || !IsSpace(s[j + k])
    ensures SkipSpace(s, j) == j + k
    decreases k
  {
    if k > 0 {
      SkipSpaceOf(s, j + 1, k - 1);
    }
  }
}
