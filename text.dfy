/** The few Python string builtins the orchestrator relies on, written out:
    `w in s`, `s.split(sep)[-1]`, `s.lower()`, `s.strip()`, `str(n)` of an integer, and
    the prefix slice `xs[:k]`. */
module PyText {
  import opened Wrappers

  /** `w` occurs in `s` starting at index `i`. */
  predicate OccursAt(s: string, w: string, i: int) {
    0 <= i <= |s| && w <= s[i..]
  }

  /** The first index at or after `from` where `w` occurs in `s`. */
  function IndexFrom(s: string, w: string, from: nat): (r: Option<nat>)
    requires from <= |s|
    ensures r.Some? ==> from <= r.value && OccursAt(s, w, r.value)
    ensures r.Some? ==> forall j :: from <= j < r.value ==> !OccursAt(s, w, j)
    ensures r.None? ==> forall j :: from <= j ==> !OccursAt(s, w, j)
    decreases |s| - from
  {
    if w <= s[from..] then Some(from)
    else if from == |s| then None
    else IndexFrom(s, w, from + 1)
  }

  /** The first index where `w` occurs in `s` (Python's `s.find(w)`, with `None` for -1). */
  function IndexOf(s: string, w: string): (r: Option<nat>)
    ensures r.Some? ==> OccursAt(s, w, r.value) && forall j :: 0 <= j < r.value ==> !OccursAt(s, w, j)
    ensures r.None? ==> forall j :: !OccursAt(s, w, j)
  {
    IndexFrom(s, w, 0)
  }

  /** Python's `w in s`. */
  predicate Contains(s: string, w: string)
    ensures Contains(s, w) <==> exists i :: OccursAt(s, w, i)
  {
    IndexOf(s, w).Some?
  }

  /** An occurrence inside a suffix of `s` is an occurrence in `s`, shifted. */
  lemma OccursInSuffix(s: string, w: string, k: nat, j: int)
    requires k <= |s| && OccursAt(s[k..], w, j)
    ensures OccursAt(s, w, k + j)
  {
  }

  /** An occurrence in either part of a concatenation is an occurrence in the whole. */
  lemma OccursInConcat(a: string, b: string, w: string, i: int)
    ensures OccursAt(a, w, i) ==> OccursAt(a + b, w, i)
    ensures OccursAt(b, w, i) ==> OccursAt(a + b, w, |a| + i)
  {
  }

  /** Python's `s.split(sep)` scans left to right: where `sep` occurs at `i` a piece ends and the
      scan resumes at `i + |sep|`; elsewhere it moves on by one. Scanning from `i` in a piece that
      began at `start`, this is where the last piece begins. */
  function LastPieceFrom(s: string, sep: string, i: nat, start: nat): (r: nat)
    requires sep != "" && start <= i <= |s|
    requires forall j :: start <= j < i ==> !OccursAt(s, sep, j)
    ensures start <= r <= |s|
    ensures forall j :: r <= j ==> !OccursAt(s, sep, j)
    ensures r == start || (|sep| <= r && OccursAt(s, sep, r - |sep|))
    decreases |s| - i
  {
    if i + |sep| > |s| then start
    else if sep <= s[i..] then LastPieceFrom(s, sep, i + |sep|, i + |sep|)
    else LastPieceFrom(s, sep, i + 1, start)
  }

  /** `s.split(sep)[-1]`: the text after the last separator found, or all of `s` without one. */
  function SplitLast(s: string, sep: string): (r: string)
    requires sep != ""
    ensures |r| <= |s| && r == s[|s| - |r|..]
    ensures !Contains(r, sep)
    ensures !Contains(s, sep) ==> r == s
    ensures Contains(s, sep) ==> exists i :: OccursAt(s, sep, i) && r == s[i + |sep|..]
  {
    var k := LastPieceFrom(s, sep, 0, 0);
    assert !Contains(s[k..], sep) by {
      forall j | OccursAt(s[k..], sep, j) ensures false {
        OccursInSuffix(s, sep, k, j);
      }
    }
    if k == 0 then
      s
    else
      assert OccursAt(s, sep, k - |sep|);
      s[k..]
  }

  /** `c.lower()` on the ASCII letters; every other character is its own lower case here. */
  function LowerChar(c: char): char {
    if 'A' <= c <= 'Z' then (c as int - 'A' as int + 'a' as int) as char else c
  }

  /** `s.lower()`, character by character. */
  function Lower(s: string): (r: string)
    ensures |r| == |s|
    ensures forall i :: 0 <= i < |s| && 'A' <= s[i] <= 'Z' ==> r[i] as int == s[i] as int + 32
    ensures forall i :: 0 <= i < |s| && !('A' <= s[i] <= 'Z') ==> r[i] == s[i]
  {
    seq(|s|, i requires 0 <= i < |s| => LowerChar(s[i]))
  }

  /** `xs[:k]` on a Python list: `k` counts from the end when negative, and is clamped to the
      list's bounds either way. */
  function PrefixSlice<T>(xs: seq<T>, k: int): (r: seq<T>)
    ensures r <= xs
    ensures 0 <= k ==> |r| == if k < |xs| then k else |xs|
    ensures k < 0 ==> |r| == if |xs| + k < 0 then 0 else |xs| + k
  {
    var n := if k < 0 then |xs| + k else k;
    if n < 0 then [] else if n < |xs| then xs[..n] else xs
  }

  /** The characters `str.strip()` removes: those for which Python's `str.isspace()` holds. */
  predicate IsSpace(c: char) {
    || '\t' <= c <= '\r' || '\U{1c}' <= c <= '\U{1f}' || c == ' ' || c == '\U{85}' || c == '\U{a0}'
    || c == '\U{1680}' || '\U{2000}' <= c <= '\U{200a}' || c == '\U{2028}' || c == '\U{2029}'
    || c == '\U{202f}' || c == '\U{205f}' || c == '\U{3000}'
  }

  predicate AllSpace(s: string) {
    forall k :: 0 <= k < |s| ==> IsSpace(s[k])
  }

  /** `s.lstrip()`. */
  function StripStart(s: string): (r: string)
    ensures |r| <= |s| && r == s[|s| - |r|..]
    ensures AllSpace(s[..|s| - |r|])
    ensures r != "" ==> !IsSpace(r[0])
  {
    if s != "" && IsSpace(s[0]) then StripStart(s[1..]) else s
  }

  /** `s.rstrip()`. */
  function StripEnd(s: string): (r: string)
    ensures |r| <= |s| && r == s[..|r|]
    ensures AllSpace(s[|r|..])
    ensures r != "" ==> !IsSpace(r[|r| - 1])
  {
    if s != "" && IsSpace(s[|s| - 1]) then
      var r := StripEnd(s[..|s| - 1]);
      assert s[|r|..] == s[..|s| - 1][|r|..] + [s[|s| - 1]];
      r
    else s
  }

  /** `r` is `s` with only whitespace cut before index `i` and after `r`. */
  predicate Trims(s: string, i: int, r: string) {
    0 <= i <= i + |r| <= |s| && r == s[i..i + |r|] && AllSpace(s[..i]) && AllSpace(s[i + |r|..])
  }

  /** `s.strip()`: `s` without its leading and trailing whitespace. */
  function Strip(s: string): (r: string)
    ensures exists i :: Trims(s, i, r)
    ensures r != "" ==> !IsSpace(r[0]) && !IsSpace(r[|r| - 1])
  {
    var t := StripStart(s);
    var r := StripEnd(t);
    var i := |s| - |t|;
    assert r == s[i..i + |r|];
    assert AllSpace(s[i + |r|..]) by { assert s[i + |r|..] == t[|r|..]; }
    assert Trims(s, i, r);
    r
  }

  /** A string is blank after `strip()` exactly when it holds only whitespace. */
  lemma StripEmptyIffBlank(s: string)
    ensures Strip(s) == "" <==> AllSpace(s)
  {
  }

  function DigitChar(d: nat): char
    requires d < 10
  {
    "0123456789"[d]
  }

  function DigitValue(c: char): int {
    c as int - '0' as int
  }

  /** `str(n)` for a natural number: its decimal digits, most significant first. */
  function NatToString(n: nat): (r: string)
    ensures r != ""
    ensures forall k :: 0 <= k < |r| ==> '0' <= r[k] <= '9'
  {
    if n < 10 then [DigitChar(n)] else NatToString(n / 10) + [DigitChar(n % 10)]
  }

  /** `str(i)` for any integer. */
  function IntToString(i: int): string {
    if i < 0 then "-" + NatToString(-i) else NatToString(i)
  }

  /** The number a string of decimal digits denotes. */
  function DigitsValue(s: string): int {
    if s == "" then 0 else DigitsValue(s[..|s| - 1]) * 10 + DigitValue(s[|s| - 1])
  }

  /** Reading back the digits `str(n)` writes gives `n`: the rendering loses nothing. */
  lemma {:induction false} NatToStringRoundTrip(n: nat)
    ensures DigitsValue(NatToString(n)) == n
  {
    if n >= 10 {
      NatToStringRoundTrip(n / 10);
      var s := NatToString(n);
      assert s[..|s| - 1] == NatToString(n / 10);
    }
  }
}
