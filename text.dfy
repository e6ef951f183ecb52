/**
  The Python string operations the core relies on: ASCII character classes
  (`\d`, `\w`, `\s`), `str.lower()`, `k in s`, `s.index(k)` and `s.lstrip('+')`.
  Characters outside ASCII are never digits, word characters or spaces here.
 */
module Text {
  import opened Wrappers

  predicate IsDigit(c: char) { '0' <= c <= '9' }

  predicate IsAsciiLetter(c: char) { 'a' <= c <= 'z' || 'A' <= c <= 'Z' }

  /** `\w`: letters, digits and the underscore. */
  predicate IsWordChar(c: char) { IsAsciiLetter(c) || IsDigit(c) || c == '_' }

  /** `\s`: the characters `str.isspace()` accepts below 128 (tab to carriage return, 0x1C-0x1F, space). */
  predicate IsSpace(c: char) {
    var n := c as int; n == 32 || 9 <= n <= 13 || 28 <= n <= 31
  }

  predicate AllDigits(s: string) {
    forall k | 0 <= k < |s| :: IsDigit(s[k])
  }

  function LowerChar(c: char): char {
    if 'A' <= c <= 'Z' then (c as int + 32) as char else c
  }

  /** `s.lower()`: same length, each character lower-cased on its own. */
  function Lower(s: string): (r: string)
    ensures |r| == |s|
    ensures forall i | 0 <= i < |s| :: r[i] == LowerChar(s[i])
  {
    seq(|s|, i requires 0 <= i < |s| => LowerChar(s[i]))
  }

  /** `k` occurs in `s` starting at index `i`. */
  predicate OccursAt(s: string, k: string, i: nat) {
    i + |k| <= |s| && s[i..i + |k|] == k
  }

  function FirstIndexFrom(s: string, k: string, i: nat): (r: Option<nat>)
    requires i <= |s|
    decreases |s| - i
    ensures r.Some? ==> i <= r.value && OccursAt(s, k, r.value)
    ensures r.Some? ==> forall j | i <= j < r.value :: !OccursAt(s, k, j)
    ensures r.None? ==> forall j | i <= j :: !OccursAt(s, k, j)
  {
    if OccursAt(s, k, i) then Some(i)
    else if i == |s| then None
    else FirstIndexFrom(s, k, i + 1)
  }

  /** `s.index(k)` when `k in s`, and None when not. */
  function FirstIndexOf(s: string, k: string): (r: Option<nat>)
    ensures r.Some? ==> OccursAt(s, k, r.value)
    ensures r.Some? ==> forall j | 0 <= j < r.value :: !OccursAt(s, k, j)
    ensures r.None? <==> forall j: nat :: !OccursAt(s, k, j)
  {
    FirstIndexFrom(s, k, 0)
  }

  /** `k in s`. */
  predicate Contains(s: string, k: string) {
    FirstIndexOf(s, k).Some?
  }

  /** `s.lstrip('+')`: drops every leading '+'. */
  function StripLeadingPlus(s: string): (r: string)
    ensures |r| <= |s| && r == s[|s| - |r|..]
    ensures forall k | 0 <= k < |s| - |r| :: s[k] == '+'
    ensures r == [] || r[0] != '+'
  {
    if |s| > 0 && s[0] == '+' then StripLeadingPlus(s[1..]) else s
  }

  /** `k` cannot occur in `s` when one of its characters occurs nowhere in `s`. */
  lemma AbsentCharNotContained(s: string, k: string, q: nat)
    requires q < |k|
    requires forall j | 0 <= j < |s| :: s[j] != k[q]
    ensures !Contains(s, k)
  {
  }

  /** Lower-casing leaves a text without capitals unchanged. */
  lemma LowerNoCapitals(s: string)
    requires forall i | 0 <= i < |s| :: !('A' <= s[i] <= 'Z')
    ensures Lower(s) == s
  {
  }

  /** `s.index(k)` is `i` when `k` occurs at `i` and its first character occurs nowhere before. */
  lemma FirstIndexAt(s: string, k: string, i: nat)
    requires |k| > 0 && OccursAt(s, k, i)
    requires forall j | 0 <= j < i :: s[j] != k[0]
    ensures FirstIndexOf(s, k) == Some(i)
  {
    var r := FirstIndexOf(s, k);
    assert r.Some?;
    assert r.value >= i by {
      assert s[r.value..r.value + |k|][0] == s[r.value];
    }
  }
}
