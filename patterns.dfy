/**
  The seven regular expressions of the detector, as the matches Python's
  `re.finditer` reports: at each start index the pattern is tried with the
  engine's greedy-then-backtrack order, a match resumes the scan at its end,
  a failure moves one character on. Character classes are ASCII (see Text).
 */
module Patterns {
  import opened Wrappers
  import opened Text

  /** `\b` at index `i`: exactly one of the characters around it is a word character. */
  predicate IsBoundary(s: string, i: nat)
    requires i <= |s|
  {
    (i > 0 && IsWordChar(s[i - 1])) != (i < |s| && IsWordChar(s[i]))
  }

  datatype CharClass =
    | Digit          // \d
    | Word           // \w
    | LocalPartChar  // [A-Za-z0-9._%+-]
    | DomainChar     // [A-Za-z0-9.-]
    | TldAsWritten   // [A-Z|a-z]: the '|' is a literal member of the class
    | TldLetter      // [A-Za-z]
  {
    predicate Has(c: char) {
      match this
      case Digit => IsDigit(c)
      case Word => IsWordChar(c)
      case LocalPartChar => IsAsciiLetter(c) || IsDigit(c) || c == '.' || c == '_' || c == '%' || c == '+' || c == '-'
      case DomainChar => IsAsciiLetter(c) || IsDigit(c) || c == '.' || c == '-'
      case TldAsWritten => IsAsciiLetter(c) || c == '|'
      case TldLetter => IsAsciiLetter(c)
    }
  }

  /** The optional separator between digit groups. */
  datatype Separator =
    | DashOrSpace  // [-\s]
    | DashOrDot    // [-.]
  {
    predicate Has(c: char) {
      match this
      case DashOrSpace => c == '-' || IsSpace(c)
      case DashOrDot => c == '-' || c == '.'
    }
  }

  datatype Pattern =
    | DigitRun(lo: nat, hi: nat)                     // \b\d{lo,hi}\b
    | DigitGroups(groups: seq<nat>, sep: Separator)  // \b\d{g1}[sep]?\d{g2}...[sep]?\d{gn}\b
    | Email(tld: CharClass)                          // \b[A-Za-z0-9._%+-]+@[A-Za-z0-9.-]+\.[tld]{2,}\b

  /** Patterns that can only match a non-empty text. */
  predicate WellFormed(p: Pattern) {
    match p
    case DigitRun(lo, hi) => 1 <= lo <= hi
    case DigitGroups(groups, _) => |groups| > 0 && forall k | 0 <= k < |groups| :: groups[k] >= 1
    case Email(_) => true
  }

  /** Length of the longest run of class members starting at `i`. */
  function RunLength(s: string, i: nat, cls: CharClass): (n: nat)
    requires i <= |s|
    decreases |s| - i
    ensures i + n <= |s|
    ensures forall k | i <= k < i + n :: cls.Has(s[k])
    ensures i + n == |s| || !cls.Has(s[i + n])
  {
    if i < |s| && cls.Has(s[i]) then 1 + RunLength(s, i + 1, cls) else 0
  }

  /**
    A greedy quantifier of at least `lo` characters followed by `\b`: `k`
    characters are tried first, then one fewer, down to `lo`.
   */
  function BacktrackToBoundary(s: string, i: nat, k: nat, lo: nat): (r: Option<nat>)
    requires i + k <= |s|
    decreases k
    ensures r.Some? ==> i + lo <= r.value <= i + k && IsBoundary(s, r.value)
  {
    if k < lo then None
    else if IsBoundary(s, i + k) then Some(i + k)
    else if k == 0 then None
    else BacktrackToBoundary(s, i, k - 1, lo)
  }

  /**
    `\d{g1}[sep]?\d{g2}...\d{gn}\b` from index `j`; each optional separator is
    taken first and skipped only if the rest then fails.
   */
  function GroupsFrom(s: string, j: nat, groups: seq<nat>, sep: Separator): (r: Option<nat>)
    requires j <= |s|
    decreases |groups|, 1
    ensures r.Some? ==> j <= r.value <= |s|
    ensures r.Some? && |groups| > 0 && groups[0] >= 1 ==> j < r.value
  {
    if groups == [] then (if IsBoundary(s, j) then Some(j) else None)
    else if RunLength(s, j, Digit) < groups[0] then None
    else if |groups| == 1 then GroupsFrom(s, j + groups[0], [], sep)
    else GroupsAfter(s, j + groups[0], groups[1..], sep)
  }

  /** The groups after the first, which ended at `k`: `[sep]?` taken first, then skipped. */
  function GroupsAfter(s: string, k: nat, rest: seq<nat>, sep: Separator): (r: Option<nat>)
    requires k <= |s|
    decreases |rest| + 1, 0
    ensures r.Some? ==> k <= r.value <= |s|
  {
    var withSep := if k < |s| && sep.Has(s[k]) then GroupsFrom(s, k + 1, rest, sep) else None;
    if withSep.Some? then withSep else GroupsFrom(s, k, rest, sep)
  }

  /** `\.[tld]{2,}\b` after a domain of `d` characters starting at `a`, for `d` down to 1. */
  function EmailDomain(s: string, a: nat, d: nat, tld: CharClass): (r: Option<nat>)
    requires a + d <= |s|
    decreases d
    ensures r.Some? ==> a < r.value <= |s|
  {
    if d == 0 then None
    else
      var dot := a + d;
      var rest := if dot < |s| && s[dot] == '.' then BacktrackToBoundary(s, dot + 1, RunLength(s, dot + 1, tld), 2) else None;
      if rest.Some? then rest else EmailDomain(s, a, d - 1, tld)
  }

  /** `@[A-Za-z0-9.-]+...` after a local part of `k` characters starting at `i`, for `k` down to 1. */
  function EmailLocal(s: string, i: nat, k: nat, tld: CharClass): (r: Option<nat>)
    requires i + k <= |s|
    decreases k
    ensures r.Some? ==> i < r.value <= |s|
  {
    if k == 0 then None
    else
      var at := i + k;
      var rest := if at < |s| && s[at] == '@' then EmailDomain(s, at + 1, RunLength(s, at + 1, DomainChar), tld) else None;
      if rest.Some? then rest else EmailLocal(s, i, k - 1, tld)
  }

  /** The end of the match of `p` that starts at index `i`, if there is one. */
  function MatchAt(p: Pattern, s: string, i: nat): (r: Option<nat>)
    requires WellFormed(p) && i <= |s|
    ensures r.Some? ==> i < r.value <= |s|
  {
    if !IsBoundary(s, i) then None
    else
      match p
      case DigitRun(lo, hi) =>
        var n := RunLength(s, i, Digit);
        BacktrackToBoundary(s, i, if n < hi then n else hi, lo)
      case DigitGroups(groups, sep) => GroupsFrom(s, i, groups, sep)
      case Email(tld) => EmailLocal(s, i, RunLength(s, i, LocalPartChar), tld)
  }

  /** A match object: `match.start()` and `match.group()`. */
  datatype RegexMatch = RegexMatch(start: nat, value: string)

  /** The match is the non-empty text of `s` at its start index. */
  predicate Located(s: string, m: RegexMatch) {
    |m.value| > 0 && OccursAt(s, m.value, m.start)
  }

  function FindFrom(p: Pattern, s: string, i: nat): (r: seq<RegexMatch>)
    requires WellFormed(p) && i <= |s|
    decreases |s| - i
    ensures forall k | 0 <= k < |r| :: i <= r[k].start && Located(s, r[k])
    ensures forall a, b | 0 <= a < b < |r| :: r[a].start + |r[a].value| <= r[b].start
  {
    match MatchAt(p, s, i)
    case Some(e) =>
      var head := RegexMatch(i, s[i..e]);
      var rest := FindFrom(p, s, e);
      assert |head.value| == e - i;
      assert Located(s, head);
      var r := [head] + rest;
      assert r[0] == head;
      assert forall k | 1 <= k < |r| :: r[k] == rest[k - 1];
      r
    case None => if i == |s| then [] else FindFrom(p, s, i + 1)
  }

  /** Every match the scan reports is a match of the pattern at its start index. */
  lemma {:induction false} FindFromReportsHits(p: Pattern, s: string, i: nat)
    requires WellFormed(p) && i <= |s|
    decreases |s| - i
    ensures forall m | m in FindFrom(p, s, i) :: MatchAt(p, s, m.start) == Some(m.start + |m.value|)
  {
    match MatchAt(p, s, i)
    case Some(e) =>
      FindFromReportsHits(p, s, e);
      HitThenRest(p, s, i, e);
    case None =>
      if i < |s| {
        FindFromReportsHits(p, s, i + 1);
        MissThenRest(p, s, i);
      }
  }

  /** No match at `i`: the scan from `i` is the scan from `i + 1`. */
  lemma MissThenRest(p: Pattern, s: string, i: nat)
    requires WellFormed(p) && i < |s| && MatchAt(p, s, i) == None
    ensures FindFrom(p, s, i) == FindFrom(p, s, i + 1)
  {
  }

  /** A match at `i` heads the scan from `i`, so hits after it are hits from `i`. */
  lemma HitThenRest(p: Pattern, s: string, i: nat, e: nat)
    requires WellFormed(p) && i <= |s| && MatchAt(p, s, i) == Some(e)
    requires forall m | m in FindFrom(p, s, e) :: MatchAt(p, s, m.start) == Some(m.start + |m.value|)
    ensures forall m | m in FindFrom(p, s, i) :: MatchAt(p, s, m.start) == Some(m.start + |m.value|)
  {
    var head := RegexMatch(i, s[i..e]);
    assert FindFrom(p, s, i) == [head] + FindFrom(p, s, e);
    assert |head.value| == e - i;
  }

  /**
    `re.finditer(p, s)`: every match is located in `s`, and the matches are
    left to right and do not overlap.
   */
  function FindAll(p: Pattern, s: string): (r: seq<RegexMatch>)
    requires WellFormed(p)
    ensures forall k | 0 <= k < |r| :: Located(s, r[k])
    ensures forall a, b | 0 <= a < b < |r| :: r[a].start + |r[a].value| <= r[b].start
  {
    FindFrom(p, s, 0)
  }

  /** A digit total `\b\d{lo,hi}\b` accepts at `i`: a whole word of `lo` to `hi` digits. */
  predicate StandaloneDigits(s: string, i: nat, lo: nat, hi: nat)
    requires i <= |s|
  {
    && (i == 0 || !IsWordChar(s[i - 1]))
    && var n := RunLength(s, i, Word);
       lo <= n <= hi && AllDigits(s[i..i + n])
  }

  /** Backtracking inside a run of digits never finds a boundary. */
  lemma {:induction false} NoBoundaryInsideDigits(s: string, i: nat, k: nat, lo: nat)
    requires 1 <= lo && i + k < |s|
    requires forall q | i <= q <= i + k :: IsDigit(s[q])
    ensures BacktrackToBoundary(s, i, k, lo) == None
  {
    if k >= lo {
      assert !IsBoundary(s, i + k) by { assert IsWordChar(s[i + k - 1]) && IsWordChar(s[i + k]); }
      if k > 0 { NoBoundaryInsideDigits(s, i, k - 1, lo); }
    }
  }

  /**
    `\b\d{lo,hi}\b` matches at `i` exactly when a maximal run of word
    characters starts there, is all digits and has between `lo` and `hi`
    characters; the match is that whole run.
   */
  lemma DigitRunMatchIff(s: string, i: nat, lo: nat, hi: nat)
    requires 1 <= lo <= hi && i <= |s|
    ensures MatchAt(DigitRun(lo, hi), s, i).Some? <==> StandaloneDigits(s, i, lo, hi)
    ensures MatchAt(DigitRun(lo, hi), s, i).Some? ==> MatchAt(DigitRun(lo, hi), s, i).value == i + RunLength(s, i, Word)
  {
    var d := RunLength(s, i, Digit);
    var r := BacktrackToBoundary(s, i, if d < hi then d else hi, lo);
    assert MatchAt(DigitRun(lo, hi), s, i) == if IsBoundary(s, i) then r else None;
    DigitRunMatchSound(s, i, lo, hi);
    DigitRunMatchComplete(s, i, lo, hi);
  }

  lemma DigitRunMatchSound(s: string, i: nat, lo: nat, hi: nat)
    requires 1 <= lo <= hi && i <= |s|
    ensures var d := RunLength(s, i, Digit);
      var r := BacktrackToBoundary(s, i, if d < hi then d else hi, lo);
      IsBoundary(s, i) && r.Some? ==> StandaloneDigits(s, i, lo, hi) && r.value == i + RunLength(s, i, Word)
  {
    var d := RunLength(s, i, Digit);
    var w := RunLength(s, i, Word);
    var k := if d < hi then d else hi;
    DigitRunWithinWordRun(s, i);
    if IsBoundary(s, i) && k >= lo {
      if k < d {
        NoBoundaryInsideDigits(s, i, k, lo);
      } else if d < w {
        DigitRunInsideWord(s, i, lo, hi);
      } else {
        DigitRunIsWord(s, i, lo, hi);
      }
    }
  }

  /** A run of digits followed by more word characters backtracks to nothing. */
  lemma DigitRunInsideWord(s: string, i: nat, lo: nat, hi: nat)
    requires 1 <= lo <= hi && i <= |s|
    requires var d := RunLength(s, i, Digit); lo <= d <= hi && d < RunLength(s, i, Word)
    ensures BacktrackToBoundary(s, i, RunLength(s, i, Digit), lo) == None
  {
    var d := RunLength(s, i, Digit);
    DigitRunWithinWordRun(s, i);
    assert !IsBoundary(s, i + d) by { assert IsWordChar(s[i + d - 1]) && IsWordChar(s[i + d]); }
    assert BacktrackToBoundary(s, i, d, lo) == BacktrackToBoundary(s, i, d - 1, lo);
    NoBoundaryInsideDigits(s, i, d - 1, lo);
  }

  /** A run of digits that is the whole word after a boundary is a standalone match. */
  lemma DigitRunIsWord(s: string, i: nat, lo: nat, hi: nat)
    requires 1 <= lo <= hi && i <= |s| && IsBoundary(s, i)
    requires var d := RunLength(s, i, Digit); lo <= d <= hi && d >= RunLength(s, i, Word)
    ensures StandaloneDigits(s, i, lo, hi)
    ensures BacktrackToBoundary(s, i, RunLength(s, i, Digit), lo) == Some(i + RunLength(s, i, Word))
  {
    var d := RunLength(s, i, Digit);
    var w := RunLength(s, i, Word);
    DigitRunWithinWordRun(s, i);
    assert IsBoundary(s, i + d);
    assert BacktrackToBoundary(s, i, d, lo) == Some(i + d);
    assert s[i..i + w] == s[i..i + d];
    assert i == 0 || !IsWordChar(s[i - 1]) by { assert IsWordChar(s[i]); }
  }

  lemma DigitRunMatchComplete(s: string, i: nat, lo: nat, hi: nat)
    requires 1 <= lo <= hi && i <= |s|
    ensures var d := RunLength(s, i, Digit);
      var r := BacktrackToBoundary(s, i, if d < hi then d else hi, lo);
      StandaloneDigits(s, i, lo, hi) ==> IsBoundary(s, i) && r.Some?
  {
    var d := RunLength(s, i, Digit);
    var w := RunLength(s, i, Word);
    DigitRunWithinWordRun(s, i);
    if StandaloneDigits(s, i, lo, hi) {
      assert forall q | i <= q < i + w :: IsDigit(s[q]) by {
        forall q | i <= q < i + w ensures IsDigit(s[q]) { assert s[i..i + w][q - i] == s[q]; }
      }
      assert d == w;
      assert IsWordChar(s[i]);
      assert IsBoundary(s, i + d);
    }
  }

  /** The digit run from `i` is a prefix of the word run from `i`, and shorter only before a non-digit word character. */
  lemma {:induction false} DigitRunWithinWordRun(s: string, i: nat)
    requires i <= |s|
    decreases |s| - i
    ensures RunLength(s, i, Digit) <= RunLength(s, i, Word)
    ensures RunLength(s, i, Digit) < RunLength(s, i, Word) ==> !IsDigit(s[i + RunLength(s, i, Digit)])
  {
    if i < |s| && IsDigit(s[i]) { DigitRunWithinWordRun(s, i + 1); }
  }

  /** A character the email pattern can consume: local part, '@', domain, '.' or top-level domain. */
  predicate EmailChar(c: char, tld: CharClass) {
    LocalPartChar.Has(c) || c == '@' || tld.Has(c)
  }

  lemma {:induction false} EmailDomainChars(s: string, a: nat, d: nat, tld: CharClass)
    requires a + d <= |s|
    requires forall q | a <= q < a + d :: DomainChar.Has(s[q])
    decreases d
    ensures var r := EmailDomain(s, a, d, tld);
      r.Some? ==> forall q | a <= q < r.value :: EmailChar(s[q], tld)
  {
    if d > 0 {
      var dot := a + d;
      if dot < |s| && s[dot] == '.' {
        var n := RunLength(s, dot + 1, tld);
        var rest := BacktrackToBoundary(s, dot + 1, n, 2);
        if rest.Some? {
          assert forall q | a <= q < rest.value :: EmailChar(s[q], tld) by {
            forall q | a <= q < rest.value ensures EmailChar(s[q], tld) {
              if q < dot { assert DomainChar.Has(s[q]); }
              else if q > dot { assert tld.Has(s[q]); }
            }
          }
          return;
        }
      }
      EmailDomainChars(s, a, d - 1, tld);
    }
  }

  lemma {:induction false} EmailLocalChars(s: string, i: nat, k: nat, tld: CharClass)
    requires i + k <= |s|
    requires forall q | i <= q < i + k :: LocalPartChar.Has(s[q])
    decreases k
    ensures var r := EmailLocal(s, i, k, tld);
      r.Some? ==> forall q | i <= q < r.value :: EmailChar(s[q], tld)
  {
    if k > 0 {
      var at := i + k;
      if at < |s| && s[at] == '@' {
        var d := RunLength(s, at + 1, DomainChar);
        EmailDomainChars(s, at + 1, d, tld);
        var rest := EmailDomain(s, at + 1, d, tld);
        if rest.Some? { return; }
      }
      EmailLocalChars(s, i, k - 1, tld);
    }
  }

  /** Every character of an email hit is one the pattern's classes admit. */
  lemma EmailHitChars(s: string, tld: CharClass, m: RegexMatch)
    requires Located(s, m) && MatchAt(Email(tld), s, m.start) == Some(m.start + |m.value|)
    ensures forall q | 0 <= q < |m.value| :: EmailChar(m.value[q], tld)
  {
    var i := m.start;
    EmailLocalChars(s, i, RunLength(s, i, LocalPartChar), tld);
    forall q | 0 <= q < |m.value| ensures EmailChar(m.value[q], tld) {
      assert m.value[q] == s[i + q];
    }
  }

  /** Every character of an email match is one the pattern's classes admit. */
  lemma EmailMatchChars(s: string, tld: CharClass)
    ensures forall m | m in FindAll(Email(tld), s) :: forall q | 0 <= q < |m.value| :: EmailChar(m.value[q], tld)
  {
    var found := FindAll(Email(tld), s);
    FindFromReportsHits(Email(tld), s, 0);
    forall m | m in found ensures forall q | 0 <= q < |m.value| :: EmailChar(m.value[q], tld) {
      var k :| 0 <= k < |found| && found[k] == m;
      EmailHitChars(s, tld, m);
    }
  }

  /** With the letters-only top-level-domain class, no reported email contains '|'. */
  lemma CorrectedEmailHasNoBar(s: string)
    ensures forall m | m in FindAll(Email(TldLetter), s) :: forall q | 0 <= q < |m.value| :: m.value[q] != '|'
  {
    EmailMatchChars(s, TldLetter);
  }

  /** The class `[A-Z|a-z]` as written: "x@y.|z" is reported as an email, '|' and all. */
  lemma AsWrittenEmailAcceptsBar()
    ensures FindAll(Email(TldAsWritten), "x@y.|z") == [RegexMatch(0, "x@y.|z")]
  {
    var s := "x@y.|z";
    var p := Email(TldAsWritten);
    assert RunLength(s, 0, LocalPartChar) == 1 by { assert !LocalPartChar.Has(s[1]); }
    assert RunLength(s, 2, DomainChar) == 2 by { assert !DomainChar.Has(s[4]); }
    assert RunLength(s, 4, TldAsWritten) == 2;
    assert BacktrackToBoundary(s, 4, 2, 2) == Some(6);
    assert EmailDomain(s, 2, 2, TldAsWritten) == Some(6) by {
      assert s[4] != '.' && s[3] == '.';
      assert EmailDomain(s, 2, 1, TldAsWritten) == Some(6);
    }
    assert EmailLocal(s, 0, 1, TldAsWritten) == Some(6);
    assert MatchAt(p, s, 0) == Some(6);
    assert MatchAt(p, s, 6) == None by { assert RunLength(s, 6, LocalPartChar) == 0; }
    assert FindFrom(p, s, 6) == [];
    assert s[0..6] == s;
  }

  /** With the corrected class, no email starts in "x@y.|z" before its '|'. */
  lemma CorrectedEmailNoStartBeforeBar(i: nat)
    requires i < 4
    ensures MatchAt(Email(TldLetter), "x@y.|z", i) == None
  {
    var s := "x@y.|z";
    var p := Email(TldLetter);
    if i == 0 {
      assert RunLength(s, 0, LocalPartChar) == 1 by { assert !LocalPartChar.Has(s[1]); }
      assert RunLength(s, 2, DomainChar) == 2 by { assert !DomainChar.Has(s[4]); }
      assert RunLength(s, 4, TldLetter) == 0;
      assert EmailDomain(s, 2, 1, TldLetter) == None by { assert EmailDomain(s, 2, 0, TldLetter) == None; }
      assert EmailDomain(s, 2, 2, TldLetter) == None by { assert s[4] != '.'; }
      assert EmailLocal(s, 0, 1, TldLetter) == None by { assert EmailLocal(s, 0, 0, TldLetter) == None; }
    } else if i == 1 {
      assert RunLength(s, 1, LocalPartChar) == 0;
    } else if i == 2 {
      assert RunLength(s, 2, LocalPartChar) == 2 by { assert !LocalPartChar.Has(s[4]); }
      assert EmailLocal(s, 2, 1, TldLetter) == None by { assert s[3] != '@'; assert EmailLocal(s, 2, 0, TldLetter) == None; }
      assert EmailLocal(s, 2, 2, TldLetter) == None by { assert s[4] != '@'; }
    } else {
      assert RunLength(s, 3, LocalPartChar) == 1 by { assert !LocalPartChar.Has(s[4]); }
      assert EmailLocal(s, 3, 1, TldLetter) == None by { assert s[4] != '@'; assert EmailLocal(s, 3, 0, TldLetter) == None; }
    }
  }

  /** Nor from the '|' on. */
  lemma CorrectedEmailNoStartFromBar(i: nat)
    requires 4 <= i <= 6
    ensures MatchAt(Email(TldLetter), "x@y.|z", i) == None
  {
    var s := "x@y.|z";
    if i == 4 {
      assert !IsBoundary(s, 4);
    } else if i == 5 {
      assert RunLength(s, 5, LocalPartChar) == 1;
      assert EmailLocal(s, 5, 1, TldLetter) == None by { assert EmailLocal(s, 5, 0, TldLetter) == None; }
    } else {
      assert RunLength(s, 6, LocalPartChar) == 0;
    }
  }

  /** The corrected class reports nothing in the same text. */
  lemma CorrectedEmailRejectsBar()
    ensures FindAll(Email(TldLetter), "x@y.|z") == []
  {
    var s := "x@y.|z";
    forall q | 0 <= q <= |s| ensures MatchAt(Email(TldLetter), s, q) == None {
      if q < 4 { CorrectedEmailNoStartBeforeBar(q); } else { CorrectedEmailNoStartFromBar(q); }
    }
    FindFromNothing(Email(TldLetter), s, 0);
  }

  /** Inside a run, the run from a later index is the rest of it. */
  lemma {:induction false} RunLengthSuffix(s: string, i: nat, j: nat, cls: CharClass)
    requires i <= |s| && j <= RunLength(s, i, cls)
    decreases j
    ensures RunLength(s, i + j, cls) == RunLength(s, i, cls) - j
  {
    if j > 0 { RunLengthSuffix(s, i + 1, j - 1, cls); }
  }

  /** A standalone word of nine digits is a run of nine digits between two boundaries. */
  lemma NineDigitRun(s: string, i: nat)
    requires i <= |s| && StandaloneDigits(s, i, 9, 9)
    ensures RunLength(s, i, Digit) == 9 && i + 9 <= |s|
    ensures IsBoundary(s, i) && IsBoundary(s, i + 9)
  {
    DigitRunMatchComplete(s, i, 9, 9);
    DigitRunWithinWordRun(s, i);
    assert forall q | i <= q < i + 9 :: IsDigit(s[q]) by {
      forall q | i <= q < i + 9 ensures IsDigit(s[q]) { assert s[i..i + 9][q - i] == s[q]; }
    }
  }

  /** `\d{3}[-\s]?\d{2}[-\s]?\d{4}\b` over nine digits ending at a boundary takes all nine, no separator. */
  lemma NineDigitGroups(s: string, i: nat)
    requires i + 9 <= |s| && RunLength(s, i, Digit) == 9 && IsBoundary(s, i + 9)
    ensures GroupsFrom(s, i, [3, 2, 4], DashOrSpace) == Some(i + 9)
  {
    RunLengthSuffix(s, i, 3, Digit);
    RunLengthSuffix(s, i, 5, Digit);
    RunLengthSuffix(s, i, 9, Digit);
    var sep := DashOrSpace;
    assert GroupsFrom(s, i + 9, [], sep) == Some(i + 9);
    assert GroupsFrom(s, i + 5, [4], sep) == Some(i + 9);
    assert GroupsFrom(s, i + 3, [2, 4], sep) == Some(i + 9) by {
      assert [2, 4][1..] == [4];
      assert !sep.Has(s[i + 5]) by { assert IsDigit(s[i + 5]); }
    }
    assert [3, 2, 4][1..] == [2, 4];
    assert !sep.Has(s[i + 3]) by { assert IsDigit(s[i + 3]); }
  }

  /**
    A standalone word of nine digits starts a match of the account-number,
    ssn and routing-number patterns, each ending after the ninth digit, and
    of the otp pattern not at all.
   */
  lemma NineDigitHits(s: string, i: nat)
    requires i <= |s| && StandaloneDigits(s, i, 9, 9)
    ensures MatchAt(DigitRun(8, 16), s, i) == Some(i + 9)
    ensures MatchAt(DigitGroups([3, 2, 4], DashOrSpace), s, i) == Some(i + 9)
    ensures MatchAt(DigitRun(9, 9), s, i) == Some(i + 9)
    ensures MatchAt(DigitRun(4, 8), s, i) == None
  {
    DigitRunMatchIff(s, i, 8, 16);
    DigitRunMatchIff(s, i, 9, 9);
    DigitRunMatchIff(s, i, 4, 8);
    NineDigitRun(s, i);
    NineDigitGroups(s, i);
  }

  /** A run stops before the first non-member. */
  lemma {:induction false} RunStopsAt(s: string, i: nat, cls: CharClass, p: nat)
    requires i <= p < |s| && !cls.Has(s[p])
    decreases p - i
    ensures i + RunLength(s, i, cls) <= p
  {
    if i < p && cls.Has(s[i]) { RunStopsAt(s, i + 1, cls, p); }
  }

  /**
    A match at `i` is reported by the scan from `j` when every match starting
    between `j` and `i` ends by `i`, since the scan then never steps over `i`.
   */
  lemma {:induction false} FindFromReaches(p: Pattern, s: string, j: nat, i: nat)
    requires WellFormed(p) && j <= i <= |s| && MatchAt(p, s, i).Some?
    requires forall q | j <= q < i :: MatchAt(p, s, q).None? || MatchAt(p, s, q).value <= i
    decreases i - j
    ensures RegexMatch(i, s[i..MatchAt(p, s, i).value]) in FindFrom(p, s, j)
  {
    if j == i {
      assert FindFrom(p, s, i)[0] == RegexMatch(i, s[i..MatchAt(p, s, i).value]);
    } else {
      match MatchAt(p, s, j)
      case Some(e) =>
        FindFromReaches(p, s, e, i);
        assert FindFrom(p, s, j) == [RegexMatch(j, s[j..e])] + FindFrom(p, s, e);
      case None =>
        FindFromReaches(p, s, j + 1, i);
        assert FindFrom(p, s, j) == FindFrom(p, s, j + 1);
    }
  }

  /** The total number of digits a run of groups takes. */
  function GroupTotal(groups: seq<nat>): nat {
    if groups == [] then 0 else groups[0] + GroupTotal(groups[1..])
  }

  /** Groups that end strictly inside a run of digits find no boundary there. */
  lemma {:induction false} GroupsInsideDigits(s: string, j: nat, groups: seq<nat>, sep: Separator)
    requires |groups| > 0 && forall k | 0 <= k < |groups| :: groups[k] >= 1
    requires j + GroupTotal(groups) < |s|
    requires forall q | j <= q <= j + GroupTotal(groups) :: IsDigit(s[q])
    decreases |groups|
    ensures GroupsFrom(s, j, groups, sep) == None
  {
    if RunLength(s, j, Digit) >= groups[0] {
      var k := j + groups[0];
      if |groups| == 1 {
        assert GroupTotal(groups[1..]) == 0;
        assert !IsBoundary(s, k) by { assert IsWordChar(s[k - 1]) && IsWordChar(s[k]); }
      } else {
        assert !sep.Has(s[k]) by { assert IsDigit(s[k]); }
        GroupsInsideDigits(s, k, groups[1..], sep);
      }
    }
  }

  /** One step of a run of several groups: the first group, then the rest with the separator taken if that succeeds. */
  lemma GroupsFromStep(s: string, j: nat, groups: seq<nat>, sep: Separator)
    requires j <= |s| && |groups| > 1 && RunLength(s, j, Digit) >= groups[0]
    ensures var k := j + groups[0];
      var withSep := if k < |s| && sep.Has(s[k]) then GroupsFrom(s, k + 1, groups[1..], sep) else None;
      GroupsFrom(s, j, groups, sep) == if withSep.Some? then withSep else GroupsFrom(s, k, groups[1..], sep)
  {
  }

  /** A single group `\d{n}\b` starting at or before a non-digit at `p` ends by `p`. */
  lemma OneGroupBeforeGap(s: string, x: nat, sep: Separator, p: nat, g: seq<nat>)
    requires x <= p < |s| && !IsDigit(s[p])
    requires |g| == 1 && g[0] >= 1
    ensures GroupsFrom(s, x, g, sep).Some? ==> GroupsFrom(s, x, g, sep).value <= p
  {
    RunStopsAt(s, x, Digit, p);
  }

  /**
    One step of a run of groups starting before a non-digit at `p`: if the
    rest of the groups, tried after the first with or without the separator,
    ends by `p`, so does the whole run.
   */
  lemma StepBeforeGap(s: string, x: nat, sep: Separator, p: nat, g: seq<nat>)
    requires x <= p < |s| && |g| > 1 && RunLength(s, x, Digit) >= g[0]
    requires var n := GroupsFrom(s, x + g[0], g[1..], sep); n.Some? ==> n.value <= p
    requires x + g[0] < |s| && sep.Has(s[x + g[0]]) ==>
      var w := GroupsFrom(s, x + g[0] + 1, g[1..], sep); w.Some? ==> w.value <= p
    ensures GroupsFrom(s, x, g, sep).Some? ==> GroupsFrom(s, x, g, sep).value <= p
  {
    GroupsFromStep(s, x, g, sep);
  }

  /**
    Two groups `\d{m}[sep]?\d{n}\b` starting at or before a non-digit at `p`
    end by `p` when the last group fails right after `p`.
   */
  lemma TwoGroupsBeforeGap(s: string, x: nat, sep: Separator, p: nat, g: seq<nat>, last: seq<nat>)
    requires x <= p < |s| && !IsDigit(s[p])
    requires |g| == 2 && g[0] >= 1 && g[1] >= 1 && last == g[1..]
    requires GroupsFrom(s, p + 1, last, sep) == None
    ensures GroupsFrom(s, x, g, sep).Some? ==> GroupsFrom(s, x, g, sep).value <= p
  {
    RunStopsAt(s, x, Digit, p);
    if RunLength(s, x, Digit) >= g[0] {
      var k := x + g[0];
      OneGroupBeforeGap(s, k, sep, p, g[1..]);
      if k < p {
        OneGroupBeforeGap(s, k + 1, sep, p, g[1..]);
      }
      StepBeforeGap(s, x, sep, p, g);
    }
  }

  /**
    Three groups starting at or before a non-digit at `p` end by `p` when
    neither tail of them matches right after `p`.
   */
  lemma ThreeGroupsBeforeGap(s: string, x: nat, sep: Separator, p: nat, g: seq<nat>)
    requires x <= p < |s| && !IsDigit(s[p])
    requires |g| == 3 && g[0] >= 1 && g[1] >= 1 && g[2] >= 1
    requires GroupsFrom(s, p + 1, g[1..], sep) == None && GroupsFrom(s, p + 1, g[2..], sep) == None
    ensures GroupsFrom(s, x, g, sep).Some? ==> GroupsFrom(s, x, g, sep).value <= p
  {
    RunStopsAt(s, x, Digit, p);
    if RunLength(s, x, Digit) >= g[0] {
      var k := x + g[0];
      assert g[1..][1..] == g[2..];
      TwoGroupsBeforeGap(s, k, sep, p, g[1..], g[2..]);
      if k < p {
        TwoGroupsBeforeGap(s, k + 1, sep, p, g[1..], g[2..]);
      }
      StepBeforeGap(s, x, sep, p, g);
    }
  }

  /** The ssn groups starting before a standalone nine-digit word end by its start. */
  lemma SsnBeforeNineDigits(s: string, i: nat, q: nat, g: seq<nat>)
    requires i <= |s| && StandaloneDigits(s, i, 9, 9) && q < i
    requires |g| == 3 && g[0] == 3 && g[1] == 2 && g[2] == 4
    ensures GroupsFrom(s, q, g, DashOrSpace).None? || GroupsFrom(s, q, g, DashOrSpace).value <= i
  {
    NineDigitRun(s, i);
    assert forall k | i <= k < i + 9 :: IsDigit(s[k]);
    assert GroupTotal(g[2..]) == 4 by { assert g[2..][1..] == []; }
    assert GroupTotal(g[1..]) == 6 by { assert g[1..][1..] == g[2..]; }
    GroupsInsideDigits(s, i, g[1..], DashOrSpace);
    GroupsInsideDigits(s, i, g[2..], DashOrSpace);
    ThreeGroupsBeforeGap(s, q, DashOrSpace, i - 1, g);
  }

  /** A digit-run match starting at or before a non-digit at `p` ends by `p`. */
  lemma DigitRunBeforeGap(s: string, lo: nat, hi: nat, q: nat, p: nat)
    requires 1 <= lo <= hi && q <= p < |s| && !IsDigit(s[p])
    ensures MatchAt(DigitRun(lo, hi), s, q).Some? ==> MatchAt(DigitRun(lo, hi), s, q).value <= p
  {
    RunStopsAt(s, q, Digit, p);
  }

  /** Before a standalone nine-digit word, every match of the three patterns that report it ends by its start. */
  lemma NineDigitNothingBefore(s: string, i: nat, q: nat)
    requires i <= |s| && StandaloneDigits(s, i, 9, 9) && q < i
    ensures MatchAt(DigitRun(8, 16), s, q).None? || MatchAt(DigitRun(8, 16), s, q).value <= i
    ensures MatchAt(DigitRun(9, 9), s, q).None? || MatchAt(DigitRun(9, 9), s, q).value <= i
    ensures var ssn := DigitGroups([3, 2, 4], DashOrSpace);
      MatchAt(ssn, s, q).None? || MatchAt(ssn, s, q).value <= i
  {
    NineDigitRun(s, i);
    var p := i - 1;
    assert !IsDigit(s[p]);
    DigitRunBeforeGap(s, 8, 16, q, p);
    DigitRunBeforeGap(s, 9, 9, q, p);
    SsnBeforeNineDigits(s, i, q, [3, 2, 4]);
  }

  /** No otp match starts inside a standalone nine-digit word. */
  lemma NineDigitNoOtpHit(s: string, i: nat, q: nat)
    requires i <= |s| && StandaloneDigits(s, i, 9, 9) && i <= q < i + 9
    ensures MatchAt(DigitRun(4, 8), s, q) == None
  {
    NineDigitHits(s, i);
    NineDigitRun(s, i);
    if q > i {
      assert !IsBoundary(s, q) by { assert IsWordChar(s[q - 1]) && IsWordChar(s[q]); }
    }
  }

  /**
    A standalone word of nine digits is reported, whole, by the scans of the
    account-number, ssn and routing-number patterns, and no otp match starts
    inside it.
   */
  lemma NineDigitWord(s: string, i: nat)
    requires i <= |s| && StandaloneDigits(s, i, 9, 9)
    ensures i + 9 <= |s|
    ensures RegexMatch(i, s[i..i + 9]) in FindAll(DigitRun(8, 16), s)
    ensures RegexMatch(i, s[i..i + 9]) in FindAll(DigitGroups([3, 2, 4], DashOrSpace), s)
    ensures RegexMatch(i, s[i..i + 9]) in FindAll(DigitRun(9, 9), s)
    ensures forall m | m in FindAll(DigitRun(4, 8), s) :: !(i <= m.start < i + 9)
  {
    NineDigitHits(s, i);
    NineDigitRun(s, i);
    forall q | 0 <= q < i
      ensures MatchAt(DigitRun(8, 16), s, q).None? || MatchAt(DigitRun(8, 16), s, q).value <= i
      ensures MatchAt(DigitRun(9, 9), s, q).None? || MatchAt(DigitRun(9, 9), s, q).value <= i
      ensures MatchAt(DigitGroups([3, 2, 4], DashOrSpace), s, q).None? || MatchAt(DigitGroups([3, 2, 4], DashOrSpace), s, q).value <= i
    {
      NineDigitNothingBefore(s, i, q);
    }
    FindFromReaches(DigitRun(8, 16), s, 0, i);
    FindFromReaches(DigitGroups([3, 2, 4], DashOrSpace), s, 0, i);
    FindFromReaches(DigitRun(9, 9), s, 0, i);
    FindFromReportsHits(DigitRun(4, 8), s, 0);
    forall m | m in FindAll(DigitRun(4, 8), s) ensures !(i <= m.start < i + 9) {
      if i <= m.start < i + 9 { NineDigitNoOtpHit(s, i, m.start); }
    }
  }

  /** The scan passes over start indices where the pattern does not match. */
  lemma {:induction false} FindFromSkip(p: Pattern, s: string, i: nat, j: nat)
    requires WellFormed(p) && i <= j <= |s|
    requires forall q | i <= q < j :: MatchAt(p, s, q) == None
    decreases j - i
    ensures FindFrom(p, s, i) == FindFrom(p, s, j)
  {
    if i < j { FindFromSkip(p, s, i + 1, j); }
  }

  /** A scan from a point after which the pattern never matches reports nothing. */
  lemma FindFromNothing(p: Pattern, s: string, i: nat)
    requires WellFormed(p) && i <= |s|
    requires forall q | i <= q <= |s| :: MatchAt(p, s, q) == None
    ensures FindFrom(p, s, i) == []
  {
    FindFromSkip(p, s, i, |s|);
    assert MatchAt(p, s, |s|) == None;
  }

  /** The digit patterns cannot start at a non-digit. */
  lemma DigitPatternNeedsDigit(p: Pattern, s: string, i: nat)
    requires WellFormed(p) && !p.Email? && i <= |s|
    requires i == |s| || !IsDigit(s[i])
    ensures MatchAt(p, s, i) == None
  {
    assert RunLength(s, i, Digit) == 0;
  }

  lemma {:induction false} EmailLocalNeedsAt(s: string, i: nat, k: nat, tld: CharClass)
    requires i + k <= |s|
    requires forall q | i < q <= i + k && q < |s| :: s[q] != '@'
    decreases k
    ensures EmailLocal(s, i, k, tld) == None
  {
    if k > 0 { EmailLocalNeedsAt(s, i, k - 1, tld); }
  }

  /** The email pattern cannot match a text with no '@' in it. */
  lemma EmailNeedsAt(s: string, tld: CharClass, i: nat)
    requires i <= |s|
    requires forall q | 0 <= q < |s| :: s[q] != '@'
    ensures MatchAt(Email(tld), s, i) == None
  {
    EmailLocalNeedsAt(s, i, RunLength(s, i, LocalPartChar), tld);
  }

  /** The fewest digits a digit pattern needs at its start. */
  function MinDigits(p: Pattern): nat
    requires WellFormed(p) && !p.Email?
  {
    match p
    case DigitRun(lo, _) => lo
    case DigitGroups(groups, _) => groups[0]
  }

  /** A digit pattern cannot start where fewer digits than it needs follow. */
  lemma ShortDigitRun(p: Pattern, s: string, i: nat)
    requires WellFormed(p) && !p.Email? && i <= |s|
    requires RunLength(s, i, Digit) < MinDigits(p)
    ensures MatchAt(p, s, i) == None
  {
  }

  /** No pattern matches a text without digits and without '@'. */
  lemma NoMatchInPlainText(p: Pattern, s: string)
    requires WellFormed(p)
    requires forall q | 0 <= q < |s| :: !IsDigit(s[q]) && s[q] != '@'
    ensures FindAll(p, s) == []
  {
    forall q | 0 <= q <= |s| ensures MatchAt(p, s, q) == None {
      if p.Email? { EmailNeedsAt(s, p.tld, q); } else { DigitPatternNeedsDigit(p, s, q); }
    }
    FindFromNothing(p, s, 0);
  }
}
