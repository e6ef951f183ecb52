/**
  The detector on a concrete utterance: "here's my password" is reported
  as one password keyword match at index 10 and nothing else, "my ssn is
  123-45-6789" holds an ssn match at index 10 scored 0.85, and any text
  without digits and without '@' is reported by the keyword pass alone.
 */
module DetectionExamples {
  import opened Wrappers
  import opened Text
  import opened Models
  import opened Patterns
  import opened Detection

  /** In a text without digits and without '@' only keywords are reported. */
  lemma PlainTextDetect(s: string)
    requires forall q | 0 <= q < |s| :: !IsDigit(s[q]) && s[q] != '@'
    ensures Detect(s) == KeywordPass(Lower(s), KeywordTable)
  {
    DetectBlocks(s);
    NoMatchInPlainText(DigitRun(8, 16), s);
    NoMatchInPlainText(DigitGroups([3, 2, 4], DashOrSpace), s);
    NoMatchInPlainText(DigitRun(4, 8), s);
    NoMatchInPlainText(DigitGroups([4, 4, 4, 4], DashOrSpace), s);
    NoMatchInPlainText(DigitGroups([3, 3, 4], DashOrDot), s);
    NoMatchInPlainText(Email(TldAsWritten), s);
    NoMatchInPlainText(DigitRun(9, 9), s);
  }

  /** A category of four keywords reports the hits of each, in list order. */
  lemma CategoryOfFour(t: string, c: string, k0: string, k1: string, k2: string, k3: string)
    ensures CategoryMatches(t, c, [k0, k1, k2, k3]) ==
      KeywordHit(t, c, k0) + KeywordHit(t, c, k1) + KeywordHit(t, c, k2) + KeywordHit(t, c, k3)
  {
    var kws := [k0, k1, k2, k3];
    assert kws[..3] == [k0, k1, k2];
    CategoryOfThree(t, c, k0, k1, k2);
  }

  /** A category of three keywords reports the hits of each, in list order. */
  lemma CategoryOfThree(t: string, c: string, k0: string, k1: string, k2: string)
    ensures CategoryMatches(t, c, [k0, k1, k2]) ==
      KeywordHit(t, c, k0) + KeywordHit(t, c, k1) + KeywordHit(t, c, k2)
  {
    var kws := [k0, k1, k2];
    assert kws[..2] == [k0, k1];
    assert [k0, k1][..1] == [k0];
    assert [k0][..0] == [];
    assert CategoryMatches(t, c, [k0]) == KeywordHit(t, c, k0);
    assert CategoryMatches(t, c, [k0, k1]) == KeywordHit(t, c, k0) + KeywordHit(t, c, k1);
  }

  /** The keyword pass is the three blocks of the table, written out. */
  lemma KeywordPassWritten(t: string)
    ensures KeywordPass(t, KeywordTable) ==
      CategoryMatches(t, "password", ["password", "passcode", "pin", "secret"]) +
      CategoryMatches(t, "personal_info", ["social security", "date of birth", "birthday", "mother's maiden"]) +
      CategoryMatches(t, "verification", ["verification code", "confirm", "authenticate"])
  {
    KeywordPassBlocks(t);
  }

  const HeresMyPasswordText := "here's my password"

  lemma HeresMyPasswordDetect()
    ensures Detect(HeresMyPasswordText) == KeywordPass(HeresMyPasswordText, KeywordTable)
  {
    LowerNoCapitals(HeresMyPasswordText);
    PlainTextDetect(HeresMyPasswordText);
  }

  lemma HeresMyPasswordHit()
    ensures KeywordHit(HeresMyPasswordText, "password", "password") == [SensitiveDataMatch("password", "password", 90, 10)]
  {
    FirstIndexAt(HeresMyPasswordText, "password", 10);
  }

  lemma HeresMyPasswordLacks0()
    ensures !Contains(HeresMyPasswordText, "passcode")
  {
    AbsentCharNotContained(HeresMyPasswordText, "passcode", 4);
  }

  lemma HeresMyPasswordLacks1()
    ensures !Contains(HeresMyPasswordText, "pin")
  {
    AbsentCharNotContained(HeresMyPasswordText, "pin", 1);
  }

  lemma HeresMyPasswordLacks2()
    ensures !Contains(HeresMyPasswordText, "secret")
  {
    AbsentCharNotContained(HeresMyPasswordText, "secret", 2);
  }

  lemma HeresMyPasswordAbsent0()
    ensures !Contains(HeresMyPasswordText, "passcode")
    ensures !Contains(HeresMyPasswordText, "pin")
    ensures !Contains(HeresMyPasswordText, "secret")
  {
    HeresMyPasswordLacks0();
    HeresMyPasswordLacks1();
    HeresMyPasswordLacks2();
  }

  lemma HeresMyPasswordLacks3()
    ensures !Contains(HeresMyPasswordText, "social security")
  {
    AbsentCharNotContained(HeresMyPasswordText, "social security", 2);
  }

  lemma HeresMyPasswordLacks4()
    ensures !Contains(HeresMyPasswordText, "date of birth")
  {
    AbsentCharNotContained(HeresMyPasswordText, "date of birth", 2);
  }

  lemma HeresMyPasswordLacks5()
    ensures !Contains(HeresMyPasswordText, "birthday")
  {
    AbsentCharNotContained(HeresMyPasswordText, "birthday", 0);
  }

  lemma HeresMyPasswordLacks6()
    ensures !Contains(HeresMyPasswordText, "mother's maiden")
  {
    AbsentCharNotContained(HeresMyPasswordText, "mother's maiden", 2);
  }

  lemma HeresMyPasswordAbsent1()
    ensures !Contains(HeresMyPasswordText, "social security")
    ensures !Contains(HeresMyPasswordText, "date of birth")
    ensures !Contains(HeresMyPasswordText, "birthday")
    ensures !Contains(HeresMyPasswordText, "mother's maiden")
  {
    HeresMyPasswordLacks3();
    HeresMyPasswordLacks4();
    HeresMyPasswordLacks5();
    HeresMyPasswordLacks6();
  }

  lemma HeresMyPasswordLacks7()
    ensures !Contains(HeresMyPasswordText, "verification code")
  {
    AbsentCharNotContained(HeresMyPasswordText, "verification code", 0);
  }

  lemma HeresMyPasswordLacks8()
    ensures !Contains(HeresMyPasswordText, "confirm")
  {
    AbsentCharNotContained(HeresMyPasswordText, "confirm", 0);
  }

  lemma HeresMyPasswordLacks9()
    ensures !Contains(HeresMyPasswordText, "authenticate")
  {
    AbsentCharNotContained(HeresMyPasswordText, "authenticate", 2);
  }

  lemma HeresMyPasswordAbsent2()
    ensures !Contains(HeresMyPasswordText, "verification code")
    ensures !Contains(HeresMyPasswordText, "confirm")
    ensures !Contains(HeresMyPasswordText, "authenticate")
  {
    HeresMyPasswordLacks7();
    HeresMyPasswordLacks8();
    HeresMyPasswordLacks9();
  }

  lemma HeresMyPasswordBlock0()
    ensures CategoryMatches(HeresMyPasswordText, "password", ["password", "passcode", "pin", "secret"]) ==
      [SensitiveDataMatch("password", "password", 90, 10)]
  {
    HeresMyPasswordHit();
    HeresMyPasswordAbsent0();
    CategoryOfFour(HeresMyPasswordText, "password", "password", "passcode", "pin", "secret");
  }

  lemma HeresMyPasswordBlock1()
    ensures CategoryMatches(HeresMyPasswordText, "personal_info", ["social security", "date of birth", "birthday", "mother's maiden"]) == []
  {
    HeresMyPasswordAbsent1();
    CategoryOfFour(HeresMyPasswordText, "personal_info", "social security", "date of birth", "birthday", "mother's maiden");
  }

  lemma HeresMyPasswordBlock2()
    ensures CategoryMatches(HeresMyPasswordText, "verification", ["verification code", "confirm", "authenticate"]) == []
  {
    HeresMyPasswordAbsent2();
    CategoryOfThree(HeresMyPasswordText, "verification", "verification code", "confirm", "authenticate");
  }

  /** "here's my password": one keyword match, at index 10, and nothing else. */
  lemma HeresMyPassword()
    ensures Detect(HeresMyPasswordText) == [SensitiveDataMatch("password", "password", 90, 10)]
  {
    HeresMyPasswordDetect();
    KeywordPassWritten(HeresMyPasswordText);
    HeresMyPasswordBlock0();
    HeresMyPasswordBlock1();
    HeresMyPasswordBlock2();
  }

  const SsnText := "my ssn is 123-45-6789"

  const SsnPattern := DigitGroups([3, 2, 4], DashOrSpace)

  /** A run of exactly `n` digits from `i`. */
  predicate DigitsThen(s: string, i: nat, n: nat) {
    i + n <= |s| && (forall q | i <= q < i + n :: IsDigit(s[q])) && (i + n == |s| || !IsDigit(s[i + n]))
  }

  /**
    `\d{3}[-\s]?\d{2}[-\s]?\d{4}\b` matches a standalone "ddd-dd-dddd" at
    its first digit, taking both dashes.
   */
  lemma DashedSsnMatch(s: string, i: nat)
    requires i + 11 <= |s| && (i == 0 || !IsWordChar(s[i - 1]))
    requires DigitsThen(s, i, 3) && s[i + 3] == '-' && DigitsThen(s, i + 4, 2) && s[i + 6] == '-' && DigitsThen(s, i + 7, 4)
    requires i + 11 == |s| || !IsWordChar(s[i + 11])
    ensures MatchAt(SsnPattern, s, i) == Some(i + 11)
  {
    var sep := DashOrSpace;
    RunLengthOf(s, i + 7, 4);
    RunLengthOf(s, i + 4, 2);
    RunLengthOf(s, i, 3);
    assert GroupsFrom(s, i + 11, [], sep) == Some(i + 11);
    assert GroupsFrom(s, i + 7, [4], sep) == Some(i + 11);
    assert [2, 4][1..] == [4];
    assert GroupsFrom(s, i + 4, [2, 4], sep) == Some(i + 11);
    assert [3, 2, 4][1..] == [2, 4];
  }

  lemma {:induction false} RunLengthOf(s: string, i: nat, n: nat)
    requires DigitsThen(s, i, n)
    decreases n
    ensures RunLength(s, i, Digit) == n
  {
    if n > 0 { RunLengthOf(s, i + 1, n - 1); }
  }

  /** A scan of a digit pattern over a text whose digits start at `i` skips to `i`. */
  lemma SkipToDigits(p: Pattern, s: string, i: nat)
    requires WellFormed(p) && !p.Email? && i <= |s|
    requires forall q | 0 <= q < i :: !IsDigit(s[q])
    ensures FindFrom(p, s, 0) == FindFrom(p, s, i)
  {
    forall q | 0 <= q < i ensures MatchAt(p, s, q) == None {
      DigitPatternNeedsDigit(p, s, q);
    }
    FindFromSkip(p, s, 0, i);
  }

  /** A digit pattern whose only match starts at the first digit `i` and runs to the end is reported once. */
  lemma OnlyMatch(p: Pattern, s: string, i: nat)
    requires WellFormed(p) && !p.Email? && i < |s|
    requires forall q | 0 <= q < i :: !IsDigit(s[q])
    requires MatchAt(p, s, i) == Some(|s|)
    ensures FindAll(p, s) == [RegexMatch(i, s[i..])]
  {
    SkipToDigits(p, s, i);
    DigitPatternNeedsDigit(p, s, |s|);
    assert FindFrom(p, s, |s|) == [];
    assert s[i..|s|] == s[i..];
    assert FindFrom(p, s, i) == [RegexMatch(i, s[i..|s|])] + FindFrom(p, s, |s|);
  }

  lemma SsnTextMatch()
    ensures MatchAt(SsnPattern, SsnText, 10) == Some(21)
  {
    DashedSsnMatch(SsnText, 10);
  }

  lemma SsnTextParts()
    ensures forall q | 0 <= q < 10 :: !IsDigit(SsnText[q])
    ensures SsnText[10..] == "123-45-6789"
  {
    assert SsnText == "my ssn is " + "123-45-6789";
  }

  /** The ssn pattern finds "123-45-6789" at index 10 and nothing else. */
  lemma SsnFindAll()
    ensures FindAll(SsnPattern, SsnText) == [RegexMatch(10, "123-45-6789")]
  {
    SsnTextMatch();
    SsnTextParts();
    OnlyMatch(SsnPattern, SsnText, 10);
  }

  /** How many of three clues occur. */
  lemma CountOfThree(t: string, a: string, b: string, c: string)
    ensures CountPresent(t, [a, b, c]) ==
      (if Contains(t, a) then 1 else 0) + (if Contains(t, b) then 1 else 0) + (if Contains(t, c) then 1 else 0)
  {
    assert [a, b, c][..2] == [a, b];
    assert [a, b][..1] == [a];
    assert [a][..0] == [];
    assert CountPresent(t, [a]) == (if Contains(t, a) then 1 else 0);
    assert CountPresent(t, [a, b]) == CountPresent(t, [a]) + (if Contains(t, b) then 1 else 0);
  }

  lemma SsnLacksSocial()
    ensures !Contains(SsnText, "social")
  {
    AbsentCharNotContained(SsnText, "social", 1);
  }

  lemma SsnLacksSecurity()
    ensures !Contains(SsnText, "security")
  {
    AbsentCharNotContained(SsnText, "security", 2);
  }

  lemma SsnHasSsn()
    ensures Contains(SsnText, "ssn")
  {
    FirstIndexAt(SsnText, "ssn", 3);
  }

  /** The clues of the ssn kind. */
  lemma SsnCluesListed()
    ensures Lookup(ContextClues, "ssn") == Some(["social", "security", "ssn"])
  {
    assert ContextClues[0].0 != "ssn";
    assert ContextClues[1..][0] == ("ssn", ["social", "security", "ssn"]);
  }

  /** A kind with three clues, exactly one of them present, scores 0.85. */
  lemma OneOfThreeClues(t: string, dataType: string, a: string, b: string, c: string)
    requires Lookup(ContextClues, dataType) == Some([a, b, c])
    requires !Contains(t, a) && !Contains(t, b) && Contains(t, c)
    ensures Confidence(t, dataType) == 85
  {
    CountOfThree(t, a, b, c);
  }

  lemma SsnLower()
    ensures Lower(SsnText) == SsnText
  {
    LowerNoCapitals(SsnText);
  }

  /** Of the ssn clues only "ssn" occurs in the text, so an ssn match there scores 0.85. */
  lemma SsnConfidence()
    ensures Confidence(Lower(SsnText), "ssn") == 85
  {
    SsnLower();
    SsnCluesListed();
    SsnLacksSocial();
    SsnLacksSecurity();
    SsnHasSsn();
    OneOfThreeClues(SsnText, "ssn", "social", "security", "ssn");
  }

  /** "my ssn is 123-45-6789": the ssn pattern reports one match, at index 10, scored 0.85 because "ssn" is a clue. */
  lemma SsnExample()
    ensures KindMatches(SsnText, "ssn", SsnPattern) == [SensitiveDataMatch("ssn", "123-45-6789", 85, 10)]
  {
    SsnFindAll();
    SsnConfidence();
    KindMatchesAt(SsnText, "ssn", SsnPattern, 0);
  }

  /** Every match of the ssn block is among what the detector reports. */
  lemma SsnBlockInDetect(text: string, m: SensitiveDataMatch)
    requires m in KindMatches(text, "ssn", SsnPattern)
    ensures m in Detect(text)
  {
    DetectBlocks(text);
  }

  /** The ssn match of "my ssn is 123-45-6789" is among what the detector reports. */
  lemma SsnReported()
    ensures SensitiveDataMatch("ssn", "123-45-6789", 85, 10) in Detect(SsnText)
  {
    SsnExample();
    SsnBlockInDetect(SsnText, SensitiveDataMatch("ssn", "123-45-6789", 85, 10));
  }

  /** The text of the email finding: "x@y." and a vertical bar, then "z". */
  const BarText := "x@y.|z"

  /** The email block of the detector reports the whole text, with the fixed score of an email. */
  lemma BarEmailBlock()
    ensures KindMatches(BarText, "email", Email(TldAsWritten)) == [SensitiveDataMatch("email", BarText, 70, 0)]
  {
    AsWrittenEmailAcceptsBar();
    UncluedKinds(Lower(BarText));
    KindMatchesAt(BarText, "email", Email(TldAsWritten), 0);
  }

  /** Every match of the email block is among what the detector reports. */
  lemma EmailBlockInDetect(text: string, m: SensitiveDataMatch)
    requires m in KindMatches(text, "email", Email(TldAsWritten))
    ensures m in Detect(text)
  {
    DetectBlocks(text);
  }

  /** The detector reports "x@y.|z" as an email at index 0, scored 0.7, so it finds sensitive data there. */
  lemma BarEmailReported()
    ensures SensitiveDataMatch("email", BarText, 70, 0) in Detect(BarText)
    ensures Detect(BarText) != []
  {
    BarEmailBlock();
    EmailBlockInDetect(BarText, SensitiveDataMatch("email", BarText, 70, 0));
  }
}
