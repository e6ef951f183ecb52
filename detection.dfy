/**
  The sensitive-data detector: the pattern pass over the seven regular
  expressions, the keyword pass over three categories, and the context score.
  Confidence is in hundredths: 70 is 0.7, 85 is 0.85, 95 is 0.95, 90 is 0.9.
 */
module Detection {
  import opened Wrappers
  import opened Text
  import opened Models
  import opened Patterns

  /** `self.patterns`, in dictionary order. The email entry keeps the top-level-domain class as written, `[A-Z|a-z]`. */
  const PatternTable: seq<(string, Pattern)> := [
    ("account_number", DigitRun(8, 16)),
    ("ssn", DigitGroups([3, 2, 4], DashOrSpace)),
    ("otp", DigitRun(4, 8)),
    ("credit_card", DigitGroups([4, 4, 4, 4], DashOrSpace)),
    ("phone_number", DigitGroups([3, 3, 4], DashOrDot)),
    ("email", Email(TldAsWritten)),
    ("routing_number", DigitRun(9, 9))
  ]

  /** `self.keywords`, in dictionary order. */
  const KeywordTable: seq<(string, seq<string>)> := [
    ("password", ["password", "passcode", "pin", "secret"]),
    ("personal_info", ["social security", "date of birth", "birthday", "mother's maiden"]),
    ("verification", ["verification code", "confirm", "authenticate"])
  ]

  /** The `context_clues` of `_calculate_confidence`. */
  const ContextClues: seq<(string, seq<string>)> := [
    ("account_number", ["account", "number", "account number"]),
    ("ssn", ["social", "security", "ssn"]),
    ("otp", ["code", "verification", "confirm", "sent you"]),
    ("credit_card", ["card", "credit", "debit"]),
    ("routing_number", ["routing", "transit"])
  ]

  predicate TableWellFormed(t: seq<(string, Pattern)>) {
    forall k | 0 <= k < |t| :: WellFormed(t[k].1)
  }

  function Min(a: int, b: int): int { if a <= b then a else b }

  /** How many entries of `clues` occur in `text`. */
  function CountPresent(text: string, clues: seq<string>): (n: nat)
    ensures n <= |clues|
  {
    if clues == [] then 0
    else CountPresent(text, clues[..|clues| - 1]) + (if Contains(text, clues[|clues| - 1]) then 1 else 0)
  }

  /** No clue is counted exactly when none occurs. */
  lemma {:induction false} CountPresentZeroIff(text: string, clues: seq<string>)
    ensures CountPresent(text, clues) == 0 <==> forall k | 0 <= k < |clues| :: !Contains(text, clues[k])
  {
    if clues != [] {
      var init := clues[..|clues| - 1];
      CountPresentZeroIff(text, init);
      assert forall k | 0 <= k < |init| :: init[k] == clues[k];
    }
  }

  /**
    The context score of a match of kind `dataType` in the lower-cased text:
    0.7, plus 0.15 per clue of its kind present, capped at 0.95.
   */
  function Confidence(textLower: string, dataType: string): (c: int)
    ensures c == 70 || c == 85 || c == 95
  {
    match Lookup(ContextClues, dataType)
    case None => 70
    case Some(clues) => Min(95, 70 + 15 * CountPresent(textLower, clues))
  }

  /** `_calculate_confidence(text, value, data_type)`; `value` is not consulted. */
  method CalculateConfidence(text: string, value: string, dataType: string) returns (confidence: int)
    ensures confidence == Confidence(text, dataType)
  {
    confidence := 70;
    var found := Lookup(ContextClues, dataType);
    if found.Some? {
      confidence := ScoreClues(text, found.value);
    }
  }

  /** The clue loop of `_calculate_confidence`: 0.15 more per clue present, capped at 0.95 after each step. */
  method ScoreClues(text: string, clues: seq<string>) returns (confidence: int)
    ensures confidence == Min(95, 70 + 15 * CountPresent(text, clues))
  {
    confidence := 70;
    var i := 0;
    while i < |clues|
      invariant 0 <= i <= |clues|
      invariant confidence == Min(95, 70 + 15 * CountPresent(text, clues[..i]))
    {
      assert clues[..i + 1][..i] == clues[..i];
      if Contains(text, clues[i]) {
        confidence := Min(95, confidence + 15);
      }
      i := i + 1;
    }
    assert clues[..|clues|] == clues;
  }

  /** The matches one pattern contributes, in `finditer` order. */
  function KindMatches(text: string, dataType: string, p: Pattern): (r: seq<SensitiveDataMatch>)
    requires WellFormed(p)
  {
    var found := FindAll(p, text);
    seq(|found|, k requires 0 <= k < |found| =>
      SensitiveDataMatch(dataType, found[k].value, Confidence(Lower(text), dataType), found[k].start))
  }

  lemma KindMatchesAt(text: string, dataType: string, p: Pattern, j: nat)
    requires WellFormed(p) && j < |FindAll(p, text)|
    ensures |KindMatches(text, dataType, p)| == |FindAll(p, text)|
    ensures KindMatches(text, dataType, p)[j] ==
      SensitiveDataMatch(dataType, FindAll(p, text)[j].value, Confidence(Lower(text), dataType), FindAll(p, text)[j].start)
  {
  }

  /** The pattern pass over the entries of `table`, in order. */
  function PatternPass(text: string, table: seq<(string, Pattern)>): (r: seq<SensitiveDataMatch>)
    requires TableWellFormed(table)
  {
    if table == [] then []
    else
      var last := table[|table| - 1];
      PatternPass(text, table[..|table| - 1]) + KindMatches(text, last.0, last.1)
  }

  /** The match one keyword contributes: none, or one at its first index. */
  function KeywordHit(textLower: string, category: string, keyword: string): seq<SensitiveDataMatch> {
    match FirstIndexOf(textLower, keyword)
    case Some(pos) => [SensitiveDataMatch(category, keyword, 90, pos)]
    case None => []
  }

  /** The keyword matches of one category, in list order. */
  function CategoryMatches(textLower: string, category: string, keywords: seq<string>): (r: seq<SensitiveDataMatch>)
  {
    if keywords == [] then []
    else CategoryMatches(textLower, category, keywords[..|keywords| - 1]) + KeywordHit(textLower, category, keywords[|keywords| - 1])
  }

  function KeywordPass(textLower: string, table: seq<(string, seq<string>)>): (r: seq<SensitiveDataMatch>)
  {
    if table == [] then []
    else
      var last := table[|table| - 1];
      KeywordPass(textLower, table[..|table| - 1]) + CategoryMatches(textLower, last.0, last.1)
  }

  /** What `detect_sensitive_data(text)` returns. */
  function Detect(text: string): seq<SensitiveDataMatch> {
    PatternPass(text, PatternTable) + KeywordPass(Lower(text), KeywordTable)
  }

  /** Every pattern of the table is well formed. */
  lemma PatternTableWellFormed()
    ensures TableWellFormed(PatternTable)
  {
  }

  /** The pass over one more entry adds that entry's block at the end. */
  lemma PatternPassStep(text: string, t: seq<(string, Pattern)>, i: nat)
    requires TableWellFormed(t) && i < |t|
    ensures TableWellFormed(t[..i]) && TableWellFormed(t[..i + 1]) && WellFormed(t[i].1)
    ensures PatternPass(text, t[..i + 1]) == PatternPass(text, t[..i]) + KindMatches(text, t[i].0, t[i].1)
  {
    assert t[..i + 1][..i] == t[..i];
  }

  /** The inner pattern loop of `detect_sensitive_data`, over one pattern's `finditer` matches. */
  method ScanKind(text: string, textLower: string, dataType: string, pattern: Pattern) returns (matches: seq<SensitiveDataMatch>)
    requires textLower == Lower(text) && WellFormed(pattern)
    ensures matches == KindMatches(text, dataType, pattern)
  {
    var found := FindAll(pattern, text);
    ghost var expected := KindMatches(text, dataType, pattern);
    assert |expected| == |found|;
    matches := [];
    var j := 0;
    while j < |found|
      invariant 0 <= j <= |found|
      invariant matches == expected[..j]
    {
      var confidence := CalculateConfidence(textLower, found[j].value, dataType);
      KindMatchesAt(text, dataType, pattern, j);
      matches := matches + [SensitiveDataMatch(dataType, found[j].value, confidence, found[j].start)];
      assert expected[..j + 1] == expected[..j] + [expected[j]];
      j := j + 1;
    }
    assert expected[..j] == expected;
  }

  /** The pattern loop of `detect_sensitive_data`: every `finditer` match of every pattern, scored. */
  method ScanPatterns(text: string, textLower: string) returns (matches: seq<SensitiveDataMatch>)
    requires textLower == Lower(text)
    ensures matches == PatternPass(text, PatternTable)
  {
    PatternTableWellFormed();
    matches := [];
    var i := 0;
    while i < |PatternTable|
      invariant 0 <= i <= |PatternTable|
      invariant TableWellFormed(PatternTable[..i])
      invariant matches == PatternPass(text, PatternTable[..i])
    {
      PatternPassStep(text, PatternTable, i);
      var (dataType, pattern) := PatternTable[i];
      var found := ScanKind(text, textLower, dataType, pattern);
      matches := matches + found;
      i := i + 1;
    }
    assert PatternTable[..i] == PatternTable;
  }

  /** The keyword pass over one more category adds that category's matches at the end. */
  lemma KeywordPassStep(textLower: string, t: seq<(string, seq<string>)>, c: nat)
    requires c < |t|
    ensures KeywordPass(textLower, t[..c + 1]) == KeywordPass(textLower, t[..c]) + CategoryMatches(textLower, t[c].0, t[c].1)
  {
    assert t[..c + 1][..c] == t[..c];
  }

  /** One more keyword adds its hit at the end. */
  lemma CategoryMatchesStep(textLower: string, category: string, keywords: seq<string>, k: nat)
    requires k < |keywords|
    ensures CategoryMatches(textLower, category, keywords[..k + 1]) ==
      CategoryMatches(textLower, category, keywords[..k]) + KeywordHit(textLower, category, keywords[k])
  {
    assert keywords[..k + 1][..k] == keywords[..k];
  }

  /** A keyword's hit, as the loop body decides it. */
  lemma KeywordHitCases(textLower: string, category: string, keyword: string)
    ensures Contains(textLower, keyword) ==>
      KeywordHit(textLower, category, keyword) == [SensitiveDataMatch(category, keyword, 90, FirstIndexOf(textLower, keyword).value)]
    ensures !Contains(textLower, keyword) ==> KeywordHit(textLower, category, keyword) == []
  {
  }

  /** The inner keyword loop of `detect_sensitive_data`, over one category's keywords. */
  method ScanCategory(textLower: string, category: string, keywords: seq<string>) returns (matches: seq<SensitiveDataMatch>)
    ensures matches == CategoryMatches(textLower, category, keywords)
  {
    matches := [];
    var k := 0;
    while k < |keywords|
      invariant 0 <= k <= |keywords|
      invariant matches == CategoryMatches(textLower, category, keywords[..k])
    {
      var keyword := keywords[k];
      CategoryMatchesStep(textLower, category, keywords, k);
      KeywordHitCases(textLower, category, keyword);
      if Contains(textLower, keyword) {
        matches := matches + [SensitiveDataMatch(category, keyword, 90, FirstIndexOf(textLower, keyword).value)];
      }
      k := k + 1;
    }
    assert keywords[..k] == keywords;
  }

  /** The keyword loop of `detect_sensitive_data`: each keyword present, at its first index. */
  method ScanKeywords(textLower: string) returns (matches: seq<SensitiveDataMatch>)
    ensures matches == KeywordPass(textLower, KeywordTable)
  {
    matches := [];
    var c := 0;
    while c < |KeywordTable|
      invariant 0 <= c <= |KeywordTable|
      invariant matches == KeywordPass(textLower, KeywordTable[..c])
    {
      KeywordPassStep(textLower, KeywordTable, c);
      var (category, keywords) := KeywordTable[c];
      var found := ScanCategory(textLower, category, keywords);
      matches := matches + found;
      c := c + 1;
    }
    assert KeywordTable[..c] == KeywordTable;
  }

  /** `detect_sensitive_data(text)`: the pattern matches, then the keyword matches. */
  method DetectSensitiveData(text: string) returns (matches: seq<SensitiveDataMatch>)
    ensures matches == Detect(text)
  {
    var textLower := Lower(text);
    var patternMatches := ScanPatterns(text, textLower);
    var keywordMatches := ScanKeywords(textLower);
    matches := patternMatches + keywordMatches;
  }

  /** `has_sensitive_data(text)`. */
  method HasSensitiveData(text: string) returns (b: bool)
    ensures b <==> Detect(text) != []
  {
    var matches := DetectSensitiveData(text);
    b := |matches| > 0;
  }

  /** The position of a kind in the output order: the seven patterns, then the three keyword categories. */
  function KindRank(dataType: string): nat {
    if dataType == "account_number" then 0
    else if dataType == "ssn" then 1
    else if dataType == "otp" then 2
    else if dataType == "credit_card" then 3
    else if dataType == "phone_number" then 4
    else if dataType == "email" then 5
    else if dataType == "routing_number" then 6
    else if dataType == "password" then 7
    else if dataType == "personal_info" then 8
    else if dataType == "verification" then 9
    else 10
  }

  lemma TableRanks()
    ensures forall k | 0 <= k < |PatternTable| :: KindRank(PatternTable[k].0) == k
    ensures forall c | 0 <= c < |KeywordTable| :: KindRank(KeywordTable[c].0) == |PatternTable| + c
  {
  }

  predicate RankSorted(r: seq<SensitiveDataMatch>) {
    forall a, b | 0 <= a < b < |r| :: KindRank(r[a].dataType) <= KindRank(r[b].dataType)
  }

  predicate RanksIn(r: seq<SensitiveDataMatch>, lo: nat, hi: nat) {
    forall k | 0 <= k < |r| :: lo <= KindRank(r[k].dataType) < hi
  }

  lemma AppendRankSorted(x: seq<SensitiveDataMatch>, y: seq<SensitiveDataMatch>, lo: nat, mid: nat, hi: nat)
    requires lo <= mid <= hi
    requires RankSorted(x) && RankSorted(y) && RanksIn(x, lo, mid) && RanksIn(y, mid, hi)
    ensures RankSorted(x + y) && RanksIn(x + y, lo, hi)
  {
    var r := x + y;
    forall a, b | 0 <= a < b < |r| ensures KindRank(r[a].dataType) <= KindRank(r[b].dataType) {
      if b < |x| { assert r[a] == x[a] && r[b] == x[b]; }
      else if a >= |x| { assert r[a] == y[a - |x|] && r[b] == y[b - |x|]; }
      else { assert r[a] == x[a] && r[b] == y[b - |x|]; }
    }
    forall k | 0 <= k < |r| ensures lo <= KindRank(r[k].dataType) < hi {
      if k < |x| { assert r[k] == x[k]; }
    }
  }

  /** Matches of one kind that do not overlap, left to right. */
  predicate SameKindApart(r: seq<SensitiveDataMatch>) {
    forall a, b | 0 <= a < b < |r| && r[a].dataType == r[b].dataType :: r[a].position + |r[a].value| <= r[b].position
  }

  /** What `m` satisfies when reported by the pattern of rank `KindRank(m.dataType)`. */
  predicate PatternHit(text: string, m: SensitiveDataMatch)
    requires KindRank(m.dataType) < |PatternTable|
  {
    var p := PatternTable[KindRank(m.dataType)].1;
    WellFormed(p) && BlockHit(text, m.dataType, p, m)
  }

  /** `m` is a match of kind `name` reported by `p`: a hit of `p` at its position, scored for its kind. */
  predicate BlockHit(text: string, name: string, p: Pattern, m: SensitiveDataMatch)
    requires WellFormed(p)
  {
    && m.dataType == name
    && 0 <= m.position && |m.value| > 0
    && OccursAt(text, m.value, m.position)
    && MatchAt(p, text, m.position) == Some(m.position + |m.value|)
    && m.confidence == Confidence(Lower(text), name)
  }

  /** The entries of one pattern's block, one per `finditer` match. */
  lemma KindMatchesElems(text: string, name: string, p: Pattern)
    requires WellFormed(p)
    ensures var r := KindMatches(text, name, p);
      var found := FindAll(p, text);
      && |r| == |found|
      && forall k | 0 <= k < |r| :: r[k] == SensitiveDataMatch(name, found[k].value, Confidence(Lower(text), name), found[k].start)
  {
  }

  /** One pattern's block runs left to right without overlap. */
  lemma KindBlockApart(text: string, name: string, p: Pattern)
    requires WellFormed(p)
    ensures SameKindApart(KindMatches(text, name, p))
  {
    KindMatchesElems(text, name, p);
  }

  /** The `k`-th match of one pattern's block is a hit of the pattern, scored for its kind. */
  lemma KindBlockHit(text: string, name: string, p: Pattern, k: nat)
    requires WellFormed(p) && k < |KindMatches(text, name, p)|
    ensures BlockHit(text, name, p, KindMatches(text, name, p)[k])
  {
    var found := FindAll(p, text);
    KindMatchesElems(text, name, p);
    FindFromReportsHits(p, text, 0);
    assert found[k] in found;
  }

  /** Every match of one pattern's block is a hit of the pattern, scored for its kind. */
  lemma KindBlockHits(text: string, name: string, p: Pattern)
    requires WellFormed(p)
    ensures var r := KindMatches(text, name, p); forall k | 0 <= k < |r| :: BlockHit(text, name, p, r[k])
  {
    var r := KindMatches(text, name, p);
    forall k | 0 <= k < |r| ensures BlockHit(text, name, p, r[k]) {
      KindBlockHit(text, name, p, k);
    }
  }

  /** Appending a block of the next rank keeps a same-kind-apart sequence so. */
  lemma AppendSameKindApart(x: seq<SensitiveDataMatch>, y: seq<SensitiveDataMatch>, mid: nat)
    requires SameKindApart(x) && SameKindApart(y)
    requires forall k | 0 <= k < |x| :: KindRank(x[k].dataType) < mid
    requires forall k | 0 <= k < |y| :: KindRank(y[k].dataType) >= mid
    ensures SameKindApart(x + y)
  {
    var r := x + y;
    forall a, b | 0 <= a < b < |r| && r[a].dataType == r[b].dataType
      ensures r[a].position + |r[a].value| <= r[b].position
    {
      if b < |x| { assert r[a] == x[a] && r[b] == x[b]; }
      else if a >= |x| { assert r[a] == y[a - |x|] && r[b] == y[b - |x|]; }

    }
  }

  /** A pattern table whose entry `k` is the kind of rank `k`, each pattern well formed. */
  predicate RankedTable(t: seq<(string, Pattern)>) {
    TableWellFormed(t) && forall k | 0 <= k < |t| :: KindRank(t[k].0) == k
  }

  /**
    The pattern pass over the first `i` entries of a ranked table: grouped by
    kind in table order, each match a hit of its kind's pattern, matches of
    one kind left to right and disjoint.
   */
  lemma {:induction false} PassFacts(text: string, t: seq<(string, Pattern)>, i: nat)
    requires RankedTable(t) && i <= |t|
    ensures var r := PatternPass(text, t[..i]);
      && RankSorted(r) && RanksIn(r, 0, i) && SameKindApart(r)
      && forall k | 0 <= k < |r| :: BlockHit(text, r[k].dataType, t[KindRank(r[k].dataType)].1, r[k])
  {
    if i > 0 {
      PassFacts(text, t, i - 1);
      PatternPassStep(text, t, i - 1);
      var (name, p) := t[i - 1];
      KindBlockApart(text, name, p);
      KindBlockHits(text, name, p);
      var x := PatternPass(text, t[..i - 1]);
      var y := KindMatches(text, name, p);
      assert RanksIn(y, i - 1, i) && RankSorted(y) by {
        forall k | 0 <= k < |y| ensures KindRank(y[k].dataType) == i - 1 { assert BlockHit(text, name, p, y[k]); }
      }
      AppendRankSorted(x, y, 0, i - 1, i);
      AppendSameKindApart(x, y, i - 1);
      var r := x + y;
      forall k | 0 <= k < |r| ensures BlockHit(text, r[k].dataType, t[KindRank(r[k].dataType)].1, r[k]) {
        if k < |x| { assert r[k] == x[k]; }
        else { assert r[k] == y[k - |x|]; assert BlockHit(text, name, p, y[k - |x|]); }
      }
    }
  }

  /** The detector's table is ranked. */
  lemma PatternTableRanked()
    ensures RankedTable(PatternTable)
  {
    TableRanks();
    PatternTableWellFormed();
  }

  /** The pattern pass over the detector's table: grouped by kind in table order, each match a hit of its kind's pattern. */
  lemma PatternPassFacts(text: string)
    ensures var r := PatternPass(text, PatternTable);
      && RankSorted(r) && RanksIn(r, 0, |PatternTable|) && SameKindApart(r)
      && forall k | 0 <= k < |r| :: PatternHit(text, r[k])
  {
    PatternTableRanked();
    PassFacts(text, PatternTable, |PatternTable|);
    assert PatternTable[..|PatternTable|] == PatternTable;
  }

  /** The keyword match `m`: confidence 0.9, the keyword itself as value, its first index as position. */
  predicate KeywordFound(textLower: string, keyword: string, m: SensitiveDataMatch) {
    && m.value == keyword
    && m.confidence == 90
    && 0 <= m.position
    && FirstIndexOf(textLower, keyword) == Some(m.position as nat)
  }

  predicate DistinctValues(r: seq<SensitiveDataMatch>) {
    forall a, b | 0 <= a < b < |r| :: r[a].value != r[b].value
  }

  predicate DistinctStrings(s: seq<string>) {
    forall a, b | 0 <= a < b < |s| :: s[a] != s[b]
  }

  /** Every element of `r` is a match of one of `keywords`, in `category`. */
  predicate CategoryShaped(textLower: string, category: string, keywords: seq<string>, r: seq<SensitiveDataMatch>) {
    forall k | 0 <= k < |r| :: r[k].dataType == category && r[k].value in keywords && KeywordFound(textLower, r[k].value, r[k])
  }

  lemma KeywordHitShape(textLower: string, category: string, keyword: string)
    ensures var y := KeywordHit(textLower, category, keyword);
      |y| <= 1 && (|y| == 1 <==> Contains(textLower, keyword))
      && (|y| == 1 ==> y[0].dataType == category && KeywordFound(textLower, keyword, y[0]))
  {
  }

  /** Every match of a category is one of its keywords, found where it first occurs. */
  lemma {:induction false} CategoryMatchesShape(textLower: string, category: string, keywords: seq<string>)
    ensures CategoryShaped(textLower, category, keywords, CategoryMatches(textLower, category, keywords))
  {
    if keywords != [] {
      var n := |keywords| - 1;
      var init := keywords[..n];
      CategoryMatchesShape(textLower, category, init);
      var x := CategoryMatches(textLower, category, init);
      var y := KeywordHit(textLower, category, keywords[n]);
      KeywordHitShape(textLower, category, keywords[n]);
      var r := x + y;
      assert CategoryMatches(textLower, category, keywords) == r;
      forall k | 0 <= k < |r| ensures r[k].dataType == category && r[k].value in keywords && KeywordFound(textLower, r[k].value, r[k]) {
        if k < |x| {
          assert r[k] == x[k];
          var j :| 0 <= j < |init| && init[j] == x[k].value;
          assert keywords[j] == init[j];
        } else {
          assert r[k] == y[0];
        }
      }
    }
  }

  /** With distinct keywords, no two matches of a category share a value. */
  lemma {:induction false} CategoryMatchesDistinct(textLower: string, category: string, keywords: seq<string>)
    requires DistinctStrings(keywords)
    ensures DistinctValues(CategoryMatches(textLower, category, keywords))
  {
    if keywords != [] {
      var n := |keywords| - 1;
      var init := keywords[..n];
      LastKeywordIsNew(keywords);
      CategoryMatchesDistinct(textLower, category, init);
      CategoryMatchesShape(textLower, category, init);
      var x := CategoryMatches(textLower, category, init);
      var y := KeywordHit(textLower, category, keywords[n]);
      assert CategoryMatches(textLower, category, keywords) == x + y;
      assert forall k | 0 <= k < |x| :: x[k].value in init;
      KeywordHitShape(textLower, category, keywords[n]);
      DistinctAppendOne(x, y, keywords[n]);
    }
  }

  /** In a list of distinct keywords the last one is not among the others, which stay distinct. */
  lemma LastKeywordIsNew(keywords: seq<string>)
    requires DistinctStrings(keywords) && keywords != []
    ensures var n := |keywords| - 1; DistinctStrings(keywords[..n]) && keywords[n] !in keywords[..n]
  {
    var n := |keywords| - 1;
    forall j | 0 <= j < n ensures keywords[..n][j] != keywords[n] {
      assert keywords[..n][j] == keywords[j];
    }
  }

  /** Appending at most one match whose value is new keeps the values distinct. */
  lemma DistinctAppendOne(x: seq<SensitiveDataMatch>, y: seq<SensitiveDataMatch>, v: string)
    requires DistinctValues(x) && |y| <= 1
    requires forall k | 0 <= k < |x| :: x[k].value != v
    requires forall k | 0 <= k < |y| :: y[k].value == v
    ensures DistinctValues(x + y)
  {
    var r := x + y;
    forall a, b | 0 <= a < b < |r| ensures r[a].value != r[b].value {
      if b < |x| { assert r[a] == x[a] && r[b] == x[b]; }
      else { assert r[a] == x[a] && r[b] == y[0]; }
    }
  }

  /** Some element of `r` has `keyword` as its value. */
  predicate Reported(r: seq<SensitiveDataMatch>, keyword: string) {
    exists m | m in r :: m.value == keyword
  }

  /** Every keyword of the category that occurs in the text is reported. */
  lemma {:induction false} CategoryMatchesComplete(textLower: string, category: string, keywords: seq<string>)
    ensures forall k | 0 <= k < |keywords| && Contains(textLower, keywords[k]) ::
      Reported(CategoryMatches(textLower, category, keywords), keywords[k])
  {
    if keywords != [] {
      var n := |keywords| - 1;
      var init := keywords[..n];
      CategoryMatchesComplete(textLower, category, init);
      var x := CategoryMatches(textLower, category, init);
      var y := KeywordHit(textLower, category, keywords[n]);
      KeywordHitShape(textLower, category, keywords[n]);
      var r := x + y;
      assert CategoryMatches(textLower, category, keywords) == r;
      forall k | 0 <= k < |keywords| && Contains(textLower, keywords[k]) ensures Reported(r, keywords[k]) {
        if k < n {
          assert keywords[k] == init[k];
          assert Reported(x, init[k]);
          var m :| m in x && m.value == keywords[k];
          assert m in r;
        } else {
          assert y[0] in r;
        }
      }
    }
  }

  /** Every keyword of the table is non-empty. */
  lemma KeywordsNonEmpty()
    ensures forall c, k | 0 <= c < |KeywordTable| && 0 <= k < |KeywordTable[c].1| :: |KeywordTable[c].1[k]| > 0
  {
    var t := KeywordTable;
    assert forall k | 0 <= k < |t[0].1| :: |t[0].1[k]| > 0;
    assert forall k | 0 <= k < |t[1].1| :: |t[1].1[k]| > 0;
    assert forall k | 0 <= k < |t[2].1| :: |t[2].1[k]| > 0;
  }

  /** No keyword is listed twice, within a category or across two, and the category names differ. */
  lemma KeywordTableDistinct()
    ensures forall c | 0 <= c < |KeywordTable| :: DistinctStrings(KeywordTable[c].1)
    ensures forall c1, c2 | 0 <= c1 < |KeywordTable| && 0 <= c2 < |KeywordTable| && c1 != c2 ::
      KeywordTable[c1].0 != KeywordTable[c2].0 && forall v | v in KeywordTable[c1].1 :: v !in KeywordTable[c2].1
  {
  }

  /** The keyword pass over the first `c` categories is in category order. */
  lemma {:induction false} KeywordPassRanks(textLower: string, c: nat)
    requires c <= |KeywordTable|
    ensures var r := KeywordPass(textLower, KeywordTable[..c]);
      RankSorted(r) && RanksIn(r, |PatternTable|, |PatternTable| + c)
  {
    TableRanks();
    if c > 0 {
      KeywordPassRanks(textLower, c - 1);
      var t := KeywordTable[..c];
      assert t[..c - 1] == KeywordTable[..c - 1];
      var (category, keywords) := KeywordTable[c - 1];
      CategoryMatchesShape(textLower, category, keywords);
      var x := KeywordPass(textLower, KeywordTable[..c - 1]);
      var y := CategoryMatches(textLower, category, keywords);
      assert KeywordPass(textLower, t) == x + y;
      assert forall k | 0 <= k < |y| :: KindRank(y[k].dataType) == |PatternTable| + c - 1;
      AppendRankSorted(x, y, |PatternTable|, |PatternTable| + c - 1, |PatternTable| + c);
    }
  }

  /** Pattern matches come first, grouped by kind in table order; keyword matches follow, grouped by category. */
  lemma DetectOrder(text: string)
    ensures RankSorted(Detect(text)) && RanksIn(Detect(text), 0, |PatternTable| + |KeywordTable|)
  {
    PatternPassFacts(text);
    KeywordPassRanks(Lower(text), |KeywordTable|);
    assert KeywordTable[..|KeywordTable|] == KeywordTable;
    AppendRankSorted(PatternPass(text, PatternTable), KeywordPass(Lower(text), KeywordTable), 0, |PatternTable|, |PatternTable| + |KeywordTable|);
  }

  /**
    Each pattern match is text found at its position by its kind's pattern,
    scored by context; matches of one kind are left to right and disjoint.
   */
  lemma DetectPatternMatches(text: string)
    ensures var r := Detect(text);
      && (forall k | 0 <= k < |r| && KindRank(r[k].dataType) < |PatternTable| :: PatternHit(text, r[k]))
      && (forall a, b | 0 <= a < b < |r| && r[a].dataType == r[b].dataType && KindRank(r[a].dataType) < |PatternTable| ::
            r[a].position + |r[a].value| <= r[b].position)
  {
    PatternPassFacts(text);
    KeywordPassRanks(Lower(text), |KeywordTable|);
    assert KeywordTable[..|KeywordTable|] == KeywordTable;
    PatternPartOfConcat(text, PatternPass(text, PatternTable), KeywordPass(Lower(text), KeywordTable));
  }

  /** Matches after the pattern block all rank past the patterns, so the block's facts carry over to the whole list. */
  lemma PatternPartOfConcat(text: string, x: seq<SensitiveDataMatch>, y: seq<SensitiveDataMatch>)
    requires forall k | 0 <= k < |x| :: KindRank(x[k].dataType) < |PatternTable| && PatternHit(text, x[k])
    requires SameKindApart(x)
    requires forall k | 0 <= k < |y| :: KindRank(y[k].dataType) >= |PatternTable|
    ensures var r := x + y;
      && (forall k | 0 <= k < |r| && KindRank(r[k].dataType) < |PatternTable| :: PatternHit(text, r[k]))
      && (forall a, b | 0 <= a < b < |r| && r[a].dataType == r[b].dataType && KindRank(r[a].dataType) < |PatternTable| ::
            r[a].position + |r[a].value| <= r[b].position)
  {
    var r := x + y;
    forall k | 0 <= k < |r| && KindRank(r[k].dataType) < |PatternTable| ensures PatternHit(text, r[k]) {
      if k < |x| { assert r[k] == x[k]; }
    }
    forall a, b | 0 <= a < b < |r| && r[a].dataType == r[b].dataType && KindRank(r[a].dataType) < |PatternTable|
      ensures r[a].position + |r[a].value| <= r[b].position
    {
      if b < |x| { assert r[a] == x[a] && r[b] == x[b]; }
    }
  }

  /** The detector's output is the pattern pass followed by the keyword pass. */
  lemma DetectSplit(text: string)
    ensures var x := PatternPass(text, PatternTable[..|PatternTable|]);
      var y := KeywordPass(Lower(text), KeywordTable[..|KeywordTable|]);
      Detect(text) == x + y
  {
    assert PatternTable[..|PatternTable|] == PatternTable;
    assert KeywordTable[..|KeywordTable|] == KeywordTable;
  }

  /** The pattern pass reports nothing when no pattern matches anywhere. */
  lemma {:induction false} PatternPassNothing(text: string, t: seq<(string, Pattern)>)
    requires TableWellFormed(t)
    requires forall k | 0 <= k < |t| :: FindAll(t[k].1, text) == []
    ensures PatternPass(text, t) == []
  {
    if t != [] {
      var n := |t| - 1;
      assert forall k | 0 <= k < n :: t[..n][k] == t[k];
      PatternPassNothing(text, t[..n]);
    }
  }

  lemma {:induction false} CategoryMatchesNothing(textLower: string, category: string, keywords: seq<string>)
    requires forall k | 0 <= k < |keywords| :: !Contains(textLower, keywords[k])
    ensures CategoryMatches(textLower, category, keywords) == []
  {
    if keywords != [] {
      var n := |keywords| - 1;
      assert forall k | 0 <= k < n :: keywords[..n][k] == keywords[k];
      CategoryMatchesNothing(textLower, category, keywords[..n]);
      assert !Contains(textLower, keywords[n]);
    }
  }

  /** The keyword pass reports nothing when no keyword occurs. */
  lemma {:induction false} KeywordPassNothing(textLower: string, t: seq<(string, seq<string>)>)
    requires forall c, k | 0 <= c < |t| && 0 <= k < |t[c].1| :: !Contains(textLower, t[c].1[k])
    ensures KeywordPass(textLower, t) == []
  {
    if t != [] {
      var n := |t| - 1;
      assert forall c | 0 <= c < n :: t[..n][c] == t[c];
      KeywordPassNothing(textLower, t[..n]);
      CategoryMatchesNothing(textLower, t[n].0, t[n].1);
    }
  }

  /** No well-formed pattern matches in the empty text. */
  lemma NoPatternMatchesEmpty(t: seq<(string, Pattern)>)
    requires TableWellFormed(t)
    ensures forall k | 0 <= k < |t| :: FindAll(t[k].1, "") == []
  {
    forall k | 0 <= k < |t| ensures FindAll(t[k].1, "") == [] {
      assert MatchAt(t[k].1, "", 0) == None;
    }
  }

  /** Nothing is detected in the empty text. */
  lemma DetectEmpty()
    ensures Detect("") == []
  {
    PatternTableWellFormed();
    NoPatternMatchesEmpty(PatternTable);
    PatternPassNothing("", PatternTable);
    KeywordsNonEmpty();
    NoKeywordInEmpty(KeywordTable);
    assert Lower("") == "";
    KeywordPassNothing("", KeywordTable);
  }

  /** No non-empty keyword occurs in the empty text. */
  lemma NoKeywordInEmpty(t: seq<(string, seq<string>)>)
    requires forall c, k | 0 <= c < |t| && 0 <= k < |t[c].1| :: |t[c].1[k]| > 0
    ensures forall c, k | 0 <= c < |t| && 0 <= k < |t[c].1| :: !Contains("", t[c].1[k])
  {
    forall c, k | 0 <= c < |t| && 0 <= k < |t[c].1| ensures !Contains("", t[c].1[k]) {
      assert |t[c].1[k]| > 0;
    }
  }

  /** The keyword pass is the three category blocks, in table order. */
  lemma KeywordPassBlocks(textLower: string)
    ensures KeywordPass(textLower, KeywordTable) ==
      CategoryMatches(textLower, KeywordTable[0].0, KeywordTable[0].1) +
      CategoryMatches(textLower, KeywordTable[1].0, KeywordTable[1].1) +
      CategoryMatches(textLower, KeywordTable[2].0, KeywordTable[2].1)
  {
    var t := KeywordTable;
    assert t[..2][..1][..0] == [];
    assert t[..3] == t;
    assert KeywordPass(textLower, t[..1]) == CategoryMatches(textLower, t[0].0, t[0].1);
    assert KeywordPass(textLower, t[..2]) == KeywordPass(textLower, t[..1]) + CategoryMatches(textLower, t[1].0, t[1].1) by {
      assert t[..2][..1] == t[..1];
    }
    assert KeywordPass(textLower, t[..3]) == KeywordPass(textLower, t[..2]) + CategoryMatches(textLower, t[2].0, t[2].1) by {
      assert t[..3][..2] == t[..2];
    }
  }

  /** `(category, keyword)` is a pair of the keyword table. */
  predicate KeywordEntry(category: string, keyword: string) {
    exists c | 0 <= c < |KeywordTable| :: KeywordTable[c].0 == category && keyword in KeywordTable[c].1
  }

  /** Every match of a keyword pass over `t` is a found keyword of one of `t`'s categories. */
  lemma {:induction false} KeywordPassFrom(textLower: string, t: seq<(string, seq<string>)>)
    ensures forall m | m in KeywordPass(textLower, t) ::
      (exists c | 0 <= c < |t| :: t[c].0 == m.dataType && m.value in t[c].1) && KeywordFound(textLower, m.value, m)
  {
    if t != [] {
      var n := |t| - 1;
      KeywordPassFrom(textLower, t[..n]);
      CategoryMatchesShape(textLower, t[n].0, t[n].1);
      var x := KeywordPass(textLower, t[..n]);
      var y := CategoryMatches(textLower, t[n].0, t[n].1);
      assert KeywordPass(textLower, t) == x + y;
      forall m: SensitiveDataMatch | m in x + y
        ensures (exists c | 0 <= c < |t| :: t[c].0 == m.dataType && m.value in t[c].1) && KeywordFound(textLower, m.value, m)
      {
        if m in x {
          var c :| 0 <= c < n && t[..n][c].0 == m.dataType && m.value in t[..n][c].1;
          assert t[c] == t[..n][c];
        } else {
          var i :| 0 <= i < |y| && y[i] == m;
          assert t[n].0 == m.dataType && m.value in t[n].1;
        }
      }
    }
  }

  /** Every category's matches appear in a keyword pass over a table holding it. */
  lemma {:induction false} CategoryInPass(textLower: string, t: seq<(string, seq<string>)>, c: nat)
    requires c < |t|
    ensures forall m | m in CategoryMatches(textLower, t[c].0, t[c].1) :: m in KeywordPass(textLower, t)
  {
    var n := |t| - 1;
    assert KeywordPass(textLower, t) == KeywordPass(textLower, t[..n]) + CategoryMatches(textLower, t[n].0, t[n].1);
    if c < n {
      CategoryInPass(textLower, t[..n], c);
      assert t[..n][c] == t[c];
    }
  }

  /**
    Each keyword match carries confidence 0.9, a keyword of its own category
    as value and that keyword's first index in the lower-cased text as position.
   */
  lemma KeywordPassMatches(textLower: string)
    ensures forall m | m in KeywordPass(textLower, KeywordTable) ::
      KeywordEntry(m.dataType, m.value) && KeywordFound(textLower, m.value, m)
  {
    KeywordPassFrom(textLower, KeywordTable);
  }

  lemma AppendDistinctValues(x: seq<SensitiveDataMatch>, y: seq<SensitiveDataMatch>)
    requires DistinctValues(x) && DistinctValues(y)
    requires forall i, j | 0 <= i < |x| && 0 <= j < |y| :: x[i].value != y[j].value
    ensures DistinctValues(x + y)
  {
    var r := x + y;
    forall a, b | 0 <= a < b < |r| ensures r[a].value != r[b].value {
      if b < |x| { assert r[a] == x[a] && r[b] == x[b]; }
      else if a >= |x| { assert r[a] == y[a - |x|] && r[b] == y[b - |x|]; }
      else { assert r[a] == x[a] && r[b] == y[b - |x|]; }
    }
  }

  /** The values of a category block are keywords of that category. */
  lemma BlockValues(textLower: string, c: nat)
    requires c < |KeywordTable|
    ensures var b := CategoryMatches(textLower, KeywordTable[c].0, KeywordTable[c].1);
      forall i | 0 <= i < |b| :: b[i].value in KeywordTable[c].1 && b[i].dataType == KeywordTable[c].0
  {
    CategoryMatchesShape(textLower, KeywordTable[c].0, KeywordTable[c].1);
  }

  /** No keyword is reported twice, however often it occurs. */
  lemma KeywordPassDistinct(textLower: string)
    ensures DistinctValues(KeywordPass(textLower, KeywordTable))
  {
    KeywordPassBlocks(textLower);
    KeywordTableDistinct();
    var b0 := CategoryMatches(textLower, KeywordTable[0].0, KeywordTable[0].1);
    var b1 := CategoryMatches(textLower, KeywordTable[1].0, KeywordTable[1].1);
    var b2 := CategoryMatches(textLower, KeywordTable[2].0, KeywordTable[2].1);
    CategoryMatchesDistinct(textLower, KeywordTable[0].0, KeywordTable[0].1);
    CategoryMatchesDistinct(textLower, KeywordTable[1].0, KeywordTable[1].1);
    CategoryMatchesDistinct(textLower, KeywordTable[2].0, KeywordTable[2].1);
    BlockValues(textLower, 0);
    BlockValues(textLower, 1);
    BlockValues(textLower, 2);
    AppendDistinctValues(b0, b1);
    var b01 := b0 + b1;
    forall i, j | 0 <= i < |b01| && 0 <= j < |b2| ensures b01[i].value != b2[j].value {
      if i < |b0| { assert b01[i] == b0[i]; } else { assert b01[i] == b1[i - |b0|]; }
    }
    AppendDistinctValues(b01, b2);
  }

  /** A keyword that occurs in the lower-cased text is reported under its category. */
  lemma KeywordReportedIfPresent(text: string, c: nat, k: nat)
    requires c < |KeywordTable| && k < |KeywordTable[c].1|
    requires Contains(Lower(text), KeywordTable[c].1[k])
    ensures exists m | m in Detect(text) :: m.dataType == KeywordTable[c].0 && m.value == KeywordTable[c].1[k]
  {
    var tl := Lower(text);
    var (category, keywords) := KeywordTable[c];
    var kw := keywords[k];
    var p := PatternPass(text, PatternTable);
    var y := KeywordPass(tl, KeywordTable);
    CategoryMatchesComplete(tl, category, keywords);
    CategoryMatchesShape(tl, category, keywords);
    CategoryInPass(tl, KeywordTable, c);
    var b := CategoryMatches(tl, category, keywords);
    assert Reported(b, kw);
    var m :| m in b && m.value == kw;
    var i :| 0 <= i < |b| && b[i] == m;
    assert m.dataType == category;
    assert m in y;
    assert m in p + y;
  }

  /** A keyword reported under its category occurs in the lower-cased text. */
  lemma KeywordPresentIfReported(text: string, c: nat, k: nat, m: SensitiveDataMatch)
    requires c < |KeywordTable| && k < |KeywordTable[c].1|
    requires m in Detect(text) && m.dataType == KeywordTable[c].0 && m.value == KeywordTable[c].1[k]
    ensures Contains(Lower(text), KeywordTable[c].1[k])
  {
    var p := PatternPass(text, PatternTable);
    var y := KeywordPass(Lower(text), KeywordTable);
    PatternPassFacts(text);
    TableRanks();
    assert m !in p by {
      forall i | 0 <= i < |p| ensures p[i] != m {
        assert KindRank(p[i].dataType) < |PatternTable|;
      }
    }
    assert m in y;
    KeywordPassMatches(Lower(text));
    assert KeywordFound(Lower(text), KeywordTable[c].1[k], m);
  }

  /** A keyword is reported, under its category, exactly when it occurs in the lower-cased text. */
  lemma DetectKeywordIff(text: string, c: nat, k: nat)
    requires c < |KeywordTable| && k < |KeywordTable[c].1|
    ensures Contains(Lower(text), KeywordTable[c].1[k]) <==>
      exists m | m in Detect(text) :: m.dataType == KeywordTable[c].0 && m.value == KeywordTable[c].1[k]
  {
    if Contains(Lower(text), KeywordTable[c].1[k]) {
      KeywordReportedIfPresent(text, c, k);
    }
    if m: SensitiveDataMatch :| m in Detect(text) && m.dataType == KeywordTable[c].0 && m.value == KeywordTable[c].1[k] {
      KeywordPresentIfReported(text, c, k, m);
    }
  }

  /** The pattern pass over a table of seven entries is their seven blocks, in order. */
  lemma PassOfSeven(text: string, t: seq<(string, Pattern)>)
    requires |t| == 7 && TableWellFormed(t)
    ensures PatternPass(text, t) ==
      KindMatches(text, t[0].0, t[0].1) + KindMatches(text, t[1].0, t[1].1) +
      KindMatches(text, t[2].0, t[2].1) + KindMatches(text, t[3].0, t[3].1) +
      KindMatches(text, t[4].0, t[4].1) + KindMatches(text, t[5].0, t[5].1) +
      KindMatches(text, t[6].0, t[6].1)
  {
    assert t[..0] == [];
    PatternPassStep(text, t, 0);
    var r1 := KindMatches(text, t[0].0, t[0].1);
    assert PatternPass(text, t[..1]) == r1;
    PatternPassStep(text, t, 1);
    var r2 := r1 + KindMatches(text, t[1].0, t[1].1);
    assert PatternPass(text, t[..2]) == r2;
    PatternPassStep(text, t, 2);
    var r3 := r2 + KindMatches(text, t[2].0, t[2].1);
    assert PatternPass(text, t[..3]) == r3;
    PatternPassStep(text, t, 3);
    var r4 := r3 + KindMatches(text, t[3].0, t[3].1);
    assert PatternPass(text, t[..4]) == r4;
    PatternPassStep(text, t, 4);
    var r5 := r4 + KindMatches(text, t[4].0, t[4].1);
    assert PatternPass(text, t[..5]) == r5;
    PatternPassStep(text, t, 5);
    var r6 := r5 + KindMatches(text, t[5].0, t[5].1);
    assert PatternPass(text, t[..6]) == r6;
    PatternPassStep(text, t, 6);
    assert t[..7] == t;
  }

  /** The detector's output, block by block, in table order. */
  lemma DetectBlocks(text: string)
    ensures Detect(text) ==
      KindMatches(text, "account_number", DigitRun(8, 16)) +
      KindMatches(text, "ssn", DigitGroups([3, 2, 4], DashOrSpace)) +
      KindMatches(text, "otp", DigitRun(4, 8)) +
      KindMatches(text, "credit_card", DigitGroups([4, 4, 4, 4], DashOrSpace)) +
      KindMatches(text, "phone_number", DigitGroups([3, 3, 4], DashOrDot)) +
      KindMatches(text, "email", Email(TldAsWritten)) +
      KindMatches(text, "routing_number", DigitRun(9, 9)) +
      KeywordPass(Lower(text), KeywordTable)
  {
    PatternTableWellFormed();
    PassOfSeven(text, PatternTable);
  }

  /** A `finditer` match of a pattern gives its block an entry of that kind at that position. */
  lemma KindMatchesHas(text: string, name: string, p: Pattern, rm: RegexMatch)
    requires WellFormed(p) && rm in FindAll(p, text)
    ensures SensitiveDataMatch(name, rm.value, Confidence(Lower(text), name), rm.start) in KindMatches(text, name, p)
  {
    var found := FindAll(p, text);
    var k :| 0 <= k < |found| && found[k] == rm;
    KindMatchesAt(text, name, p, k);
  }

  /** Matches of the account-number, ssn and routing-number blocks are among what the detector reports. */
  lemma NumberBlocksInDetect(text: string, m: SensitiveDataMatch)
    requires || m in KindMatches(text, "account_number", DigitRun(8, 16))
             || m in KindMatches(text, "ssn", DigitGroups([3, 2, 4], DashOrSpace))
             || m in KindMatches(text, "routing_number", DigitRun(9, 9))
    ensures m in Detect(text)
  {
    DetectBlocks(text);
  }

  /** Every pattern match the detector reports is a hit of its kind's pattern. */
  lemma DetectPatternHits(text: string)
    ensures var r := Detect(text);
      forall k | 0 <= k < |r| && KindRank(r[k].dataType) < |PatternTable| :: PatternHit(text, r[k])
  {
    DetectPatternMatches(text);
  }

  /** Every otp match the detector reports is a hit of the otp pattern at its position. */
  lemma OtpReportedIsHit(text: string, m: SensitiveDataMatch)
    requires m in Detect(text) && m.dataType == "otp"
    ensures 0 <= m.position <= |text| && MatchAt(DigitRun(4, 8), text, m.position) == Some(m.position + |m.value|)
  {
    var r := Detect(text);
    var k :| 0 <= k < |r| && r[k] == m;
    assert KindRank("otp") == 2;
    DetectPatternHits(text);
    assert PatternHit(text, r[k]);
    assert PatternTable[2].1 == DigitRun(4, 8);
  }

  /** A standalone nine-digit number heads an entry of the account-number, ssn and routing-number blocks. */
  lemma NineDigitInBlocks(text: string, i: nat)
    requires i <= |text| && StandaloneDigits(text, i, 9, 9)
    ensures i + 9 <= |text|
    ensures SensitiveDataMatch("account_number", text[i..i + 9], Confidence(Lower(text), "account_number"), i) in KindMatches(text, "account_number", DigitRun(8, 16))
    ensures SensitiveDataMatch("ssn", text[i..i + 9], Confidence(Lower(text), "ssn"), i) in KindMatches(text, "ssn", DigitGroups([3, 2, 4], DashOrSpace))
    ensures SensitiveDataMatch("routing_number", text[i..i + 9], Confidence(Lower(text), "routing_number"), i) in KindMatches(text, "routing_number", DigitRun(9, 9))
  {
    NineDigitWord(text, i);
    var rm := RegexMatch(i, text[i..i + 9]);
    KindMatchesHas(text, "account_number", DigitRun(8, 16), rm);
    KindMatchesHas(text, "ssn", DigitGroups([3, 2, 4], DashOrSpace), rm);
    KindMatchesHas(text, "routing_number", DigitRun(9, 9), rm);
  }

  /** No otp match the detector reports starts inside a standalone nine-digit number. */
  lemma NineDigitNotOtp(text: string, i: nat)
    requires i <= |text| && StandaloneDigits(text, i, 9, 9)
    ensures forall m | m in Detect(text) && m.dataType == "otp" :: !(i <= m.position < i + 9)
  {
    forall m | m in Detect(text) && m.dataType == "otp" ensures !(i <= m.position < i + 9) {
      OtpReportedIsHit(text, m);
      if i <= m.position < i + 9 { NineDigitNoOtpHit(text, i, m.position); }
    }
  }

  /**
    A standalone nine-digit number is reported as an account number, an ssn
    and a routing number, each at its first digit with its kind's score, and
    no otp match starts inside it.
   */
  lemma NineDigitReported(text: string, i: nat)
    requires i <= |text| && StandaloneDigits(text, i, 9, 9)
    ensures i + 9 <= |text|
    ensures SensitiveDataMatch("account_number", text[i..i + 9], Confidence(Lower(text), "account_number"), i) in Detect(text)
    ensures SensitiveDataMatch("ssn", text[i..i + 9], Confidence(Lower(text), "ssn"), i) in Detect(text)
    ensures SensitiveDataMatch("routing_number", text[i..i + 9], Confidence(Lower(text), "routing_number"), i) in Detect(text)
    ensures forall m | m in Detect(text) && m.dataType == "otp" :: !(i <= m.position < i + 9)
  {
    NineDigitInBlocks(text, i);
    var v := text[i..i + 9];
    NumberBlocksInDetect(text, SensitiveDataMatch("account_number", v, Confidence(Lower(text), "account_number"), i));
    NumberBlocksInDetect(text, SensitiveDataMatch("ssn", v, Confidence(Lower(text), "ssn"), i));
    NumberBlocksInDetect(text, SensitiveDataMatch("routing_number", v, Confidence(Lower(text), "routing_number"), i));
    NineDigitNotOtp(text, i);
  }

  /** The context score takes each of its three values exactly as the number of clues present says. */
  lemma ConfidenceLevels(textLower: string, dataType: string)
    ensures Lookup(ContextClues, dataType).None? ==> Confidence(textLower, dataType) == 70
    ensures Lookup(ContextClues, dataType).Some? ==>
      var clues := Lookup(ContextClues, dataType).value;
      var c := Confidence(textLower, dataType);
      && (c == 70 <==> forall k | 0 <= k < |clues| :: !Contains(textLower, clues[k]))
      && (c == 85 <==> CountPresent(textLower, clues) == 1)
      && (c == 95 <==> CountPresent(textLower, clues) >= 2)
  {
    if Lookup(ContextClues, dataType).Some? {
      CountPresentZeroIff(textLower, Lookup(ContextClues, dataType).value);
    }
  }

  /** Phone numbers and emails have no clues, so they always score 0.7. */
  lemma UncluedKinds(textLower: string)
    ensures Confidence(textLower, "phone_number") == 70
    ensures Confidence(textLower, "email") == 70
  {
  }
}
