/** The keyword classifier (internal/prompt/classifier.go). Go strings are byte strings, so texts and keywords are
    sequences of bytes; weights and scores are reals. */
module Classifier {
  import opened Prelude

  type Text = seq<uint8>

  datatype Intent = Register | Upgrade | Query | Batch | Config | Audit | UnknownIntent

  datatype Rule = Rule(intent: Intent, keywords: seq<Text>, weight: real)

  // ---------------------------------------------------------------------
  // Substring search
  // ---------------------------------------------------------------------

  predicate OccursAt(s: Text, sub: Text, i: int) {
    0 <= i && i + |sub| <= |s| && s[i..i + |sub|] == sub
  }

  ghost predicate Occurs(s: Text, sub: Text) { exists i :: OccursAt(s, sub, i) }

  /** The least position at which sub occurs, or -1 when it occurs nowhere. */
  method IndexOf(s: Text, sub: Text) returns (r: int)
    ensures r == -1 <==> !Occurs(s, sub)
    ensures r != -1 ==> OccursAt(s, sub, r)
    ensures forall j :: OccursAt(s, sub, j) ==> r <= j
  {
    var n, m := |s|, |sub|;
    if m == 0 {
      assert OccursAt(s, sub, 0);
      return 0;
    }
    var i := 0;
    while i + m <= n
      invariant 0 <= i
      invariant forall j :: OccursAt(s, sub, j) ==> i <= j
    {
      if s[i..i + m] == sub {
        assert OccursAt(s, sub, i);
        return i;
      }
      i := i + 1;
    }
    r := -1;
  }

  method Contains(haystack: Text, needle: Text) returns (b: bool)
    ensures b <==> Occurs(haystack, needle)
  {
    if |needle| == 0 {
      assert OccursAt(haystack, needle, 0);
      return true;
    }
    var i := IndexOf(haystack, needle);
    b := i >= 0;
  }

  // ---------------------------------------------------------------------
  // Lower case
  // ---------------------------------------------------------------------

  function LowerByte(c: uint8): uint8 { if 65 <= c <= 90 then c + 32 else c }

  function Lower(s: Text): Text { seq(|s|, i requires 0 <= i < |s| => LowerByte(s[i])) }

  method LowerText(s: Text) returns (r: Text)
    ensures r == Lower(s)
    ensures |r| == |s| && forall i :: 0 <= i < |s| ==> r[i] == if 65 <= s[i] <= 90 then s[i] + 32 else s[i]
  {
    var out := new uint8[|s|];
    for i := 0 to |s|
      invariant forall j :: 0 <= j < i ==> out[j] == LowerByte(s[j])
    {
      var c := s[i];
      if 65 <= c && c <= 90 {
        c := c + 32;
      }
      out[i] := c;
    }
    r := out[..];
  }

  /** The texts differ at most in the case of ASCII letters. */
  predicate SameButCase(s: Text, t: Text) {
    |s| == |t| && forall i :: 0 <= i < |s| ==>
      || s[i] == t[i]
      || (65 <= s[i] <= 90 && t[i] == s[i] + 32)
      || (65 <= t[i] <= 90 && s[i] == t[i] + 32)
  }

  // ---------------------------------------------------------------------
  // Scores
  // ---------------------------------------------------------------------

  /** A rule's weight, once per keyword that occurs. */
  ghost function RawScore(keywords: seq<Text>, weight: real, low: Text): real {
    if |keywords| == 0 then 0.0
    else RawScore(keywords[..|keywords| - 1], weight, low)
         + (if Occurs(low, keywords[|keywords| - 1]) then weight else 0.0)
  }

  ghost function Score(r: Rule, low: Text): real {
    var raw := RawScore(r.keywords, r.weight, low);
    if raw > 1.0 then 1.0 else raw
  }

  /** The verdict over the first k rules: the earliest of the best positive scores. */
  ghost function BestOf(rules: seq<Rule>, low: Text, k: nat): (Intent, real)
    requires k <= |rules|
  {
    if k == 0 then (UnknownIntent, 0.0)
    else
      var before := BestOf(rules, low, k - 1);
      var score := Score(rules[k - 1], low);
      if score > before.1 then (rules[k - 1].intent, score) else before
  }

  ghost function Verdict(rules: seq<Rule>, text: Text): (Intent, real) {
    var best := BestOf(rules, Lower(text), |rules|);
    if best.1 < 0.1 then (UnknownIntent, 0.0) else best
  }

  method ScoreOf(r: Rule, low: Text) returns (score: real)
    ensures score == Score(r, low)
  {
    score := 0.0;
    for k := 0 to |r.keywords|
      invariant score == RawScore(r.keywords[..k], r.weight, low)
    {
      assert r.keywords[..k + 1][..k] == r.keywords[..k];
      var hit := Contains(low, r.keywords[k]);
      if hit {
        score := score + r.weight;
      }
    }
    assert r.keywords[..|r.keywords|] == r.keywords;
    if score > 1.0 {
      score := 1.0;
    }
  }

  method Confidence(rules: seq<Rule>, text: Text) returns (best: Intent, bestScore: real)
    ensures (best, bestScore) == Verdict(rules, text)
  {
    var low := LowerText(text);
    best, bestScore := UnknownIntent, 0.0;
    for k := 0 to |rules|
      invariant (best, bestScore) == BestOf(rules, low, k)
    {
      var score := ScoreOf(rules[k], low);
      if score > bestScore {
        bestScore := score;
        best := rules[k].intent;
      }
    }
    if bestScore < 0.1 {
      best, bestScore := UnknownIntent, 0.0;
    }
  }

  // ---------------------------------------------------------------------
  // What the verdict means, for any rules
  // ---------------------------------------------------------------------

  lemma {:induction false} BestIsEarliestMaximum(rules: seq<Rule>, low: Text, k: nat)
    requires k <= |rules|
    ensures var best := BestOf(rules, low, k);
      && best.1 >= 0.0
      && (forall j :: 0 <= j < k ==> Score(rules[j], low) <= best.1)
      && (best.1 > 0.0 ==> exists w :: 0 <= w < k && rules[w].intent == best.0 && Score(rules[w], low) == best.1
                             && forall j :: 0 <= j < w ==> Score(rules[j], low) < best.1)
  {
    if k > 0 {
      BestIsEarliestMaximum(rules, low, k - 1);
      var before := BestOf(rules, low, k - 1);
      if Score(rules[k - 1], low) > before.1 {
        assert rules[k - 1].intent == BestOf(rules, low, k).0;
      } else if before.1 > 0.0 {
        var w :| 0 <= w < k - 1 && rules[w].intent == before.0 && Score(rules[w], low) == before.1
          && forall j :: 0 <= j < w ==> Score(rules[j], low) < before.1;
        assert 0 <= w < k;
      }
    }
  }

  /** Either no rule reaches 0.1 and the intent is unknown with score 0, or the verdict is the earliest rule with
      the maximal capped score. */
  lemma VerdictMeans(rules: seq<Rule>, text: Text)
    ensures var v := Verdict(rules, text); var low := Lower(text);
      if forall j :: 0 <= j < |rules| ==> Score(rules[j], low) < 0.1
      then v == (UnknownIntent, 0.0)
      else && 0.1 <= v.1 <= 1.0
           && (forall j :: 0 <= j < |rules| ==> Score(rules[j], low) <= v.1)
           && (exists w :: 0 <= w < |rules| && rules[w].intent == v.0 && Score(rules[w], low) == v.1
                 && forall j :: 0 <= j < w ==> Score(rules[j], low) < v.1)
  {
    BestIsEarliestMaximum(rules, Lower(text), |rules|);
  }

  /** The case of ASCII letters does not matter. */
  lemma VerdictIgnoresCase(rules: seq<Rule>, s: Text, t: Text)
    requires SameButCase(s, t)
    ensures Verdict(rules, s) == Verdict(rules, t)
  {
    assert Lower(s) == Lower(t);
  }

  // ---------------------------------------------------------------------
  // The default rules
  // ---------------------------------------------------------------------

  /** An ASCII literal as bytes; it holds no other character. */
  function Bytes(s: string): Text {
    seq(|s|, i requires 0 <= i < |s| => if s[i] < '\U{80}' then s[i] as int else 63)
  }

  const BATCH_RULE := Rule(Batch,
    [Bytes("batch"), Bytes("bulk"), Bytes("many agents"), Bytes("multiple agents"), Bytes("csv"),
     [230, 137, 185, 233, 135, 143],
     [229, 164, 154, 228, 184, 170] + Bytes(" agent")], 1.0)

  const CONFIG_RULE := Rule(Config,
    [Bytes("config set"), Bytes("config show"), Bytes("config reset"), Bytes("configure"), Bytes("configuration"),
     [233, 133, 141, 231, 189, 174], [232, 174, 190, 231, 189, 174]], 1.0)

  const AUDIT_RULE := Rule(Audit,
    [Bytes("audit"), Bytes("logs"), Bytes("history"), Bytes("changes"), Bytes("log of"), Bytes("audit logs"),
     [229, 174, 161, 232, 174, 161], [229, 143, 152, 230, 155, 180, 232, 174, 176, 229, 189, 149]], 0.9)

  const REGISTER_RULE := Rule(Register,
    [Bytes("register"), Bytes("create agent"), Bytes("new agent"), Bytes("enroll"), Bytes("onboard")], 1.0)

  const UPGRADE_RULE := Rule(Upgrade,
    [Bytes("upgrade"), Bytes("promote"), Bytes("elevate"), Bytes("increase level"), [230, 143, 144, 229, 141, 135]],
    1.0)

  const QUERY_RULE := Rule(Query,
    [Bytes("info"), Bytes("show"), Bytes("get info"), Bytes("find"), Bytes("look up"),
     [230, 159, 165, 232, 175, 162], [232, 175, 166, 230, 131, 133], [232, 142, 183, 229, 143, 150]], 0.8)

  const DEFAULT_RULES: seq<Rule> := [BATCH_RULE, CONFIG_RULE, AUDIT_RULE, REGISTER_RULE, UPGRADE_RULE, QUERY_RULE]

  ghost predicate Hit(r: Rule, low: Text) {
    exists kw :: kw in r.keywords && Occurs(low, kw)
  }

  lemma {:induction false} RawScoreBounds(keywords: seq<Text>, weight: real, low: Text)
    requires weight > 0.0
    ensures if exists kw :: kw in keywords && Occurs(low, kw) then RawScore(keywords, weight, low) >= weight
            else RawScore(keywords, weight, low) == 0.0
  {
    if |keywords| > 0 {
      var front, last := keywords[..|keywords| - 1], keywords[|keywords| - 1];
      RawScoreBounds(front, weight, low);
      assert forall kw :: kw in keywords <==> kw in front || kw == last;
    }
  }

  /** A rule of weight at most 1 scores at least its weight when one of its keywords occurs, and nothing otherwise. */
  lemma ScoreBounds(r: Rule, low: Text)
    requires 0.0 < r.weight <= 1.0
    ensures Hit(r, low) ==> r.weight <= Score(r, low) <= 1.0
    ensures !Hit(r, low) ==> Score(r, low) == 0.0
  {
    RawScoreBounds(r.keywords, r.weight, low);
  }

  lemma DefaultWeights()
    ensures forall j :: 0 <= j < |DEFAULT_RULES| ==>
      0.8 <= DEFAULT_RULES[j].weight <= 1.0 && DEFAULT_RULES[j].intent != UnknownIntent
    ensures DEFAULT_RULES[0] == BATCH_RULE
  {
  }

  /** The intent is unknown, with score 0, exactly when no keyword of any rule occurs in the lower-cased text; and
      otherwise the winning rule has a keyword that occurs. */
  lemma UnknownIffNoKeyword(text: Text)
    ensures var v := Verdict(DEFAULT_RULES, text);
      && (v.0 == UnknownIntent <==> forall j :: 0 <= j < |DEFAULT_RULES| ==> !Hit(DEFAULT_RULES[j], Lower(text)))
      && (v.0 == UnknownIntent <==> v.1 == 0.0)
      && (v.0 != UnknownIntent ==>
            && 0.8 <= v.1 <= 1.0
            && exists w :: 0 <= w < |DEFAULT_RULES|
                 && DEFAULT_RULES[w].intent == v.0 && Hit(DEFAULT_RULES[w], Lower(text)))
  {
    var rules, low := DEFAULT_RULES, Lower(text);
    DefaultWeights();
    VerdictMeans(rules, text);
    forall j | 0 <= j < |rules|
      ensures Hit(rules[j], low) ==> Score(rules[j], low) >= 0.8
      ensures !Hit(rules[j], low) ==> Score(rules[j], low) == 0.0
    {
      ScoreBounds(rules[j], low);
    }
  }

  /** A batch keyword anywhere wins with score 1, whatever else the text says. */
  lemma BatchAlwaysWins(text: Text)
    requires Hit(BATCH_RULE, Lower(text))
    ensures Verdict(DEFAULT_RULES, text) == (Batch, 1.0)
  {
    var rules, low := DEFAULT_RULES, Lower(text);
    DefaultWeights();
    ScoreBounds(BATCH_RULE, low);
    VerdictMeans(rules, text);
    assert Score(rules[0], low) == 1.0;
  }

  /** A rule of full weight wins with score 1 exactly when it is hit and no earlier rule scores 1. */
  lemma FullWeightWinsIff(text: Text, w: nat)
    requires w < |DEFAULT_RULES| && DEFAULT_RULES[w].weight == 1.0
    ensures Verdict(DEFAULT_RULES, text) == (DEFAULT_RULES[w].intent, 1.0) <==>
      Hit(DEFAULT_RULES[w], Lower(text)) && forall j :: 0 <= j < w ==> Score(DEFAULT_RULES[j], Lower(text)) < 1.0
  {
    var rules, low := DEFAULT_RULES, Lower(text);
    DefaultWeights();
    VerdictMeans(rules, text);
    forall j | 0 <= j < |rules| ensures 0.0 <= Score(rules[j], low) <= 1.0 { ScoreBounds(rules[j], low); }
    ScoreBounds(rules[w], low);
    IntentsDistinct();
  }

  lemma IntentsDistinct()
    ensures forall i, j :: 0 <= i < j < |DEFAULT_RULES| ==> DEFAULT_RULES[i].intent != DEFAULT_RULES[j].intent
  {
  }

  // ---------------------------------------------------------------------
  // The default rules as a decision list
  // ---------------------------------------------------------------------

  /** UTF-8 (section 3 of RFC 3629). */
  function Utf8Char(c: char): Text {
    var n := c as int;
    if n < 0x80 then [n]
    else if n < 0x800 then [192 + n / 64, 128 + n % 64]
    else if n < 0x10000 then [224 + n / 4096, 128 + n / 64 % 64, 128 + n % 64]
    else [240 + n / 262144, 128 + n / 4096 % 64, 128 + n / 64 % 64, 128 + n % 64]
  }

  function Utf8(s: string): Text {
    if |s| == 0 then [] else Utf8Char(s[0]) + Utf8(s[1..])
  }

  /** What a text must mention, by intent. */
  function KeywordsOf(i: Intent): seq<string> {
    match i
    case Batch => ["batch", "bulk", "many agents", "multiple agents", "csv", "批量", "多个 agent"]
    case Config =>
      ["config set", "config show", "config reset", "configure", "configuration", "配置", "设置"]
    case Audit => ["audit", "logs", "history", "changes", "log of", "audit logs", "审计", "变更记录"]
    case Register => ["register", "create agent", "new agent", "enroll", "onboard"]
    case Upgrade => ["upgrade", "promote", "elevate", "increase level", "提升"]
    case Query => ["info", "show", "get info", "find", "look up", "查询", "详情", "获取"]
    case UnknownIntent => []
  }

  ghost predicate Says(text: Text, keyword: string) { Occurs(Lower(text), Utf8(keyword)) }

  ghost predicate Mentions(text: Text, i: Intent) {
    exists a :: 0 <= a < |KeywordsOf(i)| && Says(text, KeywordsOf(i)[a])
  }

  /** Two keywords of the intent occur; one may lie inside the other, as in "audit logs". */
  ghost predicate MentionsTwice(text: Text, i: Intent) {
    exists a, b :: 0 <= a < b < |KeywordsOf(i)| && Says(text, KeywordsOf(i)[a]) && Says(text, KeywordsOf(i)[b])
  }

  lemma {:induction false} AsciiIsItself(s: string)
    requires forall k :: 0 <= k < |s| ==> s[k] as int < 0x80
    ensures Utf8(s) == Bytes(s)
  {
    if |s| > 0 {
      AsciiIsItself(s[1..]);
      assert Bytes(s) == [s[0] as int] + Bytes(s[1..]);
    }
  }

  lemma {:induction false} Utf8Append(s: string, t: string)
    ensures Utf8(s + t) == Utf8(s) + Utf8(t)
  {
    if |s| == 0 {
      assert s + t == t;
    } else {
      assert (s + t)[1..] == s[1..] + t;
      Utf8Append(s[1..], t);
    }
  }

  lemma Utf8Pair(c: char, d: char)
    ensures Utf8([c, d]) == Utf8Char(c) + Utf8Char(d)
  {
    var s := [c, d];
    assert s[1..] == [d];
    assert Utf8([d]) == Utf8Char(d) + Utf8([d][1..]);
  }

  function Encoded(keywords: seq<string>): seq<Text> {
    seq(|keywords|, k requires 0 <= k < |keywords| => Utf8(keywords[k]))
  }

  function WeightOf(i: Intent): real {
    if i == Audit then 0.9 else if i == Query then 0.8 else 1.0
  }

  function RuleOf(i: Intent): Rule { Rule(i, Encoded(KeywordsOf(i)), WeightOf(i)) }

  lemma Utf8OfBatchAndConfig()
    ensures Utf8("批量") == [230, 137, 185, 233, 135, 143]
    ensures Utf8("配置") == [233, 133, 141, 231, 189, 174]
    ensures Utf8("设置") == [232, 174, 190, 231, 189, 174]
  {
    hide Utf8;
    Utf8Pair('批', '量');
    Utf8Pair('配', '置');
    Utf8Pair('设', '置');
  }

  lemma Utf8OfAuditAndUpgrade()
    ensures Utf8("审计") == [229, 174, 161, 232, 174, 161]
    ensures Utf8("提升") == [230, 143, 144, 229, 141, 135]
  {
    hide Utf8;
    Utf8Pair('审', '计');
    Utf8Pair('提', '升');
  }

  lemma Utf8OfQuery()
    ensures Utf8("查询") == [230, 159, 165, 232, 175, 162]
    ensures Utf8("详情") == [232, 175, 166, 230, 131, 133]
    ensures Utf8("获取") == [232, 142, 183, 229, 143, 150]
  {
    hide Utf8;
    Utf8Pair('查', '询');
    Utf8Pair('详', '情');
    Utf8Pair('获', '取');
  }

  lemma Utf8OfPhrases()
    ensures Utf8("变更记录") == [229, 143, 152, 230, 155, 180, 232, 174, 176, 229, 189, 149]
    ensures Utf8("多个 agent") == [229, 164, 154, 228, 184, 170] + Bytes(" agent")
  {
    hide Utf8, Bytes;
    Utf8Pair('变', '更');
    Utf8Pair('记', '录');
    Utf8Append("变更", "记录");
    assert "变更" + "记录" == "变更记录";
    Utf8Pair('多', '个');
    AsciiIsItself(" agent");
    Utf8Append("多个", " agent");
    assert "多个" + " agent" == "多个 agent";
  }

  lemma BatchKeywords()
    ensures BATCH_RULE == RuleOf(Batch)
  {
    hide Utf8, Bytes;
    AsciiIsItself("batch");
    AsciiIsItself("bulk");
    AsciiIsItself("many agents");
    AsciiIsItself("multiple agents");
    AsciiIsItself("csv");
    Utf8OfBatchAndConfig();
    Utf8OfPhrases();
  }

  lemma ConfigKeywords()
    ensures CONFIG_RULE == RuleOf(Config)
  {
    hide Utf8, Bytes;
    AsciiIsItself("config set");
    AsciiIsItself("config show");
    AsciiIsItself("config reset");
    AsciiIsItself("configure");
    AsciiIsItself("configuration");
    Utf8OfBatchAndConfig();
  }

  lemma AuditKeywords()
    ensures AUDIT_RULE == RuleOf(Audit)
  {
    hide Utf8, Bytes;
    AsciiIsItself("audit");
    AsciiIsItself("logs");
    AsciiIsItself("history");
    AsciiIsItself("changes");
    AsciiIsItself("log of");
    AsciiIsItself("audit logs");
    Utf8OfAuditAndUpgrade();
    Utf8OfPhrases();
  }

  lemma RegisterKeywords()
    ensures REGISTER_RULE == RuleOf(Register)
  {
    hide Utf8, Bytes;
    AsciiIsItself("register");
    AsciiIsItself("create agent");
    AsciiIsItself("new agent");
    AsciiIsItself("enroll");
    AsciiIsItself("onboard");
  }

  lemma UpgradeKeywords()
    ensures UPGRADE_RULE == RuleOf(Upgrade)
  {
    hide Utf8, Bytes;
    AsciiIsItself("upgrade");
    AsciiIsItself("promote");
    AsciiIsItself("elevate");
    AsciiIsItself("increase level");
    Utf8OfAuditAndUpgrade();
  }

  lemma QueryKeywords()
    ensures QUERY_RULE == RuleOf(Query)
  {
    hide Utf8, Bytes;
    AsciiIsItself("info");
    AsciiIsItself("show");
    AsciiIsItself("get info");
    AsciiIsItself("find");
    AsciiIsItself("look up");
    Utf8OfQuery();
  }

  /** The keywords that occur, counted. */
  ghost function Hits(keywords: seq<Text>, low: Text): nat {
    if |keywords| == 0 then 0
    else Hits(keywords[..|keywords| - 1], low) + (if Occurs(low, keywords[|keywords| - 1]) then 1 else 0)
  }

  lemma {:induction false} RawScoreCountsHits(keywords: seq<Text>, weight: real, low: Text)
    ensures RawScore(keywords, weight, low) == weight * Hits(keywords, low) as real
  {
    if |keywords| > 0 { RawScoreCountsHits(keywords[..|keywords| - 1], weight, low); }
  }

  lemma {:induction false} HitsMean(keywords: seq<Text>, low: Text)
    ensures Hits(keywords, low) >= 1 <==> exists a :: 0 <= a < |keywords| && Occurs(low, keywords[a])
    ensures Hits(keywords, low) >= 2 <==>
            exists a, b :: 0 <= a < b < |keywords| && Occurs(low, keywords[a]) && Occurs(low, keywords[b])
  {
    if |keywords| > 0 {
      var n := |keywords| - 1;
      HitsMean(keywords[..n], low);
      if Hits(keywords[..n], low) >= 1 {
        var a :| 0 <= a < n && Occurs(low, keywords[..n][a]);
        assert keywords[a] == keywords[..n][a];
      }
      if Hits(keywords[..n], low) >= 2 {
        var a, b :| 0 <= a < b < n && Occurs(low, keywords[..n][a]) && Occurs(low, keywords[..n][b]);
        assert keywords[a] == keywords[..n][a] && keywords[b] == keywords[..n][b];
      }
      forall a | 0 <= a < n ensures keywords[..n][a] == keywords[a] {}
    }
  }

  /** What the rule of an intent scores: nothing, its weight, or 1. */
  lemma RuleScores(text: Text, i: Intent)
    ensures Score(RuleOf(i), Lower(text)) ==
            if MentionsTwice(text, i) then 1.0 else if Mentions(text, i) then WeightOf(i) else 0.0
    ensures MentionsTwice(text, i) ==> Mentions(text, i)
  {
    hide KeywordsOf, Utf8, Occurs;
    var low := Lower(text);
    var keywords := Encoded(KeywordsOf(i));
    RawScoreCountsHits(keywords, WeightOf(i), low);
    HitsMean(keywords, low);
    forall a | 0 <= a < |keywords| ensures Says(text, KeywordsOf(i)[a]) <==> Occurs(low, keywords[a]) {}
  }

  /** The whole classifier as a decision list over what the text mentions. */
  ghost function Decision(text: Text): (Intent, real) {
    if Mentions(text, Batch) then (Batch, 1.0)
    else if Mentions(text, Config) then (Config, 1.0)
    else if MentionsTwice(text, Audit) then (Audit, 1.0)
    else if Mentions(text, Register) then (Register, 1.0)
    else if Mentions(text, Upgrade) then (Upgrade, 1.0)
    else if MentionsTwice(text, Query) then (Query, 1.0)
    else if Mentions(text, Audit) then (Audit, 0.9)
    else if Mentions(text, Query) then (Query, 0.8)
    else (UnknownIntent, 0.0)
  }

  lemma WinnerIs(rules: seq<Rule>, text: Text, w: nat)
    requires w < |rules| && Score(rules[w], Lower(text)) >= 0.1
    requires forall j :: 0 <= j < |rules| ==> Score(rules[j], Lower(text)) <= Score(rules[w], Lower(text))
    requires forall j :: 0 <= j < w ==> Score(rules[j], Lower(text)) < Score(rules[w], Lower(text))
    ensures Verdict(rules, text) == (rules[w].intent, Score(rules[w], Lower(text)))
  {
    VerdictMeans(rules, text);
  }

  lemma RulesTable()
    ensures DEFAULT_RULES ==
            [RuleOf(Batch), RuleOf(Config), RuleOf(Audit), RuleOf(Register), RuleOf(Upgrade), RuleOf(Query)]
  {
    BatchKeywords();
    ConfigKeywords();
    AuditKeywords();
    RegisterKeywords();
    UpgradeKeywords();
    QueryKeywords();
  }

  lemma VerdictIsDecision(text: Text)
    ensures Verdict(DEFAULT_RULES, text) == Decision(text)
  {
    hide Score, Mentions, MentionsTwice, KeywordsOf, Lower, BestOf;
    RulesTable();
    RuleScores(text, Batch);
    RuleScores(text, Config);
    RuleScores(text, Audit);
    RuleScores(text, Register);
    RuleScores(text, Upgrade);
    RuleScores(text, Query);
    var w :=
      if Mentions(text, Batch) then 0
      else if Mentions(text, Config) then 1
      else if MentionsTwice(text, Audit) then 2
      else if Mentions(text, Register) then 3
      else if Mentions(text, Upgrade) then 4
      else if MentionsTwice(text, Query) then 5
      else if Mentions(text, Audit) then 2
      else 5;
    if Decision(text).0 == UnknownIntent {
      VerdictMeans(DEFAULT_RULES, text);
    } else {
      WinnerIs(DEFAULT_RULES, text, w);
    }
  }
}
