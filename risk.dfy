/**
 * The campaign risk scorer of web/lib/riskAnalysis.ts: an additive score
 * over red-flag keywords, description length, funding goal and all-caps
 * text, clamped to 100 and mapped to a level and a summary.
 */
module RiskAnalysis {
  import opened Text

  datatype Level = Low | Medium | High | Critical

  datatype RiskReport = RiskReport(score: int, level: Level, flags: seq<string>, summary: string)

  /** One rule that fired: the points it adds and the flag it pushes. */
  datatype Finding = Finding(points: int, message: string)

  /** The red-flag keywords, in the order they are checked. */
  const RedFlags: seq<string> := [
    "guaranteed", "100%", "giveaway", "double your", "no risk",
    "urgent", "act now", "vitalik", "elon", "password", "private key"
  ]

  const KeywordPoints := 20
  const ShortPoints := 30
  const ThinPoints := 10
  const GoalPoints := 15
  const CapsPoints := 25

  const ShortLimit := 50
  const ThinLimit := 100
  const GoalLimit: real := 1000000.0
  const CapsMinLength := 20

  const ShortMessage := "Description is dangerously short"
  const ThinMessage := "Description lacks detail"
  // Written in two pieces: the verifier cannot index into a string literal this long in one piece.
  const GoalMessage := "Extremely high funding goal " + "for a new project"
  const CapsMessage := "Excessive use of capitalization"

  const LowSummary := "Campaign appears legitimate."
  const MediumSummary := "Some elements require verification. Please research the team."
  const HighSummary := "Proceed with caution. The campaign has several red flags."
  const CriticalSummary := "DO NOT INTERACT. This campaign exhibits multiple signs of potential fraud."

  function KeywordMessage(flag: string): string {
    "Contains suspicious keyword: \"" + flag + "\""
  }

  /** A keyword fires when it occurs in the lower-cased description or title. */
  predicate Fires(flag: string, lowerTitle: string, lowerDesc: string) {
    Contains(lowerDesc, flag) || Contains(lowerTitle, flag)
  }

  /** The keywords of `flags` that fire, in table order. */
  function KeywordHits(flags: seq<string>, lowerTitle: string, lowerDesc: string): seq<string> {
    if flags == [] then []
    else
      var last := flags[|flags| - 1];
      KeywordHits(flags[..|flags| - 1], lowerTitle, lowerDesc)
        + (if Fires(last, lowerTitle, lowerDesc) then [last] else [])
  }

  function KeywordFindings(hits: seq<string>): seq<Finding> {
    if hits == [] then []
    else KeywordFindings(hits[..|hits| - 1]) + [Finding(KeywordPoints, KeywordMessage(hits[|hits| - 1]))]
  }

  function LengthFindings(length: nat): seq<Finding> {
    if length < ShortLimit then [Finding(ShortPoints, ShortMessage)]
    else if length < ThinLimit then [Finding(ThinPoints, ThinMessage)]
    else []
  }

  function GoalFindings(goal: real): seq<Finding> {
    if goal > GoalLimit then [Finding(GoalPoints, GoalMessage)] else []
  }

  /** The description reads as shouting: it equals its own upper-case form and is long enough. */
  predicate IsShouting(description: string) {
    description == Upper(description) && |description| > CapsMinLength
  }

  function CapsFindings(description: string): seq<Finding> {
    if IsShouting(description) then [Finding(CapsPoints, CapsMessage)] else []
  }

  /** Every rule that fires for a campaign, in the order the scorer applies them. */
  function Findings(title: string, description: string, goal: real): seq<Finding> {
    KeywordFindings(KeywordHits(RedFlags, Lower(title), Lower(description)))
      + LengthFindings(|description|) + GoalFindings(goal) + CapsFindings(description)
  }

  function SumPoints(fs: seq<Finding>): int {
    if fs == [] then 0 else SumPoints(fs[..|fs| - 1]) + fs[|fs| - 1].points
  }

  function Messages(fs: seq<Finding>): seq<string> {
    if fs == [] then [] else Messages(fs[..|fs| - 1]) + [fs[|fs| - 1].message]
  }

  /** The score before clamping. */
  function RawScore(title: string, description: string, goal: real): int {
    SumPoints(Findings(title, description, goal))
  }

  function LevelOf(score: int): Level {
    if score >= 80 then Critical
    else if score >= 50 then High
    else if score >= 20 then Medium
    else Low
  }

  function SummaryOf(level: Level): string {
    match level
    case Critical => CriticalSummary
    case High => HighSummary
    case Medium => MediumSummary
    case Low => LowSummary
  }

  function Min(a: int, b: int): int {
    if a <= b then a else b
  }

  /** The report the scorer returns for a campaign. */
  function Report(title: string, description: string, goal: real): RiskReport {
    var raw := RawScore(title, description, goal);
    RiskReport(Min(raw, 100), LevelOf(raw), Messages(Findings(title, description, goal)), SummaryOf(LevelOf(raw)))
  }

  /** Ordering of the levels, from LOW to CRITICAL. */
  function Rank(level: Level): nat {
    match level
    case Low => 0
    case Medium => 1
    case High => 2
    case Critical => 3
  }

  // ---------------------------------------------------------------------------
  // The scorer itself

  /**
   * `analyzeRisk`: applies the four rule groups, then grades the raw score.
   * The returned score is clamped to 100; the level is taken from the raw score.
   */
  method AnalyzeRisk(title: string, description: string, goal: real) returns (report: RiskReport)
    ensures report == Report(title, description, goal)
    ensures 0 <= report.score <= 100
    ensures |report.flags| == |Findings(title, description, goal)|
  {
    var score, flags := ApplyRules(title, description, goal);

    var level := Low;
    if score >= 80 {
      level := Critical;
    } else if score >= 50 {
      level := High;
    } else if score >= 20 {
      level := Medium;
    }

    var summary := LowSummary;
    if level == Critical {
      summary := CriticalSummary;
    } else if level == High {
      summary := HighSummary;
    } else if level == Medium {
      summary := MediumSummary;
    }

    assert score >= 80 ==> level == Critical;
    assert 50 <= score < 80 ==> level == High;
    assert 20 <= score < 50 ==> level == Medium;
    assert score < 20 ==> level == Low;
    RawScoreNonNegative(title, description, goal);
    report := RiskReport(Min(score, 100), level, flags, summary);
  }

  /**
   * The scoring phase of `analyzeRisk`: every rule that fires adds its points
   * to `score` and pushes its message onto `flags`.
   */
  method ApplyRules(title: string, description: string, goal: real) returns (score: int, flags: seq<string>)
    ensures score == RawScore(title, description, goal)
    ensures flags == Messages(Findings(title, description, goal))
    ensures |flags| == |Findings(title, description, goal)|
  {
    // 1. keywords
    score, flags := ScanKeywords(Lower(title), Lower(description));
    ghost var score1, flags1 := score, flags;

    // 2. description length
    if |description| < ShortLimit {
      score := score + ShortPoints;
      flags := flags + [ShortMessage];
    } else if |description| < ThinLimit {
      score := score + ThinPoints;
      flags := flags + [ThinMessage];
    }
    ghost var score2, flags2 := score, flags;

    // 3. goal
    if goal > GoalLimit {
      score := score + GoalPoints;
      flags := flags + [GoalMessage];
    }
    ghost var score3, flags3 := score, flags;

    // 4. capitalisation
    if description == Upper(description) && |description| > CapsMinLength {
      score := score + CapsPoints;
      flags := flags + [CapsMessage];
    }

    // Each step below calls RuleGroups in its own scope, which keeps every proof obligation small.
    assert score2 == score1 + SumPoints(LengthFindings(|description|)) && flags2 == flags1 + Messages(LengthFindings(|description|)) by {
      RuleGroups(title, description, goal);
    }
    assert score3 == score2 + SumPoints(GoalFindings(goal)) && flags3 == flags2 + Messages(GoalFindings(goal)) by {
      RuleGroups(title, description, goal);
    }
    assert score == score3 + SumPoints(CapsFindings(description)) && flags == flags3 + Messages(CapsFindings(description)) by {
      RuleGroups(title, description, goal);
    }
    assert score == RawScore(title, description, goal) && flags == Messages(Findings(title, description, goal)) by {
      RuleGroups(title, description, goal);
    }
    MessagesLength(Findings(title, description, goal));
  }

  /**
   * The keyword pass of `analyzeRisk`: each table keyword found in the
   * lower-cased description or title adds 20 and pushes one flag.
   */
  method ScanKeywords(lowerTitle: string, lowerDesc: string) returns (score: int, flags: seq<string>)
    ensures score == SumPoints(KeywordFindings(KeywordHits(RedFlags, lowerTitle, lowerDesc)))
    ensures flags == Messages(KeywordFindings(KeywordHits(RedFlags, lowerTitle, lowerDesc)))
  {
    score := 0;
    flags := [];
    for i := 0 to |RedFlags|
      invariant score == SumPoints(KeywordFindings(KeywordHits(RedFlags[..i], lowerTitle, lowerDesc)))
      invariant flags == Messages(KeywordFindings(KeywordHits(RedFlags[..i], lowerTitle, lowerDesc)))
    {
      var flag := RedFlags[i];
      KeywordStep(RedFlags, i, lowerTitle, lowerDesc);
      Push(KeywordFindings(KeywordHits(RedFlags[..i], lowerTitle, lowerDesc)), Finding(KeywordPoints, KeywordMessage(flag)));
      if Contains(lowerDesc, flag) || Contains(lowerTitle, flag) {
        score := score + KeywordPoints;
        flags := flags + [KeywordMessage(flag)];
      }
    }
    assert RedFlags[..|RedFlags|] == RedFlags;
  }

  // ---------------------------------------------------------------------------
  // Lemmas

  /** Checking one more table keyword adds its points and its flag exactly when it fires. */
  lemma KeywordStep(flags: seq<string>, i: nat, lowerTitle: string, lowerDesc: string)
    requires i < |flags|
    ensures var before := KeywordFindings(KeywordHits(flags[..i], lowerTitle, lowerDesc));
            var after := KeywordFindings(KeywordHits(flags[..i + 1], lowerTitle, lowerDesc));
            after == if Fires(flags[i], lowerTitle, lowerDesc)
                     then before + [Finding(KeywordPoints, KeywordMessage(flags[i]))]
                     else before
  {
    var hits := KeywordHits(flags[..i], lowerTitle, lowerDesc);
    assert flags[..i + 1][..i] == flags[..i];
    if Fires(flags[i], lowerTitle, lowerDesc) {
      assert (hits + [flags[i]])[..|hits|] == hits;
    } else {
      assert hits + [] == hits;
    }
  }

  /** Pushing one finding adds its points to the score and its message to the flags. */
  lemma Push(fs: seq<Finding>, f: Finding)
    ensures SumPoints(fs + [f]) == SumPoints(fs) + f.points
    ensures Messages(fs + [f]) == Messages(fs) + [f.message]
  {
    assert (fs + [f])[..|fs|] == fs;
  }

  lemma {:induction false} SumPointsAppend(a: seq<Finding>, b: seq<Finding>)
    ensures SumPoints(a + b) == SumPoints(a) + SumPoints(b)
    decreases |b|
  {
    if b != [] {
      var b' := b[..|b| - 1];
      assert (a + b)[..|a + b| - 1] == a + b';
      SumPointsAppend(a, b');
    } else {
      assert a + b == a;
    }
  }

  lemma {:induction false} MessagesAppend(a: seq<Finding>, b: seq<Finding>)
    ensures Messages(a + b) == Messages(a) + Messages(b)
    decreases |b|
  {
    if b != [] {
      var b' := b[..|b| - 1];
      assert (a + b)[..|a + b| - 1] == a + b';
      MessagesAppend(a, b');
    } else {
      assert a + b == a;
    }
  }

  /** One flag per rule that fired: every score increment is paired with one message. */
  lemma {:induction false} MessagesLength(fs: seq<Finding>)
    ensures |Messages(fs)| == |fs|
    ensures forall i :: 0 <= i < |fs| ==> Messages(fs)[i] == fs[i].message
  {
    if fs != [] {
      MessagesLength(fs[..|fs| - 1]);
    }
  }

  /** The hits are exactly the table keywords that fire, kept in table order. */
  lemma {:induction false} KeywordHitsExact(flags: seq<string>, lowerTitle: string, lowerDesc: string)
    ensures |KeywordHits(flags, lowerTitle, lowerDesc)| <= |flags|
    ensures forall k :: k in KeywordHits(flags, lowerTitle, lowerDesc) <==> k in flags && Fires(k, lowerTitle, lowerDesc)
  {
    if flags != [] {
      var init := flags[..|flags| - 1];
      KeywordHitsExact(init, lowerTitle, lowerDesc);
      assert flags == init + [flags[|flags| - 1]];
    }
  }

  predicate Distinct(s: seq<string>) {
    forall i, j :: 0 <= i < j < |s| ==> s[i] != s[j]
  }

  /** Each keyword of a table without repeats is counted at most once. */
  lemma {:induction false} KeywordHitsDistinct(flags: seq<string>, lowerTitle: string, lowerDesc: string)
    requires Distinct(flags)
    ensures Distinct(KeywordHits(flags, lowerTitle, lowerDesc))
  {
    if flags != [] {
      var init := flags[..|flags| - 1];
      var last := flags[|flags| - 1];
      KeywordHitsDistinct(init, lowerTitle, lowerDesc);
      KeywordHitsExact(init, lowerTitle, lowerDesc);
      assert last !in init;
    }
  }

  /** Keyword flags differ exactly when their keywords do. */
  lemma KeywordMessageInjective(a: string, b: string)
    requires KeywordMessage(a) == KeywordMessage(b)
    ensures a == b
  {
    var p := |"Contains suspicious keyword: \""|;
    assert a == KeywordMessage(a)[p..p + |a|];
    assert b == KeywordMessage(b)[p..p + |b|];
  }

  /** The keyword flags are the keyword messages of the hits, one for one and in order. */
  lemma {:induction false} KeywordFlags(hits: seq<string>)
    ensures |Messages(KeywordFindings(hits))| == |hits|
    ensures forall i :: 0 <= i < |hits| ==> Messages(KeywordFindings(hits))[i] == KeywordMessage(hits[i])
  {
    if hits != [] {
      var init := hits[..|hits| - 1];
      var last := hits[|hits| - 1];
      KeywordFlags(init);
      Push(KeywordFindings(init), Finding(KeywordPoints, KeywordMessage(last)));
      var m := Messages(KeywordFindings(hits));
      assert m == Messages(KeywordFindings(init)) + [KeywordMessage(last)];
      forall i | 0 <= i < |hits|
        ensures m[i] == KeywordMessage(hits[i])
      {
        if i < |init| {
          assert init[i] == hits[i];
        }
      }
    }
  }

  /** The flags the length, goal and capitals rules can raise. */
  predicate RuleFlag(x: string) {
    x == ShortMessage || x == ThinMessage || x == GoalMessage || x == CapsMessage
  }

  /** The flags of the length, goal and capitals rules, in rule order. */
  function RuleMessages(description: string, goal: real): seq<string> {
    (if |description| < ShortLimit then [ShortMessage] else if |description| < ThinLimit then [ThinMessage] else [])
      + (if goal > GoalLimit then [GoalMessage] else [])
      + (if IsShouting(description) then [CapsMessage] else [])
  }

  lemma RuleMessagesMatch(description: string, goal: real)
    ensures Messages(LengthFindings(|description|) + GoalFindings(goal) + CapsFindings(description))
            == RuleMessages(description, goal)
  {
    var l := LengthFindings(|description|);
    var g := GoalFindings(goal);
    var c := CapsFindings(description);
    if l != [] { Single(l[0]); }
    if g != [] { Single(g[0]); }
    if c != [] { Single(c[0]); }
    MessagesAppend(l + g, c);
    MessagesAppend(l, g);
  }

  /** Rule flags never repeat and never read like a keyword flag. */
  lemma RuleMessagesDistinct(description: string, goal: real)
    ensures Distinct(RuleMessages(description, goal))
    ensures forall x :: x in RuleMessages(description, goal) ==> RuleFlag(x)
  {
    var lm: seq<string> := if |description| < ShortLimit then [ShortMessage] else if |description| < ThinLimit then [ThinMessage] else [];
    var gm: seq<string> := if goal > GoalLimit then [GoalMessage] else [];
    var cm: seq<string> := if IsShouting(description) then [CapsMessage] else [];
    var m := lm + gm + cm;
    forall i, j | 0 <= i < j < |m|
      ensures m[i] != m[j]
    {
      if i < |lm| {
        assert m[i] == lm[0];
        if j < |lm| + |gm| { assert m[j] == gm[0]; } else { assert m[j] == cm[0]; }
      } else {
        assert m[i] == gm[0] && m[j] == cm[0];
      }
    }
  }

  lemma RuleFlagNotKeywordFlag(x: string, k: string)
    requires RuleFlag(x)
    ensures x != KeywordMessage(k)
  {
    assert KeywordMessage(k)[0] == 'C';
    assert ShortMessage[0] == 'D';
    assert ThinMessage[0] == 'D';
    assert GoalMessage[0] == 'E';
    assert CapsMessage[0] == 'E';
  }

  /** The red-flag table lists no keyword twice. */
  lemma RedFlagsDistinct()
    ensures Distinct(RedFlags)
  {
  }

  /** Distinct hits give distinct keyword flags. */
  lemma KeywordFlagsDistinct(hits: seq<string>)
    requires Distinct(hits)
    ensures Distinct(Messages(KeywordFindings(hits)))
  {
    KeywordFlags(hits);
    var km := Messages(KeywordFindings(hits));
    forall i, j | 0 <= i < j < |km|
      ensures km[i] != km[j]
    {
      if km[i] == km[j] {
        KeywordMessageInjective(hits[i], hits[j]);
      }
    }
  }

  /** No keyword flag equals a flag of the other rules. */
  lemma KeywordFlagsApart(hits: seq<string>, rm: seq<string>)
    requires forall x :: x in rm ==> RuleFlag(x)
    ensures forall i, j :: 0 <= i < |Messages(KeywordFindings(hits))| && 0 <= j < |rm| ==>
              Messages(KeywordFindings(hits))[i] != rm[j]
  {
    KeywordFlags(hits);
    var km := Messages(KeywordFindings(hits));
    forall i, j | 0 <= i < |km| && 0 <= j < |rm|
      ensures km[i] != rm[j]
    {
      assert rm[j] in rm;
      RuleFlagNotKeywordFlag(rm[j], hits[i]);
    }
  }

  lemma DistinctConcat(a: seq<string>, b: seq<string>)
    requires Distinct(a) && Distinct(b)
    requires forall i, j :: 0 <= i < |a| && 0 <= j < |b| ==> a[i] != b[j]
    ensures Distinct(a + b)
  {
    var ab := a + b;
    forall i, j | 0 <= i < j < |ab|
      ensures ab[i] != ab[j]
    {
      if j < |a| {
        assert ab[i] == a[i] && ab[j] == a[j];
      } else if i < |a| {
        assert ab[i] == a[i] && ab[j] == b[j - |a|];
      } else {
        assert ab[i] == b[i - |a|] && ab[j] == b[j - |a|];
      }
    }
  }

  /** A report never lists the same flag twice, so each table keyword is flagged at most once. */
  lemma ReportFlagsDistinct(title: string, description: string, goal: real)
    ensures Distinct(Report(title, description, goal).flags)
  {
    var hits := KeywordHits(RedFlags, Lower(title), Lower(description));
    RedFlagsDistinct();
    KeywordHitsDistinct(RedFlags, Lower(title), Lower(description));
    var k := KeywordFindings(hits);
    var rest := LengthFindings(|description|) + GoalFindings(goal) + CapsFindings(description);
    assert Findings(title, description, goal) == k + rest;
    MessagesAppend(k, rest);
    RuleMessagesMatch(description, goal);
    RuleMessagesDistinct(description, goal);
    KeywordFlagsDistinct(hits);
    KeywordFlagsApart(hits, RuleMessages(description, goal));
    DistinctConcat(Messages(k), RuleMessages(description, goal));
  }

  /** Each keyword that fires adds exactly 20 points. */
  lemma {:induction false} KeywordScore(hits: seq<string>)
    ensures |KeywordFindings(hits)| == |hits|
    ensures SumPoints(KeywordFindings(hits)) == KeywordPoints * |hits|
  {
    if hits != [] {
      KeywordScore(hits[..|hits| - 1]);
    }
  }

  /**
   * The raw score, defined as the points of the findings pushed, is the
   * additive formula: 20 per red-flag keyword found, the length rule, 15 for a
   * goal over 1,000,000 and 25 for a shouting description.
   */
  lemma RawScoreDecomposition(title: string, description: string, goal: real)
    ensures RawScore(title, description, goal)
         == KeywordPoints * |KeywordHits(RedFlags, Lower(title), Lower(description))|
          + (if |description| < ShortLimit then ShortPoints else if |description| < ThinLimit then ThinPoints else 0)
          + (if goal > GoalLimit then GoalPoints else 0)
          + (if IsShouting(description) then CapsPoints else 0)
  {
    RuleGroups(title, description, goal);
    KeywordScore(KeywordHits(RedFlags, Lower(title), Lower(description)));
  }

  lemma Single(f: Finding)
    ensures SumPoints([f]) == f.points
    ensures Messages([f]) == [f.message]
  {
    assert [f][..0] == [];
  }

  /** The findings split into the four rule groups, each contributing its own points and flags. */
  lemma RuleGroups(title: string, description: string, goal: real)
    ensures var k := KeywordFindings(KeywordHits(RedFlags, Lower(title), Lower(description)));
            var l := LengthFindings(|description|);
            var g := GoalFindings(goal);
            var c := CapsFindings(description);
            && RawScore(title, description, goal) == SumPoints(k) + SumPoints(l) + SumPoints(g) + SumPoints(c)
            && Messages(Findings(title, description, goal)) == Messages(k) + Messages(l) + Messages(g) + Messages(c)
            && SumPoints(l) == (if |description| < ShortLimit then ShortPoints else if |description| < ThinLimit then ThinPoints else 0)
            && Messages(l) == (if |description| < ShortLimit then [ShortMessage] else if |description| < ThinLimit then [ThinMessage] else [])
            && SumPoints(g) == (if goal > GoalLimit then GoalPoints else 0)
            && Messages(g) == (if goal > GoalLimit then [GoalMessage] else [])
            && SumPoints(c) == (if IsShouting(description) then CapsPoints else 0)
            && Messages(c) == (if IsShouting(description) then [CapsMessage] else [])
  {
    var k := KeywordFindings(KeywordHits(RedFlags, Lower(title), Lower(description)));
    var l := LengthFindings(|description|);
    var g := GoalFindings(goal);
    var c := CapsFindings(description);
    SumPointsAppend(k, l);
    SumPointsAppend(k + l, g);
    SumPointsAppend(k + l + g, c);
    MessagesAppend(k, l);
    MessagesAppend(k + l, g);
    MessagesAppend(k + l + g, c);
    Single(Finding(ShortPoints, ShortMessage));
    Single(Finding(ThinPoints, ThinMessage));
    Single(Finding(GoalPoints, GoalMessage));
    Single(Finding(CapsPoints, CapsMessage));
  }

  /** Exactly one length branch applies: under 50 adds 30, 50 to 99 adds 10, 100 or more adds nothing. */
  lemma LengthRule(length: nat)
    ensures length < ShortLimit ==> SumPoints(LengthFindings(length)) == 30
    ensures ShortLimit <= length < ThinLimit ==> SumPoints(LengthFindings(length)) == 10
    ensures ThinLimit <= length ==> SumPoints(LengthFindings(length)) == 0
    ensures |LengthFindings(length)| == if length < ThinLimit then 1 else 0
  {
    assert SumPoints([Finding(ShortPoints, ShortMessage)]) == ShortPoints;
    assert SumPoints([Finding(ThinPoints, ThinMessage)]) == ThinPoints;
  }

  /** A goal over 1,000,000 adds exactly 15 to the raw score, all else equal. */
  lemma GoalRule(title: string, description: string, big: real, modest: real)
    requires big > GoalLimit >= modest
    ensures RawScore(title, description, big) == RawScore(title, description, modest) + GoalPoints
  {
    RawScoreDecomposition(title, description, big);
    RawScoreDecomposition(title, description, modest);
  }

  lemma RawScoreNonNegative(title: string, description: string, goal: real)
    ensures RawScore(title, description, goal) >= 0
  {
    RawScoreDecomposition(title, description, goal);
  }

  /** The raw score never exceeds 20 per table keyword plus the other three rules at their largest. */
  lemma RawScoreBound(title: string, description: string, goal: real)
    ensures RawScore(title, description, goal) <= KeywordPoints * |RedFlags| + ShortPoints + GoalPoints + CapsPoints
  {
    RawScoreDecomposition(title, description, goal);
    KeywordHitsExact(RedFlags, Lower(title), Lower(description));
  }

  /** A higher score never yields a lower level. */
  lemma LevelMonotone(a: int, b: int)
    requires a <= b
    ensures Rank(LevelOf(a)) <= Rank(LevelOf(b))
  {
  }

  /** Clamping to 100 does not change the level. */
  lemma LevelOfClamped(raw: int)
    ensures LevelOf(Min(raw, 100)) == LevelOf(raw)
  {
  }

  /** The summary is determined by the level, and distinct levels get distinct summaries. */
  lemma SummaryDeterminesLevel(a: Level, b: Level)
    requires SummaryOf(a) == SummaryOf(b)
    ensures a == b
  {
  }

  /** A description shorter than 50 characters is never rated LOW. */
  lemma ShortDescriptionNeverLow(title: string, description: string, goal: real)
    requires |description| < ShortLimit
    ensures Report(title, description, goal).level != Low
  {
    RawScoreDecomposition(title, description, goal);
  }

  /** A short all-caps description is at least HIGH risk on its own. */
  lemma ShoutingShortDescriptionHigh(title: string, description: string, goal: real)
    requires IsShouting(description) && |description| < ShortLimit
    ensures Rank(Report(title, description, goal).level) >= Rank(High)
  {
    RawScoreDecomposition(title, description, goal);
  }
}
