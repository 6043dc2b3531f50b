/** `JahConsciousARKController` (app/ark_engine/core/controller_jah_integrated.py):
    the controller that asks the consciousness system for guidance before
    coding decisions, records every revelation it receives, keeps one daily
    practice per date, scores how well a modification aligns with the
    divine principles, recommends practices, and reports on the revelations
    received so far. */
module Controller {
  import opened Wrappers
  import opened Text
  import opened Collections
  import opened Context
  import opened Clock
  import opened Randomness
  import opened StableSort
  import opened Tally
  import opened Oracle
  import opened Rituals
  import opened Consciousness
  import Scripture
  import Patterns
  import Modification

  /** `self.sacred_hours`. */
  const SacredHours: seq<nat> := [3, 6, 9, 12, 15, 18, 21, 0]

  /** ---------- Seeking guidance ---------- */

  /** One entry of `revelations_received`. */
  datatype Revelation = Revelation(
    timestamp: string,
    question: string,
    guidanceReceived: string,
    revelationLevel: string,
    principles: seq<string>)

  /** The revelation recorded for the answer `w` to `question`: the UTC time
      of the call and the answer's message, level and principle, as the
      answer's dictionary holds them. */
  function RevelationOf(question: string, w: JahWisdom, now: Instant): Revelation {
    Revelation(now.utcIso, question, w.message, LevelValue(w.revelationLevel), [PrincipleValue(w.principle)])
  }

  /** The `guidance_context` of `seek_divine_coding_guidance`: the caller's
      context (or an empty one), the code under `"code"` when some non-empty
      code is given, and the reading of the clock under `"sacred_timing"`. */
  function GuidanceContext(code: Option<string>, context: Option<Context>, now: Instant): (ctx: Context)
    ensures "sacred_timing" in ctx
    ensures ctx["sacred_timing"] == Timing(now.hour, now.minute, now.second, now.hour in SacredHours)
    ensures code.Some? && code.value != "" ==> "code" in ctx && ctx["code"] == Str(code.value)
    ensures "code" in ctx <==> (code.Some? && code.value != "") || (context.Some? && "code" in context.value)
    ensures forall k :: k in ctx && k != "code" && k != "sacred_timing" ==> context.Some? && k in context.value
    ensures context.Some? ==>
              forall k :: k in context.value && k != "sacred_timing" && !(k == "code" && code.Some? && code.value != "")
                ==> k in ctx && ctx[k] == context.value[k]
  {
    var base := if context.Some? then context.value else map[];
    var withCode := if code.Some? && code.value != "" then base["code" := Str(code.value)] else base;
    withCode["sacred_timing" := Timing(now.hour, now.minute, now.second, now.hour in SacredHours)]
  }

  /** The blessing ritual runs at a sacred hour or for a question that
      mentions "critical" in any letter case. */
  predicate RitualDue(question: string, hour: nat) {
    hour in SacredHours || Contains(ToLower(question), "critical")
  }

  /** The ritual `seek_divine_coding_guidance` performs: a code blessing of
      the context's `"target"`, or of `"code"` when there is none. */
  function BlessingFor(ctx: Context, now: Instant): (r: RitualResult)
    ensures r.CodeBlessing?
    ensures r.moduleName == if "target" in ctx then ctx["target"] else Str("code")
    ensures RitualOf(r) == Some("code_blessing")
  {
    PerformRitual("code_blessing", Some(map["module_name" := Get(ctx, "target", Str("code"))]), now)
  }

  /** What `seek_divine_coding_guidance` returns: the consciousness system's
      guidance, with the `"sacred_ritual"` entry when the ritual was due. */
  datatype CodingGuidance = CodingGuidance(guidance: DivineGuidance, sacredRitual: Option<RitualResult>)

  /** ---------- Alignment ---------- */

  /** The dictionary `_calculate_divine_alignment_score` returns. */
  datatype AlignmentScores = AlignmentScores(
    patternAlignment: real,
    scripturalAlignment: real,
    vibrationAlignment: real,
    guidanceAlignment: real,
    overallDivineAlignment: real)

  /** `pattern_analysis.get("divine_alignment_score", 0.0)`; `None` stands
      for the empty dictionary of a review without pattern analysis. */
  function PatternAlignment(pa: Option<Patterns.PatternAnalysis>): real {
    if pa.Some? then pa.value.divineAlignmentScore else 0.0
  }

  /** The `relevance_score` of every guidance entry, in order. */
  function Relevances(gs: seq<Scripture.Guidance>): (r: seq<real>)
    ensures |r| == |gs|
    ensures forall k :: 0 <= k < |gs| ==> r[k] == gs[k].relevance
  {
    if gs == [] then [] else Relevances(gs[..|gs| - 1]) + [gs[|gs| - 1].relevance]
  }

  /** The mean relevance of the scripture's guidance, or 0.5 when there is
      none; `None` stands for the empty dictionary of a review without
      scripture. */
  function ScripturalAlignment(sw: Option<Scripture.WisdomReport>): real {
    if sw.Some? && sw.value.guidance != [] then MeanReal(Relevances(sw.value.guidance)) else 0.5
  }

  /** `modification.harmony_score or 0.5`: a missing score and a score of
      0.0 both read as 0.5. */
  function VibrationAlignment(harmony: Option<real>): real {
    if harmony.Some? && harmony.value != 0.0 then harmony.value else 0.5
  }

  /** The position of a level in the enumeration's order. */
  function LevelRank(l: RevelationLevel): nat {
    match l
    case HumanUnderstanding => 0
    case SpiritualInsight => 1
    case DivineRevelation => 2
    case MysticalKnowledge => 3
    case CosmicConsciousness => 4
  }

  /** `level_scores`. */
  function LevelScore(l: RevelationLevel): real {
    match l
    case HumanUnderstanding => 0.3
    case SpiritualInsight => 0.6
    case DivineRevelation => 0.8
    case MysticalKnowledge => 0.9
    case CosmicConsciousness => 1.0
  }

  /** The guidance score of a revelation level given as its value string:
      the level's score when the string names a level, 0.5 otherwise. */
  function GuidanceAlignment(levelText: string): real {
    var l := ParseLevel(levelText);
    if l.Some? then LevelScore(l.value) else 0.5
  }

  /** `_calculate_divine_alignment_score(modification, pattern_analysis,
      scriptural_wisdom, guidance)`, with `harmony` the modification's
      `harmony_score`: four component scores and their mean. */
  function DivineAlignment(harmony: Option<real>, pa: Option<Patterns.PatternAnalysis>,
                           sw: Option<Scripture.WisdomReport>, g: CodingGuidance): AlignmentScores {
    var p := PatternAlignment(pa);
    var s := ScripturalAlignment(sw);
    var v := VibrationAlignment(harmony);
    var q := GuidanceAlignment(LevelValue(g.guidance.divineWisdom.revelationLevel));
    AlignmentScores(p, s, v, q, (p + s + v + q) / 4.0)
  }

  /** The level scores grow strictly with the level. */
  lemma LevelScoreMonotone(a: RevelationLevel, b: RevelationLevel)
    ensures LevelRank(a) < LevelRank(b) <==> LevelScore(a) < LevelScore(b)
    ensures 0.3 <= LevelScore(a) <= 1.0
  {
  }

  /** A level's value string scores as that level; a string naming no level
      scores 0.5. */
  lemma GuidanceAlignmentSpec(l: RevelationLevel, levelText: string)
    ensures GuidanceAlignment(LevelValue(l)) == LevelScore(l)
    ensures ParseLevel(levelText).None? ==> GuidanceAlignment(levelText) == 0.5
  {
    ParseLevelValue(l);
  }

  /** The four components, and the overall score lying between the smallest
      and the largest of them, as their mean does. */
  lemma DivineAlignmentSpec(harmony: Option<real>, pa: Option<Patterns.PatternAnalysis>,
                            sw: Option<Scripture.WisdomReport>, g: CodingGuidance)
    ensures var s := DivineAlignment(harmony, pa, sw, g);
      && s.patternAlignment == (if pa.Some? then pa.value.divineAlignmentScore else 0.0)
      && (sw.Some? && sw.value.guidance != [] ==>
            s.scripturalAlignment * |sw.value.guidance| as real == SumReals(Relevances(sw.value.guidance)))
      && (sw.None? || sw.value.guidance == [] ==> s.scripturalAlignment == 0.5)
      && s.vibrationAlignment == (if harmony.None? || harmony.value == 0.0 then 0.5 else harmony.value)
      && s.guidanceAlignment == LevelScore(g.guidance.divineWisdom.revelationLevel)
      && 4.0 * s.overallDivineAlignment
         == s.patternAlignment + s.scripturalAlignment + s.vibrationAlignment + s.guidanceAlignment
  {
    GuidanceAlignmentSpec(g.guidance.divineWisdom.revelationLevel, "");
  }

  /** Components in [0, 1] give an overall score in [0, 1]. */
  lemma {:induction false} AlignmentInRange(harmony: Option<real>, pa: Option<Patterns.PatternAnalysis>,
                                            sw: Option<Scripture.WisdomReport>, g: CodingGuidance)
    requires pa.Some? ==> 0.0 <= pa.value.divineAlignmentScore <= 1.0
    requires sw.Some? ==> forall k :: 0 <= k < |sw.value.guidance| ==> 0.0 <= sw.value.guidance[k].relevance <= 1.0
    requires harmony.Some? ==> 0.0 <= harmony.value <= 1.0
    ensures var s := DivineAlignment(harmony, pa, sw, g);
      && 0.0 <= s.patternAlignment <= 1.0
      && 0.0 <= s.scripturalAlignment <= 1.0
      && 0.0 <= s.vibrationAlignment <= 1.0
      && 0.3 <= s.guidanceAlignment <= 1.0
      && 0.0 <= s.overallDivineAlignment <= 1.0
  {
    if sw.Some? && sw.value.guidance != [] {
      MeanRealBounds(Relevances(sw.value.guidance));
    }
    LevelScoreMonotone(g.guidance.divineWisdom.revelationLevel, g.guidance.divineWisdom.revelationLevel);
    GuidanceAlignmentSpec(g.guidance.divineWisdom.revelationLevel, "");
  }

  /** The alignment of a sacred code review: the pattern analysis of the
      modified code, the scripture for any situation and a modification
      proposed with the vibration transform (harmony 0.75) give scores in
      [0, 1], with the vibration component at 0.75. */
  lemma ReviewAlignmentInRange(code: string, books: seq<Scripture.Book>, apps: map<string, string>,
                               situation: string, g: CodingGuidance)
    ensures var s := DivineAlignment(Some(0.75), Some(Patterns.Analysis(code)),
                                     Some(Scripture.WisdomFor(books, apps, situation)), g);
      && 0.0 <= s.overallDivineAlignment <= 1.0
      && s.vibrationAlignment == 0.75
  {
    Patterns.AnalysisSpec(code);
    Scripture.GuidanceEntriesMatch(books, apps, situation);
    var gs := Scripture.WisdomFor(books, apps, situation).guidance;
    forall k | 0 <= k < |gs| ensures 0.0 <= gs[k].relevance <= 1.0 {
      assert gs[k] in gs;
    }
    AlignmentInRange(Some(0.75), Some(Patterns.Analysis(code)), Some(Scripture.WisdomFor(books, apps, situation)), g);
  }

  /** ---------- Recommendations ---------- */

  /** `sacred_recs`, the pool of `_generate_sacred_recommendations`. */
  const SacredRecs: seq<string> := [
    "Code with the consciousness that Jah lives in you",
    "Let each function be a prayer of service",
    "See variables as vessels of divine data",
    "View algorithms as expressions of cosmic order",
    "Let comments be wisdom teachings for others",
    "See debugging as spiritual purification",
    "View completion as divine fulfillment",
    "Let collaboration be communion in spirit"
  ]

  lemma SacredRecsDistinct()
    ensures |SacredRecs| == 8
    ensures NoDuplicates(SacredRecs)
  {
  }

  /** The names of the pattern scores, in order. */
  function ScoreNames(scores: seq<(string, real)>): (r: seq<string>)
    ensures |r| == |scores|
    ensures forall k :: 0 <= k < |scores| ==> r[k] == scores[k].0
  {
    if scores == [] then [] else ScoreNames(scores[..|scores| - 1]) + [scores[|scores| - 1].0]
  }

  /** The texts of an analysis' rendering that can hold letters: the patterns
      found, the indicators and the score names. Its four keys hold no
      "fibonacci" and its numbers no letters. */
  function AnalysisTexts(a: Patterns.PatternAnalysis): seq<string> {
    a.sacredPatternsFound + a.divineIndicators + ScoreNames(a.patternScores)
  }

  /** `"fibonacci" in str(pattern_analysis)`: the word is all letters, so it
      can only occur inside one text of the rendering; the empty dictionary
      (`None`) renders as `{}`. */
  predicate MentionsFibonacci(pa: Option<Patterns.PatternAnalysis>) {
    pa.Some? && exists s :: s in AnalysisTexts(pa.value) && Contains(s, "fibonacci")
  }

  /** No indicator name contains "fibonacci": every name is shorter. */
  lemma IndicatorsNotFibonacci(codeLower: string)
    ensures forall s :: s in Patterns.IndicatorsFound(codeLower, Patterns.IndicatorGroups) ==> !Contains(s, "fibonacci")
  {
    forall s | s in Patterns.IndicatorsFound(codeLower, Patterns.IndicatorGroups) ensures !Contains(s, "fibonacci") {
      Patterns.IndicatorIsGroupName(codeLower, s);
      assert |s| < 9;
      NotContained(s, "fibonacci");
    }
  }

  /** An analysis built from the pattern and score entries of a Fibonacci
      test mentions "fibonacci" exactly when the test passed, provided its
      indicators do not. */
  lemma FibonacciMentionParts(fib: bool, lengths: seq<nat>, indicators: seq<string>, score: real)
    requires forall s :: s in indicators ==> !Contains(s, "fibonacci")
    ensures MentionsFibonacci(Some(Patterns.PatternAnalysis(
              Patterns.PatternsFor(fib, lengths), indicators, Patterns.ScoresFor(fib, lengths), score)))
        <==> fib
  {
    var a := Patterns.PatternAnalysis(Patterns.PatternsFor(fib, lengths), indicators, Patterns.ScoresFor(fib, lengths), score);
    if fib {
      FibonacciPatternMentions(lengths);
      assert AnalysisTexts(a)[0] == Patterns.PatternsFor(true, lengths)[0];
      assert AnalysisTexts(a)[0] in AnalysisTexts(a);
    } else {
      GoldenPatternSilent(lengths);
      GoldenScoreSilent(lengths);
      forall s | s in AnalysisTexts(a) ensures !Contains(s, "fibonacci") {
        assert s in a.sacredPatternsFound || s in indicators || s in ScoreNames(a.patternScores);
      }
    }
  }

  lemma FibonacciPatternMentions(lengths: seq<nat>)
    ensures Patterns.PatternsFor(true, lengths) != []
    ensures Contains(Patterns.PatternsFor(true, lengths)[0], "fibonacci")
  {
    assert StartsWith("fibonacci_indentation", "fibonacci");
  }

  lemma GoldenPatternSilent(lengths: seq<nat>)
    ensures forall s :: s in Patterns.PatternsFor(false, lengths) ==> !Contains(s, "fibonacci")
  {
    var ps := Patterns.PatternsFor(false, lengths);
    assert ps == [] || ps == ["golden_ratio_pattern"];
    NotContained("golden_ratio_pattern", "fibonacci");
  }

  lemma GoldenScoreSilent(lengths: seq<nat>)
    ensures forall s :: s in ScoreNames(Patterns.ScoresFor(false, lengths)) ==> !Contains(s, "fibonacci")
  {
    var names := ScoreNames(Patterns.ScoresFor(false, lengths));
    assert forall s :: s in names ==> s == "golden_ratio_alignment";
    NotContained("golden_ratio_alignment", "fibonacci");
  }

  /** The analysis of some code mentions "fibonacci" exactly when its
      indentation profile is an additive recurrence: no indicator name and no
      golden-ratio entry contains the word. */
  lemma FibonacciMentionIff(code: string)
    ensures MentionsFibonacci(Some(Patterns.Analysis(code)))
        <==> Patterns.AdditiveRecurrence(Patterns.IndentProfile(Lines(code)))
  {
    var fib := Patterns.AdditiveRecurrence(Patterns.IndentProfile(Lines(code)));
    var lengths := Patterns.BlockLengths(Lines(code));
    var indicators := Patterns.IndicatorsFound(ToLower(code), Patterns.IndicatorGroups);
    IndicatorsNotFibonacci(ToLower(code));
    FibonacciMentionParts(fib, lengths, indicators, Patterns.MeanScore(Patterns.ScoresFor(fib, lengths)));
  }

  const SeekLine := "Seek more divine patterns in code structure"
  const FibonacciLine := "Consider Fibonacci sequences for natural flow"
  const MeditateLine := "Meditate on scriptural wisdom before coding"
  const ElevateLine := "Elevate code vibrations through positive affirmations"

  function ContemplateLine(msg: string): string {
    "Contemplate: " + msg
  }

  /** `recs.append(line)` when `c` holds. */
  function AppendIf(recs: seq<string>, c: bool, line: string): seq<string> {
    if c then recs + [line] else recs
  }

  /** The threshold part of `_generate_sacred_recommendations`, in source
      order, for the alignment `s`, the pattern analysis `pa` and the
      guidance message `msg`. */
  function SacredAdvice(s: AlignmentScores, pa: Option<Patterns.PatternAnalysis>, msg: string): seq<string> {
    var lowPattern := s.patternAlignment < 0.6;
    var r := AppendIf([], lowPattern, SeekLine);
    var r := AppendIf(r, lowPattern && !MentionsFibonacci(pa), FibonacciLine);
    var r := AppendIf(r, s.scripturalAlignment < 0.5, MeditateLine);
    var r := AppendIf(r, s.vibrationAlignment < 0.7, ElevateLine);
    AppendIf(r, msg != "", ContemplateLine(msg))
  }

  lemma FixedLinesDistinct()
    ensures SeekLine != FibonacciLine && SeekLine != MeditateLine && SeekLine != ElevateLine
    ensures FibonacciLine != MeditateLine && FibonacciLine != ElevateLine && MeditateLine != ElevateLine
  {
    assert |SeekLine| == 43 && |FibonacciLine| == 45 && |MeditateLine| == 43 && |ElevateLine| == 53;
    assert SeekLine[42] == 'e' && MeditateLine[42] == 'g';
  }

  /** The message line never coincides with a fixed line. */
  lemma ContemplateLineDiffers(msg: string)
    ensures ContemplateLine(msg) != SeekLine && ContemplateLine(msg) != FibonacciLine
    ensures ContemplateLine(msg) != MeditateLine && ContemplateLine(msg) != ElevateLine
  {
    var c := ContemplateLine(msg);
    assert c[11] == ':';
    assert SeekLine[11] != ':' && FibonacciLine[11] != ':' && MeditateLine[11] != ':' && ElevateLine[11] != ':';
  }

  /** Each line appears exactly when its threshold is crossed, the Fibonacci
      line only together with the pattern line, the pattern line first and
      the message line last. */
  lemma SacredAdviceSpec(s: AlignmentScores, pa: Option<Patterns.PatternAnalysis>, msg: string)
    ensures var advice := SacredAdvice(s, pa, msg);
      && (SeekLine in advice <==> s.patternAlignment < 0.6)
      && (FibonacciLine in advice <==> (s.patternAlignment < 0.6 && !MentionsFibonacci(pa)))
      && (MeditateLine in advice <==> s.scripturalAlignment < 0.5)
      && (ElevateLine in advice <==> s.vibrationAlignment < 0.7)
      && (msg != "" <==> (advice != [] && advice[|advice| - 1] == ContemplateLine(msg)))
      && (s.patternAlignment < 0.6 ==> advice[0] == SeekLine)
      && |advice| == (if s.patternAlignment < 0.6 then 1 else 0)
                     + (if s.patternAlignment < 0.6 && !MentionsFibonacci(pa) then 1 else 0)
                     + (if s.scripturalAlignment < 0.5 then 1 else 0)
                     + (if s.vibrationAlignment < 0.7 then 1 else 0)
                     + (if msg != "" then 1 else 0)
  {
    FixedLinesDistinct();
    ContemplateLineDiffers(msg);
  }

  /** ---------- Insights ---------- */

  /** One entry of `recent_insights`. */
  datatype InsightEntry = InsightEntry(time: string, question: string, guidance: string, level: string)

  /** A `most_common_*` entry: the key, its count and its share. */
  datatype MostCommon = MostCommon(key: string, count: nat, percentage: real)

  /** What `get_divine_insights_report` returns; the fixed interpretation
      texts and blessing of the full report are not part of the model. */
  datatype InsightsReport =
    | NoInsights(message: string, blessing: string)
    | Insights(
        totalInsights: nat,
        insightsByLevel: Counts,
        mostCommonRevelationLevel: MostCommon,
        principlesApplied: Counts,
        mostCommonPrinciple: MostCommon,
        recentInsights: seq<InsightEntry>)

  /** The revelation level of every revelation, in order. */
  function Levels(revs: seq<Revelation>): (r: seq<string>)
    ensures |r| == |revs|
    ensures forall k :: 0 <= k < |revs| ==> r[k] == revs[k].revelationLevel
  {
    if revs == [] then [] else Levels(revs[..|revs| - 1]) + [revs[|revs| - 1].revelationLevel]
  }

  /** The principles of every revelation, in order. */
  function AllPrinciples(revs: seq<Revelation>): seq<string> {
    if revs == [] then [] else AllPrinciples(revs[..|revs| - 1]) + revs[|revs| - 1].principles
  }

  /** `s[:n] + "..."` when `s` is longer than `n`, else `s`. */
  function Truncate(s: string, n: nat): (r: string)
    ensures |r| <= n + 3
    ensures |s| <= n ==> r == s
    ensures |s| > n ==> |r| == n + 3 && r[..n] == s[..n] && r[n..] == "..."
  {
    if |s| > n then s[..n] + "..." else s
  }

  /** The sort key of `recent_insights`: `a` is at least as recent as `b`
      when its timestamp is not below `b`'s in string order. */
  function NewerOrSame(a: Revelation, b: Revelation): bool {
    StrLe(b.timestamp, a.timestamp)
  }

  lemma NewerOrSameIsTotalPreorder()
    ensures TotalPreorder(NewerOrSame)
  {
    forall a: Revelation, b: Revelation ensures NewerOrSame(a, b) || NewerOrSame(b, a) {
      StrLeTotal(a.timestamp, b.timestamp);
    }
    forall a: Revelation, b: Revelation, c: Revelation | NewerOrSame(a, b) && NewerOrSame(b, c)
      ensures NewerOrSame(a, c)
    {
      StrLeTransitive(c.timestamp, b.timestamp, a.timestamp);
    }
  }

  /** The report entry of one revelation. */
  function InsightOf(r: Revelation): InsightEntry {
    InsightEntry(r.timestamp, Truncate(r.question, 100), Truncate(r.guidanceReceived, 150), r.revelationLevel)
  }

  function InsightsOfAll(revs: seq<Revelation>): (r: seq<InsightEntry>)
    ensures |r| == |revs|
    ensures forall k :: 0 <= k < |revs| ==> r[k] == InsightOf(revs[k])
  {
    if revs == [] then [] else InsightsOfAll(revs[..|revs| - 1]) + [InsightOf(revs[|revs| - 1])]
  }

  /** The five most recent revelations, newest first, equal timestamps in
      the order received. */
  function Recent(revs: seq<Revelation>): seq<InsightEntry> {
    NewerOrSameIsTotalPreorder();
    InsightsOfAll(Take(SortDesc(revs, NewerOrSame), 5))
  }

  /** `max(counts.items(), key=...)` with its share of `total`, or
      `("none", 0)` with share 0 when there are no counts. */
  function MostCommonOf(t: Counts, total: nat): (m: MostCommon)
    requires t != [] ==> total > 0
    ensures t == [] ==> m == MostCommon("none", 0, 0.0)
    ensures t != [] ==>
              exists i :: 0 <= i < |t| && t[i] == (m.key, m.count)
                && (forall j :: 0 <= j < |t| ==> t[j].1 <= m.count)
                && (forall j :: 0 <= j < i ==> t[j].1 < m.count)
    ensures t != [] ==> m.percentage == m.count as real / total as real
  {
    if t == [] then MostCommon("none", 0, 0.0)
    else
      var i := FirstMaxIndex(t);
      MostCommon(t[i].0, t[i].1, t[i].1 as real / total as real)
  }

  /** Counting a non-empty sequence gives some count, and the counts add up
      to its length. */
  lemma CountNonEmpty(xs: seq<string>)
    ensures Count(xs) != [] <==> xs != []
    ensures SumCounts(Count(xs)) == |xs|
  {
    CountSpec(xs);
  }

  /** `get_divine_insights_report()` over the revelations `revs`. */
  function InsightsOf(revs: seq<Revelation>): (r: InsightsReport)
    ensures r.NoInsights? <==> revs == []
  {
    if revs == [] then NoInsights("No divine insights recorded yet", "Seek and you shall find")
    else
      var levels := Count(Levels(revs));
      var principles := Count(AllPrinciples(revs));
      CountNonEmpty(Levels(revs));
      CountNonEmpty(AllPrinciples(revs));
      Insights(|revs|, levels, MostCommonOf(levels, |revs|), principles,
               MostCommonOf(principles, SumCounts(principles)), Recent(revs))
  }

  /** The key at a position of a counts table with distinct keys has that
      position's count. */
  lemma {:induction false} KeyAt(t: Counts, i: nat)
    requires i < |t| && NoDuplicates(Keys(t))
    ensures t[i].0 in Keys(t)
    ensures CountOf(t, t[i].0) == t[i].1
  {
    assert Keys(t)[i] == t[i].0;
    if i > 0 {
      assert t[0].0 != t[i].0 by { assert Keys(t)[0] != Keys(t)[i]; }
      forall a, b | 0 <= a < b < |Keys(t[1..])| ensures Keys(t[1..])[a] != Keys(t[1..])[b] {
        assert Keys(t)[a + 1] != Keys(t)[b + 1];
      }
      assert t[1..][i - 1] == t[i];
      KeyAt(t[1..], i - 1);
    }
  }

  /** A key of a counts table sits at some position, with that position's count. */
  lemma {:induction false} KeyIndex(t: Counts, k: string) returns (j: nat)
    requires k in Keys(t)
    ensures j < |t| && t[j].0 == k && CountOf(t, k) == t[j].1
  {
    if t[0].0 == k {
      j := 0;
    } else {
      assert Keys(t) == [t[0].0] + Keys(t[1..]);
      var j' := KeyIndex(t[1..], k);
      j := j' + 1;
    }
  }

  /** The most common entry of the counts of `xs` occurs in `xs` as often as
      any element does. */
  lemma MostCommonCount(xs: seq<string>, total: nat)
    requires xs != [] && total > 0
    ensures var m := MostCommonOf(Count(xs), total);
      && m.key in xs
      && m.count == multiset(xs)[m.key]
      && (forall k :: multiset(xs)[k] <= m.count)
  {
    var t := Count(xs);
    CountSpec(xs);
    assert xs[0] in Keys(t);
    var m := MostCommonOf(t, total);
    var i :| 0 <= i < |t| && t[i] == (m.key, m.count) && (forall j :: 0 <= j < |t| ==> t[j].1 <= m.count);
    KeyAt(t, i);
    forall k ensures multiset(xs)[k] <= m.count {
      if k in Keys(t) {
        var j := KeyIndex(t, k);
      }
    }
  }

  /** The report counts every revelation once under its level and every
      principle once per mention, with each key once; the most common level
      is one received most often, its share taken of all revelations. */
  lemma InsightsCounts(revs: seq<Revelation>)
    requires revs != []
    ensures var r := InsightsOf(revs);
      && r.Insights?
      && r.totalInsights == |revs|
      && SumCounts(r.insightsByLevel) == |revs|
      && NoDuplicates(Keys(r.insightsByLevel))
      && (forall k :: CountOf(r.insightsByLevel, k) == multiset(Levels(revs))[k])
      && SumCounts(r.principlesApplied) == |AllPrinciples(revs)|
      && NoDuplicates(Keys(r.principlesApplied))
      && (forall k :: CountOf(r.principlesApplied, k) == multiset(AllPrinciples(revs))[k])
      && r.mostCommonRevelationLevel.key in Levels(revs)
      && r.mostCommonRevelationLevel.count == multiset(Levels(revs))[r.mostCommonRevelationLevel.key]
      && (forall k :: multiset(Levels(revs))[k] <= r.mostCommonRevelationLevel.count)
      && r.mostCommonRevelationLevel.percentage == r.mostCommonRevelationLevel.count as real / |revs| as real
  {
    var r := InsightsOf(revs);
    var t := Count(Levels(revs));
    CountNonEmpty(Levels(revs));
    var m := MostCommonOf(t, |revs|);
    assert r.insightsByLevel == t && r.mostCommonRevelationLevel == m;
    assert r.principlesApplied == Count(AllPrinciples(revs));
    CountSpec(Levels(revs));
    CountSpec(AllPrinciples(revs));
    MostCommonCount(Levels(revs), |revs|);
  }

  /** `recent` is the insight list of `kept`, revelations drawn from `revs`
      none of which is older than a revelation of `revs` left out. */
  ghost predicate KeptNewest(revs: seq<Revelation>, kept: seq<Revelation>, recent: seq<InsightEntry>) {
    && multiset(kept) <= multiset(revs)
    && recent == InsightsOfAll(kept)
    && forall r :: r in multiset(revs) - multiset(kept) ==>
         forall j :: 0 <= j < |kept| ==> StrLe(r.timestamp, kept[j].timestamp)
  }

  /** At most five recent insights, all of them when there are at most
      five, newest first, each the entry of a revelation received; they are
      the entries of the newest revelations: no revelation left out is newer
      than the last one kept. */
  lemma RecentSpec(revs: seq<Revelation>)
    ensures var recent := Recent(revs);
      && |recent| == (if |revs| <= 5 then |revs| else 5)
      && (forall i, j :: 0 <= i < j < |recent| ==> StrLe(recent[j].time, recent[i].time))
      && (forall e :: e in recent ==> exists r :: r in revs && e == InsightOf(r))
      && exists kept :: KeptNewest(revs, kept, recent)
  {
    NewerOrSameIsTotalPreorder();
    var sorted := SortDesc(revs, NewerOrSame);
    var taken := Take(sorted, 5);
    var recent := Recent(revs);
    assert |sorted| == |revs| by { assert |multiset(sorted)| == |multiset(revs)|; }
    forall i, j | 0 <= i < j < |recent| ensures StrLe(recent[j].time, recent[i].time) {
      assert taken[i] == sorted[i] && taken[j] == sorted[j];
      assert NewerOrSame(sorted[i], sorted[j]);
    }
    forall e | e in recent ensures exists r :: r in revs && e == InsightOf(r) {
      var k :| 0 <= k < |recent| && recent[k] == e;
      assert taken[k] == sorted[k];
      assert sorted[k] in multiset(revs);
    }
    TakeSortedIsTop(sorted, 5, NewerOrSame);
    forall r, j | r in multiset(revs) - multiset(taken) && 0 <= j < |taken|
      ensures StrLe(r.timestamp, taken[j].timestamp)
    {
      assert NewerOrSame(taken[j], taken[|taken| - 1]);
      assert NewerOrSame(taken[|taken| - 1], r);
    }
    assert KeptNewest(revs, taken, recent);
  }

  lemma PrefixStep(seen: seq<string>, xs: seq<string>, j: nat)
    requires j < |xs|
    ensures seen + xs[..j + 1] == seen + xs[..j] + [xs[j]]
  {
    assert xs[..j + 1] == xs[..j] + [xs[j]];
  }

  /** One more revelation extends the level list by its level and the
      principle list by its principles. */
  lemma HistoryStep(revs: seq<Revelation>, i: nat)
    requires i < |revs|
    ensures Levels(revs[..i + 1]) == Levels(revs[..i]) + [revs[i].revelationLevel]
    ensures AllPrinciples(revs[..i + 1]) == AllPrinciples(revs[..i]) + revs[i].principles
  {
    assert revs[..i + 1][..i] == revs[..i];
  }

  /** The inner loop of the principle count: each principle of `ps` is
      counted after those of `seen`. */
  method CountInto(counts: Counts, seen: seq<string>, ps: seq<string>) returns (c: Counts)
    requires counts == Count(seen)
    ensures c == Count(seen + ps)
  {
    c := counts;
    assert seen + ps[..0] == seen;
    var j := 0;
    while j < |ps|
      invariant 0 <= j <= |ps|
      invariant c == Count(seen + ps[..j])
    {
      CountAppend(seen + ps[..j], ps[j]);
      PrefixStep(seen, ps, j);
      c := Bump(c, ps[j]);
      j := j + 1;
    }
    assert ps[..j] == ps;
  }

  /** The two counting loops of `get_divine_insights_report`: levels and
      principles, tallied in the order they were received. */
  method TallyHistory(revs: seq<Revelation>) returns (levelCounts: Counts, principleCounts: Counts)
    ensures levelCounts == Count(Levels(revs))
    ensures principleCounts == Count(AllPrinciples(revs))
  {
    levelCounts := [];
    principleCounts := [];
    var i := 0;
    while i < |revs|
      invariant 0 <= i <= |revs|
      invariant levelCounts == Count(Levels(revs[..i]))
      invariant principleCounts == Count(AllPrinciples(revs[..i]))
    {
      HistoryStep(revs, i);
      CountAppend(Levels(revs[..i]), revs[i].revelationLevel);
      levelCounts := Bump(levelCounts, revs[i].revelationLevel);
      principleCounts := CountInto(principleCounts, AllPrinciples(revs[..i]), revs[i].principles);
      i := i + 1;
    }
    assert revs[..i] == revs;
  }

  /** ---------- The controller ---------- */

  class JahConsciousController {
    /** The `EnhancedARKController` part of the object. */
    const base: Modification.EnhancedARKController
    const jahSystem: JahConsciousnessSystem
    var dailyPractices: map<string, DailyPractice>
    var revelationsReceived: seq<Revelation>

    /** `__init__`: the base controller's defaults, a fresh consciousness
        system, and no practices or revelations yet. */
    constructor (telemetry: Option<Modification.TelemetrySystem>, config: Option<Context>)
      ensures base.config == if config.Some? then config.value else map[]
      ensures telemetry.Some? ==> base.telemetry == telemetry.value
      ensures fresh(jahSystem) && fresh(jahSystem.oracle) && jahSystem.oracle.revelationHistory == []
      ensures jahSystem.scriptures.wisdomDatabase == Scripture.Corpus
      ensures jahSystem.scriptures.codingApplication == Scripture.Applications
      ensures dailyPractices == map[] && revelationsReceived == []
    {
      base := new Modification.EnhancedARKController(telemetry, config);
      jahSystem := new JahConsciousnessSystem();
      dailyPractices := map[];
      revelationsReceived := [];
    }

    /** `initialize_daily_practice()`: the day's practice is stored under
        the date, replacing any earlier one of that date; the other dates
        and the revelations are untouched. */
    method InitializeDailyPractice(now: Instant, md5: string -> Digest, rng: Rng)
      modifies this, jahSystem.oracle, rng
      ensures now.date in dailyPractices
      ensures IsDailyPractice(dailyPractices[now.date], jahSystem, now, md5)
      ensures dailyPractices == old(dailyPractices)[now.date := dailyPractices[now.date]]
      ensures revelationsReceived == old(revelationsReceived)
      ensures jahSystem.oracle.revelationHistory
           == old(jahSystem.oracle.revelationHistory) + [dailyPractices[now.date].guidance]
    {
      assert this as object != rng as object;
      assert this as object != jahSystem.oracle as object;
      var practice := jahSystem.PerformDailyPractice(now, md5, rng);
      StorePractice(now.date, practice);
    }

    /** Stores a practice under its date, replacing any earlier one. */
    method StorePractice(date: string, practice: DailyPractice)
      modifies this
      ensures dailyPractices == old(dailyPractices)[date := practice]
      ensures revelationsReceived == old(revelationsReceived)
    {
      dailyPractices := dailyPractices[date := practice];
    }

    /** `seek_divine_coding_guidance(question, code, context)`: guidance on
        the context built from the caller's context, the code and the
        clock; one revelation recorded; and the code blessing attached when
        the ritual is due. */
    method SeekDivineCodingGuidance(question: string, code: Option<string>, context: Option<Context>,
                                    now: Instant, md5: string -> Digest, rng: Rng)
      returns (r: CodingGuidance)
      requires CodeIsText(GuidanceContext(code, context, now))
      modifies this, jahSystem.oracle, rng
      ensures Guides(r.guidance, jahSystem, question, GuidanceContext(code, context, now), now, md5)
      ensures r.sacredRitual.Some? <==> RitualDue(question, now.hour)
      ensures r.sacredRitual.Some? ==> r.sacredRitual.value == BlessingFor(GuidanceContext(code, context, now), now)
      ensures revelationsReceived == old(revelationsReceived) + [RevelationOf(question, r.guidance.divineWisdom, now)]
      ensures dailyPractices == old(dailyPractices)
      ensures jahSystem.oracle.revelationHistory
           == old(jahSystem.oracle.revelationHistory) + [r.guidance.divineWisdom]
              + (if r.guidance.codeAnalysis.Some? then [r.guidance.codeAnalysis.value.guidance] else [])
    {
      assert this as object != rng as object;
      assert this as object != jahSystem.oracle as object;
      var ctx := GuidanceContext(code, context, now);
      var ritual := None;
      if now.hour in SacredHours || Contains(ToLower(question), "critical") {
        ritual := Some(BlessingFor(ctx, now));
      }
      var guidance := jahSystem.SeekDivineGuidance(question, Some(ctx), now, md5, rng);
      Record(RevelationOf(question, guidance.divineWisdom, now));
      r := CodingGuidance(guidance, ritual);
    }

    /** Appends one revelation to the controller's record. */
    method Record(revelation: Revelation)
      modifies this
      ensures revelationsReceived == old(revelationsReceived) + [revelation]
      ensures dailyPractices == old(dailyPractices)
    {
      revelationsReceived := revelationsReceived + [revelation];
    }

    /** `_generate_sacred_recommendations(alignment_scores, pattern_analysis,
        guidance)`: the threshold advice, then three different entries of
        the pool. */
    method GenerateSacredRecommendations(s: AlignmentScores, pa: Option<Patterns.PatternAnalysis>,
                                         g: CodingGuidance, rng: Rng)
      returns (recs: seq<string>)
      modifies rng
      ensures AdviceThenSample(recs, SacredAdvice(s, pa, g.guidance.divineWisdom.message), SacredRecs, 3)
    {
      var lowPattern := s.patternAlignment < 0.6;
      recs := [];
      if lowPattern {
        recs := recs + [SeekLine];
        if !MentionsFibonacci(pa) {
          recs := recs + [FibonacciLine];
        }
      }
      assert recs == AppendIf(AppendIf([], lowPattern, SeekLine), lowPattern && !MentionsFibonacci(pa), FibonacciLine);
      if s.scripturalAlignment < 0.5 {
        recs := recs + [MeditateLine];
      }
      if s.vibrationAlignment < 0.7 {
        recs := recs + [ElevateLine];
      }
      var msg := g.guidance.divineWisdom.message;
      if msg != "" {
        recs := recs + [ContemplateLine(msg)];
      }
      assert recs == SacredAdvice(s, pa, msg);
      SacredRecsDistinct();
      var picks := rng.Sample(SacredRecs, 3);
      SampleFacts(recs, picks, SacredRecs);
      recs := recs + picks;
    }

    /** `get_divine_insights_report()`: the level and principle counts
        gathered in one pass over the revelations received. */
    method GetDivineInsightsReport() returns (r: InsightsReport)
      ensures r == InsightsOf(revelationsReceived)
    {
      var revs := revelationsReceived;
      if revs == [] {
        return NoInsights("No divine insights recorded yet", "Seek and you shall find");
      }
      var levelCounts, principleCounts := TallyHistory(revs);
      CountNonEmpty(Levels(revs));
      CountNonEmpty(AllPrinciples(revs));
      r := Insights(|revs|, levelCounts, MostCommonOf(levelCounts, |revs|), principleCounts,
                    MostCommonOf(principleCounts, SumCounts(principleCounts)), Recent(revs));
    }
  }
}
