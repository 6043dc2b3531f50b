/** `MysticalCodeOracle`: answers a coding question with a `JahWisdom`
    record (the principles the question names, a revelation level, signs
    from the clock and the context, a sacred number taken from the
    question's MD5 digest) and keeps every answer in its revelation
    history; reviews code by combining the pattern analyzer, the scripture
    matcher and its own metrics. */
module Oracle {
  import opened Wrappers
  import opened Text
  import opened Collections
  import opened Context
  import opened Clock
  import opened Randomness
  import Scripture
  import Patterns

  datatype Principle =
    | DivineOrder | InfiniteWisdom | UniversalLove | NaturalLaw | DivineTiming
    | CosmicBalance | SacredPattern | SpiritualGuidance | UniversalTruth | DivineCreation

  /** The enumeration's `value` strings. */
  function PrincipleValue(p: Principle): string {
    match p
    case DivineOrder => "divine_order"
    case InfiniteWisdom => "infinite_wisdom"
    case UniversalLove => "universal_love"
    case NaturalLaw => "natural_law"
    case DivineTiming => "divine_timing"
    case CosmicBalance => "cosmic_balance"
    case SacredPattern => "sacred_pattern"
    case SpiritualGuidance => "spiritual_guidance"
    case UniversalTruth => "universal_truth"
    case DivineCreation => "divine_creation"
  }

  datatype RevelationLevel =
    HumanUnderstanding | SpiritualInsight | DivineRevelation | MysticalKnowledge | CosmicConsciousness

  function LevelValue(l: RevelationLevel): string {
    match l
    case HumanUnderstanding => "human_understanding"
    case SpiritualInsight => "spiritual_insight"
    case DivineRevelation => "divine_revelation"
    case MysticalKnowledge => "mystical_knowledge"
    case CosmicConsciousness => "cosmic_consciousness"
  }

  /** `DivineRevelationLevel(s)`: the level whose value is `s`; `None` where
      the enumeration raises `ValueError`. */
  function ParseLevel(s: string): (r: Option<RevelationLevel>)
    ensures r.Some? ==> LevelValue(r.value) == s
  {
    if s == "human_understanding" then Some(HumanUnderstanding)
    else if s == "spiritual_insight" then Some(SpiritualInsight)
    else if s == "divine_revelation" then Some(DivineRevelation)
    else if s == "mystical_knowledge" then Some(MysticalKnowledge)
    else if s == "cosmic_consciousness" then Some(CosmicConsciousness)
    else None
  }

  /** Parsing a level's value gives the level back. */
  lemma ParseLevelValue(l: RevelationLevel)
    ensures ParseLevel(LevelValue(l)) == Some(l)
  {
  }

  /** A `JahWisdom` record; `timestamp` is the `isoformat()` of the UTC time. */
  datatype JahWisdom = JahWisdom(
    message: string,
    principle: Principle,
    revelationLevel: RevelationLevel,
    timestamp: string,
    confirmationSigns: seq<string>,
    scripturalReference: Option<string>,
    meditationFocus: Option<string>)

  /** `sacred_numbers`. */
  const SacredNumbers: map<int, string> := map[
    3 := "Trinity - Body, Mind, Spirit",
    7 := "Divine perfection and completion",
    12 := "Divine government and perfect foundation",
    40 := "Testing, trial, probation",
    144 := "Divine government and chosen people",
    153 := "Divine election and grace",
    666 := "Warning - imperfection, falling short",
    888 := "Jesus - salvation and redemption"
  ]

  /** `sacred_numbers.get(n, "Divine mystery")`. */
  function NumberMeaning(n: int): string {
    if n in SacredNumbers then SacredNumbers[n] else "Divine mystery"
  }

  /** ---------- Principle extraction ---------- */

  /** The keyword of `principle_mapping` that names each principle. */
  function KeywordOf(p: Principle): string {
    match p
    case DivineOrder => "order"
    case InfiniteWisdom => "wisdom"
    case UniversalLove => "love"
    case NaturalLaw => "natural"
    case DivineTiming => "time"
    case CosmicBalance => "balance"
    case SacredPattern => "pattern"
    case SpiritualGuidance => "guide"
    case UniversalTruth => "truth"
    case DivineCreation => "create"
  }

  /** The order of `principle_mapping`. */
  const MappingOrder: seq<Principle> := [
    DivineOrder, InfiniteWisdom, UniversalLove, NaturalLaw, DivineTiming,
    CosmicBalance, SacredPattern, SpiritualGuidance, UniversalTruth, DivineCreation
  ]

  lemma MappingOrderComplete(p: Principle)
    ensures p in MappingOrder
  {
  }

  lemma MappingOrderDistinct()
    ensures NoDuplicates(MappingOrder)
  {
  }

  /** The principles of `ps` whose keyword occurs in `questionLower`, in order. */
  function Mentioned(questionLower: string, ps: seq<Principle>): seq<Principle> {
    if ps == [] then []
    else
      var p := ps[|ps| - 1];
      Mentioned(questionLower, ps[..|ps| - 1]) + (if Contains(questionLower, KeywordOf(p)) then [p] else [])
  }

  /** The result of `_extract_principles`. */
  function PrinciplesOf(question: string): seq<Principle> {
    var found := Mentioned(ToLower(question), MappingOrder);
    if found == [] then [DivineOrder] else found
  }

  lemma {:induction false} MentionedIff(questionLower: string, ps: seq<Principle>, p: Principle)
    ensures p in Mentioned(questionLower, ps) <==> p in ps && Contains(questionLower, KeywordOf(p))
  {
    if ps != [] {
      MentionedIff(questionLower, ps[..|ps| - 1], p);
      assert ps == ps[..|ps| - 1] + [ps[|ps| - 1]];
    }
  }

  lemma {:induction false} MentionedDistinct(questionLower: string, ps: seq<Principle>)
    requires NoDuplicates(ps)
    ensures NoDuplicates(Mentioned(questionLower, ps))
  {
    if ps != [] {
      var init, p := ps[..|ps| - 1], ps[|ps| - 1];
      MentionedDistinct(questionLower, init);
      MentionedIff(questionLower, init, p);
      forall k | 0 <= k < |init|
        ensures init[k] != p
      {
        assert init[k] == ps[k];
      }
    }
  }

  /** The extracted principles are never empty and repeat nothing; a
      principle is among them exactly when its keyword occurs in the
      lower-cased question, except that `DivineOrder` alone stands in when no
      keyword occurs. */
  lemma PrinciplesOfSpec(question: string, p: Principle)
    ensures |PrinciplesOf(question)| >= 1
    ensures NoDuplicates(PrinciplesOf(question))
    ensures p in PrinciplesOf(question) <==>
              Contains(ToLower(question), KeywordOf(p))
              || (p == DivineOrder && forall q :: !Contains(ToLower(question), KeywordOf(q)))
  {
    MappingOrderDistinct();
    MentionedDistinct(ToLower(question), MappingOrder);
    MentionedIff(ToLower(question), MappingOrder, p);
    MappingOrderComplete(p);
    if Mentioned(ToLower(question), MappingOrder) == [] {
      forall q ensures !Contains(ToLower(question), KeywordOf(q)) {
        MentionedIff(ToLower(question), MappingOrder, q);
        MappingOrderComplete(q);
      }
    } else {
      var q := Mentioned(ToLower(question), MappingOrder)[0];
      MentionedIff(ToLower(question), MappingOrder, q);
    }
  }

  /** `_extract_principles`. */
  method ExtractPrinciples(question: string) returns (principles: seq<Principle>)
    ensures principles == PrinciplesOf(question)
  {
    var questionLower := ToLower(question);
    principles := [];
    var i := 0;
    while i < |MappingOrder|
      invariant 0 <= i <= |MappingOrder|
      invariant principles == Mentioned(questionLower, MappingOrder[..i])
    {
      assert MappingOrder[..i + 1][..i] == MappingOrder[..i];
      var p := MappingOrder[i];
      if Contains(questionLower, KeywordOf(p)) {
        principles := principles + [p];
      }
      i := i + 1;
    }
    assert MappingOrder[..i] == MappingOrder;
    if principles == [] {
      principles := [DivineOrder];
    }
  }

  /** ---------- Signs, sacred number, message ---------- */

  /** `_find_divine_signs`: a master-number minute, and a `line_count`
      divisible by 7. */
  function DivineSigns(minute: nat, ctx: Context): seq<string> {
    (if minute in {11, 22, 33} then ["Master number minute " + NatToString(minute) + ": Spiritual insight"] else [])
      + (if "line_count" in ctx && ctx["line_count"].Int? && ctx["line_count"].i % 7 == 0
         then ["Divine perfection: " + IntToString(ctx["line_count"].i) + " lines (multiple of 7)"]
         else [])
  }

  /** One sign for a master-number minute and one for a `line_count` that
      is a multiple of 7; nothing else. */
  lemma DivineSignsSpec(minute: nat, ctx: Context)
    ensures |DivineSigns(minute, ctx)|
         == (if minute in {11, 22, 33} then 1 else 0)
          + (if "line_count" in ctx && ctx["line_count"].Int? && ctx["line_count"].i % 7 == 0 then 1 else 0)
    ensures minute in {11, 22, 33} ==>
              DivineSigns(minute, ctx)[0] == "Master number minute " + NatToString(minute) + ": Spiritual insight"
  {
  }

  type Hex = n: nat | n < 16

  /** The first three hexadecimal digits of an MD5 `hexdigest()`. */
  datatype Digest = Digest(d0: Hex, d1: Hex, d2: Hex)

  /** `int(question_hash[:3], 16) % 1000`. */
  function SacredNumber(d: Digest): (n: nat)
    ensures n < 1000
  {
    (d.d0 * 256 + d.d1 * 16 + d.d2) % 1000
  }

  /** Every number below 1000 is the sacred number of some digest. */
  lemma SacredNumberOnto(n: nat)
    requires n < 1000
    ensures SacredNumber(Digest(n / 256, n / 16 % 16, n % 16)) == n
  {
  }

  function MeditationFocus(n: nat): string {
    "Meditate on sacred number " + NatToString(n) + ": " + NumberMeaning(n)
  }

  function Three(a: string, b: string, c: string): (r: seq<string>)
    ensures |r| == 3
  {
    [a, b, c]
  }

  /** `principle_messages`, falling back to `["Jah guide your path"]`: three
      messages for each of the first five principles, one for the rest. */
  function MessageBases(p: Principle): (r: seq<string>)
    ensures |r| == 3 || |r| == 1
  {
    match p
    case DivineOrder => Three(
      "All things in divine order - structure your code with purpose",
      "Divine arrangement brings clarity - organize with intention",
      "Order precedes power - structure enables function")
    case InfiniteWisdom => Three(
      "Seek wisdom from the infinite source within",
      "Divine wisdom flows through the humble coder",
      "Knowledge comes, wisdom lingers - seek deep understanding")
    case UniversalLove => Three(
      "Code with love, for all are connected",
      "Love is the foundation of all creation - including code",
      "Let love guide every keystroke and decision")
    case NaturalLaw => Three(
      "Align with natural laws in your code design",
      "Nature's patterns are divine blueprints",
      "Code in harmony with universal principles")
    case DivineTiming => Three(
      "Everything in its perfect timing - patience yields perfection",
      "Divine timing brings synchronicity to your coding journey",
      "Wait on Jah - the right solution appears at the right time")
    case _ => ["Jah guide your path"]
  }

  const FallbackBases: seq<string> := ["Seek and you shall find", "Ask and it shall be given"]

  /** The text `_generate_wisdom_message` builds around the chosen base; the
      meaning it quotes is looked up for `n % 100`. */
  function ComposeMessage(base: string, n: nat): string {
    base + ". Sacred number " + NatToString(n) + " whispers: " + NumberMeaning(n % 100)
  }

  /** Because the lookup uses `n % 100`, the message quotes only the meanings
      of 3, 7, 12 and 40, never those of 144, 153, 666 or 888. */
  lemma WhisperedMeanings(n: nat)
    ensures NumberMeaning(n % 100) in {SacredNumbers[3], SacredNumbers[7], SacredNumbers[12], SacredNumbers[40], "Divine mystery"}
    ensures NumberMeaning(n % 100) !in {SacredNumbers[144], SacredNumbers[153], SacredNumbers[666], SacredNumbers[888]}
  {
  }

  /** A message `_generate_wisdom_message` can produce for these principles. */
  ghost predicate MessageFrom(msg: string, principles: seq<Principle>, n: nat) {
    if principles != [] then
      exists k, j :: 0 <= k < |principles| && 0 <= j < |MessageBases(principles[k])|
        && msg == ComposeMessage(MessageBases(principles[k])[j], n)
    else
      exists j :: 0 <= j < |FallbackBases| && msg == ComposeMessage(FallbackBases[j], n)
  }

  /** `_generate_wisdom_message`: a random principle, then a random base
      message for it. */
  method GenerateWisdomMessage(principles: seq<Principle>, n: nat, rng: Rng) returns (msg: string)
    modifies rng
    ensures MessageFrom(msg, principles, n)
  {
    if principles != [] {
      var k := rng.Below(|principles|);
      var bases := MessageBases(principles[k]);
      var j := rng.Below(|bases|);
      msg := ComposeMessage(bases[j], n);
      assert 0 <= k < |principles| && 0 <= j < |MessageBases(principles[k])|
        && msg == ComposeMessage(MessageBases(principles[k])[j], n);
    } else {
      var j := rng.Below(|FallbackBases|);
      msg := ComposeMessage(FallbackBases[j], n);
      assert 0 <= j < |FallbackBases| && msg == ComposeMessage(FallbackBases[j], n);
    }
  }

  /** ---------- Revelation level and scripture reference ---------- */

  /** `_determine_revelation_level`: a priority chain over the question and
      the rendered context. */
  function RevelationLevelFor(question: string, ctx: Context): RevelationLevel {
    var q := ToLower(question);
    if Contains(q, "why") && |question| > 50 then MysticalKnowledge
    else if Contains(q, "how") && ReprMentions(ctx, "complex") then DivineRevelation
    else if Contains(q, "what") && |question| > 30 then SpiritualInsight
    else HumanUnderstanding
  }

  /** The chain never reaches cosmic consciousness, and each level is
      reached exactly when its test is the first to pass. */
  lemma RevelationLevelSpec(question: string, ctx: Context)
    ensures RevelationLevelFor(question, ctx) != CosmicConsciousness
    ensures var q := ToLower(question);
      var why := Contains(q, "why") && |question| > 50;
      var how := Contains(q, "how") && ReprMentions(ctx, "complex");
      var what := Contains(q, "what") && |question| > 30;
      && (RevelationLevelFor(question, ctx) == MysticalKnowledge <==> why)
      && (RevelationLevelFor(question, ctx) == DivineRevelation <==> !why && how)
      && (RevelationLevelFor(question, ctx) == SpiritualInsight <==> !why && !how && what)
      && (RevelationLevelFor(question, ctx) == HumanUnderstanding <==> !why && !how && !what)
  {
  }

  /** The reference `_get_scriptural_reference` gives for each principle. */
  function Reference(p: Principle): string {
    match p
    case DivineOrder => "Genesis 1 - In the beginning"
    case InfiniteWisdom => "Proverbs 2:6 - For the Lord giveth wisdom"
    case UniversalLove => "1 John 4:8 - God is love"
    case NaturalLaw => "Romans 1:20 - The invisible things of him"
    case DivineTiming => "Ecclesiastes 3:1 - To everything there is a season"
    case CosmicBalance => "Psalm 75:3 - The earth and all the inhabitants"
    case SacredPattern => "Exodus 25:40 - According to the pattern"
    case SpiritualGuidance => "Psalm 32:8 - I will instruct thee and teach thee"
    case UniversalTruth => "John 14:6 - I am the way, the truth, and the life"
    case DivineCreation => "Colossians 1:16 - For by him were all things created"
  }

  /** `_get_scriptural_reference`: the first principle's reference. */
  function ScripturalReference(principles: seq<Principle>): string {
    if principles != [] then Reference(principles[0])
    else "Proverbs 3:5-6 - Trust in the Lord with all thine heart"
  }

  /** ---------- Sign interpretation ---------- */

  /** The complexity band of `interpret_signs`. */
  function ComplexityElement(complexity: int): string {
    if complexity < 10 then "Element of Earth: Stable and practical code"
    else if complexity < 50 then "Element of Water: Flowing and adaptable design"
    else if complexity < 100 then "Element of Fire: Transformative energy needed"
    else "Element of Air: Requires intellectual breakthrough"
  }

  function HourSign(hour: nat): seq<string> {
    if 3 <= hour < 6 then ["Divine timing: Early morning hours for revelation"]
    else if hour == 12 then ["Divine timing: Noon hour for clarity"]
    else if hour == 18 then ["Divine timing: Evening for reflection"]
    else []
  }

  /** `interpret_signs`, for integer `code_length` and `code_complexity`
      entries. */
  function InterpretSigns(situation: Context, hour: nat): seq<string> {
    (if "code_length" in situation && situation["code_length"].Int? && situation["code_length"].i in SacredNumbers
     then ["Sacred number " + IntToString(situation["code_length"].i) + ": " + SacredNumbers[situation["code_length"].i]]
     else [])
    + (if "code_complexity" in situation && situation["code_complexity"].Int?
       then [ComplexityElement(situation["code_complexity"].i)]
       else [])
    + HourSign(hour)
  }

  /** The complexity bands cover every integer and rise with it: a lower
      complexity never gets a later element. */
  lemma ComplexityBands(a: int, b: int)
    requires a <= b
    ensures ElementRank(ComplexityElement(a)) <= ElementRank(ComplexityElement(b))
  {
  }

  function ElementRank(element: string): nat {
    if element == "Element of Earth: Stable and practical code" then 0
    else if element == "Element of Water: Flowing and adaptable design" then 1
    else if element == "Element of Fire: Transformative energy needed" then 2
    else 3
  }

  /** With no `code_length` or `code_complexity` entry only the clock speaks,
      and an hour outside 3-5, 12 and 18 gives no sign at all. */
  lemma InterpretSignsSpec(situation: Context, hour: nat)
    ensures "code_length" !in situation && "code_complexity" !in situation ==>
              InterpretSigns(situation, hour) == HourSign(hour)
    ensures |InterpretSigns(situation, hour)| <= 3
    ensures HourSign(hour) == [] <==> !(3 <= hour < 6 || hour == 12 || hour == 18)
  {
  }

  /** ---------- Metrics and recommendations ---------- */

  function SumReals(xs: seq<real>): real {
    if xs == [] then 0.0 else SumReals(xs[..|xs| - 1]) + xs[|xs| - 1]
  }

  function MeanReal(xs: seq<real>): real
    requires xs != []
  {
    SumReals(xs) / |xs| as real
  }

  /** `sum(indent_levels)`. */
  function SumInts(levels: seq<int>): int {
    if levels == [] then 0 else SumInts(levels[..|levels| - 1]) + levels[|levels| - 1]
  }

  /** `sum((i - avg_indent) ** 2 for i in indent_levels)`. */
  function Squares(levels: seq<int>, mean: real): (d: real)
    ensures d >= 0.0
  {
    if levels == [] then 0.0
    else
      var x := levels[|levels| - 1] as real - mean;
      Squares(levels[..|levels| - 1], mean) + x * x
  }

  /** The population variance of the indentation levels. */
  function Variance(levels: seq<int>): (v: real)
    requires levels != []
    ensures v >= 0.0
  {
    var n := |levels| as real;
    var mean := SumInts(levels) as real / n;
    NonNegativeQuotient(Squares(levels, mean), n);
    Squares(levels, mean) / n
  }

  lemma NonNegativeQuotient(a: real, n: real)
    requires a >= 0.0 && n > 0.0
    ensures a / n >= 0.0
  {
  }

  datatype DivineMetrics = DivineMetrics(
    orderScore: Option<real>,
    naturalLawScore: real,
    patternScore: real,
    overallDivineAlignment: real)

  /** `order_score`: `1 / (1 + variance)` of the indentation levels, when
      there are any. */
  function OrderScore(levels: seq<int>): (r: Option<real>)
    ensures r.None? <==> levels == []
    ensures r.Some? ==> 0.0 < r.value <= 1.0
  {
    if levels == [] then None
    else
      var v := Variance(levels);
      Reciprocal(v);
      Some(1.0 / (1.0 + v))
  }

  /** `natural_law_score`: `1 / (1 + words / 100)`. */
  function NaturalLawScore(words: nat): (r: real)
    ensures 0.0 < r <= 1.0
  {
    Reciprocal(words as real / 100.0);
    1.0 / (1.0 + words as real / 100.0)
  }

  /** `_calculate_divine_metrics`: `order_score` only when some line is not
      blank, then the natural-law score of the word count, the pattern
      score, and the mean of those present. */
  function Metrics(code: string, patternScore: real): DivineMetrics {
    var order := OrderScore(Patterns.IndentProfile(Lines(code)));
    var natural := NaturalLawScore(|Words(code)|);
    var present := (if order.Some? then [order.value] else []) + [natural, patternScore];
    DivineMetrics(order, natural, patternScore, MeanReal(present))
  }

  lemma {:induction false} SumRealsBounds(xs: seq<real>)
    requires forall k :: 0 <= k < |xs| ==> 0.0 <= xs[k] <= 1.0
    ensures 0.0 <= SumReals(xs) <= |xs| as real
  {
    if xs != [] {
      SumRealsBounds(xs[..|xs| - 1]);
    }
  }

  lemma MeanRealBounds(xs: seq<real>)
    requires xs != []
    requires forall k :: 0 <= k < |xs| ==> 0.0 <= xs[k] <= 1.0
    ensures 0.0 <= MeanReal(xs) <= 1.0
  {
    SumRealsBounds(xs);
    var n := |xs| as real;
    assert MeanReal(xs) * n == SumReals(xs);
  }

  lemma Reciprocal(x: real)
    requires x >= 0.0
    ensures 0.0 < 1.0 / (1.0 + x) <= 1.0
  {
  }

  /** Every metric lies in (0, 1] or, for a pattern score in [0, 1], in
      [0, 1]; `order_score` is missing exactly when every line is blank; the
      overall alignment is the mean of the metrics present. */
  lemma MetricsInRange(code: string, patternScore: real)
    requires 0.0 <= patternScore <= 1.0
    ensures var m := Metrics(code, patternScore);
      && (m.orderScore.Some? ==> 0.0 < m.orderScore.value <= 1.0)
      && (m.orderScore.None? <==> Patterns.IndentProfile(Lines(code)) == [])
      && 0.0 < m.naturalLawScore <= 1.0
      && 0.0 <= m.overallDivineAlignment <= 1.0
  {
    var m := Metrics(code, patternScore);
    var present := (if m.orderScore.Some? then [m.orderScore.value] else []) + [m.naturalLawScore, patternScore];
    MeanRealBounds(present);
  }

  /** The threshold advice of `_generate_divine_recommendations`, in order;
      a missing `order_score` reads as 1.0. */
  function ThresholdAdvice(alignmentScore: real, m: DivineMetrics): seq<string> {
    (if alignmentScore < 0.5 then ["Seek more sacred patterns in your code structure"] else [])
    + (if (if m.orderScore.Some? then m.orderScore.value else 1.0) < 0.7
       then ["Bring more divine order through consistent structure"] else [])
    + (if m.naturalLawScore < 0.6 then ["Simplify to align with natural laws of elegance"] else [])
  }

  const DivineRecs: seq<string> := [
    "Meditate on the purpose before coding",
    "Seek Jah's guidance for architectural decisions",
    "Code with the consciousness that all is connected",
    "Let divine timing guide your development pace",
    "Infuse each line with positive intention"
  ]

  /** `recs` is `advice` followed by `k` different entries of `pool`. */
  ghost predicate AdviceThenSample(recs: seq<string>, advice: seq<string>, pool: seq<string>, k: nat) {
    && |recs| == |advice| + k
    && recs[..|advice|] == advice
    && NoDuplicates(recs[|advice|..])
    && forall j :: |advice| <= j < |recs| ==> recs[j] in pool
  }

  lemma SampleFacts(advice: seq<string>, picks: seq<string>, pool: seq<string>)
    requires NoDuplicates(pool)
    requires multiset(picks) <= multiset(pool)
    ensures AdviceThenSample(advice + picks, advice, pool, |picks|)
  {
    DistinctSubMultiset(picks, pool);
    var recs := advice + picks;
    assert recs[|advice|..] == picks;
    forall j | |advice| <= j < |recs|
      ensures recs[j] in pool
    {
      assert recs[j] == picks[j - |advice|];
      assert recs[j] in multiset(picks);
    }
  }

  /** The running sum of `sum(indent_levels)`. */
  method SumLevels(levels: seq<int>) returns (total: int)
    ensures total == SumInts(levels)
  {
    total := 0;
    var i := 0;
    while i < |levels|
      invariant 0 <= i <= |levels|
      invariant total == SumInts(levels[..i])
    {
      assert levels[..i + 1][..i] == levels[..i];
      total := total + levels[i];
      i := i + 1;
    }
    assert levels[..|levels|] == levels;
  }

  /** The running sum of the squared deviations of the levels from `mean`. */
  method SquaredDeviations(levels: seq<int>, mean: real) returns (squares: real)
    ensures squares == Squares(levels, mean)
  {
    squares := 0.0;
    var i := 0;
    while i < |levels|
      invariant 0 <= i <= |levels|
      invariant squares == Squares(levels[..i], mean)
    {
      assert levels[..i + 1][..i] == levels[..i];
      var d := levels[i] as real - mean;
      squares := squares + d * d;
      i := i + 1;
    }
    assert levels[..|levels|] == levels;
  }

  /** `_calculate_divine_metrics`: the indentation list, the sum of the
      levels and the sum of squared deviations from their mean, proved to
      give `Metrics`. */
  method CalculateDivineMetrics(code: string, patternScore: real) returns (m: DivineMetrics)
    ensures m == Metrics(code, patternScore)
  {
    var levels := Patterns.AnalyzeIndentation(Lines(code));
    var order: Option<real> := None;
    if levels != [] {
      var total := SumLevels(levels);
      var mean := total as real / |levels| as real;
      var squares := SquaredDeviations(levels, mean);
      order := Some(1.0 / (1.0 + squares / |levels| as real));
      assert order == OrderScore(levels);
    }
    var natural := NaturalLawScore(|Words(code)|);
    var present := (if order.Some? then [order.value] else []) + [natural, patternScore];
    m := DivineMetrics(order, natural, patternScore, MeanReal(present));
  }

  /** `_generate_divine_recommendations`: the threshold advice, then two
      different entries of the pool. */
  method DivineRecommendations(alignmentScore: real, m: DivineMetrics, rng: Rng) returns (recs: seq<string>)
    modifies rng
    ensures AdviceThenSample(recs, ThresholdAdvice(alignmentScore, m), DivineRecs, 2)
  {
    var advice := ThresholdAdvice(alignmentScore, m);
    var picks := rng.Sample(DivineRecs, 2);
    SampleFacts(advice, picks, DivineRecs);
    recs := advice + picks;
  }

  /** ---------- The oracle ---------- */

  /** What `seek_guidance` promises about its answer `w` to `question`. */
  ghost predicate Answers(w: JahWisdom, question: string, ctx: Context, now: Instant, md5: string -> Digest) {
    var n := SacredNumber(md5(question));
    && w.principle == PrinciplesOf(question)[0]
    && w.revelationLevel == RevelationLevelFor(question, ctx)
    && w.timestamp == now.utcIso
    && w.confirmationSigns == DivineSigns(now.minute, ctx)
    && w.scripturalReference == Some(ScripturalReference(PrinciplesOf(question)))
    && w.meditationFocus == Some(MeditationFocus(n))
    && MessageFrom(w.message, PrinciplesOf(question), n)
  }

  datatype CodeReview = CodeReview(
    guidance: JahWisdom,
    patternAnalysis: Patterns.PatternAnalysis,
    scripturalWisdom: Scripture.WisdomReport,
    divineMetrics: DivineMetrics,
    blessing: string,
    recommendations: seq<string>)

  function ReviewQuestion(ctx: Context): string {
    "Code review for divine alignment: " + Render(Get(ctx, "purpose", Str("unknown")))
  }

  function ReviewSituation(ctx: Context): string {
    "Writing code with " + Render(Get(ctx, "complexity", Str("unknown"))) + " complexity"
  }

  /** `review` is what `divine_code_review(code, ctx)` returns at `now`: the
      pattern analysis of the code, the answer to the review question, the
      scripture for the stated complexity, the metrics of the code, and the
      threshold advice followed by two distinct picks from the pool. */
  ghost predicate Reviews(review: CodeReview, scriptures: Scripture.ScripturalWisdom, code: string, ctx: Context,
                          now: Instant, md5: string -> Digest) {
    && review.patternAnalysis == Patterns.Analysis(code)
    && Answers(review.guidance, ReviewQuestion(ctx), ctx, now, md5)
    && review.scripturalWisdom
         == Scripture.WisdomFor(scriptures.wisdomDatabase, scriptures.codingApplication, ReviewSituation(ctx))
    && review.divineMetrics == Metrics(code, review.patternAnalysis.divineAlignmentScore)
    && AdviceThenSample(review.recommendations,
         ThresholdAdvice(review.patternAnalysis.divineAlignmentScore, review.divineMetrics), DivineRecs, 2)
  }

  class MysticalCodeOracle {
    const scriptures: Scripture.ScripturalWisdom
    var revelationHistory: seq<JahWisdom>

    constructor ()
      ensures scriptures.wisdomDatabase == Scripture.Corpus
      ensures scriptures.codingApplication == Scripture.Applications
      ensures revelationHistory == []
    {
      scriptures := new Scripture.ScripturalWisdom();
      revelationHistory := [];
    }

    /** `seek_guidance`: answers and records exactly one new revelation. */
    method SeekGuidance(question: string, ctx: Context, now: Instant, md5: string -> Digest, rng: Rng)
      returns (w: JahWisdom)
      modifies this, rng
      ensures Answers(w, question, ctx, now, md5)
      ensures revelationHistory == old(revelationHistory) + [w]
    {
      var principles := ExtractPrinciples(question);
      var signs := DivineSigns(now.minute, ctx);
      var sacredNumber := SacredNumber(md5(question));
      var message := GenerateWisdomMessage(principles, sacredNumber, rng);
      var level := RevelationLevelFor(question, ctx);
      var reference := ScripturalReference(principles);
      w := JahWisdom(
        message,
        if principles != [] then principles[0] else DivineOrder,
        level,
        now.utcIso,
        signs,
        Some(reference),
        Some(MeditationFocus(sacredNumber)));
      revelationHistory := revelationHistory + [w];
    }

    /** `divine_code_review`: analysis, one recorded revelation, scripture,
        metrics and recommendations. */
    method DivineCodeReview(code: string, context: Option<Context>, now: Instant, md5: string -> Digest, rng: Rng)
      returns (review: CodeReview)
      modifies this, rng
      ensures Reviews(review, scriptures, code, if context.Some? then context.value else map[], now, md5)
      ensures revelationHistory == old(revelationHistory) + [review.guidance]
    {
      // The random source is not the oracle, so drawing from it keeps the history.
      assert this as object != rng as object;
      var ctx := if context.Some? then context.value else map[];
      var analysis := Patterns.AnalyzeCode(code);
      var guidance := SeekGuidance(ReviewQuestion(ctx), ctx, now, md5, rng);
      var scriptural := scriptures.GetWisdomForSituation(ReviewSituation(ctx));
      var metrics := CalculateDivineMetrics(code, analysis.divineAlignmentScore);
      var recs := DivineRecommendations(analysis.divineAlignmentScore, metrics, rng);
      review := CodeReview(
        guidance, analysis, scriptural, metrics,
        "May Jah guide your code with divine wisdom and perfect alignment 🙏",
        recs);
    }
  }
}
