/** `JahConsciousnessSystem` (app/ark_engine/rasta_principles/__init__.py):
    one oracle, the scripture matcher and the rituals behind a single
    guidance call and a daily practice. */
module Consciousness {
  import opened Wrappers
  import opened Text
  import opened Context
  import opened Clock
  import opened Randomness
  import opened Oracle
  import opened Rituals
  import Scripture

  /** The keyword groups of `_select_ritual_for_question`, in the order they
      are tried, each with the ritual it selects. */
  const RitualKeywords: seq<(seq<string>, string)> := [
    (["morning", "start", "begin", "new"], "morning_dedication"),
    (["bless", "consecrate", "dedicate"], "code_blessing"),
    (["problem", "bug", "error", "debug", "fix"], "debugging_meditation"),
    (["complete", "finish", "done", "accomplish"], "completion_thanksgiving"),
    (["evening", "end", "reflect", "review"], "evening_reflection")
  ]

  /** `_select_ritual_for_question(question)`. */
  function SelectRitual(question: string): (name: string)
    ensures name in RitualNames
  {
    var q := ToLower(question);
    if ContainsAny(q, RitualKeywords[0].0) then RitualKeywords[0].1
    else if ContainsAny(q, RitualKeywords[1].0) then RitualKeywords[1].1
    else if ContainsAny(q, RitualKeywords[2].0) then RitualKeywords[2].1
    else if ContainsAny(q, RitualKeywords[3].0) then RitualKeywords[3].1
    else if ContainsAny(q, RitualKeywords[4].0) then RitualKeywords[4].1
    else "code_blessing"
  }

  /** The first keyword group the lower-cased question mentions picks the
      ritual. */
  lemma SelectRitualFirstMatch(question: string, i: nat)
    requires i < |RitualKeywords|
    requires ContainsAny(ToLower(question), RitualKeywords[i].0)
    requires forall j :: 0 <= j < i ==> !ContainsAny(ToLower(question), RitualKeywords[j].0)
    ensures SelectRitual(question) == RitualKeywords[i].1
  {
  }

  /** A question that mentions no keyword gets the code blessing. */
  lemma SelectRitualDefault(question: string)
    requires forall j :: 0 <= j < |RitualKeywords| ==> !ContainsAny(ToLower(question), RitualKeywords[j].0)
    ensures SelectRitual(question) == "code_blessing"
  {
  }

  /** The selected ritual always exists, so the ritual run for a question is
      never the error record and is the record of the selected ritual. */
  lemma SelectedRitualRuns(question: string, context: Option<Context>, now: Instant)
    ensures !PerformRitual(SelectRitual(question), context, now).UnknownRitual?
    ensures RitualOf(PerformRitual(SelectRitual(question), context, now)) == Some(SelectRitual(question))
  {
    PerformRitualSpec(SelectRitual(question), context, now);
  }

  /** The dictionary `seek_divine_guidance` returns; `codeAnalysis` is `None`
      where it holds the empty dictionary. */
  datatype DivineGuidance = DivineGuidance(
    divineWisdom: JahWisdom,
    scripturalGuidance: Scripture.WisdomReport,
    codeAnalysis: Option<CodeReview>,
    ritual: RitualResult)

  /** The dictionary `perform_daily_practice` returns. */
  datatype DailyPractice = DailyPractice(
    date: string,
    dailyPractices: seq<RitualResult>,
    scripture: Scripture.WisdomReport,
    guidance: JahWisdom)

  const DailyQuestion := "Guide my coding work today"

  function DailyContext(now: Instant): Context {
    map["day" := Str(now.dayName), "focus" := Str("service through code")]
  }

  /** The context a guidance call works with: a missing one is empty, and a
      `"code"` entry, when present, holds the code as a string. */
  predicate CodeIsText(ctx: Context) {
    "code" in ctx ==> ctx["code"].Str?
  }

  /** `g` is what `seek_divine_guidance(question, ctx)` returns at `now`: the
      oracle's answer, the scripture for the question, a code review exactly
      when the context has a `"code"` entry, and the selected ritual run on
      the context. */
  ghost predicate Guides(g: DivineGuidance, sys: JahConsciousnessSystem, question: string, ctx: Context,
                         now: Instant, md5: string -> Digest) {
    && Answers(g.divineWisdom, question, ctx, now, md5)
    && g.scripturalGuidance == Scripture.WisdomFor(sys.scriptures.wisdomDatabase, sys.scriptures.codingApplication, question)
    && (g.codeAnalysis.Some? <==> "code" in ctx)
    && (g.codeAnalysis.Some? ==>
          ctx["code"].Str? && Reviews(g.codeAnalysis.value, sys.oracle.scriptures, ctx["code"].s, ctx, now, md5))
    && g.ritual == PerformRitual(SelectRitual(question), Some(ctx), now)
  }

  /** `p` is what `perform_daily_practice()` returns at `now`. */
  ghost predicate IsDailyPractice(p: DailyPractice, sys: JahConsciousnessSystem, now: Instant, md5: string -> Digest) {
    && p.date == now.iso
    && p.dailyPractices == [PerformRitual("morning_dedication", None, now)]
    && p.scripture
         == Scripture.WisdomFor(sys.scriptures.wisdomDatabase, sys.scriptures.codingApplication, "Coding work on " + now.dayName)
    && Answers(p.guidance, DailyQuestion, DailyContext(now), now, md5)
  }

  class JahConsciousnessSystem {
    const oracle: MysticalCodeOracle
    const scriptures: Scripture.ScripturalWisdom

    constructor ()
      ensures fresh(oracle) && oracle.revelationHistory == []
      ensures oracle.scriptures.wisdomDatabase == Scripture.Corpus
      ensures oracle.scriptures.codingApplication == Scripture.Applications
      ensures scriptures.wisdomDatabase == Scripture.Corpus
      ensures scriptures.codingApplication == Scripture.Applications
    {
      oracle := new MysticalCodeOracle();
      scriptures := new Scripture.ScripturalWisdom();
    }

    /** `seek_divine_guidance(question, code_context)`: the oracle answers the
        question, reviews the code when the context carries one, and the
        selected ritual runs on the context. */
    method SeekDivineGuidance(question: string, codeContext: Option<Context>, now: Instant,
                              md5: string -> Digest, rng: Rng)
      returns (g: DivineGuidance)
      requires codeContext.Some? ==> CodeIsText(codeContext.value)
      modifies oracle, rng
      ensures codeContext.Some? ==> Guides(g, this, question, codeContext.value, now, md5)
      ensures codeContext.None? ==> Guides(g, this, question, map[], now, md5)
      ensures oracle.revelationHistory
           == old(oracle.revelationHistory) + [g.divineWisdom]
              + (if g.codeAnalysis.Some? then [g.codeAnalysis.value.guidance] else [])
    {
      assert oracle as object != rng as object;
      var ctx := if codeContext.Some? then codeContext.value else map[];
      var wisdom := oracle.SeekGuidance(question, ctx, now, md5, rng);
      var scriptural := scriptures.GetWisdomForSituation(question);
      var codeAnalysis := ReviewCode(ctx, now, md5, rng);
      var ritual := PerformRitual(SelectRitual(question), Some(ctx), now);
      g := DivineGuidance(wisdom, scriptural, codeAnalysis, ritual);
    }

    /** The `code_analysis` entry: a review of the context's code, if any. */
    method ReviewCode(ctx: Context, now: Instant, md5: string -> Digest, rng: Rng) returns (analysis: Option<CodeReview>)
      requires CodeIsText(ctx)
      modifies oracle, rng
      ensures analysis.Some? <==> "code" in ctx
      ensures analysis.Some? ==> ctx["code"].Str? && Reviews(analysis.value, oracle.scriptures, ctx["code"].s, ctx, now, md5)
      ensures oracle.revelationHistory
           == old(oracle.revelationHistory) + (if analysis.Some? then [analysis.value.guidance] else [])
    {
      assert oracle as object != rng as object;
      analysis := None;
      if "code" in ctx {
        var review := oracle.DivineCodeReview(ctx["code"].s, Some(ctx), now, md5, rng);
        analysis := Some(review);
      }
    }

    /** `perform_daily_practice()`: the morning ritual as the only practice,
        the scripture for the weekday, and one answer recorded by the oracle. */
    method PerformDailyPractice(now: Instant, md5: string -> Digest, rng: Rng) returns (p: DailyPractice)
      modifies oracle, rng
      ensures IsDailyPractice(p, this, now, md5)
      ensures oracle.revelationHistory == old(oracle.revelationHistory) + [p.guidance]
    {
      assert oracle as object != rng as object;
      var practices: seq<RitualResult> := [];
      var morning := PerformRitual("morning_dedication", None, now);
      practices := practices + [morning];
      var scripture := scriptures.GetWisdomForSituation("Coding work on " + now.dayName);
      var guidance := oracle.SeekGuidance(DailyQuestion, DailyContext(now), now, md5, rng);
      p := DailyPractice(now.iso, practices, scripture, guidance);
    }
  }

  /** The single daily practice is the morning dedication, read at `now`. */
  lemma DailyPracticeIsMorning(now: Instant)
    ensures PerformRitual("morning_dedication", None, now)
         == MorningDedication(now.iso, now.hour, now.minute, InterpretSacredTime(now.hour, now.minute))
    ensures RitualOf(PerformRitual("morning_dedication", None, now)) == Some("morning_dedication")
  {
  }
}
