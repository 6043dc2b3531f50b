/** `PositiveVibrationAnalyzer` and `PositiveVibrationTransformer`
    (app/ark_engine/rasta_principles/rasta_principles.py): a marker count
    turned into a clamped score and a vibration level, and a fixed suffix
    appended to a text. */
module Vibration {
  import opened Text

  datatype VibrationLevel = Low | Neutral | Positive | Iration

  datatype RastaVibrationScore = RastaVibrationScore(
    score: real, level: VibrationLevel, affirmations: seq<string>)

  const PositiveMarkers: seq<string> := ["love", "peace", "harmony", "unity", "blessing"]

  const Affirmations: seq<string> := ["Love and unity guide the code", "Livity is the way"]

  const TransformSuffix := "\n\nPositive Vibration: Give thanks and praise."

  /** How many markers occur in the lower-cased text. */
  function Matches(text: string): (n: nat)
    ensures n <= |PositiveMarkers|
    ensures n > 0 <==> ContainsAny(ToLower(text), PositiveMarkers)
  {
    CountMatches(ToLower(text), PositiveMarkers)
  }

  function MinReal(a: real, b: real): real {
    if a <= b then a else b
  }

  /** The level for a score: iration from 0.8, positive from 0.5, neutral below. */
  function LevelFor(score: real): VibrationLevel {
    var level := if score >= 0.5 then Positive else Neutral;
    if score >= 0.8 then Iration else level
  }

  /** `analyze(text)`. */
  function Analyze(text: string): RastaVibrationScore {
    var score := MinReal(1.0, 0.2 + Matches(text) as real * 0.15);
    RastaVibrationScore(score, LevelFor(score), Affirmations)
  }

  /** The score lies in [0.2, 1.0], the level follows the two thresholds and
      is never `Low`, and the affirmations are the fixed pair. */
  lemma AnalyzeSpec(text: string)
    ensures var r := Analyze(text);
      && 0.2 <= r.score <= 1.0
      && r.level != Low
      && (r.level == Iration <==> r.score >= 0.8)
      && (r.level == Positive <==> 0.5 <= r.score < 0.8)
      && (r.level == Neutral <==> r.score < 0.5)
      && r.affirmations == Affirmations
  {
  }

  /** In marker counts: none or one is neutral, two or three positive, four
      or more iration. */
  lemma LevelByMatches(text: string)
    ensures var m, l := Matches(text), Analyze(text).level;
      && (l == Neutral <==> m <= 1)
      && (l == Positive <==> 2 <= m <= 3)
      && (l == Iration <==> m >= 4)
  {
  }

  /** `transform(text)`: the text followed by the fixed suffix. */
  function Transform(text: string): (r: string)
    ensures |r| == |text| + |TransformSuffix|
    ensures r[..|text|] == text && r[|text|..] == TransformSuffix
  {
    text + TransformSuffix
  }

  /** The text is a prefix of its transform, and dropping the suffix gives
      it back, so distinct texts stay distinct. */
  lemma TransformPrefix(text: string, other: string)
    ensures StartsWith(Transform(text), text)
    ensures Transform(text)[..|Transform(text)| - |TransformSuffix|] == text
    ensures Transform(text) == Transform(other) ==> text == other
  {
  }
}
