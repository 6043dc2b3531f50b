/** `DivinePatternRecognizer`: structural patterns in source text. The
    indentation profile, the additive-recurrence test, the function/class
    block lengths, the golden-ratio score and the keyword indicator groups,
    combined by `AnalyzeCode`. */
module Patterns {
  import opened Text
  import opened Collections

  const GoldenRatio: real := 1.61803398875
  const FibonacciScore: real := 0.8

  /** `line.strip()` is truthy. */
  predicate NonBlank(line: string) {
    Strip(line) != []
  }

  /** The non-blank lines, in order. */
  function NonBlankLines(lines: seq<string>): (r: seq<string>)
    ensures |r| <= |lines|
  {
    if lines == [] then []
    else
      var last := lines[|lines| - 1];
      NonBlankLines(lines[..|lines| - 1]) + (if NonBlank(last) then [last] else [])
  }

  /** The indentation width of every non-blank line, in order. */
  function IndentProfile(lines: seq<string>): (r: seq<int>)
    ensures |r| == |NonBlankLines(lines)|
  {
    var nb := NonBlankLines(lines);
    seq(|nb|, k requires 0 <= k < |nb| => LeadingSpace(nb[k]) as int)
  }

  /** The profile has one entry per non-blank line, and a blank line adds
      nothing to it. */
  lemma {:induction false} IndentProfileCounts(lines: seq<string>, line: string)
    ensures |IndentProfile(lines)| <= |lines|
    ensures IndentProfile(lines + [line])
         == IndentProfile(lines) + (if NonBlank(line) then [LeadingSpace(line) as int] else [])
  {
    assert (lines + [line])[..|lines|] == lines;
  }

  /** `_analyze_indentation_pattern`: one entry per non-blank line, its
      count of leading whitespace characters. */
  method AnalyzeIndentation(lines: seq<string>) returns (levels: seq<int>)
    ensures levels == IndentProfile(lines)
  {
    levels := [];
    var i := 0;
    while i < |lines|
      invariant 0 <= i <= |lines|
      invariant levels == IndentProfile(lines[..i])
    {
      assert lines[..i + 1][..i] == lines[..i];
      var line := lines[i];
      if NonBlank(line) {
        levels := levels + [LeadingSpace(line) as int];
      }
      i := i + 1;
    }
    assert lines[..i] == lines;
  }

  /** The Fibonacci-like test: at least three terms, each from the third on
      the sum of the two before it. */
  predicate AdditiveRecurrence(s: seq<int>) {
    |s| >= 3 && forall i :: 2 <= i < |s| ==> s[i] == s[i - 1] + s[i - 2]
  }

  /** `_is_fibonacci_like`. */
  method IsFibonacciLike(s: seq<int>) returns (b: bool)
    ensures b <==> AdditiveRecurrence(s)
  {
    if |s| < 3 {
      return false;
    }
    var i := 2;
    while i < |s|
      invariant 2 <= i <= |s|
      invariant forall j :: 2 <= j < i ==> s[j] == s[j - 1] + s[j - 2]
    {
      if s[i] != s[i - 1] + s[i - 2] {
        return false;
      }
      i := i + 1;
    }
    return true;
  }

  lemma FibonacciExamples()
    ensures AdditiveRecurrence([1, 1, 2, 3, 5, 8])
    ensures !AdditiveRecurrence([1, 1, 2, 4])
    ensures forall s: seq<int> :: |s| < 3 ==> !AdditiveRecurrence(s)
  {
    assert [1, 1, 2, 4][3] != [1, 1, 2, 4][2] + [1, 1, 2, 4][1];
  }

  /** A stripped line opening a `def` or a `class`. */
  predicate IsHeader(line: string) {
    StartsWith(Strip(line), "def ") || StartsWith(Strip(line), "class ")
  }

  function HeaderCount(lines: seq<string>): nat {
    if lines == [] then 0
    else HeaderCount(lines[..|lines| - 1]) + (if IsHeader(lines[|lines| - 1]) then 1 else 0)
  }

  function NonBlankCount(lines: seq<string>): nat {
    |NonBlankLines(lines)|
  }

  /** How one more line changes the blocks: a header opens a new, empty
      block; any other line joins the open block, if there is one. */
  function AddLine(blocks: seq<seq<string>>, line: string): seq<seq<string>> {
    if IsHeader(line) then blocks + [[]]
    else if blocks == [] then []
    else blocks[..|blocks| - 1] + [blocks[|blocks| - 1] + [line]]
  }

  /** The body of every block: each header opens a block holding the
      non-header lines up to the next header; lines before the first
      header belong to no block. */
  function Blocks(lines: seq<string>): seq<seq<string>> {
    if lines == [] then [] else AddLine(Blocks(lines[..|lines| - 1]), lines[|lines| - 1])
  }

  /** The non-blank line count of every block that has one. */
  function PositiveCounts(blocks: seq<seq<string>>): (r: seq<nat>)
    ensures |r| <= |blocks|
    ensures forall k :: 0 <= k < |r| ==> r[k] > 0
  {
    if blocks == [] then []
    else
      var n := NonBlankCount(blocks[|blocks| - 1]);
      PositiveCounts(blocks[..|blocks| - 1]) + (if n > 0 then [n] else [])
  }

  function BlockLengths(lines: seq<string>): seq<nat> {
    PositiveCounts(Blocks(lines))
  }

  lemma NonBlankCountAppend(lines: seq<string>, line: string)
    ensures NonBlankCount(lines + [line]) == NonBlankCount(lines) + (if NonBlank(line) then 1 else 0)
  {
    assert (lines + [line])[..|lines|] == lines;
  }

  /** The state of the scan (`in_function`, `function_lengths`,
      `current_length`) after the lines whose blocks are `blocks`. */
  ghost predicate ScanState(blocks: seq<seq<string>>, inFunction: bool, lengths: seq<nat>, current: nat) {
    && (inFunction <==> blocks != [])
    && (inFunction ==> lengths == PositiveCounts(blocks[..|blocks| - 1])
                       && current == NonBlankCount(blocks[|blocks| - 1]))
    && (!inFunction ==> lengths == [] && current == 0)
  }

  lemma HeaderStep(blocks: seq<seq<string>>, inFunction: bool, lengths: seq<nat>, current: nat, line: string)
    requires ScanState(blocks, inFunction, lengths, current)
    requires IsHeader(line)
    ensures ScanState(AddLine(blocks, line), true,
                      if inFunction && current > 0 then lengths + [current] else lengths, 0)
  {
    assert (blocks + [[]])[..|blocks|] == blocks;
  }

  lemma BodyStep(blocks: seq<seq<string>>, lengths: seq<nat>, current: nat, line: string)
    requires ScanState(blocks, true, lengths, current)
    requires !IsHeader(line)
    ensures ScanState(AddLine(blocks, line), true, lengths,
                      if NonBlank(line) then current + 1 else current)
  {
    var b' := blocks[..|blocks| - 1] + [blocks[|blocks| - 1] + [line]];
    assert b'[..|b'| - 1] == blocks[..|blocks| - 1];
    NonBlankCountAppend(blocks[|blocks| - 1], line);
  }

  lemma OutsideStep(blocks: seq<seq<string>>, line: string)
    requires blocks == [] && !IsHeader(line)
    ensures AddLine(blocks, line) == []
  {
  }

  lemma FinalStep(blocks: seq<seq<string>>, inFunction: bool, lengths: seq<nat>, current: nat)
    requires ScanState(blocks, inFunction, lengths, current)
    ensures (if inFunction && current > 0 then lengths + [current] else lengths) == PositiveCounts(blocks)
  {
  }

  lemma BlocksPrefix(lines: seq<string>, i: nat)
    requires i < |lines|
    ensures Blocks(lines[..i + 1]) == AddLine(Blocks(lines[..i]), lines[i])
  {
    assert lines[..i + 1][..i] == lines[..i];
  }

  /** One turn of the scan in `_extract_function_lengths`. */
  method ScanLine(ghost blocks: seq<seq<string>>, inFunction: bool, lengths: seq<nat>, current: nat, line: string)
    returns (inFunction': bool, lengths': seq<nat>, current': nat)
    requires ScanState(blocks, inFunction, lengths, current)
    ensures ScanState(AddLine(blocks, line), inFunction', lengths', current')
  {
    inFunction', lengths', current' := inFunction, lengths, current;
    if IsHeader(line) {
      HeaderStep(blocks, inFunction, lengths, current, line);
      if inFunction && current > 0 {
        lengths' := lengths + [current];
      }
      inFunction' := true;
      current' := 0;
    } else if inFunction {
      BodyStep(blocks, lengths, current, line);
      if NonBlank(line) {
        current' := current + 1;
      }
    } else {
      OutsideStep(blocks, line);
    }
  }

  /** `_extract_function_lengths`: the state machine over the lines of `code`
      (`inFunction`, `currentLength`) computes the block lengths. */
  method ExtractFunctionLengths(code: string) returns (lengths: seq<nat>)
    ensures lengths == BlockLengths(Lines(code))
  {
    var lines := Lines(code);
    var inFunction := false;
    lengths := [];
    var currentLength: nat := 0;
    var i := 0;
    while i < |lines|
      invariant 0 <= i <= |lines|
      invariant ScanState(Blocks(lines[..i]), inFunction, lengths, currentLength)
    {
      BlocksPrefix(lines, i);
      inFunction, lengths, currentLength := ScanLine(Blocks(lines[..i]), inFunction, lengths, currentLength, lines[i]);
      i := i + 1;
    }
    assert lines[..i] == lines;
    FinalStep(Blocks(lines), inFunction, lengths, currentLength);
    if inFunction && currentLength > 0 {
      lengths := lengths + [currentLength];
    }
  }

  /** Every header opens exactly one block. */
  lemma {:induction false} BlocksPerHeader(lines: seq<string>)
    ensures |Blocks(lines)| == HeaderCount(lines)
  {
    if lines != [] {
      BlocksPerHeader(lines[..|lines| - 1]);
    }
  }

  /** Every recorded length is positive and there are no more lengths than
      header lines. */
  lemma BlockLengthsBounds(code: string)
    ensures forall k :: 0 <= k < |BlockLengths(Lines(code))| ==> BlockLengths(Lines(code))[k] > 0
    ensures |BlockLengths(Lines(code))| <= HeaderCount(Lines(code))
  {
    BlocksPerHeader(Lines(code));
  }

  lemma {:induction false} NoHeaderNoBlocks(pre: seq<string>)
    requires forall k :: 0 <= k < |pre| ==> !IsHeader(pre[k])
    ensures Blocks(pre) == []
  {
    if pre != [] {
      NoHeaderNoBlocks(pre[..|pre| - 1]);
    }
  }

  /** Lines before the first header, blank or not, are never counted. */
  lemma {:induction false} LeadingLinesIgnored(pre: seq<string>, rest: seq<string>)
    requires forall k :: 0 <= k < |pre| ==> !IsHeader(pre[k])
    ensures Blocks(pre + rest) == Blocks(rest)
    ensures BlockLengths(pre + rest) == BlockLengths(rest)
  {
    if rest == [] {
      assert pre + rest == pre;
      NoHeaderNoBlocks(pre);
    } else {
      var init := rest[..|rest| - 1];
      LeadingLinesIgnored(pre, init);
      assert (pre + rest)[..|pre + rest| - 1] == pre + init;
      assert (pre + rest)[|pre + rest| - 1] == rest[|rest| - 1];
    }
  }

  /** The ratio of each length to the one before it, skipping zero
      predecessors. */
  function Ratios(lengths: seq<nat>): (r: seq<real>)
    ensures |r| < |lengths| || lengths == []
  {
    if |lengths| < 2 then []
    else
      var prev, cur := lengths[|lengths| - 2], lengths[|lengths| - 1];
      Ratios(lengths[..|lengths| - 1]) + (if prev > 0 then [cur as real / prev as real] else [])
  }

  function Abs(x: real): real {
    if x < 0.0 then -x else x
  }

  /** The total distance of the ratios from the golden ratio. */
  function Deviation(ratios: seq<real>): (d: real)
    ensures d >= 0.0
  {
    if ratios == [] then 0.0
    else Deviation(ratios[..|ratios| - 1]) + Abs(ratios[|ratios| - 1] - GoldenRatio)
  }

  lemma {:induction false} DeviationZero(ratios: seq<real>)
    ensures Deviation(ratios) == 0.0 <==> forall k :: 0 <= k < |ratios| ==> ratios[k] == GoldenRatio
  {
    if ratios != [] {
      DeviationZero(ratios[..|ratios| - 1]);
    }
  }

  function Min(a: real, b: real): real {
    if a <= b then a else b
  }

  /** `_calculate_golden_ratio_alignment` over exact reals. */
  function GoldenScore(lengths: seq<nat>): real {
    if |lengths| < 2 then 0.0
    else
      var ratios := Ratios(lengths);
      if ratios == [] then 0.0
      else Min(1.0, 1.0 / (1.0 + Deviation(ratios) / |ratios| as real))
  }

  lemma ReciprocalBounds(x: real)
    requires x >= 0.0
    ensures 0.0 < 1.0 / (1.0 + x) <= 1.0
    ensures 1.0 / (1.0 + x) == 1.0 <==> x == 0.0
  {
  }

  /** The golden score lies in [0, 1]; it is 0 exactly when no ratio can be
      formed, and 1 exactly when every ratio equals the golden ratio. */
  lemma GoldenScoreRange(lengths: seq<nat>)
    ensures 0.0 <= GoldenScore(lengths) <= 1.0
    ensures GoldenScore(lengths) == 0.0 <==> Ratios(lengths) == []
    ensures GoldenScore(lengths) == 1.0 <==>
              Ratios(lengths) != [] && forall k :: 0 <= k < |Ratios(lengths)| ==> Ratios(lengths)[k] == GoldenRatio
  {
    var ratios := Ratios(lengths);
    if ratios != [] {
      var avg := Deviation(ratios) / |ratios| as real;
      ReciprocalBounds(avg);
      DeviationZero(ratios);
    }
  }

  /** The ratio loop of `_calculate_golden_ratio_alignment`, then its score. */
  method GoldenRatioAlignment(lengths: seq<nat>) returns (score: real)
    ensures score == GoldenScore(lengths)
  {
    if |lengths| < 2 {
      return 0.0;
    }
    var ratios: seq<real> := [];
    var i := 1;
    while i < |lengths|
      invariant 1 <= i <= |lengths|
      invariant ratios == Ratios(lengths[..i])
    {
      assert lengths[..i + 1][..i] == lengths[..i];
      if lengths[i - 1] > 0 {
        ratios := ratios + [lengths[i] as real / lengths[i - 1] as real];
      }
      i := i + 1;
    }
    assert lengths[..i] == lengths;
    if ratios == [] {
      return 0.0;
    }
    var avg := Deviation(ratios) / |ratios| as real;
    score := Min(1.0, 1.0 / (1.0 + avg));
  }

  /** `divine_indicators`: each group's name and its keywords, in table order. */
  const IndicatorGroups: seq<(string, seq<string>)> := [
    ("balance", ["symmetry", "equilibrium", "harmony", "proportion"]),
    ("order", ["pattern", "sequence", "structure", "organization"]),
    ("beauty", ["elegance", "simplicity", "grace", "clarity"]),
    ("life", ["growth", "evolution", "adaptation", "renewal"]),
    ("unity", ["connection", "integration", "wholeness", "oneness"])
  ]

  lemma IndicatorNamesDistinct()
    ensures forall i, j :: 0 <= i < j < |IndicatorGroups| ==> IndicatorGroups[i].0 != IndicatorGroups[j].0
  {
  }

  /** The names of the groups having a keyword inside `codeLower`, in group order. */
  function IndicatorsFound(codeLower: string, groups: seq<(string, seq<string>)>): seq<string> {
    if groups == [] then []
    else
      var g := groups[|groups| - 1];
      IndicatorsFound(codeLower, groups[..|groups| - 1]) + (if ContainsAny(codeLower, g.1) then [g.0] else [])
  }

  /** Only the name of a group can be reported. */
  lemma {:induction false} AbsentNameNotFound(codeLower: string, groups: seq<(string, seq<string>)>, name: string)
    requires forall k :: 0 <= k < |groups| ==> groups[k].0 != name
    ensures name !in IndicatorsFound(codeLower, groups)
  {
    if groups != [] {
      AbsentNameNotFound(codeLower, groups[..|groups| - 1], name);
    }
  }

  /** The same fact read forwards: a reported indicator is the name of one
      of the groups. */
  lemma IndicatorIsGroupName(codeLower: string, s: string)
    requires s in IndicatorsFound(codeLower, IndicatorGroups)
    ensures exists k :: 0 <= k < |IndicatorGroups| && IndicatorGroups[k].0 == s
  {
    if forall k :: 0 <= k < |IndicatorGroups| ==> IndicatorGroups[k].0 != s {
      AbsentNameNotFound(codeLower, IndicatorGroups, s);
      assert false;
    }
  }

  /** With distinct group names, no indicator is reported twice. */
  lemma {:induction false} IndicatorsDistinct(codeLower: string, groups: seq<(string, seq<string>)>)
    requires forall i, j :: 0 <= i < j < |groups| ==> groups[i].0 != groups[j].0
    ensures NoDuplicates(IndicatorsFound(codeLower, groups))
  {
    if groups != [] {
      var init := groups[..|groups| - 1];
      var g := groups[|groups| - 1];
      IndicatorsDistinct(codeLower, init);
      forall k | 0 <= k < |init| ensures init[k].0 != g.0 {
        assert init[k] == groups[k];
      }
      AbsentNameNotFound(codeLower, init, g.0);
    }
  }

  /** The indicator loop of `analyze_code_for_divine_patterns`. */
  method CollectIndicators(codeLower: string) returns (found: seq<string>)
    ensures found == IndicatorsFound(codeLower, IndicatorGroups)
    ensures NoDuplicates(found)
  {
    IndicatorNamesDistinct();
    found := [];
    var g := 0;
    while g < |IndicatorGroups|
      invariant 0 <= g <= |IndicatorGroups|
      invariant found == IndicatorsFound(codeLower, IndicatorGroups[..g])
    {
      var name := IndicatorGroups[g].0;
      var keywords := IndicatorGroups[g].1;
      var before := found;
      forall j | 0 <= j < g ensures IndicatorGroups[..g][j].0 != name {
        assert IndicatorGroups[..g][j] == IndicatorGroups[j];
      }
      AbsentNameNotFound(codeLower, IndicatorGroups[..g], name);
      var k := 0;
      while k < |keywords|
        invariant 0 <= k <= |keywords|
        invariant found == before + (if ContainsAny(codeLower, keywords[..k]) then [name] else [])
      {
        assert keywords[..k + 1][..k] == keywords[..k];
        assert keywords[..k + 1][k] == keywords[k];
        if Contains(codeLower, keywords[k]) && name !in found {
          found := found + [name];
        }
        k := k + 1;
      }
      assert keywords[..k] == keywords;
      assert IndicatorGroups[..g + 1][..g] == IndicatorGroups[..g];
      g := g + 1;
    }
    assert IndicatorGroups[..g] == IndicatorGroups;
    IndicatorsDistinct(codeLower, IndicatorGroups);
  }

  /** The result of `analyze_code_for_divine_patterns`; `patternScores` is
      the `pattern_scores` dictionary in insertion order. */
  datatype PatternAnalysis = PatternAnalysis(
    sacredPatternsFound: seq<string>,
    divineIndicators: seq<string>,
    patternScores: seq<(string, real)>,
    divineAlignmentScore: real)

  function SumScores(scores: seq<(string, real)>): real {
    if scores == [] then 0.0 else SumScores(scores[..|scores| - 1]) + scores[|scores| - 1].1
  }

  /** The mean of the scores, or 0.0 when there are none. */
  function MeanScore(scores: seq<(string, real)>): real {
    if scores == [] then 0.0 else SumScores(scores) / |scores| as real
  }

  lemma {:induction false} SumScoresBounds(scores: seq<(string, real)>)
    requires forall k :: 0 <= k < |scores| ==> 0.0 <= scores[k].1 <= 1.0
    ensures 0.0 <= SumScores(scores) <= |scores| as real
  {
    if scores != [] {
      SumScoresBounds(scores[..|scores| - 1]);
    }
  }

  /** A mean of scores in [0, 1] lies in [0, 1]. */
  lemma MeanScoreBounds(scores: seq<(string, real)>)
    requires forall k :: 0 <= k < |scores| ==> 0.0 <= scores[k].1 <= 1.0
    ensures 0.0 <= MeanScore(scores) <= 1.0
  {
    if scores != [] {
      SumScoresBounds(scores);
      var n := |scores| as real;
      var m := SumScores(scores) / n;
      assert m * n == SumScores(scores);
    }
  }

  /** The `pattern_scores` entries for `lines`: the Fibonacci-like
      indentation first, then the golden-ratio alignment of the block
      lengths when there are any. */
  function ScoresFor(fib: bool, lengths: seq<nat>): seq<(string, real)> {
    (if fib then [("fibonacci_indentation", FibonacciScore)] else [])
      + (if lengths != [] then [("golden_ratio_alignment", GoldenScore(lengths))] else [])
  }

  /** The `sacred_patterns_found` entries. */
  function PatternsFor(fib: bool, lengths: seq<nat>): seq<string> {
    (if fib then ["fibonacci_indentation"] else [])
      + (if lengths != [] && GoldenScore(lengths) > 0.7 then ["golden_ratio_pattern"] else [])
  }

  /** Every pattern score lies in [0, 1]; the Fibonacci entry is 0.8. */
  lemma ScoresInRange(fib: bool, lengths: seq<nat>)
    ensures forall k :: 0 <= k < |ScoresFor(fib, lengths)| ==> 0.0 <= ScoresFor(fib, lengths)[k].1 <= 1.0
    ensures fib ==> ScoresFor(fib, lengths)[0] == ("fibonacci_indentation", 0.8)
    ensures |ScoresFor(fib, lengths)| == (if fib then 1 else 0) + (if lengths != [] then 1 else 0)
  {
    GoldenScoreRange(lengths);
  }

  /** The result of `analyze_code_for_divine_patterns`. */
  function Analysis(code: string): PatternAnalysis {
    var fib := AdditiveRecurrence(IndentProfile(Lines(code)));
    var lengths := BlockLengths(Lines(code));
    var scores := ScoresFor(fib, lengths);
    PatternAnalysis(PatternsFor(fib, lengths), IndicatorsFound(ToLower(code), IndicatorGroups), scores, MeanScore(scores))
  }

  /** The indicators repeat nothing; the Fibonacci pattern is reported, with
      score 0.8, exactly when the indentation profile is an additive
      recurrence; the golden-ratio score is reported exactly when some block
      has a length; the alignment is the mean of the scores and lies in
      [0, 1]. */
  lemma AnalysisSpec(code: string)
    ensures var a := Analysis(code);
      && NoDuplicates(a.divineIndicators)
      && ("fibonacci_indentation" in a.sacredPatternsFound <==> AdditiveRecurrence(IndentProfile(Lines(code))))
      && (("fibonacci_indentation", 0.8) in a.patternScores <==> AdditiveRecurrence(IndentProfile(Lines(code))))
      && ((exists g :: ("golden_ratio_alignment", g) in a.patternScores) <==> BlockLengths(Lines(code)) != [])
      && a.divineAlignmentScore == MeanScore(a.patternScores)
      && 0.0 <= a.divineAlignmentScore <= 1.0
  {
    var fib := AdditiveRecurrence(IndentProfile(Lines(code)));
    var lengths := BlockLengths(Lines(code));
    IndicatorNamesDistinct();
    IndicatorsDistinct(ToLower(code), IndicatorGroups);
    ScoresInRange(fib, lengths);
    MeanScoreBounds(ScoresFor(fib, lengths));
    if lengths != [] {
      assert ScoresFor(fib, lengths)[|ScoresFor(fib, lengths)| - 1] == ("golden_ratio_alignment", GoldenScore(lengths));
    }
  }

  /** `analyze_code_for_divine_patterns`. */
  method AnalyzeCode(code: string) returns (a: PatternAnalysis)
    ensures a == Analysis(code)
  {
    var lines := Lines(code);
    var levels := AnalyzeIndentation(lines);
    var fib := IsFibonacciLike(levels);
    var lengths := ExtractFunctionLengths(code);
    var golden := 0.0;
    if lengths != [] {
      golden := GoldenRatioAlignment(lengths);
    }
    var scores := (if fib then [("fibonacci_indentation", FibonacciScore)] else [])
      + (if lengths != [] then [("golden_ratio_alignment", golden)] else []);
    var patterns := (if fib then ["fibonacci_indentation"] else [])
      + (if lengths != [] && golden > 0.7 then ["golden_ratio_pattern"] else []);
    var indicators := CollectIndicators(ToLower(code));
    var alignment := 0.0;
    if scores != [] {
      alignment := SumScores(scores) / |scores| as real;
    }
    a := PatternAnalysis(patterns, indicators, scores, alignment);
  }
}
