/** The sacred-number and divine-timing endpoints of the guidance router
    (app/ark_engine/api/routers/divine_guidance.py), without their HTTP
    shell: the meaning and coding application of a number, its numerology
    reduction, sacred hour and minute membership and the recommended
    activity of an hour. */
module Numerology {
  import opened Wrappers
  import opened Text
  import Oracle

  /** ---------- Digit sums ---------- */

  /** The sum of the decimal digits in `s`. */
  function DigitValueSum(s: string): nat
    requires forall i :: 0 <= i < |s| ==> '0' <= s[i] <= '9'
  {
    if s == [] then 0 else DigitValueSum(s[..|s| - 1]) + (s[|s| - 1] as int - '0' as int)
  }

  /** `sum(int(digit) for digit in str(n))`. */
  function DigitSum(n: nat): nat {
    DigitValueSum(NatToString(n))
  }

  /** The digit sum of `n` is that of `n / 10` plus the last digit. */
  lemma DigitSumStep(n: nat)
    ensures DigitSum(n) == if n < 10 then n else DigitSum(n / 10) + n % 10
  {
    var s := NatToString(n);
    if n >= 10 {
      assert s[..|s| - 1] == NatToString(n / 10);
      assert s[|s| - 1] == DigitChar(n % 10);
    } else {
      assert s == [DigitChar(n)];
      assert s[..|s| - 1] == [];
      assert DigitValueSum(s) == DigitChar(n) as int - '0' as int;
    }
  }

  /** Replacing a number by its digit sum keeps it modulo 9, never increases
      it and strictly decreases it from 10 on. */
  lemma {:induction false} DigitSumFacts(n: nat)
    ensures DigitSum(n) % 9 == n % 9
    ensures DigitSum(n) <= n
    ensures n >= 10 ==> DigitSum(n) < n
    ensures n > 0 ==> DigitSum(n) > 0
    decreases n
  {
    DigitSumStep(n);
    if n >= 10 {
      var q, r := n / 10, n % 10;
      DigitSumFacts(q);
      assert n == 9 * q + (q + r);
      SameRemainder(DigitSum(q), q, r);
      NineMultiple(q, q + r);
    }
  }

  /** Adding the same amount keeps two numbers congruent modulo 9. */
  lemma SameRemainder(a: nat, b: nat, r: nat)
    requires a % 9 == b % 9
    ensures (a + r) % 9 == (b + r) % 9
  {
    assert a == 9 * (a / 9) + a % 9;
    assert b == 9 * (b / 9) + b % 9;
    NineMultiple(a / 9, a % 9 + r);
    NineMultiple(b / 9, b % 9 + r);
  }

  /** Adding a multiple of 9 keeps the remainder modulo 9. */
  lemma {:induction false} NineMultiple(k: nat, x: nat)
    ensures (9 * k + x) % 9 == x % 9
  {
    if k > 0 {
      NineMultiple(k - 1, x);
      assert 9 * k + x == 9 * (k - 1) + x + 9;
    }
  }

  /** ---------- Reduction ---------- */

  predicate IsMasterNumber(v: nat) {
    v == 11 || v == 22 || v == 33
  }

  /** The `while` loop from a first digit sum `v`. */
  function Reduce(v: nat): nat
    decreases v
  {
    if v > 9 && !IsMasterNumber(v) then
      DigitSumFacts(v);
      Reduce(DigitSum(v))
    else v
  }

  /** The reduced number of `number`. */
  function Reduced(number: nat): nat {
    Reduce(DigitSum(number))
  }

  /** The reduction stops at a single digit or a master number, keeps the
      value modulo 9, and gives 0 only for 0. */
  lemma {:induction false} ReduceFacts(v: nat)
    ensures Reduce(v) <= 9 || IsMasterNumber(Reduce(v))
    ensures Reduce(v) % 9 == v % 9
    ensures Reduce(v) == 0 <==> v == 0
    decreases v
  {
    if v > 9 && !IsMasterNumber(v) {
      DigitSumFacts(v);
      ReduceFacts(DigitSum(v));
    }
  }

  /** The same facts, stated from the number itself. */
  lemma ReducedFacts(number: nat)
    ensures Reduced(number) <= 9 || IsMasterNumber(Reduced(number))
    ensures Reduced(number) % 9 == number % 9
    ensures Reduced(number) == 0 <==> number == 0
  {
    DigitSumFacts(number);
    ReduceFacts(DigitSum(number));
  }

  /** The numerology loop of `interpret_sacred_number`. */
  method ReduceNumerology(number: nat) returns (numerology: nat)
    ensures numerology == Reduced(number)
    ensures numerology <= 9 || IsMasterNumber(numerology)
    ensures numerology % 9 == number % 9
  {
    ReducedFacts(number);
    numerology := DigitSum(number);
    while numerology > 9 && !IsMasterNumber(numerology)
      invariant Reduce(numerology) == Reduced(number)
      decreases numerology
    {
      DigitSumFacts(numerology);
      numerology := DigitSum(numerology);
    }
  }

  /** ---------- Lookups ---------- */

  const NumerologyMeanings: map<nat, string> := map[
    1 := "New beginnings in code",
    2 := "Balance and partnership in development",
    3 := "Creativity and expression in coding",
    4 := "Stability and structure in systems",
    5 := "Change and adaptation in technology",
    6 := "Harmony and service in software",
    7 := "Wisdom and analysis in programming",
    8 := "Power and efficiency in code",
    9 := "Completion and fulfillment in projects",
    11 := "Inspiration and vision in architecture",
    22 := "Master building of systems",
    33 := "Christ-like service through code"
  ]

  const CodingApplications: map<int, string> := map[
    3 := "Trinity in code: Input, Process, Output",
    7 := "Perfect modules - complete and functional",
    12 := "Complete API - well-structured interface",
    40 := "Testing period - thorough validation needed",
    144 := "Complete system - all components integrated",
    153 := "Graceful code - elegant and efficient"
  ]

  function NumerologyMeaning(v: nat): string {
    if v in NumerologyMeanings then NumerologyMeanings[v] else "Divine guidance in your work"
  }

  function SacredMeaning(number: int): string {
    if number in Oracle.SacredNumbers then Oracle.SacredNumbers[number]
    else "Divine mystery - pray for understanding"
  }

  function CodingApplication(number: int): string {
    if number in CodingApplications then CodingApplications[number]
    else "Apply divine order to your code structure"
  }

  /** Every reduced value has its own table entry except 0, which only the
      number 0 reaches. */
  lemma ReachableMeanings(number: nat)
    ensures Reduced(number) in NumerologyMeanings <==> number != 0
  {
    ReducedFacts(number);
  }

  datatype SacredNumberReading = SacredNumberReading(
    number: int, meaning: string, codingApplication: string, reducedNumber: nat, numerologyMeaning: string)

  /** `interpret_sacred_number(number)`; a negative number fails, since
      `int('-')` raises on the sign of `str(number)`. */
  method InterpretSacredNumber(number: int) returns (r: Result<SacredNumberReading>)
    ensures r.Failure? <==> number < 0
    ensures r.Success? ==>
      && r.value.number == number
      && r.value.meaning == SacredMeaning(number)
      && r.value.codingApplication == CodingApplication(number)
      && r.value.reducedNumber == Reduced(number)
      && r.value.numerologyMeaning == NumerologyMeaning(Reduced(number))
  {
    if number < 0 {
      return Failure("invalid literal for int() with base 10: '-'");
    }
    var reduced := ReduceNumerology(number);
    r := Success(SacredNumberReading(
      number, SacredMeaning(number), CodingApplication(number), reduced, NumerologyMeaning(reduced)));
  }

  /** ---------- Divine timing ---------- */

  const SacredHours: seq<nat> := [3, 6, 9, 12, 15, 18, 21, 0]
  const SacredMinutes: seq<nat> := [11, 22, 33, 44, 55]

  predicate IsSacredHour(hour: nat) {
    hour in SacredHours
  }

  predicate IsSacredMinute(minute: nat) {
    minute in SacredMinutes
  }

  /** The sacred hours are the multiples of 3 of a day; the sacred minutes
      the two-digit repdigits. */
  lemma SacredTimes(hour: nat, minute: nat)
    ensures IsSacredHour(hour) <==> hour % 3 == 0 && hour <= 21
    ensures IsSacredMinute(minute) <==> 11 <= minute <= 55 && minute % 11 == 0
  {
    if hour % 3 == 0 && hour <= 21 {
      assert hour in {0, 3, 6, 9, 12, 15, 18, 21};
    }
    if 11 <= minute <= 55 && minute % 11 == 0 {
      assert minute in {11, 22, 33, 44, 55};
    }
  }

  datatype Activity = DeepWork | Planning | Implementation | LightWork | ProblemSolving | Learning | Rest

  function ActivityText(a: Activity): string {
    match a
    case DeepWork => "Deep work on meaningful code - divine inspiration is high"
    case Planning => "Planning and design - morning clarity"
    case Implementation => "Implementation - peak focus time"
    case LightWork => "Light work and review - post-lunch reflection"
    case ProblemSolving => "Problem-solving - afternoon energy"
    case Learning => "Learning and exploration - evening curiosity"
    case Rest => "Rest and inspiration - night creativity"
  }

  /** `_get_recommended_activity(current, is_sacred_hour)`. */
  function RecommendedActivity(hour: nat, isSacredHour: bool): (a: Activity)
    ensures isSacredHour ==> a == DeepWork
    ensures a == DeepWork ==> isSacredHour
  {
    if isSacredHour then DeepWork
    else if 5 <= hour < 9 then Planning
    else if 9 <= hour < 12 then Implementation
    else if 12 <= hour < 14 then LightWork
    else if 14 <= hour < 17 then ProblemSolving
    else if 17 <= hour < 20 then Learning
    else Rest
  }

  /** Outside a sacred hour, the activity is fixed by the band the hour falls
      in, and every hour outside [5, 20) rests. */
  lemma ActivityBands(hour: nat)
    ensures var a := RecommendedActivity(hour, false);
      && (a == Planning <==> 5 <= hour < 9)
      && (a == Implementation <==> 9 <= hour < 12)
      && (a == LightWork <==> 12 <= hour < 14)
      && (a == ProblemSolving <==> 14 <= hour < 17)
      && (a == Learning <==> 17 <= hour < 20)
      && (a == Rest <==> hour < 5 || hour >= 20)
  {
  }

  /** As `check_divine_timing` calls it, the only hours of the 5-to-20 span that
      get a band activity are those that are not sacred. */
  lemma TimingActivity(hour: nat)
    requires hour < 24
    ensures RecommendedActivity(hour, IsSacredHour(hour)) == DeepWork <==> hour % 3 == 0 && hour <= 21
  {
    SacredTimes(hour, 0);
  }
}
