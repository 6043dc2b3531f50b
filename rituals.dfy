/** `SacredCodingRitual` (app/ark_engine/rasta_principles/jah_core.py): a
    dispatcher from ritual names to the five ritual records, and the
    reading of the clock the morning ritual carries. The prayers, gestures
    and instruction lists of the records are fixed texts and are not part
    of this model; each record keeps the fields that depend on its input. */
module Rituals {
  import opened Wrappers
  import opened Text
  import opened Context
  import opened Clock

  /** The keys of `ritual_steps`, in order. */
  const RitualNames: seq<string> := [
    "morning_dedication", "code_blessing", "debugging_meditation",
    "completion_thanksgiving", "evening_reflection"
  ]

  /** What `perform_ritual` returns: an error record or one ritual's record. */
  datatype RitualResult =
    | UnknownRitual(error: string)
    | MorningDedication(time: string, hour: nat, minute: nat, meaning: string)
    | CodeBlessing(moduleName: Value)
    | DebuggingMeditation(issue: Value)
    | CompletionThanksgiving(accomplishment: Value)
    | EveningReflection(time: string)

  /** The `"ritual"` entry of a ritual record. */
  function RitualOf(r: RitualResult): Option<string> {
    match r
    case UnknownRitual(_) => None
    case MorningDedication(_, _, _, _) => Some("morning_dedication")
    case CodeBlessing(_) => Some("code_blessing")
    case DebuggingMeditation(_) => Some("debugging_meditation")
    case CompletionThanksgiving(_) => Some("completion_thanksgiving")
    case EveningReflection(_) => Some("evening_reflection")
  }

  /** ---------- Sacred time ---------- */

  function HourMeaning(hour: nat): Option<string> {
    if hour == 3 then Some("Hour of spiritual awakening")
    else if hour == 6 then Some("Hour of new beginnings")
    else if hour == 9 then Some("Hour of completion")
    else if hour == 12 then Some("Hour of divine clarity")
    else if hour == 15 then Some("Hour of transformation")
    else if hour == 18 then Some("Hour of reflection")
    else if hour == 21 then Some("Hour of inspiration")
    else if hour == 0 then Some("Hour of renewal")
    else None
  }

  function MinuteMeaning(minute: nat): Option<string> {
    if minute == 11 then Some("Master number 11: Spiritual insight")
    else if minute == 22 then Some("Master number 22: Master builder energy")
    else if minute == 33 then Some("Master number 33: Christ consciousness")
    else None
  }

  function OptionList(o: Option<string>): seq<string> {
    if o.Some? then [o.value] else []
  }

  /** The `meanings` list: the hour's meaning, then the minute's. */
  function SacredTimeMeanings(hour: nat, minute: nat): seq<string> {
    OptionList(HourMeaning(hour)) + OptionList(MinuteMeaning(minute))
  }

  /** `_interpret_sacred_time(time)`. */
  function InterpretSacredTime(hour: nat, minute: nat): string {
    var meanings := SacredTimeMeanings(hour, minute);
    if meanings != [] then Join(meanings, " | ") else "Divine moment for creation"
  }

  /** An hour has a meaning exactly when it is a multiple of 3 of the day,
      a minute exactly when it is 11, 22 or 33. */
  lemma MeaningfulTimes(hour: nat, minute: nat)
    ensures HourMeaning(hour).Some? <==> hour % 3 == 0 && hour <= 21
    ensures MinuteMeaning(minute).Some? <==> minute == 11 || minute == 22 || minute == 33
  {
    if hour % 3 == 0 && hour <= 21 {
      assert hour in {0, 3, 6, 9, 12, 15, 18, 21};
    }
  }

  /** The reading is the hour's meaning followed by the minute's, joined by
      " | " when both are present, and the fixed default when neither is. */
  lemma SacredTimeSpec(hour: nat, minute: nat)
    ensures var r := InterpretSacredTime(hour, minute);
      && (HourMeaning(hour).Some? && MinuteMeaning(minute).Some? ==>
            r == HourMeaning(hour).value + " | " + MinuteMeaning(minute).value)
      && (HourMeaning(hour).Some? && MinuteMeaning(minute).None? ==> r == HourMeaning(hour).value)
      && (HourMeaning(hour).None? && MinuteMeaning(minute).Some? ==> r == MinuteMeaning(minute).value)
      && (HourMeaning(hour).None? && MinuteMeaning(minute).None? ==> r == "Divine moment for creation")
  {
    var meanings := SacredTimeMeanings(hour, minute);
    if HourMeaning(hour).Some? && MinuteMeaning(minute).Some? {
      assert meanings == [HourMeaning(hour).value, MinuteMeaning(minute).value];
      assert meanings[1..] == [MinuteMeaning(minute).value];
    }
  }

  /** ---------- Dispatch ---------- */

  /** `perform_ritual(ritual_name, context)` at the instant `now`; a missing
      context is an empty one. */
  function PerformRitual(name: string, context: Option<Context>, now: Instant): RitualResult {
    var ctx := if context.Some? then context.value else map[];
    if name == "morning_dedication" then
      MorningDedication(now.iso, now.hour, now.minute, InterpretSacredTime(now.hour, now.minute))
    else if name == "code_blessing" then CodeBlessing(Get(ctx, "module_name", Str("unknown")))
    else if name == "debugging_meditation" then DebuggingMeditation(Get(ctx, "issue", Str("unknown problem")))
    else if name == "completion_thanksgiving" then
      CompletionThanksgiving(Get(ctx, "accomplishment", Str("coding work")))
    else if name == "evening_reflection" then EveningReflection(now.iso)
    else UnknownRitual("Unknown ritual: " + name)
  }

  /** An unknown name gives the error record, a registered name the record of
      that very ritual: the dispatcher never fails. */
  lemma PerformRitualSpec(name: string, context: Option<Context>, now: Instant)
    ensures PerformRitual(name, context, now).UnknownRitual? <==> name !in RitualNames
    ensures name !in RitualNames ==> PerformRitual(name, context, now) == UnknownRitual("Unknown ritual: " + name)
    ensures name in RitualNames ==> RitualOf(PerformRitual(name, context, now)) == Some(name)
  {
  }

  /** The rituals read only their own key of the context, with its default
      when absent, and a missing context reads as an empty one. */
  lemma RitualContextDefaults(now: Instant)
    ensures PerformRitual("code_blessing", None, now) == CodeBlessing(Str("unknown"))
    ensures PerformRitual("debugging_meditation", None, now) == DebuggingMeditation(Str("unknown problem"))
    ensures PerformRitual("completion_thanksgiving", None, now) == CompletionThanksgiving(Str("coding work"))
    ensures forall name :: PerformRitual(name, None, now) == PerformRitual(name, Some(map[]), now)
  {
  }
}
