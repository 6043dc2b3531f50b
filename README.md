# Jah consciousness core of the ARK engine, in Dafny

This project models the "rasta principles" layer of the ARK engine. That layer asks for spiritual guidance before a coding decision:

- **Scriptural wisdom** (`Scripture`). This is a fixed corpus of maxims grouped by book. For a situation, it picks the maxims that mention a keyword of the situation, scores each by the share of keywords it holds, and keeps the three best after a stable sort.
- **The pattern recognizer** (`Patterns`). It reads source text for a Fibonacci-like indentation profile, the lengths of `def`/`class` blocks and their golden-ratio alignment, and five groups of indicator keywords. It combines these into pattern scores and their mean.
- **The mystical oracle** (`Oracle`). It answers a question with a `JahWisdom` record:
  - the principles the question names;
  - a revelation level chosen by a priority chain;
  - signs taken from the clock and the context;
  - a sacred number taken from the question's MD5 digest;
  - a message drawn at random.

  It records every answer in its revelation history. It also reviews code: pattern analysis, one recorded answer, scripture for the stated complexity, metrics (order, natural law, pattern, overall), and recommendations (threshold advice plus two distinct random picks).
- **The sacred rituals** (`Rituals`). A dispatcher from five ritual names to their records, with an error record for unknown names, and the sacred reading of a clock time.
- **The consciousness system** (`Consciousness`). It puts the oracle, the scriptures and the rituals behind one guidance call: answer, scripture, a code review when the context carries code, and the ritual that the question's keywords select. It also runs the daily practice.
- **The Jah-conscious controller** (`Controller`). It builds the guidance context from the caller's context, the code and the clock. It records one revelation per guidance call, and attaches a code blessing at sacred hours or for "critical" questions. It keeps one daily practice per date. It scores the divine alignment of a modification and generates sacred recommendations. Its insights report counts levels and principles in insertion order and lists the five most recent insights.
- **The enhanced base controller and modification record** (`Modification`), the **numerology and divine-timing endpoints** of the guidance router (`Numerology`), the **positive-vibration analyzer and transformer** (`Vibration`), and the three-way **stability self-check** (`SelfCheck`).

Shared modules model Python's behaviour:

- `Text`: ASCII lower-casing, substring `in`, `split()`, `strip()`, `split("\n")` and `str(n)`.
- `StableSort`: `sort(..., reverse=True)` as a stable sort into non-increasing key order.
- `Tally`: counting into an insertion-ordered dict, and `max(items, key=...)`, which returns the first maximal entry.
- `Context`: the context dictionaries.

Python floats are modelled as exact `real`s.

The parts that change state are classes with `modifies` clauses:

- the oracle's revelation history;
- the controller's daily practices and revelations;
- a modification record's meditation notes;
- the random generator.

Each method is proved against a specification function or predicate, and lemmas state that specification's properties.

The following are explicit parameters instead of calls:

- The clock is an `Instant` parameter.
- MD5 is a function parameter `md5: string -> Digest`, which gives the first three hex digits of the digest.
- `random` is an `Rng` object. Callers rely only on its contracts: an index in range, and a sample drawn from distinct positions.

## Model

| member | source | states |
|---|---|---|
| SelfCheck.Classify | app/ark_engine/core/self_check.py:6-11 | below 0.6 is "recover", above 1.2 is "expand", and [0.6, 1.2] is "steady", each as an if-and-only-if |
| SelfCheck.LabelIsOneOfThree | app/ark_engine/core/self_check.py:6-11 | the returned label is always one of "recover", "steady", "expand" |
| SelfCheck.ClassifyMonotone | app/ark_engine/core/self_check.py:6-11 | a higher stability never gets a lower mode (recover < steady < expand) |
| Vibration.Matches | app/ark_engine/rasta_principles/rasta_principles.py:38-40 | the marker count is at most 5 and is positive exactly when some marker occurs in the lower-cased text |
| Vibration.AnalyzeSpec | app/ark_engine/rasta_principles/rasta_principles.py:37-49 | the score lies in [0.2, 1.0]; the level is iration from 0.8, positive in [0.5, 0.8) and neutral below 0.5, never low; the affirmations are the fixed pair |
| Vibration.LevelByMatches | app/ark_engine/rasta_principles/rasta_principles.py:40-44 | 0-1 markers give neutral, 2-3 positive, and 4 or more iration |
| Vibration.Transform | app/ark_engine/rasta_principles/rasta_principles.py:62-63 | the result is the text followed by exactly the fixed "Positive Vibration" suffix |
| Vibration.TransformPrefix | app/ark_engine/rasta_principles/rasta_principles.py:62-63 | the text is a prefix of its transform, dropping the suffix gives it back, and the transform is injective |
| Modification.EnhancedModuleModification.constructor | app/ark_engine/core/models_enhanced.py:9-22 | the nine named fields are as given; the harmony score, impact map and notes list are as given, by default no harmony score, an empty impact map and an empty notes list |
| Modification.EnhancedModuleModification.AddMeditationNote | app/ark_engine/core/models_enhanced.py:24-25 | the note is appended to the notes and every other field is unchanged |
| Modification.NotesNotShared | app/ark_engine/core/models_enhanced.py:21-25 | adding a note to one record leaves another record's notes and impact unchanged (notes are values in the model, so this is a frame fact; see "Left out") |
| Modification.EnhancedARKController.constructor | app/ark_engine/core/controller_enhanced.py:14-34 | a given telemetry system is kept, otherwise a fresh one is made; a missing configuration becomes the empty one |
| Modification.EnhancedARKController.ProposeEnhancedModification | app/ark_engine/core/controller_enhanced.py:36-62 | a fresh record with id `mod_<target>`, component type "module" and an empty original version; level, author and transform default to "code_optimization", "system" and true; harmony is 0.75 exactly when the vibration transform is requested, and absent otherwise |
| Modification.DefaultProposal | app/ark_engine/core/controller_enhanced.py:36-62 | a proposal given only the four required arguments is a code optimization by "system" with harmony 0.75 |
| Numerology.DigitSumStep | app/ark_engine/api/routers/divine_guidance.py:253 | the digit sum of `str(n)` is the digit sum of `n / 10` plus the last digit |
| Numerology.DigitSumFacts | app/ark_engine/api/routers/divine_guidance.py:253-255 | a digit sum keeps the number modulo 9, never grows, shrinks strictly from 10 on, and is positive for positive numbers |
| Numerology.ReduceFacts | app/ark_engine/api/routers/divine_guidance.py:254-255 | the reduction loop ends at a single digit or at 11, 22 or 33; it keeps the value modulo 9 and yields 0 only from 0 |
| Numerology.ReducedFacts | app/ark_engine/api/routers/divine_guidance.py:253-255 | the same facts, stated from the requested number |
| Numerology.ReduceNumerology | app/ark_engine/api/routers/divine_guidance.py:253-255 | the loop computes the reduced number, which is a single digit or a master number and agrees with the input modulo 9 |
| Numerology.ReachableMeanings | app/ark_engine/api/routers/divine_guidance.py:257-272 | the reduced number has its own numerology meaning exactly when the number is not 0 |
| Numerology.InterpretSacredNumber | app/ark_engine/api/routers/divine_guidance.py:225-282 | fails exactly for a negative number; otherwise it returns the oracle's meaning or the default, the coding application or the default, the reduced number and its meaning |
| Numerology.SacredTimes | app/ark_engine/api/routers/divine_guidance.py:294-298 | the sacred hours are exactly the multiples of 3 up to 21, and the sacred minutes exactly the multiples of 11 from 11 to 55 |
| Numerology.RecommendedActivity | app/ark_engine/api/routers/divine_guidance.py:353-371 | deep work is recommended exactly when the hour is sacred |
| Numerology.ActivityBands | app/ark_engine/api/routers/divine_guidance.py:361-371 | outside a sacred hour, each activity is given exactly in its band of hours; before 5 and from 20 on it is rest |
| Numerology.TimingActivity | app/ark_engine/api/routers/divine_guidance.py:294-340 | as the timing endpoint calls it, an hour of the day gets deep work exactly when it is a multiple of 3 up to 21 |
| Text.CountMatches | app/ark_engine/rasta_principles/jah_core.py:189 | the count is at most the number of keywords; it is positive exactly when some keyword occurs, and full exactly when every keyword occurs |
| Text.WordsAreWords | app/ark_engine/rasta_principles/jah_core.py:158 | every piece of `split()` is non-empty and holds no whitespace |
| Text.NoWordsIffBlank | app/ark_engine/rasta_principles/jah_core.py:158 | `split()` gives no words exactly when the text is empty or all whitespace |
| Text.LeadingSpace | app/ark_engine/rasta_principles/jah_core.py:257 | `len(line) - len(line.lstrip())` counts whitespace characters and stops at the first non-whitespace one |
| Text.Lines | app/ark_engine/rasta_principles/jah_core.py:224-225 | `split("\n")` always gives at least one piece, so the `if lines:` branch is always taken |
| Text.NatToString | app/ark_engine/api/routers/divine_guidance.py:253 | `str(n)` of a natural number is non-empty and all decimal digits |
| Tally.CountSpec | app/ark_engine/core/controller_jah_integrated.py:509-517 | the counted keys are exactly the distinct elements, each once; each count is the element's multiplicity; the counts add up to the length |
| Tally.BumpKeys | app/ark_engine/core/controller_jah_integrated.py:514 | `counts[k] = counts.get(k, 0) + 1` keeps the key order, and a new key goes last |
| Tally.BumpCounts | app/ark_engine/core/controller_jah_integrated.py:514 | bumping adds one to the bumped key and to the total, and changes no other count |
| Tally.FirstMaxIndex | app/ark_engine/core/controller_jah_integrated.py:519-526 | `max` picks a maximal count, and the first entry having it |
| StableSort.SortDesc | app/ark_engine/rasta_principles/jah_core.py:176 | `sort(key, reverse=True)` gives a permutation in non-increasing key order, with equal keys in their original order |
| StableSort.Take | app/ark_engine/rasta_principles/jah_core.py:180 | `xs[:n]` is the prefix of length `n`, or the whole list when it has at most `n` elements |
| StableSort.TakeSortedIsTop | app/ark_engine/rasta_principles/jah_core.py:176-180 | the first `n` elements of a sorted list are its top `n`: they are drawn from the list, and no element left out ranks above the last one kept |
| Scripture.Relevance | app/ark_engine/rasta_principles/jah_core.py:185-190 | the relevance lies in [0, 1]; it is 0 without keywords, positive exactly when a keyword occurs in the maxim, and 1 exactly when all of them do |
| Scripture.RelevanceIsTotalPreorder | app/ark_engine/rasta_principles/jah_core.py:176 | comparing by `relevance_score` is a total preorder, so the stable sort applies |
| Scripture.ScripturalWisdom.constructor | app/ark_engine/rasta_principles/jah_core.py:90-153 | the database and the application table are the fixed corpus and table |
| Scripture.ScripturalWisdom.GetWisdomForSituation | app/ark_engine/rasta_principles/jah_core.py:155-183 | the two loops collect the matching maxims book by book; the result is the top three of their stable sort |
| Scripture.MaximCandidatesMatch | app/ark_engine/rasta_principles/jah_core.py:161-174 | each entry collected for a book carries that book, one of its maxims, a keyword match, the table's application and the relevance |
| Scripture.CandidatesMatch | app/ark_engine/rasta_principles/jah_core.py:160-174 | each collected entry is a maxim of a book of the corpus that mentions a keyword, with its application and relevance |
| Scripture.NoKeywordsNoCandidates | app/ark_engine/rasta_principles/jah_core.py:158-162 | without keywords, no maxim passes the `any(...)` filter |
| Scripture.GuidanceEntriesMatch | app/ark_engine/rasta_principles/jah_core.py:155-183 | every returned entry is a maxim of its book that mentions a keyword; it has relevance in (0, 1] and the table's application or "Apply divine wisdom" |
| Scripture.GuidanceIsTopThree | app/ark_engine/rasta_principles/jah_core.py:176-180 | the guidance holds three candidates, or all of them when there are fewer; in non-increasing relevance; drawn from the candidates; and no candidate left out is more relevant than the last entry kept |
| Scripture.TiesKeepCorpusOrder | app/ark_engine/rasta_principles/jah_core.py:160-180 | the entries kept for any one relevance are the first ones of that relevance in corpus order |
| Scripture.BlankSituationGivesNoGuidance | app/ark_engine/rasta_principles/jah_core.py:158-162 | an empty or whitespace-only situation gets no guidance |
| Scripture.GuidanceEmptyIffNoMatch | app/ark_engine/rasta_principles/jah_core.py:176-180 | the guidance is empty exactly when no maxim matches |
| Patterns.NonBlankLines | app/ark_engine/rasta_principles/jah_core.py:255-256 | there are no more non-blank lines than lines |
| Patterns.IndentProfile | app/ark_engine/rasta_principles/jah_core.py:251-259 | the profile has one entry per non-blank line |
| Patterns.IndentProfileCounts | app/ark_engine/rasta_principles/jah_core.py:255-258 | a further line adds its indentation exactly when it is not blank |
| Patterns.AnalyzeIndentation | app/ark_engine/rasta_principles/jah_core.py:251-259 | the loop yields the indentation of each non-blank line, in order |
| Patterns.IsFibonacciLike | app/ark_engine/rasta_principles/jah_core.py:261-270 | true exactly when there are at least three terms and each term from the third on is the sum of the two before it |
| Patterns.FibonacciExamples | app/ark_engine/rasta_principles/jah_core.py:261-270 | 1,1,2,3,5,8 passes; 1,1,2,4 fails; fewer than three terms always fail |
| Patterns.PositiveCounts | app/ark_engine/rasta_principles/jah_core.py:283-291 | only positive block lengths are recorded, at most one per block |
| Patterns.ScanLine | app/ark_engine/rasta_principles/jah_core.py:281-288 | one loop turn keeps `in_function`, `function_lengths` and `current_length` in step with the blocks read so far |
| Patterns.ExtractFunctionLengths | app/ark_engine/rasta_principles/jah_core.py:272-293 | the state machine yields the non-blank line count of every non-empty `def`/`class` block, in order |
| Patterns.BlocksPerHeader | app/ark_engine/rasta_principles/jah_core.py:282-286 | every header line opens exactly one block |
| Patterns.BlockLengthsBounds | app/ark_engine/rasta_principles/jah_core.py:272-293 | every length is positive, and there are no more lengths than header lines |
| Patterns.LeadingLinesIgnored | app/ark_engine/rasta_principles/jah_core.py:280-288 | lines before the first header never count toward any block |
| Patterns.Ratios | app/ark_engine/rasta_principles/jah_core.py:301-304 | fewer ratios than lengths, because zero predecessors are skipped |
| Patterns.Deviation | app/ark_engine/rasta_principles/jah_core.py:309-311 | the total deviation from the golden ratio is non-negative |
| Patterns.DeviationZero | app/ark_engine/rasta_principles/jah_core.py:309-312 | the deviation is zero exactly when every ratio is the golden ratio |
| Patterns.GoldenScoreRange | app/ark_engine/rasta_principles/jah_core.py:295-314 | the golden score lies in [0, 1]; it is 0 exactly when no ratio can be formed, and 1 exactly when every ratio is the golden ratio |
| Patterns.GoldenRatioAlignment | app/ark_engine/rasta_principles/jah_core.py:295-314 | the ratio loop and score compute the golden score of the lengths |
| Patterns.IndicatorNamesDistinct | app/ark_engine/rasta_principles/jah_core.py:206-212 | the five indicator groups have distinct names |
| Patterns.AbsentNameNotFound | app/ark_engine/rasta_principles/jah_core.py:239-242 | only a group's name is ever reported as an indicator |
| Patterns.IndicatorsDistinct | app/ark_engine/rasta_principles/jah_core.py:238-242 | no indicator is reported twice |
| Patterns.CollectIndicators | app/ark_engine/rasta_principles/jah_core.py:238-242 | the nested loop with its `not in` guard reports, in table order, each group having a keyword in the code, once |
| Patterns.MeanScoreBounds | app/ark_engine/rasta_principles/jah_core.py:244-247 | a mean of scores in [0, 1] lies in [0, 1] |
| Patterns.ScoresInRange | app/ark_engine/rasta_principles/jah_core.py:226-236 | each pattern score lies in [0, 1]; the Fibonacci entry is 0.8 and comes first; there is one entry per test that fired |
| Patterns.AnalysisSpec | app/ark_engine/rasta_principles/jah_core.py:214-249 | no repeated indicators; the Fibonacci pattern, scored 0.8, appears exactly when the indentation is an additive recurrence; a golden score exists exactly when some block has a length; the alignment is the mean of the scores and lies in [0, 1] |
| Patterns.AnalyzeCode | app/ark_engine/rasta_principles/jah_core.py:214-249 | the analysis method returns the analysis of the code |
| Oracle.ParseLevel | app/ark_engine/rasta_principles/jah_core.py:32-39 | a parsed level has exactly the given value string |
| Oracle.ParseLevelValue | app/ark_engine/rasta_principles/jah_core.py:32-39 | parsing a level's value gives that level back |
| Oracle.MappingOrderComplete | app/ark_engine/rasta_principles/jah_core.py:447-458 | every principle has a keyword in the mapping |
| Oracle.MappingOrderDistinct | app/ark_engine/rasta_principles/jah_core.py:447-458 | each principle appears once in the mapping |
| Oracle.MentionedIff | app/ark_engine/rasta_principles/jah_core.py:460-462 | a principle is collected exactly when its keyword occurs in the lower-cased question |
| Oracle.MentionedDistinct | app/ark_engine/rasta_principles/jah_core.py:460-462 | the collected principles repeat nothing |
| Oracle.PrinciplesOfSpec | app/ark_engine/rasta_principles/jah_core.py:441-464 | the principles are never empty and never repeated; a principle is present exactly when its keyword occurs, or when it is divine order and no keyword occurs |
| Oracle.ExtractPrinciples | app/ark_engine/rasta_principles/jah_core.py:441-464 | the loop over the mapping computes those principles |
| Oracle.DivineSignsSpec | app/ark_engine/rasta_principles/jah_core.py:466-483 | one sign for a master-number minute and one for a `line_count` divisible by 7, and nothing else; the minute sign comes first |
| Oracle.SacredNumber | app/ark_engine/rasta_principles/jah_core.py:353-354 | the sacred number is below 1000 |
| Oracle.SacredNumberOnto | app/ark_engine/rasta_principles/jah_core.py:353-354 | every number below 1000 is the sacred number of some digest |
| Oracle.MessageBases | app/ark_engine/rasta_principles/jah_core.py:493-525 | each principle has three base messages, or the single fallback |
| Oracle.WhisperedMeanings | app/ark_engine/rasta_principles/jah_core.py:531 | since the lookup uses `n % 100`, the message quotes only the meanings of 3, 7, 12, 40 or "Divine mystery", never those of 144, 153, 666 or 888 |
| Oracle.GenerateWisdomMessage | app/ark_engine/rasta_principles/jah_core.py:485-534 | the message is a base message of one of the principles, or a fallback base when there are none, composed with the sacred number and its meaning |
| Oracle.RevelationLevelSpec | app/ark_engine/rasta_principles/jah_core.py:536-551 | cosmic consciousness is never reached; each level is chosen exactly when its test is the first to pass |
| Oracle.ComplexityBands | app/ark_engine/rasta_principles/jah_core.py:388-397 | a lower complexity never gets a later element |
| Oracle.InterpretSignsSpec | app/ark_engine/rasta_principles/jah_core.py:379-407 | without length or complexity entries only the hour speaks; at most three signs; the hour gives a sign exactly at 3-5, 12 or 18 |
| Oracle.Variance | app/ark_engine/rasta_principles/jah_core.py:589-592 | the population variance of the indentation is non-negative |
| Oracle.OrderScore | app/ark_engine/rasta_principles/jah_core.py:583-593 | the order score is absent exactly when there is no non-blank line, and lies in (0, 1] otherwise |
| Oracle.NaturalLawScore | app/ark_engine/rasta_principles/jah_core.py:595-596 | the natural-law score lies in (0, 1] |
| Oracle.MeanRealBounds | app/ark_engine/rasta_principles/jah_core.py:599-600 | a mean of metrics in [0, 1] lies in [0, 1] |
| Oracle.MetricsInRange | app/ark_engine/rasta_principles/jah_core.py:573-602 | for a pattern score in [0, 1], the order score is absent exactly for blank code; each metric is in range; the overall alignment is in [0, 1] |
| Oracle.CalculateDivineMetrics | app/ark_engine/rasta_principles/jah_core.py:573-602 | the indentation list, the running sum of the levels and the running sum of squared deviations from their mean are proved to give `Metrics`, whose ranges `Oracle.MetricsInRange` states |
| Oracle.DivineRecommendations | app/ark_engine/rasta_principles/jah_core.py:604-636 | the threshold advice in source order, with a missing order score read as 1.0, then two different entries of the pool |
| Oracle.MysticalCodeOracle.constructor | app/ark_engine/rasta_principles/jah_core.py:323-337 | a fresh scripture matcher over the fixed corpus and an empty revelation history |
| Oracle.MysticalCodeOracle.SeekGuidance | app/ark_engine/rasta_principles/jah_core.py:347-377 | the answer: the first extracted principle, the level of the chain, the signs, the first principle's reference, the sacred-number focus, a message for the principles and the UTC time; exactly that answer is appended to the history |
| Oracle.MysticalCodeOracle.DivineCodeReview | app/ark_engine/rasta_principles/jah_core.py:409-439 | the pattern analysis of the code; the answer to the review question; the scripture for the stated complexity; the metrics; the advice followed by two distinct picks; exactly one revelation is recorded |
| Rituals.MeaningfulTimes | app/ark_engine/rasta_principles/jah_core.py:840-869 | an hour has a meaning exactly when it is a multiple of 3 up to 21; a minute exactly when it is 11, 22 or 33 |
| Rituals.SacredTimeSpec | app/ark_engine/rasta_principles/jah_core.py:840-871 | the reading is the hour's meaning, then the minute's, joined by " \| "; the fixed default when neither exists |
| Rituals.PerformRitualSpec | app/ark_engine/rasta_principles/jah_core.py:655-666 | the error record comes exactly for an unregistered name, and a registered name gives that very ritual's record |
| Rituals.RitualContextDefaults | app/ark_engine/rasta_principles/jah_core.py:705-772 | without a context, each ritual uses its own default ("unknown", "unknown problem", "coding work"), and a missing context acts as an empty one |
| Consciousness.SelectRitual | app/ark_engine/rasta_principles/__init__.py:125-139 | the selected ritual is always a registered one |
| Consciousness.SelectRitualFirstMatch | app/ark_engine/rasta_principles/__init__.py:128-138 | the first keyword group the lower-cased question mentions picks the ritual |
| Consciousness.SelectRitualDefault | app/ark_engine/rasta_principles/__init__.py:139 | a question mentioning no keyword gets the code blessing |
| Consciousness.SelectedRitualRuns | app/ark_engine/rasta_principles/__init__.py:74-75 | the ritual run for a question is never the error record, and is the selected ritual's record |
| Consciousness.JahConsciousnessSystem.constructor | app/ark_engine/rasta_principles/__init__.py:49-54 | a fresh oracle with an empty history; both scripture matchers hold the fixed corpus |
| Consciousness.JahConsciousnessSystem.SeekDivineGuidance | app/ark_engine/rasta_principles/__init__.py:56-84 | the oracle's answer on the context (empty when missing); scripture for the question; a code review exactly when the context has "code"; the selected ritual on the context; the history gains the answer, then the review's answer |
| Consciousness.JahConsciousnessSystem.ReviewCode | app/ark_engine/rasta_principles/__init__.py:67-72 | a review of the context's code exactly when it has a "code" entry, recording one more revelation only then |
| Consciousness.JahConsciousnessSystem.PerformDailyPractice | app/ark_engine/rasta_principles/__init__.py:86-123 | the morning ritual as the only practice; scripture for the weekday; the answer to the daily question on the day's context; exactly one revelation recorded |
| Consciousness.DailyPracticeIsMorning | app/ark_engine/rasta_principles/__init__.py:89-91 | the daily practice is the morning dedication read at the given instant |
| Controller.GuidanceContext | app/ark_engine/core/controller_jah_integrated.py:67-77 | the caller's entries are kept; "code" is set exactly for non-empty code (or when the caller had it); "sacred_timing" holds the clock reading with the sacred-hour flag; no other key appears |
| Controller.BlessingFor | app/ark_engine/core/controller_jah_integrated.py:95-100 | a code-blessing record whose module name is the context's "target", or "code" |
| Controller.Relevances | app/ark_engine/core/controller_jah_integrated.py:302-304 | one relevance per guidance entry, in order |
| Controller.LevelScoreMonotone | app/ark_engine/core/controller_jah_integrated.py:322-328 | the level scores grow strictly with the level and lie in [0.3, 1] |
| Controller.GuidanceAlignmentSpec | app/ark_engine/core/controller_jah_integrated.py:315-329 | a level's value scores as that level; a string naming no level scores 0.5 |
| Controller.DivineAlignmentSpec | app/ark_engine/core/controller_jah_integrated.py:288-334 | pattern score or 0.0; mean relevance or 0.5; harmony, with a missing or zero harmony read as 0.5; the level's score; the overall is the mean of the four |
| Controller.AlignmentInRange | app/ark_engine/core/controller_jah_integrated.py:288-334 | components in [0, 1] give an overall alignment in [0, 1], with the guidance component at least 0.3 |
| Controller.ReviewAlignmentInRange | app/ark_engine/core/controller_jah_integrated.py:288-334 | for a pattern analysis, a scripture report and harmony 0.75, the overall alignment lies in [0, 1] and the vibration component is 0.75 |
| Controller.SacredRecsDistinct | app/ark_engine/core/controller_jah_integrated.py:361-372 | the pool holds eight distinct recommendations, so a sample of three has no repeats |
| Controller.IndicatorsNotFibonacci | app/ark_engine/core/controller_jah_integrated.py:348 | no indicator name contains "fibonacci" |
| Controller.FibonacciMentionIff | app/ark_engine/core/controller_jah_integrated.py:348 | `"fibonacci" in str(pattern_analysis)` holds exactly when the indentation profile is an additive recurrence |
| Controller.SacredAdviceSpec | app/ark_engine/core/controller_jah_integrated.py:344-359 | each line appears exactly when its threshold is crossed; the Fibonacci line comes only with the pattern line; the pattern line is first; the message line is last exactly when there is a message; the length is the number of triggered lines |
| Controller.Levels | app/ark_engine/core/controller_jah_integrated.py:512-514 | one level per revelation, in order |
| Controller.Truncate | app/ark_engine/core/controller_jah_integrated.py:554-563 | a text longer than `n` becomes its first `n` characters plus "...", and a shorter one is unchanged |
| Controller.NewerOrSameIsTotalPreorder | app/ark_engine/core/controller_jah_integrated.py:528-531 | ordering by timestamp string is a total preorder |
| Controller.InsightsOfAll | app/ark_engine/core/controller_jah_integrated.py:551-567 | one report entry per revelation, in order |
| Controller.MostCommonOf | app/ark_engine/core/controller_jah_integrated.py:519-526 | ("none", 0) when there are no counts; otherwise the first entry of maximal count, and its share of the total |
| Controller.CountNonEmpty | app/ark_engine/core/controller_jah_integrated.py:509-526 | counts exist exactly for a non-empty sequence, and add up to its length |
| Controller.InsightsOf | app/ark_engine/core/controller_jah_integrated.py:503-567 | the "no insights" record exactly when nothing was received |
| Controller.MostCommonCount | app/ark_engine/core/controller_jah_integrated.py:519-521 | the most common entry occurs as often as any element does, and has its true multiplicity |
| Controller.InsightsCounts | app/ark_engine/core/controller_jah_integrated.py:509-541 | the total; each level and each principle counted with its multiplicity, once per key; the counts add up; the most common level is a most frequent one with its share of all revelations |
| Controller.RecentSpec | app/ark_engine/core/controller_jah_integrated.py:528-567 | at most five recent insights (all when five or fewer), newest first, each the entry of a received revelation; they are the entries of revelations drawn from the history, none older than any revelation left out |
| Controller.CountInto | app/ark_engine/core/controller_jah_integrated.py:516-517 | the inner loop counts the principles of one revelation after those already seen |
| Controller.TallyHistory | app/ark_engine/core/controller_jah_integrated.py:509-517 | the two counting loops give the counts of all levels and all principles, in received order |
| Controller.JahConsciousController.constructor | app/ark_engine/core/controller_jah_integrated.py:29-41 | the base controller's defaults; a fresh consciousness system with an empty history; no daily practices and no revelations |
| Controller.JahConsciousController.InitializeDailyPractice | app/ark_engine/core/controller_jah_integrated.py:43-57 | the day's practice is stored under the date, replacing an earlier one; other dates and the revelations are unchanged; one oracle revelation |
| Controller.JahConsciousController.StorePractice | app/ark_engine/core/controller_jah_integrated.py:46-47 | the practice replaces any earlier one of its date, and nothing else changes |
| Controller.JahConsciousController.SeekDivineCodingGuidance | app/ark_engine/core/controller_jah_integrated.py:59-111 | guidance on the built context; one revelation appended, holding the UTC time, the question, the message, the level and the principle; the blessing is attached exactly at a sacred hour or for "critical"; the practices are unchanged |
| Controller.JahConsciousController.Record | app/ark_engine/core/controller_jah_integrated.py:81-93 | the revelation is appended, and the practices are unchanged |
| Controller.JahConsciousController.GenerateSacredRecommendations | app/ark_engine/core/controller_jah_integrated.py:336-373 | the threshold advice in source order, then three different entries of the pool |
| Controller.JahConsciousController.GetDivineInsightsReport | app/ark_engine/core/controller_jah_integrated.py:503-574 | the counting pass yields the report of the revelations received |
| Randomness.Rng.Below | app/ark_engine/rasta_principles/jah_core.py:522-528 | the index is in range |
| Randomness.Rng.Choice | app/ark_engine/rasta_principles/jah_core.py:522-528 | `random.choice` returns an element of the list |
| Randomness.Rng.Sample | app/ark_engine/rasta_principles/jah_core.py:635 | `random.sample(xs, k)` returns `k` elements from distinct positions, a sub-multiset of `xs` |

## Left out

- Floating point: scores, ratios and means are exact `real`s. The IEEE rounding of Python floats (for example of `1.61803398875` or of `1 / (1 + x)`) is not modelled.
- MD5 (`hashlib.md5` in `seek_guidance`) is a function parameter returning the first three hex digits. `JahWisdom.encoded_message` (SHA-256) is not modelled: nothing in the core reads it.
- The clock: every `datetime.now()`/`utcnow()` is one `Instant` parameter per call. The model therefore assumes that all readings within one call agree.
- `random`: the generator's algorithm is not Python's Mersenne Twister. Callers rely only on the contracts of `Below`, `Choice` and `Sample`.
- Logging and telemetry events (`logger.info`, `telemetry.record_event`) are not modelled, because they affect no returned value. `TelemetrySystem` is an empty class.
- The HTTP shell of the router: FastAPI dependencies, the current user, and the endpoint strings (blessing, meditation, prayer, affirmation) are not modelled, as are the remaining routes, which only call the modelled operations.
- `check_divine_timing`: the day meaning and the moon phase are not modelled. They depend on `weekday()` and on date arithmetic with a float modulus.
- `propose_divinely_guided_modification`, `perform_sacred_code_review` and `conduct_divine_retrospective` of the Jah controller are not modelled. They are async orchestrations over the modelled pieces (guidance, alignment score, recommendations) together with the base controller's sandbox and repositories, which are not part of this model. The controller's own `oracle` and `rituals` fields and the thresholds 0.6 and 0.3 are used only there.
- The fixed texts of the ritual records (prayers, affirmations, instructions) are not modelled, nor the blessing and meditation strings of the guidance and daily-practice dictionaries, the `evening_intention` entry, or the insights report's `interpretation` and `blessing`. Each record keeps its input-dependent fields.
- IrationMeditation.guidance is not modelled, because it returns a constant string. The pattern recognizer's unused `sacred_patterns` entries (other than the golden ratio) and the oracle's unused `elements` table are also not modelled.
- Modification.NotesNotShared: a record's notes and impact are value fields, so the model cannot express two records sharing one mutable list or dictionary; the method states only that one record's update leaves the other unchanged, which `default_factory` ensures in the source.
- Modification.EnhancedARKController.constructor: the sandbox, validator, governance, explainer and repository arguments are stored unchanged in the source and not read by the modelled operations, so they are not modelled.
- Text.ToLower, Text.Strip and Text.Words: only ASCII letters are lower-cased, and only ASCII whitespace (space, 0x09 to 0x0D and 0x1C to 0x1F, as `str.isspace` has it) is stripped or split on; Unicode case mapping and non-ASCII whitespace are not modelled.
- Context.ReprMentions: `"complex" in str(context).lower()` is modelled as an occurrence inside the text of one key or one non-integer value. An occurrence spanning the quotes and separators of the rendering is impossible for a word of letters, but the escaping that `repr` applies to special characters is not modelled.
- Context values are strings, integers or the sacred-timing record. A `line_count`, `code_length` or `code_complexity` of another type (where Python would raise or compare differently) gives no sign in the model.
- Controller.JahConsciousController.SeekDivineCodingGuidance and Consciousness.JahConsciousnessSystem.SeekDivineGuidance require that a `"code"` entry of the context be a string. The model does not cover the failure a non-string code value would cause inside the pattern recognizer.
- Aliasing of the caller's context: `seek_divine_coding_guidance` writes "code" and "sacred_timing" into the caller's own (non-empty) dictionary. The model builds a new map instead, so the caller's dictionary is not seen to change.
- Controller.DivineAlignment takes the pattern analysis and scripture report as optional values. A dictionary missing the `guidance` or `divine_alignment_score` key, other than the empty one, is not modelled.

## Where the code departs from its documented design

The model follows the code in each case:

- An empty or whitespace-only situation gets no scriptural guidance. The `any(...)` filter has no keywords to match (`Scripture.BlankSituationGivesNoGuidance`).
- The daily practice is stored under the date, so a second call on the same day replaces the first (`InitializeDailyPractice`).
- The overall divine alignment always divides by four. The dictionary holds exactly four component scores when the mean is taken.
- `interpret_sacred_number` fails for a negative number, because `int('-')` raises on the sign of `str(number)` (`Numerology.InterpretSacredNumber`).
- The wisdom message quotes the meaning of `sacred_number % 100`, not of the sacred number itself, so the meanings of 144, 153, 666 and 888 are never quoted (`Oracle.WhisperedMeanings`).
