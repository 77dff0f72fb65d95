# Child-illness triage scorer

A Dafny model of `compute_result` in `website.py`. This is the decision core
of an offline caregiver screening tool for children under five. It takes a
submitted answer form and does the following:

1. Decodes the form. Yes/No strings become booleans, and the breathing rate
   is read permissively.
2. Adds fixed rule weights to four condition scores: Pneumonia, Malaria,
   Malnutrition and Neonatal complications. Some weights depend on the age
   group, and a fast-breathing flag is derived on the way.
3. Collects the high-risk triggers.
4. Ranks the conditions.
5. Chooses the risk tier (High, Medium or Low) and the box class.
6. Composes the ordered caregiver actions and the three coaching tips of the
   top condition.

Modules, in dependency order:

- `Wrappers`: the `Option` type.
- `Conditions`: the four conditions, their dictionary order, and a
  per-condition record. Scores are held in half-points: every weight of the
  source is a multiple of 0.5, so 8.5 is held as 17 and the arithmetic is
  exact.
- `Answers`: the form and its decoding, including the breathing-rate reader, and a model of the source's own reading of that field, which can fail.
- `Scoring`:
  - the rule weights as closed-form specification functions;
  - the imperative `Accumulate`, which adds the weights in source order and
    is proved equal to those functions.
- `Ranking`: a stable sort by score, with ties in dictionary order. It is
  proved to be the unique such ordering, and it gives the top condition and
  the two alternatives.
- `RiskTier`: the four triggers, the imperative `CollectTriggers`, the tier
  and the box class.
- `Guidance`: the action and tip tables, declaratively and as the imperative
  append sequences of the source.
- `Triage`:
  - `ComputeResult`, the whole pipeline as a method;
  - `Screen`, its specification as a composition of functions;
  - end-to-end properties.

The softmax is floating-point, so it stays abstract. `ComputeResult` and
`Screen` take a parameter `percentOf` that maps the scores to each
condition's rounded percentage. The ranking uses the raw scores, for two
reasons:

- the softmax is strictly increasing in the score;
- the scores lie in a small range of half-points, so distinct scores give
  distinct probabilities.

Sorting by probability, as the source does, therefore gives the same order
as sorting by score. Python's `sorted` is stable also with `reverse=True`,
so equal scores keep the dictionary order.

Two facts about the code shape the model:

- The result dictionary of `compute_result` does not include the list of
  fired trigger labels. The model computes it (`RiskTier.Triggers`) but does
  not put it in the result record.
- The code silently treats an unrecognised MUAC colour or RDT value as "not
  measured" or "not done", and an unrecognised age group as matching no age
  test. It does not reject them. `Answers.Decode` does the same.

## Model

| member | source | states |
|---|---|---|
| Answers.Trim | website.py:178 | Trimming removes only blanks: the result is empty exactly when the field is all blanks; otherwise it starts and ends with a non-blank character |
| Answers.TrimSlice | website.py:178 | The trimmed text is one contiguous slice of the field, and everything cut off before and after it is blank |
| Answers.ParseRrNumeral | website.py:177-178 | Round trip: a rate written as a decimal numeral, with any white space around it, is read back as that rate |
| Answers.DigitsValueNumeral | website.py:178 | The value of the digits of a numeral is the number itself |
| Answers.ParseRrRejects | website.py:177-178 | An absent field, an all-space field, and a field with any character that is neither a digit nor white space are all read as "not measured" |
| Answers.AsWrittenFailsExactly | website.py:177-178 | The source's reading raises ValueError if and only if the field passes the `strip().isdigit()` guard and either holds a superscript digit or a separator character (code points 28-31) anywhere, or has more than 4300 digits once stripped; when it does not fail it reads exactly what the corrected reader reads |
| Answers.IntRefuses | website.py:178 | `int()` on the unstripped field fails whenever the field holds a superscript digit or a separator character |
| Answers.IntReadsStripped | website.py:178 | On a field that passes the guard and holds neither, `int()` sees exactly the stripped text, and that text is ASCII digits only |
| Answers.AsWrittenAborts | website.py:178 | The fields "²" and "60" after the file separator U+001C both make the source's reading fail with a ValueError |
| Answers.LongRateAborts | website.py:178 | A rate of more than 4300 digits, leading zeros included, makes the source's reading fail, while the corrected reader reads its value |
| Answers.ParseRrCorrected | website.py:177-178 | The corrected reading reads "²" as "not measured" and the separator-padded "60" as 60, and on every field where the source does not fail it reads what the source reads |
| Scoring.Accumulate | website.py:190-256 | Adding the weights block by block yields exactly the closed-form score of every condition, and the fast-breathing flag of the answers |
| Scoring.DetectFastBreathing | website.py:212-220 | The three age-and-rate tests set the flag exactly when the rate reaches the cut-off of the age group |
| Scoring.SignWeights | website.py:198-232 | The blocks from the age gate to stridor add exactly the Pneumonia weights, the fever part of Malaria, and the neonatal weights of the age, fever, fast-breathing and chest signs |
| Scoring.TestAndNutritionWeights | website.py:235-256 | The RDT, MUAC, oedema and young-infant blocks add exactly the RDT weight to Malaria, the Malnutrition weights, and the young-infant sign weights to Neonatal complications |
| Scoring.FastBreathingThresholds | website.py:212-220 | Fast breathing holds if and only if a rate was measured and it is at least 60 (0-2 m), at least 50 (2-12 m) or at least 40 (1-5 y) |
| Scoring.FastBreathingInfantBoundary | website.py:213-215 | At 2-12 months, 49 is not fast and 50 is; with no rate nothing is fast |
| Scoring.GarbledRateNeverFast | website.py:177-178 | A rate field holding a character that is neither a digit nor a space never counts as fast breathing |
| Scoring.ScoreBounds | website.py:198-256 | Pneumonia is 0..10.0, Malaria -3.0..8.5, Malnutrition 0..13.0, and Neonatal 0..15.5 |
| Scoring.NegativeRdtNotClamped | website.py:236-239 | A negative RDT without fever leaves Malaria at -3.0: the score is not clamped |
| Scoring.FeverWithPositiveRdt | website.py:203-237 | Fever plus a positive RDT gives Malaria 8.5 |
| Scoring.YoungInfantSignsInert | website.py:251-256 | Outside 0-2 months, changing "not feeding" and "moves only when stimulated" changes no score |
| Scoring.YoungInfantSignWeights | website.py:251-256 | At 0-2 months, each of those signs adds 3.5 to Neonatal complications and nothing elsewhere |
| Scoring.AgeDependence | website.py:198-256 | Malaria and Malnutrition do not depend on the age group; Neonatal is zero exactly outside 0-2 months |
| Ranking.Insert | website.py:275 | Insertion keeps the ranking order and adds exactly one element |
| Ranking.SortByScore | website.py:275 | The sort is a permutation of its input and is ranked by score, with ties in dictionary order |
| Ranking.Rank | website.py:275 | The ranking lists all four conditions once each, in ranked order |
| Ranking.RankCharacterized | website.py:275 | A listing of the four conditions is the ranking if and only if it is ranked by score with dictionary-order ties |
| Ranking.RankedUnique | website.py:275 | Two ranked orderings of the same conditions are equal |
| Ranking.TopIsFirstArgmax | website.py:275-276 | A condition is on top if and only if it has the highest score and comes first in dictionary order among those that share it |
| Ranking.TopWhenStrictMax | website.py:275-276 | A condition scoring strictly above all others is on top |
| Ranking.AlternativesCap | website.py:275-277 | There are at most two alternatives, the top condition is never one of them, and both rank below the top one |
| Ranking.AlternativesNextBest | website.py:275-277 | The alternatives rank above the one condition that is neither top nor alternative |
| RiskTier.CollectTriggers | website.py:258-272 | The labels are appended in order, exactly for the triggers that fire |
| RiskTier.TriggersExactly | website.py:259-272 | A label is in the list if and only if its trigger fires; there are at most four labels |
| RiskTier.NoTriggerMeansNoneFires | website.py:259-272 | The list is empty if and only if no trigger fires |
| RiskTier.TriggersInOrder | website.py:259-272 | The list is the concatenation of the four labels, each tested in turn |
| RiskTier.AllTriggersTogether | website.py:259-272 | The triggers are not exclusive: a young infant with a danger sign, oedema, cough and chest indrawing fires all four |
| RiskTier.TierDecision | website.py:281-290 | A trigger forces High; otherwise Medium if and only if the certainty is at least 80, and Low if and only if it is below 80 |
| RiskTier.BoxClassOneToOne | website.py:282-290 | The box classes danger, warn and ok correspond one to one with High, Medium and Low |
| Guidance.ComposeActions | website.py:292-312 | The appended action lines are exactly the declarative action list of the tier |
| Guidance.ComposeTips | website.py:314-338 | The tips are exactly the three tips of the top condition |
| Guidance.HighTierActions | website.py:295-302 | High: refer urgently, then keep warm; the malaria line if and only if the RDT is positive; the nutrition line, last, if and only if MUAC is red or there is oedema; 2 to 4 lines, and no per-condition line |
| Guidance.LowerTierActions | website.py:303-312 | Medium or Low: exactly two lines, the follow-up line and then the line of the top condition only |
| Guidance.TipsPerCondition | website.py:314-338 | Three tips per condition, and no tip is shared by two conditions |
| Triage.WithPercent | website.py:277 | Each alternative is paired with its own percentage, in ranking order |
| Triage.ComputeResult | website.py:170-348 | The step-by-step pipeline returns exactly the result of the composed specification |
| Triage.ScreenFields | website.py:274-290 | The top condition is the top of the ranking of the scores; the certainty is its percentage; the tier follows the triggers and that certainty; the actions and the box follow the tier |
| Triage.ScreenTop | website.py:274-276 | The top condition of a screening is the top of the ranking of its scores |
| Triage.HighTierPlainActions | website.py:296-302 | A High result without a positive RDT, a red MUAC or oedema carries exactly the two referral lines |
| Triage.DangerOverridesConfidence | website.py:281-296 | Any fired trigger gives High and the danger box whatever the percentages, and the referral comes first |
| Triage.CannotDrinkIsHigh | website.py:172-283 | A cannot-drink answer alone makes the result High |
| Triage.UntriggeredTier | website.py:281-312 | With no trigger, the tier is Medium if and only if the certainty is at least 80, else Low, with the two lower-tier actions |
| Triage.ResultRanking | website.py:274-279 | The top condition has the highest score and its percentage is the certainty; there are at most two alternatives, each with its own percentage and none the top one |
| Triage.TipsIndependentOfRisk | website.py:314-338 | Results with the same top condition have the same three tips, whatever their tiers |
| Triage.YoungInfantSignsIgnored | website.py:251-272 | Outside 0-2 months, "not feeding" and "moves only when stimulated" change nothing in the result |
| Triage.SeverePneumoniaScores | website.py:198-256 | A child of 1-5 years with cough and chest indrawing, no RDT, a green MUAC and no oedema has Pneumonia at least 5.0, Malaria at most 2.5 and the other scores zero, whatever the fever, stridor and breathing-rate answers |
| Triage.SeverePneumoniaScenario | website.py:209-298 | A child of 1-5 years with cough and chest indrawing, no danger sign, no RDT, a green MUAC and no oedema is High, with Pneumonia on top and the two referral lines, whatever the fever, stridor and breathing-rate answers |
| Triage.ConfirmedMalariaScenario | website.py:203-308 | Fever with a positive RDT and nothing else gives Malaria 8.5 on top and no trigger; with a certainty of at least 80 the tier is Medium, with the malaria-test line after the follow-up line |

## Left out

- The Flask application, the route, the form submission and the HTML template (website.py:1-161, 350-359). These are web input and output.
- The softmax numerics: `math.exp`, the division, the 0.25 fallback for a zero sum, and rounding each probability to a whole percentage (website.py:163-168, 277, 279). They are floating-point. The rounded percentages are the parameter `percentOf`, so the property that the percentages sum to about 100 is not modelled.
- The assumption that the softmax preserves the score order is not proved. The ranking is defined on the scores, which is valid because `exp` is strictly increasing.
- A missing form key makes the dictionary lookup raise KeyError. The form is modelled as a record with every field present; only `rr` is optional, as `a.get` reads it.
- Unicode white space and digits beyond ASCII are not modelled. `Answers.IsSpace` covers only the ASCII characters that `str.strip()` removes (9-13, 28-31 and 32), `Answers.IsIntSpace` only those that `int()` skips (9-13 and 32), and `Answers.IsDigit` only '0'-'9'. Non-ASCII decimal digits, which `int()` does accept, are not modelled for that reason. The superscript digits one, two and three are the only part of that gap that is modelled; other characters that `str.isdigit()` accepts and `int()` refuses, such as circled digits, are not.
- `Answers.IntMaxDigits`: the 4300-digit cap on `int()` is CPython's default since 3.11 and since the security releases 3.7.14, 3.8.14, 3.9.14 and 3.10.7; earlier releases have no cap, and `PYTHONINTMAXSTRDIGITS`, `-X int_max_str_digits` or `sys.set_int_max_str_digits` can change it. The model fixes it at 4300.
- Triage.ComputeResult: reads the breathing rate with the corrected reader `Answers.ParseRr`, so it does not model the ValueError with which the source aborts the whole screening on the fields of the finding below ("²", "60" after a separator character 28-31, or more than 4300 digits). That abort is modelled only by `Answers.ParseRrAsWritten` and the lemmas about it.
- The wording of trigger labels, actions and tips. Each line is an enum constant, and the model keeps their identity and order.
- Idempotence of a screening is not a separate lemma: `Triage.Screen` is a function, so it cannot give two results for one input.
- Fail-fast rejection of unrecognised choice values is not modelled, because the code does not do it.

## Findings

| source | as written | input that shows it | evidently intended | confidence | as-written member | corrected member |
|---|---|---|---|---|---|---|
| website.py:178 | The guard tests `str(rr).strip().isdigit()`, but `int()` converts the unstripped field. `isdigit()` accepts superscript digits, `strip()` removes the separator characters 28-31 that `int()` does not skip, and `int()` refuses more than 4300 digits; in each case `int()` raises ValueError and the whole screening fails | rate field "²" (U+00B2); rate field "\u001C60"; a rate of 4301 zeros | A rate that is not a plain number is treated as "not measured", and a rate that passes the guard is read from its stripped digits | high; not executed | Answers.AsWrittenAborts, Answers.LongRateAborts | Answers.ParseRrCorrected |

The page's rate field is a number input with a 0-120 range (website.py:107). A browser submits it empty when its text is not a number, so "²" and "\u001C60" reach line 178 only through a request built by hand. A string of 4301 zeros is a number of value 0, within the range, so it can be typed into the field.
