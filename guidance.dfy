/**
  The caregiver guidance of `compute_result`: an ordered list of actions
  that escalates with the risk tier, and three coaching tips chosen by the
  top condition alone. Each constructor stands for one fixed English line.
 */
module Guidance {
  import opened Conditions
  import opened Answers
  import opened RiskTier

  datatype Action =
    | ReferUrgently           // "Refer urgently to the nearest health facility now."
    | KeepWarmAndFeed         // "Keep the child warm and continue breastfeeding/feeding if able."
    | MalariaProtocol         // "If trained and stocked, follow local malaria protocol ..."
    | NutritionAssessment     // "Ask for urgent nutrition program/clinical assessment (SAM)."
    | FollowLocalProtocol     // "Follow local protocol; arrange follow-up ..."
    | SameDayIfFastBreathing  // "If breathing is fast for age or worsening, go ... the same day."
    | MalariaTestIfFever      // "If fever continues, get a malaria test if available ..."
    | MeasureMuac             // "Measure MUAC if not done; link to community nutrition ..."
    | PromptAssessment        // "Young infants can deteriorate fast; seek facility assessment ..."

  datatype Tip =
    | KeepChildWarm | FeedAndOfferFluids | GoIfBreathingHard             // pneumonia
    | TreatFeverAndHydrate | GetRapidTest | GoIfVerySleepy              // malaria
    | KeepBreastfeeding | SmallFrequentMeals | WashHandsSafeWater        // malnutrition
    | KeepBabyWarm | BreastfeedFrequently | GoIfPoorFeeding             // neonatal complications

  /** The one follow-up line for a top condition when the tier is not High. */
  function ConditionAction(c: Condition): Action
  {
    match c
    case Pneumonia => SameDayIfFastBreathing
    case Malaria => MalariaTestIfFever
    case Malnutrition => MeasureMuac
    case NeonatalComplications => PromptAssessment
  }

  predicate SevereMalnutritionSigns(muac: Muac, oedema: bool)
  {
    muac == Red || oedema
  }

  function Actions(risk: Risk, top: Condition, rdt: Rdt, muac: Muac, oedema: bool): seq<Action>
  {
    if risk == High then
      [ReferUrgently, KeepWarmAndFeed]
      + (if rdt == Positive then [MalariaProtocol] else [])
      + (if SevereMalnutritionSigns(muac, oedema) then [NutritionAssessment] else [])
    else
      [FollowLocalProtocol, ConditionAction(top)]
  }

  function Tips(top: Condition): seq<Tip>
  {
    match top
    case Pneumonia => [KeepChildWarm, FeedAndOfferFluids, GoIfBreathingHard]
    case Malaria => [TreatFeverAndHydrate, GetRapidTest, GoIfVerySleepy]
    case Malnutrition => [KeepBreastfeeding, SmallFrequentMeals, WashHandsSafeWater]
    case NeonatalComplications => [KeepBabyWarm, BreastfeedFrequently, GoIfPoorFeeding]
  }

  /** `actions`, appended line by line. */
  method ComposeActions(risk: Risk, top: Condition, rdt: Rdt, muac: Muac, oedema: bool) returns (actions: seq<Action>)
    ensures actions == Actions(risk, top, rdt, muac, oedema)
  {
    actions := [];
    if risk == High {
      actions := actions + [ReferUrgently];
      actions := actions + [KeepWarmAndFeed];
      if rdt == Positive {
        actions := actions + [MalariaProtocol];
      }
      if muac == Red || oedema {
        actions := actions + [NutritionAssessment];
      }
    } else {
      actions := actions + [FollowLocalProtocol];
      if top == Pneumonia {
        actions := actions + [SameDayIfFastBreathing];
      }
      if top == Malaria {
        actions := actions + [MalariaTestIfFever];
      }
      if top == Malnutrition {
        actions := actions + [MeasureMuac];
      }
      if top == NeonatalComplications {
        actions := actions + [PromptAssessment];
      }
    }
  }

  /** `tips`, extended by the list of the top condition; the last branch takes every other condition. */
  method ComposeTips(top: Condition) returns (tips: seq<Tip>)
    ensures tips == Tips(top)
  {
    tips := [];
    if top == Pneumonia {
      tips := tips + [KeepChildWarm, FeedAndOfferFluids, GoIfBreathingHard];
    } else if top == Malaria {
      tips := tips + [TreatFeverAndHydrate, GetRapidTest, GoIfVerySleepy];
    } else if top == Malnutrition {
      tips := tips + [KeepBreastfeeding, SmallFrequentMeals, WashHandsSafeWater];
    } else {
      tips := tips + [KeepBabyWarm, BreastfeedFrequently, GoIfPoorFeeding];
    }
  }

  // ---------------------------------------------------------------------
  // Properties
  // ---------------------------------------------------------------------

  /**
    High tier: refer urgently, then keep warm; the malaria-protocol line
    exactly when the RDT was positive; the nutrition line, last, exactly
    when MUAC is red or there is oedema. Two to four lines in all.
   */
  lemma HighTierActions(top: Condition, rdt: Rdt, muac: Muac, oedema: bool)
    ensures var acts := Actions(High, top, rdt, muac, oedema);
      && 2 <= |acts| <= 4
      && acts[0] == ReferUrgently && acts[1] == KeepWarmAndFeed
      && (MalariaProtocol in acts <==> rdt == Positive)
      && (NutritionAssessment in acts <==> SevereMalnutritionSigns(muac, oedema))
      && (acts[|acts| - 1] == NutritionAssessment <==> SevereMalnutritionSigns(muac, oedema))
      && (forall c :: ConditionAction(c) !in acts)
  {
  }

  /**
    Medium or Low tier: exactly two lines, the generic follow-up first and
    then the line of the top condition, which differs from condition to
    condition and never appears in a High-tier list.
   */
  lemma LowerTierActions(risk: Risk, top: Condition, rdt: Rdt, muac: Muac, oedema: bool)
    requires risk != High
    ensures var acts := Actions(risk, top, rdt, muac, oedema);
      && |acts| == 2 && acts[0] == FollowLocalProtocol && acts[1] == ConditionAction(top)
      && ReferUrgently !in acts
      && forall c :: ConditionAction(c) in acts <==> c == top
  {
  }

  /** Three tips per condition; no tip is shared by two conditions, so the tips name the top condition. */
  lemma TipsPerCondition(c: Condition, d: Condition)
    ensures |Tips(c)| == 3
    ensures c != d ==> forall t :: t in Tips(c) ==> t !in Tips(d)
  {
  }
}
