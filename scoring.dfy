/**
  The rule weights of `compute_result`, stated condition by condition. The
  source adds each weight to a score dictionary in the order of its if-blocks
  (method Accumulate does the same); here each condition's score is also
  written as the sum of the weights that reach it, which is what the
  properties below are about. All scores are in half-points.
 */
module Scoring {
  import opened Wrappers
  import opened Answers
  import opened Conditions

  /** The IMCI fast-breathing cut-off for an age group, in breaths per minute. */
  function Threshold(age: AgeGroup): Option<nat>
  {
    match age
    case YoungInfant => Some(60)
    case Infant => Some(50)
    case Child => Some(40)
    case UnlistedAge => None
  }

  /** Fast breathing: a measured rate at or above the cut-off of an age group that has one. */
  predicate FastBreathing(age: AgeGroup, rr: Option<nat>)
  {
    rr.Some? && Threshold(age).Some? && rr.value >= Threshold(age).value
  }

  function Weight(holds: bool, w: int): int
  {
    if holds then w else 0
  }

  function RdtWeight(rdt: Rdt): int
  {
    match rdt
    case Positive => 12
    case Negative => -6
    case NotDone => 0
  }

  function MuacWeight(muac: Muac): int
  {
    match muac
    case Red => 12
    case Yellow => 6
    case Green => 0
    case NotMeasured => 0
  }

  /** The Pneumonia weights: cough 2.5, fast breathing 3.0, chest indrawing 2.5, stridor 2.0. */
  function PneumoniaWeights(cough: bool, fast: bool, chest: bool, stridor: bool): int
  {
    Weight(cough, 5) + Weight(fast, 6) + Weight(chest, 5) + Weight(stridor, 4)
  }

  /** The Malaria weights: fever 2.5 and the RDT result. */
  function MalariaWeights(fever: bool, rdt: Rdt): int
  {
    FeverMalariaWeight(fever) + RdtWeight(rdt)
  }

  function FeverMalariaWeight(fever: bool): int
  {
    Weight(fever, 5)
  }

  /** The Malnutrition weights: oedema 7.0 and the MUAC colour. */
  function MalnutritionWeights(oedema: bool, muac: Muac): int
  {
    Weight(oedema, 14) + MuacWeight(muac)
  }

  /**
    The Neonatal complications weights. Every one of them, the 2.0 baseline
    included, is gated on the 0-2 month age group.
   */
  function NeonatalWeights(youngInfant: bool, fever: bool, fast: bool, chest: bool,
                           notFeeding: bool, stimOnly: bool): int
  {
    NeonatalSignWeights(youngInfant, fever, fast, chest) + InfantSignWeights(youngInfant, notFeeding, stimOnly)
  }

  /** The 2.0 baseline, fever 2.0, fast breathing 2.5 and chest indrawing 2.0. */
  function NeonatalSignWeights(youngInfant: bool, fever: bool, fast: bool, chest: bool): int
  {
    if youngInfant then 4 + Weight(fever, 4) + Weight(fast, 5) + Weight(chest, 4) else 0
  }

  /** Not feeding 3.5 and moving only when stimulated 3.5. */
  function InfantSignWeights(youngInfant: bool, notFeeding: bool, stimOnly: bool): int
  {
    if youngInfant then Weight(notFeeding, 7) + Weight(stimOnly, 7) else 0
  }

  /** The four scores of a set of answers. */
  function Score(a: Answers): Scores
  {
    var fast := FastBreathing(a.age, a.rr);
    PerCondition(
      PneumoniaWeights(a.cough, fast, a.chestIndrawing, a.stridor),
      MalariaWeights(a.fever, a.rdt),
      MalnutritionWeights(a.oedema, a.muac),
      NeonatalWeights(a.age == YoungInfant, a.fever, fast, a.chestIndrawing, a.notFeeding, a.stimOnly))
  }

  /**
    The score dictionary of `compute_result`, built the way the source
    builds it: start at zero and add each rule's weight in the order of its
    if-blocks. The source derives fast breathing between the cough block and
    the fast-breathing block; no score is read there, so deriving it first
    changes nothing.
   */
  method Accumulate(a: Answers) returns (scores: Scores, fastBreathing: bool)
    ensures scores == Score(a)
    ensures fastBreathing == FastBreathing(a.age, a.rr)
  {
    fastBreathing := DetectFastBreathing(a.age, a.rr);
    var youngInfant := a.age == YoungInfant;
    var p, m, ne := SignWeights(youngInfant, a.fever, a.cough, fastBreathing, a.chestIndrawing, a.stridor);
    var n;
    m, n, ne := TestAndNutritionWeights(m, ne, youngInfant, a.rdt, a.oedema, a.muac, a.notFeeding, a.stimOnly);
    scores := PerCondition(p, m, n, ne);
  }

  /** The `fast_breathing` flag, set by three independent age-and-rate tests. */
  method DetectFastBreathing(age: AgeGroup, rr: Option<nat>) returns (fast: bool)
    ensures fast == FastBreathing(age, rr)
  {
    fast := false;
    if rr.Some? {
      if age == Infant && rr.value >= 50 {
        fast := true;
      }
      if age == Child && rr.value >= 40 {
        fast := true;
      }
      if age == YoungInfant && rr.value >= 60 {
        fast := true;
      }
    }
  }

  /** The if-blocks from the age gate to stridor, on the decoded answers (`youngInfant` is the 0-2 month test). */
  method SignWeights(youngInfant: bool, fever: bool, cough: bool, fast: bool, chest: bool, stridor: bool)
    returns (pneumonia: int, malaria: int, neonatal: int)
    ensures pneumonia == PneumoniaWeights(cough, fast, chest, stridor)
    ensures malaria == FeverMalariaWeight(fever)
    ensures neonatal == NeonatalSignWeights(youngInfant, fever, fast, chest)
  {
    pneumonia, malaria, neonatal := 0, 0, 0;
    if youngInfant {
      neonatal := neonatal + 4;
    }
    if fever {
      malaria := malaria + 5;
      if youngInfant {
        neonatal := neonatal + 4;
      }
    }
    if cough {
      pneumonia := pneumonia + 5;
    }
    if fast {
      pneumonia := pneumonia + 6;
      if youngInfant {
        neonatal := neonatal + 5;
      }
    }
    if chest {
      pneumonia := pneumonia + 5;
      if youngInfant {
        neonatal := neonatal + 4;
      }
    }
    if stridor {
      pneumonia := pneumonia + 4;
    }
  }

  /** The if-blocks of the malaria test, the nutrition signs and the young infant signs, continuing from the scores so far. */
  method TestAndNutritionWeights(malaria0: int, neonatal0: int, youngInfant: bool, rdt: Rdt, oedema: bool, muac: Muac,
                                 notFeeding: bool, stimOnly: bool)
    returns (malaria: int, malnutrition: int, neonatal: int)
    ensures malaria == malaria0 + RdtWeight(rdt)
    ensures malnutrition == MalnutritionWeights(oedema, muac)
    ensures neonatal == neonatal0 + InfantSignWeights(youngInfant, notFeeding, stimOnly)
  {
    malaria, malnutrition, neonatal := malaria0, 0, neonatal0;
    if rdt == Positive {
      malaria := malaria + 12;
    } else if rdt == Negative {
      malaria := malaria - 6;
    }
    if oedema {
      malnutrition := malnutrition + 14;
    }
    if muac == Red {
      malnutrition := malnutrition + 12;
    } else if muac == Yellow {
      malnutrition := malnutrition + 6;
    } else if muac == Green {
      malnutrition := malnutrition + 0;
    }
    if youngInfant {
      if notFeeding {
        neonatal := neonatal + 7;
      }
      if stimOnly {
        neonatal := neonatal + 7;
      }
    }
  }

  // ---------------------------------------------------------------------
  // Properties
  // ---------------------------------------------------------------------

  /** The cut-offs are inclusive: 60 for 0-2 months, 50 for 2-12 months, 40 for 1-5 years. */
  lemma FastBreathingThresholds(age: AgeGroup, rr: Option<nat>)
    ensures FastBreathing(age, rr) <==>
              rr.Some? && ((age == YoungInfant && rr.value >= 60)
                           || (age == Infant && rr.value >= 50)
                           || (age == Child && rr.value >= 40))
  {
  }

  /** At 2-12 months a rate of 49 is not fast breathing and 50 is; no rate is fast when none was measured. */
  lemma FastBreathingInfantBoundary()
    ensures !FastBreathing(Infant, Some(49)) && FastBreathing(Infant, Some(50))
    ensures forall age :: !FastBreathing(age, None)
  {
  }

  /** A breathing-rate field that holds a non-digit, non-space character never counts as fast breathing. */
  lemma GarbledRateNeverFast(f: Form, k: nat)
    requires f.rr.Some? && k < |f.rr.value|
    requires !IsDigit(f.rr.value[k]) && !IsSpace(f.rr.value[k])
    ensures !FastBreathing(Decode(f).age, Decode(f).rr)
  {
    ParseRrRejects(f.rr);
  }

  /** Range of each score: the Malaria score can fall to -3.0, the others never go below zero. */
  lemma ScoreBounds(a: Answers)
    ensures 0 <= Score(a).pneumonia <= 20
    ensures -6 <= Score(a).malaria <= 17
    ensures 0 <= Score(a).malnutrition <= 26
    ensures 0 <= Score(a).neonatal <= 31
  {
  }

  /** A negative RDT without fever leaves Malaria at -3.0: the score is not clamped. */
  lemma NegativeRdtNotClamped(a: Answers)
    requires a.rdt == Negative && !a.fever
    ensures Score(a).malaria == -6
  {
  }

  /** Fever with a positive RDT gives Malaria 8.5, whatever else was answered. */
  lemma FeverWithPositiveRdt(a: Answers)
    requires a.fever && a.rdt == Positive
    ensures Score(a).malaria == 17
  {
  }

  /**
    Outside the 0-2 month group, "not feeding well" and "moves only when
    stimulated" change no score at all.
   */
  lemma YoungInfantSignsInert(a: Answers, notFeeding: bool, stimOnly: bool)
    requires a.age != YoungInfant
    ensures Score(a.(notFeeding := notFeeding, stimOnly := stimOnly)) == Score(a)
  {
  }

  /** In the 0-2 month group each of those two signs adds 3.5 to Neonatal complications and nothing elsewhere. */
  lemma YoungInfantSignWeights(a: Answers)
    requires a.age == YoungInfant && !a.notFeeding && !a.stimOnly
    ensures Score(a.(notFeeding := true)) == Score(a).(neonatal := Score(a).neonatal + 7)
    ensures Score(a.(stimOnly := true)) == Score(a).(neonatal := Score(a).neonatal + 7)
  {
  }

  /**
    Malaria and Malnutrition do not depend on the age group; Neonatal
    complications is zero outside 0-2 months and at least 2.0 inside it.
   */
  lemma AgeDependence(a: Answers, age: AgeGroup)
    ensures Score(a.(age := age)).malaria == Score(a).malaria
    ensures Score(a.(age := age)).malnutrition == Score(a).malnutrition
    ensures Score(a).neonatal == 0 <==> a.age != YoungInfant
  {
  }
}
