/**
  The four conditions the scorer ranks, in the order in which the score
  dictionary of `compute_result` lists them, and a record holding one value
  per condition (the scores themselves, or the percentages derived from them).
 */
module Conditions {

  datatype Condition = Pneumonia | Malaria | Malnutrition | NeonatalComplications

  /** The insertion order of the score dictionary; ties in the ranking fall back to it. */
  const DictOrder: seq<Condition> := [Pneumonia, Malaria, Malnutrition, NeonatalComplications]

  /** Position of a condition in the dictionary order. */
  function Index(c: Condition): (i: nat)
    ensures i < |DictOrder| && DictOrder[i] == c
  {
    match c
    case Pneumonia => 0
    case Malaria => 1
    case Malnutrition => 2
    case NeonatalComplications => 3
  }

  /** One value per condition, as the dictionary keyed by condition names holds them. */
  datatype PerCondition<T> = PerCondition(pneumonia: T, malaria: T, malnutrition: T, neonatal: T)
  {
    function Get(c: Condition): T
    {
      match c
      case Pneumonia => pneumonia
      case Malaria => malaria
      case Malnutrition => malnutrition
      case NeonatalComplications => neonatal
    }
  }

  /**
    Condition scores, in HALF-POINTS: every weight the scorer adds is a
    multiple of 0.5, so a score of 8.5 is held as 17 and no rounding occurs.
   */
  type Scores = PerCondition<int>
}
