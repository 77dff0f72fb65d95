/**
  The high-risk triggers of `compute_result` and the risk tier chosen from
  them and from the top condition's certainty. Clinical triggers always win:
  when any fires the tier is High, whatever the certainty.
 */
module RiskTier {
  import opened Answers
  import opened Scoring

  datatype Trigger =
    | DangerSignPresent      // "General danger sign present"
    | SevereMalnutrition     // "Severe acute malnutrition signs"
    | SevereBreathing        // "Severe breathing problem signs"
    | YoungInfantSevere      // "Young infant severe illness signs"

  /** The order in which the triggers are tested and their labels appended. */
  const TriggerOrder: seq<Trigger> :=
    [DangerSignPresent, SevereMalnutrition, SevereBreathing, YoungInfantSevere]

  predicate DangerSign(a: Answers)
  {
    a.drinkSign || a.vomitSign || a.convulsionSign || a.lethargySign
  }

  /** When each trigger fires. */
  predicate Fires(a: Answers, t: Trigger)
  {
    var fast := FastBreathing(a.age, a.rr);
    match t
    case DangerSignPresent => DangerSign(a)
    case SevereMalnutrition => a.oedema || a.muac == Red
    case SevereBreathing =>
      (a.cough && (a.chestIndrawing || a.stridor)) || (a.cough && fast && a.age == YoungInfant)
    case YoungInfantSevere =>
      a.age == YoungInfant && (a.notFeeding || a.stimOnly || fast || a.chestIndrawing || a.fever)
  }

  /** The triggers of `ts` that fire, in the order of `ts`. */
  function FiredAmong(a: Answers, ts: seq<Trigger>): seq<Trigger>
  {
    if ts == [] then []
    else (if Fires(a, ts[0]) then [ts[0]] else []) + FiredAmong(a, ts[1..])
  }

  /** The labels `compute_result` collects in `high_triggers`. */
  function Triggers(a: Answers): seq<Trigger>
  {
    FiredAmong(a, TriggerOrder)
  }

  datatype Risk = High | Medium | Low

  /** The CSS class of the result box: "danger", "warn" or "ok". */
  datatype BoxClass = DangerBox | WarnBox | OkBox

  /** First match wins: a trigger, then certainty of at least 80 percent. */
  function Tier(triggered: bool, certainty: int): Risk
  {
    if triggered then High
    else if certainty >= 80 then Medium
    else Low
  }

  function BoxFor(r: Risk): BoxClass
  {
    match r
    case High => DangerBox
    case Medium => WarnBox
    case Low => OkBox
  }

  /** `high_triggers`, appended to trigger by trigger; `fastBreathing` is the flag the scoring step derived. */
  method CollectTriggers(a: Answers, fastBreathing: bool) returns (highTriggers: seq<Trigger>)
    requires fastBreathing == FastBreathing(a.age, a.rr)
    ensures highTriggers == Triggers(a)
  {
    var age := a.age;
    highTriggers := [];
    if DangerSign(a) {
      highTriggers := highTriggers + [DangerSignPresent];
    }
    if a.oedema || a.muac == Red {
      highTriggers := highTriggers + [SevereMalnutrition];
    }
    if (a.cough && (a.chestIndrawing || a.stridor)) || (a.cough && fastBreathing && age == YoungInfant) {
      highTriggers := highTriggers + [SevereBreathing];
    }
    if age == YoungInfant && (a.notFeeding || a.stimOnly || fastBreathing || a.chestIndrawing || a.fever) {
      highTriggers := highTriggers + [YoungInfantSevere];
    }
    TriggersInOrder(a);
  }

  // ---------------------------------------------------------------------
  // Properties
  // ---------------------------------------------------------------------

  lemma {:induction false} FiredAmongMembers(a: Answers, ts: seq<Trigger>, t: Trigger)
    ensures t in FiredAmong(a, ts) <==> t in ts && Fires(a, t)
    ensures |FiredAmong(a, ts)| <= |ts|
  {
    if ts != [] {
      FiredAmongMembers(a, ts[1..], t);
      assert ts == [ts[0]] + ts[1..];
    }
  }

  /**
    Every trigger that fires contributes its own label and no other label
    appears; several can appear together, never more than the four.
   */
  lemma TriggersExactly(a: Answers, t: Trigger)
    ensures t in Triggers(a) <==> Fires(a, t)
    ensures |Triggers(a)| <= 4
  {
    FiredAmongMembers(a, TriggerOrder, t);
  }

  /** The list is empty exactly when none of the four conditions holds. */
  lemma NoTriggerMeansNoneFires(a: Answers)
    ensures Triggers(a) == [] <==> forall t :: !Fires(a, t)
  {
    if Triggers(a) != [] {
      TriggersExactly(a, Triggers(a)[0]);
    }
    forall t | Fires(a, t) ensures Triggers(a) != [] {
      TriggersExactly(a, t);
    }
  }

  function Label(a: Answers, t: Trigger): seq<Trigger>
  {
    if Fires(a, t) then [t] else []
  }

  /** The trigger list is built by testing the four triggers one after another. */
  lemma TriggersInOrder(a: Answers)
    ensures Triggers(a) == Label(a, DangerSignPresent) + Label(a, SevereMalnutrition)
                           + Label(a, SevereBreathing) + Label(a, YoungInfantSevere)
  {
    FiredAmongCons(a, YoungInfantSevere, []);
    FiredAmongCons(a, SevereBreathing, [YoungInfantSevere]);
    FiredAmongCons(a, SevereMalnutrition, [SevereBreathing, YoungInfantSevere]);
    FiredAmongCons(a, DangerSignPresent, [SevereMalnutrition, SevereBreathing, YoungInfantSevere]);
  }

  lemma FiredAmongCons(a: Answers, t: Trigger, ts: seq<Trigger>)
    ensures FiredAmong(a, [t] + ts) == Label(a, t) + FiredAmong(a, ts)
  {
    assert ([t] + ts)[1..] == ts;
  }

  /** The triggers are not mutually exclusive: a sick young infant can fire all four. */
  lemma AllTriggersTogether(a: Answers)
    requires a.drinkSign && a.oedema && a.cough && a.chestIndrawing && a.age == YoungInfant
    ensures Triggers(a) == TriggerOrder
  {
    TriggersInOrder(a);
  }

  /** A trigger makes the tier High whatever the certainty; otherwise Medium exactly from 80 percent. */
  lemma TierDecision(triggered: bool, certainty: int)
    ensures triggered ==> Tier(triggered, certainty) == High
    ensures !triggered ==> (Tier(triggered, certainty) == Medium <==> certainty >= 80)
    ensures !triggered ==> (Tier(triggered, certainty) == Low <==> certainty < 80)
  {
  }

  /** The box class and the tier determine each other. */
  lemma BoxClassOneToOne(r1: Risk, r2: Risk)
    ensures BoxFor(r1) == BoxFor(r2) <==> r1 == r2
    ensures BoxFor(r1) == DangerBox <==> r1 == High
  {
  }
}
