/**
  The entry point `compute_result`: from a submitted answer form to the
  result record (risk tier, top condition and its certainty, up to two
  alternatives, actions, tips and box class).

  The softmax and the rounding of its probabilities to whole percentages are
  floating-point work outside this model: they are the parameter
  `percentOf`, which maps the scores to the rounded percentage of each
  condition. The ranking itself is by score (see module Ranking).
 */
module Triage {
  import opened Wrappers
  import opened Conditions
  import opened Answers
  import opened Scoring
  import opened Ranking
  import opened RiskTier
  import opened Guidance

  datatype TriageResult = TriageResult(
    risk: Risk,
    top: Condition,
    certainty: int,
    alternatives: seq<(Condition, int)>,
    actions: seq<Action>,
    tips: seq<Tip>,
    box: BoxClass)

  /** Each listed condition paired with its percentage. */
  function WithPercent(cs: seq<Condition>, pct: PerCondition<int>): (r: seq<(Condition, int)>)
    ensures |r| == |cs|
    ensures forall i :: 0 <= i < |cs| ==> r[i] == (cs[i], pct.Get(cs[i]))
  {
    if cs == [] then [] else [(cs[0], pct.Get(cs[0]))] + WithPercent(cs[1..], pct)
  }

  /** The result as a composition of the specification functions of the other modules. */
  function Screen(a: Answers, percentOf: Scores -> PerCondition<int>): TriageResult
  {
    var scores := Score(a);
    var pct := percentOf(scores);
    var top := Top(scores);
    var risk := Tier(Triggers(a) != [], pct.Get(top));
    TriageResult(risk, top, pct.Get(top), WithPercent(Alternatives(scores), pct),
                 Actions(risk, top, a.rdt, a.muac, a.oedema), Tips(top), BoxFor(risk))
  }

  /**
    `compute_result`, step by step as the source runs it: decode the form,
    add up the rule weights, collect the trigger labels, rank, choose the
    tier, then compose actions and tips.
   */
  method ComputeResult(form: Form, percentOf: Scores -> PerCondition<int>) returns (r: TriageResult)
    ensures r == Screen(Decode(form), percentOf)
  {
    var a := Decode(form);
    var scores, fastBreathing := Accumulate(a);
    var highTriggers := CollectTriggers(a, fastBreathing);

    var pct := percentOf(scores);
    var ranked := Rank(scores);
    var top := ranked[0];
    var alternatives := WithPercent(ranked[1..3], pct);
    var certainty := pct.Get(top);

    var risk, box;
    if highTriggers != [] {
      risk, box := High, DangerBox;
    } else if certainty >= 80 {
      risk, box := Medium, WarnBox;
    } else {
      risk, box := Low, OkBox;
    }

    var actions := ComposeActions(risk, top, a.rdt, a.muac, a.oedema);
    var tips := ComposeTips(top);
    r := TriageResult(risk, top, certainty, alternatives, actions, tips, box);
  }

  /** The fields of a screening, each from the specification function that gives it. */
  lemma ScreenFields(a: Answers, percentOf: Scores -> PerCondition<int>)
    ensures var r := Screen(a, percentOf);
      && r.top == Top(Score(a))
      && r.certainty == percentOf(Score(a)).Get(r.top)
      && r.risk == Tier(Triggers(a) != [], r.certainty)
      && r.actions == Actions(r.risk, r.top, a.rdt, a.muac, a.oedema)
      && r.box == BoxFor(r.risk)
  {
  }

  // ---------------------------------------------------------------------
  // Properties of a whole screening
  // ---------------------------------------------------------------------

  /** A High result with neither a positive RDT nor a severe-malnutrition sign carries exactly the two referral lines. */
  lemma HighTierPlainActions(a: Answers, percentOf: Scores -> PerCondition<int>)
    requires Triggers(a) != [] && a.rdt != Positive && a.muac != Red && !a.oedema
    ensures Screen(a, percentOf).actions == [ReferUrgently, KeepWarmAndFeed]
  {
    ScreenFields(a, percentOf);
  }

  /** The top condition of a screening is the top of the ranking of its scores. */
  lemma ScreenTop(a: Answers, percentOf: Scores -> PerCondition<int>)
    ensures Screen(a, percentOf).top == Top(Score(a))
  {
  }

  /** Any fired trigger makes the result High, in the danger box, whatever the percentages say. */
  lemma DangerOverridesConfidence(a: Answers, percentOf: Scores -> PerCondition<int>)
    requires Triggers(a) != []
    ensures Screen(a, percentOf).risk == High && Screen(a, percentOf).box == DangerBox
    ensures Screen(a, percentOf).actions[0] == ReferUrgently
  {
  }

  /** A cannot-drink answer alone is enough for High. */
  lemma CannotDrinkIsHigh(a: Answers, percentOf: Scores -> PerCondition<int>)
    requires a.drinkSign
    ensures Screen(a, percentOf).risk == High
  {
    TriggersExactly(a, DangerSignPresent);
  }

  /** Without triggers the tier is Medium exactly from a certainty of 80, and Low below it. */
  lemma UntriggeredTier(a: Answers, percentOf: Scores -> PerCondition<int>)
    requires forall t :: !Fires(a, t)
    ensures var r := Screen(a, percentOf);
      && (r.risk == Medium <==> r.certainty >= 80)
      && (r.risk == Low <==> r.certainty < 80)
      && r.actions == [FollowLocalProtocol, ConditionAction(r.top)]
  {
    NoTriggerMeansNoneFires(a);
  }

  /**
    The top condition has the highest score (the first in dictionary order
    on a tie); the certainty is its percentage; there are at most two
    alternatives, each with its own percentage, none of them the top one.
   */
  lemma ResultRanking(a: Answers, percentOf: Scores -> PerCondition<int>)
    ensures var r := Screen(a, percentOf);
      && (forall c :: Score(a).Get(c) <= Score(a).Get(r.top))
      && r.certainty == percentOf(Score(a)).Get(r.top)
      && |r.alternatives| <= 2
      && (forall i :: 0 <= i < |r.alternatives| ==>
            r.alternatives[i].0 != r.top
            && r.alternatives[i].1 == percentOf(Score(a)).Get(r.alternatives[i].0))
  {
    var s := Score(a);
    TopIsArgmax(s);
    AlternativesCap(s);
    assert forall i :: 0 <= i < |Alternatives(s)| ==> Alternatives(s)[i] in Alternatives(s);
  }

  /** Tips follow the top condition only: two screenings with the same top condition get the same tips, whatever their tiers. */
  lemma TipsIndependentOfRisk(a: Answers, b: Answers, p: Scores -> PerCondition<int>, q: Scores -> PerCondition<int>)
    requires Screen(a, p).top == Screen(b, q).top
    ensures Screen(a, p).tips == Screen(b, q).tips && |Screen(a, p).tips| == 3
  {
  }

  /**
    Outside the 0-2 month group the answers to "not feeding well" and "moves
    only when stimulated" change nothing in the result.
   */
  lemma YoungInfantSignsIgnored(a: Answers, percentOf: Scores -> PerCondition<int>, notFeeding: bool, stimOnly: bool)
    requires a.age != YoungInfant
    ensures Screen(a.(notFeeding := notFeeding, stimOnly := stimOnly), percentOf) == Screen(a, percentOf)
  {
    var b := a.(notFeeding := notFeeding, stimOnly := stimOnly);
    YoungInfantSignsInert(a, notFeeding, stimOnly);
    TriggersInOrder(a);
    TriggersInOrder(b);
  }

  /**
    Severe pneumonia in a child of 1-5 years: cough with chest indrawing, no
    danger sign, no RDT, a green MUAC and no oedema fire the breathing
    trigger, so the tier is High with Pneumonia on top and the referral
    first, whatever the fever, stridor and breathing-rate answers.
   */
  lemma SeverePneumoniaScenario(a: Answers, percentOf: Scores -> PerCondition<int>)
    requires a.age == Child && a.cough && a.chestIndrawing
    requires !a.drinkSign && !a.vomitSign && !a.convulsionSign && !a.lethargySign
    requires a.rdt == NotDone && a.muac == Green && !a.oedema
    ensures Fires(a, SevereBreathing)
    ensures Screen(a, percentOf).risk == High && Screen(a, percentOf).top == Pneumonia
    ensures Screen(a, percentOf).actions == [ReferUrgently, KeepWarmAndFeed]
  {
    SeverePneumoniaScores(a);
    TopWhenStrictMax(Score(a), Pneumonia);
    TriggersExactly(a, SevereBreathing);
    DangerOverridesConfidence(a, percentOf);
    HighTierPlainActions(a, percentOf);
    ScreenTop(a, percentOf);
  }

  /** The scores of that child, whatever the fever, stridor and rate answers: Pneumonia at least 5.0, Malaria at most 2.5, the others zero. */
  lemma SeverePneumoniaScores(a: Answers)
    requires a.age == Child && a.cough && a.chestIndrawing
    requires a.rdt == NotDone && a.muac == Green && !a.oedema
    ensures Score(a).pneumonia >= 10 && Score(a).malaria <= 5
    ensures Score(a).malnutrition == 0 && Score(a).neonatal == 0
  {
  }

  /**
    Confirmed malaria in a child with no other sign: Malaria scores 8.5 and
    tops the ranking, no trigger fires, so with a certainty of at least 80
    the tier is Medium and the malaria-test line follows the generic one.
   */
  lemma ConfirmedMalariaScenario(a: Answers, percentOf: Scores -> PerCondition<int>)
    requires a.age == Child && a.fever && a.rdt == Positive
    requires !a.drinkSign && !a.vomitSign && !a.convulsionSign && !a.lethargySign
    requires !a.cough && !a.chestIndrawing && !a.stridor && a.muac == NotMeasured && !a.oedema
    requires percentOf(Score(a)).Get(Malaria) >= 80
    ensures Score(a).malaria == 17 && Triggers(a) == []
    ensures Screen(a, percentOf).top == Malaria && Screen(a, percentOf).risk == Medium
    ensures Screen(a, percentOf).actions == [FollowLocalProtocol, MalariaTestIfFever]
  {
    var s := Score(a);
    assert Top(s) == Malaria by {
      assert s.malaria == 17 && s.pneumonia <= 6 && s.malnutrition == 0 && s.neonatal == 0;
      TopWhenStrictMax(s, Malaria);
    }
    assert Triggers(a) == [] by {
      TriggersInOrder(a);
    }
    ScreenFields(a, percentOf);
  }
}
