/**
 * The rule-based scorer the single-claim prediction endpoint uses: nine rule
 * groups add integer points and name a risk factor, and the total is mapped to
 * a bucket, a 0/1 flag and a clamped probability.
 */
module SimpleScorer {
  import opened Claims

  /** What one rule group contributes: points and a factor, or nothing. */
  datatype RuleOutcome = Fired(points: nat, factor: string) | Silent

  /** The dictionary `predict_fraud_simple` returns. */
  datatype SimplePrediction = SimplePrediction(
    fraudPrediction: int,
    fraudProbability: real,
    riskLevel: Level,
    riskFactors: seq<string>,
    riskScore: nat)

  // The nine rule groups, in the order the scorer applies them.

  function AgeRule(c: ClaimData): RuleOutcome
  {
    if c.ageGroup in ["18-25", "60+"] then Fired(1, "High-risk age group") else Silent
  }

  function IncomeRule(c: ClaimData): RuleOutcome
  {
    if c.incomeBand in ["<5000", "5000-15000"] then Fired(1, "Low income") else Silent
  }

  function PastClaimsRule(c: ClaimData): RuleOutcome
  {
    if c.pastNumberOfClaims > 2 then Fired(2, "Multiple past claims")
    else if c.pastNumberOfClaims > 0 then Fired(1, "Previous claims")
    else Silent
  }

  function AmendmentsRule(c: ClaimData): RuleOutcome
  {
    if c.claimAmendments > 3 then Fired(2, "Multiple claim amendments")
    else if c.claimAmendments > 0 then Fired(1, "Claim amendments")
    else Silent
  }

  function AddressChangeRule(c: ClaimData): RuleOutcome
  {
    if c.addressChangeLast6Months == "Yes" then Fired(1, "Recent address change") else Silent
  }

  function LinkedAddressRule(c: ClaimData): RuleOutcome
  {
    if c.addressChangeLinkedToClaim == "Yes" then Fired(1, "Address change linked to claim") else Silent
  }

  function FraudEstimateRule(c: ClaimData): RuleOutcome
  {
    if c.fraudPercentageEstimate > 70.0 then Fired(3, "High fraud estimate")
    else if c.fraudPercentageEstimate > 30.0 then Fired(1, "Moderate fraud estimate")
    else Silent
  }

  function HighRiskRule(c: ClaimData): RuleOutcome
  {
    if c.highRiskCombination == "Yes" then Fired(2, "High risk combination") else Silent
  }

  function VehicleAgeRule(c: ClaimData): RuleOutcome
  {
    if c.vehicleAge > 15 then Fired(1, "Old vehicle") else Silent
  }

  /** The outcome of every rule group, in order. */
  function Outcomes(c: ClaimData): seq<RuleOutcome>
  {
    [AgeRule(c), IncomeRule(c), PastClaimsRule(c), AmendmentsRule(c), AddressChangeRule(c),
     LinkedAddressRule(c), FraudEstimateRule(c), HighRiskRule(c), VehicleAgeRule(c)]
  }

  /** Total points of a list of outcomes (the `risk_score` accumulator). */
  function Points(s: seq<RuleOutcome>): nat
  {
    if s == [] then 0
    else Points(s[..|s| - 1]) + (if s[|s| - 1].Fired? then s[|s| - 1].points else 0)
  }

  /** The factors of the groups that fired, in order (the `risk_factors` list). */
  function FiredFactors(s: seq<RuleOutcome>): seq<string>
  {
    if s == [] then []
    else FiredFactors(s[..|s| - 1]) + (if s[|s| - 1].Fired? then [s[|s| - 1].factor] else [])
  }

  /** Every group that fires adds at least one point. */
  ghost predicate PositivePoints(s: seq<RuleOutcome>)
  {
    forall i :: 0 <= i < |s| && s[i].Fired? ==> s[i].points >= 1
  }

  lemma {:induction false} FactorsAtMostPoints(s: seq<RuleOutcome>)
    requires PositivePoints(s)
    ensures |FiredFactors(s)| <= Points(s)
    ensures FiredFactors(s) == [] <==> Points(s) == 0
  {
    if s != [] {
      FactorsAtMostPoints(s[..|s| - 1]);
    }
  }

  /** The `risk_score` the rules give a claim. */
  function Score(c: ClaimData): nat
  {
    Points(Outcomes(c))
  }

  /** The `risk_factors` the rules give a claim. */
  function Factors(c: ClaimData): seq<string>
  {
    FiredFactors(Outcomes(c))
  }

  /** The points one group adds. */
  function Pts(o: RuleOutcome): nat
  {
    if o.Fired? then o.points else 0
  }

  /** The factor one group appends, if it fired. */
  function Fac(o: RuleOutcome): seq<string>
  {
    if o.Fired? then [o.factor] else []
  }

  /** Extending the applied prefix by one group adds its points and its factor. */
  lemma OutcomePrefix(s: seq<RuleOutcome>, k: nat)
    requires k < |s|
    ensures Points(s[..k + 1]) == Points(s[..k]) + Pts(s[k])
    ensures FiredFactors(s[..k + 1]) == FiredFactors(s[..k]) + Fac(s[k])
  {
    assert s[..k + 1][..k] == s[..k];
  }

  /** The score is the sum of the nine groups' points, each group counted once. */
  lemma {:induction false} ScoreIsSumOfGroups(c: ClaimData)
    ensures Score(c) == Pts(AgeRule(c)) + Pts(IncomeRule(c)) + Pts(PastClaimsRule(c))
                        + Pts(AmendmentsRule(c)) + Pts(AddressChangeRule(c)) + Pts(LinkedAddressRule(c))
                        + Pts(FraudEstimateRule(c)) + Pts(HighRiskRule(c)) + Pts(VehicleAgeRule(c))
  {
    var s := Outcomes(c);
    assert s[..0] == [];
    OutcomePrefix(s, 0);
    OutcomePrefix(s, 1);
    OutcomePrefix(s, 2);
    OutcomePrefix(s, 3);
    OutcomePrefix(s, 4);
    OutcomePrefix(s, 5);
    OutcomePrefix(s, 6);
    OutcomePrefix(s, 7);
    OutcomePrefix(s, 8);
    assert s[..9] == s;
  }

  /** The factors are those of the nine groups, in order, one per group that fired. */
  lemma {:induction false} FactorsAreGroupFactors(c: ClaimData)
    ensures Factors(c) == Fac(AgeRule(c)) + Fac(IncomeRule(c)) + Fac(PastClaimsRule(c))
                          + Fac(AmendmentsRule(c)) + Fac(AddressChangeRule(c)) + Fac(LinkedAddressRule(c))
                          + Fac(FraudEstimateRule(c)) + Fac(HighRiskRule(c)) + Fac(VehicleAgeRule(c))
  {
    var s := Outcomes(c);
    assert s[..0] == [];
    OutcomePrefix(s, 0);
    assert FiredFactors(s[..1]) == Fac(s[0]);
    OutcomePrefix(s, 1);
    OutcomePrefix(s, 2);
    OutcomePrefix(s, 3);
    OutcomePrefix(s, 4);
    OutcomePrefix(s, 5);
    OutcomePrefix(s, 6);
    OutcomePrefix(s, 7);
    OutcomePrefix(s, 8);
    assert s[..9] == s;
  }

  /**
   * The score is between 0 and 14, there are never more factors than points,
   * and there are no factors exactly when the score is 0.
   */
  lemma ScoreBounds(c: ClaimData)
    ensures Score(c) <= 14
    ensures |Factors(c)| <= Score(c)
    ensures Factors(c) == [] <==> Score(c) == 0
  {
    ScoreIsSumOfGroups(c);
    GroupCaps(c);
    OutcomesPositive(c);
    FactorsAtMostPoints(Outcomes(c));
  }

  /** The most each group can add: 1, 1, 2, 2, 1, 1, 3, 2, 1 points. */
  lemma GroupCaps(c: ClaimData)
    ensures Pts(AgeRule(c)) <= 1 && Pts(IncomeRule(c)) <= 1 && Pts(PastClaimsRule(c)) <= 2
    ensures Pts(AmendmentsRule(c)) <= 2 && Pts(AddressChangeRule(c)) <= 1 && Pts(LinkedAddressRule(c)) <= 1
    ensures Pts(FraudEstimateRule(c)) <= 3 && Pts(HighRiskRule(c)) <= 2 && Pts(VehicleAgeRule(c)) <= 1
  {
  }

  lemma OutcomesPositive(c: ClaimData)
    ensures PositivePoints(Outcomes(c))
  {
  }

  /** The bucket of a score: HIGH from 7, MEDIUM from 4, LOW below. */
  function SimpleLevel(score: int): Level
  {
    if score >= 7 then HighRisk else if score >= 4 then MediumRisk else LowRisk
  }

  /** The `fraud_prediction` flag of a score: 1 exactly in the HIGH band. */
  function SimpleFlag(score: int): (f: int)
    ensures f == 1 <==> SimpleLevel(score) == HighRisk
    ensures f == 0 <==> SimpleLevel(score) != HighRisk
  {
    if score >= 7 then 1 else 0
  }

  /** The probability of a score before clamping: three linear bands. */
  function RawProbability(score: int): real
  {
    if score >= 7 then 0.85 + (score - 7) as real * 0.02
    else if score >= 4 then 0.60 + (score - 4) as real * 0.08
    else 0.20 + score as real * 0.10
  }

  /** `min(max(p, 0.05), 0.95)`. */
  function Clamp(p: real): real
  {
    var low := if p >= 0.05 then p else 0.05;
    if low <= 0.95 then low else 0.95
  }

  function SimpleProbability(score: int): real
  {
    Clamp(RawProbability(score))
  }

  /** Across all three bands the unclamped probability never decreases with the score. */
  lemma RawProbabilityMonotone(a: nat, b: nat)
    requires a <= b
    ensures RawProbability(a) <= RawProbability(b)
  {
    if a < 4 && b >= 4 {
      assert RawProbability(a) <= 0.5 <= 0.6 <= RawProbability(b);
    }
    if a < 7 && b >= 7 {
      assert RawProbability(a) <= 0.84 <= 0.85 <= RawProbability(b);
    }
  }

  /**
   * For every score the scorer can give, the unclamped probability is at
   * least 0.2, so the lower clamp never binds, and the clamped one lies in
   * [0.05, 0.95] and is monotone too.
   */
  lemma ProbabilityBounds(a: nat, b: nat)
    requires a <= b
    ensures RawProbability(a) >= 0.2
    ensures SimpleProbability(a) == (if RawProbability(a) <= 0.95 then RawProbability(a) else 0.95)
    ensures 0.05 <= SimpleProbability(a) <= 0.95
    ensures SimpleProbability(a) <= SimpleProbability(b)
  {
    RawProbabilityMonotone(a, b);
  }

  // One step per commented block of the scorer: the block's test, the points
  // it adds to the accumulator and the factor it appends.

  method AgeGroupStep(c: ClaimData, score: nat, factors: seq<string>) returns (score': nat, factors': seq<string>)
    ensures score' == score + Pts(AgeRule(c)) && factors' == factors + Fac(AgeRule(c))
  {
    score', factors' := score, factors;
    if c.ageGroup in ["18-25", "60+"] {
      score' := score' + 1;
      factors' := factors' + ["High-risk age group"];
    }
  }

  method IncomeStep(c: ClaimData, score: nat, factors: seq<string>) returns (score': nat, factors': seq<string>)
    ensures score' == score + Pts(IncomeRule(c)) && factors' == factors + Fac(IncomeRule(c))
  {
    score', factors' := score, factors;
    if c.incomeBand in ["<5000", "5000-15000"] {
      score' := score' + 1;
      factors' := factors' + ["Low income"];
    }
  }

  method PastClaimsStep(c: ClaimData, score: nat, factors: seq<string>) returns (score': nat, factors': seq<string>)
    ensures score' == score + Pts(PastClaimsRule(c)) && factors' == factors + Fac(PastClaimsRule(c))
  {
    score', factors' := score, factors;
    var pastClaims := c.pastNumberOfClaims;
    if pastClaims > 2 {
      score' := score' + 2;
      factors' := factors' + ["Multiple past claims"];
    } else if pastClaims > 0 {
      score' := score' + 1;
      factors' := factors' + ["Previous claims"];
    }
  }

  method AmendmentsStep(c: ClaimData, score: nat, factors: seq<string>) returns (score': nat, factors': seq<string>)
    ensures score' == score + Pts(AmendmentsRule(c)) && factors' == factors + Fac(AmendmentsRule(c))
  {
    score', factors' := score, factors;
    var amendments := c.claimAmendments;
    if amendments > 3 {
      score' := score' + 2;
      factors' := factors' + ["Multiple claim amendments"];
    } else if amendments > 0 {
      score' := score' + 1;
      factors' := factors' + ["Claim amendments"];
    }
  }

  method AddressChangeStep(c: ClaimData, score: nat, factors: seq<string>) returns (score': nat, factors': seq<string>)
    ensures score' == score + Pts(AddressChangeRule(c)) && factors' == factors + Fac(AddressChangeRule(c))
  {
    score', factors' := score, factors;
    if c.addressChangeLast6Months == "Yes" {
      score' := score' + 1;
      factors' := factors' + ["Recent address change"];
    }
  }

  method LinkedAddressStep(c: ClaimData, score: nat, factors: seq<string>) returns (score': nat, factors': seq<string>)
    ensures score' == score + Pts(LinkedAddressRule(c)) && factors' == factors + Fac(LinkedAddressRule(c))
  {
    score', factors' := score, factors;
    if c.addressChangeLinkedToClaim == "Yes" {
      score' := score' + 1;
      factors' := factors' + ["Address change linked to claim"];
    }
  }

  method FraudEstimateStep(c: ClaimData, score: nat, factors: seq<string>) returns (score': nat, factors': seq<string>)
    ensures score' == score + Pts(FraudEstimateRule(c)) && factors' == factors + Fac(FraudEstimateRule(c))
  {
    score', factors' := score, factors;
    var fraudEstimate := c.fraudPercentageEstimate;
    if fraudEstimate > 70.0 {
      score' := score' + 3;
      factors' := factors' + ["High fraud estimate"];
    } else if fraudEstimate > 30.0 {
      score' := score' + 1;
      factors' := factors' + ["Moderate fraud estimate"];
    }
  }

  method HighRiskStep(c: ClaimData, score: nat, factors: seq<string>) returns (score': nat, factors': seq<string>)
    ensures score' == score + Pts(HighRiskRule(c)) && factors' == factors + Fac(HighRiskRule(c))
  {
    score', factors' := score, factors;
    if c.highRiskCombination == "Yes" {
      score' := score' + 2;
      factors' := factors' + ["High risk combination"];
    }
  }

  method VehicleAgeStep(c: ClaimData, score: nat, factors: seq<string>) returns (score': nat, factors': seq<string>)
    ensures score' == score + Pts(VehicleAgeRule(c)) && factors' == factors + Fac(VehicleAgeRule(c))
  {
    score', factors' := score, factors;
    var vehicleAge := c.vehicleAge;
    if vehicleAge > 15 {
      score' := score' + 1;
      factors' := factors' + ["Old vehicle"];
    }
  }

  /**
   * The first half of `predict_fraud_simple`: the nine rule blocks applied in
   * order to a zero score and an empty factor list.
   */
  method ScoreClaim(c: ClaimData) returns (riskScore: nat, riskFactors: seq<string>)
    ensures riskScore == Score(c) && riskFactors == Factors(c)
  {
    riskScore, riskFactors := 0, [];
    riskScore, riskFactors := AgeGroupStep(c, riskScore, riskFactors);
    assert riskFactors == Fac(AgeRule(c));
    riskScore, riskFactors := IncomeStep(c, riskScore, riskFactors);
    riskScore, riskFactors := PastClaimsStep(c, riskScore, riskFactors);
    riskScore, riskFactors := AmendmentsStep(c, riskScore, riskFactors);
    riskScore, riskFactors := AddressChangeStep(c, riskScore, riskFactors);
    riskScore, riskFactors := LinkedAddressStep(c, riskScore, riskFactors);
    riskScore, riskFactors := FraudEstimateStep(c, riskScore, riskFactors);
    riskScore, riskFactors := HighRiskStep(c, riskScore, riskFactors);
    riskScore, riskFactors := VehicleAgeStep(c, riskScore, riskFactors);
    ScoreIsSumOfGroups(c);
    FactorsAreGroupFactors(c);
  }

  /**
   * `predict_fraud_simple`: scores the claim, then maps the score to a
   * bucket, a 0/1 flag and a probability clamped to [0.05, 0.95].
   */
  method PredictFraudSimple(c: ClaimData) returns (p: SimplePrediction)
    ensures p.riskScore == Score(c) && p.riskFactors == Factors(c)
    ensures p.riskScore <= 14 && |p.riskFactors| <= p.riskScore
    ensures p.riskFactors == [] <==> p.riskScore == 0
    ensures p.riskLevel == HighRisk <==> p.riskScore >= 7
    ensures p.riskLevel == MediumRisk <==> 4 <= p.riskScore <= 6
    ensures p.riskLevel == LowRisk <==> p.riskScore <= 3
    ensures p.fraudPrediction == SimpleFlag(p.riskScore) && (p.fraudPrediction == 1 <==> p.riskScore >= 7)
    ensures p.fraudProbability == SimpleProbability(p.riskScore)
    ensures 0.05 <= p.fraudProbability <= 0.95
  {
    var riskScore, riskFactors := ScoreClaim(c);

    var fraudProbability: real;
    var riskLevel: Level;
    var fraudPrediction: int;
    if riskScore >= 7 {
      fraudProbability := 0.85 + (riskScore - 7) as real * 0.02;
      riskLevel := HighRisk;
      fraudPrediction := 1;
    } else if riskScore >= 4 {
      fraudProbability := 0.60 + (riskScore - 4) as real * 0.08;
      riskLevel := MediumRisk;
      fraudPrediction := 0;
    } else {
      fraudProbability := 0.20 + riskScore as real * 0.10;
      riskLevel := LowRisk;
      fraudPrediction := 0;
    }

    fraudProbability := Clamp(fraudProbability);

    ScoreBounds(c);
    ProbabilityBounds(riskScore, riskScore);
    p := SimplePrediction(fraudPrediction, fraudProbability, riskLevel, riskFactors, riskScore);
  }
}
