/**
 * The sample claims the database is seeded with and the sample claim of the
 * prediction system, as concrete inputs, with what the scorers give them;
 * and where the two ways of bucketing a risk disagree.
 */
module Samples {
  import opened Wrappers
  import opened Claims
  import opened SimpleScorer
  import opened Features
  import opened PredictionSystem

  /** Sample claim CLM001: a low-risk claim with one earlier claim. */
  const Clm001 := ClaimRow(
    claimId := "CLM001", ageGroup := "26-35", gender := "Male", maritalStatus := "Married",
    incomeBand := "15001-30000", employmentStatus := "Employed", addressChangeLast6Months := false,
    deductibleLevel := "Medium", daysPolicyAccident := 150, daysPolicyClaim := 200, pastNumberOfClaims := 1,
    vehicleCategory := "SUV", vehiclePriceRange := "100k-250k", vehicleAgeYears := 5, accidentArea := "Urban",
    policeReportFiled := true, witnessPresent := true, weatherCondition := "Clear", accidentTime := "Morning",
    agentType := "Internal", claimAmendments := 0, addressChangeLinkedToClaim := false,
    claimAmountRange := "10k-50k", payoutToClaimRatio := 0.75, claimChannel := "Agent",
    repairShopPattern := "One-time", fraudPercentageEstimate := 15.5, fraudType := "None",
    highRiskCombination := false, region := "Khomas")

  /** Sample claim CLM002: a young student with several risk flags. */
  const Clm002 := ClaimRow(
    claimId := "CLM002", ageGroup := "18-25", gender := "Female", maritalStatus := "Single",
    incomeBand := "5000-15000", employmentStatus := "Student", addressChangeLast6Months := true,
    deductibleLevel := "Low", daysPolicyAccident := 50, daysPolicyClaim := 75, pastNumberOfClaims := 3,
    vehicleCategory := "Motorbike", vehiclePriceRange := "<100k", vehicleAgeYears := 8, accidentArea := "Highway",
    policeReportFiled := false, witnessPresent := false, weatherCondition := "Foggy", accidentTime := "Night",
    agentType := "External", claimAmendments := 2, addressChangeLinkedToClaim := true,
    claimAmountRange := "50k-100k", payoutToClaimRatio := 0.9, claimChannel := "Online",
    repairShopPattern := "Frequent", fraudPercentageEstimate := 45.2, fraudType := "Staged Accident",
    highRiskCombination := true, region := "Otjozondjupa")

  /**
   * `create_sample_claim`: the same thirty columns, with the same values, as
   * the batch row of CLM001.
   */
  function SampleClaim(): Row
  {
    FeatureRow(ToClaimData(Clm001))
  }

  /** CLM001 scores 1 (one earlier claim): LOW RISK, not flagged, probability 0.3. */
  lemma Clm001Prediction()
    ensures Score(ToClaimData(Clm001)) == 1
    ensures Factors(ToClaimData(Clm001)) == ["Previous claims"]
    ensures SimpleLevel(1) == LowRisk && SimpleFlag(1) == 0 && SimpleProbability(1) == 0.3
  {
    var c := ToClaimData(Clm001);
    ScoreIsSumOfGroups(c);
    FactorsAreGroupFactors(c);
  }

  /** CLM002 scores 10 from eight rule groups: HIGH RISK, flagged, probability 0.91. */
  lemma Clm002Prediction()
    ensures Score(ToClaimData(Clm002)) == 10
    ensures Factors(ToClaimData(Clm002)) == [
      "High-risk age group", "Low income", "Multiple past claims", "Claim amendments",
      "Recent address change", "Address change linked to claim", "Moderate fraud estimate",
      "High risk combination"]
    ensures SimpleLevel(10) == HighRisk && SimpleFlag(10) == 1 && SimpleProbability(10) == 0.91
  {
    var c := ToClaimData(Clm002);
    ScoreIsSumOfGroups(c);
    FactorsAreGroupFactors(c);
  }

  /** What the feature pass reads from CLM002's batch row. */
  const Clm002Inputs := Inputs(
    Str("18-25"), Str("5000-15000"), Str("Student"), 3.0, Str("Yes"), 75.0, 50.0, 8.0,
    Str("50k-100k"), 0.9, Str("Staged Accident"), Str("Otjozondjupa"), Str("Night"), Str("Foggy"))

  /** What the feature pass reads from the sample claim. */
  const SampleInputs := Inputs(
    Str("26-35"), Str("15001-30000"), Str("Employed"), 1.0, Str("No"), 200.0, 150.0, 5.0,
    Str("10k-50k"), 0.75, Str("None"), Str("Khomas"), Str("Morning"), Str("Clear"))

  /** The columns CLM002's batch row hands the feature pass. */
  lemma Clm002Reads()
    ensures ReadInputs(FeatureRow(ToClaimData(Clm002))) == Ok(Clm002Inputs)
  {
    FeatureRowInputs(ToClaimData(Clm002));
  }

  /** The columns the sample claim hands the feature pass. */
  lemma SampleReads()
    ensures ReadInputs(SampleClaim()) == Ok(SampleInputs)
  {
    FeatureRowInputs(ToClaimData(Clm001));
  }

  /** The components and total of CLM002's features. */
  lemma Clm002Computes()
    ensures Compute(Clm002Inputs) == Engineered(5, 75.0 / 51.0, 0, 1, 1, 2, 1, 1, 1, 12)
  {
    var inp := Clm002Inputs;
    assert RiskScore(inp.ageGroup, inp.incomeBand, inp.employment, inp.pastClaims, inp.addressChange) == 5;
    assert ClaimAmountRisk(inp.claimAmount) == 1 && FraudTypeRisk(inp.fraudType) == 2;
    assert RegionRisk(inp.region) == 1;
    assert AccidentTimeRisk(inp.accidentTime) == 1 && WeatherRisk(inp.weather) == 1;
  }

  /** The components and total of the sample claim's features. */
  lemma SampleComputes()
    ensures Compute(SampleInputs) == Engineered(0, 200.0 / 151.0, 0, 0, 0, 0, 1, 0, 0, 1)
  {
    var inp := SampleInputs;
    assert RiskScore(inp.ageGroup, inp.incomeBand, inp.employment, inp.pastClaims, inp.addressChange) == 0;
    assert ClaimAmountRisk(inp.claimAmount) == 0 && FraudTypeRisk(inp.fraudType) == 0;
    assert RegionRisk(inp.region) == 1;
    assert AccidentTimeRisk(inp.accidentTime) == 0 && WeatherRisk(inp.weather) == 0;
  }

  /** The feature pass gives CLM002's batch row a `RiskScore` of 5 and a `CombinedRiskScore` of 12. */
  lemma Clm002Features()
    ensures Engineer(FeatureRow(ToClaimData(Clm002)))
         == Ok(Engineered(5, 75.0 / 51.0, 0, 1, 1, 2, 1, 1, 1, 12))
  {
    Clm002Reads();
    Clm002Computes();
  }

  /** The sample claim's only risk is its region: `CombinedRiskScore` 1. */
  lemma SampleClaimFeatures()
    ensures Engineer(SampleClaim()) == Ok(Engineered(0, 200.0 / 151.0, 0, 0, 0, 0, 1, 0, 0, 1))
  {
    SampleReads();
    SampleComputes();
  }

  /**
   * The rule-based scorer and `_get_risk_level` bucket the same claim
   * differently exactly at scores 2 and 3 (probability 0.4 and 0.5: LOW
   * against MEDIUM) and 6 (0.76: MEDIUM against HIGH).
   */
  lemma ScorersDisagree(c: ClaimData)
    ensures var s := Score(c);
      SimpleLevel(s) != RiskLevel(SimpleProbability(s)) <==> s == 2 || s == 3 || s == 6
  {
    var s := Score(c);
    ProbabilityBounds(s, s);
  }
}
