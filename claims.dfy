/**
 * Records shared by the fraud detection backend: a stored insurance claim,
 * the `claim_data` dictionary the scorers read, a one-row data frame, the
 * risk buckets and a prediction.
 */
module Claims {

  /** The three risk buckets written to `fraud_predictions.risk_level`. */
  datatype Level = LowRisk | MediumRisk | HighRisk

  /** The text the backend stores and returns for a bucket. */
  function Label(l: Level): (s: string)
    ensures s in ["LOW RISK", "MEDIUM RISK", "HIGH RISK"]
  {
    match l
    case LowRisk => "LOW RISK"
    case MediumRisk => "MEDIUM RISK"
    case HighRisk => "HIGH RISK"
  }

  /** Position of a bucket in the order LOW < MEDIUM < HIGH. */
  function Rank(l: Level): nat
  {
    match l
    case LowRisk => 0
    case MediumRisk => 1
    case HighRisk => 2
  }

  /** A row of `insurance_claims` as the database returns it (booleans are SQL BOOLEAN). */
  datatype ClaimRow = ClaimRow(
    claimId: string,
    ageGroup: string,
    gender: string,
    maritalStatus: string,
    incomeBand: string,
    employmentStatus: string,
    addressChangeLast6Months: bool,
    deductibleLevel: string,
    daysPolicyAccident: int,
    daysPolicyClaim: int,
    pastNumberOfClaims: int,
    vehicleCategory: string,
    vehiclePriceRange: string,
    vehicleAgeYears: int,
    accidentArea: string,
    policeReportFiled: bool,
    witnessPresent: bool,
    weatherCondition: string,
    accidentTime: string,
    agentType: string,
    claimAmendments: int,
    addressChangeLinkedToClaim: bool,
    claimAmountRange: string,
    payoutToClaimRatio: real,
    claimChannel: string,
    repairShopPattern: string,
    fraudPercentageEstimate: real,
    fraudType: string,
    highRiskCombination: bool,
    region: string)

  /**
   * The `claim_data` dictionary built from a stored row: the flags become the
   * strings 'Yes'/'No' and the decimals become numbers.
   */
  datatype ClaimData = ClaimData(
    ageGroup: string,
    gender: string,
    maritalStatus: string,
    incomeBand: string,
    employmentStatus: string,
    addressChangeLast6Months: string,
    deductibleLevel: string,
    daysPolicyAccident: int,
    daysPolicyClaim: int,
    vehicleCategory: string,
    vehiclePriceRange: string,
    vehicleAge: int,
    pastNumberOfClaims: int,
    accidentArea: string,
    policeReportFiled: string,
    witnessPresent: string,
    agentType: string,
    claimAmendments: int,
    addressChangeLinkedToClaim: string,
    fraudPercentageEstimate: real,
    fraudType: string,
    highRiskCombination: string,
    region: string,
    claimAmountRange: string,
    payoutToClaimRatio: real,
    claimChannel: string,
    weatherCondition: string,
    accidentTime: string,
    repairShopPattern: string)

  /** A prediction as `predict_single_claim` returns it. */
  datatype Prediction = Prediction(fraudPrediction: int, fraudProbability: real, riskLevel: Level)

  /** One cell of a one-row pandas data frame: an object (string) or a number. */
  datatype Cell = Str(s: string) | Num(x: real)

  /** A one-row data frame: column name to cell. */
  type Row = map<string, Cell>

  /** `'Yes' if flag else 'No'`. */
  function YesNo(flag: bool): (s: string)
    ensures s == "Yes" <==> flag
    ensures s == "No" <==> !flag
  {
    if flag then "Yes" else "No"
  }

  /**
   * The `claim_data` dictionary that the single and the batch prediction
   * endpoints build from a stored row.
   */
  function ToClaimData(row: ClaimRow): (c: ClaimData)
    ensures c.addressChangeLast6Months == "Yes" <==> row.addressChangeLast6Months
    ensures c.addressChangeLinkedToClaim == "Yes" <==> row.addressChangeLinkedToClaim
    ensures c.highRiskCombination == "Yes" <==> row.highRiskCombination
    ensures c.policeReportFiled == "Yes" <==> row.policeReportFiled
    ensures c.witnessPresent == "Yes" <==> row.witnessPresent
    ensures c.addressChangeLast6Months in ["Yes", "No"] && c.addressChangeLinkedToClaim in ["Yes", "No"]
    ensures c.highRiskCombination in ["Yes", "No"] && c.policeReportFiled in ["Yes", "No"]
    ensures c.witnessPresent in ["Yes", "No"]
    ensures c.pastNumberOfClaims == row.pastNumberOfClaims && c.claimAmendments == row.claimAmendments
    ensures c.vehicleAge == row.vehicleAgeYears && c.fraudPercentageEstimate == row.fraudPercentageEstimate
  {
    ClaimData(
      ageGroup := row.ageGroup,
      gender := row.gender,
      maritalStatus := row.maritalStatus,
      incomeBand := row.incomeBand,
      employmentStatus := row.employmentStatus,
      addressChangeLast6Months := YesNo(row.addressChangeLast6Months),
      deductibleLevel := row.deductibleLevel,
      daysPolicyAccident := row.daysPolicyAccident,
      daysPolicyClaim := row.daysPolicyClaim,
      vehicleCategory := row.vehicleCategory,
      vehiclePriceRange := row.vehiclePriceRange,
      vehicleAge := row.vehicleAgeYears,
      pastNumberOfClaims := row.pastNumberOfClaims,
      accidentArea := row.accidentArea,
      policeReportFiled := YesNo(row.policeReportFiled),
      witnessPresent := YesNo(row.witnessPresent),
      agentType := row.agentType,
      claimAmendments := row.claimAmendments,
      addressChangeLinkedToClaim := YesNo(row.addressChangeLinkedToClaim),
      fraudPercentageEstimate := row.fraudPercentageEstimate,
      fraudType := row.fraudType,
      highRiskCombination := YesNo(row.highRiskCombination),
      region := row.region,
      claimAmountRange := row.claimAmountRange,
      payoutToClaimRatio := row.payoutToClaimRatio,
      claimChannel := row.claimChannel,
      weatherCondition := row.weatherCondition,
      accidentTime := row.accidentTime,
      repairShopPattern := row.repairShopPattern)
  }

  /**
   * The dictionary handed to `predict_single_claim`, as a one-row frame:
   * every field of `claim_data` under its training-set column name, plus the
   * constant policy type.
   */
  function FeatureRow(c: ClaimData): Row
  {
    map[
      "AgeGroup" := Str(c.ageGroup),
      "Gender" := Str(c.gender),
      "MaritalStatus" := Str(c.maritalStatus),
      "IncomeBand" := Str(c.incomeBand),
      "EmploymentStatus" := Str(c.employmentStatus),
      "AddressChange_Last6Months" := Str(c.addressChangeLast6Months),
      "DeductibleLevel" := Str(c.deductibleLevel),
      "Days_Policy_Accident" := Num(c.daysPolicyAccident as real),
      "Days_Policy_Claim" := Num(c.daysPolicyClaim as real),
      "PastNumberOfClaims" := Num(c.pastNumberOfClaims as real),
      "VehicleCategory" := Str(c.vehicleCategory),
      "VehiclePriceRange" := Str(c.vehiclePriceRange),
      "VehicleAge(In Years)" := Num(c.vehicleAge as real),
      "AccidentArea" := Str(c.accidentArea),
      "PoliceReportFiled" := Str(c.policeReportFiled),
      "WitnessPresent" := Str(c.witnessPresent),
      "WeatherCondition" := Str(c.weatherCondition),
      "AccidentTime" := Str(c.accidentTime),
      "AgentType" := Str(c.agentType),
      "ClaimAmendments" := Num(c.claimAmendments as real),
      "AddressChange_LinkedToClaim" := Str(c.addressChangeLinkedToClaim),
      "ClaimAmountRange" := Str(c.claimAmountRange),
      "PayoutToClaimRatio" := Num(c.payoutToClaimRatio),
      "ClaimChannel" := Str(c.claimChannel),
      "RepairShopPattern" := Str(c.repairShopPattern),
      "FraudPercentageEstimate" := Num(c.fraudPercentageEstimate),
      "FraudType" := Str(c.fraudType),
      "HighRiskCombination" := Str(c.highRiskCombination),
      "Region" := Str(c.region),
      "PolicyType" := Str("Vehicle")
    ]
  }
}
