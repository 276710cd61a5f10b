/**
 * `_create_features` of the fraud prediction system, for one row of the data
 * frame: five one-point flags summed into `RiskScore`, the claim-to-policy
 * ratio, six tiered risk columns and their total `CombinedRiskScore`.
 * pandas applies every statement to all rows at once, but each row's new
 * columns depend only on that row, so one row is the whole story.
 */
module Features {
  import opened Wrappers
  import opened Claims

  /**
   * Why pandas raises while engineering a row: a column it reads is absent
   * (KeyError), or a column it compares with a number or adds to holds text
   * (TypeError).
   */
  datatype FeatureError = MissingColumn(column: string) | NotNumeric(column: string)

  /** A column the feature pass compares with a number or adds to: present and holding a number. */
  predicate HasNumber(row: Row, name: string)
  {
    name in row && row[name].Num?
  }

  /**
   * A row the feature pass accepts: every column it reads is there and
   * every column it compares with a number or adds to holds a number.
   */
  predicate Engineerable(row: Row)
  {
    "AgeGroup" in row && "IncomeBand" in row && "EmploymentStatus" in row
    && HasNumber(row, "PastNumberOfClaims") && "AddressChange_Last6Months" in row
    && HasNumber(row, "Days_Policy_Claim") && HasNumber(row, "Days_Policy_Accident")
    && HasNumber(row, "VehicleAge(In Years)") && "ClaimAmountRange" in row
    && HasNumber(row, "PayoutToClaimRatio") && "FraudType" in row && "Region" in row
    && "AccidentTime" in row && "WeatherCondition" in row
  }

  function Column(row: Row, name: string): Result<Cell, FeatureError>
  {
    if name in row then Ok(row[name]) else Err(MissingColumn(name))
  }

  function Numeric(row: Row, name: string): Result<real, FeatureError>
  {
    if name !in row then Err(MissingColumn(name))
    else if row[name].Str? then Err(NotNumeric(name))
    else Ok(row[name].x)
  }

  // The category lists the feature pass tests with `isin`.
  const HighRiskAgeGroups: seq<string> := ["18-25", "60+"]
  const LowIncomeBands: seq<string> := ["<5000", "5000-15000"]
  const RiskyEmployment: seq<string> := ["Unemployed", "Student"]
  const TopClaimAmount: seq<string> := ["100k+"]
  const HighClaimAmount: seq<string> := ["50k-100k"]
  const SevereFraudTypes: seq<string> := ["Staged Accident", "False Documents"]
  const InflatedFraudTypes: seq<string> := ["Inflated Claim"]
  const RiskyAccidentTimes: seq<string> := ["Night", "Evening"]
  const RiskyWeather: seq<string> := ["Foggy", "Windy"]

  /** `Series.isin(values)` on one cell: only text can match the listed labels. */
  predicate IsIn(cell: Cell, values: seq<string>)
  {
    cell.Str? && cell.s in values
  }

  function Flag(b: bool): (n: nat)
    ensures n <= 1
  {
    if b then 1 else 0
  }

  /** `RiskScore`: one point each for age, income, employment, more than two past claims and a recent address change. */
  function RiskScore(ageGroup: Cell, incomeBand: Cell, employment: Cell, pastClaims: real, addressChange: Cell): (n: nat)
    ensures n <= 5
  {
    Flag(IsIn(ageGroup, HighRiskAgeGroups)) + Flag(IsIn(incomeBand, LowIncomeBands))
    + Flag(IsIn(employment, RiskyEmployment)) + Flag(pastClaims > 2.0)
    + Flag(addressChange == Str("Yes"))
  }

  /** `VehicleAgeRisk`: 2 above 15 years, 1 above 10 years, 0 otherwise. */
  function VehicleAgeRisk(age: real): (n: nat)
    ensures n <= 2
  {
    if age > 15.0 then 2 else if age > 10.0 then 1 else 0
  }

  /** `ClaimAmountRisk`: 2 for 100k+, 1 for 50k-100k, 0 otherwise. */
  function ClaimAmountRisk(range: Cell): (n: nat)
    ensures n <= 2
  {
    if IsIn(range, TopClaimAmount) then 2 else if IsIn(range, HighClaimAmount) then 1 else 0
  }

  /** `PayoutRatioRisk`: 2 above 0.9, 1 above 0.8, 0 otherwise. */
  function PayoutRatioRisk(ratio: real): (n: nat)
    ensures n <= 2
  {
    if ratio > 0.9 then 2 else if ratio > 0.8 then 1 else 0
  }

  /** `FraudTypeRisk`: 2 for staged accidents and false documents, 1 for inflated claims. */
  function FraudTypeRisk(fraudType: Cell): (n: nat)
    ensures n <= 2
  {
    if IsIn(fraudType, SevereFraudTypes) then 2
    else if IsIn(fraudType, InflatedFraudTypes) then 1
    else 0
  }

  /** The `region_risk` dictionary. */
  const RegionRiskTable: map<string, nat> :=
    map["Khomas" := 1, "Otjozondjupa" := 1, "Hardap" := 1, "Erongo" := 0, "Oshana" := 0]

  /** `Series.map(region_risk).fillna(0)`: a region missing from the table maps to NaN, then 0. */
  function RegionRisk(region: Cell): (n: nat)
    ensures n <= 1
  {
    if region.Str? && region.s in RegionRiskTable then RegionRiskTable[region.s] else 0
  }

  /** `AccidentTimeRisk`: 1 at night and in the evening. */
  function AccidentTimeRisk(time: Cell): (n: nat)
    ensures n <= 1
  {
    Flag(IsIn(time, RiskyAccidentTimes))
  }

  /** `WeatherRisk`: 1 in fog and wind. */
  function WeatherRisk(weather: Cell): (n: nat)
    ensures n <= 1
  {
    Flag(IsIn(weather, RiskyWeather))
  }

  /** `Days_Policy_Claim / (Days_Policy_Accident + 1)`, exactly (0 where the divisor is 0). */
  function ClaimToPolicyRatio(claimDays: real, accidentDays: real): real
  {
    if accidentDays + 1.0 != 0.0 then claimDays / (accidentDays + 1.0) else 0.0
  }

  /** The columns the feature pass adds to a row. */
  datatype Engineered = Engineered(
    riskScore: nat,
    claimToPolicyRatio: real,
    vehicleAgeRisk: nat,
    claimAmountRisk: nat,
    payoutRatioRisk: nat,
    fraudTypeRisk: nat,
    regionRisk: nat,
    accidentTimeRisk: nat,
    weatherRisk: nat,
    combinedRiskScore: nat)

  /** The cells the feature pass reads from a row, the numeric ones as numbers. */
  datatype Inputs = Inputs(
    ageGroup: Cell,
    incomeBand: Cell,
    employment: Cell,
    pastClaims: real,
    addressChange: Cell,
    claimDays: real,
    accidentDays: real,
    vehicleAge: real,
    claimAmount: Cell,
    payoutRatio: real,
    fraudType: Cell,
    region: Cell,
    accidentTime: Cell,
    weather: Cell)

  /**
   * The columns of a row in the order the feature pass first touches them,
   * or the error of the first one pandas cannot use: it fails exactly when
   * the row is not engineerable, and the error names a column that really
   * is absent, or really holds text.
   */
  function ReadInputs(row: Row): (r: Result<Inputs, FeatureError>)
    ensures r.Ok? <==> Engineerable(row)
    ensures r.Err? && r.error.MissingColumn? ==> r.error.column !in row
    ensures r.Err? && r.error.NotNumeric? ==> r.error.column in row && row[r.error.column].Str?
  {
    var ageGroup :- Column(row, "AgeGroup");
    var incomeBand :- Column(row, "IncomeBand");
    var employment :- Column(row, "EmploymentStatus");
    var pastClaims :- Numeric(row, "PastNumberOfClaims");
    var addressChange :- Column(row, "AddressChange_Last6Months");
    var _ :- Column(row, "Days_Policy_Claim");
    var accidentDays :- Numeric(row, "Days_Policy_Accident");
    var claimDays :- Numeric(row, "Days_Policy_Claim");
    var vehicleAge :- Numeric(row, "VehicleAge(In Years)");
    var claimAmount :- Column(row, "ClaimAmountRange");
    var payoutRatio :- Numeric(row, "PayoutToClaimRatio");
    var fraudType :- Column(row, "FraudType");
    var region :- Column(row, "Region");
    var accidentTime :- Column(row, "AccidentTime");
    var weather :- Column(row, "WeatherCondition");
    Ok(Inputs(ageGroup, incomeBand, employment, pastClaims, addressChange, claimDays, accidentDays,
              vehicleAge, claimAmount, payoutRatio, fraudType, region, accidentTime, weather))
  }

  /**
   * The new columns of an engineerable row: `RiskScore` lies in 0..5 and
   * `CombinedRiskScore` is the sum of the eight components and lies in 0..16.
   */
  function Compute(inp: Inputs): (e: Engineered)
    ensures e.riskScore <= 5 && e.combinedRiskScore <= 16
    ensures e.combinedRiskScore
      == e.riskScore + e.vehicleAgeRisk + e.claimAmountRisk + e.payoutRatioRisk
         + e.fraudTypeRisk + e.regionRisk + e.accidentTimeRisk + e.weatherRisk
  {
    var riskScore := RiskScore(inp.ageGroup, inp.incomeBand, inp.employment, inp.pastClaims, inp.addressChange);
    var vehicleAgeRisk := VehicleAgeRisk(inp.vehicleAge);
    var claimAmountRisk := ClaimAmountRisk(inp.claimAmount);
    var payoutRatioRisk := PayoutRatioRisk(inp.payoutRatio);
    var fraudTypeRisk := FraudTypeRisk(inp.fraudType);
    var regionRisk := RegionRisk(inp.region);
    var accidentTimeRisk := AccidentTimeRisk(inp.accidentTime);
    var weatherRisk := WeatherRisk(inp.weather);
    Engineered(
      riskScore, ClaimToPolicyRatio(inp.claimDays, inp.accidentDays), vehicleAgeRisk, claimAmountRisk,
      payoutRatioRisk, fraudTypeRisk, regionRisk, accidentTimeRisk, weatherRisk,
      riskScore + vehicleAgeRisk + claimAmountRisk + payoutRatioRisk + fraudTypeRisk + regionRisk
      + accidentTimeRisk + weatherRisk)
  }

  /** What the feature pass computes for a row, or the first error pandas raises. */
  function Engineer(row: Row): Result<Engineered, FeatureError>
  {
    var inp :- ReadInputs(row);
    Ok(Compute(inp))
  }

  /** The row after the feature pass: the input with the ten new columns written in order. */
  function WithFeatures(row: Row, e: Engineered): Row
  {
    row["RiskScore" := Num(e.riskScore as real)]
       ["ClaimToPolicyRatio" := Num(e.claimToPolicyRatio)]
       ["VehicleAgeRisk" := Num(e.vehicleAgeRisk as real)]
       ["ClaimAmountRisk" := Num(e.claimAmountRisk as real)]
       ["PayoutRatioRisk" := Num(e.payoutRatioRisk as real)]
       ["FraudTypeRisk" := Num(e.fraudTypeRisk as real)]
       ["RegionRisk" := Num(e.regionRisk as real)]
       ["AccidentTimeRisk" := Num(e.accidentTimeRisk as real)]
       ["WeatherRisk" := Num(e.weatherRisk as real)]
       ["CombinedRiskScore" := Num(e.combinedRiskScore as real)]
  }

  /** The feature pass as a function on rows. */
  function FeatureRowOf(row: Row): Result<Row, FeatureError>
  {
    match Engineer(row)
    case Ok(e) => Ok(WithFeatures(row, e))
    case Err(err) => Err(err)
  }

  // The tiered columns are written by a default and then overwritten by
  // later, stronger tests; each step below does that and is proved equal
  // to the tier function.

  /** `RiskScore` starts at 0 and each of the five tests adds one point. */
  method AddRiskPoints(ageGroup: Cell, incomeBand: Cell, employment: Cell, pastClaims: real, addressChange: Cell)
    returns (riskScore: nat)
    ensures riskScore == RiskScore(ageGroup, incomeBand, employment, pastClaims, addressChange)
  {
    riskScore := 0;
    if IsIn(ageGroup, HighRiskAgeGroups) {
      riskScore := riskScore + 1;
    }
    assert riskScore == Flag(IsIn(ageGroup, HighRiskAgeGroups));
    if IsIn(incomeBand, LowIncomeBands) {
      riskScore := riskScore + 1;
    }
    assert riskScore == Flag(IsIn(ageGroup, HighRiskAgeGroups)) + Flag(IsIn(incomeBand, LowIncomeBands));
    if IsIn(employment, RiskyEmployment) {
      riskScore := riskScore + 1;
    }
    assert riskScore == Flag(IsIn(ageGroup, HighRiskAgeGroups)) + Flag(IsIn(incomeBand, LowIncomeBands)) + Flag(IsIn(employment, RiskyEmployment));
    if pastClaims > 2.0 {
      riskScore := riskScore + 1;
    }
    assert riskScore == Flag(IsIn(ageGroup, HighRiskAgeGroups)) + Flag(IsIn(incomeBand, LowIncomeBands)) + Flag(IsIn(employment, RiskyEmployment)) + Flag(pastClaims > 2.0);
    if addressChange == Str("Yes") {
      riskScore := riskScore + 1;
    }
    assert riskScore == Flag(IsIn(ageGroup, HighRiskAgeGroups)) + Flag(IsIn(incomeBand, LowIncomeBands)) + Flag(IsIn(employment, RiskyEmployment)) + Flag(pastClaims > 2.0) + Flag(addressChange == Str("Yes"));
  }

  method VehicleAgeRiskColumn(age: real) returns (risk: nat)
    ensures risk == 2 <==> age > 15.0
    ensures risk == 1 <==> 10.0 < age <= 15.0
    ensures risk == 0 <==> age <= 10.0
    ensures risk == VehicleAgeRisk(age)
  {
    risk := 0;
    if age > 10.0 {
      risk := 1;
    }
    if age > 15.0 {
      risk := 2;
    }
  }

  method ClaimAmountRiskColumn(range: Cell) returns (risk: nat)
    ensures risk == ClaimAmountRisk(range) && risk <= 2
  {
    risk := 0;
    if IsIn(range, TopClaimAmount) {
      risk := 2;
    }
    if IsIn(range, HighClaimAmount) {
      risk := 1;
    }
  }

  method PayoutRatioRiskColumn(ratio: real) returns (risk: nat)
    ensures risk == 2 <==> ratio > 0.9
    ensures risk == 1 <==> 0.8 < ratio <= 0.9
    ensures risk == 0 <==> ratio <= 0.8
    ensures risk == PayoutRatioRisk(ratio)
  {
    risk := 0;
    if ratio > 0.8 {
      risk := 1;
    }
    if ratio > 0.9 {
      risk := 2;
    }
  }

  method FraudTypeRiskColumn(fraudType: Cell) returns (risk: nat)
    ensures risk == FraudTypeRisk(fraudType) && risk <= 2
  {
    risk := 0;
    if IsIn(fraudType, SevereFraudTypes) {
      risk := 2;
    }
    if IsIn(fraudType, InflatedFraudTypes) {
      risk := 1;
    }
  }

  /**
   * `_create_features` on one row: stops with the error of the first column
   * pandas cannot use, otherwise writes the ten new columns in order; the
   * result is the feature pass's function on rows, and it fails exactly when
   * the row is not engineerable.
   */
  method CreateFeatures(df: Row) returns (r: Result<Row, FeatureError>)
    ensures r == FeatureRowOf(df)
    ensures r.Ok? <==> Engineerable(df)
  {
    var inp :- ReadInputs(df);
    var riskScore := AddRiskPoints(inp.ageGroup, inp.incomeBand, inp.employment, inp.pastClaims, inp.addressChange);
    var out := df["RiskScore" := Num(riskScore as real)];
    out := out["ClaimToPolicyRatio" := Num(ClaimToPolicyRatio(inp.claimDays, inp.accidentDays))];

    var vehicleAgeRisk := VehicleAgeRiskColumn(inp.vehicleAge);
    out := out["VehicleAgeRisk" := Num(vehicleAgeRisk as real)];

    var claimAmountRisk := ClaimAmountRiskColumn(inp.claimAmount);
    out := out["ClaimAmountRisk" := Num(claimAmountRisk as real)];

    var payoutRatioRisk := PayoutRatioRiskColumn(inp.payoutRatio);
    out := out["PayoutRatioRisk" := Num(payoutRatioRisk as real)];

    var fraudTypeRisk := FraudTypeRiskColumn(inp.fraudType);
    out := out["FraudTypeRisk" := Num(fraudTypeRisk as real)];

    var regionRisk := RegionRisk(inp.region);
    out := out["RegionRisk" := Num(regionRisk as real)];

    var accidentTimeRisk := 0;
    if IsIn(inp.accidentTime, RiskyAccidentTimes) {
      accidentTimeRisk := 1;
    }
    out := out["AccidentTimeRisk" := Num(accidentTimeRisk as real)];

    var weatherRisk := 0;
    if IsIn(inp.weather, RiskyWeather) {
      weatherRisk := 1;
    }
    out := out["WeatherRisk" := Num(weatherRisk as real)];

    var combined := riskScore + vehicleAgeRisk + claimAmountRisk + payoutRatioRisk
                    + fraudTypeRisk + regionRisk + accidentTimeRisk + weatherRisk;
    out := out["CombinedRiskScore" := Num(combined as real)];
    r := Ok(out);
  }

  /** `RegionRisk` is 1 exactly for Khomas, Otjozondjupa and Hardap, and 0 for every other value, unknown regions included. */
  lemma RegionRiskIsMembership(region: Cell)
    ensures RegionRisk(region) == 1 <==> IsIn(region, ["Khomas", "Otjozondjupa", "Hardap"])
    ensures RegionRisk(region) == 0 <==> !IsIn(region, ["Khomas", "Otjozondjupa", "Hardap"])
  {
  }

  /** Every row the batch endpoint builds from a stored claim passes the feature pass. */
  lemma FeatureRowEngineerable(c: ClaimData)
    ensures Engineerable(FeatureRow(c))
  {
    FeatureRowNumbers(c);
  }

  /** On a row it can use, the feature pass reads each column's own cell. */
  lemma ReadsOwnCells(row: Row)
    requires Engineerable(row)
    ensures ReadInputs(row) == Ok(Inputs(
      row["AgeGroup"], row["IncomeBand"], row["EmploymentStatus"], row["PastNumberOfClaims"].x,
      row["AddressChange_Last6Months"], row["Days_Policy_Claim"].x, row["Days_Policy_Accident"].x,
      row["VehicleAge(In Years)"].x, row["ClaimAmountRange"], row["PayoutToClaimRatio"].x,
      row["FraudType"], row["Region"], row["AccidentTime"], row["WeatherCondition"]))
  {
  }

  /** The feature pass reads a batch row's cells straight from the claim's fields. */
  lemma FeatureRowInputs(c: ClaimData)
    ensures ReadInputs(FeatureRow(c)) == Ok(Inputs(
      Str(c.ageGroup), Str(c.incomeBand), Str(c.employmentStatus), c.pastNumberOfClaims as real,
      Str(c.addressChangeLast6Months), c.daysPolicyClaim as real, c.daysPolicyAccident as real,
      c.vehicleAge as real, Str(c.claimAmountRange), c.payoutToClaimRatio, Str(c.fraudType),
      Str(c.region), Str(c.accidentTime), Str(c.weatherCondition)))
  {
    FeatureRowEngineerable(c);
    FeatureRowCells(c);
    FeatureRowHistory(c);
    FeatureRowMoreCells(c);
    ReadsOwnCells(FeatureRow(c));
  }

  /** A batch row's applicant cells hold the claim's own fields. */
  lemma FeatureRowCells(c: ClaimData)
    ensures FeatureRow(c)["AgeGroup"] == Str(c.ageGroup) && FeatureRow(c)["IncomeBand"] == Str(c.incomeBand)
    ensures FeatureRow(c)["EmploymentStatus"] == Str(c.employmentStatus)
  {
  }

  /** A batch row's policy-history cells hold the claim's own values. */
  lemma FeatureRowHistory(c: ClaimData)
    ensures FeatureRow(c)["AddressChange_Last6Months"] == Str(c.addressChangeLast6Months)
    ensures FeatureRow(c)["PastNumberOfClaims"] == Num(c.pastNumberOfClaims as real)
    ensures FeatureRow(c)["Days_Policy_Claim"] == Num(c.daysPolicyClaim as real)
    ensures FeatureRow(c)["Days_Policy_Accident"] == Num(c.daysPolicyAccident as real)
  {
  }

  /** A batch row's cells hold the claim's own fields (second half). */
  lemma FeatureRowMoreCells(c: ClaimData)
    ensures FeatureRow(c)["VehicleAge(In Years)"] == Num(c.vehicleAge as real)
    ensures FeatureRow(c)["ClaimAmountRange"] == Str(c.claimAmountRange)
    ensures FeatureRow(c)["PayoutToClaimRatio"] == Num(c.payoutToClaimRatio)
    ensures FeatureRow(c)["FraudType"] == Str(c.fraudType) && FeatureRow(c)["Region"] == Str(c.region)
    ensures FeatureRow(c)["AccidentTime"] == Str(c.accidentTime)
    ensures FeatureRow(c)["WeatherCondition"] == Str(c.weatherCondition)
  {
  }

  /** The five columns the feature pass does arithmetic on hold numbers in such a row. */
  lemma FeatureRowNumbers(c: ClaimData)
    ensures HasNumber(FeatureRow(c), "PastNumberOfClaims") && HasNumber(FeatureRow(c), "Days_Policy_Claim")
    ensures HasNumber(FeatureRow(c), "Days_Policy_Accident") && HasNumber(FeatureRow(c), "VehicleAge(In Years)")
    ensures HasNumber(FeatureRow(c), "PayoutToClaimRatio")
  {
  }
}
