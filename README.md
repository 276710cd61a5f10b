# Insurance fraud detection backend — verified model of its scoring core

This project models the deterministic core of an insurance-fraud detection
backend (a Flask API over PostgreSQL with a scikit-learn model):

- **The rule-based scorer** `predict_fraud_simple` (`simple_scorer.dfy`).
  Nine rule groups add points and name a risk factor. The total score is
  mapped to a bucket, a 0/1 flag and a probability clamped to [0.05, 0.95].
  The scorer is a method with the source's accumulator, proved against a
  specification built from the nine rule outcomes.
- **The API glue** (`claims.dfy`, `api.dfy`):
  - the stored-row to `claim_data` conversion with its Yes/No flags;
  - the required-field check of `create_claim`;
  - `predict_fraud`;
  - the filtered, paginated query building of `get_claims`. Queries are
    sequences of SQL text pieces and `%s` slots, and they are proved to
    bind every slot to the right parameter;
  - the `batch_predict` loop over a claims table given as a map.
- **The trained-model wrapper `FraudPredictionSystem`**:
  - `_create_features` on one row (`features.dfy`), as a method that adds
    and overwrites columns as pandas does, proved equal to a function on
    rows;
  - `_get_risk_level`, the label-encoding loop, `reindex` alignment, the
    `is_trained` gate, train/save/load and the error-catching
    `predict_batch` (`prediction_system.dfy`).
  - The fitted scaler and classifier are opaque functions held in the
    model state.
- **Test vectors** (`samples.dfy`): the two seeded claims CLM001 and CLM002
  and the sample claim of the prediction system, with what the scorers give
  them.
- **Where the two bucketing rules disagree.** The rule-based scorer labels
  by score. `_get_risk_level` labels by probability. The two differ exactly
  at scores 2, 3 and 6.

`wrappers.dfy` holds the usual `Option`/`Result` types.

## Model

| member | source | states |
|---|---|---|
| Claims.Label | backend/app.py:98-109 | the stored label of a bucket is one of "LOW RISK", "MEDIUM RISK", "HIGH RISK" |
| Claims.YesNo | backend/app.py:249 | the mapped flag is 'Yes' exactly when the stored boolean is true, and 'No' exactly when it is false |
| Claims.ToClaimData | backend/app.py:239-275 | each of the five boolean columns becomes 'Yes' iff the stored value is true, else 'No'; past claims, amendments, vehicle age and fraud estimate are copied unchanged |
| SimpleScorer.PredictFraudSimple | backend/app.py:35-120 | score and factors are those of the nine rule groups; the score is at most 14; there are no more factors than points, and none exactly when the score is 0; HIGH iff score >= 7, MEDIUM iff 4..6, LOW iff <= 3; flag 1 iff score >= 7 (`SimpleFlag`); the probability is the banded formula clamped, and lies in [0.05, 0.95] |
| SimpleScorer.ScoreClaim | backend/app.py:37-95 | the nine blocks applied in order to 0 and [] yield exactly the specified score and factor list |
| SimpleScorer.AgeGroupStep | backend/app.py:40-43 | the age block adds 1 point and "High-risk age group" exactly for 18-25 and 60+ |
| SimpleScorer.IncomeStep | backend/app.py:45-48 | the income block adds 1 point and "Low income" exactly for the two lowest bands |
| SimpleScorer.PastClaimsStep | backend/app.py:50-57 | the past-claims block adds 2 points ("Multiple past claims") above 2 claims, else 1 point ("Previous claims") above 0 |
| SimpleScorer.AmendmentsStep | backend/app.py:59-66 | the amendments block adds 2 points above 3 amendments, else 1 point above 0, with its factor |
| SimpleScorer.AddressChangeStep | backend/app.py:68-71 | the address-change block adds 1 point and its factor exactly when the flag is 'Yes' |
| SimpleScorer.LinkedAddressStep | backend/app.py:73-75 | the linked-address block adds 1 point and its factor exactly when the flag is 'Yes' |
| SimpleScorer.FraudEstimateStep | backend/app.py:77-84 | the estimate block adds 3 points above 70, else 1 point above 30, with its factor |
| SimpleScorer.HighRiskStep | backend/app.py:86-89 | the high-risk block adds 2 points and its factor exactly when the flag is 'Yes' |
| SimpleScorer.VehicleAgeStep | backend/app.py:91-95 | the vehicle block adds 1 point and "Old vehicle" exactly above 15 years |
| SimpleScorer.ScoreIsSumOfGroups | backend/app.py:37-95 | the score is the sum of the nine groups' increments, each mutually exclusive branch counted at most once |
| SimpleScorer.FactorsAreGroupFactors | backend/app.py:38-95 | the factor list holds one entry per group that fired, in block order |
| SimpleScorer.FactorsAtMostPoints | backend/app.py:41-95 | for any outcomes where every firing group adds a point, there are no more factors than points, and no factors exactly when there are no points |
| SimpleScorer.GroupCaps | backend/app.py:41-95 | each group adds at most 1, 1, 2, 2, 1, 1, 3, 2, 1 points respectively |
| SimpleScorer.OutcomesPositive | backend/app.py:41-95 | every group that fires adds at least one point |
| SimpleScorer.ScoreBounds | backend/app.py:37-95 | the score is in 0..14, `len(risk_factors) <= risk_score`, and the factors are empty iff the score is 0 |
| SimpleScorer.SimpleFlag | backend/app.py:98-109 | the flag is 1 exactly for the HIGH bucket and 0 for the other two |
| SimpleScorer.RawProbabilityMonotone | backend/app.py:98-109 | the unclamped probability never decreases with the score, across all three bands |
| SimpleScorer.ProbabilityBounds | backend/app.py:98-112 | the unclamped probability is at least 0.2, so the lower clamp never binds; the clamped one lies in [0.05, 0.95] and is monotone in the score |
| Features.RiskScore | backend/models/fraud_prediction_system.py:69-84 | `RiskScore` is at most 5 (one point per test) |
| Features.AddRiskPoints | backend/models/fraud_prediction_system.py:69-84 | starting at 0 and adding one point per passing test gives the five-flag sum |
| Features.VehicleAgeRisk | backend/models/fraud_prediction_system.py:89-92 | the vehicle-age tier is at most 2 |
| Features.VehicleAgeRiskColumn | backend/models/fraud_prediction_system.py:89-92 | after the overwriting assignments the tier is 2 iff age > 15, 1 iff 10 < age <= 15, 0 iff age <= 10 |
| Features.ClaimAmountRisk | backend/models/fraud_prediction_system.py:94-97 | the claim-amount tier is at most 2 |
| Features.ClaimAmountRiskColumn | backend/models/fraud_prediction_system.py:94-97 | the overwriting assignments give the claim-amount tier (2 for 100k+, 1 for 50k-100k, 0 otherwise) |
| Features.PayoutRatioRisk | backend/models/fraud_prediction_system.py:99-102 | the payout tier is at most 2 |
| Features.PayoutRatioRiskColumn | backend/models/fraud_prediction_system.py:99-102 | after the overwriting assignments the tier is 2 iff ratio > 0.9, 1 iff 0.8 < ratio <= 0.9, 0 iff ratio <= 0.8 |
| Features.FraudTypeRisk | backend/models/fraud_prediction_system.py:104-107 | the fraud-type tier is at most 2 |
| Features.FraudTypeRiskColumn | backend/models/fraud_prediction_system.py:104-107 | the overwriting assignments give the fraud-type tier (2 staged/false documents, 1 inflated, 0 otherwise) |
| Features.RegionRisk | backend/models/fraud_prediction_system.py:109-114 | the region risk is at most 1 |
| Features.RegionRiskIsMembership | backend/models/fraud_prediction_system.py:109-114 | region risk is 1 exactly for Khomas, Otjozondjupa and Hardap, and 0 for every other value, unknown regions included (the `fillna(0)`) |
| Features.AccidentTimeRisk | backend/models/fraud_prediction_system.py:116-118 | the accident-time risk is at most 1 |
| Features.WeatherRisk | backend/models/fraud_prediction_system.py:120-122 | the weather risk is at most 1 |
| Features.ReadInputs | backend/models/fraud_prediction_system.py:72-122 | the columns are read in source order; it succeeds iff every column read is present and every column compared or added is numeric; a missing-column error names an absent column, a type error names a text column |
| Features.Compute | backend/models/fraud_prediction_system.py:125-134 | `CombinedRiskScore` equals the sum of the eight components; `RiskScore` is at most 5 and the total at most 16 |
| Features.CreateFeatures | backend/models/fraud_prediction_system.py:66-136 | the step-by-step column writes produce the input row plus the ten engineered columns; it fails exactly on rows that are not engineerable |
| Features.ReadsOwnCells | backend/models/fraud_prediction_system.py:72-122 | on an engineerable row, the feature pass reads each column's own cell |
| Features.FeatureRowEngineerable | backend/app.py:621-652 | every row the batch handler builds from a stored claim passes the feature pass |
| Features.FeatureRowInputs | backend/app.py:621-652 | the feature pass reads a batch row's cells straight from the claim's fields |
| PredictionSystem.RiskLevel | backend/models/fraud_prediction_system.py:213-220 | HIGH iff p >= 0.7, MEDIUM iff 0.4 <= p < 0.7, LOW iff p < 0.4 |
| PredictionSystem.RiskLevelMonotone | backend/models/fraud_prediction_system.py:213-220 | a higher probability never gets a lower bucket |
| PredictionSystem.EncodeCell | backend/models/fraud_prediction_system.py:188-195 | a known label becomes its code; a label unseen by the encoder becomes 0; numbers, and columns without an encoder, are untouched |
| PredictionSystem.EncodedTextHasNoEncoder | backend/models/fraud_prediction_system.py:183-195 | after encoding, text survives only in columns with no encoder, unchanged |
| PredictionSystem.EncodeCategoricals | backend/models/fraud_prediction_system.py:183-195 | the loop over the text columns yields the encoded frame, with every other column unchanged |
| PredictionSystem.Reindex | backend/models/fraud_prediction_system.py:201 | the aligned frame has exactly the feature names' columns, in order; a present column keeps its cell and an absent one is filled with 0 |
| PredictionSystem.ReindexIgnoresOtherColumns | backend/models/fraud_prediction_system.py:201 | extra columns are dropped: frames that agree on the feature columns align identically |
| PredictionSystem.ReindexIdempotent | backend/models/fraud_prediction_system.py:201 | with distinct feature names, aligning an aligned frame changes nothing |
| PredictionSystem.ToVector | backend/models/fraud_prediction_system.py:201-205 | the classifier accepts the aligned frame iff every cell is numeric, and gets those numbers in order; otherwise the error names the position of a text cell |
| PredictionSystem.Predict | backend/models/fraud_prediction_system.py:165-211 | an untrained system raises "Model not trained"; a row the feature pass rejects fails in the feature step; a prediction's bucket is `_get_risk_level` of its probability |
| PredictionSystem.EngineerableRowsPassFeatures | backend/models/fraud_prediction_system.py:165-177 | a row the feature pass accepts never fails in the feature step of a prediction |
| PredictionSystem.StoredClaimsPassFeatures | backend/app.py:621-656 | the row the batch handler builds from any stored claim never fails in the feature step of `predict_single_claim` |
| PredictionSystem.EntryFor | backend/models/fraud_prediction_system.py:225-237 | an entry carries its 1-based id; it has an error iff the prediction failed, and then no prediction fields; otherwise it has the prediction's three fields |
| PredictionSystem.FraudPredictionSystem.constructor | backend/models/fraud_prediction_system.py:22-28 | a new system is untrained, with no encoders and no feature names |
| PredictionSystem.FraudPredictionSystem.TrainModel | backend/models/fraud_prediction_system.py:30-64 | training stores the fitted model, adds the fitted encoders over the old ones, replaces the feature names and sets `is_trained` |
| PredictionSystem.FraudPredictionSystem.SaveModel | backend/models/fraud_prediction_system.py:240-255 | saving raises iff the system is untrained; otherwise the file holds the model, encoders and feature names |
| PredictionSystem.FraudPredictionSystem.LoadModel | backend/models/fraud_prediction_system.py:257-276 | it returns True iff the file could be read; then it takes model, encoders and names from the file and sets `is_trained`; otherwise it returns False and the state is unchanged |
| PredictionSystem.FraudPredictionSystem.PredictSingleClaim | backend/models/fraud_prediction_system.py:165-211 | the step-by-step pipeline (gate, features, drop `FraudLabel`, encode, scale, reindex, classify) returns `Predict` of the current state |
| PredictionSystem.FraudPredictionSystem.PredictBatch | backend/models/fraud_prediction_system.py:222-238 | one entry per input claim, in order, numbered i+1; a failing claim yields an error entry and the loop goes on |
| PredictionSystem.SaveThenLoad | backend/models/fraud_prediction_system.py:240-276 | a saved model loaded into a new system predicts exactly as the system that saved it, for every claim |
| Api.ValidateClaim | backend/app.py:170-184 | it proceeds iff all 30 required fields are present; otherwise it rejects with 400 and "Missing required field: f", where f is the first absent field in list order |
| Api.Stored | backend/app.py:300-307 | the stored flag is `bool(fraud_prediction)`; the label is one of the three buckets; the confidence equals the probability |
| Api.PredictFraud | backend/app.py:225-313 | 404 iff the claim id is unknown; otherwise the rule-based score, factors, bucket, 0/1 flag and probability of the converted row; the stored `fraud_prediction` boolean is true iff the score is at least 7 |
| Api.FlagRulesFollowStoredFlags | backend/app.py:249-266 | the address-change, linked-address and high-risk rules fire exactly when the stored boolean is true |
| Api.AppendFilter | backend/app.py:339-345 | a clause and its parameter are appended together; placeholders stay equal in number to parameters; the bound query gains exactly the clause with that value |
| Api.FilteredSelect | backend/app.py:331-362 | a select followed by the risk-level then region filters: one slot per parameter, and each filter bound to its own value |
| Api.BuildClaimsQueries | backend/app.py:328-364 | both queries have as many `%s` as parameters; the listing query binds select, risk level, region, limit and offset in that order; the count query has the same filters and values; `params == count_params + [limit, offset]` |
| Api.FloorDiv | backend/app.py:372 | Python's `//`: the floor of the quotient, for either sign of the divisor |
| Api.PageCountIsCeiling | backend/app.py:328-372 | for limit > 0, `pages` is ceil(total/limit): `total <= pages * limit` and `(pages - 1) * limit < total`, so 0 pages for no claims; every page from 1 to `pages` starts at an offset inside the result set |
| Api.FoundIdsAreFound | backend/app.py:613-618 | the found ids are exactly the requested ids present in the table, and there are no more of them than ids |
| Api.BatchRows | backend/app.py:621-652 | a row is built for every stored claim and for nothing else |
| Api.BatchFailsIff | backend/app.py:654-704 | the batch fails (500) iff the prediction of some found claim raises |
| Api.BatchResultsFound | backend/app.py:612-694 | a successful batch lists exactly the found ids in input order, each with its own claim's prediction |
| Api.BatchErrorIsAClaimError | backend/app.py:654-704 | a failed batch reports the error of the prediction of one of its found claims |
| Api.BatchNeverFailsInFeatures | backend/app.py:621-664 | with the system's own `predict_single_claim`, a batch over stored claims never fails in the feature pass |
| Api.BatchOutcomeSize | backend/app.py:696-698 | `total_processed <= len(claim_ids)` |
| Api.BatchOutcomeStopsAtError | backend/app.py:702-704 | the first raising prediction ends the request with that error |
| Api.BatchPredict | backend/app.py:603-704 | 400 iff the id list is empty; otherwise the loop's outcome is `BatchOutcome` over the stored claims' rows, and `total_processed == len(results) <= len(claim_ids)` |
| Samples.Clm001Prediction | backend/database/database_setup.py:186-217 | CLM001 scores 1 ("Previous claims"): LOW RISK, flag 0, probability 0.3 |
| Samples.Clm002Prediction | backend/database/database_setup.py:218-249 | CLM002 scores 10 from eight groups: HIGH RISK, flag 1, probability 0.91 |
| Samples.Clm002Features | backend/database/database_setup.py:218-249 | CLM002's batch row has `RiskScore` 5 and `CombinedRiskScore` 12 |
| Samples.SampleClaimFeatures | backend/models/fraud_prediction_system.py:278-311 | the sample claim's only risk is its region: `CombinedRiskScore` 1 |
| Samples.ScorersDisagree | backend/app.py:98-109 | the scorer's bucket differs from `_get_risk_level` of its own probability exactly at scores 2, 3 (LOW against MEDIUM) and 6 (MEDIUM against HIGH) |

## Left out

- The database layer (`DatabaseAPI`, psycopg2), the aggregate report endpoints, the CSV/Excel/PDF export, Flask routing, JSON, CORS, logging, `initialize_system` and the server start script. These are I/O and framework plumbing. The claims table is a map from claim id to stored row. The rows written to `fraud_predictions` are data (`Api.Stored`), not writes.
- The SQL text is kept as the literal pieces with `%s` slots; the query's newlines and indentation are not reproduced.
- The setup script is used only for its two sample rows.
- Training and inference internals (`GradientBoostingClassifier`, `StandardScaler`, `LabelEncoder.fit_transform`, `predict_proba`, pickle). The fitted scaler and classifier are opaque functions. `TrainModel` takes what fitting produced as a parameter, because the CSV read and the fitting are library calls.
- PredictionSystem.FraudPredictionSystem.TrainModel: training is modelled only when it succeeds.
  - A missing data file makes `pd.read_csv` raise with the state untouched.
  - A failing `fit` raises after `_preprocess_data` has already overwritten encoders, scaler and feature names, and after `self.model` has been replaced by an unfitted classifier. `is_trained` then keeps its old value, so a previously loaded system stays "trained" with an unfitted model.
  - Neither failure is modelled.
- PredictionSystem.Predict: the scaler is applied to the whole encoded row rather than only its numeric columns. The scaler is opaque, so this changes no stated property.
- The retrain-and-retry fallback of `predict_fraud` and `batch_predict` calls the trainer. `Api.PredictFraud` models the scorer path, which does not raise on a stored row.
- Api.BatchPredict: `predict` is the prediction of one fixed system state for the whole loop. A retrain during the loop replaces the model, encoders and feature names of the shared system, and so changes the predictor for later ids. That is not modelled, and neither is the retried prediction itself. The batch fails at the first prediction that raises.
- Features.ClaimToPolicyRatio: when `Days_Policy_Accident` is -1, pandas divides by zero and yields infinity (or NaN for 0/0); the model writes 0. The ratio is otherwise exact real division, with no IEEE rounding.
- IEEE floating point in general: probabilities, ratios and thresholds are exact reals.
- The text of exceptions (`str(e)`): errors are `PredictError` and `FeatureError` values naming their cause.
- Malformed requests: `get_json()` returning None and `int()` failing on `page`/`limit` (both end in a 500). `ValidateClaim` takes the set of keys of the body.
- `load_model` on a pickle that lacks a key: the source may assign some fields before raising. The model treats every unreadable file as changing nothing.
- The `'Gradient Boosting'` `model_used` label is stored even for rule-based predictions. It is modelled as written, as a constant.
- pandas vectorisation: the feature pass is modelled on one row, since each row's new columns depend only on that row.
