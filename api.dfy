/**
 * The request handlers of the backend that do more than pass data through:
 * required-field validation of a new claim, single-claim prediction with the
 * rule-based scorer, the filtered and paginated claim listing, and batch
 * prediction over a list of claim ids. The claims table is a map from claim
 * id to stored row; a query is a list of SQL text pieces and `%s` slots.
 */
module Api {
  import opened Wrappers
  import opened Claims
  import opened SimpleScorer
  import opened PredictionSystem

  // ---------------------------------------------------------------------
  // create_claim: required fields

  /** The fields a new claim must carry, in the order they are checked. */
  const RequiredFields: seq<string> := [
    "claim_id", "age_group", "gender", "marital_status", "income_band",
    "employment_status", "address_change_last_6_months", "deductible_level",
    "days_policy_accident", "days_policy_claim", "past_number_of_claims",
    "vehicle_category", "vehicle_price_range", "vehicle_age_years",
    "accident_area", "police_report_filed", "witness_present",
    "weather_condition", "accident_time", "agent_type", "claim_amendments",
    "address_change_linked_to_claim", "claim_amount_range",
    "payout_to_claim_ratio", "claim_channel", "repair_shop_pattern",
    "fraud_percentage_estimate", "fraud_type", "high_risk_combination", "region"]

  /** The outcome of validating a request body. */
  datatype Validation = Rejected(status: nat, message: string) | Proceed

  /**
   * The validation loop of `create_claim` over the keys of the JSON body:
   * it proceeds exactly when all required fields are present, and otherwise
   * rejects with 400 naming the first absent field in list order.
   */
  method ValidateClaim(data: set<string>) returns (v: Validation)
    ensures v.Proceed? <==> forall i :: 0 <= i < |RequiredFields| ==> RequiredFields[i] in data
    ensures v.Rejected? ==>
      exists i :: 0 <= i < |RequiredFields| && RequiredFields[i] !in data
        && (forall j :: 0 <= j < i ==> RequiredFields[j] in data)
        && v == Rejected(400, "Missing required field: " + RequiredFields[i])
  {
    for i := 0 to |RequiredFields|
      invariant forall j :: 0 <= j < i ==> RequiredFields[j] in data
    {
      var field := RequiredFields[i];
      if field !in data {
        return Rejected(400, "Missing required field: " + field);
      }
    }
    v := Proceed;
  }

  // ---------------------------------------------------------------------
  // predict_fraud: one stored claim through the rule-based scorer

  /** The row `predict_fraud` and `batch_predict` insert into `fraud_predictions`. */
  datatype StoredPrediction = StoredPrediction(
    claimId: string,
    fraudPrediction: bool,
    fraudProbability: real,
    riskLevel: string,
    modelUsed: string,
    predictionConfidence: real)

  /** The stored row for a prediction: the flag as a boolean, the bucket's label, and the probability twice. */
  function Stored(claimId: string, fraudPrediction: int, fraudProbability: real, level: Level): (s: StoredPrediction)
    ensures s.fraudPrediction <==> fraudPrediction != 0
    ensures s.riskLevel in ["LOW RISK", "MEDIUM RISK", "HIGH RISK"]
    ensures s.predictionConfidence == s.fraudProbability == fraudProbability
  {
    StoredPrediction(claimId, fraudPrediction != 0, fraudProbability, Label(level), "Gradient Boosting", fraudProbability)
  }

  datatype SingleResponse =
    | ClaimNotFound                                        // 404
    | Predicted(prediction: SimplePrediction, stored: StoredPrediction)

  /**
   * `predict_fraud`: 404 for an unknown id; otherwise the stored row is
   * converted to `claim_data`, scored by the rule-based scorer and the
   * prediction is recorded.
   */
  method PredictFraud(claimId: string, table: map<string, ClaimRow>) returns (r: SingleResponse)
    ensures claimId !in table <==> r.ClaimNotFound?
    ensures claimId in table ==>
      var c := ToClaimData(table[claimId]);
      r.prediction.riskScore == Score(c) && r.prediction.riskFactors == Factors(c)
      && r.prediction.fraudProbability == SimpleProbability(Score(c))
      && r.prediction.riskLevel == SimpleLevel(Score(c))
      && r.prediction.fraudPrediction == SimpleFlag(Score(c))
      && (r.stored.fraudPrediction <==> Score(c) >= 7)
      && r.stored == Stored(claimId, r.prediction.fraudPrediction, r.prediction.fraudProbability, r.prediction.riskLevel)
  {
    if claimId !in table {
      return ClaimNotFound;
    }
    var claimData := ToClaimData(table[claimId]);
    var prediction := PredictFraudSimple(claimData);
    r := Predicted(prediction, Stored(claimId, prediction.fraudPrediction, prediction.fraudProbability, prediction.riskLevel));
  }

  /**
   * The flag rules of the scorer fire exactly when the stored boolean is
   * true: the Yes/No conversion loses nothing the scorer reads.
   */
  lemma FlagRulesFollowStoredFlags(row: ClaimRow)
    ensures AddressChangeRule(ToClaimData(row)).Fired? <==> row.addressChangeLast6Months
    ensures LinkedAddressRule(ToClaimData(row)).Fired? <==> row.addressChangeLinkedToClaim
    ensures HighRiskRule(ToClaimData(row)).Fired? <==> row.highRiskCombination
  {
  }

  // ---------------------------------------------------------------------
  // get_claims: filtered query and pagination

  /** A piece of a query: literal SQL text, or a `%s` placeholder. */
  datatype Piece = Sql(text: string) | Slot

  /** A query parameter. */
  datatype Param = Text(s: string) | Int(n: int)

  /** A query with its parameters bound: SQL text, or the value that fills a placeholder. */
  datatype Bound = Literal(text: string) | Value(p: Param)

  /** The number of `%s` placeholders. */
  function Slots(q: seq<Piece>): nat
  {
    if q == [] then 0 else Slots(q[..|q| - 1]) + (if q[|q| - 1].Slot? then 1 else 0)
  }

  /** The query as the driver sees it: each placeholder in turn takes the next parameter. */
  function Render(q: seq<Piece>, params: seq<Param>): seq<Bound>
    requires Slots(q) == |params|
  {
    if q == [] then []
    else if q[|q| - 1].Slot? then Render(q[..|q| - 1], params[..|params| - 1]) + [Value(params[|params| - 1])]
    else Render(q[..|q| - 1], params) + [Literal(q[|q| - 1].text)]
  }

  lemma {:induction false} SlotsAppend(a: seq<Piece>, b: seq<Piece>)
    ensures Slots(a + b) == Slots(a) + Slots(b)
  {
    if b != [] {
      assert (a + b)[..|a + b| - 1] == a + b[..|b| - 1];
      SlotsAppend(a, b[..|b| - 1]);
    } else {
      assert a + b == a;
    }
  }

  /** Rendering a query built in two parts binds each part's parameters to its own placeholders. */
  lemma {:induction false} RenderAppend(a: seq<Piece>, p: seq<Param>, b: seq<Piece>, q: seq<Param>)
    requires Slots(a) == |p| && Slots(b) == |q|
    ensures Slots(a + b) == |p + q|
    ensures Render(a + b, p + q) == Render(a, p) + Render(b, q)
  {
    SlotsAppend(a, b);
    if b == [] {
      assert a + b == a;
      assert p + q == p;
    } else {
      var b' := b[..|b| - 1];
      assert (a + b)[..|a + b| - 1] == a + b';
      SlotsAppend(b', [b[|b| - 1]]);
      assert b' + [b[|b| - 1]] == b;
      if b[|b| - 1].Slot? {
        var q' := q[..|q| - 1];
        assert (p + q)[..|p + q| - 1] == p + q';
        RenderAppend(a, p, b', q');
      } else {
        RenderAppend(a, p, b', q);
      }
    }
  }

  /** Python truthiness of an optional query-string argument: present and not empty. */
  predicate Truthy(arg: Option<string>)
  {
    arg.Some? && arg.value != ""
  }

  const ClaimsSelect := "SELECT ic.*, fp.fraud_prediction, fp.fraud_probability, fp.risk_level, fp.created_at as prediction_date FROM insurance_claims ic LEFT JOIN fraud_predictions fp ON ic.claim_id = fp.claim_id WHERE 1=1"
  const CountSelect := "SELECT COUNT(*) as total FROM insurance_claims ic LEFT JOIN fraud_predictions fp ON ic.claim_id = fp.claim_id WHERE 1=1"
  const RiskLevelFilter := " AND fp.risk_level = "
  const RegionFilter := " AND ic.region = "
  const OrderAndLimit := " ORDER BY ic.created_at DESC LIMIT "
  const OffsetClause := " OFFSET "

  /** A filter or limit clause: its SQL text followed by one placeholder. */
  function Clause(text: string): seq<Piece>
  {
    [Sql(text), Slot]
  }

  lemma ClauseRender(text: string, v: Param)
    ensures Slots(Clause(text)) == 1
    ensures Render(Clause(text), [v]) == [Literal(text), Value(v)]
  {
    var q := Clause(text);
    assert q[..1] == [Sql(text)];
    assert [Sql(text)][..0] == [];
    assert Slots([Sql(text)]) == 0;
    assert Render([Sql(text)], []) == [Literal(text)];
    assert [v][..0] == [];
  }

  /** The filters in force, each with the value its placeholder must receive, in the order they are appended. */
  function Filters(riskLevel: Option<string>, region: Option<string>): seq<Bound>
  {
    FilterOf(riskLevel, RiskLevelFilter) + FilterOf(region, RegionFilter)
  }

  function FilterOf(arg: Option<string>, clause: string): seq<Bound>
  {
    if Truthy(arg) then [Literal(clause), Value(Text(arg.value))] else []
  }

  /**
   * `if arg: query += clause; params.append(arg)`: the clause and its value
   * are appended together, so placeholders and parameters stay paired.
   */
  method AppendFilter(query: seq<Piece>, params: seq<Param>, arg: Option<string>, clause: string)
    returns (query': seq<Piece>, params': seq<Param>)
    requires Slots(query) == |params|
    ensures Slots(query') == |params'|
    ensures Render(query', params') == Render(query, params) + FilterOf(arg, clause)
    ensures params' == params + (if Truthy(arg) then [Text(arg.value)] else [])
  {
    query', params' := query, params;
    if Truthy(arg) {
      ClauseRender(clause, Text(arg.value));
      RenderAppend(query', params', Clause(clause), [Text(arg.value)]);
      query' := query' + Clause(clause);
      params' := params' + [Text(arg.value)];
    }
  }

  /** `" ORDER BY ic.created_at DESC LIMIT %s OFFSET %s;"`. */
  function Tail(): seq<Piece>
  {
    Clause(OrderAndLimit) + Clause(OffsetClause) + [Sql(";")]
  }

  lemma TailRender(limit: int, offset: int)
    ensures Slots(Tail()) == 2
    ensures Render(Tail(), [Int(limit), Int(offset)])
         == [Literal(OrderAndLimit), Value(Int(limit)), Literal(OffsetClause), Value(Int(offset)), Literal(";")]
  {
    ClauseRender(OrderAndLimit, Int(limit));
    ClauseRender(OffsetClause, Int(offset));
    RenderAppend(Clause(OrderAndLimit), [Int(limit)], Clause(OffsetClause), [Int(offset)]);
    assert [Sql(";")][..0] == [];
    assert Slots([Sql(";")]) == 0;
    assert Render([Sql(";")], []) == [Literal(";")];
    RenderAppend(Clause(OrderAndLimit) + Clause(OffsetClause), [Int(limit)] + [Int(offset)], [Sql(";")], []);
    assert [Int(limit)] + [Int(offset)] + [] == [Int(limit), Int(offset)];
  }

  /** The values the filters bind, in order. */
  function FilterParams(riskLevel: Option<string>, region: Option<string>): seq<Param>
  {
    (if Truthy(riskLevel) then [Text(riskLevel.value)] else [])
    + (if Truthy(region) then [Text(region.value)] else [])
  }

  /** A select statement followed by the filters of `get_claims`. */
  method FilteredSelect(select: string, riskLevel: Option<string>, region: Option<string>)
    returns (query: seq<Piece>, params: seq<Param>)
    ensures Slots(query) == |params|
    ensures Render(query, params) == [Literal(select)] + Filters(riskLevel, region)
    ensures params == FilterParams(riskLevel, region)
  {
    assert [Sql(select)][..0] == [];
    assert Slots([Sql(select)]) == 0;
    assert Render([Sql(select)], []) == [Literal(select)];
    query := [Sql(select)];
    params := [];
    query, params := AppendFilter(query, params, riskLevel, RiskLevelFilter);
    ghost var head := [Literal(select)] + FilterOf(riskLevel, RiskLevelFilter);
    assert Render(query, params) == head;
    query, params := AppendFilter(query, params, region, RegionFilter);
    assert Render(query, params) == head + FilterOf(region, RegionFilter);
  }

  /**
   * The query building of `get_claims`. Both queries have exactly as many
   * placeholders as parameters, and once bound the listing query reads:
   * select, the risk-level filter with the risk level, the region filter
   * with the region, then the limit and the offset; the count query has the
   * same filters with the same values and nothing after them.
   */
  method BuildClaimsQueries(riskLevel: Option<string>, region: Option<string>, limit: int, offset: int)
    returns (query: seq<Piece>, params: seq<Param>, countQuery: seq<Piece>, countParams: seq<Param>)
    ensures Slots(query) == |params| && Slots(countQuery) == |countParams|
    ensures Render(query, params)
         == [Literal(ClaimsSelect)] + Filters(riskLevel, region)
            + [Literal(OrderAndLimit), Value(Int(limit)), Literal(OffsetClause), Value(Int(offset)), Literal(";")]
    ensures Render(countQuery, countParams) == [Literal(CountSelect)] + Filters(riskLevel, region)
    ensures params == countParams + [Int(limit), Int(offset)]
  {
    query, params := FilteredSelect(ClaimsSelect, riskLevel, region);
    TailRender(limit, offset);
    RenderAppend(query, params, Tail(), [Int(limit), Int(offset)]);
    query := query + Tail();
    params := params + [Int(limit), Int(offset)];
    countQuery, countParams := FilteredSelect(CountSelect, riskLevel, region);
  }

  /** Python's `a // b`: the floor of the quotient, for either sign of `b`. */
  function FloorDiv(a: int, b: int): (q: int)
    requires b != 0
    ensures b > 0 ==> b * q <= a < b * q + b
    ensures b < 0 ==> b * q + b < a <= b * q
  {
    if b > 0 then a / b else (-a) / (-b)
  }

  /** `offset = (page - 1) * limit`. */
  function Offset(page: int, limit: int): int
  {
    (page - 1) * limit
  }

  /** `pages = (total + limit - 1) // limit`; a zero limit raises ZeroDivisionError (500). */
  function PageCount(total: nat, limit: int): Option<int>
  {
    if limit == 0 then None else Some(FloorDiv(total + limit - 1, limit))
  }

  /**
   * For a positive limit the page count is the ceiling of total/limit: the
   * pages hold every claim and the last one is not empty; and every page
   * from 1 to that count starts at an offset inside the result set.
   */
  lemma PageCountIsCeiling(total: nat, limit: int, page: int)
    requires limit > 0
    ensures PageCount(total, limit).Some?
    ensures var pages := PageCount(total, limit).value;
      pages >= 0 && total <= pages * limit && (pages - 1) * limit < total
    ensures var pages := PageCount(total, limit).value;
      1 <= page <= pages ==> 0 <= Offset(page, limit) < total
  {
    var pages := FloorDiv(total + limit - 1, limit);
    if 1 <= page <= pages {
      assert Offset(page, limit) <= (pages - 1) * limit by {
        assert page - 1 <= pages - 1;
        MultiplyMonotone(page - 1, pages - 1, limit);
      }
      assert 0 <= (page - 1) * limit by {
        MultiplyMonotone(0, page - 1, limit);
      }
    }
  }

  lemma MultiplyMonotone(a: int, b: int, k: int)
    requires a <= b && k > 0
    ensures a * k <= b * k
  {
  }

  // ---------------------------------------------------------------------
  // batch_predict

  /** One entry of the batch response, with the row recorded for it. */
  datatype BatchResult = BatchResult(claimId: string, prediction: Prediction, stored: StoredPrediction)

  datatype BatchResponse =
    | NoClaimIds                                            // 400 "No claim IDs provided"
    | BatchFailed(error: PredictError)                      // 500: a prediction raised
    | Processed(results: seq<BatchResult>, totalProcessed: nat)

  /** The ids of `ids` that are in the table, in input order, repeats kept. */
  function FoundIds<V>(ids: seq<string>, rows: map<string, V>): seq<string>
  {
    if ids == [] then []
    else FoundIds(ids[..|ids| - 1], rows) + (if ids[|ids| - 1] in rows then [ids[|ids| - 1]] else [])
  }

  lemma {:induction false} FoundIdsAreFound<V>(ids: seq<string>, rows: map<string, V>)
    ensures |FoundIds(ids, rows)| <= |ids|
    ensures forall x :: x in FoundIds(ids, rows) <==> x in ids && x in rows
  {
    if ids != [] {
      var front := ids[..|ids| - 1];
      FoundIdsAreFound(front, rows);
      assert ids == front + [ids[|ids| - 1]];
    }
  }

  function Ids(results: seq<BatchResult>): seq<string>
  {
    if results == [] then [] else Ids(results[..|results| - 1]) + [results[|results| - 1].claimId]
  }

  /** The row the batch handler builds for every stored claim, keyed by claim id. */
  function BatchRows(table: map<string, ClaimRow>): (rows: map<string, Row>)
    ensures rows.Keys == table.Keys
  {
    map id | id in table :: FeatureRow(ToClaimData(table[id]))
  }

  /** The entry the batch records for a found claim and its prediction. */
  function ResultFor(id: string, p: Prediction): BatchResult
  {
    BatchResult(id, p, Stored(id, p.fraudPrediction, p.fraudProbability, p.riskLevel))
  }

  /**
   * The loop of `batch_predict` on its own, over the rows of the stored
   * claims: unknown ids are skipped, every found claim is predicted with
   * `predict` and recorded, and the first prediction that raises ends the
   * request.
   */
  function BatchOutcome<V>(ids: seq<string>, rows: map<string, V>, predict: V -> Result<Prediction, PredictError>)
    : Result<seq<BatchResult>, PredictError>
  {
    if ids == [] then Ok([])
    else
      var results :- BatchOutcome(ids[..|ids| - 1], rows, predict);
      var id := ids[|ids| - 1];
      if id !in rows then Ok(results)
      else
        var p :- predict(rows[id]);
        Ok(results + [ResultFor(id, p)])
  }

  /** A found claim whose prediction raises. */
  ghost predicate SomeFails<V>(ids: seq<string>, rows: map<string, V>, predict: V -> Result<Prediction, PredictError>)
  {
    exists i :: 0 <= i < |ids| && ids[i] in rows && predict(rows[ids[i]]).Err?
  }

  /** The batch fails exactly when the prediction of some found claim raises. */
  lemma {:induction false} BatchFailsIff<V>(ids: seq<string>, rows: map<string, V>,
                                            predict: V -> Result<Prediction, PredictError>)
    ensures BatchOutcome(ids, rows, predict).Err? <==> SomeFails(ids, rows, predict)
  {
    if ids != [] {
      var front := ids[..|ids| - 1];
      BatchFailsIff(front, rows, predict);
      if SomeFails(front, rows, predict) {
        var i :| 0 <= i < |front| && front[i] in rows && predict(rows[front[i]]).Err?;
        assert ids[i] == front[i];
      }
      assert forall j :: 0 <= j < |front| ==> front[j] == ids[j];
    }
  }

  /**
   * A successful batch holds the found ids, in input order, each with its
   * own claim's prediction.
   */
  lemma {:induction false} BatchResultsFound<V>(ids: seq<string>, rows: map<string, V>,
                                                predict: V -> Result<Prediction, PredictError>)
    requires BatchOutcome(ids, rows, predict).Ok?
    ensures Ids(BatchOutcome(ids, rows, predict).value) == FoundIds(ids, rows)
    ensures var results := BatchOutcome(ids, rows, predict).value;
      forall k :: 0 <= k < |results| ==>
        results[k].claimId in rows && predict(rows[results[k].claimId]) == Ok(results[k].prediction)
  {
    if ids != [] {
      var front := ids[..|ids| - 1];
      var id := ids[|ids| - 1];
      BatchResultsFound(front, rows, predict);
      var before := BatchOutcome(front, rows, predict).value;
      var results := BatchOutcome(ids, rows, predict).value;
      if id in rows {
        assert results[..|results| - 1] == before;
        assert forall k :: 0 <= k < |before| ==> results[k] == before[k];
      }
    }
  }

  /** A failed batch reports the error of one of its found claims. */
  lemma {:induction false} BatchErrorIsAClaimError<V>(ids: seq<string>, rows: map<string, V>,
                                                      predict: V -> Result<Prediction, PredictError>)
    ensures BatchOutcome(ids, rows, predict).Err? ==>
      exists i :: 0 <= i < |ids| && ids[i] in rows
        && predict(rows[ids[i]]) == Err(BatchOutcome(ids, rows, predict).error)
  {
    if ids != [] {
      var front := ids[..|ids| - 1];
      BatchErrorIsAClaimError(front, rows, predict);
      if BatchOutcome(front, rows, predict).Err? {
        var i :| 0 <= i < |front| && front[i] in rows
          && predict(rows[front[i]]) == Err(BatchOutcome(front, rows, predict).error);
        assert ids[i] == front[i];
      }
    }
  }

  /**
   * With the system's own prediction, a batch over stored claims never fails
   * in the feature pass: every row built from a stored claim is engineerable,
   * so a failure comes from the gate, the scaler or the classifier.
   */
  lemma BatchNeverFailsInFeatures(ids: seq<string>, table: map<string, ClaimRow>, st: SystemState,
                                  predict: Row -> Result<Prediction, PredictError>)
    requires st.isTrained ==> st.model.Some?
    requires forall row :: predict(row) == Predict(st, row)
    ensures var r := BatchOutcome(ids, BatchRows(table), predict);
      r.Err? ==> !r.error.FeatureFailure?
  {
    var rows := BatchRows(table);
    BatchErrorIsAClaimError(ids, rows, predict);
    if BatchOutcome(ids, rows, predict).Err? {
      var i :| 0 <= i < |ids| && ids[i] in rows
        && predict(rows[ids[i]]) == Err(BatchOutcome(ids, rows, predict).error);
      BatchRowAt(table, ids[i]);
      StoredClaimsPassFeatures(st, table[ids[i]]);
    }
  }

  lemma BatchRowAt(table: map<string, ClaimRow>, id: string)
    requires id in table
    ensures id in BatchRows(table) && BatchRows(table)[id] == FeatureRow(ToClaimData(table[id]))
  {
  }

  lemma {:induction false} IdsLength(results: seq<BatchResult>)
    ensures |Ids(results)| == |results|
  {
    if results != [] {
      IdsLength(results[..|results| - 1]);
    }
  }

  /** No more results than ids: `total_processed <= len(claim_ids)`. */
  lemma BatchOutcomeSize<V>(ids: seq<string>, rows: map<string, V>, predict: V -> Result<Prediction, PredictError>)
    ensures BatchOutcome(ids, rows, predict).Ok? ==> |BatchOutcome(ids, rows, predict).value| <= |ids|
  {
    FoundIdsAreFound(ids, rows);
    if BatchOutcome(ids, rows, predict).Ok? {
      BatchResultsFound(ids, rows, predict);
      IdsLength(BatchOutcome(ids, rows, predict).value);
    }
  }

  /** Once a prefix fails, the whole batch fails with the same error. */
  lemma {:induction false} BatchOutcomeStopsAtError<V>(ids: seq<string>, rows: map<string, V>,
                                                       predict: V -> Result<Prediction, PredictError>, n: nat)
    requires n <= |ids| && BatchOutcome(ids[..n], rows, predict).Err?
    ensures BatchOutcome(ids, rows, predict) == BatchOutcome(ids[..n], rows, predict)
    decreases |ids| - n
  {
    if n < |ids| {
      assert ids[..n + 1][..n] == ids[..n];
      BatchOutcomeStopsAtError(ids, rows, predict, n + 1);
    } else {
      assert ids[..n] == ids;
    }
  }

  /**
   * `batch_predict`: 400 on an empty id list; otherwise the loop over the
   * ids, whose outcome is `BatchOutcome` over the rows built from the stored
   * claims, with `total_processed` the number of results. `predict` is the
   * single-claim prediction of one fixed system state throughout the loop.
   */
  method BatchPredict(ids: seq<string>, table: map<string, ClaimRow>, predict: Row -> Result<Prediction, PredictError>)
    returns (r: BatchResponse)
    ensures ids == [] <==> r.NoClaimIds?
    ensures ids != [] && BatchOutcome(ids, BatchRows(table), predict).Ok? ==>
      r == Processed(BatchOutcome(ids, BatchRows(table), predict).value, |BatchOutcome(ids, BatchRows(table), predict).value|)
    ensures ids != [] && BatchOutcome(ids, BatchRows(table), predict).Err? ==>
      r == BatchFailed(BatchOutcome(ids, BatchRows(table), predict).error)
    ensures r.Processed? ==> r.totalProcessed == |r.results| <= |ids|
  {
    if ids == [] {
      return NoClaimIds;
    }
    ghost var rows := BatchRows(table);
    var results: seq<BatchResult> := [];
    for i := 0 to |ids|
      invariant BatchOutcome(ids[..i], rows, predict) == Ok(results)
    {
      assert ids[..i + 1][..i] == ids[..i];
      var claimId := ids[i];
      if claimId in table {
        var claimData := ToClaimData(table[claimId]);
        var prediction := predict(FeatureRow(claimData));
        if prediction.Err? {
          BatchOutcomeStopsAtError(ids, rows, predict, i + 1);
          return BatchFailed(prediction.error);
        }
        results := results + [ResultFor(claimId, prediction.value)];
      }
    }
    assert ids[..|ids|] == ids;
    BatchOutcomeSize(ids, rows, predict);
    r := Processed(results, |results|);
  }
}
