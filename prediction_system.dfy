/**
 * `FraudPredictionSystem`: the trained-model wrapper. The fitted scaler and
 * classifier are opaque functions; what is modelled is the `is_trained`
 * gate, the bookkeeping of label encoders and feature names through
 * train/save/load, the per-row inference pipeline (features, encoding,
 * scaling, column alignment) and the error-catching batch loop.
 */
module PredictionSystem {
  import opened Wrappers
  import opened Claims
  import opened Features

  /** `_get_risk_level`: HIGH from 0.7, MEDIUM from 0.4, LOW below. */
  function RiskLevel(probability: real): (l: Level)
    ensures l == HighRisk <==> probability >= 0.7
    ensures l == MediumRisk <==> 0.4 <= probability < 0.7
    ensures l == LowRisk <==> probability < 0.4
  {
    if probability >= 0.7 then HighRisk
    else if probability >= 0.4 then MediumRisk
    else LowRisk
  }

  /** A higher probability never gets a lower bucket. */
  lemma RiskLevelMonotone(p: real, q: real)
    requires p <= q
    ensures Rank(RiskLevel(p)) <= Rank(RiskLevel(q))
  {
  }

  /** For each categorical column seen in training, its `LabelEncoder`: class label to code. */
  type Encoders = map<string, map<string, nat>>

  /**
   * One cell after the encoding loop: a text cell in a column with an
   * encoder becomes its code, or 0 when the encoder never saw the label;
   * every other cell is left as it is.
   */
  function EncodeCell(column: string, cell: Cell, encoders: Encoders): (e: Cell)
    ensures !cell.Str? || column !in encoders ==> e == cell
    ensures cell.Str? && column in encoders && cell.s !in encoders[column] ==> e == Num(0.0)
    ensures cell.Str? && column in encoders && cell.s in encoders[column]
            ==> e == Num(encoders[column][cell.s] as real)
  {
    if cell.Str? && column in encoders then
      if cell.s in encoders[column] then Num(encoders[column][cell.s] as real) else Num(0.0)
    else cell
  }

  /** The frame after the encoding loop. */
  function Encode(x: Row, encoders: Encoders): Row
  {
    map k | k in x :: EncodeCell(k, x[k], encoders)
  }

  /** After encoding, text survives only in columns no encoder was fitted for. */
  lemma EncodedTextHasNoEncoder(x: Row, encoders: Encoders, k: string)
    requires k in Encode(x, encoders) && Encode(x, encoders)[k].Str?
    ensures k !in encoders && x[k] == Encode(x, encoders)[k]
  {
  }

  /**
   * The encoding loop of `predict_single_claim`: every text column that has
   * an encoder is replaced by its codes, the rest of the frame is unchanged.
   */
  method EncodeCategoricals(x: Row, encoders: Encoders) returns (processed: Row)
    ensures processed == Encode(x, encoders)
  {
    processed := x;
    var categorical := set k | k in x && x[k].Str?;
    var pending := categorical;
    while pending != {}
      invariant pending <= categorical
      invariant processed.Keys == x.Keys
      invariant forall k :: k in x && k !in pending ==> processed[k] == EncodeCell(k, x[k], encoders)
      invariant forall k :: k in pending ==> processed[k] == x[k]
      decreases pending
    {
      var col :| col in pending;
      if col in encoders {
        var cell := x[col];
        if cell.s in encoders[col] {
          processed := processed[col := Num(encoders[col][cell.s] as real)];
        } else {
          processed := processed[col := Num(0.0)];
        }
      }
      pending := pending - {col};
    }
  }

  /**
   * `reindex(columns=feature_names, fill_value=0)` of a one-row frame: the
   * cells of the named columns in that order, 0 for a column the frame lacks.
   */
  function Reindex(x: Row, names: seq<string>): (aligned: seq<Cell>)
    ensures |aligned| == |names|
    ensures forall i :: 0 <= i < |names| && names[i] in x ==> aligned[i] == x[names[i]]
    ensures forall i :: 0 <= i < |names| && names[i] !in x ==> aligned[i] == Num(0.0)
  {
    if names == [] then []
    else Reindex(x, names[..|names| - 1]) + [if names[|names| - 1] in x then x[names[|names| - 1]] else Num(0.0)]
  }

  /** The aligned frame depends only on the named columns: extra columns are dropped. */
  lemma ReindexIgnoresOtherColumns(x: Row, y: Row, names: seq<string>)
    requires forall n :: n in names ==> (n in x <==> n in y)
    requires forall n :: n in names && n in x ==> x[n] == y[n]
    ensures Reindex(x, names) == Reindex(y, names)
  {
  }

  /** Reindexing an already aligned frame (distinct names) gives it back. */
  lemma ReindexIdempotent(x: Row, names: seq<string>)
    requires forall i, j :: 0 <= i < j < |names| ==> names[i] != names[j]
    ensures Reindex(AsRow(names, Reindex(x, names)), names) == Reindex(x, names)
  {
    var aligned := Reindex(x, names);
    var y := AsRow(names, aligned);
    forall i | 0 <= i < |names|
      ensures Reindex(y, names)[i] == aligned[i]
    {
      AsRowAt(names, aligned, i);
    }
  }

  /** A frame whose columns are `names`, holding `cells`. */
  function AsRow(names: seq<string>, cells: seq<Cell>): (y: Row)
    requires |names| == |cells|
    ensures y.Keys == set n | n in names
  {
    if names == [] then map[]
    else AsRow(names[..|names| - 1], cells[..|cells| - 1])[names[|names| - 1] := cells[|cells| - 1]]
  }

  lemma {:induction false} AsRowAt(names: seq<string>, cells: seq<Cell>, i: nat)
    requires |names| == |cells| && i < |names|
    requires forall a, b :: 0 <= a < b < |names| ==> names[a] != names[b]
    ensures names[i] in AsRow(names, cells) && AsRow(names, cells)[names[i]] == cells[i]
  {
    if i < |names| - 1 {
      AsRowAt(names[..|names| - 1], cells[..|cells| - 1], i);
    }
  }

  /** Why a single prediction fails. */
  datatype PredictError =
    | NotTrained                          // `ValueError("Model not trained...")`
    | FeatureFailure(cause: FeatureError) // pandas raised in `_create_features`
    | ScalerFailure(message: string)      // the fitted scaler rejected the frame
    | NonNumericInput(position: nat)      // a text cell reached the classifier

  /**
   * The aligned cells as the classifier's input vector, or the position of
   * the first cell that is still text.
   */
  function ToVector(cells: seq<Cell>): (r: Result<seq<real>, PredictError>)
    ensures r.Ok? <==> forall i :: 0 <= i < |cells| ==> cells[i].Num?
    ensures r.Ok? ==> |r.value| == |cells| && forall i :: 0 <= i < |cells| ==> r.value[i] == cells[i].x
    ensures r.Err? ==> r.error.NonNumericInput? && r.error.position < |cells|
                       && cells[r.error.position].Str?
  {
    if cells == [] then Ok([])
    else
      var front := ToVector(cells[..|cells| - 1]);
      if front.Err? then front
      else if cells[|cells| - 1].Str? then Err(NonNumericInput(|cells| - 1))
      else Ok(front.value + [cells[|cells| - 1].x])
  }

  /** The fitted scaler and classifier, as opaque functions. */
  datatype Fitted = Fitted(
    scale: Row -> Result<Row, string>,
    probability: seq<real> -> real,
    predict: seq<real> -> int)

  /** What training produces and the pickle file holds. */
  datatype Artifacts = Artifacts(fitted: Fitted, labelEncoders: Encoders, featureNames: seq<string>)

  /** The model file as `load_model` finds it. */
  datatype ModelFile = Missing | Unreadable | Pickled(artifacts: Artifacts)

  /** The fields of a `FraudPredictionSystem`. */
  datatype SystemState = SystemState(
    isTrained: bool,
    model: Option<Fitted>,
    labelEncoders: Encoders,
    featureNames: seq<string>)

  /**
   * `predict_single_claim` as a function of the system's state: the gate,
   * feature pass, dropping `FraudLabel`, encoding, scaling, alignment to the
   * training columns and the classifier, with the bucket of its probability.
   */
  function Predict(st: SystemState, claim: Row): (r: Result<Prediction, PredictError>)
    requires st.isTrained ==> st.model.Some?
    ensures !st.isTrained ==> r == Err(NotTrained)
    ensures st.isTrained && !Engineerable(claim) ==> r.Err? && r.error.FeatureFailure?
    ensures r.Ok? ==> r.value.riskLevel == RiskLevel(r.value.fraudProbability)
  {
    if !st.isTrained then Err(NotTrained)
    else
      match FeatureRowOf(claim)
      case Err(e) => Err(FeatureFailure(e))
      case Ok(engineered) =>
        var processed := Encode(engineered - {"FraudLabel"}, st.labelEncoders);
        match st.model.value.scale(processed)
        case Err(message) => Err(ScalerFailure(message))
        case Ok(scaled) =>
          var vector :- ToVector(Reindex(scaled, st.featureNames));
          var probability := st.model.value.probability(vector);
          Ok(Prediction(st.model.value.predict(vector), probability, RiskLevel(probability)))
  }

  /** A row the feature pass accepts never fails in the feature step. */
  lemma EngineerableRowsPassFeatures(st: SystemState, row: Row)
    requires st.isTrained ==> st.model.Some?
    requires Engineerable(row)
    ensures Predict(st, row).Err? ==> !Predict(st, row).error.FeatureFailure?
  {
    assert FeatureRowOf(row).Ok?;
  }

  /** The row built from a stored claim never fails in the feature step. */
  lemma StoredClaimsPassFeatures(st: SystemState, row: ClaimRow)
    requires st.isTrained ==> st.model.Some?
    ensures var r := Predict(st, FeatureRow(ToClaimData(row)));
      r.Err? ==> !r.error.FeatureFailure?
  {
    FeatureRowEngineerable(ToClaimData(row));
    EngineerableRowsPassFeatures(st, FeatureRow(ToClaimData(row)));
  }

  /** One element of `predict_batch`'s result. */
  datatype BatchEntry = BatchEntry(
    claimId: nat,
    error: Option<PredictError>,
    fraudPrediction: Option<int>,
    fraudProbability: Option<real>,
    riskLevel: Option<Level>)

  /** The entry for the claim at 1-based position `id`: its prediction, or its error with no prediction fields. */
  function EntryFor(id: nat, r: Result<Prediction, PredictError>): (e: BatchEntry)
    ensures e.claimId == id
    ensures e.error.Some? <==> r.Err?
    ensures e.error.Some? ==> e.fraudPrediction.None? && e.fraudProbability.None? && e.riskLevel.None?
    ensures r.Ok? ==> e.fraudPrediction == Some(r.value.fraudPrediction)
                      && e.fraudProbability == Some(r.value.fraudProbability)
                      && e.riskLevel == Some(r.value.riskLevel)
  {
    match r
    case Ok(p) => BatchEntry(id, None, Some(p.fraudPrediction), Some(p.fraudProbability), Some(p.riskLevel))
    case Err(e) => BatchEntry(id, Some(e), None, None, None)
  }

  class FraudPredictionSystem {
    var isTrained: bool
    var model: Option<Fitted>
    var labelEncoders: Encoders
    var featureNames: seq<string>

    /** A model is present exactly when the system is trained. */
    predicate Valid()
      reads this
    {
      isTrained <==> model.Some?
    }

    function State(): (st: SystemState)
      reads this
    {
      SystemState(isTrained, model, labelEncoders, featureNames)
    }

    constructor()
      ensures Valid() && !isTrained
      ensures labelEncoders == map[] && featureNames == []
    {
      isTrained := false;
      model := None;
      labelEncoders := map[];
      featureNames := [];
    }

    /**
     * `train_model`, given what fitting produced: every encoder fitted is
     * stored under its column (replacing an older one), the feature names and
     * the model are replaced, and the system is trained.
     */
    method TrainModel(trained: Artifacts) returns (ok: bool)
      modifies this
      ensures Valid() && isTrained && ok
      ensures model == Some(trained.fitted) && featureNames == trained.featureNames
      ensures labelEncoders == old(labelEncoders) + trained.labelEncoders
    {
      labelEncoders := labelEncoders + trained.labelEncoders;
      model := Some(trained.fitted);
      featureNames := trained.featureNames;
      isTrained := true;
      ok := true;
    }

    /** `save_model`: refuses an untrained system; otherwise the file holds the model, encoders and feature names. */
    method SaveModel() returns (r: Result<ModelFile, PredictError>)
      requires Valid()
      ensures !isTrained <==> r == Err(NotTrained)
      ensures isTrained ==> r == Ok(Pickled(Artifacts(model.value, labelEncoders, featureNames)))
    {
      if !isTrained {
        return Err(NotTrained);
      }
      r := Ok(Pickled(Artifacts(model.value, labelEncoders, featureNames)));
    }

    /**
     * `load_model`: a readable file replaces model, encoders and feature
     * names and trains the system; a missing or unreadable one returns false
     * and changes nothing.
     */
    method LoadModel(file: ModelFile) returns (loaded: bool)
      requires Valid()
      modifies this
      ensures Valid()
      ensures loaded <==> file.Pickled?
      ensures file.Pickled? ==> isTrained && model == Some(file.artifacts.fitted)
                                && labelEncoders == file.artifacts.labelEncoders
                                && featureNames == file.artifacts.featureNames
      ensures !file.Pickled? ==> State() == old(State())
    {
      match file
      case Pickled(a) =>
        model := Some(a.fitted);
        labelEncoders := a.labelEncoders;
        featureNames := a.featureNames;
        isTrained := true;
        loaded := true;
      case _ =>
        loaded := false;
    }

    /**
     * `predict_single_claim`: raises when untrained, otherwise runs the
     * pipeline step by step; the result is the state's `Predict`.
     */
    method PredictSingleClaim(claim: Row) returns (r: Result<Prediction, PredictError>)
      requires Valid()
      ensures r == Predict(State(), claim)
    {
      if !isTrained {
        return Err(NotTrained);
      }
      var engineered := CreateFeatures(claim);
      if engineered.Err? {
        return Err(FeatureFailure(engineered.error));
      }
      var x := engineered.value - {"FraudLabel"};
      var processed := EncodeCategoricals(x, labelEncoders);
      var scaled := model.value.scale(processed);
      if scaled.Err? {
        return Err(ScalerFailure(scaled.error));
      }
      var aligned := Reindex(scaled.value, featureNames);
      var vector := ToVector(aligned);
      if vector.Err? {
        return Err(vector.error);
      }
      var probability := model.value.probability(vector.value);
      var prediction := model.value.predict(vector.value);
      r := Ok(Prediction(prediction, probability, RiskLevel(probability)));
    }

    /**
     * `predict_batch`: one entry per claim, in order, numbered from 1; a
     * claim whose prediction fails gets an entry carrying the error and no
     * prediction, and the loop goes on.
     */
    method PredictBatch(claims: seq<Row>) returns (results: seq<BatchEntry>)
      requires Valid()
      ensures |results| == |claims|
      ensures forall i :: 0 <= i < |claims| ==> results[i] == EntryFor(i + 1, Predict(State(), claims[i]))
    {
      results := [];
      for i := 0 to |claims|
        invariant |results| == i
        invariant forall j :: 0 <= j < i ==> results[j] == EntryFor(j + 1, Predict(State(), claims[j]))
      {
        var result := PredictSingleClaim(claims[i]);
        results := results + [EntryFor(i + 1, result)];
      }
    }
  }

  /** A saved model loaded into a fresh system predicts exactly as the system that saved it. */
  method SaveThenLoad(source: FraudPredictionSystem) returns (copy: FraudPredictionSystem)
    requires source.Valid() && source.isTrained
    ensures fresh(copy) && copy.Valid()
    ensures forall claim :: Predict(copy.State(), claim) == Predict(source.State(), claim)
  {
    var file := source.SaveModel();
    copy := new FraudPredictionSystem();
    var loaded := copy.LoadModel(file.value);
  }
}
