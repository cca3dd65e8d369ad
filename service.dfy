/**
 * The three prediction endpoints of main.py: the request body is validated
 * against the disease's schema, the handler looks its model up in the
 * registry, and the response is assembled from the model's label and
 * probability.
 */
module Service {
  import opened Wrappers
  import opened Validation
  import opened Schemas
  import opened Risk

  type Probability = p: real | 0.0 <= p <= 1.0
  type Label = l: int | 0 <= l <= 1

  /**
   * A fitted estimator, opaque: `predict(df)[0]` and `predict_proba(df)[0][1]`
   * on the one-row frame built from a request.
   */
  datatype Model = Model(predict: Row -> Label, predictProba: Row -> Probability)

  /**
   * An object held in the model registry: an estimator, or an auxiliary object
   * (a scaler, a list of columns) that has no `predict_proba`.
   */
  datatype Artifact = Estimator(model: Model) | Auxiliary

  datatype Disease = Diabetes | Heart | Parkinsons

  function SchemaOf(d: Disease): Schema {
    match d
    case Diabetes => DiabetesInput
    case Heart => HeartInput
    case Parkinsons => ParkinsonInput
  }

  /** The registry key each endpoint reads. */
  function RegistryKey(d: Disease): string {
    match d
    case Diabetes => "diabetes_model"
    case Heart => "heart_pipeline"
    case Parkinsons => "parkinsons_pipeline"
  }

  /** The detail of the 500 raised when the key is absent. */
  function NotLoadedDetail(d: Disease): string {
    match d
    case Diabetes => "Model not loaded"
    case Heart => "Heart model pipeline not loaded"
    case Parkinsons => "Parkinson's model pipeline not loaded"
  }

  /** The detail the framework gives an unhandled exception. */
  const InternalErrorDetail: string := "Internal Server Error"

  /** The JSON body of a 200: `prediction`, `probability` and `risk_level`. */
  datatype Response = Response(prediction: Label, probability: real, riskLevel: string)

  /** A reply: 200 with a response, 422 with the validation errors, or 500 with a detail. */
  datatype Reply = Ok(response: Response) | Unprocessable(errors: seq<FieldError>) | ServerError(detail: string)

  function Status(r: Reply): int {
    match r
    case Ok(_) => 200
    case Unprocessable(_) => 422
    case ServerError(_) => 500
  }

  /**
   * `round(p, 3)` over the reals: the nearest multiple of 0.001 (a tie goes
   * up).
   */
  function Round3(p: real): (r: real)
    ensures -0.0005 < r - p <= 0.0005
    ensures (r * 1000.0).Floor as real == r * 1000.0
  {
    ((p * 1000.0 + 0.5).Floor as real) / 1000.0
  }

  /**
   * The one-row frame a handler builds from its validated body:
   * `model_dump()` for diabetes and heart, `model_dump(by_alias=True)` for
   * Parkinson's. A body that fails validation never reaches the handler.
   */
  function Features(d: Disease, p: Payload): (r: Result<Row, seq<FieldError>>)
    ensures r.Success? <==> Validate(SchemaOf(d), p).Success?
    ensures r.Failure? ==> r.error == Validate(SchemaOf(d), p).error
    ensures r.Success? ==> |r.value| == |SchemaOf(d).fields|
    ensures r.Success? ==>
      Columns(r.value) == if d == Parkinsons then Aliases(SchemaOf(d).fields) else FieldNames(SchemaOf(d).fields)
    ensures r.Success? ==> forall i :: 0 <= i < |SchemaOf(d).fields| ==>
      SchemaOf(d).fields[i].name in Validate(SchemaOf(d), p).value
      && r.value[i].1 == Validate(SchemaOf(d), p).value[SchemaOf(d).fields[i].name]
  {
    var s := SchemaOf(d);
    match Validate(s, p)
    case Failure(es) => Failure(es)
    case Success(rec) =>
      RecordKeys(s.fields, p, s.populateByName);
      Success(Dump(s.fields, rec, d == Parkinsons))
  }

  /** The response of a loaded estimator: its label, the rounded probability, the tier of the unrounded one. */
  function Assemble(m: Model, row: Row): (r: Response)
    ensures r.prediction == m.predict(row)
    ensures 0.0 <= r.probability <= 1.0
    ensures -0.0005 < r.probability - m.predictProba(row) <= 0.0005
    ensures r.riskLevel == "Low" <==> m.predictProba(row) < 0.3
    ensures r.riskLevel == "Medium" <==> 0.3 <= m.predictProba(row) < 0.7
    ensures r.riskLevel == "High" <==> 0.7 <= m.predictProba(row)
  {
    var prob := m.predictProba(row);
    Response(m.predict(row), Round3(prob), Name(RiskLevel(prob)))
  }

  /**
   * The handler of disease d on a validated frame, with the registry holding
   * `models`: 500 with the endpoint's detail when the key is absent (the
   * model is not called), 500 when it holds no estimator, otherwise 200 with
   * the label, the rounded probability and the tier of the unrounded one.
   */
  function Respond(models: map<string, Artifact>, d: Disease, row: Row): (r: Reply)
    ensures !r.Unprocessable?
    ensures RegistryKey(d) !in models ==> r == ServerError(NotLoadedDetail(d))
    ensures r.Ok? <==> RegistryKey(d) in models && models[RegistryKey(d)].Estimator?
    ensures r.Ok? ==>
      var m := models[RegistryKey(d)].model;
      && r.response.prediction == m.predict(row)
      && r.response.probability == Round3(m.predictProba(row))
      && r.response.riskLevel == Name(RiskLevel(m.predictProba(row)))
  {
    if RegistryKey(d) !in models then ServerError(NotLoadedDetail(d))
    else
      match models[RegistryKey(d)]
      case Estimator(m) => Ok(Assemble(m, row))
      case Auxiliary => ServerError(InternalErrorDetail)
  }

  /**
   * One request to the endpoint of disease d: 422 when the body is invalid,
   * before any registry lookup; otherwise the handler's reply on the frame.
   */
  function Serve(models: map<string, Artifact>, d: Disease, p: Payload): (r: Reply)
    ensures Status(r) == 422 <==> Validate(SchemaOf(d), p).Failure?
    ensures r.Unprocessable? ==> r.errors == Validate(SchemaOf(d), p).error
    ensures Features(d, p).Success? ==> r == Respond(models, d, Features(d, p).value)
    ensures Features(d, p).Success? && RegistryKey(d) !in models ==> r == ServerError(NotLoadedDetail(d))
    ensures r.Ok? <==>
      Features(d, p).Success? && RegistryKey(d) in models && models[RegistryKey(d)].Estimator?
    ensures r.Ok? ==>
      var m, row := models[RegistryKey(d)].model, Features(d, p).value;
      && r.response.prediction == m.predict(row)
      && r.response.probability == Round3(m.predictProba(row))
      && r.response.riskLevel == Name(RiskLevel(m.predictProba(row)))
  {
    match Features(d, p)
    case Failure(es) => Unprocessable(es)
    case Success(row) => Respond(models, d, row)
  }

  // ---------------------------------------------------------------------------
  // Properties of the endpoints
  // ---------------------------------------------------------------------------

  /** With an empty registry (before loading, or after shutdown) no endpoint answers 200. */
  lemma EmptyRegistryNeverServes(d: Disease, p: Payload)
    ensures Status(Serve(map[], d, p)) == (if Validate(SchemaOf(d), p).Success? then 500 else 422)
  {
  }

  /** The Parkinson's frame has exactly the 22 external column names, in field order. */
  lemma ParkinsonFeatureColumns(p: Payload)
    requires Features(Parkinsons, p).Success?
    ensures Columns(Features(Parkinsons, p).value) == ParkinsonColumns
  {
    var s := ParkinsonInput;
    RecordKeys(s.fields, p, s.populateByName);
    ParkinsonDumpByAlias(Validate(s, p).value);
  }

  /** The diabetes frame has the eight field names as its columns, in declaration order. */
  lemma DiabetesFeatureColumns(p: Payload)
    requires Features(Diabetes, p).Success?
    ensures Columns(Features(Diabetes, p).value) == DiabetesFieldNames
  {
    DiabetesFieldsAt();
  }

  /** The heart frame has the eleven field names as its columns, in declaration order. */
  lemma HeartFeatureColumns(p: Payload)
    requires Features(Heart, p).Success?
    ensures Columns(Features(Heart, p).value) == HeartFieldNames
  {
    HeartFieldsAt();
  }

  /** Rounding can move a probability across a band boundary: 0.2996 is Low but is reported as 0.3. */
  lemma RoundingCanCrossBand()
    ensures Round3(0.2996) == 0.3
    ensures RiskLevel(0.2996) == Low && RiskLevel(Round3(0.2996)) == Medium
  {
    assert 0.2996 * 1000.0 + 0.5 == 300.1;
    assert (300.1).Floor == 300;
  }

  /** Away from the two thresholds, the rounded probability lies in the same band as the unrounded one. */
  lemma RoundingKeepsBandAwayFromThresholds(p: real)
    requires p < 0.2995 || 0.3005 < p < 0.6995 || 0.7005 < p
    ensures RiskLevel(Round3(p)) == RiskLevel(p)
  {
  }

  /** A body that fails validation gets 422 whatever the registry holds. */
  lemma ValidationPrecedesLookup(models: map<string, Artifact>, d: Disease, p: Payload)
    requires Validate(SchemaOf(d), p).Failure?
    ensures Serve(models, d, p) == Unprocessable(Validate(SchemaOf(d), p).error)
  {
  }

  /** In every schema no key of one field is a key of another. */
  lemma SeparateKeysOf(d: Disease)
    ensures SeparateKeys(SchemaOf(d).fields)
  {
    match d {
      case Diabetes => DiabetesNames();
      case Heart => HeartNames();
      case Parkinsons => ParkinsonNamesDistinct();
    }
  }

  /** Each schema lists exactly the one field dropped from an accepted body. */
  lemma DroppedFieldRejected(d: Disease, p: Payload, k: nat)
    requires Validate(SchemaOf(d), p).Success? && k < |SchemaOf(d).fields|
    ensures var f := SchemaOf(d).fields[k];
      Validate(SchemaOf(d), p - {f.alias, f.name}) == Failure([FieldError(f.alias, Missing)])
  {
    SeparateKeysOf(d);
    DroppedFieldListed(SchemaOf(d), p, k);
  }

}
