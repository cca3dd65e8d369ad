/**
 * The model registry of main.py: the process-wide dictionary `ml_models`,
 * filled at start-up by a sequence of loads inside one `try` (the first load
 * that raises ends the sequence and the error is swallowed), read by the
 * endpoints, and cleared at shutdown.
 */
module Registry {
  import opened Wrappers
  import opened Validation
  import opened Schemas
  import opened Service

  type Models = map<string, Artifact>

  /**
   * One `ml_models[key] = pickle.load(open('models/<key>.pkl', 'rb'))` line:
   * the loaded object, or None when opening or unpickling the file raised.
   */
  datatype LoadStep = LoadStep(key: string, outcome: Option<Artifact>)

  /** The registry after running the load steps in order, stopping at the first that fails. */
  function Loaded(m: Models, steps: seq<LoadStep>): (r: Models)
    ensures m.Keys <= r.Keys <= m.Keys + (set j | 0 <= j < |steps| :: steps[j].key)
    ensures steps != [] && steps[0].outcome.None? ==> r == m
    decreases |steps|
  {
    if steps == [] then m
    else
      match steps[0].outcome
      case None => m
      case Some(a) => Loaded(m[steps[0].key := a], steps[1..])
  }

  /** The index of the first failing step, or the number of steps when none fails. */
  function FirstFailure(steps: seq<LoadStep>): (k: nat)
    ensures k <= |steps|
    ensures forall j :: 0 <= j < k ==> steps[j].outcome.Some?
    ensures k < |steps| ==> steps[k].outcome.None?
  {
    if steps == [] || steps[0].outcome.None? then 0
    else
      assert forall j :: 1 <= j < |steps| ==> steps[j] == steps[1..][j - 1];
      1 + FirstFailure(steps[1..])
  }

  /** The keys of the steps before index k. */
  function KeysBefore(steps: seq<LoadStep>, k: nat): set<string>
    requires k <= |steps|
  {
    set j | 0 <= j < k :: steps[j].key
  }

  predicate DistinctKeys(steps: seq<LoadStep>) {
    forall i, j :: 0 <= i < j < |steps| ==> steps[i].key != steps[j].key
  }

  /** The steps for a list of keys, each loading the file named after its key. */
  function Steps(keys: seq<string>, load: string -> Option<Artifact>): (steps: seq<LoadStep>)
    ensures |steps| == |keys|
    ensures forall i :: 0 <= i < |keys| ==> steps[i] == LoadStep(keys[i], load(keys[i]))
  {
    if keys == [] then [] else [LoadStep(keys[0], load(keys[0]))] + Steps(keys[1..], load)
  }

  // ---------------------------------------------------------------------------
  // Sequential loading
  // ---------------------------------------------------------------------------

  /**
   * Loading adds exactly the keys of the steps before the first failure; the
   * failing step and every later one are skipped.
   */
  lemma {:induction false} LoadedKeys(m: Models, steps: seq<LoadStep>)
    ensures Loaded(m, steps).Keys == m.Keys + KeysBefore(steps, FirstFailure(steps))
    decreases |steps|
  {
    if steps != [] && steps[0].outcome.Some? {
      var rest := steps[1..];
      LoadedKeys(m[steps[0].key := steps[0].outcome.value], rest);
      var k := FirstFailure(steps);
      assert k == 1 + FirstFailure(rest);
      assert KeysBefore(steps, k) == {steps[0].key} + KeysBefore(rest, k - 1) by {
        forall x | x in KeysBefore(steps, k) ensures x in {steps[0].key} + KeysBefore(rest, k - 1) {
          var j :| 0 <= j < k && steps[j].key == x;
          if j > 0 { assert rest[j - 1].key == x; }
        }
        forall x | x in KeysBefore(rest, k - 1) ensures x in KeysBefore(steps, k) {
          var j :| 0 <= j < k - 1 && rest[j].key == x;
          assert steps[j + 1].key == x;
        }
      }
    }
  }

  /** A key that no step before the first failure touches keeps its entry, or its absence. */
  lemma {:induction false} LoadedUntouched(m: Models, steps: seq<LoadStep>, key: string)
    requires key !in KeysBefore(steps, FirstFailure(steps))
    ensures key in Loaded(m, steps) <==> key in m
    ensures key in m ==> Loaded(m, steps)[key] == m[key]
    decreases |steps|
  {
    if steps != [] && steps[0].outcome.Some? {
      var rest := steps[1..];
      assert steps[0].key in KeysBefore(steps, FirstFailure(steps));
      assert key !in KeysBefore(rest, FirstFailure(rest)) by {
        forall j | 0 <= j < FirstFailure(rest) ensures rest[j].key != key {
          assert rest[j] == steps[j + 1];
        }
      }
      LoadedUntouched(m[steps[0].key := steps[0].outcome.value], rest, key);
    }
  }

  /** With distinct keys, every step before the first failure leaves its own object under its key. */
  lemma {:induction false} LoadedValue(m: Models, steps: seq<LoadStep>, j: nat)
    requires DistinctKeys(steps) && j < FirstFailure(steps)
    ensures steps[j].key in Loaded(m, steps)
    ensures Loaded(m, steps)[steps[j].key] == steps[j].outcome.value
    decreases |steps|
  {
    var rest := steps[1..];
    var m' := m[steps[0].key := steps[0].outcome.value];
    assert DistinctKeys(rest) by {
      forall a, b | 0 <= a < b < |rest| ensures rest[a].key != rest[b].key {
        assert rest[a] == steps[a + 1] && rest[b] == steps[b + 1];
      }
    }
    if j == 0 {
      assert steps[0].key !in KeysBefore(rest, FirstFailure(rest)) by {
        forall i | 0 <= i < FirstFailure(rest) ensures rest[i].key != steps[0].key {
          assert rest[i] == steps[i + 1];
        }
      }
      LoadedUntouched(m', rest, steps[0].key);
    } else {
      assert rest[j - 1] == steps[j];
      LoadedValue(m', rest, j - 1);
    }
  }

  /**
   * Start-up loading is sequential: when step k is the first to fail, every
   * key loaded before it is present and, with distinct keys loaded into an
   * empty registry, step k's key and every later one are absent.
   */
  lemma StopsAtFirstFailure(steps: seq<LoadStep>, k: nat)
    requires DistinctKeys(steps) && k < |steps| && steps[k].outcome.None?
    requires forall j :: 0 <= j < k ==> steps[j].outcome.Some?
    ensures forall j :: 0 <= j < k ==> steps[j].key in Loaded(map[], steps)
    ensures forall j :: k <= j < |steps| ==> steps[j].key !in Loaded(map[], steps)
  {
    assert FirstFailure(steps) == k;
    LoadedKeys(map[], steps);
    forall j | 0 <= j < k ensures steps[j].key in Loaded(map[], steps) {
      assert steps[j].key in KeysBefore(steps, k);
    }
    forall j | k <= j < |steps| ensures steps[j].key !in Loaded(map[], steps) {
      assert forall i :: 0 <= i < k ==> steps[i].key != steps[j].key;
    }
  }

  // ---------------------------------------------------------------------------
  // Start-up as written, and the finding about it
  // ---------------------------------------------------------------------------

  /** The keys `lifespan` loads, in order (main.py). */
  const StartupKeys: seq<string> := [
    "diabetes_model",
    "heart_model", "heart_scaler", "heart_columns",
    "parkinsons_model", "parkinsons_scaler", "parkinsons_columns"
  ]

  /** The seven start-up steps have distinct keys. */
  lemma StartupStepsDistinct(load: string -> Option<Artifact>)
    ensures DistinctKeys(Steps(StartupKeys, load))
  {
    var steps := Steps(StartupKeys, load);
    assert forall i, j :: 0 <= i < j < |StartupKeys| ==> StartupKeys[i] != StartupKeys[j];
    forall i, j | 0 <= i < j < |steps| ensures steps[i].key != steps[j].key {
      assert steps[i].key == StartupKeys[i] && steps[j].key == StartupKeys[j];
    }
  }

  /** The registry after start-up, from an empty dictionary, given what each file load yields. */
  function AfterStartup(load: string -> Option<Artifact>): Models {
    Loaded(map[], Steps(StartupKeys, load))
  }

  /** Whatever the loads yield, start-up stores only keys from its own list. */
  lemma StartupKeysOnly(load: string -> Option<Artifact>)
    ensures AfterStartup(load).Keys <= set k | k in StartupKeys
  {
    var steps := Steps(StartupKeys, load);
    LoadedKeys(map[], steps);
    forall x | x in KeysBefore(steps, FirstFailure(steps)) ensures x in StartupKeys {
      var j :| 0 <= j < FirstFailure(steps) && steps[j].key == x;
      assert steps[j].key == StartupKeys[j];
    }
  }

  /** Start-up never stores the two keys the heart and Parkinson's endpoints read. */
  lemma StartupNeverLoadsPipelines(load: string -> Option<Artifact>)
    ensures RegistryKey(Heart) !in AfterStartup(load)
    ensures RegistryKey(Parkinsons) !in AfterStartup(load)
  {
    StartupKeysOnly(load);
  }

  /**
   * With only start-up loading, the heart and Parkinson's handlers answer
   * "pipeline not loaded" on every frame, whatever the files hold.
   */
  lemma HeartAndParkinsonsAlwaysUnavailable(load: string -> Option<Artifact>, d: Disease, row: Row)
    requires d == Heart || d == Parkinsons
    ensures Respond(AfterStartup(load), d, row) == ServerError(NotLoadedDetail(d))
  {
    StartupNeverLoadsPipelines(load);
  }

  /**
   * With only start-up loading, the heart and Parkinson's endpoints never
   * answer 200: an accepted body always gets 500.
   */
  lemma HeartAndParkinsonsNeverServe(load: string -> Option<Artifact>, d: Disease, p: Payload)
    requires d == Heart || d == Parkinsons
    ensures !Serve(AfterStartup(load), d, p).Ok?
    ensures Validate(SchemaOf(d), p).Success? ==> Serve(AfterStartup(load), d, p) == ServerError(NotLoadedDetail(d))
  {
    StartupNeverLoadsPipelines(load);
  }


  /**
   * Start-up stops at the first file that fails to load: the objects loaded
   * before it stay, that key and the later ones are absent.
   */
  lemma StartupSequential(load: string -> Option<Artifact>, k: nat)
    requires k < |StartupKeys| && load(StartupKeys[k]).None?
    requires forall j :: 0 <= j < k ==> load(StartupKeys[j]).Some?
    ensures forall j :: 0 <= j < k ==> StartupKeys[j] in AfterStartup(load)
    ensures forall j :: 0 <= j < k ==> AfterStartup(load)[StartupKeys[j]] == load(StartupKeys[j]).value
    ensures forall j :: k <= j < |StartupKeys| ==> StartupKeys[j] !in AfterStartup(load)
  {
    var steps := Steps(StartupKeys, load);
    StartupStepsDistinct(load);
    StopsAtFirstFailure(steps, k);
    assert FirstFailure(steps) == k;
    forall j | 0 <= j < k ensures AfterStartup(load)[StartupKeys[j]] == load(StartupKeys[j]).value {
      LoadedValue(map[], steps, j);
    }
  }

  // ---------------------------------------------------------------------------
  // Start-up as intended: the files the endpoints read
  // ---------------------------------------------------------------------------

  /**
   * The keys the endpoints read. train_heart.py and train_parkinsons.py save
   * the second and third; no training script saves the first.
   */
  const IntendedStartupKeys: seq<string> := ["diabetes_model", "heart_pipeline", "parkinsons_pipeline"]

  function AfterIntendedStartup(load: string -> Option<Artifact>): Models {
    Loaded(map[], Steps(IntendedStartupKeys, load))
  }

  function Position(d: Disease): nat {
    match d
    case Diabetes => 0
    case Heart => 1
    case Parkinsons => 2
  }

  lemma IntendedStepsDistinct(load: string -> Option<Artifact>)
    ensures DistinctKeys(Steps(IntendedStartupKeys, load))
  {
    var steps := Steps(IntendedStartupKeys, load);
    forall i, j | 0 <= i < j < |steps| ensures steps[i].key != steps[j].key {
      assert steps[i].key == IntendedStartupKeys[i] && steps[j].key == IntendedStartupKeys[j];
    }
  }

  /**
   * Under the intended start-up an endpoint's key is present exactly when its
   * own file and every file before it load, and then it holds what its file
   * yielded; a failure later in the sequence does not remove it.
   */
  lemma IntendedStartupLoads(load: string -> Option<Artifact>, d: Disease)
    ensures RegistryKey(d) in AfterIntendedStartup(load) <==>
      forall j :: 0 <= j <= Position(d) ==> load(IntendedStartupKeys[j]).Some?
    ensures RegistryKey(d) in AfterIntendedStartup(load) ==>
      AfterIntendedStartup(load)[RegistryKey(d)] == load(RegistryKey(d)).value
  {
    var steps := Steps(IntendedStartupKeys, load);
    IntendedStepsDistinct(load);
    var k := Position(d);
    assert steps[k].key == RegistryKey(d);
    LoadedKeys(map[], steps);
    if forall j :: 0 <= j <= k ==> load(IntendedStartupKeys[j]).Some? {
      assert k < FirstFailure(steps);
      LoadedValue(map[], steps, k);
    } else {
      var j :| 0 <= j <= k && load(IntendedStartupKeys[j]).None?;
      assert FirstFailure(steps) <= j;
      assert forall i :: 0 <= i < FirstFailure(steps) ==> steps[i].key != RegistryKey(d);
    }
  }

  /**
   * Under the intended start-up each handler answers 200 on a frame exactly
   * when its own file and every file before it load, its own as an
   * estimator, and answers "not loaded" when one of those files fails.
   */
  lemma IntendedStartupServes(load: string -> Option<Artifact>, d: Disease, row: Row)
    ensures Respond(AfterIntendedStartup(load), d, row).Ok? <==>
      (forall j :: 0 <= j <= Position(d) ==> load(IntendedStartupKeys[j]).Some?) &&
      load(RegistryKey(d)).value.Estimator?
    ensures !(forall j :: 0 <= j <= Position(d) ==> load(IntendedStartupKeys[j]).Some?) ==>
      Respond(AfterIntendedStartup(load), d, row) == ServerError(NotLoadedDetail(d))
  {
    IntendedStartupLoads(load, d);
  }

  /**
   * The same on a request body: an accepted body gets 200 exactly when the
   * endpoint's own file and every file before it load, its own as an
   * estimator, and "not loaded" when one of those files fails.
   */
  lemma IntendedStartupAnswers(load: string -> Option<Artifact>, d: Disease, p: Payload)
    requires Validate(SchemaOf(d), p).Success?
    ensures Serve(AfterIntendedStartup(load), d, p).Ok? <==>
      (forall j :: 0 <= j <= Position(d) ==> load(IntendedStartupKeys[j]).Some?) &&
      load(RegistryKey(d)).value.Estimator?
    ensures !(forall j :: 0 <= j <= Position(d) ==> load(IntendedStartupKeys[j]).Some?) ==>
      Serve(AfterIntendedStartup(load), d, p) == ServerError(NotLoadedDetail(d))
  {
    IntendedStartupServes(load, d, Features(d, p).value);
  }

  /**
   * Partial degradation: when the diabetes and heart files load as estimators
   * but the Parkinson's file fails, those two endpoints serve every accepted
   * body and the Parkinson's endpoint answers 500 to every accepted body.
   */
  lemma IntendedPartialDegradation(load: string -> Option<Artifact>, d: Disease, p: Payload)
    requires load("diabetes_model").Some? && load("diabetes_model").value.Estimator?
    requires load("heart_pipeline").Some? && load("heart_pipeline").value.Estimator?
    requires load("parkinsons_pipeline").None?
    requires Validate(SchemaOf(d), p).Success?
    ensures d != Parkinsons ==> Serve(AfterIntendedStartup(load), d, p).Ok?
    ensures d == Parkinsons ==> Serve(AfterIntendedStartup(load), d, p) == ServerError(NotLoadedDetail(Parkinsons))
  {
    IntendedStartupAnswers(load, d, p);
  }

  /**
   * When the diabetes file fails to load, both start-ups stop at their first
   * step and the registry stays empty.
   */
  lemma DiabetesLoadFailureEmptiesRegistry(load: string -> Option<Artifact>)
    requires load("diabetes_model").None?
    ensures AfterStartup(load) == map[] && AfterIntendedStartup(load) == map[]
  {
    assert Steps(StartupKeys, load)[0] == LoadStep("diabetes_model", None);
    assert Steps(IntendedStartupKeys, load)[0] == LoadStep("diabetes_model", None);
  }

  /**
   * Then every endpoint, the diabetes one included, answers 500 to an
   * accepted body and 422 to a rejected one, under either start-up.
   */
  lemma DiabetesLoadFailureNeverServes(load: string -> Option<Artifact>, d: Disease, p: Payload)
    requires load("diabetes_model").None?
    ensures Status(Serve(AfterStartup(load), d, p)) == (if Validate(SchemaOf(d), p).Success? then 500 else 422)
    ensures Status(Serve(AfterIntendedStartup(load), d, p)) == (if Validate(SchemaOf(d), p).Success? then 500 else 422)
  {
    DiabetesLoadFailureEmptiesRegistry(load);
    EmptyRegistryNeverServes(d, p);
  }

  // ---------------------------------------------------------------------------
  // The registry object
  // ---------------------------------------------------------------------------

  /** The dictionary `ml_models`, with the operations main.py performs on it. */
  class ModelRegistry {
    var models: Models

    /** The module-level `ml_models = {}`. */
    constructor ()
      ensures models == map[]
    {
      models := map[];
    }

    /**
     * The body of the `try` block: run the steps in order, stop at the first
     * that raises and swallow its error; report whether every step loaded.
     */
    method Load(steps: seq<LoadStep>) returns (allLoaded: bool)
      modifies this
      ensures models == Loaded(old(models), steps)
      ensures allLoaded <==> FirstFailure(steps) == |steps|
    {
      var i := 0;
      allLoaded := true;
      while i < |steps|
        invariant 0 <= i <= |steps|
        invariant Loaded(models, steps[i..]) == Loaded(old(models), steps)
        invariant forall j :: 0 <= j < i ==> steps[j].outcome.Some?
      {
        if steps[i].outcome.None? {
          allLoaded := false;
          break;
        }
        assert steps[i..][1..] == steps[i + 1..];
        models := models[steps[i].key := steps[i].outcome.value];
        i := i + 1;
      }
    }

    /** Start-up as written: the seven loads of `lifespan`. */
    method Startup(load: string -> Option<Artifact>) returns (allLoaded: bool)
      modifies this
      ensures models == Loaded(old(models), Steps(StartupKeys, load))
      ensures allLoaded <==> forall j :: 0 <= j < |StartupKeys| ==> load(StartupKeys[j]).Some?
    {
      allLoaded := Load(Steps(StartupKeys, load));
    }

    /** Start-up as intended: load the three files the endpoints read. */
    method IntendedStartup(load: string -> Option<Artifact>) returns (allLoaded: bool)
      modifies this
      ensures models == Loaded(old(models), Steps(IntendedStartupKeys, load))
      ensures allLoaded <==> forall j :: 0 <= j < |IntendedStartupKeys| ==> load(IntendedStartupKeys[j]).Some?
    {
      allLoaded := Load(Steps(IntendedStartupKeys, load));
    }

    /** `ml_models.clear()` after the application stops. */
    method Clear()
      modifies this
      ensures models == map[]
    {
      models := map[];
    }

    /**
     * The lookup-then-respond body shared by the three handlers: the
     * statement-level form of `Serve` on the current map.
     */
    method Handle(d: Disease, p: Payload) returns (r: Reply)
      ensures r == Serve(models, d, p)
    {
      var input := Features(d, p);
      if input.Failure? {
        return Unprocessable(input.error);
      }
      var key := RegistryKey(d);
      if key !in models {
        return ServerError(NotLoadedDetail(d));
      }
      match models[key] {
        case Estimator(m) =>
          r := Ok(Assemble(m, input.value));
        case Auxiliary =>
          r := ServerError(InternalErrorDetail);
      }
    }

    /** POST /predict/diabetes. */
    method PredictDiabetes(p: Payload) returns (r: Reply)
      ensures r == Serve(models, Diabetes, p)
    {
      r := Handle(Diabetes, p);
    }

    /** POST /predict/heart. */
    method PredictHeart(p: Payload) returns (r: Reply)
      ensures r == Serve(models, Heart, p)
    {
      r := Handle(Heart, p);
    }

    /** POST /predict/parkinsons. */
    method PredictParkinsons(p: Payload) returns (r: Reply)
      ensures r == Serve(models, Parkinsons, p)
    {
      r := Handle(Parkinsons, p);
    }
  }
}
