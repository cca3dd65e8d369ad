# Serving core of the multi-disease prediction API

This Dafny project models the serving side of a small FastAPI service. The service predicts diabetes, heart disease and Parkinson's disease from JSON request bodies. The project proves properties of four parts:

- **Request validation** (`schemas.py`). There are three record schemas: `DiabetesInput`, `HeartInput` and `ParkinsonInput`. Each field is required and has a type: integer, float, or a closed set of string literals. A field may also have a lower and an upper bound. The 22 Parkinson's fields carry an external alias, with `populate_by_name` set.
  - The generic validator lives in module `Validation`. `Validate` returns either the validated record or one error per failing field. `Dump` models `model_dump`, optionally by alias.
  - Module `Schemas` states the three schemas. It proves, for each schema, which payloads it accepts and what the validated record holds.
- **Risk bucketing** (`get_risk_level`, module `Risk`). This is a three-band threshold function over the reals.
- **Endpoints** (`predict_diabetes`, `predict_heart`, `predict_parkinsons`, module `Service`).
  - The body is validated first. An invalid body gets 422 and the handler never runs.
  - The handler then looks up its key in the model registry. A missing key gives 500 with the handler's own detail text, and the model is not called.
  - Otherwise the reply is the label, `round(prob, 3)`, and the risk tier of the *unrounded* probability.
  - A fitted estimator is opaque: a pair of functions giving a label in {0, 1} and a probability in [0, 1].
- **Model registry** (`ml_models` and `lifespan`, module `Registry`).
  - The registry is the class `ModelRegistry`, which holds a `map` field.
  - `Load` runs load steps in order and stops at the first one that fails. The error is swallowed.
  - `Clear` empties the map at shutdown.
  - Whether each file load succeeds is a parameter, `load: string -> Option<Artifact>`, where `None` means opening or unpickling the file raised.

Files:
- `wrappers.dfy`: `Option` and `Result`.
- `validation.dfy`: the generic validator.
- `schemas.dfy`: the three schemas and the lemmas about them.
- `risk.dfy`: risk bucketing.
- `service.dfy`: the endpoints.
- `registry.dfy`: the registry and start-up.

Modelling choices:
- A JSON value is `JInt`, `JReal`, `JStr`, `JBool` or `JNull`.
- An `int` field accepts only `JInt`. A `float` field accepts `JInt` or `JReal` and stores a real. A `Literal` field accepts a `JStr` from its choices.
- A field with an alias is looked up under the alias first. When `populate_by_name` is set, it is then looked up under its internal name.
- Every failing field contributes one `FieldError(loc, kind)`, in field order. `loc` is the alias for a missing field. For any other error it is the key the value was read from: the alias, or the internal name when the value came under that name. Unknown keys are ignored.

## Model

| member | source | states |
|---|---|---|
| Validation.Lookup | schemas.py:54-55 | A field's value comes from its alias when the alias is present. Only when `populate_by_name` is set and the alias is absent does it come from the internal name. A value is found exactly when one of those keys is present. |
| Validation.CheckField | schemas.py:6-27 | A field passes exactly when it is supplied and admissible: right type, within `ge`/`le`, in its literal set. Its value is then the supplied value, normalised to a real for float fields. An error is `Missing` exactly when the field is absent. A missing field is reported under its alias, and any other error under the key the value was read from. |
| Validation.ValidateFields | schemas.py:5-55 | A payload is accepted exactly when every field passes its own check. |
| Validation.Validate | schemas.py:5-55 | A body is accepted exactly when the ordered list of failing fields is empty. The record's keys are then the internal field names, and a rejection carries that ordered list of errors. |
| Validation.ErrorsInFieldOrder | schemas.py:5-55 | A rejection's error list is the errors of the failing fields, one each, in field order. |
| Validation.FailuresOfAccepted | schemas.py:5-55 | An accepted body has no failing field. |
| Validation.FailureListsAnError | schemas.py:5-55 | A rejected body gets at least one error. |
| Validation.RecordKeys | schemas.py:5-55 | An accepted payload yields a record whose keys are exactly the internal field names. |
| Validation.RecordValue | schemas.py:5-55 | With distinct names, each field of an accepted payload was supplied admissibly, and the record holds its normalised value under its internal name. |
| Validation.ErrorsAreTheFailures | schemas.py:5-55 | A rejected payload's error list holds exactly the errors of the fields that fail. |
| Validation.MissingFieldReported | schemas.py:6-52 | A required field absent under every accepted key makes the payload fail, with a `Missing` error under its alias. |
| Validation.SoleFailure | schemas.py:5-55 | When exactly one field fails, the error list is exactly that field's error. |
| Validation.OnlyMissingFieldListed | schemas.py:6-52 | A payload missing one required field, with every other field valid, is rejected with exactly that one error. |
| Validation.ExtraKeyIgnored | schemas.py:5-55 | Adding a key that is no field's alias or name does not change the result. |
| Validation.Dump | main.py:54-100 | `model_dump()` names the columns by internal name and `model_dump(by_alias=True)` by alias, in field order. Every column holds the record's value for its field. |
| Validation.SameLookupsSameRecord | schemas.py:54-55 | Acceptance and the validated record depend on a payload only through the value found for each field. |
| Validation.SameLookupsSameResult | schemas.py:54-55 | The whole result, error locations included, depends on a payload only through the value found for each field and whether it was found under the alias. |
| Validation.DistinctSetSize | schemas.py:31-52 | A repetition-free list of keys has as many distinct keys as entries. |
| Validation.DroppedFieldListed | schemas.py:6-52 | Removing one field's keys from an accepted payload (with separate keys) gives exactly one `Missing` error for that field. |
| Schemas.DiabetesAcceptance | schemas.py:5-13 | A diabetes body is accepted exactly when all eight fields are present, Pregnancies and Age are integers ≥ 0, and the other six are numbers ≥ 0. |
| Schemas.DiabetesFieldsAt | schemas.py:6-13 | Field k is keyed by its own name with `ge=0` and no upper bound. It is an integer for Pregnancies and Age and a float otherwise. |
| Schemas.DiabetesValue | schemas.py:6-13 | Field k of an accepted body is stored under its name, as sent for an integer field and as a real for a float field. |
| Schemas.DiabetesRecord | schemas.py:5-13 | Such a body yields exactly the eight fields. The integers are as sent and the six floats are reals. |
| Schemas.DiabetesExampleAccepted | schemas.py:6-13 | The documented example is accepted, and integer 148 is stored as the real 148.0 for Glucose. |
| Schemas.DiabetesNames | schemas.py:6-13 | The eight field names are distinct, no key belongs to two fields, and the names form the given set. |
| Schemas.HeartAcceptance | schemas.py:16-27 | A heart body is accepted exactly when all eleven fields are present and these hold: Age, RestingBP, Cholesterol and MaxHR are integers ≥ 0; FastingBS is an integer in [0, 1]; Oldpeak is any number; Sex, ChestPainType, RestingECG, ExerciseAngina and ST_Slope are each one of their literals. |
| Schemas.HeartNumericChecks | schemas.py:17-26 | Each numeric heart field passes exactly when supplied within its bounds: Age, RestingBP, Cholesterol and MaxHR as integers ≥ 0, FastingBS as an integer in [0, 1], Oldpeak as any number. |
| Schemas.HeartLiteralChecks | schemas.py:18-27 | Each categorical heart field passes exactly when it is a string from its literal set. |
| Schemas.HeartFieldsAt | schemas.py:17-27 | Field k is keyed by its own name, and only Oldpeak is a float. |
| Schemas.HeartValue | schemas.py:17-27 | Field k of an accepted body is stored under its name: as sent, or as a real for Oldpeak. |
| Schemas.HeartRejectsUnknownChestPain | schemas.py:19 | A ChestPainType outside {ATA, NAP, ASY, TA} is rejected with `NotAllowed` on that field. |
| Schemas.HeartFastingBSBounds | schemas.py:22 | An accepted FastingBS lies in [0, 1]. Below 0 gives `TooSmall` and above 1 gives `TooLarge`. |
| Schemas.HeartNames | schemas.py:17-27 | The eleven field names are distinct, no key belongs to two fields, and the names form the given set. |
| Schemas.HeartRecord | schemas.py:16-27 | An accepted heart body yields exactly the eleven fields. Integers and literals are as sent and Oldpeak is a real. |
| Schemas.HeartAcceptsNegativeOldpeak | schemas.py:26 | A body with Oldpeak −1.5 is accepted and keeps −1.5. |
| Schemas.ParkinsonFieldsAt | schemas.py:31-52 | The schema has 22 fields, each pairing its internal name with its alias. |
| Schemas.ParkinsonShape | schemas.py:30-55 | Every field is a required float with no bound, and the aliases in order are the 22 column names. |
| Schemas.ParkinsonKeysDistinct | schemas.py:31-52 | The aliases are distinct, so the name-to-alias map is injective, and the internal names are distinct. |
| Schemas.ParkinsonNamesNotColumns | schemas.py:31-52 | No field's internal name is another field's alias. |
| Schemas.ParkinsonNamesDistinct | schemas.py:31-52 | The fields have separate keys, and the record keys are the 22 internal names. |
| Schemas.ParkinsonAcceptance | schemas.py:30-55 | A body is accepted exactly when each of the 22 fields is given a number, under its alias or else under its internal name. |
| Schemas.ParkinsonValue | schemas.py:30-55 | Field k of an accepted body is stored under its internal name, as the real it was given. |
| Schemas.ParkinsonRecord | schemas.py:30-55 | An accepted body yields exactly the 22 internal names, each holding the real under which it was supplied. |
| Schemas.ParkinsonEitherKey | schemas.py:54-55 | Moving a field's value from its alias to its internal name does not change whether the body is accepted, or the validated record. |
| Schemas.ParkinsonErrorAtNameUsed | schemas.py:54-55 | A non-numeric value sent under a field's internal name, with the alias absent, is reported as `WrongType` under the internal name. |
| Schemas.ParkinsonDumpByAlias | schemas.py:31-52 | Dumping by alias yields exactly the 22 column names, in order, with no repetition. |
| Risk.RiskLevel | main.py:34-40 | Both directions: Low ⇔ p < 0.3, Medium ⇔ 0.3 ≤ p < 0.7, High ⇔ p ≥ 0.7. |
| Risk.Name | main.py:34-40 | Each tier has its own name, in both directions: Low ⇔ "Low", Medium ⇔ "Medium", High ⇔ "High". |
| Risk.Boundaries | main.py:35-40 | 0.3 is Medium and 0.7 is High. |
| Risk.Monotone | main.py:34-40 | p ≤ q implies the tier of p is no higher than the tier of q. |
| Risk.NamesDistinct | main.py:36-40 | The three returned strings are distinct. |
| Service.Round3 | main.py:62 | The rounded value is within 0.0005 of the probability and is a multiple of 0.001. |
| Service.Features | main.py:54-100 | The handler's frame exists exactly when validation accepts, and a rejection carries the validator's errors. The frame has one column per field, in field order. Columns are named by alias for Parkinson's and by internal name for the other two. Each column holds the validated record's value for its field. |
| Service.Assemble | main.py:57-63 | The 200 body: `predict`'s label; a probability that stays in [0, 1] and within 0.0005 of `predict_proba`; and the `risk_level` string. That string is "Low" exactly when the unrounded probability is below 0.3, "Medium" exactly when it is in [0.3, 0.7), and "High" exactly when it is at least 0.7. |
| Service.Respond | main.py:50-110 | On a validated frame, an absent key gives 500 with the endpoint's detail and the model is not called. 200 exactly when the key holds an estimator, with `predict`'s label, the rounded `predict_proba` and the name of the unrounded probability's tier. It never answers 422. |
| Service.Serve | main.py:48-110 | 422 exactly when validation fails, carrying its errors. Otherwise the reply is the handler's reply on the frame. An accepted body whose key is absent gets 500 with the endpoint's detail. 200 exactly when the key holds an estimator. The label is `predict`'s, the probability is the rounded `predict_proba`, and `risk_level` names the tier of the unrounded probability. |
| Service.EmptyRegistryNeverServes | main.py:29-110 | With an empty registry (after `clear()`), every endpoint answers 500 for a valid body and 422 otherwise. |
| Service.ParkinsonFeatureColumns | main.py:99-100 | The Parkinson's frame's columns are exactly the 22 aliases. |
| Service.DiabetesFeatureColumns | main.py:54-55 | The diabetes frame's columns are the eight field names, in declaration order. |
| Service.HeartFeatureColumns | main.py:78 | The heart frame's columns are the eleven field names, in declaration order. |
| Service.RoundingCanCrossBand | main.py:62-63 | 0.2996 is reported as probability 0.3 yet tier Low. |
| Service.RoundingKeepsBandAwayFromThresholds | main.py:62-63 | Away from 0.3 and 0.7, the rounded probability lies in the same band. |
| Service.ValidationPrecedesLookup | main.py:48-92 | An invalid body gets 422 whatever the registry holds. |
| Service.SeparateKeysOf | schemas.py:5-55 | In each of the three schemas, no key of one field is a key of another. |
| Service.DroppedFieldRejected | schemas.py:6-52 | For each endpoint, dropping one field from an accepted body gives exactly one `Missing` error. |
| Registry.Loaded | main.py:13-26 | Loading keeps every existing key and adds only keys of the steps. A first step that fails leaves the map unchanged. |
| Registry.FirstFailure | main.py:13-26 | The index of the first failing load: every earlier load succeeds, and the one at the index fails. |
| Registry.Steps | main.py:15-23 | One step per key, in order, loading the file of that key. |
| Registry.LoadedKeys | main.py:13-26 | Loading adds exactly the keys of the steps before the first failure. |
| Registry.LoadedUntouched | main.py:13-26 | A key that no step before the first failure names keeps its entry, or stays absent. |
| Registry.LoadedValue | main.py:13-26 | Each step before the first failure leaves its own object under its key. |
| Registry.StopsAtFirstFailure | main.py:13-26 | If load k fails, every earlier key is present, and key k and all later keys are absent. |
| Registry.StartupStepsDistinct | main.py:15-23 | The seven start-up keys are distinct. |
| Registry.StartupKeysOnly | main.py:15-23 | Start-up stores only its seven keys. |
| Registry.StartupNeverLoadsPipelines | main.py:15-23 | Start-up never stores `heart_pipeline` or `parkinsons_pipeline`, the keys the handlers read at main.py:71 and main.py:94. |
| Registry.HeartAndParkinsonsAlwaysUnavailable | main.py:15-97 | After start-up alone, the heart and Parkinson's handlers answer 500 with the "pipeline not loaded" detail on every frame, whatever the files hold. |
| Registry.HeartAndParkinsonsNeverServe | main.py:15-97 | After start-up alone, the heart and Parkinson's endpoints never answer 200. A valid body gets 500 with the "pipeline not loaded" detail. |
| Registry.StartupSequential | main.py:13-26 | If start-up load k fails, keys 0..k-1 hold their loaded objects, and key k and later keys are absent. |
| Registry.IntendedStepsDistinct | main.py:50-94 | The three endpoint keys are distinct. |
| Registry.IntendedStartupLoads | main.py:13-94 | Under corrected start-up, an endpoint's key is present exactly when its file and the files before it load. It then holds its file's object. |
| Registry.IntendedStartupServes | main.py:50-97 | Under corrected start-up, a handler answers 200 exactly when its file and the files before it load and its own file is an estimator. When one of those files fails, it answers "not loaded". |
| Registry.IntendedStartupAnswers | main.py:48-110 | Under corrected start-up, an accepted body gets 200 exactly when its endpoint's file and the files before it load and its own file is an estimator. When one of those files fails, it gets "not loaded". |
| Registry.IntendedPartialDegradation | main.py:48-110 | If the diabetes and heart files load but the Parkinson's file fails, diabetes and heart serve every accepted body and Parkinson's answers 500 to every accepted body. |
| Registry.DiabetesLoadFailureEmptiesRegistry | main.py:13-26 | When the diabetes file fails to load, both start-ups stop at the first load and the registry stays empty. |
| Registry.DiabetesLoadFailureNeverServes | main.py:13-52 | Then every endpoint, diabetes included, answers 500 to an accepted body and 422 to a rejected one, under either start-up. |
| Registry.ModelRegistry.constructor | main.py:8 | The registry starts empty. |
| Registry.ModelRegistry.Load | main.py:13-26 | The new map is the old one after the steps up to the first failure. The result is true exactly when no step failed. |
| Registry.ModelRegistry.Startup | main.py:13-26 | `Load` applied to the seven start-up loads. |
| Registry.ModelRegistry.IntendedStartup | main.py:13-26 | `Load` applied to the three keys the endpoints read. |
| Registry.ModelRegistry.Clear | main.py:29 | `ml_models.clear()`: the map becomes empty. |
| Registry.ModelRegistry.Handle | main.py:50-64 | The shared handler body, the statement-level form of `Serve`, answers as `Serve` on the current map. |
| Registry.ModelRegistry.PredictDiabetes | main.py:48-64 | The diabetes endpoint answers as `Serve` on the current map. |
| Registry.ModelRegistry.PredictHeart | main.py:68-87 | The heart endpoint answers as `Serve` on the current map. |
| Registry.ModelRegistry.PredictParkinsons | main.py:91-110 | The Parkinson's endpoint answers as `Serve` on the current map. |

## Left out

- Pydantic's lax coercions are not modelled: strings to numbers, `6.0` to an int field, booleans to ints. Its error-message text is not modelled either; only the location and a kind are. The location is the single key, without the `body` prefix that FastAPI adds.
- The `example=` and `description=` metadata of the fields is not modelled; it does not affect validation.
- Service.Round3: modelled on exact reals with halves rounded up. Python's `round` works on binary floating point and rounds halves to even. The contract therefore states only the error bound and the grid.
- The truth test `if not model` of a loaded object is modelled only as absence of the key. A present but falsy object is not modelled.
- A present key holding an object without `predict_proba`, such as a scaler or a column list, is modelled as a 500 with the framework's generic detail. The exception itself is not modelled.
- The estimators are opaque functions. The library code behind them is not modelled: random forest, scaler, one-hot encoder, column transformer.
- pickle, file I/O, pandas DataFrame construction, FastAPI routing and the async lifespan machinery are not modelled. Only their effect on the registry map and on the reply remains.
- `print` calls in `lifespan` are not modelled.
- The `/` home endpoint is not modelled; it returns a constant message.
- `services/llm.py` is not part of this model; it is a network call to an external API.
- `frontend/app.py` is not part of this model; it is the Streamlit UI.
- The training scripts are not part of this model; they do offline training through sklearn, mlflow and shap. Only two of them save a file that start-up could read: train_heart.py:34 writes `heart_pipeline.pkl` and train_parkinsons.py:40 writes `parkinsons_pipeline.pkl`. No script writes `diabetes_model.pkl`. train_diabetes.py:65-68 pickles only the SHAP explainer, and train_diabetes.py:72-77 logs the forest to mlflow. With only the scripts' outputs, the first load (main.py:15) fails under either start-up. Registry.DiabetesLoadFailureNeverServes states the consequence.
- Numbers are exact: a float field holds an exact real and a JSON integer an unbounded integer. Python's json module and pydantic also accept NaN and ±Infinity; Infinity passes `ge=0`, and Oldpeak and the Parkinson's fields accept NaN. These values are not modelled. Rounding a large JSON integer to a double when it goes into a float field is not modelled either.
- JSON values are scalars only. An array or object sent for a field fails validation in pydantic, and the model cannot express such a value.
- Concurrent requests against the shared dictionary are not modelled.

## Findings

| source | as written | input that shows it | evidently intended | confidence | as-written member | corrected member |
|---|---|---|---|---|---|---|
| main.py:17-23, main.py:71, main.py:94 | `lifespan` stores `heart_model`, `heart_scaler`, `heart_columns`, `parkinsons_model`, `parkinsons_scaler` and `parkinsons_columns`. The heart and Parkinson's handlers read `heart_pipeline` and `parkinsons_pipeline`. | Any start-up outcome, even one where every file loads, followed by a valid heart or Parkinson's body: the reply is 500, "pipeline not loaded". | Start-up loads the pipelines the training scripts save (train_heart.py:34, train_parkinsons.py:40) under the keys the handlers read. Each endpoint then serves once its file loads. | not executed | Registry.HeartAndParkinsonsAlwaysUnavailable | Registry.IntendedStartupServes |
