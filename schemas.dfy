/**
 * The three request-body schemas of the prediction service (schemas.py):
 * DiabetesInput, HeartInput and ParkinsonInput, as field lists for the
 * validator in module Validation, with the accept/reject rules each one
 * imposes stated outright.
 */
module Schemas {
  import opened Wrappers
  import opened Validation

  /** A field whose external key is its own name. */
  function Plain(name: string, kind: Kind, ge: Option<real>, le: Option<real>): Field {
    Field(name, name, kind, ge, le)
  }

  /** A Parkinson's field: an unbounded float with an external alias. */
  function Acoustic(name: string, alias: string): Field {
    Field(name, alias, RealKind, None, None)
  }

  const NonNegative: Option<real> := Some(0.0)

  // ---------------------------------------------------------------------------
  // DiabetesInput
  // ---------------------------------------------------------------------------

  const DiabetesInput: Schema := Schema([
    Plain("Pregnancies", IntKind, NonNegative, None),
    Plain("Glucose", RealKind, NonNegative, None),
    Plain("BloodPressure", RealKind, NonNegative, None),
    Plain("SkinThickness", RealKind, NonNegative, None),
    Plain("Insulin", RealKind, NonNegative, None),
    Plain("BMI", RealKind, NonNegative, None),
    Plain("DiabetesPedigreeFunction", RealKind, NonNegative, None),
    Plain("Age", IntKind, NonNegative, None)
  ], false)

  predicate NonNegInt(p: Payload, k: string) {
    k in p && p[k].JInt? && p[k].i >= 0
  }

  predicate NonNegNumber(p: Payload, k: string) {
    k in p && IsNumber(p[k]) && Number(p[k]) >= 0.0
  }

  /** The diabetes constraints, read off the payload directly. */
  predicate DiabetesConstraints(p: Payload) {
    && NonNegInt(p, "Pregnancies")
    && NonNegNumber(p, "Glucose")
    && NonNegNumber(p, "BloodPressure")
    && NonNegNumber(p, "SkinThickness")
    && NonNegNumber(p, "Insulin")
    && NonNegNumber(p, "BMI")
    && NonNegNumber(p, "DiabetesPedigreeFunction")
    && NonNegInt(p, "Age")
  }

  /**
   * A diabetes payload is accepted exactly when all eight fields are present,
   * Pregnancies and Age are non-negative integers and the other six are
   * non-negative numbers.
   */
  lemma DiabetesAcceptance(p: Payload)
    ensures Validate(DiabetesInput, p).Success? <==> DiabetesConstraints(p)
  {
    var fs := DiabetesInput.fields;
    assert CheckField(fs[0], p, false).Success? <==> NonNegInt(p, "Pregnancies");
    assert CheckField(fs[1], p, false).Success? <==> NonNegNumber(p, "Glucose");
    assert CheckField(fs[2], p, false).Success? <==> NonNegNumber(p, "BloodPressure");
    assert CheckField(fs[3], p, false).Success? <==> NonNegNumber(p, "SkinThickness");
    assert CheckField(fs[4], p, false).Success? <==> NonNegNumber(p, "Insulin");
    assert CheckField(fs[5], p, false).Success? <==> NonNegNumber(p, "BMI");
    assert CheckField(fs[6], p, false).Success? <==> NonNegNumber(p, "DiabetesPedigreeFunction");
    assert CheckField(fs[7], p, false).Success? <==> NonNegInt(p, "Age");
    if DiabetesConstraints(p) {
      forall i | 0 <= i < |fs| ensures CheckField(fs[i], p, false).Success? {
        assert i == 0 || i == 1 || i == 2 || i == 3 || i == 4 || i == 5 || i == 6 || i == 7;
      }
    }
  }

  /** The diabetes field names, in declaration order. */
  const DiabetesFieldNames: seq<string> := [
    "Pregnancies", "Glucose", "BloodPressure", "SkinThickness", "Insulin", "BMI",
    "DiabetesPedigreeFunction", "Age"
  ]

  /** Field k is a non-negative field under its own name: an integer for the first and last, a float otherwise. */
  lemma DiabetesFieldsAt()
    ensures |DiabetesInput.fields| == 8
    ensures forall k :: 0 <= k < 8 ==>
      DiabetesInput.fields[k] == Plain(DiabetesFieldNames[k], if k == 0 || k == 7 then IntKind else RealKind, NonNegative, None)
  {
  }

  /** Field k of an accepted diabetes payload is stored under its name, normalised to its kind. */
  lemma DiabetesValue(p: Payload, k: nat)
    requires DiabetesConstraints(p) && k < 8
    ensures Validate(DiabetesInput, p).Success?
    ensures DiabetesFieldNames[k] in p && DiabetesFieldNames[k] in Validate(DiabetesInput, p).value
    ensures Validate(DiabetesInput, p).value[DiabetesFieldNames[k]] ==
      Normalise(if k == 0 || k == 7 then IntKind else RealKind, p[DiabetesFieldNames[k]])
  {
    var fs := DiabetesInput.fields;
    DiabetesAcceptance(p);
    DiabetesNames();
    DiabetesFieldsAt();
    RecordValue(fs, p, false, k);
  }

  /**
   * An accepted diabetes payload yields a record with exactly the eight
   * fields: Pregnancies and Age as sent, the six others as reals.
   */
  lemma DiabetesRecord(p: Payload)
    requires DiabetesConstraints(p)
    ensures Validate(DiabetesInput, p).Success?
    ensures var rec := Validate(DiabetesInput, p).value;
      && rec.Keys == {"Pregnancies", "Glucose", "BloodPressure", "SkinThickness", "Insulin",
                      "BMI", "DiabetesPedigreeFunction", "Age"}
      && rec["Pregnancies"] == p["Pregnancies"] && rec["Age"] == p["Age"]
      && rec["Glucose"] == JReal(Number(p["Glucose"]))
      && rec["BloodPressure"] == JReal(Number(p["BloodPressure"]))
      && rec["SkinThickness"] == JReal(Number(p["SkinThickness"]))
      && rec["Insulin"] == JReal(Number(p["Insulin"]))
      && rec["BMI"] == JReal(Number(p["BMI"]))
      && rec["DiabetesPedigreeFunction"] == JReal(Number(p["DiabetesPedigreeFunction"]))
  {
    DiabetesAcceptance(p);
    DiabetesNames();
    RecordKeys(DiabetesInput.fields, p, false);
    DiabetesValue(p, 0);
    DiabetesValue(p, 1);
    DiabetesValue(p, 2);
    DiabetesValue(p, 3);
    DiabetesValue(p, 4);
    DiabetesValue(p, 5);
    DiabetesValue(p, 6);
    DiabetesValue(p, 7);
  }

  /** The documented diabetes example; the integer-valued JSON numbers are accepted for float fields. */
  const DiabetesExample: Payload := map[
    "Pregnancies" := JInt(6), "Glucose" := JInt(148), "BloodPressure" := JInt(72), "SkinThickness" := JInt(35),
    "Insulin" := JInt(0), "BMI" := JReal(33.6), "DiabetesPedigreeFunction" := JReal(0.627), "Age" := JInt(50)]

  lemma DiabetesExampleAccepted()
    ensures Validate(DiabetesInput, DiabetesExample).Success?
    ensures "Glucose" in Validate(DiabetesInput, DiabetesExample).value
    ensures Validate(DiabetesInput, DiabetesExample).value["Glucose"] == JReal(148.0)
  {
    var p := DiabetesExample;
    assert NonNegInt(p, "Pregnancies") && NonNegNumber(p, "Glucose") && NonNegNumber(p, "BloodPressure");
    assert NonNegNumber(p, "SkinThickness") && NonNegNumber(p, "Insulin") && NonNegNumber(p, "BMI");
    assert NonNegNumber(p, "DiabetesPedigreeFunction") && NonNegInt(p, "Age");
    DiabetesRecord(p);
  }

  lemma DiabetesNames()
    ensures DistinctNames(DiabetesInput.fields) && SeparateKeys(DiabetesInput.fields)
    ensures Names(DiabetesInput.fields) == set n | n in DiabetesFieldNames
    ensures Names(DiabetesInput.fields) == {"Pregnancies", "Glucose", "BloodPressure", "SkinThickness",
                                            "Insulin", "BMI", "DiabetesPedigreeFunction", "Age"}
  {
    var fs := DiabetesInput.fields;
    DiabetesFieldsAt();
    assert forall i, j :: 0 <= i < j < 8 ==> DiabetesFieldNames[i] != DiabetesFieldNames[j];
    forall x | x in DiabetesFieldNames ensures x in Names(fs) {
      var i :| 0 <= i < 8 && DiabetesFieldNames[i] == x;
      assert fs[i].name == x;
    }
  }

  // ---------------------------------------------------------------------------
  // HeartInput
  // ---------------------------------------------------------------------------

  const SexChoices: seq<string> := ["M", "F"]
  const ChestPainChoices: seq<string> := ["ATA", "NAP", "ASY", "TA"]
  const RestingEcgChoices: seq<string> := ["Normal", "ST", "LVH"]
  const AnginaChoices: seq<string> := ["N", "Y"]
  const SlopeChoices: seq<string> := ["Up", "Flat", "Down"]

  const HeartInput: Schema := Schema([
    Plain("Age", IntKind, NonNegative, None),
    Plain("Sex", LiteralKind(SexChoices), None, None),
    Plain("ChestPainType", LiteralKind(ChestPainChoices), None, None),
    Plain("RestingBP", IntKind, NonNegative, None),
    Plain("Cholesterol", IntKind, NonNegative, None),
    Plain("FastingBS", IntKind, NonNegative, Some(1.0)),
    Plain("RestingECG", LiteralKind(RestingEcgChoices), None, None),
    Plain("MaxHR", IntKind, NonNegative, None),
    Plain("ExerciseAngina", LiteralKind(AnginaChoices), None, None),
    Plain("Oldpeak", RealKind, None, None),
    Plain("ST_Slope", LiteralKind(SlopeChoices), None, None)
  ], false)

  predicate OneOf(p: Payload, k: string, choices: seq<string>) {
    k in p && p[k].JStr? && p[k].s in choices
  }

  /** The heart-disease constraints, read off the payload directly. */
  predicate HeartConstraints(p: Payload) {
    && NonNegInt(p, "Age")
    && OneOf(p, "Sex", SexChoices)
    && OneOf(p, "ChestPainType", ChestPainChoices)
    && NonNegInt(p, "RestingBP")
    && NonNegInt(p, "Cholesterol")
    && "FastingBS" in p && p["FastingBS"].JInt? && 0 <= p["FastingBS"].i <= 1
    && OneOf(p, "RestingECG", RestingEcgChoices)
    && NonNegInt(p, "MaxHR")
    && OneOf(p, "ExerciseAngina", AnginaChoices)
    && "Oldpeak" in p && IsNumber(p["Oldpeak"])
    && OneOf(p, "ST_Slope", SlopeChoices)
  }

  /**
   * A heart-disease payload is accepted exactly when all eleven fields are
   * present, Age, RestingBP, Cholesterol and MaxHR are non-negative integers,
   * FastingBS is an integer in [0, 1], Oldpeak is any number (negative ones
   * included) and each categorical is one of its declared literals.
   */
  lemma HeartAcceptance(p: Payload)
    ensures Validate(HeartInput, p).Success? <==> HeartConstraints(p)
  {
    var fs := HeartInput.fields;
    HeartNumericChecks(p);
    HeartLiteralChecks(p);
    if HeartConstraints(p) {
      forall i | 0 <= i < |fs| ensures CheckField(fs[i], p, false).Success? {
        assert i == 0 || i == 1 || i == 2 || i == 3 || i == 4 || i == 5 || i == 6 || i == 7
          || i == 8 || i == 9 || i == 10;
      }
    }
  }

  /** The checks of the six numeric heart-disease fields, read off the payload. */
  lemma HeartNumericChecks(p: Payload)
    ensures |HeartInput.fields| == 11
    ensures CheckField(HeartInput.fields[0], p, false).Success? <==> NonNegInt(p, "Age")
    ensures CheckField(HeartInput.fields[3], p, false).Success? <==> NonNegInt(p, "RestingBP")
    ensures CheckField(HeartInput.fields[4], p, false).Success? <==> NonNegInt(p, "Cholesterol")
    ensures CheckField(HeartInput.fields[5], p, false).Success? <==>
      "FastingBS" in p && p["FastingBS"].JInt? && 0 <= p["FastingBS"].i <= 1
    ensures CheckField(HeartInput.fields[7], p, false).Success? <==> NonNegInt(p, "MaxHR")
    ensures CheckField(HeartInput.fields[9], p, false).Success? <==> "Oldpeak" in p && IsNumber(p["Oldpeak"])
  {
  }

  /** The checks of the five categorical heart-disease fields, read off the payload. */
  lemma HeartLiteralChecks(p: Payload)
    ensures |HeartInput.fields| == 11
    ensures CheckField(HeartInput.fields[1], p, false).Success? <==> OneOf(p, "Sex", SexChoices)
    ensures CheckField(HeartInput.fields[2], p, false).Success? <==> OneOf(p, "ChestPainType", ChestPainChoices)
    ensures CheckField(HeartInput.fields[6], p, false).Success? <==> OneOf(p, "RestingECG", RestingEcgChoices)
    ensures CheckField(HeartInput.fields[8], p, false).Success? <==> OneOf(p, "ExerciseAngina", AnginaChoices)
    ensures CheckField(HeartInput.fields[10], p, false).Success? <==> OneOf(p, "ST_Slope", SlopeChoices)
  {
  }


  /** A chest-pain type outside {ATA, NAP, ASY, TA} is rejected with an error on that field. */
  lemma HeartRejectsUnknownChestPain(p: Payload)
    requires "ChestPainType" in p && !OneOf(p, "ChestPainType", ChestPainChoices)
    ensures Validate(HeartInput, p).Failure?
    ensures FieldError("ChestPainType", NotAllowed) in Validate(HeartInput, p).error
  {
    assert CheckField(HeartInput.fields[2], p, false) == Failure(FieldError("ChestPainType", NotAllowed));
    ErrorsAreTheFailures(HeartInput.fields, p, false);
  }

  /** FastingBS outside [0, 1] is rejected as too small or too large. */
  lemma HeartFastingBSBounds(p: Payload, x: int)
    requires "FastingBS" in p && p["FastingBS"] == JInt(x)
    ensures Validate(HeartInput, p).Success? ==> 0 <= x <= 1
    ensures x < 0 ==> FieldError("FastingBS", TooSmall) in Validate(HeartInput, p).error
    ensures x > 1 ==> FieldError("FastingBS", TooLarge) in Validate(HeartInput, p).error
  {
    var f := HeartInput.fields[5];
    if x < 0 {
      assert CheckField(f, p, false) == Failure(FieldError("FastingBS", TooSmall));
      ErrorsAreTheFailures(HeartInput.fields, p, false);
    } else if x > 1 {
      assert CheckField(f, p, false) == Failure(FieldError("FastingBS", TooLarge));
      ErrorsAreTheFailures(HeartInput.fields, p, false);
    }
  }

  lemma HeartNames()
    ensures DistinctNames(HeartInput.fields) && SeparateKeys(HeartInput.fields)
    ensures Names(HeartInput.fields) == set n | n in HeartFieldNames
    ensures Names(HeartInput.fields) == {"Age", "Sex", "ChestPainType", "RestingBP", "Cholesterol", "FastingBS",
                                         "RestingECG", "MaxHR", "ExerciseAngina", "Oldpeak", "ST_Slope"}
  {
    var fs := HeartInput.fields;
    HeartFieldsAt();
    assert forall i, j :: 0 <= i < j < 11 ==> HeartFieldNames[i] != HeartFieldNames[j];
    forall x | x in HeartFieldNames ensures x in Names(fs) {
      var i :| 0 <= i < 11 && HeartFieldNames[i] == x;
      assert fs[i].name == x;
    }
  }

  /** The heart-disease field names, in declaration order. */
  const HeartFieldNames: seq<string> := [
    "Age", "Sex", "ChestPainType", "RestingBP", "Cholesterol", "FastingBS", "RestingECG", "MaxHR",
    "ExerciseAngina", "Oldpeak", "ST_Slope"
  ]

  /** Field k is keyed by its own name; only Oldpeak (field 9) is a float. */
  lemma HeartFieldsAt()
    ensures |HeartInput.fields| == 11
    ensures forall k :: 0 <= k < 11 ==>
      HeartInput.fields[k].name == HeartFieldNames[k] && HeartInput.fields[k].alias == HeartFieldNames[k] &&
      (HeartInput.fields[k].kind == RealKind <==> k == 9)
  {
  }

  /** Field k of an accepted heart-disease payload is stored under its name: as sent, or as a real for Oldpeak. */
  lemma HeartValue(p: Payload, k: nat)
    requires HeartConstraints(p) && k < 11
    ensures Validate(HeartInput, p).Success?
    ensures HeartFieldNames[k] in p && HeartFieldNames[k] in Validate(HeartInput, p).value
    ensures Validate(HeartInput, p).value[HeartFieldNames[k]] ==
      if k == 9 then JReal(Number(p[HeartFieldNames[k]])) else p[HeartFieldNames[k]]
  {
    var fs := HeartInput.fields;
    HeartAcceptance(p);
    HeartNames();
    HeartFieldsAt();
    RecordValue(fs, p, false, k);
  }

  /**
   * An accepted heart-disease payload yields a record with exactly the eleven
   * fields, the integers and literals as sent and Oldpeak as a real.
   */
  lemma HeartRecord(p: Payload)
    requires HeartConstraints(p)
    ensures Validate(HeartInput, p).Success?
    ensures var rec := Validate(HeartInput, p).value;
      && rec.Keys == {"Age", "Sex", "ChestPainType", "RestingBP", "Cholesterol", "FastingBS",
                      "RestingECG", "MaxHR", "ExerciseAngina", "Oldpeak", "ST_Slope"}
      && rec["Age"] == p["Age"] && rec["RestingBP"] == p["RestingBP"]
      && rec["Cholesterol"] == p["Cholesterol"] && rec["FastingBS"] == p["FastingBS"]
      && rec["MaxHR"] == p["MaxHR"] && rec["Oldpeak"] == JReal(Number(p["Oldpeak"]))
      && rec["Sex"] == p["Sex"] && rec["ChestPainType"] == p["ChestPainType"]
      && rec["RestingECG"] == p["RestingECG"] && rec["ExerciseAngina"] == p["ExerciseAngina"]
      && rec["ST_Slope"] == p["ST_Slope"]
  {
    HeartAcceptance(p);
    HeartNames();
    RecordKeys(HeartInput.fields, p, false);
    HeartValue(p, 0);
    HeartValue(p, 1);
    HeartValue(p, 2);
    HeartValue(p, 3);
    HeartValue(p, 4);
    HeartValue(p, 5);
    HeartValue(p, 6);
    HeartValue(p, 7);
    HeartValue(p, 8);
    HeartValue(p, 9);
    HeartValue(p, 10);
  }

  /** The documented heart example with a negative Oldpeak: Oldpeak has no bound. */
  const HeartExampleNegativeOldpeak: Payload := map[
    "Age" := JInt(40), "Sex" := JStr("M"), "ChestPainType" := JStr("ATA"), "RestingBP" := JInt(140),
    "Cholesterol" := JInt(289), "FastingBS" := JInt(0), "RestingECG" := JStr("Normal"), "MaxHR" := JInt(172),
    "ExerciseAngina" := JStr("N"), "Oldpeak" := JReal(-1.5), "ST_Slope" := JStr("Up")]

  lemma HeartAcceptsNegativeOldpeak()
    ensures Validate(HeartInput, HeartExampleNegativeOldpeak).Success?
    ensures "Oldpeak" in Validate(HeartInput, HeartExampleNegativeOldpeak).value
    ensures Validate(HeartInput, HeartExampleNegativeOldpeak).value["Oldpeak"] == JReal(-1.5)
  {
    var p := HeartExampleNegativeOldpeak;
    assert NonNegInt(p, "Age") && OneOf(p, "Sex", SexChoices) && OneOf(p, "ChestPainType", ChestPainChoices);
    assert NonNegInt(p, "RestingBP") && NonNegInt(p, "Cholesterol") && p["FastingBS"] == JInt(0);
    assert OneOf(p, "RestingECG", RestingEcgChoices) && NonNegInt(p, "MaxHR");
    assert OneOf(p, "ExerciseAngina", AnginaChoices) && p["Oldpeak"] == JReal(-1.5);
    assert OneOf(p, "ST_Slope", SlopeChoices);
    HeartRecord(p);
  }

  // ---------------------------------------------------------------------------
  // ParkinsonInput
  // ---------------------------------------------------------------------------

  /** The 22 acoustic fields, each a float under its alias; `populate_by_name` is set. */
  const ParkinsonInput: Schema := Schema([
    Acoustic("mdvp_fo_hz", "MDVP:Fo(Hz)"),
    Acoustic("mdvp_fhi_hz", "MDVP:Fhi(Hz)"),
    Acoustic("mdvp_flo_hz", "MDVP:Flo(Hz)"),
    Acoustic("mdvp_jitter_percent", "MDVP:Jitter(%)"),
    Acoustic("mdvp_jitter_abs", "MDVP:Jitter(Abs)"),
    Acoustic("mdvp_rap", "MDVP:RAP"),
    Acoustic("mdvp_ppq", "MDVP:PPQ"),
    Acoustic("jitter_ddp", "Jitter:DDP"),
    Acoustic("mdvp_shimmer", "MDVP:Shimmer"),
    Acoustic("mdvp_shimmer_db", "MDVP:Shimmer(dB)"),
    Acoustic("shimmer_apq3", "Shimmer:APQ3"),
    Acoustic("shimmer_apq5", "Shimmer:APQ5"),
    Acoustic("mdvp_apq", "MDVP:APQ"),
    Acoustic("shimmer_dda", "Shimmer:DDA"),
    Acoustic("nhr", "NHR"),
    Acoustic("hnr", "HNR"),
    Acoustic("rpde", "RPDE"),
    Acoustic("dfa", "DFA"),
    Acoustic("spread1", "spread1"),
    Acoustic("spread2", "spread2"),
    Acoustic("d2", "D2"),
    Acoustic("ppe", "PPE")
  ], true)

  /** The internal names, in declaration order. */
  const ParkinsonNames: seq<string> := [
    "mdvp_fo_hz", "mdvp_fhi_hz", "mdvp_flo_hz", "mdvp_jitter_percent", "mdvp_jitter_abs",
    "mdvp_rap", "mdvp_ppq", "jitter_ddp", "mdvp_shimmer", "mdvp_shimmer_db", "shimmer_apq3",
    "shimmer_apq5", "mdvp_apq", "shimmer_dda", "nhr", "hnr", "rpde", "dfa", "spread1", "spread2",
    "d2", "ppe"
  ]

  /** The aliases, in declaration order: the external column names. */
  const ParkinsonColumns: seq<string> := [
    "MDVP:Fo(Hz)", "MDVP:Fhi(Hz)", "MDVP:Flo(Hz)", "MDVP:Jitter(%)", "MDVP:Jitter(Abs)",
    "MDVP:RAP", "MDVP:PPQ", "Jitter:DDP", "MDVP:Shimmer", "MDVP:Shimmer(dB)", "Shimmer:APQ3",
    "Shimmer:APQ5", "MDVP:APQ", "Shimmer:DDA", "NHR", "HNR", "RPDE", "DFA", "spread1", "spread2",
    "D2", "PPE"
  ]

  lemma ParkinsonFieldsAt()
    ensures |ParkinsonInput.fields| == 22
    ensures forall k :: 0 <= k < 22 ==> ParkinsonInput.fields[k] == Acoustic(ParkinsonNames[k], ParkinsonColumns[k])
  {
  }

  /** Every Parkinson's field is a required float with no bound, keyed externally by its alias. */
  lemma ParkinsonShape()
    ensures |ParkinsonInput.fields| == 22 && ParkinsonInput.populateByName
    ensures forall k :: 0 <= k < 22 ==>
      ParkinsonInput.fields[k].kind == RealKind && ParkinsonInput.fields[k].ge.None? && ParkinsonInput.fields[k].le.None?
    ensures Aliases(ParkinsonInput.fields) == ParkinsonColumns
  {
    ParkinsonFieldsAt();
  }

  /** The name-to-alias map is injective, and internal names are distinct. */
  lemma ParkinsonKeysDistinct()
    ensures forall i, j :: 0 <= i < j < 22 ==> ParkinsonColumns[i] != ParkinsonColumns[j]
    ensures forall i, j :: 0 <= i < j < 22 ==> ParkinsonNames[i] != ParkinsonNames[j]
  {
  }

  /** No field's internal name is another field's alias. */
  lemma ParkinsonNamesNotColumns()
    ensures forall i, j :: 0 <= i < 22 && 0 <= j < 22 && i != j ==> ParkinsonNames[i] != ParkinsonColumns[j]
  {
  }

  lemma ParkinsonNamesDistinct()
    ensures DistinctNames(ParkinsonInput.fields) && SeparateKeys(ParkinsonInput.fields)
    ensures Names(ParkinsonInput.fields) == (set k | 0 <= k < 22 :: ParkinsonNames[k])
  {
    ParkinsonFieldsAt();
    ParkinsonKeysDistinct();
    ParkinsonNamesNotColumns();
  }

  /** The value a Parkinson's payload supplies for field k: under its alias, else under its name. */
  function Supplied(p: Payload, k: nat): Option<Json>
    requires k < 22
  {
    Lookup(ParkinsonInput.fields[k], p, true)
  }

  predicate SuppliesNumbers(p: Payload) {
    forall k :: 0 <= k < 22 ==> Supplied(p, k).Some? && IsNumber(Supplied(p, k).value)
  }

  /**
   * A Parkinson's payload is accepted exactly when each of the 22 fields is
   * given a number, under its alias or else under its internal name.
   */
  lemma ParkinsonAcceptance(p: Payload)
    ensures Validate(ParkinsonInput, p).Success? <==> SuppliesNumbers(p)
  {
    ParkinsonFieldsAt();
    assert forall k :: 0 <= k < 22 ==> Lookup(ParkinsonInput.fields[k], p, true) == Supplied(p, k);
  }

  /** Field k of an accepted Parkinson's payload, stored under its internal name as a real. */
  lemma ParkinsonValue(p: Payload, k: nat)
    requires SuppliesNumbers(p) && k < 22
    ensures Validate(ParkinsonInput, p).Success?
    ensures ParkinsonNames[k] in Validate(ParkinsonInput, p).value
    ensures Validate(ParkinsonInput, p).value[ParkinsonNames[k]] == JReal(Number(Supplied(p, k).value))
  {
    var fs := ParkinsonInput.fields;
    ParkinsonAcceptance(p);
    ParkinsonFieldsAt();
    ParkinsonNamesDistinct();
    RecordValue(fs, p, true, k);
  }

  /** An accepted Parkinson's payload yields every field, by internal name, as a real. */
  lemma ParkinsonRecord(p: Payload)
    requires SuppliesNumbers(p)
    ensures Validate(ParkinsonInput, p).Success?
    ensures Validate(ParkinsonInput, p).value.Keys == (set k | 0 <= k < 22 :: ParkinsonNames[k])
    ensures forall k :: 0 <= k < 22 ==>
      ParkinsonNames[k] in Validate(ParkinsonInput, p).value &&
      Validate(ParkinsonInput, p).value[ParkinsonNames[k]] == JReal(Number(Supplied(p, k).value))
  {
    ParkinsonAcceptance(p);
    ParkinsonNamesDistinct();
    RecordKeys(ParkinsonInput.fields, p, true);
    forall k | 0 <= k < 22
      ensures ParkinsonNames[k] in Validate(ParkinsonInput, p).value &&
        Validate(ParkinsonInput, p).value[ParkinsonNames[k]] == JReal(Number(Supplied(p, k).value))
    {
      ParkinsonValue(p, k);
    }
  }

  /**
   * Moving one field's value from its alias to its internal name does not
   * change the outcome: either key is accepted.
   */
  lemma ParkinsonEitherKey(p: Payload, k: nat)
    requires k < 22 && ParkinsonColumns[k] in p
    ensures var q := (p - {ParkinsonColumns[k]})[ParkinsonNames[k] := p[ParkinsonColumns[k]]];
      && (Validate(ParkinsonInput, q).Success? <==> Validate(ParkinsonInput, p).Success?)
      && (Validate(ParkinsonInput, p).Success? ==> Validate(ParkinsonInput, q).value == Validate(ParkinsonInput, p).value)
  {
    var q := (p - {ParkinsonColumns[k]})[ParkinsonNames[k] := p[ParkinsonColumns[k]]];
    var fs := ParkinsonInput.fields;
    ParkinsonFieldsAt();
    ParkinsonKeysDistinct();
    ParkinsonNamesNotColumns();
    forall i | 0 <= i < |fs| ensures Lookup(fs[i], q, true) == Lookup(fs[i], p, true) {
      assert fs[i].name == ParkinsonNames[i] && fs[i].alias == ParkinsonColumns[i];
    }
    SameLookupsSameRecord(fs, q, p, true);
  }

  /**
   * A value sent under the internal name that fails its check is reported
   * under that name, the key the client used, not under the alias.
   */
  lemma ParkinsonErrorAtNameUsed(p: Payload, k: nat)
    requires k < 22 && ParkinsonColumns[k] !in p && ParkinsonNames[k] in p
    requires !IsNumber(p[ParkinsonNames[k]])
    ensures CheckField(ParkinsonInput.fields[k], p, true) == Failure(FieldError(ParkinsonNames[k], WrongType))
    ensures FieldError(ParkinsonNames[k], WrongType) in Validate(ParkinsonInput, p).error
  {
    ParkinsonFieldsAt();
    ErrorsAreTheFailures(ParkinsonInput.fields, p, true);
  }

  /** Dumping a Parkinson's record by alias yields exactly the 22 external column names, in order. */
  lemma ParkinsonDumpByAlias(rec: Record)
    requires HasFields(ParkinsonInput.fields, rec)
    ensures Columns(Dump(ParkinsonInput.fields, rec, true)) == ParkinsonColumns
    ensures |set c | c in Columns(Dump(ParkinsonInput.fields, rec, true))| == 22
  {
    var fs := ParkinsonInput.fields;
    ParkinsonFieldsAt();
    ParkinsonShape();
    ParkinsonKeysDistinct();
    DistinctSetSize(ParkinsonColumns);
  }
}
