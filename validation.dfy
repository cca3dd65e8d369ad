/**
 * Validation of a JSON request body against a declarative record schema, as
 * the service's schema classes use it: every field is required, typed as
 * integer, real or a closed set of string literals, and optionally bounded
 * below (`ge`) and above (`le`). Validation is a total function from a JSON
 * object to either a record or the list of every offending field.
 */
module Validation {
  import opened Wrappers

  /** A JSON value as it arrives in a request body. */
  datatype Json = JInt(i: int) | JReal(r: real) | JStr(s: string) | JBool(b: bool) | JNull

  /** A JSON object: the request body before validation. */
  type Payload = map<string, Json>

  /** A validated record: internal field name to normalised value. */
  type Record = map<string, Json>

  /** One row of the data frame built from a record: column names in field order. */
  type Row = seq<(string, Json)>

  /** The declared type of a field: `int`, `float` or `Literal[...]`. */
  datatype Kind = IntKind | RealKind | LiteralKind(choices: seq<string>)

  /**
   * A field declaration `name: kind = Field(..., alias=alias, ge=ge, le=le)`.
   * A field without an alias has alias == name.
   */
  datatype Field = Field(name: string, alias: string, kind: Kind, ge: Option<real>, le: Option<real>)

  /** A model class: its fields in declaration order, and whether it sets `populate_by_name`. */
  datatype Schema = Schema(fields: seq<Field>, populateByName: bool)

  datatype ErrorKind = Missing | WrongType | TooSmall | TooLarge | NotAllowed

  /**
   * One validation error. `loc` is the alias for a missing field, and
   * otherwise the key the offending value was read from.
   */
  datatype FieldError = FieldError(loc: string, kind: ErrorKind)

  predicate IsNumber(v: Json) {
    v.JInt? || v.JReal?
  }

  function Number(v: Json): real
    requires IsNumber(v)
  {
    if v.JInt? then v.i as real else v.r
  }

  /** The value a payload supplies for a field: under its alias, else (when allowed) under its name. */
  function Lookup(f: Field, p: Payload, byName: bool): (r: Option<Json>)
    ensures r.Some? <==> f.alias in p || (byName && f.name in p)
    ensures f.alias in p ==> r == Some(p[f.alias])
    ensures f.alias !in p && byName && f.name in p ==> r == Some(p[f.name])
  {
    if f.alias in p then Some(p[f.alias])
    else if byName && f.name in p then Some(p[f.name])
    else None
  }

  /**
   * The key a supplied value was read from: the alias when present, otherwise
   * (only possible under `populate_by_name`) the internal name.
   */
  function KeyRead(f: Field, p: Payload): string {
    if f.alias in p then f.alias else f.name
  }

  predicate InBounds(f: Field, x: real) {
    (f.ge.None? || f.ge.value <= x) && (f.le.None? || x <= f.le.value)
  }

  /** The declarative reading of a field's constraints on a supplied value. */
  predicate Admissible(f: Field, v: Json) {
    match f.kind
    case IntKind => v.JInt? && InBounds(f, v.i as real)
    case RealKind => IsNumber(v) && InBounds(f, Number(v))
    case LiteralKind(choices) => v.JStr? && v.s in choices
  }

  /** The normalised value of an admissible input: a float field stores a real. */
  function Normalise(k: Kind, v: Json): Json
    requires k.RealKind? ==> IsNumber(v)
  {
    if k.RealKind? then JReal(Number(v)) else v
  }

  function CheckBounds(f: Field, loc: string, v: Json, x: real): Result<Json, FieldError> {
    if f.ge.Some? && x < f.ge.value then Failure(FieldError(loc, TooSmall))
    else if f.le.Some? && x > f.le.value then Failure(FieldError(loc, TooLarge))
    else Success(v)
  }

  /** Validation of one field: presence, then type, then the bounds. */
  function CheckField(f: Field, p: Payload, byName: bool): (r: Result<Json, FieldError>)
    ensures r.Success? <==> Lookup(f, p, byName).Some? && Admissible(f, Lookup(f, p, byName).value)
    ensures r.Success? ==> r.value == Normalise(f.kind, Lookup(f, p, byName).value)
    ensures r.Failure? ==> (r.error.kind == Missing <==> Lookup(f, p, byName).None?)
    ensures r.Failure? && r.error.kind == Missing ==> r.error.loc == f.alias
    ensures r.Failure? && r.error.kind != Missing ==> r.error.loc == KeyRead(f, p)
  {
    match Lookup(f, p, byName)
    case None => Failure(FieldError(f.alias, Missing))
    case Some(v) =>
      var loc := KeyRead(f, p);
      match f.kind
      case IntKind =>
        if v.JInt? then CheckBounds(f, loc, v, v.i as real) else Failure(FieldError(loc, WrongType))
      case RealKind =>
        if IsNumber(v) then CheckBounds(f, loc, JReal(Number(v)), Number(v))
        else Failure(FieldError(loc, WrongType))
      case LiteralKind(choices) =>
        if v.JStr? && v.s in choices then Success(v) else Failure(FieldError(loc, NotAllowed))
  }

  predicate DistinctNames(fs: seq<Field>) {
    forall i, j :: 0 <= i < j < |fs| ==> fs[i].name != fs[j].name
  }

  /** The set of internal names of a field list. */
  function Names(fs: seq<Field>): set<string> {
    set i | 0 <= i < |fs| :: fs[i].name
  }

  /**
   * Validation of a field list: every field is checked and every error is
   * kept, in field order; the record has one entry per field.
   */
  function ValidateFields(fs: seq<Field>, p: Payload, byName: bool): (r: Result<Record, seq<FieldError>>)
    ensures r.Success? <==> forall i :: 0 <= i < |fs| ==> CheckField(fs[i], p, byName).Success?
  {
    if fs == [] then Success(map[])
    else
      var rest := ValidateFields(fs[1..], p, byName);
      assert forall i :: 1 <= i < |fs| ==> fs[i] == fs[1..][i - 1];
      match (CheckField(fs[0], p, byName), rest)
      case (Success(v), Success(m)) => Success(m[fs[0].name := v])
      case (Success(_), Failure(es)) => Failure(es)
      case (Failure(e), Success(_)) => Failure([e])
      case (Failure(e), Failure(es)) => Failure([e] + es)
  }

  lemma NamesCons(fs: seq<Field>)
    requires fs != []
    ensures Names(fs) == {fs[0].name} + Names(fs[1..])
  {
    forall x | x in Names(fs) ensures x in {fs[0].name} + Names(fs[1..]) {
      var i :| 0 <= i < |fs| && fs[i].name == x;
      if i > 0 { assert fs[1..][i - 1].name == x; }
    }
  }

  /** A successful validation yields a record with exactly one key per field name. */
  lemma {:induction false} RecordKeys(fs: seq<Field>, p: Payload, byName: bool)
    requires ValidateFields(fs, p, byName).Success?
    ensures ValidateFields(fs, p, byName).value.Keys == Names(fs)
  {
    if fs != [] {
      NamesCons(fs);
      RecordKeys(fs[1..], p, byName);
    }
  }

  /** The record holds, under each field's name, the normalised value the payload supplied. */
  lemma {:induction false} RecordValue(fs: seq<Field>, p: Payload, byName: bool, k: nat)
    requires ValidateFields(fs, p, byName).Success? && DistinctNames(fs) && k < |fs|
    ensures Lookup(fs[k], p, byName).Some? && Admissible(fs[k], Lookup(fs[k], p, byName).value)
    ensures fs[k].name in ValidateFields(fs, p, byName).value
    ensures ValidateFields(fs, p, byName).value[fs[k].name] == Normalise(fs[k].kind, Lookup(fs[k], p, byName).value)
  {
    assert CheckField(fs[k], p, byName).Success?;
    RecordKeys(fs, p, byName);
    if k > 0 {
      assert fs[k] == fs[1..][k - 1];
      assert DistinctNames(fs[1..]) by {
        forall i, j | 0 <= i < j < |fs| - 1 ensures fs[1..][i].name != fs[1..][j].name {
          assert fs[1..][i] == fs[i + 1] && fs[1..][j] == fs[j + 1];
        }
      }
      RecordValue(fs[1..], p, byName, k - 1);
      assert fs[0].name != fs[k].name;
    }
  }

  /** A failed validation lists the error of every failing field, and nothing else. */
  lemma {:induction false} ErrorsAreTheFailures(fs: seq<Field>, p: Payload, byName: bool)
    requires ValidateFields(fs, p, byName).Failure?
    ensures forall e :: e in ValidateFields(fs, p, byName).error <==>
      exists i :: 0 <= i < |fs| && CheckField(fs[i], p, byName) == Failure(e)
  {
    var es := ValidateFields(fs, p, byName).error;
    var rest := ValidateFields(fs[1..], p, byName);
    assert forall i :: 1 <= i < |fs| ==> fs[i] == fs[1..][i - 1];
    if rest.Failure? {
      ErrorsAreTheFailures(fs[1..], p, byName);
    }
    forall e ensures e in es <==> exists i :: 0 <= i < |fs| && CheckField(fs[i], p, byName) == Failure(e) {
      if exists i :: 0 <= i < |fs| && CheckField(fs[i], p, byName) == Failure(e) {
        var i :| 0 <= i < |fs| && CheckField(fs[i], p, byName) == Failure(e);
        if i > 0 { assert CheckField(fs[1..][i - 1], p, byName) == Failure(e); }
      }
      if e in es && !(CheckField(fs[0], p, byName) == Failure(e)) {
        assert e in rest.error;
        var i :| 0 <= i < |fs| - 1 && CheckField(fs[1..][i], p, byName) == Failure(e);
        assert CheckField(fs[i + 1], p, byName) == Failure(e);
      }
    }
  }

  /**
   * A failed validation lists exactly one error per failing field, in field
   * order, and nothing for the fields that pass.
   */
  lemma {:induction false} ErrorsInFieldOrder(fs: seq<Field>, p: Payload, byName: bool)
    requires ValidateFields(fs, p, byName).Failure?
    ensures ValidateFields(fs, p, byName).error == Failures(fs, p, byName)
  {
    var rest := ValidateFields(fs[1..], p, byName);
    if rest.Failure? {
      ErrorsInFieldOrder(fs[1..], p, byName);
    } else {
      FailuresOfAccepted(fs[1..], p, byName);
    }
  }

  /** A failed validation lists at least one error. */
  lemma FailureListsAnError(fs: seq<Field>, p: Payload, byName: bool)
    requires ValidateFields(fs, p, byName).Failure?
    ensures ValidateFields(fs, p, byName).error != []
  {
    var i :| 0 <= i < |fs| && CheckField(fs[i], p, byName).Failure?;
    ErrorsAreTheFailures(fs, p, byName);
    assert CheckField(fs[i], p, byName).error in ValidateFields(fs, p, byName).error;
  }

  /** An accepted field list has no failures. */
  lemma {:induction false} FailuresOfAccepted(fs: seq<Field>, p: Payload, byName: bool)
    requires ValidateFields(fs, p, byName).Success?
    ensures Failures(fs, p, byName) == []
  {
    if fs != [] {
      assert CheckField(fs[0], p, byName).Success?;
      assert ValidateFields(fs[1..], p, byName).Success?;
      FailuresOfAccepted(fs[1..], p, byName);
    }
  }

  /** `Model.model_validate(payload)`: the record, or every error found. */
  function Validate(s: Schema, p: Payload): (r: Result<Record, seq<FieldError>>)
    ensures r.Success? <==> Failures(s.fields, p, s.populateByName) == []
    ensures r.Success? ==> r.value.Keys == Names(s.fields)
    ensures r.Failure? ==> r.error == Failures(s.fields, p, s.populateByName)
  {
    var r := ValidateFields(s.fields, p, s.populateByName);
    if r.Success? then
      RecordKeys(s.fields, p, s.populateByName);
      FailuresOfAccepted(s.fields, p, s.populateByName);
      r
    else
      ErrorsInFieldOrder(s.fields, p, s.populateByName);
      FailureListsAnError(s.fields, p, s.populateByName);
      r
  }

  /** The record has an entry for every field. */
  predicate HasFields(fs: seq<Field>, rec: Record) {
    forall i :: 0 <= i < |fs| ==> fs[i].name in rec
  }

  /**
   * `model_dump()` (by name) or `model_dump(by_alias=True)`, as the one data
   * frame row the endpoints build from it.
   */
  function Dump(fs: seq<Field>, rec: Record, byAlias: bool): (row: Row)
    requires HasFields(fs, rec)
    ensures |row| == |fs|
    ensures Columns(row) == if byAlias then Aliases(fs) else FieldNames(fs)
    ensures forall i :: 0 <= i < |fs| ==> row[i].1 == rec[fs[i].name]
  {
    seq(|fs|, i requires 0 <= i < |fs| => (if byAlias then fs[i].alias else fs[i].name, rec[fs[i].name]))
  }

  function Columns(row: Row): seq<string> {
    seq(|row|, i requires 0 <= i < |row| => row[i].0)
  }

  function Aliases(fs: seq<Field>): seq<string> {
    seq(|fs|, i requires 0 <= i < |fs| => fs[i].alias)
  }

  function FieldNames(fs: seq<Field>): seq<string> {
    seq(|fs|, i requires 0 <= i < |fs| => fs[i].name)
  }

  /** The errors of the failing fields, one per failing field, in field order. */
  function Failures(fs: seq<Field>, p: Payload, byName: bool): seq<FieldError>
  {
    if fs == [] then []
    else
      (match CheckField(fs[0], p, byName)
       case Failure(e) => [e]
       case Success(_) => [])
      + Failures(fs[1..], p, byName)
  }

  // ---------------------------------------------------------------------------
  // Properties of the generic validator
  // ---------------------------------------------------------------------------

  /** A missing field is reported, under its alias, as missing. */
  lemma MissingFieldReported(s: Schema, p: Payload, k: nat)
    requires k < |s.fields|
    requires s.fields[k].alias !in p
    requires !(s.populateByName && s.fields[k].name in p)
    ensures Validate(s, p).Failure?
    ensures FieldError(s.fields[k].alias, Missing) in Validate(s, p).error
  {
    assert CheckField(s.fields[k], p, s.populateByName) == Failure(FieldError(s.fields[k].alias, Missing));
    ErrorsAreTheFailures(s.fields, p, s.populateByName);
  }

  /** When one field fails and every other checks, the error list is exactly that field's error. */
  lemma {:induction false} SoleFailure(fs: seq<Field>, p: Payload, byName: bool, k: nat, e: FieldError)
    requires k < |fs|
    requires CheckField(fs[k], p, byName) == Failure(e)
    requires forall j :: 0 <= j < |fs| && j != k ==> CheckField(fs[j], p, byName).Success?
    ensures ValidateFields(fs, p, byName) == Failure([e])
  {
    if k == 0 {
      assert forall j :: 0 <= j < |fs| - 1 ==> fs[1..][j] == fs[j + 1];
      assert ValidateFields(fs[1..], p, byName).Success?;
    } else {
      assert forall j :: 0 <= j < |fs| - 1 ==> fs[1..][j] == fs[j + 1];
      SoleFailure(fs[1..], p, byName, k - 1, e);
      assert CheckField(fs[0], p, byName).Success?;
    }
  }

  /** A payload missing exactly one required field is rejected with exactly that field listed. */
  lemma OnlyMissingFieldListed(s: Schema, p: Payload, k: nat)
    requires k < |s.fields|
    requires s.fields[k].alias !in p
    requires !(s.populateByName && s.fields[k].name in p)
    requires forall j :: 0 <= j < |s.fields| && j != k ==> CheckField(s.fields[j], p, s.populateByName).Success?
    ensures Validate(s, p) == Failure([FieldError(s.fields[k].alias, Missing)])
  {
    SoleFailure(s.fields, p, s.populateByName, k, FieldError(s.fields[k].alias, Missing));
  }

  /** Unknown extra keys are ignored, not rejected. */
  lemma {:induction false} ExtraKeyIgnored(fs: seq<Field>, p: Payload, byName: bool, key: string, v: Json)
    requires forall i :: 0 <= i < |fs| ==> key != fs[i].alias && key != fs[i].name
    ensures ValidateFields(fs, p[key := v], byName) == ValidateFields(fs, p, byName)
  {
    if fs != [] {
      assert CheckField(fs[0], p[key := v], byName) == CheckField(fs[0], p, byName);
      assert forall j :: 0 <= j < |fs| - 1 ==> fs[1..][j] == fs[j + 1];
      ExtraKeyIgnored(fs[1..], p, byName, key, v);
    }
  }

  /**
   * Acceptance and the record depend on a payload only through the values it
   * supplies for the fields.
   */
  lemma {:induction false} SameLookupsSameRecord(fs: seq<Field>, p: Payload, q: Payload, byName: bool)
    requires forall i :: 0 <= i < |fs| ==> Lookup(fs[i], p, byName) == Lookup(fs[i], q, byName)
    ensures ValidateFields(fs, p, byName).Success? <==> ValidateFields(fs, q, byName).Success?
    ensures ValidateFields(fs, p, byName).Success? ==> ValidateFields(fs, p, byName).value == ValidateFields(fs, q, byName).value
  {
    if fs != [] {
      assert CheckField(fs[0], p, byName).Success? <==> CheckField(fs[0], q, byName).Success?;
      assert CheckField(fs[0], p, byName).Success? ==> CheckField(fs[0], p, byName).value == CheckField(fs[0], q, byName).value;
      assert forall j :: 0 <= j < |fs| - 1 ==> fs[1..][j] == fs[j + 1];
      SameLookupsSameRecord(fs[1..], p, q, byName);
    }
  }

  /**
   * The whole result, errors included, depends on a payload only through the
   * values it supplies for the fields and whether each was found under its
   * alias.
   */
  lemma {:induction false} SameLookupsSameResult(fs: seq<Field>, p: Payload, q: Payload, byName: bool)
    requires forall i :: 0 <= i < |fs| ==> Lookup(fs[i], p, byName) == Lookup(fs[i], q, byName)
    requires forall i :: 0 <= i < |fs| ==> (fs[i].alias in p <==> fs[i].alias in q)
    ensures ValidateFields(fs, p, byName) == ValidateFields(fs, q, byName)
  {
    if fs != [] {
      assert CheckField(fs[0], p, byName) == CheckField(fs[0], q, byName);
      assert forall j :: 0 <= j < |fs| - 1 ==> fs[1..][j] == fs[j + 1];
      SameLookupsSameResult(fs[1..], p, q, byName);
    }
  }

  /** A sequence without repetitions has as many distinct elements as positions. */
  lemma {:induction false} DistinctSetSize(s: seq<string>)
    requires forall i, j :: 0 <= i < j < |s| ==> s[i] != s[j]
    ensures |set c | c in s| == |s|
  {
    if s != [] {
      DistinctSetSize(s[1..]);
      assert (set c | c in s) == {s[0]} + (set c | c in s[1..]);
      assert s[0] !in (set c | c in s[1..]);
    }
  }

  /** No key of one field (alias or name) is a key of another field. */
  predicate SeparateKeys(fs: seq<Field>) {
    forall i, j :: 0 <= i < |fs| && 0 <= j < |fs| && i != j ==>
      fs[i].alias != fs[j].alias && fs[i].alias != fs[j].name && fs[i].name != fs[j].name
  }

  /**
   * Dropping one field from an accepted payload makes validation fail with
   * exactly that field listed as missing.
   */
  lemma DroppedFieldListed(s: Schema, p: Payload, k: nat)
    requires Validate(s, p).Success? && SeparateKeys(s.fields) && k < |s.fields|
    ensures Validate(s, p - {s.fields[k].alias, s.fields[k].name})
         == Failure([FieldError(s.fields[k].alias, Missing)])
  {
    var fs, b := s.fields, s.populateByName;
    var q := p - {fs[k].alias, fs[k].name};
    forall j | 0 <= j < |fs| && j != k ensures CheckField(fs[j], q, b).Success? {
      assert Lookup(fs[j], q, b) == Lookup(fs[j], p, b);
    }
    OnlyMissingFieldListed(s, q, k);
  }
}
