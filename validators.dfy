/**
 * The warn-only validator of utils/validators.py: an unknown core and every
 * unexpected field name are reported as warnings, and `values` is returned
 * as it came.
 */
module Validators {
  import opened Wrappers
  import opened Values
  import opened Fields

  /** The table of cores and their fields, loaded when the object is created. */
  class ValidationJson {
    var validationJson: map<string, seq<string>>

    /** `ValidationJson()`: `__post_init__` loads the table; `loaded` is what the file holds. */
    constructor (loaded: map<string, seq<string>>)
      ensures validationJson == loaded
    {
      validationJson := loaded;
    }

    /** `valid_cores()`: the table's keys. */
    function ValidCores(): (cores: set<string>)
      reads this
      ensures forall c :: c in cores <==> c in validationJson
    {
      validationJson.Keys
    }

    /** `valid_fields(core)`: the fields listed for a known core, none for any other. */
    function ValidFields(core: Value): (fields: seq<string>)
      reads this
      ensures fields == FieldsFor(validationJson, core)
    {
      if core.Str? && core.s in validationJson then validationJson[core.s] else []
    }
  }

  /** The verdict of `validate_core_and_fields` with the table `table`: a warning for an unknown core, then the field check. */
  function Validated(table: map<string, seq<string>>, values: Input): Verdict
  {
    var check := FieldCheck(values, FieldsFor(table, values.core), Lenient);
    var coreWarnings := if IsCore(table, values.core) then [] else [InvalidCoreWarning(values.core)];
    Verdict(check.result, coreWarnings + check.warnings)
  }

  /** `CoreParamsValidator.validate_core_and_fields(values)`, its warnings in the order they are emitted. */
  method ValidateCoreAndFields(loaded: map<string, seq<string>>, values: Input)
    returns (result: Result<Input, Error>, warnings: seq<Warning>)
    ensures Verdict(result, warnings) == Validated(loaded, values)
  {
    var jv := new ValidationJson(loaded);
    warnings := [];
    if !(values.core.Str? && values.core.s in jv.ValidCores()) {
      warnings := warnings + [InvalidCoreWarning(values.core)];
    }
    assert warnings + [] == warnings;
    if values.params.None? {
      return Err(NoAttribute("get")), warnings;
    }
    var fields := Get(values.params.value, "fl");
    if fields == Null {
      return Ok(values), warnings;
    }
    if !fields.Str? {
      return Err(NoAttribute("split")), warnings;
    }
    var fieldList := GetFields(fields.s);
    var found := WarnFields(jv, values.core, fieldList);
    warnings := warnings + found;
    result := Ok(values);
  }

  /** `for fl in field_list`: an `InvalidFieldWarning` for each name `jv` does not list for `core`. */
  method WarnFields(jv: ValidationJson, core: Value, fieldList: seq<string>) returns (found: seq<Warning>)
    ensures found == FieldWarnings(fieldList, FieldsFor(jv.validationJson, core), Lenient)
  {
    found := [];
    var i := 0;
    while i < |fieldList|
      invariant 0 <= i <= |fieldList|
      invariant found == FieldWarnings(fieldList[..i], FieldsFor(jv.validationJson, core), Lenient)
    {
      FieldWarningsSnoc(fieldList[..i], fieldList[i], FieldsFor(jv.validationJson, core), Lenient);
      assert fieldList[..i + 1] == fieldList[..i] + [fieldList[i]];
      if fieldList[i] !in jv.ValidFields(core) {
        found := found + [InvalidFieldWarning(fieldList[i])];
      }
      i := i + 1;
    }
    assert fieldList[..i] == fieldList;
  }

  /** Whenever it returns, it returns `values` itself. */
  lemma ReturnsValues(table: map<string, seq<string>>, values: Input)
    ensures Validated(table, values).result.Ok? ==> Validated(table, values).result.value == values
    ensures Validated(table, values).result.Ok? <==>
      values.params.Some? && (Get(values.params.value, "fl").Null? || Get(values.params.value, "fl").Str?)
  {
  }

  /** An unknown core is one warning, first; validation goes on and every listed field warns. */
  lemma UnknownCoreWarns(table: map<string, seq<string>>, values: Input, fields: string)
    requires !IsCore(table, values.core)
    requires values.params.Some? && Get(values.params.value, "fl") == Str(fields)
    ensures var v := Validated(table, values);
      && v.result == Ok(values)
      && |v.warnings| == 1 + |GetFields(fields)|
      && v.warnings[0] == InvalidCoreWarning(values.core)
      && forall i :: 1 <= i < |v.warnings| ==> v.warnings[i] == InvalidFieldWarning(GetFields(fields)[i - 1])
  {
    FieldWarningsAll(GetFields(fields), Lenient);
  }

  /** Without `fl` the fields are not checked: `values` comes back, with at most the core warning. */
  lemma NoFieldsSkipped(table: map<string, seq<string>>, values: Input)
    requires values.params.Some? && Get(values.params.value, "fl") == Null
    ensures Validated(table, values) ==
      Verdict(Ok(values), if IsCore(table, values.core) then [] else [InvalidCoreWarning(values.core)])
  {
  }

  /**
   * For a known core the warnings are one `InvalidFieldWarning` per name not
   * listed for the core, in order, and none when every name is listed.
   */
  lemma KnownCoreFieldWarnings(table: map<string, seq<string>>, values: Input, fields: string)
    requires IsCore(table, values.core)
    requires values.params.Some? && Get(values.params.value, "fl") == Str(fields)
    ensures var v := Validated(table, values);
      && v.result == Ok(values)
      && v.warnings == FieldWarnings(GetFields(fields), table[values.core.s], Lenient)
      && (v.warnings == [] <==> forall i :: 0 <= i < |GetFields(fields)| ==> GetFields(fields)[i] in table[values.core.s])
  {
    FieldWarningsNone(GetFields(fields), table[values.core.s], Lenient);
  }
}
