/**
 * The strict validator of utils/utils.py: an unknown core raises
 * `ValueError` before anything else is looked at; each invalid field name is
 * a `UserWarning`.
 */
module Utils {
  import opened Wrappers
  import opened Values
  import opened Fields
  import Validators

  /** The verdict of `validate_core_and_fields` with the module-level table `table`. */
  function Validated(table: map<string, seq<string>>, values: Input): Verdict
  {
    if !IsCore(table, values.core) then Verdict(Err(InvalidCore(values.core)), [])
    else FieldCheck(values, table[values.core.s], Strict)
  }

  /** `CoreParamsValidator.validate_core_and_fields(values)`, its warnings in the order they are emitted. */
  method ValidateCoreAndFields(validationJson: map<string, seq<string>>, values: Input)
    returns (result: Result<Input, Error>, warnings: seq<Warning>)
    ensures Verdict(result, warnings) == Validated(validationJson, values)
  {
    warnings := [];
    if !(values.core.Str? && values.core.s in validationJson.Keys) {
      return Err(InvalidCore(values.core)), warnings;
    }
    if values.params.None? {
      return Err(NoAttribute("get")), warnings;
    }
    var fields := Get(values.params.value, "fl");
    if fields == Null {
      return Ok(values), warnings;
    }
    if !fields.Str? {
      return Err(NoAttribute("split")), warnings;
    }
    var fieldList := GetFields(fields.s);
    var accepted := if values.core.s in validationJson then validationJson[values.core.s] else [];
    var i := 0;
    while i < |fieldList|
      invariant 0 <= i <= |fieldList|
      invariant warnings == FieldWarnings(fieldList[..i], accepted, Strict)
    {
      FieldWarningsSnoc(fieldList[..i], fieldList[i], accepted, Strict);
      assert fieldList[..i + 1] == fieldList[..i] + [fieldList[i]];
      ghost var found := FieldWarnings(fieldList[..i], accepted, Strict);
      if fieldList[i] !in accepted {
        warnings := warnings + [UserWarning(fieldList[i])];
        assert warnings == found + [UserWarning(fieldList[i])];
      }
      i := i + 1;
    }
    assert fieldList[..i] == fieldList;
    result := Ok(values);
  }

  /** An unknown core raises at once: no warning, whatever the parameters hold. */
  lemma UnknownCoreRaises(table: map<string, seq<string>>, values: Input, other: Option<map<string, Value>>)
    requires !IsCore(table, values.core)
    ensures Validated(table, values) == Validated(table, values.(params := other))
            == Verdict(Err(InvalidCore(values.core)), [])
  {
  }

  /** For a known core without `fl`, `values` comes back with no warning. */
  lemma NoFieldsSkipped(table: map<string, seq<string>>, values: Input)
    requires IsCore(table, values.core)
    requires values.params.Some? && Get(values.params.value, "fl") == Null
    ensures Validated(table, values) == Verdict(Ok(values), [])
  {
  }

  /** For a known core, one `UserWarning` per name not listed for it, in order, none when all are listed; `values` comes back. */
  lemma KnownCoreFieldWarnings(table: map<string, seq<string>>, values: Input, fields: string)
    requires IsCore(table, values.core)
    requires values.params.Some? && Get(values.params.value, "fl") == Str(fields)
    ensures var v := Validated(table, values);
      && v.result == Ok(values)
      && v.warnings == FieldWarnings(GetFields(fields), table[values.core.s], Strict)
      && (v.warnings == [] <==> forall i :: 0 <= i < |GetFields(fields)| ==> GetFields(fields)[i] in table[values.core.s])
  {
    FieldWarningsNone(GetFields(fields), table[values.core.s], Strict);
  }

  /**
   * For a known core the two validators agree: same result, and a warning at
   * the same place for the same field name, only of another category.
   */
  lemma AgreesOnKnownCore(table: map<string, seq<string>>, values: Input)
    requires IsCore(table, values.core)
    ensures var strict := Validated(table, values);
      var lenient := Validators.Validated(table, values);
      && strict.result == lenient.result
      && |strict.warnings| == |lenient.warnings|
      && forall i :: 0 <= i < |strict.warnings| ==>
           strict.warnings[i].UserWarning? && lenient.warnings[i] == InvalidFieldWarning(strict.warnings[i].field)
  {
    if values.params.Some? && Get(values.params.value, "fl").Str? {
      SameNames(GetFields(Get(values.params.value, "fl").s), table[values.core.s]);
    }
  }

  /** The two policies warn about the same names at the same places. */
  lemma {:induction false} SameNames(names: seq<string>, valid: seq<string>)
    ensures |FieldWarnings(names, valid, Strict)| == |FieldWarnings(names, valid, Lenient)|
    ensures forall i :: 0 <= i < |FieldWarnings(names, valid, Strict)| ==>
      && FieldWarnings(names, valid, Strict)[i].UserWarning?
      && FieldWarnings(names, valid, Lenient)[i] == InvalidFieldWarning(FieldWarnings(names, valid, Strict)[i].field)
    decreases |names|
  {
    if names != [] {
      SameNames(names[..|names| - 1], valid);
    }
  }
}
