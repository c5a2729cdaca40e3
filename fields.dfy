/**
 * What the two core/field validators share: parsing the `fl` parameter into
 * field names, the warnings they emit, and the check of each name against
 * the fields known for a core.
 */
module Fields {
  import opened Wrappers
  import opened Strings
  import opened Values

  /** `get_fields(fields)`: the comma-separated `fl` value as a list of names. */
  function GetFields(fields: string): (names: seq<string>)
    ensures |names| >= 1
  {
    Split(fields, ',')
  }

  /** Nothing is lost or invented: the names joined with "," give the input, one name more than commas, none holds a comma. */
  lemma GetFieldsRoundTrip(fields: string)
    ensures Join(",", GetFields(fields)) == fields
    ensures |GetFields(fields)| == Count(fields, ',') + 1
    ensures forall i :: 0 <= i < |GetFields(fields)| ==> ',' !in GetFields(fields)[i]
  {
    SplitJoin(fields, ',');
    SplitCount(fields, ',');
    SplitPiecesFree(fields, ',');
  }

  /** And back: names without commas, joined with ",", parse into the same names. */
  lemma GetFieldsOfJoin(names: seq<string>)
    requires names != []
    requires forall i :: 0 <= i < |names| ==> ',' !in names[i]
    ensures GetFields(Join(",", names)) == names
  {
    JoinSplit(names, ',');
  }

  /** The `values` a validator receives: `values.get("core")`, and `values.get("params")` when that is a dictionary. */
  datatype Input = Input(core: Value, params: Option<map<string, Value>>)

  /** The warnings the validators emit, with their subject. */
  datatype Warning =
    | InvalidCoreWarning(core: Value)   // validators.py: unknown core, validation goes on
    | InvalidFieldWarning(field: string) // validators.py: unexpected field name
    | UserWarning(field: string)         // utils.py: invalid field

  /** Which validator is checking: validators.py warns on everything, utils.py raises on an unknown core. */
  datatype Policy = Lenient | Strict

  /** The warning a policy emits for a field it does not know. */
  function FieldWarning(policy: Policy, field: string): Warning
  {
    match policy
    case Lenient => InvalidFieldWarning(field)
    case Strict => UserWarning(field)
  }

  /** What a validator returns or raises, after the warnings it emitted. */
  datatype Verdict = Verdict(result: Result<Input, Error>, warnings: seq<Warning>)

  /** `core in validation_json.keys()`. */
  predicate IsCore(table: map<string, seq<string>>, core: Value)
  {
    core.Str? && core.s in table
  }

  /** `validation_json.get(core, [])`: the fields of a known core, none for any other. */
  function FieldsFor(table: map<string, seq<string>>, core: Value): (valid: seq<string>)
    ensures IsCore(table, core) ==> valid == table[core.s]
    ensures !IsCore(table, core) ==> valid == []
  {
    if IsCore(table, core) then table[core.s] else []
  }

  /** The warnings for one name: none when it is in `valid`, else one. */
  function Check(name: string, valid: seq<string>, policy: Policy): seq<Warning>
  {
    if name in valid then [] else [FieldWarning(policy, name)]
  }

  /** One warning per name not in `valid`, in the order of the names; known names give none. */
  function FieldWarnings(names: seq<string>, valid: seq<string>, policy: Policy): seq<Warning>
    decreases |names|
  {
    if names == [] then []
    else FieldWarnings(names[..|names| - 1], valid, policy) + Check(names[|names| - 1], valid, policy)
  }

  lemma FieldWarningsSnoc(names: seq<string>, name: string, valid: seq<string>, policy: Policy)
    ensures FieldWarnings(names + [name], valid, policy) == FieldWarnings(names, valid, policy) + Check(name, valid, policy)
  {
    assert (names + [name])[..|names|] == names;
  }

  /** The warnings for consecutive names are the warnings for each part, in order. */
  lemma {:induction false} FieldWarningsAppend(a: seq<string>, b: seq<string>, valid: seq<string>, policy: Policy)
    ensures FieldWarnings(a + b, valid, policy) == FieldWarnings(a, valid, policy) + FieldWarnings(b, valid, policy)
    decreases |b|
  {
    if b == [] {
      assert a + b == a;
    } else {
      FieldWarningsAppend(a, b[..|b| - 1], valid, policy);
      AppendStep(a, b, valid, policy);
    }
  }

  /** The step of `FieldWarningsAppend`: from all of `b` but its last name to all of `b`. */
  lemma AppendStep(a: seq<string>, b: seq<string>, valid: seq<string>, policy: Policy)
    requires b != []
    requires FieldWarnings(a + b[..|b| - 1], valid, policy)
          == FieldWarnings(a, valid, policy) + FieldWarnings(b[..|b| - 1], valid, policy)
    ensures FieldWarnings(a + b, valid, policy) == FieldWarnings(a, valid, policy) + FieldWarnings(b, valid, policy)
  {
    var init, last := b[..|b| - 1], b[|b| - 1];
    var before, middle, one := FieldWarnings(a, valid, policy), FieldWarnings(init, valid, policy), Check(last, valid, policy);
    calc {
      FieldWarnings(a + b, valid, policy);
      { Snoc(b); Assoc(a, init, [last]); }
      FieldWarnings((a + init) + [last], valid, policy);
      { FieldWarningsSnoc(a + init, last, valid, policy); }
      FieldWarnings(a + init, valid, policy) + one;
      (before + middle) + one;
      { Assoc(before, middle, one); }
      before + (middle + one);
      { FieldWarningsSnoc(init, last, valid, policy); Snoc(b); }
      before + FieldWarnings(b, valid, policy);
    }
  }

  /** No warning at all exactly when every name is known. */
  lemma {:induction false} FieldWarningsNone(names: seq<string>, valid: seq<string>, policy: Policy)
    ensures FieldWarnings(names, valid, policy) == [] <==> forall i :: 0 <= i < |names| ==> names[i] in valid
    decreases |names|
  {
    if names != [] {
      var init := names[..|names| - 1];
      FieldWarningsNone(init, valid, policy);
      if forall i :: 0 <= i < |names| ==> names[i] in valid {
        assert forall i :: 0 <= i < |init| ==> init[i] in valid by {
          forall i | 0 <= i < |init| ensures init[i] in valid {
            assert init[i] == names[i];
          }
        }
      } else if forall i :: 0 <= i < |init| ==> init[i] in valid {
        assert names[|names| - 1] !in valid by {
          forall i | 0 <= i < |names| - 1 ensures names[i] in valid {
            assert names[i] == init[i];
          }
        }
      }
    }
  }

  /** With no known fields every name warns, one warning per name, in order. */
  lemma {:induction false} FieldWarningsAll(names: seq<string>, policy: Policy)
    ensures |FieldWarnings(names, [], policy)| == |names|
    ensures forall i :: 0 <= i < |names| ==> FieldWarnings(names, [], policy)[i] == FieldWarning(policy, names[i])
    decreases |names|
  {
    if names != [] {
      FieldWarningsAll(names[..|names| - 1], policy);
    }
  }

  /**
   * What both validators do once the core is settled: `params.get("fl")`;
   * no `fl` returns `values`; a string is split and every unknown name
   * warned about, then `values` is returned; anything else has no `split`.
   */
  function FieldCheck(values: Input, valid: seq<string>, policy: Policy): Verdict
  {
    match values.params
    case None => Verdict(Err(NoAttribute("get")), [])
    case Some(params) =>
      match Get(params, "fl")
      case Null => Verdict(Ok(values), [])
      case Str(fields) => Verdict(Ok(values), FieldWarnings(GetFields(fields), valid, policy))
      case _ => Verdict(Err(NoAttribute("split")), [])
  }
}
