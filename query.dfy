/**
 * Preparing the caller's parameter dictionary for a batch request: paging
 * keys, the default format, the multi-value filter, and the count probe's
 * query. The code is the same in both batch_solr_request variants.
 */
module Query {
  import opened Wrappers
  import opened Strings
  import opened Values

  /** The caller's `params` dictionary, which the engine changes in place. */
  class Params {
    var entries: map<string, Value>

    constructor (entries: map<string, Value>)
      ensures this.entries == entries
    {
      this.entries := entries;
    }
  }

  /** The dictionary after normalisation, and the exception that cut it short, if any. */
  datatype Normalisation = Normalisation(params: map<string, Value>, error: Option<Error>)

  /** `"{}:({})".format(field_type, " OR ".join(values))`. */
  function FilterClause(fieldType: string, values: seq<string>): string
  {
    fieldType + ":(" + Join(" OR ", values) + ")"
  }

  /**
   * `["{}".format(x) for x in v]`: a list gives its elements' `str`, a string
   * its characters; anything else is not iterable.
   */
  function Elements(v: Value): (r: Option<seq<string>>)
    ensures r.None? <==> v.Null? || v.Int?
    ensures v.List? ==> r == Some(seq(|v.items|, k requires 0 <= k < |v.items| => Render(v.items[k])))
    ensures v.Str? ==> r.Some? && |r.value| == |v.s| && forall k :: 0 <= k < |v.s| ==> r.value[k] == [v.s[k]]
  {
    match v
    case List(items) => Some(seq(|items|, k requires 0 <= k < |items| => Render(items[k])))
    case Str(s) => Some(seq(|s|, k requires 0 <= k < |s| => [s[k]]))
    case _ => None
  }

  /** What normalising `m` for pages of `batchSize` leaves in the dictionary. */
  function Normalised(m: map<string, Value>, batchSize: int): Normalisation
  {
    var paged := m["start" := Int(0)]["rows" := Int(batchSize)];
    var typed := if Get(paged, "wt") == Null then paged["wt" := Str("json")] else paged;
    if Get(typed, "field_list") == Null then Normalisation(typed, None)
    else
      var values := typed["field_list"];
      var popped := typed - {"field_list"};
      if "field_type" !in popped then Normalisation(popped, Some(KeyError("field_type")))
      else
        var fieldType := popped["field_type"];
        var stripped := popped - {"field_type"};
        match Elements(values)
        case None => Normalisation(stripped, Some(NotIterable))
        case Some(items) => Normalisation(stripped["fq" := Str(FilterClause(Render(fieldType), items))], None)
  }

  /** The opening steps of `batch_solr_request`, applied to the caller's dictionary. */
  method Normalise(params: Params, batchSize: int) returns (error: Option<Error>)
    modifies params
    ensures params.entries == Normalised(old(params.entries), batchSize).params
    ensures error == Normalised(old(params.entries), batchSize).error
  {
    params.entries := params.entries["start" := Int(0)];
    params.entries := params.entries["rows" := Int(batchSize)];
    if Get(params.entries, "wt") == Null {
      params.entries := params.entries["wt" := Str("json")];
    }
    error := None;
    if Get(params.entries, "field_list") != Null {
      var values := params.entries["field_list"];
      params.entries := params.entries - {"field_list"};
      if "field_type" !in params.entries {
        error := Some(KeyError("field_type"));
        return;
      }
      var fieldType := params.entries["field_type"];
      params.entries := params.entries - {"field_type"};
      var items := Elements(values);
      if items.None? {
        error := Some(NotIterable);
        return;
      }
      params.entries := params.entries["fq" := Str(FilterClause(Render(fieldType), items.value))];
    }
  }

  /** The keys normalisation may touch. */
  const Managed: set<string> := {"start", "rows", "wt", "fq", "field_list", "field_type"}

  /** Paging is forced and the format defaulted, whatever happens to the filter. */
  lemma NormalisedPaging(m: map<string, Value>, batchSize: int)
    ensures var r := Normalised(m, batchSize).params;
      && Get(r, "start") == Int(0)
      && Get(r, "rows") == Int(batchSize)
      && Get(r, "wt") == (if Get(m, "wt") == Null then Str("json") else m["wt"])
  {
  }

  /** A well-formed multi-value filter becomes one OR clause and its raw keys go. */
  lemma NormalisedFilter(m: map<string, Value>, batchSize: int)
    requires Get(m, "field_list") != Null && "field_type" in m
    requires Elements(m["field_list"]).Some?
    ensures var n := Normalised(m, batchSize);
      && n.error == None
      && Get(n.params, "fq") == Str(FilterClause(Render(m["field_type"]), Elements(m["field_list"]).value))
      && "field_list" !in n.params && "field_type" !in n.params
  {
  }

  /** Without a filter nothing but paging and format changes. */
  lemma NormalisedWithoutFilter(m: map<string, Value>, batchSize: int)
    requires Get(m, "field_list") == Null
    ensures var n := Normalised(m, batchSize);
      && n.error == None
      && forall k :: k !in {"start", "rows", "wt"} ==> (k in n.params <==> k in m) && (k in m ==> n.params[k] == m[k])
  {
  }

  /** `field_list` without `field_type`: KeyError, after `field_list` was already popped. */
  lemma NormalisedMissingType(m: map<string, Value>, batchSize: int)
    requires Get(m, "field_list") != Null && "field_type" !in m
    ensures var n := Normalised(m, batchSize);
      && n.error == Some(KeyError("field_type"))
      && "field_list" !in n.params
  {
  }

  /** Keys other than the managed ones are never touched. */
  lemma NormalisedKeepsOthers(m: map<string, Value>, batchSize: int, k: string)
    requires k !in Managed
    ensures (k in Normalised(m, batchSize).params <==> k in m)
    ensures k in m ==> Normalised(m, batchSize).params[k] == m[k]
  {
  }

  /** The filter in the iterator variant's test: `fruits:("orange" OR apple OR *berry)`. */
  lemma FruitsFilter(m: map<string, Value>)
    requires Get(m, "field_type") == Str("fruits")
    requires Get(m, "field_list") == List([Str("\"orange\""), Str("apple"), Str("*berry")])
    ensures var n := Normalised(m, 5000);
      && n.error == None
      && Get(n.params, "fq") == Str("fruits" + ":(" + ("\"orange\"" + " OR " + "apple" + " OR " + "*berry") + ")")
      && "field_list" !in n.params && "field_type" !in n.params
  {
    var names := ["\"orange\"", "apple", "*berry"];
    assert Elements(m["field_list"]).value == names;
    assert names[..2] == ["\"orange\"", "apple"] && names[..2][..1] == ["\"orange\""];
    assert Join(" OR ", names[..2]) == "\"orange\"" + " OR " + "apple";
    assert Join(" OR ", names) == "\"orange\"" + " OR " + "apple" + " OR " + "*berry";
    NormalisedFilter(m, 5000);
  }

  /** The clause of the multi-value filter example: `marker_symbol:(A OR B)`. */
  lemma MarkerSymbolFilter(m: map<string, Value>, batchSize: int)
    requires Get(m, "field_type") == Str("marker_symbol")
    requires Get(m, "field_list") == List([Str("A"), Str("B")])
    ensures var n := Normalised(m, batchSize);
      && n.error == None
      && Get(n.params, "fq") == Str("marker_symbol:(A OR B)")
      && "field_list" !in n.params && "field_type" !in n.params
  {
    assert Elements(m["field_list"]).value == ["A", "B"];
    assert Join(" OR ", ["A", "B"]) == "A OR B";
    assert "marker_symbol" + ":(" + "A OR B" + ")" == "marker_symbol:(A OR B)";
    NormalisedFilter(m, batchSize);
  }

  /** The count probe's query: the caller's parameters with zero rows from offset 0, as JSON. */
  function ProbeQuery(m: map<string, Value>): (q: map<string, Value>)
    ensures q.Keys == m.Keys + {"start", "rows", "wt"}
    ensures q["start"] == Int(0) && q["rows"] == Int(0) && q["wt"] == Str("json")
    ensures forall k :: k in m && k !in {"start", "rows", "wt"} ==> q[k] == m[k]
  {
    m["start" := Int(0)]["rows" := Int(0)]["wt" := Str("json")]
  }
}
