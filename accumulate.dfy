/**
 * `_batch_to_df`: fetch every page with `solr_request` and concatenate the
 * chunks in request order. The code is the same in both variants.
 */
module Accumulate {
  import opened Wrappers
  import opened Values
  import opened Endpoint
  import opened Query
  import opened Pagination

  /** `{**params, "start": offset, "rows": rows}`. */
  function BatchQuery(query: map<string, Value>, offset: int, rows: int): map<string, Value>
  {
    query["start" := Int(offset)]["rows" := Int(rows)]
  }

  /** The requests made and the chunks received, or the failure that ended the loop. */
  datatype Fetched = Fetched(log: seq<Request>, result: Result<seq<seq<Doc>>, Error>)

  /** The loop `while start < num_results`, one `solr_request` per offset. */
  function Chunks(respond: Request -> Response, core: string, query: map<string, Value>,
                  start: int, batchSize: int, numResults: nat): Fetched
    requires batchSize > 0
    decreases numResults - start
  {
    if start >= numResults then Fetched([], Ok([]))
    else
      var req := Request(core, BatchQuery(query, start, batchSize));
      match SolrAnswer(respond(req))
      case Err(e) => Fetched([req], Err(e))
      case Ok(answer) =>
        var rest := Chunks(respond, core, query, start + batchSize, batchSize, numResults);
        Fetched([req] + rest.log, match rest.result
                                  case Ok(chunks) => Ok([answer.docs] + chunks)
                                  case Err(e) => Err(e))
  }

  /** `pd.concat(chunks, ignore_index=True)`: all rows, chunk after chunk. */
  function Flatten(chunks: seq<seq<Doc>>): seq<Doc>
    decreases |chunks|
  {
    if chunks == [] then [] else Flatten(chunks[..|chunks| - 1]) + chunks[|chunks| - 1]
  }

  lemma FlattenSnoc(chunks: seq<seq<Doc>>, chunk: seq<Doc>)
    ensures Flatten(chunks + [chunk]) == Flatten(chunks) + chunk
  {
    assert (chunks + [chunk])[..|chunks|] == chunks;
  }

  /** A run that has already made `log` and collected `chunks` before the run `f`. */
  function After(log: seq<Request>, chunks: seq<seq<Doc>>, f: Fetched): Fetched
  {
    Fetched(log + f.log, match f.result
                         case Ok(cs) => Ok(chunks + cs)
                         case Err(e) => Err(e))
  }

  /** Moving one answered request of a run into what was already done. */
  lemma AfterStep(respond: Request -> Response, core: string, query: map<string, Value>,
                  start: int, batchSize: int, numResults: nat, log: seq<Request>, chunks: seq<seq<Doc>>)
    requires batchSize > 0 && start < numResults
    requires SolrAnswer(respond(Request(core, BatchQuery(query, start, batchSize)))).Ok?
    ensures var req := Request(core, BatchQuery(query, start, batchSize));
      After(log, chunks, Chunks(respond, core, query, start, batchSize, numResults))
      == After(log + [req], chunks + [respond(req).docs], Chunks(respond, core, query, start + batchSize, batchSize, numResults))
  {
    var req := Request(core, BatchQuery(query, start, batchSize));
    var rest := Chunks(respond, core, query, start + batchSize, batchSize, numResults);
    assert log + ([req] + rest.log) == (log + [req]) + rest.log;
    if rest.result.Ok? {
      assert chunks + ([respond(req).docs] + rest.result.value) == (chunks + [respond(req).docs]) + rest.result.value;
    }
  }

  /**
   * The requests are one per offset of the strict policy, in order, each with
   * that offset and `rows` equal to the page size; when every request
   * succeeds, there is one chunk per request holding that response's records.
   */
  lemma {:induction false} ChunksRequests(respond: Request -> Response, core: string, query: map<string, Value>,
                                          start: int, batchSize: int, numResults: nat)
    requires batchSize > 0
    ensures var f := Chunks(respond, core, query, start, batchSize, numResults);
      var os := Offsets(Strict, start, batchSize, numResults);
      && |f.log| <= |os|
      && (forall k :: 0 <= k < |f.log| ==> f.log[k] == Request(core, BatchQuery(query, os[k], batchSize)))
      && (f.result.Ok? ==> |f.log| == |os| == |f.result.value|)
      && (f.result.Ok? ==> forall k :: 0 <= k < |f.log| ==> f.result.value[k] == respond(f.log[k]).docs)
      && (f.result.Err? ==> f.log != [] && f.result.error == NotUnpackable && respond(f.log[|f.log| - 1]).status != SuccessStatus)
    decreases numResults - start
  {
    if start < numResults {
      var req := Request(core, BatchQuery(query, start, batchSize));
      if SolrAnswer(respond(req)).Ok? {
        ChunksRequests(respond, core, query, start + batchSize, batchSize, numResults);
        ChunksLogStep(respond, core, query, start, batchSize, numResults);
        ChunksResultStep(respond, core, query, start, batchSize, numResults);
      }
    }
  }

  /** The step of `ChunksRequests` past a first request that was answered: the requests. */
  lemma ChunksLogStep(respond: Request -> Response, core: string, query: map<string, Value>,
                      start: int, batchSize: int, numResults: nat)
    requires batchSize > 0 && start < numResults
    requires SolrAnswer(respond(Request(core, BatchQuery(query, start, batchSize)))).Ok?
    requires var f := Chunks(respond, core, query, start + batchSize, batchSize, numResults);
      var os := Offsets(Strict, start + batchSize, batchSize, numResults);
      && |f.log| <= |os|
      && (forall k :: 0 <= k < |f.log| ==> f.log[k] == Request(core, BatchQuery(query, os[k], batchSize)))
      && (f.result.Ok? ==> |f.log| == |os| == |f.result.value|)
    ensures var f := Chunks(respond, core, query, start, batchSize, numResults);
      var os := Offsets(Strict, start, batchSize, numResults);
      && |f.log| <= |os|
      && (forall k :: 0 <= k < |f.log| ==> f.log[k] == Request(core, BatchQuery(query, os[k], batchSize)))
      && (f.result.Ok? ==> |f.log| == |os| == |f.result.value|)
  {
    var f := Chunks(respond, core, query, start, batchSize, numResults);
    var rest := Chunks(respond, core, query, start + batchSize, batchSize, numResults);
    var os := Offsets(Strict, start, batchSize, numResults);
    var ros := Offsets(Strict, start + batchSize, batchSize, numResults);
    assert f.log == [Request(core, BatchQuery(query, start, batchSize))] + rest.log;
    assert os == [start] + ros;
    forall k | 0 <= k < |f.log|
      ensures f.log[k] == Request(core, BatchQuery(query, os[k], batchSize))
    {
      if k > 0 {
        assert f.log[k] == rest.log[k - 1] && os[k] == ros[k - 1];
      }
    }
  }

  /** The step of `ChunksRequests` past a first request that was answered: the chunks or the failure. */
  lemma ChunksResultStep(respond: Request -> Response, core: string, query: map<string, Value>,
                         start: int, batchSize: int, numResults: nat)
    requires batchSize > 0 && start < numResults
    requires SolrAnswer(respond(Request(core, BatchQuery(query, start, batchSize)))).Ok?
    requires var f := Chunks(respond, core, query, start + batchSize, batchSize, numResults);
      && (f.result.Ok? ==> |f.log| == |f.result.value|)
      && (f.result.Ok? ==> forall k :: 0 <= k < |f.log| ==> f.result.value[k] == respond(f.log[k]).docs)
      && (f.result.Err? ==> f.log != [] && f.result.error == NotUnpackable && respond(f.log[|f.log| - 1]).status != SuccessStatus)
    ensures var f := Chunks(respond, core, query, start, batchSize, numResults);
      && (f.result.Ok? ==> |f.log| == |f.result.value|)
      && (f.result.Ok? ==> forall k :: 0 <= k < |f.log| ==> f.result.value[k] == respond(f.log[k]).docs)
      && (f.result.Err? ==> f.log != [] && f.result.error == NotUnpackable && respond(f.log[|f.log| - 1]).status != SuccessStatus)
  {
    var req := Request(core, BatchQuery(query, start, batchSize));
    var f := Chunks(respond, core, query, start, batchSize, numResults);
    var rest := Chunks(respond, core, query, start + batchSize, batchSize, numResults);
    assert f.log == [req] + rest.log;
    if f.result.Ok? {
      assert f.result.value == [respond(req).docs] + rest.result.value;
      forall k | 0 <= k < |f.log|
        ensures f.result.value[k] == respond(f.log[k]).docs
      {
        if k > 0 {
          assert f.result.value[k] == rest.result.value[k - 1] && f.log[k] == rest.log[k - 1];
        }
      }
    } else {
      assert f.log[|f.log| - 1] == rest.log[|rest.log| - 1];
    }
  }

  /** From offset 0 a successful accumulation makes ceil(num / b) requests, none for an empty result. */
  lemma ChunkCount(respond: Request -> Response, core: string, query: map<string, Value>, batchSize: int, numResults: nat)
    requires batchSize > 0
    requires Chunks(respond, core, query, 0, batchSize, numResults).result.Ok?
    ensures var f := Chunks(respond, core, query, 0, batchSize, numResults);
      && |f.log| == (numResults + batchSize - 1) / batchSize
      && (numResults == 0 ==> f.log == [] && Flatten(f.result.value) == [])
      && (forall k :: 0 <= k < |f.log| ==> f.log[k] == Request(core, BatchQuery(query, k * batchSize, batchSize)))
  {
    ChunksRequests(respond, core, query, 0, batchSize, numResults);
    StrictOffsetsCount(0, batchSize, numResults);
    OffsetsAt(Strict, 0, batchSize, numResults);
    if numResults == 0 {
      DivUnique(batchSize - 1, batchSize, 0, batchSize - 1);
    }
  }

  /**
   * `_batch_to_df(core, params, num_results)`: forces `wt` to "json" in the
   * caller's dictionary, then requests the pages from `params["start"]` in
   * steps of `params["rows"]` and returns their rows in order.
   */
  method BatchToDf(server: Server, core: string, params: Params, numResults: nat) returns (r: Result<seq<Doc>, Error>)
    requires "start" in params.entries && params.entries["start"].Int?
    requires "rows" in params.entries && params.entries["rows"].Int? && params.entries["rows"].i > 0
    modifies server, params
    ensures params.entries == old(params.entries)["wt" := Str("json")]
    ensures var f := Chunks(server.respond, core, params.entries, old(params.entries)["start"].i,
                            old(params.entries)["rows"].i, numResults);
      && server.log == old(server.log) + f.log
      && r == match f.result
              case Ok(chunks) => Ok(Flatten(chunks))
              case Err(e) => Err(e)
  {
    var start := params.entries["start"].i;
    var batchSize := params.entries["rows"].i;
    var chunks: seq<seq<Doc>> := [];
    params.entries := params.entries["wt" := Str("json")];
    ghost var total := Chunks(server.respond, core, params.entries, start, batchSize, numResults);
    ghost var done: seq<Request> := [];
    assert [] + total.log == total.log;
    assert total.result.Ok? ==> [] + total.result.value == total.result.value;
    while start < numResults
      invariant params.entries == old(params.entries)["wt" := Str("json")]
      invariant server.log == old(server.log) + done
      invariant total == After(done, chunks, Chunks(server.respond, core, params.entries, start, batchSize, numResults))
      decreases numResults - start
    {
      var answer := SolrRequest(server, core, BatchQuery(params.entries, start, batchSize));
      ghost var req := Request(core, BatchQuery(params.entries, start, batchSize));
      if answer.Err? {
        assert total == After(done + [req], chunks, Fetched([], Err(answer.error)));
        return Err(answer.error);
      }
      AfterStep(server.respond, core, params.entries, start, batchSize, numResults, done, chunks);
      chunks := chunks + [answer.value.docs];
      done := done + [req];
      start := start + batchSize;
    }
    assert done + [] == done && chunks + [] == chunks;
    r := Ok(Flatten(chunks));
  }
}
