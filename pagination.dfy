/**
 * `_batch_solr_generator`: a lazy, single-pass sequence of pages, one
 * request per offset 0, b, 2b, ... The two variants differ only in when they
 * stop: batch_solr_request.py goes on while `start <= num_results`
 * (Inclusive), iterator_solr_request_2.py while `start < num_results` (Strict).
 */
module Pagination {
  import opened Wrappers
  import opened Values
  import opened Endpoint
  import opened Query

  datatype Bound = Inclusive | Strict

  /** The loop condition of the paginator. */
  predicate InBounds(bound: Bound, offset: int, numResults: nat)
  {
    match bound
    case Inclusive => offset <= numResults
    case Strict => offset < numResults
  }

  /** The offsets visited from `start` in steps of `batchSize`. */
  function Offsets(bound: Bound, start: int, batchSize: int, numResults: nat): seq<int>
    requires batchSize > 0
    decreases numResults - start + 1
  {
    if InBounds(bound, start, numResults) then [start] + Offsets(bound, start + batchSize, batchSize, numResults)
    else []
  }

  /** The k-th offset is `start + k * batchSize`, and every one of them is within bounds. */
  lemma {:induction false} OffsetsAt(bound: Bound, start: int, batchSize: int, numResults: nat)
    requires batchSize > 0
    ensures forall k :: 0 <= k < |Offsets(bound, start, batchSize, numResults)| ==>
      && Offsets(bound, start, batchSize, numResults)[k] == start + k * batchSize
      && InBounds(bound, Offsets(bound, start, batchSize, numResults)[k], numResults)
    decreases numResults - start + 1
  {
    if InBounds(bound, start, numResults) {
      OffsetsAt(bound, start + batchSize, batchSize, numResults);
      var os := Offsets(bound, start, batchSize, numResults);
      var rest := Offsets(bound, start + batchSize, batchSize, numResults);
      assert os == [start] + rest;
      forall k | 0 <= k < |os|
        ensures os[k] == start + k * batchSize && InBounds(bound, os[k], numResults)
      {
        if k > 0 {
          assert os[k] == rest[k - 1];
          assert rest[k - 1] == (start + batchSize) + (k - 1) * batchSize;
          assert (k - 1) * batchSize + batchSize == k * batchSize;
        }
      }
    }
  }

  /** The first offset past the last visited one is out of bounds: nothing is skipped at the end. */
  lemma {:induction false} OffsetsEnd(bound: Bound, start: int, batchSize: int, numResults: nat)
    requires batchSize > 0
    ensures !InBounds(bound, start + |Offsets(bound, start, batchSize, numResults)| * batchSize, numResults)
    decreases numResults - start + 1
  {
    if InBounds(bound, start, numResults) {
      var n := |Offsets(bound, start + batchSize, batchSize, numResults)|;
      OffsetsEnd(bound, start + batchSize, batchSize, numResults);
      assert start + batchSize + n * batchSize == start + (n + 1) * batchSize;
    }
  }

  lemma MulBound(t: int, d: int)
    requires d > 0
    ensures t >= 1 ==> t * d >= d
    ensures t <= -1 ==> t * d <= -d
  {
    if t >= 1 {
      assert t * d - d == (t - 1) * d;
    }
    if t <= -1 {
      assert t * d + d == (t + 1) * d;
    }
  }

  /** Euclidean division by a positive divisor is determined by quotient and remainder. */
  lemma DivUnique(n: int, d: int, q: int, r: int)
    requires d > 0 && 0 <= r < d && n == q * d + r
    ensures n / d == q
  {
    var q' := n / d;
    var r' := n % d;
    assert n == q' * d + r';
    assert (q - q') * d == r' - r;
    MulBound(q - q', d);
  }

  lemma DivShift(x: int, d: int)
    requires d > 0
    ensures (x + d) / d == x / d + 1
  {
    DivUnique(x + d, d, x / d + 1, x % d);
  }

  /** The strict policy visits ceil((num - start) / b) offsets. */
  lemma {:induction false} StrictOffsetsCount(start: int, batchSize: int, numResults: nat)
    requires batchSize > 0
    ensures |Offsets(Strict, start, batchSize, numResults)|
         == if start < numResults then (numResults - start + batchSize - 1) / batchSize else 0
    decreases numResults - start + 1
  {
    if start < numResults {
      StrictOffsetsCount(start + batchSize, batchSize, numResults);
      var x := numResults - start - 1;
      DivShift(x, batchSize);
      if start + batchSize >= numResults {
        DivUnique(x, batchSize, 0, x);
      }
    }
  }

  /** The inclusive policy visits floor((num - start) / b) + 1 offsets. */
  lemma {:induction false} InclusiveOffsetsCount(start: int, batchSize: int, numResults: nat)
    requires batchSize > 0
    ensures |Offsets(Inclusive, start, batchSize, numResults)|
         == if start <= numResults then (numResults - start) / batchSize + 1 else 0
    decreases numResults - start + 1
  {
    if start <= numResults {
      InclusiveOffsetsCount(start + batchSize, batchSize, numResults);
      var x := numResults - start - batchSize;
      DivShift(x, batchSize);
      if start + batchSize > numResults {
        DivUnique(numResults - start, batchSize, 0, numResults - start);
      }
    }
  }

  /** How a paginator ended: the loop ran out, or an exception was raised. */
  datatype End = Exhausted | Raised(error: Error)

  /** Everything a paginator does until it ends: its requests, the pages it yields, how it ends. */
  datatype Stream = Stream(log: seq<Request>, pages: seq<Page>, end: End)

  /**
   * The run of a paginator at offset `start`. Each step sends the dictionary
   * with `start` overwritten; a failed response ends the run with an error.
   * `fetched` says whether some earlier step already bound `response`: the
   * inclusive variant prints `response.url` after its loop and raises when
   * the loop never ran.
   */
  function Run(respond: Request -> Response, core: string, query: map<string, Value>, bound: Bound,
               start: int, batchSize: int, numResults: nat, fetched: bool): Stream
    requires batchSize > 0
    decreases numResults - start + 1
  {
    if !InBounds(bound, start, numResults) then
      Stream([], [], if bound == Inclusive && !fetched then Raised(UnboundResponse) else Exhausted)
    else
      var req := Request(core, query["start" := Int(start)]);
      match PageOf(respond(req), req.query)
      case Err(e) => Stream([req], [], Raised(e))
      case Ok(page) =>
        var rest := Run(respond, core, query, bound, start + batchSize, batchSize, numResults, true);
        Stream([req] + rest.log, [page] + rest.pages, rest.end)
  }

  /** The value the dictionary holds under `start` does not matter to a run. */
  lemma RunIgnoresStart(respond: Request -> Response, core: string, query: map<string, Value>, v: Value, bound: Bound,
                        start: int, batchSize: int, numResults: nat, fetched: bool)
    requires batchSize > 0
    ensures Run(respond, core, query["start" := v], bound, start, batchSize, numResults, fetched)
         == Run(respond, core, query, bound, start, batchSize, numResults, fetched)
    decreases numResults - start + 1
  {
    assert query["start" := v]["start" := Int(start)] == query["start" := Int(start)];
    if InBounds(bound, start, numResults) {
      RunIgnoresStart(respond, core, query, v, bound, start + batchSize, batchSize, numResults, true);
    }
  }

  /**
   * The requests of a run are one per visited offset, in order, each the
   * dictionary with that offset; one more request than pages exactly when a
   * response failed; all offsets are requested when the run is exhausted.
   */
  lemma {:induction false} RunRequests(respond: Request -> Response, core: string, query: map<string, Value>, bound: Bound,
                                       start: int, batchSize: int, numResults: nat, fetched: bool)
    requires batchSize > 0
    ensures var s := Run(respond, core, query, bound, start, batchSize, numResults, fetched);
      var os := Offsets(bound, start, batchSize, numResults);
      && |s.log| <= |os|
      && (forall k :: 0 <= k < |s.log| ==> s.log[k] == Request(core, query["start" := Int(os[k])]))
      && |s.log| == |s.pages| + (if s.end.Raised? && s.end.error.HttpError? then 1 else 0)
      && (s.end == Exhausted ==> |s.log| == |os|)
      && (s.end.Raised? && s.end.error.HttpError? ==> respond(s.log[|s.log| - 1]).status != SuccessStatus)
    decreases numResults - start + 1
  {
    if InBounds(bound, start, numResults) {
      var req := Request(core, query["start" := Int(start)]);
      if PageOf(respond(req), req.query).Ok? {
        RunRequests(respond, core, query, bound, start + batchSize, batchSize, numResults, true);
        RunRequestsStep(respond, core, query, bound, start, batchSize, numResults, fetched);
      }
    }
  }

  /** The step of `RunRequests` past a first page that arrived. */
  lemma RunRequestsStep(respond: Request -> Response, core: string, query: map<string, Value>, bound: Bound,
                        start: int, batchSize: int, numResults: nat, fetched: bool)
    requires batchSize > 0 && InBounds(bound, start, numResults)
    requires PageOf(respond(Request(core, query["start" := Int(start)])), query["start" := Int(start)]).Ok?
    requires var s := Run(respond, core, query, bound, start + batchSize, batchSize, numResults, true);
      var os := Offsets(bound, start + batchSize, batchSize, numResults);
      && |s.log| <= |os|
      && (forall k :: 0 <= k < |s.log| ==> s.log[k] == Request(core, query["start" := Int(os[k])]))
      && |s.log| == |s.pages| + (if s.end.Raised? && s.end.error.HttpError? then 1 else 0)
      && (s.end == Exhausted ==> |s.log| == |os|)
      && (s.end.Raised? && s.end.error.HttpError? ==> respond(s.log[|s.log| - 1]).status != SuccessStatus)
    ensures var s := Run(respond, core, query, bound, start, batchSize, numResults, fetched);
      var os := Offsets(bound, start, batchSize, numResults);
      && |s.log| <= |os|
      && (forall k :: 0 <= k < |s.log| ==> s.log[k] == Request(core, query["start" := Int(os[k])]))
      && |s.log| == |s.pages| + (if s.end.Raised? && s.end.error.HttpError? then 1 else 0)
      && (s.end == Exhausted ==> |s.log| == |os|)
      && (s.end.Raised? && s.end.error.HttpError? ==> respond(s.log[|s.log| - 1]).status != SuccessStatus)
  {
    var req := Request(core, query["start" := Int(start)]);
    var rest := Run(respond, core, query, bound, start + batchSize, batchSize, numResults, true);
    var ros := Offsets(bound, start + batchSize, batchSize, numResults);
    var s := Run(respond, core, query, bound, start, batchSize, numResults, fetched);
    var os := Offsets(bound, start, batchSize, numResults);
    assert s.log == [req] + rest.log && |s.pages| == 1 + |rest.pages| && s.end == rest.end;
    assert os == [start] + ros;
    forall k | 0 <= k < |s.log|
      ensures s.log[k] == Request(core, query["start" := Int(os[k])])
    {
      if k > 0 {
        assert s.log[k] == rest.log[k - 1] && os[k] == ros[k - 1];
      }
    }
    if s.end.Raised? && s.end.error.HttpError? {
      assert s.log[|s.log| - 1] == rest.log[|rest.log| - 1];
    }
  }

  /** Each yielded page is the reading of the response to the request at the same place in the log. */
  lemma {:induction false} RunPages(respond: Request -> Response, core: string, query: map<string, Value>, bound: Bound,
                                    start: int, batchSize: int, numResults: nat, fetched: bool)
    requires batchSize > 0
    ensures var s := Run(respond, core, query, bound, start, batchSize, numResults, fetched);
      && |s.pages| <= |s.log|
      && forall k :: 0 <= k < |s.pages| ==> PageOf(respond(s.log[k]), s.log[k].query) == Ok(s.pages[k])
    decreases numResults - start + 1
  {
    if InBounds(bound, start, numResults) {
      var req := Request(core, query["start" := Int(start)]);
      if PageOf(respond(req), req.query).Ok? {
        RunPages(respond, core, query, bound, start + batchSize, batchSize, numResults, true);
        var rest := Run(respond, core, query, bound, start + batchSize, batchSize, numResults, true);
        var s := Run(respond, core, query, bound, start, batchSize, numResults, fetched);
        assert s.log == [req] + rest.log && s.pages == [PageOf(respond(req), req.query).value] + rest.pages;
        forall k | 0 <= k < |s.pages|
          ensures PageOf(respond(s.log[k]), s.log[k].query) == Ok(s.pages[k])
        {
          if k > 0 {
            assert s.pages[k] == rest.pages[k - 1] && s.log[k] == rest.log[k - 1];
          }
        }
      }
    }
  }

  /** The pages are all records when `wt` is "json" and all text otherwise. */
  lemma {:induction false} RunShape(respond: Request -> Response, core: string, query: map<string, Value>, bound: Bound,
                                    start: int, batchSize: int, numResults: nat, fetched: bool)
    requires batchSize > 0
    ensures forall k :: 0 <= k < |Run(respond, core, query, bound, start, batchSize, numResults, fetched).pages| ==>
      (Run(respond, core, query, bound, start, batchSize, numResults, fetched).pages[k].Docs? <==> Get(query, "wt") == Str("json"))
    decreases numResults - start + 1
  {
    if InBounds(bound, start, numResults) {
      var req := Request(core, query["start" := Int(start)]);
      assert Get(req.query, "wt") == Get(query, "wt");
      match PageOf(respond(req), req.query)
      case Err(_) =>
      case Ok(page) =>
        var rest := Run(respond, core, query, bound, start + batchSize, batchSize, numResults, true);
        RunShape(respond, core, query, bound, start + batchSize, batchSize, numResults, true);
        var s := Run(respond, core, query, bound, start, batchSize, numResults, fetched);
        assert s.pages == [page] + rest.pages;
        forall k | 0 <= k < |s.pages|
          ensures s.pages[k].Docs? <==> Get(query, "wt") == Str("json")
        {
          if k > 0 {
            assert s.pages[k] == rest.pages[k - 1];
          }
        }
    }
  }

  /**
   * A full run of the strict paginator from offset 0 fetches ceil(num / b)
   * pages, none when nothing matched; the inclusive one fetches
   * floor(num / b) + 1, its last request at the boundary offset.
   */
  lemma PageCounts(respond: Request -> Response, core: string, query: map<string, Value>, bound: Bound,
                   batchSize: int, numResults: nat)
    requires batchSize > 0
    requires Run(respond, core, query, bound, 0, batchSize, numResults, false).end == Exhausted
    ensures var s := Run(respond, core, query, bound, 0, batchSize, numResults, false);
      && (bound == Strict ==> |s.pages| == |s.log| == (numResults + batchSize - 1) / batchSize)
      && (bound == Strict && numResults == 0 ==> s.log == [])
      && (bound == Inclusive ==> |s.pages| == |s.log| == numResults / batchSize + 1)
      && (bound == Inclusive ==> s.log[|s.log| - 1] == Request(core, query["start" := Int(numResults / batchSize * batchSize)]))
  {
    RunRequests(respond, core, query, bound, 0, batchSize, numResults, false);
    OffsetsAt(bound, 0, batchSize, numResults);
    if bound == Strict {
      StrictOffsetsCount(0, batchSize, numResults);
      if numResults == 0 {
        DivUnique(batchSize - 1, batchSize, 0, batchSize - 1);
      }
    } else {
      InclusiveOffsetsCount(0, batchSize, numResults);
    }
  }

  /** The dictionary after a paginator made `log`: the last query it sent, since each step sends the dictionary itself. */
  function AfterRun(query: map<string, Value>, log: seq<Request>): map<string, Value>
  {
    if log == [] then query else log[|log| - 1].query
  }

  /**
   * After a run from offset 0 the dictionary holds the offset of the last
   * request sent, `(requests - 1) * batch_size`; nothing else in it changed.
   */
  lemma LastOffset(respond: Request -> Response, core: string, query: map<string, Value>, bound: Bound,
                   batchSize: int, numResults: nat)
    requires batchSize > 0
    ensures var s := Run(respond, core, query, bound, 0, batchSize, numResults, false);
      && (s.log == [] ==> AfterRun(query, s.log) == query)
      && (s.log != [] ==> && AfterRun(query, s.log) == query["start" := Int((|s.log| - 1) * batchSize)]
                          && InBounds(bound, (|s.log| - 1) * batchSize, numResults))
  {
    RunRequests(respond, core, query, bound, 0, batchSize, numResults, false);
    OffsetsAt(bound, 0, batchSize, numResults);
  }

  /** One step of a paginator: a page, or the end (normal, or an exception). */
  datatype Step = Yield(page: Page) | Done(end: End)

  /**
   * The generator object. It shares the caller's dictionary, writes the
   * current offset into it before each request, and sends the whole
   * dictionary as the query.
   */
  class Paginator {
    const core: string
    const params: Params
    const server: Server
    const numResults: nat
    const batchSize: int
    const bound: Bound
    var start: int
    var fetched: bool     // some request was made, so `response` is bound
    var finished: bool

    /** `_batch_solr_generator(core, params, num_results)`: reads the offset and page size from the dictionary. */
    constructor (core: string, params: Params, server: Server, numResults: nat, bound: Bound)
      requires "start" in params.entries && params.entries["start"].Int?
      requires "rows" in params.entries && params.entries["rows"].Int? && params.entries["rows"].i > 0
      ensures this.core == core && this.params == params && this.server == server
      ensures this.numResults == numResults && this.bound == bound
      ensures start == params.entries["start"].i && batchSize == params.entries["rows"].i
      ensures !fetched && !finished
      ensures Pending() == Run(server.respond, core, params.entries, bound, start, batchSize, numResults, false)
    {
      this.core := core;
      this.params := params;
      this.server := server;
      this.numResults := numResults;
      this.bound := bound;
      start := params.entries["start"].i;
      batchSize := params.entries["rows"].i;
      fetched := false;
      finished := false;
    }

    /** What is left to come: the rest of the run, or nothing once the generator has finished. */
    ghost function Pending(): Stream
      reads this, params
      requires batchSize > 0
    {
      if finished then Stream([], [], Exhausted)
      else Run(server.respond, core, params.entries, bound, start, batchSize, numResults, fetched)
    }

    /** `next(gen)`: the next pending page, or the end of the run. */
    method Next() returns (step: Step)
      requires batchSize > 0
      modifies this, params, server
      ensures var p := old(Pending());
        if p.pages != [] then step == Yield(p.pages[0]) && Pending() == Stream(p.log[1..], p.pages[1..], p.end)
        else step == Done(p.end) && finished
      ensures server.log + Pending().log == old(server.log) + old(Pending()).log
      ensures if !old(finished) && InBounds(bound, old(start), numResults)
              then params.entries == old(params.entries)["start" := Int(old(start))]
                && server.log == old(server.log) + [Request(core, params.entries)]
              else params.entries == old(params.entries) && server.log == old(server.log)
    {
      if finished {
        step := Done(Exhausted);
        return;
      }
      if !InBounds(bound, start, numResults) {
        finished := true;
        step := Done(if bound == Inclusive && !fetched then Raised(UnboundResponse) else Exhausted);
        return;
      }
      ghost var query := params.entries;
      params.entries := params.entries["start" := Int(start)];
      var resp := server.Get(Request(core, params.entries));
      fetched := true;
      match PageOf(resp, params.entries)
      case Err(e) =>
        finished := true;
        step := Done(Raised(e));
      case Ok(page) =>
        step := Yield(page);
        start := start + batchSize;
        RunIgnoresStart(server.respond, core, query, Int(start - batchSize), bound, start, batchSize, numResults, true);
    }
  }

  /**
   * Bookkeeping while a `for chunk in gen` loop drains `gen`: of the run `s`
   * pending when the loop started (server log `log0`, dictionary `query`),
   * the first `k` pages have been yielded and the requests `made` sent.
   */
  ghost predicate Drains(gen: Paginator, log0: seq<Request>, query: map<string, Value>, s: Stream,
                         made: seq<Request>, k: nat)
    reads gen, gen.params, gen.server
  {
    && gen.batchSize > 0
    && k <= |s.pages|
    && gen.Pending().pages == s.pages[k..] && gen.Pending().end == s.end
    && gen.server.log + gen.Pending().log == log0 + s.log
    && gen.server.log == log0 + made
    && gen.params.entries == AfterRun(query, made)
    && Get(gen.params.entries, "wt") == Get(query, "wt")
  }

  /** Before the first step, nothing has been drained. */
  lemma DrainsStart(gen: Paginator)
    requires gen.batchSize > 0
    ensures Drains(gen, gen.server.log, gen.params.entries, gen.Pending(), [], 0)
  {
    assert gen.server.log + [] == gen.server.log;
  }

  /**
   * One step of `for chunk in gen`: the next page of the run, or the end of
   * the run once every request has been sent and every page yielded.
   */
  method Pull(gen: Paginator, ghost log0: seq<Request>, ghost query: map<string, Value>, ghost s: Stream,
              ghost made: seq<Request>, ghost k: nat)
    returns (step: Step, ghost made': seq<Request>)
    requires Drains(gen, log0, query, s, made, k)
    modifies gen, gen.params, gen.server
    ensures step.Yield? ==> k < |s.pages| && step.page == s.pages[k] && Drains(gen, log0, query, s, made', k + 1)
    ensures step.Yield? ==> (step.page.Docs? <==> Get(query, "wt") == Str("json"))
    ensures step.Done? ==> && k == |s.pages| && step.end == s.end
                           && gen.server.log == log0 + s.log
                           && gen.params.entries == AfterRun(query, s.log)
  {
    ghost var before := gen.server.log;
    if !gen.finished {
      RunShape(gen.server.respond, gen.core, gen.params.entries, gen.bound, gen.start, gen.batchSize,
               gen.numResults, gen.fetched);
    }
    step := gen.Next();
    made' := made;
    if |gen.server.log| > |before| {
      made' := made + [Request(gen.core, gen.params.entries)];
    }
    if step.Done? {
      assert gen.Pending().log == [];
      assert gen.server.log == log0 + s.log;
      assert made' == gen.server.log[|log0|..] == s.log;
    }
  }
}
