/**
 * `batch_solr_request` in its iterator form: the same preparation and count,
 * but the paginator stops strictly below the count, a download is written as
 * JSON Lines (or the raw text blocks) and its first page size of rows is read
 * back, and a download in any other format goes on to the memory gate.
 */
module IteratorRequest {
  import opened Wrappers
  import opened Strings
  import opened Values
  import opened Endpoint
  import opened Query
  import opened Gate
  import opened Pagination
  import opened Accumulate
  import opened Export
  import BatchRequest

  /** The text blocks of the pages, back to back, exactly as received. */
  function Dump(pages: seq<Page>): string
    decreases |pages|
  {
    if pages == [] then "" else Dump(pages[..|pages| - 1]) + TextOf(pages[|pages| - 1])
  }

  lemma DumpSnoc(pages: seq<Page>, page: Page)
    ensures Dump(pages + [page]) == Dump(pages) + TextOf(page)
  {
    assert (pages + [page])[..|pages|] == pages;
  }

  /** What this `_solr_downloader` leaves in the file: one JSON document per line for "json", else every block verbatim. */
  function LinesFile(wt: Value, ser: Doc -> string, pages: seq<Page>): string
  {
    if wt == Str("json") then Lines(SerAll(ser, Items(pages))) else Dump(pages)
  }

  /** The records of one page, each dumped and followed by a newline. */
  method WriteLines(file: OutFile, ser: Doc -> string, ghost seen: seq<Doc>, docs: seq<Doc>)
    requires file.contents == Lines(SerAll(ser, seen))
    modifies file
    ensures file.path == old(file.path)
    ensures file.contents == Lines(SerAll(ser, seen + docs))
  {
    ghost var written := seen;
    var i := 0;
    while i < |docs|
      invariant 0 <= i <= |docs|
      invariant written == seen + docs[..i]
      invariant file.path == old(file.path)
      invariant file.contents == Lines(SerAll(ser, written))
    {
      GrowPrefix(seen, docs, i);
      SerAllSnoc(ser, written, docs[i]);
      LinesSnoc(SerAll(ser, written), ser(docs[i]));
      file.Write(ser(docs[i]));
      file.Write("\n");
      written := written + [docs[i]];
      i := i + 1;
    }
    assert docs[..i] == docs;
  }

  /** One chunk: its records as lines when the dictionary says "json", else its text as it is. */
  method WritePage(file: OutFile, ser: Doc -> string, json: bool, ghost wt: Value, ghost done: seq<Page>, page: Page)
    requires json <==> wt == Str("json")
    requires page.Docs? <==> json
    requires file.contents == LinesFile(wt, ser, done)
    modifies file
    ensures file.path == old(file.path)
    ensures file.contents == LinesFile(wt, ser, done + [page])
  {
    if json {
      ItemsSnoc(done, page);
      WriteLines(file, ser, Items(done), page.docs);
    } else {
      DumpSnoc(done, page);
      file.Write(page.text);
    }
  }

  /**
   * `_solr_downloader(params, filename, solr_generator)`: truncates the file
   * and drains the generator into it, checking the dictionary's `wt` for
   * every chunk; an exception from the generator leaves what was written.
   */
  method SolrDownloader(params: Params, filename: FilePath, gen: Pagination.Paginator, ser: Doc -> string, file: OutFile)
    returns (end: End)
    requires gen.params == params && gen.batchSize > 0
    modifies file, gen, params, gen.server
    ensures var s := old(gen.Pending());
      && file.path == filename
      && file.contents == LinesFile(Get(old(params.entries), "wt"), ser, s.pages)
      && end == s.end
      && gen.server.log == old(gen.server.log) + s.log
      && params.entries == AfterRun(old(params.entries), s.log)
  {
    file.Open(filename);
    ghost var wt := Get(params.entries, "wt");
    ghost var s := gen.Pending();
    ghost var made: seq<Request> := [];
    ghost var k: nat := 0;
    ghost var done: seq<Page> := [];
    DrainsStart(gen);
    var step: Step;
    while true
      invariant Drains(gen, old(gen.server.log), old(params.entries), s, made, k)
      invariant file.path == filename
      invariant done == s.pages[..k] && file.contents == LinesFile(wt, ser, done)
      decreases |s.pages| - k
    {
      step, made := Pull(gen, old(gen.server.log), old(params.entries), s, made, k);
      if step.Done? {
        assert done == s.pages;
        break;
      }
      assert s.pages[..k + 1] == done + [step.page];
      WritePage(file, ser, Get(params.entries, "wt") == Str("json"), wt, done, step.page);
      done := done + [step.page];
      k := k + 1;
    }
    end := step.end;
  }

  /**
   * The memory gate and `_batch_to_df`: the fetch starts at offset `start`
   * in steps of `rows`, with `wt` forced to "json" in the dictionary.
   */
  function Gated(respond: Request -> Response, core: string, q: map<string, Value>, start: int, rows: int,
                 num: nat, download: bool, answer: string): Effect
    requires rows > 0
  {
    match Decide(num, download, answer)
    case Accumulate =>
      var qj := q["wt" := Str("json")];
      var f := Chunks(respond, core, qj, start, rows, num);
      Effect(match f.result case Ok(chunks) => Frame(Flatten(chunks)) case Err(e) => Failed(e), f.log, qj, None)
    case Abort => Effect(Exit, [], q, None)
    case FallThrough => Effect(NoValue, [], q, None)
  }

  /**
   * The effect of this `batch_solr_request(core, params, download,
   * batch_size, path_to_download)` against a server answering `respond`,
   * with `answer` typed at the prompt should there be one.
   */
  function Expected(respond: Request -> Response, ser: Doc -> string, core: string, query: map<string, Value>,
                    download: bool, batchSize: int, dir: string, answer: string): Effect
    requires batchSize > 0
  {
    var o := BatchRequest.Counted(respond, core, query, batchSize);
    match o.count
    case Err(e) => Effect(Failed(e), o.log, o.params, None)
    case Ok(num) =>
      var rest := Proceed(respond, ser, core, o.params, num, download, batchSize, dir, answer);
      rest.(log := o.log + rest.log)
  }

  /**
   * What follows the count. A download streams every page below the count
   * to `<core>.<wt>`; for "json" and "csv" the first rows are read back,
   * for any other format the call goes on to the gate, which always prompts
   * and fetches from the offset the generator left in the dictionary.
   */
  function Proceed(respond: Request -> Response, ser: Doc -> string, core: string, q: map<string, Value>,
                   num: nat, download: bool, batchSize: int, dir: string, answer: string): Effect
    requires batchSize > 0
  {
    if download then Downloaded(respond, ser, core, q, num, batchSize, dir, answer)
    else Gated(respond, core, q, 0, batchSize, num, false, answer)
  }

  /** A download: the export, then the read-back, the exception, or the gate for formats other than "json" and "csv". */
  function Downloaded(respond: Request -> Response, ser: Doc -> string, core: string, q: map<string, Value>,
                      num: nat, batchSize: int, dir: string, answer: string): Effect
    requires batchSize > 0
  {
    var wt := Get(q, "wt");
    var name := ExportName(dir, core, q);
    var s := Run(respond, core, q, Strict, 0, batchSize, num, false);
    var after := AfterRun(q, s.log);
    var written := Some(Written(name, LinesFile(wt, ser, s.pages)));
    if s.end.Raised? then Effect(Failed(s.end.error), s.log, after, written)
    else if wt == Str("json") || wt == Str("csv") then Effect(Preview(name, batchSize), s.log, after, written)
    else
      var rest := Gated(respond, core, after, if s.log == [] then 0 else (|s.log| - 1) * batchSize,
                        batchSize, num, true, answer);
      Effect(rest.outcome, s.log + rest.log, rest.params, written)
  }

  /**
   * This `batch_solr_request`: the caller's dictionary is updated in place,
   * the server sees every request, and `file` is the export destination.
   */
  method BatchSolrRequest(server: Server, core: string, params: Params, download: bool, batchSize: int,
                          dir: string, ser: Doc -> string, answer: string, file: OutFile)
    returns (outcome: Outcome)
    requires batchSize > 0
    modifies server, params, file
    ensures var e := Expected(server.respond, ser, core, old(params.entries), download, batchSize, dir, answer);
      && outcome == e.outcome
      && server.log == old(server.log) + e.log
      && params.entries == e.params
      && if e.file.Some? then file.path == e.file.value.path && file.contents == e.file.value.contents
         else file.path == old(file.path) && file.contents == old(file.contents)
  {
    var count := BatchRequest.Count(server, core, params, batchSize);
    if count.Err? {
      return Failed(count.error);
    }
    ghost var logged := server.log;
    outcome := Dispatch(server, core, params, count.value, download, batchSize, dir, ser, answer, file);
    assert server.log == old(server.log) + (logged[|old(server.log)|..] + server.log[|logged|..]);
  }

  /** The body of this `batch_solr_request` after the count is known. */
  method Dispatch(server: Server, core: string, params: Params, num: nat, download: bool, batchSize: int,
                  dir: string, ser: Doc -> string, answer: string, file: OutFile)
    returns (outcome: Outcome)
    requires batchSize > 0
    requires Get(params.entries, "start") == Int(0) && Get(params.entries, "rows") == Int(batchSize)
    modifies server, params, file
    ensures var e := Proceed(server.respond, ser, core, old(params.entries), num, download, batchSize, dir, answer);
      && outcome == e.outcome
      && server.log == old(server.log) + e.log
      && params.entries == e.params
      && if e.file.Some? then file.path == e.file.value.path && file.contents == e.file.value.contents
         else file.path == old(file.path) && file.contents == old(file.contents)
  {
    if download {
      outcome := Download(server, core, params, num, batchSize, dir, ser, answer, file);
    } else {
      outcome := MemoryGate(server, core, params, num, false, answer);
    }
  }

  /** The download branch: stream to `<core>.<wt>`, then read back, fail, or go on to the gate. */
  method Download(server: Server, core: string, params: Params, num: nat, batchSize: int,
                  dir: string, ser: Doc -> string, answer: string, file: OutFile)
    returns (outcome: Outcome)
    requires batchSize > 0
    requires Get(params.entries, "start") == Int(0) && Get(params.entries, "rows") == Int(batchSize)
    modifies server, params, file
    ensures var e := Downloaded(server.respond, ser, core, old(params.entries), num, batchSize, dir, answer);
      && outcome == e.outcome
      && server.log == old(server.log) + e.log
      && params.entries == e.params
      && file.path == e.file.value.path && file.contents == e.file.value.contents
  {
    ghost var q := params.entries;
    ghost var s := Run(server.respond, core, q, Strict, 0, batchSize, num, false);
    var name := ExportName(dir, core, params.entries);
    var end := WriteExport(server, core, params, num, name, ser, file);
    assert end == s.end && server.log == old(server.log) + s.log;
    assert file.path == name && file.contents == LinesFile(Get(q, "wt"), ser, s.pages);
    if end.Raised? {
      outcome := Failed(end.error);
    } else {
      LastOffset(server.respond, core, q, Strict, batchSize, num);
      ghost var offset := if s.log == [] then 0 else (|s.log| - 1) * batchSize;
      assert params.entries == AfterRun(q, s.log) && params.entries["start"] == Int(offset)
          && params.entries["rows"] == Int(batchSize) && Get(params.entries, "wt") == Get(q, "wt");
      var wt := Get(params.entries, "wt");
      if wt == Str("json") || wt == Str("csv") {
        outcome := Preview(name, batchSize);
      } else {
        ghost var logged := server.log;
        outcome := MemoryGate(server, core, params, num, true, answer);
        assert server.log == old(server.log) + (s.log + server.log[|logged|..]);
      }
    }
  }

  /** The export itself: a strict paginator over the caller's dictionary, drained into `name`. */
  method WriteExport(server: Server, core: string, params: Params, num: nat, name: FilePath,
                     ser: Doc -> string, file: OutFile)
    returns (end: End)
    requires "start" in params.entries && params.entries["start"].Int?
    requires "rows" in params.entries && params.entries["rows"].Int? && params.entries["rows"].i > 0
    modifies server, params, file
    ensures var s := Run(server.respond, core, old(params.entries), Strict, old(params.entries)["start"].i,
                         old(params.entries)["rows"].i, num, false);
      && end == s.end
      && server.log == old(server.log) + s.log
      && params.entries == AfterRun(old(params.entries), s.log)
      && file.path == name
      && file.contents == LinesFile(Get(old(params.entries), "wt"), ser, s.pages)
  {
    var gen := new Paginator(core, params, server, num, Strict);
    end := SolrDownloader(params, name, gen, ser, file);
  }

  /** The memory gate: below one million without download fetch, otherwise act on the answer. */
  method MemoryGate(server: Server, core: string, params: Params, num: nat, download: bool, answer: string)
    returns (outcome: Outcome)
    requires "start" in params.entries && params.entries["start"].Int?
    requires "rows" in params.entries && params.entries["rows"].Int? && params.entries["rows"].i > 0
    modifies server, params
    ensures var e := Gated(server.respond, core, old(params.entries), old(params.entries)["start"].i,
                           old(params.entries)["rows"].i, num, download, answer);
      && outcome == e.outcome
      && server.log == old(server.log) + e.log
      && params.entries == e.params
  {
    if num < Threshold && !download {
      outcome := BatchRequest.Fetch(server, core, params, num);
    } else if answer == "n" || answer == "exit" {
      outcome := Exit;
    } else if answer == "y" || answer == "" {
      outcome := BatchRequest.Fetch(server, core, params, num);
    } else {
      outcome := NoValue;
    }
  }

  /** With records that dump to a single line, the JSON Lines file holds one line per record, in order. */
  lemma JsonLinesRecords(ser: Doc -> string, pages: seq<Page>)
    requires forall d :: '\n' !in ser(d)
    ensures SplitLines(LinesFile(Str("json"), ser, pages)) == SerAll(ser, Items(pages))
  {
    SerAllAt(ser, Items(pages));
    LinesSplit(SerAll(ser, Items(pages)));
  }

  /** Text blocks are written whole, so every CSV block keeps its header line. */
  lemma CsvKeepsEveryHeader(ser: Doc -> string)
    ensures LinesFile(Str("csv"), ser, [Text("id,city\n1,Houston\n"), Text("id,city\n2,Prague\n")])
         == "id,city\n1,Houston\n" + "id,city\n2,Prague\n"
  {
    var first, second := Text("id,city\n1,Houston\n"), Text("id,city\n2,Prague\n");
    assert [first, second] == [first] + [second];
    assert [first] == [] + [first];
    DumpSnoc([], first);
    DumpSnoc([first], second);
  }

  /** Without download both variants behave the same: same outcome, requests, dictionary. */
  lemma SameWithoutDownload(respond: Request -> Response, ser: Doc -> string, core: string, query: map<string, Value>,
                            batchSize: int, dir: string, answer: string)
    requires batchSize > 0
    ensures Expected(respond, ser, core, query, false, batchSize, dir, answer)
         == BatchRequest.Expected(respond, ser, core, query, false, batchSize, dir, answer)
  {
  }

  /**
   * A JSON or CSV download never prompts; once every page below the count
   * has arrived, its first page size of rows is read back, after
   * ceil(num / b) page requests.
   */
  lemma DownloadPreview(respond: Request -> Response, ser: Doc -> string, core: string, q: map<string, Value>,
                        num: nat, batchSize: int, dir: string, answer: string, other: string)
    requires batchSize > 0
    requires Get(q, "wt") in {Str("json"), Str("csv")}
    ensures var s := Run(respond, core, q, Strict, 0, batchSize, num, false);
      var name := ExportName(dir, core, q);
      var e := Downloaded(respond, ser, core, q, num, batchSize, dir, answer);
      && e == Downloaded(respond, ser, core, q, num, batchSize, dir, other)
      && e.file == Some(Written(name, LinesFile(Get(q, "wt"), ser, s.pages)))
      && e.log == s.log
      && (s.end == Exhausted ==> && e.outcome == Preview(name, batchSize)
                                 && |e.log| == (num + batchSize - 1) / batchSize)
      && (s.end.Raised? ==> e.outcome == Failed(s.end.error))
  {
    var s := Run(respond, core, q, Strict, 0, batchSize, num, false);
    if s.end == Exhausted {
      PageCounts(respond, core, q, Strict, batchSize, num);
    }
  }

  /** A download that found nothing sends no page request and leaves an empty file. */
  lemma EmptyDownload(respond: Request -> Response, ser: Doc -> string, core: string, query: map<string, Value>,
                      batchSize: int, dir: string, answer: string)
    requires batchSize > 0
    requires var o := BatchRequest.Counted(respond, core, query, batchSize);
      o.count == Ok(0) && Get(o.params, "wt") in {Str("json"), Str("csv")}
    ensures var o := BatchRequest.Counted(respond, core, query, batchSize);
      var e := Expected(respond, ser, core, query, true, batchSize, dir, answer);
      && e.log == o.log
      && e.file == Some(Written(ExportName(dir, core, o.params), ""))
      && e.outcome == Preview(ExportName(dir, core, o.params), batchSize)
  {
  }

  /**
   * After a complete strict run, `_batch_to_df` from the offset of the run's
   * last request makes one request, for that last page only.
   */
  lemma LastPageAgain(respond: Request -> Response, core: string, q: map<string, Value>, fetch: map<string, Value>,
                      batchSize: int, num: nat)
    requires batchSize > 0 && num > 0
    requires Run(respond, core, q, Strict, 0, batchSize, num, false).end == Exhausted
    ensures var s := Run(respond, core, q, Strict, 0, batchSize, num, false);
      var start := (|s.log| - 1) * batchSize;
      var refetch := Request(core, BatchQuery(fetch, start, batchSize));
      && s.log != []
      && Chunks(respond, core, fetch, start, batchSize, num)
         == match SolrAnswer(respond(refetch))
            case Ok(a) => Fetched([refetch], Ok([a.docs]))
            case Err(err) => Fetched([refetch], Err(err))
  {
    var s := Run(respond, core, q, Strict, 0, batchSize, num, false);
    PageCounts(respond, core, q, Strict, batchSize, num);
    RunRequests(respond, core, q, Strict, 0, batchSize, num, false);
    OffsetsAt(Strict, 0, batchSize, num);
    OffsetsEnd(Strict, 0, batchSize, num);
    var os := Offsets(Strict, 0, batchSize, num);
    var start := (|s.log| - 1) * batchSize;
    assert os[|os| - 1] == start;
    assert start + batchSize == |os| * batchSize;
    assert start < num <= start + batchSize;
    assert Chunks(respond, core, fetch, start + batchSize, batchSize, num) == Fetched([], Ok([]));
    var refetch := Request(core, BatchQuery(fetch, start, batchSize));
    if SolrAnswer(respond(refetch)).Ok? {
      assert [refetch] + [] == [refetch];
      assert [SolrAnswer(respond(refetch)).value.docs] + [] == [SolrAnswer(respond(refetch)).value.docs];
    }
  }

  /**
   * A download in another format writes the text blocks and then always
   * prompts: "n" or "exit" exits with the file written, and "y" or "" fetch
   * again from the offset the generator left behind, so the table holds
   * only the last page's records.
   */
  lemma OtherFormatPrompts(respond: Request -> Response, ser: Doc -> string, core: string, q: map<string, Value>,
                           num: nat, batchSize: int, dir: string, answer: string)
    requires batchSize > 0 && num > 0
    requires Get(q, "wt") !in {Str("json"), Str("csv")}
    requires Run(respond, core, q, Strict, 0, batchSize, num, false).end == Exhausted
    ensures var s := Run(respond, core, q, Strict, 0, batchSize, num, false);
      var e := Downloaded(respond, ser, core, q, num, batchSize, dir, answer);
      var refetch := Request(core, BatchQuery(AfterRun(q, s.log)["wt" := Str("json")], (|s.log| - 1) * batchSize, batchSize));
      && e.file == Some(Written(ExportName(dir, core, q), Dump(s.pages)))
      && (answer in {"n", "exit"} ==> e.outcome == Exit && e.log == s.log)
      && (answer in {"y", ""} ==> && e.log == s.log + [refetch]
                                   && e.outcome == match SolrAnswer(respond(refetch))
                                                   case Ok(a) => Frame(a.docs)
                                                   case Err(err) => Failed(err))
      && (answer !in {"n", "exit", "y", ""} ==> e.outcome == NoValue && e.log == s.log)
  {
    var s := Run(respond, core, q, Strict, 0, batchSize, num, false);
    PromptAnswers(num, true, answer);
    LastPageAgain(respond, core, q, AfterRun(q, s.log)["wt" := Str("json")], batchSize, num);
    forall docs: seq<Doc> ensures Flatten([docs]) == docs {
      assert [docs][..0] == [];
    }
  }
}
