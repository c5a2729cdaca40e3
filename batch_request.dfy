/**
 * `batch_solr_request` in its original form: normalise the dictionary, probe
 * the count, then either export every page to `<core>.<wt>` (a JSON array or
 * a CSV file with a single header) or gate the in-memory fetch on the count.
 */
module BatchRequest {
  import opened Wrappers
  import opened Strings
  import opened Values
  import opened Endpoint
  import opened Query
  import opened Gate
  import opened Pagination
  import opened Accumulate
  import opened Export

  /** An array opened and filled the way the writer does it: "[\n", then the records, ",\n" between two. */
  function Opened(records: seq<string>): string
    decreases |records|
  {
    if records == [] then "[\n"
    else if |records| == 1 then "[\n" + records[0]
    else Opened(records[..|records| - 1]) + ",\n" + records[|records| - 1]
  }

  lemma OpenedSnoc(records: seq<string>, r: string)
    ensures Opened(records + [r]) == if records == [] then "[\n" + r else Opened(records) + ",\n" + r
  {
    assert (records + [r])[..|records|] == records;
  }

  /** Writing record by record gives the opening bracket and the records joined by ",\n". */
  lemma {:induction false} OpenedJoin(records: seq<string>)
    ensures Opened(records) == "[\n" + Join(",\n", records)
    decreases |records|
  {
    if |records| > 1 {
      var init := records[..|records| - 1];
      OpenedJoin(init);
      assert records == init + [records[|records| - 1]];
      JoinSnoc(",\n", init, records[|records| - 1]);
    }
  }

  /** The opening bracket and the records of `pages`, comma-separated: the JSON file before it is closed. */
  function JsonPrefix(ser: Doc -> string, pages: seq<Page>): string
  {
    "[\n" + Join(",\n", SerAll(ser, Items(pages)))
  }

  /** The JSON array of the streamed records; the closing bracket only follows a run that ended normally. */
  function JsonArray(ser: Doc -> string, s: Stream): string
  {
    JsonPrefix(ser, s.pages) + (if s.end == Exhausted then "\n]\n" else "")
  }

  /**
   * The CSV file for `pages`: the first block verbatim, each later block as a
   * newline, its lines after the header rejoined, and a newline.
   */
  function CsvFile(pages: seq<Page>): string
    decreases |pages|
  {
    if pages == [] then ""
    else if |pages| == 1 then TextOf(pages[0])
    else CsvFile(pages[..|pages| - 1]) + ("\n" + Body(TextOf(pages[|pages| - 1])) + "\n")
  }

  /** A CSV block without its header line: `"\n".join(chunk.splitlines()[1:])`. */
  function Body(text: string): string
  {
    Join("\n", Rest(SplitLines(text)))
  }

  lemma CsvFileSnoc(pages: seq<Page>, page: Page)
    ensures CsvFile(pages + [page]) ==
      if pages == [] then TextOf(page) else CsvFile(pages) + ("\n" + Body(TextOf(page)) + "\n")
  {
    assert (pages + [page])[..|pages|] == pages;
  }

  /** What `_solr_downloader` leaves in the file for format `wt` and the run `s`. */
  function ExportFile(wt: Value, ser: Doc -> string, s: Stream): string
  {
    if wt == Str("json") then JsonArray(ser, s)
    else if wt == Str("csv") then CsvFile(s.pages)
    else ""
  }

  /** The records of one page appended to the open array, a comma line before all but the very first. */
  method WriteRecords(file: OutFile, ser: Doc -> string, ghost seen: seq<Doc>, docs: seq<Doc>, first: bool)
    returns (stillFirst: bool)
    requires first <==> seen == []
    requires file.contents == Opened(SerAll(ser, seen))
    modifies file
    ensures file.path == old(file.path)
    ensures file.contents == Opened(SerAll(ser, seen + docs))
    ensures stillFirst <==> seen + docs == []
  {
    stillFirst := first;
    ghost var written := seen;
    var i := 0;
    while i < |docs|
      invariant 0 <= i <= |docs|
      invariant written == seen + docs[..i]
      invariant file.path == old(file.path)
      invariant file.contents == Opened(SerAll(ser, written))
      invariant stillFirst <==> written == []
    {
      GrowPrefix(seen, docs, i);
      SerAllSnoc(ser, written, docs[i]);
      OpenedSnoc(SerAll(ser, written), ser(docs[i]));
      if !stillFirst {
        file.Write(",\n");
      }
      file.Write(ser(docs[i]));
      stillFirst := false;
      written := written + [docs[i]];
      i := i + 1;
    }
    assert docs[..i] == docs;
  }

  /** One record page written in the JSON branch. */
  method WriteJsonPage(file: OutFile, ser: Doc -> string, ghost done: seq<Page>, page: Page, first: bool)
    returns (stillFirst: bool)
    requires page.Docs?
    requires first <==> Items(done) == []
    requires file.contents == JsonPrefix(ser, done)
    modifies file
    ensures file.path == old(file.path)
    ensures file.contents == JsonPrefix(ser, done + [page])
    ensures stillFirst <==> Items(done + [page]) == []
  {
    ItemsSnoc(done, page);
    OpenedJoin(SerAll(ser, Items(done)));
    OpenedJoin(SerAll(ser, Items(done) + page.docs));
    stillFirst := WriteRecords(file, ser, Items(done), page.docs, first);
  }

  /** One text page written in the CSV branch: whole if it is the first, else after its first line. */
  method WriteCsvPage(file: OutFile, ghost done: seq<Page>, page: Page, first: bool)
    requires page.Text?
    requires first <==> done == []
    requires file.contents == CsvFile(done)
    modifies file
    ensures file.path == old(file.path)
    ensures file.contents == CsvFile(done + [page])
  {
    var chunk := page.text;
    CsvFileSnoc(done, page);
    if first {
      file.Write(chunk);
    } else {
      var lines := SplitLines(chunk);
      file.Write("\n" + Join("\n", Rest(lines)) + "\n");
    }
  }

  /** The JSON branch of `_solr_downloader`: "[\n", the records comma-separated, "\n]\n" after a normal end. */
  method DrainJson(params: Params, gen: Pagination.Paginator, ser: Doc -> string, file: OutFile) returns (end: End)
    requires gen.params == params && gen.batchSize > 0
    requires Get(params.entries, "wt") == Str("json") && file.contents == ""
    modifies file, gen, params, gen.server
    ensures var s := old(gen.Pending());
      && file.path == old(file.path)
      && file.contents == JsonArray(ser, s)
      && end == s.end
      && gen.server.log == old(gen.server.log) + s.log
      && params.entries == AfterRun(old(params.entries), s.log)
  {
    ghost var s := gen.Pending();
    ghost var made: seq<Request> := [];
    ghost var k: nat := 0;
    ghost var done: seq<Page> := [];
    DrainsStart(gen);
    file.Write("[\n");
    var first := true;
    var step: Step;
    while true
      invariant Drains(gen, old(gen.server.log), old(params.entries), s, made, k)
      invariant file.path == old(file.path)
      invariant done == s.pages[..k] && file.contents == JsonPrefix(ser, done)
      invariant first <==> Items(done) == []
      decreases |s.pages| - k
    {
      step, made := Pull(gen, old(gen.server.log), old(params.entries), s, made, k);
      if step.Done? {
        assert done == s.pages;
        break;
      }
      assert s.pages[..k + 1] == done + [step.page];
      first := WriteJsonPage(file, ser, done, step.page, first);
      done := done + [step.page];
      k := k + 1;
    }
    end := step.end;
    if end == Exhausted {
      file.Write("\n]\n");
    }
  }

  /** The CSV branch of `_solr_downloader`: the first block whole, then each block after its header line. */
  method DrainCsv(params: Params, gen: Pagination.Paginator, file: OutFile) returns (end: End)
    requires gen.params == params && gen.batchSize > 0
    requires Get(params.entries, "wt") == Str("csv") && file.contents == ""
    modifies file, gen, params, gen.server
    ensures var s := old(gen.Pending());
      && file.path == old(file.path)
      && file.contents == CsvFile(s.pages)
      && end == s.end
      && gen.server.log == old(gen.server.log) + s.log
      && params.entries == AfterRun(old(params.entries), s.log)
  {
    ghost var s := gen.Pending();
    ghost var made: seq<Request> := [];
    ghost var k: nat := 0;
    ghost var done: seq<Page> := [];
    DrainsStart(gen);
    var first := true;
    var step: Step;
    while true
      invariant Drains(gen, old(gen.server.log), old(params.entries), s, made, k)
      invariant file.path == old(file.path)
      invariant done == s.pages[..k] && file.contents == CsvFile(done)
      invariant first <==> k == 0
      decreases |s.pages| - k
    {
      step, made := Pull(gen, old(gen.server.log), old(params.entries), s, made, k);
      if step.Done? {
        assert done == s.pages;
        break;
      }
      assert s.pages[..k + 1] == done + [step.page];
      WriteCsvPage(file, done, step.page, first);
      first := false;
      done := done + [step.page];
      k := k + 1;
    }
    end := step.end;
  }

  /**
   * `_solr_downloader(params, filename, solr_generator)`: truncates the file,
   * then for JSON or CSV drains the generator into it; for any other format
   * the file stays empty and the generator is never started.
   */
  method SolrDownloader(params: Params, filename: FilePath, gen: Pagination.Paginator, ser: Doc -> string, file: OutFile)
    returns (end: End)
    requires gen.params == params && gen.batchSize > 0
    modifies file, gen, params, gen.server
    ensures var wt := Get(old(params.entries), "wt");
      var s := old(gen.Pending());
      && file.path == filename
      && file.contents == ExportFile(wt, ser, s)
      && if wt == Str("json") || wt == Str("csv") then
           && end == s.end
           && gen.server.log == old(gen.server.log) + s.log
           && params.entries == AfterRun(old(params.entries), s.log)
         else
           && end == Exhausted
           && gen.server.log == old(gen.server.log)
           && params.entries == old(params.entries)
  {
    file.Open(filename);
    var wt := Get(params.entries, "wt");
    if wt == Str("json") {
      end := DrainJson(params, gen, ser, file);
    } else if wt == Str("csv") {
      end := DrainCsv(params, gen, file);
    } else {
      end := Exhausted;
    }
  }

  /** The opening of a call: the dictionary after normalisation, the count or the exception, the requests sent. */
  datatype Opening = Opening(params: map<string, Value>, count: Result<nat, Error>, log: seq<Request>)

  /** Normalise the dictionary, then ask for the count alone: no rows, JSON, offset 0. */
  function Counted(respond: Request -> Response, core: string, query: map<string, Value>, batchSize: int): Opening
  {
    var n := Normalised(query, batchSize);
    if n.error.Some? then Opening(n.params, Err(n.error.value), [])
    else
      var probe := Request(core, ProbeQuery(n.params));
      match SolrAnswer(respond(probe))
      case Err(e) => Opening(n.params, Err(e), [probe])
      case Ok(answer) => Opening(n.params, Ok(answer.numFound), [probe])
  }

  /** The opening steps, shared by both variants: normalise in place, then `solr_request` for the count. */
  method Count(server: Server, core: string, params: Params, batchSize: int) returns (count: Result<nat, Error>)
    modifies server, params
    ensures var o := Counted(server.respond, core, old(params.entries), batchSize);
      && count == o.count
      && server.log == old(server.log) + o.log
      && params.entries == o.params
    ensures count.Ok? ==> Get(params.entries, "start") == Int(0) && Get(params.entries, "rows") == Int(batchSize)
  {
    ghost var query := params.entries;
    var error := Normalise(params, batchSize);
    if error.Some? {
      return Err(error.value);
    }
    NormalisedPaging(query, batchSize);
    var answer := SolrRequest(server, core, ProbeQuery(params.entries));
    count := match answer case Ok(a) => Ok(a.numFound) case Err(e) => Err(e);
  }

  /**
   * The effect of `batch_solr_request(core, params, download, batch_size,
   * path_to_download)` against a server answering `respond`, with `answer`
   * typed at the prompt should there be one.
   */
  function Expected(respond: Request -> Response, ser: Doc -> string, core: string, query: map<string, Value>,
                    download: bool, batchSize: int, dir: string, answer: string): Effect
    requires batchSize > 0
  {
    var o := Counted(respond, core, query, batchSize);
    match o.count
    case Err(e) => Effect(Failed(e), o.log, o.params, None)
    case Ok(num) =>
      var rest := Proceed(respond, ser, core, o.params, num, download, batchSize, dir, answer);
      rest.(log := o.log + rest.log)
  }

  /** What follows the count: the export when downloading, else the gated fetch. */
  function Proceed(respond: Request -> Response, ser: Doc -> string, core: string, q: map<string, Value>,
                   num: nat, download: bool, batchSize: int, dir: string, answer: string): Effect
    requires batchSize > 0
  {
    if download then
      var wt := Get(q, "wt");
      var name := ExportName(dir, core, q);
      if wt == Str("json") || wt == Str("csv") then
        var s := Run(respond, core, q, Inclusive, 0, batchSize, num, false);
        Effect(if s.end == Exhausted then Saved(name) else Failed(s.end.error),
               s.log, AfterRun(q, s.log), Some(Written(name, ExportFile(wt, ser, s))))
      else
        Effect(Saved(name), [], q, Some(Written(name, "")))
    else
      match Decide(num, false, answer)
      case Accumulate =>
        var qj := q["wt" := Str("json")];
        var f := Chunks(respond, core, qj, 0, batchSize, num);
        Effect(match f.result case Ok(chunks) => Frame(Flatten(chunks)) case Err(e) => Failed(e), f.log, qj, None)
      case Abort => Effect(Exit, [], q, None)
      case FallThrough => Effect(NoValue, [], q, None)
  }

  /**
   * `batch_solr_request`: the caller's dictionary is updated in place, the
   * server sees every request, and `file` is the export destination.
   */
  method BatchSolrRequest(server: Server, core: string, params: Params, download: bool, batchSize: int,
                          dir: string, ser: Doc -> string, answer: string, file: OutFile)
    returns (outcome: Outcome)
    requires batchSize > 0
    modifies server, params, file
    ensures var e := Expected(server.respond, ser, core, old(params.entries), download, batchSize, dir, answer);
      && outcome == e.outcome
      && server.log == old(server.log) + e.log
      && params.entries == e.params
      && if e.file.Some? then file.path == e.file.value.path && file.contents == e.file.value.contents
         else file.path == old(file.path) && file.contents == old(file.contents)
  {
    var count := Count(server, core, params, batchSize);
    if count.Err? {
      return Failed(count.error);
    }
    ghost var logged := server.log;
    outcome := Dispatch(server, core, params, count.value, download, batchSize, dir, ser, answer, file);
    assert server.log == old(server.log) + (logged[|old(server.log)|..] + server.log[|logged|..]);
  }

  /** The body of `batch_solr_request` after the count is known. */
  method Dispatch(server: Server, core: string, params: Params, num: nat, download: bool, batchSize: int,
                  dir: string, ser: Doc -> string, answer: string, file: OutFile)
    returns (outcome: Outcome)
    requires batchSize > 0
    requires Get(params.entries, "start") == Int(0) && Get(params.entries, "rows") == Int(batchSize)
    modifies server, params, file
    ensures var e := Proceed(server.respond, ser, core, old(params.entries), num, download, batchSize, dir, answer);
      && outcome == e.outcome
      && server.log == old(server.log) + e.log
      && params.entries == e.params
      && if e.file.Some? then file.path == e.file.value.path && file.contents == e.file.value.contents
         else file.path == old(file.path) && file.contents == old(file.contents)
  {
    if download {
      var name := ExportName(dir, core, params.entries);
      var gen := new Paginator(core, params, server, num, Inclusive);
      var end := SolrDownloader(params, name, gen, ser, file);
      outcome := if end == Exhausted then Saved(name) else Failed(end.error);
      return;
    }
    if num < Threshold {
      outcome := Fetch(server, core, params, num);
    } else if answer == "n" || answer == "exit" {
      outcome := Exit;
    } else if answer == "y" || answer == "" {
      outcome := Fetch(server, core, params, num);
    } else {
      outcome := NoValue;
    }
  }

  /** `return _batch_to_df(core, params, num_results)`, its exception becoming the outcome. */
  method Fetch(server: Server, core: string, params: Params, numResults: nat) returns (outcome: Outcome)
    requires "start" in params.entries && params.entries["start"].Int?
    requires "rows" in params.entries && params.entries["rows"].Int? && params.entries["rows"].i > 0
    modifies server, params
    ensures params.entries == old(params.entries)["wt" := Str("json")]
    ensures var f := Chunks(server.respond, core, params.entries, old(params.entries)["start"].i,
                            old(params.entries)["rows"].i, numResults);
      && server.log == old(server.log) + f.log
      && outcome == match f.result case Ok(chunks) => Frame(Flatten(chunks)) case Err(e) => Failed(e)
  {
    var r := BatchToDf(server, core, params, numResults);
    outcome := match r case Ok(rows) => Frame(rows) case Err(e) => Failed(e);
  }

  /** Every later CSV block loses exactly its header line: what follows the header is appended after a newline. */
  lemma BodyDropsHeader(header: string, rows: string)
    requires '\n' !in header
    requires rows != [] && rows[|rows| - 1] == '\n'
    ensures Body(header + "\n" + rows) + "\n" == rows
  {
    var text := header + "\n" + rows;
    assert text == header + ['\n'] + rows;
    SplitAfter(header, '\n', rows);
    SplitLinesJoin(rows);
    var pieces := Split(rows, '\n');
    assert text[|text| - 1] == '\n';
    assert Rest(SplitLines(text)) == SplitLines(rows);
  }

  /** Appending a block with the same header to a CSV export adds its data rows only, after a blank separator line. */
  lemma CsvHeaderOnce(pages: seq<Page>, header: string, rows: string)
    requires pages != []
    requires '\n' !in header
    requires rows != [] && rows[|rows| - 1] == '\n'
    ensures CsvFile(pages + [Text(header + "\n" + rows)]) == CsvFile(pages) + "\n" + rows
  {
    var body := Body(header + "\n" + rows);
    CsvFileSnoc(pages, Text(header + "\n" + rows));
    BodyDropsHeader(header, rows);
    Assoc("\n", body, "\n");
    Assoc(CsvFile(pages), "\n", rows);
  }

  /** Two pages of a CSV export with the header "id,city": the second header is dropped, a blank line is left. */
  lemma CsvTwoPages()
    ensures CsvFile([Text("id,city\n1,Houston\n"), Text("id,city\n2,Prague\n")])
         == "id,city\n1,Houston\n" + "\n" + "2,Prague\n"
  {
    var first := Text("id,city\n1,Houston\n");
    assert "id,city\n2,Prague\n" == "id,city" + "\n" + "2,Prague\n";
    assert [first, Text("id,city\n2,Prague\n")] == [first] + [Text("id,city" + "\n" + "2,Prague\n")];
    CsvHeaderOnce([first], "id,city", "2,Prague\n");
  }

  /** A normal run without a single record still gives a well-formed empty array. */
  lemma EmptyJsonArray(ser: Doc -> string, s: Stream)
    requires Items(s.pages) == [] && s.end == Exhausted
    ensures JsonArray(ser, s) == "[\n\n]\n"
  {
  }

  /** The count is always asked for first, with no rows, as JSON, from offset 0. */
  lemma ProbeFirst(respond: Request -> Response, ser: Doc -> string, core: string, query: map<string, Value>,
                   download: bool, batchSize: int, dir: string, answer: string)
    requires batchSize > 0
    requires Normalised(query, batchSize).error.None?
    ensures var e := Expected(respond, ser, core, query, download, batchSize, dir, answer);
      && e.log != []
      && e.log[0] == Request(core, ProbeQuery(Normalised(query, batchSize).params))
      && e.log[0].query["start"] == Int(0) && e.log[0].query["rows"] == Int(0)
      && e.log[0].query["wt"] == Str("json")
  {
  }

  /** Downloading always writes `<core>.<wt>`, whatever the count, and never asks anything. */
  lemma DownloadExports(respond: Request -> Response, ser: Doc -> string, core: string, query: map<string, Value>,
                        batchSize: int, dir: string, answer: string, other: string)
    requires batchSize > 0
    requires Normalised(query, batchSize).error.None?
    requires SolrAnswer(respond(Request(core, ProbeQuery(Normalised(query, batchSize).params)))).Ok?
    ensures var e := Expected(respond, ser, core, query, true, batchSize, dir, answer);
      var name := ExportName(dir, core, Normalised(query, batchSize).params);
      && e == Expected(respond, ser, core, query, true, batchSize, dir, other)
      && e.file.Some? && e.file.value.path == name
      && (e.outcome == Saved(name) || e.outcome.Failed?)
  {
  }

  /** Without download, a count below one million fetches straight away: the answer is never consulted. */
  lemma SmallCountFetches(respond: Request -> Response, ser: Doc -> string, core: string, query: map<string, Value>,
                          batchSize: int, dir: string, answer: string, other: string)
    requires batchSize > 0
    requires Normalised(query, batchSize).error.None?
    requires var r := SolrAnswer(respond(Request(core, ProbeQuery(Normalised(query, batchSize).params))));
      r.Ok? && r.value.numFound < Threshold
    ensures var e := Expected(respond, ser, core, query, false, batchSize, dir, answer);
      && e == Expected(respond, ser, core, query, false, batchSize, dir, other)
      && (e.outcome.Frame? || e.outcome.Failed?)
      && e.file.None?
  {
    var n := Normalised(query, batchSize);
    var num := SolrAnswer(respond(Request(core, ProbeQuery(n.params)))).value.numFound;
    SmallCountIgnoresAnswer(num, answer, other);
  }

  /**
   * Without download, one million results or more prompt: "n"/"exit" exit and
   * "y"/"" fetch, any other answer returns None; declining sends nothing after the count.
   */
  lemma LargeCountPrompts(respond: Request -> Response, ser: Doc -> string, core: string, query: map<string, Value>,
                          batchSize: int, dir: string, answer: string)
    requires batchSize > 0
    requires Normalised(query, batchSize).error.None?
    requires var r := SolrAnswer(respond(Request(core, ProbeQuery(Normalised(query, batchSize).params))));
      r.Ok? && r.value.numFound >= Threshold
    ensures var e := Expected(respond, ser, core, query, false, batchSize, dir, answer);
      && (e.outcome == Exit <==> answer in {"n", "exit"})
      && (e.outcome == NoValue <==> answer !in {"n", "exit", "y", ""})
      && (e.outcome.Frame? || e.outcome.Failed? <==> answer in {"y", ""})
      && (answer !in {"y", ""} ==> |e.log| == 1 && e.file.None?)
  {
    var n := Normalised(query, batchSize);
    var num := SolrAnswer(respond(Request(core, ProbeQuery(n.params)))).value.numFound;
    PromptAnswers(num, false, answer);
  }

  /**
   * A JSON download whose every page arrives: the file is the complete array of
   * all records, after the count and `num_results // batch_size + 1` page requests.
   */
  lemma JsonDownloadComplete(respond: Request -> Response, ser: Doc -> string, core: string, query: map<string, Value>,
                             batchSize: int, dir: string, answer: string)
    requires batchSize > 0
    requires Normalised(query, batchSize).error.None?
    requires Get(Normalised(query, batchSize).params, "wt") == Str("json")
    requires SolrAnswer(respond(Request(core, ProbeQuery(Normalised(query, batchSize).params)))).Ok?
    requires var q := Normalised(query, batchSize).params;
      var num := SolrAnswer(respond(Request(core, ProbeQuery(q)))).value.numFound;
      Run(respond, core, q, Inclusive, 0, batchSize, num, false).end == Exhausted
    ensures var q := Normalised(query, batchSize).params;
      var num := SolrAnswer(respond(Request(core, ProbeQuery(q)))).value.numFound;
      var s := Run(respond, core, q, Inclusive, 0, batchSize, num, false);
      var e := Expected(respond, ser, core, query, true, batchSize, dir, answer);
      && e.outcome == Saved(ExportName(dir, core, q))
      && e.file == Some(Written(ExportName(dir, core, q), "[\n" + Join(",\n", SerAll(ser, Items(s.pages))) + "\n]\n"))
      && |e.log| == 1 + num / batchSize + 1
  {
    var q := Normalised(query, batchSize).params;
    var num := SolrAnswer(respond(Request(core, ProbeQuery(q)))).value.numFound;
    PageCounts(respond, core, q, Inclusive, batchSize, num);
  }
}
