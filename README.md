# impc_api_helper batch engine and field validators, in Dafny

This project models two parts of the IMPC API helper (`impc_api_helper`):

- **The batch pagination and export engine of `batch_solr_request`**, in both of its variants:
  - `batch_solr_request.py`: inclusive paginator; the export is a JSON array or a CSV file.
  - `iterator_solr_request_2.py`: strict paginator; the export is JSON Lines or raw text blocks, the first rows are read back, and other formats go on to the memory gate.
- **The two core/field validators**:
  - `utils/validators.py` warns about everything.
  - `utils/utils.py` raises on an unknown core.

## How the engine is modelled

The engine is imperative code that changes things in place, so its model is too:

- **The caller's dictionary.** The caller's `params` is a class (`Query.Params`) whose `entries` map is updated in place. The engine writes the paging keys, the default format, the filter and every paginator offset into it.
- **The search service.** The service is an oracle: `Endpoint.Server` has a fixed `respond` function and a `log` of the requests sent, in order. Every contract can therefore say which requests were made, with which query, and in which order.
- **The generator.** `_batch_solr_generator` is the class `Pagination.Paginator`:
  - `Next()` is one `next(gen)`.
  - The ghost function `Pending()` is the rest of the run, given by the specification function `Pagination.Run`.
  - One `Bound` parameter chooses the loop condition: `start <= num_results` (`Inclusive`) or `start < num_results` (`Strict`).
  - In the inclusive variant, a loop that never runs leaves `response` unbound. The model states this as the end `Raised(UnboundResponse)`.
- **The destination file.** The file is `Export.OutFile`, a text buffer with `Open` and `Write`.
- **The whole call.** Each variant has a specification function `Expected`. Given the server's answers, the caller's dictionary, the flags and the prompt answer, it gives the outcome, the requests sent, the dictionary afterwards and the file written. The method `BatchSolrRequest` is proved to match it exactly.
- **The validators.** They are modelled on values: the `values` dictionary becomes `Fields.Input`, and the warnings emitted, in order, become a sequence of `Fields.Warning`. `validators.py` keeps its `ValidationJson` class.

## Model

| member | source | states |
|---|---|---|
| Values.Get | impc_api_helper/impc_api_helper/batch_solr_request.py:35-36 | `dict.get`: `None` for an absent key, the stored value otherwise |
| Values.Render | impc_api_helper/impc_api_helper/batch_solr_request.py:45-47 | `"{}".format(v)` of a string is the string itself |
| Endpoint.Server.Get | impc_api_helper/impc_api_helper/batch_solr_request.py:151 | a GET appends exactly that request to the log and returns the oracle's response to it |
| Endpoint.SolrAnswer | impc_api_helper/impc_api_helper/batch_solr_request.py:54-56 | a caller's `num_results, df = solr_request(...)` succeeds exactly on status 200, giving `numFound` and the records; on any other status `solr_request` returns `None` and the unpacking fails |
| Endpoint.SolrRequest | impc_api_helper/impc_api_helper/batch_solr_request.py:54-56 | one `solr_request` call sends exactly one request with the given query and returns that response's reading |
| Endpoint.PageOf | impc_api_helper/impc_api_helper/batch_solr_request.py:153-165 | a non-200 status raises with that status; otherwise the page is the records exactly when `wt` is "json", else the raw text |
| Strings.Join | impc_api_helper/impc_api_helper/batch_solr_request.py:46 | `sep.join(xs)`: the pieces in order, `sep` between neighbours and nowhere else; "" for no pieces, the piece itself for one |
| Strings.Split | impc_api_helper/impc_api_helper/utils/validators.py:33-34 | `s.split(c)` for a one-character separator: the runs of text between separators, in order; never empty, and "" gives [""] |
| Strings.SplitLines | impc_api_helper/impc_api_helper/batch_solr_request.py:201 | `text.splitlines()` when "\n" is the only line break: the split on "\n" without the empty piece after a final newline; no lines for "" |
| Query.FilterClause | impc_api_helper/impc_api_helper/batch_solr_request.py:45-47 | the filter `"{}:({})".format(field_type, " OR ".join(values))`: the type, ":(", the values joined with " OR ", then ")" |
| Query.Normalised | impc_api_helper/impc_api_helper/batch_solr_request.py:31-51 | the opening steps in source order: `start` 0, `rows` b, `wt` "json" when `None` or absent; a `field_list` that is not `None` is popped, then `field_type` is popped (`KeyError` when absent) and `fq` is set from the rendered values (`TypeError` when not iterable); the error, if any, that cut the steps short |
| Query.Elements | impc_api_helper/impc_api_helper/batch_solr_request.py:46 | the comprehension over `field_list`: a list gives each element's `str`, a string its characters, `None` or an int is not iterable |
| Query.Normalise | impc_api_helper/impc_api_helper/batch_solr_request.py:31-51 | the dictionary after the opening steps, and the exception that cut them short, are those of `Normalised` |
| Query.NormalisedPaging | impc_api_helper/impc_api_helper/batch_solr_request.py:31-36 | `start` is 0 and `rows` is the batch size afterwards; `wt` defaults to "json" only when it was `None` or absent |
| Query.NormalisedFilter | impc_api_helper/impc_api_helper/batch_solr_request.py:39-51 | a present `field_list` with a `field_type` becomes `fq = "<type>:(<v1> OR <v2> ...)"`, and both raw keys are removed |
| Query.NormalisedWithoutFilter | impc_api_helper/impc_api_helper/batch_solr_request.py:39 | without `field_list`, no key other than `start`, `rows` and `wt` changes |
| Query.NormalisedMissingType | impc_api_helper/impc_api_helper/batch_solr_request.py:41-42 | `field_list` without `field_type` raises `KeyError('field_type')`, with `field_list` already popped |
| Query.NormalisedKeepsOthers | impc_api_helper/impc_api_helper/batch_solr_request.py:31-51 | keys outside the six managed ones are never added, removed or changed |
| Query.FruitsFilter | impc_api_helper/impc_api_helper/iterator_solr_request_2.py:20-32 | the fruits example of the iterator variant's tests gives the filter `fruits:("orange" OR apple OR *berry)`, the one the test expects printed |
| Query.MarkerSymbolFilter | impc_api_helper/impc_api_helper/batch_solr_request.py:39-51 | two values give `marker_symbol:(A OR B)` |
| Query.ProbeQuery | impc_api_helper/impc_api_helper/batch_solr_request.py:55 | the count probe's query is the caller's dictionary with `start` 0, `rows` 0 and `wt` "json"; every other key is kept |
| Gate.Prompts | impc_api_helper/impc_api_helper/batch_solr_request.py:70 | the user is asked exactly when not (count below one million and no download) |
| Gate.Decide | impc_api_helper/impc_api_helper/batch_solr_request.py:70-87 | no prompt means fetch; once asked, "n"/"exit" exit, "y"/"" fetch, and any other answer matches no `case`, so the call returns None |
| Gate.SmallCountIgnoresAnswer | impc_api_helper/impc_api_helper/batch_solr_request.py:70-71 | below one million without download there is no prompt, and the fetch happens whatever would have been typed |
| Gate.PromptAnswers | impc_api_helper/impc_api_helper/batch_solr_request.py:78-87 | once prompted: "n"/"exit" exactly abort, "y"/"" exactly fetch, and every other answer falls through the `match` |
| Pagination.Offsets | impc_api_helper/impc_api_helper/batch_solr_request.py:145-168 | the offsets the generator's loop visits: `start`, then steps of `batch_size`, while `start <= num_results` (inclusive) or `start < num_results` (strict, impc_api_helper/impc_api_helper/iterator_solr_request_2.py) |
| Pagination.Run | impc_api_helper/impc_api_helper/batch_solr_request.py:145-169 | one step per visited offset: write it into the dictionary, send the dictionary, yield the docs for "json" or the text otherwise, raise on a status other than 200; an inclusive loop that never ran raises on `response.url` |
| Pagination.OffsetsAt | impc_api_helper/impc_api_helper/batch_solr_request.py:145-168 | the k-th offset visited is `start + k * batch_size`, and every visited offset satisfies the loop condition |
| Pagination.OffsetsEnd | impc_api_helper/impc_api_helper/batch_solr_request.py:149 | the first offset after the last visited one fails the loop condition, so no page is skipped at the end |
| Pagination.StrictOffsetsCount | impc_api_helper/impc_api_helper/iterator_solr_request_2.py:113-127 | `while start < num_results` visits ceil((num - start) / b) offsets |
| Pagination.InclusiveOffsetsCount | impc_api_helper/impc_api_helper/batch_solr_request.py:149-168 | `while start <= num_results` visits floor((num - start) / b) + 1 offsets |
| Pagination.RunIgnoresStart | impc_api_helper/impc_api_helper/batch_solr_request.py:150 | the `start` value already in the dictionary does not affect a run, because each step overwrites it |
| Pagination.RunRequests | impc_api_helper/impc_api_helper/batch_solr_request.py:149-168 | there is one request per visited offset, in order, each being the dictionary with that offset; there is one more request than pages exactly when a response failed, the failing response is the last one, and an exhausted run visits every offset |
| Pagination.RunPages | impc_api_helper/impc_api_helper/batch_solr_request.py:151-157 | every yielded page is what the response to the request at the same place in the log reads as: its records for "json", its text otherwise; no page comes without its request |
| Pagination.RunShape | impc_api_helper/impc_api_helper/batch_solr_request.py:154-157 | every yielded page is records when `wt` is "json", and text otherwise |
| Pagination.PageCounts | impc_api_helper/impc_api_helper/batch_solr_request.py:149-168 | a complete inclusive run makes num // b + 1 requests, its last at offset (num // b) * b; a complete strict run (`start < num_results`, iterator_solr_request_2.py) makes ceil(num / b) requests, none when the count is 0 |
| Pagination.LastOffset | impc_api_helper/impc_api_helper/batch_solr_request.py:150 | after a run, the caller's dictionary holds the offset of the last request, (requests - 1) * b, which is within bounds; after no request it is unchanged |
| Pagination.Paginator.constructor | impc_api_helper/impc_api_helper/batch_solr_request.py:129-146 | the generator reads its offset and page size from the dictionary; nothing has been sent yet, and what is pending is the whole run. The generator body reads them at the first `next()`, not at creation; no caller changes the dictionary in between, so the two agree |
| Pagination.Paginator.Next | impc_api_helper/impc_api_helper/batch_solr_request.py:149-169 | yields the next pending page or ends the run; an in-bounds step writes `start` into the shared dictionary and sends it; requests sent plus requests pending stay constant |
| Pagination.Pull | impc_api_helper/impc_api_helper/batch_solr_request.py:188 | one iteration of `for chunk in gen` yields the run's next page, of the format `wt` announces; at the end, every request of the run has been sent and the dictionary holds the last offset |
| Accumulate.Chunks | impc_api_helper/impc_api_helper/batch_solr_request.py:102-124 | `_batch_to_df`'s loop: while `start < num_results`, one `solr_request` with `{**params, "start": start, "rows": batch_size}`, its records appended; a failed request ends the loop with the unpacking error |
| Accumulate.Flatten | impc_api_helper/impc_api_helper/batch_solr_request.py:126 | `pd.concat(chunks, ignore_index=True)`: every row, chunk after chunk, in order |
| Accumulate.ChunksRequests | impc_api_helper/impc_api_helper/batch_solr_request.py:110-124 | `_batch_to_df` sends one request per strict offset, with `rows` equal to the page size; on success there is one chunk per request holding that response's records; a failure is the unpacking error, and the last request is the one whose status was not 200 |
| Accumulate.ChunkCount | impc_api_helper/impc_api_helper/batch_solr_request.py:102-126 | from offset 0, a successful fetch makes ceil(num / b) requests at offsets k * b; a count of 0 makes none and gives no rows |
| Accumulate.BatchToDf | impc_api_helper/impc_api_helper/batch_solr_request.py:91-126 | `wt` is forced to "json" in the caller's dictionary; the requests and rows are those of `Chunks` from `params["start"]` in steps of `params["rows"]`, all rows in request order, or the first failure |
| Export.ExportName | impc_api_helper/impc_api_helper/batch_solr_request.py:63 | the download target `Path(path_to_download) / f"{core}.{params['wt']}"` |
| Export.OutFile.Open | impc_api_helper/impc_api_helper/batch_solr_request.py:182 | `open(filename, "w")` targets the file and truncates it |
| Export.OutFile.Write | impc_api_helper/impc_api_helper/batch_solr_request.py:185 | `f.write(text)` appends exactly `text` |
| Export.ItemsSkipEmpty | impc_api_helper/impc_api_helper/batch_solr_request.py:188-195 | a page without records adds nothing to the export, wherever it stands |
| BatchRequest.JsonArray | impc_api_helper/impc_api_helper/batch_solr_request.py:184-196 | the JSON file: "[\n", the dumped records joined with ",\n", then "\n]\n" only when the run ended normally; an exception leaves the array unclosed |
| BatchRequest.CsvFile | impc_api_helper/impc_api_helper/batch_solr_request.py:198-208 | the CSV file: the first block verbatim, each later block as "\n", its `Body`, then "\n" |
| BatchRequest.Body | impc_api_helper/impc_api_helper/batch_solr_request.py:201-208 | a later CSV block as written: `"\n".join(chunk.splitlines()[1:])`, its lines after the header |
| BatchRequest.ExportFile | impc_api_helper/impc_api_helper/batch_solr_request.py:182-208 | what `_solr_downloader` leaves in the file: `JsonArray` for "json", `CsvFile` for "csv", and the empty file `open(..., "w")` made for any other format |
| BatchRequest.Counted | impc_api_helper/impc_api_helper/batch_solr_request.py:31-56 | normalisation, then, unless it raised, the single count probe `{**params, "start": 0, "rows": 0, "wt": "json"}`; the count, or the exception of normalisation or of the failed probe |
| BatchRequest.Expected | impc_api_helper/impc_api_helper/batch_solr_request.py:10-87 | the whole call: the outcome, the requests sent, the caller's dictionary afterwards and the file written, `Counted` followed by `Proceed` |
| BatchRequest.Proceed | impc_api_helper/impc_api_helper/batch_solr_request.py:61-87 | after the count: a download runs the inclusive paginator from 0 into `ExportFile` for "json"/"csv" and returns None or the paginator's exception, and for other formats only truncates the file; without download `Decide` chooses `Chunks` from 0 with `wt` "json", exit, or None |
| BatchRequest.OpenedJoin | impc_api_helper/impc_api_helper/batch_solr_request.py:185-195 | writing "[\n", then each record with ",\n" before every record but the first, gives "[\n" followed by the records joined with ",\n" |
| BatchRequest.WriteRecords | impc_api_helper/impc_api_helper/batch_solr_request.py:190-195 | the inner loop appends one page's records to the open array, keeping the `first_chunk` flag true exactly while nothing has been written |
| BatchRequest.WriteJsonPage | impc_api_helper/impc_api_helper/batch_solr_request.py:188-195 | after one more page, the file is the array prefix of all records so far |
| BatchRequest.WriteCsvPage | impc_api_helper/impc_api_helper/batch_solr_request.py:200-208 | the first block is written whole; every later block is written as "\n", its lines after the first joined with "\n", then "\n" |
| BatchRequest.DrainJson | impc_api_helper/impc_api_helper/batch_solr_request.py:184-196 | the JSON file is "[\n", all records of the run separated by ",\n", then "\n]\n" only when the run ended normally; the requests are the run's requests |
| BatchRequest.DrainCsv | impc_api_helper/impc_api_helper/batch_solr_request.py:198-208 | the CSV file is `CsvFile` of the run's pages; the requests are the run's requests |
| BatchRequest.SolrDownloader | impc_api_helper/impc_api_helper/batch_solr_request.py:173-208 | the file is truncated; for "json"/"csv" it is filled from the whole run; for any other format it stays empty and the generator never starts (no request, dictionary unchanged) |
| BatchRequest.Count | impc_api_helper/impc_api_helper/batch_solr_request.py:31-56 | normalises in place, then sends the one count probe unless normalisation raised; on success the dictionary has `start` 0 and `rows` b |
| BatchRequest.BatchSolrRequest | impc_api_helper/impc_api_helper/batch_solr_request.py:10-87 | outcome, requests sent, the caller's dictionary afterwards and the file are exactly those of `Expected` |
| BatchRequest.Dispatch | impc_api_helper/impc_api_helper/batch_solr_request.py:61-87 | after the count: a download exports and returns None or the exception; otherwise the memory gate decides between fetch, exit and None |
| BatchRequest.Fetch | impc_api_helper/impc_api_helper/batch_solr_request.py:71 | `return _batch_to_df(...)`: a table of all rows, or the exception it raised |
| BatchRequest.BodyDropsHeader | impc_api_helper/impc_api_helper/batch_solr_request.py:201-208 | for a block "header\nrows" whose rows end in a newline, the later-block text is exactly the rows |
| BatchRequest.CsvHeaderOnce | impc_api_helper/impc_api_helper/batch_solr_request.py:198-208 | appending a block with the same header adds "\n" and its data rows only: the header appears once, followed by a blank line |
| BatchRequest.CsvTwoPages | impc_api_helper/impc_api_helper/batch_solr_request.py:198-208 | the two-page example "id,city\n1,Houston\n", "id,city\n2,Prague\n" exports as the first block, an empty line, then "2,Prague\n" |
| BatchRequest.EmptyJsonArray | impc_api_helper/impc_api_helper/batch_solr_request.py:184-196 | a normal run without a single record still writes the well-formed "[\n\n]\n" |
| BatchRequest.ProbeFirst | impc_api_helper/impc_api_helper/batch_solr_request.py:54-56 | the first request is always the count probe: no rows, JSON, offset 0 |
| BatchRequest.DownloadExports | impc_api_helper/impc_api_helper/batch_solr_request.py:61-67 | a download always writes `<dir>/<core>.<wt>`, never prompts, and returns None or the exception |
| BatchRequest.SmallCountFetches | impc_api_helper/impc_api_helper/batch_solr_request.py:70-71 | without download, a count below one million fetches straight away, whatever the answer, and writes no file |
| BatchRequest.LargeCountPrompts | impc_api_helper/impc_api_helper/batch_solr_request.py:74-87 | without download, one million or more prompts: exit exactly on "n"/"exit", a table or the exception exactly on "y"/"", None otherwise; declining sends nothing after the count |
| BatchRequest.JsonDownloadComplete | impc_api_helper/impc_api_helper/batch_solr_request.py:61-67 | a complete JSON download writes the whole array of every record, after the count and num // b + 1 page requests |
| IteratorRequest.Dump | impc_api_helper/impc_api_helper/iterator_solr_request_2.py:138-139 | the text blocks written back to back, verbatim, headers included |
| IteratorRequest.LinesFile | impc_api_helper/impc_api_helper/iterator_solr_request_2.py:131-139 | what this `_solr_downloader` leaves in the file: for "json" one dumped record per line, each followed by "\n"; otherwise `Dump` of the pages |
| IteratorRequest.Expected | impc_api_helper/impc_api_helper/iterator_solr_request_2.py:10-72 | the whole call of this variant: `Counted` followed by this variant's `Proceed` |
| IteratorRequest.Proceed | impc_api_helper/impc_api_helper/iterator_solr_request_2.py:42-72 | after the count: `Downloaded` when downloading, otherwise `Gated` from offset 0 without the download flag |
| IteratorRequest.Downloaded | impc_api_helper/impc_api_helper/iterator_solr_request_2.py:42-72 | the strict run from 0 written as `LinesFile`; a failed page is the exception, the file as far as written; "json"/"csv" read back b rows; any other format goes on to `Gated` from the offset the generator left in the dictionary, with the download flag set |
| IteratorRequest.Gated | impc_api_helper/impc_api_helper/iterator_solr_request_2.py:54-103 | `Decide` with the download flag; a fetch is `Chunks` from the given offset in steps of `rows` with `wt` forced to "json", then `Flatten`; exit; or None |
| IteratorRequest.WriteLines | impc_api_helper/impc_api_helper/iterator_solr_request_2.py:134-137 | each record of a page is dumped and followed by a newline, in order |
| IteratorRequest.WritePage | impc_api_helper/impc_api_helper/iterator_solr_request_2.py:133-139 | one chunk: its records as lines when the dictionary says "json", else its text verbatim |
| IteratorRequest.SolrDownloader | impc_api_helper/impc_api_helper/iterator_solr_request_2.py:131-139 | the file holds the JSON Lines of every record, or every text block back to back; the requests are the run's; the dictionary holds the last offset |
| IteratorRequest.BatchSolrRequest | impc_api_helper/impc_api_helper/iterator_solr_request_2.py:10-72 | outcome, requests, the caller's dictionary and the file are exactly those of this variant's `Expected` |
| IteratorRequest.Dispatch | impc_api_helper/impc_api_helper/iterator_solr_request_2.py:42-72 | after the count: the download path, or the memory gate from offset 0 |
| IteratorRequest.Download | impc_api_helper/impc_api_helper/iterator_solr_request_2.py:42-52 | exports with the strict paginator; then reads back b rows for "json"/"csv", raises the generator's exception, or goes on to the gate from the offset left in the dictionary |
| IteratorRequest.WriteExport | impc_api_helper/impc_api_helper/iterator_solr_request_2.py:44-46 | creating the generator and draining it writes the whole strict run into the named file |
| IteratorRequest.MemoryGate | impc_api_helper/impc_api_helper/iterator_solr_request_2.py:55-72 | the gate fetches from the dictionary's `start` and `rows`, or exits, or returns None, as `Decide` says |
| IteratorRequest.JsonLinesRecords | impc_api_helper/impc_api_helper/iterator_solr_request_2.py:134-137 | when no dumped record contains a newline, the file's lines are exactly the dumped records, in order |
| IteratorRequest.CsvKeepsEveryHeader | impc_api_helper/impc_api_helper/iterator_solr_request_2.py:138-139 | CSV blocks are written whole, so the two-page example keeps both header lines |
| IteratorRequest.SameWithoutDownload | impc_api_helper/impc_api_helper/iterator_solr_request_2.py:54-72 | without download, the two variants have the same outcome, requests and dictionary |
| IteratorRequest.DownloadPreview | impc_api_helper/impc_api_helper/iterator_solr_request_2.py:42-52 | a "json"/"csv" download never prompts and sends only the run's requests; complete, it reads back b rows after ceil(num / b) requests; a failed page gives the exception |
| IteratorRequest.EmptyDownload | impc_api_helper/impc_api_helper/iterator_solr_request_2.py:42-52 | with a count of 0, a download sends no page request, leaves an empty file and still reaches the read-back `Preview` (which pandas answers with an error for CSV) |
| IteratorRequest.LastPageAgain | impc_api_helper/impc_api_helper/iterator_solr_request_2.py:78-103 | `_batch_to_df` from the offset a complete strict run left behind makes exactly one request, for the last page |
| IteratorRequest.OtherFormatPrompts | impc_api_helper/impc_api_helper/iterator_solr_request_2.py:42-72 | a download in another format writes the text blocks and then always prompts: "n"/"exit" exit, "y"/"" refetch only the last page as the table, anything else returns None |
| Fields.GetFields | impc_api_helper/impc_api_helper/utils/validators.py:33-34 | `fields.split(",")` always has at least one piece |
| Fields.GetFieldsRoundTrip | impc_api_helper/impc_api_helper/utils/validators.py:33-34 | the pieces joined with "," give the input back; there is one more piece than commas, and no piece holds a comma (the same `get_fields` is in utils/utils.py:19-20) |
| Fields.GetFieldsOfJoin | impc_api_helper/impc_api_helper/utils/validators.py:33-34 | comma-free names joined with "," split back into the same names (for both copies of `get_fields`) |
| Fields.FieldWarnings | impc_api_helper/impc_api_helper/utils/validators.py:70-73 | one warning per name not among the valid fields, in the order of the names, of the category the validator uses |
| Fields.FieldCheck | impc_api_helper/impc_api_helper/utils/validators.py:57-75 | `params.get("fl")`: `params` not a dictionary is an `AttributeError`; no `fl` returns `values`; a string is split, every unknown name warned about, and `values` returned; any other value has no `split` |
| Fields.FieldsFor | impc_api_helper/impc_api_helper/utils/validators.py:29-30 | `validation_json.get(core, [])`: a known core's fields, none for any other value |
| Fields.FieldWarningsAppend | impc_api_helper/impc_api_helper/utils/validators.py:70-73 | the warnings for consecutive names are the warnings for each part, in order |
| Fields.FieldWarningsNone | impc_api_helper/impc_api_helper/utils/validators.py:70-73 | no field warning at all exactly when every name is among the valid fields |
| Fields.FieldWarningsAll | impc_api_helper/impc_api_helper/utils/validators.py:70-73 | with no valid fields, every name warns, one warning per name, in order |
| Validators.ValidationJson.constructor | impc_api_helper/impc_api_helper/utils/validators.py:19-20 | the table is loaded eagerly, when the object is created |
| Validators.ValidationJson.ValidCores | impc_api_helper/impc_api_helper/utils/validators.py:26-27 | the valid cores are exactly the table's keys |
| Validators.ValidationJson.ValidFields | impc_api_helper/impc_api_helper/utils/validators.py:29-30 | the valid fields of a core are the listed ones for a known core, none otherwise |
| Validators.Validated | impc_api_helper/impc_api_helper/utils/validators.py:43-75 | an `InvalidCoreWarning` first when the core is unknown, then `FieldCheck` against the core's fields (none for an unknown core) with `InvalidFieldWarning` |
| Validators.ValidateCoreAndFields | impc_api_helper/impc_api_helper/utils/validators.py:43-75 | the result and the warnings, in emission order, are those of `Validated`: core warning first, then the field check |
| Validators.WarnFields | impc_api_helper/impc_api_helper/utils/validators.py:70-73 | the loop emits one `InvalidFieldWarning` per name not listed for the core, in order |
| Validators.ReturnsValues | impc_api_helper/impc_api_helper/utils/validators.py:60-75 | whenever it returns, it returns `values` itself; it returns exactly when `params` is a dictionary whose `fl` is absent or a string |
| Validators.UnknownCoreWarns | impc_api_helper/impc_api_helper/utils/validators.py:51-54 | an unknown core is one warning, emitted first; validation goes on, and every field then warns |
| Validators.NoFieldsSkipped | impc_api_helper/impc_api_helper/utils/validators.py:60-62 | without `fl`, `values` is returned with at most the core warning |
| Validators.KnownCoreFieldWarnings | impc_api_helper/impc_api_helper/utils/validators.py:65-73 | for a known core, one `InvalidFieldWarning` per unlisted name, in order, and none exactly when every name is listed |
| Utils.Validated | impc_api_helper/impc_api_helper/utils/utils.py:29-55 | an unknown core is the `ValueError` with no warning; a known core gets `FieldCheck` against its fields with `UserWarning` |
| Utils.ValidateCoreAndFields | impc_api_helper/impc_api_helper/utils/utils.py:29-55 | the result and the warnings, in emission order, are those of `Validated` |
| Utils.UnknownCoreRaises | impc_api_helper/impc_api_helper/utils/utils.py:34-35 | an unknown core raises at once, with no warning, whatever the parameters hold |
| Utils.NoFieldsSkipped | impc_api_helper/impc_api_helper/utils/utils.py:41-43 | for a known core without `fl`, `values` is returned with no warning |
| Utils.KnownCoreFieldWarnings | impc_api_helper/impc_api_helper/utils/utils.py:46-53 | for a known core, one `UserWarning` per name not accepted, in order, and none exactly when every name is accepted |
| Utils.AgreesOnKnownCore | impc_api_helper/impc_api_helper/utils/utils.py:29-55 | for a known core the two validators have the same result, and warnings about the same names at the same places, differing only in category |
| Utils.SameNames | impc_api_helper/impc_api_helper/utils/utils.py:50-53 | the strict and the lenient field loops warn about the same names, in the same order |

## Left out

- HTTP, `tqdm` progress bars, `print`, `display` and the 10-second timeout are not modelled. The service is the `respond` oracle, and only the requests sent are observable.
- `solr_request` is not part of this model. Its behaviour is taken as: one request; status 200 gives `numFound` and the records; any other status prints an error and returns `None`, so the caller's tuple unpacking raises `TypeError` (the error `NotUnpackable`, which carries no status). Its facet mode (`facet=on`, where the second value is the facet counts) is not modelled: the second value is always the records.
- `json.dump` of a record is the parameter `ser`. JSON escaping and the `ensure_ascii` flag are not modelled.
- The read-back is recorded only as `Preview(path, nrows)`. This covers `pandas.read_json`/`read_csv` in the iterator variant: `Preview` stands for whatever that pandas call gives, including the exceptions it raises, such as `EmptyDataError` when `read_csv` reads the empty file a count of 0 leaves. `pd.concat` is modelled as the rows in order, and the model does not raise on an empty list of chunks the way `pd.concat([])` does.
- `exit()` is the outcome `Exit`, and `input()` is the `answer` parameter.
- The file is a text buffer. Encoding, file system errors and the directory's existence are not modelled.
- `core_fields.json` is not read. The table is a parameter: `loaded` for `ValidationJson`, and `validationJson` for the module-level table in `utils.py`.
- pydantic's `model_validator` machinery, the warning filters of `warning_config`, and the warning message texts are left out. A warning keeps only its category and its subject (the core or the field name).
- `str.splitlines` is modelled on "\n" only. Other line boundaries ("\r", "\r\n", "\x0b", ...) are not split.
- A `core` value that is a list cannot be hashed, so in the source `core not in ...keys()` raises `TypeError`. The model treats such a core as unknown, so `validators.py` warns and `utils.py` raises `InvalidCore`.
- `repr` of strings does no escaping and always uses single quotes, whereas Python switches to double quotes for a string holding `'` and no `"` (this shows only in the `str` of a nested list element). The only values are `None`, strings, integers and lists of them, so booleans and floats in the dictionary are not modelled.
- BatchRequest.BatchSolrRequest: requires `batch_size > 0`. In the source, a page size of 0 or less can loop forever once a page loop is entered and every response succeeds; with a count of 0 and no download, with another format in the inclusive variant's download, or when a request fails, it still ends. The model excludes every such size. IteratorRequest.BatchSolrRequest, Accumulate.BatchToDf and Pagination.Paginator.constructor require the same.
