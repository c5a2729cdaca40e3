/**
 * What the streaming writers work with: the destination file as a text
 * buffer, and the records or text blocks of the pages drained from a paginator.
 */
module Export {
  import opened Wrappers
  import opened Strings
  import opened Values
  import opened Endpoint

  /** `Path(path_to_download) / name`. */
  datatype FilePath = FilePath(dir: string, name: string)

  /** A file that was written: where, and what it holds. */
  datatype Written = Written(path: FilePath, contents: string)

  /** The destination file, opened for writing and appended to. */
  class OutFile {
    var path: FilePath
    var contents: string

    constructor (path: FilePath, contents: string)
      ensures this.path == path && this.contents == contents
    {
      this.path := path;
      this.contents := contents;
    }

    /** `open(filename, "w")`: creates or truncates the file. */
    method Open(filename: FilePath)
      modifies this
      ensures path == filename && contents == ""
    {
      path := filename;
      contents := "";
    }

    /** `f.write(text)`. */
    method Write(text: string)
      modifies this
      ensures path == old(path) && contents == old(contents) + text
    {
      contents := contents + text;
    }
  }

  /** Taking one more element of `more` after `seen`. */
  lemma GrowPrefix<T>(seen: seq<T>, more: seq<T>, i: nat)
    requires i < |more|
    ensures seen + more[..i + 1] == (seen + more[..i]) + [more[i]]
  {
    assert more[..i + 1] == more[..i] + [more[i]];
  }

  /** The records of the pages, page after page; a text page holds no records. */
  function Items(pages: seq<Page>): seq<Doc>
    decreases |pages|
  {
    if pages == [] then []
    else Items(pages[..|pages| - 1]) + (if pages[|pages| - 1].Docs? then pages[|pages| - 1].docs else [])
  }

  lemma ItemsSnoc(pages: seq<Page>, page: Page)
    ensures Items(pages + [page]) == Items(pages) + (if page.Docs? then page.docs else [])
  {
    assert (pages + [page])[..|pages|] == pages;
  }

  /** The text of a text page; a record page has none. */
  function TextOf(page: Page): string
  {
    if page.Text? then page.text else ""
  }

  /** Each record serialised, in order (`json.dump(item)`). */
  function SerAll(ser: Doc -> string, items: seq<Doc>): seq<string>
    decreases |items|
  {
    if items == [] then [] else SerAll(ser, items[..|items| - 1]) + [ser(items[|items| - 1])]
  }

  lemma SerAllSnoc(ser: Doc -> string, items: seq<Doc>, item: Doc)
    ensures SerAll(ser, items + [item]) == SerAll(ser, items) + [ser(item)]
  {
    assert (items + [item])[..|items|] == items;
  }

  /** One serialised text per record, at the record's position. */
  lemma {:induction false} SerAllAt(ser: Doc -> string, items: seq<Doc>)
    ensures |SerAll(ser, items)| == |items|
    ensures forall k :: 0 <= k < |items| ==> SerAll(ser, items)[k] == ser(items[k])
    decreases |items|
  {
    if items != [] {
      SerAllAt(ser, items[..|items| - 1]);
    }
  }

  /** Record pages with no records contribute nothing, wherever they stand. */
  lemma {:induction false} ItemsSkipEmpty(pages: seq<Page>, more: seq<Page>)
    ensures Items(pages + [Docs([])] + more) == Items(pages + more)
    decreases |more|
  {
    if more == [] {
      ItemsSnoc(pages, Docs([]));
      assert pages + [Docs([])] + more == pages + [Docs([])];
      assert pages + more == pages;
    } else {
      var init := more[..|more| - 1];
      var last := more[|more| - 1];
      ItemsSkipEmpty(pages, init);
      assert pages + [Docs([])] + more == (pages + [Docs([])] + init) + [last];
      assert pages + more == (pages + init) + [last];
      ItemsSnoc(pages + [Docs([])] + init, last);
      ItemsSnoc(pages + init, last);
    }
  }

  /** What a `batch_solr_request` call ends with. */
  datatype Outcome =
    | Frame(rows: seq<Doc>)               // the table of every fetched row
    | Saved(path: FilePath)               // the export was written; the function returns None
    | Preview(path: FilePath, nrows: int) // the export was written and its first `nrows` rows are read back
    | Exit                                // the user declined at the prompt and the process exits
    | NoValue                             // an answer matching no case: the function returns None
    | Failed(error: Error)                // an exception escaped

  /** Everything one call does: its outcome, the requests it sent, the caller's dictionary afterwards, the file written. */
  datatype Effect = Effect(outcome: Outcome, log: seq<Request>, params: map<string, Value>, file: Option<Written>)

  /** The file `<dir>/<core>.<wt>` that a download writes. */
  function ExportName(dir: string, core: string, query: map<string, Value>): FilePath
  {
    FilePath(dir, core + "." + Render(Get(query, "wt")))
  }
}
