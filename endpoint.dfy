/**
 * The search endpoint `<base>/<core>/select` as an oracle: a fixed response
 * for every request, and a log of the requests made, in order.
 */
module Endpoint {
  import opened Wrappers
  import opened Values

  /** One returned record. */
  type Doc = map<string, Value>

  /** A GET of `<base>/<core>/select` with the given query parameters. */
  datatype Request = Request(core: string, query: map<string, Value>)

  /** What the service answers: the status, `response.numFound`, `response.docs` and the raw body. */
  datatype Response = Response(status: int, numFound: nat, docs: seq<Doc>, text: string)

  const SuccessStatus := 200

  class Server {
    const respond: Request -> Response
    var log: seq<Request>

    constructor (respond: Request -> Response)
      ensures this.respond == respond && log == []
    {
      this.respond := respond;
      log := [];
    }

    /** `requests.get(...)`: one request, recorded, answered by the oracle. */
    method Get(req: Request) returns (resp: Response)
      modifies this
      ensures log == old(log) + [req] && resp == respond(req)
    {
      log := log + [req];
      resp := respond(req);
    }
  }

  /** The `(num_found, df)` pair `solr_request` returns. */
  datatype Answer = Answer(numFound: nat, docs: seq<Doc>)

  /**
   * What a caller's `num_results, df = solr_request(...)` makes of a response:
   * the count and records on status 200; on any other status `solr_request`
   * prints an error and returns `None`, and unpacking it fails.
   */
  function SolrAnswer(resp: Response): (r: Result<Answer, Error>)
    ensures r.Ok? <==> resp.status == SuccessStatus
    ensures r.Ok? ==> r.value == Answer(resp.numFound, resp.docs)
    ensures r.Err? ==> r.error == NotUnpackable
  {
    if resp.status == SuccessStatus then Ok(Answer(resp.numFound, resp.docs)) else Err(NotUnpackable)
  }

  /** `solr_request(core, params)`: exactly one request, whose answer is interpreted by SolrAnswer. */
  method SolrRequest(server: Server, core: string, query: map<string, Value>) returns (r: Result<Answer, Error>)
    modifies server
    ensures server.log == old(server.log) + [Request(core, query)]
    ensures r == SolrAnswer(server.respond(Request(core, query)))
  {
    var resp := server.Get(Request(core, query));
    r := SolrAnswer(resp);
  }

  /** One page a paginator yields: the decoded records, or the raw body text. */
  datatype Page = Docs(docs: seq<Doc>) | Text(text: string)

  /**
   * A paginator's reading of a response: any status but 200 raises; otherwise
   * `response.json()["response"]["docs"]` when `wt` is "json", `response.text` when not.
   */
  function PageOf(resp: Response, query: map<string, Value>): (r: Result<Page, Error>)
    ensures r.Err? <==> resp.status != SuccessStatus
    ensures r.Err? ==> r.error == HttpError(resp.status)
    ensures r.Ok? ==> (r.value.Docs? <==> Get(query, "wt") == Str("json"))
    ensures r.Ok? && r.value.Docs? ==> r.value.docs == resp.docs
    ensures r.Ok? && r.value.Text? ==> r.value.text == resp.text
  {
    if resp.status != SuccessStatus then Err(HttpError(resp.status))
    else if Get(query, "wt") == Str("json") then Ok(Docs(resp.docs))
    else Ok(Text(resp.text))
  }
}
