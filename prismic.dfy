/**
 * The Prismic API as the plugin's core sees it: documents, query options,
 * requests, and a server abstracted to the responses it gives. Client
 * construction, transport and ref resolution are outside the model; a
 * `Client` is just the server it talks to and the ref `getRef` resolves.
 */
module Prismic {

  datatype Option<+T> = None | Some(value: T) {
    /** The value, or `default` when absent (JavaScript's `x || default` on arrays). */
    function GetOr(default: T): T {
      if Some? then value else default
    }
  }

  /** A Prismic document; the core only ever looks at its `id`. */
  datatype Document = Document(id: string, docType: string)

  /**
   * The options object passed to `client.query` / `client.getByIDs`.
   * An absent field is JavaScript's `undefined`.
   */
  datatype QueryOptions = QueryOptions(
    ref: Option<string>,
    fetchLinks: Option<seq<string>>,
    lang: Option<string>,
    page: Option<int>,
    pageSize: Option<int>)

  /** What is asked for: a list of document IDs (`getByIDs`) or a list of predicates (`query`). */
  datatype Query = ByIds(ids: seq<string>) | ByPredicates(predicates: seq<string>)

  /** One call to the remote API. */
  datatype Request = Request(query: Query, options: QueryOptions)

  /**
   * The remote API: the page of results it returns for each request, and the
   * `total_results_size` it reports, which is fixed for a given query.
   */
  datatype Server = Server(results: Request -> seq<Document>, totalResultsSize: Query -> nat)

  /** The client `createClient` builds, with the ref that `getRef(client)` resolves. */
  datatype Client = Client(server: Server, resolvedRef: string)

  /** The plugin options the core reads. */
  datatype PluginOptions = PluginOptions(
    repositoryName: string,
    releaseID: Option<string>,
    fetchLinks: Option<seq<string>>,
    lang: Option<string>)

  /** An aggregated fetch: the documents collected and the requests issued, in order. */
  datatype Fetched = Fetched(docs: seq<Document>, requests: seq<Request>)

  /** The results of `requests`, page after page, without deduplication. */
  function ResultsOf(server: Server, requests: seq<Request>): seq<Document>
  {
    if requests == [] then [] else server.results(requests[0]) + ResultsOf(server, requests[1..])
  }

  /** The sum of the page sizes the server returns for `requests`. */
  function ResultCount(server: Server, requests: seq<Request>): nat
  {
    if requests == [] then 0 else |server.results(requests[0])| + ResultCount(server, requests[1..])
  }

  /** Concatenating pages keeps every result: the length is the sum of the page lengths. */
  lemma {:induction false} ResultsOfLength(server: Server, requests: seq<Request>)
    ensures |ResultsOf(server, requests)| == ResultCount(server, requests)
  {
    if requests != [] {
      ResultsOfLength(server, requests[1..]);
    }
  }

  /** `docs.map(document => document.id)`. */
  function Ids(docs: seq<Document>): (r: seq<string>)
    ensures |r| == |docs|
    ensures forall i :: 0 <= i < |docs| ==> r[i] == docs[i].id
  {
    if docs == [] then [] else [docs[0].id] + Ids(docs[1..])
  }

  /** JavaScript truthiness of an optional string: present and non-empty. */
  predicate Truthy(s: Option<string>) {
    s.Some? && s.value != ""
  }

  /** A server that answers `getByIDs` only with documents whose IDs were asked for. */
  ghost predicate ReturnsOnlyRequestedIds(server: Server) {
    forall request, d :: d in server.results(request) && request.query.ByIds? ==> d.id in request.query.ids
  }
}
