/**
 * `queryDocumentsByIds` of gatsby-prismic-core: fetch the documents with the
 * given IDs page by page and concatenate the pages.
 */
module QueryDocuments {
  import opened Prismic

  /** The page size of every `getByIDs` request (gatsby-prismic-core's constants). */
  const QUERY_PAGE_SIZE: nat := 100

  /** The caller's options with `page` and `pageSize` spread over them. */
  function PageRequest(query: Query, options: QueryOptions, pageSize: nat, page: nat): (r: Request)
    ensures r.query == query && r.options.page == Some(page) && r.options.pageSize == Some(pageSize)
    ensures r.options.ref == options.ref && r.options.fetchLinks == options.fetchLinks && r.options.lang == options.lang
  {
    Request(query, options.(page := Some(page), pageSize := Some(pageSize)))
  }

  /**
   * The recursion of `aggregateQueryByIds`, for any positive page size:
   * request `page`, append its results to `docs`, and go on with `page + 1`
   * while `page * pageSize` is below the reported total.
   */
  function AggregatePages(server: Server, query: Query, options: QueryOptions, pageSize: nat, page: nat, docs: seq<Document>): (r: Fetched)
    requires pageSize > 0
    ensures r.requests != [] && r.requests[0] == PageRequest(query, options, pageSize, page)
    ensures |r.docs| >= |docs| && r.docs[..|docs|] == docs
    decreases server.totalResultsSize(query) - page * pageSize
  {
    var request := PageRequest(query, options, pageSize, page);
    var aggregateResults := docs + server.results(request);
    if page * pageSize < server.totalResultsSize(query) then
      var rest := AggregatePages(server, query, options, pageSize, page + 1, aggregateResults);
      assert rest.docs[..|docs|] == aggregateResults[..|docs|];
      Fetched(rest.docs, [request] + rest.requests)
    else
      Fetched(aggregateResults, [request])
  }

  /** `aggregateQueryByIds(client, ids, queryOptions, page, docs)`. */
  function AggregateQueryByIds(server: Server, ids: seq<string>, options: QueryOptions, page: nat, docs: seq<Document>): (r: Fetched)
    ensures r.requests != [] && r.requests[0] == PageRequest(ByIds(ids), options, QUERY_PAGE_SIZE, page)
    ensures |r.docs| >= |docs| && r.docs[..|docs|] == docs
  {
    AggregatePages(server, ByIds(ids), options, QUERY_PAGE_SIZE, page, docs)
  }

  /** The last page requested when starting at `page`: the first one whose end reaches `total`. */
  function LastPage(total: nat, pageSize: nat, page: nat): (last: nat)
    requires pageSize > 0
    ensures last >= page && last * pageSize >= total
    ensures last == page || (last - 1) * pageSize < total
    decreases total - page * pageSize
  {
    if page * pageSize < total then LastPage(total, pageSize, page + 1) else page
  }

  /** max(1, ceil(total / pageSize)). */
  function RequestCount(total: nat, pageSize: nat): nat
    requires pageSize > 0
  {
    if total <= pageSize then 1 else (total + pageSize - 1) / pageSize
  }

  /**
   * Starting at `page` with accumulator `docs`, the requests are pages
   * `page`, `page + 1`, ..., `LastPage` in that order, each with the caller's
   * options, and the result is `docs` followed by every page's results.
   */
  lemma {:induction false} AggregatePagesInOrder(server: Server, query: Query, options: QueryOptions, pageSize: nat, page: nat, docs: seq<Document>)
    requires pageSize > 0
    ensures var r := AggregatePages(server, query, options, pageSize, page, docs);
      && |r.requests| == LastPage(server.totalResultsSize(query), pageSize, page) - page + 1
      && (forall i :: 0 <= i < |r.requests| ==> r.requests[i] == PageRequest(query, options, pageSize, page + i))
      && r.docs == docs + ResultsOf(server, r.requests)
    decreases server.totalResultsSize(query) - page * pageSize
  {
    var request := PageRequest(query, options, pageSize, page);
    var aggregateResults := docs + server.results(request);
    var r := AggregatePages(server, query, options, pageSize, page, docs);
    if page * pageSize < server.totalResultsSize(query) {
      AggregatePagesInOrder(server, query, options, pageSize, page + 1, aggregateResults);
      var rest := AggregatePages(server, query, options, pageSize, page + 1, aggregateResults);
      assert r.requests == [request] + rest.requests;
      assert r.requests[1..] == rest.requests;
      forall i | 0 <= i < |r.requests|
        ensures r.requests[i] == PageRequest(query, options, pageSize, page + i)
      {
        if i > 0 {
          assert r.requests[i] == rest.requests[i - 1];
        }
      }
    } else {
      assert r.requests[1..] == [];
    }
  }

  /** Multiplication by a positive factor is monotonic. */
  lemma MulMonotonic(a: nat, b: nat, k: nat)
    requires a <= b
    ensures a * k <= b * k
  {
  }

  /** Starting at page 1, the last page is max(1, ceil(total / pageSize)). */
  lemma LastPageFromFirst(total: nat, pageSize: nat)
    requires pageSize > 0
    ensures LastPage(total, pageSize, 1) == RequestCount(total, pageSize)
  {
    var q := LastPage(total, pageSize, 1);
    if total > pageSize {
      assert q != 1;
      assert (q - 1) * pageSize < total <= q * pageSize;
      var a := total + pageSize - 1;
      assert q * pageSize <= a < (q + 1) * pageSize;
      var d := a / pageSize;
      assert a == d * pageSize + a % pageSize;
      if d < q {
        MulMonotonic(d + 1, q, pageSize);
        assert false;
      } else if d > q {
        MulMonotonic(q + 1, d, pageSize);
        assert false;
      }
    }
  }

  /**
   * A whole `aggregateQueryByIds` run, as `queryDocumentsByIds` starts it (page
   * 1, empty accumulator): max(1, ceil(T / QUERY_PAGE_SIZE)) requests for pages
   * 1, 2, ... in order, each over the caller's options, and the result is the
   * pages' results concatenated in page order, of the summed length.
   */
  lemma AggregateQueryByIdsFromFirstPage(server: Server, ids: seq<string>, options: QueryOptions)
    ensures var r := AggregateQueryByIds(server, ids, options, 1, []);
      && |r.requests| == RequestCount(server.totalResultsSize(ByIds(ids)), QUERY_PAGE_SIZE)
      && (forall i :: 0 <= i < |r.requests| ==> r.requests[i] == PageRequest(ByIds(ids), options, QUERY_PAGE_SIZE, i + 1))
      && r.docs == ResultsOf(server, r.requests)
      && |r.docs| == ResultCount(server, r.requests)
  {
    var r := AggregateQueryByIds(server, ids, options, 1, []);
    AggregatePagesInOrder(server, ByIds(ids), options, QUERY_PAGE_SIZE, 1, []);
    LastPageFromFirst(server.totalResultsSize(ByIds(ids)), QUERY_PAGE_SIZE);
    assert [] + ResultsOf(server, r.requests) == ResultsOf(server, r.requests);
    ResultsOfLength(server, r.requests);
  }

  /** The ref a query uses: the `ref` argument when truthy, else `getRef(client)`. */
  function SelectRef(client: Client, ref: Option<string>): string
  {
    if Truthy(ref) then ref.value else client.resolvedRef
  }

  /** `queryDocumentsByIds(ids, ref)` run against `client` with the environment's plugin options. */
  function QueryDocumentsByIds(client: Client, pluginOptions: PluginOptions, ids: seq<string>, ref: Option<string>): (r: Fetched)
    ensures r.requests != [] && r.requests[0].query == ByIds(ids) && r.requests[0].options.page == Some(1)
    ensures r.requests[0].options.ref == Some(SelectRef(client, ref))
  {
    AggregateQueryByIds(
      client.server, ids,
      QueryOptions(Some(SelectRef(client, ref)), pluginOptions.fetchLinks, pluginOptions.lang, None, None),
      1, [])
  }

  /**
   * Every request of `queryDocumentsByIds` asks for the same `ids` with the
   * same ref (the argument when truthy, else the client's resolved ref) and
   * the plugin's `fetchLinks` and `lang`; page `i + 1` is the `i`-th request,
   * and the pages' results come back concatenated in page order.
   */
  lemma QueryDocumentsByIdsRequests(client: Client, pluginOptions: PluginOptions, ids: seq<string>, ref: Option<string>)
    ensures var r := QueryDocumentsByIds(client, pluginOptions, ids, ref);
      && |r.requests| == RequestCount(client.server.totalResultsSize(ByIds(ids)), QUERY_PAGE_SIZE)
      && r.docs == ResultsOf(client.server, r.requests)
      && forall i :: 0 <= i < |r.requests| ==>
           && r.requests[i].query == ByIds(ids)
           && r.requests[i].options.ref == Some(if ref.Some? && ref.value != "" then ref.value else client.resolvedRef)
           && r.requests[i].options.fetchLinks == pluginOptions.fetchLinks
           && r.requests[i].options.lang == pluginOptions.lang
           && r.requests[i].options.page == Some(i + 1)
           && r.requests[i].options.pageSize == Some(QUERY_PAGE_SIZE)
  {
    var options := QueryOptions(Some(SelectRef(client, ref)), pluginOptions.fetchLinks, pluginOptions.lang, None, None);
    AggregateQueryByIdsFromFirstPage(client.server, ids, options);
  }

  /** A worked case: 250 results at 100 per page take three requests, for pages 1, 2 and 3. */
  lemma ThreePagesFor250(server: Server, ids: seq<string>, options: QueryOptions)
    requires server.totalResultsSize(ByIds(ids)) == 250
    ensures var r := AggregateQueryByIds(server, ids, options, 1, []);
      && |r.requests| == 3
      && r.docs == server.results(r.requests[0]) + server.results(r.requests[1]) + server.results(r.requests[2])
      && (forall i :: 0 <= i < 3 ==> r.requests[i].options.page == Some(i + 1) && r.requests[i].options.pageSize == Some(QUERY_PAGE_SIZE))
  {
    var r := AggregateQueryByIds(server, ids, options, 1, []);
    AggregateQueryByIdsFromFirstPage(server, ids, options);
    var rs := r.requests;
    assert rs[1..][1..][1..] == [];
    assert ResultsOf(server, rs[1..][1..]) == server.results(rs[2]);
    assert ResultsOf(server, rs[1..]) == server.results(rs[1]) + server.results(rs[2]);
  }
}
