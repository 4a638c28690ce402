/**
 * `fetchAllDocuments` of the legacy gatsby-source-prismic: build the API
 * endpoint from the repository name, run one `pagedGet` per query predicate,
 * and wait for all of them.
 *
 * `pagedGet` decides whether to fetch another page by testing
 * `queryOptions.page * queryOptions.pageSize < total_results_size`, that is
 * the caller's options and not its own `page` and `pageSize` parameters. In
 * JavaScript a product with an `undefined` operand is `NaN` and every
 * comparison with `NaN` is false, so the test holds only when the caller's
 * options carry both fields. The test is the same on every recursive call, so
 * once it holds the recursion never stops; `PagedGet` takes a `fuel` bound and
 * reports `None` when it runs out.
 */
module LegacyFetch {
  import opened Prismic
  import opened QueryDocuments

  /** `msg(s)`: the package name, `" - "`, then the text. */
  function Msg(pkgName: string, s: string): (r: string)
    ensures |r| == |pkgName| + 3 + |s|
    ensures r[..|pkgName|] == pkgName && r[|pkgName|..|pkgName| + 3] == " - " && r[|pkgName| + 3..] == s
  {
    pkgName + " - " + s
  }

  /** The character of a decimal digit. */
  function DigitChar(d: nat): (c: char)
    requires d < 10
    ensures '0' <= c <= '9'
  {
    ('0' as int + d) as char
  }

  predicate IsDecimal(s: string) {
    forall i :: 0 <= i < |s| ==> '0' <= s[i] <= '9'
  }

  /** A natural number in decimal digits with no leading zero, as a template literal writes a page number below 10^21. */
  function DecimalString(n: nat): (r: string)
    ensures r != [] && IsDecimal(r)
    ensures n > 0 ==> r[0] != '0'
    ensures n == 0 ==> r == "0"
    decreases n
  {
    if n < 10 then [DigitChar(n)] else DecimalString(n / 10) + [DigitChar(n % 10)]
  }

  /** The value of a string of decimal digits. */
  function ParseDecimal(s: string): nat
    requires IsDecimal(s)
  {
    if s == [] then 0 else ParseDecimal(s[..|s| - 1]) * 10 + (s[|s| - 1] as int - '0' as int)
  }

  /** The page number in a log message reads back as the page number. */
  lemma {:induction false} DecimalStringRoundTrip(n: nat)
    ensures ParseDecimal(DecimalString(n)) == n
    decreases n
  {
    if n >= 10 {
      DecimalStringRoundTrip(n / 10);
      var s := DecimalString(n);
      assert s[..|s| - 1] == DecimalString(n / 10);
    }
  }

  /** The verbose message `pagedGet` logs before requesting `page`. */
  function FetchingPageMessage(pkgName: string, page: nat): string
  {
    Msg(pkgName, "fetching documents page " + DecimalString(page))
  }

  /** The endpoint `fetchAllDocuments` builds for a repository. */
  function ApiEndpoint(repositoryName: string): string
  {
    "https://" + repositoryName + ".prismic.io/api/v2"
  }

  /** The repository an endpoint of that form names, if it has that form. */
  function RepositoryNameOf(endpoint: string): Option<string>
  {
    var prefix := "https://";
    var suffix := ".prismic.io/api/v2";
    if |endpoint| >= |prefix| + |suffix|
      && endpoint[..|prefix|] == prefix
      && endpoint[|endpoint| - |suffix|..] == suffix
    then Some(endpoint[|prefix|..|endpoint| - |suffix|])
    else None
  }

  /** The endpoint is exactly `https://` + name + `.prismic.io/api/v2`: the name reads back from it, in both directions. */
  lemma ApiEndpointRoundTrip(repositoryName: string, endpoint: string)
    ensures RepositoryNameOf(ApiEndpoint(repositoryName)) == Some(repositoryName)
    ensures RepositoryNameOf(endpoint) == Some(repositoryName) ==> ApiEndpoint(repositoryName) == endpoint
  {
    var e := ApiEndpoint(repositoryName);
    assert e[..8] == "https://";
    assert e[|e| - 18..] == ".prismic.io/api/v2";
    assert e[8..|e| - 18] == repositoryName;
    if RepositoryNameOf(endpoint) == Some(repositoryName) {
      assert endpoint == endpoint[..8] + endpoint[8..|endpoint| - 18] + endpoint[|endpoint| - 18..];
    }
  }

  /** The continuation test as written: both option fields present and their product below the total. */
  predicate ContinuesAsWritten(queryOptions: QueryOptions, total: nat)
  {
    queryOptions.page.Some? && queryOptions.pageSize.Some?
    && queryOptions.page.value * queryOptions.pageSize.value < total
  }

  /**
   * One `pagedGet` call chain: the messages logged and the requests issued,
   * in order, and the documents it resolves to (`None` when it has not
   * resolved within `fuel` requests).
   */
  datatype PagedRun = PagedRun(logs: seq<string>, requests: seq<Request>, docs: Option<seq<Document>>)

  /** `pagedGet(client, query, queryOptions, context, pageSize, page, acc)`, as written, for at most `fuel` requests. */
  function PagedGet(server: Server, pkgName: string, query: seq<string>, queryOptions: QueryOptions,
                    pageSize: nat, page: nat, acc: seq<Document>, fuel: nat): (r: PagedRun)
    ensures |r.logs| == |r.requests| <= fuel
    decreases fuel
  {
    if fuel == 0 then PagedRun([], [], None)
    else
      var request := PageRequest(ByPredicates(query), queryOptions, pageSize, page);
      var log := FetchingPageMessage(pkgName, page);
      var acc' := acc + server.results(request);
      if ContinuesAsWritten(queryOptions, server.totalResultsSize(ByPredicates(query))) then
        var rest := PagedGet(server, pkgName, query, queryOptions, pageSize, page + 1, acc', fuel - 1);
        PagedRun([log] + rest.logs, [request] + rest.requests, rest.docs)
      else
        PagedRun([log], [request], Some(acc'))
  }

  /**
   * As written, `pagedGet` either stops after its first request, resolving to
   * `acc` followed by that page's results, or (when the caller's options pass
   * the test) requests pages `page`, `page + 1`, ... for as long as it runs
   * and never resolves. Request `i` carries page `page + i` and `pageSize`
   * over the caller's options, and log message `i` is the message for that
   * page.
   */
  lemma {:induction false} PagedGetAsWritten(server: Server, pkgName: string, query: seq<string>, queryOptions: QueryOptions,
                                             pageSize: nat, page: nat, acc: seq<Document>, fuel: nat)
    ensures var r := PagedGet(server, pkgName, query, queryOptions, pageSize, page, acc, fuel);
      var continues := ContinuesAsWritten(queryOptions, server.totalResultsSize(ByPredicates(query)));
      && |r.requests| == (if continues || fuel == 0 then fuel else 1)
      && (forall i :: 0 <= i < |r.requests| ==>
            && r.requests[i] == PageRequest(ByPredicates(query), queryOptions, pageSize, page + i)
            && r.logs[i] == FetchingPageMessage(pkgName, page + i))
      && (r.docs.Some? <==> fuel >= 1 && !continues)
      && (r.docs.Some? ==> r.docs.value == acc + server.results(r.requests[0]))
    decreases fuel
  {
    var r := PagedGet(server, pkgName, query, queryOptions, pageSize, page, acc, fuel);
    if fuel > 0 && ContinuesAsWritten(queryOptions, server.totalResultsSize(ByPredicates(query))) {
      var request := PageRequest(ByPredicates(query), queryOptions, pageSize, page);
      var acc' := acc + server.results(request);
      PagedGetAsWritten(server, pkgName, query, queryOptions, pageSize, page + 1, acc', fuel - 1);
      var rest := PagedGet(server, pkgName, query, queryOptions, pageSize, page + 1, acc', fuel - 1);
      assert r.requests[1..] == rest.requests && r.logs[1..] == rest.logs;
      forall i | 0 <= i < |r.requests|
        ensures r.requests[i] == PageRequest(ByPredicates(query), queryOptions, pageSize, page + i)
        ensures r.logs[i] == FetchingPageMessage(pkgName, page + i)
      {
        if i > 0 {
          assert r.requests[i] == rest.requests[i - 1];
          assert r.logs[i] == rest.logs[i - 1];
        }
      }
    }
  }

  /** The options of the legacy plugin that `fetchAllDocuments` reads, with `queryPredicates(Prismic.Predicates)` already evaluated. */
  datatype LegacyPluginOptions = LegacyPluginOptions(
    repositoryName: string,
    accessToken: Option<string>,
    fetchLinks: Option<seq<string>>,
    lang: Option<string>,
    predicates: seq<seq<string>>)

  /** The options object `fetchAllDocuments` passes to every `pagedGet`: `{ fetchLinks, lang }`. */
  function LegacyQueryOptions(options: LegacyPluginOptions): QueryOptions
  {
    QueryOptions(None, options.fetchLinks, options.lang, None, None)
  }

  /**
   * `predicates.map(query => pagedGet(client, query, { fetchLinks, lang }, context))`
   * against the server `Prismic.api(apiEndpoint, { accessToken })` connects to,
   * with `pagedGet`'s defaults `pageSize = 100` and `page = 1`.
   */
  function PagedGets(api: (string, Option<string>) -> Server, pkgName: string, options: LegacyPluginOptions, fuel: nat): (runs: seq<PagedRun>)
    ensures |runs| == |options.predicates|
  {
    var server := api(ApiEndpoint(options.repositoryName), options.accessToken);
    seq(|options.predicates|, i requires 0 <= i < |options.predicates| =>
      PagedGet(server, pkgName, options.predicates[i], LegacyQueryOptions(options), 100, 1, [], fuel))
  }

  /** `Promise.all`: the results in input order once every run has resolved, else unresolved. */
  function PromiseAll(runs: seq<PagedRun>): (r: Option<seq<seq<Document>>>)
    ensures r.Some? <==> forall i :: 0 <= i < |runs| ==> runs[i].docs.Some?
    ensures r.Some? ==> |r.value| == |runs| && forall i :: 0 <= i < |runs| ==> r.value[i] == runs[i].docs.value
  {
    if runs == [] then Some([])
    else if runs[0].docs.None? then None
    else
      match PromiseAll(runs[1..])
      case None =>
        assert !forall i :: 0 <= i < |runs| - 1 ==> runs[1..][i].docs.Some?;
        None
      case Some(rest) =>
        assert forall i :: 1 <= i < |runs| ==> runs[i] == runs[1..][i - 1];
        Some([runs[0].docs.value] + rest)
  }

  /** `fetchAllDocuments(gatsbyContext, pluginOptions)`: what `Promise.all(requests)` resolves to. */
  function FetchAllDocuments(api: (string, Option<string>) -> Server, pkgName: string, options: LegacyPluginOptions, fuel: nat): Option<seq<seq<Document>>>
  {
    PromiseAll(PagedGets(api, pkgName, options, fuel))
  }

  /**
   * Since `{ fetchLinks, lang }` has no `page` or `pageSize`, each predicate
   * gets exactly one request, for page 1 of 100 at the server of the
   * repository's endpoint, and `fetchAllDocuments` resolves to one result list
   * per predicate, in predicate order and not flattened.
   */
  lemma FetchAllDocumentsOnePagePerPredicate(api: (string, Option<string>) -> Server, pkgName: string, options: LegacyPluginOptions, fuel: nat)
    requires fuel >= 1
    ensures var server := api(ApiEndpoint(options.repositoryName), options.accessToken);
      var runs := PagedGets(api, pkgName, options, fuel);
      var r := FetchAllDocuments(api, pkgName, options, fuel);
      && (forall i :: 0 <= i < |runs| ==>
            runs[i].requests == [Request(ByPredicates(options.predicates[i]), QueryOptions(None, options.fetchLinks, options.lang, Some(1), Some(100)))])
      && r.Some? && |r.value| == |options.predicates|
      && forall i :: 0 <= i < |r.value| ==> r.value[i] == server.results(runs[i].requests[0])
  {
    var server := api(ApiEndpoint(options.repositoryName), options.accessToken);
    var runs := PagedGets(api, pkgName, options, fuel);
    forall i | 0 <= i < |runs|
      ensures runs[i].requests == [Request(ByPredicates(options.predicates[i]), QueryOptions(None, options.fetchLinks, options.lang, Some(1), Some(100)))]
      ensures runs[i].docs == Some(server.results(runs[i].requests[0]))
    {
      PagedGetAsWritten(server, pkgName, options.predicates[i], LegacyQueryOptions(options), 100, 1, [], fuel);
      assert [] + server.results(runs[i].requests[0]) == server.results(runs[i].requests[0]);
    }
  }

  /**
   * `pagedGet` with the test the recursion evidently means,
   * `page * pageSize < total_results_size`: the aggregation of
   * `aggregateQueryByIds`, over a predicate query.
   */
  function PagedGetCorrected(server: Server, query: seq<string>, queryOptions: QueryOptions, pageSize: nat, page: nat, acc: seq<Document>): Fetched
    requires pageSize > 0
  {
    AggregatePages(server, ByPredicates(query), queryOptions, pageSize, page, acc)
  }

  /** The corrected `pagedGet`, started as `fetchAllDocuments` starts it, fetches every page: max(1, ceil(T / 100)) of them, concatenated in order. */
  lemma PagedGetCorrectedFetchesEveryPage(server: Server, query: seq<string>, queryOptions: QueryOptions)
    ensures var r := PagedGetCorrected(server, query, queryOptions, 100, 1, []);
      && |r.requests| == RequestCount(server.totalResultsSize(ByPredicates(query)), 100)
      && (forall i :: 0 <= i < |r.requests| ==> r.requests[i] == PageRequest(ByPredicates(query), queryOptions, 100, i + 1))
      && r.docs == ResultsOf(server, r.requests)
  {
    var r := PagedGetCorrected(server, query, queryOptions, 100, 1, []);
    AggregatePagesInOrder(server, ByPredicates(query), queryOptions, 100, 1, []);
    LastPageFromFirst(server.totalResultsSize(ByPredicates(query)), 100);
    assert [] + ResultsOf(server, r.requests) == ResultsOf(server, r.requests);
  }

  /** `fetchAllDocuments` over the corrected `pagedGet`: every page of every predicate, one list per predicate. */
  function FetchAllDocumentsCorrected(api: (string, Option<string>) -> Server, options: LegacyPluginOptions): (r: seq<seq<Document>>)
    ensures |r| == |options.predicates|
  {
    var server := api(ApiEndpoint(options.repositoryName), options.accessToken);
    seq(|options.predicates|, i requires 0 <= i < |options.predicates| =>
      PagedGetCorrected(server, options.predicates[i], LegacyQueryOptions(options), 100, 1, []).docs)
  }

  /**
   * The corrected `fetchAllDocuments` returns, for each predicate in order,
   * every page of its query: max(1, ceil(T / 100)) requests for pages 1, 2, ...
   * over `{ fetchLinks, lang }`, their results concatenated.
   */
  lemma FetchAllDocumentsCorrectedFetchesEveryPage(api: (string, Option<string>) -> Server, options: LegacyPluginOptions)
    ensures var server := api(ApiEndpoint(options.repositoryName), options.accessToken);
      var r := FetchAllDocumentsCorrected(api, options);
      forall i :: 0 <= i < |r| ==>
        var run := PagedGetCorrected(server, options.predicates[i], LegacyQueryOptions(options), 100, 1, []);
        && r[i] == ResultsOf(server, run.requests)
        && |run.requests| == RequestCount(server.totalResultsSize(ByPredicates(options.predicates[i])), 100)
        && forall k :: 0 <= k < |run.requests| ==>
             run.requests[k] == PageRequest(ByPredicates(options.predicates[i]), LegacyQueryOptions(options), 100, k + 1)
  {
    var server := api(ApiEndpoint(options.repositoryName), options.accessToken);
    forall i | 0 <= i < |options.predicates| {
      PagedGetCorrectedFetchesEveryPage(server, options.predicates[i], LegacyQueryOptions(options));
    }
  }

  /**
   * The discrepancy: for a predicate with more than 100 results, the code as
   * written resolves after a single request to the first page alone, while
   * the corrected recursion issues at least two requests.
   */
  lemma PagedGetStopsAfterFirstPage(server: Server, pkgName: string, query: seq<string>, queryOptions: QueryOptions, fuel: nat)
    requires fuel >= 1
    requires queryOptions.page.None? && queryOptions.pageSize.None?
    requires server.totalResultsSize(ByPredicates(query)) > 100
    ensures var asWritten := PagedGet(server, pkgName, query, queryOptions, 100, 1, [], fuel);
      var corrected := PagedGetCorrected(server, query, queryOptions, 100, 1, []);
      && |asWritten.requests| == 1
      && asWritten.docs == Some(server.results(PageRequest(ByPredicates(query), queryOptions, 100, 1)))
      && |corrected.requests| >= 2
      && corrected.requests[1] == PageRequest(ByPredicates(query), queryOptions, 100, 2)
  {
    var req := PageRequest(ByPredicates(query), queryOptions, 100, 1);
    PagedGetAsWritten(server, pkgName, query, queryOptions, 100, 1, [], fuel);
    assert [] + server.results(req) == server.results(req);
    PagedGetCorrectedFetchesEveryPage(server, query, queryOptions);
    var t := server.totalResultsSize(ByPredicates(query));
    assert (t + 99) / 100 >= 2;
  }
}
