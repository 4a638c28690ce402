# gatsby-source-prismic core, modelled in Dafny

This project models four pieces of the gatsby-source-prismic repository. Together they keep Gatsby's local copy of a Prismic repository in step with the remote one.

- **Paged aggregation by ID** (`gatsby-prismic-core`, `queryDocumentsByIds`). `aggregateQueryByIds` asks `getByIDs` for page 1, 2, … of `QUERY_PAGE_SIZE` documents. It appends each page's `results` to an accumulator. It goes on while `page * QUERY_PAGE_SIZE < total_results_size`. `queryDocumentsByIds` picks the ref: the argument when it is truthy, else the one `getRef` resolves. It also passes the plugin's `fetchLinks` and `lang`. Module `QueryDocuments`, over the shared API model in module `Prismic`.
- **Webhook reconciliation** (`gatsby-source-prismic`, `onApiUpdateWebhook`). The candidate IDs are the notified document IDs, followed by those of the release payloads whose ID is the configured release ID. The candidates are re-fetched. The delete list is fp-ts `A.difference` of the fetched IDs and the notified IDs (the data-last call computes fetched minus notified). Then nodes are deleted, and then created. Module `OnApiUpdateWebhook`.
- **Preview bootstrap** (`gatsby-plugin-prismic-previews`, `usePrismicPreview`). It covers the hook's reducer and its initial state. It also covers the short-circuiting chain `prismicPreviewProgram`: cookie guard, not-bootstrapped guard, four schema/sourcing collaborators, then `declareBootstrapped` and `declareLoaded`. Finally, the hook's check that its repository is registered. Module `UsePrismicPreview`. A `PreviewSession` class holds the hook state and the shared context maps. Its `Drive` loop runs the chain and is proved against the trace function `Executed`.
- **Legacy full fetch** (`src/fetchAllDocuments.js`). It covers `pagedGet`'s recursive paging, the endpoint string, the log-message format, and the per-predicate fan-out under `Promise.all`. Module `LegacyFetch`.

The remote API is abstract. A `Server` is the page of results it returns for each request, plus the `total_results_size` it reports for a query, which is fixed per query. A `Client` is a server plus the ref `getRef` resolves for it. Each schema or sourcing collaborator of the preview program is a step whose success is an input. The preview cookie is a boolean input. The node store records the calls made to it.

Argument order matters in the webhook. `pipe(fetchedIds, A.difference(eqString)(webhookBody.documents))` computes the fetched IDs that were not notified. It does not compute the notified IDs that were not fetched. The model follows the code. `OnApiUpdateWebhook.NotifiedButNotFetchedIsKept` shows that notified `a, b` with only `a` fetched deletes nothing. `OnApiUpdateWebhook.DeletedIdsAreRecreated` shows that every deleted ID is re-created in the same call, so the node of a vanished document is never removed (see "## Findings").

## Model

| member | source | states |
|---|---|---|
| Prismic.ResultsOfLength | packages/gatsby-prismic-core/src/lib/queryDocumentsByIds.ts:38-40 | concatenating pages keeps every result: the length is the sum of the page lengths |
| Prismic.Ids | packages/gatsby-source-prismic/src/onApiUpdateWebhook.ts:28 | `documents.map(d => d.id)`: same length, element `i` is the `i`-th document's id |
| QueryDocuments.AggregatePages | packages/gatsby-prismic-core/src/lib/queryDocumentsByIds.ts:25-52 | the first request is for `page` with `pageSize` spread over the caller's options; the accumulator passed in is a prefix of the result |
| QueryDocuments.PageRequest | packages/gatsby-prismic-core/src/lib/queryDocumentsByIds.ts:33-37 | the request asks for the query with `page` and `pageSize` set and `ref`, `fetchLinks` and `lang` kept from the caller's options |
| QueryDocuments.AggregateQueryByIds | packages/gatsby-prismic-core/src/lib/queryDocumentsByIds.ts:25-52 | the first request is `page` of `QUERY_PAGE_SIZE` IDs; the accumulator is a prefix of the result; whole runs are described by `AggregateQueryByIdsFromFirstPage` |
| QueryDocuments.LastPage | packages/gatsby-prismic-core/src/lib/queryDocumentsByIds.ts:42 | the last page requested is the first whose end `page * pageSize` reaches the total (or the starting page) |
| QueryDocuments.AggregatePagesInOrder | packages/gatsby-prismic-core/src/lib/queryDocumentsByIds.ts:25-52 | pages `page … LastPage` are requested in order, each over the caller's options; the result is the accumulator followed by every page's results, no deduplication |
| QueryDocuments.LastPageFromFirst | packages/gatsby-prismic-core/src/lib/queryDocumentsByIds.ts:29-50 | started at page 1, the number of pages is max(1, ceil(T / pageSize)) |
| QueryDocuments.AggregateQueryByIdsFromFirstPage | packages/gatsby-prismic-core/src/lib/queryDocumentsByIds.ts:25-52 | from page 1 with an empty accumulator: max(1, ceil(T / 100)) requests for pages 1, 2, … with pageSize 100; result = pages concatenated, length = sum of page lengths |
| QueryDocuments.QueryDocumentsByIdsRequests | packages/gatsby-prismic-core/src/lib/queryDocumentsByIds.ts:76-97 | every request carries the same ids, the ref argument when truthy else the resolved ref, the plugin's fetchLinks and lang, page `i + 1` and pageSize 100 |
| QueryDocuments.QueryDocumentsByIds | packages/gatsby-prismic-core/src/lib/queryDocumentsByIds.ts:76-97 | the first request is page 1 of the ids at the selected ref; every request is described by `QueryDocumentsByIdsRequests` |
| QueryDocuments.SelectRef | packages/gatsby-prismic-core/src/lib/queryDocumentsByIds.ts:86 | the ref argument when truthy, else `getRef`'s; its use on every request is stated by `QueryDocumentsByIdsRequests` |
| QueryDocuments.ThreePagesFor250 | packages/gatsby-prismic-core/src/lib/queryDocumentsByIds.ts:42-50 | 250 results take exactly three requests, for pages 1, 2 and 3 with pageSize 100, their results concatenated |
| OnApiUpdateWebhook.ReleaseDocumentIds | packages/gatsby-source-prismic/src/onApiUpdateWebhook.ts:48-54 | an ID is listed iff some payload with the configured release ID lists it; nothing without a release ID |
| OnApiUpdateWebhook.ReleaseDocumentIdsSingleton | packages/gatsby-source-prismic/src/onApiUpdateWebhook.ts:53-54 | a single payload contributes its documents, in order and with duplicates, exactly when it matches; with `ReleaseDocumentIdsAppend` this fixes the list |
| OnApiUpdateWebhook.ReleaseDocumentIdsAppend | packages/gatsby-source-prismic/src/onApiUpdateWebhook.ts:53-54 | filtering and flattening distribute over concatenation of payload lists |
| OnApiUpdateWebhook.ReleasePayloads | packages/gatsby-source-prismic/src/onApiUpdateWebhook.ts:48-52 | the payloads of update, addition and deletion, missing buckets empty: the summed length, and membership in any bucket |
| OnApiUpdateWebhook.Matches | packages/gatsby-source-prismic/src/onApiUpdateWebhook.ts:53 | a payload matches only when a release ID is configured and equals the payload's; its effect is stated by `CandidateIdsMembership` and `CandidateIdsWithoutRelease` |
| OnApiUpdateWebhook.ExtractApiUpdateWebhookBodyDocumentIds | packages/gatsby-source-prismic/src/onApiUpdateWebhook.ts:40-59 | the notified IDs come first, unchanged |
| OnApiUpdateWebhook.CandidateIdsOrder | packages/gatsby-source-prismic/src/onApiUpdateWebhook.ts:48-58 | candidates = notified, then the matching payloads of update, addition and deletion in that order; missing buckets are empty; duplicates kept |
| OnApiUpdateWebhook.CandidateIdsMembership | packages/gatsby-source-prismic/src/onApiUpdateWebhook.ts:40-59 | an ID is a candidate iff it is notified or listed by a payload, in any bucket, whose ID equals the configured release ID |
| OnApiUpdateWebhook.CandidateIdsWithoutRelease | packages/gatsby-source-prismic/src/onApiUpdateWebhook.ts:53 | with no release ID configured the candidates are exactly the notified IDs |
| OnApiUpdateWebhook.CandidateIdsReleaseFilter | packages/gatsby-source-prismic/src/onApiUpdateWebhook.ts:53-54 | a payload counts only under its own release ID |
| OnApiUpdateWebhook.Difference | packages/gatsby-source-prismic/src/onApiUpdateWebhook.ts:29 | `x` is in the difference iff it is in `xs` and not in `ys` |
| OnApiUpdateWebhook.DifferenceIsSublist | packages/gatsby-source-prismic/src/onApiUpdateWebhook.ts:29 | the difference keeps `xs`'s order: it is a sub-list of `xs` |
| OnApiUpdateWebhook.DifferenceMultiplicity | packages/gatsby-source-prismic/src/onApiUpdateWebhook.ts:29 | every copy of a kept element survives, and no copy of a removed one |
| OnApiUpdateWebhook.DocumentIdsToDelete | packages/gatsby-source-prismic/src/onApiUpdateWebhook.ts:25-32 | an ID is deleted iff it was fetched and not notified |
| OnApiUpdateWebhook.WebhookActions | packages/gatsby-source-prismic/src/onApiUpdateWebhook.ts:33-36 | the two node-store calls; their content and order are stated by `WebhookDeletesThenCreates` |
| OnApiUpdateWebhook.WebhookFetchesCandidates | packages/gatsby-source-prismic/src/onApiUpdateWebhook.ts:22-24 | every fetch request asks for exactly the candidate IDs at the client's resolved ref; the fetched list is the pages' results |
| OnApiUpdateWebhook.DocumentsToUpdate | packages/gatsby-source-prismic/src/onApiUpdateWebhook.ts:22-24 | `queryDocumentsByIds(scope.documentIds)` with no ref argument; its requests and result are stated by `WebhookFetchesCandidates` |
| OnApiUpdateWebhook.WebhookDeletesThenCreates | packages/gatsby-source-prismic/src/onApiUpdateWebhook.ts:14-38 | delete first, then create with exactly the fetched documents; the delete list holds exactly the fetched IDs not notified (all copies, fetched order) and no notified ID |
| OnApiUpdateWebhook.FetchedIdsRequested | packages/gatsby-prismic-core/src/lib/queryDocumentsByIds.ts:17-40 | if the server returns only requested documents, every fetched ID is a requested ID |
| OnApiUpdateWebhook.DeletionsComeFromReleases | packages/gatsby-source-prismic/src/onApiUpdateWebhook.ts:25-34 | under such a server every deleted ID comes from a matching release payload; with no release ID nothing is deleted |
| OnApiUpdateWebhook.NotifiedButNotFetchedIsKept | packages/gatsby-source-prismic/src/onApiUpdateWebhook.ts:25-36 | notified `a, b`, only `a` fetched, no release: delete `[]`, create `[a]` |
| OnApiUpdateWebhook.DeletedIdsAreRecreated | packages/gatsby-source-prismic/src/onApiUpdateWebhook.ts:25-36 | every deleted ID belongs to a document created in the same call |
| OnApiUpdateWebhook.DocumentIdsToDeleteCorrected | packages/gatsby-source-prismic/src/onApiUpdateWebhook.ts:25-32 | corrected delete list: an ID is deleted iff it was notified and not fetched |
| OnApiUpdateWebhook.WebhookActionsCorrected | packages/gatsby-source-prismic/src/onApiUpdateWebhook.ts:33-36 | the node-store calls with the corrected delete list; stated by `WebhookCorrectedDeletesVanished` |
| OnApiUpdateWebhook.WebhookCorrectedDeletesVanished | packages/gatsby-source-prismic/src/onApiUpdateWebhook.ts:25-36 | with the corrected list, a notified ID is deleted iff it was not fetched, nothing deleted is re-created, and the notified order and multiplicity are kept |
| OnApiUpdateWebhook.CorrectedDeletesNotFetched | packages/gatsby-source-prismic/src/onApiUpdateWebhook.ts:25-36 | notified `a, b`, only `a` fetched: the corrected list deletes `[b]` and creates `[a]` |
| OnApiUpdateWebhook.NodeStore.DeleteNodesForDocumentIds | packages/gatsby-source-prismic/src/onApiUpdateWebhook.ts:33-35 | the store records one delete call with the given IDs |
| OnApiUpdateWebhook.NodeStore.CreateNodes | packages/gatsby-source-prismic/src/onApiUpdateWebhook.ts:36 | the store records one create call with the given documents |
| OnApiUpdateWebhook.HandleApiUpdateWebhook | packages/gatsby-source-prismic/src/onApiUpdateWebhook.ts:14-38 | the store receives exactly the webhook's two calls, delete then create, after its earlier calls |
| UsePrismicPreview.Reducer | packages/gatsby-plugin-prismic-previews/src/usePrismicPreview.ts:37-46 | `IsLoaded` leaves `isLoading` false |
| UsePrismicPreview.ReachableStatesNotLoading | packages/gatsby-plugin-prismic-previews/src/usePrismicPreview.ts:33-46 | from the initial state, every sequence of actions keeps `isLoading` false |
| UsePrismicPreview.Outcome | packages/gatsby-plugin-prismic-previews/src/usePrismicPreview.ts:83-96 | only a collaborator can fail and only the two guards can abort; the dispatch steps always continue |
| UsePrismicPreview.StepEffects | packages/gatsby-plugin-prismic-previews/src/usePrismicPreview.ts:59-96 | the collaborator call, `contextDispatch(IsBootstrapped(repositoryName))` or `dispatch(IsLoaded)` of one step; the program's sequence is stated by `ProgramEffects` |
| UsePrismicPreview.Executed | packages/gatsby-plugin-prismic-previews/src/usePrismicPreview.ts:81-98 | the steps run are a prefix of the chain, non-empty when the chain is; the short-circuit is stated by `ExecutedShortCircuits` |
| UsePrismicPreview.ProgramResult | packages/gatsby-plugin-prismic-previews/src/usePrismicPreview.ts:81-98 | the run succeeds iff every step of the program ran |
| UsePrismicPreview.ExecutedShortCircuits | packages/gatsby-plugin-prismic-previews/src/usePrismicPreview.ts:81-98 | a run is a prefix of the chain; each step but the last continued; it ends early only at a step that did not continue |
| UsePrismicPreview.RunIsShortCircuitPrefix | packages/gatsby-plugin-prismic-previews/src/usePrismicPreview.ts:81-98 | step `k` of the program runs iff every earlier step continued |
| UsePrismicPreview.CookieAbsentDoesNothing | packages/gatsby-plugin-prismic-previews/src/usePrismicPreview.ts:83-88 | without the preview cookie only the first guard runs: no effects, result aborted |
| UsePrismicPreview.BootstrappedDoesNothing | packages/gatsby-plugin-prismic-previews/src/usePrismicPreview.ts:89 | when already bootstrapped the two guards run and nothing else: no effects, result aborted |
| UsePrismicPreview.ProgramEffects | packages/gatsby-plugin-prismic-previews/src/usePrismicPreview.ts:54-96 | the full chain calls the four collaborators in order, dispatches `IsBootstrapped(repositoryName)` to the context, then `IsLoaded` |
| UsePrismicPreview.CompleteRun | packages/gatsby-plugin-prismic-previews/src/usePrismicPreview.ts:81-98 | cookie set, not bootstrapped, collaborators succeeding: every step runs, with exactly those effects, and the run succeeds |
| UsePrismicPreview.PreviewSession.constructor | packages/gatsby-plugin-prismic-previews/src/usePrismicPreview.ts:105 | the hook state starts as `initialState` |
| UsePrismicPreview.PreviewSession.RunStep | packages/gatsby-plugin-prismic-previews/src/usePrismicPreview.ts:54-96 | one step: its outcome, its effects appended; `declareLoaded` reduces `IsLoaded`, `declareBootstrapped` marks the repository bootstrapped, nothing else changes |
| UsePrismicPreview.PreviewSession.Drive | packages/gatsby-plugin-prismic-previews/src/usePrismicPreview.ts:77-98 | running the chain from its first step: result, effects, state and bootstrapped map are those of the short-circuit trace `Executed` |
| UsePrismicPreview.PreviewSession.UsePrismicPreview | packages/gatsby-plugin-prismic-previews/src/usePrismicPreview.ts:104-124 | an unregistered repository name is an error with nothing run; otherwise the program runs with the registered options' repository name and its `isBootstrappedMap` flag (missing = false) |
| UsePrismicPreview.EnvironmentFor | packages/gatsby-plugin-prismic-previews/src/usePrismicPreview.ts:115-121 | the run's dependencies from the registered options and the context's bootstrapped map; their use is stated by `PreviewSession.UsePrismicPreview` |
| UsePrismicPreview.IsBootstrappedFlag | packages/gatsby-plugin-prismic-previews/src/usePrismicPreview.ts:117-118 | the context's flag for the repository, a missing entry read as false; used by `PreviewSession.UsePrismicPreview` |
| UsePrismicPreview.BootstrapTwice | packages/gatsby-plugin-prismic-previews/src/usePrismicPreview.ts:108-124 | running the effect twice from not bootstrapped registers schemas and sources nodes once in all; the second run adds no effect; the registered plugin options are unchanged |
| LegacyFetch.Msg | src/fetchAllDocuments.js:4 | a message is the package name, `" - "`, then the text |
| LegacyFetch.DecimalString | src/fetchAllDocuments.js:19 | the page number is written in decimal digits with no leading zero |
| LegacyFetch.DecimalStringRoundTrip | src/fetchAllDocuments.js:19 | the page number written in a log message reads back as that number |
| LegacyFetch.FetchingPageMessage | src/fetchAllDocuments.js:19 | the message for a page; `PagedGetAsWritten` states one per request, with the request's page |
| LegacyFetch.ApiEndpoint | src/fetchAllDocuments.js:51 | the endpoint string; it is pinned down by `ApiEndpointRoundTrip` |
| LegacyFetch.ApiEndpointRoundTrip | src/fetchAllDocuments.js:51 | the endpoint is exactly `https://` + name + `.prismic.io/api/v2`: the name reads back from it, and only the endpoint of that name does so |
| LegacyFetch.ContinuesAsWritten | src/fetchAllDocuments.js:28 | `queryOptions.page * queryOptions.pageSize < total`, false when either field is missing; its consequences are stated by `PagedGetAsWritten` |
| LegacyFetch.PagedGet | src/fetchAllDocuments.js:6-40 | one log message per request, at most `fuel` requests |
| LegacyFetch.PagedGetAsWritten | src/fetchAllDocuments.js:6-40 | request `i` is page `page + i` with `pageSize` over the options, and log message `i` is the message for page `page + i`; resolves iff the test on the caller's options fails, after one request, to `acc` followed by that page; otherwise never resolves |
| LegacyFetch.PagedGets | src/fetchAllDocuments.js:54-65 | one `pagedGet` per predicate |
| LegacyFetch.LegacyQueryOptions | src/fetchAllDocuments.js:59 | `{ fetchLinks, lang }` with no `page` or `pageSize`; its consequence, one request per predicate, is stated by `FetchAllDocumentsOnePagePerPredicate` |
| LegacyFetch.PromiseAll | src/fetchAllDocuments.js:66 | resolves iff every run resolves, to their results in input order |
| LegacyFetch.FetchAllDocuments | src/fetchAllDocuments.js:42-67 | what `Promise.all` resolves to; stated by `FetchAllDocumentsOnePagePerPredicate` |
| LegacyFetch.FetchAllDocumentsOnePagePerPredicate | src/fetchAllDocuments.js:42-67 | each predicate gets exactly one request, page 1 of 100 over `{fetchLinks, lang}`; the result is one list per predicate, predicate order, not flattened |
| LegacyFetch.PagedGetCorrected | src/fetchAllDocuments.js:28-37 | `pagedGet` testing `page * pageSize`; stated by `PagedGetCorrectedFetchesEveryPage` |
| LegacyFetch.PagedGetCorrectedFetchesEveryPage | src/fetchAllDocuments.js:28-37 | with the test on `page * pageSize`, max(1, ceil(T / 100)) pages are requested in order and concatenated |
| LegacyFetch.FetchAllDocumentsCorrected | src/fetchAllDocuments.js:54-66 | one complete list per predicate |
| LegacyFetch.FetchAllDocumentsCorrectedFetchesEveryPage | src/fetchAllDocuments.js:54-66 | with the corrected test, list `i` is every page of predicate `i`: max(1, ceil(T / 100)) requests for pages 1, 2, … over `{fetchLinks, lang}`, concatenated |
| LegacyFetch.PagedGetStopsAfterFirstPage | src/fetchAllDocuments.js:28-59 | with more than 100 results, as written only page 1 is fetched, while the corrected recursion requests page 2 as well |

## Left out

- Network and client construction (`Prismic.api`, `createClient`, `client.query`, `client.getByIDs`) are left out. The server is an abstract function of the request, with a total fixed per query.
- `getRef`'s internals, which pick the release or master ref, are left out. The client carries the ref it resolves.
- The fp-ts ReaderTaskEither and Task machinery is left out. Only its sequencing and short-circuiting are modelled: a step list with continue, abort and fail outcomes.
- Promise rejections are left out. `queryDocumentsByIds` and `onApiUpdateWebhook` declare the error type `never`, and a failing collaborator in the preview program is only a `Fail` outcome.
- React's `useReducer` and `useEffect` are left out, and so is the re-run of the effect when its dependency array changes. A re-run is modelled as a second call, as in `BootstrapTwice`.
- usePrismicContext.ts and buildDependencies.ts are not part of this model. The context reducer is taken to set `isBootstrappedMap[repositoryName]` to true on `IsBootstrapped`.
- Cookie reading (`getCookieSafely`) is left out. It is a boolean input.
- The schema and sourcing collaborators and the node store are abstract: each is a step that succeeds or fails, or a recorded call.
- The wording of the thrown "not registered" error is left out. The model returns `NotRegistered(repositoryName)`.
- `Promise.all` concurrency is left out. Only its order-preserving result is modelled.
- `reporter.verbose` output is left out. Its messages are returned as a list.
- The package name is a parameter. package.json is not part of this model.
- constants.ts is not part of this model. `QUERY_PAGE_SIZE` is taken as 100, and the paging proofs hold for any positive page size.
- `accessToken` is only passed to the abstract `api` function.
- LegacyFetch.PagedGet: the code never settles once the continuation test holds. The model stops after `fuel` requests and reports `None`, and the lemma proves it yields `None` for every fuel.
- JavaScript number formatting and precision are left out. Page numbers are unbounded naturals written in plain decimal; JavaScript switches to exponent form at 10^21 and stops incrementing exactly past 2^53, and no real run gets there.
- `pagedGet`'s `query = []` default is not modelled, because `fetchAllDocuments` always passes a predicate.

## Findings

| source | as written | input that shows it | evidently intended | confidence | as-written member | corrected member |
|---|---|---|---|---|---|---|
| src/fetchAllDocuments.js:28 | the continuation test reads `queryOptions.page * queryOptions.pageSize`; `fetchAllDocuments` passes `{ fetchLinks, lang }`, so the product is `NaN` and the test is false | a predicate whose query reports `total_results_size` 101: one request, page 1 only | `page * pageSize < total_results_size`, fetching every page as `aggregateQueryByIds` does | not executed | LegacyFetch.PagedGetStopsAfterFirstPage | LegacyFetch.PagedGetCorrectedFetchesEveryPage |
| packages/gatsby-source-prismic/src/onApiUpdateWebhook.ts:29 | the delete list is the fetched IDs that were not notified; every one of them is re-created straight after, so a deleted document's node is never removed | notified `a, b`, only `a` still exists: nothing is deleted, so `b`'s node stays | delete the notified IDs the fetch no longer returns, `A.difference(eqString)(fetchedIds)(webhookBody.documents)` | not executed | OnApiUpdateWebhook.NotifiedButNotFetchedIsKept | OnApiUpdateWebhook.WebhookCorrectedDeletesVanished |
