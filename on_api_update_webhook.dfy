/**
 * `onApiUpdateWebhook` of gatsby-source-prismic: turn an "API update"
 * webhook into a re-fetch of the affected documents, a list of node IDs to
 * delete, and the two node-store calls, delete first, then create.
 */
module OnApiUpdateWebhook {
  import opened Prismic
  import opened QueryDocuments

  /** A release entry of the webhook: the release's ID and the documents it touches. */
  datatype ReleasePayload = ReleasePayload(id: string, documents: seq<string>)

  /** `webhookBody.releases`; each bucket may be missing. */
  datatype Releases = Releases(
    update: Option<seq<ReleasePayload>>,
    addition: Option<seq<ReleasePayload>>,
    deletion: Option<seq<ReleasePayload>>)

  /** The body of an "API update" webhook. */
  datatype WebhookBody = WebhookBody(documents: seq<string>, releases: Releases)

  /** `[...(update || []), ...(addition || []), ...(deletion || [])]`. */
  function ReleasePayloads(releases: Releases): (r: seq<ReleasePayload>)
    ensures |r| == |releases.update.GetOr([])| + |releases.addition.GetOr([])| + |releases.deletion.GetOr([])|
    ensures forall p :: p in r <==> p in releases.update.GetOr([]) || p in releases.addition.GetOr([]) || p in releases.deletion.GetOr([])
  {
    releases.update.GetOr([]) + releases.addition.GetOr([]) + releases.deletion.GetOr([])
  }

  /** `payload.id === pluginOptions.releaseID`; never true when no release ID is configured. */
  predicate Matches(payload: ReleasePayload, releaseID: Option<string>)
  {
    releaseID.Some? && payload.id == releaseID.value
  }

  /** `A.filter(matches)` then `A.chain(payload => payload.documents)`. */
  function ReleaseDocumentIds(payloads: seq<ReleasePayload>, releaseID: Option<string>): (r: seq<string>)
    ensures forall x :: x in r <==> exists p :: p in payloads && Matches(p, releaseID) && x in p.documents
    ensures releaseID.None? ==> r == []
  {
    if payloads == [] then []
    else
      var rest := ReleaseDocumentIds(payloads[1..], releaseID);
      assert forall p :: p in payloads <==> p == payloads[0] || p in payloads[1..];
      (if Matches(payloads[0], releaseID) then payloads[0].documents else []) + rest
  }

  /** Filtering and flattening distribute over concatenation of payload lists. */
  lemma {:induction false} ReleaseDocumentIdsAppend(a: seq<ReleasePayload>, b: seq<ReleasePayload>, releaseID: Option<string>)
    ensures ReleaseDocumentIds(a + b, releaseID) == ReleaseDocumentIds(a, releaseID) + ReleaseDocumentIds(b, releaseID)
  {
    if a == [] {
      assert a + b == b;
    } else {
      assert (a + b)[1..] == a[1..] + b;
      ReleaseDocumentIdsAppend(a[1..], b, releaseID);
    }
  }

  /** One payload contributes its documents, in order and with duplicates, exactly when it matches. */
  lemma ReleaseDocumentIdsSingleton(p: ReleasePayload, releaseID: Option<string>)
    ensures ReleaseDocumentIds([p], releaseID) == if Matches(p, releaseID) then p.documents else []
  {
    assert [p][1..] == [];
  }

  /** `extractApiUpdateWebhookBodyDocumentIds`: the notified IDs, then those of the matching releases. */
  function ExtractApiUpdateWebhookBodyDocumentIds(body: WebhookBody, releaseID: Option<string>): (r: seq<string>)
    ensures |r| >= |body.documents| && r[..|body.documents|] == body.documents
  {
    body.documents + ReleaseDocumentIds(ReleasePayloads(body.releases), releaseID)
  }

  /**
   * The candidate IDs are the notified IDs followed by the documents of the
   * matching release payloads of `update`, then `addition`, then `deletion`,
   * missing buckets counting as empty and duplicates kept.
   */
  lemma CandidateIdsOrder(body: WebhookBody, releaseID: Option<string>)
    ensures ExtractApiUpdateWebhookBodyDocumentIds(body, releaseID)
      == body.documents
       + ReleaseDocumentIds(body.releases.update.GetOr([]), releaseID)
       + ReleaseDocumentIds(body.releases.addition.GetOr([]), releaseID)
       + ReleaseDocumentIds(body.releases.deletion.GetOr([]), releaseID)
  {
    var u, a, d := body.releases.update.GetOr([]), body.releases.addition.GetOr([]), body.releases.deletion.GetOr([]);
    ReleaseDocumentIdsAppend(u + a, d, releaseID);
    ReleaseDocumentIdsAppend(u, a, releaseID);
  }

  /**
   * An ID is a candidate exactly when it is notified or listed by a release
   * payload, in any bucket, whose ID is the configured release ID.
   */
  lemma CandidateIdsMembership(body: WebhookBody, releaseID: Option<string>, x: string)
    ensures x in ExtractApiUpdateWebhookBodyDocumentIds(body, releaseID)
        <==> (|| x in body.documents
              || (releaseID.Some? && exists p :: p in ReleasePayloads(body.releases) && p.id == releaseID.value && x in p.documents))
  {
  }

  /** Without a configured release ID, no release payload contributes. */
  lemma CandidateIdsWithoutRelease(body: WebhookBody)
    ensures ExtractApiUpdateWebhookBodyDocumentIds(body, None) == body.documents
  {
    assert body.documents + [] == body.documents;
  }

  /** A worked case: a payload of release "R1" counts under release ID "R1" and not under "R2". */
  lemma CandidateIdsReleaseFilter()
    ensures var body := WebhookBody(["a"], Releases(Some([ReleasePayload("R1", ["c"])]), None, None));
      && ExtractApiUpdateWebhookBodyDocumentIds(body, Some("R1")) == ["a", "c"]
      && ExtractApiUpdateWebhookBodyDocumentIds(body, Some("R2")) == ["a"]
  {
    var body := WebhookBody(["a"], Releases(Some([ReleasePayload("R1", ["c"])]), None, None));
    assert ReleasePayloads(body.releases) == [ReleasePayload("R1", ["c"])];
  }

  /**
   * fp-ts `A.difference(eqString)(xs, ys)`, which the data-last call
   * `pipe(xs, A.difference(eqString)(ys))` also computes: the elements of
   * `xs` not in `ys`, in `xs`'s order.
   */
  function Difference(xs: seq<string>, ys: seq<string>): (r: seq<string>)
    ensures forall x :: x in r <==> x in xs && x !in ys
  {
    if xs == [] then [] else (if xs[0] in ys then [] else [xs[0]]) + Difference(xs[1..], ys)
  }

  /** `a` is `b` with some elements removed, the rest in their order. */
  predicate IsSublist(a: seq<string>, b: seq<string>)
    decreases |b|
  {
    if a == [] then true
    else if b == [] then false
    else if a[0] == b[0] then IsSublist(a[1..], b[1..])
    else IsSublist(a, b[1..])
  }

  /** The difference keeps the order of `xs`: it is a sub-list of it. */
  lemma {:induction false} DifferenceIsSublist(xs: seq<string>, ys: seq<string>)
    ensures IsSublist(Difference(xs, ys), xs)
  {
    if xs != [] {
      DifferenceIsSublist(xs[1..], ys);
      var rest := Difference(xs[1..], ys);
      if xs[0] in ys {
        assert Difference(xs, ys) == rest;
        if rest != [] {
          assert rest[0] in rest;
        }
      } else {
        assert Difference(xs, ys)[1..] == rest;
      }
    }
  }

  /** The difference keeps every copy of an element of `xs` that is not in `ys`, and none of the others. */
  lemma {:induction false} DifferenceMultiplicity(xs: seq<string>, ys: seq<string>, x: string)
    ensures multiset(Difference(xs, ys))[x] == if x in ys then 0 else multiset(xs)[x]
  {
    if xs != [] {
      DifferenceMultiplicity(xs[1..], ys, x);
      assert xs == [xs[0]] + xs[1..];
    }
  }

  /** The IDs `onApiUpdateWebhook` asks for. */
  function DocumentIds(pluginOptions: PluginOptions, body: WebhookBody): seq<string>
  {
    ExtractApiUpdateWebhookBodyDocumentIds(body, pluginOptions.releaseID)
  }

  /** `queryDocumentsByIds(scope.documentIds)`: no ref argument, so the client's resolved ref. */
  function DocumentsToUpdate(client: Client, pluginOptions: PluginOptions, body: WebhookBody): Fetched
  {
    QueryDocumentsByIds(client, pluginOptions, DocumentIds(pluginOptions, body), None)
  }

  /** `documentIdsToDelete`: the fetched IDs that are not among the notified `webhookBody.documents`. */
  function DocumentIdsToDelete(fetched: seq<Document>, body: WebhookBody): (r: seq<string>)
    ensures forall x :: x in r <==> x in Ids(fetched) && x !in body.documents
  {
    Difference(Ids(fetched), body.documents)
  }

  /** A call made to the node-store collaborators. */
  datatype NodeAction = DeleteNodesForDocumentIds(ids: seq<string>) | CreateNodes(documents: seq<Document>)

  /** The node-store calls one webhook makes, in order. */
  function WebhookActions(client: Client, pluginOptions: PluginOptions, body: WebhookBody): seq<NodeAction>
  {
    var fetched := DocumentsToUpdate(client, pluginOptions, body).docs;
    [DeleteNodesForDocumentIds(DocumentIdsToDelete(fetched, body)), CreateNodes(fetched)]
  }

  /**
   * The fetch asks, on every page, for exactly the candidate IDs with the
   * client's resolved ref.
   */
  lemma WebhookFetchesCandidates(client: Client, pluginOptions: PluginOptions, body: WebhookBody)
    ensures var f := DocumentsToUpdate(client, pluginOptions, body);
      && f.docs == ResultsOf(client.server, f.requests)
      && forall i :: 0 <= i < |f.requests| ==>
           && f.requests[i].query == ByIds(ExtractApiUpdateWebhookBodyDocumentIds(body, pluginOptions.releaseID))
           && f.requests[i].options.ref == Some(client.resolvedRef)
  {
    QueryDocumentsByIdsRequests(client, pluginOptions, DocumentIds(pluginOptions, body), None);
  }

  /**
   * Deletion comes first and creation second; creation receives exactly the
   * fetched documents; the delete list holds exactly the fetched IDs that
   * were not notified, every copy of each, in fetched order, so it is
   * disjoint from the notified IDs.
   */
  lemma WebhookDeletesThenCreates(client: Client, pluginOptions: PluginOptions, body: WebhookBody)
    ensures var fetched := DocumentsToUpdate(client, pluginOptions, body).docs;
      var actions := WebhookActions(client, pluginOptions, body);
      && |actions| == 2
      && actions[0].DeleteNodesForDocumentIds?
      && actions[1] == CreateNodes(fetched)
      && (forall x :: x in actions[0].ids <==> x in Ids(fetched) && x !in body.documents)
      && (forall x :: x in body.documents ==> x !in actions[0].ids)
      && (forall x :: multiset(actions[0].ids)[x] == if x in body.documents then 0 else multiset(Ids(fetched))[x])
      && IsSublist(actions[0].ids, Ids(fetched))
  {
    var fetched := DocumentsToUpdate(client, pluginOptions, body).docs;
    DifferenceIsSublist(Ids(fetched), body.documents);
    forall x ensures multiset(Difference(Ids(fetched), body.documents))[x] == if x in body.documents then 0 else multiset(Ids(fetched))[x] {
      DifferenceMultiplicity(Ids(fetched), body.documents, x);
    }
  }

  /** Under an honest server, every fetched ID is one of the requested IDs. */
  lemma {:induction false} FetchedIdsRequested(server: Server, ids: seq<string>, requests: seq<Request>)
    requires ReturnsOnlyRequestedIds(server)
    requires forall i :: 0 <= i < |requests| ==> requests[i].query == ByIds(ids)
    ensures forall x :: x in Ids(ResultsOf(server, requests)) ==> x in ids
  {
    if requests != [] {
      FetchedIdsRequested(server, ids, requests[1..]);
      var page := server.results(requests[0]);
      var all := ResultsOf(server, requests);
      forall x | x in Ids(all) ensures x in ids {
        var k :| 0 <= k < |Ids(all)| && Ids(all)[k] == x;
        if k < |page| {
          assert all[k] in page;
        } else {
          assert all[k] == ResultsOf(server, requests[1..])[k - |page|];
          assert Ids(ResultsOf(server, requests[1..]))[k - |page|] == x;
        }
      }
    }
  }

  /**
   * When the server returns only requested documents, everything the webhook
   * deletes was named by a matching release payload and not notified; so with
   * no release ID configured nothing is deleted.
   */
  lemma DeletionsComeFromReleases(client: Client, pluginOptions: PluginOptions, body: WebhookBody)
    requires ReturnsOnlyRequestedIds(client.server)
    ensures var toDelete := WebhookActions(client, pluginOptions, body)[0].ids;
      && (forall x :: x in toDelete ==> x in ReleaseDocumentIds(ReleasePayloads(body.releases), pluginOptions.releaseID))
      && (pluginOptions.releaseID.None? ==> toDelete == [])
  {
    var candidates := DocumentIds(pluginOptions, body);
    var f := DocumentsToUpdate(client, pluginOptions, body);
    WebhookFetchesCandidates(client, pluginOptions, body);
    FetchedIdsRequested(client.server, candidates, f.requests);
    var toDelete := WebhookActions(client, pluginOptions, body)[0].ids;
    assert toDelete == [] || toDelete[0] in toDelete;
  }

  /**
   * A worked case: "a" and "b" are notified, no release is configured, and
   * only "a" comes back. Nothing is deleted (a notified ID is never deleted)
   * and "a" is created.
   */
  lemma NotifiedButNotFetchedIsKept(client: Client, t: string)
    requires client.server.totalResultsSize(ByIds(["a", "b"])) == 1
    requires forall request :: client.server.results(request) == [Document("a", t)]
    ensures forall releases: Releases, fetchLinks, lang ::
      WebhookActions(client, PluginOptions("repo", None, fetchLinks, lang), WebhookBody(["a", "b"], releases))
        == [DeleteNodesForDocumentIds([]), CreateNodes([Document("a", t)])]
  {
    forall releases: Releases, fetchLinks, lang
      ensures WebhookActions(client, PluginOptions("repo", None, fetchLinks, lang), WebhookBody(["a", "b"], releases))
        == [DeleteNodesForDocumentIds([]), CreateNodes([Document("a", t)])]
    {
      var pluginOptions := PluginOptions("repo", None, fetchLinks, lang);
      var body := WebhookBody(["a", "b"], releases);
      CandidateIdsWithoutRelease(body);
      var f := DocumentsToUpdate(client, pluginOptions, body);
      QueryDocumentsByIdsRequests(client, pluginOptions, ["a", "b"], None);
      assert |f.requests| == 1;
      assert f.docs == [Document("a", t)] by {
        assert f.requests[1..] == [];
      }
      assert Ids(f.docs) == ["a"];
      assert Difference(["a"], ["a", "b"]) == [];
      assert DocumentIdsToDelete(f.docs, body) == [];
    }
  }

  /**
   * Every ID the webhook deletes belongs to a document it creates in the same
   * call: the delete list is drawn from the fetched IDs, and the fetched
   * documents are all re-created right after.
   */
  lemma DeletedIdsAreRecreated(client: Client, pluginOptions: PluginOptions, body: WebhookBody)
    ensures var actions := WebhookActions(client, pluginOptions, body);
      forall x :: x in actions[0].ids ==> x in Ids(actions[1].documents)
  {
  }

  /**
   * The delete list the webhook evidently means: the notified IDs that the
   * fetch no longer returns, that is the documents that vanished.
   */
  function DocumentIdsToDeleteCorrected(fetched: seq<Document>, body: WebhookBody): (r: seq<string>)
    ensures forall x :: x in r <==> x in body.documents && x !in Ids(fetched)
  {
    Difference(body.documents, Ids(fetched))
  }

  /** The node-store calls with the corrected delete list. */
  function WebhookActionsCorrected(client: Client, pluginOptions: PluginOptions, body: WebhookBody): seq<NodeAction>
  {
    var fetched := DocumentsToUpdate(client, pluginOptions, body).docs;
    [DeleteNodesForDocumentIds(DocumentIdsToDeleteCorrected(fetched, body)), CreateNodes(fetched)]
  }

  /**
   * With the corrected delete list, a notified document is deleted exactly
   * when it was not fetched, nothing deleted is re-created, and the deletions
   * keep the notified order and multiplicity.
   */
  lemma WebhookCorrectedDeletesVanished(client: Client, pluginOptions: PluginOptions, body: WebhookBody)
    ensures var fetched := DocumentsToUpdate(client, pluginOptions, body).docs;
      var actions := WebhookActionsCorrected(client, pluginOptions, body);
      && |actions| == 2 && actions[0].DeleteNodesForDocumentIds? && actions[1] == CreateNodes(fetched)
      && (forall x :: x in body.documents ==> (x in actions[0].ids <==> x !in Ids(fetched)))
      && (forall x :: x in actions[0].ids ==> x !in Ids(actions[1].documents))
      && IsSublist(actions[0].ids, body.documents)
      && (forall x :: multiset(actions[0].ids)[x] == if x in Ids(fetched) then 0 else multiset(body.documents)[x])
  {
    var fetched := DocumentsToUpdate(client, pluginOptions, body).docs;
    DifferenceIsSublist(body.documents, Ids(fetched));
    forall x ensures multiset(Difference(body.documents, Ids(fetched)))[x] == if x in Ids(fetched) then 0 else multiset(body.documents)[x] {
      DifferenceMultiplicity(body.documents, Ids(fetched), x);
    }
  }

  /** The worked case again: notified `a, b`, only `a` fetched; the corrected delete list is `[b]`. */
  lemma CorrectedDeletesNotFetched(client: Client, t: string)
    requires client.server.totalResultsSize(ByIds(["a", "b"])) == 1
    requires forall request :: client.server.results(request) == [Document("a", t)]
    ensures forall releases: Releases, fetchLinks, lang ::
      WebhookActionsCorrected(client, PluginOptions("repo", None, fetchLinks, lang), WebhookBody(["a", "b"], releases))
        == [DeleteNodesForDocumentIds(["b"]), CreateNodes([Document("a", t)])]
  {
    forall releases: Releases, fetchLinks, lang
      ensures WebhookActionsCorrected(client, PluginOptions("repo", None, fetchLinks, lang), WebhookBody(["a", "b"], releases))
        == [DeleteNodesForDocumentIds(["b"]), CreateNodes([Document("a", t)])]
    {
      var pluginOptions := PluginOptions("repo", None, fetchLinks, lang);
      var body := WebhookBody(["a", "b"], releases);
      CandidateIdsWithoutRelease(body);
      var f := DocumentsToUpdate(client, pluginOptions, body);
      QueryDocumentsByIdsRequests(client, pluginOptions, ["a", "b"], None);
      assert |f.requests| == 1;
      assert f.docs == [Document("a", t)] by {
        assert f.requests[1..] == [];
      }
      assert Ids(f.docs) == ["a"];
      assert ["a", "b"][1..] == ["b"];
      assert ["b"][1..] == [];
      assert Difference(["a", "b"], ["a"]) == ["b"];
    }
  }

  /** The node-store collaborators (`deleteNodesForDocumentIds`, `createNodes`), observed through their calls. */
  class NodeStore {
    var calls: seq<NodeAction>

    constructor ()
      ensures calls == []
    {
      calls := [];
    }

    method DeleteNodesForDocumentIds(ids: seq<string>)
      modifies this
      ensures calls == old(calls) + [NodeAction.DeleteNodesForDocumentIds(ids)]
    {
      calls := calls + [NodeAction.DeleteNodesForDocumentIds(ids)];
    }

    method CreateNodes(documents: seq<Document>)
      modifies this
      ensures calls == old(calls) + [NodeAction.CreateNodes(documents)]
    {
      calls := calls + [NodeAction.CreateNodes(documents)];
    }
  }

  /** `onApiUpdateWebhook(webhookBody)`: fetch, compute the delete list, delete, then create. */
  method HandleApiUpdateWebhook(store: NodeStore, client: Client, pluginOptions: PluginOptions, body: WebhookBody)
    modifies store
    ensures store.calls == old(store.calls) + WebhookActions(client, pluginOptions, body)
  {
    var documentIds := ExtractApiUpdateWebhookBodyDocumentIds(body, pluginOptions.releaseID);
    var documentsToUpdate := QueryDocumentsByIds(client, pluginOptions, documentIds, None).docs;
    var documentIdsToDelete := Difference(Ids(documentsToUpdate), body.documents);
    store.DeleteNodesForDocumentIds(documentIdsToDelete);
    store.CreateNodes(documentsToUpdate);
  }
}
