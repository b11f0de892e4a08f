/** The single-request fetchers (`retrieve_api_key`, `get_accounts`,
    `get_account_coaches`): a 200 yields the requested member or the whole
    body, any other status yields None, and the failures that escape. */
module SingleFetchProofs {

  import opened PyValues
  import opened Transport
  import opened CloudApiSpec
  import opened KeyCacheProofs

  /** How a single fetch settles each kind of reply. */
  lemma SettleCases(reply: Reply, pick: Pick)
    ensures reply.NoAnswer? ==> Settle(reply, pick) == Raised(RequestException)
    ensures reply.Answer? && reply.body.Garbled? ==> Settle(reply, pick) == Raised(JsonDecodeError)
    ensures reply.Answer? && reply.status != 200 && reply.body.Parsed? ==> Settle(reply, pick) == Returned(Null)
    ensures reply.Answer? && reply.status == 200 && reply.body.Parsed? && pick == WholeBody
            ==> Settle(reply, pick) == Returned(reply.body.json)
    ensures reply.Answer? && reply.status == 200 && reply.body.Parsed? && pick.Field?
            ==> Settle(reply, pick) == Subscript(reply.body.json, pick.key)
  {
  }

  /** With a key at hand (cached, or handed over by the first retrieval), a
      single fetch sends, after that retrieval, one request to its endpoint
      without params, settles the next reply, and keeps the key in use. */
  lemma OneRequest(c: Creds, key: Json, w: Wire, ep: Endpoint, pick: Pick)
    requires KeyAtHand(key, w) && !ep.ApiKeyPath?
    ensures var r := FetchOnce(c, key, w, ep, pick);
            var key', w' := KeyInUse(key, w), Primed(c, key, w);
            var reply := if w.replies == [] then NoAnswer else w.replies[0];
            && r.outcome == Settle(reply, pick)
            && r.apiKey == key'
            && r.wire.sent == w'.sent + [Get(ep, NoParams, WithApiKey(BearerToken(c, w.now), key'))]
            && r.wire.replies == (if w.replies == [] then [] else w.replies[1..])
            && r.wire.keyReplies == w'.keyReplies
  {
    HeadersWithKeyAtHand(c, key, w);
  }

  /** For any key: a single fetch raises what building the headers raised
      (a failed retrieval), and otherwise sends one request with those headers
      and settles the next reply; the field is what the header build left. */
  lemma FetchAnyKey(c: Creds, key: Json, w: Wire, ep: Endpoint, pick: Pick)
    requires !ep.ApiKeyPath?
    ensures var h := HeadersFor(c, key, w);
            var r := FetchOnce(c, key, w, ep, pick);
            && r.apiKey == h.apiKey
            && (h.outcome.Raised? ==> r.outcome == Raised(h.outcome.exc) && r.wire == h.wire)
            && (h.outcome.Returned? ==>
                  && r.outcome == Settle(if w.replies == [] then NoAnswer else w.replies[0], pick)
                  && r.wire.sent == h.wire.sent + [Get(ep, NoParams, h.outcome.value)]
                  && r.wire.replies == (if w.replies == [] then [] else w.replies[1..]))
  {
  }

  /** `get_accounts` returns the `accounts` member of a 200 answer; when that
      member is JSON null the result is the same None an error status gives. */
  lemma NullMemberLooksLikeFailure(c: Creds, key: Json, w: Wire, status: int, body: Json)
    requires key != Null && status != 200
    requires w.replies != [] && w.replies[0] == Answer(200, Parsed(Obj([("accounts", Null)])))
    ensures FetchOnce(c, key, w, AccountsPath, Field("accounts")).outcome
            == Settle(Answer(status, Parsed(body)), Field("accounts"))
            == Returned(Null)
  {
    assert FindMember([("accounts", Null)], "accounts") == Some(0);
  }

  /** A log of one retrieval followed by two resource requests counts one
      retrieval. */
  lemma OneRetrievalInThree(a: Request, b: Request, d: Request)
    requires a.endpoint.ApiKeyPath? && !b.endpoint.ApiKeyPath? && !d.endpoint.ApiKeyPath?
    ensures KeyRequests([a, b, d]) == 1
  {
    assert [a][..0] == [];
    assert KeyRequests([a]) == 1;
    assert [a, b][..1] == [a];
    assert KeyRequests([a, b]) == 1;
    assert [a, b, d][..2] == [a, b];
  }

  /** Two authenticated calls on a fresh client whose first retrieval
      succeeds send exactly one retrieval between them. */
  lemma FreshClientRetrievesOnce(c: Creds, w: Wire, ep1: Endpoint, ep2: Endpoint,
                                 p1: Pick, p2: Pick, body: Json, key: Json)
    requires w.sent == [] && !ep1.ApiKeyPath? && !ep2.ApiKeyPath?
    requires w.keyReplies != [] && w.keyReplies[0] == Answer(200, Parsed(body))
    requires Subscript(body, "apikey") == Returned(key) && key != Null
    ensures var r1 := FetchOnce(c, Null, w, ep1, p1);
            var r2 := FetchOnce(c, r1.apiKey, r1.wire, ep2, p2);
            && r1.apiKey == key && r2.apiKey == key
            && |r2.wire.sent| == 3
            && KeyRequests(r2.wire.sent) == 1
  {
    assert FetchedKey(w.keyReplies[0]) == key;
    OneRequest(c, Null, w, ep1, p1);
    var r1 := FetchOnce(c, Null, w, ep1, p1);
    OneRequest(c, key, r1.wire, ep2, p2);
    var r2 := FetchOnce(c, key, r1.wire, ep2, p2);
    OneRetrievalInThree(r2.wire.sent[0], r2.wire.sent[1], r2.wire.sent[2]);
    assert r2.wire.sent == [r2.wire.sent[0], r2.wire.sent[1], r2.wire.sent[2]];
  }
}
