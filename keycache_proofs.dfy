/** The lazily cached API key: it is fetched only while the field is None,
    never refetched or changed once set, and fetched again on the next call
    when a retrieval produced None. */
module KeyCacheProofs {

  import opened PyValues
  import opened Transport
  import opened CloudApiSpec

  /** The request `retrieve_api_key` sends at clock time `now`. */
  function KeyRequest(c: Creds, now: int): Request {
    Get(ApiKeyPath, NoParams, TokenOnly(BearerToken(c, now)))
  }

  /** Number of api-key retrievals in a request log. */
  function KeyRequests(sent: seq<Request>): (n: nat)
    ensures n <= |sent|
    ensures n == 0 <==> forall i :: 0 <= i < |sent| ==> !sent[i].endpoint.ApiKeyPath?
  {
    if sent == [] then 0
    else KeyRequests(sent[..|sent| - 1]) + (if sent[|sent| - 1].endpoint.ApiKeyPath? then 1 else 0)
  }

  /** The key a retrieval reply hands over: the `apikey` member of a 200 JSON
      answer; None for any other reply. */
  function FetchedKey(reply: Reply): (k: Json)
    ensures k != Null ==> reply.Answer? && reply.status == 200 && Settle(reply, Field("apikey")) == Returned(k)
  {
    if reply.Answer? && reply.status == 200 && reply.body.Parsed? && Subscript(reply.body.json, "apikey").Returned?
    then Subscript(reply.body.json, "apikey").value
    else Null
  }

  /** A key is at hand for the next request: it is cached, or the next
      retrieval hands one over. */
  predicate KeyAtHand(key: Json, w: Wire) {
    key != Null || (w.keyReplies != [] && FetchedKey(w.keyReplies[0]) != Null)
  }

  /** The key the requests carry once it is at hand. */
  function KeyInUse(key: Json, w: Wire): (k: Json)
    ensures key != Null ==> k == key
    ensures KeyAtHand(key, w) ==> k != Null
  {
    if key != Null || w.keyReplies == [] then key else FetchedKey(w.keyReplies[0])
  }

  /** The server once the key is at hand: unchanged for a cached key, and
      after the one retrieval otherwise. */
  function Primed(c: Creds, key: Json, w: Wire): (r: Wire)
    ensures r.now == w.now && r.sleeps == w.sleeps && r.replies == w.replies
    ensures key != Null ==> r == w
    ensures key == Null && w.keyReplies != [] ==>
              r.sent == w.sent + [KeyRequest(c, w.now)] && r.keyReplies == w.keyReplies[1..]
  {
    if key != Null || w.keyReplies == [] then w
    else w.(sent := w.sent + [KeyRequest(c, w.now)], keyReplies := w.keyReplies[1..])
  }

  /** With a key at hand, building headers is building them with that key
      cached on the primed server. */
  lemma HeadersWithKeyAtHand(c: Creds, key: Json, w: Wire)
    requires KeyAtHand(key, w)
    ensures HeadersFor(c, key, w) == HeadersFor(c, KeyInUse(key, w), Primed(c, key, w))
  {
  }

  /** With a key at hand, a polling run on a new client (field None) is the
      cached-key run after the one retrieval. */
  lemma FreshPollIsCachedPoll(c: Creds, key: Json, w: Wire, ep: Endpoint, params: Params, retries: nat)
    requires !ep.ApiKeyPath? && retries < MaxRetries && KeyAtHand(key, w)
    ensures PollLoop(c, key, w, ep, params, retries)
            == PollLoop(c, KeyInUse(key, w), Primed(c, key, w), ep, params, retries)
  {
    HeadersWithKeyAtHand(c, key, w);
  }

  /** The same for a pagination run. */
  lemma FreshPageRunIsCachedRun(c: Creds, key: Json, w: Wire, ep: Endpoint, field: string,
                                acc: seq<Json>, params: Params)
    requires !ep.ApiKeyPath? && KeyAtHand(key, w)
    ensures PageLoop(c, key, w, ep, field, acc, params)
            == PageLoop(c, KeyInUse(key, w), Primed(c, key, w), ep, field, acc, params)
  {
    HeadersWithKeyAtHand(c, key, w);
  }

  /** The keys the api-key replies `rs` hand over when retrieval returns. */
  function DeliveredKeys(rs: seq<Reply>): (ks: set<Json>)
    ensures rs != [] && Settle(rs[0], Field("apikey")).Returned? ==> Settle(rs[0], Field("apikey")).value in ks
    decreases |rs|
  {
    if rs == [] then {}
    else
      var first := Settle(rs[0], Field("apikey"));
      (if first.Returned? then {first.value} else {}) + DeliveredKeys(rs[1..])
  }

  /** With a key cached, building headers sends nothing, keeps the key, and
      yields a fresh token plus that key. */
  lemma CachedKeyIsReused(c: Creds, key: Json, w: Wire)
    requires key != Null
    ensures HeadersFor(c, key, w) == Step(Returned(WithApiKey(BearerToken(c, w.now), key)), key, w)
  {
  }

  /** With no key cached, building headers sends exactly one retrieval, with
      the token alone; the field then holds what the retrieval returned (None
      again when it failed), or stays None when the retrieval raised. */
  lemma MissingKeyIsFetched(c: Creds, w: Wire)
    ensures var r := HeadersFor(c, Null, w);
            var reply := if w.keyReplies == [] then NoAnswer else w.keyReplies[0];
            var fetched := Settle(reply, Field("apikey"));
            && r.wire.sent == w.sent + [KeyRequest(c, w.now)]
            && r.wire.keyReplies == (if w.keyReplies == [] then [] else w.keyReplies[1..])
            && (fetched.Returned? ==> r.apiKey == fetched.value
                                      && r.outcome == Returned(WithApiKey(BearerToken(c, w.now), fetched.value)))
            && (fetched.Raised? ==> r.apiKey == Null && r.outcome == Raised(fetched.exc))
  {
  }

  /** A failed retrieval (any status but 200, with a JSON body) leaves the
      field None, so the next call retrieves again. */
  lemma FailedRetrievalIsRetried(c: Creds, w: Wire, status: int, body: Json)
    requires status != 200
    requires w.keyReplies != [] && w.keyReplies[0] == Answer(status, Parsed(body))
    ensures var r := HeadersFor(c, Null, w);
            && r.apiKey == Null
            && r.outcome.Returned?
            && HeadersFor(c, r.apiKey, r.wire).wire.sent == w.sent + [KeyRequest(c, w.now), KeyRequest(c, w.now)]
  {
  }

  /** The api-key field is written only while it is None: a pagination run
      leaves a cached key and the api-key queue untouched, and otherwise
      leaves the field None or sets it to a key some retrieval handed over. */
  lemma {:induction false} PageLoopKeepsKey(c: Creds, key: Json, w: Wire, ep: Endpoint, field: string,
                                            acc: seq<Json>, params: Params)
    requires !ep.ApiKeyPath?
    ensures var r := PageLoop(c, key, w, ep, field, acc, params);
            && (key != Null ==> r.apiKey == key && r.wire.keyReplies == w.keyReplies)
            && (key == Null ==> r.apiKey == Null || r.apiKey in DeliveredKeys(w.keyReplies))
    decreases |w.replies|
  {
    var h := HeadersFor(c, key, w);
    if h.outcome.Returned? {
      var s := Serve(h.wire, Get(ep, params, h.outcome.value));
      if s.0.Answer? && s.0.status == 200 {
        var page := ReadPage(s.0.body, field);
        if page.Returned? && page.value.1 {
          PageLoopKeepsKey(c, h.apiKey, s.1, ep, field, acc + page.value.0, Offset(|acc + page.value.0|));
        }
      }
    }
  }

  /** The same for the polling loop of `get_athlete_measurement_results`. */
  lemma {:induction false} PollLoopKeepsKey(c: Creds, key: Json, w: Wire, ep: Endpoint, params: Params,
                                            retries: nat)
    requires !ep.ApiKeyPath? && retries < MaxRetries
    ensures var r := PollLoop(c, key, w, ep, params, retries);
            && (key != Null ==> r.apiKey == key && r.wire.keyReplies == w.keyReplies)
            && (key == Null ==> r.apiKey == Null || r.apiKey in DeliveredKeys(w.keyReplies))
    decreases MaxRetries - retries
  {
    var h := HeadersFor(c, key, w);
    if h.outcome.Returned? {
      var s := Serve(h.wire, Get(ep, params, h.outcome.value));
      if s.0.Answer? && s.0.status == 202 && retries + 1 < MaxRetries {
        PollLoopKeepsKey(c, h.apiKey, Pause(s.1, RetryDelay), ep, params, retries + 1);
      }
    }
  }

  /** `after` extends the log `before` with no api-key request. */
  predicate NoRetrievalAfter(before: seq<Request>, after: seq<Request>) {
    && |before| <= |after|
    && after[..|before|] == before
    && forall i :: |before| <= i < |after| ==> !after[i].endpoint.ApiKeyPath?
  }

  lemma NoRetrievalAfterTrans(a: seq<Request>, b: seq<Request>, d: seq<Request>)
    requires NoRetrievalAfter(a, b) && NoRetrievalAfter(b, d)
    ensures NoRetrievalAfter(a, d)
  {
    assert d[..|a|] == d[..|b|][..|a|];
  }

  /** With a key cached, a pagination run never sends an api-key request:
      everything it adds to the log is a resource request. */
  lemma {:induction false} PageLoopNeverRefetches(c: Creds, key: Json, w: Wire, ep: Endpoint, field: string,
                                                  acc: seq<Json>, params: Params)
    requires !ep.ApiKeyPath? && key != Null
    ensures NoRetrievalAfter(w.sent, PageLoop(c, key, w, ep, field, acc, params).wire.sent)
    decreases |w.replies|
  {
    var hs := WithApiKey(BearerToken(c, w.now), key);
    var s := Serve(w, Get(ep, params, hs));
    assert s.1.sent[..|w.sent|] == w.sent;
    if s.0.Answer? && s.0.status == 200 {
      var page := ReadPage(s.0.body, field);
      if page.Returned? && page.value.1 {
        var acc' := acc + page.value.0;
        PageLoopNeverRefetches(c, key, s.1, ep, field, acc', Offset(|acc'|));
        NoRetrievalAfterTrans(w.sent, s.1.sent, PageLoop(c, key, s.1, ep, field, acc', Offset(|acc'|)).wire.sent);
      }
    }
  }

  /** With a key cached, the polling loop never sends an api-key request. */
  lemma {:induction false} PollLoopNeverRefetches(c: Creds, key: Json, w: Wire, ep: Endpoint, params: Params,
                                                  retries: nat)
    requires !ep.ApiKeyPath? && retries < MaxRetries && key != Null
    ensures NoRetrievalAfter(w.sent, PollLoop(c, key, w, ep, params, retries).wire.sent)
    decreases MaxRetries - retries
  {
    var hs := WithApiKey(BearerToken(c, w.now), key);
    var s := Serve(w, Get(ep, params, hs));
    assert s.1.sent[..|w.sent|] == w.sent;
    if s.0.Answer? && s.0.status == 202 && retries + 1 < MaxRetries {
      var w' := Pause(s.1, RetryDelay);
      PollLoopNeverRefetches(c, key, w', ep, params, retries + 1);
      NoRetrievalAfterTrans(w.sent, w'.sent, PollLoop(c, key, w', ep, params, retries + 1).wire.sent);
    }
  }
}
