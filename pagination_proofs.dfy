/** Offset pagination (`get_account_athletes`, `get_account_teams`,
    `get_athlete_measurements`): the list returned is the in-order
    concatenation of the pages up to the first one that says no more follow;
    the offsets sent are the numbers of items gathered before each request; a
    refused page yields None and never a partial list. */
module PaginationProofs {

  import opened PyValues
  import opened Transport
  import opened CloudApiSpec
  import opened KeyCacheProofs

  /** The page a reply carries when the loop accepts it: a 200 whose body
      yields an item list and a `more` member (its truth value). */
  function PageOf(reply: Reply, field: string): Option<(seq<Json>, bool)> {
    if reply.Answer? && reply.status == 200 && ReadPage(reply.body, field).Returned?
    then Some(ReadPage(reply.body, field).value)
    else None
  }

  /** Every reply of `rs` is an accepted page. */
  ghost predicate AllPages(rs: seq<Reply>, field: string) {
    forall i :: 0 <= i < |rs| ==> PageOf(rs[i], field).Some?
  }

  /** The first `n` replies are pages; all but the last say more follow, the
      last says none do. */
  ghost predicate CompleteRun(rs: seq<Reply>, field: string, n: nat) {
    && 0 < n <= |rs|
    && (forall i :: 0 <= i < n ==> PageOf(rs[i], field).Some?)
    && (forall i :: 0 <= i < n - 1 ==> PageOf(rs[i], field).value.1)
    && !PageOf(rs[n - 1], field).value.1
  }

  /** The first `n` replies are pages that say more follow, and reply `n`
      carries a status other than 200. */
  ghost predicate RefusedAt(rs: seq<Reply>, field: string, n: nat) {
    && n < |rs|
    && (forall i :: 0 <= i < n ==> PageOf(rs[i], field).Some? && PageOf(rs[i], field).value.1)
    && rs[n].Answer? && rs[n].status != 200
  }

  /** The items of the pages `rs`, in order. */
  function Gathered(rs: seq<Reply>, field: string): seq<Json>
    requires AllPages(rs, field)
  {
    if rs == [] then [] else PageOf(rs[0], field).value.0 + Gathered(rs[1..], field)
  }

  lemma GatheredFront(rs: seq<Reply>, field: string, i: nat)
    requires 1 <= i <= |rs| && AllPages(rs[..i], field)
    ensures AllPages(rs[1..][..i - 1], field)
    ensures Gathered(rs[..i], field) == PageOf(rs[0], field).value.0 + Gathered(rs[1..][..i - 1], field)
  {
    assert rs[..i][1..] == rs[1..][..i - 1];
  }

  /** The `params` of the `i`-th page request of a run that started with `acc`
      gathered and `params` pending: the starting params first, then the
      number of items gathered so far. */
  function Cursor(rs: seq<Reply>, field: string, acc: seq<Json>, params: Params, i: nat): Params
    requires i <= |rs| && AllPages(rs[..i], field)
  {
    if i == 0 then params else Offset(|acc + Gathered(rs[..i], field)|)
  }

  /** The page requests of a run of `n` pages with a cached key and the clock
      at `now`, which started with `acc` gathered and `params` pending. */
  function PageRequests(c: Creds, key: Json, now: int, ep: Endpoint, field: string,
                        rs: seq<Reply>, acc: seq<Json>, params: Params, n: nat): (r: seq<Request>)
    requires n <= |rs| && AllPages(rs[..n], field)
    ensures |r| == n
    decreases n
  {
    if n == 0 then []
    else
      var acc' := acc + PageOf(rs[0], field).value.0;
      GatheredFront(rs, field, n);
      [Get(ep, params, WithApiKey(BearerToken(c, now), key))]
        + PageRequests(c, key, now, ep, field, rs[1..], acc', Offset(|acc'|), n - 1)
  }

  lemma AllPagesPrefix(rs: seq<Reply>, field: string, i: nat, n: nat)
    requires i <= n <= |rs| && AllPages(rs[..n], field)
    ensures AllPages(rs[..i], field)
  {
    assert forall j :: 0 <= j < i ==> rs[..i][j] == rs[..n][j];
  }

  lemma CursorShift(rs: seq<Reply>, field: string, acc: seq<Json>, params: Params, n: nat, i: nat)
    requires 0 < i <= n <= |rs| && AllPages(rs[..n], field)
    ensures AllPages(rs[..i], field) && AllPages(rs[1..][..i - 1], field)
    ensures var acc' := acc + PageOf(rs[0], field).value.0;
            Cursor(rs, field, acc, params, i) == Cursor(rs[1..], field, acc', Offset(|acc'|), i - 1)
  {
    AllPagesPrefix(rs, field, i, n);
    GatheredFront(rs, field, i);
    if i == 1 {
      assert rs[1..][..0] == [];
    }
  }

  lemma PageRequestsUnfold(c: Creds, key: Json, now: int, ep: Endpoint, field: string,
                           rs: seq<Reply>, acc: seq<Json>, params: Params, n: nat)
    requires 0 < n <= |rs| && AllPages(rs[..n], field)
    ensures AllPages(rs[1..][..n - 1], field)
    ensures var acc' := acc + PageOf(rs[0], field).value.0;
            PageRequests(c, key, now, ep, field, rs, acc, params, n)
              == [Get(ep, params, WithApiKey(BearerToken(c, now), key))]
                 + PageRequests(c, key, now, ep, field, rs[1..], acc', Offset(|acc'|), n - 1)
  {
    GatheredFront(rs, field, n);
  }

  /** Request `i` of a run carries the cursor: the starting params for the
      first, then the number of items gathered by the pages before it. */
  lemma {:induction false} PageRequestsCursor(c: Creds, key: Json, now: int, ep: Endpoint, field: string,
                                              rs: seq<Reply>, acc: seq<Json>, params: Params, n: nat, i: nat)
    requires n <= |rs| && AllPages(rs[..n], field) && i < n
    ensures AllPages(rs[..i], field)
    ensures PageRequests(c, key, now, ep, field, rs, acc, params, n)[i]
            == Get(ep, Cursor(rs, field, acc, params, i), WithApiKey(BearerToken(c, now), key))
    decreases i
  {
    AllPagesPrefix(rs, field, i, n);
    if i > 0 {
      PageRequestsUnfold(c, key, now, ep, field, rs, acc, params, n);
      var acc' := acc + PageOf(rs[0], field).value.0;
      var later := PageRequests(c, key, now, ep, field, rs[1..], acc', Offset(|acc'|), n - 1);
      assert PageRequests(c, key, now, ep, field, rs, acc, params, n)[i] == later[i - 1];
      PageRequestsCursor(c, key, now, ep, field, rs[1..], acc', Offset(|acc'|), n - 1, i - 1);
      CursorShift(rs, field, acc, params, n, i);
    }
  }

  /** One turn of the loop, in terms of the first queued reply. */
  lemma PageLoopUnfold(c: Creds, key: Json, w: Wire, ep: Endpoint, field: string,
                       acc: seq<Json>, params: Params)
    requires !ep.ApiKeyPath?
    ensures var h := HeadersFor(c, key, w);
            var r := PageLoop(c, key, w, ep, field, acc, params);
            var rs := w.replies;
            if h.outcome.Raised? || rs == [] then r.outcome.Raised?
            else
              var w1 := h.wire.(sent := h.wire.sent + [Get(ep, params, h.outcome.value)], replies := rs[1..]);
              if rs[0].Answer? && rs[0].status != 200 then r == Step(Rejected(rs[0].body), h.apiKey, w1)
              else if PageOf(rs[0], field).None? then r.outcome.Raised? && r.apiKey == h.apiKey && r.wire == w1
              else
                var page := PageOf(rs[0], field).value;
                var acc' := acc + page.0;
                r == if page.1 then PageLoop(c, h.apiKey, w1, ep, field, acc', Offset(|acc'|))
                     else Step(Returned(Arr(acc')), h.apiKey, w1)
  {
  }

  /** Concatenation regroups; the run lemmas here and in the polling proofs
      use it to move one request or sleep across the log. */
  lemma ConcatAssoc<T>(a: seq<T>, b: seq<T>, d: seq<T>)
    ensures a + (b + d) == (a + b) + d
  {
  }

  /** A page saying more follow, in front of a complete run, makes a longer
      complete run. */
  lemma CompleteRunCons(rs: seq<Reply>, field: string, acc: seq<Json>, page: (seq<Json>, bool), n': nat)
    requires rs != [] && PageOf(rs[0], field) == Some(page) && page.1
    requires CompleteRun(rs[1..], field, n') && AllPages(rs[1..][..n'], field)
    ensures CompleteRun(rs, field, n' + 1) && AllPages(rs[..n' + 1], field)
    ensures acc + page.0 + Gathered(rs[1..][..n'], field) == acc + Gathered(rs[..n' + 1], field)
    ensures rs[1..][n'..] == rs[n' + 1..]
  {
    var n := n' + 1;
    assert CompleteRun(rs, field, n);
    assert AllPages(rs[..n], field);
    GatheredFront(rs, field, n);
    var rest := Gathered(rs[1..][..n'], field);
    ConcatAssoc(acc, page.0, rest);
  }

  /** A page saying none follow is a complete run on its own. */
  lemma CompleteRunOne(rs: seq<Reply>, field: string, acc: seq<Json>, page: (seq<Json>, bool))
    requires rs != [] && PageOf(rs[0], field) == Some(page) && !page.1
    ensures CompleteRun(rs, field, 1) && AllPages(rs[..1], field)
    ensures acc + page.0 == acc + Gathered(rs[..1], field)
  {
    assert AllPages(rs[..1], field);
    GatheredFront(rs, field, 1);
    assert rs[1..][..0] == [];
  }

  /** One turn of the loop with a cached key over an accepted page. */
  lemma CachedPageStep(c: Creds, key: Json, w: Wire, ep: Endpoint, field: string,
                       acc: seq<Json>, params: Params)
    requires !ep.ApiKeyPath? && key != Null
    requires w.replies != [] && PageOf(w.replies[0], field).Some?
    ensures var page := PageOf(w.replies[0], field).value;
            var acc' := acc + page.0;
            var w1 := w.(sent := w.sent + [Get(ep, params, WithApiKey(BearerToken(c, w.now), key))],
                         replies := w.replies[1..]);
            PageLoop(c, key, w, ep, field, acc, params)
              == if page.1 then PageLoop(c, key, w1, ep, field, acc', Offset(|acc'|))
                 else Step(Returned(Arr(acc')), key, w1)
  {
    PageLoopUnfold(c, key, w, ep, field, acc, params);
  }

  /** A list is returned only after a complete run, and it is what came
      before plus the items of that run's pages, in order. */
  lemma {:induction false} ListOnlyFromCompleteRun(c: Creds, key: Json, w: Wire, ep: Endpoint, field: string,
                                                   acc: seq<Json>, params: Params)
    requires !ep.ApiKeyPath?
    ensures var r := PageLoop(c, key, w, ep, field, acc, params);
            r.outcome.Returned? && r.outcome.value.Arr? ==>
              exists n: nat :: && CompleteRun(w.replies, field, n)
                          && AllPages(w.replies[..n], field)
                          && r.outcome.value.elems == acc + Gathered(w.replies[..n], field)
                          && r.wire.replies == w.replies[n..]
    decreases |w.replies|
  {
    var r := PageLoop(c, key, w, ep, field, acc, params);
    var h := HeadersFor(c, key, w);
    var rs := w.replies;
    PageLoopUnfold(c, key, w, ep, field, acc, params);
    if h.outcome.Returned? && rs != [] && PageOf(rs[0], field).Some? {
      var w1 := h.wire.(sent := h.wire.sent + [Get(ep, params, h.outcome.value)], replies := rs[1..]);
      var page := PageOf(rs[0], field).value;
      var acc' := acc + page.0;
      if page.1 {
        ListOnlyFromCompleteRun(c, h.apiKey, w1, ep, field, acc', Offset(|acc'|));
        if r.outcome.Returned? && r.outcome.value.Arr? {
          var n': nat :| && CompleteRun(rs[1..], field, n')
                    && AllPages(rs[1..][..n'], field)
                    && r.outcome.value.elems == acc' + Gathered(rs[1..][..n'], field)
                    && r.wire.replies == rs[1..][n'..];
          CompleteRunCons(rs, field, acc, page, n');
        }
      } else {
        CompleteRunOne(rs, field, acc, page);
      }
    }
  }

  /** What follows the first page of a longer complete run is a complete run. */
  lemma CompleteRunTail(rs: seq<Reply>, field: string, n: nat)
    requires CompleteRun(rs, field, n) && n > 1
    ensures PageOf(rs[0], field).Some? && PageOf(rs[0], field).value.1
    ensures CompleteRun(rs[1..], field, n - 1) && AllPages(rs[1..][..n - 1], field)
  {
    assert PageOf(rs[0], field).Some?;
    assert forall i :: 0 <= i < n - 1 ==> rs[1..][i] == rs[i + 1];
  }

  /** With a key cached, a complete run returns the concatenation of its
      pages, consumes exactly its replies, and sends one request per page
      whose params are the cursor: none at first, then the number of items
      gathered before it. */
  lemma {:induction false} CachedCompleteRunYieldsList(c: Creds, key: Json, w: Wire, ep: Endpoint, field: string,
                                                       acc: seq<Json>, params: Params, n: nat)
    requires !ep.ApiKeyPath? && key != Null
    requires CompleteRun(w.replies, field, n)
    ensures AllPages(w.replies[..n], field)
    ensures var r := PageLoop(c, key, w, ep, field, acc, params);
            && r.outcome == Returned(Arr(acc + Gathered(w.replies[..n], field)))
            && r.apiKey == key
            && r.wire.replies == w.replies[n..]
            && r.wire.sent == w.sent + PageRequests(c, key, w.now, ep, field, w.replies, acc, params, n)
            && r.wire.now == w.now && r.wire.sleeps == w.sleeps && r.wire.keyReplies == w.keyReplies
    decreases n
  {
    var rs := w.replies;
    assert AllPages(rs[..n], field);
    assert PageOf(rs[0], field).Some?;
    var r := PageLoop(c, key, w, ep, field, acc, params);
    var hdr := WithApiKey(BearerToken(c, w.now), key);
    var first := Get(ep, params, hdr);
    var w1 := w.(sent := w.sent + [first], replies := rs[1..]);
    CachedPageStep(c, key, w, ep, field, acc, params);
    var page := PageOf(rs[0], field).value;
    var acc' := acc + page.0;
    var later := PageRequests(c, key, w.now, ep, field, rs[1..], acc', Offset(|acc'|), n - 1);
    ConcatAssoc(w.sent, [first], later);
    if n == 1 {
      CompleteRunOne(rs, field, acc, page);
      assert r == Step(Returned(Arr(acc')), key, w1);
      assert later == [];
    } else {
      CompleteRunTail(rs, field, n);
      CachedCompleteRunYieldsList(c, key, w1, ep, field, acc', Offset(|acc'|), n - 1);
      CompleteRunCons(rs, field, acc, page, n - 1);
    }
  }

  /** With a key at hand, a complete run returns the concatenation of its
      pages, consumes exactly its replies, and after the retrieval (if the key
      was not cached) sends one request per page whose params are the cursor:
      none at first, then the number of items gathered before it. */
  lemma CompleteRunYieldsList(c: Creds, key: Json, w: Wire, ep: Endpoint, field: string,
                              acc: seq<Json>, params: Params, n: nat)
    requires !ep.ApiKeyPath? && KeyAtHand(key, w)
    requires CompleteRun(w.replies, field, n)
    ensures AllPages(w.replies[..n], field)
    ensures var r := PageLoop(c, key, w, ep, field, acc, params);
            var key', w' := KeyInUse(key, w), Primed(c, key, w);
            && r.outcome == Returned(Arr(acc + Gathered(w.replies[..n], field)))
            && r.apiKey == key'
            && r.wire.replies == w.replies[n..]
            && r.wire.sent == w'.sent + PageRequests(c, key', w.now, ep, field, w.replies, acc, params, n)
            && r.wire.now == w.now && r.wire.sleeps == w.sleeps && r.wire.keyReplies == w'.keyReplies
  {
    FreshPageRunIsCachedRun(c, key, w, ep, field, acc, params);
    CachedCompleteRunYieldsList(c, KeyInUse(key, w), Primed(c, key, w), ep, field, acc, params, n);
  }

  /** None is returned only when some page is refused by its status, after
      pages that all said more follow; the partial items are discarded. */
  lemma {:induction false} NoneOnlyFromRefusal(c: Creds, key: Json, w: Wire, ep: Endpoint, field: string,
                                               acc: seq<Json>, params: Params)
    requires !ep.ApiKeyPath?
    ensures var r := PageLoop(c, key, w, ep, field, acc, params);
            r.outcome == Returned(Null) ==>
              exists n: nat :: RefusedAt(w.replies, field, n) && w.replies[n].body.Parsed?
                          && r.wire.replies == w.replies[n + 1..]
    decreases |w.replies|
  {
    var r := PageLoop(c, key, w, ep, field, acc, params);
    var h := HeadersFor(c, key, w);
    var rs := w.replies;
    if h.outcome.Returned? {
      var s := Serve(h.wire, Get(ep, params, h.outcome.value));
      if s.0.Answer? {
        assert rs != [] && s.0 == rs[0] && s.1.replies == rs[1..];
        if s.0.status != 200 {
          assert RefusedAt(rs, field, 0);
        } else if ReadPage(s.0.body, field).Returned? {
          var page := ReadPage(s.0.body, field).value;
          assert PageOf(rs[0], field) == Some(page);
          if page.1 {
            var acc' := acc + page.0;
            NoneOnlyFromRefusal(c, h.apiKey, s.1, ep, field, acc', Offset(|acc'|));
            if r.outcome == Returned(Null) {
              var n': nat :| RefusedAt(rs[1..], field, n') && rs[1..][n'].body.Parsed?
                        && r.wire.replies == rs[1..][n' + 1..];
              assert RefusedAt(rs, field, n' + 1);
              assert rs[n' + 2..] == rs[1..][n' + 1..];
            }
          }
        }
      }
    }
  }

  /** With a key cached, a refused page with a JSON body makes the whole
      fetch return None, after exactly one request per page up to it. */
  lemma {:induction false} CachedRefusalYieldsNone(c: Creds, key: Json, w: Wire, ep: Endpoint, field: string,
                                                   acc: seq<Json>, params: Params, n: nat)
    requires !ep.ApiKeyPath? && key != Null
    requires RefusedAt(w.replies, field, n) && w.replies[n].body.Parsed?
    ensures var r := PageLoop(c, key, w, ep, field, acc, params);
            && r.outcome == Returned(Null)
            && r.wire.replies == w.replies[n + 1..]
            && |r.wire.sent| == |w.sent| + n + 1
    decreases n
  {
    var rs := w.replies;
    var hdr := WithApiKey(BearerToken(c, w.now), key);
    var s := Serve(w, Get(ep, params, hdr));
    assert s.0 == rs[0] && s.1.replies == rs[1..];
    if n > 0 {
      var page := PageOf(rs[0], field).value;
      var acc' := acc + page.0;
      assert RefusedAt(rs[1..], field, n - 1);
      CachedRefusalYieldsNone(c, key, s.1, ep, field, acc', Offset(|acc'|), n - 1);
      assert rs[n + 1..] == rs[1..][n..];
    }
  }

  /** With a key at hand, a refused page with a JSON body makes the whole
      fetch return None, after the retrieval (if the key was not cached) and
      exactly one request per page up to it. */
  lemma RefusalYieldsNone(c: Creds, key: Json, w: Wire, ep: Endpoint, field: string,
                          acc: seq<Json>, params: Params, n: nat)
    requires !ep.ApiKeyPath? && KeyAtHand(key, w)
    requires RefusedAt(w.replies, field, n) && w.replies[n].body.Parsed?
    ensures var r := PageLoop(c, key, w, ep, field, acc, params);
            && r.outcome == Returned(Null)
            && r.wire.replies == w.replies[n + 1..]
            && |r.wire.sent| == |Primed(c, key, w).sent| + n + 1
  {
    FreshPageRunIsCachedRun(c, key, w, ep, field, acc, params);
    CachedRefusalYieldsNone(c, KeyInUse(key, w), Primed(c, key, w), ep, field, acc, params, n);
  }

  lemma RefusedIsNotComplete(rs: seq<Reply>, field: string, m: nat, n: nat)
    requires RefusedAt(rs, field, m)
    ensures !CompleteRun(rs, field, n)
  {
    if m < n {
      assert PageOf(rs[m], field).None?;
    } else if 0 < n {
      assert PageOf(rs[n - 1], field).value.1;
    }
  }

  /** A run that meets a refused page never returns a list, partial or not. */
  lemma RefusedRunReturnsNoList(c: Creds, key: Json, w: Wire, ep: Endpoint, field: string,
                                acc: seq<Json>, params: Params, m: nat)
    requires !ep.ApiKeyPath?
    requires RefusedAt(w.replies, field, m)
    ensures !(PageLoop(c, key, w, ep, field, acc, params).outcome.Returned?
              && PageLoop(c, key, w, ep, field, acc, params).outcome.value.Arr?)
  {
    ListOnlyFromCompleteRun(c, key, w, ep, field, acc, params);
    forall n: nat
      ensures !CompleteRun(w.replies, field, n)
    {
      RefusedIsNotComplete(w.replies, field, m, n);
    }
  }

  /** A page reply carrying `items` and `more`. */
  function PageReply(field: string, items: seq<Json>, more: bool): Reply {
    Answer(200, Parsed(Obj([(field, Arr(items)), ("more", Bool(more))])))
  }

  lemma PageReplyReads(field: string, items: seq<Json>, more: bool)
    requires field != "more"
    ensures PageOf(PageReply(field, items, more), field) == Some((items, more))
  {
    var ms := [(field, Arr(items)), ("more", Bool(more))];
    assert FindMember(ms, field) == Some(0);
    assert FindMember(ms[1..], "more") == Some(0);
  }

  /** A single empty last page gives the empty list, which is not None. */
  lemma EmptyListIsNotNone(c: Creds, key: Json, w: Wire, ep: Endpoint, field: string)
    requires !ep.ApiKeyPath? && KeyAtHand(key, w) && field != "more"
    requires w.replies == [PageReply(field, [], false)]
    ensures PageLoop(c, key, w, ep, field, [], NoParams).outcome == Returned(Arr([]))
    ensures PageLoop(c, key, w, ep, field, [], NoParams).outcome != Returned(Null)
  {
    PageReplyReads(field, [], false);
    assert CompleteRun(w.replies, field, 1);
    CompleteRunYieldsList(c, key, w, ep, field, [], NoParams, 1);
    assert w.replies[..1] == w.replies;
    assert w.replies[1..] == [];
  }

  /** Pages of 2, 2 and 1 items give the five items in order and, after
      the retrieval when no key was cached, are requested with no offset,
      then offset 2, then offset 4. */
  lemma ThreePages(c: Creds, key: Json, w: Wire, ep: Endpoint, field: string, a: Json, b: Json, d: Json, e: Json, f: Json)
    requires !ep.ApiKeyPath? && KeyAtHand(key, w) && field != "more"
    requires w.replies == [PageReply(field, [a, b], true), PageReply(field, [d, e], true), PageReply(field, [f], false)]
    ensures var r := PageLoop(c, key, w, ep, field, [], NoParams);
            var base := |Primed(c, key, w).sent|;
            && r.outcome == Returned(Arr([a, b, d, e, f]))
            && |r.wire.sent| == base + 3
            && r.wire.sent[base].params == NoParams
            && r.wire.sent[base + 1].params == Offset(2)
            && r.wire.sent[base + 2].params == Offset(4)
  {
    FreshPageRunIsCachedRun(c, key, w, ep, field, [], NoParams);
    var k0, v := KeyInUse(key, w), Primed(c, key, w);
    var hdr := WithApiKey(BearerToken(c, v.now), k0);
    var p1 := PageReply(field, [a, b], true);
    var p2 := PageReply(field, [d, e], true);
    var p3 := PageReply(field, [f], false);
    PageReplyReads(field, [a, b], true);
    PageReplyReads(field, [d, e], true);
    PageReplyReads(field, [f], false);
    var w1 := v.(sent := v.sent + [Get(ep, NoParams, hdr)], replies := [p2, p3]);
    var w2 := w1.(sent := w1.sent + [Get(ep, Offset(2), hdr)], replies := [p3]);
    var w3 := w2.(sent := w2.sent + [Get(ep, Offset(4), hdr)], replies := []);
    assert v.replies[1..] == [p2, p3];
    assert [] + [a, b] == [a, b] && [a, b] + [d, e] == [a, b, d, e];
    assert [a, b, d, e] + [f] == [a, b, d, e, f];
    CachedPageStep(c, k0, v, ep, field, [], NoParams);
    assert w1.replies[1..] == [p3];
    CachedPageStep(c, k0, w1, ep, field, [a, b], Offset(2));
    assert w2.replies[1..] == [];
    CachedPageStep(c, k0, w2, ep, field, [a, b, d, e], Offset(4));
  }
}
