/** The retry loop of `get_athlete_measurement_results`: at most five
    requests, a five-second sleep between consecutive ones, the first answer
    other than 202 decides the result, and five 202s give the error record
    carrying status code 202. */
module PollingProofs {

  import opened PyValues
  import opened Jwt
  import opened Transport
  import opened CloudApiSpec
  import opened KeyCacheProofs
  import PaginationProofs
  import Text

  /** The server's "still processing" answer. */
  predicate IsAccepted(reply: Reply) {
    reply.Answer? && reply.status == 202
  }

  /** The reply an attempt gets from queue `rs` at position `k`. */
  function NthReply(rs: seq<Reply>, k: nat): Reply {
    if k < |rs| then rs[k] else NoAnswer
  }

  /** The queue after `k` replies have been taken. */
  function Drop(rs: seq<Reply>, k: nat): seq<Reply> {
    if k <= |rs| then rs[k..] else []
  }

  /** What the loop returns on an answer other than 202. */
  function Final(reply: Reply): (r: Outcome<Json>)
    requires !IsAccepted(reply)
    ensures reply.NoAnswer? ==> r == Raised(RequestException)
    ensures reply.Answer? && reply.status == 200 ==> r == Decode(reply.body)
    ensures reply.Answer? && reply.status != 200 ==> r == Rejected(reply.body)
  {
    match reply
    case NoAnswer => Raised(RequestException)
    case Answer(status, body) => if status == 200 then Decode(body) else Rejected(body)
  }

  /** The requests of `k` attempts with a cached key, the first at clock time
      `now` and each later one `RetryDelay` seconds after the previous. */
  function Attempts(c: Creds, key: Json, ep: Endpoint, params: Params, now: int, k: nat): (r: seq<Request>)
    ensures |r| == k
    ensures forall i :: 0 <= i < k ==> r[i].endpoint == ep && r[i].params == params
    decreases k
  {
    if k == 0 then []
    else [Get(ep, params, WithApiKey(BearerToken(c, now), key))]
         + Attempts(c, key, ep, params, now + RetryDelay, k - 1)
  }

  /** `k` sleeps of `RetryDelay` seconds. */
  function Delays(k: nat): (r: seq<nat>)
    ensures |r| == k
    ensures forall i :: 0 <= i < k ==> r[i] == RetryDelay
  {
    if k == 0 then [] else [RetryDelay] + Delays(k - 1)
  }

  /** Each request of a run carries a token of its own, issued at the clock
      time it is sent (the first at `now`, each later one five seconds on),
      so no request leaves with an expired token however long the run waits. */
  lemma {:induction false} AttemptTokensFresh(c: Creds, key: Json, ep: Endpoint, params: Params, now: int, k: nat)
    ensures forall i :: 0 <= i < k ==>
              && Attempts(c, key, ep, params, now, k)[i].headers == WithApiKey(BearerToken(c, now + RetryDelay * i), key)
              && Verify(Attempts(c, key, ep, params, now, k)[i].headers.bearer, c.sharedSecret)
                 == Some(Claims(c.consumerId, now + RetryDelay * i, now + RetryDelay * i + Lifetime))
              && Unexpired(Attempts(c, key, ep, params, now, k)[i].headers.bearer.claims, now + RetryDelay * i)
    decreases k
  {
    if k > 0 {
      var a := Attempts(c, key, ep, params, now, k);
      var rest := Attempts(c, key, ep, params, now + RetryDelay, k - 1);
      AttemptTokensFresh(c, key, ep, params, now + RetryDelay, k - 1);
      assert a == [a[0]] + rest;
      forall i | 1 <= i < k
        ensures a[i].headers == WithApiKey(BearerToken(c, now + RetryDelay * i), key)
      {
        assert a[i] == rest[i - 1];
        assert now + RetryDelay + RetryDelay * (i - 1) == now + RetryDelay * i;
      }
    }
  }

  /** One attempt with a cached key. */
  lemma PollStep(c: Creds, key: Json, w: Wire, ep: Endpoint, params: Params, retries: nat)
    requires !ep.ApiKeyPath? && key != Null && retries < MaxRetries
    ensures var reply := NthReply(w.replies, 0);
            var w1 := w.(sent := w.sent + [Get(ep, params, WithApiKey(BearerToken(c, w.now), key))],
                         replies := Drop(w.replies, 1));
            PollLoop(c, key, w, ep, params, retries)
              == if !IsAccepted(reply) then Step(Final(reply), key, w1)
                 else if retries + 1 >= MaxRetries then Step(Returned(Exhausted), key, w1)
                 else PollLoop(c, key, Pause(w1, RetryDelay), ep, params, retries + 1)
  {
  }

  /** With a key cached, when the first answer other than 202 comes at attempt
      `k + 1` (still within the limit), the loop returns what that answer
      settles to, after `k + 1` requests and `k` sleeps of five seconds. */
  lemma {:induction false} CachedSettledRun(c: Creds, key: Json, w: Wire, ep: Endpoint, params: Params,
                                            retries: nat, k: nat)
    requires !ep.ApiKeyPath? && key != Null
    requires retries + k < MaxRetries
    requires forall i :: 0 <= i < k ==> IsAccepted(NthReply(w.replies, i))
    requires !IsAccepted(NthReply(w.replies, k))
    ensures var r := PollLoop(c, key, w, ep, params, retries);
            && r.outcome == Final(NthReply(w.replies, k))
            && r.apiKey == key
            && r.wire.sent == w.sent + Attempts(c, key, ep, params, w.now, k + 1)
            && r.wire.sleeps == w.sleeps + Delays(k)
            && r.wire.now == w.now + RetryDelay * k
            && r.wire.replies == Drop(w.replies, k + 1)
            && r.wire.keyReplies == w.keyReplies
    decreases k
  {
    PollStep(c, key, w, ep, params, retries);
    var req := Get(ep, params, WithApiKey(BearerToken(c, w.now), key));
    var w1 := w.(sent := w.sent + [req], replies := Drop(w.replies, 1));
    if k > 0 {
      assert IsAccepted(NthReply(w.replies, 0));
      var w2 := Pause(w1, RetryDelay);
      assert forall i :: 0 <= i < k - 1 ==> NthReply(w2.replies, i) == NthReply(w.replies, i + 1);
      assert NthReply(w2.replies, k - 1) == NthReply(w.replies, k);
      CachedSettledRun(c, key, w2, ep, params, retries + 1, k - 1);
      var later, pauses := Attempts(c, key, ep, params, w.now + RetryDelay, k), Delays(k - 1);
      PaginationProofs.ConcatAssoc(w.sent, [req], later);
      PaginationProofs.ConcatAssoc(w.sleeps, [RetryDelay], pauses);
      assert Drop(w2.replies, k) == Drop(w.replies, k + 1);
    }
  }

  /** With a key at hand, when the first answer other than 202 comes at
      attempt `k + 1` (still within the limit), the loop returns what that
      answer settles to, after the retrieval (if the key was not cached),
      `k + 1` requests and `k` sleeps of five seconds. */
  lemma SettledRun(c: Creds, key: Json, w: Wire, ep: Endpoint, params: Params, retries: nat, k: nat)
    requires !ep.ApiKeyPath? && KeyAtHand(key, w)
    requires retries + k < MaxRetries
    requires forall i :: 0 <= i < k ==> IsAccepted(NthReply(w.replies, i))
    requires !IsAccepted(NthReply(w.replies, k))
    ensures var r := PollLoop(c, key, w, ep, params, retries);
            var key', w' := KeyInUse(key, w), Primed(c, key, w);
            && r.outcome == Final(NthReply(w.replies, k))
            && r.apiKey == key'
            && r.wire.sent == w'.sent + Attempts(c, key', ep, params, w.now, k + 1)
            && r.wire.sleeps == w.sleeps + Delays(k)
            && r.wire.now == w.now + RetryDelay * k
            && r.wire.replies == Drop(w.replies, k + 1)
            && r.wire.keyReplies == w'.keyReplies
  {
    FreshPollIsCachedPoll(c, key, w, ep, params, retries);
    CachedSettledRun(c, KeyInUse(key, w), Primed(c, key, w), ep, params, retries, k);
  }

  /** With a key cached, when every attempt up to the limit is answered 202,
      the loop returns the error record, after the remaining attempts and one
      sleep between each two of them. */
  lemma {:induction false} CachedExhaustedRun(c: Creds, key: Json, w: Wire, ep: Endpoint, params: Params,
                                              retries: nat)
    requires !ep.ApiKeyPath? && key != Null && retries < MaxRetries
    requires forall i :: 0 <= i < MaxRetries - retries ==> IsAccepted(NthReply(w.replies, i))
    ensures var m := MaxRetries - retries;
            var r := PollLoop(c, key, w, ep, params, retries);
            && r.outcome == Returned(Exhausted)
            && r.apiKey == key
            && r.wire.sent == w.sent + Attempts(c, key, ep, params, w.now, m)
            && r.wire.sleeps == w.sleeps + Delays(m - 1)
            && r.wire.now == w.now + RetryDelay * (m - 1)
            && r.wire.replies == Drop(w.replies, m)
            && r.wire.keyReplies == w.keyReplies
    decreases MaxRetries - retries
  {
    var m := MaxRetries - retries;
    PollStep(c, key, w, ep, params, retries);
    assert IsAccepted(NthReply(w.replies, 0));
    var req := Get(ep, params, WithApiKey(BearerToken(c, w.now), key));
    var w1 := w.(sent := w.sent + [req], replies := Drop(w.replies, 1));
    if m > 1 {
      var w2 := Pause(w1, RetryDelay);
      assert forall i :: 0 <= i < m - 1 ==> NthReply(w2.replies, i) == NthReply(w.replies, i + 1);
      CachedExhaustedRun(c, key, w2, ep, params, retries + 1);
      var later, pauses := Attempts(c, key, ep, params, w.now + RetryDelay, m - 1), Delays(m - 2);
      PaginationProofs.ConcatAssoc(w.sent, [req], later);
      PaginationProofs.ConcatAssoc(w.sleeps, [RetryDelay], pauses);
      assert Drop(w2.replies, m - 1) == Drop(w.replies, m);
    }
  }

  /** With a key at hand, when every attempt up to the limit is answered 202,
      the loop returns the error record, after the retrieval (if the key was
      not cached), the remaining attempts and one sleep between each two of
      them. */
  lemma ExhaustedRun(c: Creds, key: Json, w: Wire, ep: Endpoint, params: Params, retries: nat)
    requires !ep.ApiKeyPath? && KeyAtHand(key, w) && retries < MaxRetries
    requires forall i :: 0 <= i < MaxRetries - retries ==> IsAccepted(NthReply(w.replies, i))
    ensures var m := MaxRetries - retries;
            var r := PollLoop(c, key, w, ep, params, retries);
            var key', w' := KeyInUse(key, w), Primed(c, key, w);
            && r.outcome == Returned(Exhausted)
            && r.apiKey == key'
            && r.wire.sent == w'.sent + Attempts(c, key', ep, params, w.now, m)
            && r.wire.sleeps == w.sleeps + Delays(m - 1)
            && r.wire.now == w.now + RetryDelay * (m - 1)
            && r.wire.replies == Drop(w.replies, m)
            && r.wire.keyReplies == w'.keyReplies
  {
    FreshPollIsCachedPoll(c, key, w, ep, params, retries);
    CachedExhaustedRun(c, KeyInUse(key, w), Primed(c, key, w), ep, params, retries);
  }

  /** The number of leading 202 answers in `rs`, counting at most `cap`. */
  function LeadingAccepted(rs: seq<Reply>, cap: nat): (k: nat)
    ensures k <= cap
    ensures forall i :: 0 <= i < k ==> IsAccepted(NthReply(rs, i))
    ensures k < cap ==> !IsAccepted(NthReply(rs, k))
    decreases cap
  {
    if cap == 0 || !IsAccepted(NthReply(rs, 0)) then 0
    else
      var k' := LeadingAccepted(Drop(rs, 1), cap - 1);
      assert forall i :: 0 <= i <= k' ==> NthReply(Drop(rs, 1), i) == NthReply(rs, i + 1);
      assert forall i :: 1 <= i < k' + 1 ==> NthReply(rs, i) == NthReply(Drop(rs, 1), i - 1);
      k' + 1
  }

  /** With a key at hand, the loop sends at most five requests after the
      retrieval (if the key was not cached), all to the results endpoint with
      the same `var` parameter, sleeps five seconds before every request but
      the first, and the clock moves by exactly the time slept. */
  lemma AtMostFiveAttempts(c: Creds, key: Json, w: Wire, ep: Endpoint, params: Params)
    requires !ep.ApiKeyPath? && KeyAtHand(key, w)
    ensures var r := PollLoop(c, key, w, ep, params, 0);
            var w' := Primed(c, key, w);
            var k := |r.wire.sent| - |w'.sent|;
            && 1 <= k <= MaxRetries
            && r.wire.sent == w'.sent + Attempts(c, KeyInUse(key, w), ep, params, w.now, k)
            && r.wire.sleeps == w.sleeps + Delays(k - 1)
            && r.wire.now == w.now + RetryDelay * (k - 1)
  {
    var k := LeadingAccepted(w.replies, MaxRetries);
    if k == MaxRetries {
      ExhaustedRun(c, key, w, ep, params, 0);
    } else {
      SettledRun(c, key, w, ep, params, 0, k);
    }
  }

  /** Five 202 answers in a row give the error record, whose `status_code`
      is 202, after five requests (plus the retrieval when no key was cached)
      and four sleeps of five seconds. */
  lemma FiveAcceptedGiveError(c: Creds, key: Json, w: Wire, ep: Endpoint, params: Params)
    requires !ep.ApiKeyPath? && KeyAtHand(key, w)
    requires |w.replies| >= MaxRetries && forall i :: 0 <= i < MaxRetries ==> IsAccepted(w.replies[i])
    ensures var r := PollLoop(c, key, w, ep, params, 0);
            && r.outcome == Returned(Exhausted)
            && Subscript(r.outcome.value, "status_code") == Returned(Num(202))
            && Subscript(r.outcome.value, "error") == Returned(Str(ExhaustedMessage))
            && |r.wire.sent| == |Primed(c, key, w).sent| + 5
            && r.wire.sleeps == w.sleeps + [5, 5, 5, 5]
            && r.wire.replies == w.replies[5..]
  {
    assert forall i :: 0 <= i < MaxRetries ==> NthReply(w.replies, i) == w.replies[i];
    ExhaustedRun(c, key, w, ep, params, 0);
    assert Delays(4) == [5, 5, 5, 5];
    ExhaustedRecordReads();
  }

  /** The error record reads back its message and the status code 202. */
  lemma ExhaustedRecordReads()
    ensures Subscript(Exhausted, "status_code") == Returned(Num(202))
    ensures Subscript(Exhausted, "error") == Returned(Str(ExhaustedMessage))
  {
    var ms := Exhausted.members;
    assert ms[0].0 == "error" && ms[1].0 == "status_code";
    assert "error" != "status_code" by { assert "error"[0] != "status_code"[0]; }
    assert FindMember(ms, "error") == Some(0);
    assert FindMember(ms[1..], "status_code") == Some(0);
  }

  /** When results are ready after `k` answers of 202 (fewer than five), the
      decoded body is returned after `k` sleeps of five seconds and `k + 1`
      requests (plus the retrieval when no key was cached). */
  lemma ReadyAfterWaiting(c: Creds, key: Json, w: Wire, ep: Endpoint, params: Params, k: nat, body: Json)
    requires !ep.ApiKeyPath? && KeyAtHand(key, w) && k < MaxRetries
    requires k < |w.replies| && w.replies[k] == Answer(200, Parsed(body))
    requires forall i :: 0 <= i < k ==> IsAccepted(w.replies[i])
    ensures var r := PollLoop(c, key, w, ep, params, 0);
            && r.outcome == Returned(body)
            && |r.wire.sent| == |Primed(c, key, w).sent| + k + 1
            && r.wire.sleeps == w.sleeps + Delays(k)
  {
    assert forall i :: 0 <= i <= k ==> NthReply(w.replies, i) == w.replies[i];
    SettledRun(c, key, w, ep, params, 0, k);
  }

  /** An answer other than 200 or 202 with a JSON body ends the loop at once
      with None. */
  lemma OtherStatusGivesNone(c: Creds, key: Json, w: Wire, ep: Endpoint, params: Params, k: nat,
                             status: int, body: Json)
    requires !ep.ApiKeyPath? && KeyAtHand(key, w) && k < MaxRetries
    requires status != 200 && status != 202
    requires k < |w.replies| && w.replies[k] == Answer(status, Parsed(body))
    requires forall i :: 0 <= i < k ==> IsAccepted(w.replies[i])
    ensures var r := PollLoop(c, key, w, ep, params, 0);
            && r.outcome == Returned(Null)
            && |r.wire.sent| == |Primed(c, key, w).sent| + k + 1
  {
    assert forall i :: 0 <= i <= k ==> NthReply(w.replies, i) == w.replies[i];
    SettledRun(c, key, w, ep, params, 0, k);
  }

  /** Without `variables` the `var` parameter names the three default
      variables: the server's comma split gives exactly them. */
  lemma DefaultVariablesSent()
    ensures Text.Split(VarParam(None).names, ',') == ["trimp", "trimpPerMinute", "heartRateAverage"]
  {
    var d := DefaultVariables;
    assert forall i :: 0 <= i < |d[0]| ==> d[0][i] != ',';
    assert forall i :: 0 <= i < |d[1]| ==> d[1][i] != ',';
    assert forall i :: 0 <= i < |d[2]| ==> d[2][i] != ',';
    VariablesRoundTrip(d);
  }

  /** With `variables` given, the server's comma split gives the list back
      when no name holds a comma. */
  lemma VariablesRoundTrip(variables: seq<string>)
    requires |variables| >= 1
    requires forall k, i :: 0 <= k < |variables| && 0 <= i < |variables[k]| ==> variables[k][i] != ','
    ensures Text.Split(VarParam(Some(variables)).names, ',') == variables
  {
    Text.SplitJoin(variables, ',');
    assert [','] == ",";
  }
}
