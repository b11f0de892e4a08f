/** What each operation of the `CloudAPI` client does, as a function from the
    client's api-key field and a snapshot of the server to the outcome, the
    new api-key field and the new snapshot. The methods of
    `CloudApiClient.CloudApi` are proved equal to these functions; the
    properties of the client are proved about them (here and in the
    `KeyCacheProofs`, `PaginationProofs` and `PollingProofs` modules). */
module CloudApiSpec {

  import opened PyValues
  import opened Jwt
  import opened Transport
  import Text

  /** The client's immutable configuration: base URL, shared secret, consumer id. */
  datatype Creds = Creds(api: string, sharedSecret: string, consumerId: string)

  /** What an operation returned or raised, the `api_key` field afterwards,
      and the server afterwards. */
  datatype Step<T> = Step(outcome: Outcome<T>, apiKey: Json, wire: Wire)

  const MaxRetries: nat := 5
  const RetryDelay: nat := 5
  const DefaultVariables: seq<string> := ["trimp", "trimpPerMinute", "heartRateAverage"]
  const ExhaustedMessage: string :=
    "Error: Maximum retries reached. API still returning 202 Accepted after 5 attempts."

  /** The record returned once the results endpoint has answered 202 five times. */
  const Exhausted: Json := Obj([("error", Str(ExhaustedMessage)), ("status_code", Num(202))])

  /** `generate_jwt_token` at clock time `now`. */
  function BearerToken(c: Creds, now: int): Token
  {
    Encode(IssueClaims(c.consumerId, now), c.sharedSecret)
  }

  /** The bearer token sent at `now` names the consumer as issuer, was issued
      at `now`, expires 300 seconds later, and reads only under the shared
      secret. */
  lemma BearerTokenReads(c: Creds, now: int, other: string)
    ensures Verify(BearerToken(c, now), c.sharedSecret)
            == Some(Claims(c.consumerId, now, now + Lifetime))
    ensures other != c.sharedSecret ==> Verify(BearerToken(c, now), other).None?
  {
  }

  /** `response.json()`. */
  function Decode(body: Body): (r: Outcome<Json>)
    ensures r.Raised? <==> body.Garbled?
    ensures r.Raised? ==> r.exc == JsonDecodeError
  {
    match body
    case Parsed(j) => Returned(j)
    case Garbled => Raised(JsonDecodeError)
  }

  /** The error branch: `print(response.json())` then `return None`. */
  function Rejected(body: Body): (r: Outcome<Json>)
    ensures r == Returned(Null) <==> body.Parsed?
    ensures r.Raised? ==> r.exc == JsonDecodeError
  {
    if body.Parsed? then Returned(Null) else Raised(JsonDecodeError)
  }

  /** `response.json()[key]`. */
  function MemberOf(body: Body, key: string): (r: Outcome<Json>)
    ensures r == Raised(JsonDecodeError) <==> body.Garbled?
    ensures body.Parsed? && !body.json.Obj? ==> r == Raised(TypeError)
    ensures r.Returned? ==> && body.Parsed? && body.json.Obj?
                            && var i := FindMember(body.json.members, key);
                               i.Some? && body.json.members[i.value] == (key, r.value)
  {
    match body
    case Garbled => Raised(JsonDecodeError)
    case Parsed(j) => Subscript(j, key)
  }

  /** Which part of a 200 body a single-shot fetch returns. */
  datatype Pick = WholeBody | Field(key: string)

  /** The reply handling shared by `retrieve_api_key`, `get_accounts` and
      `get_account_coaches`. */
  function Settle(reply: Reply, pick: Pick): (r: Outcome<Json>)
    ensures reply.NoAnswer? ==> r == Raised(RequestException)
    ensures r.Returned? && r.value != Null ==> reply.Answer? && reply.status == 200
  {
    match reply
    case NoAnswer => Raised(RequestException)
    case Answer(status, body) =>
      if status != 200 then Rejected(body)
      else match pick
        case WholeBody => Decode(body)
        case Field(k) => MemberOf(body, k)
  }

  /** `retrieve_api_key`: a GET of the api-key endpoint with the token alone. */
  function KeyFetch(c: Creds, w: Wire): (r: (Outcome<Json>, Wire))
    ensures r.1.replies == w.replies && r.1.now == w.now && r.1.sleeps == w.sleeps
  {
    var s := Serve(w, Get(ApiKeyPath, NoParams, TokenOnly(BearerToken(c, w.now))));
    (Settle(s.0, Field("apikey")), s.1)
  }

  /** `generate_query_headers`: fetch the api key first when the field is None. */
  function HeadersFor(c: Creds, key: Json, w: Wire): (r: Step<Headers>)
    ensures r.wire.replies == w.replies && r.wire.now == w.now && r.wire.sleeps == w.sleeps
  {
    if key == Null then
      var k := KeyFetch(c, w);
      match k.0
      case Raised(x) => Step(Raised(x), key, k.1)
      case Returned(v) => Step(Returned(WithApiKey(BearerToken(c, k.1.now), v)), v, k.1)
    else
      Step(Returned(WithApiKey(BearerToken(c, w.now), key)), key, w)
  }

  /** `get_accounts` (Pick `Field("accounts")`) and `get_account_coaches`
      (Pick `WholeBody`): one authenticated GET. */
  function FetchOnce(c: Creds, key: Json, w: Wire, ep: Endpoint, pick: Pick): (r: Step<Json>)
    ensures r.wire.now == w.now && r.wire.sleeps == w.sleeps
    ensures key != Null ==> r.apiKey == key && |r.wire.sent| == |w.sent| + 1
    ensures key == Null ==> |w.sent| + 1 <= |r.wire.sent| <= |w.sent| + 2
  {
    var h := HeadersFor(c, key, w);
    match h.outcome
    case Raised(x) => Step(Raised(x), h.apiKey, h.wire)
    case Returned(hs) =>
      var s := Serve(h.wire, Get(ep, NoParams, hs));
      Step(Settle(s.0, pick), h.apiKey, s.1)
  }

  /** One page of a 200 reply: `items.extend(response.json()[field])`, then
      `more = response.json()["more"]`; the items appended and the truth
      value of `more`. */
  function ReadPage(body: Body, field: string): (r: Outcome<(seq<Json>, bool)>)
    ensures body.Garbled? ==> r == Raised(JsonDecodeError)
    ensures r.Returned? ==> body.Parsed? && body.json.Obj?
  {
    match MemberOf(body, field)
    case Raised(x) => Raised(x)
    case Returned(items) =>
      match Iterate(items)
      case Raised(x) => Raised(x)
      case Returned(elems) =>
        match MemberOf(body, "more")
        case Raised(x) => Raised(x)
        case Returned(m) => Returned((elems, Truthy(m)))
  }

  /** The loop of `get_account_athletes`, `get_account_teams` and
      `get_athlete_measurements` from a state where `acc` has been gathered
      and the next request carries `params`. */
  function PageLoop(c: Creds, key: Json, w: Wire, ep: Endpoint, field: string,
                    acc: seq<Json>, params: Params): (r: Step<Json>)
    requires !ep.ApiKeyPath?
    ensures r.wire.now == w.now && r.wire.sleeps == w.sleeps
    ensures |w.sent| < |r.wire.sent|
    decreases |w.replies|
  {
    var h := HeadersFor(c, key, w);
    match h.outcome
    case Raised(x) => Step(Raised(x), h.apiKey, h.wire)
    case Returned(hs) =>
      var s := Serve(h.wire, Get(ep, params, hs));
      match s.0
      case NoAnswer => Step(Raised(RequestException), h.apiKey, s.1)
      case Answer(status, body) =>
        if status != 200 then Step(Rejected(body), h.apiKey, s.1)
        else match ReadPage(body, field)
          case Raised(x) => Step(Raised(x), h.apiKey, s.1)
          case Returned(page) =>
            var acc' := acc + page.0;
            if page.1 then PageLoop(c, h.apiKey, s.1, ep, field, acc', Offset(|acc'|))
            else Step(Returned(Arr(acc')), h.apiKey, s.1)
  }

  /** The `var` query parameter: the requested names, or the default three,
      joined with commas. */
  function VarParam(variables: Option<seq<string>>): (r: Params)
    ensures r.Var?
    ensures var names := if variables.None? then DefaultVariables else variables.value;
            var last := if names == [] then "" else names[|names| - 1];
            names != [] ==> && names[0] <= r.names && |last| <= |r.names|
                            && r.names[|r.names| - |last|..] == last
  {
    var names := if variables.None? then DefaultVariables else variables.value;
    if names != [] then Text.JoinEnds(names, ","); Var(Text.Join(names, ","))
    else Var(Text.Join(names, ","))
  }

  /** The retry loop of `get_athlete_measurement_results` from attempt
      `retries + 1` on. */
  function PollLoop(c: Creds, key: Json, w: Wire, ep: Endpoint, params: Params,
                    retries: nat): (r: Step<Json>)
    requires !ep.ApiKeyPath?
    requires retries < MaxRetries
    ensures |w.sent| < |r.wire.sent|
    ensures |w.sleeps| <= |r.wire.sleeps| < |w.sleeps| + MaxRetries - retries
    decreases MaxRetries - retries
  {
    var h := HeadersFor(c, key, w);
    match h.outcome
    case Raised(x) => Step(Raised(x), h.apiKey, h.wire)
    case Returned(hs) =>
      var s := Serve(h.wire, Get(ep, params, hs));
      match s.0
      case NoAnswer => Step(Raised(RequestException), h.apiKey, s.1)
      case Answer(status, body) =>
        if status == 200 then Step(Decode(body), h.apiKey, s.1)
        else if status == 202 then
          if retries + 1 >= MaxRetries then Step(Returned(Exhausted), h.apiKey, s.1)
          else PollLoop(c, h.apiKey, Pause(s.1, RetryDelay), ep, params, retries + 1)
        else Step(Rejected(body), h.apiKey, s.1)
  }
}
