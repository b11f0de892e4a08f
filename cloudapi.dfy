/** The `CloudAPI` client object: its configuration, its lazily filled
    `api_key` field, and the operations that talk to the server. */
module CloudApiClient {

  import opened PyValues
  import opened Jwt
  import opened Transport
  import opened CloudApiSpec

  class CloudApi {
    const api: string
    const sharedSecret: string
    const consumerId: string
    /** The cached API key; `Null` until a retrieval has produced one. */
    var apiKey: Json
    /** The server and clock the client talks to. */
    const env: Environment

    function Credentials(): Creds {
      Creds(api, sharedSecret, consumerId)
    }

    constructor (api: string, sharedSecret: string, consumerId: string, env: Environment)
      ensures Credentials() == Creds(api, sharedSecret, consumerId)
      ensures apiKey == Null && this.env == env
    {
      this.api := api;
      this.sharedSecret := sharedSecret;
      this.consumerId := consumerId;
      this.apiKey := Null;
      this.env := env;
    }

    /** `generate_jwt_token`: a fresh token for the current clock time. */
    method GenerateJwtToken() returns (t: Token)
      ensures Verify(t, sharedSecret) == Some(Claims(consumerId, env.now, env.now + 300))
      ensures t == BearerToken(Credentials(), env.now)
    {
      var now := env.now;
      var expires := now + Lifetime;
      t := Encode(Claims(consumerId, now, expires), sharedSecret);
    }

    /** `retrieve_api_key`. */
    method RetrieveApiKey() returns (o: Outcome<Json>)
      modifies env
      ensures (o, env.Snapshot()) == KeyFetch(Credentials(), old(env.Snapshot()))
    {
      var token := GenerateJwtToken();
      var reply := env.Send(Get(ApiKeyPath, NoParams, TokenOnly(token)));
      o := Settle(reply, Field("apikey"));
    }

    /** `generate_query_headers`. */
    method GenerateQueryHeaders() returns (o: Outcome<Headers>)
      modifies this, env
      ensures Step(o, apiKey, env.Snapshot()) == HeadersFor(Credentials(), old(apiKey), old(env.Snapshot()))
      ensures old(apiKey) != Null ==> apiKey == old(apiKey) && unchanged(env)
    {
      if apiKey == Null {
        var k := RetrieveApiKey();
        if k.Raised? {
          return Raised(k.exc);
        }
        apiKey := k.value;
      }
      var token := GenerateJwtToken();
      o := Returned(WithApiKey(token, apiKey));
    }

    /** `get_accounts`. */
    method GetAccounts() returns (o: Outcome<Json>)
      modifies this, env
      ensures Step(o, apiKey, env.Snapshot())
              == FetchOnce(Credentials(), old(apiKey), old(env.Snapshot()), AccountsPath, Field("accounts"))
    {
      var h := GenerateQueryHeaders();
      if h.Raised? {
        return Raised(h.exc);
      }
      var reply := env.Send(Get(AccountsPath, NoParams, h.value));
      o := Settle(reply, Field("accounts"));
    }

    /** `get_account_coaches`. */
    method GetAccountCoaches(accountId: string) returns (o: Outcome<Json>)
      modifies this, env
      ensures Step(o, apiKey, env.Snapshot())
              == FetchOnce(Credentials(), old(apiKey), old(env.Snapshot()), CoachesPath(accountId), WholeBody)
    {
      var h := GenerateQueryHeaders();
      if h.Raised? {
        return Raised(h.exc);
      }
      var reply := env.Send(Get(CoachesPath(accountId), NoParams, h.value));
      o := Settle(reply, WholeBody);
    }

    /** The offset-pagination loop shared by the three list fetchers: request
        pages until one says there are no more, sending as `offset` the number
        of items gathered so far. */
    method FetchAllPages(ep: Endpoint, field: string) returns (o: Outcome<Json>)
      requires !ep.ApiKeyPath?
      modifies this, env
      ensures Step(o, apiKey, env.Snapshot())
              == PageLoop(Credentials(), old(apiKey), old(env.Snapshot()), ep, field, [], NoParams)
    {
      var params := NoParams;
      var items: seq<Json> := [];
      var more := true;
      while more
        invariant PageLoop(Credentials(), old(apiKey), old(env.Snapshot()), ep, field, [], NoParams)
                  == if more then PageLoop(Credentials(), apiKey, env.Snapshot(), ep, field, items, params)
                     else Step(Returned(Arr(items)), apiKey, env.Snapshot())
        decreases more, |env.replies|
      {
        var h := GenerateQueryHeaders();
        if h.Raised? {
          return Raised(h.exc);
        }
        var reply := env.Send(Get(ep, params, h.value));
        if reply.NoAnswer? {
          return Raised(RequestException);
        }
        if reply.status != 200 {
          return Rejected(reply.body);
        }
        var page := ReadPage(reply.body, field);
        if page.Raised? {
          return Raised(page.exc);
        }
        items := items + page.value.0;
        more := page.value.1;
        params := Offset(|items|);
      }
      o := Returned(Arr(items));
    }

    /** `get_account_athletes`. */
    method GetAccountAthletes(accountId: string) returns (o: Outcome<Json>)
      modifies this, env
      ensures Step(o, apiKey, env.Snapshot())
              == PageLoop(Credentials(), old(apiKey), old(env.Snapshot()), AthletesPath(accountId), "athletes", [], NoParams)
    {
      o := FetchAllPages(AthletesPath(accountId), "athletes");
    }

    /** `get_account_teams`. */
    method GetAccountTeams(accountId: string) returns (o: Outcome<Json>)
      modifies this, env
      ensures Step(o, apiKey, env.Snapshot())
              == PageLoop(Credentials(), old(apiKey), old(env.Snapshot()), TeamsPath(accountId), "teams", [], NoParams)
    {
      o := FetchAllPages(TeamsPath(accountId), "teams");
    }

    /** `get_athlete_measurements`. */
    method GetAthleteMeasurements(accountId: string, athleteId: string) returns (o: Outcome<Json>)
      modifies this, env
      ensures Step(o, apiKey, env.Snapshot())
              == PageLoop(Credentials(), old(apiKey), old(env.Snapshot()),
                          MeasurementsPath(accountId, athleteId), "measurements", [], NoParams)
    {
      o := FetchAllPages(MeasurementsPath(accountId, athleteId), "measurements");
    }

    /** `get_athlete_measurement_results`: poll while the server answers 202
        ("processing"), at most five times, sleeping five seconds in between. */
    method GetAthleteMeasurementResults(accountId: string, athleteId: string, measurementId: string,
                                        variables: Option<seq<string>>)
      returns (o: Outcome<Json>)
      modifies this, env
      ensures Step(o, apiKey, env.Snapshot())
              == PollLoop(Credentials(), old(apiKey), old(env.Snapshot()),
                          ResultsPath(accountId, athleteId, measurementId), VarParam(variables), 0)
    {
      var ep := ResultsPath(accountId, athleteId, measurementId);
      var params := VarParam(variables);
      var maxRetries := MaxRetries;
      var retryCount: nat := 0;
      ghost var result := PollLoop(Credentials(), apiKey, env.Snapshot(), ep, params, 0);
      while retryCount < maxRetries
        invariant retryCount < maxRetries
        invariant result == PollLoop(Credentials(), apiKey, env.Snapshot(), ep, params, retryCount)
        decreases maxRetries - retryCount
      {
        var h := GenerateQueryHeaders();
        if h.Raised? {
          return Raised(h.exc);
        }
        var reply := env.Send(Get(ep, params, h.value));
        if reply.NoAnswer? {
          return Raised(RequestException);
        }
        if reply.status == 200 {
          return Decode(reply.body);
        } else if reply.status == 202 {
          retryCount := retryCount + 1;
          if retryCount >= maxRetries {
            return Returned(Exhausted);
          }
          env.Sleep(RetryDelay);
        } else {
          return Rejected(reply.body);
        }
      }
      // Never reached: every iteration returns or leaves retryCount below maxRetries.
      assert false;
      o := Returned(Null);
    }
  }
}
