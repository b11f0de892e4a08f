# Firstbeat Sports Cloud API client: a verified model

This project models the two programs at the heart of the Firstbeat Sports
Cloud API examples and proves properties of them:

- the `CloudAPI` client object (`quickstart/cloudapiclient.py`). It builds a
  JWT for every request and fetches the API key lazily into its `api_key`
  field, sending it as the `x-api-key` header. Its fetchers cover the
  accounts, the coaches, the offset-paginated lists of athletes, teams and
  measurements, and the measurement results. The results fetcher polls while
  the server answers 202 "Accepted".
- the consumer registration script (`registration/register_consumer.py`). It
  takes the consumer name from `--consumer-name` or from a prompt, asks for
  confirmation unless `--yes` is given, posts the name, and sets the exit
  status.

Layout, one module per file:

- `values.dfy` (`PyValues`): decoded JSON values, Python's `None` as `Null`,
  the exceptions that can escape (`Outcome = Returned | Raised`), and `j[key]`,
  truth value and `list.extend` iteration as Python defines them.
- `text.dfy` (`Text`): `str.strip`, `str.lower`, `sep.join` and `str.split`.
- `jwt.dfy` (`Jwt`): the claim set `{iss, iat, exp}` and a signed token.
- `transport.dfy` (`Transport`): the server as a scripted object, `Environment`.
  It has one reply queue for the api-key endpoint and one for all other
  endpoints, a log of the requests sent, a clock, and a log of sleeps. An
  empty queue behaves like a server that does not answer.
- `cloudapi_spec.dfy` (`CloudApiSpec`): each client operation as a function
  from the `api_key` field and a server snapshot to the outcome, the new field
  and the new snapshot.
- `cloudapi.dfy` (`CloudApiClient`): the `CloudApi` class with its mutable
  `apiKey` field. Its methods, with their loops, are proved equal to those
  functions.
- `keycache_proofs.dfy`, `fetch_proofs.dfy`, `pagination_proofs.dfy`,
  `polling_proofs.dfy`: the properties of the client.
- `registration.dfy` (`Registration`): the registration script.

## Model

| member | source | states |
|---|---|---|
| CloudApiClient.CloudApi.constructor | quickstart/cloudapiclient.py:20-24 | A new client keeps its configuration and starts with no API key. |
| CloudApiClient.CloudApi.GenerateJwtToken | quickstart/cloudapiclient.py:39-44 | The token verifies under the shared secret to issuer = consumer id, iat = now, exp = now + 300. |
| Jwt.IssueClaims | quickstart/cloudapiclient.py:39-42 | The claim set names the consumer as issuer, is issued now, and expires exactly 300 s later. |
| Jwt.Verify | quickstart/cloudapiclient.py:44 | A token yields its claims exactly when it is checked with the secret that signed it, and what it yields is the claim set it was signed with. |
| Jwt.TokenRoundTrip | quickstart/cloudapiclient.py:39-44 | `jwt.encode` of a fresh claim set decodes under the signing secret to (consumer id, now, now + 300), and under any other secret it does not decode. |
| CloudApiSpec.BearerTokenReads | quickstart/cloudapiclient.py:39-44 | The bearer token built at clock time `now` verifies under the shared secret to issuer = consumer id, iat = now, exp = now + 300, and does not verify under any other secret. |
| Transport.Serve | quickstart/cloudapiclient.py:89-94 | A request is appended to the log; the next reply of its endpoint's queue is taken, or there is no answer when that queue is empty; the clock and the other queue do not change. |
| Transport.Environment.Send | quickstart/cloudapiclient.py:89-94 | The environment's new state and the reply are what `Serve` gives for the old state. |
| Transport.Environment.Sleep | quickstart/cloudapiclient.py:432 | Sleeping logs the delay and advances the clock by it, and nothing else changes. |
| CloudApiSpec.Decode | quickstart/cloudapiclient.py:418 | `response.json()` raises JSONDecodeError exactly on a body that is not JSON. |
| CloudApiSpec.Rejected | quickstart/cloudapiclient.py:95-98 | The error branch returns None exactly when the body is JSON; otherwise printing the body raises JSONDecodeError. |
| CloudApiSpec.KeyFetch | quickstart/cloudapiclient.py:87-100 | Retrieving the key uses only the api-key queue and leaves the clock and sleeps alone. |
| CloudApiSpec.HeadersFor | quickstart/cloudapiclient.py:58-66 | Building headers never consumes a resource reply, advances the clock or sleeps. |
| CloudApiSpec.MemberOf | quickstart/cloudapiclient.py:100 | `response.json()[key]` raises JSONDecodeError exactly on a non-JSON body and TypeError on a non-object; a returned value is the value of a member named `key`. |
| CloudApiSpec.Settle | quickstart/cloudapiclient.py:95-100 | No answer raises; a value other than None comes back only from a 200 reply. |
| CloudApiSpec.FetchOnce | quickstart/cloudapiclient.py:152-159 | A single fetch leaves the clock and sleeps alone; with a key set it keeps the key and sends one request, and with none it sends one or two (the retrieval, then the query unless the retrieval raised). |
| CloudApiSpec.ReadPage | quickstart/cloudapiclient.py:207-208 | A non-JSON page body raises JSONDecodeError; a page is read only from a JSON object. |
| CloudApiSpec.PageLoop | quickstart/cloudapiclient.py:193-211 | Paginating never advances the clock or sleeps, and sends at least one request. |
| CloudApiSpec.VarParam | quickstart/cloudapiclient.py:402-406 | The `var` parameter starts with the first requested name (the default three when none are given) and ends with the last. |
| CloudApiSpec.PollLoop | quickstart/cloudapiclient.py:408-439 | Polling from attempt `retries + 1` sends at least one request and sleeps fewer times than the attempts left. |
| CloudApiClient.CloudApi.RetrieveApiKey | quickstart/cloudapiclient.py:87-100 | The method's outcome and new server state are those of `KeyFetch`. |
| CloudApiClient.CloudApi.GenerateQueryHeaders | quickstart/cloudapiclient.py:58-66 | The method agrees with `HeadersFor`; with a key already set, the field and the server stay unchanged. |
| CloudApiClient.CloudApi.GetAccounts | quickstart/cloudapiclient.py:152-159 | The method agrees with the single-fetch function for the accounts endpoint and its `accounts` member. |
| CloudApiClient.CloudApi.GetAccountCoaches | quickstart/cloudapiclient.py:234-241 | The method agrees with the single-fetch function for the coaches endpoint and the whole body. |
| CloudApiClient.CloudApi.FetchAllPages | quickstart/cloudapiclient.py:193-211 | The loop on `more` agrees with `PageLoop` from an empty list and no params. |
| CloudApiClient.CloudApi.GetAccountAthletes | quickstart/cloudapiclient.py:193-211 | The athletes list is `PageLoop` over the athletes endpoint and its `athletes` member. |
| CloudApiClient.CloudApi.GetAccountTeams | quickstart/cloudapiclient.py:284-302 | The teams list is `PageLoop` over the teams endpoint and its `teams` member. |
| CloudApiClient.CloudApi.GetAthleteMeasurements | quickstart/cloudapiclient.py:323-341 | The measurements list is `PageLoop` over the measurements endpoint and its `measurements` member. |
| CloudApiClient.CloudApi.GetAthleteMeasurementResults | quickstart/cloudapiclient.py:402-442 | The retry loop agrees with `PollLoop` from attempt one with the `var` parameter of `VarParam`; the trailing `return None` after the loop is shown unreachable. |
| KeyCacheProofs.CachedKeyIsReused | quickstart/cloudapiclient.py:58-66 | With a key set, building headers sends nothing and returns a fresh token plus that same key. |
| KeyCacheProofs.MissingKeyIsFetched | quickstart/cloudapiclient.py:58-66 | With no key, exactly one token-only retrieval is sent; the field then holds its result, or stays None when it raised. |
| KeyCacheProofs.FailedRetrievalIsRetried | quickstart/cloudapiclient.py:58-59 | A failed retrieval leaves the field None, so the next header build retrieves again. |
| KeyCacheProofs.FetchedKey | quickstart/cloudapiclient.py:95-100 | A key read from a retrieval reply other than None comes from a 200 reply whose `apikey` member it is. |
| KeyCacheProofs.KeyInUse | quickstart/cloudapiclient.py:58-66 | The key the queries carry is the cached key when there is one, and is never None when a key is at hand (cached, or handed over by the next retrieval). |
| KeyCacheProofs.Primed | quickstart/cloudapiclient.py:58-61 | The server after the first retrieval: unchanged with a key cached, otherwise one token-only retrieval logged and its reply taken; the clock, sleeps and resource replies are untouched. |
| KeyCacheProofs.HeadersWithKeyAtHand | quickstart/cloudapiclient.py:58-66 | With a key at hand, building headers from the client's state equals building them with that key from the primed server. |
| KeyCacheProofs.FreshPollIsCachedPoll | quickstart/cloudapiclient.py:58-66 | With a key at hand, the polling loop from a client without a key equals the loop from the primed server with the key in use: only the first attempt retrieves. |
| KeyCacheProofs.FreshPageRunIsCachedRun | quickstart/cloudapiclient.py:58-66 | The same for the pagination loop. |
| KeyCacheProofs.DeliveredKeys | quickstart/cloudapiclient.py:87-100 | The set of keys the retrieval replies can hand over holds the key of the first reply. |
| KeyCacheProofs.PageLoopKeepsKey | quickstart/cloudapiclient.py:196-209 | During pagination a set key is never changed and the api-key reply queue is untouched (that no retrieval is sent is `PageLoopNeverRefetches`); a client without a key ends with None or with a key one of the retrieval replies delivered. |
| KeyCacheProofs.PollLoopKeepsKey | quickstart/cloudapiclient.py:411-433 | The same holds for the results polling loop. |
| KeyCacheProofs.NoRetrievalAfterTrans | quickstart/cloudapiclient.py:58-61 | Two log extensions without an api-key request make one. |
| KeyCacheProofs.PageLoopNeverRefetches | quickstart/cloudapiclient.py:58-61 | With a key cached, a pagination run keeps the log it started from and adds no api-key request to it, whatever page ends it. |
| KeyCacheProofs.PollLoopNeverRefetches | quickstart/cloudapiclient.py:58-61 | With a key cached, the results polling loop keeps the log it started from and adds no api-key request to it. |
| SingleFetchProofs.OneRetrievalInThree | quickstart/cloudapiclient.py:58-61 | A log of one retrieval and two resource requests counts exactly one retrieval. |
| SingleFetchProofs.FreshClientRetrievesOnce | quickstart/cloudapiclient.py:58-66 | Two calls on a new client whose first retrieval succeeds send one retrieval in all. |
| SingleFetchProofs.SettleCases | quickstart/cloudapiclient.py:95-100 | A single fetch raises on no answer or a non-JSON body, returns None on another status, and returns the member (or KeyError/TypeError) or the body on 200. |
| SingleFetchProofs.OneRequest | quickstart/cloudapiclient.py:152-159 | With a key at hand (cached, or handed over by a new client's first retrieval), a single fetch sends one request without params after that retrieval, settles the next reply (the picked member or body on 200, None on another status), and keeps the key in use. |
| SingleFetchProofs.FetchAnyKey | quickstart/cloudapiclient.py:152-159 | For any key, including a new client's None: a failed retrieval's exception escapes, and otherwise one request goes out with the built headers and the next reply is settled. |
| SingleFetchProofs.NullMemberLooksLikeFailure | quickstart/cloudapiclient.py:153-159 | A 200 whose `accounts` member is null returns the same None as an error status. |
| PyValues.Subscript | quickstart/cloudapiclient.py:100 | `j[key]` raises TypeError on a value that is not an object, and on an object raises only KeyError for that key. |
| PyValues.Truthy | quickstart/cloudapiclient.py:198 | `while more:` stops exactly on the falsy values: None, False, 0, "", [] and {}. |
| PyValues.SubscriptMeaning | quickstart/cloudapiclient.py:100 | `j[key]` raises TypeError on a non-object and KeyError on a missing name, and otherwise returns that member's value. |
| PyValues.Iterate | quickstart/cloudapiclient.py:207 | `list.extend` takes exactly a list's elements, as many items as a string has characters or an object has names, and raises TypeError on null, booleans and numbers. |
| PyValues.IterateContents | quickstart/cloudapiclient.py:207 | Item i of a string is its i-th character as a one-character string; item i of an object is its i-th member name. |
| PaginationProofs.ListOnlyFromCompleteRun | quickstart/cloudapiclient.py:196-211 | A list comes back only after a run of pages whose last says no more; it is the pages' items in order, and exactly those replies are consumed. |
| PaginationProofs.CachedCompleteRunYieldsList | quickstart/cloudapiclient.py:193-211 | With a key cached, a complete run returns the concatenated pages, keeps the key, and sends one request per page. |
| PaginationProofs.CompleteRunYieldsList | quickstart/cloudapiclient.py:193-211 | With a key at hand, a complete run returns the concatenated pages after the first retrieval (when no key was cached) and one request per page, each carrying the key in use. |
| PaginationProofs.PageRequestsUnfold | quickstart/cloudapiclient.py:200-209 | The requests of a run are the first page's request with the current params, then the requests of the rest from offset = items gathered. |
| PaginationProofs.PageRequestsCursor | quickstart/cloudapiclient.py:200-209 | Request i carries no params for i = 0, and otherwise the count of items gathered before it as `offset`. |
| PaginationProofs.NoneOnlyFromRefusal | quickstart/cloudapiclient.py:202-205 | None comes back only when some page has a status other than 200 and a JSON body, after pages that all said more. |
| PaginationProofs.CachedRefusalYieldsNone | quickstart/cloudapiclient.py:202-205 | With a key cached, a refused page with a JSON body makes the whole call return None after one request per page up to it. |
| PaginationProofs.RefusalYieldsNone | quickstart/cloudapiclient.py:202-205 | With a key at hand, the same, counted after the first retrieval when no key was cached. |
| PaginationProofs.RefusedRunReturnsNoList | quickstart/cloudapiclient.py:202-205 | A run that meets a refused page never returns a list, partial or whole. |
| PaginationProofs.PageReplyReads | quickstart/cloudapiclient.py:207-208 | A page body with the list member and `more` reads back as those items and that flag. |
| PaginationProofs.EmptyListIsNotNone | quickstart/cloudapiclient.py:207-211 | With a key at hand, a single empty last page returns the empty list, which differs from None. |
| PaginationProofs.ThreePages | quickstart/cloudapiclient.py:198-211 | With a key at hand, pages of 2, 2 and 1 items return the 5 items in order, requested after the first retrieval with no offset, then offset 2, then offset 4. |
| PollingProofs.Final | quickstart/cloudapiclient.py:417-439 | On a reply other than 202 the loop stops: no answer raises, 200 decodes the body, any other status gives the error branch. |
| PollingProofs.PollStep | quickstart/cloudapiclient.py:411-439 | One attempt with a key set: it stops on a reply other than 202, returns the error record on the fifth 202, and otherwise sleeps 5 s and retries. |
| PollingProofs.AttemptTokensFresh | quickstart/cloudapiclient.py:411-432 | Attempt i carries a token issued at the clock time of that attempt, 5i s after the first, which verifies to the consumer and is unexpired when sent. |
| PollingProofs.CachedSettledRun | quickstart/cloudapiclient.py:411-439 | With a key cached, when the first reply other than 202 is attempt k + 1, that reply decides the result, after k + 1 requests, k sleeps of 5 s and a clock 5k s later. |
| PollingProofs.SettledRun | quickstart/cloudapiclient.py:411-439 | With a key at hand, the same after the first retrieval (when no key was cached), every request carrying the key in use. |
| PollingProofs.CachedExhaustedRun | quickstart/cloudapiclient.py:422-429 | With a key cached, when every attempt up to the limit gets 202, the result is the error record, after the remaining attempts with a 5 s sleep between each two. |
| PollingProofs.ExhaustedRun | quickstart/cloudapiclient.py:422-429 | With a key at hand, the same after the first retrieval (when no key was cached). |
| PollingProofs.AtMostFiveAttempts | quickstart/cloudapiclient.py:408-433 | With a key at hand, the loop sends between 1 and 5 identical-parameter requests after the first retrieval, with one 5 s sleep fewer than requests. |
| PollingProofs.ExhaustedRecordReads | quickstart/cloudapiclient.py:427-429 | The error record's `status_code` is 202 and its `error` is the maximum-retries message. |
| PollingProofs.FiveAcceptedGiveError | quickstart/cloudapiclient.py:422-429 | With a key at hand, five 202s give `{"error": message, "status_code": 202}` after five requests and four 5 s sleeps. |
| PollingProofs.ReadyAfterWaiting | quickstart/cloudapiclient.py:417-418 | With a key at hand, after k < 5 answers of 202 and then a 200, the decoded body is returned after k + 1 requests and k sleeps. |
| PollingProofs.OtherStatusGivesNone | quickstart/cloudapiclient.py:436-439 | With a key at hand, a status other than 200 and 202 with a JSON body returns None at once. |
| PollingProofs.DefaultVariablesSent | quickstart/cloudapiclient.py:402-406 | Without `variables`, `var` splits back to trimp, trimpPerMinute, heartRateAverage. |
| PollingProofs.VariablesRoundTrip | quickstart/cloudapiclient.py:406 | With `variables` given, splitting `var` on commas gives them back when no name holds a comma. |
| Text.JoinEnds | quickstart/cloudapiclient.py:406 | `sep.join(parts)` starts with the first part and ends with the last. |
| Text.SplitJoin | quickstart/cloudapiclient.py:406 | Splitting a separator-joined list gives the list back when no part holds the separator. |
| Text.Strip | registration/register_consumer.py:80 | The stripped text has no whitespace at either end. |
| Text.StripCutsSpace | registration/register_consumer.py:80 | Stripping removes only whitespace, from the two ends. |
| Text.StripIdempotent | registration/register_consumer.py:80 | Stripping twice is stripping once. |
| Text.StripOfPadded | registration/register_consumer.py:94 | A word padded with whitespace strips to the word. |
| Text.Lower | registration/register_consumer.py:94 | Lowering keeps the length and lowers each character. |
| Registration.NameFromLines | registration/register_consumer.py:79-87 | A name is answered only after reading at least one and at most all lines. |
| Registration.NameIsFirstAcceptable | registration/register_consumer.py:79-87 | The prompt returns the stripped first line of 5 or more stripped characters, read exactly up to it; input runs out exactly when no line qualifies. |
| Registration.NameIsWellFormed | registration/register_consumer.py:80-87 | A returned name is non-empty, at least 5 long, and without whitespace at either end. |
| Registration.PromptConsumerName | registration/register_consumer.py:79-87 | The `while True` loop returns what `NameFromLines` specifies. |
| Registration.ConfirmAction | registration/register_consumer.py:90-95 | Auto-confirm is yes without reading; otherwise one line is read, and EOF occurs exactly on empty input. |
| Registration.LowerIsYes | registration/register_consumer.py:94-95 | The lowered text is "y" or "yes" exactly when the text is y/yes in any letter case. |
| Registration.ConfirmMeansAffirmative | registration/register_consumer.py:94-95 | The reply confirms exactly when it is y or yes in any case, with any whitespace around it. |
| Registration.RegisterConsumer | registration/register_consumer.py:98-117 | The POST carries exactly `{"consumerName": name}`; no answer and 4xx/5xx statuses become "request failed", a non-JSON body becomes "invalid payload", and otherwise the body is returned unchanged. |
| Registration.ChosenName | registration/register_consumer.py:154 | A non-empty `--consumer-name` is used as given without reading; otherwise the prompt decides. |
| Registration.RunRegistration | registration/register_consumer.py:152-172 | `main` returns only 0 or 1; the exceptions that escape are EOFError and AttributeError. |
| Registration.ExitCodes | registration/register_consumer.py:152-172 | Declining gives 0 with nothing posted; posting happens exactly on confirmation; `RegistrationError` gives 1; returned credentials give 0 when they are an object. |
| Registration.FlagsSkipPrompts | registration/register_consumer.py:154-158 | With a non-empty name flag and `--yes`, no input is read and the flag's text is posted exactly as given. |

## Left out

- The HTTP transport is a scripted server: status and decoded body per reply, or no answer (any `requests` exception). Timeouts, redirects, sessions and header encoding are not modelled.
- The HS256 signature and compact JWS form produced by `jwt.encode` are abstracted to the pair (claims, secret).
- Wall-clock time is an integer clock that only sleeping advances, so the tokens built between two sleeps carry the same `iat`.
- All printed output is left out, as are `announce_success` and `print_next_steps` beyond their `credentials.get` call, and argparse (`parse_args` becomes parameters).
- The interactive example `quickstart/cloud-api-example.py` and the wrappers under `auth/` are not part of this model.
- JSON numbers are integers; floats, and the truth value of a float `more`, are not modelled.
- The text of exception messages is not modelled: `RegistrationError` keeps only its cause.
- Text.Lower: lowers ASCII letters only. This is exact for the comparison with "y"/"yes", since no other character lowercases to those letters.
- PaginationProofs.CompleteRunYieldsList: proved for a key at hand, that is, cached or handed over by the first retrieval. With no key and retrievals that fail, the field stays None and every page request is preceded by another retrieval; that case is not proved. `PageLoopKeepsKey` and `ListOnlyFromCompleteRun` cover any key.
- PaginationProofs.RefusalYieldsNone: proved for a key at hand only, for the same reason. `NoneOnlyFromRefusal` covers any key.
- PaginationProofs.EmptyListIsNotNone: proved for a key at hand only.
- PaginationProofs.ThreePages: proved for a key at hand only.
- PollingProofs.SettledRun: proved for a key at hand only. With retrievals that keep failing, each attempt also sends a retrieval. `PollLoopKeepsKey` covers any key.
- PollingProofs.ExhaustedRun: proved for a key at hand only.
- PollingProofs.AtMostFiveAttempts: the bound of five requests after the first retrieval is proved for a key at hand only. With no key and retrievals that keep failing without raising, each attempt also sends a retrieval, so up to ten requests go out. `PollLoop` bounds the sleeps for any key.
- PollingProofs.FiveAcceptedGiveError: proved for a key at hand only.
- PollingProofs.ReadyAfterWaiting: proved for a key at hand only.
- PollingProofs.OtherStatusGivesNone: proved for a key at hand only.
- SingleFetchProofs.OneRequest: proved for a key at hand only; `FetchAnyKey` gives the outcome for every key, a client whose retrievals fail included.
- PyValues.Iterate: on an object that lists a name twice, the name is iterated twice, while `list.extend` of a decoded dict yields each key once.
- PyValues.Subscript: a decoded object may list a name twice. `j[key]` then reads the first occurrence, while `json.loads` keeps the last. The two agree whenever names are distinct, as in every reply of this API.

Where the documented behaviour and the code differ, the model follows the code:

- The client's docstrings promise "None if query fails". The code prints `response.json()` on the error branch, so an error reply whose body is not JSON raises JSONDecodeError instead. Transport failures also propagate, and a 200 without the expected member raises KeyError.
- Only status 200 counts as success. Any other 2xx reply takes the error branch and yields None.
- A 200 whose requested member is JSON null returns the same None as a failure.
- `register_consumer` also raises `RegistrationError` for 4xx and 5xx statuses, through `raise_for_status`.
- `main` uses a non-empty `--consumer-name` without stripping or length checks.
- Credentials that are not a JSON object make `credentials.get` raise AttributeError after a successful registration.
