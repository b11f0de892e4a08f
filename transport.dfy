/** The HTTP side of the client, replaced by a scripted server: requests are
    recorded in order, replies are taken from finite queues, the clock is an
    integer number of seconds that only sleeping advances. */
module Transport {

  import opened PyValues
  import opened Jwt

  /** A response body: decoded JSON, or text that `response.json()` rejects. */
  datatype Body = Parsed(json: Json) | Garbled

  /** What a GET or POST yields: a status and a body, or a transport failure
      (connection refused, timeout), which `requests` raises. */
  datatype Reply = Answer(status: int, body: Body) | NoAnswer

  /** The resources the client addresses below the base URL. */
  datatype Endpoint =
    | ApiKeyPath
    | AccountsPath
    | AthletesPath(accountId: string)
    | CoachesPath(accountId: string)
    | TeamsPath(accountId: string)
    | MeasurementsPath(accountId: string, athleteId: string)
    | ResultsPath(accountId: string, athleteId: string, measurementId: string)

  /** Query parameters: none, `offset=<n>`, or `var=<names>`. */
  datatype Params = NoParams | Offset(offset: nat) | Var(names: string)

  /** Request headers. `WithApiKey` also sends `x-api-key`, unless the key is
      `Null` (Python's None), in which case `requests` leaves that header out. */
  datatype Headers = TokenOnly(bearer: Token) | WithApiKey(bearer: Token, apiKey: Json)

  datatype Request = Get(endpoint: Endpoint, params: Params, headers: Headers)

  /** A snapshot of the scripted server: the clock, the replies still queued
      for the api-key endpoint and for every other endpoint, the requests sent
      so far and the sleeps taken so far. */
  datatype Wire = Wire(now: int, keyReplies: seq<Reply>, replies: seq<Reply>,
                       sent: seq<Request>, sleeps: seq<nat>)

  /** Sending `req`: it is logged, and the next reply queued for its endpoint
      is taken; an exhausted queue behaves as a server that does not answer. */
  function Serve(w: Wire, req: Request): (r: (Reply, Wire))
    ensures r.1.sent == w.sent + [req]
    ensures r.1.now == w.now && r.1.sleeps == w.sleeps
    ensures req.endpoint.ApiKeyPath? ==> r.1.replies == w.replies
    ensures !req.endpoint.ApiKeyPath? ==> r.1.keyReplies == w.keyReplies
    ensures !req.endpoint.ApiKeyPath? && w.replies == [] ==> r.0 == NoAnswer && r.1.replies == []
    ensures !req.endpoint.ApiKeyPath? && w.replies != [] ==> r.0 == w.replies[0] && r.1.replies == w.replies[1..]
    ensures req.endpoint.ApiKeyPath? && w.keyReplies == [] ==> r.0 == NoAnswer && r.1.keyReplies == []
    ensures req.endpoint.ApiKeyPath? && w.keyReplies != [] ==> r.0 == w.keyReplies[0] && r.1.keyReplies == w.keyReplies[1..]
  {
    var w' := w.(sent := w.sent + [req]);
    if req.endpoint.ApiKeyPath? then
      if w.keyReplies == [] then (NoAnswer, w')
      else (w.keyReplies[0], w'.(keyReplies := w.keyReplies[1..]))
    else
      if w.replies == [] then (NoAnswer, w')
      else (w.replies[0], w'.(replies := w.replies[1..]))
  }

  /** `time.sleep(seconds)`: logged, and the clock moves on. */
  function Pause(w: Wire, seconds: nat): (r: Wire)
    ensures r.sleeps == w.sleeps + [seconds] && r.now == w.now + seconds
    ensures r.sent == w.sent && r.keyReplies == w.keyReplies && r.replies == w.replies
  {
    w.(now := w.now + seconds, sleeps := w.sleeps + [seconds])
  }

  /** The scripted server and clock as a mutable object shared by the client. */
  class Environment {
    var now: int
    var keyReplies: seq<Reply>
    var replies: seq<Reply>
    var sent: seq<Request>
    var sleeps: seq<nat>

    function Snapshot(): Wire
      reads this
    {
      Wire(now, keyReplies, replies, sent, sleeps)
    }

    constructor (now: int, keyReplies: seq<Reply>, replies: seq<Reply>)
      ensures Snapshot() == Wire(now, keyReplies, replies, [], [])
    {
      this.now := now;
      this.keyReplies := keyReplies;
      this.replies := replies;
      this.sent := [];
      this.sleeps := [];
    }

    /** `requests.get(url, params=..., headers=...)`. */
    method Send(req: Request) returns (reply: Reply)
      modifies this
      ensures (reply, Snapshot()) == Serve(old(Snapshot()), req)
    {
      sent := sent + [req];
      if req.endpoint.ApiKeyPath? {
        if keyReplies == [] {
          reply := NoAnswer;
        } else {
          reply := keyReplies[0];
          keyReplies := keyReplies[1..];
        }
      } else {
        if replies == [] {
          reply := NoAnswer;
        } else {
          reply := replies[0];
          replies := replies[1..];
        }
      }
    }

    /** `time.sleep(seconds)`. */
    method Sleep(seconds: nat)
      modifies this
      ensures Snapshot() == Pause(old(Snapshot()), seconds)
    {
      now := now + seconds;
      sleeps := sleeps + [seconds];
    }
  }
}
