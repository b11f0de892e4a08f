/** The consumer-registration script: choosing a consumer name (from the
    command line or by prompting), confirming it, posting it to the
    registration endpoint, and the exit status. Standard input is the list of
    lines still to be read; reading past its end raises EOFError. */
module Registration {

  import opened PyValues
  import opened Transport
  import Text

  /** The shortest consumer name the prompt accepts. */
  const MinNameLength: nat := 5

  /** What reading answers from standard input yields: a value and the number
      of lines read, or EOFError because the input ran out. */
  datatype Prompted<T> = Answered(value: T, consumed: nat) | EndOfInput

  /** A line the name prompt accepts: at least five characters once stripped. */
  predicate Acceptable(line: string) {
    |Text.Strip(line)| >= MinNameLength
  }

  /** A prompt result after `n` more lines have been read in front of it. */
  function After<T>(p: Prompted<T>, n: nat): (r: Prompted<T>)
    ensures r.EndOfInput? <==> p.EndOfInput?
    ensures r.Answered? ==> r.value == p.value && r.consumed == p.consumed + n
  {
    match p
    case EndOfInput => EndOfInput
    case Answered(v, k) => Answered(v, k + n)
  }

  /** What `prompt_consumer_name` returns when standard input holds `lines`. */
  function NameFromLines(lines: seq<string>): (r: Prompted<string>)
    ensures r.Answered? ==> 1 <= r.consumed <= |lines|
    decreases |lines|
  {
    if lines == [] then EndOfInput
    else
      var name := Text.Strip(lines[0]);
      if name == "" || |name| < MinNameLength then After(NameFromLines(lines[1..]), 1)
      else Answered(name, 1)
  }

  lemma NameStep(lines: seq<string>)
    requires lines != []
    ensures NameFromLines(lines) == if Acceptable(lines[0]) then Answered(Text.Strip(lines[0]), 1)
                                    else After(NameFromLines(lines[1..]), 1)
  {
  }

  /** The prompt answers with the stripped form of the first acceptable line,
      after reading exactly up to it, and runs out of input exactly when no
      line is acceptable. */
  lemma {:induction false} NameIsFirstAcceptable(lines: seq<string>)
    ensures var r := NameFromLines(lines);
            && (r.EndOfInput? <==> forall i :: 0 <= i < |lines| ==> !Acceptable(lines[i]))
            && (r.Answered? ==>
                  && r.value == Text.Strip(lines[r.consumed - 1])
                  && Acceptable(lines[r.consumed - 1])
                  && forall i :: 0 <= i < r.consumed - 1 ==> !Acceptable(lines[i]))
    decreases |lines|
  {
    if lines != [] {
      NameStep(lines);
      if !Acceptable(lines[0]) {
        var tail := lines[1..];
        NameIsFirstAcceptable(tail);
        var r := NameFromLines(lines);
        var r' := NameFromLines(tail);
        assert r == After(r', 1);
        assert forall i :: 0 <= i < |tail| ==> tail[i] == lines[i + 1];
        if r.Answered? {
          assert lines[r.consumed - 1] == tail[r'.consumed - 1];
          forall i | 0 <= i < r.consumed - 1
            ensures !Acceptable(lines[i])
          {
            if i > 0 {
              assert lines[i] == tail[i - 1];
            }
          }
        } else {
          forall i | 0 <= i < |lines|
            ensures !Acceptable(lines[i])
          {
            if i > 0 {
              assert lines[i] == tail[i - 1];
            }
          }
        }
      }
    }
  }

  /** A name the prompt returns is non-empty, at least five characters long,
      and has no whitespace at either end. */
  lemma NameIsWellFormed(lines: seq<string>)
    ensures var r := NameFromLines(lines);
            r.Answered? ==> && r.value != "" && |r.value| >= MinNameLength
                            && Text.Trimmed(r.value) && Text.Strip(r.value) == r.value
  {
    NameIsFirstAcceptable(lines);
    var r := NameFromLines(lines);
    if r.Answered? {
      Text.StripIdempotent(lines[r.consumed - 1]);
    }
  }

  /** `prompt_consumer_name`: read lines until one is acceptable once stripped. */
  method PromptConsumerName(lines: seq<string>) returns (r: Prompted<string>)
    ensures r == NameFromLines(lines)
  {
    var i := 0;
    while true
      invariant 0 <= i <= |lines|
      invariant NameFromLines(lines) == After(NameFromLines(lines[i..]), i)
      decreases |lines| - i
    {
      if i == |lines| {
        return EndOfInput;
      }
      assert lines[i..][1..] == lines[i + 1..];
      var consumerName := Text.Strip(lines[i]);
      i := i + 1;
      if consumerName == "" {
        continue;
      }
      if |consumerName| < MinNameLength {
        continue;
      }
      return Answered(consumerName, i);
    }
  }

  /** `confirm_action`: without reading when confirmation is automatic,
      otherwise whether the stripped, lowercased reply is "y" or "yes". */
  function ConfirmAction(autoConfirm: bool, lines: seq<string>): (r: Prompted<bool>)
    ensures autoConfirm ==> r == Answered(true, 0)
    ensures !autoConfirm ==> (r.EndOfInput? <==> lines == [])
    ensures !autoConfirm && r.Answered? ==> r.consumed == 1
  {
    if autoConfirm then Answered(true, 0)
    else if lines == [] then EndOfInput
    else Answered(Text.Lower(Text.Strip(lines[0])) in {"y", "yes"}, 1)
  }

  /** "y" or "yes", in any mix of letter case. */
  predicate YesWord(w: string) {
    || (|w| == 1 && w[0] in "yY")
    || (|w| == 3 && w[0] in "yY" && w[1] in "eE" && w[2] in "sS")
  }

  /** A reply that is a yes-word with whitespace around it. */
  ghost predicate Affirmative(reply: string) {
    exists i: nat, j: nat :: i <= j <= |reply| && Text.AllSpace(reply[..i]) && Text.AllSpace(reply[j..])
                             && YesWord(reply[i..j])
  }

  lemma LowerIsYes(w: string)
    ensures Text.Lower(w) in {"y", "yes"} <==> YesWord(w)
  {
    var l := Text.Lower(w);
    if YesWord(w) {
      if |w| == 1 {
        assert l == [l[0]];
      } else {
        assert l == [l[0], l[1], l[2]];
      }
    }
    if l == "y" {
      assert l[0] == Text.LowerChar(w[0]);
    } else if l == "yes" {
      assert l[0] == Text.LowerChar(w[0]) && l[1] == Text.LowerChar(w[1]) && l[2] == Text.LowerChar(w[2]);
    }
  }

  lemma SplitThree(s: string, i: nat, j: nat)
    requires i <= j <= |s|
    ensures s == s[..i] + s[i..j] + s[j..]
  {
  }

  lemma StrippedYesIsAffirmative(reply: string)
    requires YesWord(Text.Strip(reply))
    ensures Affirmative(reply)
  {
    var t := Text.Strip(reply);
    Text.StripCutsSpace(reply);
    var i: nat :| i + |t| <= |reply| && t == reply[i..i + |t|]
                  && Text.AllSpace(reply[..i]) && Text.AllSpace(reply[i + |t|..]);
    assert YesWord(reply[i..i + |t|]);
  }

  lemma AffirmativeStripsToYes(reply: string)
    requires Affirmative(reply)
    ensures YesWord(Text.Strip(reply))
  {
    var i: nat, j: nat :| i <= j <= |reply| && Text.AllSpace(reply[..i]) && Text.AllSpace(reply[j..])
                          && YesWord(reply[i..j]);
    var w := reply[i..j];
    assert Text.Trimmed(w);
    SplitThree(reply, i, j);
    Text.StripOfPadded(reply[..i], w, reply[j..]);
  }

  /** Asked for confirmation, the script proceeds exactly when the reply is
      "y" or "yes" in any letter case, whatever whitespace surrounds it. */
  lemma ConfirmMeansAffirmative(reply: string, rest: seq<string>)
    ensures ConfirmAction(false, [reply] + rest) == Answered(Affirmative(reply), 1)
  {
    LowerIsYes(Text.Strip(reply));
    if YesWord(Text.Strip(reply)) {
      StrippedYesIsAffirmative(reply);
    }
    if Affirmative(reply) {
      AffirmativeStripsToYes(reply);
    }
  }

  /** Why a registration failed: the request could not be made or the server
      answered with an error status (both "HTTP request failed"), or the
      answer was not JSON. */
  datatype FailureCause = Unreachable | ErrorStatus(status: int)
  datatype RegistrationError = RequestFailed(cause: FailureCause) | InvalidPayload

  datatype Result<T, E> = Ok(value: T) | Err(error: E)

  /** The POST the script sends: the endpoint and the JSON document. */
  datatype Post = Post(url: string, payload: Json)

  /** The statuses `raise_for_status` raises on: client and server errors. */
  predicate IsErrorStatus(status: int) {
    400 <= status < 600
  }

  /** `register_consumer`: the POST it sends, and the credentials or the
      `RegistrationError` it raises for the server's `reply`. */
  function RegisterConsumer(name: string, url: string, reply: Reply): (r: (Post, Result<Json, RegistrationError>))
    ensures r.0.url == url && r.0.payload.Obj? && |r.0.payload.members| == 1
    ensures Subscript(r.0.payload, "consumerName") == Returned(Str(name))
    ensures r.1.Ok? <==> reply.Answer? && !IsErrorStatus(reply.status) && reply.body.Parsed?
    ensures r.1.Ok? ==> r.1.value == reply.body.json
    ensures reply.NoAnswer? ==> r.1 == Err(RequestFailed(Unreachable))
    ensures reply.Answer? && IsErrorStatus(reply.status) ==> r.1 == Err(RequestFailed(ErrorStatus(reply.status)))
    ensures reply.Answer? && !IsErrorStatus(reply.status) && reply.body.Garbled? ==> r.1 == Err(InvalidPayload)
  {
    var post := Post(url, Obj([("consumerName", Str(name))]));
    match reply
    case NoAnswer => (post, Err(RequestFailed(Unreachable)))
    case Answer(status, body) =>
      if IsErrorStatus(status) then (post, Err(RequestFailed(ErrorStatus(status))))
      else match body
        case Garbled => (post, Err(InvalidPayload))
        case Parsed(j) => (post, Ok(j))
  }

  /** How the script ends: `main` returns an exit status, or an exception
      escapes it. */
  datatype Exit = ExitCode(code: int) | Uncaught(exc: Exc)

  /** The end of a run and the POST it sent, if any. */
  datatype Run = Run(exit: Exit, posted: Option<Post>)

  /** `args.consumer_name or prompt_consumer_name()`: a non-empty
      `--consumer-name` is taken as given, without reading input. */
  function ChosenName(flagName: Option<string>, lines: seq<string>): (r: Prompted<string>)
    ensures flagName.Some? && flagName.value != "" ==> r == Answered(flagName.value, 0)
    ensures !(flagName.Some? && flagName.value != "") ==> r == NameFromLines(lines)
    ensures r.Answered? ==> r.consumed <= |lines|
  {
    if flagName.Some? && flagName.value != "" then Answered(flagName.value, 0)
    else NameFromLines(lines)
  }

  /** `main` with `--consumer-name flagName`, `--yes` when `yes`, `--api-url
      url`, standard input `lines`, and the server answering the POST with
      `reply`. The messages printed are not modelled. */
  function RunRegistration(flagName: Option<string>, yes: bool, url: string, lines: seq<string>,
                           reply: Reply): (r: Run)
    ensures r.exit.ExitCode? ==> r.exit.code == 0 || r.exit.code == 1
    ensures r.exit.Uncaught? ==> r.exit.exc == EofError || r.exit.exc == AttributeError
  {
    match ChosenName(flagName, lines)
    case EndOfInput => Run(Uncaught(EofError), None)
    case Answered(name, n) =>
      match ConfirmAction(yes, lines[n..])
      case EndOfInput => Run(Uncaught(EofError), None)
      case Answered(proceed, _) =>
        if !proceed then Run(ExitCode(0), None)
        else
          var (post, result) := RegisterConsumer(name, url, reply);
          match result
          case Err(_) => Run(ExitCode(1), Some(post))
          case Ok(credentials) =>
            // `announce_success` calls `credentials.get`, which only a dict has.
            if credentials.Obj? then Run(ExitCode(0), Some(post))
            else Run(Uncaught(AttributeError), Some(post))
  }

  /** The exit statuses of `main`: 0 and nothing posted when the user
      declines; 1 when registration raised `RegistrationError`; 0 after a
      registration that returned credentials; the name posted is the chosen
      one, and only after confirmation. */
  lemma ExitCodes(flagName: Option<string>, yes: bool, url: string, lines: seq<string>, reply: Reply)
    ensures var r := RunRegistration(flagName, yes, url, lines, reply);
            var chosen := ChosenName(flagName, lines);
            var confirm := if chosen.Answered? then ConfirmAction(yes, lines[chosen.consumed..]) else EndOfInput;
            && (r.exit == ExitCode(0) && r.posted.None? <==> confirm.Answered? && !confirm.value)
            && (r.posted.Some? <==> confirm.Answered? && confirm.value)
            && (r.posted.Some? ==> r.posted.value == RegisterConsumer(chosen.value, url, reply).0)
            && (r.exit == ExitCode(1) <==> r.posted.Some? && RegisterConsumer(chosen.value, url, reply).1.Err?)
            && (r.posted.Some? && RegisterConsumer(chosen.value, url, reply).1.Ok? ==>
                  (r.exit == ExitCode(0) <==> RegisterConsumer(chosen.value, url, reply).1.value.Obj?))
  {
  }

  /** With a non-empty `--consumer-name` and `--yes`, the script reads no
      input at all and posts that name exactly as given, even one shorter
      than the prompt would accept or with whitespace at its ends. */
  lemma FlagsSkipPrompts(name: string, url: string, lines: seq<string>, reply: Reply)
    requires name != ""
    ensures RunRegistration(Some(name), true, url, lines, reply) == RunRegistration(Some(name), true, url, [], reply)
    ensures RunRegistration(Some(name), true, url, lines, reply).posted
            == Some(Post(url, Obj([("consumerName", Str(name))])))
  {
  }
}
