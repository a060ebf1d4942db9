/** What a native turn does with a given provider and host, said without the loop: what each tool call is answered with. */
module NativeAnswers {
  import opened Wrappers
  import opened NativeLoop

  // ---------------------------------------------------------------- what a stream gives

  /** Reading ends here: cancellation was seen, the host refused the piece, or the stream broke. */
  predicate Stops(heard: Heard) {
    heard.cancelled || heard.event.Broken? || heard.event == Piece(false)
  }

  predicate StopsAt(heard: seq<Heard>, i: nat) {
    i < |heard| && Stops(heard[i]) && forall j :: 0 <= j < i ==> !Stops(heard[j])
  }

  function Content(captured: Option<Message>): Message {
    if captured.Some? && captured.value.Assistant? then captured.value else Assistant("", [])
  }

  predicate IsLastEnd(heard: seq<Heard>, i: nat) {
    i < |heard| && heard[i].event.End? && forall j :: i < j < |heard| ==> !heard[j].event.End?
  }

  /** The stream is read to its end, and `message` is the content captured last, or `before` when none was. */
  predicate Gives(heard: seq<Heard>, before: Message, message: Message) {
    && (forall i :: 0 <= i < |heard| ==> !Stops(heard[i]))
    && (forall i | 0 <= i < |heard| && IsLastEnd(heard, i) :: message == Content(heard[i].event.captured))
    && ((forall i :: 0 <= i < |heard| ==> !heard[i].event.End?) ==> message == before)
  }

  predicate StreamGives(heard: seq<Heard>, message: Message) {
    Gives(heard, Assistant("", []), message)
  }

  /** How the streamed answer relates to what was heard. */
  ghost predicate Read(heard: seq<Heard>, before: Message, streamed: Streamed) {
    match streamed
    case Complete(message) => Gives(heard, before, message)
    case Cancelled => exists i: nat :: StopsAt(heard, i) && heard[i].cancelled
    case Interrupted(failure) =>
      exists i: nat :: StopsAt(heard, i) && !heard[i].cancelled
                  && failure == if heard[i].event.Broken? then StreamFailed else HostFailed
  }

  /** Reading a stream stops at the first event that stops it, and otherwise gives the content captured last. */
  lemma {:induction false} StreamIsRead(heard: seq<Heard>, before: Message)
    ensures Read(heard, before, ReadStream(heard, before))
    decreases |heard|
  {
    if heard != [] {
      if Stops(heard[0]) {
        assert StopsAt(heard, 0);
      } else {
        var next := if heard[0].event.End? then Content(heard[0].event.captured) else before;
        StreamIsRead(heard[1..], next);
        ReadLater(heard, before, next, ReadStream(heard[1..], next));
      }
    }
  }

  lemma {:induction false} ReadLater(heard: seq<Heard>, before: Message, next: Message, streamed: Streamed)
    requires heard != [] && !Stops(heard[0]) && Read(heard[1..], next, streamed)
    requires next == if heard[0].event.End? then Content(heard[0].event.captured) else before
    ensures Read(heard, before, streamed)
  {
    var rest := heard[1..];
    match streamed
    case Complete(message) => GivesLater(heard, before, next, message);
    case Cancelled =>
      var i: nat :| StopsAt(rest, i) && rest[i].cancelled;
      StopsLater(heard, i);
    case Interrupted(failure) =>
      var i: nat :| StopsAt(rest, i) && !rest[i].cancelled
               && failure == if rest[i].event.Broken? then StreamFailed else HostFailed;
      StopsLater(heard, i);
  }

  lemma {:induction false} StopsLater(heard: seq<Heard>, i: nat)
    requires heard != [] && !Stops(heard[0]) && StopsAt(heard[1..], i)
    ensures StopsAt(heard, i + 1) && heard[i + 1] == heard[1..][i]
  {
    forall j | 0 <= j < i + 1
      ensures !Stops(heard[j])
    {
      assert j > 0 ==> heard[j] == heard[1..][j - 1];
    }
  }

  lemma {:induction false} GivesLater(heard: seq<Heard>, before: Message, next: Message, message: Message)
    requires heard != [] && !Stops(heard[0]) && Gives(heard[1..], next, message)
    requires next == if heard[0].event.End? then Content(heard[0].event.captured) else before
    ensures Gives(heard, before, message)
  {
    var rest := heard[1..];
    assert forall i :: 0 < i < |heard| ==> heard[i] == rest[i - 1];
    forall i | 0 <= i < |heard| && IsLastEnd(heard, i)
      ensures message == Content(heard[i].event.captured)
    {
      if i > 0 {
        assert IsLastEnd(rest, i - 1);
      } else {
        assert forall j :: 0 <= j < |rest| ==> rest[j] == heard[j + 1];
      }
    }
    if forall i :: 0 <= i < |heard| ==> !heard[i].event.End? {
      assert forall j :: 0 <= j < |rest| ==> rest[j] == heard[j + 1];
    }
  }

  lemma {:induction false} LastEndExists(heard: seq<Heard>, i: nat) returns (last: nat)
    requires i < |heard| && heard[i].event.End?
    ensures IsLastEnd(heard, last)
    decreases |heard| - i
  {
    if j :| i < j < |heard| && heard[j].event.End? {
      last := LastEndExists(heard, j);
    } else {
      last := i;
    }
  }

  lemma {:induction false} GivesOne(heard: seq<Heard>, message: Message, other: Message)
    requires StreamGives(heard, message) && StreamGives(heard, other)
    ensures message == other
  {
    if i :| 0 <= i < |heard| && heard[i].event.End? {
      var last := LastEndExists(heard, i);
    }
  }

  // ---------------------------------------------------------------- what a call is answered with

  /**
   * A call of an offered tool gets the host's own text on success and an error report with its text otherwise; a call
   * of another tool gets an error report that names it, whatever the host would say.
   */
  predicate AnsweredAs(tools: set<string>, call: Call, answer: HostAnswer, response: Response) {
    && response.call == call.id
    && (call.name !in tools ==> response.output == ErrorReport(call.name))
    && (call.name in tools ==>
          match answer
          case Success(text) => response.output == Plain(text)
          case Unsuccessful(text) => response.output == ErrorReport(text)
          case ProtocolError(text) => response.output == ErrorReport(text)
          case HostError => false)
  }

  predicate AllAnswered(tools: set<string>, calls: seq<Call>, answers: nat -> HostAnswer, responses: seq<Response>) {
    |responses| == |calls| && forall j :: 0 <= j < |calls| ==> AnsweredAs(tools, calls[j], answers(j), responses[j])
  }

  predicate BreaksOff(tools: set<string>, calls: seq<Call>, answers: nat -> HostAnswer) {
    exists j :: 0 <= j < |calls| && calls[j].name in tools && answers(j).HostError?
  }

  /** The calls are answered each in its way, unless the host fails on a call of an offered tool. */
  lemma {:induction false} CallsAreAnsweredAs(tools: set<string>, calls: seq<Call>, answers: nat -> HostAnswer, n: nat)
    requires n <= |calls|
    ensures match Responses(tools, calls, answers, n)
            case Some(responses) => AllAnswered(tools, calls[..n], answers, responses)
            case None => BreaksOff(tools, calls[..n], answers)
    decreases n
  {
    if n > 0 {
      CallsAreAnsweredAs(tools, calls, answers, n - 1);
      var some, fewer := calls[..n], calls[..n - 1];
      assert some == fewer + [calls[n - 1]];
      if BreaksOff(tools, fewer, answers) {
        var j :| 0 <= j < |fewer| && fewer[j].name in tools && answers(j).HostError?;
        assert some[j] == fewer[j];
      }
    }
  }

  // ---------------------------------------------------------------- what a turn does

  /** History `b` is `a` with the streamed answer of the round and the responses to its calls. */
  predicate Followed(tools: set<string>, round: Round, a: seq<Message>, b: seq<Message>) {
    && !round.cancelled && round.granted
    && |b| == |a| + 2 && a <= b
    && StreamGives(round.heard, b[|a|]) && AsksForTools(b[|a|])
    && b[|a| + 1].Tool? && AllAnswered(tools, b[|a|].calls, round.answers, b[|a| + 1].responses)
  }

  /** History `h` is the one after all rounds of which requests were sent. */
  predicate After(tools: set<string>, history: seq<Message>, script: seq<Round>, requests: seq<seq<Message>>, h: seq<Message>) {
    if requests == [] then h == history
    else |requests| <= |script| && Followed(tools, script[|requests| - 1], requests[|requests| - 1], h)
  }

  /** The turn ends before a request: the limit is reached, or cancellation is seen. */
  ghost predicate EndsBefore(
    limit: Option<nat>, tools: set<string>, history: seq<Message>, rounds: nat, script: seq<Round>, turn: Turn)
  {
    var n := |turn.requests|;
    if turn.result == Err(TooManyRounds) then
      limit.Some? && rounds + n >= limit.value && exists h :: After(tools, history, script, turn.requests, h)
    else
      && turn.result.Ok? && n < |script| && script[n].cancelled
      && After(tools, history, script, turn.requests, turn.result.value)
  }

  /** The turn ends in the round of its last request. */
  ghost predicate EndsIn(tools: set<string>, script: seq<Round>, turn: Turn) {
    var n := |turn.requests|;
    n > 0 &&
    var h := turn.requests[n - 1];
    if n > |script| then turn.result == Err(RequestFailed)
    else
      var round := script[n - 1];
      !round.cancelled &&
      match turn.result
      case Err(RequestFailed) => !round.granted
      case Err(failure) =>
        round.granted &&
        ((exists i: nat :: StopsAt(round.heard, i) && !round.heard[i].cancelled
                      && failure == if round.heard[i].event.Broken? then StreamFailed else HostFailed)
         || (failure == HostFailed
             && exists m :: StreamGives(round.heard, m) && m.Assistant? && BreaksOff(tools, m.calls, round.answers)))
      case Ok(saved) =>
        round.granted &&
        ((saved == h && exists i: nat :: StopsAt(round.heard, i) && round.heard[i].cancelled)
         || (|saved| == |h| + 1 && h <= saved && StreamGives(round.heard, saved[|h|]) && !AsksForTools(saved[|h|])))
  }

  /**
   * The turn, round by round: the first request is the history, each later one follows the one before by an answer
   * and the responses to its calls, and the turn ends before a request or in the round of the last one.
   */
  ghost predicate Played(
    limit: Option<nat>, tools: set<string>, history: seq<Message>, rounds: nat, script: seq<Round>, turn: Turn)
  {
    && (turn.requests != [] ==> turn.requests[0] == history)
    && |turn.requests| <= |script| + 1
    && (forall i :: 0 <= i < |turn.requests| - 1 ==>
          Followed(tools, script[i], turn.requests[i], turn.requests[i + 1]))
    && (EndsBefore(limit, tools, history, rounds, script, turn) || EndsIn(tools, script, turn))
  }

  lemma {:induction false} TurnIsPlayed(
    limit: Option<nat>, tools: set<string>, history: seq<Message>, rounds: nat, script: seq<Round>)
    ensures Played(limit, tools, history, rounds, script, RunTurn(limit, tools, history, rounds, script))
    decreases |script|, 2
  {
    var turn := RunTurn(limit, tools, history, rounds, script);
    if limit.Some? && rounds >= limit.value {
      assert After(tools, history, script, [], history);
    } else if script != [] && !script[0].cancelled && script[0].granted {
      RoundIsPlayed(limit, tools, history, rounds, script);
    }
  }

  lemma {:induction false} RoundIsPlayed(
    limit: Option<nat>, tools: set<string>, history: seq<Message>, rounds: nat, script: seq<Round>)
    requires script != [] && !script[0].cancelled && script[0].granted && !(limit.Some? && rounds >= limit.value)
    ensures Played(limit, tools, history, rounds, script, RunTurn(limit, tools, history, rounds, script))
    decreases |script|, 1
  {
    var round := script[0];
    var streamed := ReadStream(round.heard, NoContent());
    StreamIsRead(round.heard, NoContent());
    if streamed.Complete? {
      var m := streamed.message;
      StreamIsAssistant(round.heard, NoContent());
      if m.calls == [] {
        assert (history + [m])[|history|] == m;
      } else {
        CallsArePlayed(limit, tools, history, rounds, script, m);
      }
    }
  }

  /** The stream of the first round gave a message that asks for tools. */
  lemma {:induction false} CallsArePlayed(
    limit: Option<nat>, tools: set<string>, history: seq<Message>, rounds: nat, script: seq<Round>, m: Message)
    requires script != [] && !script[0].cancelled && script[0].granted && !(limit.Some? && rounds >= limit.value)
    requires ReadStream(script[0].heard, NoContent()) == Complete(m) && StreamGives(script[0].heard, m)
    requires m.Assistant? && m.calls != []
    ensures Played(limit, tools, history, rounds, script, RunTurn(limit, tools, history, rounds, script))
    decreases |script|, 0
  {
    var round := script[0];
    CallsAreAnsweredAs(tools, m.calls, round.answers, |m.calls|);
    assert m.calls[..|m.calls|] == m.calls;
    var responses := Responses(tools, m.calls, round.answers, |m.calls|);
    if responses.Some? {
      var longer := history + [m] + [Tool(responses.value)];
      assert longer[|history|] == m && longer[|history| + 1] == Tool(responses.value);
      assert Followed(tools, round, history, longer);
      TurnIsPlayed(limit, tools, longer, rounds + 1, script[1..]);
      PlayedLater(limit, tools, history, longer, rounds, script, RunTurn(limit, tools, longer, rounds + 1, script[1..]));
    }
  }

  lemma {:induction false} PlayedLater(
    limit: Option<nat>, tools: set<string>, history: seq<Message>, longer: seq<Message>, rounds: nat, script: seq<Round>,
    rest: Turn)
    requires script != [] && Followed(tools, script[0], history, longer)
    requires Played(limit, tools, longer, rounds + 1, script[1..], rest)
    ensures Played(limit, tools, history, rounds, script, Turn([history] + rest.requests, rest.result))
  {
    var turn := Turn([history] + rest.requests, rest.result);
    forall i | 0 <= i < |turn.requests| - 1
      ensures Followed(tools, script[i], turn.requests[i], turn.requests[i + 1])
    {
      if i > 0 {
        assert turn.requests[i] == rest.requests[i - 1] && script[i] == script[1..][i - 1];
      }
    }
    if EndsBefore(limit, tools, longer, rounds + 1, script[1..], rest) {
      BeforeLater(limit, tools, history, longer, rounds, script, rest);
    }
  }

  lemma {:induction false} AfterLater(tools: set<string>, history: seq<Message>, longer: seq<Message>, script: seq<Round>,
                                      requests: seq<seq<Message>>, h: seq<Message>)
    requires script != [] && Followed(tools, script[0], history, longer) && After(tools, longer, script[1..], requests, h)
    ensures After(tools, history, script, [history] + requests, h)
  {
  }

  lemma {:induction false} BeforeLater(
    limit: Option<nat>, tools: set<string>, history: seq<Message>, longer: seq<Message>, rounds: nat, script: seq<Round>,
    rest: Turn)
    requires script != [] && Followed(tools, script[0], history, longer)
    requires EndsBefore(limit, tools, longer, rounds + 1, script[1..], rest)
    ensures EndsBefore(limit, tools, history, rounds, script, Turn([history] + rest.requests, rest.result))
  {
    if rest.result == Err(TooManyRounds) {
      var h :| After(tools, longer, script[1..], rest.requests, h);
      AfterLater(tools, history, longer, script, rest.requests, h);
    } else {
      AfterLater(tools, history, longer, script, rest.requests, rest.result.value);
    }
  }

  /** What the prompts' turns send and save, each call answered as its tool and the host's answer say. */
  lemma {:induction false} PromptIsPlayed(limit: Option<nat>, history: seq<Message>, prompt: Prompt)
    ensures var started := history + [User(prompt.text)];
            var turn := RunTurn(limit, prompt.tools, started, 0, prompt.script);
            && Played(limit, prompt.tools, started, 0, prompt.script, turn)
            && Saved(limit, history, prompt) == (if turn.result.Ok? then turn.result.value else history)
  {
    TurnIsPlayed(limit, prompt.tools, history + [User(prompt.text)], 0, prompt.script);
  }

  /**
   * A host error ends the turn if and only if it answers a call of an offered tool: in a round whose answer asks for
   * tools, the turn fails there exactly when the host fails on one of the offered ones.
   */
  lemma {:induction false} HostErrorEndsIff(
    limit: Option<nat>, tools: set<string>, history: seq<Message>, rounds: nat, script: seq<Round>, i: nat, m: Message)
    requires var turn := RunTurn(limit, tools, history, rounds, script); i < |turn.requests|
    requires i < |script| && !script[i].cancelled && script[i].granted
    requires StreamGives(script[i].heard, m) && AsksForTools(m)
    ensures var turn := RunTurn(limit, tools, history, rounds, script);
            (i == |turn.requests| - 1 && turn.result == Err(HostFailed)) <==> BreaksOff(tools, m.calls, script[i].answers)
  {
    var turn := RunTurn(limit, tools, history, rounds, script);
    TurnIsPlayed(limit, tools, history, rounds, script);
    if i < |turn.requests| - 1 {
      NotBrokenOff(tools, script[i], turn.requests[i], turn.requests[i + 1], m);
    } else if EndsBefore(limit, tools, history, rounds, script, turn) {
      var h := AfterAll(limit, tools, history, rounds, script, turn);
      NotBrokenOff(tools, script[i], turn.requests[i], h, m);
    } else {
      LastBreaksOff(tools, script, turn, m);
    }
  }

  lemma {:induction false} AfterAll(
    limit: Option<nat>, tools: set<string>, history: seq<Message>, rounds: nat, script: seq<Round>, turn: Turn)
    returns (h: seq<Message>)
    requires EndsBefore(limit, tools, history, rounds, script, turn)
    ensures After(tools, history, script, turn.requests, h)
    ensures turn.result != Err(HostFailed)
  {
    if turn.result == Err(TooManyRounds) {
      h :| After(tools, history, script, turn.requests, h);
    } else {
      h := turn.result.value;
    }
  }

  lemma {:induction false} NotBrokenOff(tools: set<string>, round: Round, a: seq<Message>, b: seq<Message>, m: Message)
    requires Followed(tools, round, a, b) && StreamGives(round.heard, m) && m.Assistant?
    ensures !BreaksOff(tools, m.calls, round.answers)
  {
    GivesOne(round.heard, b[|a|], m);
    forall j | 0 <= j < |m.calls|
      ensures !(m.calls[j].name in tools && round.answers(j).HostError?)
    {
      assert AnsweredAs(tools, m.calls[j], round.answers(j), b[|a| + 1].responses[j]);
    }
  }

  lemma {:induction false} LastBreaksOff(tools: set<string>, script: seq<Round>, turn: Turn, m: Message)
    requires EndsIn(tools, script, turn) && |turn.requests| <= |script| && script[|turn.requests| - 1].granted
    requires StreamGives(script[|turn.requests| - 1].heard, m) && AsksForTools(m)
    ensures turn.result == Err(HostFailed) && BreaksOff(tools, m.calls, script[|turn.requests| - 1].answers)
  {
    var round, h := script[|turn.requests| - 1], turn.requests[|turn.requests| - 1];
    match turn.result
    case Err(failure) =>
      if m' :| StreamGives(round.heard, m') && m'.Assistant? && BreaksOff(tools, m'.calls, round.answers) {
        GivesOne(round.heard, m, m');
      }
    case Ok(saved) =>
      if |saved| == |h| + 1 && StreamGives(round.heard, saved[|h|]) {
        GivesOne(round.heard, m, saved[|h|]);
      }
  }
}
