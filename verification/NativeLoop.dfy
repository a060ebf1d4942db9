/** The native backend's tool loop over a growing chat history. */
module NativeLoop {
  import opened Wrappers

  datatype Call = Call(id: string, name: string)

  /** A tool's own output, or a report that it could not be run or failed. */
  datatype Output = Plain(text: string) | ErrorReport(text: string)

  datatype Response = Response(call: string, output: Output)

  datatype Message =
    | User(prompt: string)
    | Assistant(text: string, calls: seq<Call>)
    | Tool(responses: seq<Response>)

  datatype Failure = TooManyRounds | RequestFailed | StreamFailed | HostFailed | AlreadyExecuting

  // ---------------------------------------------------------------- the provider and the host

  /** Whether cancellation was seen before the event, and the event. */
  datatype Heard = Heard(cancelled: bool, event: StreamEvent)

  /** Pieces of content that the host accepts or refuses, captured content, other events, a broken stream. */
  datatype StreamEvent = Piece(accepted: bool) | End(captured: Option<Message>) | Other | Broken

  /** How the host answers a tool call. */
  datatype HostAnswer = Success(text: string) | Unsuccessful(text: string) | ProtocolError(text: string) | HostError

  /** One provider request: cancelled before it, granted or not, what is streamed, and the host's answers. */
  datatype Round = Round(cancelled: bool, granted: bool, heard: seq<Heard>, answers: nat -> HostAnswer)

  datatype Streamed = Cancelled | Interrupted(failure: Failure) | Complete(message: Message)

  /** An answer without content. */
  function NoContent(): Message {
    Assistant("", [])
  }

  function ReadStream(heard: seq<Heard>, captured: Message): Streamed
    decreases |heard|
  {
    if heard == [] then Complete(captured)
    else if heard[0].cancelled then Cancelled
    else
      match heard[0].event
      case Piece(accepted) => if accepted then ReadStream(heard[1..], captured) else Interrupted(HostFailed)
      case End(content) =>
        ReadStream(heard[1..], if content.Some? && content.value.Assistant? then content.value else NoContent())
      case Other => ReadStream(heard[1..], captured)
      case Broken => Interrupted(StreamFailed)
  }

  /** Unknown tools are reported to the provider without asking the host; only a real host error ends the turn. */
  function Dispatch(tools: set<string>, call: Call, answer: HostAnswer): Option<Output> {
    if call.name !in tools then Some(ErrorReport(call.name))
    else
      match answer
      case Success(text) => Some(Plain(text))
      case Unsuccessful(text) => Some(ErrorReport(text))
      case ProtocolError(text) => Some(ErrorReport(text))
      case HostError => None
  }

  /** The responses to the first n calls, in order. */
  function Responses(tools: set<string>, calls: seq<Call>, answers: nat -> HostAnswer, n: nat): Option<seq<Response>>
    requires n <= |calls|
  {
    if n == 0 then Some([])
    else
      var before := Responses(tools, calls, answers, n - 1);
      var output := Dispatch(tools, calls[n - 1], answers(n - 1));
      if before.None? || output.None? then None else Some(before.value + [Response(calls[n - 1].id, output.value)])
  }

  // ---------------------------------------------------------------- one turn

  /** The histories sent to the provider, and the history or failure the turn ends with. */
  datatype Turn = Turn(requests: seq<seq<Message>>, result: Result<seq<Message>, Failure>)

  /** After `rounds` rounds, the rest of the turn; a provider that is not there any more fails the request. */
  function RunTurn(limit: Option<nat>, tools: set<string>, history: seq<Message>, rounds: nat, script: seq<Round>): Turn
    decreases |script|
  {
    if limit.Some? && rounds >= limit.value then Turn([], Err(TooManyRounds))
    else if script == [] then Turn([history], Err(RequestFailed))
    else if script[0].cancelled then Turn([], Ok(history))
    else if !script[0].granted then Turn([history], Err(RequestFailed))
    else
      match ReadStream(script[0].heard, NoContent())
      case Cancelled => Turn([history], Ok(history))
      case Interrupted(failure) => Turn([history], Err(failure))
      case Complete(message) => AfterAnswer(limit, tools, history, rounds, script, message)
  }

  function AfterAnswer(
    limit: Option<nat>, tools: set<string>, history: seq<Message>, rounds: nat, script: seq<Round>, message: Message): Turn
    requires script != []
    decreases |script|, 0
  {
    if !message.Assistant? || message.calls == [] then Turn([history], Ok(history + [message]))
    else
      match Responses(tools, message.calls, script[0].answers, |message.calls|)
      case None => Turn([history], Err(HostFailed))
      case Some(responses) =>
        var rest := RunTurn(limit, tools, history + [message] + [Tool(responses)], rounds + 1, script[1..]);
        Turn([history] + rest.requests, rest.result)
  }

  // ---------------------------------------------------------------- the session, updated in place

  class PhenixSession {
    const limit: Option<nat>
    var tools: set<string>
    var history: seq<Message>
    var active: bool

    constructor (limit: Option<nat>, tools: set<string>)
      ensures this.limit == limit && this.tools == tools && history == [] && !active
    {
      this.limit, this.tools, history, active := limit, tools, [], false;
    }

    method ReceiveStream(heard: seq<Heard>) returns (streamed: Streamed)
      ensures streamed == ReadStream(heard, NoContent())
    {
      var captured := NoContent();
      var i := 0;
      while i < |heard|
        invariant i <= |heard| && ReadStream(heard, NoContent()) == ReadStream(heard[i..], captured)
      {
        assert heard[i..][1..] == heard[i + 1..];
        if heard[i].cancelled {
          return Cancelled;
        }
        match heard[i].event {
          case Piece(accepted) =>
            if !accepted {
              return Interrupted(HostFailed);
            }
          case End(content) =>
            captured := if content.Some? && content.value.Assistant? then content.value else NoContent();
          case Other =>
          case Broken => return Interrupted(StreamFailed);
        }
        i := i + 1;
      }
      return Complete(captured);
    }

    method DispatchCalls(calls: seq<Call>, answers: nat -> HostAnswer) returns (responses: Option<seq<Response>>)
      ensures responses == Responses(tools, calls, answers, |calls|)
    {
      var collected: seq<Response> := [];
      var i := 0;
      while i < |calls|
        invariant i <= |calls| && Responses(tools, calls, answers, i) == Some(collected)
      {
        var output := Dispatch(tools, calls[i], answers(i));
        if output.None? {
          FailureStays(tools, calls, answers, i + 1, |calls|);
          return None;
        }
        collected := collected + [Response(calls[i].id, output.value)];
        i := i + 1;
      }
      return Some(collected);
    }

    /** The turn on a copy of the saved history, which it does not touch. */
    method ExecuteTurn(prompt: string, script: seq<Round>) returns (turn: Turn)
      ensures turn == RunTurn(limit, tools, history + [User(prompt)], 0, script)
    {
      var messages := history + [User(prompt)];
      var requests: seq<seq<Message>> := [];
      var rounds := 0;
      var i := 0;
      ghost var whole := RunTurn(limit, tools, messages, 0, script);
      while true
        invariant i <= |script| && rounds == i
        invariant var rest := RunTurn(limit, tools, messages, rounds, script[i..]);
                  whole == Turn(requests + rest.requests, rest.result)
        decreases |script| - i
      {
        if limit.Some? && rounds >= limit.value {
          return Turn(requests, Err(TooManyRounds));
        }
        rounds := rounds + 1;
        if i == |script| {
          return Turn(requests + [messages], Err(RequestFailed));
        }
        if script[i].cancelled {
          return Turn(requests, Ok(messages));
        }
        requests := requests + [messages];
        if !script[i].granted {
          return Turn(requests, Err(RequestFailed));
        }
        var streamed := ReceiveStream(script[i].heard);
        match streamed {
          case Cancelled => return Turn(requests, Ok(messages));
          case Interrupted(failure) => return Turn(requests, Err(failure));
          case Complete(message) =>
            messages := messages + [message];
            if !message.Assistant? || message.calls == [] {
              return Turn(requests, Ok(messages));
            }
            var responses := DispatchCalls(message.calls, script[i].answers);
            if responses.None? {
              return Turn(requests, Err(HostFailed));
            }
            messages := messages + [Tool(responses.value)];
            assert script[i..][1..] == script[i + 1..];
        }
        i := i + 1;
      }
    }

    /** Only a turn that succeeds is saved. */
    method Execute(prompt: string, script: seq<Round>) returns (result: Option<Failure>, requests: seq<seq<Message>>)
      modifies this`history, this`active
      ensures active == old(active)
      ensures old(active) ==> result == Some(AlreadyExecuting) && requests == [] && history == old(history)
      ensures !old(active) ==>
                var turn := RunTurn(limit, tools, old(history) + [User(prompt)], 0, script);
                && requests == turn.requests
                && match turn.result
                   case Ok(saved) => result == None && history == saved
                   case Err(failure) => result == Some(failure) && history == old(history)
    {
      if active {
        return Some(AlreadyExecuting), [];
      }
      active := true;
      var turn := ExecuteTurn(prompt, script);
      active := false;
      requests := turn.requests;
      match turn.result {
        case Ok(saved) =>
          history := saved;
          result := None;
        case Err(failure) => result := Some(failure);
      }
    }
  }

  lemma {:induction false} FailureStays(tools: set<string>, calls: seq<Call>, answers: nat -> HostAnswer, m: nat, n: nat)
    requires m <= n <= |calls| && Responses(tools, calls, answers, m).None?
    ensures Responses(tools, calls, answers, n).None?
    decreases n
  {
    if m < n {
      FailureStays(tools, calls, answers, m, n - 1);
    }
  }

  // ---------------------------------------------------------------- what every history is

  /** One response per call, in call order. */
  predicate Answers(calls: seq<Call>, responses: seq<Response>) {
    |responses| == |calls| && forall i :: 0 <= i < |calls| ==> responses[i].call == calls[i].id
  }

  predicate AsksForTools(message: Message) {
    message.Assistant? && message.calls != []
  }

  /** Tool calls are answered by the very next message, and only there. */
  predicate WellFormed(history: seq<Message>) {
    && (forall i :: 0 <= i < |history| && AsksForTools(history[i]) ==>
          i + 1 < |history| && history[i + 1].Tool? && Answers(history[i].calls, history[i + 1].responses))
    && (forall i :: 0 <= i < |history| && history[i].Tool? ==> i > 0 && AsksForTools(history[i - 1]))
  }

  lemma {:induction false} ResponsesAnswer(tools: set<string>, calls: seq<Call>, answers: nat -> HostAnswer, n: nat)
    requires n <= |calls| && Responses(tools, calls, answers, n).Some?
    ensures Answers(calls[..n], Responses(tools, calls, answers, n).value)
    decreases n
  {
    if n > 0 {
      ResponsesAnswer(tools, calls, answers, n - 1);
      assert calls[..n] == calls[..n - 1] + [calls[n - 1]];
    }
  }

  lemma {:induction false} PlainMessageKeeps(history: seq<Message>, message: Message)
    requires WellFormed(history) && !AsksForTools(message) && !message.Tool?
    ensures WellFormed(history + [message])
  {
    var longer := history + [message];
    forall i | 0 <= i < |longer| && AsksForTools(longer[i])
      ensures i + 1 < |longer| && longer[i + 1].Tool? && Answers(longer[i].calls, longer[i + 1].responses)
    {
      assert longer[i] == history[i] && longer[i + 1] == history[i + 1];
    }
  }

  lemma {:induction false} ToolRoundKeeps(history: seq<Message>, message: Message, responses: seq<Response>)
    requires WellFormed(history) && AsksForTools(message) && Answers(message.calls, responses)
    ensures WellFormed(history + [message] + [Tool(responses)])
  {
    var longer := history + [message] + [Tool(responses)];
    forall i | 0 <= i < |longer| && AsksForTools(longer[i])
      ensures i + 1 < |longer| && longer[i + 1].Tool? && Answers(longer[i].calls, longer[i + 1].responses)
    {
      if i < |history| {
        assert longer[i] == history[i] && longer[i + 1] == history[i + 1];
      }
    }
  }

  /** What the captured content is when the stream completes. */
  lemma {:induction false} StreamIsAssistant(heard: seq<Heard>, captured: Message)
    requires captured.Assistant?
    ensures ReadStream(heard, captured).Complete? ==> ReadStream(heard, captured).message.Assistant?
    decreases |heard|
  {
    if heard != [] {
      StreamIsAssistant(heard[1..], captured);
      StreamIsAssistant(heard[1..], NoContent());
      if heard[0].event.End? && heard[0].event.captured.Some? && heard[0].event.captured.value.Assistant? {
        StreamIsAssistant(heard[1..], heard[0].event.captured.value);
      }
    }
  }

  /** One history is the other with one answered round of tool calls appended. */
  predicate OneRoundLonger(a: seq<Message>, b: seq<Message>) {
    |b| == |a| + 2 && a <= b && AsksForTools(b[|a|]) && b[|a| + 1].Tool?
  }

  /** What a turn sends and what it ends with, started from a well-formed history. */
  ghost predicate Proper(history: seq<Message>, rounds: nat, limit: Option<nat>, turn: Turn) {
    && (forall i :: 0 <= i < |turn.requests| ==> WellFormed(turn.requests[i]) && history <= turn.requests[i])
    && (turn.requests != [] ==> turn.requests[0] == history)
    && (forall i :: 0 < i < |turn.requests| ==> OneRoundLonger(turn.requests[i - 1], turn.requests[i]))
    && (turn.result.Ok? ==> WellFormed(turn.result.value) && history <= turn.result.value)
    && (limit.Some? && rounds <= limit.value ==> rounds + |turn.requests| <= limit.value)
  }

  lemma {:induction false} TurnIsProper(
    limit: Option<nat>, tools: set<string>, history: seq<Message>, rounds: nat, script: seq<Round>)
    requires WellFormed(history)
    ensures Proper(history, rounds, limit, RunTurn(limit, tools, history, rounds, script))
    decreases |script|
  {
    if !(limit.Some? && rounds >= limit.value) && script != [] && !script[0].cancelled && script[0].granted {
      var streamed := ReadStream(script[0].heard, NoContent());
      StreamIsAssistant(script[0].heard, NoContent());
      if streamed.Complete? {
        var message := streamed.message;
        if message.calls == [] {
          PlainMessageKeeps(history, message);
        } else {
          var responses := Responses(tools, message.calls, script[0].answers, |message.calls|);
          if responses.Some? {
            ResponsesAnswer(tools, message.calls, script[0].answers, |message.calls|);
            assert message.calls[..|message.calls|] == message.calls;
            ToolRoundKeeps(history, message, responses.value);
            var longer := history + [message] + [Tool(responses.value)];
            TurnIsProper(limit, tools, longer, rounds + 1, script[1..]);
            RoundFirst(history, longer, rounds, limit, RunTurn(limit, tools, longer, rounds + 1, script[1..]));
          }
        }
      }
    }
  }

  lemma {:induction false} RoundFirst(
    history: seq<Message>, longer: seq<Message>, rounds: nat, limit: Option<nat>, rest: Turn)
    requires WellFormed(history) && OneRoundLonger(history, longer) && Proper(longer, rounds + 1, limit, rest)
    requires limit.Some? ==> rounds < limit.value
    ensures Proper(history, rounds, limit, Turn([history] + rest.requests, rest.result))
  {
    var requests := [history] + rest.requests;
    forall i | 0 < i < |requests|
      ensures OneRoundLonger(requests[i - 1], requests[i])
    {
      if i > 1 {
        assert requests[i - 1] == rest.requests[i - 2] && requests[i] == rest.requests[i - 1];
      }
    }
  }

  /** One prompt with what the provider and the host do during it. */
  datatype Prompt = Prompt(text: string, tools: set<string>, script: seq<Round>)

  function Saved(limit: Option<nat>, history: seq<Message>, prompt: Prompt): seq<Message> {
    match RunTurn(limit, prompt.tools, history + [User(prompt.text)], 0, prompt.script).result
    case Ok(saved) => saved
    case Err(_) => history
  }

  function SavedAfter(limit: Option<nat>, history: seq<Message>, prompts: seq<Prompt>): seq<Message>
    decreases |prompts|
  {
    if prompts == [] then history else SavedAfter(limit, Saved(limit, history, prompts[0]), prompts[1..])
  }

  /** Over any sequence of turns, failed and cancelled ones included, the saved history only grows and is well formed. */
  lemma {:induction false} SavedHistoriesGrow(limit: Option<nat>, history: seq<Message>, prompts: seq<Prompt>)
    requires WellFormed(history)
    ensures history <= SavedAfter(limit, history, prompts) && WellFormed(SavedAfter(limit, history, prompts))
    decreases |prompts|
  {
    if prompts != [] {
      var started := history + [User(prompts[0].text)];
      PlainMessageKeeps(history, User(prompts[0].text));
      TurnIsProper(limit, prompts[0].tools, started, 0, prompts[0].script);
      SavedHistoriesGrow(limit, Saved(limit, history, prompts[0]), prompts[1..]);
    }
  }

  /** Every history sent for a prompt extends the saved one, is well formed, and with a limit there are at most so many. */
  lemma {:induction false} RequestsAreProper(limit: Option<nat>, history: seq<Message>, prompt: Prompt)
    requires WellFormed(history)
    ensures var requests := RunTurn(limit, prompt.tools, history + [User(prompt.text)], 0, prompt.script).requests;
            && (limit.Some? ==> |requests| <= limit.value)
            && (forall i :: 0 <= i < |requests| ==>
                  WellFormed(requests[i]) && history + [User(prompt.text)] <= requests[i])
            && (forall i :: 0 < i < |requests| ==> OneRoundLonger(requests[i - 1], requests[i]))
  {
    PlainMessageKeeps(history, User(prompt.text));
    TurnIsProper(limit, prompt.tools, history + [User(prompt.text)], 0, prompt.script);
  }
}
