/** The persistent ACP worker's command loop, and the executor that reads one command's channel. */
module AcpWorker {
  import opened Wrappers

  datatype Command = Command(model: string, tools: bool)

  /** What arrives for a command while it is taken: a notification, or a tool call through the bridge. */
  datatype Sent = EventSent | CallSent

  /**
   * How the agent answers one command's requests, and what comes in meanwhile: notifications before the command's
   * channel is made active (`early`), then until the bridge is bound to it (`binding`), notifications and tool calls
   * until the prompt is sent (`bound`) and until it is answered (`during`), notifications until the channel is made
   * inactive (`ending`) and after that (`late`), and tool calls taken up before the bridge was unbound but sent only
   * after the command was done (`stragglers`).
   */
  datatype Answer = Answer(
    select: bool, bind: bool, prompt: bool, early: nat, binding: nat, bound: seq<Sent>, during: seq<Sent>, ending: nat,
    late: nat, stragglers: nat)

  datatype Outcome = Succeeded | Unsupported | Failed

  /** What the worker does: requests to the agent, and messages on the channel of command k. */
  datatype Entry =
    | SetModel(model: string, ok: bool)
    | Bound(ok: bool)
    | Prompted(k: nat)
    | Answered(k: nat, ok: bool)
    | Put(k: nat, sent: Sent)
    | Dropped
    | Done(k: nat, outcome: Outcome)

  /** What does not change during a session: the advertised models and whether tools can be bridged. */
  datatype Session = Session(advertised: set<string>, bridge: bool)

  // ---------------------------------------------------------------- what a command's caller may expect

  /** What a command's channel carries: messages, how the command is done, and tool calls that come too late. */
  datatype Report = Report(sent: seq<Sent>, outcome: Outcome, stragglers: nat)

  function Repeated(sent: Sent, n: nat): (r: seq<Sent>)
    ensures |r| == n
  {
    seq(n, _ => sent)
  }

  /** A tool call gets on the channel only through the bridge. */
  function Carried(session: Session, sent: seq<Sent>): seq<Sent>
    decreases |sent|
  {
    if sent == [] then []
    else
      var last := sent[|sent| - 1];
      Carried(session, sent[..|sent| - 1]) + if last.EventSent? || session.bridge then [last] else []
  }

  /** Everything between the channel's activation and the end of the prompt. */
  function Sending(session: Session, answer: Answer): seq<Sent> {
    Repeated(EventSent, answer.binding) + Carried(session, answer.bound) + Carried(session, answer.during)
    + Repeated(EventSent, answer.ending)
  }

  function Sessioned(session: Session, answer: Answer): Report {
    if session.bridge && !answer.bind then Report(Repeated(EventSent, answer.binding), Failed, 0)
    else Report(Sending(session, answer), if answer.prompt then Succeeded else Failed,
                if session.bridge then answer.stragglers else 0)
  }

  function Expected(session: Session, current: Option<string>, command: Command, answer: Answer): Report {
    if command.model !in session.advertised || (command.tools && !session.bridge) then Report([], Unsupported, 0)
    else if current != Some(command.model) && !answer.select then Report([], Failed, 0)
    else Sessioned(session, answer)
  }

  /** Only a command that asks for tools the agent cannot take is turned down without ending the loop. */
  predicate GoesOn(session: Session, current: Option<string>, command: Command, answer: Answer) {
    var outcome := Expected(session, current, command, answer).outcome;
    outcome == Succeeded || (outcome == Unsupported && command.model in session.advertised)
  }

  function Selected(session: Session, current: Option<string>, command: Command): Option<string> {
    if command.tools && !session.bridge then current else Some(command.model)
  }

  /** The reports of the commands taken from command k on: the loop ends at the first that fails. */
  function Reports(session: Session, current: Option<string>, k: nat, commands: seq<Command>, answers: nat -> Answer)
    : seq<Report>
    requires k <= |commands|
    decreases |commands| - k
  {
    if k == |commands| then []
    else
      var command, answer := commands[k], answers(k);
      [Expected(session, current, command, answer)]
      + if GoesOn(session, current, command, answer)
        then Reports(session, Selected(session, current, command), k + 1, commands, answers) else []
  }

  // ---------------------------------------------------------------- watching the worker

  /**
   * The agent's model, the finished commands' reports, the current command's messages and its last answered request,
   * and whether all was well.
   */
  datatype Watch = Watch(ok: bool, remote: Option<string>, reports: seq<Report>, sent: seq<Sent>, request: Option<Entry>)

  /**
   * A command is done as unsupported if the agent was asked nothing for it, as succeeded if its prompt was answered
   * well, and as failed if the last thing the agent was asked for it went wrong.
   */
  predicate Follows(k: nat, outcome: Outcome, request: Option<Entry>) {
    match outcome
    case Unsupported => request == None
    case Succeeded => request == Some(Answered(k, true))
    case Failed =>
      && request.Some?
      && (request == Some(Answered(k, false)) || request == Some(Bound(false))
          || (request.value.SetModel? && !request.value.ok))
  }

  function ObservePut(w: Watch, k: nat, sent: Sent): Watch {
    if k < |w.reports| then
      w.(ok := w.ok && sent.CallSent?, reports := w.reports[k := w.reports[k].(stragglers := w.reports[k].stragglers + 1)])
    else w.(ok := w.ok && k == |w.reports|, sent := w.sent + [sent])
  }

  function Observe(commands: seq<Command>, w: Watch, entry: Entry): Watch {
    match entry
    case SetModel(model, ok) => w.(remote := if ok then Some(model) else None, request := Some(entry))
    case Bound(_) => w.(request := Some(entry))
    case Prompted(k) => w.(ok := w.ok && k == |w.reports| && k < |commands| && w.remote == Some(commands[k].model))
    case Answered(k, _) => w.(request := Some(entry))
    case Put(k, sent) => ObservePut(w, k, sent)
    case Dropped => w
    case Done(k, outcome) =>
      Watch(w.ok && k == |w.reports| && Follows(k, outcome, w.request), w.remote,
            w.reports + [Report(w.sent, outcome, 0)], [], None)
  }

  function Watched(commands: seq<Command>, remote: Option<string>, log: seq<Entry>): Watch
    decreases |log|
  {
    if log == [] then Watch(true, remote, [], [], None)
    else Observe(commands, Watched(commands, remote, log[..|log| - 1]), log[|log| - 1])
  }

  /** What is known of the model is true of the agent. */
  predicate Knows(current: Option<string>, remote: Option<string>) {
    current.Some? ==> remote == current
  }

  // ---------------------------------------------------------------- the loop, updating its state

  class Worker {
    const session: Session
    var current: Option<string>
    var active: Option<nat>
    var bridged: Option<nat>
    ghost const commands: seq<Command>
    ghost const remote: Option<string>
    ghost var log: seq<Entry>
    ghost var watch: Watch

    constructor (session: Session, current: Option<string>, ghost commands: seq<Command>, ghost remote: Option<string>)
      ensures this.session == session && this.current == current && this.commands == commands && this.remote == remote
      ensures Valid() && Idle() && log == []
    {
      this.session, this.current, this.commands, this.remote := session, current, commands, remote;
      active, bridged, log, watch := None, None, [], Watch(true, remote, [], [], None);
    }

    ghost predicate Valid()
      reads this
    {
      watch == Watched(commands, remote, log)
    }

    /** Between commands no channel is active or bound. */
    predicate Idle()
      reads this
    {
      active == None && bridged == None
    }

    ghost method Record(entry: Entry)
      requires Valid()
      modifies this`log, this`watch
      ensures Valid() && log == old(log) + [entry] && watch == Observe(commands, old(watch), entry)
    {
      log := log + [entry];
      watch := Observe(commands, watch, entry);
      assert log[..|log| - 1] == old(log);
    }

    /** Notifications go to the active channel, or nowhere. */
    method Notify(count: nat)
      requires Valid() && watch.ok && (active.Some? ==> active.value == |watch.reports|)
      modifies this`log, this`watch
      ensures Valid()
      ensures watch == if active.None? then old(watch)
                       else old(watch).(sent := old(watch).sent + Repeated(EventSent, count))
    {
      var n := 0;
      assert watch.sent + Repeated(EventSent, 0) == watch.sent;
      while n < count
        invariant n <= count && Valid()
        invariant watch == if active.None? then old(watch)
                           else old(watch).(sent := old(watch).sent + Repeated(EventSent, n))
      {
        if active.Some? {
          Record(Put(active.value, EventSent));
        } else {
          Record(Dropped);
        }
        assert Repeated(EventSent, n) + [EventSent] == Repeated(EventSent, n + 1);
        n := n + 1;
      }
    }

    /** Notifications go to the active channel, tool calls to the one the bridge is bound to. */
    method Receive(sent: seq<Sent>)
      requires Valid() && watch.ok && active == Some(|watch.reports|)
      requires bridged == if session.bridge then active else None
      modifies this`log, this`watch
      ensures Valid() && watch == old(watch).(sent := old(watch).sent + Carried(session, sent))
    {
      var n := 0;
      assert watch.sent + Carried(session, sent[..0]) == watch.sent;
      while n < |sent|
        invariant n <= |sent| && Valid()
        invariant watch == old(watch).(sent := old(watch).sent + Carried(session, sent[..n]))
      {
        assert sent[..n + 1][..n] == sent[..n];
        var channel := if sent[n].EventSent? then active else bridged;
        if channel.Some? {
          Record(Put(channel.value, sent[n]));
        }
        n := n + 1;
      }
      assert sent[..n] == sent;
    }

    /** Calls that the bridge took up for command k and sends now, when the command is done. */
    method Straggle(k: nat, count: nat)
      requires Valid() && watch.ok && k < |watch.reports|
      modifies this`log, this`watch
      ensures Valid()
      ensures watch == old(watch).(reports := old(watch).reports[
                k := old(watch).reports[k].(stragglers := old(watch).reports[k].stragglers + count)])
    {
      var n := 0;
      while n < count
        invariant n <= count && Valid()
        invariant watch == old(watch).(reports := old(watch).reports[
                    k := old(watch).reports[k].(stragglers := old(watch).reports[k].stragglers + n)])
      {
        Record(Put(k, CallSent));
        n := n + 1;
      }
    }

    /** Binds the bridge, or gives the command up: the channel is active all the while. */
    method Bind(k: nat, answer: Answer) returns (bound: bool)
      requires Valid() && Idle() && watch.ok && watch.sent == [] && |watch.reports| == k
      modifies this`active, this`bridged, this`log, this`watch
      ensures Valid() && watch.ok && watch.remote == old(watch).remote
      ensures bound <==> (session.bridge ==> answer.bind)
      ensures bound ==> active == Some(k) && bridged == if session.bridge then Some(k) else None
      ensures bound ==> watch == old(watch).(sent := Repeated(EventSent, answer.binding), request := watch.request)
      ensures !bound ==> Idle() && watch.sent == [] && watch.request == None
                         && watch.reports == old(watch).reports + [Sessioned(session, answer)]
    {
      active := Some(k);
      Notify(answer.binding);
      assert watch.sent == Repeated(EventSent, answer.binding);
      if session.bridge {
        Record(Bound(answer.bind));
        if !answer.bind {
          active := None;
          Record(Done(k, Failed));
          return false;
        }
        bridged := Some(k);
      }
      return true;
    }

    /** Sends the prompt and takes what comes until it is answered and the channel is inactive again. */
    method Prompt(k: nat, answer: Answer)
      requires Valid() && active == Some(k) && (bridged == if session.bridge then Some(k) else None)
      requires watch.ok && |watch.reports| == k < |commands| && watch.remote == Some(commands[k].model)
      modifies this`active, this`bridged, this`log, this`watch
      ensures Valid() && Idle()
      ensures watch == old(watch).(sent := old(watch).sent + Carried(session, answer.bound)
                                           + Carried(session, answer.during) + Repeated(EventSent, answer.ending),
                                   request := Some(Answered(k, answer.prompt)))
    {
      Receive(answer.bound);
      Record(Prompted(k));
      Receive(answer.during);
      Record(Answered(k, answer.prompt));
      bridged := None;
      Notify(answer.ending);
      active := None;
      Notify(answer.late);
    }

    /** The part of a command once the agent's model is the command's. */
    method SendPrompt(k: nat, answer: Answer) returns (goesOn: bool)
      requires Valid() && Idle() && watch.ok && watch.sent == [] && |watch.reports| == k < |commands|
      requires watch.remote == Some(commands[k].model)
      modifies this`active, this`bridged, this`log, this`watch
      ensures Valid() && Idle() && watch.ok && watch.sent == [] && watch.remote == old(watch).remote
      ensures watch.request == None
      ensures watch.reports == old(watch).reports + [Sessioned(session, answer)]
      ensures goesOn <==> Sessioned(session, answer).outcome == Succeeded
    {
      var bound := Bind(k, answer);
      if !bound {
        return false;
      }
      Prompt(k, answer);
      Record(Done(k, if answer.prompt then Succeeded else Failed));
      Straggle(k, if session.bridge then answer.stragglers else 0);
      return answer.prompt;
    }

    /** Takes one command: its channel gets exactly the expected report, and a prompt goes to the right model. */
    method ServeCommand(k: nat, command: Command, answer: Answer) returns (goesOn: bool)
      requires Valid() && k < |commands| && commands[k] == command && Idle()
      requires watch.ok && watch.sent == [] && |watch.reports| == k && Knows(current, watch.remote)
      requires watch.request == None
      modifies this
      ensures Valid() && Idle() && watch.ok && watch.sent == [] && watch.request == None
      ensures watch.reports == old(watch).reports + [Expected(session, old(current), command, answer)]
      ensures goesOn <==> GoesOn(session, old(current), command, answer)
      ensures goesOn ==> current == Selected(session, old(current), command) && Knows(current, watch.remote)
    {
      Notify(answer.early);
      if command.model !in session.advertised {
        Record(Done(k, Unsupported));
        return false;
      }
      if command.tools && !session.bridge {
        Record(Done(k, Unsupported));
        return true;
      }
      if current != Some(command.model) {
        Record(SetModel(command.model, answer.select));
        if !answer.select {
          Record(Done(k, Failed));
          return false;
        }
        current := Some(command.model);
      }
      goesOn := SendPrompt(k, answer);
    }

    method Loop(queue: seq<Command>, answers: nat -> Answer)
      requires Valid() && queue == commands && Idle() && log == [] && Knows(current, remote)
      modifies this
      ensures Valid() && watch.ok && watch.reports == Reports(session, old(current), 0, commands, answers)
    {
      var k := 0;
      ghost var all := Reports(session, current, 0, commands, answers);
      while k < |queue|
        invariant Valid() && k <= |queue| && Idle() && watch.ok && watch.sent == [] && |watch.reports| == k
        invariant watch.request == None
        invariant Knows(current, watch.remote)
        invariant watch.reports + Reports(session, current, k, commands, answers) == all
      {
        ghost var before := watch.reports;
        TakeOne(session, current, k, commands, answers, before);
        var goesOn := ServeCommand(k, queue[k], answers(k));
        if !goesOn {
          return;
        }
        k := k + 1;
      }
    }
  }

  /** The reports up to and with command k, and those after it. */
  lemma {:induction false} TakeOne(
    session: Session, current: Option<string>, k: nat, commands: seq<Command>, answers: nat -> Answer, before: seq<Report>)
    requires k < |commands|
    ensures var report := Expected(session, current, commands[k], answers(k));
            before + Reports(session, current, k, commands, answers) ==
              before + [report]
              + if GoesOn(session, current, commands[k], answers(k))
                then Reports(session, Selected(session, current, commands[k]), k + 1, commands, answers) else []
  {
  }

  // ---------------------------------------------------------------- what a clean watch means for the log

  /** The agent's model after these requests: unknown after a failed one. */
  function Remote(remote: Option<string>, log: seq<Entry>): Option<string>
    decreases |log|
  {
    if log == [] then remote
    else
      match log[|log| - 1]
      case SetModel(model, ok) => if ok then Some(model) else None
      case _ => Remote(remote, log[..|log| - 1])
  }

  /** Every prompt of a command is sent while the agent's model is that command's. */
  lemma {:induction false} PromptsMatchModels(commands: seq<Command>, remote: Option<string>, log: seq<Entry>)
    requires Watched(commands, remote, log).ok
    ensures Watched(commands, remote, log).remote == Remote(remote, log)
    ensures forall i :: 0 <= i < |log| && log[i].Prompted? ==>
              log[i].k < |commands| && Remote(remote, log[..i]) == Some(commands[log[i].k].model)
    decreases |log|
  {
    if log != [] {
      var before := log[..|log| - 1];
      PromptsMatchModels(commands, remote, before);
      forall i | 0 <= i < |log| && log[i].Prompted?
        ensures log[i].k < |commands| && Remote(remote, log[..i]) == Some(commands[log[i].k].model)
      {
        if i < |log| - 1 {
          assert before[..i] == log[..i] && before[i] == log[i];
        }
      }
    }
  }

  /** The last request of the command in progress that was answered. */
  function LastRequest(log: seq<Entry>): Option<Entry>
    decreases |log|
  {
    if log == [] then None
    else
      match log[|log| - 1]
      case SetModel(_, _) => Some(log[|log| - 1])
      case Bound(_) => Some(log[|log| - 1])
      case Answered(_, _) => Some(log[|log| - 1])
      case Done(_, _) => None
      case _ => LastRequest(log[..|log| - 1])
  }

  /** How a command is done follows from what the agent answered to the command's own requests. */
  lemma {:induction false} OutcomesFollowAnswers(commands: seq<Command>, remote: Option<string>, log: seq<Entry>)
    requires Watched(commands, remote, log).ok
    ensures Watched(commands, remote, log).request == LastRequest(log)
    ensures forall i :: 0 <= i < |log| && log[i].Done? ==> Follows(log[i].k, log[i].outcome, LastRequest(log[..i]))
    decreases |log|
  {
    if log != [] {
      var before := log[..|log| - 1];
      OutcomesFollowAnswers(commands, remote, before);
      forall i | 0 <= i < |log| && log[i].Done?
        ensures Follows(log[i].k, log[i].outcome, LastRequest(log[..i]))
      {
        if i < |log| - 1 {
          assert before[..i] == log[..i] && before[i] == log[i];
        }
      }
    }
  }

  // ---------------------------------------------------------------- what becomes of each command

  predicate Supported(session: Session, command: Command) {
    command.model in session.advertised && (command.tools ==> session.bridge)
  }

  /** The model known when command k is taken: that of the last supported command before it. */
  function KnownModel(session: Session, current: Option<string>, commands: seq<Command>, k: nat): Option<string>
    requires k <= |commands|
  {
    if k == 0 then current
    else if Supported(session, commands[k - 1]) then Some(commands[k - 1].model)
    else KnownModel(session, current, commands, k - 1)
  }

  /** The agent has the command's model, or takes it. */
  predicate HasModel(known: Option<string>, command: Command, answer: Answer) {
    known == Some(command.model) || answer.select
  }

  /** How a command is done. */
  predicate DoneAs(session: Session, known: Option<string>, command: Command, answer: Answer, outcome: Outcome) {
    && (outcome == Unsupported <==> !Supported(session, command))
    && (outcome == Succeeded <==>
          && Supported(session, command) && HasModel(known, command, answer)
          && (session.bridge ==> answer.bind) && answer.prompt)
  }

  /** What gets through: nothing before the agent has the model, no tool call without a bridge, and all else in order. */
  ghost predicate Delivers(session: Session, known: Option<string>, command: Command, answer: Answer, report: Report) {
    if !Supported(session, command) || !HasModel(known, command, answer) then report.sent == [] && report.stragglers == 0
    else if session.bridge && answer.bind then
      && InOrder(report.sent, answer.binding, answer.bound + answer.during, answer.ending)
      && report.stragglers == answer.stragglers
    else
      && report.stragglers == 0
      && OnlyEvents(report.sent, answer.binding + if session.bridge then 0
                                                  else multiset(answer.bound)[EventSent]
                                                       + multiset(answer.during)[EventSent] + answer.ending)
  }

  ghost predicate OnlyEvents(sent: seq<Sent>, n: nat) {
    |sent| == n && forall i :: 0 <= i < n ==> sent[i] == EventSent
  }

  /** So many notifications, then these, then so many notifications. */
  ghost predicate InOrder(sent: seq<Sent>, first: nat, middle: seq<Sent>, last: nat) {
    && |sent| == first + |middle| + last && sent[first..first + |middle|] == middle
    && forall i :: 0 <= i < first || first + |middle| <= i < |sent| ==> sent[i] == EventSent
  }

  lemma {:induction false} CarriedIs(session: Session, sent: seq<Sent>)
    ensures session.bridge ==> Carried(session, sent) == sent
    ensures !session.bridge ==> OnlyEvents(Carried(session, sent), multiset(sent)[EventSent])
    decreases |sent|
  {
    if sent != [] {
      assert sent == sent[..|sent| - 1] + [sent[|sent| - 1]];
      CarriedIs(session, sent[..|sent| - 1]);
    }
  }

  lemma {:induction false} OnlyEventsBoth(a: seq<Sent>, m: nat, b: seq<Sent>, n: nat)
    requires OnlyEvents(a, m) && OnlyEvents(b, n)
    ensures OnlyEvents(a + b, m + n)
  {
  }

  lemma {:induction false} InOrderIs(first: nat, middle: seq<Sent>, last: nat)
    ensures InOrder(Repeated(EventSent, first) + middle + Repeated(EventSent, last), first, middle, last)
  {
  }

  lemma {:induction false} ExpectedIs(session: Session, known: Option<string>, command: Command, answer: Answer)
    ensures DoneAs(session, known, command, answer, Expected(session, known, command, answer).outcome)
    ensures Delivers(session, known, command, answer, Expected(session, known, command, answer))
  {
    if Supported(session, command) && HasModel(known, command, answer) {
      SessionedIs(session, answer);
    }
  }

  lemma {:induction false} SessionedIs(session: Session, answer: Answer)
    ensures session.bridge && answer.bind ==>
              InOrder(Sessioned(session, answer).sent, answer.binding, answer.bound + answer.during, answer.ending)
    ensures !session.bridge ==>
              OnlyEvents(Sessioned(session, answer).sent, answer.binding + multiset(answer.bound)[EventSent]
                                                          + multiset(answer.during)[EventSent] + answer.ending)
  {
    CarriedIs(session, answer.bound);
    CarriedIs(session, answer.during);
    var (first, last) := (Repeated(EventSent, answer.binding), Repeated(EventSent, answer.ending));
    if !session.bridge {
      var (bound, during) := (multiset(answer.bound)[EventSent], multiset(answer.during)[EventSent]);
      OnlyEventsBoth(first, answer.binding, Carried(session, answer.bound), bound);
      OnlyEventsBoth(first + Carried(session, answer.bound), answer.binding + bound, Carried(session, answer.during), during);
      OnlyEventsBoth(first + Carried(session, answer.bound) + Carried(session, answer.during),
                     answer.binding + bound + during, last, answer.ending);
    } else if answer.bind {
      InOrderIs(answer.binding, answer.bound + answer.during, answer.ending);
      assert first + answer.bound + answer.during == first + (answer.bound + answer.during);
    }
  }

  /** What becomes of command i, and whether another command is taken after it. */
  ghost predicate TakenAs(session: Session, current: Option<string>, commands: seq<Command>, answers: nat -> Answer, i: nat,
                          report: Report, more: bool)
    requires i < |commands|
  {
    && DoneAs(session, KnownModel(session, current, commands, i), commands[i], answers(i), report.outcome)
    && Delivers(session, KnownModel(session, current, commands, i), commands[i], answers(i), report)
    && (more <==> i + 1 < |commands| && (|| report.outcome == Succeeded
                                         || (report.outcome == Unsupported && commands[i].model in session.advertised)))
  }

  /** The reports are those of the commands from k on, the last one that of the last command taken. */
  ghost predicate AllTaken(session: Session, current: Option<string>, commands: seq<Command>, answers: nat -> Answer, k: nat,
                           reports: seq<Report>)
  {
    && k + |reports| <= |commands|
    && forall i :: 0 <= i < |reports| ==>
         TakenAs(session, current, commands, answers, k + i, reports[i], i + 1 < |reports|)
  }

  lemma {:induction false} OneTakenMore(session: Session, current: Option<string>, commands: seq<Command>,
                                        answers: nat -> Answer, k: nat, report: Report, later: seq<Report>)
    requires k < |commands| && TakenAs(session, current, commands, answers, k, report, later != [])
    requires AllTaken(session, current, commands, answers, k + 1, later)
    ensures AllTaken(session, current, commands, answers, k, [report] + later)
  {
    forall i | 0 < i < 1 + |later|
      ensures TakenAs(session, current, commands, answers, k + i, ([report] + later)[i], i < |later|)
    {
      assert TakenAs(session, current, commands, answers, (k + 1) + (i - 1), later[i - 1], i < |later|);
    }
  }

  /**
   * What becomes of the commands that are taken, and which are: after a command that succeeded, or that asked an
   * advertised model for tools it cannot have, the next one is taken; after any other the loop has ended.
   */
  lemma {:induction false} TakenAre(
    session: Session, current: Option<string>, commands: seq<Command>, answers: nat -> Answer, k: nat)
    requires k <= |commands|
    ensures var reports := Reports(session, KnownModel(session, current, commands, k), k, commands, answers);
            AllTaken(session, current, commands, answers, k, reports) && (k < |commands| ==> reports != [])
    decreases |commands| - k
  {
    if k < |commands| {
      var (known, command) := (KnownModel(session, current, commands, k), commands[k]);
      var report := Expected(session, known, command, answers(k));
      ExpectedIs(session, known, command, answers(k));
      if GoesOn(session, known, command, answers(k)) {
        TakenAre(session, current, commands, answers, k + 1);
        OneTakenMore(session, current, commands, answers, k, report,
                     Reports(session, Selected(session, known, command), k + 1, commands, answers));
      } else {
        OneTakenMore(session, current, commands, answers, k, report, []);
      }
    }
  }

  datatype Message = Message(sent: Sent) | DoneMessage(outcome: Outcome)

  /** What is sent on the channel of command k. */
  function Channel(k: nat, log: seq<Entry>): seq<Message>
    decreases |log|
  {
    if log == [] then []
    else
      var before := Channel(k, log[..|log| - 1]);
      match log[|log| - 1]
      case Put(c, sent) => if c == k then before + [Message(sent)] else before
      case Done(c, outcome) => if c == k then before + [DoneMessage(outcome)] else before
      case _ => before
  }

  function Messages(sent: seq<Sent>): (r: seq<Message>)
    ensures |r| == |sent| && forall i :: 0 <= i < |r| ==> r[i] == Message(sent[i])
  {
    seq(|sent|, i requires 0 <= i < |sent| => Message(sent[i]))
  }

  function OfReport(report: Report): seq<Message> {
    Messages(report.sent) + [DoneMessage(report.outcome)] + Messages(Repeated(CallSent, report.stragglers))
  }

  /** What the watch says of the channel of command k: done, in progress, or not taken yet. */
  function ChannelOf(w: Watch, k: nat): seq<Message> {
    if k < |w.reports| then OfReport(w.reports[k]) else if k == |w.reports| then Messages(w.sent) else []
  }

  /**
   * A taken command's channel carries its messages and then one completion; after it nothing but tool calls that were
   * taken up before.
   */
  lemma {:induction false} ChannelIsReport(commands: seq<Command>, remote: Option<string>, log: seq<Entry>, k: nat)
    requires Watched(commands, remote, log).ok
    ensures Channel(k, log) == ChannelOf(Watched(commands, remote, log), k)
    decreases |log|
  {
    if log != [] {
      var before := log[..|log| - 1];
      ChannelIsReport(commands, remote, before, k);
      ChannelStep(commands, Watched(commands, remote, before), log[|log| - 1], k, Channel(k, before));
    }
  }

  lemma {:induction false} ChannelStep(commands: seq<Command>, w: Watch, entry: Entry, k: nat, before: seq<Message>)
    requires Observe(commands, w, entry).ok && before == ChannelOf(w, k)
    ensures ChannelOf(Observe(commands, w, entry), k) ==
              match entry
              case Put(c, sent) => if c == k then before + [Message(sent)] else before
              case Done(c, outcome) => if c == k then before + [DoneMessage(outcome)] else before
              case _ => before
  {
    match entry
    case Put(c, sent) => PutStep(w, c, sent, k);
    case Done(c, outcome) =>
      assert Messages(Repeated(CallSent, 0)) == [] && Messages([]) == [];
    case _ =>
  }

  lemma {:induction false} PutStep(w: Watch, c: nat, sent: Sent, k: nat)
    requires ObservePut(w, c, sent).ok
    ensures ChannelOf(ObservePut(w, c, sent), k) == if c == k then ChannelOf(w, k) + [Message(sent)] else ChannelOf(w, k)
  {
    if c == k && c < |w.reports| {
      var n := w.reports[c].stragglers;
      assert Messages(Repeated(CallSent, n + 1)) == Messages(Repeated(CallSent, n)) + [Message(CallSent)];
    } else if c == k {
      assert Messages(w.sent + [sent]) == Messages(w.sent) + [Message(sent)];
    }
  }

  // ---------------------------------------------------------------- the executor's end of the channel

  datatype Work = Emit(n: nat) | CallTool(n: nat) | Finish(outcome: Outcome)

  /** What the host was asked and what each tool call was answered with; `n` numbers the messages. */
  datatype Trace = Trace(emitted: seq<nat>, invoked: seq<nat>, answered: seq<nat>)

  datatype Received = HostFailed(n: nat) | WorkerDone(outcome: Outcome) | Closed

  /** The first message at which the host fails. */
  function FirstFailure(work: seq<Work>, fails: nat -> bool): Option<nat>
    decreases |work|
  {
    if work == [] then None
    else
      var earlier := FirstFailure(work[..|work| - 1], fails);
      var last := work[|work| - 1];
      if earlier.Some? then earlier
      else if last.Emit? && fails(last.n) then Some(last.n) else None
  }

  /** All events up to and with the first the host refuses, all tool calls before it, and an answer to every call. */
  function Handled(work: seq<Work>, fails: nat -> bool): Trace
    decreases |work|
  {
    if work == [] then Trace([], [], [])
    else
      var before, t := work[..|work| - 1], Handled(work[..|work| - 1], fails);
      match work[|work| - 1]
      case Emit(n) => if FirstFailure(before, fails).Some? then t else Trace(t.emitted + [n], t.invoked, t.answered)
      case CallTool(n) =>
        Trace(t.emitted, if FirstFailure(before, fails).Some? then t.invoked else t.invoked + [n], t.answered + [n])
      case Finish(_) => t
  }

  /** The numbers of the tool calls. */
  function Calls(work: seq<Work>): seq<nat>
    decreases |work|
  {
    if work == [] then []
    else
      var last := work[|work| - 1];
      Calls(work[..|work| - 1]) + if last.CallTool? then [last.n] else []
  }

  /** The numbers of the events. */
  function Events(work: seq<Work>): seq<nat>
    decreases |work|
  {
    if work == [] then []
    else
      var last := work[|work| - 1];
      Events(work[..|work| - 1]) + if last.Emit? then [last.n] else []
  }

  predicate Refused(work: Work, fails: nat -> bool) {
    work.Emit? && fails(work.n)
  }

  /** The host refuses message i and none before it. */
  predicate RefusesFirst(work: seq<Work>, fails: nat -> bool, i: nat) {
    i < |work| && Refused(work[i], fails) && forall j :: 0 <= j < i ==> !Refused(work[j], fails)
  }

  /**
   * Every tool call is answered, once and in order. The host is given all events up to and with the first it refuses,
   * and asked all tool calls before that one and nothing after it; the refused event is the one that is reported.
   */
  lemma {:induction false} CallsAreAnswered(work: seq<Work>, fails: nat -> bool)
    ensures Handled(work, fails).answered == Calls(work)
    ensures (forall i :: 0 <= i < |work| ==> !Refused(work[i], fails)) ==>
              && FirstFailure(work, fails) == None
              && Handled(work, fails).emitted == Events(work) && Handled(work, fails).invoked == Calls(work)
    ensures forall i :: 0 <= i < |work| && RefusesFirst(work, fails, i) ==>
              && FirstFailure(work, fails) == Some(work[i].n)
              && Handled(work, fails).emitted == Events(work[..i + 1]) && Handled(work, fails).invoked == Calls(work[..i])
    decreases |work|
  {
    if work != [] {
      var before, last := work[..|work| - 1], |work| - 1;
      assert forall j :: 0 <= j < last ==> before[j] == work[j];
      CallsAreAnswered(before, fails);
      forall i | 0 <= i < |work| && RefusesFirst(work, fails, i)
        ensures FirstFailure(work, fails) == Some(work[i].n)
        ensures Handled(work, fails).emitted == Events(work[..i + 1]) && Handled(work, fails).invoked == Calls(work[..i])
      {
        if i < last {
          assert RefusesFirst(before, fails, i);
          assert before[..i + 1] == work[..i + 1] && before[..i] == work[..i];
        } else {
          assert work[..i + 1] == work;
        }
      }
    }
  }

  /** The messages before the first completion. */
  function UpToFinish(work: seq<Work>): (r: nat)
    ensures r <= |work| && (forall i :: 0 <= i < r ==> !work[i].Finish?) && (r < |work| ==> work[r].Finish?)
    decreases |work|
  {
    if work == [] || work[0].Finish? then 0 else 1 + UpToFinish(work[1..])
  }

  /** Reads to the first completion or the channel's end; the host's first failure wins over the worker's result. */
  method ReceiveWorkerMessages(work: seq<Work>, fails: nat -> bool) returns (result: Received, trace: Trace)
    ensures var end := UpToFinish(work);
            && trace == Handled(work[..end], fails)
            && result == match FirstFailure(work[..end], fails)
                         case Some(n) => HostFailed(n)
                         case None => if end < |work| then WorkerDone(work[end].outcome) else Closed
  {
    var hostError: Option<nat> := None;
    trace := Trace([], [], []);
    var i := 0;
    while i < |work|
      invariant i <= UpToFinish(work)
      invariant hostError == FirstFailure(work[..i], fails) && trace == Handled(work[..i], fails)
    {
      assert work[..i + 1][..i] == work[..i];
      match work[i] {
        case Emit(n) =>
          if hostError.None? {
            trace := Trace(trace.emitted + [n], trace.invoked, trace.answered);
            if fails(n) {
              hostError := Some(n);
            }
          }
        case CallTool(n) =>
          if hostError.None? {
            trace := Trace(trace.emitted, trace.invoked + [n], trace.answered);
          }
          trace := Trace(trace.emitted, trace.invoked, trace.answered + [n]);
        case Finish(outcome) =>
          result := if hostError.Some? then HostFailed(hostError.value) else WorkerDone(outcome);
          return;
      }
      i := i + 1;
    }
    result := if hostError.Some? then HostFailed(hostError.value) else Closed;
  }

  // ---------------------------------------------------------------- both ends of one channel

  /** The messages of a channel as the executor takes them, numbered from the first. */
  function WorkOf(messages: seq<Message>): (r: seq<Work>)
    ensures |r| == |messages|
    ensures forall i :: 0 <= i < |r| ==> r[i] == match messages[i]
                                                  case Message(EventSent) => Emit(i)
                                                  case Message(CallSent) => CallTool(i)
                                                  case DoneMessage(outcome) => Finish(outcome)
  {
    if messages == [] then []
    else
      var last := |messages| - 1;
      WorkOf(messages[..last]) + [match messages[last]
                                  case Message(EventSent) => Emit(last)
                                  case Message(CallSent) => CallTool(last)
                                  case DoneMessage(outcome) => Finish(outcome)]
  }

  lemma {:induction false} FinishAt(work: seq<Work>, end: nat)
    requires end < |work| && work[end].Finish? && forall i :: 0 <= i < end ==> !work[i].Finish?
    ensures UpToFinish(work) == end
  {
  }

  /**
   * The executor that reads the channel of a finished command takes exactly the command's messages and ends with its
   * outcome; calls that come too late are not taken.
   */
  lemma {:induction false} ExecutorGetsReport(commands: seq<Command>, remote: Option<string>, log: seq<Entry>, k: nat)
    requires Watched(commands, remote, log).ok && k < |Watched(commands, remote, log).reports|
    ensures var report, work := Watched(commands, remote, log).reports[k], WorkOf(Channel(k, log));
            && UpToFinish(work) == |report.sent| < |work| && work[|report.sent|] == Finish(report.outcome)
            && forall i :: 0 <= i < |report.sent| ==> work[i] == if report.sent[i].EventSent? then Emit(i) else CallTool(i)
  {
    ChannelIsReport(commands, remote, log, k);
    var report, messages := Watched(commands, remote, log).reports[k], Channel(k, log);
    assert messages[|report.sent|] == DoneMessage(report.outcome);
    assert forall i :: 0 <= i < |report.sent| ==> messages[i] == Message(report.sent[i]);
    FinishAt(WorkOf(messages), |report.sent|);
  }
}
