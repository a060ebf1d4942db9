/**
 * What one call on the Lua facade's session cache does, as functions on values.
 *
 * `Facade.dfy` has the class that changes these fields in place and is proved equal to these functions;
 * the theorems about whole runs are in `FacadeRuns.dfy`.
 */
module FacadeSpec {
  import opened Wrappers
  import opened Text

  const U64_MAX: nat := 0xFFFF_FFFF_FFFF_FFFF

  /** `saturating_add(1)` on a u64. */
  function SaturatingSucc(n: nat): nat {
    if n < U64_MAX then n + 1 else U64_MAX
  }

  datatype Change = Execution(executionId: string) | Renamed(title: string) | OtherChange(body: string)

  datatype Update = Update(session: string, sequence: nat, change: Change)

  datatype Info = Info(session: string, title: Option<string>, directory: string)

  /** A `SessionProjection`; a `SessionSnapshot` has the same three fields. */
  datatype Projection = Projection(info: Info, through: nat, updates: seq<Update>)

  datatype Reason = Create | Resume | Repair

  datatype Event = Status | Snapshot(projection: Projection, reason: Reason) | Live(update: Update)

  datatype Phase = Connecting | Ready | Failed | Closed

  /** The errors the facade records; `Reported` carries the text of an error made elsewhere. */
  datatype Failure = InvalidSessionId | RepairNotScheduled | NotAnApplicationAnswer | Reported(text: string)

  /** What polling a repair request yields. */
  datatype Outcome =
    | Pending
    | Answered(snapshot: Projection)
    | NotApplication
    | Undecodable(error: Failure)
    | Rejected(error: Failure)

  /**
   * The facade's fields. The last three record what the outside has seen: events handed to the consumer,
   * how many repair requests were submitted, and which accepted ones were not yet consumed.
   */
  datatype State = State(
    phase: Phase,
    error: Option<Failure>,
    events: seq<Event>,
    sessions: map<string, Projection>,
    sessionInfo: map<string, Info>,
    repairs: map<string, nat>,
    backlog: map<string, seq<Update>>,
    latestExecution: map<string, string>,
    drained: seq<Event>,
    submitted: nat,
    open: set<nat>
  )

  const InitialState: State :=
    State(Connecting, None, [Status], map[], map[], map[], map[], map[], [], 0, {})

  predicate IdentifierChar(c: char) {
    'a' <= c <= 'z' || 'A' <= c <= 'Z' || '0' <= c <= '9'
    || c == '.' || c == '_' || c == '-' || c == '/' || c == ':' || c == '@'
  }

  /** `SessionId::parse` accepts the text. */
  predicate ValidSessionId(id: string) {
    id != "" && forall i :: 0 <= i < |id| ==> IdentifierChar(id[i])
  }

  function Fail(s: State, error: Failure): State {
    s.(phase := Failed, error := Some(error), events := s.events + [Status])
  }

  /**
   * `schedule_repair`. `accepts(n)` says whether the worker takes the n-th submission; it fails once
   * the command channel is gone.
   */
  function Schedule(s: State, key: string, accepts: nat -> bool): (r: State)
    ensures r.sessions == s.sessions && r.backlog == s.backlog && r.drained == s.drained
    ensures r.events == s.events || (r.events == s.events + [Status] && r.error.Some?)
    ensures key in r.repairs || r.error.Some?
  {
    if key in s.repairs then s
    else if !ValidSessionId(key) then Fail(s, InvalidSessionId)
    else if accepts(s.submitted) then
      s.(repairs := s.repairs[key := s.submitted], submitted := s.submitted + 1, open := s.open + {s.submitted})
    else Fail(s.(submitted := s.submitted + 1), RepairNotScheduled)
  }

  function BacklogOf(s: State, key: string): seq<Update> {
    if key in s.backlog then s.backlog[key] else []
  }

  function Stash(s: State, key: string, update: Update): State {
    s.(backlog := s.backlog[key := BacklogOf(s, key) + [update]])
  }

  function Retitle(info: Info, change: Change): Info {
    if change.Renamed? then info.(title := Some(change.title)) else info
  }

  /** `apply_valid_update`: the caller has checked that the session is cached. */
  function Append(s: State, key: string, update: Update): State
    requires key in s.sessions
  {
    var current := s.sessions[key];
    var info := Retitle(current.info, update.change);
    s.(latestExecution :=
         if update.change.Execution? then s.latestExecution[key := update.change.executionId] else s.latestExecution,
       sessions := s.sessions[key := Projection(info, update.sequence, current.updates + [update])],
       sessionInfo := s.sessionInfo[key := info],
       events := s.events + [Live(update), Status])
  }

  /** `ingest_session_update`. */
  function Ingest(s: State, update: Update, accepts: nat -> bool): State {
    var key := update.session;
    if key !in s.sessions then Schedule(Stash(s, key, update), key, accepts)
    else if update.sequence <= s.sessions[key].through then s
    else if update.sequence != SaturatingSucc(s.sessions[key].through) then
      Schedule(Stash(s, key, update), key, accepts)
    else Append(s, key, update)
  }

  function IngestAll(s: State, updates: seq<Update>, accepts: nat -> bool): State
    decreases |updates|
  {
    if updates == [] then s else IngestAll(Ingest(s, updates[0], accepts), updates[1..], accepts)
  }

  predicate SortedBySequence(us: seq<Update>) {
    forall i, j :: 0 <= i < j < |us| ==> us[i].sequence <= us[j].sequence
  }

  function InsertBySequence(u: Update, us: seq<Update>): (r: seq<Update>)
    requires SortedBySequence(us)
    ensures SortedBySequence(r) && |r| == |us| + 1
    ensures forall v :: v in r <==> v == u || v in us
  {
    if us == [] || u.sequence <= us[0].sequence then [u] + us
    else
      var rest := InsertBySequence(u, us[1..]);
      assert forall v | v in us[1..] :: us[0].sequence <= v.sequence;
      assert forall j :: 0 <= j < |rest| ==> rest[j] in rest;
      [us[0]] + rest
  }

  /** The library's stable `sort_by_key` on the sequence number. */
  function SortBySequence(us: seq<Update>): (r: seq<Update>)
    ensures SortedBySequence(r) && |r| == |us|
    ensures forall v :: v in r <==> v in us
  {
    if us == [] then [] else InsertBySequence(us[0], SortBySequence(us[1..]))
  }

  /** `replay_backlog`: take the session's backlog out, sort it, ingest it again. */
  function Replay(s: State, key: string, accepts: nat -> bool): State {
    IngestAll(s.(backlog := s.backlog - {key}), SortBySequence(BacklogOf(s, key)), accepts)
  }

  /** The unconditional overwrite at the start of `install_snapshot`. */
  function Overwrite(s: State, p: Projection, reason: Reason): State {
    s.(sessionInfo := s.sessionInfo[p.info.session := p.info],
       sessions := s.sessions[p.info.session := p],
       events := s.events + [Snapshot(p, reason), Status])
  }

  function Install(s: State, p: Projection, reason: Reason, accepts: nat -> bool): State {
    Replay(Overwrite(s, p, reason), p.info.session, accepts)
  }

  /** `install_created_session` does not replay the backlog. */
  function InstallCreated(s: State, info: Info): State {
    Overwrite(s, Projection(info, 0, []), Create)
  }

  function Poll(polls: map<nat, Outcome>, request: nat): Outcome {
    if request in polls then polls[request] else Pending
  }

  /** One turn of the loop in `drive_repairs`. */
  function DriveOne(s: State, key: string, request: nat, outcome: Outcome, accepts: nat -> bool): State {
    match outcome
    case Pending => s.(repairs := s.repairs[key := request])
    case Answered(p) => Install(s.(open := s.open - {request}), p, Repair, accepts)
    case NotApplication => Fail(s.(open := s.open - {request}), NotAnApplicationAnswer)
    case Undecodable(error) => Fail(s.(open := s.open - {request}), error)
    case Rejected(error) => Fail(s.(open := s.open - {request}), error)
  }

  function DriveAll(s: State, taken: map<string, nat>, order: seq<string>, polls: map<nat, Outcome>,
                    accepts: nat -> bool): State
    requires forall k :: k in order ==> k in taken
    decreases |order|
  {
    if order == [] then s
    else
      var key := order[0];
      DriveAll(DriveOne(s, key, taken[key], Poll(polls, taken[key]), accepts), taken, order[1..], polls, accepts)
  }

  /** `order` lists every key once. */
  predicate Enumerates(order: seq<string>, keys: set<string>) {
    && (forall k | k in order :: k in keys)
    && (forall k | k in keys :: k in order)
    && (forall i, j :: 0 <= i < j < |order| ==> order[i] != order[j])
  }

  /** The order in which the program's map gives its keys. */
  predicate InKeyOrder(order: seq<string>, keys: set<string>) {
    Enumerates(order, keys) && Ascending(order)
  }

  predicate Ascending(order: seq<string>) {
    forall i, j :: 0 <= i < j < |order| ==> Before(order[i], order[j])
  }

  /** `drive_repairs`: the table is emptied first and refilled while its old contents are visited. */
  function Drive(s: State, order: seq<string>, polls: map<nat, Outcome>, accepts: nat -> bool): State
    requires Enumerates(order, s.repairs.Keys)
  {
    DriveAll(s.(repairs := map[]), s.repairs, order, polls, accepts)
  }

  function PushStatus(s: State): State {
    s.(events := s.events + [Status])
  }

  /** The answer to a rename request changes the cached session record without an update. */
  function RenameCached(s: State, info: Info): State {
    PushStatus(s.(
      sessionInfo := s.sessionInfo[info.session := info],
      sessions := if info.session in s.sessions
                  then s.sessions[info.session := s.sessions[info.session].(info := info)] else s.sessions))
  }

  function Drain(s: State, count: nat): State {
    var n := if count <= |s.events| then count else |s.events|;
    s.(drained := s.drained + s.events[..n], events := s.events[n..])
  }

  /** One thing that happens to the facade: an arrival, an answer, a consumer call. */
  datatype Action =
    | Arrive(update: Update)
    | ArriveUndecodable(error: Failure)
    | Created(info: Info)
    | Resumed(snapshot: Projection)
    | RenameAnswered(info: Info)
    | Listed(infos: seq<Info>)
    | Prompted(session: string, executionId: string)
    | OtherAnswer
    | Bootstrapped(missing: Option<Failure>)
    | TerminalError(error: Failure)
    | DriveRepairs(order: seq<string>, polls: map<nat, Outcome>)
    | Close
    | DrainEvents(count: nat)

  function RecordInfos(known: map<string, Info>, infos: seq<Info>): map<string, Info>
    decreases |infos|
  {
    if infos == [] then known else RecordInfos(known[infos[0].session := infos[0]], infos[1..])
  }

  /** An action can happen in a state: a repair pass visits exactly the requests in the table, in key order. */
  predicate Enabled(s: State, a: Action) {
    a.DriveRepairs? ==> InKeyOrder(a.order, s.repairs.Keys)
  }

  /** The actions that leave sessions, backlog and repairs alone. */
  function StepStatus(s: State, a: Action): (r: State)
    ensures r.sessions == s.sessions && r.backlog == s.backlog && r.drained == s.drained
    ensures r.repairs == s.repairs && r.open == s.open && r.submitted == s.submitted
    ensures r.events == s.events || r.events == s.events + [Status]
    ensures s.error.Some? ==> r.error.Some?
  {
    match a
    case ArriveUndecodable(error) => Fail(s, error)
    case Listed(infos) => s.(sessionInfo := RecordInfos(s.sessionInfo, infos))
    case Prompted(session, executionId) => PushStatus(s.(latestExecution := s.latestExecution[session := executionId]))
    case OtherAnswer => PushStatus(s)
    case Bootstrapped(missing) =>
      if missing.None? then PushStatus(s.(phase := Ready)) else Fail(s, missing.value)
    case TerminalError(error) => if s.phase == Failed then s else Fail(s, error)
    case Close => PushStatus(s.(phase := Closed))
    case _ => s
  }

  function Step(s: State, a: Action, accepts: nat -> bool): State
    requires Enabled(s, a)
  {
    match a
    case Arrive(update) => Ingest(s, update, accepts)
    case Created(info) => InstallCreated(s, info)
    case Resumed(snapshot) => Install(s, snapshot, Resume, accepts)
    case RenameAnswered(info) => RenameCached(s, info)
    case DriveRepairs(order, polls) => Drive(s, order, polls, accepts)
    case DrainEvents(count) => Drain(s, count)
    case _ => StepStatus(s, a)
  }

  /** The actions can happen one after the other, starting in `s`. */
  predicate Runnable(s: State, actions: seq<Action>, accepts: nat -> bool)
    decreases |actions|
  {
    actions == [] ||
    (Enabled(s, actions[0]) && Runnable(Step(s, actions[0], accepts), actions[1..], accepts))
  }

  function Run(s: State, actions: seq<Action>, accepts: nat -> bool): State
    requires Runnable(s, actions, accepts)
    decreases |actions|
  {
    if actions == [] then s else Run(Step(s, actions[0], accepts), actions[1..], accepts)
  }
}
