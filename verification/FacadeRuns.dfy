/** What the facade keeps over every run: the cache is a log prefix, the events tell it, no gap is lost. */
module FacadeRuns {
  import opened Wrappers
  import opened FacadeSpec

  // ---------------------------------------------------------------- prefix safety

  /** The server's log of each session: entry i of a session's log carries sequence number i + 1. */
  type Log = string -> seq<Update>

  ghost predicate IsLog(log: Log) {
    forall k: string, i :: 0 <= i < |log(k)| ==> log(k)[i].session == k && log(k)[i].sequence == i + 1
  }

  predicate FromLog(log: Log, u: Update) {
    1 <= u.sequence <= |log(u.session)| && log(u.session)[u.sequence - 1] == u
  }

  predicate PrefixOf(log: Log, p: Projection) {
    p.through <= |log(p.info.session)| && p.updates == log(p.info.session)[..p.through]
  }

  /** Deliveries come from the logs, in any order and number; snapshots are log prefixes, old or new. */
  predicate Faithful(log: Log, a: Action) {
    match a
    case Arrive(u) => FromLog(log, u)
    case Resumed(p) => PrefixOf(log, p)
    case DriveRepairs(_, polls) => FaithfulPolls(log, polls)
    case _ => true
  }

  predicate CacheIsPrefix(log: Log, sessions: map<string, Projection>) {
    forall k | k in sessions :: sessions[k].info.session == k && PrefixOf(log, sessions[k])
  }

  predicate AllFromLog(log: Log, key: string, us: seq<Update>) {
    forall u | u in us :: u.session == key && FromLog(log, u)
  }

  predicate BacklogFromLog(log: Log, backlog: map<string, seq<Update>>) {
    forall k | k in backlog :: AllFromLog(log, k, backlog[k])
  }

  predicate PrefixInv(log: Log, s: State) {
    CacheIsPrefix(log, s.sessions) && BacklogFromLog(log, s.backlog)
  }

  lemma {:induction false} IngestKeepsPrefix(log: Log, s: State, u: Update, accepts: nat -> bool)
    requires PrefixInv(log, s) && FromLog(log, u)
    ensures PrefixInv(log, Ingest(s, u, accepts))
  {
    var k := u.session;
    if k in s.sessions && u.sequence == SaturatingSucc(s.sessions[k].through) && u.sequence > s.sessions[k].through {
      assert log(k)[..u.sequence] == log(k)[..u.sequence - 1] + [u];
      assert PrefixOf(log, Append(s, k, u).sessions[k]);
    } else {
      assert AllFromLog(log, k, BacklogOf(s, k) + [u]);
    }
  }

  lemma {:induction false} IngestAllKeepsPrefix(log: Log, s: State, us: seq<Update>, accepts: nat -> bool)
    requires PrefixInv(log, s) && forall u | u in us :: FromLog(log, u)
    ensures PrefixInv(log, IngestAll(s, us, accepts))
    decreases |us|
  {
    if us != [] {
      IngestKeepsPrefix(log, s, us[0], accepts);
      IngestAllKeepsPrefix(log, Ingest(s, us[0], accepts), us[1..], accepts);
    }
  }

  lemma {:induction false} InstallKeepsPrefix(log: Log, s: State, p: Projection, reason: Reason, accepts: nat -> bool)
    requires PrefixInv(log, s) && PrefixOf(log, p)
    ensures PrefixInv(log, Install(s, p, reason, accepts))
  {
    var s1 := Overwrite(s, p, reason);
    var k := p.info.session;
    IngestAllKeepsPrefix(log, s1.(backlog := s1.backlog - {k}), SortBySequence(BacklogOf(s1, k)), accepts);
  }

  predicate FaithfulPolls(log: Log, polls: map<nat, Outcome>) {
    forall r | r in polls :: polls[r].Answered? ==> PrefixOf(log, polls[r].snapshot)
  }

  lemma {:induction false} DriveOneKeepsPrefix(log: Log, s: State, key: string, request: nat, outcome: Outcome, accepts: nat -> bool)
    requires PrefixInv(log, s) && (outcome.Answered? ==> PrefixOf(log, outcome.snapshot))
    ensures PrefixInv(log, DriveOne(s, key, request, outcome, accepts))
  {
    if outcome.Answered? {
      InstallKeepsPrefix(log, s.(open := s.open - {request}), outcome.snapshot, Repair, accepts);
    }
  }

  lemma {:induction false} DriveAllKeepsPrefix(log: Log, s: State, taken: map<string, nat>, order: seq<string>,
                            polls: map<nat, Outcome>, accepts: nat -> bool)
    requires forall k :: k in order ==> k in taken
    requires PrefixInv(log, s) && FaithfulPolls(log, polls)
    ensures PrefixInv(log, DriveAll(s, taken, order, polls, accepts))
    decreases |order|
  {
    if order != [] {
      var request := taken[order[0]];
      var outcome := Poll(polls, request);
      DriveOneKeepsPrefix(log, s, order[0], request, outcome, accepts);
      DriveAllKeepsPrefix(log, DriveOne(s, order[0], request, outcome, accepts), taken, order[1..], polls, accepts);
    }
  }

  lemma {:induction false} StepKeepsPrefix(log: Log, s: State, a: Action, accepts: nat -> bool)
    requires PrefixInv(log, s) && Faithful(log, a) && Enabled(s, a)
    ensures PrefixInv(log, Step(s, a, accepts))
  {
    match a
    case Arrive(u) => IngestKeepsPrefix(log, s, u, accepts);
    case Resumed(p) => InstallKeepsPrefix(log, s, p, Resume, accepts);
    case DriveRepairs(order, polls) =>
      DriveAllKeepsPrefix(log, s.(repairs := map[]), s.repairs, order, polls, accepts);
    case _ =>
  }

  lemma {:induction false} RunKeepsPrefix(log: Log, s: State, actions: seq<Action>, accepts: nat -> bool)
    requires PrefixInv(log, s) && Runnable(s, actions, accepts)
    requires forall a | a in actions :: Faithful(log, a)
    ensures PrefixInv(log, Run(s, actions, accepts))
    decreases |actions|
  {
    if actions != [] {
      StepKeepsPrefix(log, s, actions[0], accepts);
      RunKeepsPrefix(log, Step(s, actions[0], accepts), actions[1..], accepts);
    }
  }

  /**
   * Prefix safety. However deliveries are delayed, repeated, reordered or lost and however old a snapshot is,
   * every cached projection is the log prefix ending at its own position: numbered 1, 2, ... without a hole.
   */
  lemma {:induction false} PrefixSafety(log: Log, actions: seq<Action>, accepts: nat -> bool)
    requires IsLog(log) && Runnable(InitialState, actions, accepts)
    requires forall a | a in actions :: Faithful(log, a)
    ensures CacheIsPrefix(log, Run(InitialState, actions, accepts).sessions)
    ensures var sessions := Run(InitialState, actions, accepts).sessions;
            forall k | k in sessions ::
              && |sessions[k].updates| == sessions[k].through
              && forall i :: 0 <= i < |sessions[k].updates| ==>
                   sessions[k].updates[i].session == k && sessions[k].updates[i].sequence == i + 1
  {
    RunKeepsPrefix(log, InitialState, actions, accepts);
  }

  // ---------------------------------------------------------------- the event stream refines the cache

  /** What a consumer reconstructs: the position and the updates of each session. */
  type Seen = map<string, (nat, seq<Update>)>

  function Observe(seen: Seen, e: Event): Seen {
    match e
    case Status => seen
    case Snapshot(p, _) => seen[p.info.session := (p.through, p.updates)]
    case Live(u) => if u.session in seen then seen[u.session := (u.sequence, seen[u.session].1 + [u])] else seen
  }

  function Fold(events: seq<Event>): Seen {
    if events == [] then map[] else Observe(Fold(events[..|events| - 1]), events[|events| - 1])
  }

  /** Each update event is one past the snapshot or update event before it for its session. */
  predicate Continuous(events: seq<Event>) {
    forall i :: 0 <= i < |events| && events[i].Live? ==>
      var seen := Fold(events[..i]);
      var u := events[i].update;
      u.session in seen && u.sequence == seen[u.session].0 + 1
  }

  function Cached(sessions: map<string, Projection>): Seen {
    map k | k in sessions :: (sessions[k].through, sessions[k].updates)
  }

  predicate Keyed(s: State) {
    forall k | k in s.sessions :: s.sessions[k].info.session == k
  }

  predicate EventInv(s: State) {
    Keyed(s) && Fold(s.drained + s.events) == Cached(s.sessions) && Continuous(s.drained + s.events)
  }

  lemma {:induction false} Push(events: seq<Event>, e: Event)
    requires Continuous(events)
    requires e.Live? ==> e.update.session in Fold(events) && e.update.sequence == Fold(events)[e.update.session].0 + 1
    ensures Fold(events + [e]) == Observe(Fold(events), e) && Continuous(events + [e])
  {
    var es := events + [e];
    assert es[..|events|] == events;
    forall i | 0 <= i < |es| && es[i].Live?
      ensures es[i].update.session in Fold(es[..i]) && es[i].update.sequence == Fold(es[..i])[es[i].update.session].0 + 1
    {
      if i < |events| {
        assert es[..i] == events[..i];
      }
    }
  }

  /** Queueing one event keeps the agreement when the cache changes as a consumer of that event expects. */
  lemma {:induction false} PushKeeps(s: State, e: Event, s': State)
    requires EventInv(s) && Keyed(s')
    requires e.Live? ==> e.update.session in s.sessions && e.update.sequence == s.sessions[e.update.session].through + 1
    requires s'.drained == s.drained && s'.events == s.events + [e]
    requires Cached(s'.sessions) == Observe(Cached(s.sessions), e)
    ensures EventInv(s')
  {
    Push(s.drained + s.events, e);
    assert s'.drained + s'.events == (s.drained + s.events) + [e];
  }

  lemma {:induction false} StatusKeeps(s: State, s': State)
    requires EventInv(s)
    requires s'.drained == s.drained && s'.sessions == s.sessions
    requires s'.events == s.events || s'.events == s.events + [Status]
    ensures EventInv(s')
  {
    if s'.events != s.events {
      PushKeeps(s, Status, s');
    }
  }

  lemma {:induction false} AppendKeepsEvents(s: State, k: string, u: Update)
    requires EventInv(s) && u.session == k && k in s.sessions && u.sequence == s.sessions[k].through + 1
    ensures EventInv(Append(s, k, u))
  {
    var s2 := Append(s, k, u);
    var s1 := s2.(events := s.events + [Live(u)]);
    PushKeeps(s, Live(u), s1);
    assert s2.events == s1.events + [Status];
    StatusKeeps(s1, s2);
  }

  lemma {:induction false} IngestKeepsEvents(s: State, u: Update, accepts: nat -> bool)
    requires EventInv(s)
    ensures EventInv(Ingest(s, u, accepts))
  {
    var k := u.session;
    if k in s.sessions && u.sequence > s.sessions[k].through && u.sequence == SaturatingSucc(s.sessions[k].through) {
      AppendKeepsEvents(s, k, u);
    } else {
      StatusKeeps(s, Ingest(s, u, accepts));
    }
  }

  lemma {:induction false} IngestAllKeepsEvents(s: State, us: seq<Update>, accepts: nat -> bool)
    requires EventInv(s)
    ensures EventInv(IngestAll(s, us, accepts))
    decreases |us|
  {
    if us != [] {
      IngestKeepsEvents(s, us[0], accepts);
      IngestAllKeepsEvents(Ingest(s, us[0], accepts), us[1..], accepts);
    }
  }

  lemma {:induction false} OverwriteKeepsEvents(s: State, p: Projection, reason: Reason)
    requires EventInv(s)
    ensures EventInv(Overwrite(s, p, reason))
  {
    var s2 := Overwrite(s, p, reason);
    var s1 := s2.(events := s.events + [Snapshot(p, reason)]);
    PushKeeps(s, Snapshot(p, reason), s1);
    assert s2.events == s1.events + [Status];
    StatusKeeps(s1, s2);
  }

  lemma {:induction false} InstallKeepsEvents(s: State, p: Projection, reason: Reason, accepts: nat -> bool)
    requires EventInv(s)
    ensures EventInv(Install(s, p, reason, accepts))
  {
    OverwriteKeepsEvents(s, p, reason);
    var s1 := Overwrite(s, p, reason);
    var k := p.info.session;
    IngestAllKeepsEvents(s1.(backlog := s1.backlog - {k}), SortBySequence(BacklogOf(s1, k)), accepts);
  }

  lemma {:induction false} DriveOneKeepsEvents(s: State, key: string, request: nat, outcome: Outcome, accepts: nat -> bool)
    requires EventInv(s)
    ensures EventInv(DriveOne(s, key, request, outcome, accepts))
  {
    if outcome.Answered? {
      InstallKeepsEvents(s.(open := s.open - {request}), outcome.snapshot, Repair, accepts);
    } else {
      StatusKeeps(s, DriveOne(s, key, request, outcome, accepts));
    }
  }

  lemma {:induction false} DriveAllKeepsEvents(s: State, taken: map<string, nat>, order: seq<string>, polls: map<nat, Outcome>,
                            accepts: nat -> bool)
    requires forall k :: k in order ==> k in taken
    requires EventInv(s)
    ensures EventInv(DriveAll(s, taken, order, polls, accepts))
    decreases |order|
  {
    if order != [] {
      var request := taken[order[0]];
      DriveOneKeepsEvents(s, order[0], request, Poll(polls, request), accepts);
      DriveAllKeepsEvents(DriveOne(s, order[0], request, Poll(polls, request), accepts), taken, order[1..], polls,
                          accepts);
    }
  }

  lemma {:induction false} DrainKeepsEvents(s: State, count: nat)
    requires EventInv(s)
    ensures EventInv(Drain(s, count))
  {
    assert Drain(s, count).drained + Drain(s, count).events == s.drained + s.events;
  }

  lemma {:induction false} RenameKeepsEvents(s: State, info: Info)
    requires EventInv(s)
    ensures EventInv(RenameCached(s, info))
  {
    PushKeeps(s, Status, RenameCached(s, info));
  }

  lemma {:induction false} StepKeepsEvents(s: State, a: Action, accepts: nat -> bool)
    requires EventInv(s) && Enabled(s, a)
    ensures EventInv(Step(s, a, accepts))
  {
    match a
    case Arrive(u) => IngestKeepsEvents(s, u, accepts);
    case Created(info) => OverwriteKeepsEvents(s, Projection(info, 0, []), Create);
    case Resumed(p) => InstallKeepsEvents(s, p, Resume, accepts);
    case RenameAnswered(info) => RenameKeepsEvents(s, info);
    case DriveRepairs(order, polls) => DriveKeepsEvents(s, order, polls, accepts);
    case DrainEvents(count) => DrainKeepsEvents(s, count);
    case _ => StatusKeeps(s, StepStatus(s, a));
  }

  lemma {:induction false} DriveKeepsEvents(s: State, order: seq<string>, polls: map<nat, Outcome>, accepts: nat -> bool)
    requires EventInv(s) && Enumerates(order, s.repairs.Keys)
    ensures EventInv(Drive(s, order, polls, accepts))
  {
    DriveAllKeepsEvents(s.(repairs := map[]), s.repairs, order, polls, accepts);
  }

  lemma {:induction false} RunKeepsEvents(s: State, actions: seq<Action>, accepts: nat -> bool)
    requires EventInv(s) && Runnable(s, actions, accepts)
    ensures EventInv(Run(s, actions, accepts))
    decreases |actions|
  {
    if actions != [] {
      StepKeepsEvents(s, actions[0], accepts);
      RunKeepsEvents(Step(s, actions[0], accepts), actions[1..], accepts);
    }
  }

  /**
   * The event stream refines the cache, whatever the server sends: folding all events ever queued gives the
   * position and updates of exactly the cached sessions, and update events continue their session one by one.
   */
  lemma {:induction false} EventsTellTheCache(actions: seq<Action>, accepts: nat -> bool)
    requires Runnable(InitialState, actions, accepts)
    ensures var s := Run(InitialState, actions, accepts);
            Fold(s.drained + s.events) == Cached(s.sessions) && Continuous(s.drained + s.events)
  {
    Push([], Status);
    assert [] + [Status] == InitialState.drained + InitialState.events;
    RunKeepsEvents(InitialState, actions, accepts);
  }

  // ---------------------------------------------------------------- no gap is forgotten

  /** Every stashed gap has a repair in the table, or in `rest` (still to visit in this pass), or an error is recorded. */
  predicate GapsWatched(s: State, rest: map<string, nat>) {
    forall k | k in s.backlog :: s.backlog[k] != [] && (k in s.repairs || k in rest || s.error.Some?)
  }

  predicate Injective(m: map<string, nat>) {
    forall k, l | k in m && l in m && m[k] == m[l] :: k == l
  }

  /** The open requests are exactly the ones held, each held for one session. */
  predicate RequestsHeld(s: State, rest: map<string, nat>) {
    && s.repairs.Keys !! rest.Keys
    && Injective(s.repairs + rest)
    && s.open == (s.repairs + rest).Values
    && forall r | r in s.open :: r < s.submitted
  }

  predicate GapInv(s: State, rest: map<string, nat>) {
    GapsWatched(s, rest) && RequestsHeld(s, rest)
  }

  /** Requests already in the table keep their session; new ones are for `key` and were not submitted before. */
  predicate OthersKept(s: State, s': State, key: string) {
    && (forall k | k in s.repairs :: k in s'.repairs && s'.repairs[k] == s.repairs[k])
    && (forall k | k in s'.repairs && k !in s.repairs :: k == key && s.submitted <= s'.repairs[k])
    && s.submitted <= s'.submitted
    && (s.error.Some? ==> s'.error.Some?)
  }

  lemma {:induction false} HoldOneMore(m: map<string, nat>, k: string, r: nat)
    requires Injective(m) && k !in m && r !in m.Values
    ensures Injective(m[k := r]) && m[k := r].Values == m.Values + {r}
  {
    var m' := m[k := r];
    forall v ensures v in m'.Values <==> v in m.Values + {r} {
      if v in m.Values {
        var l :| l in m && m[l] == v;
        assert m'[l] == v;
      }
      assert m'[k] == r;
    }
    forall x, y | x in m' && y in m' && m'[x] == m'[y] ensures x == y {
      assert x != k ==> m[x] in m.Values;
      assert y != k ==> m[y] in m.Values;
    }
  }

  lemma {:induction false} HoldOneLess(m: map<string, nat>, k: string)
    requires Injective(m) && k in m
    ensures Injective(m - {k}) && (m - {k}).Values == m.Values - {m[k]}
  {
    var m' := m - {k};
    forall v ensures v in m'.Values <==> v in m.Values - {m[k]} {
      if v in m.Values && v != m[k] {
        var l :| l in m && m[l] == v;
        assert m'[l] == v;
      }
    }
  }

  lemma {:induction false} SubmitHolds(s: State, key: string, s': State, rest: map<string, nat>)
    requires RequestsHeld(s, rest) && key !in rest && key !in s.repairs
    requires s'.repairs == s.repairs[key := s.submitted] && s'.open == s.open + {s.submitted}
    requires s'.submitted == s.submitted + 1
    ensures RequestsHeld(s', rest)
  {
    HoldOneMore(s.repairs + rest, key, s.submitted);
    assert s'.repairs + rest == (s.repairs + rest)[key := s.submitted];
  }

  lemma {:induction false} ScheduleHolds(s: State, key: string, accepts: nat -> bool, rest: map<string, nat>)
    requires RequestsHeld(s, rest) && key !in rest
    ensures RequestsHeld(Schedule(s, key, accepts), rest)
  {
    ScheduleIs(s, key, accepts);
    if Submits(s, key, accepts) {
      SubmitHolds(s, key, Schedule(s, key, accepts), rest);
    } else {
      HeldFrame(s, Schedule(s, key, accepts), rest);
    }
  }

  predicate Submits(s: State, key: string, accepts: nat -> bool) {
    key !in s.repairs && ValidSessionId(key) && accepts(s.submitted)
  }

  lemma {:induction false} ScheduleIs(s: State, key: string, accepts: nat -> bool)
    ensures var s' := Schedule(s, key, accepts);
            if Submits(s, key, accepts) then
              && s'.repairs == s.repairs[key := s.submitted] && s'.open == s.open + {s.submitted}
              && s'.submitted == s.submitted + 1 && s'.error == s.error
            else s'.repairs == s.repairs && s'.open == s.open && s.submitted <= s'.submitted && (s.error.Some? ==> s'.error.Some?)
  {
  }

  lemma {:induction false} ScheduleKeepsOthers(s: State, key: string, accepts: nat -> bool)
    ensures OthersKept(s, Schedule(s, key, accepts), key)
  {
    ScheduleIs(s, key, accepts);
    SameOrOneMore(s, Schedule(s, key, accepts), key);
  }

  lemma {:induction false} SameOrOneMore(s: State, s': State, key: string)
    requires s.submitted <= s'.submitted && (s.error.Some? ==> s'.error.Some?)
    requires s'.repairs == s.repairs || (key !in s.repairs && s'.repairs == s.repairs[key := s.submitted])
    ensures OthersKept(s, s', key)
  {
  }

  lemma {:induction false} HeldFrame(s: State, s': State, rest: map<string, nat>)
    requires RequestsHeld(s, rest)
    requires s'.repairs == s.repairs && s'.open == s.open && s.submitted <= s'.submitted
    ensures RequestsHeld(s', rest)
  {
  }

  lemma {:induction false} IngestHolds(s: State, u: Update, accepts: nat -> bool, rest: map<string, nat>)
    requires GapInv(s, rest) && u.session !in rest
    ensures GapInv(Ingest(s, u, accepts), rest)
    ensures OthersKept(s, Ingest(s, u, accepts), u.session)
  {
    var k := u.session;
    if k in s.sessions && (u.sequence <= s.sessions[k].through || u.sequence == SaturatingSucc(s.sessions[k].through)) {
    } else {
      ScheduleHolds(Stash(s, k, u), k, accepts, rest);
      ScheduleKeepsOthers(Stash(s, k, u), k, accepts);
    }
  }

  lemma {:induction false} IngestAllHolds(s: State, key: string, us: seq<Update>, accepts: nat -> bool, rest: map<string, nat>)
    requires GapInv(s, rest) && key !in rest && forall u | u in us :: u.session == key
    ensures GapInv(IngestAll(s, us, accepts), rest)
    ensures OthersKept(s, IngestAll(s, us, accepts), key)
    decreases |us|
  {
    if us != [] {
      IngestHolds(s, us[0], accepts, rest);
      IngestAllHolds(Ingest(s, us[0], accepts), key, us[1..], accepts, rest);
    }
  }

  /** Every stashed update waits under its own session. */
  predicate BacklogKeyed(s: State) {
    forall k | k in s.backlog :: AllFor(k, s.backlog[k])
  }

  predicate AllFor(key: string, us: seq<Update>) {
    forall u | u in us :: u.session == key
  }

  lemma {:induction false} IngestKeepsKeyed(s: State, u: Update, accepts: nat -> bool)
    requires BacklogKeyed(s)
    ensures BacklogKeyed(Ingest(s, u, accepts))
  {
    assert AllFor(u.session, BacklogOf(s, u.session) + [u]);
  }

  lemma {:induction false} IngestAllKeepsKeyed(s: State, us: seq<Update>, accepts: nat -> bool)
    requires BacklogKeyed(s)
    ensures BacklogKeyed(IngestAll(s, us, accepts))
    decreases |us|
  {
    if us != [] {
      IngestKeepsKeyed(s, us[0], accepts);
      IngestAllKeepsKeyed(Ingest(s, us[0], accepts), us[1..], accepts);
    }
  }

  lemma {:induction false} InstallHolds(s: State, p: Projection, reason: Reason, accepts: nat -> bool, rest: map<string, nat>)
    requires BacklogKeyed(s) && p.info.session !in rest && RequestsHeld(s, rest)
    requires GapsWatched(s.(backlog := s.backlog - {p.info.session}), rest)
    ensures var s' := Install(s, p, reason, accepts);
            BacklogKeyed(s') && GapInv(s', rest) && OthersKept(s, s', p.info.session)
  {
    var k := p.info.session;
    var s1 := Overwrite(s, p, reason);
    var s2 := s1.(backlog := s1.backlog - {k});
    var us := SortBySequence(BacklogOf(s1, k));
    IngestAllHolds(s2, k, us, accepts, rest);
    IngestAllKeepsKeyed(s2, us, accepts);
  }

  lemma {:induction false} DriveOneHolds(s: State, key: string, outcome: Outcome, accepts: nat -> bool, rest: map<string, nat>)
    requires BacklogKeyed(s) && GapInv(s, rest) && key in rest
    requires outcome.Answered? ==> outcome.snapshot.info.session == key
    ensures var s' := DriveOne(s, key, rest[key], outcome, accepts);
            && BacklogKeyed(s') && GapInv(s', rest - {key}) && OthersKept(s, s'.(repairs := s'.repairs - {key}), key)
            && (if outcome.Pending? then key in s'.repairs && s'.repairs[key] == rest[key]
                else key in s'.repairs ==> s.submitted <= s'.repairs[key])
  {
    if outcome.Pending? {
      assert s.repairs[key := rest[key]] + (rest - {key}) == s.repairs + rest;
    } else {
      var s0 := s.(open := s.open - {rest[key]});
      ConsumeHolds(s, key, rest, s0);
      if outcome.Answered? {
        InstallHolds(s0, outcome.snapshot, Repair, accepts, rest - {key});
      }
    }
  }

  /** Consuming the request of `key` leaves the others held. */
  lemma {:induction false} ConsumeHolds(s: State, key: string, rest: map<string, nat>, s0: State)
    requires RequestsHeld(s, rest) && key in rest && s0 == s.(open := s.open - {rest[key]})
    ensures RequestsHeld(s0, rest - {key})
  {
    assert s0.repairs + (rest - {key}) == (s.repairs + rest) - {key};
    HoldOneLess(s.repairs + rest, key);
  }

  /** Each request of a pass, when answered, is answered for the session it was asked about. */
  predicate AnswersAsked(taken: map<string, nat>, polls: map<nat, Outcome>) {
    forall k | k in taken :: Poll(polls, taken[k]).Answered? ==> Poll(polls, taken[k]).snapshot.info.session == k
  }

  /** What a pass over the requests `rest` does to the repair table, however each of them is answered. */
  predicate Driven(s: State, rest: map<string, nat>, polls: map<nat, Outcome>, s': State) {
    && s.submitted <= s'.submitted && (s.error.Some? ==> s'.error.Some?)
    && (forall k | k in s.repairs :: k in s'.repairs && s'.repairs[k] == s.repairs[k])
    && (forall k | k in rest :: if Poll(polls, rest[k]).Pending?
                                then k in s'.repairs && s'.repairs[k] == rest[k]
                                else k in s'.repairs ==> s.submitted <= s'.repairs[k])
    && (forall k | k in s'.repairs :: k in s.repairs || k in rest)
  }

  lemma {:induction false} DrivenFirst(s: State, rest: map<string, nat>, key: string, polls: map<nat, Outcome>, s1: State, s': State)
    requires key in rest && key !in s.repairs && OthersKept(s, s1.(repairs := s1.repairs - {key}), key)
    requires if Poll(polls, rest[key]).Pending? then key in s1.repairs && s1.repairs[key] == rest[key]
             else key in s1.repairs ==> s.submitted <= s1.repairs[key]
    requires Driven(s1, rest - {key}, polls, s')
    ensures Driven(s, rest, polls, s')
  {
  }

  /**
   * A pass over the repair table, started with the requests `rest` still to visit, loses and overwrites nothing:
   * what was refilled stays, a pending request goes back under its session, and a session whose request was
   * consumed has either no request or one submitted during the pass.
   */
  lemma {:induction false} DriveAllHolds(s: State, rest: map<string, nat>, order: seq<string>,
                                         polls: map<nat, Outcome>, accepts: nat -> bool)
    requires Enumerates(order, rest.Keys) && AnswersAsked(rest, polls)
    requires BacklogKeyed(s) && GapInv(s, rest)
    ensures var s' := DriveAll(s, rest, order, polls, accepts);
            BacklogKeyed(s') && GapInv(s', map[]) && Driven(s, rest, polls, s')
    decreases |order|
  {
    if order == [] {
      assert rest == map[];
    } else {
      var key := order[0];
      var rest' := rest - {key};
      var s1 := DriveOne(s, key, rest[key], Poll(polls, rest[key]), accepts);
      DriveOneHolds(s, key, Poll(polls, rest[key]), accepts, rest);
      DriveAllHolds(s1, rest', order[1..], polls, accepts);
      DriveAllSame(s1, rest, rest', order[1..], polls, accepts);
      DrivenFirst(s, rest, key, polls, s1, DriveAll(s1, rest', order[1..], polls, accepts));
    }
  }

  /** The pass looks up only the sessions it still visits. */
  lemma {:induction false} DriveAllSame(s: State, taken: map<string, nat>, taken': map<string, nat>, order: seq<string>,
                     polls: map<nat, Outcome>, accepts: nat -> bool)
    requires forall k :: k in order ==> k in taken && k in taken' && taken[k] == taken'[k]
    ensures DriveAll(s, taken, order, polls, accepts) == DriveAll(s, taken', order, polls, accepts)
    decreases |order|
  {
    if order != [] {
      var s1 := DriveOne(s, order[0], taken[order[0]], Poll(polls, taken[order[0]]), accepts);
      DriveAllSame(s1, taken, taken', order[1..], polls, accepts);
    }
  }

  /** `drive_repairs` as a whole: pending requests survive it untouched and no request is replaced. */
  lemma {:induction false} DriveLosesNoRequest(s: State, order: seq<string>, polls: map<nat, Outcome>, accepts: nat -> bool)
    requires Enumerates(order, s.repairs.Keys) && AnswersAsked(s.repairs, polls)
    requires BacklogKeyed(s) && GapInv(s, map[])
    ensures var s' := Drive(s, order, polls, accepts);
            && BacklogKeyed(s') && GapInv(s', map[])
            && (s.error.Some? ==> s'.error.Some?)
            && (forall k | k in s.repairs :: if Poll(polls, s.repairs[k]).Pending?
                                             then k in s'.repairs && s'.repairs[k] == s.repairs[k]
                                             else k in s'.repairs ==> s.submitted <= s'.repairs[k])
            && s'.repairs.Keys <= s.repairs.Keys
  {
    var s0 := s.(repairs := map[]);
    assert map[] + s.repairs == s.repairs + map[];
    DriveAllHolds(s0, s.repairs, order, polls, accepts);
  }

  predicate AnswersAskedIn(s: State, a: Action) {
    a.DriveRepairs? ==> AnswersAsked(s.repairs, a.polls)
  }

  lemma {:induction false} StepHolds(s: State, a: Action, accepts: nat -> bool)
    requires Enabled(s, a) && AnswersAskedIn(s, a) && BacklogKeyed(s) && GapInv(s, map[])
    ensures var s' := Step(s, a, accepts);
            BacklogKeyed(s') && GapInv(s', map[]) && (s.error.Some? ==> s'.error.Some?)
  {
    match a
    case Arrive(u) =>
      IngestHolds(s, u, accepts, map[]);
      IngestKeepsKeyed(s, u, accepts);
    case Resumed(p) => InstallHolds(s, p, Resume, accepts, map[]);
    case DriveRepairs(order, polls) => DriveLosesNoRequest(s, order, polls, accepts);
    case _ =>
  }

  /** In every pass of the run, repairs answer for the session they were asked about. */
  predicate AlwaysAnswersAsked(s: State, actions: seq<Action>, accepts: nat -> bool)
    requires Runnable(s, actions, accepts)
    decreases |actions|
  {
    actions == [] ||
    (AnswersAskedIn(s, actions[0]) && AlwaysAnswersAsked(Step(s, actions[0], accepts), actions[1..], accepts))
  }

  lemma {:induction false} RunHolds(s: State, actions: seq<Action>, accepts: nat -> bool)
    requires Runnable(s, actions, accepts) && AlwaysAnswersAsked(s, actions, accepts)
    requires BacklogKeyed(s) && GapInv(s, map[])
    ensures GapInv(Run(s, actions, accepts), map[])
    decreases |actions|
  {
    if actions != [] {
      StepHolds(s, actions[0], accepts);
      RunHolds(Step(s, actions[0], accepts), actions[1..], accepts);
    }
  }

  /**
   * No gap is forgotten: after every run each session with stashed updates has a repair in flight, unless an
   * error was recorded, and the accepted, unconsumed requests are exactly one per session in the table.
   */
  lemma {:induction false} NoGapForgotten(actions: seq<Action>, accepts: nat -> bool)
    requires Runnable(InitialState, actions, accepts) && AlwaysAnswersAsked(InitialState, actions, accepts)
    ensures var s := Run(InitialState, actions, accepts);
            && (forall k | k in s.backlog :: s.backlog[k] != [] && (k in s.repairs || s.error.Some?))
            && s.open == s.repairs.Values && Injective(s.repairs)
  {
    RunHolds(InitialState, actions, accepts);
    var s := Run(InitialState, actions, accepts);
    assert s.repairs + map[] == s.repairs;
  }

  /** Ingesting one session's updates, with a working worker, leaves every other session's gap and repair alone. */
  lemma {:induction false} IngestAllElsewhere(s: State, key: string, us: seq<Update>, accepts: nat -> bool)
    requires ValidSessionId(key) && (forall n :: accepts(n)) && AllFor(key, us)
    ensures var s' := IngestAll(s, us, accepts);
            s'.backlog - {key} == s.backlog - {key} && s'.repairs - {key} == s.repairs - {key} && s'.error == s.error
    decreases |us|
  {
    if us != [] {
      var s1 := Ingest(s, us[0], accepts);
      assert s1.backlog - {key} == s.backlog - {key} && s1.repairs - {key} == s.repairs - {key};
      IngestAllElsewhere(s1, key, us[1..], accepts);
    }
  }

  /**
   * One turn of a pass: with a working worker and no error so far, consuming the answer to the repair of `key`
   * leaves its gap without a repair and without an error if and only if the answer is a snapshot of another
   * session. `FacadePasses.dfy` has the condition for a whole pass and for whole runs.
   */
  lemma {:induction false} GapForgottenIffMisdirected(s: State, key: string, p: Projection, rest: map<string, nat>, accepts: nat -> bool)
    requires BacklogKeyed(s) && GapInv(s, rest) && key in rest
    requires key in s.backlog && s.error.None?
    requires ValidSessionId(p.info.session) && forall n :: accepts(n)
    ensures var s' := DriveOne(s, key, rest[key], Answered(p), accepts);
            (key in s'.backlog && key !in s'.repairs && s'.error.None?) <==> p.info.session != key
  {
    var other := p.info.session;
    if other == key {
      DriveOneHolds(s, key, Answered(p), accepts, rest);
    } else {
      var s1 := Overwrite(s.(open := s.open - {rest[key]}), p, Repair);
      var s2 := s1.(backlog := s1.backlog - {other});
      var us := SortBySequence(BacklogOf(s1, other));
      IngestAllElsewhere(s2, other, us, accepts);
      var s' := IngestAll(s2, us, accepts);
      assert s' == DriveOne(s, key, rest[key], Answered(p), accepts);
      assert key in s.backlog - {other} && s2.backlog - {other} == s.backlog - {other};
      assert key !in s2.repairs - {other};
    }
  }

  /** Such a run exists: one gap for "a", and its repair answered with a snapshot of "b". */
  lemma {:induction false} MisdirectedAnswerForgetsGap(accepts: nat -> bool)
    requires forall n :: accepts(n)
    ensures exists a: Action, b: Action :: Enabled(InitialState, a) && Enabled(Step(InitialState, a, accepts), b) &&
              var s := Step(Step(InitialState, a, accepts), b, accepts);
              "a" in s.backlog && "a" !in s.repairs && s.error.None?
  {
    assert ValidSessionId("a") && ValidSessionId("b");
    GapThenMisdirected(Update("a", 2, OtherChange("x")), Projection(Info("b", None, "/"), 0, []), accepts);
  }

  /** A first update with a gap, and then its repair answered with a snapshot of another session. */
  lemma {:induction false} GapThenMisdirected(u: Update, p: Projection, accepts: nat -> bool)
    requires u.session != p.info.session && ValidSessionId(u.session) && ValidSessionId(p.info.session)
    requires forall n :: accepts(n)
    ensures var a, b := Arrive(u), DriveRepairs([u.session], map[0 := Answered(p)]);
            Enabled(InitialState, a) && Enabled(Step(InitialState, a, accepts), b) &&
            var s := Step(Step(InitialState, a, accepts), b, accepts);
            u.session in s.backlog && u.session !in s.repairs && s.error.None?
  {
    var s1 := Ingest(InitialState, u, accepts);
    FirstRepair(u, accepts);
    PassOfOne(s1, u.session, p, accepts);
  }

  lemma {:induction false} FirstRepair(u: Update, accepts: nat -> bool)
    requires ValidSessionId(u.session) && forall n :: accepts(n)
    ensures var s1 := Ingest(InitialState, u, accepts);
            && s1.repairs == map[u.session := 0] && u.session in s1.backlog && s1.error.None?
            && BacklogKeyed(s1) && GapInv(s1, map[])
  {
    IngestHolds(InitialState, u, accepts, map[]);
    IngestKeepsKeyed(InitialState, u, accepts);
  }

  lemma {:induction false} PassOfOne(s: State, key: string, p: Projection, accepts: nat -> bool)
    requires s.repairs == map[key := 0] && key in s.backlog && s.error.None? && p.info.session != key
    requires BacklogKeyed(s) && GapInv(s, map[])
    requires ValidSessionId(p.info.session) && forall n :: accepts(n)
    ensures Enumerates([key], s.repairs.Keys)
    ensures var s' := Drive(s, [key], map[0 := Answered(p)], accepts);
            key in s'.backlog && key !in s'.repairs && s'.error.None?
  {
    var s0 := s.(repairs := map[]);
    assert map[] + s.repairs == s.repairs + map[];
    GapForgottenIffMisdirected(s0, key, p, s.repairs, accepts);
    var s' := DriveOne(s0, key, 0, Answered(p), accepts);
    assert [key][1..] == [];
    assert DriveAll(s', s.repairs, [], map[0 := Answered(p)], accepts) == s';
  }
}
