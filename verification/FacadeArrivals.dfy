/** What an arriving update does to its session, whatever waits, and how far deliveries in order bring the cache. */
module FacadeArrivals {
  import opened Wrappers
  import opened FacadeSpec
  import opened FacadeRuns
  import opened FacadeReplay
  import opened FacadePasses
  import opened FacadeDeliveries

  /** What a cached session shows besides its updates: the title of a rename, the execution of an execution update. */
  predicate ShownAfter(s: State, s': State, u: Update)
    requires u.session in s.sessions && u.session in s'.sessions
  {
    var info, info' := s.sessions[u.session].info, s'.sessions[u.session].info;
    && info'.session == info.session && info'.directory == info.directory
    && info'.title == (if u.change.Renamed? then Some(u.change.title) else info.title)
    && s'.sessionInfo == s.sessionInfo[u.session := info']
    && s'.latestExecution == (if u.change.Execution? then s.latestExecution[u.session := u.change.executionId]
                              else s.latestExecution)
  }

  /**
   * An update that comes next is applied at once, whatever waits: it is the last of its projection, the position is its
   * number, its event is queued, and nothing else changes, the backlog and the repairs least of all.
   */
  lemma {:induction false} NextIsApplied(s: State, u: Update, accepts: nat -> bool)
    requires u.session in s.sessions && u.sequence == s.sessions[u.session].through + 1 && u.sequence <= U64_MAX
    ensures var s' := Step(s, Arrive(u), accepts);
            && u.session in s'.sessions
            && s'.sessions[u.session].through == u.sequence
            && s'.sessions[u.session].updates == s.sessions[u.session].updates + [u]
            && ShownAfter(s, s', u)
            && s'.sessions.Keys == s.sessions.Keys
            && (forall k | k in s.sessions && k != u.session :: s'.sessions[k] == s.sessions[k])
            && s'.events == s.events + [Live(u), Status]
            && s'.backlog == s.backlog && s'.repairs == s.repairs && s'.open == s.open && s'.submitted == s.submitted
            && s'.error == s.error && s'.phase == s.phase && s'.drained == s.drained
  {
  }

  /** An update at or below the position of its session changes nothing at all. */
  lemma {:induction false} StaleChangesNothing(s: State, u: Update, accepts: nat -> bool)
    requires u.session in s.sessions && u.sequence <= s.sessions[u.session].through
    ensures Step(s, Arrive(u), accepts) == s
  {
  }

  /** One repair request a session: a second one is not made, and one that cannot be made is recorded as an error. */
  predicate AsksForRepair(s: State, s': State, key: string, accepts: nat -> bool) {
    if key in s.repairs then
      && s'.repairs == s.repairs && s'.open == s.open && s'.submitted == s.submitted
      && s'.events == s.events && s'.error == s.error && s'.phase == s.phase
    else if ValidSessionId(key) && accepts(s.submitted) then
      && s'.repairs == s.repairs[key := s.submitted] && s'.open == s.open + {s.submitted}
      && s'.submitted == s.submitted + 1
      && s'.events == s.events && s'.error == s.error && s'.phase == s.phase
    else
      && s'.repairs == s.repairs && s'.open == s.open && s'.events == s.events + [Status] && s'.phase == Failed
      && s'.error == Some(if ValidSessionId(key) then RepairNotScheduled else InvalidSessionId)
  }

  /** Any other update waits last in the backlog of its session, for which a repair is asked. */
  lemma {:induction false} OthersWait(s: State, u: Update, accepts: nat -> bool)
    requires u.sequence <= U64_MAX
    requires u.session in s.sessions ==> u.sequence > s.sessions[u.session].through + 1
    ensures var s' := Step(s, Arrive(u), accepts);
            && s'.sessions == s.sessions && s'.sessionInfo == s.sessionInfo && s'.latestExecution == s.latestExecution
            && u.session in s'.backlog
            && s'.backlog[u.session] == (if u.session in s.backlog then s.backlog[u.session] else []) + [u]
            && s'.backlog - {u.session} == s.backlog - {u.session}
            && AsksForRepair(s, s', u.session, accepts)
  {
  }

  /**
   * Over runs: after an update has arrived for a cached session, the position has reached its number if and only if
   * that number was at most one past the old position, with whatever backlog the run has left.
   */
  lemma {:induction false} ReachedIff(before: seq<Action>, u: Update, accepts: nat -> bool)
    requires Runnable(InitialState, before, accepts) && u.sequence <= U64_MAX
    requires u.session in Run(InitialState, before, accepts).sessions
    ensures var s := Run(InitialState, before, accepts);
            var s' := Step(s, Arrive(u), accepts);
            && u.session in s'.sessions
            && (s'.sessions[u.session].through >= u.sequence <==> u.sequence <= s.sessions[u.session].through + 1)
  {
    var s := Run(InitialState, before, accepts);
    var through := s.sessions[u.session].through;
    if u.sequence <= through {
      StaleChangesNothing(s, u, accepts);
    } else if u.sequence == through + 1 {
      NextIsApplied(s, u, accepts);
    } else {
      OthersWait(s, u, accepts);
    }
  }

  // ---------------------------------------------------------------- deliveries in order

  predicate AtLeast(s: State, key: string, t: nat) {
    key in s.sessions && s.sessions[key].through >= t
  }

  lemma {:induction false} IngestAllReaches(s: State, us: seq<Update>, key: string, t: nat, accepts: nat -> bool)
    requires AtLeast(s, key, t)
    ensures AtLeast(IngestAll(s, us, accepts), key, t)
    decreases |us|
  {
    if us != [] {
      IngestReaches(s, us[0], key, t, accepts);
      IngestAllReaches(Ingest(s, us[0], accepts), us[1..], key, t, accepts);
    }
  }

  lemma {:induction false} IngestReaches(s: State, u: Update, key: string, t: nat, accepts: nat -> bool)
    requires AtLeast(s, key, t)
    ensures AtLeast(Ingest(s, u, accepts), key, t)
  {
  }

  lemma {:induction false} InstallReaches(s: State, p: Projection, reason: Reason, key: string, t: nat, accepts: nat -> bool)
    requires AtLeast(s, key, t) && GoesForward(s, p)
    ensures AtLeast(Install(s, p, reason, accepts), key, t)
  {
    var s1 := Overwrite(s, p, reason);
    var k := p.info.session;
    IngestAllReaches(s1.(backlog := s1.backlog - {k}), SortBySequence(BacklogOf(s1, k)), key, t, accepts);
  }

  lemma {:induction false} PassReaches(s: State, taken: map<string, nat>, order: seq<string>, polls: map<nat, Outcome>,
                                       key: string, t: nat, accepts: nat -> bool)
    requires (forall k :: k in order ==> k in taken) && PassForward(s, taken, order, polls, accepts)
    requires AtLeast(s, key, t)
    ensures AtLeast(DriveAll(s, taken, order, polls, accepts), key, t)
    decreases |order|
  {
    if order != [] {
      var request := taken[order[0]];
      var outcome := Poll(polls, request);
      var s1 := DriveOne(s, order[0], request, outcome, accepts);
      if outcome.Answered? {
        InstallReaches(s.(open := s.open - {request}), outcome.snapshot, Repair, key, t, accepts);
      }
      assert AtLeast(s1, key, t);
      PassReaches(s1, taken, order[1..], polls, key, t, accepts);
    }
  }

  lemma {:induction false} StepReaches(s: State, a: Action, key: string, t: nat, accepts: nat -> bool)
    requires Enabled(s, a) && StepForward(s, a, accepts) && AtLeast(s, key, t)
    ensures AtLeast(Step(s, a, accepts), key, t)
  {
    match a
    case Arrive(u) => IngestReaches(s, u, key, t, accepts);
    case Resumed(p) => InstallReaches(s, p, Resume, key, t, accepts);
    case DriveRepairs(order, polls) =>
      PassReaches(s.(repairs := map[]), s.repairs, order, polls, key, t, accepts);
    case _ =>
  }

  /** The updates numbered from + 1 to `to` arrive in this order, with anything in between. */
  predicate DeliversInOrder(log: Log, key: string, actions: seq<Action>, from: nat, to: nat)
    requires from <= to <= |log(key)|
    decreases |actions|
  {
    from == to ||
    (actions != [] &&
     if actions[0] == Arrive(log(key)[from]) then DeliversInOrder(log, key, actions[1..], from + 1, to)
     else DeliversInOrder(log, key, actions[1..], from, to))
  }

  lemma {:induction false} InOrderReaches(log: Log, key: string, s: State, actions: seq<Action>, from: nat, to: nat,
                                          accepts: nat -> bool)
    requires IsLog(log) && from <= to <= |log(key)| && to <= U64_MAX
    requires Runnable(s, actions, accepts) && AlwaysForward(s, actions, accepts)
    requires AtLeast(s, key, from) && DeliversInOrder(log, key, actions, from, to)
    ensures AtLeast(Run(s, actions, accepts), key, to)
    decreases |actions|
  {
    if actions != [] {
      var a := actions[0];
      var s1 := Step(s, a, accepts);
      StepReaches(s, a, key, from, accepts);
      if from < to && a == Arrive(log(key)[from]) {
        if s.sessions[key].through == from {
          NextIsApplied(s, log(key)[from], accepts);
        } else {
          StepReaches(s, a, key, from + 1, accepts);
        }
        InOrderReaches(log, key, s1, actions[1..], from + 1, to, accepts);
      } else {
        InOrderReaches(log, key, s1, actions[1..], from, to, accepts);
      }
    }
  }

  /**
   * Deliveries in order bring the cache up to date: when a session is cached at `from`, the log's updates from there to
   * `to` arrive in order, with anything else in between, and snapshots only go forward, then the projection holds the
   * log at least up to `to`.
   */
  lemma {:induction false} InOrderDeliveryCatchesUp(
    log: Log, key: string, before: seq<Action>, after: seq<Action>, from: nat, to: nat, accepts: nat -> bool)
    requires IsLog(log) && from <= to <= |log(key)| && to <= U64_MAX
    requires Runnable(InitialState, before, accepts) && forall a | a in before :: Faithful(log, a)
    requires var s := Run(InitialState, before, accepts);
             && Runnable(s, after, accepts) && AlwaysForward(s, after, accepts)
             && key in s.sessions && s.sessions[key].through >= from
    requires DeliversInOrder(log, key, after, from, to) && forall a | a in after :: Faithful(log, a)
    ensures var s := Run(Run(InitialState, before, accepts), after, accepts);
            key in s.sessions && s.sessions[key].through >= to && log(key)[..to] <= s.sessions[key].updates
  {
    var s := Run(InitialState, before, accepts);
    RunKeepsPrefix(log, InitialState, before, accepts);
    RunKeepsPrefix(log, s, after, accepts);
    InOrderReaches(log, key, s, after, from, to, accepts);
  }

  // ---------------------------------------------------------------- titles

  predicate IsLastRename(us: seq<Update>, i: nat) {
    i < |us| && us[i].change.Renamed? && forall j :: i < j < |us| ==> !us[j].change.Renamed?
  }

  /** `title` is that of the last rename among `us`, or `base` when there is none. */
  predicate TitledBy(base: Option<string>, us: seq<Update>, title: Option<string>) {
    && (forall i | 0 <= i < |us| && IsLastRename(us, i) :: title == Some(us[i].change.title))
    && ((forall i :: 0 <= i < |us| ==> !us[i].change.Renamed?) ==> title == base)
  }

  lemma {:induction false} TitledSnoc(base: Option<string>, us: seq<Update>, title: Option<string>, u: Update)
    requires TitledBy(base, us, title)
    ensures TitledBy(base, us + [u], if u.change.Renamed? then Some(u.change.title) else title)
  {
    var longer := us + [u];
    assert longer[|us|] == u;
    forall i | 0 <= i < |longer| && IsLastRename(longer, i)
      ensures i < |us| ==> IsLastRename(us, i)
    {
      assert i < |us| ==> longer[i] == us[i];
      assert forall j :: i < j < |us| ==> us[j] == longer[j];
    }
    if !u.change.Renamed? && forall i :: 0 <= i < |longer| ==> !longer[i].change.Renamed? {
      assert forall i :: 0 <= i < |us| ==> us[i] == longer[i];
    }
    assert u.change.Renamed? ==> forall i | 0 <= i < |longer| && IsLastRename(longer, i) :: i == |us|;
  }

  /** The projection of `key` grew out of `start`, and its title is that of the last rename applied since. */
  predicate GrewFrom(start: Projection, s: State, key: string) {
    && key in s.sessions
    && start.updates <= s.sessions[key].updates
    && TitledBy(start.info.title, s.sessions[key].updates[|start.updates|..], s.sessions[key].info.title)
  }

  lemma {:induction false} IngestGrows(start: Projection, s: State, key: string, u: Update, accepts: nat -> bool)
    requires GrewFrom(start, s, key)
    ensures GrewFrom(start, Ingest(s, u, accepts), key)
  {
    var p, p' := s.sessions[key], Ingest(s, u, accepts).sessions[key];
    if p' != p {
      var n := |start.updates|;
      TitledSnoc(start.info.title, p.updates[n..], p.info.title, u);
      assert (p.updates + [u])[n..] == p.updates[n..] + [u];
    }
  }

  lemma {:induction false} IngestAllGrows(start: Projection, s: State, key: string, us: seq<Update>, accepts: nat -> bool)
    requires GrewFrom(start, s, key)
    ensures GrewFrom(start, IngestAll(s, us, accepts), key)
    decreases |us|
  {
    if us != [] {
      IngestGrows(start, s, key, us[0], accepts);
      IngestAllGrows(start, Ingest(s, us[0], accepts), key, us[1..], accepts);
    }
  }

  /** A snapshot shows its own title, or that of the last rename its replay applied. */
  lemma {:induction false} SnapshotTitle(s: State, p: Projection, reason: Reason, accepts: nat -> bool)
    ensures GrewFrom(p, Install(s, p, reason, accepts), p.info.session)
  {
    var s1, key := Overwrite(s, p, reason), p.info.session;
    assert p.updates[|p.updates|..] == [];
    IngestAllGrows(p, s1.(backlog := s1.backlog - {key}), key, SortBySequence(BacklogOf(s1, key)), accepts);
  }

  /** Nothing in the action replaces the session: no snapshot, creation or rename answer for it. */
  predicate LeavesSession(a: Action, key: string) {
    match a
    case Created(info) => info.session != key
    case Resumed(p) => p.info.session != key
    case RenameAnswered(info) => info.session != key
    case DriveRepairs(_, polls) => forall r | r in polls :: !AnswersFor(polls[r], key)
    case _ => true
  }

  lemma {:induction false} InstallElsewhereGrows(start: Projection, s: State, key: string, p: Projection, reason: Reason,
                                                 accepts: nat -> bool)
    requires GrewFrom(start, s, key) && p.info.session != key
    ensures GrewFrom(start, Install(s, p, reason, accepts), key)
  {
    var s1, k := Overwrite(s, p, reason), p.info.session;
    IngestAllGrows(start, s1.(backlog := s1.backlog - {k}), key, SortBySequence(BacklogOf(s1, k)), accepts);
  }

  lemma {:induction false} PassGrows(start: Projection, s: State, key: string, taken: map<string, nat>, order: seq<string>,
                                     polls: map<nat, Outcome>, accepts: nat -> bool)
    requires (forall k :: k in order ==> k in taken) && (forall r | r in polls :: !AnswersFor(polls[r], key))
    requires GrewFrom(start, s, key)
    ensures GrewFrom(start, DriveAll(s, taken, order, polls, accepts), key)
    decreases |order|
  {
    if order != [] {
      var request := taken[order[0]];
      var outcome := Poll(polls, request);
      var s1 := DriveOne(s, order[0], request, outcome, accepts);
      if outcome.Answered? {
        InstallElsewhereGrows(start, s.(open := s.open - {request}), key, outcome.snapshot, Repair, accepts);
      }
      assert GrewFrom(start, s1, key);
      PassGrows(start, s1, key, taken, order[1..], polls, accepts);
    }
  }

  lemma {:induction false} StepGrows(start: Projection, s: State, key: string, a: Action, accepts: nat -> bool)
    requires Enabled(s, a) && LeavesSession(a, key) && GrewFrom(start, s, key)
    ensures GrewFrom(start, Step(s, a, accepts), key)
  {
    match a
    case Arrive(u) => IngestGrows(start, s, key, u, accepts);
    case Resumed(p) => InstallElsewhereGrows(start, s, key, p, Resume, accepts);
    case DriveRepairs(order, polls) => PassGrows(start, s.(repairs := map[]), key, s.repairs, order, polls, accepts);
    case _ =>
  }

  /** Over runs: the cached title is that of the last rename applied since the session was last replaced. */
  lemma {:induction false} TitleIsLastRename(start: Projection, s: State, key: string, actions: seq<Action>, accepts: nat -> bool)
    requires Runnable(s, actions, accepts) && forall a | a in actions :: LeavesSession(a, key)
    requires key in s.sessions && GrewFrom(start, s, key)
    ensures GrewFrom(start, Run(s, actions, accepts), key)
    decreases |actions|
  {
    if actions != [] {
      StepGrows(start, s, key, actions[0], accepts);
      TitleIsLastRename(start, Step(s, actions[0], accepts), key, actions[1..], accepts);
    }
  }
}
