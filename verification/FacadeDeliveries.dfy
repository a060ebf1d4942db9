/**
 * Where a delivered update goes. It is at or below the position of its session, or it waits in the session's backlog,
 * until a snapshot or a created session takes the position back below it; what is then in the backlog decides.
 */
module FacadeDeliveries {
  import opened Wrappers
  import opened FacadeSpec
  import opened FacadeRuns
  import opened FacadeReplay
  import opened FacadePasses

  /** The update is covered by its session's position, or waits for it. */
  predicate Kept(s: State, u: Update) {
    (u.session in s.sessions && u.sequence <= s.sessions[u.session].through) || u in BacklogOf(s, u.session)
  }

  /** Every number above `t` and up to `q` waits. */
  predicate Covers(waiting: seq<Update>, t: nat, q: nat) {
    forall m | t < m <= q :: Has(waiting, m)
  }

  // ---------------------------------------------------------------- arrivals lose nothing

  lemma {:induction false} IngestKeepsUpdate(s: State, v: Update, u: Update, accepts: nat -> bool)
    requires Kept(s, u)
    ensures Kept(Ingest(s, v, accepts), u)
  {
  }

  lemma {:induction false} IngestTakesIn(s: State, u: Update, accepts: nat -> bool)
    ensures Kept(Ingest(s, u, accepts), u)
  {
    assert u in BacklogOf(s, u.session) + [u];
  }

  lemma {:induction false} IngestAllKeepsUpdate(s: State, us: seq<Update>, u: Update, accepts: nat -> bool)
    requires Kept(s, u)
    ensures Kept(IngestAll(s, us, accepts), u)
    decreases |us|
  {
    if us != [] {
      IngestKeepsUpdate(s, us[0], u, accepts);
      IngestAllKeepsUpdate(Ingest(s, us[0], accepts), us[1..], u, accepts);
    }
  }

  // ---------------------------------------------------------------- what a snapshot does

  lemma {:induction false} RunReaches(t: nat, waiting: seq<Update>, run: seq<Update>, q: nat)
    requires MaximalRun(t, waiting, run)
    ensures q <= t + |run| <==> Covers(waiting, t, q)
  {
    RunCovers(t, waiting, run);
  }

  /**
   * After a snapshot of its session an update is kept if and only if it was waiting, or every number from the
   * snapshot's position up to its own was: whether it had been applied before does not matter.
   */
  lemma {:induction false} InstallKeepsUpdateIff(s: State, p: Projection, reason: Reason, u: Update, accepts: nat -> bool)
    requires BacklogKeyed(s) && Backlog64(s) && p.info.session == u.session
    ensures Kept(Install(s, p, reason, accepts), u) <==>
              u in BacklogOf(s, u.session) || Covers(BacklogOf(s, u.session), p.through, u.sequence)
  {
    var key, s1 := u.session, Overwrite(s, p, reason);
    var waiting := BacklogOf(s1, key);
    ReplayClosedForm(s1, key, accepts);
    var p' := Replay(s1, key, accepts).sessions[key];
    RunReaches(p.through, waiting, p'.updates[|p.updates|..], u.sequence);
    AfterMembers(p'.through, SortBySequence(waiting));
  }

  lemma {:induction false} InstallElsewhereKeeps(s: State, p: Projection, reason: Reason, u: Update, accepts: nat -> bool)
    requires Kept(s, u) && p.info.session != u.session
    ensures Kept(Install(s, p, reason, accepts), u)
  {
    var s1 := Overwrite(s, p, reason);
    var key := p.info.session;
    IngestAllKeepsUpdate(s1.(backlog := s1.backlog - {key}), SortBySequence(BacklogOf(s1, key)), u, accepts);
  }

  // ---------------------------------------------------------------- which steps take an update back

  /** A snapshot of the update's session that it is not part of, while neither it nor what leads to it waits. */
  predicate Rewinds(s: State, p: Projection, u: Update) {
    && p.info.session == u.session
    && u !in BacklogOf(s, u.session)
    && !Covers(BacklogOf(s, u.session), p.through, u.sequence)
  }

  lemma {:induction false} InstallKeepsIff(s: State, p: Projection, reason: Reason, u: Update, accepts: nat -> bool)
    requires BacklogKeyed(s) && Backlog64(s) && Kept(s, u)
    ensures Kept(Install(s, p, reason, accepts), u) <==> !Rewinds(s, p, u)
  {
    if p.info.session == u.session {
      InstallKeepsUpdateIff(s, p, reason, u, accepts);
    } else {
      InstallElsewhereKeeps(s, p, reason, u, accepts);
    }
  }

  predicate TurnRewinds(s: State, outcome: Outcome, u: Update) {
    outcome.Answered? && Rewinds(s, outcome.snapshot, u)
  }

  lemma {:induction false} TurnKeepsIff(s: State, key: string, request: nat, outcome: Outcome, u: Update, accepts: nat -> bool)
    requires BacklogKeyed(s) && Backlog64(s) && Kept(s, u)
    ensures Kept(DriveOne(s, key, request, outcome, accepts), u) <==> !TurnRewinds(s, outcome, u)
  {
    if outcome.Answered? {
      InstallKeepsIff(s.(open := s.open - {request}), outcome.snapshot, Repair, u, accepts);
    }
  }

  /** Some turn of the pass takes the update back. */
  predicate PassRewinds(s: State, taken: map<string, nat>, order: seq<string>, polls: map<nat, Outcome>, u: Update,
                        accepts: nat -> bool)
    requires forall k :: k in order ==> k in taken
    decreases |order|
  {
    order != [] &&
    var outcome := Poll(polls, taken[order[0]]);
    (TurnRewinds(s, outcome, u)
     || PassRewinds(DriveOne(s, order[0], taken[order[0]], outcome, accepts), taken, order[1..], polls, u, accepts))
  }

  /** The update is kept after every turn of the pass. */
  predicate PassKeeps(s: State, taken: map<string, nat>, order: seq<string>, polls: map<nat, Outcome>, u: Update,
                      accepts: nat -> bool)
    requires forall k :: k in order ==> k in taken
    decreases |order|
  {
    Kept(s, u) &&
    (order == [] ||
     PassKeeps(DriveOne(s, order[0], taken[order[0]], Poll(polls, taken[order[0]]), accepts), taken, order[1..], polls, u, accepts))
  }

  lemma {:induction false} PassKeepsIff(s: State, taken: map<string, nat>, order: seq<string>, polls: map<nat, Outcome>,
                                        u: Update, accepts: nat -> bool)
    requires forall k :: k in order ==> k in taken
    requires BacklogKeyed(s) && Backlog64(s) && Kept(s, u)
    ensures PassKeeps(s, taken, order, polls, u, accepts) <==> !PassRewinds(s, taken, order, polls, u, accepts)
    ensures PassKeeps(s, taken, order, polls, u, accepts) ==> Kept(DriveAll(s, taken, order, polls, accepts), u)
    decreases |order|
  {
    if order != [] {
      var request := taken[order[0]];
      var outcome := Poll(polls, request);
      var s1 := DriveOne(s, order[0], request, outcome, accepts);
      TurnKeepsIff(s, order[0], request, outcome, u, accepts);
      TurnKeepsKeyed(s, order[0], request, outcome, accepts);
      TurnKeeps64(s, order[0], request, outcome, accepts);
      if Kept(s1, u) {
        PassKeepsIff(s1, taken, order[1..], polls, u, accepts);
      }
    }
  }

  /** A created session starts at position 0 and does not replay. */
  predicate StepRewinds(s: State, a: Action, u: Update, accepts: nat -> bool)
    requires Enabled(s, a)
  {
    match a
    case Created(info) => info.session == u.session && u !in BacklogOf(s, u.session) && u.sequence > 0
    case Resumed(p) => Rewinds(s, p, u)
    case DriveRepairs(order, polls) => PassRewinds(s.(repairs := map[]), s.repairs, order, polls, u, accepts)
    case _ => false
  }

  predicate StepKeeps(s: State, a: Action, u: Update, accepts: nat -> bool)
    requires Enabled(s, a)
  {
    && Kept(Step(s, a, accepts), u)
    && (a.DriveRepairs? ==> PassKeeps(s.(repairs := map[]), s.repairs, a.order, a.polls, u, accepts))
  }

  lemma {:induction false} StepKeepsIff(s: State, a: Action, u: Update, accepts: nat -> bool)
    requires Enabled(s, a) && BacklogKeyed(s) && Backlog64(s) && Kept(s, u)
    ensures StepKeeps(s, a, u, accepts) <==> !StepRewinds(s, a, u, accepts)
  {
    match a
    case Arrive(v) => IngestKeepsUpdate(s, v, u, accepts);
    case Resumed(p) => InstallKeepsIff(s, p, Resume, u, accepts);
    case DriveRepairs(order, polls) => DriveKeepsIff(s, a, u, accepts);
    case _ =>
  }

  lemma {:induction false} DriveKeepsIff(s: State, a: Action, u: Update, accepts: nat -> bool)
    requires a.DriveRepairs? && Enabled(s, a) && BacklogKeyed(s) && Backlog64(s) && Kept(s, u)
    ensures StepKeeps(s, a, u, accepts) <==> !StepRewinds(s, a, u, accepts)
  {
    PassKeepsIff(s.(repairs := map[]), s.repairs, a.order, a.polls, u, accepts);
  }

  // ---------------------------------------------------------------- whole runs

  predicate AlwaysKept(s: State, actions: seq<Action>, u: Update, accepts: nat -> bool)
    requires Runnable(s, actions, accepts)
    decreases |actions|
  {
    actions == [] ||
    (StepKeeps(s, actions[0], u, accepts) && AlwaysKept(Step(s, actions[0], accepts), actions[1..], u, accepts))
  }

  predicate NeverRewound(s: State, actions: seq<Action>, u: Update, accepts: nat -> bool)
    requires Runnable(s, actions, accepts)
    decreases |actions|
  {
    actions == [] ||
    (!StepRewinds(s, actions[0], u, accepts) && NeverRewound(Step(s, actions[0], accepts), actions[1..], u, accepts))
  }

  lemma {:induction false} RunKeepsIff(s: State, actions: seq<Action>, u: Update, accepts: nat -> bool)
    requires Runnable(s, actions, accepts) && forall a | a in actions :: TypedAction(a)
    requires BacklogKeyed(s) && Backlog64(s) && Kept(s, u)
    ensures AlwaysKept(s, actions, u, accepts) <==> NeverRewound(s, actions, u, accepts)
    ensures AlwaysKept(s, actions, u, accepts) ==> Kept(Run(s, actions, accepts), u)
    decreases |actions|
  {
    if actions != [] {
      var s1 := Step(s, actions[0], accepts);
      StepKeepsIff(s, actions[0], u, accepts);
      StepKeepsStashed(s, actions[0], accepts);
      if Kept(s1, u) {
        RunKeepsIff(s1, actions[1..], u, accepts);
      }
    }
  }

  lemma {:induction false} RunKeepsStashed(s: State, actions: seq<Action>, accepts: nat -> bool)
    requires Runnable(s, actions, accepts) && forall a | a in actions :: TypedAction(a)
    requires BacklogKeyed(s) && Backlog64(s)
    ensures BacklogKeyed(Run(s, actions, accepts)) && Backlog64(Run(s, actions, accepts))
    decreases |actions|
  {
    if actions != [] {
      StepKeepsStashed(s, actions[0], accepts);
      RunKeepsStashed(Step(s, actions[0], accepts), actions[1..], accepts);
    }
  }

  /**
   * No delivered update is lost. From its arrival on, whatever else happens, an update is covered by its session's
   * position or waits in the backlog, in every state and after every turn of a pass, if and only if no snapshot or
   * created session takes the position back below it while neither it nor what leads to it waits.
   */
  lemma {:induction false} DeliveredIsKeptIff(before: seq<Action>, u: Update, after: seq<Action>, accepts: nat -> bool)
    requires Runnable(InitialState, before, accepts) && forall a | a in before :: TypedAction(a)
    requires u.sequence <= U64_MAX && forall a | a in after :: TypedAction(a)
    requires Runnable(Step(Run(InitialState, before, accepts), Arrive(u), accepts), after, accepts)
    ensures var s := Step(Run(InitialState, before, accepts), Arrive(u), accepts);
            && Kept(s, u)
            && (AlwaysKept(s, after, u, accepts) <==> NeverRewound(s, after, u, accepts))
            && (NeverRewound(s, after, u, accepts) ==> Kept(Run(s, after, accepts), u))
  {
    RunKeepsStashed(InitialState, before, accepts);
    var s0 := Run(InitialState, before, accepts);
    StepKeepsStashed(s0, Arrive(u), accepts);
    IngestTakesIn(s0, u, accepts);
    RunKeepsIff(Step(s0, Arrive(u), accepts), after, u, accepts);
  }

  // ---------------------------------------------------------------- snapshots that only go forward

  /** A snapshot at or past the cached position, or of a session not cached yet. */
  predicate GoesForward(s: State, p: Projection) {
    p.info.session in s.sessions ==> s.sessions[p.info.session].through <= p.through
  }

  predicate PassForward(s: State, taken: map<string, nat>, order: seq<string>, polls: map<nat, Outcome>, accepts: nat -> bool)
    requires forall k :: k in order ==> k in taken
    decreases |order|
  {
    order == [] ||
    (var outcome := Poll(polls, taken[order[0]]);
     && (outcome.Answered? ==> GoesForward(s, outcome.snapshot))
     && PassForward(DriveOne(s, order[0], taken[order[0]], outcome, accepts), taken, order[1..], polls, accepts))
  }

  predicate StepForward(s: State, a: Action, accepts: nat -> bool)
    requires Enabled(s, a)
  {
    match a
    case Created(info) => info.session !in s.sessions
    case Resumed(p) => GoesForward(s, p)
    case DriveRepairs(order, polls) => PassForward(s.(repairs := map[]), s.repairs, order, polls, accepts)
    case _ => true
  }

  predicate AlwaysForward(s: State, actions: seq<Action>, accepts: nat -> bool)
    requires Runnable(s, actions, accepts)
    decreases |actions|
  {
    actions == [] ||
    (StepForward(s, actions[0], accepts) && AlwaysForward(Step(s, actions[0], accepts), actions[1..], accepts))
  }

  lemma {:induction false} ForwardRewindsNone(s: State, p: Projection, u: Update)
    requires Kept(s, u) && GoesForward(s, p)
    ensures !Rewinds(s, p, u)
  {
  }

  lemma {:induction false} PassForwardRewindsNone(s: State, taken: map<string, nat>, order: seq<string>, polls: map<nat, Outcome>,
                                                  u: Update, accepts: nat -> bool)
    requires (forall k :: k in order ==> k in taken) && PassForward(s, taken, order, polls, accepts)
    requires BacklogKeyed(s) && Backlog64(s) && Kept(s, u)
    ensures !PassRewinds(s, taken, order, polls, u, accepts)
    decreases |order|
  {
    if order != [] {
      var request := taken[order[0]];
      var outcome := Poll(polls, request);
      if outcome.Answered? {
        ForwardRewindsNone(s, outcome.snapshot, u);
      }
      TurnKeepsIff(s, order[0], request, outcome, u, accepts);
      TurnKeepsKeyed(s, order[0], request, outcome, accepts);
      TurnKeeps64(s, order[0], request, outcome, accepts);
      PassForwardRewindsNone(DriveOne(s, order[0], request, outcome, accepts), taken, order[1..], polls, u, accepts);
    }
  }

  lemma {:induction false} StepForwardRewindsNone(s: State, a: Action, u: Update, accepts: nat -> bool)
    requires Enabled(s, a) && StepForward(s, a, accepts) && BacklogKeyed(s) && Backlog64(s) && Kept(s, u)
    ensures !StepRewinds(s, a, u, accepts)
  {
    match a
    case Resumed(p) => ForwardRewindsNone(s, p, u);
    case DriveRepairs(order, polls) =>
      PassForwardRewindsNone(s.(repairs := map[]), s.repairs, order, polls, u, accepts);
    case _ =>
  }

  lemma {:induction false} ForwardKeeps(s: State, actions: seq<Action>, u: Update, accepts: nat -> bool)
    requires Runnable(s, actions, accepts) && AlwaysForward(s, actions, accepts) && forall a | a in actions :: TypedAction(a)
    requires BacklogKeyed(s) && Backlog64(s) && Kept(s, u)
    ensures NeverRewound(s, actions, u, accepts)
    decreases |actions|
  {
    if actions != [] {
      StepForwardRewindsNone(s, actions[0], u, accepts);
      StepKeepsIff(s, actions[0], u, accepts);
      StepKeepsStashed(s, actions[0], accepts);
      ForwardKeeps(Step(s, actions[0], accepts), actions[1..], u, accepts);
    }
  }

  /**
   * When no snapshot is older than the cache it replaces and only uncached sessions are created, no delivered update
   * is ever lost, however deliveries and repairs are delayed, repeated, reordered or answered.
   */
  lemma {:induction false} ForwardLosesNothing(before: seq<Action>, u: Update, after: seq<Action>, accepts: nat -> bool)
    requires Runnable(InitialState, before, accepts) && forall a | a in before :: TypedAction(a)
    requires u.sequence <= U64_MAX && forall a | a in after :: TypedAction(a)
    requires Runnable(Step(Run(InitialState, before, accepts), Arrive(u), accepts), after, accepts)
    requires AlwaysForward(Step(Run(InitialState, before, accepts), Arrive(u), accepts), after, accepts)
    ensures Kept(Run(Step(Run(InitialState, before, accepts), Arrive(u), accepts), after, accepts), u)
  {
    DeliveredIsKeptIff(before, u, after, accepts);
    RunKeepsStashed(InitialState, before, accepts);
    var s0 := Run(InitialState, before, accepts);
    StepKeepsStashed(s0, Arrive(u), accepts);
    ForwardKeeps(Step(s0, Arrive(u), accepts), after, u, accepts);
  }

  /** In a cache of log prefixes an update that is covered by the position is in the projection. */
  lemma {:induction false} KeptIsHeld(log: Log, s: State, u: Update)
    requires PrefixInv(log, s) && FromLog(log, u) && Kept(s, u)
    ensures (u.session in s.sessions && u in s.sessions[u.session].updates) || u in BacklogOf(s, u.session)
  {
    if u !in BacklogOf(s, u.session) {
      var p := s.sessions[u.session];
      assert p.updates[u.sequence - 1] == log(u.session)[u.sequence - 1];
    }
  }

  /**
   * Together with prefix safety: when deliveries come from the server's logs and snapshots only go forward, every
   * delivered update is itself in its session's projection or in the backlog.
   */
  lemma {:induction false} ForwardHoldsDelivered(
    log: Log, before: seq<Action>, u: Update, after: seq<Action>, accepts: nat -> bool)
    requires IsLog(log) && FromLog(log, u) && u.sequence <= U64_MAX
    requires Runnable(InitialState, before, accepts) && forall a | a in before :: TypedAction(a) && Faithful(log, a)
    requires forall a | a in after :: TypedAction(a) && Faithful(log, a)
    requires Runnable(Step(Run(InitialState, before, accepts), Arrive(u), accepts), after, accepts)
    requires AlwaysForward(Step(Run(InitialState, before, accepts), Arrive(u), accepts), after, accepts)
    ensures var s := Run(Step(Run(InitialState, before, accepts), Arrive(u), accepts), after, accepts);
            (u.session in s.sessions && u in s.sessions[u.session].updates) || u in BacklogOf(s, u.session)
  {
    var s0 := Run(InitialState, before, accepts);
    var s1 := Step(s0, Arrive(u), accepts);
    ForwardLosesNothing(before, u, after, accepts);
    RunKeepsPrefix(log, InitialState, before, accepts);
    IngestKeepsPrefix(log, s0, u, accepts);
    RunKeepsPrefix(log, s1, after, accepts);
    KeptIsHeld(log, Run(s1, after, accepts), u);
  }

  // ---------------------------------------------------------------- a run that loses an update

  /**
   * A created session, its first update, and then a snapshot from before that update: the update is gone without a
   * repair and without an error.
   */
  lemma {:induction false} OldSnapshotLosesUpdate(info: Info, u: Update, accepts: nat -> bool)
    requires u == Update(info.session, 1, OtherChange(""))
    ensures var s1 := Step(InitialState, Created(info), accepts);
            var s2 := Step(s1, Arrive(u), accepts);
            var s3 := Step(s2, Resumed(Projection(info, 0, [])), accepts);
            && Kept(s2, u) && !Kept(s3, u)
            && s3.error.None? && u.session !in s3.repairs && u.session !in s3.backlog
  {
    var s1 := InstallCreated(InitialState, info);
    assert Ingest(s1, u, accepts) == Append(s1, info.session, u);
    var s2 := Append(s1, info.session, u);
    assert BacklogOf(s2, u.session) == [] && SortBySequence([]) == [];
    OneRewound(s2, Projection(info, 0, []), accepts);
  }

  /** A snapshot of a session without a backlog is simply taken over. */
  lemma {:induction false} OneRewound(s: State, p: Projection, accepts: nat -> bool)
    requires s.backlog == map[]
    ensures Install(s, p, Resume, accepts) == Overwrite(s, p, Resume)
  {
    var s1 := Overwrite(s, p, Resume);
    assert s1.backlog - {p.info.session} == s1.backlog;
    assert IngestAll(s1, [], accepts) == s1;
  }
}
