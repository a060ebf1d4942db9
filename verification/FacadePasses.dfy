/**
 * Exactly when a repair pass keeps what it should, whatever the repairs are answered with.
 *
 * `FacadeRuns.NoGapForgotten` assumes that a repair is answered for the session it was asked about. Without that
 * assumption two things go wrong: a gap is left without a repair, and a repair scheduled during the pass is
 * replaced by the pending request of the same session. Both conditions are on the table, the backlog and the
 * answers before the pass.
 */
module FacadePasses {
  import opened Wrappers
  import opened FacadeSpec
  import opened FacadeRuns
  import opened FacadeReplay
  import opened Text

  /** The worker takes every submission. */
  ghost predicate Working(accepts: nat -> bool) {
    forall n :: accepts(n)
  }

  /** The session id of a decoded snapshot is a `SessionId`. */
  predicate TypedOutcome(outcome: Outcome) {
    outcome.Answered? ==> ValidSessionId(outcome.snapshot.info.session)
  }

  predicate TypedPolls(polls: map<nat, Outcome>) {
    forall r | r in polls :: TypedOutcome(polls[r])
  }

  predicate AnswersFor(outcome: Outcome, key: string) {
    outcome.Answered? && outcome.snapshot.info.session == key
  }

  predicate Unsuccessful(outcome: Outcome) {
    !outcome.Pending? && !outcome.Answered?
  }

  // ---------------------------------------------------------------- one session during one turn

  /** The session has stashed updates and no repair. */
  predicate Unwatched(s: State, key: string) {
    key in s.backlog && key !in s.repairs
  }

  /** What a turn sees and changes of one session, and of the error. */
  predicate SameFor(s: State, s': State, key: string) {
    && (key in s.backlog <==> key in s'.backlog) && BacklogOf(s, key) == BacklogOf(s', key)
    && (key in s.repairs <==> key in s'.repairs) && (key in s.repairs ==> s.repairs[key] == s'.repairs[key])
  }

  lemma {:induction false} IngestAllWatched(s: State, key: string, us: seq<Update>, accepts: nat -> bool)
    requires ValidSessionId(key) && Working(accepts) && AllFor(key, us)
    requires key in s.backlog <==> key in s.repairs
    ensures var s' := IngestAll(s, us, accepts);
            && (key in s'.backlog <==> key in s'.repairs) && (key in s.repairs ==> key in s'.repairs)
    decreases |us|
  {
    if us != [] {
      assert us[0].session == key;
      IngestAllWatched(Ingest(s, us[0], accepts), key, us[1..], accepts);
    }
  }

  lemma {:induction false} IngestAllStaysWatched(s: State, key: string, us: seq<Update>, accepts: nat -> bool)
    requires AllFor(key, us) && key in s.repairs
    ensures var s' := IngestAll(s, us, accepts); key in s'.repairs && s'.repairs[key] == s.repairs[key]
    decreases |us|
  {
    if us != [] {
      assert us[0].session == key;
      IngestAllStaysWatched(Ingest(s, us[0], accepts), key, us[1..], accepts);
    }
  }

  /** A replay without a request for the session ends with one exactly if it stashes something again. */
  lemma {:induction false} InstallWatches(s: State, p: Projection, accepts: nat -> bool)
    requires Working(accepts) && BacklogKeyed(s) && ValidSessionId(p.info.session)
    ensures var s' := Install(s, p, Repair, accepts);
            var key := p.info.session;
            && !Unwatched(s', key)
            && (key in s.repairs ==> key in s'.repairs)
            && (key !in s.repairs ==> (key in s'.backlog <==> key in s'.repairs))
  {
    var key := p.info.session;
    var s1 := Overwrite(s, p, Repair);
    var s2 := s1.(backlog := s1.backlog - {key});
    var us := SortBySequence(BacklogOf(s1, key));
    if key in s.repairs {
      IngestAllStaysWatched(s2, key, us, accepts);
    } else {
      IngestAllWatched(s2, key, us, accepts);
    }
  }

  lemma {:induction false} InstallElsewhere(s: State, p: Projection, key: string, accepts: nat -> bool)
    requires Working(accepts) && BacklogKeyed(s) && ValidSessionId(p.info.session)
    ensures Install(s, p, Repair, accepts).error == s.error
    ensures key != p.info.session ==> SameFor(s, Install(s, p, Repair, accepts), key)
  {
    var other := p.info.session;
    var s1 := Overwrite(s, p, Repair);
    var s2 := s1.(backlog := s1.backlog - {other});
    var us := SortBySequence(BacklogOf(s1, other));
    IngestAllElsewhere(s2, other, us, accepts);
    var s' := IngestAll(s2, us, accepts);
    if key != other {
      assert key in s'.backlog <==> key in s'.backlog - {other};
      assert key in s2.backlog <==> key in s2.backlog - {other};
      assert key in s'.repairs <==> key in s'.repairs - {other};
      assert key in s2.repairs <==> key in s2.repairs - {other};
    }
  }

  /** A turn that neither answers for the session nor puts its own pending request back leaves it alone. */
  lemma {:induction false} TurnElsewhere(s: State, turn: string, request: nat, outcome: Outcome, key: string, accepts: nat -> bool)
    requires Working(accepts) && BacklogKeyed(s) && TypedOutcome(outcome)
    requires !AnswersFor(outcome, key) && !(turn == key && outcome.Pending?)
    ensures SameFor(s, DriveOne(s, turn, request, outcome, accepts), key)
  {
    if outcome.Answered? {
      InstallElsewhere(s.(open := s.open - {request}), outcome.snapshot, key, accepts);
    }
  }

  lemma {:induction false} TurnError(s: State, turn: string, request: nat, outcome: Outcome, accepts: nat -> bool)
    requires Working(accepts) && BacklogKeyed(s) && TypedOutcome(outcome)
    ensures DriveOne(s, turn, request, outcome, accepts).error.Some? <==> s.error.Some? || Unsuccessful(outcome)
  {
    if outcome.Answered? {
      InstallElsewhere(s.(open := s.open - {request}), outcome.snapshot, "", accepts);
    }
  }

  lemma {:induction false} TurnKeepsKeyed(s: State, turn: string, request: nat, outcome: Outcome, accepts: nat -> bool)
    requires BacklogKeyed(s)
    ensures BacklogKeyed(DriveOne(s, turn, request, outcome, accepts))
  {
    if outcome.Answered? {
      var s1 := Overwrite(s.(open := s.open - {request}), outcome.snapshot, Repair);
      var key := outcome.snapshot.info.session;
      IngestAllKeepsKeyed(s1.(backlog := s1.backlog - {key}), SortBySequence(BacklogOf(s1, key)), accepts);
    }
  }

  // ---------------------------------------------------------------- which gaps a pass forgets

  /** Some request of the pass brings the session a repair: a snapshot of it, or its own request still pending. */
  predicate Rescued(key: string, taken: map<string, nat>, order: seq<string>, polls: map<nat, Outcome>)
    requires forall k :: k in order ==> k in taken
  {
    exists k | k in order ::
      var outcome := Poll(polls, taken[k]);
      AnswersFor(outcome, key) || (k == key && outcome.Pending?)
  }

  predicate Errs(taken: map<string, nat>, order: seq<string>, polls: map<nat, Outcome>)
    requires forall k :: k in order ==> k in taken
  {
    exists k | k in order :: Unsuccessful(Poll(polls, taken[k]))
  }

  /** One turn, for a session that may be without its repair. */
  lemma {:induction false} TurnWatches(s: State, turn: string, request: nat, outcome: Outcome, key: string, accepts: nat -> bool)
    requires Working(accepts) && BacklogKeyed(s) && TypedOutcome(outcome)
    ensures Unwatched(DriveOne(s, turn, request, outcome, accepts), key) <==>
              Unwatched(s, key) && !AnswersFor(outcome, key) && !(turn == key && outcome.Pending?)
  {
    if AnswersFor(outcome, key) {
      InstallWatches(s.(open := s.open - {request}), outcome.snapshot, accepts);
    } else if turn == key && outcome.Pending? {
    } else {
      TurnElsewhere(s, turn, request, outcome, key, accepts);
    }
  }

  lemma {:induction false} DriveAllWatches(s: State, taken: map<string, nat>, order: seq<string>, polls: map<nat, Outcome>,
                                           key: string, accepts: nat -> bool)
    requires forall k :: k in order ==> k in taken
    requires Working(accepts) && BacklogKeyed(s) && TypedPolls(polls)
    ensures Unwatched(DriveAll(s, taken, order, polls, accepts), key) <==>
              Unwatched(s, key) && !Rescued(key, taken, order, polls)
    decreases |order|
  {
    if order != [] {
      var turn := order[0];
      var outcome := Poll(polls, taken[turn]);
      TurnWatches(s, turn, taken[turn], outcome, key, accepts);
      TurnKeepsKeyed(s, turn, taken[turn], outcome, accepts);
      DriveAllWatches(DriveOne(s, turn, taken[turn], outcome, accepts), taken, order[1..], polls, key, accepts);
      RescuedFirst(key, taken, order, polls);
    }
  }

  lemma {:induction false} RescuedFirst(key: string, taken: map<string, nat>, order: seq<string>, polls: map<nat, Outcome>)
    requires order != [] && forall k :: k in order ==> k in taken
    ensures Rescued(key, taken, order, polls) <==>
              || AnswersFor(Poll(polls, taken[order[0]]), key)
              || (order[0] == key && Poll(polls, taken[key]).Pending?)
              || Rescued(key, taken, order[1..], polls)
  {
    assert forall k :: k in order <==> k == order[0] || k in order[1..];
  }

  lemma {:induction false} DriveAllError(s: State, taken: map<string, nat>, order: seq<string>, polls: map<nat, Outcome>,
                                         accepts: nat -> bool)
    requires forall k :: k in order ==> k in taken
    requires Working(accepts) && BacklogKeyed(s) && TypedPolls(polls)
    ensures DriveAll(s, taken, order, polls, accepts).error.Some? <==> s.error.Some? || Errs(taken, order, polls)
    decreases |order|
  {
    if order != [] {
      var turn := order[0];
      var outcome := Poll(polls, taken[turn]);
      TurnError(s, turn, taken[turn], outcome, accepts);
      TurnKeepsKeyed(s, turn, taken[turn], outcome, accepts);
      DriveAllError(DriveOne(s, turn, taken[turn], outcome, accepts), taken, order[1..], polls, accepts);
      assert forall k :: k in order <==> k == order[0] || k in order[1..];
    }
  }

  /**
   * Which gaps a pass forgets, whatever the answers are: a session with stashed updates ends the pass without a
   * repair and without an error if and only if no request of the pass fails, its own request is answered, and no
   * request of the pass, its own included, is answered with a snapshot of it. Answers that are crossed among the
   * sessions of the pass therefore forget nothing.
   */
  lemma {:induction false} PassForgetsGapIff(s: State, order: seq<string>, polls: map<nat, Outcome>, key: string, accepts: nat -> bool)
    requires Working(accepts) && TypedPolls(polls) && Enumerates(order, s.repairs.Keys)
    requires BacklogKeyed(s) && GapInv(s, map[]) && s.error.None? && key in s.backlog
    ensures key in s.repairs
    ensures var s' := Drive(s, order, polls, accepts);
            (key in s'.backlog && key !in s'.repairs && s'.error.None?) <==>
              && (forall k | k in s.repairs :: !Unsuccessful(Poll(polls, s.repairs[k])))
              && Poll(polls, s.repairs[key]).Answered?
              && (forall k | k in s.repairs :: !AnswersFor(Poll(polls, s.repairs[k]), key))
  {
    var s0 := s.(repairs := map[]);
    DriveAllWatches(s0, s.repairs, order, polls, key, accepts);
    DriveAllError(s0, s.repairs, order, polls, accepts);
  }

  // ---------------------------------------------------------------- which requests a pass replaces

  /** A number is missing between the position and a waiting update. */
  predicate MissingBelow(waiting: seq<Update>, t: nat, q: nat) {
    exists m | t < m < q :: !Has(waiting, m)
  }

  /** A replay from position `t` comes to a gap. */
  predicate StopsAtGap(t: nat, waiting: seq<Update>) {
    exists u | u in waiting :: MissingBelow(waiting, t, u.sequence)
  }

  lemma {:induction false} BeyondRunIsGap(t: nat, waiting: seq<Update>, run: seq<Update>)
    requires MaximalRun(t, waiting, run)
    ensures StopsAtGap(t, waiting) <==> exists u | u in waiting :: u.sequence > t + |run|
  {
    RunCovers(t, waiting, run);
    forall u | u in waiting ensures MissingBelow(waiting, t, u.sequence) <==> u.sequence > t + |run| {
      if u.sequence > t + |run| {
        assert u.sequence != t + |run| + 1;
        assert !Has(waiting, t + |run| + 1);
      }
    }
  }

  lemma {:induction false} ReplayStashesIff(s: State, key: string, accepts: nat -> bool)
    requires key in s.sessions && BacklogKeyed(s) && U64Sequences(BacklogOf(s, key))
    ensures key in Replay(s, key, accepts).backlog <==> StopsAtGap(s.sessions[key].through, BacklogOf(s, key))
  {
    ReplayClosedForm(s, key, accepts);
    var s', waiting := Replay(s, key, accepts), BacklogOf(s, key);
    var p, p' := s.sessions[key], s'.sessions[key];
    var run := p'.updates[|p.updates|..];
    BeyondRunIsGap(p.through, waiting, run);
    AfterMembers(p'.through, SortBySequence(waiting));
    var rest := After(p'.through, SortBySequence(waiting));
    if rest != [] {
      assert rest[0] in rest;
    }
  }

  /** The first snapshot of the session that the pass is given before it comes to the session's own request. */
  function FirstAnswerBefore(key: string, taken: map<string, nat>, order: seq<string>, polls: map<nat, Outcome>): Option<Projection>
    requires forall k :: k in order ==> k in taken
    decreases |order|
  {
    if order == [] || order[0] == key then None
    else if AnswersFor(Poll(polls, taken[order[0]]), key) then Some(Poll(polls, taken[order[0]]).snapshot)
    else FirstAnswerBefore(key, taken, order[1..], polls)
  }

  predicate GapBefore(key: string, waiting: seq<Update>, taken: map<string, nat>, order: seq<string>, polls: map<nat, Outcome>)
    requires forall k :: k in order ==> k in taken
  {
    var first := FirstAnswerBefore(key, taken, order, polls);
    first.Some? && StopsAtGap(first.value.through, waiting)
  }

  /** When the pass comes to the session's own request, the table has another one for it. */
  predicate Replaced(s: State, key: string, taken: map<string, nat>, order: seq<string>, polls: map<nat, Outcome>)
    requires forall k :: k in order ==> k in taken
  {
    key in s.repairs || GapBefore(key, BacklogOf(s, key), taken, order, polls)
  }

  lemma {:induction false} TurnReplaced(s: State, key: string, taken: map<string, nat>, order: seq<string>,
                                        polls: map<nat, Outcome>, accepts: nat -> bool)
    requires order != [] && (forall k :: k in order ==> k in taken) && order[0] != key
    requires Working(accepts) && BacklogKeyed(s) && TypedPolls(polls) && U64Sequences(BacklogOf(s, key))
    ensures var outcome := Poll(polls, taken[order[0]]);
            Replaced(s, key, taken, order, polls) <==>
              Replaced(DriveOne(s, order[0], taken[order[0]], outcome, accepts), key, taken, order[1..], polls)
  {
    var request := taken[order[0]];
    var outcome := Poll(polls, request);
    if AnswersFor(outcome, key) {
      var s0 := s.(open := s.open - {request});
      InstallWatches(s0, outcome.snapshot, accepts);
      ReplayStashesIff(Overwrite(s0, outcome.snapshot, Repair), key, accepts);
    } else {
      TurnElsewhere(s, order[0], request, outcome, key, accepts);
    }
  }

  /** Entries of the backlog hold something, and its sequence numbers are u64 values. */
  predicate Backlog64(s: State) {
    forall k | k in s.backlog :: s.backlog[k] != [] && U64Sequences(s.backlog[k])
  }

  lemma {:induction false} IngestAllKeeps64(s: State, us: seq<Update>, accepts: nat -> bool)
    requires Backlog64(s) && U64Sequences(us)
    ensures Backlog64(IngestAll(s, us, accepts))
    decreases |us|
  {
    if us != [] {
      assert U64Sequences(BacklogOf(s, us[0].session) + [us[0]]);
      IngestAllKeeps64(Ingest(s, us[0], accepts), us[1..], accepts);
    }
  }

  lemma {:induction false} InstallKeeps64(s: State, p: Projection, reason: Reason, accepts: nat -> bool)
    requires Backlog64(s)
    ensures Backlog64(Install(s, p, reason, accepts))
  {
    var s1 := Overwrite(s, p, reason);
    var key := p.info.session;
    IngestAllKeeps64(s1.(backlog := s1.backlog - {key}), SortBySequence(BacklogOf(s1, key)), accepts);
  }

  lemma {:induction false} TurnKeeps64(s: State, turn: string, request: nat, outcome: Outcome, accepts: nat -> bool)
    requires Backlog64(s)
    ensures Backlog64(DriveOne(s, turn, request, outcome, accepts))
  {
    if outcome.Answered? {
      InstallKeeps64(s.(open := s.open - {request}), outcome.snapshot, Repair, accepts);
    }
  }

  // ---------------------------------------------------------------- the requests the table no longer knows

  /** The open requests are those of the table and `others`, each once. */
  predicate Holds(s: State, others: set<nat>) {
    && Injective(s.repairs)
    && s.repairs.Values !! others
    && s.open == s.repairs.Values + others
    && forall r | r in s.open :: r < s.submitted
  }

  lemma {:induction false} ScheduleKeepsOpen(s: State, key: string, accepts: nat -> bool, others: set<nat>)
    requires Holds(s, others)
    ensures Holds(Schedule(s, key, accepts), others)
  {
    if key !in s.repairs && ValidSessionId(key) && accepts(s.submitted) {
      SubmitKeepsOpen(s, key, Schedule(s, key, accepts), others);
    }
  }

  lemma {:induction false} SubmitKeepsOpen(s: State, key: string, s': State, others: set<nat>)
    requires Holds(s, others) && key !in s.repairs
    requires s'.repairs == s.repairs[key := s.submitted] && s'.open == s.open + {s.submitted}
    requires s'.submitted == s.submitted + 1
    ensures Holds(s', others)
  {
    HoldOneMore(s.repairs, key, s.submitted);
  }

  lemma {:induction false} IngestAllKeepsOpen(s: State, us: seq<Update>, accepts: nat -> bool, others: set<nat>)
    requires Holds(s, others)
    ensures Holds(IngestAll(s, us, accepts), others)
    decreases |us|
  {
    if us != [] {
      IngestKeepsOpen(s, us[0], accepts, others);
      IngestAllKeepsOpen(Ingest(s, us[0], accepts), us[1..], accepts, others);
    }
  }

  lemma {:induction false} IngestKeepsOpen(s: State, u: Update, accepts: nat -> bool, others: set<nat>)
    requires Holds(s, others)
    ensures Holds(Ingest(s, u, accepts), others)
  {
    var key := u.session;
    if key !in s.sessions || SaturatingSucc(s.sessions[key].through) < u.sequence {
      ScheduleKeepsOpen(Stash(s, key, u), key, accepts, others);
    }
  }

  /** The requests that the turn of `key` takes out of the table by putting the pending one back. */
  function ReplacedAt(s: State, key: string, outcome: Outcome): set<nat> {
    if outcome.Pending? && key in s.repairs then {s.repairs[key]} else {}
  }

  lemma {:induction false} PutBackHolds(s: State, key: string, request: nat, others: set<nat>)
    requires Holds(s, others) && request in others
    ensures Holds(s.(repairs := s.repairs[key := request]), others - {request} + ReplacedAt(s, key, Pending))
  {
    var without := s.repairs - {key};
    if key in s.repairs {
      HoldOneLess(s.repairs, key);
    } else {
      assert without == s.repairs;
    }
    HoldOneMore(without, key, request);
    assert without[key := request] == s.repairs[key := request];
  }

  lemma {:induction false} TurnHolds(s: State, key: string, request: nat, outcome: Outcome, accepts: nat -> bool, others: set<nat>)
    requires Holds(s, others) && request in others
    ensures Holds(DriveOne(s, key, request, outcome, accepts), others - {request} + ReplacedAt(s, key, outcome))
  {
    if outcome.Pending? {
      PutBackHolds(s, key, request, others);
    } else {
      var s0 := s.(open := s.open - {request});
      assert Holds(s0, others - {request});
      assert others - {request} + {} == others - {request};
      if outcome.Answered? {
        var s1 := Overwrite(s0, outcome.snapshot, Repair);
        var k := outcome.snapshot.info.session;
        IngestAllKeepsOpen(s1.(backlog := s1.backlog - {k}), SortBySequence(BacklogOf(s1, k)), accepts, others - {request});
      }
    }
  }

  /** All requests that a pass replaces. */
  function Lost(s: State, taken: map<string, nat>, order: seq<string>, polls: map<nat, Outcome>, accepts: nat -> bool): set<nat>
    requires forall k :: k in order ==> k in taken
    decreases |order|
  {
    if order == [] then {}
    else
      var outcome := Poll(polls, taken[order[0]]);
      ReplacedAt(s, order[0], outcome)
      + Lost(DriveOne(s, order[0], taken[order[0]], outcome, accepts), taken, order[1..], polls, accepts)
  }

  function Requests(taken: map<string, nat>, order: seq<string>): set<nat>
    requires forall k :: k in order ==> k in taken
  {
    set k | k in order :: taken[k]
  }

  predicate Distinct(order: seq<string>) {
    forall i, j :: 0 <= i < j < |order| ==> order[i] != order[j]
  }

  lemma {:induction false} RequestsFirst(taken: map<string, nat>, order: seq<string>)
    requires order != [] && Distinct(order) && Injective(taken) && forall k :: k in order ==> k in taken
    ensures order[0] !in order[1..] && taken[order[0]] !in Requests(taken, order[1..])
    ensures Requests(taken, order) == {taken[order[0]]} + Requests(taken, order[1..])
  {
    assert forall k :: k in order <==> k == order[0] || k in order[1..];
  }

  lemma {:induction false} DriveAllLoses(s: State, taken: map<string, nat>, order: seq<string>, polls: map<nat, Outcome>,
                                         accepts: nat -> bool, lost: set<nat>)
    requires Distinct(order) && Injective(taken) && forall k :: k in order ==> k in taken
    requires Requests(taken, order) !! lost && Holds(s, Requests(taken, order) + lost)
    ensures Holds(DriveAll(s, taken, order, polls, accepts), lost + Lost(s, taken, order, polls, accepts))
    decreases |order|
  {
    if order == [] {
      assert Requests(taken, order) + lost == lost && lost + {} == lost;
    } else {
      var request := taken[order[0]];
      var outcome := Poll(polls, request);
      var here := ReplacedAt(s, order[0], outcome);
      var s1 := DriveOne(s, order[0], request, outcome, accepts);
      RequestsFirst(taken, order);
      TurnHolds(s, order[0], request, outcome, accepts, Requests(taken, order) + lost);
      assert Requests(taken, order) + lost - {request} + here == Requests(taken, order[1..]) + (lost + here);
      DriveAllLoses(s1, taken, order[1..], polls, accepts, lost + here);
      assert lost + here + Lost(s1, taken, order[1..], polls, accepts) == lost + Lost(s, taken, order, polls, accepts);
    }
  }

  predicate NoneReplaced(s: State, taken: map<string, nat>, order: seq<string>, polls: map<nat, Outcome>)
    requires forall k :: k in order ==> k in taken
  {
    forall k | k in order && Poll(polls, taken[k]).Pending? :: !Replaced(s, k, taken, order, polls)
  }

  lemma {:induction false} LostIffReplaced(s: State, taken: map<string, nat>, order: seq<string>, polls: map<nat, Outcome>,
                                           accepts: nat -> bool)
    requires Distinct(order) && forall k :: k in order ==> k in taken
    requires Working(accepts) && BacklogKeyed(s) && TypedPolls(polls) && Backlog64(s)
    ensures Lost(s, taken, order, polls, accepts) == {} <==> NoneReplaced(s, taken, order, polls)
    decreases |order|
  {
    if order != [] {
      var turn := order[0];
      var outcome := Poll(polls, taken[turn]);
      var s1 := DriveOne(s, turn, taken[turn], outcome, accepts);
      TurnKeepsKeyed(s, turn, taken[turn], outcome, accepts);
      TurnKeeps64(s, turn, taken[turn], outcome, accepts);
      LostIffReplaced(s1, taken, order[1..], polls, accepts);
      NoneReplacedFirst(s, taken, order, polls, accepts);
    }
  }

  lemma {:induction false} NoneReplacedFirst(s: State, taken: map<string, nat>, order: seq<string>, polls: map<nat, Outcome>,
                                             accepts: nat -> bool)
    requires order != [] && Distinct(order) && forall k :: k in order ==> k in taken
    requires Working(accepts) && BacklogKeyed(s) && TypedPolls(polls) && Backlog64(s)
    ensures var outcome := Poll(polls, taken[order[0]]);
            NoneReplaced(s, taken, order, polls) <==>
              && ReplacedAt(s, order[0], outcome) == {}
              && NoneReplaced(DriveOne(s, order[0], taken[order[0]], outcome, accepts), taken, order[1..], polls)
  {
    forall k | k in order[1..]
      ensures Replaced(s, k, taken, order, polls) <==>
                Replaced(DriveOne(s, order[0], taken[order[0]], Poll(polls, taken[order[0]]), accepts), k, taken, order[1..], polls)
    {
      TurnReplaced(s, k, taken, order, polls, accepts);
    }
    assert forall k :: k in order <==> k == order[0] || k in order[1..];
  }

  /**
   * Which requests a pass replaces, whatever the answers are: the open requests are those of the table if and only
   * if no session whose own request is pending is first, earlier in the pass, given a snapshot from which its
   * backlog does not continue without a gap.
   */
  lemma {:induction false} PassKeepsRequestsIff(s: State, order: seq<string>, polls: map<nat, Outcome>, accepts: nat -> bool)
    requires Working(accepts) && TypedPolls(polls) && Enumerates(order, s.repairs.Keys)
    requires BacklogKeyed(s) && Backlog64(s) && RequestsHeld(s, map[])
    ensures var s' := Drive(s, order, polls, accepts);
            && Holds(s', s'.open - s'.repairs.Values)
            && (s'.open == s'.repairs.Values <==>
                forall k | k in s.repairs && Poll(polls, s.repairs[k]).Pending? ::
                  !GapBefore(k, BacklogOf(s, k), s.repairs, order, polls))
  {
    var s0 := s.(repairs := map[]);
    assert s.repairs + map[] == s.repairs;
    assert Requests(s.repairs, order) == s.repairs.Values;
    assert Requests(s.repairs, order) + {} == s.repairs.Values && s0.repairs.Values == {};
    DriveAllLoses(s0, s.repairs, order, polls, accepts, {});
    LostIffReplaced(s0, s.repairs, order, polls, accepts);
    var s' := Drive(s, order, polls, accepts);
    var lost := Lost(s0, s.repairs, order, polls, accepts);
    assert {} + lost == lost;
    assert s'.open - s'.repairs.Values == lost;
  }

  // ---------------------------------------------------------------- the same in key order

  /** The request of `j` is the one of least key that is answered with a snapshot of `key`, and its key is smaller. */
  predicate AnsweredBelow(key: string, j: string, taken: map<string, nat>, polls: map<nat, Outcome>)
    requires j in taken
  {
    && Before(j, key)
    && AnswersFor(Poll(polls, taken[j]), key)
    && forall i | i in taken && AnswersFor(Poll(polls, taken[i]), key) :: !Before(i, j)
  }

  /** A pass in key order is first given the answer of least key. */
  lemma {:induction false} LeastIsFirst(key: string, j: string, taken: map<string, nat>, order: seq<string>, polls: map<nat, Outcome>)
    requires Ascending(order) && j in order && (forall k :: k in order ==> k in taken) && AnsweredBelow(key, j, taken, polls)
    ensures FirstAnswerBefore(key, taken, order, polls) == Some(Poll(polls, taken[j]).snapshot)
    decreases |order|
  {
    BeforeAsymmetric(j, key);
    if order[0] != j {
      assert Before(order[0], j);
      LeastIsFirst(key, j, taken, order[1..], polls);
    }
  }

  lemma {:induction false} FirstIsLeast(key: string, taken: map<string, nat>, order: seq<string>, polls: map<nat, Outcome>)
    returns (j: string)
    requires Ascending(order) && key in order && (forall k :: k in order ==> k in taken)
    requires FirstAnswerBefore(key, taken, order, polls).Some?
    ensures j in order && Before(j, key) && AnswersFor(Poll(polls, taken[j]), key)
    ensures FirstAnswerBefore(key, taken, order, polls) == Some(Poll(polls, taken[j]).snapshot)
    ensures forall i | i in order && AnswersFor(Poll(polls, taken[i]), key) :: !Before(i, j)
    decreases |order|
  {
    if AnswersFor(Poll(polls, taken[order[0]]), key) {
      j := order[0];
      assert Before(j, key);
      forall i | i in order
        ensures !Before(i, j)
      {
        NotBeforeFirst(order, i);
      }
    } else {
      j := FirstIsLeast(key, taken, order[1..], polls);
    }
  }

  lemma {:induction false} NotBeforeFirst(order: seq<string>, i: string)
    requires Ascending(order) && i in order
    ensures !Before(i, order[0])
  {
    if Before(i, order[0]) {
      BeforeAsymmetric(i, order[0]);
    }
  }

  /**
   * Which requests a pass in the program's key order replaces: the open requests are those of the table if and only if
   * for no pending session the answer of least key that is a snapshot of it belongs to a smaller key and leaves its
   * backlog with a gap. So only a misdirected answer to a smaller key can replace a pending request.
   */
  lemma {:induction false} KeyOrderKeepsRequestsIff(s: State, order: seq<string>, polls: map<nat, Outcome>, accepts: nat -> bool)
    requires Working(accepts) && TypedPolls(polls) && InKeyOrder(order, s.repairs.Keys)
    requires BacklogKeyed(s) && Backlog64(s) && RequestsHeld(s, map[])
    ensures var s' := Drive(s, order, polls, accepts);
            s'.open == s'.repairs.Values <==>
              forall j, k | j in s.repairs && k in s.repairs && Poll(polls, s.repairs[k]).Pending?
                            && AnsweredBelow(k, j, s.repairs, polls) ::
                !StopsAtGap(Poll(polls, s.repairs[j]).snapshot.through, BacklogOf(s, k))
  {
    PassKeepsRequestsIff(s, order, polls, accepts);
    forall k | k in s.repairs
      ensures GapBefore(k, BacklogOf(s, k), s.repairs, order, polls) <==>
                exists j :: j in s.repairs && AnsweredBelow(k, j, s.repairs, polls)
                            && StopsAtGap(Poll(polls, s.repairs[j]).snapshot.through, BacklogOf(s, k))
    {
      GapBelowIff(k, BacklogOf(s, k), s.repairs, order, polls);
    }
  }

  lemma {:induction false} GapBelowIff(key: string, waiting: seq<Update>, taken: map<string, nat>, order: seq<string>,
                                       polls: map<nat, Outcome>)
    requires InKeyOrder(order, taken.Keys) && key in taken
    ensures GapBefore(key, waiting, taken, order, polls) <==>
              exists j :: j in taken && AnsweredBelow(key, j, taken, polls)
                          && StopsAtGap(Poll(polls, taken[j]).snapshot.through, waiting)
  {
    if GapBefore(key, waiting, taken, order, polls) {
      var j := FirstIsLeast(key, taken, order, polls);
      assert AnsweredBelow(key, j, taken, polls);
    }
    if j :| j in taken && AnsweredBelow(key, j, taken, polls) && StopsAtGap(Poll(polls, taken[j]).snapshot.through, waiting) {
      LeastIsFirst(key, j, taken, order, polls);
    }
  }

  // ---------------------------------------------------------------- whole runs

  /** What the types of the source say about an action's numbers and ids. */
  predicate TypedAction(a: Action) {
    match a
    case Arrive(u) => u.sequence <= U64_MAX
    case DriveRepairs(_, polls) => TypedPolls(polls)
    case _ => true
  }

  /** Every gap without an error gets a repair from some request of the pass. */
  predicate RepairsGaps(s: State, order: seq<string>, polls: map<nat, Outcome>)
    requires Enumerates(order, s.repairs.Keys)
  {
    s.error.Some? || Errs(s.repairs, order, polls) || forall k | k in s.backlog :: Rescued(k, s.repairs, order, polls)
  }

  predicate KeepsRequests(s: State, order: seq<string>, polls: map<nat, Outcome>)
    requires Enumerates(order, s.repairs.Keys)
  {
    forall k | k in s.repairs && Poll(polls, s.repairs[k]).Pending? :: !GapBefore(k, BacklogOf(s, k), s.repairs, order, polls)
  }

  predicate PassOk(s: State, a: Action)
    requires Enabled(s, a)
  {
    a.DriveRepairs? ==> RepairsGaps(s, a.order, a.polls) && KeepsRequests(s, a.order, a.polls)
  }

  lemma {:induction false} DriveAllKeepsStashed(s: State, taken: map<string, nat>, order: seq<string>, polls: map<nat, Outcome>,
                                                accepts: nat -> bool)
    requires forall k :: k in order ==> k in taken
    requires BacklogKeyed(s) && Backlog64(s)
    ensures BacklogKeyed(DriveAll(s, taken, order, polls, accepts)) && Backlog64(DriveAll(s, taken, order, polls, accepts))
    decreases |order|
  {
    if order != [] {
      var request := taken[order[0]];
      TurnKeepsKeyed(s, order[0], request, Poll(polls, request), accepts);
      TurnKeeps64(s, order[0], request, Poll(polls, request), accepts);
      DriveAllKeepsStashed(DriveOne(s, order[0], request, Poll(polls, request), accepts), taken, order[1..], polls, accepts);
    }
  }

  lemma {:induction false} StepKeepsStashed(s: State, a: Action, accepts: nat -> bool)
    requires Enabled(s, a) && TypedAction(a) && BacklogKeyed(s) && Backlog64(s)
    ensures BacklogKeyed(Step(s, a, accepts)) && Backlog64(Step(s, a, accepts))
  {
    match a
    case Arrive(u) =>
      assert IngestAll(Ingest(s, u, accepts), [u][1..], accepts) == Ingest(s, u, accepts);
      IngestAllKeeps64(s, [u], accepts);
      IngestKeepsKeyed(s, u, accepts);
    case Resumed(p) =>
      InstallKeeps64(s, p, Resume, accepts);
      var s1 := Overwrite(s, p, Resume);
      IngestAllKeepsKeyed(s1.(backlog := s1.backlog - {p.info.session}), SortBySequence(BacklogOf(s1, p.info.session)), accepts);
    case DriveRepairs(order, polls) =>
      DriveAllKeepsStashed(s.(repairs := map[]), s.repairs, order, polls, accepts);
    case _ =>
  }

  lemma {:induction false} PassWatchesIff(s: State, order: seq<string>, polls: map<nat, Outcome>, accepts: nat -> bool)
    requires Working(accepts) && TypedPolls(polls) && Enumerates(order, s.repairs.Keys)
    requires BacklogKeyed(s) && Backlog64(s)
    ensures GapsWatched(Drive(s, order, polls, accepts), map[]) <==> RepairsGaps(s, order, polls)
  {
    var s0 := s.(repairs := map[]);
    var s' := Drive(s, order, polls, accepts);
    DriveAllError(s0, s.repairs, order, polls, accepts);
    DriveAllKeepsStashed(s0, s.repairs, order, polls, accepts);
    forall key ensures Unwatched(s', key) <==> key in s.backlog && !Rescued(key, s.repairs, order, polls) {
      DriveAllWatches(s0, s.repairs, order, polls, key, accepts);
    }
    WatchedIff(s');
    assert (forall k | k in s.backlog :: Rescued(k, s.repairs, order, polls)) <==> forall k :: !Unwatched(s', k);
  }

  lemma {:induction false} WatchedIff(s: State)
    requires Backlog64(s)
    ensures GapsWatched(s, map[]) <==> s.error.Some? || forall k :: !Unwatched(s, k)
  {
    if s.error.None? && GapsWatched(s, map[]) {
      forall k ensures !Unwatched(s, k) {
        assert k in s.backlog ==> s.backlog[k] != [] && k in s.repairs;
      }
    } else if forall k :: !Unwatched(s, k) {
      forall k | k in s.backlog ensures s.backlog[k] != [] && k in s.repairs {
        assert !Unwatched(s, k);
      }
    }
  }

  lemma {:induction false} HeldIffOpen(s: State)
    requires Holds(s, s.open - s.repairs.Values)
    ensures RequestsHeld(s, map[]) <==> s.open == s.repairs.Values
  {
    assert s.repairs + map[] == s.repairs;
  }

  lemma {:induction false} StepHealthyIff(s: State, a: Action, accepts: nat -> bool)
    requires Working(accepts) && TypedAction(a) && Enabled(s, a)
    requires BacklogKeyed(s) && Backlog64(s) && GapInv(s, map[])
    ensures GapInv(Step(s, a, accepts), map[]) <==> PassOk(s, a)
  {
    if a.DriveRepairs? {
      PassWatchesIff(s, a.order, a.polls, accepts);
      PassKeepsRequestsIff(s, a.order, a.polls, accepts);
      HeldIffOpen(Drive(s, a.order, a.polls, accepts));
    } else {
      StepHolds(s, a, accepts);
    }
  }

  predicate AlwaysHealthy(s: State, actions: seq<Action>, accepts: nat -> bool)
    requires Runnable(s, actions, accepts)
    decreases |actions|
  {
    GapInv(s, map[]) && (actions == [] || AlwaysHealthy(Step(s, actions[0], accepts), actions[1..], accepts))
  }

  predicate AlwaysPassOk(s: State, actions: seq<Action>, accepts: nat -> bool)
    requires Runnable(s, actions, accepts)
    decreases |actions|
  {
    actions == [] ||
    (PassOk(s, actions[0]) && AlwaysPassOk(Step(s, actions[0], accepts), actions[1..], accepts))
  }

  lemma {:induction false} RunHealthyIff(s: State, actions: seq<Action>, accepts: nat -> bool)
    requires Working(accepts) && Runnable(s, actions, accepts) && forall a | a in actions :: TypedAction(a)
    requires BacklogKeyed(s) && Backlog64(s) && GapInv(s, map[])
    ensures AlwaysHealthy(s, actions, accepts) <==> AlwaysPassOk(s, actions, accepts)
    decreases |actions|
  {
    if actions != [] {
      var s1 := Step(s, actions[0], accepts);
      StepHealthyIff(s, actions[0], accepts);
      StepKeepsStashed(s, actions[0], accepts);
      if GapInv(s1, map[]) {
        RunHealthyIff(s1, actions[1..], accepts);
      }
    }
  }

  /**
   * Over whole runs with a working worker: in every state every gap has its repair or an error is recorded and the
   * open requests are one per session of the table, if and only if every pass of the run brings each gap a repair
   * and replaces no request.
   */
  lemma {:induction false} AlwaysHealthyIff(actions: seq<Action>, accepts: nat -> bool)
    requires Working(accepts) && Runnable(InitialState, actions, accepts) && forall a | a in actions :: TypedAction(a)
    ensures AlwaysHealthy(InitialState, actions, accepts) <==> AlwaysPassOk(InitialState, actions, accepts)
  {
    RunHealthyIff(InitialState, actions, accepts);
  }

  // ---------------------------------------------------------------- a replaced request stays open

  /** The request was accepted, was not consumed, and no session of the table has it. */
  predicate Orphan(s: State, n: nat) {
    n in s.open && n !in s.repairs.Values && n < s.submitted
  }

  lemma {:induction false} IngestAllKeepsOrphan(s: State, us: seq<Update>, accepts: nat -> bool, n: nat)
    requires Orphan(s, n)
    ensures Orphan(IngestAll(s, us, accepts), n)
    decreases |us|
  {
    if us != [] {
      assert Orphan(Ingest(s, us[0], accepts), n);
      IngestAllKeepsOrphan(Ingest(s, us[0], accepts), us[1..], accepts, n);
    }
  }

  lemma {:induction false} InstallKeepsOrphan(s: State, p: Projection, reason: Reason, accepts: nat -> bool, n: nat)
    requires Orphan(s, n)
    ensures Orphan(Install(s, p, reason, accepts), n)
  {
    var s1 := Overwrite(s, p, reason);
    var key := p.info.session;
    IngestAllKeepsOrphan(s1.(backlog := s1.backlog - {key}), SortBySequence(BacklogOf(s1, key)), accepts, n);
  }

  lemma {:induction false} DriveAllKeepsOrphan(s: State, taken: map<string, nat>, order: seq<string>, polls: map<nat, Outcome>,
                                               accepts: nat -> bool, n: nat)
    requires (forall k :: k in order ==> k in taken) && n !in taken.Values
    requires Orphan(s, n)
    ensures Orphan(DriveAll(s, taken, order, polls, accepts), n)
    decreases |order|
  {
    if order != [] {
      var request := taken[order[0]];
      var outcome := Poll(polls, request);
      assert request != n;
      var s1 := DriveOne(s, order[0], request, outcome, accepts);
      if outcome.Answered? {
        InstallKeepsOrphan(s.(open := s.open - {request}), outcome.snapshot, Repair, accepts, n);
      }
      assert Orphan(s1, n);
      DriveAllKeepsOrphan(s1, taken, order[1..], polls, accepts, n);
    }
  }

  lemma {:induction false} StepKeepsOrphan(s: State, a: Action, accepts: nat -> bool, n: nat)
    requires Enabled(s, a) && Orphan(s, n)
    ensures Orphan(Step(s, a, accepts), n)
  {
    match a
    case Arrive(u) => IngestAllKeepsOrphan(s, [u], accepts, n);
      assert IngestAll(Ingest(s, u, accepts), [u][1..], accepts) == Ingest(s, u, accepts);
    case Resumed(p) => InstallKeepsOrphan(s, p, Resume, accepts, n);
    case DriveRepairs(order, polls) =>
      DriveAllKeepsOrphan(s.(repairs := map[]), s.repairs, order, polls, accepts, n);
    case _ =>
  }

  /** The answer to a replaced request is never consumed, whatever happens next. */
  lemma {:induction false} ReplacedStaysOpen(s: State, actions: seq<Action>, accepts: nat -> bool, n: nat)
    requires Runnable(s, actions, accepts) && Orphan(s, n)
    ensures Orphan(Run(s, actions, accepts), n)
    decreases |actions|
  {
    if actions != [] {
      StepKeepsOrphan(s, actions[0], accepts, n);
      ReplacedStaysOpen(Step(s, actions[0], accepts), actions[1..], accepts, n);
    }
  }

  // ---------------------------------------------------------------- a run that replaces a request

  lemma {:induction false} FirstGap(s: State, key: string, q: nat, accepts: nat -> bool)
    requires Working(accepts) && ValidSessionId(key) && 1 < q
    requires key !in s.sessions && key !in s.repairs && key !in s.backlog
    ensures var u := Update(key, q, OtherChange(""));
            Ingest(s, u, accepts) ==
              s.(backlog := s.backlog[key := [u]], repairs := s.repairs[key := s.submitted], submitted := s.submitted + 1,
                 open := s.open + {s.submitted})
  {
    assert [] + [Update(key, q, OtherChange(""))] == [Update(key, q, OtherChange(""))];
  }

  function TwoGaps(accepts: nat -> bool): State {
    Ingest(Ingest(InitialState, Update("a", 2, OtherChange("")), accepts), Update("b", 2, OtherChange("")), accepts)
  }

  lemma {:induction false} TwoGapsIs(accepts: nat -> bool)
    requires Working(accepts)
    ensures var s := TwoGaps(accepts);
            && s.repairs == map["a" := 0, "b" := 1] && s.error.None?
            && s.backlog == map["a" := [Update("a", 2, OtherChange(""))], "b" := [Update("b", 2, OtherChange(""))]]
            && BacklogKeyed(s) && Backlog64(s) && GapInv(s, map[])
  {
    assert ValidSessionId("a") && ValidSessionId("b");
    FirstGap(InitialState, "a", 2, accepts);
    var s1 := Ingest(InitialState, Update("a", 2, OtherChange("")), accepts);
    FirstGap(s1, "b", 2, accepts);
    StepHolds(InitialState, Arrive(Update("a", 2, OtherChange(""))), accepts);
    StepHolds(s1, Arrive(Update("b", 2, OtherChange(""))), accepts);
  }

  /**
   * Gaps for "a" and "b", then a pass that comes to "a" first: its repair is answered with an old snapshot of "b" while
   * the repair of "b" is pending, and the repair of "b" scheduled by that snapshot is replaced.
   */
  lemma {:induction false} CrossedAnswerReplacesRequest(accepts: nat -> bool)
    requires Working(accepts)
    ensures var s := TwoGaps(accepts);
            var a := DriveRepairs(["a", "b"], map[0 := Answered(Projection(Info("b", None, "/"), 0, []))]);
            && Enabled(s, a)
            && Step(s, a, accepts).open != Step(s, a, accepts).repairs.Values
  {
    TwoGapsIs(accepts);
    assert ValidSessionId("b");
    assert "a"[0] < "b"[0];
    PassCrossed(TwoGaps(accepts), "a", "b", Update("b", 2, OtherChange("")), Projection(Info("b", None, "/"), 0, []), accepts);
  }

  /** The request of `a` is answered with a snapshot of `b` that leaves a gap, while the request of `b` is pending. */
  lemma {:induction false} PassCrossed(s: State, a: string, b: string, u: Update, p: Projection, accepts: nat -> bool)
    requires Working(accepts) && BacklogKeyed(s) && Backlog64(s) && RequestsHeld(s, map[])
    requires Before(a, b) && s.repairs == map[a := 0, b := 1] && b in s.backlog && s.backlog[b] == [u]
    requires p.info.session == b && ValidSessionId(b) && u.sequence > p.through + 1
    ensures var pass := DriveRepairs([a, b], map[0 := Answered(p)]);
            Enabled(s, pass) && Step(s, pass, accepts).open != Step(s, pass, accepts).repairs.Values
  {
    BeforeAsymmetric(a, b);
    TwoInOrder(a, b, s.repairs);
    assert Poll(map[0 := Answered(p)], 1).Pending?;
    CrossedGap(a, b, u, p, s.repairs);
    GapReplaces(s, [a, b], map[0 := Answered(p)], b, accepts);
  }

  /** One pending session with a gap before its own turn is enough. */
  lemma {:induction false} GapReplaces(s: State, order: seq<string>, polls: map<nat, Outcome>, key: string, accepts: nat -> bool)
    requires Working(accepts) && TypedPolls(polls) && Enumerates(order, s.repairs.Keys)
    requires BacklogKeyed(s) && Backlog64(s) && RequestsHeld(s, map[])
    requires key in s.repairs && Poll(polls, s.repairs[key]).Pending?
    requires GapBefore(key, BacklogOf(s, key), s.repairs, order, polls)
    ensures Drive(s, order, polls, accepts).open != Drive(s, order, polls, accepts).repairs.Values
  {
    PassKeepsRequestsIff(s, order, polls, accepts);
  }

  lemma {:induction false} TwoInOrder(a: string, b: string, taken: map<string, nat>)
    requires Before(a, b) && a != b && taken == map[a := 0, b := 1]
    ensures InKeyOrder([a, b], taken.Keys)
  {
    assert taken.Keys == {a, b};
  }

  lemma {:induction false} CrossedGap(a: string, b: string, u: Update, p: Projection, taken: map<string, nat>)
    requires a != b && taken == map[a := 0, b := 1] && p.info.session == b && u.sequence > p.through + 1
    ensures GapBefore(b, [u], taken, [a, b], map[0 := Answered(p)])
  {
    assert FirstAnswerBefore(b, taken, [a, b], map[0 := Answered(p)]) == Some(p);
    assert !Has([u], p.through + 1);
    assert MissingBelow([u], p.through, u.sequence);
  }
}
