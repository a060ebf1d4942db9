/** What a backlog replay computes, stated without the loop, and why arrival order does not matter. */
module FacadeReplay {
  import opened FacadeSpec
  import opened FacadeRuns

  /** The updates a sorted list contributes to a projection standing at `t`. */
  function Advance(t: nat, us: seq<Update>): seq<Update>
    decreases |us|
  {
    if us == [] then []
    else if us[0].sequence <= t then Advance(t, us[1..])
    else if us[0].sequence == t + 1 then [us[0]] + Advance(t + 1, us[1..])
    else []
  }

  function RetitleAll(info: Info, us: seq<Update>): Info
    decreases |us|
  {
    if us == [] then info else RetitleAll(Retitle(info, us[0].change), us[1..])
  }

  function Extended(p: Projection, us: seq<Update>): Projection {
    Projection(RetitleAll(p.info, us), p.through + |us|, p.updates + us)
  }

  function After(t: nat, us: seq<Update>): seq<Update>
    decreases |us|
  {
    if us == [] then []
    else if us[0].sequence > t then [us[0]] + After(t, us[1..])
    else After(t, us[1..])
  }

  predicate U64Sequences(us: seq<Update>) {
    forall u | u in us :: u.sequence <= U64_MAX
  }

  /** `run` is the maximal contiguous run t + 1, t + 2, ... that `us` contains. */
  predicate MaximalRun(t: nat, us: seq<Update>, run: seq<Update>) {
    && (forall i :: 0 <= i < |run| ==> run[i] in us && run[i].sequence == t + 1 + i)
    && (forall u | u in us :: u.sequence != t + |run| + 1)
  }

  lemma {:induction false} AdvanceIsMaximalRun(t: nat, us: seq<Update>)
    requires SortedBySequence(us)
    ensures MaximalRun(t, us, Advance(t, us))
    decreases |us|
  {
    if us != [] && us[0].sequence <= t + 1 {
      AdvanceIsMaximalRun(if us[0].sequence == t + 1 then t + 1 else t, us[1..]);
    }
  }

  /** Equal sequence numbers carry equal updates. */
  predicate OneUpdatePerSequence(us: seq<Update>) {
    forall u, v | u in us && v in us && u.sequence == v.sequence :: u == v
  }

  predicate Has(us: seq<Update>, sequence: nat) {
    exists u | u in us :: u.sequence == sequence
  }

  lemma {:induction false} RunCovers(t: nat, us: seq<Update>, run: seq<Update>)
    requires MaximalRun(t, us, run)
    ensures !Has(us, t + |run| + 1) && forall q :: t < q <= t + |run| ==> Has(us, q)
  {
    forall q | t < q <= t + |run| ensures Has(us, q) {
      assert run[q - t - 1] in us;
    }
  }

  lemma {:induction false} MaximalRunUnique(t: nat, us: seq<Update>, run: seq<Update>, us': seq<Update>, run': seq<Update>)
    requires MaximalRun(t, us, run) && MaximalRun(t, us', run')
    requires OneUpdatePerSequence(us) && forall u :: u in us <==> u in us'
    ensures run == run'
  {
    RunCovers(t, us, run);
    RunCovers(t, us', run');
    assert Has(us, t + |run'| + 1) == Has(us', t + |run'| + 1);
    assert Has(us', t + |run| + 1) == Has(us, t + |run| + 1);
    assert |run| == |run'|;
  }

  lemma {:induction false} InsertKeepsEntries(u: Update, us: seq<Update>)
    requires SortedBySequence(us)
    ensures multiset(InsertBySequence(u, us)) == multiset{u} + multiset(us)
    decreases |us|
  {
    if us != [] && u.sequence > us[0].sequence {
      InsertKeepsEntries(u, us[1..]);
      assert us == [us[0]] + us[1..];
    }
  }

  /** Sorting the backlog loses and repeats no entry. */
  lemma {:induction false} SortKeepsEntries(us: seq<Update>)
    ensures multiset(SortBySequence(us)) == multiset(us)
    decreases |us|
  {
    if us != [] {
      SortKeepsEntries(us[1..]);
      InsertKeepsEntries(us[0], SortBySequence(us[1..]));
      assert us == [us[0]] + us[1..];
    }
  }

  /** Once a gap is reached, the sorted rest goes back to the backlog. */
  lemma {:induction false} StashRest(s: State, key: string, us: seq<Update>, accepts: nat -> bool)
    requires key in s.sessions && AllFor(key, us) && us != []
    requires forall u | u in us :: u.sequence > s.sessions[key].through + 1
    ensures var s' := IngestAll(s, us, accepts);
            s'.sessions == s.sessions && s'.backlog == s.backlog[key := BacklogOf(s, key) + us]
    decreases |us|
  {
    var s1 := Ingest(s, us[0], accepts);
    StashOne(s, us[0], accepts);
    if us[1..] == [] {
      assert us == [us[0]];
      assert IngestAll(s1, us[1..], accepts) == s1;
    } else {
      StashRest(s1, key, us[1..], accepts);
      StashTwice(s.backlog, key, BacklogOf(s, key), us);
    }
  }

  lemma {:induction false} StashOne(s: State, u: Update, accepts: nat -> bool)
    requires u.session in s.sessions && u.sequence > s.sessions[u.session].through + 1
    ensures var s' := Ingest(s, u, accepts);
            && s'.sessions == s.sessions
            && s'.backlog == s.backlog[u.session := BacklogOf(s, u.session) + [u]]
            && BacklogOf(s', u.session) == BacklogOf(s, u.session) + [u]
  {
  }

  lemma {:induction false} StashTwice(backlog: map<string, seq<Update>>, key: string, waiting: seq<Update>, us: seq<Update>)
    requires us != []
    ensures backlog[key := waiting + [us[0]]][key := waiting + [us[0]] + us[1..]] == backlog[key := waiting + us]
  {
    assert waiting + [us[0]] + us[1..] == waiting + us;
  }

  lemma {:induction false} AfterGap(t: nat, us: seq<Update>)
    requires forall u | u in us :: u.sequence > t
    ensures After(t, us) == us
    decreases |us|
  {
    if us != [] {
      AfterGap(t, us[1..]);
    }
  }

  /** `s'` is `s` with the projection of `key` extended by what the sorted list `us` offers, the rest stashed. */
  predicate Absorbed(s: State, key: string, us: seq<Update>, s': State)
    requires key in s.sessions
  {
    var p' := Extended(s.sessions[key], Advance(s.sessions[key].through, us));
    && s'.sessions == s.sessions[key := p']
    && s'.backlog == (if After(p'.through, us) == [] then s.backlog else s.backlog[key := After(p'.through, us)])
  }

  lemma {:induction false} IngestSorted(s: State, key: string, us: seq<Update>, accepts: nat -> bool)
    requires key in s.sessions && key !in s.backlog
    requires SortedBySequence(us) && AllFor(key, us) && U64Sequences(us)
    ensures Absorbed(s, key, us, IngestAll(s, us, accepts))
    decreases |us|
  {
    var p := s.sessions[key];
    if us == [] {
      assert p.updates + [] == p.updates;
    } else if us[0].sequence <= p.through {
      assert us[0].session == key;
      assert Ingest(s, us[0], accepts) == s;
      IngestSorted(s, key, us[1..], accepts);
    } else if us[0].sequence == p.through + 1 {
      AppendThenIngest(s, key, us, accepts);
    } else {
      StopAtGap(s, key, us, accepts);
    }
  }

  lemma {:induction false} StopAtGap(s: State, key: string, us: seq<Update>, accepts: nat -> bool)
    requires key in s.sessions && key !in s.backlog
    requires SortedBySequence(us) && AllFor(key, us)
    requires us != [] && us[0].sequence > s.sessions[key].through + 1
    ensures Absorbed(s, key, us, IngestAll(s, us, accepts))
  {
    var p := s.sessions[key];
    SortedBeyond(us);
    StashRest(s, key, us, accepts);
    AfterGap(p.through, us);
    ExtendedByNone(p);
    assert Advance(p.through, us) == [];
    assert BacklogOf(s, key) + us == us;
    assert s.sessions[key := p] == s.sessions;
  }

  lemma {:induction false} SortedBeyond(us: seq<Update>)
    requires SortedBySequence(us) && us != []
    ensures forall u | u in us :: u.sequence >= us[0].sequence
  {
  }

  lemma {:induction false} ExtendedByNone(p: Projection)
    ensures Extended(p, []) == p
  {
    assert p.updates + [] == p.updates;
  }

  lemma {:induction false} AppendThenIngest(s: State, key: string, us: seq<Update>, accepts: nat -> bool)
    requires key in s.sessions && key !in s.backlog
    requires SortedBySequence(us) && AllFor(key, us) && U64Sequences(us)
    requires us != [] && us[0].sequence == s.sessions[key].through + 1
    ensures Absorbed(s, key, us, IngestAll(s, us, accepts))
    decreases |us|, 0
  {
    var p := s.sessions[key];
    var s1 := Append(s, key, us[0]);
    assert us[0].sequence <= U64_MAX && us[0].session == key;
    assert Ingest(s, us[0], accepts) == s1;
    IngestSorted(s1, key, us[1..], accepts);
    var run := Advance(p.through + 1, us[1..]);
    assert p.updates + ([us[0]] + run) == (p.updates + [us[0]]) + run;
    assert Extended(s1.sessions[key], run) == Extended(p, [us[0]] + run);
  }

  /**
   * Replay from position T, in closed form: the projection gains exactly the maximal contiguous run T + 1, T + 2, ...
   * found in the backlog; what lies beyond the first gap stays, sorted; the rest of the backlog is dropped; nothing
   * else of the cache changes.
   */
  lemma {:induction false} ReplayClosedForm(s: State, key: string, accepts: nat -> bool)
    requires key in s.sessions && BacklogKeyed(s) && U64Sequences(BacklogOf(s, key))
    ensures key in Replay(s, key, accepts).sessions
    ensures ReplayedTo(s, key, Replay(s, key, accepts))
  {
    var us := SortBySequence(BacklogOf(s, key));
    var s0 := s.(backlog := s.backlog - {key});
    IngestSorted(s0, key, us, accepts);
    AdvanceGrows(s.sessions[key], BacklogOf(s, key));
  }

  lemma {:induction false} AdvanceGrows(p: Projection, waiting: seq<Update>)
    ensures Grown(p, waiting, Extended(p, Advance(p.through, SortBySequence(waiting))))
  {
    var us := SortBySequence(waiting);
    var run := Advance(p.through, us);
    AdvanceIsMaximalRun(p.through, us);
    assert (p.updates + run)[|p.updates|..] == run;
  }

  /** `p'` is `p` grown by exactly the maximal contiguous run that `waiting` offers it. */
  predicate Grown(p: Projection, waiting: seq<Update>, p': Projection) {
    && p.through <= p'.through
    && p.updates <= p'.updates
    && |p'.updates| - |p.updates| == p'.through - p.through
    && MaximalRun(p.through, waiting, p'.updates[|p.updates|..])
    && p'.info == RetitleAll(p.info, p'.updates[|p.updates|..])
  }

  predicate ReplayedTo(s: State, key: string, s': State)
    requires key in s.sessions && key in s'.sessions
  {
    && s'.sessions == s.sessions[key := s'.sessions[key]]
    && Grown(s.sessions[key], BacklogOf(s, key), s'.sessions[key])
    && BacklogOf(s', key) == After(s'.sessions[key].through, SortBySequence(BacklogOf(s, key)))
    && (key in s'.backlog ==> s'.backlog[key] != [])
    && s'.backlog - {key} == s.backlog - {key}
  }

  lemma {:induction false} GrownUnique(p: Projection, us: seq<Update>, us': seq<Update>, q: Projection, q': Projection)
    requires Grown(p, us, q) && Grown(p, us', q')
    requires OneUpdatePerSequence(us) && forall u :: u in us <==> u in us'
    ensures q == q'
  {
    var run, run' := q.updates[|p.updates|..], q'.updates[|p.updates|..];
    MaximalRunUnique(p.through, us, run, us', run');
    assert q.updates == p.updates + run && q'.updates == p.updates + run';
  }

  /** The same updates in any arrival order, any number of times, lead to the same projection and leftovers. */
  lemma {:induction false} ReplayConfluent(s: State, s': State, key: string, accepts: nat -> bool, accepts': nat -> bool)
    requires key in s.sessions && key in s'.sessions && s.sessions[key] == s'.sessions[key]
    requires BacklogKeyed(s) && BacklogKeyed(s')
    requires U64Sequences(BacklogOf(s, key)) && OneUpdatePerSequence(BacklogOf(s, key))
    requires forall u :: u in BacklogOf(s, key) <==> u in BacklogOf(s', key)
    ensures var r, r' := Replay(s, key, accepts), Replay(s', key, accepts');
            && key in r.sessions && key in r'.sessions && r.sessions[key] == r'.sessions[key]
            && forall u :: u in BacklogOf(r, key) <==> u in BacklogOf(r', key)
  {
    var r, r' := Replay(s, key, accepts), Replay(s', key, accepts');
    ReplayClosedForm(s, key, accepts);
    ReplayClosedForm(s', key, accepts');
    GrownUnique(s.sessions[key], BacklogOf(s, key), BacklogOf(s', key), r.sessions[key], r'.sessions[key]);
    var t := r.sessions[key].through;
    AfterMembers(t, SortBySequence(BacklogOf(s, key)));
    AfterMembers(t, SortBySequence(BacklogOf(s', key)));
  }

  lemma {:induction false} AfterMembers(t: nat, us: seq<Update>)
    ensures forall u :: u in After(t, us) <==> u in us && u.sequence > t
    decreases |us|
  {
    if us != [] {
      AfterMembers(t, us[1..]);
    }
  }
}
