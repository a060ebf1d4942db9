/**
 * Replies to callbacks of the Lua client: at once, deferred through a bounded table, by an interaction handle, or, when
 * the reply handle is dropped, by the ACP client in its place.
 */
module DeferredReplies {
  import opened Wrappers

  const CAPACITY: nat := 64
  const LAST_ID: nat := 0xFFFF_FFFF_FFFF_FFFF

  /** What the peer is told; `Disconnected` is what the ACP client says when the reply handle was dropped. */
  datatype Reply = Output | Failure | Disconnected

  /** A reply given to the callback of this number. */
  datatype Given = Given(callback: nat, reply: Reply)

  datatype Kind = Permission | Elicitation

  /** A response to one kind of interaction, a cancellation, or a failure to show it. */
  datatype Operation = Respond(kind: Kind, response: string) | CancelInteraction | Fail

  datatype Answer = Response(text: string) | CancelledResponse | FailedResponse

  /** The answer an operation gives to an open interaction of this kind, if it gives one. */
  function AnswerOf(kind: Kind, operation: Operation): Option<Answer> {
    match operation
    case Respond(k, response) => if k == kind then Some(Response(response)) else None
    case CancelInteraction => Some(CancelledResponse)
    case Fail => Some(FailedResponse)
  }

  function ReplyOfAnswer(answer: Answer): Reply {
    if answer.FailedResponse? then Failure else Output
  }

  /**
   * Callbacks are numbered as they come in. `pending` holds the deferred ones by deferred id, `held` those that an
   * interaction handle answers, `given` the replies in order, and `dropped` the callbacks whose reply handle went
   * without a reply from the binding.
   */
  datatype State = State(
    arrived: nat, next: nat, pending: map<nat, nat>, held: map<nat, Kind>, given: seq<Given>, dropped: set<nat>)

  function Start(): State {
    State(0, 0, map[], map[], [], {})
  }

  /** What the local dispatcher comes to: it turns the callback down, its result converts or not, or it is deferred. */
  datatype Handling = TurnDown | Convert(ok: bool) | Defer

  /** Whom a callback of the facade is for. `decodes`: its request decodes; `lua`: handler and argument can be made. */
  datatype Target =
    | ForPermission(decodes: bool, installed: bool, lua: bool)
    | ForElicitation(decodes: bool, form: bool, installed: bool, lua: bool)
    | ForLocal(handling: Handling)

  /** A callback at the facade: whether its input decodes, whether its callable is the client's own, and its target. */
  datatype Arrival = Arrival(decodes: bool, own: bool, target: Target)

  datatype Action =
    | Dispatch(handling: Handling)
    | DispatchFacade(arrival: Arrival)
    | Resolve(id: nat, converts: bool)
    | Reject(id: nat)
    | StartFailed(id: nat)
    | Interact(callback: nat, operation: Operation)
    | LetGo(callback: nat)
    | Close

  function ReplyOf(ok: bool): Reply {
    if ok then Output else Failure
  }

  /** A place in the table, if there is one, under the next id, if there is one. */
  predicate CanReserve(s: State) {
    |s.pending| < CAPACITY && s.next < LAST_ID
  }

  /** The callback that just came in is replied to. */
  function Answered(s: State, reply: Reply): State {
    s.(arrived := s.arrived + 1, given := s.given + [Given(s.arrived, reply)])
  }

  /** Its reply handle is dropped: the ACP client, waiting for the reply, answers in its place. */
  function Dropped(s: State): State {
    Answered(s, Disconnected).(dropped := s.dropped + {s.arrived})
  }

  /** Its reply handle goes to an interaction handle. */
  function Handed(s: State, kind: Kind): State {
    s.(arrived := s.arrived + 1, held := s.held[s.arrived := kind])
  }

  function Reserved(s: State): State {
    s.(arrived := s.arrived + 1, next := s.next + 1, pending := s.pending[s.next + 1 := s.arrived])
  }

  function Dispatched(s: State, handling: Handling): State {
    match handling
    case TurnDown => Answered(s, Failure)
    case Convert(ok) => Answered(s, ReplyOf(ok))
    case Defer => if CanReserve(s) then Reserved(s) else Dropped(s)
  }

  /** The facade's dispatcher: what does not decode goes without a reply, what is not served is turned down. */
  function FacadeDispatched(s: State, arrival: Arrival): State {
    if !arrival.decodes then Dropped(s)
    else if !arrival.own then Answered(s, Failure)
    else
      match arrival.target
      case ForPermission(decodes, installed, lua) =>
        if !decodes then Dropped(s)
        else if !installed then Answered(s, Failure)
        else if !lua then Dropped(s)
        else Handed(s, Permission)
      case ForElicitation(decodes, form, installed, lua) =>
        if !decodes then Dropped(s)
        else if !form || !installed then Answered(s, Failure)
        else if !lua then Dropped(s)
        else Handed(s, Elicitation)
      case ForLocal(handling) => Dispatched(s, handling)
  }

  /** The first completion of a pending id replies; any other changes nothing. */
  function Settled(s: State, id: nat, reply: Reply): State {
    if id !in s.pending then s
    else s.(pending := s.pending - {id}, given := s.given + [Given(s.pending[id], reply)])
  }

  /** An interaction handle gives its one answer. */
  function HandleAnswers(s: State, callback: nat, answer: Option<Answer>): State {
    if callback !in s.held || answer.None? then s
    else s.(held := s.held - {callback}, given := s.given + [Given(callback, ReplyOfAnswer(answer.value))])
  }

  function Interacted(s: State, callback: nat, operation: Operation): State {
    HandleAnswers(s, callback, if callback in s.held then AnswerOf(s.held[callback], operation) else None)
  }

  /** Failures for the pending callbacks with ids up to n, in id order. */
  function Failures(pending: map<nat, nat>, n: nat): seq<Given> {
    if n == 0 then []
    else Failures(pending, n - 1) + if n in pending then [Given(pending[n], Failure)] else []
  }

  function Closed(s: State): State {
    s.(pending := map[], given := s.given + Failures(s.pending, s.next))
  }

  function Step(s: State, action: Action): State {
    match action
    case Dispatch(handling) => Dispatched(s, handling)
    case DispatchFacade(arrival) => FacadeDispatched(s, arrival)
    case Resolve(id, converts) => Settled(s, id, ReplyOf(converts))
    case Reject(id) => Settled(s, id, Failure)
    case StartFailed(id) => Settled(s, id, Failure)
    case Interact(callback, operation) => Interacted(s, callback, operation)
    case LetGo(callback) => HandleAnswers(s, callback, Some(CancelledResponse))
    case Close => Closed(s)
  }

  function Run(s: State, actions: seq<Action>): State
    decreases |actions|
  {
    if actions == [] then s else Run(Step(s, actions[0]), actions[1..])
  }

  // ---------------------------------------------------------------- exactly one reply

  function Count(given: seq<Given>, callback: nat): nat
    decreases |given|
  {
    if given == [] then 0
    else Count(given[..|given| - 1], callback) + if given[|given| - 1].callback == callback then 1 else 0
  }

  ghost predicate IsPending(s: State, callback: nat) {
    exists id :: id in s.pending && s.pending[id] == callback
  }

  /** A callback has its reply, or waits in the table, or is held by an interaction handle: exactly one of the three. */
  ghost predicate Accounted(s: State, callback: nat) {
    if callback >= s.arrived then Count(s.given, callback) == 0 && !IsPending(s, callback) && callback !in s.held
    else
      || (Count(s.given, callback) == 1 && !IsPending(s, callback) && callback !in s.held)
      || (Count(s.given, callback) == 0 && IsPending(s, callback) && callback !in s.held)
      || (Count(s.given, callback) == 0 && !IsPending(s, callback) && callback in s.held)
  }

  /** `Disconnected` is the reply of exactly the dropped callbacks. */
  ghost predicate DropsTold(s: State) {
    && (forall callback: nat :: Given(callback, Disconnected) in s.given <==> callback in s.dropped)
    && (forall callback :: callback in s.dropped ==> callback < s.arrived)
  }

  predicate PendingOk(s: State) {
    && |s.pending| <= CAPACITY && s.next <= LAST_ID
    && (forall id :: id in s.pending ==> 0 < id <= s.next && s.pending[id] < s.arrived)
    && (forall a, b :: a in s.pending && b in s.pending && s.pending[a] == s.pending[b] ==> a == b)
  }

  ghost predicate Inv(s: State) {
    PendingOk(s) && DropsTold(s) && forall callback: nat :: Accounted(s, callback)
  }

  lemma {:induction false} CountSnoc(given: seq<Given>, g: Given, callback: nat)
    ensures Count(given + [g], callback) == Count(given, callback) + if g.callback == callback then 1 else 0
  {
    assert (given + [g])[..|given|] == given;
  }

  lemma {:induction false} CountConcat(a: seq<Given>, b: seq<Given>, callback: nat)
    ensures Count(a + b, callback) == Count(a, callback) + Count(b, callback)
    decreases |b|
  {
    if b == [] {
      assert a + b == a;
    } else {
      assert (a + b)[..|a + b| - 1] == a + b[..|b| - 1];
      CountConcat(a, b[..|b| - 1], callback);
    }
  }

  /** The failures on closing: one for each pending callback with an id up to n. */
  lemma {:induction false} FailuresCount(pending: map<nat, nat>, n: nat, callback: nat)
    requires forall a, b :: a in pending && b in pending && pending[a] == pending[b] ==> a == b
    ensures Count(Failures(pending, n), callback)
         == if exists id :: 0 < id <= n && id in pending && pending[id] == callback then 1 else 0
    decreases n
  {
    if n > 0 {
      FailuresCount(pending, n - 1, callback);
      if n in pending {
        CountSnoc(Failures(pending, n - 1), Given(pending[n], Failure), callback);
      } else {
        assert Failures(pending, n) == Failures(pending, n - 1);
      }
      if exists id :: 0 < id <= n && id in pending && pending[id] == callback {
        var id :| 0 < id <= n && id in pending && pending[id] == callback;
      }
    }
  }

  lemma {:induction false} FailuresFail(pending: map<nat, nat>, n: nat)
    ensures forall g :: g in Failures(pending, n) ==> g.reply == Failure
    decreases n
  {
    if n > 0 {
      FailuresFail(pending, n - 1);
    }
  }

  lemma {:induction false} AnswerKeeps(s: State, reply: Reply)
    requires Inv(s) && reply != Disconnected
    ensures Inv(Answered(s, reply))
  {
    AnswerAccounts(s, reply);
  }

  lemma {:induction false} AnswerAccounts(s: State, reply: Reply)
    requires Inv(s)
    ensures forall callback: nat :: Accounted(Answered(s, reply), callback)
  {
    var t := Answered(s, reply);
    forall callback: nat
      ensures Accounted(t, callback)
    {
      assert Accounted(s, callback);
      CountSnoc(s.given, Given(s.arrived, reply), callback);
      assert IsPending(t, callback) <==> IsPending(s, callback);
    }
  }

  lemma {:induction false} DropKeeps(s: State)
    requires Inv(s)
    ensures Inv(Dropped(s))
  {
    var t, answered := Dropped(s), Answered(s, Disconnected);
    AnswerAccounts(s, Disconnected);
    forall callback: nat
      ensures Accounted(t, callback)
    {
      assert Accounted(answered, callback);
      assert IsPending(t, callback) <==> IsPending(answered, callback);
    }
  }

  lemma {:induction false} HandKeeps(s: State, kind: Kind)
    requires Inv(s)
    ensures Inv(Handed(s, kind))
  {
    var t := Handed(s, kind);
    forall callback: nat
      ensures Accounted(t, callback)
    {
      assert Accounted(s, callback);
      assert IsPending(t, callback) <==> IsPending(s, callback);
    }
  }

  lemma {:induction false} ReservedPending(s: State, callback: nat)
    requires PendingOk(s) && CanReserve(s)
    ensures IsPending(Reserved(s), callback) <==> IsPending(s, callback) || callback == s.arrived
  {
    var t := Reserved(s);
    assert t.pending[s.next + 1] == s.arrived;
    if IsPending(s, callback) {
      var id :| id in s.pending && s.pending[id] == callback;
      assert id in t.pending && t.pending[id] == callback;
    }
  }

  lemma {:induction false} ReserveKeeps(s: State)
    requires Inv(s) && CanReserve(s)
    ensures Inv(Reserved(s))
  {
    forall callback: nat
      ensures Accounted(Reserved(s), callback)
    {
      assert Accounted(s, callback);
      ReservedPending(s, callback);
    }
  }

  lemma {:induction false} DispatchKeeps(s: State, handling: Handling)
    requires Inv(s)
    ensures Inv(Dispatched(s, handling))
  {
    match handling
    case TurnDown => AnswerKeeps(s, Failure);
    case Convert(ok) => AnswerKeeps(s, ReplyOf(ok));
    case Defer =>
      if CanReserve(s) {
        ReserveKeeps(s);
      } else {
        DropKeeps(s);
      }
  }

  lemma {:induction false} FacadeKeeps(s: State, arrival: Arrival)
    requires Inv(s)
    ensures Inv(FacadeDispatched(s, arrival))
  {
    DropKeeps(s);
    AnswerKeeps(s, Failure);
    HandKeeps(s, Permission);
    HandKeeps(s, Elicitation);
    if arrival.target.ForLocal? {
      DispatchKeeps(s, arrival.target.handling);
    }
  }

  /** Taking one id out leaves the other callbacks pending. */
  lemma {:induction false} SettledPending(s: State, id: nat, callback: nat)
    requires PendingOk(s) && id in s.pending
    ensures var t := Settled(s, id, Failure);
            IsPending(t, callback) <==> IsPending(s, callback) && callback != s.pending[id]
  {
    var t := Settled(s, id, Failure);
    if IsPending(s, callback) && callback != s.pending[id] {
      var other :| other in s.pending && s.pending[other] == callback;
      assert other in t.pending;
    }
  }

  lemma {:induction false} SettleAccounts(s: State, id: nat, reply: Reply, callback: nat)
    requires Inv(s) && id in s.pending
    ensures Accounted(Settled(s, id, reply), callback)
  {
    var t := Settled(s, id, reply);
    assert Accounted(s, callback) && IsPending(s, s.pending[id]);
    CountSnoc(s.given, Given(s.pending[id], reply), callback);
    SettledPending(s, id, callback);
    assert IsPending(t, callback) <==> IsPending(Settled(s, id, Failure), callback);
  }

  lemma {:induction false} RemoveOne(m: map<nat, nat>, id: nat)
    requires id in m
    ensures |m - {id}| == |m| - 1
  {
    assert (m - {id}).Keys == m.Keys - {id};
  }

  lemma {:induction false} SettleKeeps(s: State, id: nat, reply: Reply)
    requires Inv(s) && reply != Disconnected
    ensures Inv(Settled(s, id, reply))
  {
    if id in s.pending {
      RemoveOne(s.pending, id);
      forall callback: nat
        ensures Accounted(Settled(s, id, reply), callback)
      {
        SettleAccounts(s, id, reply, callback);
      }
    }
  }

  lemma {:induction false} GivenKeeps(s: State, callback: nat, answer: Option<Answer>)
    requires Inv(s)
    ensures Inv(HandleAnswers(s, callback, answer))
  {
    if callback in s.held && answer.Some? {
      var t, g := HandleAnswers(s, callback, answer), Given(callback, ReplyOfAnswer(answer.value));
      forall other: nat
        ensures Accounted(t, other)
      {
        assert Accounted(s, other) && Accounted(s, callback);
        CountSnoc(s.given, g, other);
        assert IsPending(t, other) <==> IsPending(s, other);
      }
    }
  }

  lemma {:induction false} CloseAccounts(s: State, callback: nat)
    requires Inv(s)
    ensures Accounted(Closed(s), callback)
  {
    assert Accounted(s, callback);
    CountConcat(s.given, Failures(s.pending, s.next), callback);
    FailuresCount(s.pending, s.next, callback);
    if IsPending(s, callback) {
      var id :| id in s.pending && s.pending[id] == callback;
      assert 0 < id <= s.next;
    }
  }

  lemma {:induction false} CloseKeeps(s: State)
    requires Inv(s)
    ensures Inv(Closed(s))
  {
    FailuresFail(s.pending, s.next);
    forall callback: nat
      ensures Accounted(Closed(s), callback)
    {
      CloseAccounts(s, callback);
    }
  }

  lemma {:induction false} StepKeeps(s: State, action: Action)
    requires Inv(s)
    ensures Inv(Step(s, action))
  {
    match action
    case Dispatch(handling) => DispatchKeeps(s, handling);
    case DispatchFacade(arrival) => FacadeKeeps(s, arrival);
    case Resolve(id, converts) => SettleKeeps(s, id, ReplyOf(converts));
    case Reject(id) => SettleKeeps(s, id, Failure);
    case StartFailed(id) => SettleKeeps(s, id, Failure);
    case Interact(callback, operation) =>
      GivenKeeps(s, callback, if callback in s.held then AnswerOf(s.held[callback], operation) else None);
    case LetGo(callback) => GivenKeeps(s, callback, Some(CancelledResponse));
    case Close => CloseKeeps(s);
  }

  lemma {:induction false} RunKeeps(s: State, actions: seq<Action>)
    requires Inv(s)
    ensures Inv(Run(s, actions))
    decreases |actions|
  {
    if actions != [] {
      StepKeeps(s, actions[0]);
      RunKeeps(Step(s, actions[0]), actions[1..]);
    }
  }

  /** In any run every callback has at most one reply, and at most 64 wait for theirs in the table. */
  lemma {:induction false} RepliesAreGivenOnce(actions: seq<Action>, callback: nat)
    ensures var s := Run(Start(), actions);
            Accounted(s, callback) && |s.pending| <= CAPACITY && forall id :: id in s.pending ==> id <= s.next
  {
    RunKeeps(Start(), actions);
  }

  /** Once the connection is closed every callback has been replied to exactly once, or an interaction handle holds it. */
  lemma {:induction false} ClosingAnswersAll(actions: seq<Action>, callback: nat)
    ensures var s := Step(Run(Start(), actions), Close);
            s.pending == map[] && (callback < s.arrived ==> (Count(s.given, callback) == 1 <==> callback !in s.held))
  {
    RunKeeps(Start(), actions);
    CloseKeeps(Run(Start(), actions));
    assert Accounted(Step(Run(Start(), actions), Close), callback);
  }

  /** In any run the replies made in the binding's place are exactly those to the dropped callbacks. */
  lemma {:induction false} DisconnectedIffDropped(actions: seq<Action>, callback: nat)
    ensures var s := Run(Start(), actions);
            && (Given(callback, Disconnected) in s.given <==> callback in s.dropped)
            && (callback in s.dropped ==> Count(s.given, callback) == 1)
  {
    RunKeeps(Start(), actions);
    var s := Run(Start(), actions);
    assert Accounted(s, callback);
    if callback in s.dropped {
      CountOf(s.given, callback, Given(callback, Disconnected));
    }
  }

  lemma {:induction false} CountOf(given: seq<Given>, callback: nat, g: Given)
    requires g in given && g.callback == callback
    ensures Count(given, callback) >= 1
    decreases |given|
  {
    if given[|given| - 1] != g {
      CountOf(given[..|given| - 1], callback, g);
    }
  }

  // ---------------------------------------------------------------- exactly which callbacks are dropped

  /** The local dispatcher has nowhere to put the callback: the table is full or the ids are used up. */
  predicate NoPlace(s: State, handling: Handling) {
    handling.Defer? && (|s.pending| >= CAPACITY || s.next >= LAST_ID)
  }

  /** The facade gives up before the callback reaches a handler or a place. */
  predicate GivenUp(s: State, arrival: Arrival) {
    || !arrival.decodes
    || (arrival.own &&
        match arrival.target
        case ForPermission(decodes, installed, lua) => !decodes || (installed && !lua)
        case ForElicitation(decodes, form, installed, lua) => !decodes || (form && installed && !lua)
        case ForLocal(handling) => NoPlace(s, handling))
  }

  predicate Drops(s: State, action: Action) {
    match action
    case Dispatch(handling) => NoPlace(s, handling)
    case DispatchFacade(arrival) => GivenUp(s, arrival)
    case _ => false
  }

  /**
   * A reply handle is dropped exactly when a callback is to be deferred and finds no place, or when the facade cannot
   * decode it or cannot call into Lua for it.
   */
  lemma {:induction false} DroppedIff(actions: seq<Action>, action: Action)
    ensures var s := Run(Start(), actions);
            Step(s, action).dropped == if Drops(s, action) then s.dropped + {s.arrived} else s.dropped
    ensures Run(Start(), actions).arrived !in Run(Start(), actions).dropped
  {
    RunKeeps(Start(), actions);
    StepDrops(Run(Start(), actions), action);
  }

  lemma {:induction false} StepDrops(s: State, action: Action)
    ensures Step(s, action).dropped == if Drops(s, action) then s.dropped + {s.arrived} else s.dropped
  {
    match action
    case Dispatch(handling) => DispatchDrops(s, handling);
    case DispatchFacade(arrival) => FacadeDrops(s, arrival);
    case _ =>
  }

  lemma {:induction false} DispatchDrops(s: State, handling: Handling)
    ensures Dispatched(s, handling).dropped == if NoPlace(s, handling) then s.dropped + {s.arrived} else s.dropped
  {
  }

  lemma {:induction false} FacadeDrops(s: State, arrival: Arrival)
    ensures FacadeDispatched(s, arrival).dropped == if GivenUp(s, arrival) then s.dropped + {s.arrived} else s.dropped
  {
    match arrival.target
    case ForPermission(_, _, _) =>
    case ForElicitation(_, _, _, _) =>
    case ForLocal(handling) => DispatchDrops(s, handling);
  }

  /** An id once given out is not given out again, and once settled stays settled. */
  lemma {:induction false} IdsAreNotReused(s: State, actions: seq<Action>, id: nat)
    requires id <= s.next
    ensures id in Run(s, actions).pending ==> id in s.pending && Run(s, actions).pending[id] == s.pending[id]
    decreases |actions|
  {
    if actions != [] {
      IdsStep(s, actions[0], id);
      IdsAreNotReused(Step(s, actions[0]), actions[1..], id);
    }
  }

  lemma {:induction false} IdsStep(s: State, action: Action, id: nat)
    requires id <= s.next
    ensures var t := Step(s, action);
            id <= t.next && (id in t.pending ==> id in s.pending && t.pending[id] == s.pending[id])
  {
    match action
    case DispatchFacade(arrival) =>
    case _ =>
  }

  function Repeat(action: Action, n: nat): seq<Action> {
    if n == 0 then [] else [action] + Repeat(action, n - 1)
  }

  /** Deferring n callbacks takes n places while there are that many. */
  lemma {:induction false} DeferringFills(s: State, n: nat)
    requires |s.pending| + n <= CAPACITY && s.next + n <= LAST_ID && forall id :: id in s.pending ==> id <= s.next
    ensures var t := Run(s, Repeat(Dispatch(Defer), n));
            t.arrived == s.arrived + n && t.next == s.next + n && |t.pending| == |s.pending| + n
            && t.given == s.given && t.dropped == s.dropped
    decreases n
  {
    if n > 0 {
      assert Repeat(Dispatch(Defer), n)[1..] == Repeat(Dispatch(Defer), n - 1);
      assert Dispatched(s, Defer) == Reserved(s);
      DeferringFills(Reserved(s), n - 1);
    }
  }

  /** A full table is reached by deferring as many callbacks as it has places; then the next one is dropped. */
  lemma {:induction false} FullTableIsReached(n: nat)
    requires n == CAPACITY
    ensures var s := Run(Start(), Repeat(Dispatch(Defer), n));
            |s.pending| == CAPACITY && s.dropped == {} && Dispatched(s, Defer).dropped == {n}
  {
    DeferringFills(Start(), n);
  }

  // ---------------------------------------------------------------- the client's table, updated in place

  class LocalCallables {
    var nextDeferred: nat
    var pendingDeferred: map<nat, nat>
    ghost var arrived: nat
    ghost var held: map<nat, Kind>
    ghost var given: seq<Given>
    ghost var dropped: set<nat>

    constructor ()
      ensures View() == Start()
    {
      nextDeferred, pendingDeferred, arrived, held, given, dropped := 0, map[], 0, map[], [], {};
    }

    ghost function View(): State
      reads this
    {
      State(arrived, nextDeferred, pendingDeferred, held, given, dropped)
    }

    ghost method Respond(callback: nat, reply: Reply)
      modifies this`given
      ensures given == old(given) + [Given(callback, reply)]
    {
      given := given + [Given(callback, reply)];
    }

    ghost method Drop(callback: nat)
      modifies this`given, this`dropped
      ensures given == old(given) + [Given(callback, Disconnected)] && dropped == old(dropped) + {callback}
    {
      Respond(callback, Disconnected);
      dropped := dropped + {callback};
    }

    method ReserveDeferred(callback: nat) returns (id: Option<nat>)
      modifies this`nextDeferred, this`pendingDeferred
      ensures id == if CanReserve(old(View())) then Some(old(nextDeferred) + 1) else None
      ensures id.Some? ==> nextDeferred == id.value && pendingDeferred == old(pendingDeferred)[id.value := callback]
      ensures id.None? ==> nextDeferred == old(nextDeferred) && pendingDeferred == old(pendingDeferred)
    {
      if |pendingDeferred| >= CAPACITY || nextDeferred >= LAST_ID {
        return None;
      }
      nextDeferred := nextDeferred + 1;
      pendingDeferred := pendingDeferred[nextDeferred := callback];
      return Some(nextDeferred);
    }

    method SettleDeferred(id: nat, reply: Reply) returns (settled: bool)
      modifies this
      ensures View() == Settled(old(View()), id, reply) && (settled <==> id in old(pendingDeferred))
    {
      if id !in pendingDeferred {
        return false;
      }
      var callback := pendingDeferred[id];
      pendingDeferred := pendingDeferred - {id};
      Respond(callback, reply);
      return true;
    }

    /** Takes the whole table and fails its entries in id order. */
    method RejectDeferred()
      requires Inv(View())
      modifies this
      ensures View() == Closed(old(View()))
    {
      var taken := pendingDeferred;
      pendingDeferred := map[];
      var id := 0;
      while id < nextDeferred
        invariant id <= nextDeferred && pendingDeferred == map[] && nextDeferred == old(nextDeferred)
        invariant arrived == old(arrived) && held == old(held) && dropped == old(dropped)
        invariant given == old(given) + Failures(taken, id)
      {
        id := id + 1;
        if id in taken {
          Respond(taken[id], Failure);
        }
      }
    }

    /** The reply handle leaves the dispatcher before the reservation, so a failed reservation drops it. */
    method DispatchLocalCallback(callback: nat, handling: Handling) returns (id: Option<nat>)
      requires callback == arrived
      modifies this
      ensures View() == Dispatched(old(View()), handling)
      ensures id.Some? <==> handling.Defer? && CanReserve(old(View()))
    {
      arrived := arrived + 1;
      match handling {
        case TurnDown =>
          Respond(callback, Failure);
          return None;
        case Convert(ok) =>
          Respond(callback, ReplyOf(ok));
          return None;
        case Defer =>
          id := ReserveDeferred(callback);
          if id.None? {
            Drop(callback);
          }
      }
    }

    /** The facade's dispatcher; a callback for neither interaction handler goes to the local dispatcher. */
    method DispatchCallback(callback: nat, arrival: Arrival) returns (id: Option<nat>)
      requires callback == arrived
      modifies this
      ensures View() == FacadeDispatched(old(View()), arrival)
      ensures id.Some? ==> arrival.target.ForLocal? && arrival.target.handling.Defer? && CanReserve(old(View()))
    {
      if arrival.decodes && arrival.own && arrival.target.ForLocal? {
        id := DispatchLocalCallback(callback, arrival.target.handling);
        return id;
      }
      arrived := arrived + 1;
      if !arrival.decodes {
        Drop(callback);
      } else if !arrival.own {
        Respond(callback, Failure);
      } else if arrival.target.ForPermission? {
        DispatchPermission(callback, arrival.target);
      } else {
        DispatchElicitation(callback, arrival.target);
      }
      return None;
    }

    ghost method DispatchPermission(callback: nat, target: Target)
      requires target.ForPermission?
      modifies this`held, this`given, this`dropped
      ensures held == if target.decodes && target.installed && target.lua then old(held)[callback := Permission] else old(held)
      ensures given == if target.decodes && target.installed then
                         (if target.lua then old(given) else old(given) + [Given(callback, Disconnected)])
                       else old(given) + [Given(callback, if target.decodes then Failure else Disconnected)]
      ensures dropped == if target.decodes && (!target.installed || target.lua) then old(dropped)
                         else old(dropped) + {callback}
    {
      if !target.decodes {
        Drop(callback);
      } else if !target.installed {
        Respond(callback, Failure);
      } else if !target.lua {
        Drop(callback);
      } else {
        held := held[callback := Permission];
      }
    }

    ghost method DispatchElicitation(callback: nat, target: Target)
      requires target.ForElicitation?
      modifies this`held, this`given, this`dropped
      ensures var served := target.form && target.installed;
              && (held == if target.decodes && served && target.lua then old(held)[callback := Elicitation] else old(held))
              && (given == if target.decodes && served && target.lua then old(given)
                           else old(given) + [Given(callback, if target.decodes && !served then Failure else Disconnected)])
              && (dropped == if target.decodes && (!served || target.lua) then old(dropped) else old(dropped) + {callback})
    {
      if !target.decodes {
        Drop(callback);
      } else if !target.form || !target.installed {
        Respond(callback, Failure);
      } else if !target.lua {
        Drop(callback);
      } else {
        held := held[callback := Elicitation];
      }
    }
  }

  // ---------------------------------------------------------------- interaction replies

  /** The first answer in a sequence of operations. */
  function FirstAnswer(kind: Kind, operations: seq<Operation>): Option<Answer>
    decreases |operations|
  {
    if operations == [] then None
    else if AnswerOf(kind, operations[0]).Some? then AnswerOf(kind, operations[0])
    else FirstAnswer(kind, operations[1..])
  }

  class InteractionReply {
    const kind: Kind
    var open: bool
    ghost var sent: seq<Answer>

    constructor (kind: Kind)
      ensures this.kind == kind && open && sent == []
    {
      this.kind, open, sent := kind, true, [];
    }

    /** Open exactly as long as nothing was sent, and never more than one answer. */
    ghost predicate Valid()
      reads this
    {
      |sent| == if open then 0 else 1
    }

    method Perform(operation: Operation) returns (accepted: bool)
      requires Valid()
      modifies this
      ensures Valid()
      ensures accepted <==> old(open) && AnswerOf(kind, operation).Some?
      ensures sent == if accepted then [AnswerOf(kind, operation).value] else old(sent)
    {
      var answer := AnswerOf(kind, operation);
      if answer.None? || !open {
        return false;
      }
      open := false;
      sent := [answer.value];
      return true;
    }

    method Drop()
      requires Valid()
      modifies this
      ensures Valid() && !open && sent == if old(open) then [CancelledResponse] else old(sent)
    {
      if open {
        open := false;
        sent := [CancelledResponse];
      }
    }

    /** Whatever is done with the handle until it is dropped, exactly one answer is sent, and it is the first one. */
    method Live(operations: seq<Operation>)
      requires Valid() && open
      modifies this
      ensures !open
      ensures sent == [if FirstAnswer(kind, operations).Some? then FirstAnswer(kind, operations).value
                       else CancelledResponse]
    {
      var i := 0;
      while i < |operations|
        invariant i <= |operations| && Valid()
        invariant open ==> sent == [] && FirstAnswer(kind, operations) == FirstAnswer(kind, operations[i..])
        invariant !open ==> FirstAnswer(kind, operations).Some? && sent == [FirstAnswer(kind, operations).value]
      {
        assert operations[i..][1..] == operations[i + 1..];
        var _ := Perform(operations[i]);
        i := i + 1;
      }
      Drop();
    }
  }

  // ---------------------------------------------------------------- polling a request

  /** What the reply channel shows when it is looked at. */
  datatype Peek = NotYet | Arrived(result: nat) | SenderGone

  datatype Outcome = Result(result: nat) | ConnectionFailed

  class Request {
    var waiting: bool
    var result: Option<Outcome>

    constructor ()
      ensures Valid() && waiting && result == None
    {
      waiting, result := true, None;
    }

    ghost predicate Valid()
      reads this
    {
      waiting <==> result.None?
    }

    /** The channel is looked at only until it gave a result; from then on every poll shows that result. */
    method Poll(peek: Peek) returns (shown: Option<Outcome>)
      requires Valid()
      modifies this
      ensures Valid() && shown == result
      ensures old(result).Some? ==> result == old(result)
      ensures old(result).None? ==> result == match peek
                                              case NotYet => None
                                              case Arrived(r) => Some(Result(r))
                                              case SenderGone => Some(ConnectionFailed)
    {
      if result.Some? {
        return result;
      }
      if !waiting {
        return None;
      }
      match peek {
        case NotYet => return None;
        case Arrived(r) =>
          waiting := false;
          result := Some(Result(r));
        case SenderGone =>
          waiting := false;
          result := Some(ConnectionFailed);
      }
      return result;
    }
  }
}
