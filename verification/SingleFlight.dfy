/**
 Concurrent calls collapsed onto one job per key, the job cancelled once every caller has left.

 A flight is named by the order of its creation, which stands for the identity of the `_Flight` object.  The done
 callback of a task runs some time after the task settles, so it is a step of its own and may come late.
 */
module SingleFlight {
  type Key = string

  datatype Flight = Flight(key: Key, callers: int, done: bool, cancelRequested: bool, calledBack: bool)

  /** `calls` are the keys asked for, in order; a call is named by its place there, and waits on a flight. */
  datatype State = State(flights: map<Key, nat>, table: seq<Flight>, waiters: map<nat, nat>, calls: seq<Key>)

  const INITIAL: State := State(map[], [], map[], [])

  datatype Action =
    | Run(key: Key)          // a call arrives and waits
    | Leave(caller: nat)     // its wait ends: the job settled, or the caller was cancelled
    | Settle(flight: nat)    // the task finishes, fails or ends cancelled
    | Callback(flight: nat)  // the task's done callback

  predicate Enabled(s: State, a: Action) {
    match a
    case Run(_) => true
    case Leave(c) => c in s.waiters && s.waiters[c] < |s.table|
    case Settle(f) => f < |s.table| && !s.table[f].done
    case Callback(f) => f < |s.table| && s.table[f].done && !s.table[f].calledBack
  }

  function Release(flights: map<Key, nat>, key: Key, flight: nat): map<Key, nat> {
    if key in flights && flights[key] == flight then flights - {key} else flights
  }

  function Join(s: State, f: nat, key: Key): State
    requires f < |s.table|
  {
    s.(table := s.table[f := s.table[f].(callers := s.table[f].callers + 1)],
       waiters := s.waiters[|s.calls| := f],
       calls := s.calls + [key])
  }

  function Start(s: State, key: Key): State {
    s.(flights := s.flights[key := |s.table|], table := s.table + [Flight(key, 0, false, false, false)])
  }

  function Next(s: State, a: Action): State
    requires Enabled(s, a) && Indexed(s)
  {
    match a
    case Run(key) => if key in s.flights then Join(s, s.flights[key], key) else Join(Start(s, key), |s.table|, key)
    case Leave(c) =>
      var f := s.waiters[c];
      var flight := s.table[f].(callers := s.table[f].callers - 1);
      var t := s.(waiters := s.waiters - {c});
      if flight.callers == 0 && !flight.done then
        t.(flights := Release(s.flights, flight.key, f), table := s.table[f := flight.(cancelRequested := true)])
      else t.(table := s.table[f := flight])
    case Settle(f) => s.(table := s.table[f := s.table[f].(done := true)])
    case Callback(f) =>
      s.(flights := Release(s.flights, s.table[f].key, f), table := s.table[f := s.table[f].(calledBack := true)])
  }

  ghost predicate Steps(s: State, actions: seq<Action>, t: State)
    requires Inv(s)
    decreases |actions|
  {
    if actions == [] then s == t
    else Enabled(s, actions[0]) && (StepInv(s, actions[0]); Steps(Next(s, actions[0]), actions[1..], t))
  }

  // The invariant
  // --------------------------------------------------------------------------------------------

  predicate Indexed(s: State) {
    forall k :: k in s.flights ==> s.flights[k] < |s.table|
  }

  function Waiting(s: State, f: nat): set<nat> {
    set c | c in s.waiters && s.waiters[c] == f
  }

  /** A flight can still be joined, or is over: settled, or told to cancel. */
  predicate Live(flight: Flight) {
    !flight.done && !flight.cancelRequested
  }

  /** The key map holds flights that can be joined or have just settled, under their own keys. */
  ghost predicate Registered(s: State)
    requires Indexed(s)
  {
    && (forall k :: k in s.flights ==> var flight := s.table[s.flights[k]];
          flight.key == k && !flight.cancelRequested && !flight.calledBack)
    && (forall f :: 0 <= f < |s.table| && !s.table[f].cancelRequested && !s.table[f].calledBack ==>
          s.table[f].key in s.flights && s.flights[s.table[f].key] == f)
  }

  /** Every flight's count is right, and all but `latest` have callers as long as they can be joined. */
  ghost predicate Counted(s: State, latest: nat) {
    && (forall f :: 0 <= f < |s.table| ==> s.table[f].callers == |Waiting(s, f)|)
    && (forall f :: 0 <= f < |s.table| && s.table[f].cancelRequested ==> s.table[f].callers == 0)
    && (forall f :: 0 <= f < |s.table| && f != latest && Live(s.table[f]) ==> s.table[f].callers > 0)
    && (forall f :: 0 <= f < |s.table| && s.table[f].calledBack ==> s.table[f].done)
    && (forall c :: c in s.waiters ==> c < |s.calls| && s.waiters[c] < |s.table|)
  }

  /** Every call waits on a flight for its own key. */
  ghost predicate Served(s: State) {
    forall c :: c in s.waiters ==>
      c < |s.calls| && s.waiters[c] < |s.table| && s.table[s.waiters[c]].key == s.calls[c]
  }

  ghost predicate Inv(s: State) {
    Indexed(s) && Registered(s) && Counted(s, |s.table|) && Served(s)
  }

  lemma WaitingChanges(s: State, t: State, c: nat, f: nat)
    requires c !in s.waiters && t.waiters == s.waiters[c := f]
    ensures |Waiting(t, f)| == |Waiting(s, f)| + 1
    ensures forall g :: g != f ==> Waiting(t, g) == Waiting(s, g)
  {
    assert Waiting(t, f) == Waiting(s, f) + {c};
  }

  /** A caller more for a flight that can still be joined. */
  lemma JoinInv(s: State, f: nat, key: Key)
    requires Indexed(s) && Registered(s) && Counted(s, f) && Served(s) && f < |s.table| && s.table[f].key == key
    requires key in s.flights && s.flights[key] == f
    ensures Inv(Join(s, f, key))
  {
    var t := Join(s, f, key);
    assert |s.calls| !in s.waiters;
    WaitingChanges(s, t, |s.calls|, f);
    assert forall g :: 0 <= g < |s.table| && g != f ==> t.table[g] == s.table[g];
  }

  lemma StartCounted(s: State, key: Key)
    requires Inv(s) && key !in s.flights
    ensures Indexed(Start(s, key)) && Registered(Start(s, key)) && Counted(Start(s, key), |s.table|)
    ensures Served(Start(s, key))
  {
    var t := Start(s, key);
    assert Waiting(s, |s.table|) == {};
    assert forall g :: 0 <= g < |s.table| ==> t.table[g] == s.table[g] && Waiting(t, g) == Waiting(s, g);
    assert Waiting(t, |s.table|) == {};
  }

  lemma RunInv(s: State, key: Key)
    requires Inv(s)
    ensures Inv(Next(s, Run(key)))
  {
    if key in s.flights {
      JoinInv(s, s.flights[key], key);
    } else {
      StartCounted(s, key);
      JoinInv(Start(s, key), |s.table|, key);
    }
  }

  lemma LeaveRegistered(s: State, c: nat)
    requires Indexed(s) && Registered(s) && Enabled(s, Leave(c))
    ensures Indexed(Next(s, Leave(c))) && Registered(Next(s, Leave(c)))
  {
    var t, f := Next(s, Leave(c)), s.waiters[c];
    assert forall g :: 0 <= g < |s.table| && g != f ==> t.table[g] == s.table[g];
  }

  lemma LeaveCounted(s: State, c: nat)
    requires Indexed(s) && Counted(s, |s.table|) && Enabled(s, Leave(c))
    ensures Counted(Next(s, Leave(c)), |s.table|)
  {
    var t, f := Next(s, Leave(c)), s.waiters[c];
    assert s.waiters == t.waiters[c := f];
    WaitingChanges(t, s, c, f);
    assert forall g :: 0 <= g < |s.table| && g != f ==> t.table[g] == s.table[g];
  }

  lemma LeaveInv(s: State, c: nat)
    requires Inv(s) && Enabled(s, Leave(c))
    ensures Inv(Next(s, Leave(c)))
  {
    LeaveRegistered(s, c);
    LeaveCounted(s, c);
  }

  lemma SettleInv(s: State, f: nat)
    requires Inv(s) && Enabled(s, Settle(f))
    ensures Inv(Next(s, Settle(f)))
  {
    var t := Next(s, Settle(f));
    assert forall g :: Waiting(t, g) == Waiting(s, g);
    assert forall g :: 0 <= g < |s.table| && g != f ==> t.table[g] == s.table[g];
  }

  lemma CallbackRegistered(s: State, f: nat)
    requires Indexed(s) && Registered(s) && Enabled(s, Callback(f))
    ensures Indexed(Next(s, Callback(f))) && Registered(Next(s, Callback(f)))
  {
    var t := Next(s, Callback(f));
    assert forall g :: 0 <= g < |s.table| && g != f ==> t.table[g] == s.table[g];
    assert forall k :: k in t.flights ==> k in s.flights && t.flights[k] == s.flights[k] != f;
  }

  lemma CallbackInv(s: State, f: nat)
    requires Inv(s) && Enabled(s, Callback(f))
    ensures Inv(Next(s, Callback(f)))
  {
    var t := Next(s, Callback(f));
    CallbackRegistered(s, f);
    assert forall g :: Waiting(t, g) == Waiting(s, g);
    assert forall g :: 0 <= g < |s.table| && g != f ==> t.table[g] == s.table[g];
  }

  /** Every step keeps the invariant. */
  lemma StepInv(s: State, a: Action)
    requires Inv(s) && Enabled(s, a)
    ensures Inv(Next(s, a))
  {
    match a
    case Run(key) => RunInv(s, key);
    case Leave(c) => LeaveInv(s, c);
    case Settle(f) => SettleInv(s, f);
    case Callback(f) => CallbackInv(s, f);
  }

  lemma {:induction false} ReachableInv(s: State, actions: seq<Action>, t: State)
    requires Inv(s) && Steps(s, actions, t)
    ensures Inv(t)
    decreases |actions|
  {
    if actions != [] {
      StepInv(s, actions[0]);
      ReachableInv(Next(s, actions[0]), actions[1..], t);
    }
  }

  // What holds over every run
  // --------------------------------------------------------------------------------------------

  /**
   Over every interleaving a flight's count is the number of calls waiting on it, a call waits on a job for its own key
   that was not told to cancel, and a key has at most one job that can still be joined.
   */
  lemma CallersCounted(actions: seq<Action>, s: State)
    requires Steps(INITIAL, actions, s)
    ensures forall f :: 0 <= f < |s.table| ==> s.table[f].callers == |Waiting(s, f)|
    ensures forall c :: c in s.waiters ==>
              && c < |s.calls| && s.waiters[c] < |s.table| && s.table[s.waiters[c]].key == s.calls[c]
              && !s.table[s.waiters[c]].cancelRequested
    ensures forall f, g :: 0 <= f < g < |s.table| && Live(s.table[f]) && Live(s.table[g]) ==>
              s.table[f].key != s.table[g].key
  {
    ReachableInv(INITIAL, actions, s);
    forall c | c in s.waiters ensures !s.table[s.waiters[c]].cancelRequested {
      assert c in Waiting(s, s.waiters[c]);
    }
  }

  /** A job is told to cancel by exactly one kind of step: its last caller leaving before it settled. */
  lemma CancelledOnlyWhenDeserted(s: State, a: Action, f: nat)
    requires Inv(s) && Enabled(s, a) && f < |s.table| && !s.table[f].cancelRequested
    ensures |Next(s, a).table| >= |s.table|
    ensures Next(s, a).table[f].cancelRequested <==>
              a.Leave? && s.waiters[a.caller] == f && Waiting(s, f) == {a.caller} && !s.table[f].done
  {
    if a.Leave? {
      LastOne(Waiting(s, s.waiters[a.caller]), a.caller);
    }
  }

  lemma LastOne(callers: set<nat>, c: nat)
    requires c in callers
    ensures |callers| == 1 <==> callers == {c}
  {
    assert callers == (callers - {c}) + {c};
  }

  lemma CancelledStays(s: State, a: Action, f: nat)
    requires Inv(s) && Enabled(s, a) && f < |s.table| && s.table[f].cancelRequested
    ensures f < |Next(s, a).table| && Next(s, a).table[f].cancelRequested
  {
  }

  /** Once told to cancel, a job is never waited on again; later calls for its key are served by another. */
  lemma {:induction false} NeverJoinedAfterCancel(s: State, actions: seq<Action>, t: State, f: nat)
    requires Inv(s) && Steps(s, actions, t) && f < |s.table| && s.table[f].cancelRequested
    ensures Inv(t) && f < |t.table| && t.table[f].cancelRequested
    ensures Waiting(t, f) == {} && forall k :: k in t.flights ==> t.flights[k] != f
    decreases |actions|
  {
    if actions == [] {
      assert |Waiting(s, f)| == 0;
    } else {
      StepInv(s, actions[0]);
      CancelledStays(s, actions[0], f);
      NeverJoinedAfterCancel(Next(s, actions[0]), actions[1..], t, f);
    }
  }

  /** A call starts a job only if its key has none to join; otherwise it waits on that very job. */
  lemma OneJobServesTheKey(s: State, key: Key, f: nat)
    requires Inv(s) && f < |s.table| && Live(s.table[f]) && s.table[f].key == key
    ensures var t := Next(s, Run(key)); |t.table| == |s.table| && t.waiters[|s.calls|] == f
  {
  }

  /** A job that is not cancelled and whose done callback has not run. */
  predicate OnHand(s: State, f: nat, key: Key) {
    f < |s.table| && s.table[f].key == key && !s.table[f].cancelRequested && !s.table[f].calledBack
  }

  /**
   A call waits on the one job on hand for its key, or, if there is none, on a job of its own that starts fresh; nobody
   else is moved.
   */
  lemma CallIsServed(s: State, key: Key, t: State)
    requires Inv(s) && t == Next(s, Run(key))
    ensures var call := |s.calls|;
      && t.calls == s.calls + [key] && t.waiters.Keys == s.waiters.Keys + {call}
      && (forall c :: c in s.waiters ==> t.waiters[c] == s.waiters[c])
      && OnHand(t, t.waiters[call], key)
      && (if exists f: nat :: OnHand(s, f, key)
          then |t.table| == |s.table| && forall f: nat :: OnHand(s, f, key) <==> f == t.waiters[call]
          else |t.table| == |s.table| + 1 && t.waiters[call] == |s.table| && Live(t.table[|s.table|]))
  {
    assert |s.calls| !in s.waiters;
    if key in s.flights {
      assert OnHand(s, s.flights[key], key);
    }
  }

  lemma SettledStep(s: State, a: Action, f: nat)
    requires Indexed(s) && Enabled(s, a) && f < |s.table| && s.table[f].done
    ensures f < |Next(s, a).table| && Next(s, a).table[f].done
    ensures Next(s, a).table[f].cancelRequested == s.table[f].cancelRequested
    ensures Next(s, a).table[f].calledBack == (s.table[f].calledBack || a == Callback(f))
  {
  }

  lemma {:induction false} StaysSettled(s: State, actions: seq<Action>, t: State, f: nat)
    requires Inv(s) && Steps(s, actions, t) && f < |s.table| && s.table[f].done
    ensures f < |t.table| && t.table[f].done && t.table[f].cancelRequested == s.table[f].cancelRequested
    ensures t.table[f].calledBack == (s.table[f].calledBack || Callback(f) in actions)
    ensures t.table[f].calledBack ==> forall key :: !OnHand(t, f, key)
    decreases |actions|
  {
    if actions != [] {
      assert actions == [actions[0]] + actions[1..];
      StepInv(s, actions[0]);
      SettledStep(s, actions[0], f);
      StaysSettled(Next(s, actions[0]), actions[1..], t, f);
    }
  }

  /**
   A job that has settled moves nobody, is never told to cancel, whoever leaves, and from its callback on nobody joins
   it.
   */
  lemma SettledIsLeftAlone(s: State, n: State, actions: seq<Action>, t: State, f: nat)
    requires Inv(s) && Enabled(s, Settle(f)) && n == Next(s, Settle(f))
    requires Inv(n) && Steps(n, actions, t)
    ensures n.flights == s.flights && n.waiters == s.waiters
    ensures f < |t.table| && t.table[f].cancelRequested == s.table[f].cancelRequested
    ensures Callback(f) in actions ==> forall key :: !OnHand(t, f, key)
  {
    StaysSettled(n, actions, t, f);
  }

  // The objects
  // --------------------------------------------------------------------------------------------

  class KeyedSingleFlight {
    var flights: map<Key, nat>
    var table: seq<Flight>
    ghost var waiters: map<nat, nat>
    var calls: seq<Key>

    ghost function View(): State
      reads this
    {
      State(flights, table, waiters, calls)
    }

    constructor ()
      ensures View() == INITIAL
    {
      flights, table, waiters, calls := map[], [], map[], [];
    }

    /** Up to the await: join the key's flight, or create one. */
    method Run(key: Key) returns (flight: nat)
      requires Inv(View())
      modifies this
      ensures View() == Next(old(View()), Action.Run(key))
      ensures flight < |table| && waiters[old(|calls|)] == flight
    {
      if key in flights {
        flight := flights[key];
      } else {
        flight := |table|;
        table := table + [Flight(key, 0, false, false, false)];
        flights := flights[key := flight];
      }
      table := table[flight := table[flight].(callers := table[flight].callers + 1)];
      waiters := waiters[|calls| := flight];
      calls := calls + [key];
    }

    /** The `finally` after the await. */
    method Leave(ghost caller: nat, flight: nat)
      requires Inv(View()) && Enabled(View(), Action.Leave(caller)) && waiters[caller] == flight
      modifies this
      ensures View() == Next(old(View()), Action.Leave(caller))
    {
      waiters := waiters - {caller};
      table := table[flight := table[flight].(callers := table[flight].callers - 1)];
      if table[flight].callers == 0 && !table[flight].done {
        ReleaseFlight(table[flight].key, flight);
        table := table[flight := table[flight].(cancelRequested := true)];
      }
    }

    method Callback(flight: nat)
      requires Inv(View()) && Enabled(View(), Action.Callback(flight))
      modifies this
      ensures View() == Next(old(View()), Action.Callback(flight))
    {
      ReleaseFlight(table[flight].key, flight);
      table := table[flight := table[flight].(calledBack := true)];
    }

    method ReleaseFlight(key: Key, flight: nat)
      modifies this`flights
      ensures flights == Release(old(flights), key, flight)
    {
      if key in flights && flights[key] == flight {
        flights := flights - {key};
      }
    }
  }
}
