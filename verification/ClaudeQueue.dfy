/**
 The queue that holds prompts and setting changes until the Claude SDK connects, and the task that drains it.

 The runtime is asyncio code, so every `Action` is what runs between two awaits.  A call is named by its number,
 and `calls` says what each one asked for; the queue and the futures hold call numbers.  `started` and `gone` are
 history: the calls whose send or apply has begun, in that order, and the calls that ended without beginning.
 */
module ClaudeQueue {
  import opened Wrappers

  datatype Call = Prompt | Change(waited: bool)

  datatype FutureState = Pending | Applied | Refused | NotReady | Cancelled

  datatype Flusher = NotStarted | AwaitingReady | Working(id: nat) | Finished | Crashed

  datatype Reason = Rejected | Interrupted | Withdrawn | Discarded

  datatype State = State(
    ready: bool,
    drained: bool,
    connecting: bool,
    connectError: Option<string>,
    calls: seq<Call>,
    queue: seq<nat>,
    flusher: Flusher,
    futures: map<nat, FutureState>,
    waiting: set<nat>,     // callers awaiting a queued change
    timing: set<nat>,      // those whose timer has fired but that have not resumed yet
    timedOut: set<nat>,    // callers that were told "timed out"
    started: seq<nat>,
    gone: map<nat, Reason>)

  const INITIAL: State := State(false, false, false, None, [], [], NotStarted, map[], {}, {}, {}, [], map[])

  datatype Action =
    | ConnectBegins
    | ConnectReturns
    | ConnectRaises(message: string)
    | ConnectCancelled
    | Disconnect
    | Query
    | SetChange(wait: bool)
    | Interrupt
    | TimerFires(id: nat)
    | TimeoutResumes(id: nat)
    | CallerCancelled(id: nat)
    | CallerResumes(id: nat)
    | FlushWakes
    | EntryFinishes(ok: bool)
    | EntryEscapes

  // Queue operations
  // --------------------------------------------------------------------------------------------

  predicate IsChange(calls: seq<Call>, id: nat) {
    id < |calls| && calls[id].Change?
  }

  predicate IsWaited(calls: seq<Call>, id: nat) {
    IsChange(calls, id) && calls[id].waited
  }

  /** The queue without its prompts (`changes`), or without its changes. */
  function Filter(queue: seq<nat>, calls: seq<Call>, changes: bool): seq<nat> {
    if queue == [] then []
    else if IsChange(calls, queue[0]) == changes then [queue[0]] + Filter(queue[1..], calls, changes)
    else Filter(queue[1..], calls, changes)
  }

  /** Drops the first occurrence; a queue without one is left as it is. */
  function Remove(queue: seq<nat>, id: nat): seq<nat> {
    if queue == [] then []
    else if queue[0] == id then queue[1..]
    else [queue[0]] + Remove(queue[1..], id)
  }

  function Settle(futures: map<nat, FutureState>, id: nat, outcome: FutureState): map<nat, FutureState> {
    if id in futures && futures[id].Pending? then futures[id := outcome] else futures
  }

  function SettleAll(futures: map<nat, FutureState>, ids: seq<nat>, outcome: FutureState): map<nat, FutureState> {
    map id | id in futures :: if id in ids && futures[id].Pending? then outcome else futures[id]
  }

  function MarkAll(gone: map<nat, Reason>, ids: seq<nat>, reason: Reason): map<nat, Reason> {
    gone + map id | id in ids :: reason
  }

  // Atomic steps
  // --------------------------------------------------------------------------------------------

  /** Every queued entry is discarded, and every future still pending among them is told so. */
  function DropQueue(s: State): State {
    s.(queue := [],
       futures := SettleAll(s.futures, s.queue, NotReady),
       gone := MarkAll(s.gone, s.queue, Discarded))
  }

  /** The drain loop's head: take the next entry and begin it, or declare the queue drained. */
  function TakeNext(s: State): State {
    if s.queue == [] then s.(drained := true, flusher := Finished)
    else s.(queue := s.queue[1..], flusher := Working(s.queue[0]), started := s.started + [s.queue[0]])
  }

  predicate Enabled(s: State, a: Action) {
    match a
    case ConnectBegins => !s.connecting && s.flusher.NotStarted?
    case ConnectReturns => s.connecting
    case ConnectRaises(_) => s.connecting
    case ConnectCancelled => s.connecting
    case Disconnect => !s.connecting
    case Query => true
    case SetChange(_) => true
    case Interrupt => true
    case TimerFires(id) => id in s.waiting && id !in s.timing
    case TimeoutResumes(id) => id in s.timing
    case CallerCancelled(id) => id in s.waiting
    case CallerResumes(id) => id in s.waiting && id !in s.timing && id in s.futures && !s.futures[id].Pending?
    case FlushWakes => s.ready && s.flusher.AwaitingReady?
    case EntryFinishes(_) => s.flusher.Working?
    case EntryEscapes => s.flusher.Working?
  }

  function Next(s: State, a: Action): State
    requires Enabled(s, a)
  {
    match a
    case ConnectBegins => s.(connecting := true, flusher := AwaitingReady)
    case ConnectReturns => s.(connecting := false, ready := true)
    case ConnectRaises(message) => s.(connecting := false, ready := true, connectError := Some(message))
    case ConnectCancelled => s.(connecting := false, ready := true)
    case Disconnect =>
      DropQueue(s).(flusher := NotStarted, ready := false, drained := false, connectError := None)
    case Query => Issue(s, Prompt)
    case SetChange(wait) => Issue(s, Change(wait))
    case Interrupt =>
      if s.drained then s
      else s.(queue := Filter(s.queue, s.calls, true),
              gone := MarkAll(s.gone, Filter(s.queue, s.calls, false), Interrupted))
    case TimerFires(id) => s.(futures := Settle(s.futures, id, Cancelled), timing := s.timing + {id})
    case TimeoutResumes(id) =>
      s.(queue := Remove(s.queue, id),
         gone := if id in s.queue then s.gone[id := Withdrawn] else s.gone,
         waiting := s.waiting - {id},
         timing := s.timing - {id},
         timedOut := s.timedOut + {id})
    case CallerCancelled(id) =>
      s.(futures := Settle(s.futures, id, Cancelled), waiting := s.waiting - {id}, timing := s.timing - {id})
    case CallerResumes(id) => s.(waiting := s.waiting - {id})
    case FlushWakes =>
      if s.connectError.Some? then DropQueue(s).(drained := true, flusher := Finished) else TakeNext(s)
    case EntryFinishes(ok) =>
      TakeNext(s.(futures := Settle(s.futures, s.flusher.id, if ok then Applied else Refused)))
    case EntryEscapes => s.(flusher := Crashed)
  }

  /** A call arrives: it is refused, begins at once, or joins the queue. */
  function Issue(s: State, call: Call): State {
    var id, t := |s.calls|, s.(calls := s.calls + [call]);
    if call.Prompt? && s.connectError.Some? then t.(gone := s.gone[id := Rejected])
    else if s.drained then t.(started := s.started + [id])
    else if call.Change? && call.waited then
      t.(queue := s.queue + [id], futures := s.futures[id := Pending], waiting := s.waiting + {id})
    else t.(queue := s.queue + [id])
  }

  ghost predicate Steps(s: State, actions: seq<Action>, t: State)
    decreases |actions|
  {
    if actions == [] then s == t
    else Enabled(s, actions[0]) && Steps(Next(s, actions[0]), actions[1..], t)
  }

  // The invariant
  // --------------------------------------------------------------------------------------------

  ghost predicate Ascending(ids: seq<nat>) {
    forall i, j :: 0 <= i < j < |ids| ==> ids[i] < ids[j]
  }

  /** Every call made is in this order or gone, never both. */
  ghost predicate Accounted(order: seq<nat>, gone: map<nat, Reason>, made: nat) {
    && Ascending(order)
    && (forall id :: id in order ==> id < made && id !in gone)
    && (forall id :: id in gone ==> id < made)
    && (forall id: nat :: id < made && id !in gone ==> id in order)
  }

  ghost predicate InOrder(s: State) {
    Accounted(s.started + s.queue, s.gone, |s.calls|)
  }

  ghost predicate Phases(s: State) {
    && (s.drained <==> s.flusher.Finished?)
    && (s.drained ==> s.queue == [])
    && (s.connecting ==> !s.ready && s.flusher.AwaitingReady?)
    && (s.ready ==> !s.flusher.NotStarted?)
    && (s.flusher.Working? || s.flusher.Finished? || s.flusher.Crashed? ==> s.ready)
    && (s.flusher.Working? ==> s.flusher.id in s.started)
    && (s.connectError.Some? ==> s.ready && (s.flusher.AwaitingReady? || s.flusher.Finished?))
  }

  ghost predicate Futures(s: State) {
    && (forall id :: id in s.futures ==> IsWaited(s.calls, id))
    && (forall id :: id in s.queue && IsWaited(s.calls, id) ==> id in s.futures)
    && s.waiting <= s.futures.Keys
    && s.timing <= s.waiting
    && s.timedOut <= s.futures.Keys
    && s.timedOut !! s.waiting
    && (forall id :: id in s.futures && s.futures[id].Pending? ==> id in s.waiting && id !in s.timing && id !in s.gone)
    && (forall id :: id in s.timedOut ==> id !in s.queue)
  }

  ghost predicate Inv(s: State) {
    InOrder(s) && Phases(s) && Futures(s)
  }

  // Queue lemmas
  // --------------------------------------------------------------------------------------------

  lemma AscendingParts(a: seq<nat>, b: seq<nat>)
    requires Ascending(a + b)
    ensures Ascending(a) && Ascending(b)
    ensures forall x, y :: x in a && y in b ==> x < y
  {
    var all := a + b;
    forall i, j | 0 <= i < j < |a| ensures a[i] < a[j] { assert all[i] < all[j]; }
    forall i, j | 0 <= i < j < |b| ensures b[i] < b[j] { assert all[|a| + i] < all[|a| + j]; }
    forall x, y | x in a && y in b ensures x < y {
      var i :| 0 <= i < |a| && a[i] == x;
      var j :| 0 <= j < |b| && b[j] == y;
      assert all[i] < all[|a| + j];
    }
  }

  lemma AscendingJoin(a: seq<nat>, b: seq<nat>)
    requires Ascending(a) && Ascending(b)
    requires forall x, y :: x in a && y in b ==> x < y
    ensures Ascending(a + b)
  {
    forall i, j | 0 <= i < |a| && 0 <= j < |b| ensures a[i] < b[j] {
      assert a[i] in a && b[j] in b;
    }
  }

  /** An interrupt's two halves: exactly the changes, in order, are kept and exactly the prompts are dropped. */
  lemma {:induction false} FilterExact(queue: seq<nat>, calls: seq<Call>, changes: bool)
    requires Ascending(queue)
    ensures forall id :: id in Filter(queue, calls, changes) <==> id in queue && IsChange(calls, id) == changes
    ensures Ascending(Filter(queue, calls, changes))
  {
    if queue != [] {
      assert queue == [queue[0]] + queue[1..];
      AscendingParts([queue[0]], queue[1..]);
      FilterExact(queue[1..], calls, changes);
      AscendingJoin([queue[0]], Filter(queue[1..], calls, changes));
    }
  }

  lemma {:induction false} RemoveExact(queue: seq<nat>, id: nat)
    requires Ascending(queue)
    ensures forall i :: i in Remove(queue, id) <==> i in queue && i != id
    ensures Ascending(Remove(queue, id))
  {
    if queue != [] {
      assert queue == [queue[0]] + queue[1..];
      AscendingParts([queue[0]], queue[1..]);
      RemoveExact(queue[1..], id);
      AscendingJoin([queue[0]], Remove(queue[1..], id));
    }
  }

  /** Thinning the queue, and marking what was taken out, keeps every call accounted for. */
  lemma Thinned(s: State, kept: seq<nat>, gone: map<nat, Reason>)
    requires InOrder(s) && Ascending(kept)
    requires forall id :: id in kept ==> id in s.queue
    requires forall id :: id in gone <==> id in s.gone || (id in s.queue && id !in kept)
    ensures Accounted(s.started + kept, gone, |s.calls|)
  {
    AscendingParts(s.started, s.queue);
    AscendingJoin(s.started, kept);
    assert forall id :: id in s.started + s.queue <==> id in s.started || id in s.queue;
    assert forall id :: id in s.started + kept <==> id in s.started || id in kept;
  }

  lemma Appended(order: seq<nat>, gone: map<nat, Reason>, made: nat)
    requires Accounted(order, gone, made)
    ensures Accounted(order + [made], gone, made + 1)
  {
    AscendingJoin(order, [made]);
  }

  // Every step keeps the invariant
  // --------------------------------------------------------------------------------------------

  lemma TakeNextInv(s: State)
    requires InOrder(s) && Futures(s)
    requires s.ready && !s.connecting && s.connectError.None? && !s.drained
    requires s.flusher.AwaitingReady? || s.flusher.Working?
    ensures Inv(TakeNext(s))
  {
    if s.queue != [] {
      assert s.started + s.queue == (s.started + [s.queue[0]]) + s.queue[1..];
    }
  }

  lemma DropQueueInv(s: State)
    requires InOrder(s) && Futures(s)
    ensures InOrder(DropQueue(s)) && Futures(DropQueue(s))
  {
    Thinned(s, [], DropQueue(s).gone);
  }

  lemma TimeoutInv(s: State, id: nat)
    requires Inv(s) && Enabled(s, TimeoutResumes(id))
    ensures Inv(Next(s, TimeoutResumes(id)))
  {
    var t := Next(s, TimeoutResumes(id));
    AscendingParts(s.started, s.queue);
    RemoveExact(s.queue, id);
    Thinned(s, t.queue, t.gone);
  }

  lemma InterruptInv(s: State)
    requires Inv(s)
    ensures Inv(Next(s, Interrupt))
  {
    var t := Next(s, Interrupt);
    if !s.drained {
      AscendingParts(s.started, s.queue);
      FilterExact(s.queue, s.calls, true);
      FilterExact(s.queue, s.calls, false);
      Thinned(s, t.queue, t.gone);
    }
  }

  lemma IssueOrder(s: State, call: Call)
    requires Inv(s)
    ensures InOrder(Issue(s, call))
  {
    var t, id := Issue(s, call), |s.calls|;
    Appended(s.started + s.queue, s.gone, id);
    if !(call.Prompt? && s.connectError.Some?) {
      assert t.started + t.queue == (s.started + s.queue) + [id];
    }
  }

  /** No call made so far is the next one. */
  lemma NextIsNew(s: State)
    requires InOrder(s)
    ensures |s.calls| !in s.gone && forall i :: i in s.queue ==> i < |s.calls|
  {
    assert forall i :: i in s.queue ==> i in s.started + s.queue;
  }

  /** One more waiting caller, whose future is pending. */
  lemma WaitedFutures(s: State, call: Call)
    requires Futures(s) && |s.calls| !in s.gone && forall i :: i in s.queue ==> i < |s.calls|
    requires call.Change? && call.waited && !s.drained
    ensures Futures(Issue(s, call))
  {
    var t, id := Issue(s, call), |s.calls|;
    assert forall i: nat :: i < id ==> IsWaited(t.calls, i) == IsWaited(s.calls, i);
    assert t.futures == s.futures[id := Pending] && t.waiting == s.waiting + {id} && t.queue == s.queue + [id];
  }

  /** A call more, that has no future and, if it is queued, needs none. */
  lemma SameFutures(s: State, t: State, call: Call)
    requires Futures(s) && t.calls == s.calls + [call]
    requires t.futures == s.futures && t.waiting == s.waiting && t.timing == s.timing && t.timedOut == s.timedOut
    requires forall i :: i in t.gone ==> i in s.gone || i == |s.calls|
    requires t.queue == s.queue || (t.queue == s.queue + [|s.calls|] && (call.Prompt? || !call.waited))
    requires forall i :: i in s.queue ==> i < |s.calls|
    ensures Futures(t)
  {
    assert forall i: nat :: i < |s.calls| ==> IsWaited(t.calls, i) == IsWaited(s.calls, i);
    assert IsWaited(t.calls, |s.calls|) == (call.Change? && call.waited);
  }

  lemma UnwaitedIssue(s: State, call: Call)
    requires s.drained || call.Prompt? || !call.waited
    ensures var t := Issue(s, call);
      && t.calls == s.calls + [call]
      && t.futures == s.futures && t.waiting == s.waiting && t.timing == s.timing && t.timedOut == s.timedOut
      && (forall i :: i in t.gone ==> i in s.gone || i == |s.calls|)
      && (t.queue == s.queue || (t.queue == s.queue + [|s.calls|] && (call.Prompt? || !call.waited)))
  {
  }

  lemma UnwaitedFutures(s: State, call: Call)
    requires Futures(s) && forall i :: i in s.queue ==> i < |s.calls|
    requires s.drained || call.Prompt? || !call.waited
    ensures Futures(Issue(s, call))
  {
    UnwaitedIssue(s, call);
    SameFutures(s, Issue(s, call), call);
  }

  lemma IssueFutures(s: State, call: Call)
    requires Inv(s)
    ensures Futures(Issue(s, call))
  {
    NextIsNew(s);
    if s.drained || call.Prompt? || !call.waited {
      UnwaitedFutures(s, call);
    } else {
      WaitedFutures(s, call);
    }
  }

  lemma IssueInv(s: State, call: Call)
    requires Inv(s)
    ensures Inv(Issue(s, call))
  {
    IssueOrder(s, call);
    IssueFutures(s, call);
  }

  /** Steps that leave the queue alone. */
  predicate Small(a: Action) {
    a.ConnectBegins? || a.ConnectReturns? || a.ConnectRaises? || a.ConnectCancelled? || a.TimerFires? ||
    a.CallerCancelled? || a.CallerResumes? || a.EntryEscapes?
  }

  lemma SmallStepInv(s: State, a: Action)
    requires Inv(s) && Enabled(s, a) && Small(a)
    ensures Inv(Next(s, a))
  {
    var t := Next(s, a);
    assert t.queue == s.queue && t.started == s.started && t.gone == s.gone && t.calls == s.calls;
  }

  /** Every step keeps the invariant. */
  lemma StepInv(s: State, a: Action)
    requires Inv(s) && Enabled(s, a)
    ensures Inv(Next(s, a))
  {
    if Small(a) {
      SmallStepInv(s, a);
    } else {
      match a
      case Query => IssueInv(s, Prompt);
      case SetChange(wait) => IssueInv(s, Change(wait));
      case Interrupt => InterruptInv(s);
      case TimeoutResumes(id) => TimeoutInv(s, id);
      case Disconnect => DropQueueInv(s);
      case FlushWakes => if s.connectError.Some? { DropQueueInv(s); } else { TakeNextInv(s); }
      case EntryFinishes(ok) =>
        TakeNextInv(s.(futures := Settle(s.futures, s.flusher.id, if ok then Applied else Refused)));
    }
  }

  // What holds over every run
  // --------------------------------------------------------------------------------------------

  lemma {:induction false} RunInv(s: State, actions: seq<Action>, t: State)
    requires Inv(s) && Steps(s, actions, t)
    ensures Inv(t)
    decreases |actions|
  {
    if actions != [] {
      StepInv(s, actions[0]);
      RunInv(Next(s, actions[0]), actions[1..], t);
    }
  }

  /**
   Over every interleaving, the calls that have begun are in call order and ahead of every queued one, and every call
   made has begun, is queued, or ended without beginning - exactly one of the three.
   */
  lemma CallOrder(actions: seq<Action>, s: State)
    requires Steps(INITIAL, actions, s)
    ensures Inv(s)
    ensures Ascending(s.started) && Ascending(s.queue)
    ensures forall i, j :: i in s.started && j in s.queue ==> i < j
    ensures forall id: nat :: id < |s.calls| <==> id in s.started || id in s.queue || id in s.gone
    ensures forall id: nat :: id in s.gone ==> id !in s.started && id !in s.queue
  {
    RunInv(INITIAL, actions, s);
    AscendingParts(s.started, s.queue);
    forall id: nat ensures id < |s.calls| <==> id in s.started || id in s.queue || id in s.gone {
      assert id in s.started + s.queue <==> id in s.started || id in s.queue;
    }
    assert forall id: nat :: id in s.started || id in s.queue ==> id in s.started + s.queue;
  }

  /**
   A call begins at once exactly when the drain is over and nothing refuses it; every older call is settled by then.  It
   is refused exactly when it is a prompt after a failed connect, and otherwise goes to the end of the queue.
   */
  lemma DirectStart(actions: seq<Action>, s: State, call: Call)
    requires Steps(INITIAL, actions, s)
    ensures |s.calls| in Issue(s, call).started <==> s.drained && !(call.Prompt? && s.connectError.Some?)
    ensures |s.calls| in Issue(s, call).started ==>
              && s.queue == [] && s.flusher.Finished?
              && forall id: nat :: id < |s.calls| ==> id in s.started || id in s.gone
    ensures |s.calls| in Issue(s, call).gone <==> call.Prompt? && s.connectError.Some?
    ensures var t, id := Issue(s, call), |s.calls|;
      t.calls == s.calls + [call] && t.queue == if id in t.started || id in t.gone then s.queue else s.queue + [id]
  {
    CallOrder(actions, s);
    assert |s.calls| !in s.started;
  }

  /** A drain goes on: nobody disconnects, and no apply raises anything but a refusal. */
  predicate Draining(a: Action) {
    !a.Disconnect? && !a.EntryEscapes?
  }

  function Finishes(actions: seq<Action>): nat {
    if actions == [] then 0 else (if actions[0].EntryFinishes? then 1 else 0) + Finishes(actions[1..])
  }

  /** The call has begun, or was dropped by an interrupt or withdrawn by its caller. */
  predicate BegunOrTaken(s: State, id: nat) {
    id in s.started || (id in s.gone && (s.gone[id].Interrupted? || s.gone[id].Withdrawn?))
  }

  predicate Underway(s: State) {
    s.flusher.Working? || s.flusher.Finished?
  }

  /** One step of a drain: a queued entry stays queued, begins or is taken, and each finish makes room for one more. */
  ghost predicate Drains(s: State, a: Action, t: State) {
    && Underway(t) && t.connectError == s.connectError && |t.calls| >= |s.calls|
    && (forall id :: id in s.queue ==> id in t.queue || BegunOrTaken(t, id))
    && (forall id :: BegunOrTaken(s, id) ==> BegunOrTaken(t, id))
    && (t.flusher.Working? ==>
          && s.flusher.Working?
          && |t.queue| + (if a.EntryFinishes? then 1 else 0) <= |s.queue| + |t.calls| - |s.calls|)
  }

  lemma {:induction false} FilterShorter(queue: seq<nat>, calls: seq<Call>, changes: bool)
    ensures |Filter(queue, calls, changes)| <= |queue|
  {
    if queue != [] { FilterShorter(queue[1..], calls, changes); }
  }

  lemma {:induction false} RemoveShorter(queue: seq<nat>, id: nat)
    ensures |Remove(queue, id)| <= |queue|
  {
    if queue != [] && queue[0] != id { RemoveShorter(queue[1..], id); }
  }

  lemma InterruptDrains(s: State)
    requires InOrder(s) && Underway(s)
    ensures Drains(s, Interrupt, Next(s, Interrupt))
  {
    AscendingParts(s.started, s.queue);
    FilterExact(s.queue, s.calls, true);
    FilterExact(s.queue, s.calls, false);
    FilterShorter(s.queue, s.calls, true);
    assert forall id :: id in s.queue ==> id in s.started + s.queue;
  }

  lemma TimeoutDrains(s: State, id: nat)
    requires InOrder(s) && Underway(s) && Enabled(s, TimeoutResumes(id))
    ensures Drains(s, TimeoutResumes(id), Next(s, TimeoutResumes(id)))
  {
    AscendingParts(s.started, s.queue);
    RemoveExact(s.queue, id);
    RemoveShorter(s.queue, id);
  }

  lemma FinishDrains(s: State, ok: bool)
    requires Inv(s) && Enabled(s, EntryFinishes(ok))
    ensures Drains(s, EntryFinishes(ok), Next(s, EntryFinishes(ok)))
  {
    if s.queue != [] { assert s.queue == [s.queue[0]] + s.queue[1..]; }
  }

  lemma IssueDrains(s: State, a: Action, call: Call)
    requires Inv(s) && Underway(s) && !a.EntryFinishes?
    ensures Drains(s, a, Issue(s, call))
  {
    assert |s.calls| !in s.gone;
  }

  lemma DrainStep(s: State, a: Action)
    requires Inv(s) && Underway(s) && Enabled(s, a) && Draining(a)
    ensures Drains(s, a, Next(s, a))
  {
    match a
    case Query => IssueDrains(s, a, Prompt);
    case SetChange(wait) => IssueDrains(s, a, Change(wait));
    case Interrupt => InterruptDrains(s);
    case TimeoutResumes(id) => TimeoutDrains(s, id);
    case EntryFinishes(ok) => FinishDrains(s, ok);
    case _ =>
  }

  lemma {:induction false} DrainRun(s: State, actions: seq<Action>, t: State)
    requires Inv(s) && Underway(s) && Steps(s, actions, t)
    requires forall i :: 0 <= i < |actions| ==> Draining(actions[i])
    ensures Underway(t) && |t.calls| >= |s.calls|
    ensures forall id :: id in s.queue ==> id in t.queue || BegunOrTaken(t, id)
    ensures forall id :: BegunOrTaken(s, id) ==> BegunOrTaken(t, id)
    ensures t.flusher.Working? ==>
              s.flusher.Working? && |t.queue| + Finishes(actions) <= |s.queue| + |t.calls| - |s.calls|
    decreases |actions|
  {
    if actions != [] {
      var n := Next(s, actions[0]);
      StepInv(s, actions[0]);
      DrainStep(s, actions[0]);
      assert forall i :: 0 <= i < |actions[1..]| ==> actions[1..][i] == actions[i + 1];
      DrainRun(n, actions[1..], t);
    }
  }

  /**
   Whatever each entry's outcome, and whatever calls, interrupts and timeouts land between: the drain takes one entry
   with every finish, so it is over once there have been more finishes than entries queued before and calls made
   since; then the direct path is open, and every entry has begun unless an interrupt or its own caller took it out.
   */
  lemma DrainCompletes(s: State, actions: seq<Action>, t: State)
    requires Inv(s) && s.flusher.Working? && Steps(s, actions, t)
    requires forall i :: 0 <= i < |actions| ==> Draining(actions[i])
    ensures Finishes(actions) > |s.queue| + |t.calls| - |s.calls| ==> t.drained
    ensures t.drained ==>
              && t.flusher.Finished? && t.queue == [] && Ascending(t.started)
              && (forall id :: id in s.queue ==> BegunOrTaken(t, id))
    ensures !t.drained ==> t.flusher.Working?
  {
    DrainRun(s, actions, t);
    RunInv(s, actions, t);
    AscendingParts(t.started, t.queue);
  }

  /** Without any of that the entries begin exactly as queued. */
  lemma {:induction false} QuietDrain(s: State, actions: seq<Action>, t: State)
    requires s.flusher.Working? && Steps(s, actions, t) && |actions| == |s.queue| + 1
    requires forall i :: 0 <= i < |actions| ==> actions[i].EntryFinishes?
    ensures t.drained && t.started == s.started + s.queue && t.gone == s.gone
    decreases |s.queue|
  {
    var n := Next(s, actions[0]);
    assert actions[0].EntryFinishes?;
    assert forall i :: 0 <= i < |actions[1..]| ==> actions[1..][i] == actions[i + 1];
    if s.queue != [] {
      QuietDrain(n, actions[1..], t);
      assert s.started + s.queue == (s.started + [s.queue[0]]) + s.queue[1..];
    }
  }

  /** History only grows: nothing begun or ended is taken back, and a settled future keeps its outcome. */
  lemma IssueGrows(s: State, call: Call)
    ensures s.started <= Issue(s, call).started && s.gone.Keys <= Issue(s, call).gone.Keys
    ensures s.timedOut == Issue(s, call).timedOut && |Issue(s, call).calls| == |s.calls| + 1
  {
  }

  lemma StepGrows(s: State, a: Action)
    requires Enabled(s, a)
    ensures s.started <= Next(s, a).started
    ensures s.gone.Keys <= Next(s, a).gone.Keys
    ensures s.timedOut <= Next(s, a).timedOut
    ensures |s.calls| <= |Next(s, a).calls|
  {
    match a
    case Query => IssueGrows(s, Prompt);
    case SetChange(wait) => IssueGrows(s, Change(wait));
    case _ =>
  }

  lemma StepSettles(s: State, a: Action, id: nat)
    requires Inv(s) && Enabled(s, a)
    requires id in s.futures && !s.futures[id].Pending?
    ensures id in Next(s, a).futures && Next(s, a).futures[id] == s.futures[id]
  {
    assert IsWaited(s.calls, id);
  }

  lemma {:induction false} RunGrows(s: State, actions: seq<Action>, t: State)
    requires Inv(s) && Steps(s, actions, t)
    ensures s.started <= t.started
    ensures s.gone.Keys <= t.gone.Keys
    ensures s.timedOut <= t.timedOut
    ensures |s.calls| <= |t.calls|
    decreases |actions|
  {
    if actions != [] {
      StepInv(s, actions[0]);
      StepGrows(s, actions[0]);
      RunGrows(Next(s, actions[0]), actions[1..], t);
    }
  }

  /** A future is settled at most once: its first outcome is its last. */
  lemma {:induction false} SettledOnce(s: State, actions: seq<Action>, t: State, id: nat)
    requires Inv(s) && Steps(s, actions, t)
    requires id in s.futures && !s.futures[id].Pending?
    ensures id in t.futures && t.futures[id] == s.futures[id]
    decreases |actions|
  {
    if actions != [] {
      StepInv(s, actions[0]);
      StepSettles(s, actions[0], id);
      SettledOnce(Next(s, actions[0]), actions[1..], t, id);
    }
  }

  /** A change reported as timed out never begins afterwards; it may only have begun before the report. */
  lemma {:induction false} TimedOutNeverBegins(s: State, actions: seq<Action>, t: State, id: nat)
    requires Inv(s) && Steps(s, actions, t)
    requires id in s.timedOut
    ensures id in t.started <==> id in s.started
    decreases |actions|
  {
    if actions != [] {
      var next := Next(s, actions[0]);
      StepInv(s, actions[0]);
      StepGrows(s, actions[0]);
      assert IsWaited(s.calls, id);
      if s.queue != [] { assert s.queue[0] != id; }
      TimedOutNeverBegins(next, actions[1..], t, id);
    }
  }

  /** A call that ended without beginning - interrupted, withdrawn, discarded or refused - never begins. */
  lemma GoneNeverBegins(s: State, actions: seq<Action>, t: State, id: nat)
    requires Inv(s) && Steps(s, actions, t)
    requires id in s.gone
    ensures id !in t.started && id !in t.queue
  {
    RunInv(s, actions, t);
    RunGrows(s, actions, t);
    assert forall i :: i in t.started || i in t.queue ==> i in t.started + t.queue;
  }

  /**
   An interrupt before the drain is over drops exactly the queued prompts for good, and keeps every change in order.
   */
  lemma InterruptDropsPrompts(s: State, actions: seq<Action>, t: State, id: nat)
    requires Inv(s) && !s.drained && id in s.queue
    requires Steps(Next(s, Interrupt), actions, t)
    ensures id in Next(s, Interrupt).queue <==> IsChange(s.calls, id)
    ensures !IsChange(s.calls, id) ==> id !in t.started
    ensures Ascending(Next(s, Interrupt).queue) && forall i :: i in Next(s, Interrupt).queue ==> i in s.queue
  {
    AscendingParts(s.started, s.queue);
    FilterExact(s.queue, s.calls, true);
    FilterExact(s.queue, s.calls, false);
    StepInv(s, Interrupt);
    if !IsChange(s.calls, id) {
      GoneNeverBegins(Next(s, Interrupt), actions, t, id);
    }
  }

  /** After a connect that raised, nothing queued at that time is ever sent or applied, reconnects included. */
  lemma {:induction false} FailedConnectSendsNothing(s: State, actions: seq<Action>, t: State, id: nat)
    requires Inv(s) && Steps(s, actions, t)
    requires s.connectError.Some? && id in s.queue
    ensures id !in t.started
    decreases |actions|
  {
    assert id in s.started + s.queue;
    AscendingParts(s.started, s.queue);
    if actions != [] {
      var next := Next(s, actions[0]);
      StepInv(s, actions[0]);
      if id in next.gone {
        GoneNeverBegins(next, actions[1..], t, id);
      } else {
        match actions[0] {
          case Interrupt => FilterExact(s.queue, s.calls, true); FilterExact(s.queue, s.calls, false);
          case TimeoutResumes(i) => RemoveExact(s.queue, i);
          case _ =>
        }
        FailedConnectSendsNothing(next, actions[1..], t, id);
      }
    }
  }

  /** The flush that wakes to a failed connect leaves no queued entry, and no queued future unsettled. */
  lemma FailedConnectSettles(s: State, id: nat)
    requires Inv(s) && s.connectError.Some? && Enabled(s, FlushWakes)
    ensures var t := Next(s, FlushWakes);
      && t.drained && t.queue == [] && t.started == s.started
      && (id in s.queue ==> id in t.gone && t.gone[id] == Discarded)
      && (id in s.queue && id in s.futures ==>
            t.futures[id] == if s.futures[id].Pending? then NotReady else s.futures[id])
      && (id in t.futures && t.futures[id].Pending? ==> id in t.started)
  {
    StepInv(s, FlushWakes);
    var t := Next(s, FlushWakes);
    if id in t.futures && t.futures[id].Pending? {
      assert id < |t.calls| && id in t.started + t.queue;
    }
  }

  /**
   A connect that is cancelled sets `ready` without an error, so the drain goes ahead: what was queued stays unsent
   exactly when the connect ended by raising.
   */
  lemma ConnectEnding(s: State, ending: Action)
    requires Inv(s) && s.connecting && s.queue != []
    requires ending.ConnectReturns? || ending.ConnectRaises? || ending.ConnectCancelled?
    ensures Enabled(Next(s, ending), FlushWakes)
    ensures s.queue[0] !in Next(Next(s, ending), FlushWakes).started <==> ending.ConnectRaises?
  {
    AscendingParts(s.started, s.queue);
    assert s.queue[0] in s.queue;
  }

  lemma CancelledConnectSends(t: State)
    requires t == Next(Next(Next(Next(INITIAL, Query), ConnectBegins), ConnectCancelled), FlushWakes)
    ensures Steps(INITIAL, [Query, ConnectBegins, ConnectCancelled, FlushWakes], t)
    ensures t.started == [0]
  {
    var a, b := Next(INITIAL, Query), Next(Next(INITIAL, Query), ConnectBegins);
    var c := Next(b, ConnectCancelled);
    assert Steps(t, [], t);
    assert Steps(c, [FlushWakes], t);
    assert Steps(b, [ConnectCancelled, FlushWakes], t);
    assert Steps(a, [ConnectBegins, ConnectCancelled, FlushWakes], t);
  }

  /** After the flush of a failed connect the direct path is open: a change goes straight to the SDK. */
  lemma FailedConnectAppliesChange(message: string, wait: bool) returns (t: State)
    ensures Steps(INITIAL, [ConnectBegins, ConnectRaises(message), FlushWakes, SetChange(wait)], t)
    ensures t.started == [0] && t.calls == [Change(wait)] && t.connectError == Some(message)
  {
    var a := Next(INITIAL, ConnectBegins);
    var b := Next(a, ConnectRaises(message));
    var c := Next(b, FlushWakes);
    t := Next(c, SetChange(wait));
    assert Steps(c, [SetChange(wait)], t);
    assert [FlushWakes, SetChange(wait)][1..] == [SetChange(wait)];
    assert Steps(b, [FlushWakes, SetChange(wait)], t);
    assert [ConnectRaises(message), FlushWakes, SetChange(wait)][1..] == [FlushWakes, SetChange(wait)];
    assert Steps(a, [ConnectRaises(message), FlushWakes, SetChange(wait)], t);
  }

  // The runtime object
  // --------------------------------------------------------------------------------------------

  class ClaudeRuntime {
    var ready: bool
    var drained: bool
    var connecting: bool
    var connectError: Option<string>
    var calls: seq<Call>
    var queue: seq<nat>
    var flusher: Flusher
    var futures: map<nat, FutureState>
    var waiting: set<nat>
    var timing: set<nat>
    ghost var timedOut: set<nat>
    ghost var started: seq<nat>
    ghost var gone: map<nat, Reason>

    ghost function View(): State
      reads this
    {
      State(ready, drained, connecting, connectError, calls, queue, flusher, futures, waiting, timing, timedOut,
            started, gone)
    }

    constructor ()
      ensures View() == INITIAL
    {
      ready, drained, connecting, connectError := false, false, false, None;
      calls, queue, flusher, futures := [], [], NotStarted, map[];
      waiting, timing, timedOut, started, gone := {}, {}, {}, [], map[];
    }

    method ConnectBegins()
      requires Enabled(View(), Action.ConnectBegins)
      modifies this
      ensures View() == Next(old(View()), Action.ConnectBegins)
    {
      connecting := true;
      flusher := AwaitingReady;
    }

    /** `connect`'s except and finally blocks; a cancelled connect reaches only the latter. */
    method ConnectEnds(outcome: Action)
      requires outcome.ConnectReturns? || outcome.ConnectRaises? || outcome.ConnectCancelled?
      requires Enabled(View(), outcome)
      modifies this
      ensures View() == Next(old(View()), outcome)
    {
      connecting := false;
      if outcome.ConnectRaises? {
        connectError := Some(outcome.message);
      }
      ready := true;
    }

    method Disconnect()
      requires Enabled(View(), Action.Disconnect)
      modifies this
      ensures View() == Next(old(View()), Action.Disconnect)
    {
      flusher := NotStarted;
      DiscardQueue();
      ready := false;
      drained := false;
      connectError := None;
    }

    method Query() returns (error: Option<string>)
      modifies this
      ensures View() == Next(old(View()), Action.Query)
      ensures error == old(connectError)
    {
      error := connectError;
      var id := |calls|;
      calls := calls + [Prompt];
      if connectError.Some? {
        gone := gone[id := Rejected];
      } else if drained {
        started := started + [id];
      } else {
        queue := queue + [id];
      }
    }

    method SetChange(wait: bool)
      modifies this
      ensures View() == Next(old(View()), Action.SetChange(wait))
    {
      var id := |calls|;
      calls := calls + [Change(wait)];
      if drained {
        started := started + [id];
        return;
      }
      if !wait {
        queue := queue + [id];
        return;
      }
      futures := futures[id := Pending];
      queue := queue + [id];
      waiting := waiting + {id};
    }

    method Interrupt()
      modifies this
      ensures View() == Next(old(View()), Action.Interrupt)
    {
      if !drained {
        gone := MarkAll(gone, Filter(queue, calls, false), Interrupted);
        queue := Filter(queue, calls, true);
      }
    }

    method TimerFires(id: nat)
      requires Enabled(View(), Action.TimerFires(id))
      modifies this
      ensures View() == Next(old(View()), Action.TimerFires(id))
    {
      futures := Settle(futures, id, Cancelled);
      timing := timing + {id};
    }

    method TimeoutResumes(id: nat)
      requires Enabled(View(), Action.TimeoutResumes(id))
      modifies this
      ensures View() == Next(old(View()), Action.TimeoutResumes(id))
    {
      if id in queue {
        gone := gone[id := Withdrawn];
      }
      queue := Remove(queue, id);
      waiting, timing := waiting - {id}, timing - {id};
      timedOut := timedOut + {id};
    }

    method FlushWakes()
      requires Enabled(View(), Action.FlushWakes)
      modifies this
      ensures View() == Next(old(View()), Action.FlushWakes)
    {
      if connectError.Some? {
        DiscardQueue();
        drained := true;
        flusher := Finished;
        return;
      }
      PopNext();
    }

    method EntryFinishes(ok: bool)
      requires Enabled(View(), Action.EntryFinishes(ok))
      modifies this
      ensures View() == Next(old(View()), Action.EntryFinishes(ok))
    {
      futures := Settle(futures, flusher.id, if ok then Applied else Refused);
      PopNext();
    }

    method PopNext()
      modifies this
      ensures View() == TakeNext(old(View()))
    {
      if queue == [] {
        drained := true;
        flusher := Finished;
      } else {
        flusher := Working(queue[0]);
        started := started + [queue[0]];
        queue := queue[1..];
      }
    }

    /** Pops entries one by one, telling each waiting caller that the session is not ready. */
    method DiscardQueue()
      modifies this
      ensures View() == DropQueue(old(View()))
    {
      ghost var all, done, before, goneBefore := queue, 0, futures, gone;
      assert SettleAll(before, [], NotReady) == before;
      while queue != []
        invariant done <= |all| && queue == all[done..]
        invariant futures == SettleAll(before, all[..done], NotReady)
        invariant gone == MarkAll(goneBefore, all[..done], Discarded)
        modifies `queue, `futures, `gone
        decreases |queue|
      {
        var head := queue[0];
        assert all[..done + 1] == all[..done] + [head];
        DiscardOne(before, goneBefore, all[..done], head);
        queue := queue[1..];
        futures := Settle(futures, head, NotReady);
        gone := gone[head := Discarded];
        done := done + 1;
      }
      assert all[..done] == all;
    }
  }

  lemma DiscardOne(futures: map<nat, FutureState>, gone: map<nat, Reason>, ids: seq<nat>, id: nat)
    ensures SettleAll(futures, ids + [id], NotReady) == Settle(SettleAll(futures, ids, NotReady), id, NotReady)
    ensures MarkAll(gone, ids + [id], Discarded) == MarkAll(gone, ids, Discarded)[id := Discarded]
  {
  }
}
