/** What the caller of a queued change is told: the first word on it, and which of the run's actions that was. */
module QueueOutcomes {
  import opened Wrappers
  import opened ClaudeQueue

  // The first word
  // --------------------------------------------------------------------------------------------

  /** What an action says of the change `id`, if anything. */
  function Word(s: State, a: Action, id: nat): Option<FutureState> {
    match a
    case EntryFinishes(ok) => if s.flusher == Working(id) then Some(if ok then Applied else Refused) else None
    case TimerFires(i) => if i == id then Some(Cancelled) else None
    case CallerCancelled(i) => if i == id then Some(Cancelled) else None
    case Disconnect => if id in s.queue then Some(NotReady) else None
    case FlushWakes => if s.connectError.Some? && id in s.queue then Some(NotReady) else None
    case _ => None
  }

  /** The first word of a run on the change `id`. */
  function FirstWord(s: State, actions: seq<Action>, id: nat): FutureState
    decreases |actions|
  {
    if actions == [] || !Enabled(s, actions[0]) then Pending
    else if Word(s, actions[0], id).Some? then Word(s, actions[0], id).value
    else FirstWord(Next(s, actions[0]), actions[1..], id)
  }

  /** A new call is no matter of the older ones' callers. */
  lemma IssueLeaves(s: State, call: Call, id: nat)
    requires id < |s.calls|
    ensures var t := Issue(s, call);
      && (id in t.futures <==> id in s.futures) && (id in s.futures ==> t.futures[id] == s.futures[id])
      && (id in t.waiting <==> id in s.waiting) && t.timing == s.timing && t.timedOut == s.timedOut
  {
  }

  lemma StepWord(s: State, a: Action, id: nat)
    requires id < |s.calls| && Enabled(s, a) && id in s.futures && s.futures[id].Pending?
    ensures id in Next(s, a).futures
    ensures Next(s, a).futures[id] == if Word(s, a, id).Some? then Word(s, a, id).value else Pending
  {
    match a
    case Query => IssueLeaves(s, Prompt, id);
    case SetChange(wait) => IssueLeaves(s, Change(wait), id);
    case _ =>
  }

  /** A change that waits has as its outcome the first word on it, and waits on if there is none. */
  lemma {:induction false} OutcomeIsFirstWord(s: State, actions: seq<Action>, t: State, id: nat)
    requires Inv(s) && Steps(s, actions, t) && id in s.futures && s.futures[id].Pending?
    ensures id in t.futures && t.futures[id] == FirstWord(s, actions, id)
    decreases |actions|
  {
    if actions != [] {
      StepInv(s, actions[0]);
      assert IsWaited(s.calls, id);
      StepWord(s, actions[0], id);
      if Word(s, actions[0], id).Some? {
        SettledOnce(Next(s, actions[0]), actions[1..], t, id);
      } else {
        OutcomeIsFirstWord(Next(s, actions[0]), actions[1..], t, id);
      }
    }
  }

  /** A waited change made before the drain is over waits from then on. */
  lemma WaitsFromTheCall(s: State, n: State, actions: seq<Action>, t: State)
    requires Inv(s) && !s.drained && n == Next(s, SetChange(true)) && Steps(n, actions, t)
    ensures var id := |s.calls|;
      id in n.waiting && n.queue == s.queue + [id] && id in t.futures && t.futures[id] == FirstWord(n, actions, id)
  {
    StepInv(s, SetChange(true));
    OutcomeIsFirstWord(n, actions, t, |s.calls|);
  }

  // Applied and refused
  // --------------------------------------------------------------------------------------------

  /** The state before the k-th action. */
  function Before(s: State, actions: seq<Action>, k: nat): State
    requires k <= |actions|
    decreases |actions|
  {
    if k == 0 || !Enabled(s, actions[0]) then s else Before(Next(s, actions[0]), actions[1..], k - 1)
  }

  /** The k-th action ends the attempt to apply the change `id`. */
  predicate FinishesAt(s: State, actions: seq<Action>, k: nat, id: nat, ok: bool)
    requires k < |actions|
  {
    actions[k] == EntryFinishes(ok) && Before(s, actions, k).flusher == Working(id)
  }

  /** The caller's timer fires or the caller is cancelled. */
  predicate GivesUp(a: Action, id: nat) {
    a == TimerFires(id) || a == CallerCancelled(id)
  }

  /** The attempt ended so while the caller was still waiting. */
  ghost predicate FinishesInTime(s: State, actions: seq<Action>, id: nat, ok: bool) {
    exists k :: 0 <= k < |actions| && FinishesAt(s, actions, k, id, ok)
                && forall j :: 0 <= j < k ==> !GivesUp(actions[j], id)
  }

  lemma InTimeLater(s: State, actions: seq<Action>, id: nat, ok: bool)
    requires actions != [] && Enabled(s, actions[0])
    requires !GivesUp(actions[0], id) && FinishesInTime(Next(s, actions[0]), actions[1..], id, ok)
    ensures FinishesInTime(s, actions, id, ok)
  {
    var n, rest := Next(s, actions[0]), actions[1..];
    var k :| 0 <= k < |rest| && FinishesAt(n, rest, k, id, ok) && forall j :: 0 <= j < k ==> !GivesUp(rest[j], id);
    assert FinishesAt(s, actions, k + 1, id, ok);
    forall j | 0 <= j < k + 1 ensures !GivesUp(actions[j], id) {
      if j > 0 { assert actions[j] == rest[j - 1]; }
    }
  }

  lemma InTimeStep(s: State, actions: seq<Action>, id: nat, ok: bool)
    requires actions != [] && Enabled(s, actions[0])
    ensures FinishesInTime(s, actions, id, ok) <==>
              || FinishesAt(s, actions, 0, id, ok)
              || (!GivesUp(actions[0], id) && FinishesInTime(Next(s, actions[0]), actions[1..], id, ok))
  {
    var n, rest := Next(s, actions[0]), actions[1..];
    if !GivesUp(actions[0], id) && FinishesInTime(n, rest, id, ok) {
      InTimeLater(s, actions, id, ok);
    } else if FinishesInTime(s, actions, id, ok) && !FinishesAt(s, actions, 0, id, ok) {
      var k :| 0 < k < |actions| && FinishesAt(s, actions, k, id, ok)
               && forall j :: 0 <= j < k ==> !GivesUp(actions[j], id);
      assert FinishesAt(n, rest, k - 1, id, ok);
    }
  }

  /** Neither being applied nor to be applied any more. */
  predicate Past(s: State, id: nat) {
    s.flusher != Working(id) && (id in s.started || id in s.gone)
  }

  lemma PastStays(s: State, a: Action, id: nat)
    requires Inv(s) && Past(s, id) && Enabled(s, a)
    ensures Past(Next(s, a), id)
  {
    StepInv(s, a);
    StepGrows(s, a);
    if s.queue != [] {
      AscendingParts(s.started, s.queue);
      assert s.queue[0] in s.queue && s.queue[0] !in s.started;
    }
  }

  lemma {:induction false} PastNeverFinishes(s: State, actions: seq<Action>, t: State, id: nat, ok: bool)
    requires Inv(s) && Past(s, id) && Steps(s, actions, t)
    ensures !FinishesInTime(s, actions, id, ok)
    decreases |actions|
  {
    if actions != [] {
      StepInv(s, actions[0]);
      PastStays(s, actions[0], id);
      InTimeStep(s, actions, id, ok);
      assert Before(s, actions, 0) == s && !FinishesAt(s, actions, 0, id, ok);
      PastNeverFinishes(Next(s, actions[0]), actions[1..], t, id, ok);
    }
  }

  lemma WordPasses(s: State, a: Action, id: nat)
    requires Inv(s) && Enabled(s, a) && id in s.futures && Word(s, a, id).Some? && !GivesUp(a, id)
    ensures Past(Next(s, a), id)
  {
    if a.EntryFinishes? {
      assert id in s.started && Next(s, a).started[..|s.started|] == s.started;
    }
    if s.queue != [] {
      AscendingParts(s.started, s.queue);
      assert s.queue[0] in s.queue && s.queue[0] !in s.started;
    }
  }

  /**
   A waiting change is told that it was applied if and only if its own attempt ended well while its caller still waited,
   and that it was refused if and only if its own attempt was refused in that time.
   */
  lemma {:induction false} AppliedExactly(s: State, actions: seq<Action>, t: State, id: nat, ok: bool)
    requires Inv(s) && Steps(s, actions, t) && id in s.futures && s.futures[id].Pending?
    ensures id in t.futures
    ensures t.futures[id] == (if ok then Applied else Refused) <==> FinishesInTime(s, actions, id, ok)
    decreases |actions|
  {
    if actions != [] {
      var a, n := actions[0], Next(s, actions[0]);
      StepInv(s, a);
      assert IsWaited(s.calls, id);
      StepWord(s, a, id);
      InTimeStep(s, actions, id, ok);
      if Word(s, a, id).None? {
        AppliedExactly(n, actions[1..], t, id, ok);
      } else {
        SettledOnce(n, actions[1..], t, id);
        if !GivesUp(a, id) {
          WordPasses(s, a, id);
          PastNeverFinishes(n, actions[1..], t, id, ok);
        }
      }
    }
  }

  /** However an attempt ends, its caller is not left waiting. */
  lemma FinishSettles(s: State, ok: bool)
    requires Inv(s) && Enabled(s, EntryFinishes(ok)) && s.flusher.id in s.futures
    ensures var id, t := s.flusher.id, Next(s, EntryFinishes(ok));
      id in t.futures && !t.futures[id].Pending?
  {
    assert IsWaited(s.calls, s.flusher.id);
    if s.futures[s.flusher.id].Pending? {
      StepWord(s, EntryFinishes(ok), s.flusher.id);
    } else {
      StepSettles(s, EntryFinishes(ok), s.flusher.id);
    }
  }

  // How a wait ends
  // --------------------------------------------------------------------------------------------

  /** The caller goes on: with the outcome, with the report of a timeout, or because it was cancelled. */
  predicate EndsWait(a: Action, id: nat) {
    a == CallerResumes(id) || a == TimeoutResumes(id) || a == CallerCancelled(id)
  }

  lemma WaitStep(s: State, a: Action, id: nat)
    requires id < |s.calls| && Enabled(s, a)
    ensures id in Next(s, a).waiting <==> id in s.waiting && !EndsWait(a, id)
    ensures id in Next(s, a).timedOut <==> id in s.timedOut || a == TimeoutResumes(id)
    ensures id in Next(s, a).timing <==> (id in s.timing && !EndsWait(a, id)) || a == TimerFires(id)
  {
    match a
    case Query => IssueLeaves(s, Prompt, id);
    case SetChange(wait) => IssueLeaves(s, Change(wait), id);
    case _ =>
  }

  /** A caller waits until it goes on in one of the three ways, and a timeout is reported in exactly one of them. */
  lemma {:induction false} WaitEnds(s: State, actions: seq<Action>, t: State, id: nat)
    requires Inv(s) && Steps(s, actions, t) && id < |s.calls|
    ensures id in t.waiting <==> id in s.waiting && forall i :: 0 <= i < |actions| ==> !EndsWait(actions[i], id)
    ensures id in t.timedOut <==> id in s.timedOut || TimeoutResumes(id) in actions
    decreases |actions|
  {
    if actions != [] {
      var rest := actions[1..];
      StepInv(s, actions[0]);
      StepGrows(s, actions[0]);
      WaitStep(s, actions[0], id);
      WaitEnds(Next(s, actions[0]), rest, t, id);
      assert actions == [actions[0]] + rest && forall i :: 0 < i < |actions| ==> actions[i] == rest[i - 1];
      assert (forall i :: 0 <= i < |actions| ==> !EndsWait(actions[i], id)) <==>
               !EndsWait(actions[0], id) && forall i :: 0 <= i < |rest| ==> !EndsWait(rest[i], id) by {
        assert forall i :: 0 <= i < |rest| ==> rest[i] == actions[i + 1];
      }
    }
  }

  /**
   Once its timer has fired a caller goes on with the report of a timeout, unless it is cancelled, even if its change
   was settled before; until then it can.
   */
  lemma {:induction false} FiredIsReported(s: State, actions: seq<Action>, t: State, id: nat)
    requires Inv(s) && id in s.timing && Steps(s, actions, t) && CallerCancelled(id) !in actions
    ensures if TimeoutResumes(id) in actions then id in t.timedOut && id !in t.waiting
            else Enabled(t, TimeoutResumes(id)) && !Enabled(t, CallerResumes(id))
    decreases |actions|
  {
    if actions != [] {
      var a, n := actions[0], Next(s, actions[0]);
      assert actions == [a] + actions[1..];
      StepInv(s, a);
      StepGrows(s, a);
      WaitStep(s, a, id);
      if a == TimeoutResumes(id) {
        WaitEnds(n, actions[1..], t, id);
      } else {
        FiredIsReported(n, actions[1..], t, id);
      }
    }
  }

  /** A caller whose timer fires, or whose change is settled, is free to go on. */
  lemma WaiterGoesOn(s: State, id: nat)
    requires Inv(s) && id in s.waiting
    ensures id in s.futures
    ensures Enabled(s, TimerFires(id)) ==> id in Next(s, TimerFires(id)).timing
    ensures !s.futures[id].Pending? ==> Enabled(s, CallerResumes(id)) || Enabled(s, TimeoutResumes(id))
    ensures s.futures[id].Pending? ==> Enabled(s, TimerFires(id))
  {
  }

  /** After an exception that is no refusal nothing more is sent or applied until a disconnect. */
  lemma {:induction false} EscapeStopsTheDrain(s: State, actions: seq<Action>, t: State)
    requires Inv(s) && Enabled(s, EntryEscapes) && Steps(Next(s, EntryEscapes), actions, t)
    requires Disconnect !in actions
    ensures t.started == s.started && !t.drained
  {
    StepInv(s, EntryEscapes);
    StaysCrashed(Next(s, EntryEscapes), actions, t);
  }

  lemma {:induction false} StaysCrashed(s: State, actions: seq<Action>, t: State)
    requires Inv(s) && s.flusher.Crashed? && Steps(s, actions, t) && Disconnect !in actions
    ensures t.flusher.Crashed? && t.started == s.started && !t.drained
    decreases |actions|
  {
    if actions != [] {
      assert actions == [actions[0]] + actions[1..];
      StepInv(s, actions[0]);
      StaysCrashed(Next(s, actions[0]), actions[1..], t);
    }
  }

  // Disconnecting
  // --------------------------------------------------------------------------------------------

  /** What a disconnect finds in the queue never begins, reconnects included, and each waiting caller is told. */
  lemma DisconnectDiscards(s: State, n: State, actions: seq<Action>, t: State, id: nat)
    requires Inv(s) && Enabled(s, Disconnect) && n == Next(s, Disconnect) && Steps(n, actions, t)
    requires id in s.queue
    ensures id !in t.started && id !in t.queue && id in n.gone && n.gone[id] == Discarded
    ensures id in s.futures ==>
              id in t.futures && t.futures[id] == if s.futures[id].Pending? then NotReady else s.futures[id]
  {
    StepInv(s, Disconnect);
    GoneNeverBegins(n, actions, t, id);
    if id in s.futures {
      SettledOnce(n, actions, t, id);
    }
  }

  /** No connect has ended since. */
  predicate Unready(a: Action) {
    !a.ConnectReturns? && !a.ConnectRaises? && !a.ConnectCancelled?
  }

  lemma {:induction false} NothingBeginsUnready(s: State, actions: seq<Action>, t: State)
    requires Inv(s) && !s.ready && Steps(s, actions, t)
    requires forall i :: 0 <= i < |actions| ==> Unready(actions[i])
    ensures !t.ready && t.started == s.started
    decreases |actions|
  {
    if actions != [] {
      StepInv(s, actions[0]);
      assert Unready(actions[0]) && !s.drained && !s.flusher.Working?;
      assert forall i :: 0 <= i < |actions[1..]| ==> actions[1..][i] == actions[i + 1];
      NothingBeginsUnready(Next(s, actions[0]), actions[1..], t);
    }
  }

  /** And until a connect has ended again nothing at all is sent or applied: calls queue as before the first one. */
  lemma NothingBeginsDisconnected(s: State, n: State, actions: seq<Action>, t: State)
    requires Inv(s) && Enabled(s, Disconnect) && n == Next(s, Disconnect) && Steps(n, actions, t)
    requires forall i :: 0 <= i < |actions| ==> Unready(actions[i])
    ensures t.started == s.started
  {
    StepInv(s, Disconnect);
    NothingBeginsUnready(n, actions, t);
  }
}
