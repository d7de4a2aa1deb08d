/** That turns end: nothing is ever stuck, and a turn whose graph has ended or that was stopped comes to its result. */
module TurnEnding {
  import opened TurnDriver
  import opened TurnRuns
  import opened TurnStream

  // Every turn ends
  // --------------------------------------------------------------------------------------------

  /** A stop or a disconnect. */
  predicate FromOutside(a: Action) {
    a.Interrupt? || a.Disconnects?
  }

  /** The driver's and the reader's own steps, the graph task's last word included. */
  predicate OwnStep(a: Action) {
    a.BoundaryRecorded? || a.ReaderAdvances? || a.DriverGets? || a.ProbeAnswers? || a.DoneCallback?
  }

  /**
   From every reachable state something can happen besides a stop, a disconnect or a middleware's event: between turns
   a new turn or the reader's return, within one a step of the turn, which is the graph's only while its task is
   running.
   */
  lemma NeverStuck(s: State) returns (a: Action)
    requires Reachable(s)
    ensures Enabled(s, a) && !FromOutside(a) && !a.MiddlewareQueues?
    ensures a.BeginTurn? <==> s.driver.Idle?
    ensures a.ReaderRestarts? <==> s.driver.Raised?
    ensures OwnStep(a) || s.driver.Idle? || s.driver.Raised? || s.task.graph.Created? || GraphLive(s.task.graph)
  {
    ReachableCore(s);
    a := SomeStep(s);
  }

  lemma SomeStep(s: State) returns (a: Action)
    requires Core(s)
    ensures Enabled(s, a) && !FromOutside(a) && !a.MiddlewareQueues?
    ensures a.BeginTurn? <==> s.driver.Idle?
    ensures a.ReaderRestarts? <==> s.driver.Raised?
    ensures OwnStep(a) || s.driver.Idle? || s.driver.Raised? || s.task.graph.Created? || GraphLive(s.task.graph)
  {
    a := match s.driver
      case Idle => BeginTurn
      case Opening => BoundaryRecorded
      case Raised => ReaderRestarts
      case Probing(_) => ProbeAnswers(true)
      case Awaiting =>
        if s.task.handoff != [] then DriverGets
        else if s.task.graph.Created? then
          if s.task.cancelRequested then GraphUnwinds(false) else GraphFirstStep
        else if s.task.graph.Running? then GraphReturns(true, false)
        else if s.task.graph.Blocked? then HandOffTaken
        else DoneCallback
      case _ => ReaderAdvances;
  }

  /** How the turn will end is settled: its graph has ended, or a stop came before there was one. */
  predicate Settled(s: State) {
    || ((s.driver.Opening? || s.driver.HumanOut?) && s.control.asked)
    || s.task.graph.Ended? || s.driver.Probing? || s.driver.Draining?
  }

  function EndingOf(s: State): Ending {
    if s.task.graph.Ended? then
      match s.task.graph.outcome
      case Completed => Finished
      case Cancelled => Stopped
      case Errored => Failed
    else if s.driver.Probing? && !s.driver.stopped then Finished
    else if s.driver.Draining? then Finished
    else Stopped
  }

  /** More than the steps that are left. */
  function Left(s: State): nat {
    match s.driver
    case Opening => 2
    case HumanOut => 1
    case Awaiting => |s.pending| + 3 + 2 * |s.task.handoff| + if s.task.doneSignalled then 0 else 3
    case Yielded(_) => |s.pending| + 4 + 2 * |s.task.handoff| + if s.task.doneSignalled then 0 else 3
    case Probing(_) => |s.pending| + 2
    case Draining(rest) => |rest| + 1
    case _ => 0
  }

  /** The turn goes on to the same end, with fewer steps left unless the step came from outside. */
  predicate Nearer(s: State, a: Action, t: State) {
    && Settled(t) && EndingOf(t) == EndingOf(s) && t.turn == s.turn && t.ended == s.ended
    && t.log == s.log.(segment := t.log.segment)
    && (if FromOutside(a) then Left(t) == Left(s) else Left(t) < Left(s))
  }

  /** The turn that was under way in `s` is the last one ended in `t`. */
  predicate Over(s: State, t: State) {
    && |t.ended| == |s.ended| + 1 && t.ended == s.ended + [t.ended[|s.ended|]]
    && (t.driver.Closing? || t.driver.Raised? || t.driver.Idle?)
    && var r := t.ended[|s.ended|];
       r.turn == s.turn && r.ending == EndingOf(s) && r.log == s.log.(segment := r.log.segment)
  }

  /** Where the driver stands when the turn has just ended. */
  function LastStop(s: State): Driver {
    if EndingOf(s).Failed? then Raised else Closing
  }

  lemma SettledAdvances(s: State, a: Action)
    requires Core(s) && Settled(s) && Enabled(s, a) && (a.ReaderAdvances? || a.ProbeAnswers?)
    ensures Nearer(s, a, Next(s, a)) || (Over(s, Next(s, a)) && Next(s, a).driver == LastStop(s))
  {
  }

  lemma SettledGets(s: State)
    requires Core(s) && Settled(s) && Enabled(s, DriverGets)
    ensures Nearer(s, DriverGets, Next(s, DriverGets)) ||
            (Over(s, Next(s, DriverGets)) && Next(s, DriverGets).driver == LastStop(s))
  {
  }

  lemma SettledStep(s: State, a: Action)
    requires Core(s) && Settled(s) && Enabled(s, a)
    ensures OwnStep(a) || FromOutside(a)
    ensures Nearer(s, a, Next(s, a)) || (Over(s, Next(s, a)) && Next(s, a).driver == LastStop(s))
  {
    match a
    case ReaderAdvances => SettledAdvances(s, a);
    case ProbeAnswers(_) => SettledAdvances(s, a);
    case DriverGets => SettledGets(s);
    case _ =>
  }

  lemma RestingStays(s: State, a: Action)
    requires Resting(s) && Core(s) && Enabled(s, a) && !a.BeginTurn?
    ensures Resting(Next(s, a)) && Next(s, a).ended == s.ended
  {
  }

  lemma {:induction false} RestingRun(s: State, actions: seq<Action>, t: State)
    requires Core(s) && Resting(s) && Steps(s, actions, t)
    requires forall i :: 0 <= i < |actions| ==> !actions[i].BeginTurn?
    ensures Resting(t) && t.ended == s.ended
    decreases |actions|
  {
    if actions != [] {
      CoreStep(s, actions[0]);
      RestingStays(s, actions[0]);
      RestingRun(Next(s, actions[0]), actions[1..], t);
    }
  }

  /** How many steps of a run are neither stops nor disconnects. */
  function Moves(actions: seq<Action>): nat {
    if actions == [] then 0 else (if FromOutside(actions[0]) then 0 else 1) + Moves(actions[1..])
  }

  lemma OverStays(s: State, n: State, t: State)
    requires Over(s, n) && Resting(t) && t.ended == n.ended
    ensures Over(s, t)
  {
  }

  lemma NearerThenOver(s: State, a: Action, n: State, t: State)
    requires Nearer(s, a, n)
    ensures Over(n, t) ==> Over(s, t)
  {
  }

  lemma {:induction false} SettledRun(s: State, actions: seq<Action>, t: State)
    requires Core(s) && Settled(s) && Steps(s, actions, t)
    requires forall i :: 0 <= i < |actions| ==> !actions[i].BeginTurn?
    ensures Over(s, t) || (Settled(t) && EndingOf(t) == EndingOf(s) && Moves(actions) + Left(t) <= Left(s))
    decreases |actions|
  {
    if actions != [] {
      var a, n := actions[0], Next(s, actions[0]);
      CoreStep(s, a);
      SettledStep(s, a);
      assert forall i :: 0 <= i < |actions[1..]| ==> actions[1..][i] == actions[i + 1];
      if Over(s, n) {
        RestingRun(n, actions[1..], t);
        OverStays(s, n, t);
      } else {
        SettledRun(n, actions[1..], t);
        NearerThenOver(s, a, n, t);
      }
    }
  }

  lemma SettledOrResting(t: State)
    requires Core(t)
    ensures Settled(t) ==> !Resting(t) && Left(t) > 0
  {
  }

  lemma OverReads(s: State, t: State)
    requires Over(s, t) && AllWell(t.ended)
    ensures |t.ended| == |s.ended| + 1 && t.ended[..|s.ended|] == s.ended && t.ended[|s.ended|].turn == s.turn
    ensures t.ended[|s.ended|].events == [Human(s.turn)] + EndOf(s)
  {
    var r := t.ended[|s.ended|];
    assert WellEnded(r) && All(r.log) == All(s.log);
  }

  /** What a settled turn will have yielded after its prompt. */
  function EndOf(s: State): seq<Event> {
    match EndingOf(s)
    case Stopped => s.log.handed + [Result(s.turn, true)]
    case Finished => All(s.log) + [Result(s.turn, false)]
    case Failed => s.log.handed
  }

  /**
   Once its graph has ended, or it was stopped before it had one, a turn ends within a bounded number of steps in
   every schedule, with one result unless its graph failed: stopped, it has yielded what was handed over; finished,
   all there was. As long as it has not ended, `NeverStuck` has a step of its own for it.
   */
  lemma TurnEnds(s: State, actions: seq<Action>, t: State)
    requires Reachable(s) && Settled(s) && Steps(s, actions, t)
    requires forall i :: 0 <= i < |actions| ==> !actions[i].BeginTurn?
    ensures Settled(t) ==> Moves(actions) < Left(s)
    ensures !Settled(t) ==>
              && Resting(t) && |t.ended| == |s.ended| + 1 && t.ended[..|s.ended|] == s.ended
              && t.ended[|s.ended|].turn == s.turn && t.ended[|s.ended|].events == [Human(s.turn)] + EndOf(s)
  {
    ReachableInv(s);
    SettledRun(s, actions, t);
    RunInv(s, actions, t);
    SettledOrResting(t);
    if !Settled(t) {
      OverReads(s, t);
    }
  }

  lemma StopSettlesCore(s: State)
    requires Core(s) && s.control.active
    ensures var t := Next(s, Interrupt);
      && t.control.asked && t.driver == s.driver
      && t.task.graph == s.task.graph && (t.task.cancelRequested || t.task.graph.NoTask? || t.task.graph.Ended?)
      && (t.task.graph.NoTask? ==> t.driver.Opening? || t.driver.HumanOut?)
  {
  }

  lemma JustOver(s: State, t: State)
    requires Over(s, t) && Reachable(t)
    ensures |t.ended| == |s.ended| + 1 && t.ended[..|s.ended|] == s.ended && t.ended[|s.ended|].turn == s.turn
    ensures t.ended[|s.ended|].events == [Human(s.turn)] + EndOf(s)
  {
    ReachableHistories(t);
    OverReads(s, t);
  }

  lemma OwnProgress(s: State) returns (a: Action, n: State)
    requires Reachable(s) && Settled(s)
    ensures OwnStep(a) && Steps(s, [a], n) && Reachable(n)
    ensures if Over(s, n) then n.driver == LastStop(s) else SameEnd(s, n) && Left(n) < Left(s)
  {
    ReachableCore(s);
    a := SomeStep(s);
    n := Next(s, a);
    SettledStep(s, a);
    OneStep(s, a);
    ReachableOn(s, [a], n);
  }

  /** Both are settled, and for the same. */
  predicate SameEnd(s: State, n: State) {
    && Settled(n) && n.turn == s.turn && n.ended == s.ended && EndOf(n) == EndOf(s) && LastStop(n) == LastStop(s)
  }

  /** And the driver's and the reader's own steps bring it there. */
  lemma {:induction false} TurnCanEnd(s: State) returns (actions: seq<Action>, t: State)
    requires Reachable(s) && Settled(s)
    ensures Steps(s, actions, t) && forall i :: 0 <= i < |actions| ==> OwnStep(actions[i])
    ensures t.driver == LastStop(s)
    ensures |t.ended| == |s.ended| + 1 && t.ended[..|s.ended|] == s.ended && t.ended[|s.ended|].turn == s.turn
    ensures t.ended[|s.ended|].events == [Human(s.turn)] + EndOf(s)
    decreases Left(s)
  {
    var a, n := OwnProgress(s);
    if Over(s, n) {
      actions, t := [a], n;
      JustOver(s, t);
    } else {
      var rest;
      rest, t := TurnCanEnd(n);
      actions := [a] + rest;
      StepsJoin(s, [a], n, rest, t);
    }
  }

  /**
   A stop inside a turn settles it, at once or by letting the graph task unwind, which nothing can then prevent: as
   stopped, unless the graph had already ended by itself.
   */
  lemma StopSettles(s: State)
    requires Reachable(s) && s.control.active
    ensures var t := Next(s, Interrupt);
      if s.task.graph.Ended? then Settled(t) && EndingOf(t) == EndingOf(s)
      else if s.task.graph.NoTask? then Settled(t) && EndingOf(t).Stopped?
      else forall paused :: Enabled(t, GraphUnwinds(paused)) && Settled(Next(t, GraphUnwinds(paused)))
                            && EndingOf(Next(t, GraphUnwinds(paused))).Stopped?
  {
    ReachableCore(s);
    StopSettlesCore(s);
  }

  /** A disconnect lets a graph task that has not ended unwind, which settles the turn as stopped, or does nothing. */
  lemma DisconnectSettles(s: State)
    requires Reachable(s)
    ensures var t := Next(s, Disconnects);
      if s.task.graph.Ended? || s.task.graph.NoTask? then t == s.(control := s.control.(disconnected := true))
      else !Enabled(t, GraphFirstStep) && forall paused :: Enabled(t, GraphUnwinds(paused)) &&
                                            Settled(Next(t, GraphUnwinds(paused))) &&
                                            EndingOf(Next(t, GraphUnwinds(paused))).Stopped?
  {
    ReachableCore(s);
  }

  /** The turn was stopped before its graph took a step, and has not gone past that. */
  predicate Unstarted(s: State) {
    && !s.resume.routed && !GraphLive(s.task.graph) && s.log.handed == s.log.produced == []
    && (s.driver.Opening? || s.driver.HumanOut? ==> s.control.asked)
    && (s.task.graph.Created? ==> s.task.cancelRequested)
  }

  lemma UnstartedStays(s: State, a: Action)
    requires Core(s) && Unstarted(s) && Enabled(s, a) && !a.BeginTurn?
    ensures Unstarted(Next(s, a)) && Next(s, a).resume == s.resume
  {
  }

  lemma {:induction false} UnstartedRun(s: State, actions: seq<Action>, t: State)
    requires Core(s) && Unstarted(s) && Steps(s, actions, t)
    requires forall i :: 0 <= i < |actions| ==> !actions[i].BeginTurn?
    ensures Unstarted(t) && t.resume == s.resume
    decreases |actions|
  {
    if actions != [] {
      CoreStep(s, actions[0]);
      UnstartedStays(s, actions[0]);
      assert forall i :: 0 <= i < |actions[1..]| ==> actions[1..][i] == actions[i + 1];
      UnstartedRun(Next(s, actions[0]), actions[1..], t);
    }
  }

  lemma StoppedUnstarted(s: State)
    requires Core(s) && Flowing(s) && s.control.active && (s.task.graph.NoTask? || s.task.graph.Created?)
    ensures Unstarted(Next(s, Interrupt))
    ensures Next(s, Interrupt).resume == s.resume
  {
  }

  /**
   A turn stopped before its graph's first step never runs it: the prompt is not routed, nothing is handed over, and a
   pause goes on waiting for its answer.
   */
  lemma StoppedBeforeItRan(s: State, n: State, actions: seq<Action>, t: State)
    requires Reachable(s) && s.control.active && (s.task.graph.NoTask? || s.task.graph.Created?)
    requires n == Next(s, Interrupt)
    requires Steps(n, actions, t) && forall i :: 0 <= i < |actions| ==> !actions[i].BeginTurn?
    ensures t.resume == s.resume && t.log.handed == []
  {
    ReachableInv(s);
    StoppedUnstarted(s);
    StepInv(s, Interrupt);
    UnstartedRun(n, actions, t);
  }

  // From every state to the next turn
  // --------------------------------------------------------------------------------------------

  /** How many stations lie ahead before the turn's end is settled. */
  function Rank(s: State): nat {
    if s.driver.Opening? then 5
    else if s.driver.HumanOut? then 4
    else if s.task.graph.Created? then 3
    else if s.task.graph.Blocked? then 2
    else 1
  }

  lemma NextStation(s: State) returns (a: Action)
    requires Core(s) && !Settled(s) && !Resting(s) && !s.task.graph.Blocked?
    ensures Enabled(s, a) && !FromOutside(a) && !a.BeginTurn?
    ensures !Resting(Next(s, a)) && (Settled(Next(s, a)) || Rank(Next(s, a)) < Rank(s))
  {
    a := if s.driver.Opening? then BoundaryRecorded
      else if s.driver.HumanOut? then ReaderAdvances
      else if s.task.graph.Running? then GraphReturns(true, false)
      else if s.task.cancelRequested then GraphUnwinds(false)
      else GraphFirstStep;
  }

  lemma Onwards(s: State) returns (actions: seq<Action>, n: State)
    requires Reachable(s) && !Settled(s) && !Resting(s)
    ensures Steps(s, actions, n) && Reachable(n) && !Resting(n)
    ensures forall i :: 0 <= i < |actions| ==> !FromOutside(actions[i]) && !actions[i].BeginTurn?
    ensures Settled(n) || Rank(n) < Rank(s)
  {
    ReachableCore(s);
    if s.task.graph.Blocked? {
      actions, n := HandOffsComplete(s);
      ReachableCore(n);
    } else {
      var a := NextStation(s);
      actions, n := [a], Next(s, a);
      OneStep(s, a);
      ReachableOn(s, [a], n);
    }
  }

  lemma {:induction false} ComesToItsEnd(s: State) returns (actions: seq<Action>, t: State)
    requires Reachable(s) && !Resting(s)
    ensures Steps(s, actions, t) && Reachable(t) && (t.driver.Closing? || t.driver.Raised?)
    ensures forall i :: 0 <= i < |actions| ==> !FromOutside(actions[i]) && !actions[i].BeginTurn?
    decreases if Settled(s) then 0 else Rank(s)
  {
    if Settled(s) {
      actions, t := TurnCanEnd(s);
      ReachableOn(s, actions, t);
    } else {
      var first, n := Onwards(s);
      var rest;
      rest, t := ComesToItsEnd(n);
      actions := first + rest;
      StepsJoin(s, first, n, rest, t);
    }
  }

  /**
   From every reachable state the turn, if one is under way, can come to its end without a stop or a disconnect, and the
   reader can then begin the next one: nothing a run can do leaves the driver, the graph or the reader stuck.
   */
  lemma NextTurnCanBegin(s: State) returns (actions: seq<Action>, t: State)
    requires Reachable(s)
    ensures Steps(s, actions, t) && t.driver.Idle?
    ensures forall i :: 0 <= i < |actions| ==> !FromOutside(actions[i]) && !actions[i].BeginTurn?
  {
    if s.driver.Idle? {
      actions, t := [], s;
    } else {
      var n := s;
      actions := [];
      if !Resting(s) {
        actions, n := ComesToItsEnd(s);
      }
      var a := if n.driver.Closing? then ReaderAdvances else ReaderRestarts;
      t := Next(n, a);
      OneStep(n, a);
      StepsJoin(s, actions, n, [a], t);
      actions := actions + [a];
    }
  }
}
