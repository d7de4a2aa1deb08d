/**
 What holds over every run of turns: how each one reads, what it can have of another's events, and when the next
 prompt is taken for an answer.
 */
module TurnRuns {
  import opened TurnDriver

  // What holds over every run
  // --------------------------------------------------------------------------------------------

  ghost predicate Reachable(s: State) {
    exists actions :: Steps(FRESH, actions, s)
  }

  lemma ReachableInv(s: State)
    requires Reachable(s)
    ensures Inv(s)
  {
    var actions :| Steps(FRESH, actions, s);
    RunInv(FRESH, actions, s);
  }

  lemma ReachableOn(s: State, actions: seq<Action>, t: State)
    requires Reachable(s) && Steps(s, actions, t)
    ensures Reachable(t)
  {
    var before :| Steps(FRESH, before, s);
    StepsJoin(FRESH, before, s, actions, t);
  }

  lemma ReachableCore(s: State)
    requires Reachable(s)
    ensures Core(s)
  {
    ReachableInv(s);
  }

  lemma ReachableHistories(s: State)
    requires Reachable(s)
    ensures AllWell(s.ended) && Chained(s.ended)
  {
    ReachableInv(s);
  }

  /**
   Every turn that has ended yielded its prompt, then events in order, then exactly one result, or none if its graph
   failed.  The events are all that it inherited and then produced if it ran to the end, else those handed over.  It
   inherited exactly what the turn before it left, which is nothing unless that one failed, and a failed turn leaves
   all that it did not hand over.  No turn ends as stopped unless a stop landed inside it.
   */
  lemma TurnsReadWell(s: State, i: nat)
    requires Reachable(s) && i < |s.ended|
    ensures var r := s.ended[i];
      && r.events == [Human(r.turn)] + (if r.ending.Finished? then All(r.log) else r.log.handed)
                     + (if r.ending.Failed? then [] else [Result(r.turn, r.ending.Stopped?)])
      && r.log.handed <= All(r.log) == r.log.inherited + r.log.produced
      && (forall k :: 0 <= k < |r.log.produced| ==> r.log.produced[k] == Body(r.turn, k))
      && (r.ending.Stopped? ==> r.asked || r.disconnected)
    ensures s.ended[i].log.inherited == if i == 0 then [] else s.ended[i - 1].left
    ensures if s.ended[i].ending.Failed? then All(s.ended[i].log) == s.ended[i].log.handed + s.ended[i].left
            else s.ended[i].left == []
  {
    ReachableHistories(s);
    OneOfEnded(s.ended, i);
  }

  lemma OneOfEnded(ended: seq<Turn>, i: nat)
    requires AllWell(ended) && Chained(ended) && i < |ended|
    ensures WellEnded(ended[i]) && Older(ended[i].log.inherited, ended[i].turn)
    ensures ended[i].log.inherited == if i == 0 then [] else ended[i - 1].left
  {
    assert ended[i].log.inherited == Carried(ended[..i]);
  }

  ghost predicate YieldsForeign(r: Turn) {
    exists k :: 0 <= k < |r.events| && r.events[k].Body? && r.events[k].turn != r.turn
  }

  /**
   A turn yields another turn's event if and only if the turn before it failed with events still queued, and it came to
   hand over anything at all: only a turn that is stopped or fails before that escapes them.
   */
  lemma ForeignEventsExactly(s: State, i: nat)
    requires Reachable(s) && i < |s.ended|
    ensures YieldsForeign(s.ended[i]) <==>
              && i > 0 && s.ended[i - 1].ending.Failed? && s.ended[i - 1].left != []
              && (s.ended[i].ending.Finished? || s.ended[i].log.handed != [])
  {
    ReachableHistories(s);
    OneOfEnded(s.ended, i);
    if i > 0 {
      OneOfEnded(s.ended, i - 1);
    }
    assert s.ended[i].log.inherited != [] ==> All(s.ended[i].log) != [];
    ForeignIfInherited(s.ended[i]);
  }

  /** What an ended turn told between the prompt and the result. */
  function Told(r: Turn): seq<Event> {
    if r.ending.Finished? then All(r.log) else r.log.handed
  }

  lemma ToldIs(r: Turn)
    requires WellEnded(r)
    ensures |Told(r)| < |r.events| && Told(r) <= All(r.log)
    ensures forall k :: 0 <= k < |Told(r)| ==> r.events[k + 1] == Told(r)[k] == All(r.log)[k]
    ensures forall k :: 0 <= k < |r.events| && r.events[k].Body? ==> 1 <= k <= |Told(r)|
  {
    var close := if r.ending.Failed? then [] else [Result(r.turn, r.ending.Stopped?)];
    assert r.events == [Human(r.turn)] + Told(r) + close;
  }

  lemma ForeignIfInherited(r: Turn)
    requires WellEnded(r) && Older(r.log.inherited, r.turn)
    ensures YieldsForeign(r) <==> r.log.inherited != [] && Told(r) != []
  {
    ToldIs(r);
    if r.log.inherited == [] {
      assert All(r.log) == r.log.produced;
      forall k | 0 <= k < |r.events| && r.events[k].Body?
        ensures r.events[k].turn == r.turn
      {
        assert r.events[k] == Told(r)[k - 1] == r.log.produced[k - 1];
      }
    } else if Told(r) != [] {
      assert r.events[1] == Told(r)[0] == r.log.inherited[0];
    }
  }

  /** While no graph fails, no event of one turn surfaces in another. */
  lemma TurnsKeepApart(s: State, i: nat)
    requires Reachable(s) && i < |s.ended|
    requires forall j :: 0 <= j < i ==> !s.ended[j].ending.Failed?
    ensures !YieldsForeign(s.ended[i])
  {
    ForeignEventsExactly(s, i);
  }

  lemma {:induction false} StepsJoin(s: State, a: seq<Action>, m: State, b: seq<Action>, t: State)
    requires Steps(s, a, m) && Steps(m, b, t)
    ensures Steps(s, a + b, t)
    decreases |a|
  {
    if a == [] {
      assert a + b == b;
    } else {
      StepsJoin(Next(s, a[0]), a[1..], m, b, t);
      assert (a + b)[1..] == a[1..] + b;
    }
  }

  lemma ThreeSteps(s: State, a: Action, b: Action, c: Action)
    requires Enabled(s, a) && Enabled(Next(s, a), b) && Enabled(Next(Next(s, a), b), c)
    ensures Steps(s, [a, b, c], Next(Next(Next(s, a), b), c))
  {
    var m, n := Next(s, a), Next(Next(s, a), b);
    assert [a, b, c][1..] == [b, c] && [b, c][1..] == [c] && [c][1..] == [];
    assert Steps(n, [c], Next(n, c));
    assert Steps(m, [b, c], Next(n, c));
  }

  /** The state in which a turn with nothing stopped has just begun to run its graph. */
  function JustRunning(s: State): State {
    State(s.turn + 1, Awaiting, Control(true, false, false), Task(Running, false, [], false),
          Resume(true, false, s.resume.paused, true,
                 s.resume.routes + [Route(s.resume.awaiting, s.resume.paused, s.resume.unprobed)]),
          s.pending, Log(s.pending, [], [], [Human(s.turn + 1)]), s.ended)
  }

  const OPENING: seq<Action> := [BeginTurn, BoundaryRecorded, ReaderAdvances] + [GraphFirstStep]

  lemma OpensTurn(s: State)
    requires s.driver.Idle?
    ensures Steps(s, OPENING, JustRunning(s))
  {
    ThreeSteps(s, BeginTurn, BoundaryRecorded, ReaderAdvances);
    var m := Next(Next(Next(s, BeginTurn), BoundaryRecorded), ReaderAdvances);
    assert Next(m, GraphFirstStep) == JustRunning(s);
    assert [GraphFirstStep][1..] == [];
    assert Steps(m, [GraphFirstStep], JustRunning(s));
    StepsJoin(s, [BeginTurn, BoundaryRecorded, ReaderAdvances], m, [GraphFirstStep], JustRunning(s));
  }

  lemma OneStep(s: State, a: Action)
    requires Enabled(s, a)
    ensures Steps(s, [a], Next(s, a))
  {
    assert [a][1..] == [];
  }

  /** A graph that has a middleware queue one event, and fails. */
  lemma QueuesAndFails(s: State) returns (t: State)
    requires Reachable(s) && s.task == Task(Running, false, [], false) && s.driver.Awaiting? && s.pending == []
    ensures Reachable(t)
    ensures t.driver.Raised? && t.pending == [Fresh(s)] && t.turn == s.turn
    ensures |t.ended| == |s.ended| + 1 && t.ended[|s.ended|].ending.Failed? && t.ended[|s.ended|].left == [Fresh(s)]
  {
    var m := QueuesAndEnds(s);
    OneStep(m, DriverGets);
    t := Next(m, DriverGets);
    ReachableOn(m, [DriverGets], t);
  }

  lemma QueuesAndEnds(s: State) returns (m: State)
    requires Reachable(s) && s.task == Task(Running, false, [], false) && s.driver.Awaiting? && s.pending == []
    ensures Reachable(m) && m.driver.Awaiting? && m.task == Task(Ended(Errored), false, [GraphDone], true)
    ensures m.pending == [Fresh(s)] && m.turn == s.turn && m.ended == s.ended
  {
    ThreeSteps(s, MiddlewareQueues, GraphReturns(false, false), DoneCallback);
    m := Next(Next(Next(s, MiddlewareQueues), GraphReturns(false, false)), DoneCallback);
    ReachableOn(s, [MiddlewareQueues, GraphReturns(false, false), DoneCallback], m);
  }

  /** A graph that returns at once. */
  lemma ReturnsAtOnce(s: State) returns (t: State)
    requires Reachable(s) && s.task == Task(Running, false, [], false) && s.driver.Awaiting?
    ensures Reachable(t)
    ensures t.driver == Probing(false) && t.turn == s.turn
    ensures t.pending == s.pending && t.log == s.log && t.ended == s.ended
  {
    ThreeSteps(s, GraphReturns(true, false), DoneCallback, DriverGets);
    t := Next(Next(Next(s, GraphReturns(true, false)), DoneCallback), DriverGets);
    ReachableOn(s, [GraphReturns(true, false), DoneCallback, DriverGets], t);
  }

  lemma DrainsOne(s: State, event: Event) returns (t: State)
    requires Reachable(s) && s.driver == Probing(false) && s.pending == [event]
    ensures Reachable(t)
    ensures |t.ended| == |s.ended| + 1 && t.ended[|s.ended|].ending.Finished? && t.ended[|s.ended|].turn == s.turn
    ensures t.ended[|s.ended|].events == s.log.segment + [event, Result(s.turn, false)]
  {
    ThreeSteps(s, ProbeAnswers(true), ReaderAdvances, ReaderAdvances);
    var n := Next(Next(s, ProbeAnswers(true)), ReaderAdvances);
    assert n.driver == Draining([]) && n.log.segment == s.log.segment + [event];
    t := Next(n, ReaderAdvances);
    ReachableOn(s, [ProbeAnswers(true), ReaderAdvances, ReaderAdvances], t);
  }

  /** A second turn, of a graph that does nothing, after one that left an event. */
  lemma NextTurnYields(s: State, event: Event) returns (t: State)
    requires Reachable(s) && s.driver.Idle? && s.pending == [event]
    ensures Reachable(t)
    ensures |t.ended| == |s.ended| + 1 && t.ended[|s.ended|].ending.Finished? && t.ended[|s.ended|].turn == s.turn + 1
    ensures t.ended[|s.ended|].events == [Human(s.turn + 1), event, Result(s.turn + 1, false)]
  {
    var l := Opens(s);
    var m := ReturnsAtOnce(l);
    t := DrainsOne(m, event);
  }

  lemma Opens(s: State) returns (t: State)
    requires Reachable(s) && s.driver.Idle?
    ensures Reachable(t) && t == JustRunning(s)
  {
    OpensTurn(s);
    t := JustRunning(s);
    ReachableOn(s, OPENING, t);
  }

  lemma Restarts(s: State) returns (t: State)
    requires Reachable(s) && s.driver.Raised?
    ensures Reachable(t) && t == s.(driver := Idle)
  {
    OneStep(s, ReaderRestarts);
    t := Next(s, ReaderRestarts);
    ReachableOn(s, [ReaderRestarts], t);
  }

  lemma StartReachable()
    ensures Reachable(FRESH)
  {
    assert Steps(FRESH, [], FRESH);
  }

  /** The run that shows it: the second turn yields the event that the failed first one left queued. */
  lemma LeftoverSurfaces() returns (t: State)
    ensures Reachable(t) && |t.ended| == 2 && t.ended[1].ending.Finished?
    ensures t.ended[1].events == [Human(2), Body(1, 0), Result(2, false)] && YieldsForeign(t.ended[1])
  {
    StartReachable();
    var l := Opens(FRESH);
    var m := QueuesAndFails(l);
    var n := Restarts(m);
    t := NextTurnYields(n, Body(1, 0));
    assert t.ended[1].events[1] == Body(1, 0);
  }

  lemma UntakenIs(s: State)
    requires LockStep(s.driver, s.task)
    ensures |InFlight(s.task.handoff)| + (if s.driver.Yielded? then 1 else 0) <= 1
    ensures GraphLive(s.task.graph) && (InFlight(s.task.handoff) != [] || s.driver.Yielded?) ==>
              s.task.graph.Blocked? && !s.task.graph.taken
  {
  }

  /**
   At every moment the turn under way has yielded its prompt and a prefix of what was handed over, at most one short.
   */
  lemma AtMostOneUntaken(s: State)
    requires Reachable(s)
    requires s.driver.Awaiting? || s.driver.Yielded?
    ensures s.log.segment + InFlight(s.task.handoff) == [Human(s.turn)] + s.log.handed
    ensures |InFlight(s.task.handoff)| + (if s.driver.Yielded? then 1 else 0) <= 1
    ensures GraphLive(s.task.graph) && (InFlight(s.task.handoff) != [] || s.driver.Yielded?) ==>
              s.task.graph.Blocked? && !s.task.graph.taken && s.log.handed != []
              && s.task.graph.event == s.log.handed[|s.log.handed| - 1]
  {
    ReachableInv(s);
    UntakenIs(s);
  }

  /** A stop outside a turn, or in a turn whose graph has already ended, changes at most the request flag. */
  lemma StopOutsideTurn(s: State)
    requires Reachable(s)
    ensures s.driver.Idle? || s.driver.Probing? || s.driver.Draining? || s.driver.Closing? || s.driver.Raised? ==>
              Next(s, Interrupt) == s
    ensures s.task.graph.Ended? ==> Next(s, Interrupt) == s.(control := s.control.(asked := true))
    ensures Next(Next(s, Interrupt), Interrupt) == Next(s, Interrupt)
  {
    ReachableCore(s);
    assert s.control.active <==> s.driver.Opening? || s.driver.HumanOut? || s.driver.Awaiting? || s.driver.Yielded?;
  }

  // The routing flag
  // --------------------------------------------------------------------------------------------

  /** Over every run, a prompt was routed as an answer if and only if the graph was paused and had been probed since. */
  lemma AnswersRoutedExactly(s: State)
    requires Reachable(s)
    ensures forall r :: r in s.resume.routes ==> (r.asAnswer <==> r.paused && !r.unprobed)
    ensures s.resume.awaiting <==> s.resume.paused && !s.resume.unprobed
  {
    ReachableInv(s);
  }

  /** Whether the last graph that ran failed, or its probe did, given what held `before` the step... */
  function Verdict(a: Action, before: bool): bool {
    match a
    case GraphReturns(ok, _) => before || !ok
    case ProbeAnswers(ok) => !ok
    case _ => before
  }

  /** ...and the run. */
  function LastRunFailed(actions: seq<Action>, before: bool): bool
    decreases |actions|
  {
    if actions == [] then before else LastRunFailed(actions[1..], Verdict(actions[0], before))
  }

  /** The graph has been started and is still on its way to a probe. */
  predicate OnItsWay(s: State) {
    var g := s.task.graph;
    GraphLive(g) || s.driver.Probing? || (g.Ended? && !g.outcome.Errored? && s.resume.routed)
  }

  predicate FailureKnown(s: State, failed: bool) {
    OnItsWay(s) || (s.resume.unprobed <==> failed)
  }

  lemma FailureKnownByGraph(s: State, a: Action, failed: bool)
    requires Core(s) && FailureKnown(s, failed) && Enabled(s, a) && ByGraph(a)
    ensures FailureKnown(Next(s, a), Verdict(a, failed))
  {
    assert Next(s, a).resume == NextResume(s.resume, s.task.graph, a);
  }

  lemma FailureKnownByRest(s: State, a: Action, failed: bool)
    requires Core(s) && FailureKnown(s, failed) && Enabled(s, a) && !ByGraph(a)
    ensures FailureKnown(Next(s, a), Verdict(a, failed))
  {
    assert Next(s, a).resume == NextResume(s.resume, s.task.graph, a);
  }

  lemma {:induction false} FailureKnownRun(s: State, actions: seq<Action>, t: State, failed: bool)
    requires Core(s) && FailureKnown(s, failed) && Steps(s, actions, t)
    ensures Core(t) && FailureKnown(t, LastRunFailed(actions, failed))
    decreases |actions|
  {
    if actions != [] {
      var a := actions[0];
      CoreStep(s, a);
      if ByGraph(a) {
        FailureKnownByGraph(s, a, failed);
      } else {
        FailureKnownByRest(s, a, failed);
      }
      FailureKnownRun(Next(s, a), actions[1..], t, Verdict(a, failed));
    }
  }

  /** Whether the last graph that ran said, on ending, that it had paused; `ran` is whether this turn's has begun. */
  function LastPause(actions: seq<Action>, ran: bool, paused: bool): bool
    decreases |actions|
  {
    if actions == [] then paused
    else
      match actions[0]
      case BeginTurn => LastPause(actions[1..], false, paused)
      case GraphFirstStep => LastPause(actions[1..], true, paused)
      case GraphReturns(_, now) => LastPause(actions[1..], ran, now)
      case GraphUnwinds(now) => LastPause(actions[1..], ran, if ran then now else paused)
      case _ => LastPause(actions[1..], ran, paused)
  }

  lemma PauseStep(s: State, a: Action)
    requires Core(s) && Enabled(s, a)
    ensures var r, t := s.resume, Next(s, a).resume;
      && t.routed == (if a.BeginTurn? then false else a.GraphFirstStep? || r.routed)
      && t.paused == (if a.GraphReturns? || (a.GraphUnwinds? && r.routed) then a.paused else r.paused)
  {
    assert Next(s, a).resume == NextResume(s.resume, s.task.graph, a);
  }

  lemma {:induction false} PauseRun(s: State, actions: seq<Action>, t: State)
    requires Core(s) && Steps(s, actions, t)
    ensures t.resume.paused == LastPause(actions, s.resume.routed, s.resume.paused)
    decreases |actions|
  {
    if actions != [] {
      CoreStep(s, actions[0]);
      PauseStep(s, actions[0]);
      PauseRun(Next(s, actions[0]), actions[1..], t);
    }
  }

  /**
   Between turns, and when a prompt is about to be routed, the flag is set if and only if the last graph that ran ended
   paused and neither it nor its probe failed.  So an answer is routed as a new message exactly when the graph
   is paused and one of them did fail, and a new message is never routed as an answer.
   */
  lemma MisroutedExactly(actions: seq<Action>, s: State)
    requires Steps(FRESH, actions, s) && (s.driver.Idle? || Enabled(s, GraphFirstStep))
    ensures s.resume.paused <==> LastPause(actions, false, false)
    ensures s.resume.awaiting <==> s.resume.paused && !LastRunFailed(actions, false)
    ensures Enabled(s, GraphFirstStep) ==>
              var routes := Next(s, GraphFirstStep).resume.routes;
              && |routes| == |s.resume.routes| + 1 && routes[..|s.resume.routes|] == s.resume.routes
              && (routes[|s.resume.routes|].asAnswer <==> s.resume.paused && !LastRunFailed(actions, false))
  {
    FailureKnownRun(FRESH, actions, s, false);
    PauseRun(FRESH, actions, s);
    assert Reachable(s);
    AnswersRoutedExactly(s);
  }

  /** Probes answer and graphs do not fail. */
  predicate Smooth(a: Action) {
    a != ProbeAnswers(false) && (a.GraphReturns? ==> a.ok)
  }

  /** The graph has run without a probe only while its turn is still on the way to one. */
  predicate Probed(s: State) {
    var g := s.task.graph;
    && (s.resume.unprobed ==> GraphLive(g) || (g.Ended? && s.resume.routed) || s.driver.Probing?)
    && g != Ended(Errored)
    && (forall r :: r in s.resume.routes ==> !r.unprobed)
  }

  lemma ProbedByGraph(s: State, a: Action)
    requires Core(s) && Probed(s) && Enabled(s, a) && ByGraph(a) && Smooth(a)
    ensures Probed(Next(s, a))
  {
    assert Next(s, a).resume == NextResume(s.resume, s.task.graph, a);
  }

  lemma ProbedByRest(s: State, a: Action)
    requires Core(s) && Probed(s) && Enabled(s, a) && !ByGraph(a) && Smooth(a)
    ensures Probed(Next(s, a))
  {
    assert Next(s, a).resume == NextResume(s.resume, s.task.graph, a);
  }

  lemma {:induction false} ProbedRun(s: State, actions: seq<Action>, t: State)
    requires Core(s) && Probed(s) && Steps(s, actions, t)
    requires forall i :: 0 <= i < |actions| ==> Smooth(actions[i])
    ensures Probed(t)
    decreases |actions|
  {
    if actions != [] {
      CoreStep(s, actions[0]);
      if ByGraph(actions[0]) {
        ProbedByGraph(s, actions[0]);
      } else {
        ProbedByRest(s, actions[0]);
      }
      ProbedRun(Next(s, actions[0]), actions[1..], t);
    }
  }

  /** While probes answer and no graph fails, the flag between turns is the graph's pause itself. */
  lemma FlagTracksGraph(actions: seq<Action>, s: State)
    requires Steps(FRESH, actions, s)
    requires forall i :: 0 <= i < |actions| ==> Smooth(actions[i])
    ensures s.driver.Idle? ==> (s.resume.awaiting <==> s.resume.paused)
    ensures forall r :: r in s.resume.routes ==> (r.asAnswer <==> r.paused)
  {
    ProbedRun(FRESH, actions, s);
    assert Reachable(s);
    ReachableCore(s);
    AnswersRoutedExactly(s);
  }

  /** A graph that pauses and then fails is not probed: the next prompt, its answer, is routed as a new message. */
  lemma FailureHidesPause() returns (s: State)
    ensures Reachable(s) && s.driver.Idle? && s.resume.paused && !s.resume.awaiting
    ensures JustRunning(s).resume.routes == s.resume.routes + [Route(false, true, true)]
  {
    StartReachable();
    var l := Opens(FRESH);
    var m := PausesAndFails(l);
    s := Restarts(m);
  }

  lemma PausesAndFails(s: State) returns (t: State)
    requires Reachable(s) && s.task == Task(Running, false, [], false) && s.driver.Awaiting?
    ensures Reachable(t) && t.driver.Raised? && t.resume == s.resume.(paused := true)
  {
    ThreeSteps(s, GraphReturns(false, true), DoneCallback, DriverGets);
    t := Next(Next(Next(s, GraphReturns(false, true)), DoneCallback), DriverGets);
    ReachableOn(s, [GraphReturns(false, true), DoneCallback, DriverGets], t);
  }
}
