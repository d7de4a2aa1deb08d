/** That what a graph streams reaches the reader: event by event, before the graph goes on. */
module TurnStream {
  import opened TurnDriver
  import opened TurnRuns

  /** The turn after `before` is under way, or it is the last one that ended. */
  ghost predicate InTurn(before: seq<Turn>, s: State) {
    if !Resting(s) then s.ended == before
    else
      && |s.ended| == |before| + 1 && s.ended[..|before|] == before
      && s.ended[|before|].log.handed == s.log.handed
  }

  /** The graph has returned by itself, whether its turn is still under way or has ended since. */
  predicate Returned(s: State) {
    match s.driver
    case Awaiting => s.task.graph.Ended? && !s.task.graph.outcome.Cancelled?
    case Yielded(_) => s.task.graph.Ended? && !s.task.graph.outcome.Cancelled?
    case Probing(stopped) => !stopped
    case Draining(_) => true
    case Opening => false
    case HumanOut => false
    case _ => s.ended != [] && !s.ended[|s.ended| - 1].ending.Stopped?
  }

  /** All of `told` is on its way to the reader, its first `due` events handed over. */
  ghost predicate Coming(told: seq<Event>, due: nat, s: State) {
    && due <= |told| && told <= All(s.log) && told[..due] <= s.log.handed
    && (GraphLive(s.task.graph) ==> told <= s.log.handed + Todo(s.task.graph))
    && (Returned(s) ==> told <= s.log.handed)
  }

  ghost predicate Underway(before: seq<Turn>, told: seq<Event>, due: nat, s: State) {
    && InTurn(before, s) && Coming(told, due, s)
    && !s.driver.Opening? && !s.driver.HumanOut? && !s.task.graph.Created?
  }

  lemma GraphKeeps(before: seq<Turn>, told: seq<Event>, due: nat, s: State, a: Action)
    requires Core(s) && Underway(before, told, due, s) && Enabled(s, a) && ByGraph(a) && !a.AstreamEvent?
    ensures Underway(before, told, due, Next(s, a))
  {
  }

  lemma StreamKeeps(before: seq<Turn>, told: seq<Event>, due: nat, s: State, a: Action)
    requires Core(s) && Underway(before, told, due, s) && Enabled(s, a) && a.AstreamEvent?
    ensures Underway(before, told, due, Next(s, a))
  {
  }

  lemma DriverKeeps(before: seq<Turn>, told: seq<Event>, due: nat, s: State, a: Action)
    requires Core(s) && Underway(before, told, due, s) && Enabled(s, a)
    requires a.ReaderAdvances? || a.DriverGets? || a.ProbeAnswers?
    ensures Underway(before, told, due, Next(s, a))
  {
    assert Next(s, a).log == s.log.(segment := Next(s, a).log.segment) && All(Next(s, a).log) == All(s.log);
  }

  lemma OthersKeep(before: seq<Turn>, told: seq<Event>, due: nat, s: State, a: Action)
    requires Core(s) && Underway(before, told, due, s) && Enabled(s, a) && !ByGraph(a) && !a.BeginTurn?
    requires !a.ReaderAdvances? && !a.DriverGets? && !a.ProbeAnswers?
    ensures Underway(before, told, due, Next(s, a))
  {
  }

  lemma {:induction false} RunKeeps(before: seq<Turn>, told: seq<Event>, due: nat, s: State, actions: seq<Action>,
                                    t: State)
    requires Core(s) && Underway(before, told, due, s) && Steps(s, actions, t)
    requires forall i :: 0 <= i < |actions| ==> !actions[i].BeginTurn?
    ensures Underway(before, told, due, t)
    decreases |actions|
  {
    if actions != [] {
      CoreStep(s, actions[0]);
      if actions[0].AstreamEvent? {
        StreamKeeps(before, told, due, s, actions[0]);
      } else if ByGraph(actions[0]) {
        GraphKeeps(before, told, due, s, actions[0]);
      } else if actions[0].ReaderAdvances? || actions[0].DriverGets? || actions[0].ProbeAnswers? {
        DriverKeeps(before, told, due, s, actions[0]);
      } else {
        OthersKeep(before, told, due, s, actions[0]);
      }
      assert forall i :: 0 <= i < |actions[1..]| ==> actions[1..][i] == actions[i + 1];
      RunKeeps(before, told, due, Next(s, actions[0]), actions[1..], t);
    }
  }

  /** All there is to tell once a stream event has come: what was queued, then the event itself if it is one to tell. */
  function ToldBy(s: State, projected: bool): seq<Event> {
    All(s.log) + if projected then [Body(s.turn, |s.log.produced|)] else []
  }

  /** How many of these are handed over at once: one more than had been, if there are more. */
  function DueAtOnce(told: seq<Event>, handed: seq<Event>): nat {
    if told == handed then |told| else |handed| + 1
  }

  /** All of `told` has been handed over, and the reader has been given it. */
  ghost predicate Reached(told: seq<Event>, t: State) {
    told <= t.log.handed && t.log.segment == [Human(t.turn)] + t.log.handed
  }

  /** The turn after `before` has ended and yielded the first of `told`, and all of it unless it was stopped. */
  ghost predicate EndedWith(before: seq<Turn>, told: seq<Event>, due: nat, t: State) {
    && due <= |told| && |t.ended| == |before| + 1 && t.ended[..|before|] == before
    && var r := t.ended[|before|];
       && [Human(r.turn)] + told[..due] <= r.events
       && (!r.ending.Stopped? ==> [Human(r.turn)] + told <= r.events)
  }

  lemma HandOverStarts(s: State, todo: seq<Event>)
    requires Core(s) && s.task.graph.Running? && All(s.log) == s.log.handed + todo
    ensures Underway(s.ended, All(s.log), DueAtOnce(All(s.log), s.log.handed), HandOver(s, todo))
    ensures All(HandOver(s, todo).log) == All(s.log)
  {
    Parts(s.log.handed, todo);
  }

  lemma StreamStarts(s: State, projected: bool, told: seq<Event>, n: State)
    requires Core(s) && Flowing(s) && Enabled(s, AstreamEvent(projected))
    requires told == ToldBy(s, projected) && n == Next(s, AstreamEvent(projected))
    ensures s.log.handed <= told && Underway(s.ended, told, DueAtOnce(told, s.log.handed), n) && All(n.log) == told
  {
    assert All(s.log) == s.log.handed + s.pending;
    if projected {
      AllGrows(s.log, Fresh(s));
      HandOverStarts(Produce(s).(pending := []), s.pending + [Fresh(s)]);
    } else {
      HandOverStarts(s.(pending := []), s.pending);
    }
  }

  lemma Parts(handed: seq<Event>, todo: seq<Event>)
    ensures todo == [] ==> handed + todo == handed && handed[..|handed|] == handed
    ensures todo != [] ==> handed + todo != handed && handed + todo == handed + [todo[0]] + todo[1..]
                           && (handed + todo)[..|handed| + 1] == handed + [todo[0]]
  {
    if todo != [] {
      assert todo == [todo[0]] + todo[1..] && |handed + todo| > |handed|;
    }
  }

  /**
   Whatever was queued or streamed up to and with one stream event is handed over, and taken by the reader, before the
   graph's next stream event or return; a turn that runs to the end, or fails, has yielded it.  Even if the turn is
   stopped at once, the first event not yet handed over is.
   */
  lemma StreamedReachesReader(s: State, projected: bool, n: State, actions: seq<Action>, t: State)
    requires Reachable(s) && Enabled(s, AstreamEvent(projected)) && n == Next(s, AstreamEvent(projected))
    requires Steps(n, actions, t) && forall i :: 0 <= i < |actions| ==> !actions[i].BeginTurn?
    ensures s.log.handed <= ToldBy(s, projected) == All(n.log)
    ensures Coming(ToldBy(s, projected), DueAtOnce(ToldBy(s, projected), s.log.handed), t)
    ensures t.task.graph.Running? ==> Reached(ToldBy(s, projected), t)
    ensures Resting(t) ==>
              EndedWith(s.ended, ToldBy(s, projected), DueAtOnce(ToldBy(s, projected), s.log.handed), t)
  {
    var told := ToldBy(s, projected);
    ReachableInv(s);
    StreamStarts(s, projected, told, n);
    StepInv(s, AstreamEvent(projected));
    StreamedRun(s.ended, told, DueAtOnce(told, s.log.handed), n, actions, t);
  }

  lemma StreamedRun(before: seq<Turn>, told: seq<Event>, due: nat, n: State, actions: seq<Action>, t: State)
    requires Inv(n) && Underway(before, told, due, n) && Steps(n, actions, t)
    requires forall i :: 0 <= i < |actions| ==> !actions[i].BeginTurn?
    ensures Coming(told, due, t)
    ensures t.task.graph.Running? ==> Reached(told, t)
    ensures Resting(t) ==> EndedWith(before, told, due, t)
  {
    RunKeeps(before, told, due, n, actions, t);
    RunInv(n, actions, t);
    WhileRunning(before, told, due, t);
    if Resting(t) {
      OnRecord(before, told, due, t);
    }
  }

  lemma WhileRunning(before: seq<Turn>, told: seq<Event>, due: nat, t: State)
    requires Core(t) && Flowing(t) && Underway(before, told, due, t)
    ensures t.task.graph.Running? ==> Reached(told, t)
  {
    if t.task.graph.Running? {
      assert t.log.handed + [] == t.log.handed && t.log.segment + [] == t.log.segment;
    }
  }

  lemma OnRecord(before: seq<Turn>, told: seq<Event>, due: nat, t: State)
    requires Underway(before, told, due, t) && Resting(t) && AllWell(t.ended)
    ensures EndedWith(before, told, due, t)
  {
    var r := t.ended[|before|];
    assert WellEnded(r);
    ReadsThrough(r, told[..due]);
    if !r.ending.Stopped? {
      ReadsThrough(r, told);
    }
  }

  lemma ReadsThrough(r: Turn, told: seq<Event>)
    requires WellEnded(r) && told <= r.log.handed
    ensures [Human(r.turn)] + told <= r.events
  {
  }

  /** How far a hand-off is from having been taken, for it and each one that waits behind it. */
  function Ahead(s: State): nat {
    if !s.task.graph.Blocked? then 0
    else
      3 * |s.task.graph.todo| + (if s.task.graph.taken then 1 else if s.driver.Yielded? then 2 else 3)
  }

  /** The next step of a hand-off: the driver receives it, the reader takes it, the graph goes on. */
  lemma HandOffStep(s: State) returns (a: Action)
    requires Core(s) && s.task.graph.Blocked?
    ensures Enabled(s, a) && (a.DriverGets? || a.ReaderAdvances? || a.HandOffTaken?)
    ensures var t := Next(s, a);
      && Ahead(t) < Ahead(s) && GraphLive(t.task.graph) && t.pending == s.pending && t.ended == s.ended
      && t.turn == s.turn && t.log.handed + Todo(t.task.graph) == s.log.handed + s.task.graph.todo
  {
    a := if s.task.graph.taken then HandOffTaken else if s.driver.Yielded? then ReaderAdvances else DriverGets;
    var todo := s.task.graph.todo;
    if s.task.graph.taken && todo != [] {
      assert todo == [todo[0]] + todo[1..];
    }
  }

  /** A blocked graph is brought to run again, all it had to hand over handed over and taken, by these steps alone. */
  lemma {:induction false} HandOffsComplete(s: State) returns (actions: seq<Action>, t: State)
    requires Reachable(s) && s.task.graph.Blocked?
    ensures Steps(s, actions, t) && Reachable(t) && t.task.graph.Running?
    ensures forall i :: 0 <= i < |actions| ==>
              actions[i].DriverGets? || actions[i].ReaderAdvances? || actions[i].HandOffTaken?
    ensures t.log.handed == s.log.handed + s.task.graph.todo
    ensures t.pending == s.pending && t.ended == s.ended && t.turn == s.turn
    decreases Ahead(s)
  {
    ReachableCore(s);
    var a := HandOffStep(s);
    var n := Next(s, a);
    OneStep(s, a);
    ReachableOn(s, [a], n);
    if n.task.graph.Blocked? {
      var rest;
      rest, t := HandOffsComplete(n);
      actions := [a] + rest;
      StepsJoin(s, [a], n, rest, t);
    } else {
      actions, t := [a], n;
    }
  }
}
