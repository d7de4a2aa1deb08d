/**
 LangGraph turns: the driver that yields events to the reader, the task that runs the graph and hands events over in
 lock-step, the stop that can land at any point of either, and the reader that comes back after a failed turn.

 Every `Action` is what runs between two awaits or yields.  The graph, its middlewares and the state probe are
 foreign: they act whenever their code could, with any outcome.  `inherited` is what was queued when the turn began,
 `produced` what its graph has queued or projected, `handed` what it has handed over, `segment` what the turn has
 yielded; `ended` is every turn that ended.
 */
module TurnDriver {
  datatype Event =
    | Human(turn: nat)
    | Body(turn: nat, serial: nat)
    | Result(turn: nat, stopped: bool)

  datatype Item = Handed(event: Event) | GraphDone

  datatype Outcome = Completed | Cancelled | Errored

  datatype Graph =
    | NoTask
    | Created
    | Running
    | Blocked(event: Event, todo: seq<Event>, taken: bool)
    | Ended(outcome: Outcome)

  datatype Driver =
    | Idle
    | Opening
    | HumanOut
    | Awaiting
    | Yielded(event: Event)
    | Probing(stopped: bool)
    | Draining(rest: seq<Event>)
    | Closing
    | Raised

  datatype Ending = Finished | Stopped | Failed

  /**
   `left` is what a failed turn leaves queued; `asked` and `disconnected`, whether a stop or a disconnect landed in the
   turn.
   */
  datatype Turn = Turn(
    turn: nat,
    ending: Ending,
    events: seq<Event>,
    log: Log,
    left: seq<Event>,
    asked: bool,
    disconnected: bool)

  datatype Route = Route(asAnswer: bool, paused: bool, unprobed: bool)

  /** The graph task as the driver sees it: its position, and the hand-off queue between the two. */
  datatype Task = Task(graph: Graph, cancelRequested: bool, handoff: seq<Item>, doneSignalled: bool)

  /** The routing flag, the graph's own pause, and whether the graph has run since a probe was last answered. */
  datatype Resume = Resume(routed: bool, awaiting: bool, paused: bool, unprobed: bool, routes: seq<Route>)

  datatype Log = Log(inherited: seq<Event>, produced: seq<Event>, handed: seq<Event>, segment: seq<Event>)

  /** Whether a turn can be stopped, whether it was asked to, and whether the runtime was disconnected during it. */
  datatype Control = Control(active: bool, asked: bool, disconnected: bool)

  datatype State = State(
    turn: nat,
    driver: Driver,
    control: Control,
    task: Task,
    resume: Resume,
    pending: seq<Event>,
    log: Log,
    ended: seq<Turn>)

  const NO_TASK: Task := Task(NoTask, false, [], false)

  const NO_LOG: Log := Log([], [], [], [])

  const FRESH: State :=
    State(0, Idle, Control(false, false, false), NO_TASK, Resume(false, false, false, false, []), [], NO_LOG, [])

  datatype Action =
    | BeginTurn
    | BoundaryRecorded
    | ReaderAdvances
    | ReaderRestarts
    | DriverGets
    | ProbeAnswers(ok: bool)
    | Interrupt
    | Disconnects
    | GraphFirstStep
    | MiddlewareQueues
    | AstreamEvent(projected: bool)
    | HandOffTaken
    | GraphReturns(ok: bool, paused: bool)
    | GraphUnwinds(paused: bool)
    | DoneCallback

  // Atomic steps
  // --------------------------------------------------------------------------------------------

  predicate GraphLive(g: Graph) {
    g.Running? || g.Blocked?
  }

  predicate Enabled(s: State, a: Action) {
    var g := s.task.graph;
    match a
    case BeginTurn => s.driver.Idle?
    case BoundaryRecorded => s.driver.Opening?
    case ReaderAdvances => s.driver.HumanOut? || s.driver.Yielded? || s.driver.Draining? || s.driver.Closing?
    case ReaderRestarts => s.driver.Raised?
    case DriverGets => s.driver.Awaiting? && s.task.handoff != []
    case ProbeAnswers(_) => s.driver.Probing?
    case Interrupt => true
    case Disconnects => true
    case GraphFirstStep => g.Created? && !s.task.cancelRequested
    case MiddlewareQueues => GraphLive(g)
    case AstreamEvent(_) => g.Running?
    case HandOffTaken => g.Blocked? && g.taken
    case GraphReturns(_, _) => g.Running?
    case GraphUnwinds(_) => s.task.cancelRequested && (g.Created? || GraphLive(g))
    case DoneCallback => g.Ended? && !s.task.doneSignalled
  }

  function Next(s: State, a: Action): State
    requires Enabled(s, a)
  {
    Flow(s, a).(resume := NextResume(s.resume, s.task.graph, a))
  }

  /** What a step does to the routing flag and the graph's pause. */
  function NextResume(r: Resume, g: Graph, a: Action): Resume {
    match a
    case BeginTurn => r.(routed := false)
    case GraphFirstStep => Resume(true, false, r.paused, true, r.routes + [Route(r.awaiting, r.paused, r.unprobed)])
    case GraphReturns(_, paused) => r.(paused := paused)
    case GraphUnwinds(paused) => if g.Created? then r else r.(paused := paused)
    case ProbeAnswers(ok) => r.(awaiting := ok && r.paused, unprobed := !ok)
    case _ => r
  }

  /** What a step does to everything else. */
  function Flow(s: State, a: Action): State
    requires Enabled(s, a)
  {
    match a
    case BeginTurn =>
      State(s.turn + 1, Opening, Control(true, false, false), NO_TASK, s.resume, s.pending, Log(s.pending, [], [], []),
            s.ended)
    case BoundaryRecorded => Yield(s, Human(s.turn), HumanOut)
    case ReaderAdvances => Advance(s)
    case ReaderRestarts => s.(driver := Idle)
    case DriverGets => Get(s)
    case ProbeAnswers(_) =>
      if s.driver.stopped then Close(s, Stopped) else s.(driver := Draining(s.pending), pending := [])
    case Interrupt => Stop(s)
    case Disconnects => s.(control := s.control.(disconnected := true), task := Cancel(s.task))
    case GraphFirstStep => s.(task := s.task.(graph := Running))
    case MiddlewareQueues => Produce(s).(pending := s.pending + [Fresh(s)])
    case AstreamEvent(projected) =>
      if projected then HandOver(Produce(s).(pending := []), s.pending + [Fresh(s)])
      else HandOver(s.(pending := []), s.pending)
    case HandOffTaken => HandOver(s, s.task.graph.todo)
    case GraphReturns(ok, _) => s.(task := s.task.(graph := Ended(if ok then Completed else Errored)))
    case GraphUnwinds(_) => s.(task := s.task.(graph := Ended(Cancelled)))
    case DoneCallback => s.(task := s.task.(handoff := s.task.handoff + [GraphDone], doneSignalled := true))
  }

  /** The graph hands over the first of `todo` and waits for it to be taken, or goes on if there is none. */
  function HandOver(s: State, todo: seq<Event>): State {
    if todo == [] then s.(task := s.task.(graph := Running))
    else s.(task := s.task.(graph := Blocked(todo[0], todo[1..], false),
                            handoff := s.task.handoff + [Handed(todo[0])]),
            log := s.log.(handed := s.log.handed + [todo[0]]))
  }

  function Fresh(s: State): Event {
    Body(s.turn, |s.log.produced|)
  }

  function Produce(s: State): State {
    s.(log := s.log.(produced := s.log.produced + [Fresh(s)]))
  }

  function Yield(s: State, event: Event, driver: Driver): State {
    s.(driver := driver, log := s.log.(segment := s.log.segment + [event]))
  }

  function TurnOf(s: State, ending: Ending, left: seq<Event>): Turn {
    Turn(s.turn, ending, s.log.segment, s.log, left, s.control.asked, s.control.disconnected)
  }

  /** The turn is over, and what it was goes on record. */
  function Record(s: State, ending: Ending, left: seq<Event>): State {
    s.(ended := s.ended + [TurnOf(s, ending, left)])
  }

  function Close(s: State, ending: Ending): State {
    Record(Yield(s, Result(s.turn, ending.Stopped?), Closing), ending, [])
  }

  /** The driver's `finally`: the task is forgotten and the turn is no longer stoppable. */
  function Leave(s: State, driver: Driver, pending: seq<Event>): State {
    s.(driver := driver, control := s.control.(active := false), task := NO_TASK, pending := pending)
  }

  /** What a stopped turn does after the `finally`. */
  function CloseStopped(s: State): State {
    if s.resume.routed then Leave(s, Probing(true), []) else Close(Leave(s, Closing, []), Stopped)
  }

  /** A task that has ended, or is not there yet, is left alone. */
  function Cancel(task: Task): Task {
    if task.graph.NoTask? || task.graph.Ended? then task else task.(cancelRequested := true)
  }

  function Stop(s: State): State {
    if !s.control.active then s else s.(control := s.control.(asked := true), task := Cancel(s.task))
  }

  /** The reader comes back for the next event. */
  function Advance(s: State): State
    requires Enabled(s, ReaderAdvances)
  {
    match s.driver
    case HumanOut =>
      if s.control.asked then CloseStopped(s)
      else s.(driver := Awaiting, task := s.task.(graph := Created))
    case Yielded(event) => s.(driver := Awaiting, task := s.task.(graph := Take(s.task.graph, event)))
    case Draining(rest) => if rest == [] then Close(s, Finished) else Yield(s, rest[0], Draining(rest[1..]))
    case Closing => s.(driver := Idle)
  }

  /** `taken.set()`: wakes the graph if it is blocked on this very hand-off. */
  function Take(g: Graph, event: Event): Graph {
    if g.Blocked? && g.event == event then g.(taken := true) else g
  }

  /** The driver receives the next hand-off, or the word that the graph task has ended; a failure reaches the reader. */
  function Get(s: State): State
    requires Enabled(s, DriverGets)
  {
    match s.task.handoff[0]
    case Handed(event) => Yield(s.(task := s.task.(handoff := s.task.handoff[1..])), event, Yielded(event))
    case GraphDone =>
      if s.task.graph == Ended(Cancelled) then CloseStopped(s)
      else if s.task.graph == Ended(Errored) then Record(Leave(s, Raised, s.pending), Failed, s.pending)
      else Leave(s, Probing(false), s.pending)
  }

  ghost predicate Steps(s: State, actions: seq<Action>, t: State)
    decreases |actions|
  {
    if actions == [] then s == t
    else Enabled(s, actions[0]) && Steps(Next(s, actions[0]), actions[1..], t)
  }

  // The invariant
  // --------------------------------------------------------------------------------------------

  function Todo(g: Graph): seq<Event> {
    if g.Blocked? then g.todo else []
  }

  /** The hand-offs the reader has not been given yet: the queue without its closing signal. */
  function InFlight(handoff: seq<Item>): seq<Event> {
    if handoff != [] && handoff[0].Handed? then [handoff[0].event] else []
  }

  /** At most one hand-off, then at most the signal that the graph task has ended. */
  predicate Shape(handoff: seq<Item>, done: bool) {
    || (handoff == [] && !done)
    || (|handoff| == 1 && handoff[0] == GraphDone && done)
    || (|handoff| == 1 && handoff[0].Handed? && !done)
    || (|handoff| == 2 && handoff[0].Handed? && handoff[1] == GraphDone && done)
  }

  /** Which combinations of the driver's and the graph task's positions can occur. */
  ghost predicate Positions(driver: Driver, active: bool, asked: bool, task: Task, r: Resume) {
    var g := task.graph;
    && (active <==> driver.Opening? || driver.HumanOut? || driver.Awaiting? || driver.Yielded?)
    && (g.NoTask? <==> !driver.Awaiting? && !driver.Yielded?)
    && (g.NoTask? ==> task == NO_TASK)
    && (driver.Opening? || driver.HumanOut? || g.Created? ==> !r.routed)
    && (GraphLive(g) ==> r.routed)
    && (g.Ended? && !g.outcome.Cancelled? ==> r.routed)
    && (g == Ended(Cancelled) ==> task.cancelRequested)
    && (task.cancelRequested ==> asked)
    && (driver.Probing? ==> r.routed && (driver.stopped ==> asked))
    && (GraphLive(g) ==> r.unprobed && !r.awaiting)
  }

  /** The lock-step: at most one hand-off is untaken, and the graph is blocked on that one. */
  ghost predicate LockStep(driver: Driver, task: Task) {
    var g := task.graph;
    var flying := InFlight(task.handoff);
    && Shape(task.handoff, task.doneSignalled)
    && (task.doneSignalled ==> g.Ended?)
    && (driver.Yielded? ==> flying == [])
    && (g.Created? || g.Running? ==> flying == [] && driver.Awaiting?)
    && (g.Blocked? ==>
          if g.taken then flying == [] && driver.Awaiting?
          else if driver.Yielded? then driver.event == g.event
          else flying == [g.event])
  }

  ghost predicate Core(s: State) {
    && Positions(s.driver, s.control.active, s.control.asked || s.control.disconnected, s.task, s.resume)
    && LockStep(s.driver, s.task)
  }

  /** All the turn has had to tell: what it inherited, then what its graph produced. */
  function All(log: Log): seq<Event> {
    log.inherited + log.produced
  }

  ghost predicate OfTurn(events: seq<Event>, turn: nat) {
    forall i :: 0 <= i < |events| ==> events[i].Body? && events[i].turn == turn && events[i].serial == i
  }

  /** Nothing is lost, repeated or reordered on the way from the graph to the hand-off queue... */
  ghost predicate Produced(turn: nat, driver: Driver, g: Graph, pending: seq<Event>, log: Log) {
    && OfTurn(log.produced, turn)
    && log.handed <= All(log)
    && (driver.Opening? || driver.HumanOut? || g.Created? ==>
          log.produced == [] && log.handed == [] && pending == log.inherited)
    && (GraphLive(g) ==> All(log) == log.handed + Todo(g) + pending)
    && (g.Blocked? ==> log.handed != [] && g.event == log.handed[|log.handed| - 1])
    && (g.Ended? && !g.outcome.Cancelled? ==> All(log) == log.handed + pending)
  }

  /** ...nor on the way from there to the reader. */
  ghost predicate Delivered(turn: nat, driver: Driver, handoff: seq<Item>, pending: seq<Event>, log: Log) {
    var told := [Human(turn)] + log.handed;
    && (driver.Closing? ==> pending == [])
    && (driver.Opening? ==> log.segment == [])
    && (driver.HumanOut? ==> log.segment == [Human(turn)])
    && (driver.Awaiting? || driver.Yielded? ==> log.segment + InFlight(handoff) == told)
    && (driver.Probing? ==> log.segment == told)
    && (driver.Probing? ==> if driver.stopped then pending == [] else All(log) == log.handed + pending)
    && (driver.Draining? ==> pending == [] && log.segment + driver.rest == [Human(turn)] + All(log))
  }

  ghost predicate Flowing(s: State) {
    && Produced(s.turn, s.driver, s.task.graph, s.pending, s.log)
    && Delivered(s.turn, s.driver, s.task.handoff, s.pending, s.log)
  }

  /**
   The flag that routes a prompt as an answer is set if and only if the graph is paused and a probe has seen it since.
   */
  ghost predicate FlagSound(r: Resume) {
    && (r.awaiting <==> r.paused && !r.unprobed)
    && (forall x :: x in r.routes ==> (x.asAnswer <==> x.paused && !x.unprobed))
  }

  ghost predicate Older(events: seq<Event>, turn: nat) {
    forall i :: 0 <= i < |events| ==> events[i].Body? && events[i].turn < turn
  }

  /** What is queued when nothing runs: what the last turn left, if it failed. */
  function Carried(ended: seq<Turn>): seq<Event> {
    if ended == [] then [] else ended[|ended| - 1].left
  }

  /** How an ended turn reads: the prompt, then everything or what was handed over, then one result unless it failed. */
  ghost predicate WellEnded(r: Turn) {
    && OfTurn(r.log.produced, r.turn)
    && r.log.handed <= All(r.log)
    && r.events == [Human(r.turn)] + (if r.ending.Finished? then All(r.log) else r.log.handed)
                   + (if r.ending.Failed? then [] else [Result(r.turn, r.ending.Stopped?)])
    && (r.ending.Stopped? ==> r.asked || r.disconnected)
    && (if r.ending.Failed? then All(r.log) == r.log.handed + r.left else r.left == [])
  }

  /** Each turn inherits exactly what the one before it left, and turns are numbered in order. */
  ghost predicate Chained(ended: seq<Turn>) {
    && (forall i :: 0 <= i < |ended| ==> ended[i].log.inherited == Carried(ended[..i]))
    && (forall i, j :: 0 <= i < j < |ended| ==> ended[i].turn < ended[j].turn)
  }

  ghost predicate AllWell(ended: seq<Turn>) {
    forall i :: 0 <= i < |ended| ==> WellEnded(ended[i]) && Older(ended[i].log.inherited, ended[i].turn)
  }

  predicate Resting(s: State) {
    s.driver.Idle? || s.driver.Closing? || s.driver.Raised?
  }

  /** How the turn under way, or the lack of one, fits what has ended. */
  ghost predicate Fits(s: State) {
    && (forall i :: 0 <= i < |s.ended| ==> if Resting(s) then s.ended[i].turn <= s.turn else s.ended[i].turn < s.turn)
    && (if Resting(s) then s.pending == Carried(s.ended) else s.log.inherited == Carried(s.ended))
  }

  ghost predicate Histories(s: State) {
    AllWell(s.ended) && Chained(s.ended) && Fits(s)
  }

  ghost predicate Inv(s: State) {
    Core(s) && Flowing(s) && FlagSound(s.resume) && Histories(s)
  }

  // Every step keeps the invariant
  // --------------------------------------------------------------------------------------------

  predicate ByGraph(a: Action) {
    a.GraphFirstStep? || a.MiddlewareQueues? || a.AstreamEvent? || a.HandOffTaken? || a.GraphReturns? ||
    a.GraphUnwinds?
  }

  lemma GraphCore(s: State, a: Action)
    requires Core(s) && Enabled(s, a) && ByGraph(a) && !a.AstreamEvent? && !a.HandOffTaken?
    ensures Core(Next(s, a))
  {
  }

  lemma StreamCore(s: State, a: Action)
    requires Core(s) && Enabled(s, a) && (a.AstreamEvent? || a.HandOffTaken?)
    ensures Core(Next(s, a))
  {
  }

  lemma DriverCore(s: State, a: Action)
    requires Core(s) && Enabled(s, a) && (a.ReaderAdvances? || a.DriverGets? || a.ProbeAnswers?)
    ensures Core(Next(s, a))
  {
  }

  lemma CoreStep(s: State, a: Action)
    requires Core(s) && Enabled(s, a)
    ensures Core(Next(s, a))
  {
    if a.AstreamEvent? || a.HandOffTaken? {
      StreamCore(s, a);
    } else if ByGraph(a) {
      GraphCore(s, a);
    } else if a.ReaderAdvances? || a.DriverGets? || a.ProbeAnswers? {
      DriverCore(s, a);
    }
  }

  lemma FlagStep(s: State, a: Action)
    requires Core(s) && FlagSound(s.resume) && Enabled(s, a)
    ensures FlagSound(Next(s, a).resume)
  {
    assert Next(s, a).resume == NextResume(s.resume, s.task.graph, a);
  }

  /** Handing over what is next to tell keeps the order. */
  lemma HandOverFlows(s: State, todo: seq<Event>)
    requires Core(s) && (s.task.graph.Running? || (s.task.graph.Blocked? && s.task.graph.taken))
    requires OfTurn(s.log.produced, s.turn) && All(s.log) == s.log.handed + todo + s.pending
    requires s.log.segment == [Human(s.turn)] + s.log.handed
    ensures Flowing(HandOver(s, todo))
  {
    var t := HandOver(s, todo);
    assert s.task.handoff == [] && All(t.log) == All(s.log) && t.pending == s.pending;
    if todo != [] {
      assert t.log.segment + InFlight(t.task.handoff) == [Human(s.turn)] + t.log.handed;
      assert todo == [todo[0]] + todo[1..];
      assert All(t.log) == t.log.handed + todo[1..] + t.pending;
    }
  }

  /** An event produced goes to the end of all there is to tell. */
  lemma AllGrows(log: Log, event: Event)
    ensures All(log.(produced := log.produced + [event])) == All(log) + [event]
  {
  }

  lemma QueueFlows(s: State)
    requires Core(s) && Flowing(s) && Enabled(s, MiddlewareQueues)
    ensures Flowing(Next(s, MiddlewareQueues))
  {
    var t := Next(s, MiddlewareQueues);
    AllGrows(s.log, Fresh(s));
    assert All(t.log) == t.log.handed + Todo(t.task.graph) + t.pending;
  }

  lemma StreamFlows(s: State, projected: bool)
    requires Core(s) && Flowing(s) && Enabled(s, AstreamEvent(projected))
    ensures Flowing(Next(s, AstreamEvent(projected)))
  {
    AllGrows(s.log, Fresh(s));
    assert All(s.log) == s.log.handed + s.pending;
    if projected {
      HandOverFlows(Produce(s).(pending := []), s.pending + [Fresh(s)]);
    } else {
      HandOverFlows(s.(pending := []), s.pending);
    }
  }

  lemma GraphFlows(s: State, a: Action)
    requires Core(s) && Flowing(s) && Enabled(s, a)
    requires a.GraphFirstStep? || a.GraphReturns? || a.GraphUnwinds?
    ensures Flowing(Next(s, a))
  {
    var t := Next(s, a);
    assert t.log == s.log && t.pending == s.pending && t.driver == s.driver && t.task.handoff == s.task.handoff;
  }

  lemma AdvanceFlows(s: State)
    requires Core(s) && Flowing(s) && Enabled(s, ReaderAdvances)
    ensures Flowing(Next(s, ReaderAdvances))
  {
    var t := Next(s, ReaderAdvances);
    assert t.log == s.log.(segment := t.log.segment) && t.turn == s.turn && t.task.handoff == s.task.handoff;
    assert All(t.log) == All(s.log);
  }

  lemma TakeHandOffFlows(s: State, event: Event)
    requires Core(s) && Flowing(s) && Enabled(s, DriverGets) && s.task.handoff[0] == Handed(event)
    ensures Flowing(Next(s, DriverGets))
  {
    var t := Next(s, DriverGets);
    assert t.driver == Yielded(event) && t.log.segment == s.log.segment + [event] && InFlight(t.task.handoff) == [];
    assert t.log == s.log.(segment := t.log.segment) && t.task.graph == s.task.graph && t.pending == s.pending;
    assert t.log.segment + [] == t.log.segment;
  }

  lemma GraphDoneFlows(s: State)
    requires Core(s) && Flowing(s) && Enabled(s, DriverGets) && s.task.handoff[0] == GraphDone
    ensures Flowing(Next(s, DriverGets))
  {
    var t := Next(s, DriverGets);
    assert s.task.graph.Ended? && s.log.segment == [Human(s.turn)] + s.log.handed;
    assert t.log == s.log.(segment := t.log.segment) && t.task.graph.NoTask? && t.turn == s.turn;
    assert All(t.log) == All(s.log);
    if !t.driver.Closing? {
      assert t.log == s.log;
    }
  }

  lemma FlowStep(s: State, a: Action)
    requires Core(s) && Flowing(s) && Enabled(s, a)
    ensures Flowing(Next(s, a))
  {
    match a
    case MiddlewareQueues => QueueFlows(s);
    case AstreamEvent(projected) => StreamFlows(s, projected);
    case GraphFirstStep => GraphFlows(s, a);
    case HandOffTaken => HandOverFlows(s, s.task.graph.todo);
    case GraphReturns(_, _) => GraphFlows(s, a);
    case GraphUnwinds(_) => GraphFlows(s, a);
    case ReaderAdvances => AdvanceFlows(s);
    case DriverGets =>
      if s.task.handoff[0].Handed? {
        TakeHandOffFlows(s, s.task.handoff[0].event);
      } else {
        GraphDoneFlows(s);
      }
    case _ => RestFlows(s, a);
  }

  lemma RestFlows(s: State, a: Action)
    requires Core(s) && Flowing(s) && Enabled(s, a)
    requires a.BeginTurn? || a.BoundaryRecorded? || a.ReaderRestarts? || a.ProbeAnswers? || a.Interrupt? ||
             a.Disconnects? || a.DoneCallback?
    ensures Flowing(Next(s, a))
  {
    var t := Next(s, a);
    assert a.BeginTurn? || All(t.log) == All(s.log);
    assert a.BeginTurn? || InFlight(t.task.handoff) == InFlight(s.task.handoff);
  }

  // What ended turns leave behind
  // --------------------------------------------------------------------------------------------

  lemma CarriedOlder(ended: seq<Turn>, turn: nat)
    requires AllWell(ended) && forall i :: 0 <= i < |ended| ==> ended[i].turn < turn
    ensures Older(Carried(ended), turn)
  {
    if ended != [] {
      var r := ended[|ended| - 1];
      assert WellEnded(r) && Older(r.log.inherited, r.turn);
      forall i | 0 <= i < |r.left|
        ensures r.left[i].Body? && r.left[i].turn < turn
      {
        assert All(r.log)[|r.log.handed| + i] == r.left[i];
      }
    }
  }

  lemma RecordWell(ended: seq<Turn>, r: Turn)
    requires AllWell(ended) && WellEnded(r) && Older(r.log.inherited, r.turn)
    ensures AllWell(ended + [r])
  {
  }

  lemma RecordChained(ended: seq<Turn>, r: Turn)
    requires Chained(ended) && r.log.inherited == Carried(ended)
    requires forall i :: 0 <= i < |ended| ==> ended[i].turn < r.turn
    ensures Chained(ended + [r])
  {
    var grown := ended + [r];
    forall i | 0 <= i < |grown|
      ensures grown[i].log.inherited == Carried(grown[..i])
    {
      assert grown[..i] == ended[..i];
      assert ended[..|ended|] == ended;
    }
  }

  /** A turn that closes now reads well. */
  lemma CloseWell(s: State, ending: Ending)
    requires !ending.Failed? && (ending.Stopped? ==> s.control.asked || s.control.disconnected)
    requires OfTurn(s.log.produced, s.turn) && s.log.handed <= All(s.log)
    requires s.log.segment == [Human(s.turn)] + if ending.Finished? then All(s.log) else s.log.handed
    ensures var t := Close(s, ending);
      && |t.ended| == |s.ended| + 1 && t.ended == s.ended + [t.ended[|s.ended|]]
      && WellEnded(t.ended[|s.ended|]) && t.ended[|s.ended|].log.inherited == s.log.inherited
      && t.ended[|s.ended|].turn == s.turn && t.ended[|s.ended|].left == []
  {
    var t := Yield(s, Result(s.turn, ending.Stopped?), Closing);
    assert All(t.log) == All(s.log);
  }

  /** The two ways a step can end a turn, or neither. */
  predicate Closes(s: State, a: Action)
    requires Enabled(s, a)
  {
    match a
    case ReaderAdvances =>
      (s.driver.HumanOut? && s.control.asked && !s.resume.routed) || (s.driver.Draining? && s.driver.rest == [])
    case ProbeAnswers(_) => s.driver.stopped
    case DriverGets => s.task.handoff[0] == GraphDone && s.task.graph == Ended(Cancelled) && !s.resume.routed
    case _ => false
  }

  predicate Fails(s: State, a: Action)
    requires Enabled(s, a)
  {
    a.DriverGets? && s.task.handoff[0] == GraphDone && s.task.graph == Ended(Errored)
  }

  /** A step that records nothing: the turn goes on, begins, or the reader comes to rest after one that closed. */
  predicate KeepsHistory(s: State, a: Action, t: State) {
    && t.ended == s.ended
    && t.turn == (if a.BeginTurn? then s.turn + 1 else s.turn)
    && t.log.inherited == (if a.BeginTurn? then s.pending else s.log.inherited)
    && (Resting(t) ==> Resting(s) && t.pending == s.pending)
    && (Resting(s) ==> if a.BeginTurn? then !Resting(t) else Resting(t))
    && (a.BeginTurn? ==> Resting(s))
  }

  lemma GraphKeepsHistory(s: State, a: Action)
    requires Core(s) && Enabled(s, a) && ByGraph(a)
    ensures KeepsHistory(s, a, Next(s, a))
  {
  }

  lemma OthersKeepHistory(s: State, a: Action)
    requires Core(s) && Enabled(s, a) && !ByGraph(a) && !Closes(s, a) && !Fails(s, a)
    ensures KeepsHistory(s, a, Next(s, a))
  {
  }

  lemma FinishesWell(s: State)
    requires Core(s) && Flowing(s) && s.driver.Draining? && s.driver.rest == []
    ensures Next(s, ReaderAdvances).ended == Close(s, Finished).ended
    ensures s.log.segment == [Human(s.turn)] + All(s.log)
  {
    assert s.log.segment + [] == s.log.segment;
  }

  lemma ClosesWell(s: State, a: Action) returns (r: Turn)
    requires Core(s) && Flowing(s) && Enabled(s, a) && Closes(s, a)
    ensures var t := Next(s, a);
      && t.ended == s.ended + [r] && WellEnded(r) && r.left == [] && t.pending == []
      && r.log.inherited == s.log.inherited && r.turn == s.turn == t.turn && t.driver.Closing?
  {
    var t := Next(s, a);
    if a.ReaderAdvances? && s.driver.Draining? {
      FinishesWell(s);
      CloseWell(s, Finished);
    } else if a.ProbeAnswers? {
      CloseWell(s, Stopped);
    } else {
      assert s.log.segment + [] == s.log.segment && [Human(s.turn)] + [] == [Human(s.turn)];
      CloseWell(Leave(s, Closing, []), Stopped);
    }
    r := t.ended[|s.ended|];
  }

  lemma FailsWell(s: State, a: Action) returns (r: Turn)
    requires Core(s) && Flowing(s) && Enabled(s, a) && Fails(s, a)
    ensures var t := Next(s, a);
      && t.ended == s.ended + [r] && WellEnded(r) && r.left == t.pending
      && r.log.inherited == s.log.inherited && r.turn == s.turn == t.turn && t.driver.Raised?
  {
    r := TurnOf(s, Failed, s.pending);
    assert s.log.segment + [] == s.log.segment;
    assert r.events == [Human(s.turn)] + s.log.handed + [];
  }

  lemma HistoryKept(s: State, a: Action, t: State)
    requires Histories(s) && KeepsHistory(s, a, t)
    ensures Histories(t)
  {
  }

  lemma HistoryGrows(s: State, t: State, r: Turn)
    requires Histories(s) && !Resting(s) && Resting(t) && t.ended == s.ended + [r]
    requires WellEnded(r) && r.left == t.pending && r.log.inherited == s.log.inherited && r.turn == s.turn == t.turn
    ensures Histories(t)
  {
    CarriedOlder(s.ended, r.turn);
    RecordWell(s.ended, r);
    RecordChained(s.ended, r);
  }

  lemma HistoriesStep(s: State, a: Action)
    requires Core(s) && Flowing(s) && Histories(s) && Enabled(s, a)
    ensures Histories(Next(s, a))
  {
    if Closes(s, a) {
      var r := ClosesWell(s, a);
      HistoryGrows(s, Next(s, a), r);
    } else if Fails(s, a) {
      var r := FailsWell(s, a);
      HistoryGrows(s, Next(s, a), r);
    } else {
      if ByGraph(a) {
        GraphKeepsHistory(s, a);
      } else {
        OthersKeepHistory(s, a);
      }
      HistoryKept(s, a, Next(s, a));
    }
  }

  /** Every step keeps the invariant. */
  lemma StepInv(s: State, a: Action)
    requires Inv(s) && Enabled(s, a)
    ensures Inv(Next(s, a))
  {
    CoreStep(s, a);
    FlowStep(s, a);
    FlagStep(s, a);
    HistoriesStep(s, a);
  }

  lemma {:induction false} RunInv(s: State, actions: seq<Action>, t: State)
    requires Inv(s) && Steps(s, actions, t)
    ensures Inv(t)
    decreases |actions|
  {
    if actions != [] {
      StepInv(s, actions[0]);
      RunInv(Next(s, actions[0]), actions[1..], t);
    }
  }

  // The runtime object
  // --------------------------------------------------------------------------------------------

  class LangGraphRuntime {
    var turn: nat
    var driver: Driver
    var turnActive: bool
    var interruptRequested: bool
    ghost var disconnected: bool
    var task: Task
    var routed: bool
    var awaitingResume: bool
    var paused: bool       // the graph's own state, which the probe reads
    var pending: seq<Event>
    ghost var unprobed: bool
    ghost var routes: seq<Route>
    var log: Log
    ghost var ended: seq<Turn>

    ghost function View(): State
      reads this
    {
      State(turn, driver, Control(turnActive, interruptRequested, disconnected), task,
            Resume(routed, awaitingResume, paused, unprobed, routes), pending, log, ended)
    }

    constructor ()
      ensures View() == FRESH
    {
      turn, driver, turnActive, interruptRequested, task := 0, Idle, false, false, NO_TASK;
      disconnected := false;
      routed, awaitingResume, paused, pending := false, false, false, [];
      unprobed, routes, log, ended := false, [], NO_LOG, [];
    }

    method BeginTurn()
      requires Enabled(View(), Action.BeginTurn)
      modifies this
      ensures View() == Next(old(View()), Action.BeginTurn)
    {
      turn, driver := turn + 1, Opening;
      ClearFlags();
      task, log := NO_TASK, Log(pending, [], [], []);
    }

    method ClearFlags()
      modifies `turnActive, `interruptRequested, `disconnected, `routed
      ensures turnActive && !interruptRequested && !disconnected && !routed
    {
      turnActive, interruptRequested, disconnected, routed := true, false, false, false;
    }

    method Interrupt()
      modifies this
      ensures View() == Next(old(View()), Action.Interrupt)
    {
      if !turnActive {
        return;
      }
      interruptRequested := true;
      if !task.graph.NoTask? && !task.graph.Ended? {
        task := task.(cancelRequested := true);
      }
    }

    /** `disconnect` cancels a graph task that is not done, without asking for a stop. */
    method Disconnect()
      modifies this
      ensures View() == Next(old(View()), Disconnects)
    {
      disconnected := true;
      if !task.graph.NoTask? && !task.graph.Ended? {
        task := task.(cancelRequested := true);
      }
    }

    method TakePendingEvents() returns (taken: seq<Event>)
      modifies this`pending
      ensures taken == old(pending) && pending == []
    {
      taken := pending;
      pending := [];
    }

    /** Routing: after a pause the prompt is the answer, and the flag is spent. */
    method GraphFirstStep() returns (asAnswer: bool)
      requires Enabled(View(), Action.GraphFirstStep)
      modifies this
      ensures View() == Next(old(View()), Action.GraphFirstStep)
      ensures asAnswer == old(awaitingResume)
    {
      routed := true;
      routes := routes + [Route(awaitingResume, paused, unprobed)];
      unprobed := true;
      asAnswer := awaitingResume;
      if awaitingResume {
        awaitingResume := false;
      }
      task := task.(graph := Running);
    }

    /** One event of the graph's stream: what the middlewares queued goes ahead of it. */
    method AstreamEvent(projected: bool)
      requires Enabled(View(), Action.AstreamEvent(projected))
      modifies this
      ensures View() == Next(old(View()), Action.AstreamEvent(projected))
    {
      var todo := TakePendingEvents();
      if projected {
        var event := Body(turn, |log.produced|);
        todo := todo + [event];
        log := log.(produced := log.produced + [event]);
      }
      HandOff(todo);
    }

    /** The next hand-off of a stream event has been taken. */
    method HandOffTaken()
      requires Enabled(View(), Action.HandOffTaken)
      modifies this`task, this`log
      ensures View() == Next(old(View()), Action.HandOffTaken)
    {
      HandOff(task.graph.todo);
    }

    method HandOff(todo: seq<Event>)
      modifies this`task, this`log
      ensures View() == HandOver(old(View()), todo)
    {
      if todo == [] {
        task := task.(graph := Running);
        return;
      }
      log := log.(handed := log.handed + [todo[0]]);
      task := task.(graph := Blocked(todo[0], todo[1..], false), handoff := task.handoff + [Handed(todo[0])]);
    }

    method DriverGets()
      requires Enabled(View(), Action.DriverGets)
      modifies this
      ensures View() == Next(old(View()), Action.DriverGets)
    {
      var item := task.handoff[0];
      if item.Handed? {
        task := task.(handoff := task.handoff[1..]);
        driver := Yielded(item.event);
        log := log.(segment := log.segment + [item.event]);
        return;
      }
      var outcome := task.graph;
      task, turnActive := NO_TASK, false;
      if outcome == Ended(Cancelled) {
        StopTurn();
      } else if outcome == Ended(Errored) {
        driver := Raised;
        ended := ended + [TurnOf(View(), Failed, pending)];
      } else {
        driver := Probing(false);
      }
    }

    /** The stopped branch: queued events die with the turn, and only a routed turn probes the graph. */
    method StopTurn()
      requires task == NO_TASK && !turnActive
      modifies this
      ensures View() == CloseStopped(old(View()))
    {
      var _ := TakePendingEvents();
      if routed {
        driver := Probing(true);
      } else {
        YieldResult(Stopped);
      }
    }

    method YieldResult(ending: Ending)
      modifies this
      ensures View() == Close(old(View()), ending)
    {
      log := log.(segment := log.segment + [Result(turn, ending.Stopped?)]);
      driver := Closing;
      ended := ended + [TurnOf(View(), ending, [])];
    }

    method ReaderAdvances()
      requires Enabled(View(), Action.ReaderAdvances)
      modifies this
      ensures View() == Next(old(View()), Action.ReaderAdvances)
    {
      match driver {
        case HumanOut =>
          if interruptRequested {
            task, turnActive := NO_TASK, false;
            StopTurn();
          } else {
            task := task.(graph := Created);
            driver := Awaiting;
          }
        case Yielded(event) =>
          task := task.(graph := Take(task.graph, event));
          driver := Awaiting;
        case Draining(rest) =>
          if rest == [] {
            YieldResult(Finished);
          } else {
            log := log.(segment := log.segment + [rest[0]]);
            driver := Draining(rest[1..]);
          }
        case Closing => driver := Idle;
      }
    }

    /** The reader calls `receive_events` again after an error; what the failed turn left queued stays queued. */
    method ReaderRestarts()
      requires Enabled(View(), Action.ReaderRestarts)
      modifies this`driver
      ensures View() == Next(old(View()), Action.ReaderRestarts)
    {
      driver := Idle;
    }

    method ProbeAnswers(ok: bool)
      requires Enabled(View(), Action.ProbeAnswers(ok))
      modifies this
      ensures View() == Next(old(View()), Action.ProbeAnswers(ok))
    {
      awaitingResume := ok && paused;
      unprobed := !ok;
      if driver.stopped {
        YieldResult(Stopped);
      } else {
        var rest := TakePendingEvents();
        driver := Draining(rest);
      }
    }
  }
}
