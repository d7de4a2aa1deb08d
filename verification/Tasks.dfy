/**
 The task list of a session: an in-memory store changed by calls, whose only persistent form is the log of the tool uses
 that made those calls.  A restarted container replays the log into an empty store.

 The clock is a parameter: the n-th call, or the n-th log entry, happens at `clock(n)`.
 */
module Tasks {
  import opened Wrappers

  const PENDING: string := "pending"
  const COMPLETED: string := "completed"

  datatype Task = Task(id: int, subject: string, description: string, activeForm: string, status: string,
                       parentToolUseId: Option<string>, blockedBy: seq<int>, output: string,
                       createdAt: int, updatedAt: int)

  datatype State = State(tasks: map<int, Task>, nextId: int)

  const EMPTY: State := State(map[], 1)

  datatype Details = Details(subject: string, description: string, activeForm: string, parentToolUseId: Option<string>)

  /** Absent fields stay as they are; no new blockers is an empty list. */
  datatype Changes = Changes(status: Option<string>, subject: Option<string>, description: Option<string>,
                             activeForm: Option<string>, addBlockedBy: seq<int>)

  const STOPPED: Changes := Changes(Some(COMPLETED), None, None, None, [])

  /** `ReadOutput` is the `task_output` tool, which only looks the task up. */
  datatype Call =
    | Create(details: Details)
    | Update(id: int, changes: Changes)
    | AppendOutput(id: int, chunk: string)
    | Stop(id: int)
    | ReadOutput(id: int)

  /** A line of the log; a task id that is missing or no integer is `None`. */
  datatype Entry =
    | TaskCreate(details: Details)
    | TaskUpdate(taskId: Option<int>, changes: Changes)
    | TaskStop(taskId: Option<int>)
    | TaskOutput(taskId: Option<int>, output: string)
    | Other

  // Blockers
  // --------------------------------------------------------------------------------------------

  predicate Ascending(s: seq<int>) {
    forall i, j :: 0 <= i < j < |s| ==> s[i] < s[j]
  }

  function Elements(s: seq<int>): set<int> {
    set x | x in s
  }

  /** Inserting keeps the sequence ascending and adds just that element. */
  function Insert(s: seq<int>, x: int): (r: seq<int>)
    requires Ascending(s)
    ensures Ascending(r) && forall y :: y in r <==> y == x || y in s
  {
    if s == [] || x < s[0] then [x] + s
    else if x == s[0] then s
    else
      var rest := Insert(s[1..], x);
      assert forall y :: y in s <==> y == s[0] || y in s[1..];
      assert forall i :: 0 <= i < |rest| ==> rest[i] in rest;
      [s[0]] + rest
  }

  /** The sorted union: ascending, without repetition, and holding exactly the elements of both. */
  function SortedUnion(s: seq<int>, added: seq<int>): (r: seq<int>)
    requires Ascending(s)
    ensures Ascending(r) && forall y :: y in r <==> y in s || y in added
    decreases |added|
  {
    if added == [] then s
    else
      assert forall y :: y in added <==> y == added[0] || y in added[1..];
      SortedUnion(Insert(s, added[0]), added[1..])
  }

  /** There is only one such sequence, so `SortedUnion` is the sorted tuple of the set. */
  lemma {:induction false} AscendingIsUnique(s: seq<int>, t: seq<int>)
    requires Ascending(s) && Ascending(t) && Elements(s) == Elements(t)
    ensures s == t
    decreases |s|
  {
    assert forall x :: x in s <==> x in Elements(t);
    assert forall x :: x in t <==> x in Elements(s);
    assert |s| == 0 <==> |t| == 0 by {
      assert |s| > 0 ==> s[0] in s;
      assert |t| > 0 ==> t[0] in t;
    }
    if s != [] {
      assert s[0] in Elements(t) && t[0] in Elements(s);
      assert s[0] == t[0];
      forall x
        ensures x in s[1..] <==> x in t[1..]
      {
        assert x in s <==> x in Elements(t);
        assert x in s <==> x == s[0] || x in s[1..];
        assert x in t <==> x == t[0] || x in t[1..];
      }
      AscendingIsUnique(s[1..], t[1..]);
      assert s == [s[0]] + s[1..] && t == [t[0]] + t[1..];
    }
  }

  // Calls
  // --------------------------------------------------------------------------------------------

  predicate Valid(s: State) {
    forall id :: id in s.tasks ==> Ascending(s.tasks[id].blockedBy)
  }

  function NewTask(id: int, d: Details, now: int): Task {
    Task(id, d.subject, d.description, d.activeForm, PENDING, d.parentToolUseId, [], "", now, now)
  }

  function Or(given: Option<string>, kept: string): string {
    if given.Some? then given.value else kept
  }

  function Changed(t: Task, c: Changes, now: int): Task
    requires Ascending(t.blockedBy)
  {
    t.(status := Or(c.status, t.status),
       subject := Or(c.subject, t.subject),
       description := Or(c.description, t.description),
       activeForm := Or(c.activeForm, t.activeForm),
       blockedBy := SortedUnion(t.blockedBy, c.addBlockedBy),
       updatedAt := now)
  }

  function Appended(t: Task, chunk: string, now: int): Task {
    t.(output := if t.output == "" then chunk else t.output + "\n" + chunk, updatedAt := now)
  }

  /** An unknown id changes nothing. */
  function Apply(s: State, c: Call, now: int): (r: State)
    requires Valid(s)
    ensures Valid(r)
  {
    match c
    case Create(d) => State(s.tasks[s.nextId := NewTask(s.nextId, d, now)], s.nextId + 1)
    case Update(id, changes) =>
      if id in s.tasks then s.(tasks := s.tasks[id := Changed(s.tasks[id], changes, now)]) else s
    case AppendOutput(id, chunk) =>
      if id in s.tasks then s.(tasks := s.tasks[id := Appended(s.tasks[id], chunk, now)]) else s
    case Stop(id) =>
      if id in s.tasks then s.(tasks := s.tasks[id := Changed(s.tasks[id], STOPPED, now)]) else s
    case ReadOutput(id) => s
  }

  function Run(calls: seq<Call>, clock: nat -> int): (s: State)
    ensures Valid(s)
  {
    if calls == [] then EMPTY
    else
      var n := |calls| - 1;
      Apply(Run(calls[..n], clock), calls[n], clock(n))
  }

  // Replay
  // --------------------------------------------------------------------------------------------

  /** How a call appears in the log.  The reading tool has no `output` argument; the replay takes that as empty. */
  function Logged(c: Call): Entry {
    match c
    case Create(d) => TaskCreate(d)
    case Update(id, changes) => TaskUpdate(Some(id), changes)
    case AppendOutput(id, chunk) => TaskOutput(Some(id), chunk)
    case Stop(id) => TaskStop(Some(id))
    case ReadOutput(id) => TaskOutput(Some(id), "")
  }

  /** Entries that the replay passes over. */
  predicate Idle(e: Entry) {
    e.Other? || (!e.TaskCreate? && e.taskId.None?)
  }

  function Redo(s: State, e: Entry, now: int): (r: State)
    requires Valid(s)
    ensures Valid(r)
  {
    if Idle(e) then s
    else match e
      case TaskCreate(d) => Apply(s, Create(d), now)
      case TaskUpdate(id, changes) => Apply(s, Update(id.value, changes), now)
      case TaskStop(id) => Apply(s, Stop(id.value), now)
      case TaskOutput(id, output) => Apply(s, AppendOutput(id.value, output), now)
  }

  function Replay(log: seq<Entry>, clock: nat -> int): (s: State)
    ensures Valid(s)
  {
    if log == [] then EMPTY
    else
      var n := |log| - 1;
      Redo(Replay(log[..n], clock), log[n], clock(n))
  }

  /** The log of a session: the entries of its calls, in order, among entries of no concern to the store. */
  predicate LogOf(log: seq<Entry>, calls: seq<Call>)
    decreases |log|
  {
    if log == [] then calls == []
    else
      var n := |log| - 1;
      if Idle(log[n]) then LogOf(log[..n], calls)
      else calls != [] && log[n] == Logged(calls[|calls| - 1]) && LogOf(log[..n], calls[..|calls| - 1])
  }

  function Untimed(t: Task): Task {
    t.(createdAt := 0, updatedAt := 0)
  }

  predicate SameUpToTime(s: State, t: State) {
    && s.nextId == t.nextId && s.tasks.Keys == t.tasks.Keys
    && forall id :: id in s.tasks ==> Untimed(s.tasks[id]) == Untimed(t.tasks[id])
  }

  /** The output tool is used on a task that already has output. */
  predicate ReadsWritten(calls: seq<Call>, clock: nat -> int) {
    exists i :: 0 <= i < |calls| && HitAt(calls, clock, i)
  }

  predicate HitAt(calls: seq<Call>, clock: nat -> int, i: nat)
    requires i < |calls|
  {
    ReadHitsOutput(Run(calls[..i], clock), calls[i])
  }

  predicate ReadHitsOutput(s: State, c: Call) {
    c.ReadOutput? && c.id in s.tasks && s.tasks[c.id].output != ""
  }

  /** A replayed task is the live one, but its output may have grown: never from nothing, and never back. */
  predicate Drifted(live: Task, back: Task) {
    && Untimed(live).(output := "") == Untimed(back).(output := "")
    && (live.output == back.output || (live.output != "" && |live.output| < |back.output|))
  }

  predicate Tracks(live: State, back: State) {
    && live.nextId == back.nextId && live.tasks.Keys == back.tasks.Keys
    && forall id :: id in live.tasks ==> Drifted(live.tasks[id], back.tasks[id])
  }

  lemma ChangedTracks(live: Task, back: Task, c: Changes, now: int, later: int)
    requires Ascending(live.blockedBy) && Drifted(live, back)
    ensures Drifted(Changed(live, c, now), Changed(back, c, later))
    ensures Untimed(Changed(live, c, now)) == Untimed(Changed(back, c, later)) <==> Untimed(live) == Untimed(back)
  {
    assert Untimed(live).(output := "") == Untimed(back).(output := "");
  }

  lemma AppendedTracks(live: Task, back: Task, chunk: string, now: int, later: int)
    requires Drifted(live, back)
    ensures Drifted(Appended(live, chunk, now), Appended(back, chunk, later))
    ensures Untimed(Appended(live, chunk, now)) == Untimed(Appended(back, chunk, later)) <==>
            Untimed(live) == Untimed(back)
  {
    assert Untimed(live).(output := "") == Untimed(back).(output := "");
    assert Untimed(live) == Untimed(back) <==> live.output == back.output;
    if live.output != back.output {
      assert |live.output + "\n" + chunk| < |back.output + "\n" + chunk|;
    }
  }

  lemma ReadTracks(live: Task, back: Task, later: int)
    requires Drifted(live, back)
    ensures Drifted(live, Appended(back, "", later))
    ensures Untimed(live) == Untimed(Appended(back, "", later)) <==> Untimed(live) == Untimed(back) && live.output == ""
  {
    assert Untimed(live).(output := "") == Untimed(back).(output := "");
    assert Untimed(live) == Untimed(back) <==> live.output == back.output;
    if live.output != "" {
      assert |back.output + "\n" + ""| == |back.output| + 1;
    }
  }

  lemma PutTracks(live: State, back: State, id: int, l: Task, b: Task, hit: bool)
    requires Tracks(live, back) && id in live.tasks && Drifted(l, b)
    requires Untimed(l) == Untimed(b) <==> Untimed(live.tasks[id]) == Untimed(back.tasks[id]) && !hit
    ensures var s, t := live.(tasks := live.tasks[id := l]), back.(tasks := back.tasks[id := b]);
      Tracks(s, t) && (SameUpToTime(s, t) <==> SameUpToTime(live, back) && !hit)
  {
    var s, t := live.(tasks := live.tasks[id := l]), back.(tasks := back.tasks[id := b]);
    assert forall k :: k in live.tasks && k != id ==> s.tasks[k] == live.tasks[k] && t.tasks[k] == back.tasks[k];
    if SameUpToTime(s, t) {
      assert Untimed(s.tasks[id]) == Untimed(t.tasks[id]);
    }
  }

  lemma CreateTracks(live: State, back: State, d: Details, now: int, later: int)
    requires Valid(live) && Valid(back) && Tracks(live, back) && live.nextId !in live.tasks
    ensures Tracks(Apply(live, Create(d), now), Apply(back, Create(d), later))
    ensures SameUpToTime(Apply(live, Create(d), now), Apply(back, Create(d), later)) <==> SameUpToTime(live, back)
  {
    var l, b := Apply(live, Create(d), now), Apply(back, Create(d), later);
    assert forall k :: k in live.tasks ==> l.tasks[k] == live.tasks[k] && b.tasks[k] == back.tasks[k];
  }

  lemma ChangeTracks(live: State, back: State, id: int, c: Changes, now: int, later: int)
    requires Valid(live) && Valid(back) && Tracks(live, back)
    ensures Tracks(Apply(live, Update(id, c), now), Apply(back, Update(id, c), later))
    ensures SameUpToTime(Apply(live, Update(id, c), now), Apply(back, Update(id, c), later))
       <==> SameUpToTime(live, back)
  {
    if id in live.tasks {
      var t, u := live.tasks[id], back.tasks[id];
      ChangedTracks(t, u, c, now, later);
      PutTracks(live, back, id, Changed(t, c, now), Changed(u, c, later), false);
    }
  }

  lemma AppendTracks(live: State, back: State, id: int, chunk: string, now: int, later: int)
    requires Valid(live) && Valid(back) && Tracks(live, back)
    ensures Tracks(Apply(live, AppendOutput(id, chunk), now), Apply(back, AppendOutput(id, chunk), later))
    ensures SameUpToTime(Apply(live, AppendOutput(id, chunk), now), Apply(back, AppendOutput(id, chunk), later))
       <==> SameUpToTime(live, back)
  {
    if id in live.tasks {
      var t, u := live.tasks[id], back.tasks[id];
      AppendedTracks(t, u, chunk, now, later);
      PutTracks(live, back, id, Appended(t, chunk, now), Appended(u, chunk, later), false);
    }
  }

  lemma OutputReadTracks(live: State, back: State, id: int, later: int)
    requires Valid(live) && Valid(back) && Tracks(live, back)
    ensures Tracks(live, Apply(back, AppendOutput(id, ""), later))
    ensures SameUpToTime(live, Apply(back, AppendOutput(id, ""), later))
       <==> SameUpToTime(live, back) && !ReadHitsOutput(live, ReadOutput(id))
  {
    if id in live.tasks {
      var t, u := live.tasks[id], back.tasks[id];
      ReadTracks(t, u, later);
      PutTracks(live, back, id, t, Appended(u, "", later), t.output != "");
      assert live.(tasks := live.tasks[id := t]) == live;
    }
  }

  /** The replay stays on track through every call, and is exact until the output tool hits a task with output. */
  lemma CallTracks(live: State, back: State, c: Call, now: int, later: int)
    requires Valid(live) && Valid(back) && Tracks(live, back) && live.nextId !in live.tasks
    ensures Tracks(Apply(live, c, now), Redo(back, Logged(c), later))
    ensures SameUpToTime(Apply(live, c, now), Redo(back, Logged(c), later))
       <==> SameUpToTime(live, back) && !ReadHitsOutput(live, c)
  {
    match c
    case Create(d) => CreateTracks(live, back, d, now, later);
    case Update(id, changes) => ChangeTracks(live, back, id, changes, now, later);
    case AppendOutput(id, chunk) => AppendTracks(live, back, id, chunk, now, later);
    case Stop(id) => ChangeTracks(live, back, id, STOPPED, now, later);
    case ReadOutput(id) => OutputReadTracks(live, back, id, later);
  }

  lemma ReadsWrittenSplits(calls: seq<Call>, clock: nat -> int)
    requires calls != []
    ensures ReadsWritten(calls, clock) <==>
            || ReadsWritten(calls[..|calls| - 1], clock)
            || ReadHitsOutput(Run(calls[..|calls| - 1], clock), calls[|calls| - 1])
  {
    var init := calls[..|calls| - 1];
    forall i | 0 <= i < |init|
      ensures HitAt(init, clock, i) == HitAt(calls, clock, i)
    {
      assert init[..i] == calls[..i];
    }
    assert HitAt(calls, clock, |init|) == ReadHitsOutput(Run(init, clock), calls[|init|]);
    if ReadsWritten(init, clock) {
      var i :| 0 <= i < |init| && HitAt(init, clock, i);
      assert HitAt(calls, clock, i);
    }
  }

  /**
   Replaying a session's log rebuilds its store and its next id, up to timestamps, if and only if the output tool was
   never used on a task that had output.  Even then only outputs differ, and only by having grown.  Unknown ids are
   allowed anywhere.
   */
  lemma {:induction false} ReplayRebuilds(log: seq<Entry>, calls: seq<Call>, clock: nat -> int, later: nat -> int)
    requires LogOf(log, calls)
    ensures Tracks(Run(calls, clock), Replay(log, later))
    ensures SameUpToTime(Run(calls, clock), Replay(log, later)) <==> !ReadsWritten(calls, clock)
    decreases |log|
  {
    if log != [] {
      var n := |log| - 1;
      if Idle(log[n]) {
        ReplayRebuilds(log[..n], calls, clock, later);
      } else {
        var m := |calls| - 1;
        ReplayRebuilds(log[..n], calls[..m], clock, later);
        IdsAreDense(calls[..m], clock);
        CallTracks(Run(calls[..m], clock), Replay(log[..n], later), calls[m], clock(m), later(n));
        ReadsWrittenSplits(calls, clock);
      }
    }
  }

  /** A task with output that is then read comes back from the log with a newline it never had. */
  lemma ReadOutputIsReplayedAsAppend(clock: nat -> int)
    ensures var calls := [Create(Details("s", "", "", None)), AppendOutput(1, "x"), ReadOutput(1)];
            var log := [TaskCreate(Details("s", "", "", None)), TaskOutput(Some(1), "x"), TaskOutput(Some(1), "")];
      && LogOf(log, calls)
      && 1 in Run(calls, clock).tasks && Run(calls, clock).tasks[1].output == "x"
      && 1 in Replay(log, clock).tasks && Replay(log, clock).tasks[1].output == "x\n"
  {
    var c0, c1, c2 := Create(Details("s", "", "", None)), AppendOutput(1, "x"), ReadOutput(1);
    var e0, e1, e2 := Logged(c0), Logged(c1), Logged(c2);
    assert [c0, c1, c2][..2] == [c0, c1] && [c0, c1][..1] == [c0] && [c0][..0] == [];
    assert [e0, e1, e2][..2] == [e0, e1] && [e0, e1][..1] == [e0] && [e0][..0] == [];
    assert LogOf([], []) && LogOf([e0], [c0]) && LogOf([e0, e1], [c0, c1]);
    assert Run([c0], clock) == Apply(EMPTY, c0, clock(0));
    assert Run([c0, c1], clock) == Apply(Run([c0], clock), c1, clock(1));
    assert Replay([e0], clock) == Redo(EMPTY, e0, clock(0));
    assert Replay([e0, e1], clock) == Redo(Replay([e0], clock), e1, clock(1));
    assert ("x" + "\n") + "" == "x\n";
  }

  /** While nothing appends output, as with the six tools alone, replay always rebuilds the store. */
  lemma {:induction false} ToolsAloneRebuild(log: seq<Entry>, calls: seq<Call>, clock: nat -> int, later: nat -> int)
    requires LogOf(log, calls) && forall i :: 0 <= i < |calls| ==> !calls[i].AppendOutput?
    ensures SameUpToTime(Run(calls, clock), Replay(log, later))
  {
    ReplayRebuilds(log, calls, clock, later);
    forall i | 0 <= i < |calls|
      ensures !HitAt(calls, clock, i)
    {
      NoOutputWithoutAppends(calls[..i], clock);
    }
  }

  lemma {:induction false} NoOutputWithoutAppends(calls: seq<Call>, clock: nat -> int)
    requires forall i :: 0 <= i < |calls| ==> !calls[i].AppendOutput?
    ensures forall id :: id in Run(calls, clock).tasks ==> Run(calls, clock).tasks[id].output == ""
    decreases |calls|
  {
    if calls != [] {
      NoOutputWithoutAppends(calls[..|calls| - 1], clock);
    }
  }

  // What the store holds after any calls
  // --------------------------------------------------------------------------------------------

  /** The ids given out are exactly 1 .. nextId - 1, each under its own key. */
  lemma {:induction false} IdsAreDense(calls: seq<Call>, clock: nat -> int)
    ensures var s := Run(calls, clock);
      && s.nextId >= 1 && (forall id :: id in s.tasks <==> 1 <= id < s.nextId)
      && (forall id :: id in s.tasks ==> s.tasks[id].id == id)
    decreases |calls|
  {
    if calls != [] {
      IdsAreDense(calls[..|calls| - 1], clock);
    }
  }

  /** How many tasks `calls` creates. */
  function Creates(calls: seq<Call>): nat {
    if calls == [] then 0 else Creates(calls[..|calls| - 1]) + if calls[|calls| - 1].Create? then 1 else 0
  }

  /** The blockers that calls made after the task's creation name for it. */
  function Blockers(calls: seq<Call>, id: int): set<int> {
    set i, b | 0 <= i < |calls| && calls[i].Update? && calls[i].id == id && id <= Creates(calls[..i])
               && b in calls[i].changes.addBlockedBy :: b
  }

  /** The chunks appended to the task after its creation. */
  function Chunks(calls: seq<Call>, id: int): seq<string> {
    if calls == [] then []
    else
      var init, c := calls[..|calls| - 1], calls[|calls| - 1];
      Chunks(init, id) + if c.AppendOutput? && c.id == id && id <= Creates(init) then [c.chunk] else []
  }

  function DropLeadingEmpty(chunks: seq<string>): seq<string> {
    if chunks != [] && chunks[0] == "" then DropLeadingEmpty(chunks[1..]) else chunks
  }

  function JoinLines(chunks: seq<string>): string {
    if chunks == [] then ""
    else if |chunks| == 1 then chunks[0]
    else chunks[0] + "\n" + JoinLines(chunks[1..])
  }

  lemma {:induction false} CreatesCounts(calls: seq<Call>, clock: nat -> int)
    ensures Run(calls, clock).nextId == Creates(calls) + 1
    decreases |calls|
  {
    if calls != [] {
      CreatesCounts(calls[..|calls| - 1], clock);
    }
  }

  lemma BlockersStep(calls: seq<Call>, id: int)
    requires calls != []
    ensures var init, c := calls[..|calls| - 1], calls[|calls| - 1];
      forall b :: b in Blockers(calls, id) <==>
        || b in Blockers(init, id)
        || (c.Update? && c.id == id && id <= Creates(init) && b in c.changes.addBlockedBy)
  {
    var init, c := calls[..|calls| - 1], calls[|calls| - 1];
    assert forall i :: 0 <= i < |init| ==> init[..i] == calls[..i] && init[i] == calls[i];
    forall b
      ensures b in Blockers(calls, id) <==>
              || b in Blockers(init, id)
              || (c.Update? && c.id == id && id <= Creates(init) && b in c.changes.addBlockedBy)
    {
      if b in Blockers(init, id) {
        var i :| 0 <= i < |init| && init[i].Update? && init[i].id == id && id <= Creates(init[..i])
                 && b in init[i].changes.addBlockedBy;
        assert calls[i] == init[i];
      }
    }
  }

  /** A task's blockers are strictly ascending and are all those ever added to it: none is lost, none made up. */
  lemma {:induction false} BlockedByAccumulates(calls: seq<Call>, clock: nat -> int, id: int)
    requires id in Run(calls, clock).tasks
    ensures Ascending(Run(calls, clock).tasks[id].blockedBy)
    ensures forall b :: b in Run(calls, clock).tasks[id].blockedBy <==> b in Blockers(calls, id)
    decreases |calls|
  {
    if calls != [] {
      var init := calls[..|calls| - 1];
      IdsAreDense(init, clock);
      IdsAreDense(calls, clock);
      CreatesCounts(init, clock);
      BlockersStep(calls, id);
      if id in Run(init, clock).tasks {
        BlockedByAccumulates(init, clock, id);
      } else {
        NoBlockersYet(init, id);
      }
    }
  }

  lemma {:induction false} NoBlockersYet(calls: seq<Call>, id: int)
    requires Creates(calls) < id
    ensures Blockers(calls, id) == {}
    decreases |calls|
  {
    if calls != [] {
      NoBlockersYet(calls[..|calls| - 1], id);
      BlockersStep(calls, id);
    }
  }

  lemma {:induction false} NoChunksYet(calls: seq<Call>, id: int)
    requires Creates(calls) < id
    ensures Chunks(calls, id) == []
    decreases |calls|
  {
    if calls != [] {
      NoChunksYet(calls[..|calls| - 1], id);
    }
  }

  /** Appending a chunk to what the text already holds. */
  lemma {:induction false} OneMoreChunk(chunks: seq<string>, chunk: string)
    ensures var text := JoinLines(DropLeadingEmpty(chunks));
      JoinLines(DropLeadingEmpty(chunks + [chunk])) == if text == "" then chunk else text + "\n" + chunk
    decreases |chunks|
  {
    if chunks == [] {
      assert chunks + [chunk] == [chunk];
    } else if chunks[0] == "" {
      assert (chunks + [chunk])[1..] == chunks[1..] + [chunk];
      OneMoreChunk(chunks[1..], chunk);
    } else {
      JoinOneMore(chunks, chunk);
      assert (chunks + [chunk])[0] == chunks[0];
      assert |JoinLines(chunks)| >= |chunks[0]|;
    }
  }

  lemma {:induction false} JoinOneMore(chunks: seq<string>, chunk: string)
    requires chunks != []
    ensures JoinLines(chunks + [chunk]) == JoinLines(chunks) + "\n" + chunk
    decreases |chunks|
  {
    assert (chunks + [chunk])[1..] == chunks[1..] + [chunk];
    if |chunks| == 1 {
      assert chunks[1..] + [chunk] == [chunk];
    } else {
      JoinOneMore(chunks[1..], chunk);
      assert chunks[0] + "\n" + (JoinLines(chunks[1..]) + "\n" + chunk)
          == (chunks[0] + "\n" + JoinLines(chunks[1..])) + "\n" + chunk;
    }
  }

  /** A task's output is its chunks joined by newlines, from the first chunk that is not empty. */
  lemma {:induction false} OutputIsJoinedChunks(calls: seq<Call>, clock: nat -> int, id: int)
    requires id in Run(calls, clock).tasks
    ensures Run(calls, clock).tasks[id].output == JoinLines(DropLeadingEmpty(Chunks(calls, id)))
    decreases |calls|
  {
    if calls != [] {
      var init, c := calls[..|calls| - 1], calls[|calls| - 1];
      IdsAreDense(init, clock);
      CreatesCounts(init, clock);
      if id in Run(init, clock).tasks {
        OutputIsJoinedChunks(init, clock, id);
        if c.AppendOutput? && c.id == id {
          OneMoreChunk(Chunks(init, id), c.chunk);
        } else {
          assert Chunks(calls, id) == Chunks(init, id);
        }
      } else {
        NoChunksYet(init, id);
      }
    }
  }

  datatype Field = Status | Subject | Description | ActiveForm

  function Read(t: Task, field: Field): string {
    match field
    case Status => t.status
    case Subject => t.subject
    case Description => t.description
    case ActiveForm => t.activeForm
  }

  /** What the i-th call says the field of the task is to be, if anything; nothing before the task was created. */
  function Given(calls: seq<Call>, i: nat, id: int, field: Field): Option<string>
    requires i < |calls|
  {
    match calls[i]
    case Create(d) =>
      if Creates(calls[..i]) + 1 != id then None
      else
        (match field
         case Status => Some("pending")
         case Subject => Some(d.subject)
         case Description => Some(d.description)
         case ActiveForm => Some(d.activeForm))
    case Update(task, c) =>
      if task != id || Creates(calls[..i]) < id then None
      else
        (match field
         case Status => c.status
         case Subject => c.subject
         case Description => c.description
         case ActiveForm => c.activeForm)
    case Stop(task) => if task == id && id <= Creates(calls[..i]) && field.Status? then Some("completed") else None
    case _ => None
  }

  lemma GivenEarlier(calls: seq<Call>, n: nat, i: nat, id: int, field: Field)
    requires i < n <= |calls|
    ensures Given(calls[..n], i, id, field) == Given(calls, i, id, field)
  {
    assert calls[..n][..i] == calls[..i];
  }

  lemma FieldStep(s: State, c: Call, now: int, id: int, field: Field, calls: seq<Call>, i: nat)
    requires Valid(s) && i < |calls| && calls[i] == c && s.nextId == Creates(calls[..i]) + 1
    requires forall k :: k in s.tasks <==> 1 <= k < s.nextId
    requires id in Apply(s, c, now).tasks
    ensures Given(calls, i, id, field).Some? ==>
              Read(Apply(s, c, now).tasks[id], field) == Given(calls, i, id, field).value
    ensures Given(calls, i, id, field).None? ==>
              id in s.tasks && Read(Apply(s, c, now).tasks[id], field) == Read(s.tasks[id], field)
  {
  }

  /** Each field of a task is what the last call to give it a value said. */
  lemma {:induction false} FieldIsLastGiven(calls: seq<Call>, clock: nat -> int, id: int, field: Field) returns (i: nat)
    requires id in Run(calls, clock).tasks
    ensures i < |calls| && Given(calls, i, id, field) == Some(Read(Run(calls, clock).tasks[id], field))
    ensures forall j :: i < j < |calls| ==> Given(calls, j, id, field).None?
    decreases |calls|
  {
    var n := |calls| - 1;
    var init := calls[..n];
    IdsAreDense(init, clock);
    CreatesCounts(init, clock);
    FieldStep(Run(init, clock), calls[n], clock(n), id, field, calls, n);
    if Given(calls, n, id, field).Some? {
      i := n;
    } else {
      i := FieldIsLastGiven(init, clock, id, field);
      forall j | 0 <= j < n
        ensures Given(init, j, id, field) == Given(calls, j, id, field)
      {
        GivenEarlier(calls, n, j, id, field);
      }
    }
  }

  /** The i-th call makes the task or acts on it. */
  predicate Touches(calls: seq<Call>, i: nat, id: int)
    requires i < |calls|
  {
    match calls[i]
    case Create(_) => Creates(calls[..i]) + 1 == id
    case ReadOutput(_) => false
    case c => c.id == id && 1 <= id <= Creates(calls[..i])
  }

  lemma TouchStep(s: State, c: Call, now: int, id: int, calls: seq<Call>, i: nat)
    requires Valid(s) && i < |calls| && calls[i] == c && s.nextId == Creates(calls[..i]) + 1
    requires forall k :: k in s.tasks <==> 1 <= k < s.nextId
    requires id in Apply(s, c, now).tasks
    ensures var t := Apply(s, c, now).tasks[id];
      && (c.Create? && Touches(calls, i, id) ==>
            id !in s.tasks && t.createdAt == now && t.parentToolUseId == c.details.parentToolUseId)
      && (!(c.Create? && Touches(calls, i, id)) ==>
            id in s.tasks && t.createdAt == s.tasks[id].createdAt
            && t.parentToolUseId == s.tasks[id].parentToolUseId)
      && (Touches(calls, i, id) ==> t.updatedAt == now)
      && (!Touches(calls, i, id) ==> id in s.tasks && t.updatedAt == s.tasks[id].updatedAt)
  {
  }

  /** A task bears the time and the parent of the call that created it, and the time of the last call to touch it. */
  lemma {:induction false} TimesAreKept(calls: seq<Call>, clock: nat -> int, id: int) returns (made: nat, last: nat)
    requires id in Run(calls, clock).tasks
    ensures made <= last < |calls| && calls[made].Create? && Touches(calls, made, id) && Touches(calls, last, id)
    ensures forall j :: last < j < |calls| ==> !Touches(calls, j, id)
    ensures var t := Run(calls, clock).tasks[id];
      && t.createdAt == clock(made) && t.parentToolUseId == calls[made].details.parentToolUseId
      && t.updatedAt == clock(last)
    decreases |calls|
  {
    var n := |calls| - 1;
    var init := calls[..n];
    IdsAreDense(init, clock);
    CreatesCounts(init, clock);
    TouchStep(Run(init, clock), calls[n], clock(n), id, calls, n);
    if calls[n].Create? && Touches(calls, n, id) {
      made, last := n, n;
    } else {
      made, last := TimesAreKept(init, clock, id);
      forall j | 0 <= j < n
        ensures Touches(init, j, id) == Touches(calls, j, id)
      {
        assert calls[..n][..j] == calls[..j];
      }
      if Touches(calls, n, id) {
        last := n;
      }
    }
  }

  /** A later state of a task: created at the same time, with no less output and no fewer blockers. */
  predicate Grown(was: Task, now: Task) {
    && now.createdAt == was.createdAt && was.output <= now.output
    && (forall b :: b in was.blockedBy ==> b in now.blockedBy)
  }

  lemma ApplyGrows(s: State, c: Call, now: int, id: int)
    requires Valid(s) && id in s.tasks && s.nextId !in s.tasks
    ensures id in Apply(s, c, now).tasks && Grown(s.tasks[id], Apply(s, c, now).tasks[id])
  {
  }

  /** Later calls never take a task, its creation time, its output or a blocker away. */
  lemma {:induction false} TasksOnlyGrow(calls: seq<Call>, more: seq<Call>, clock: nat -> int, id: int)
    requires id in Run(calls, clock).tasks
    ensures id in Run(calls + more, clock).tasks
    ensures Grown(Run(calls, clock).tasks[id], Run(calls + more, clock).tasks[id])
    decreases |more|
  {
    if more == [] {
      assert calls + more == calls;
    } else {
      var init, n := more[..|more| - 1], |calls + more| - 1;
      TasksOnlyGrow(calls, init, clock, id);
      assert (calls + more)[..n] == calls + init;
      IdsAreDense(calls + init, clock);
      ApplyGrows(Run(calls + init, clock), (calls + more)[n], clock(n), id);
    }
  }

  // The object
  // --------------------------------------------------------------------------------------------

  class TaskService {
    var tasks: map<int, Task>
    var nextId: int

    ghost function View(): State
      reads this
    {
      State(tasks, nextId)
    }

    constructor ()
      ensures View() == EMPTY
    {
      tasks, nextId := map[], 1;
    }

    method CreateTask(d: Details, now: int) returns (r: Task)
      requires Valid(View())
      modifies this
      ensures View() == Apply(old(View()), Create(d), now)
      ensures r == View().tasks[old(nextId)] && r.id == old(nextId)
    {
      var taskId := nextId;
      nextId := nextId + 1;
      r := NewTask(taskId, d, now);
      tasks := tasks[taskId := r];
    }

    method UpdateTask(id: int, c: Changes, now: int) returns (r: Option<Task>)
      requires Valid(View())
      modifies this
      ensures View() == Apply(old(View()), Update(id, c), now)
      ensures r == if id in old(tasks) then Some(View().tasks[id]) else None
    {
      if id !in tasks {
        return None;
      }
      var t := tasks[id].(updatedAt := now);
      if c.status.Some? {
        t := t.(status := c.status.value);
      }
      if c.subject.Some? {
        t := t.(subject := c.subject.value);
      }
      if c.description.Some? {
        t := t.(description := c.description.value);
      }
      if c.activeForm.Some? {
        t := t.(activeForm := c.activeForm.value);
      }
      if c.addBlockedBy != [] {
        t := t.(blockedBy := SortedUnion(t.blockedBy, c.addBlockedBy));
      }
      tasks := tasks[id := t];
      return Some(t);
    }

    method Append(id: int, chunk: string, now: int) returns (r: Option<Task>)
      requires Valid(View())
      modifies this
      ensures View() == Apply(old(View()), AppendOutput(id, chunk), now)
      ensures r == if id in old(tasks) then Some(View().tasks[id]) else None
    {
      if id !in tasks {
        return None;
      }
      var current := tasks[id];
      var combined := if current.output == "" then chunk else current.output + "\n" + chunk;
      var t := current.(output := combined, updatedAt := now);
      tasks := tasks[id := t];
      return Some(t);
    }

    method StopTask(id: int, now: int) returns (r: Option<Task>)
      requires Valid(View())
      modifies this
      ensures View() == Apply(old(View()), Stop(id), now)
      ensures r == if id in old(tasks) then Some(View().tasks[id]) else None
    {
      r := UpdateTask(id, STOPPED, now);
    }

    /** Reads the whole log into an empty service. */
    method RebuildFromEvents(log: seq<Entry>, clock: nat -> int)
      requires View() == EMPTY
      modifies this
      ensures View() == Replay(log, clock)
    {
      for n := 0 to |log|
        invariant View() == Replay(log[..n], clock)
      {
        assert log[..n + 1][..n] == log[..n];
        var e, now := log[n], clock(n);
        match e
        case TaskCreate(d) =>
          var _ := CreateTask(d, now);
        case TaskUpdate(id, changes) =>
          if id.Some? && id.value in tasks {
            var _ := UpdateTask(id.value, changes, now);
          }
        case TaskStop(id) =>
          if id.Some? {
            var _ := StopTask(id.value, now);
          }
        case TaskOutput(id, output) =>
          if id.Some? {
            var _ := Append(id.value, output, now);
          }
        case Other =>
      }
      assert log[..|log|] == log;
    }
  }
}
