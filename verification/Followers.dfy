/**
 The supervisor of log followers: one task per container, attach and detach notices, and a done callback that may come
 after the container already has a new follower.

 Tasks are named by the order of their creation, which stands for their identity; `created` says which container each
 is for and whether it replays history.  `cancelled` are those told to cancel, `ended` those that are over.  Between two
 fetches of the container list everything is one step.
 */
module Followers {
  type Id = string

  datatype Notice = Notice(id: Id, started: bool)

  datatype Follower = Follower(id: Id, replay: bool)

  /** Every task there ever was. */
  datatype Jobs = Jobs(created: seq<Follower>, cancelled: set<nat>, ended: set<nat>)

  datatype State = State(tasks: map<Id, nat>, attached: set<Id>, jobs: Jobs, notices: seq<Notice>)

  const EMPTY: State := State(map[], {}, Jobs([], {}, {}), [])

  datatype Action =
    | Reconcile(stops: seq<Id>, servable: seq<Id>)
    | FetchFails
    | Ends(task: nat)
    | Forget(task: nat)

  // Steps
  // --------------------------------------------------------------------------------------------

  function Start(s: State, id: Id, notify: bool): State {
    if id == "" || id in s.tasks then s
    else
      State(s.tasks[id := |s.jobs.created|],
            s.attached + {id},
            s.jobs.(created := s.jobs.created + [Follower(id, id !in s.attached)]),
            if notify && id !in s.attached then s.notices + [Notice(id, true)] else s.notices)
  }

  function Stop(s: State, id: Id): State {
    State(s.tasks - {id},
          s.attached - {id},
          if id in s.tasks then s.jobs.(cancelled := s.jobs.cancelled + {s.tasks[id]}) else s.jobs,
          s.notices + [Notice(id, false)])
  }

  function StartAll(s: State, ids: seq<Id>, notify: bool): State {
    if ids == [] then s else Start(StartAll(s, ids[..|ids| - 1], notify), ids[|ids| - 1], notify)
  }

  function StopAll(s: State, ids: seq<Id>): State {
    if ids == [] then s else Stop(StopAll(s, ids[..|ids| - 1]), ids[|ids| - 1])
  }

  function Elements(ids: seq<Id>): set<Id> {
    set id | id in ids
  }

  predicate Distinct(ids: seq<Id>) {
    forall i, j :: 0 <= i < j < |ids| ==> ids[i] != ids[j]
  }

  /** `stops` lists, in whatever order the set yields them, the attached containers that are no longer servable. */
  predicate Enabled(s: State, a: Action) {
    match a
    case Reconcile(stops, servable) =>
      "" !in servable && Distinct(stops) && Elements(stops) == s.attached - Elements(servable)
    case FetchFails => true
    case Ends(t) => t < |s.jobs.created| && t !in s.jobs.ended
    case Forget(t) => t < |s.jobs.created| && t in s.jobs.ended
  }

  function Next(s: State, a: Action): State
    requires Enabled(s, a)
  {
    match a
    case Reconcile(stops, servable) => StartAll(StopAll(s, stops), servable, true)
    case FetchFails => s
    case Ends(t) => s.(jobs := s.jobs.(ended := s.jobs.ended + {t}))
    case Forget(t) =>
      var id := s.jobs.created[t].id;
      if id in s.tasks && s.tasks[id] == t then s.(tasks := s.tasks - {id}) else s
  }

  ghost predicate Steps(s: State, actions: seq<Action>, t: State)
    decreases |actions|
  {
    if actions == [] then s == t
    else Enabled(s, actions[0]) && Steps(Next(s, actions[0]), actions[1..], t)
  }

  // The invariant
  // --------------------------------------------------------------------------------------------

  /** What the notices about one container say, in order: true for "started". */
  function About(notices: seq<Notice>, id: Id): seq<bool> {
    if notices == [] then []
    else
      var n := notices[|notices| - 1];
      About(notices[..|notices| - 1], id) + if n.id == id then [n.started] else []
  }

  predicate Alternates(saids: seq<bool>, first: bool) {
    forall i :: 0 <= i < |saids| ==> saids[i] == if i % 2 == 0 then first else !first
  }

  /**
   A container's notices alternate, the first one saying "stopped" if and only if it was seeded at launch, and together
   with the seed they tell whether it is attached now.
   */
  ghost predicate Told(s: State, id: Id, seeded: bool) {
    && Alternates(About(s.notices, id), !seeded)
    && (id in s.attached <==> (|About(s.notices, id)| % 2 == 0 <==> seeded))
  }

  /** The follower runs and nobody has told it to stop. */
  predicate Live(jobs: Jobs, t: nat) {
    t < |jobs.created| && t !in jobs.cancelled && t !in jobs.ended
  }

  /** Each handle is its own container's, and every live follower has one. */
  ghost predicate Owned(s: State) {
    && s.tasks.Keys <= s.attached
    && (forall id :: id in s.tasks ==> s.tasks[id] < |s.jobs.created| && s.jobs.created[s.tasks[id]].id == id)
    && (forall id :: id in s.tasks ==> s.tasks[id] !in s.jobs.cancelled)
    && (forall t: nat :: t in s.jobs.cancelled || t in s.jobs.ended ==> t < |s.jobs.created|)
    && (forall t: nat :: Live(s.jobs, t) ==>
          s.jobs.created[t].id in s.tasks && s.tasks[s.jobs.created[t].id] == t)
  }

  ghost predicate Inv(s: State, seeded: set<Id>) {
    Owned(s) && forall id :: Told(s, id, id in seeded)
  }

  /** A notice that changes whether the container is attached keeps every container's story true. */
  lemma Announce(s: State, t: State, n: Notice, seeded: set<Id>)
    requires forall id :: Told(s, id, id in seeded)
    requires t.notices == s.notices + [n]
    requires n.id in s.attached <==> !n.started
    requires t.attached == if n.started then s.attached + {n.id} else s.attached - {n.id}
    ensures forall id :: Told(t, id, id in seeded)
  {
    forall id
      ensures Told(t, id, id in seeded)
    {
      assert Told(s, id, id in seeded);
      assert t.notices[..|s.notices|] == s.notices;
      assert About(t.notices, id) == About(s.notices, id) + if n.id == id then [n.started] else [];
    }
  }

  lemma StartOwned(s: State, id: Id, notify: bool)
    requires Owned(s)
    ensures var t, added := Start(s, id, notify), if id == "" then {} else {id};
      Owned(t) && t.attached == s.attached + added && t.tasks.Keys == s.tasks.Keys + added
  {
  }

  lemma StartInv(s: State, id: Id, seeded: set<Id>)
    requires Inv(s, seeded)
    ensures Inv(Start(s, id, true), seeded)
  {
    var t := Start(s, id, true);
    StartOwned(s, id, true);
    if t.notices != s.notices {
      Announce(s, t, Notice(id, true), seeded);
    } else {
      assert t.attached == s.attached;
      forall other
        ensures Told(t, other, other in seeded)
      {
        assert Told(s, other, other in seeded);
      }
    }
  }

  lemma StopInv(s: State, id: Id, seeded: set<Id>)
    requires Inv(s, seeded) && id in s.attached
    ensures Inv(Stop(s, id), seeded)
  {
    Announce(s, Stop(s, id), Notice(id, false), seeded);
  }

  lemma {:induction false} StartAllInv(s: State, ids: seq<Id>, seeded: set<Id>)
    requires Inv(s, seeded) && "" !in ids
    ensures Inv(StartAll(s, ids, true), seeded)
    ensures StartAll(s, ids, true).attached == s.attached + Elements(ids)
    ensures StartAll(s, ids, true).tasks.Keys == s.tasks.Keys + Elements(ids)
  {
    if ids != [] {
      var init, last := ids[..|ids| - 1], ids[|ids| - 1];
      assert ids == init + [last];
      StartAllInv(s, init, seeded);
      StartOwned(StartAll(s, init, true), last, true);
      StartInv(StartAll(s, init, true), last, seeded);
    }
  }

  lemma {:induction false} StopAllInv(s: State, ids: seq<Id>, seeded: set<Id>)
    requires Inv(s, seeded) && Distinct(ids) && Elements(ids) <= s.attached
    ensures Inv(StopAll(s, ids), seeded)
    ensures StopAll(s, ids).attached == s.attached - Elements(ids)
    ensures StopAll(s, ids).tasks.Keys == s.tasks.Keys - Elements(ids)
  {
    if ids != [] {
      var init, last := ids[..|ids| - 1], ids[|ids| - 1];
      assert ids == init + [last];
      assert last !in init;
      StopAllInv(s, init, seeded);
      assert last in Elements(ids);
      StopInv(StopAll(s, init), last, seeded);
    }
  }

  /** Every step keeps the invariant. */
  lemma StepInv(s: State, a: Action, seeded: set<Id>)
    requires Inv(s, seeded) && Enabled(s, a)
    ensures Inv(Next(s, a), seeded)
  {
    match a
    case Reconcile(stops, servable) =>
      StopAllInv(s, stops, seeded);
      StartAllInv(StopAll(s, stops), servable, seeded);
    case FetchFails =>
    case _ =>
      forall id
        ensures Told(Next(s, a), id, id in seeded)
      {
        assert Told(s, id, id in seeded);
      }
  }

  lemma {:induction false} RunInv(s: State, actions: seq<Action>, t: State, seeded: set<Id>)
    requires Inv(s, seeded) && Steps(s, actions, t)
    ensures Inv(t, seeded)
    decreases |actions|
  {
    if actions != [] {
      StepInv(s, actions[0], seeded);
      RunInv(Next(s, actions[0]), actions[1..], t, seeded);
    }
  }

  lemma {:induction false} SeedInv(ids: seq<Id>)
    ensures Inv(StartAll(EMPTY, ids, false), StartAll(EMPTY, ids, false).attached)
    ensures StartAll(EMPTY, ids, false).attached == Elements(ids) - {""}
    ensures StartAll(EMPTY, ids, false).tasks.Keys == Elements(ids) - {""}
    ensures StartAll(EMPTY, ids, false).notices == []
  {
    if ids != [] {
      var init, last := ids[..|ids| - 1], ids[|ids| - 1];
      assert ids == init + [last];
      SeedInv(init);
      StartOwned(StartAll(EMPTY, init, false), last, false);
      assert Elements(ids) == Elements(init) + {last};
    }
    assert forall id :: About([], id) == [];
  }

  // What holds over every run
  // --------------------------------------------------------------------------------------------

  /**
   From a silent seed on, every followed container is attached, and each container's notices strictly alternate,
   beginning with "stopped" for a seeded one and "started" for any other.
   */
  lemma NoticesAlternate(ids: seq<Id>, actions: seq<Action>, s: State)
    requires Steps(StartAll(EMPTY, ids, false), actions, s)
    ensures s.tasks.Keys <= s.attached
    ensures forall id :: Told(s, id, id != "" && id in ids)
  {
    SeedInv(ids);
    var seeded := Elements(ids) - {""};
    RunInv(StartAll(EMPTY, ids, false), actions, s, seeded);
    forall id
      ensures Told(s, id, id != "" && id in ids)
    {
      assert Told(s, id, id in seeded);
    }
  }

  /** A successful reconcile leaves exactly the servable containers attached, each with a follower of its own. */
  lemma ReconcileAligns(ids: seq<Id>, actions: seq<Action>, s: State, stops: seq<Id>, servable: seq<Id>)
    requires Steps(StartAll(EMPTY, ids, false), actions, s) && Enabled(s, Reconcile(stops, servable))
    ensures var t := Next(s, Reconcile(stops, servable));
      && t.attached == Elements(servable) && t.tasks.Keys == Elements(servable)
      && (forall id :: id in t.tasks ==> t.tasks[id] < |t.jobs.created| && t.jobs.created[t.tasks[id]].id == id)
  {
    SeedInv(ids);
    var seeded := Elements(ids) - {""};
    RunInv(StartAll(EMPTY, ids, false), actions, s, seeded);
    StopAllInv(s, stops, seeded);
    StartAllInv(StopAll(s, stops), servable, seeded);
  }

  /** At any time a container has at most one follower that runs and was not told to stop, and its handle is kept. */
  lemma OneLiveFollower(ids: seq<Id>, actions: seq<Action>, s: State)
    requires Steps(StartAll(EMPTY, ids, false), actions, s)
    ensures forall i: nat, j: nat ::
              Live(s.jobs, i) && Live(s.jobs, j) && s.jobs.created[i].id == s.jobs.created[j].id ==> i == j
    ensures forall i: nat :: Live(s.jobs, i) ==>
              var id := s.jobs.created[i].id; id in s.attached && id in s.tasks && s.tasks[id] == i
  {
    SeedInv(ids);
    RunInv(StartAll(EMPTY, ids, false), actions, s, Elements(ids) - {""});
  }

  /**
   What was followed stays followed by the same task; what was not gets exactly one, the last created for it, which
   replays history if and only if the container was not attached; nothing is cancelled.
   */
  ghost predicate StartsOnly(s: State, ids: set<Id>, t: State) {
    && s.jobs.created <= t.jobs.created && t.jobs == s.jobs.(created := t.jobs.created)
    && (forall id :: id in s.tasks ==> id in t.tasks && t.tasks[id] == s.tasks[id])
    && (forall id :: id in ids && id !in s.tasks ==> id in t.tasks && |s.jobs.created| <= t.tasks[id])
    && (forall k :: |s.jobs.created| <= k < |t.jobs.created| ==>
          var f := t.jobs.created[k];
          && f.id in ids && f.id !in s.tasks && f.id in t.tasks && t.tasks[f.id] == k
          && (f.replay <==> f.id !in s.attached))
  }

  lemma StartOnlyOne(s: State, ids: set<Id>, m: State, id: Id, notify: bool)
    requires StartsOnly(s, ids, m) && id != "" && m.attached == s.attached + ids && s.tasks.Keys <= s.attached
    requires m.tasks.Keys == s.tasks.Keys + ids
    ensures StartsOnly(s, ids + {id}, Start(m, id, notify))
  {
  }

  lemma {:induction false} StartAllOnly(s: State, ids: seq<Id>, notify: bool)
    requires "" !in ids && s.tasks.Keys <= s.attached
    ensures StartsOnly(s, Elements(ids), StartAll(s, ids, notify))
    ensures StartAll(s, ids, notify).attached == s.attached + Elements(ids)
    ensures StartAll(s, ids, notify).tasks.Keys == s.tasks.Keys + Elements(ids)
  {
    if ids != [] {
      var init, last := ids[..|ids| - 1], ids[|ids| - 1];
      assert ids == init + [last];
      assert Elements(ids) == Elements(init) + {last};
      StartAllOnly(s, init, notify);
      StartOnlyOne(s, Elements(init), StartAll(s, init, notify), last, notify);
    }
  }

  /** The tasks that follow the given containers. */
  function TasksOf(s: State, ids: set<Id>): set<nat> {
    set id | id in ids && id in s.tasks :: s.tasks[id]
  }

  lemma OneMoreTask(s: State, ids: set<Id>, id: Id)
    ensures TasksOf(s, ids + {id}) == TasksOf(s, ids) + if id in s.tasks then {s.tasks[id]} else {}
  {
  }

  lemma {:induction false} StopAllOnly(s: State, ids: seq<Id>)
    requires Distinct(ids)
    ensures var t := StopAll(s, ids);
      && t.tasks == s.tasks - Elements(ids) && t.attached == s.attached - Elements(ids)
      && t.jobs == s.jobs.(cancelled := s.jobs.cancelled + TasksOf(s, Elements(ids)))
  {
    if ids != [] {
      var init, last := ids[..|ids| - 1], ids[|ids| - 1];
      assert ids == init + [last];
      assert last !in init && Elements(ids) == Elements(init) + {last};
      StopAllOnly(s, init);
      OneMoreTask(s, Elements(init), last);
    }
  }

  /**
   A reconcile keeps the follower of every servable container that has one, starts exactly one for each that has none,
   replaying history only where the container was not attached, and cancels exactly the followers of the others.
   */
  lemma ReconcileKeepsFollowers(ids: seq<Id>, actions: seq<Action>, s: State, stops: seq<Id>, servable: seq<Id>)
    requires Steps(StartAll(EMPTY, ids, false), actions, s) && Enabled(s, Reconcile(stops, servable))
    ensures var t := Next(s, Reconcile(stops, servable));
      && s.jobs.created <= t.jobs.created && t.jobs.ended == s.jobs.ended
      && t.jobs.cancelled == s.jobs.cancelled + TasksOf(s, s.attached - Elements(servable))
      && (forall id :: id in servable && id in s.tasks ==> id in t.tasks && t.tasks[id] == s.tasks[id])
      && (forall id :: id in servable && id !in s.tasks ==> id in t.tasks && |s.jobs.created| <= t.tasks[id])
      && (forall k :: |s.jobs.created| <= k < |t.jobs.created| ==>
            var f := t.jobs.created[k];
            && f.id in servable && f.id !in s.tasks && f.id in t.tasks && t.tasks[f.id] == k
            && (f.replay <==> f.id !in s.attached))
  {
    SeedInv(ids);
    RunInv(StartAll(EMPTY, ids, false), actions, s, Elements(ids) - {""});
    StopAllOnly(s, stops);
    StartAllOnly(StopAll(s, stops), servable, true);
  }

  lemma AboutOneMore(notices: seq<Notice>, n: Notice, id: Id)
    ensures About(notices + [n], id) == About(notices, id) + if n.id == id then [n.started] else []
  {
    assert (notices + [n])[..|notices|] == notices;
  }

  lemma {:induction false} StartAllQuiet(s: State, ids: seq<Id>, id: Id)
    requires id in s.attached
    ensures id in StartAll(s, ids, true).attached
    ensures About(StartAll(s, ids, true).notices, id) == About(s.notices, id)
  {
    if ids != [] {
      var init, last := ids[..|ids| - 1], ids[|ids| - 1];
      StartAllQuiet(s, init, id);
      AboutOneMore(StartAll(s, init, true).notices, Notice(last, true), id);
    }
  }

  lemma {:induction false} StopAllQuiet(s: State, ids: seq<Id>, id: Id)
    requires id in s.attached && id !in ids
    ensures id in StopAll(s, ids).attached && About(StopAll(s, ids).notices, id) == About(s.notices, id)
  {
    if ids != [] {
      var init, last := ids[..|ids| - 1], ids[|ids| - 1];
      StopAllQuiet(s, init, id);
      AboutOneMore(StopAll(s, init).notices, Notice(last, false), id);
    }
  }

  /**
   A stream that ended by itself is forgotten by its callback and opened again by the next reconcile that finds its
   container servable: by one new follower, without history and without a notice.
   */
  lemma EndedIsReopened(ids: seq<Id>, actions: seq<Action>, s: State, id: Id, n: State, stops: seq<Id>,
                        servable: seq<Id>, t: State)
    requires Steps(StartAll(EMPTY, ids, false), actions, s) && id in s.tasks && Enabled(s, Ends(s.tasks[id]))
    requires Enabled(Next(s, Ends(s.tasks[id])), Forget(s.tasks[id])) ==>
               n == Next(Next(s, Ends(s.tasks[id])), Forget(s.tasks[id]))
    requires Enabled(n, Reconcile(stops, servable)) && id in servable && t == Next(n, Reconcile(stops, servable))
    ensures Enabled(Next(s, Ends(s.tasks[id])), Forget(s.tasks[id])) && id !in n.tasks && id in n.attached
    ensures id in t.tasks && s.tasks[id] < t.tasks[id] < |t.jobs.created| && !t.jobs.created[t.tasks[id]].replay
    ensures About(t.notices, id) == About(s.notices, id)
  {
    SeedInv(ids);
    var seeded := Elements(ids) - {""};
    RunInv(StartAll(EMPTY, ids, false), actions, s, seeded);
    var m := Next(s, Ends(s.tasks[id]));
    StepInv(s, Ends(s.tasks[id]), seeded);
    StepInv(m, Forget(s.tasks[id]), seeded);
    StopAllOnly(n, stops);
    StartAllOnly(StopAll(n, stops), servable, true);
    assert id in Elements(servable) && id !in Elements(stops);
    StopAllQuiet(n, stops, id);
    StartAllQuiet(StopAll(n, stops), servable, id);
    assert n.tasks == s.tasks - {id};
    StepInv(n, Reconcile(stops, servable), seeded);
  }

  /** A finished follower's callback, however late, removes that follower's entry and no other. */
  lemma ForgetRemovesExactly(ids: seq<Id>, actions: seq<Action>, s: State, t: nat)
    requires Steps(StartAll(EMPTY, ids, false), actions, s) && Enabled(s, Forget(t))
    ensures Next(s, Forget(t)).tasks == map id | id in s.tasks && s.tasks[id] != t :: s.tasks[id]
    ensures Next(s, Forget(t)).attached == s.attached && Next(s, Forget(t)).notices == s.notices
  {
    SeedInv(ids);
    RunInv(StartAll(EMPTY, ids, false), actions, s, Elements(ids) - {""});
  }

  lemma OneLessLeft(ids: set<Id>, left: set<Id>, stops: seq<Id>, id: Id)
    requires left <= ids && id in left && Elements(stops) == ids - left
    ensures id !in Elements(stops) && Elements(stops) + {id} == ids - (left - {id})
  {
  }

  lemma OneMoreStop(s: State, stops: seq<Id>, id: Id)
    requires Distinct(stops) && id !in Elements(stops)
    ensures Distinct(stops + [id]) && Elements(stops + [id]) == Elements(stops) + {id}
    ensures StopAll(s, stops + [id]) == Stop(StopAll(s, stops), id)
  {
    assert (stops + [id])[..|stops|] == stops;
    assert forall i :: 0 <= i < |stops| ==> stops[i] in Elements(stops);
  }

  // The object
  // --------------------------------------------------------------------------------------------

  class ContainerFollowers {
    var tasks: map<Id, nat>
    var attached: set<Id>
    var created: seq<Follower>
    ghost var cancelled: set<nat>
    ghost var ended: set<nat>
    var notices: seq<Notice>

    ghost function View(): State
      reads this
    {
      State(tasks, attached, Jobs(created, cancelled, ended), notices)
    }

    constructor ()
      ensures View() == EMPTY
    {
      tasks, attached, notices := map[], {}, [];
      created, cancelled, ended := [], {}, {};
    }

    method Seed(ids: seq<Id>)
      modifies this
      ensures View() == StartAll(old(View()), ids, false)
    {
      StartEach(ids, false);
    }

    /** After a successful fetch: detach what left the list, then attach what is on it. */
    method Reconcile(servable: seq<Id>) returns (ghost stops: seq<Id>)
      requires "" !in servable
      modifies this
      ensures Enabled(old(View()), Action.Reconcile(stops, servable))
      ensures View() == Next(old(View()), Action.Reconcile(stops, servable))
    {
      stops := StopEach(attached - set id | id in servable);
      StartEach(servable, true);
    }

    method StartEach(ids: seq<Id>, notify: bool)
      modifies this
      ensures View() == StartAll(old(View()), ids, notify)
    {
      for i := 0 to |ids|
        invariant View() == StartAll(old(View()), ids[..i], notify)
      {
        assert ids[..i + 1][..i] == ids[..i];
        StartOne(ids[i], notify);
      }
      assert ids[..|ids|] == ids;
    }

    method StopEach(ids: set<Id>) returns (ghost stops: seq<Id>)
      modifies this
      ensures Distinct(stops) && Elements(stops) == ids
      ensures View() == StopAll(old(View()), stops)
    {
      var left := ids;
      stops := [];
      while left != {}
        invariant left <= ids && Distinct(stops) && Elements(stops) == ids - left
        invariant View() == StopAll(old(View()), stops)
        decreases |left|
      {
        var id :| id in left;
        StopOne(id);
        OneLessLeft(ids, left, stops, id);
        OneMoreStop(old(View()), stops, id);
        stops := stops + [id];
        left := left - {id};
      }
    }

    method StartOne(id: Id, notify: bool)
      modifies this
      ensures View() == Start(old(View()), id, notify)
    {
      if id == "" || id in tasks {
        return;
      }
      var firstAttach := id !in attached;
      if notify && firstAttach {
        notices := notices + [Notice(id, true)];
      }
      attached := attached + {id};
      tasks := tasks[id := |created|];
      created := created + [Follower(id, firstAttach)];
    }

    method StopOne(id: Id)
      modifies this
      ensures View() == Stop(old(View()), id)
    {
      attached := attached - {id};
      if id in tasks {
        cancelled := cancelled + {tasks[id]};
        tasks := tasks - {id};
      }
      notices := notices + [Notice(id, false)];
    }

    method ForgetTask(id: Id, finished: nat)
      requires finished < |created| && finished in ended && created[finished].id == id
      modifies this
      ensures View() == Next(old(View()), Forget(finished))
    {
      if id in tasks && tasks[id] == finished {
        tasks := tasks - {id};
      }
    }
  }
}
