/**
 The daemon's map of loaded workspaces: lazy loads that callers share and cannot abort, and evictions that wait for
 the load they might otherwise lose to.

 Builds are numbered in the order they begin, so "began before" is a comparison of numbers.  Whether a cached service
 is still current depends on the file system and is an input of each lookup.
 */
module WorkspaceLoads {
  import opened Wrappers

  type Id = string

  datatype Status = Building | Stored | Failed

  datatype Build = Build(id: Id, status: Status, calledBack: bool)

  /** An eviction: `since` is how many builds had begun when it began. */
  datatype Eviction = Eviction(id: Id, since: nat, phase: Phase)

  datatype Phase = Waiting(load: nat) | Popped | Returned

  datatype State = State(
    workspaces: map<Id, nat>,      // the build each cached service came from
    loads: map<Id, nat>,
    builds: seq<Build>,
    callers: map<nat, nat>,        // lookups awaiting a load
    evictions: seq<Eviction>)

  const INITIAL: State := State(map[], map[], [], map[], [])

  datatype Action =
    | Lookup(caller: nat, id: Id, isCurrent: bool)
    | CallerLeaves(caller: nat)    // served, or cancelled
    | BuildStores(build: nat)
    | BuildFails(build: nat)
    | FinishLoad(build: nat)       // the load's done callback
    | EvictBegins(id: Id)
    | EvictResumes(eviction: nat)
    | EvictReturns(eviction: nat)

  /** What a lookup comes back with at once, or the load it waits for. */
  datatype Found = Cached(build: nat) | Joined(build: nat) | Began(build: nat)

  function Find(s: State, id: Id, isCurrent: bool): Found {
    if id in s.loads then Joined(s.loads[id])
    else if id in s.workspaces && isCurrent then Cached(s.workspaces[id])
    else Began(|s.builds|)
  }

  predicate InFlight(s: State, b: nat) {
    b < |s.builds| && s.builds[b].status.Building?
  }

  predicate Enabled(s: State, a: Action) {
    match a
    case Lookup(c, _, _) => c !in s.callers
    case CallerLeaves(c) => c in s.callers
    case BuildStores(b) => InFlight(s, b)
    case BuildFails(b) => InFlight(s, b)
    case FinishLoad(b) => b < |s.builds| && !s.builds[b].status.Building? && !s.builds[b].calledBack
    case EvictBegins(_) => true
    case EvictResumes(e) =>
      e < |s.evictions| && s.evictions[e].phase.Waiting? && !InFlight(s, s.evictions[e].phase.load)
    case EvictReturns(e) => e < |s.evictions| && s.evictions[e].phase.Popped?
  }

  function SetStatus(s: State, b: nat, status: Status): State
    requires b < |s.builds|
  {
    s.(builds := s.builds[b := s.builds[b].(status := status)])
  }

  function SetPhase(s: State, e: nat, phase: Phase): State
    requires e < |s.evictions|
  {
    s.(evictions := s.evictions[e := s.evictions[e].(phase := phase)])
  }

  function Next(s: State, a: Action): State
    requires Enabled(s, a)
  {
    match a
    case Lookup(c, id, isCurrent) =>
      (match Find(s, id, isCurrent)
       case Cached(_) => s
       case Joined(b) => s.(callers := s.callers[c := b])
       case Began(b) =>
         s.(builds := s.builds + [Build(id, Building, false)], loads := s.loads[id := b], callers := s.callers[c := b]))
    case CallerLeaves(c) => s.(callers := s.callers - {c})
    case BuildStores(b) => SetStatus(s, b, Stored).(workspaces := s.workspaces[s.builds[b].id := b])
    case BuildFails(b) => SetStatus(s, b, Failed)
    case FinishLoad(b) =>
      var id := s.builds[b].id;
      s.(builds := s.builds[b := s.builds[b].(calledBack := true)],
         loads := if id in s.loads && s.loads[id] == b then s.loads - {id} else s.loads)
    case EvictBegins(id) =>
      if id in s.loads && InFlight(s, s.loads[id]) then
        s.(evictions := s.evictions + [Eviction(id, |s.builds|, Waiting(s.loads[id]))])
      else
        s.(evictions := s.evictions + [Eviction(id, |s.builds|, Popped)], workspaces := s.workspaces - {id})
    case EvictResumes(e) => SetPhase(s, e, Popped).(workspaces := s.workspaces - {s.evictions[e].id})
    case EvictReturns(e) => SetPhase(s, e, Returned)
  }

  ghost predicate Steps(s: State, actions: seq<Action>, t: State)
    decreases |actions|
  {
    if actions == [] then s == t
    else Enabled(s, actions[0]) && Steps(Next(s, actions[0]), actions[1..], t)
  }

  // The invariant
  // --------------------------------------------------------------------------------------------

  ghost predicate Loads(s: State) {
    && (forall id :: id in s.loads ==>
          s.loads[id] < |s.builds| && s.builds[s.loads[id]].id == id && !s.builds[s.loads[id]].calledBack)
    && (forall b :: 0 <= b < |s.builds| && s.builds[b].status.Building? ==> !s.builds[b].calledBack)
    && (forall b :: 0 <= b < |s.builds| && !s.builds[b].calledBack ==>
          s.builds[b].id in s.loads && s.loads[s.builds[b].id] == b)
    && (forall id :: id in s.workspaces ==>
          s.workspaces[id] < |s.builds| && s.builds[s.workspaces[id]].id == id
          && s.builds[s.workspaces[id]].status.Stored?)
  }

  /** An eviction that waits does so for the only older build under way; one that popped has none left behind. */
  ghost predicate Effective(s: State, v: Eviction) {
    && v.since <= |s.builds|
    && (v.phase.Waiting? ==>
          forall b :: 0 <= b < v.since && s.builds[b].id == v.id && s.builds[b].status.Building? ==> b == v.phase.load)
    && (!v.phase.Waiting? ==>
          && (forall b :: 0 <= b < v.since && s.builds[b].id == v.id ==> !s.builds[b].status.Building?)
          && (v.id in s.workspaces ==> s.workspaces[v.id] >= v.since))
  }

  ghost predicate Inv(s: State) {
    Loads(s) && forall e :: 0 <= e < |s.evictions| ==> Effective(s, s.evictions[e])
  }

  lemma BeganLoads(s: State, c: nat, id: Id, isCurrent: bool)
    requires Loads(s) && Find(s, id, isCurrent).Began? && c !in s.callers
    ensures Loads(Next(s, Lookup(c, id, isCurrent)))
  {
    var t := Next(s, Lookup(c, id, isCurrent));
    assert forall b :: 0 <= b < |s.builds| ==> t.builds[b] == s.builds[b];
  }

  lemma FinishLoads(s: State, b: nat)
    requires Loads(s) && Enabled(s, FinishLoad(b))
    ensures Loads(Next(s, FinishLoad(b)))
  {
    var t := Next(s, FinishLoad(b));
    assert forall c :: 0 <= c < |s.builds| && c != b ==> t.builds[c] == s.builds[c];
    assert forall id :: id in t.loads ==> t.loads[id] == s.loads[id] != b;
  }

  lemma StoreLoads(s: State, b: nat)
    requires Loads(s) && Enabled(s, BuildStores(b))
    ensures Loads(Next(s, BuildStores(b)))
  {
    var t := Next(s, BuildStores(b));
    assert forall c :: 0 <= c < |s.builds| && c != b ==> t.builds[c] == s.builds[c];
    assert t.builds[b].id == s.builds[b].id && t.builds[b].calledBack == s.builds[b].calledBack;
  }

  lemma FailLoads(s: State, b: nat)
    requires Loads(s) && Enabled(s, BuildFails(b))
    ensures Loads(Next(s, BuildFails(b)))
  {
    var t := Next(s, BuildFails(b));
    assert forall c :: 0 <= c < |s.builds| && c != b ==> t.builds[c] == s.builds[c];
    assert t.builds[b].id == s.builds[b].id && t.builds[b].calledBack == s.builds[b].calledBack;
  }

  lemma StepLoads(s: State, a: Action)
    requires Loads(s) && Enabled(s, a)
    ensures Loads(Next(s, a))
  {
    match a
    case Lookup(c, id, isCurrent) => if Find(s, id, isCurrent).Began? { BeganLoads(s, c, id, isCurrent); }
    case FinishLoad(b) => FinishLoads(s, b);
    case BuildStores(b) => StoreLoads(s, b);
    case BuildFails(b) => FailLoads(s, b);
    case _ =>
  }

  /** An eviction stays effective as builds begin and end, if a service stored for its workspace is not outdated. */
  lemma StaysEffective(s: State, t: State, v: Eviction)
    requires Effective(s, v) && |s.builds| <= |t.builds|
    requires forall b :: 0 <= b < |s.builds| ==>
               t.builds[b].id == s.builds[b].id && (t.builds[b].status.Building? ==> s.builds[b].status.Building?)
    requires !v.phase.Waiting? && v.id in t.workspaces ==> t.workspaces[v.id] >= v.since
    ensures Effective(t, v)
  {
  }

  /** A build that stores is outdated by no eviction that has popped. */
  lemma StoreEffective(s: State, b: nat, v: Eviction)
    requires Loads(s) && Effective(s, v) && Enabled(s, BuildStores(b))
    ensures Effective(Next(s, BuildStores(b)), v)
  {
    assert !v.phase.Waiting? && s.builds[b].id == v.id ==> b >= v.since;
    StaysEffective(s, Next(s, BuildStores(b)), v);
  }

  lemma BeginEffective(s: State, id: Id)
    requires Loads(s)
    ensures var t := Next(s, EvictBegins(id));
      |t.evictions| == |s.evictions| + 1 && Effective(t, t.evictions[|s.evictions|])
  {
  }

  lemma ResumeEffective(s: State, e: nat)
    requires Loads(s) && Enabled(s, EvictResumes(e)) && Effective(s, s.evictions[e])
    ensures Effective(Next(s, EvictResumes(e)), Next(s, EvictResumes(e)).evictions[e])
  {
  }

  lemma StepEffective(s: State, a: Action, e: nat)
    requires Loads(s) && Enabled(s, a) && e < |Next(s, a).evictions|
    requires e < |s.evictions| ==> Effective(s, s.evictions[e])
    ensures Effective(Next(s, a), Next(s, a).evictions[e])
  {
    if e == |s.evictions| {
      assert a.EvictBegins?;
      BeginEffective(s, a.id);
    } else if a == EvictResumes(e) {
      ResumeEffective(s, e);
    } else if a.BuildStores? {
      StoreEffective(s, a.build, s.evictions[e]);
    } else {
      OtherEffective(s, a, e);
    }
  }

  lemma OtherEffective(s: State, a: Action, e: nat)
    requires Loads(s) && Enabled(s, a) && e < |s.evictions| && Effective(s, s.evictions[e])
    requires a != EvictResumes(e) && !a.BuildStores?
    ensures Effective(Next(s, a), Next(s, a).evictions[e])
  {
    var t, v := Next(s, a), s.evictions[e];
    if a == EvictReturns(e) {
      assert t.evictions[e] == v.(phase := Returned) && t.builds == s.builds && t.workspaces == s.workspaces;
    } else {
      assert t.evictions[e] == v;
      StaysEffective(s, t, v);
    }
  }

  /** Every step keeps the invariant. */
  lemma StepInv(s: State, a: Action)
    requires Inv(s) && Enabled(s, a)
    ensures Inv(Next(s, a))
  {
    StepLoads(s, a);
    forall e | 0 <= e < |Next(s, a).evictions|
      ensures Effective(Next(s, a), Next(s, a).evictions[e])
    {
      assert e < |s.evictions| ==> Effective(s, s.evictions[e]);
      StepEffective(s, a, e);
    }
  }

  lemma {:induction false} RunInv(s: State, actions: seq<Action>, t: State)
    requires Inv(s) && Steps(s, actions, t)
    ensures Inv(t)
    decreases |actions|
  {
    if actions != [] {
      StepInv(s, actions[0]);
      RunInv(Next(s, actions[0]), actions[1..], t);
    }
  }

  // What holds over every run
  // --------------------------------------------------------------------------------------------

  /** At most one build per workspace is under way, and every lookup while it runs joins that one. */
  lemma OneBuildPerWorkspace(actions: seq<Action>, s: State)
    requires Steps(INITIAL, actions, s)
    ensures forall a, b :: 0 <= a < b < |s.builds| && InFlight(s, a) && InFlight(s, b) ==>
              s.builds[a].id != s.builds[b].id
    ensures forall b: nat, isCurrent :: InFlight(s, b) ==> Find(s, s.builds[b].id, isCurrent) == Joined(b)
  {
    RunInv(INITIAL, actions, s);
  }

  /** The build's done callback has not run yet. */
  predicate Registered(s: State, b: nat, id: Id) {
    b < |s.builds| && s.builds[b].id == id && !s.builds[b].calledBack
  }

  /**
   A lookup joins the one load of its workspace whose done callback has not run; if there is none it gets the cached
   service if that is current, and begins a load of its own otherwise.  Whatever it gets is its own workspace's, and
   unless it is served at once it waits for it.
   */
  lemma LookupServes(actions: seq<Action>, s: State, caller: nat, id: Id, isCurrent: bool, t: State)
    requires Steps(INITIAL, actions, s) && Enabled(s, Lookup(caller, id, isCurrent))
    requires t == Next(s, Lookup(caller, id, isCurrent))
    ensures var found := Find(s, id, isCurrent);
      && (found.Joined? <==> exists b: nat :: Registered(s, b, id))
      && (found.Joined? ==> forall b: nat :: Registered(s, b, id) <==> b == found.build)
      && (found.Cached? <==> !found.Joined? && isCurrent && id in s.workspaces)
      && (found.Cached? ==> found.build < |s.builds| && s.builds[found.build].status.Stored? && t == s)
      && (found.Began? ==> found.build == |s.builds| && InFlight(t, found.build))
      && found.build < |t.builds| && t.builds[found.build].id == id
      && (!found.Cached? ==> t.callers == s.callers[caller := found.build])
      && (!found.Began? ==> t.builds == s.builds && t.workspaces == s.workspaces)
  {
    RunInv(INITIAL, actions, s);
    if id in s.loads {
      assert Registered(s, s.loads[id], id);
    }
  }

  /** The action puts another service in the place of the workspace's, or takes it away. */
  predicate Displaces(t: State, a: Action, id: Id) {
    match a
    case BuildStores(b) => b < |t.builds| && t.builds[b].id == id
    case EvictBegins(i) => i == id
    case EvictResumes(e) => e < |t.evictions| && t.evictions[e].id == id
    case _ => false
  }

  lemma StepKeepsNames(s: State, a: Action, id: Id)
    requires Enabled(s, a)
    ensures var t := Next(s, a);
      && |s.builds| <= |t.builds| && |s.evictions| <= |t.evictions|
      && (forall b :: 0 <= b < |s.builds| ==> t.builds[b].id == s.builds[b].id)
      && (forall b :: 0 <= b < |s.builds| && s.builds[b].calledBack ==> t.builds[b].calledBack)
      && (forall e :: 0 <= e < |s.evictions| ==> t.evictions[e].id == s.evictions[e].id)
  {
  }

  lemma StepKeepsCached(s: State, a: Action, id: Id)
    requires Enabled(s, a) && !Displaces(s, a, id) && id in s.workspaces
    ensures id in Next(s, a).workspaces && Next(s, a).workspaces[id] == s.workspaces[id]
  {
  }

  lemma {:induction false} RunKeepsCached(s: State, actions: seq<Action>, t: State, id: Id)
    requires Steps(s, actions, t) && id in s.workspaces
    requires forall i :: 0 <= i < |actions| ==> !Displaces(t, actions[i], id)
    ensures |s.builds| <= |t.builds| && |s.evictions| <= |t.evictions|
    ensures forall b :: 0 <= b < |s.builds| ==> t.builds[b].id == s.builds[b].id
    ensures forall e :: 0 <= e < |s.evictions| ==> t.evictions[e].id == s.evictions[e].id
    ensures id in t.workspaces && t.workspaces[id] == s.workspaces[id]
    decreases |actions|
  {
    if actions != [] {
      var n := Next(s, actions[0]);
      NamesKept(n, actions[1..], t, id);
      StepKeepsNames(s, actions[0], id);
      assert !Displaces(t, actions[0], id);
      StepKeepsCached(s, actions[0], id);
      assert forall i :: 0 <= i < |actions[1..]| ==> actions[1..][i] == actions[i + 1];
      RunKeepsCached(n, actions[1..], t, id);
    }
  }

  lemma {:induction false} NamesKept(s: State, actions: seq<Action>, t: State, id: Id)
    requires Steps(s, actions, t)
    ensures |s.builds| <= |t.builds| && |s.evictions| <= |t.evictions|
    ensures forall b :: 0 <= b < |s.builds| ==> t.builds[b].id == s.builds[b].id
    ensures forall e :: 0 <= e < |s.evictions| ==> t.evictions[e].id == s.evictions[e].id
    decreases |actions|
  {
    if actions != [] {
      StepKeepsNames(s, actions[0], id);
      NamesKept(Next(s, actions[0]), actions[1..], t, id);
    }
  }

  /**
   A service that was stored is what lookups get, for as long as it is current and neither replaced nor evicted, from
   its load's callback on.
   */
  lemma StoredIsServed(s: State, b: nat, n: State, actions: seq<Action>, t: State)
    requires Inv(s) && Enabled(s, BuildStores(b)) && n == Next(s, BuildStores(b)) && Steps(n, actions, t)
    requires forall i :: 0 <= i < |actions| ==> !Displaces(t, actions[i], s.builds[b].id)
    ensures var id := s.builds[b].id;
      && id in t.workspaces && t.workspaces[id] == b
      && (id !in t.loads ==> Find(t, id, true) == Cached(b) && Find(t, id, false) == Began(|t.builds|))
  {
    RunKeepsCached(n, actions, t, s.builds[b].id);
  }

  /**
   When a load has stored or failed its callback may run, and after that a lookup gets what is cached, if it is current,
   or begins anew; a load that failed leaves the map as it was.
   */
  lemma LoadConcludes(s: State, b: nat, stores: bool, n: State, t: State, isCurrent: bool)
    requires Inv(s) && InFlight(s, b) && n == Next(s, if stores then BuildStores(b) else BuildFails(b))
    requires Enabled(n, FinishLoad(b)) ==> t == Next(n, FinishLoad(b))
    ensures Enabled(n, FinishLoad(b))
    ensures !stores ==> n.workspaces == s.workspaces
    ensures t.workspaces == n.workspaces
    ensures var id := s.builds[b].id;
      Find(t, id, isCurrent) ==
        if isCurrent && stores then Cached(b)
        else if isCurrent && id in s.workspaces then Cached(s.workspaces[id])
        else Began(|s.builds|)
  {
  }

  /**
   An eviction pops at once if no load of its workspace is under way, and otherwise when that one has concluded,
   whatever has happened since; it takes away that workspace's service and no other.
   */
  lemma EvictionPops(s: State, id: Id, e: nat)
    requires Inv(s)
    ensures var t := Next(s, EvictBegins(id));
      && |t.evictions| == |s.evictions| + 1 && t.evictions[|s.evictions|].id == id
      && (if exists b: nat :: InFlight(s, b) && s.builds[b].id == id
          then t.workspaces == s.workspaces && t.evictions[|s.evictions|].phase.Waiting?
          else t.workspaces == s.workspaces - {id} && t.evictions[|s.evictions|].phase.Popped?)
    ensures e < |s.evictions| && s.evictions[e].phase.Waiting? ==>
              && (Enabled(s, EvictResumes(e)) <==> !InFlight(s, s.evictions[e].phase.load))
              && (Enabled(s, EvictResumes(e)) ==>
                    && |Next(s, EvictResumes(e)).evictions| == |s.evictions|
                    && Next(s, EvictResumes(e)).evictions[e].phase.Popped?
                    && Next(s, EvictResumes(e)).workspaces == s.workspaces - {s.evictions[e].id})
  {
  }

  ghost predicate Concludes(a: Action, b: nat) {
    a == BuildStores(b) || a == BuildFails(b)
  }

  /** Whatever callers and evictions do, a build goes on, and stays joinable, until it stores or fails by itself. */
  lemma {:induction false} BuildOutlivesItsCallers(s: State, actions: seq<Action>, t: State, b: nat)
    requires Inv(s) && Steps(s, actions, t) && InFlight(s, b)
    requires forall i :: 0 <= i < |actions| ==> !Concludes(actions[i], b)
    ensures Inv(t) && InFlight(t, b) && t.builds[b].id == s.builds[b].id
    ensures t.builds[b].id in t.loads && t.loads[t.builds[b].id] == b
    decreases |actions|
  {
    if actions != [] {
      StepInv(s, actions[0]);
      assert !Concludes(actions[0], b);
      assert forall i :: 0 <= i < |actions[1..]| ==> actions[1..][i] == actions[i + 1];
      BuildOutlivesItsCallers(Next(s, actions[0]), actions[1..], t, b);
    }
  }

  /**
   From the moment an eviction has popped, and so when it returns, no service it outdates is in the map, or will be.
   */
  lemma EvictionSticks(actions: seq<Action>, s: State, e: nat)
    requires Steps(INITIAL, actions, s)
    requires e < |s.evictions| && !s.evictions[e].phase.Waiting?
    ensures var v := s.evictions[e];
      && (v.id in s.workspaces ==> v.since <= s.workspaces[v.id])
      && (forall b: nat :: InFlight(s, b) && s.builds[b].id == v.id ==> v.since <= b)
  {
    RunInv(INITIAL, actions, s);
    assert Effective(s, s.evictions[e]);
  }

  /**
   A lookup after an eviction gets a service it does not outdate, except in one window: while a load that finished
   before the eviction still waits for its done callback, the lookup joins that load.
   */
  lemma LookupAfterEviction(actions: seq<Action>, s: State, e: nat, isCurrent: bool)
    requires Steps(INITIAL, actions, s)
    requires e < |s.evictions| && !s.evictions[e].phase.Waiting?
    ensures var v := s.evictions[e]; var found := Find(s, v.id, isCurrent);
      && (found.build < v.since <==> v.id in s.loads && s.loads[v.id] < v.since)
      && (found.build < v.since ==>
            found.build < |s.builds| && !InFlight(s, found.build) && !s.builds[found.build].calledBack)
  {
    RunInv(INITIAL, actions, s);
    assert Effective(s, s.evictions[e]);
  }

  /** The window exists: the build stores, the eviction pops, and the lookup beats the callback. */
  lemma LookupInTheWindow(id: Id, s: State)
    requires s == Next(Next(Next(INITIAL, Lookup(0, id, true)), BuildStores(0)), EvictBegins(id))
    ensures Steps(INITIAL, [Lookup(0, id, true), BuildStores(0), EvictBegins(id)], s)
    ensures s.evictions == [Eviction(id, 1, Popped)] && s.workspaces == map[]
    ensures Find(s, id, true) == Joined(0)
  {
    var a, b := Next(INITIAL, Lookup(0, id, true)), Next(Next(INITIAL, Lookup(0, id, true)), BuildStores(0));
    assert b.workspaces == map[id := 0];
    assert Steps(s, [], s);
    assert Steps(b, [EvictBegins(id)], s);
    assert Steps(a, [BuildStores(0), EvictBegins(id)], s);
  }

  // The service object
  // --------------------------------------------------------------------------------------------

  class DaemonService {
    var workspaces: map<Id, nat>
    var loads: map<Id, nat>
    var builds: seq<Build>
    ghost var callers: map<nat, nat>
    ghost var evictions: seq<Eviction>

    ghost function View(): State
      reads this
    {
      State(workspaces, loads, builds, callers, evictions)
    }

    constructor ()
      ensures View() == INITIAL
    {
      workspaces, loads, builds, callers, evictions := map[], map[], [], map[], [];
    }

    /** Serves both `get_workspace` and `_load_workspace`, whose order of tests is the same. */
    method LoadWorkspace(ghost caller: nat, id: Id, isCurrent: bool) returns (found: Found)
      requires caller !in callers
      modifies this
      ensures found == Find(old(View()), id, isCurrent)
      ensures View() == Next(old(View()), Lookup(caller, id, isCurrent))
    {
      if id in loads {
        found := Joined(loads[id]);
        callers := callers[caller := loads[id]];
        return;
      }
      if id in workspaces && isCurrent {
        return Cached(workspaces[id]);
      }
      found := Began(|builds|);
      loads := loads[id := |builds|];
      callers := callers[caller := |builds|];
      builds := builds + [Build(id, Building, false)];
    }

    method BuildStores(build: nat)
      requires Enabled(View(), Action.BuildStores(build))
      modifies this
      ensures View() == Next(old(View()), Action.BuildStores(build))
    {
      workspaces := workspaces[builds[build].id := build];
      builds := builds[build := builds[build].(status := Stored)];
    }

    method FinishLoad(build: nat)
      requires Enabled(View(), Action.FinishLoad(build))
      modifies this
      ensures View() == Next(old(View()), Action.FinishLoad(build))
    {
      var id := builds[build].id;
      if id in loads && loads[id] == build {
        loads := loads - {id};
      }
      builds := builds[build := builds[build].(calledBack := true)];
    }

    /** `_evict` up to its first await; the load it has to wait for, if any. */
    method EvictBegins(id: Id) returns (awaits: Option<nat>)
      modifies this
      ensures View() == Next(old(View()), Action.EvictBegins(id))
      ensures awaits.Some? <==> old(id in loads && InFlight(View(), loads[id]))
    {
      if id in loads && loads[id] < |builds| && builds[loads[id]].status.Building? {
        awaits := Some(loads[id]);
        evictions := evictions + [Eviction(id, |builds|, Waiting(loads[id]))];
        return;
      }
      awaits := None;
      evictions := evictions + [Eviction(id, |builds|, Popped)];
      workspaces := workspaces - {id};
    }

    method EvictResumes(ghost eviction: nat, id: Id)
      requires Enabled(View(), Action.EvictResumes(eviction)) && evictions[eviction].id == id
      modifies this
      ensures View() == Next(old(View()), Action.EvictResumes(eviction))
    {
      evictions := evictions[eviction := evictions[eviction].(phase := Popped)];
      workspaces := workspaces - {id};
    }
  }
}
