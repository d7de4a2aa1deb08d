/**
 The path resolver: an index of file names built by a pruned walk, two caches over it, and a time-to-live that keeps
 walking to a fixed share of the time.

 The file system does not change.  Gitignore matching, whether an absolute path exists, and stripping are functions of
 the environment; times are whole milliseconds of a monotone clock.
 */
module PathResolver {
  import opened Wrappers

  datatype Node = File(name: string) | Dir(name: string, children: seq<Node>)

  datatype Env = Env(
    root: string,
    tree: seq<Node>,
    excluded: set<string>,
    ignored: string -> bool,
    exists_: string -> bool,
    strip: string -> string)

  datatype Found = Found(name: string, path: string)

  function Join(dir: string, name: string): string {
    if dir == "" then name else dir + "/" + name
  }

  // The walk
  // --------------------------------------------------------------------------------------------

  predicate Pruned(e: Env, dir: string, name: string) {
    name in e.excluded || e.ignored(Join(dir, name) + "/")
  }

  /** The files of one directory that are not ignored. */
  function FilesHere(e: Env, dir: string, nodes: seq<Node>): seq<Found> {
    if nodes == [] then []
    else
      (if nodes[0].File? && !e.ignored(Join(dir, nodes[0].name)) then [Found(nodes[0].name, Join(dir, nodes[0].name))]
       else [])
      + FilesHere(e, dir, nodes[1..])
  }

  /** Top-down: a directory's own files, then each subdirectory that is not pruned. */
  function Walk(e: Env, dir: string, nodes: seq<Node>): seq<Found>
    decreases nodes, 1
  {
    FilesHere(e, dir, nodes) + Below(e, dir, nodes)
  }

  function Below(e: Env, dir: string, nodes: seq<Node>): seq<Found>
    decreases nodes, 0
  {
    if nodes == [] then []
    else
      (if nodes[0].Dir? && !Pruned(e, dir, nodes[0].name)
       then Walk(e, Join(dir, nodes[0].name), nodes[0].children)
       else [])
      + Below(e, dir, nodes[1..])
  }

  /** A file of the whole tree, with whether a directory above it is pruned. */
  datatype Anywhere = Anywhere(found: Found, hidden: bool)

  function AllHere(dir: string, nodes: seq<Node>, hidden: bool): seq<Anywhere> {
    if nodes == [] then []
    else
      (if nodes[0].File? then [Anywhere(Found(nodes[0].name, Join(dir, nodes[0].name)), hidden)] else [])
      + AllHere(dir, nodes[1..], hidden)
  }

  function WalkAll(e: Env, dir: string, nodes: seq<Node>, hidden: bool): seq<Anywhere>
    decreases nodes, 1
  {
    AllHere(dir, nodes, hidden) + AllBelow(e, dir, nodes, hidden)
  }

  function AllBelow(e: Env, dir: string, nodes: seq<Node>, hidden: bool): seq<Anywhere>
    decreases nodes, 0
  {
    if nodes == [] then []
    else
      (if nodes[0].Dir?
       then WalkAll(e, Join(dir, nodes[0].name), nodes[0].children, hidden || Pruned(e, dir, nodes[0].name))
       else [])
      + AllBelow(e, dir, nodes[1..], hidden)
  }

  /** No ignored ancestor, and not ignored itself. */
  function Visible(e: Env, all: seq<Anywhere>): seq<Found> {
    if all == [] then []
    else (if !all[0].hidden && !e.ignored(all[0].found.path) then [all[0].found] else []) + Visible(e, all[1..])
  }

  lemma {:induction false} VisibleConcat(e: Env, a: seq<Anywhere>, b: seq<Anywhere>)
    ensures Visible(e, a + b) == Visible(e, a) + Visible(e, b)
  {
    if a == [] {
      assert a + b == b;
    } else {
      assert (a + b)[1..] == a[1..] + b;
      VisibleConcat(e, a[1..], b);
    }
  }

  lemma {:induction false} HiddenFiles(e: Env, dir: string, nodes: seq<Node>)
    ensures Visible(e, AllHere(dir, nodes, true)) == []
    ensures Visible(e, AllHere(dir, nodes, false)) == FilesHere(e, dir, nodes)
  {
    if nodes != [] {
      HiddenFiles(e, dir, nodes[1..]);
      var f := if nodes[0].File? then [Anywhere(Found(nodes[0].name, Join(dir, nodes[0].name)), true)] else [];
      var g := if nodes[0].File? then [Anywhere(Found(nodes[0].name, Join(dir, nodes[0].name)), false)] else [];
      VisibleConcat(e, f, AllHere(dir, nodes[1..], true));
      VisibleConcat(e, g, AllHere(dir, nodes[1..], false));
    }
  }

  /** Nothing under a pruned directory is visible. */
  lemma {:induction false} HiddenSubtree(e: Env, dir: string, nodes: seq<Node>)
    ensures Visible(e, WalkAll(e, dir, nodes, true)) == []
    decreases nodes, 1
  {
    HiddenFiles(e, dir, nodes);
    HiddenBelow(e, dir, nodes);
    VisibleConcat(e, AllHere(dir, nodes, true), AllBelow(e, dir, nodes, true));
  }

  lemma {:induction false} HiddenBelow(e: Env, dir: string, nodes: seq<Node>)
    ensures Visible(e, AllBelow(e, dir, nodes, true)) == []
    decreases nodes, 0
  {
    if nodes != [] {
      HiddenBelow(e, dir, nodes[1..]);
      if nodes[0].Dir? {
        var sub := Join(dir, nodes[0].name);
        HiddenSubtree(e, sub, nodes[0].children);
        VisibleConcat(e, WalkAll(e, sub, nodes[0].children, true), AllBelow(e, dir, nodes[1..], true));
      } else {
        assert [] + AllBelow(e, dir, nodes[1..], true) == AllBelow(e, dir, nodes[1..], true);
      }
    }
  }

  /** The pruned walk finds, in the same order, exactly the files of the full walk that are visible. */
  lemma {:induction false} PrunedWalkIsFilteredWalk(e: Env, dir: string, nodes: seq<Node>)
    ensures Walk(e, dir, nodes) == Visible(e, WalkAll(e, dir, nodes, false))
    decreases nodes, 1
  {
    HiddenFiles(e, dir, nodes);
    PrunedBelow(e, dir, nodes);
    VisibleConcat(e, AllHere(dir, nodes, false), AllBelow(e, dir, nodes, false));
  }

  lemma {:induction false} PrunedBelow(e: Env, dir: string, nodes: seq<Node>)
    ensures Below(e, dir, nodes) == Visible(e, AllBelow(e, dir, nodes, false))
    decreases nodes, 0
  {
    if nodes != [] {
      PrunedBelow(e, dir, nodes[1..]);
      if nodes[0].Dir? {
        var sub, gone := Join(dir, nodes[0].name), Pruned(e, dir, nodes[0].name);
        if gone {
          HiddenSubtree(e, sub, nodes[0].children);
        } else {
          PrunedWalkIsFilteredWalk(e, sub, nodes[0].children);
        }
        VisibleConcat(e, WalkAll(e, sub, nodes[0].children, gone), AllBelow(e, dir, nodes[1..], false));
      } else {
        assert [] + AllBelow(e, dir, nodes[1..], false) == AllBelow(e, dir, nodes[1..], false);
      }
    }
  }

  // The index and the answer
  // --------------------------------------------------------------------------------------------

  type Index = map<string, seq<string>>

  function PathsNamed(files: seq<Found>, name: string): seq<string> {
    if files == [] then []
    else (if files[0].name == name then [files[0].path] else []) + PathsNamed(files[1..], name)
  }

  /** The index lists, under each name, the paths of that name in walk order. */
  ghost predicate Indexes(index: Index, files: seq<Found>) {
    forall name :: Lookup(index, name) == PathsNamed(files, name)
  }

  function Lookup(index: Index, name: string): seq<string> {
    if name in index then index[name] else []
  }

  /** The parts of a relative path: what lies between slashes, empty pieces and single dots aside. */
  function Parts(candidate: string, piece: string): seq<string> {
    var kept := if piece == "" || piece == "." then [] else [piece];
    if candidate == "" then kept
    else if candidate[0] == '/' then kept + Parts(candidate[1..], "")
    else Parts(candidate[1..], piece + [candidate[0]])
  }

  function NameOf(parts: seq<string>): string {
    if parts == [] then "" else parts[|parts| - 1]
  }

  predicate EndsWith(s: string, suffix: string) {
    |suffix| <= |s| && s[|s| - |suffix|..] == suffix
  }

  function WithSuffix(paths: seq<string>, suffix: string): seq<string> {
    if paths == [] then []
    else (if EndsWith(paths[0], suffix) then [paths[0]] else []) + WithSuffix(paths[1..], suffix)
  }

  predicate IsTemp(candidate: string, tempDir: Option<string>) {
    tempDir.Some? && (candidate == "/tmp" || "/tmp/" <= candidate)
  }

  predicate IsAbsolute(candidate: string) {
    "/" <= candidate
  }

  predicate NeedsIndex(candidate: string, tempDir: Option<string>) {
    !IsTemp(candidate, tempDir) && !IsAbsolute(candidate)
  }

  /** The files a relative candidate can mean, by brute force over the whole tree. */
  function Candidates(e: Env, candidate: string): seq<string> {
    var parts := Parts(candidate, "");
    var named := PathsNamed(Visible(e, WalkAll(e, "", e.tree, false)), NameOf(parts));
    if parts == [NameOf(parts)] then named else WithSuffix(named, candidate)
  }

  /** The answer that does not depend on the temp directory. */
  function Answer(e: Env, candidate: string): Option<string> {
    if IsAbsolute(candidate) then if e.exists_(candidate) then Some(candidate) else None
    else
      var found := Candidates(e, candidate);
      if |found| == 1 && e.exists_(e.root + "/" + found[0]) then Some(e.root + "/" + found[0]) else None
  }

  function BruteForce(e: Env, candidate: string, tempDir: Option<string>): Option<string> {
    if IsTemp(candidate, tempDir) then Some(tempDir.value + candidate[4..]) else Answer(e, candidate)
  }

  predicate Answered(e: Env, c: string, tempDir: Option<string>) {
    BruteForce(e, c, tempDir).Some? && BruteForce(e, c, tempDir).value != ""
  }

  ghost predicate ResolvesEach(e: Env, cleaned: seq<string>, tempDir: Option<string>, resolved: map<string, string>) {
    && (forall c :: c in resolved <==> c in cleaned && Answered(e, c, tempDir))
    && (forall c :: c in resolved ==> BruteForce(e, c, tempDir) == Some(resolved[c]))
  }

  predicate AllAbsolute(candidates: seq<string>) {
    forall i :: 0 <= i < |candidates| ==> "/" <= candidates[i]
  }

  ghost predicate Asked(e: Env, candidates: seq<string>, c: string) {
    c != "" && exists raw :: raw in candidates && e.strip(raw) == c
  }

  /** The whole batch: every candidate left after stripping that has a non-empty answer. */
  ghost predicate Resolves(e: Env, candidates: seq<string>, tempDir: Option<string>, resolved: map<string, string>) {
    && (forall c :: c in resolved <==> Asked(e, candidates, c) && Answered(e, c, tempDir))
    && (forall c :: c in resolved ==> BruteForce(e, c, tempDir) == Some(resolved[c]))
  }

  // How long walking may take
  // --------------------------------------------------------------------------------------------

  const CACHE_TTL: nat := 60_000
  const WALK_TTL_FACTOR: nat := 10

  function Ttl(lastWalk: nat): nat {
    if CACHE_TTL >= lastWalk * WALK_TTL_FACTOR then CACHE_TTL else lastWalk * WALK_TTL_FACTOR
  }

  function Sum(costs: seq<nat>): nat {
    if costs == [] then 0 else Sum(costs[..|costs| - 1]) + costs[|costs| - 1]
  }

  /** A rebuild of that cost has had its time by `next`: ten times its cost, and at least a minute, after its end. */
  predicate Served(start: nat, cost: nat, next: nat) {
    start + 11 * cost <= next && start + cost + 60_000 <= next
  }

  ghost predicate Spaced(starts: seq<nat>, costs: seq<nat>) {
    |starts| == |costs| && forall i :: 0 <= i < |starts| - 1 ==> Served(starts[i], costs[i], starts[i + 1])
  }

  /**
   Over any run, walking before the latest rebuild took at most one eleventh of the time since the first, and rebuilds
   came at most once a minute.
   */
  lemma {:induction false} WalkingIsBounded(starts: seq<nat>, costs: seq<nat>)
    requires Spaced(starts, costs) && starts != []
    ensures starts[0] + 11 * Sum(costs[..|costs| - 1]) <= starts[|starts| - 1]
    ensures starts[0] + 60_000 * (|starts| - 1) <= starts[|starts| - 1]
  {
    var n := |starts| - 1;
    if n > 0 {
      WalkingIsBounded(starts[..n], costs[..n]);
      assert costs[..n][..n - 1] == costs[..n - 1];
      assert costs[..n][|costs[..n]| - 1] == costs[n - 1];
      assert Served(starts[n - 1], costs[n - 1], starts[n - 1 + 1]);
    }
  }

  // The caches agree with brute force
  // --------------------------------------------------------------------------------------------

  /** What a lookup in a current index gives. */
  function FromIndex(e: Env, index: Index, candidate: string): Option<string> {
    if IsAbsolute(candidate) then if e.exists_(candidate) then Some(candidate) else None
    else
      var parts := Parts(candidate, "");
      var named := Lookup(index, NameOf(parts));
      var entries := if parts == [NameOf(parts)] then named else WithSuffix(named, candidate);
      if |entries| == 1 && e.exists_(e.root + "/" + entries[0]) then Some(e.root + "/" + entries[0]) else None
  }

  lemma {:induction false} SuffixesAmong(paths: seq<string>, suffix: string)
    ensures forall p :: p in WithSuffix(paths, suffix) <==> p in paths && EndsWith(p, suffix)
  {
    if paths != [] {
      SuffixesAmong(paths[1..], suffix);
      assert paths == [paths[0]] + paths[1..];
    }
  }

  lemma IndexAnswers(e: Env, index: Index, candidate: string)
    requires Indexes(index, Walk(e, "", e.tree))
    ensures FromIndex(e, index, candidate) == Answer(e, candidate)
  {
    PrunedWalkIsFilteredWalk(e, "", e.tree);
    var name := NameOf(Parts(candidate, ""));
    assert Lookup(index, name) == PathsNamed(Walk(e, "", e.tree), name);
  }

  // The resolver
  // --------------------------------------------------------------------------------------------

  class Clock {
    var time: nat

    constructor () {
      time := 0;
    }

    /** Any amount of time may have passed since the last reading. */
    method Now() returns (now: nat)
      modifies this
      ensures now == time >= old(time)
    {
      var passed: nat :| 0 <= passed;
      time := time + passed;
      now := time;
    }
  }

  lemma {:induction false} NamedConcat(a: seq<Found>, b: seq<Found>, name: string)
    ensures PathsNamed(a + b, name) == PathsNamed(a, name) + PathsNamed(b, name)
  {
    if a == [] {
      assert a + b == b;
    } else {
      assert (a + b)[1..] == a[1..] + b;
      NamedConcat(a[1..], b, name);
    }
  }

  lemma IndexesOneMore(before: Index, after: Index, files: seq<Found>, f: Found)
    requires Indexes(before, files)
    requires after == before[f.name := Lookup(before, f.name) + [f.path]]
    ensures Indexes(after, files + [f])
  {
    forall name ensures Lookup(after, name) == PathsNamed(files + [f], name) {
      NamedConcat(files, [f], name);
      assert [f][1..] == [];
    }
  }

  lemma {:induction false} FilesAppend(e: Env, dir: string, nodes: seq<Node>, node: Node)
    ensures FilesHere(e, dir, nodes + [node]) == FilesHere(e, dir, nodes) + FilesHere(e, dir, [node])
  {
    if nodes == [] {
      assert nodes + [node] == [node];
    } else {
      assert (nodes + [node])[1..] == nodes[1..] + [node];
      FilesAppend(e, dir, nodes[1..], node);
    }
  }

  lemma {:induction false} BelowAppend(e: Env, dir: string, nodes: seq<Node>, node: Node)
    ensures Below(e, dir, nodes + [node]) == Below(e, dir, nodes) + Below(e, dir, [node])
    decreases |nodes|
  {
    if nodes == [] {
      assert nodes + [node] == [node];
    } else {
      assert (nodes + [node])[1..] == nodes[1..] + [node];
      BelowAppend(e, dir, nodes[1..], node);
    }
  }

  /** The walk's loop body, and then its descent into the directories that are left. */
  method AddDirectory(e: Env, dir: string, nodes: seq<Node>, before: Index, ghost files: seq<Found>)
    returns (index: Index)
    requires Indexes(before, files)
    ensures Indexes(index, files + Walk(e, dir, nodes))
    decreases nodes
  {
    index := AddFiles(e, dir, nodes, before, files);
    ghost var here := files + FilesHere(e, dir, nodes);
    assert nodes[..0] == [] && here + [] == here;
    for i := 0 to |nodes|
      invariant Indexes(index, here + Below(e, dir, nodes[..i]))
    {
      var node := nodes[i];
      ghost var done := here + Below(e, dir, nodes[..i]);
      BelowOneMore(e, dir, nodes, i, here);
      if node.Dir? && !Pruned(e, dir, node.name) {
        index := AddDirectory(e, Join(dir, node.name), node.children, index, done);
      } else {
        assert done + [] == done;
      }
    }
    assert nodes[..|nodes|] == nodes;
    assert here + Below(e, dir, nodes) == files + Walk(e, dir, nodes);
  }

  lemma BelowOneMore(e: Env, dir: string, nodes: seq<Node>, i: nat, here: seq<Found>)
    requires i < |nodes|
    ensures var node := nodes[i];
      here + Below(e, dir, nodes[..i + 1]) ==
        (here + Below(e, dir, nodes[..i])) +
        (if node.Dir? && !Pruned(e, dir, node.name) then Walk(e, Join(dir, node.name), node.children) else [])
  {
    var node := nodes[i];
    assert nodes[..i + 1] == nodes[..i] + [node] && [node][1..] == [];
    BelowAppend(e, dir, nodes[..i], node);
    if node.Dir? && !Pruned(e, dir, node.name) {
      var sub := Walk(e, Join(dir, node.name), node.children);
      assert Below(e, dir, [node]) == sub + [] == sub;
    }
  }

  method AddFiles(e: Env, dir: string, nodes: seq<Node>, before: Index, ghost files: seq<Found>) returns (index: Index)
    requires Indexes(before, files)
    ensures Indexes(index, files + FilesHere(e, dir, nodes))
  {
    index := before;
    assert files + [] == files;
    for i := 0 to |nodes|
      invariant Indexes(index, files + FilesHere(e, dir, nodes[..i]))
    {
      var node := nodes[i];
      ghost var done := files + FilesHere(e, dir, nodes[..i]);
      FilesOneMore(e, dir, nodes, i, files);
      var path := Join(dir, node.name);
      if node.File? && !e.ignored(path) {
        var f := Found(node.name, path);
        IndexesOneMore(index, index[f.name := Lookup(index, f.name) + [f.path]], done, f);
        index := index[f.name := Lookup(index, f.name) + [f.path]];
      } else {
        assert done + [] == done;
      }
    }
    assert nodes[..|nodes|] == nodes;
  }

  lemma FilesOneMore(e: Env, dir: string, nodes: seq<Node>, i: nat, files: seq<Found>)
    requires i < |nodes|
    ensures var path := Join(dir, nodes[i].name);
      files + FilesHere(e, dir, nodes[..i + 1]) ==
        (files + FilesHere(e, dir, nodes[..i])) +
        (if nodes[i].File? && !e.ignored(path) then [Found(nodes[i].name, path)] else [])
  {
    var node := nodes[i];
    assert nodes[..i + 1] == nodes[..i] + [node] && [node][1..] == [];
    FilesAppend(e, dir, nodes[..i], node);
  }

  datatype Saved = Saved(index: Index, lastWalk: nat)

  class Resolver {
    const env: Env
    const clock: Clock
    var stampedAt: nat
    var index: Option<Index>
    var resolveCache: map<string, Option<string>>
    var lastWalk: nat
    ghost var starts: seq<nat>
    ghost var costs: seq<nat>

    ghost predicate Current(index: Index) {
      Indexes(index, Walk(env, "", env.tree))
    }

    /** Every rebuild so far, its spacing, and the stamp the next one has to wait out. */
    ghost predicate Paced()
      reads this, clock
    {
      && Spaced(starts, costs)
      && (index.Some? ==> stampedAt <= clock.time)
      && (starts != [] ==> index.Some? && lastWalk == costs[|costs| - 1])
      && (starts != [] ==> stampedAt >= starts[|starts| - 1] + lastWalk)
    }

    ghost predicate Valid()
      reads this, clock
    {
      && (index.Some? ==> Current(index.value))
      && (forall c :: c in resolveCache ==> resolveCache[c] == Answer(env, c))
      && Paced()
    }

    /** Starts cold, or warm from a saved index that is not stale. */
    constructor (env: Env, clock: Clock, saved: Option<Saved>)
      requires saved.Some? ==> Indexes(saved.value.index, Walk(env, "", env.tree))
      ensures Valid() && this.env == env && this.clock == clock && starts == []
      ensures if saved.None? then index == None
              else index == Some(saved.value.index) && lastWalk == saved.value.lastWalk && stampedAt == clock.time
    {
      this.env, this.clock := env, clock;
      index := if saved.Some? then Some(saved.value.index) else None;
      lastWalk := if saved.Some? then saved.value.lastWalk else 0;
      stampedAt, resolveCache, starts, costs := clock.time, map[], [], [];
    }

    method FreshIndex() returns (current: Option<Index>)
      requires Valid()
      modifies clock
      ensures Valid() && clock.time >= old(clock.time)
      ensures current.Some? ==> Current(current.value)
      ensures current.None? && index.Some? ==> clock.time >= stampedAt + Ttl(lastWalk)
      ensures index.Some? && clock.time < stampedAt + Ttl(lastWalk) ==> current == index
    {
      if index.None? {
        return None;
      }
      var now := clock.Now();
      if now - stampedAt < Ttl(lastWalk) {
        return index;
      }
      return None;
    }

    method GetFileIndex() returns (current: Index)
      requires Valid()
      modifies this, clock
      ensures Valid() && Current(current)
      ensures old(starts) <= starts && |starts| <= |old(starts)| + 1
    {
      var held := FreshIndex();
      if held.Some? {
        return held.value;
      }
      held := FreshIndex();
      if held.Some? {
        return held.value;
      }
      current := Rebuild();
    }

    method Rebuild() returns (current: Index)
      requires Valid()
      requires index.Some? ==> clock.time >= stampedAt + Ttl(lastWalk)
      modifies this, clock
      ensures Valid() && Current(current)
      ensures |starts| == |old(starts)| + 1 && old(starts) <= starts
    {
      resolveCache := map[];
      var started := clock.Now();
      current := BuildIndex();
      var ended := clock.Now();
      KeepIndex(current, started, ended - started);
    }

    /** Stamped after the walk, so that the lifetime measures time served and not time building. */
    method KeepIndex(current: Index, started: nat, cost: nat)
      requires Spaced(starts, costs) && started + cost <= clock.time
      requires starts != [] ==> Served(starts[|starts| - 1], costs[|costs| - 1], started)
      modifies this, clock
      ensures Paced() && index == Some(current) && resolveCache == old(resolveCache)
      ensures starts == old(starts) + [started]
    {
      SpacedOneMore(starts, costs, started, cost);
      lastWalk := cost;
      stampedAt := clock.Now();
      index := Some(current);
      starts, costs := starts + [started], costs + [cost];
    }

    method BuildIndex() returns (built: Index)
      ensures Current(built)
    {
      built := AddDirectory(env, "", env.tree, map[], []);
      assert [] + Walk(env, "", env.tree) == Walk(env, "", env.tree);
    }

    method ResolveUncached(candidate: string) returns (result: Option<string>)
      requires Valid()
      modifies this, clock
      ensures Valid() && result == Answer(env, candidate)
      ensures "/" <= candidate ==> starts == old(starts)
    {
      if IsAbsolute(candidate) {
        return if env.exists_(candidate) then Some(candidate) else None;
      }
      var current := GetFileIndex();
      IndexAnswers(env, current, candidate);
      result := FromIndex(env, current, candidate);
    }

    method ResolveCandidate(candidate: string, tempDir: Option<string>) returns (result: Option<string>)
      requires Valid()
      modifies this, clock
      ensures Valid() && result == BruteForce(env, candidate, tempDir)
      ensures "/" <= candidate ==> starts == old(starts)
    {
      if IsTemp(candidate, tempDir) {
        return Some(tempDir.value + candidate[4..]);
      }
      if candidate in resolveCache {
        return resolveCache[candidate];
      }
      result := ResolveUncached(candidate);
      resolveCache := resolveCache[candidate := result];
    }

    /** Whatever came before and whatever the clock does, a batch gets the brute-force answers. */
    method Resolve(candidates: seq<string>, tempDir: Option<string>) returns (resolved: map<string, string>)
      requires Valid()
      modifies this, clock
      ensures Valid() && Resolves(env, candidates, tempDir, resolved)
      ensures (forall c :: Asked(env, candidates, c) ==> "/" <= c) ==> starts == old(starts)
    {
      var cleaned := Cleaned(env, candidates);
      CleanedExactly(env, candidates);
      assert forall i :: 0 <= i < |cleaned| ==> cleaned[i] in cleaned;
      if exists i :: 0 <= i < |cleaned| && NeedsIndex(cleaned[i], tempDir) {
        var _ := GetFileIndex();
      }
      resolved := ResolveEach(cleaned, tempDir);
    }

    method ResolveEach(cleaned: seq<string>, tempDir: Option<string>) returns (resolved: map<string, string>)
      requires Valid()
      modifies this, clock
      ensures Valid() && ResolvesEach(env, cleaned, tempDir, resolved)
      ensures AllAbsolute(cleaned) ==> starts == old(starts)
    {
      resolved := map[];
      for i := 0 to |cleaned|
        invariant Valid() && ResolvesEach(env, cleaned[..i], tempDir, resolved)
        invariant AllAbsolute(cleaned) ==> starts == old(starts)
      {
        var result := ResolveCandidate(cleaned[i], tempDir);
        assert cleaned[..i + 1] == cleaned[..i] + [cleaned[i]];
        if result.Some? && result.value != "" {
          resolved := resolved[cleaned[i] := result.value];
        }
      }
      assert cleaned[..|cleaned|] == cleaned;
    }
  }

  function Cleaned(e: Env, candidates: seq<string>): seq<string> {
    if candidates == [] then []
    else (if e.strip(candidates[0]) == "" then [] else [e.strip(candidates[0])]) + Cleaned(e, candidates[1..])
  }

  lemma {:induction false} CleanedExactly(e: Env, candidates: seq<string>)
    ensures forall c :: c in Cleaned(e, candidates) <==> Asked(e, candidates, c)
  {
    if candidates != [] {
      CleanedExactly(e, candidates[1..]);
      assert candidates == [candidates[0]] + candidates[1..];
    }
  }

  lemma SpacedOneMore(starts: seq<nat>, costs: seq<nat>, start: nat, cost: nat)
    requires Spaced(starts, costs)
    requires starts != [] ==> Served(starts[|starts| - 1], costs[|costs| - 1], start)
    ensures Spaced(starts + [start], costs + [cost])
  {
  }
}
