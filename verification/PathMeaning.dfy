/**
 What the resolver's answers mean: how a candidate splits into parts, which files of the tree it can mean, and which
 files the walk finds.
 */
module PathMeaning {
  import opened Wrappers
  import opened PathResolver

  // Parts and suffixes
  // --------------------------------------------------------------------------------------------

  /** What a part of a path can be. */
  predicate IsName(name: string) {
    name != "" && name != "." && '/' !in name
  }

  lemma {:induction false} PartsOfPiece(candidate: string, piece: string)
    requires '/' !in candidate
    ensures Parts(candidate, piece) == if piece + candidate in {"", "."} then [] else [piece + candidate]
    decreases |candidate|
  {
    if candidate == "" {
      assert piece + candidate == piece;
    } else {
      PartsOfPiece(candidate[1..], piece + [candidate[0]]);
      assert piece + [candidate[0]] + candidate[1..] == piece + candidate;
    }
  }

  lemma {:induction false} PartsFrom(a: string, b: string, piece: string)
    ensures Parts(a + "/" + b, piece) == Parts(a, piece) + Parts(b, "")
    decreases |a|
  {
    var all := a + "/" + b;
    if a == "" {
      assert all[1..] == b;
    } else {
      assert all[0] == a[0] && all[1..] == a[1..] + "/" + b;
      if a[0] == '/' {
        PartsFrom(a[1..], b, "");
      } else {
        PartsFrom(a[1..], b, piece + [a[0]]);
      }
    }
  }

  /** A slash separates parts; a name without one is a part, unless it is empty or a dot. */
  lemma PartsSplit(a: string, b: string, name: string)
    requires '/' !in name
    ensures Parts(a + "/" + b, "") == Parts(a, "") + Parts(b, "")
    ensures Parts(name, "") == if IsName(name) then [name] else []
  {
    PartsFrom(a, b, "");
    PartsOfPiece(name, "");
    assert "" + name == name;
  }

  lemma EndsWithMeans(s: string, suffix: string)
    ensures EndsWith(s, suffix) <==> exists p: string :: s == p + suffix
  {
    if EndsWith(s, suffix) {
      assert s == s[..|s| - |suffix|] + suffix;
    }
  }

  // The answer over the tree
  // --------------------------------------------------------------------------------------------

  predicate Fits(f: Found, name: string, suffix: string) {
    f.name == name && EndsWith(f.path, suffix)
  }

  /** The i-th file has the name and a path that ends so, and no other has. */
  ghost predicate OnlyOne(files: seq<Found>, i: int, name: string, suffix: string) {
    && 0 <= i < |files| && files[i].name == name && (exists p: string :: files[i].path == p + suffix)
    && forall j :: 0 <= j < |files| && j != i && files[j].name == name ==>
         !exists p: string :: files[j].path == p + suffix
  }

  lemma OnlyOneFits(files: seq<Found>, i: int, name: string, suffix: string)
    ensures OnlyOne(files, i, name, suffix) <==>
              && 0 <= i < |files| && Fits(files[i], name, suffix)
              && forall j :: 0 <= j < |files| && j != i ==> !Fits(files[j], name, suffix)
  {
    forall j | 0 <= j < |files|
      ensures Fits(files[j], name, suffix) <==>
                files[j].name == name && exists p: string :: files[j].path == p + suffix
    {
      EndsWithMeans(files[j].path, suffix);
    }
  }

  lemma MatchStep(files: seq<Found>, name: string, suffix: string)
    requires files != []
    ensures WithSuffix(PathsNamed(files, name), suffix) ==
              (if Fits(files[0], name, suffix) then [files[0].path] else [])
              + WithSuffix(PathsNamed(files[1..], name), suffix)
  {
    var rest := PathsNamed(files[1..], name);
    if files[0].name == name {
      assert ([files[0].path] + rest)[1..] == rest;
    } else {
      assert [] + rest == rest;
    }
  }

  lemma {:induction false} NoneFits(files: seq<Found>, name: string, suffix: string)
    ensures WithSuffix(PathsNamed(files, name), suffix) == [] <==>
              forall j :: 0 <= j < |files| ==> !Fits(files[j], name, suffix)
  {
    if files != [] {
      NoneFits(files[1..], name, suffix);
      MatchStep(files, name, suffix);
      assert forall j :: 0 < j < |files| ==> files[j] == files[1..][j - 1];
    }
  }

  lemma {:induction false} OneFits(files: seq<Found>, i: nat, name: string, suffix: string)
    requires i < |files| && Fits(files[i], name, suffix)
    requires forall j :: 0 <= j < |files| && j != i ==> !Fits(files[j], name, suffix)
    ensures WithSuffix(PathsNamed(files, name), suffix) == [files[i].path]
  {
    MatchStep(files, name, suffix);
    assert forall j :: 0 <= j < |files[1..]| ==> files[1..][j] == files[j + 1];
    if i == 0 {
      NoneFits(files[1..], name, suffix);
    } else {
      OneFits(files[1..], i - 1, name, suffix);
    }
  }

  lemma {:induction false} SomeFits(files: seq<Found>, name: string, suffix: string) returns (i: nat)
    requires |WithSuffix(PathsNamed(files, name), suffix)| == 1
    ensures i < |files| && Fits(files[i], name, suffix)
    ensures forall j :: 0 <= j < |files| && j != i ==> !Fits(files[j], name, suffix)
  {
    MatchStep(files, name, suffix);
    assert forall j :: 0 < j < |files| ==> files[j] == files[1..][j - 1];
    if Fits(files[0], name, suffix) {
      i := 0;
      NoneFits(files[1..], name, suffix);
    } else {
      i := SomeFits(files[1..], name, suffix);
      i := i + 1;
    }
  }

  lemma {:induction false} AnySuffix(paths: seq<string>)
    ensures WithSuffix(paths, "") == paths
  {
    if paths != [] {
      AnySuffix(paths[1..]);
      assert paths[0][|paths[0]|..] == "";
    }
  }

  /** The files that can be meant at all. */
  function Seen(e: Env): seq<Found> {
    Visible(e, WalkAll(e, "", e.tree, false))
  }

  /** The one file that fits is the answer, if it exists; none or more than one is no answer. */
  ghost predicate AnswersOne(e: Env, candidate: string, name: string, suffix: string) {
    && (forall i :: OnlyOne(Seen(e), i, name, suffix) ==>
          var path := e.root + "/" + Seen(e)[i].path;
          Answer(e, candidate) == if e.exists_(path) then Some(path) else None)
    && ((forall i :: !OnlyOne(Seen(e), i, name, suffix)) ==> Answer(e, candidate) == None)
  }

  lemma AnswersFit(e: Env, candidate: string, name: string, suffix: string)
    requires !("/" <= candidate) && Candidates(e, candidate) == WithSuffix(PathsNamed(Seen(e), name), suffix)
    ensures AnswersOne(e, candidate, name, suffix)
  {
    var files := Seen(e);
    forall i | OnlyOne(files, i, name, suffix)
      ensures Candidates(e, candidate) == [files[i].path]
    {
      OnlyOneFits(files, i, name, suffix);
      OneFits(files, i, name, suffix);
    }
    if |Candidates(e, candidate)| == 1 {
      var i := SomeFits(files, name, suffix);
      OnlyOneFits(files, i, name, suffix);
    }
  }

  /** A bare name means the one file of that name, wherever it is. */
  lemma NameAnswers(e: Env, name: string)
    requires IsName(name)
    ensures AnswersOne(e, name, name, "")
  {
    PartsSplit("", "", name);
    AnySuffix(PathsNamed(Seen(e), name));
    AnswersFit(e, name, name, "");
  }

  /**
   A path of several parts means the one file of that name whose path ends in it; if all before the name is empty or
   dots, the name alone decides.
   */
  lemma PathAnswers(e: Env, dir: string, name: string)
    requires IsName(name) && dir != "" && dir[0] != '/'
    ensures AnswersOne(e, dir + "/" + name, name, if Parts(dir, "") == [] then "" else dir + "/" + name)
  {
    var candidate := dir + "/" + name;
    PartsSplit(dir, name, name);
    assert candidate[0] == dir[0];
    AnySuffix(PathsNamed(Seen(e), name));
    assert Parts(candidate, "") == Parts(dir, "") + [name];
    AnswersFit(e, candidate, name, if Parts(dir, "") == [] then "" else candidate);
  }

  /** Absolute paths stand for themselves if they exist; under a temp directory `/tmp` stands for it. */
  lemma AbsoluteAnswers(e: Env, rest: string, tempDir: Option<string>)
    ensures Answer(e, "/" + rest) == if e.exists_("/" + rest) then Some("/" + rest) else None
    ensures tempDir.None? || !(rest == "tmp" || "tmp/" <= rest) ==>
              BruteForce(e, "/" + rest, tempDir) == Answer(e, "/" + rest)
    ensures tempDir.Some? ==> BruteForce(e, "/tmp", tempDir) == tempDir
    ensures tempDir.Some? ==> BruteForce(e, "/tmp/" + rest, tempDir) == Some(tempDir.value + "/" + rest)
  {
    var candidate := "/" + rest;
    assert candidate[1..] == rest;
    if "/tmp/" <= candidate {
      assert forall i :: 0 <= i < 4 ==> rest[i] == candidate[i + 1] == "/tmp/"[i + 1];
      assert rest[..4] == "tmp/";
    }
    if tempDir.Some? {
      var inside := "/tmp/" + rest;
      assert tempDir.value + "/tmp"[4..] == tempDir.value;
      assert tempDir.value + ("/" + rest) == tempDir.value + "/" + rest;
      assert inside[4..] == "/" + rest && "/tmp/" <= inside && IsTemp(inside, tempDir);
    }
  }

  /** A relative candidate is no matter of the temp directory. */
  lemma RelativeAnswers(e: Env, candidate: string, tempDir: Option<string>)
    requires !("/" <= candidate)
    ensures BruteForce(e, candidate, tempDir) == Answer(e, candidate)
  {
    assert candidate != "" ==> candidate[0] != '/';
  }

  /** A batch maps every stripped candidate that is not blank to its answer, unless there is none or it is empty. */
  lemma BatchAnswers(e: Env, candidates: seq<string>, tempDir: Option<string>, resolved: map<string, string>, c: string)
    requires Resolves(e, candidates, tempDir, resolved)
    ensures c in resolved <==>
              && c != "" && (exists raw :: raw in candidates && e.strip(raw) == c)
              && BruteForce(e, c, tempDir) != None && BruteForce(e, c, tempDir) != Some("")
    ensures c in resolved ==> BruteForce(e, c, tempDir) == Some(resolved[c])
  {
  }

  // The walk over the tree
  // --------------------------------------------------------------------------------------------

  /** Going down along `dirs`, none of them excluded or ignored, leads to the file, which is not ignored itself. */
  ghost predicate LeadsTo(e: Env, dir: string, nodes: seq<Node>, dirs: seq<string>, f: Found)
    decreases |dirs|
  {
    var prefix := if dir == "" then "" else dir + "/";
    if dirs == [] then File(f.name) in nodes && f.path == prefix + f.name && !e.ignored(f.path)
    else
      && dirs[0] !in e.excluded && !e.ignored(prefix + dirs[0] + "/")
      && exists children :: Dir(dirs[0], children) in nodes && LeadsTo(e, prefix + dirs[0], children, dirs[1..], f)
  }

  lemma JoinIs(dir: string, name: string)
    ensures Join(dir, name) == (if dir == "" then "" else dir + "/") + name
  {
  }

  lemma {:induction false} FilesFound(e: Env, dir: string, nodes: seq<Node>, f: Found)
    ensures f in FilesHere(e, dir, nodes) <==> LeadsTo(e, dir, nodes, [], f)
  {
    JoinIs(dir, f.name);
    if nodes != [] {
      FilesFound(e, dir, nodes[1..], f);
      assert nodes == [nodes[0]] + nodes[1..];
    }
  }

  ghost predicate FoundBelow(e: Env, dir: string, node: Node, f: Found) {
    node.Dir? && !Pruned(e, dir, node.name) && f in Walk(e, Join(dir, node.name), node.children)
  }

  lemma BelowStep(e: Env, dir: string, nodes: seq<Node>, f: Found)
    requires nodes != []
    ensures f in Below(e, dir, nodes) <==> FoundBelow(e, dir, nodes[0], f) || f in Below(e, dir, nodes[1..])
  {
  }

  lemma {:induction false} BelowFound(e: Env, dir: string, nodes: seq<Node>, f: Found)
    ensures f in Below(e, dir, nodes) <==> exists node :: node in nodes && FoundBelow(e, dir, node, f)
  {
    if nodes != [] {
      BelowFound(e, dir, nodes[1..], f);
      BelowStep(e, dir, nodes, f);
      assert forall node :: node in nodes <==> node == nodes[0] || node in nodes[1..];
    }
  }

  lemma WalkIs(e: Env, dir: string, nodes: seq<Node>, f: Found)
    ensures f in Walk(e, dir, nodes) <==>
              LeadsTo(e, dir, nodes, [], f) || exists node :: node in nodes && FoundBelow(e, dir, node, f)
  {
    FilesFound(e, dir, nodes, f);
    BelowFound(e, dir, nodes, f);
  }

  lemma {:induction false} FoundIsLedTo(e: Env, dir: string, nodes: seq<Node>, f: Found) returns (dirs: seq<string>)
    requires f in Walk(e, dir, nodes)
    ensures LeadsTo(e, dir, nodes, dirs, f)
    decreases nodes
  {
    WalkIs(e, dir, nodes, f);
    if LeadsTo(e, dir, nodes, [], f) {
      dirs := [];
    } else {
      var node :| node in nodes && FoundBelow(e, dir, node, f);
      var rest := FoundIsLedTo(e, Join(dir, node.name), node.children, f);
      LeadsBelow(e, dir, nodes, node, rest, f);
      dirs := [node.name] + rest;
    }
  }

  lemma {:induction false} LedToIsFound(e: Env, dir: string, nodes: seq<Node>, dirs: seq<string>, f: Found)
    requires LeadsTo(e, dir, nodes, dirs, f)
    ensures f in Walk(e, dir, nodes)
    decreases |dirs|
  {
    WalkIs(e, dir, nodes, f);
    if dirs != [] {
      var node := FirstOnTheWay(e, dir, nodes, dirs, f);
      LedToIsFound(e, Join(dir, node.name), node.children, dirs[1..], f);
      assert FoundBelow(e, dir, node, f);
    }
  }

  /** The walk finds exactly the files to which directories lead that are neither excluded nor ignored. */
  lemma WalkFinds(e: Env, dir: string, nodes: seq<Node>, f: Found)
    ensures f in Walk(e, dir, nodes) <==> exists dirs :: LeadsTo(e, dir, nodes, dirs, f)
  {
    if f in Walk(e, dir, nodes) {
      var dirs := FoundIsLedTo(e, dir, nodes, f);
      assert LeadsTo(e, dir, nodes, dirs, f);
    }
    if dirs :| LeadsTo(e, dir, nodes, dirs, f) {
      LedToIsFound(e, dir, nodes, dirs, f);
    }
  }

  lemma LeadsBelow(e: Env, dir: string, nodes: seq<Node>, node: Node, dirs: seq<string>, f: Found)
    requires node in nodes && node.Dir? && !Pruned(e, dir, node.name)
    requires LeadsTo(e, Join(dir, node.name), node.children, dirs, f)
    ensures LeadsTo(e, dir, nodes, [node.name] + dirs, f)
  {
    var along := [node.name] + dirs;
    JoinIs(dir, node.name);
    assert along[1..] == dirs && along[0] == node.name;
    assert Dir(along[0], node.children) in nodes;
  }

  lemma FirstOnTheWay(e: Env, dir: string, nodes: seq<Node>, dirs: seq<string>, f: Found) returns (node: Node)
    requires dirs != [] && LeadsTo(e, dir, nodes, dirs, f)
    ensures node in nodes && node.Dir? && !Pruned(e, dir, node.name)
    ensures LeadsTo(e, Join(dir, node.name), node.children, dirs[1..], f)
  {
    JoinIs(dir, dirs[0]);
    var children :| Dir(dirs[0], children) in nodes && LeadsTo(e, Join(dir, dirs[0]), children, dirs[1..], f);
    node := Dir(dirs[0], children);
  }
}
