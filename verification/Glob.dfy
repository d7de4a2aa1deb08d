/** The glob compiler of the guidelines audit: a glob becomes an anchored regular expression, read left to right. */
module Glob {
  // The pieces the compiler emits: an escaped character, `[^/]*`, `[^/]`, `.*`, and `(?:.*/)?`.
  datatype Token = Literal(c: char) | Run | One | AnyPath | Dirs

  // The compiler
  // --------------------------------------------------------------------------------------------

  predicate Stars(g: string) {
    |g| >= 2 && g[0] == '*' && g[1] == '*'
  }

  predicate StarsSlash(g: string) {
    Stars(g) && |g| >= 3 && g[2] == '/'
  }

  function Compile(glob: string): seq<Token> {
    if glob == "" then []
    else if StarsSlash(glob) then [Dirs] + Compile(glob[3..])
    else if Stars(glob) then [AnyPath] + Compile(glob[2..])
    else [CharToken(glob[0])] + Compile(glob[1..])
  }

  function CharToken(c: char): Token {
    if c == '*' then Run else if c == '?' then One else Literal(c)
  }

  predicate StartsWith(s: string, prefix: string, i: nat)
    requires i <= |s|
  {
    prefix <= s[i..]
  }

  lemma StarsAt(s: string, i: nat)
    requires i <= |s|
    ensures StartsWith(s, "**/", i) <==> StarsSlash(s[i..])
    ensures StartsWith(s, "**", i) <==> Stars(s[i..])
  {
  }

  method GlobToRegex(glob: string) returns (out: seq<Token>)
    ensures out == Compile(glob)
  {
    out := [];
    var i, n := 0, |glob|;
    while i < n
      invariant 0 <= i <= n
      invariant out + Compile(glob[i..]) == Compile(glob)
    {
      var token, length := One, 1;
      StarsAt(glob, i);
      if StartsWith(glob, "**/", i) {
        token, length := Dirs, 3;
      } else if StartsWith(glob, "**", i) {
        token, length := AnyPath, 2;
      } else if glob[i] == '*' {
        token := Run;
      } else if glob[i] == '?' {
        token := One;
      } else {
        token := Literal(glob[i]);
      }
      assert glob[i..][length..] == glob[i + length..];
      Shift(out, token, Compile(glob[i + length..]));
      out := out + [token];
      i := i + length;
    }
    assert glob[i..] == "";
  }

  lemma Shift(out: seq<Token>, token: Token, rest: seq<Token>)
    ensures out + ([token] + rest) == (out + [token]) + rest
  {
  }

  // What the regular expression matches
  // --------------------------------------------------------------------------------------------

  /** The whole of `s`, token by token; a dot does not match a newline. */
  ghost predicate Match(tokens: seq<Token>, s: string)
    decreases |tokens|
  {
    if tokens == [] then s == ""
    else
      var rest := tokens[1..];
      match tokens[0]
      case Literal(c) => s != "" && s[0] == c && Match(rest, s[1..])
      case One => s != "" && s[0] != '/' && Match(rest, s[1..])
      case Run => exists k :: 0 <= k <= |s| && '/' !in s[..k] && Match(rest, s[k..])
      case AnyPath => exists k :: 0 <= k <= |s| && '\n' !in s[..k] && Match(rest, s[k..])
      case Dirs =>
        || Match(rest, s)
        || exists k :: 0 <= k < |s| && s[k] == '/' && '\n' !in s[..k] && Match(rest, s[k + 1..])
  }

  /** `$` also matches before a final newline. */
  ghost predicate Matches(glob: string, path: string) {
    || Match(Compile(glob), path)
    || (path != "" && path[|path| - 1] == '\n' && Match(Compile(glob), path[..|path| - 1]))
  }

  // What a glob means
  // --------------------------------------------------------------------------------------------

  function Segments(s: string): (segments: seq<string>)
    ensures segments != []
  {
    if s == "" then [""]
    else
      var rest := Segments(s[1..]);
      if s[0] == '/' then [""] + rest else [[s[0]] + rest[0]] + rest[1..]
  }

  /** Wildcards inside one segment. */
  ghost predicate SegmentMatch(p: string, t: string)
    decreases |p|
  {
    if p == "" then t == ""
    else if p[0] == '*' then exists k :: 0 <= k <= |t| && SegmentMatch(p[1..], t[k..])
    else t != "" && (p[0] == '?' || p[0] == t[0]) && SegmentMatch(p[1..], t[1..])
  }

  /**
   What is compiled, segment by segment: `**` stands for any number of segments, but for at least one when it is last.
   */
  ghost predicate PathMatch(globs: seq<string>, segments: seq<string>)
    decreases |globs|
  {
    if globs == [] then segments == []
    else if globs == ["**"] then segments != []
    else if globs[0] == "**" then exists j :: 0 <= j <= |segments| && PathMatch(globs[1..], segments[j..])
    else segments != [] && SegmentMatch(globs[0], segments[0]) && PathMatch(globs[1..], segments[1..])
  }

  /** The documented meaning: `**` stands for any number of segments, none included, wherever it is. */
  ghost predicate AnyNumber(globs: seq<string>, segments: seq<string>)
    decreases |globs|
  {
    if globs == [] then segments == []
    else if globs[0] == "**" then exists j :: 0 <= j <= |segments| && AnyNumber(globs[1..], segments[j..])
    else segments != [] && SegmentMatch(globs[0], segments[0]) && AnyNumber(globs[1..], segments[1..])
  }

  /** No two stars in a row. */
  predicate Plain(p: string) {
    p == "" || (!Stars(p) && Plain(p[1..]))
  }

  /** `**` occurs only as a whole segment. */
  ghost predicate WholeSegmentStars(globs: seq<string>) {
    forall p :: p in globs ==> (p == "**" || Plain(p)) && '/' !in p
  }

  // Segments
  // --------------------------------------------------------------------------------------------

  lemma {:induction false} OneSegment(s: string)
    requires '/' !in s
    ensures Segments(s) == [s]
  {
    if s != "" {
      assert s == [s[0]] + s[1..];
      OneSegment(s[1..]);
    }
  }

  lemma {:induction false} SegmentsAtSlash(a: string, b: string)
    ensures Segments(a + "/" + b) == Segments(a) + Segments(b)
  {
    var whole := a + "/" + b;
    if a == "" {
      assert whole == "/" + b && whole[1..] == b;
    } else {
      assert whole[1..] == a[1..] + "/" + b;
      SegmentsAtSlash(a[1..], b);
    }
  }

  /** What follows any slash is a tail of the segments... */
  lemma TailAfterSlash(s: string, k: nat) returns (j: nat)
    requires k < |s| && s[k] == '/'
    ensures 1 <= j < |Segments(s)| && Segments(s)[j..] == Segments(s[k + 1..])
  {
    assert s == s[..k] + "/" + s[k + 1..];
    SegmentsAtSlash(s[..k], s[k + 1..]);
    j := |Segments(s[..k])|;
  }

  /** ...and every proper tail follows a slash. */
  lemma {:induction false} SlashBeforeTail(s: string, j: nat) returns (k: nat)
    requires 1 <= j < |Segments(s)|
    ensures k < |s| && s[k] == '/' && Segments(s[k + 1..]) == Segments(s)[j..]
  {
    if s[0] == '/' {
      if j == 1 {
        k := 0;
      } else {
        k := SlashBeforeTail(s[1..], j - 1);
        assert s[1..][k + 1..] == s[k + 2..];
        k := k + 1;
      }
    } else {
      k := SlashBeforeTail(s[1..], j);
      assert s[1..][k + 1..] == s[k + 2..];
      assert Segments(s)[j..] == Segments(s[1..])[j..];
      k := k + 1;
    }
  }

  // The compiler, segment by segment
  // --------------------------------------------------------------------------------------------

  function SegmentTokens(p: string): seq<Token> {
    if p == "" then [] else [CharToken(p[0])] + SegmentTokens(p[1..])
  }

  function CompileSegments(globs: seq<string>): seq<Token>
    requires globs != []
  {
    if |globs| == 1 then if globs[0] == "**" then [AnyPath] else SegmentTokens(globs[0])
    else if globs[0] == "**" then [Dirs] + CompileSegments(globs[1..])
    else SegmentTokens(globs[0]) + [Literal('/')] + CompileSegments(globs[1..])
  }

  /** A character that does not begin a `**` compiles by itself. */
  lemma CompileChar(c: char, after: string)
    requires c == '*' && after != "" ==> after[0] != '*'
    ensures Compile([c] + after) == [CharToken(c)] + Compile(after)
  {
    var g := [c] + after;
    assert g[0] == c && g[1..] == after && (|g| > 1 ==> g[1] == after[0]);
  }

  lemma HeadAndRest(p: string, after: string)
    requires p != ""
    ensures p + after == [p[0]] + (p[1..] + after)
    ensures |p| > 1 ==> p[1..] + after != "" && (p[1..] + after)[0] == p[1]
    ensures |p| == 1 ==> p[1..] + after == after
  {
  }

  lemma CompileStep(p: string, after: string)
    requires p != "" && !Stars(p) && (|p| == 1 && p[0] == '*' && after != "" ==> after[0] != '*')
    ensures Compile(p + after) == [CharToken(p[0])] + Compile(p[1..] + after)
  {
    HeadAndRest(p, after);
    CompileChar(p[0], p[1..] + after);
  }

  lemma SegmentStep(p: string, tokens: seq<Token>)
    requires p != ""
    ensures SegmentTokens(p) + tokens == [CharToken(p[0])] + (SegmentTokens(p[1..]) + tokens)
  {
  }

  lemma {:induction false} PlainCompiles(p: string, after: string)
    requires Plain(p) && (p != "" && p[|p| - 1] == '*' && after != "" ==> after[0] != '*')
    ensures Compile(p + after) == SegmentTokens(p) + Compile(after)
  {
    var tokens := Compile(after);
    if p == "" {
      assert p + after == after && SegmentTokens(p) + tokens == tokens;
    } else {
      CompileStep(p, after);
      PlainCompiles(p[1..], after);
      SegmentStep(p, tokens);
    }
  }

  lemma StarsCompile(rest: string)
    ensures Compile("**/" + rest) == [Dirs] + Compile(rest)
    ensures Compile("**") == [AnyPath]
  {
    var g := "**/" + rest;
    assert StarsSlash(g) && g[3..] == rest;
    assert !StarsSlash("**") && "**"[2..] == "";
  }

  lemma PlainThenSlash(p: string, rest: string)
    requires Plain(p)
    ensures Compile(p + "/" + rest) == SegmentTokens(p) + [Literal('/')] + Compile(rest)
  {
    var after := ['/'] + rest;
    PlainCompiles(p, after);
    CompileChar('/', rest);
    assert p + "/" + rest == p + after;
    var tokens := Compile(rest);
    assert SegmentTokens(p) + ([Literal('/')] + tokens) == SegmentTokens(p) + [Literal('/')] + tokens;
  }

  lemma PlainAlone(p: string)
    requires Plain(p)
    ensures Compile(p) == SegmentTokens(p)
  {
    PlainCompiles(p, "");
    assert p + "" == p && SegmentTokens(p) + [] == SegmentTokens(p);
  }

  /** On such globs the left-to-right scan is the segment-by-segment translation. */
  lemma {:induction false} CompilesBySegment(globs: seq<string>, glob: string)
    requires globs != [] && WholeSegmentStars(globs) && Segments(glob) == globs
    ensures Compile(glob) == CompileSegments(globs)
    decreases |globs|
  {
    var p := globs[0];
    if |globs| == 1 {
      Unsplit(glob);
      if p == "**" { StarsCompile(""); } else { PlainAlone(p); }
    } else {
      var k := FirstSlash(glob);
      var rest := glob[k + 1..];
      assert glob == p + "/" + rest;
      CompilesBySegment(globs[1..], rest);
      if p == "**" {
        StarsCompile(rest);
        assert "**" + "/" + rest == "**/" + rest;
      } else {
        PlainThenSlash(p, rest);
      }
    }
  }

  lemma {:induction false} Unsplit(s: string)
    requires |Segments(s)| == 1
    ensures Segments(s) == [s] && '/' !in s
  {
    if s != "" {
      assert s == [s[0]] + s[1..];
      Unsplit(s[1..]);
    }
  }

  lemma {:induction false} FirstSlash(s: string) returns (k: nat)
    requires |Segments(s)| > 1
    ensures k < |s| && s[k] == '/' && '/' !in s[..k]
    ensures Segments(s) == [s[..k]] + Segments(s[k + 1..])
  {
    if s[0] == '/' {
      k := 0;
    } else {
      k := FirstSlash(s[1..]);
      assert s[1..][k + 1..] == s[k + 2..];
      assert s[..k + 1] == [s[0]] + s[1..][..k];
      k := k + 1;
    }
  }

  // The regular expression means what the glob means
  // --------------------------------------------------------------------------------------------

  /** One token, and then the rest. */
  lemma MatchCons(t: Token, rest: seq<Token>, s: string)
    ensures t.Literal? ==> (Match([t] + rest, s) <==> s != "" && s[0] == t.c && Match(rest, s[1..]))
    ensures t.One? ==> (Match([t] + rest, s) <==> s != "" && s[0] != '/' && Match(rest, s[1..]))
    ensures t.Run? ==> (Match([t] + rest, s) <==> exists k :: 0 <= k <= |s| && '/' !in s[..k] && Match(rest, s[k..]))
    ensures t.Dirs? ==> (Match([t] + rest, s) <==>
              Match(rest, s) || exists k :: 0 <= k < |s| && s[k] == '/' && '\n' !in s[..k] && Match(rest, s[k + 1..]))
  {
    assert ([t] + rest)[1..] == rest;
  }

  /** A segment's tokens match exactly a slash-free stretch that the segment's wildcards match. */
  ghost predicate Stretch(p: string, tokens: seq<Token>, s: string, k: nat) {
    k <= |s| && '/' !in s[..k] && SegmentMatch(p, s[..k]) && Match(tokens, s[k..])
  }

  /** A stretch of the rest, after `j` characters, as a stretch of the whole. */
  lemma Prepend(s: string, j: nat, k: nat)
    requires j + k <= |s|
    ensures s[..j + k] == s[..j] + s[j..][..k] && s[..j + k][j..] == s[j..][..k] && s[j + k..] == s[j..][k..]
  {
  }

  /** What a segment's first token takes. */
  lemma FirstToken(p: string, tokens: seq<Token>, s: string) returns (j: nat)
    requires p != "" && p[0] != '/' && Match(SegmentTokens(p) + tokens, s)
    ensures j <= |s| && '/' !in s[..j] && Match(SegmentTokens(p[1..]) + tokens, s[j..])
    ensures p[0] == '*' || (j == 1 && (p[0] == '?' || p[0] == s[0]))
  {
    var rest := SegmentTokens(p[1..]) + tokens;
    SegmentStep(p, tokens);
    MatchCons(CharToken(p[0]), rest, s);
    j := 1;
    if p[0] == '*' {
      j :| 0 <= j <= |s| && '/' !in s[..j] && Match(rest, s[j..]);
    }
  }

  lemma {:induction false} TokensToStretch(p: string, tokens: seq<Token>, s: string) returns (k: nat)
    requires '/' !in p && Match(SegmentTokens(p) + tokens, s)
    ensures Stretch(p, tokens, s, k)
    decreases |p|
  {
    if p == "" {
      k := 0;
      assert SegmentTokens(p) + tokens == tokens && s[0..] == s;
    } else {
      assert p == [p[0]] + p[1..];
      var j := FirstToken(p, tokens, s);
      k := TokensToStretch(p[1..], tokens, s[j..]);
      LongerStretch(p, tokens, s, j, k);
      k := j + k;
    }
  }

  lemma LongerStretch(p: string, tokens: seq<Token>, s: string, j: nat, k: nat)
    requires p != "" && p[0] != '/' && j <= |s| && '/' !in s[..j] && Stretch(p[1..], tokens, s[j..], k)
    requires p[0] == '*' || (j == 1 && (p[0] == '?' || p[0] == s[0]))
    ensures Stretch(p, tokens, s, j + k)
  {
    Prepend(s, j, k);
  }

  lemma {:induction false} StretchToTokens(p: string, tokens: seq<Token>, s: string, k: nat)
    requires '/' !in p && Stretch(p, tokens, s, k)
    ensures Match(SegmentTokens(p) + tokens, s)
    decreases |p|
  {
    if p == "" {
      assert SegmentTokens(p) + tokens == tokens && s[..k] == "" && s[0..] == s;
    } else {
      var j := ShorterStretch(p, tokens, s, k);
      assert p == [p[0]] + p[1..];
      StretchToTokens(p[1..], tokens, s[j..], k - j);
      var rest := SegmentTokens(p[1..]) + tokens;
      SegmentStep(p, tokens);
      MatchCons(CharToken(p[0]), rest, s);
    }
  }

  lemma ShorterStretch(p: string, tokens: seq<Token>, s: string, k: nat) returns (j: nat)
    requires p != "" && p[0] != '/' && Stretch(p, tokens, s, k)
    ensures j <= k && '/' !in s[..j] && Stretch(p[1..], tokens, s[j..], k - j)
    ensures p[0] == '*' || (j == 1 && s[0] != '/' && (p[0] == '?' || p[0] == s[0]))
  {
    var t := s[..k];
    j := 1;
    if p[0] == '*' {
      j :| 0 <= j <= |t| && SegmentMatch(p[1..], t[j..]);
    }
    Prepend(s, j, k - j);
    assert s[..j] == t[..j] && (j > 0 ==> s[0] == t[0]);
  }

  lemma {:induction false} NothingLeft(globs: seq<string>)
    requires globs != []
    ensures !PathMatch(globs, [])
    decreases |globs|
  {
    if globs != ["**"] && globs[0] == "**" {
      NothingLeft(globs[1..]);
    }
  }

  /** One segment that is no `**`, and then the rest. */
  lemma PathMatchCons(p: string, globs: seq<string>, t: string, segments: seq<string>)
    requires p != "**"
    ensures PathMatch([p] + globs, [t] + segments) <==> SegmentMatch(p, t) && PathMatch(globs, segments)
  {
    assert ([p] + globs)[1..] == globs && ([t] + segments)[1..] == segments && ([p] + globs)[0] == p;
  }

  lemma LastSegment(p: string, s: string)
    requires '/' !in p && p != "**"
    ensures Match(SegmentTokens(p), s) <==> PathMatch([p], Segments(s))
  {
    assert SegmentTokens(p) + [] == SegmentTokens(p) && [p] + [] == [p];
    if Match(SegmentTokens(p), s) {
      var k := TokensToStretch(p, [], s);
      assert s[..k] == s;
      OneSegment(s);
      PathMatchCons(p, [], s, []);
      assert [s] + [] == [s];
    }
    if PathMatch([p], Segments(s)) {
      var segments := Segments(s);
      assert segments == [segments[0]] + segments[1..];
      PathMatchCons(p, [], segments[0], segments[1..]);
      Unsplit(s);
      assert s[..|s|] == s && s[|s|..] == "";
      StretchToTokens(p, [], s, |s|);
    }
  }

  /** A slash that follows a slash-free stretch ends the first segment. */
  lemma SplitAt(s: string, k: nat)
    requires k < |s| && s[k] == '/' && '/' !in s[..k]
    ensures Segments(s) == [s[..k]] + Segments(s[k + 1..])
  {
    assert s == s[..k] + "/" + s[k + 1..];
    SegmentsAtSlash(s[..k], s[k + 1..]);
    OneSegment(s[..k]);
  }

  /**
   A segment's tokens, a slash and more tokens match where the first segment does and the tokens match what follows.
   */
  lemma InnerForth(p: string, tokens: seq<Token>, s: string) returns (k: nat)
    requires '/' !in p && Match(SegmentTokens(p) + ([Literal('/')] + tokens), s)
    ensures k < |s| && SegmentMatch(p, s[..k]) && Match(tokens, s[k + 1..])
    ensures Segments(s) == [s[..k]] + Segments(s[k + 1..])
  {
    k := TokensToStretch(p, [Literal('/')] + tokens, s);
    MatchCons(Literal('/'), tokens, s[k..]);
    assert s[k..][1..] == s[k + 1..];
    SplitAt(s, k);
  }

  lemma InnerBack(p: string, tokens: seq<Token>, s: string, k: nat)
    requires '/' !in p && k < |s| && s[k] == '/' && '/' !in s[..k]
    requires SegmentMatch(p, s[..k]) && Match(tokens, s[k + 1..])
    ensures Match(SegmentTokens(p) + ([Literal('/')] + tokens), s)
  {
    assert s[k..][1..] == s[k + 1..];
    MatchCons(Literal('/'), tokens, s[k..]);
    StretchToTokens(p, [Literal('/')] + tokens, s, k);
  }

  /** One plain segment before segments for which the meaning is known. */
  lemma {:induction false} PlainMeans(p: string, globs: seq<string>, s: string)
    requires '/' !in p && p != "**" && globs != [] && WholeSegmentStars(globs) && '\n' !in s
    ensures Match(SegmentTokens(p) + ([Literal('/')] + CompileSegments(globs)), s) <==>
            PathMatch([p] + globs, Segments(s))
    decreases |globs|, 1
  {
    var tokens := CompileSegments(globs);
    if Match(SegmentTokens(p) + ([Literal('/')] + tokens), s) {
      var k := InnerForth(p, tokens, s);
      MatchMeans(globs, s[k + 1..]);
      PathMatchCons(p, globs, s[..k], Segments(s[k + 1..]));
    }
    if PathMatch([p] + globs, Segments(s)) {
      if |Segments(s)| == 1 {
        assert Segments(s) == [Segments(s)[0]] + [];
        PathMatchCons(p, globs, Segments(s)[0], []);
        NothingLeft(globs);
      } else {
        var k := FirstSlash(s);
        PathMatchCons(p, globs, s[..k], Segments(s[k + 1..]));
        MatchMeans(globs, s[k + 1..]);
        InnerBack(p, tokens, s, k);
      }
    }
  }

  lemma StarsCons(globs: seq<string>, segments: seq<string>)
    requires globs != []
    ensures PathMatch(["**"] + globs, segments) <==> exists j :: 0 <= j <= |segments| && PathMatch(globs, segments[j..])
  {
    assert (["**"] + globs)[1..] == globs && (["**"] + globs)[0] == "**" && ["**"] + globs != ["**"];
  }

  /** `**` before segments for which the meaning is known. */
  lemma {:induction false} StarsMean(globs: seq<string>, s: string)
    requires globs != [] && WholeSegmentStars(globs) && '\n' !in s
    ensures Match([Dirs] + CompileSegments(globs), s) <==> PathMatch(["**"] + globs, Segments(s))
    decreases |globs|, 1
  {
    var tokens, segments := CompileSegments(globs), Segments(s);
    MatchCons(Dirs, tokens, s);
    StarsCons(globs, segments);
    assert segments[0..] == segments;
    if Match([Dirs] + tokens, s) {
      if Match(tokens, s) {
        MatchMeans(globs, s);
      } else {
        var k :| 0 <= k < |s| && s[k] == '/' && '\n' !in s[..k] && Match(tokens, s[k + 1..]);
        var j := TailAfterSlash(s, k);
        MatchMeans(globs, s[k + 1..]);
        assert PathMatch(globs, segments[j..]);
      }
    }
    if PathMatch(["**"] + globs, segments) {
      var j :| 0 <= j <= |segments| && PathMatch(globs, segments[j..]);
      NothingLeft(globs);
      if j == 0 {
        MatchMeans(globs, s);
      } else {
        var k := SlashBeforeTail(s, j);
        MatchMeans(globs, s[k + 1..]);
        assert Match(tokens, s[k + 1..]) && '\n' !in s[..k];
      }
    }
  }

  lemma {:induction false} MatchMeans(globs: seq<string>, s: string)
    requires globs != [] && WholeSegmentStars(globs) && '\n' !in s
    ensures Match(CompileSegments(globs), s) <==> PathMatch(globs, Segments(s))
    decreases |globs|, 0
  {
    var p := globs[0];
    if |globs| == 1 {
      assert globs == [p];
      if p == "**" {
        DotMatches(s);
      } else {
        LastSegment(p, s);
      }
    } else {
      var rest := globs[1..];
      assert globs == [p] + rest;
      if p == "**" {
        StarsMean(rest, s);
      } else {
        PlainMeans(p, rest, s);
        var tokens := CompileSegments(rest);
        assert SegmentTokens(p) + ([Literal('/')] + tokens) == SegmentTokens(p) + [Literal('/')] + tokens;
      }
    }
  }

  /**
   For every glob in which `**` is always a whole segment, and every path without a newline, the emitted expression
   matches the path exactly when the path's segments match the glob's.
   */
  lemma GlobMeaning(glob: string, path: string)
    requires WholeSegmentStars(Segments(glob)) && '\n' !in path
    ensures Matches(glob, path) <==> PathMatch(Segments(glob), Segments(path))
  {
    CompilesBySegment(Segments(glob), glob);
    MatchMeans(Segments(glob), path);
  }

  // Where the documented meaning and the compiled one part
  // --------------------------------------------------------------------------------------------

  predicate ClosedByStars(globs: seq<string>) {
    globs != [] && globs[|globs| - 1] == "**"
  }

  /** They are the same when `**` is not last. */
  lemma {:induction false} SameUnlessClosed(globs: seq<string>, segments: seq<string>)
    requires !ClosedByStars(globs)
    ensures PathMatch(globs, segments) <==> AnyNumber(globs, segments)
    decreases |globs|
  {
    if globs != [] {
      forall j | 0 <= j <= |segments|
        ensures PathMatch(globs[1..], segments[j..]) <==> AnyNumber(globs[1..], segments[j..])
      {
        SameUnlessClosed(globs[1..], segments[j..]);
      }
    }
  }

  /** When it is, the documented meaning adds exactly what matches without it. */
  lemma {:induction false} ClosingStarsAdd(globs: seq<string>, segments: seq<string>)
    ensures AnyNumber(globs + ["**"], segments) <==> PathMatch(globs + ["**"], segments) || AnyNumber(globs, segments)
    decreases |globs|
  {
    var closed := globs + ["**"];
    if globs == [] {
      assert closed == ["**"];
      ClosingAlone(segments);
    } else {
      assert closed[1..] == globs[1..] + ["**"] && closed[0] == globs[0] && closed != ["**"];
      forall j | 0 <= j <= |segments|
        ensures AnyNumber(closed[1..], segments[j..]) <==>
                PathMatch(closed[1..], segments[j..]) || AnyNumber(globs[1..], segments[j..])
      {
        ClosingStarsAdd(globs[1..], segments[j..]);
      }
    }
  }

  lemma ClosingAlone(segments: seq<string>)
    ensures AnyNumber(["**"], segments)
  {
    assert segments[|segments|..] == [] && ["**"][1..] == [];
    assert AnyNumber(["**"][1..], segments[|segments|..]);
  }

  /**
   What is compiled matches exactly the paths of which the glob without its closing `**` matches a proper beginning.
   */
  lemma {:induction false} ClosedMeans(globs: seq<string>, segments: seq<string>)
    ensures PathMatch(globs + ["**"], segments) <==>
            exists j :: 0 <= j < |segments| && AnyNumber(globs, segments[..j])
    decreases |globs|
  {
    var closed := globs + ["**"];
    if globs == [] {
      assert closed == ["**"];
      if segments != [] { assert AnyNumber(globs, segments[..0]); }
    } else {
      assert closed[1..] == globs[1..] + ["**"] && closed[0] == globs[0] && closed != ["**"];
      if globs[0] == "**" {
        ClosedStars(globs, segments);
      } else {
        ClosedPlain(globs, segments);
      }
    }
  }

  lemma {:induction false} ClosedStars(globs: seq<string>, segments: seq<string>)
    requires globs != [] && globs[0] == "**"
    ensures (exists k :: 0 <= k <= |segments| && PathMatch(globs[1..] + ["**"], segments[k..])) <==>
            exists j :: 0 <= j < |segments| && AnyNumber(globs, segments[..j])
    decreases |globs|, 0
  {
    var rest := globs[1..];
    if k :| 0 <= k <= |segments| && PathMatch(rest + ["**"], segments[k..]) {
      ClosedMeans(rest, segments[k..]);
      var i :| 0 <= i < |segments[k..]| && AnyNumber(rest, segments[k..][..i]);
      assert segments[..k + i][k..] == segments[k..][..i];
      assert AnyNumber(globs, segments[..k + i]);
    }
    if j :| 0 <= j < |segments| && AnyNumber(globs, segments[..j]) {
      var k :| 0 <= k <= j && AnyNumber(rest, segments[..j][k..]);
      assert segments[..j][k..] == segments[k..][..j - k];
      ClosedMeans(rest, segments[k..]);
    }
  }

  lemma {:induction false} ClosedPlain(globs: seq<string>, segments: seq<string>)
    requires globs != [] && globs[0] != "**"
    ensures (&& segments != [] && SegmentMatch(globs[0], segments[0])
             && PathMatch(globs[1..] + ["**"], segments[1..])) <==>
            exists j :: 0 <= j < |segments| && AnyNumber(globs, segments[..j])
    decreases |globs|, 0
  {
    var rest := globs[1..];
    if segments != [] {
      ClosedMeans(rest, segments[1..]);
    }
    if segments != [] && SegmentMatch(globs[0], segments[0]) && PathMatch(rest + ["**"], segments[1..]) {
      var i :| 0 <= i < |segments[1..]| && AnyNumber(rest, segments[1..][..i]);
      assert segments[..i + 1][1..] == segments[1..][..i];
      assert AnyNumber(globs, segments[..i + 1]);
    }
    if j :| 0 <= j < |segments| && AnyNumber(globs, segments[..j]) {
      assert segments[..j][1..] == segments[1..][..j - 1];
    }
  }

  /** The two meanings, compared. */
  lemma MeaningsCompared(globs: seq<string>, segments: seq<string>)
    ensures AnyNumber(globs, segments) <==>
            PathMatch(globs, segments) || (ClosedByStars(globs) && AnyNumber(globs[..|globs| - 1], segments))
  {
    if ClosedByStars(globs) {
      assert globs == globs[..|globs| - 1] + ["**"];
      ClosingStarsAdd(globs[..|globs| - 1], segments);
    } else {
      SameUnlessClosed(globs, segments);
    }
  }

  /**
   For every glob in which `**` is always a whole segment, the expression adds no newline-free path to the documented
   meaning, and loses exactly those that match the glob without its closing `**` as a whole and in no proper beginning.
   */
  lemma LostPathsExactly(glob: string, path: string)
    requires WholeSegmentStars(Segments(glob)) && '\n' !in path
    ensures var globs, segments := Segments(glob), Segments(path);
      && (Matches(glob, path) ==> AnyNumber(globs, segments))
      && (AnyNumber(globs, segments) && !Matches(glob, path) <==>
            && ClosedByStars(globs) && AnyNumber(globs[..|globs| - 1], segments)
            && forall j :: 0 <= j < |segments| ==> !AnyNumber(globs[..|globs| - 1], segments[..j]))
  {
    var globs, segments := Segments(glob), Segments(path);
    GlobMeaning(glob, path);
    MeaningsCompared(globs, segments);
    if ClosedByStars(globs) {
      assert globs == globs[..|globs| - 1] + ["**"];
      ClosedMeans(globs[..|globs| - 1], segments);
    }
  }

  /** The segments that are no `**`. */
  function Solid(globs: seq<string>): seq<string> {
    if globs == [] then [] else (if globs[0] == "**" then [] else [globs[0]]) + Solid(globs[1..])
  }

  /** A string that a segment matches. */
  function Instance(p: string): string {
    if p == "" then ""
    else (if p[0] == '*' then "" else if p[0] == '?' then "x" else [p[0]]) + Instance(p[1..])
  }

  lemma {:induction false} InstanceMatches(p: string)
    requires '/' !in p && '\n' !in p
    ensures SegmentMatch(p, Instance(p)) && '/' !in Instance(p) && '\n' !in Instance(p)
  {
    if p != "" {
      assert p == [p[0]] + p[1..];
      InstanceMatches(p[1..]);
      var t := Instance(p[1..]);
      if p[0] == '*' {
        assert Instance(p) == t && t[0..] == t;
      } else {
        assert Instance(p)[1..] == t;
      }
    }
  }

  function Instances(globs: seq<string>): seq<string> {
    if globs == [] then [] else (if globs[0] == "**" then [] else [Instance(globs[0])]) + Instances(globs[1..])
  }

  predicate Writable(globs: seq<string>) {
    forall p :: p in globs ==> '/' !in p && '\n' !in p
  }

  lemma {:induction false} InstancesMatch(globs: seq<string>)
    requires Writable(globs)
    ensures AnyNumber(globs, Instances(globs)) && Writable(Instances(globs)) && |Instances(globs)| == |Solid(globs)|
    decreases |globs|
  {
    if globs != [] {
      InstancesMatch(globs[1..]);
      var rest := Instances(globs[1..]);
      if globs[0] == "**" {
        assert Instances(globs) == rest && rest[0..] == rest;
      } else {
        InstanceMatches(globs[0]);
        assert Instances(globs)[1..] == rest;
      }
    }
  }

  /** What is compiled needs a segment for each that is no `**`, and one more for a closing `**`. */
  lemma {:induction false} NeedsSegments(globs: seq<string>, segments: seq<string>)
    requires ClosedByStars(globs) && PathMatch(globs, segments)
    ensures |segments| > |Solid(globs)|
    decreases |globs|
  {
    if globs != ["**"] {
      if globs[0] == "**" {
        var j :| 0 <= j <= |segments| && PathMatch(globs[1..], segments[j..]);
        NeedsSegments(globs[1..], segments[j..]);
      } else {
        NeedsSegments(globs[1..], segments[1..]);
      }
    }
  }

  function JoinSegments(segments: seq<string>): string
    requires segments != []
  {
    if |segments| == 1 then segments[0] else segments[0] + "/" + JoinSegments(segments[1..])
  }

  lemma {:induction false} JoinThenSplit(segments: seq<string>)
    requires segments != [] && Writable(segments)
    ensures Segments(JoinSegments(segments)) == segments && '\n' !in JoinSegments(segments)
    decreases |segments|
  {
    OneSegment(segments[0]);
    if |segments| > 1 {
      JoinThenSplit(segments[1..]);
      SegmentsAtSlash(segments[0], JoinSegments(segments[1..]));
      assert segments == [segments[0]] + segments[1..];
    }
  }

  /** A newline in a glob's segment has to be met in the path. */
  lemma {:induction false} NewlineInSegment(p: string, t: string)
    requires SegmentMatch(p, t) && '\n' in p
    ensures '\n' in t
    decreases |p|
  {
    assert p == [p[0]] + p[1..];
    if p[0] == '*' {
      var k :| 0 <= k <= |t| && SegmentMatch(p[1..], t[k..]);
      NewlineInSegment(p[1..], t[k..]);
    } else if p[0] != '\n' {
      NewlineInSegment(p[1..], t[1..]);
    }
  }

  lemma {:induction false} NewlineInSegments(globs: seq<string>, segments: seq<string>, p: string) returns (t: string)
    requires AnyNumber(globs, segments) && p in globs && '\n' in p
    ensures t in segments && '\n' in t
    decreases |globs|
  {
    if globs[0] == "**" {
      var j :| 0 <= j <= |segments| && AnyNumber(globs[1..], segments[j..]);
      t := NewlineInSegments(globs[1..], segments[j..], p);
    } else if p == globs[0] {
      t := segments[0];
      NewlineInSegment(p, t);
    } else {
      t := NewlineInSegments(globs[1..], segments[1..], p);
    }
  }

  lemma {:induction false} SegmentsWithin(s: string, c: char)
    requires c != '/'
    ensures c in s <==> exists p :: p in Segments(s) && c in p
  {
    if s != "" {
      SegmentsWithin(s[1..], c);
      var rest := Segments(s[1..]);
      assert s == [s[0]] + s[1..];
      assert rest == [rest[0]] + rest[1..];
      if s[0] == '/' {
        assert Segments(s) == [""] + rest;
      } else {
        assert Segments(s) == [[s[0]] + rest[0]] + rest[1..];
        assert c in [s[0]] + rest[0] <==> c == s[0] || c in rest[0];
      }
    }
  }

  ghost predicate AsDocumented(glob: string) {
    forall path :: '\n' !in path ==> (Matches(glob, path) <==> AnyNumber(Segments(glob), Segments(path)))
  }

  /** A path that is lost: what the glob stands for with nothing in place of any `**`. */
  lemma ALostPath(glob: string) returns (path: string)
    requires WholeSegmentStars(Segments(glob)) && ClosedByStars(Segments(glob)) && '\n' !in glob
    requires Solid(Segments(glob)) != []
    ensures '\n' !in path && !Matches(glob, path) && AnyNumber(Segments(glob), Segments(path))
  {
    var globs := Segments(glob);
    var init := globs[..|globs| - 1];
    assert globs == init + ["**"];
    SegmentsWithin(glob, '\n');
    assert Writable(init);
    InstancesMatch(init);
    SolidOfClosed(init);
    path := JoinSegments(Instances(init));
    JoinThenSplit(Instances(init));
    if PathMatch(globs, Segments(path)) {
      NeedsSegments(globs, Segments(path));
      assert false;
    }
    GlobMeaning(glob, path);
    MeaningsCompared(Segments(glob), Segments(path));
  }

  lemma {:induction false} SolidOfClosed(globs: seq<string>)
    ensures Solid(globs + ["**"]) == Solid(globs)
    decreases |globs|
  {
    if globs == [] {
      assert globs + ["**"] == ["**"] && ["**"][1..] == [];
    } else {
      assert (globs + ["**"])[1..] == globs[1..] + ["**"] && (globs + ["**"])[0] == globs[0];
      SolidOfClosed(globs[1..]);
    }
  }

  /** Nothing but `**`: everything matches. */
  lemma {:induction false} OnlyStars(globs: seq<string>, segments: seq<string>)
    requires globs != [] && Solid(globs) == [] && segments != []
    ensures PathMatch(globs, segments)
    decreases |globs|
  {
    assert globs[0] == "**";
    if |globs| == 1 {
      assert globs == ["**"];
    } else {
      OnlyStars(globs[1..], segments);
      assert segments[0..] == segments;
    }
  }

  /**
   Where `**` is always a whole segment, the documented meaning holds of all newline-free paths unless the glob ends in
   `**` after some other segment, and is itself free of newlines.
   */
  lemma DocumentedExactly(glob: string)
    requires WholeSegmentStars(Segments(glob))
    ensures AsDocumented(glob) <==> !(ClosedByStars(Segments(glob)) && Solid(Segments(glob)) != [] && '\n' !in glob)
  {
    var globs := Segments(glob);
    if ClosedByStars(globs) && Solid(globs) != [] && '\n' !in glob {
      var path := ALostPath(glob);
    } else {
      forall path | '\n' !in path
        ensures Matches(glob, path) <==> AnyNumber(globs, Segments(path))
      {
        NotLost(glob, path);
      }
    }
  }

  lemma NotLost(glob: string, path: string)
    requires WholeSegmentStars(Segments(glob)) && '\n' !in path
    requires !ClosedByStars(Segments(glob)) || Solid(Segments(glob)) == [] || '\n' in glob
    ensures Matches(glob, path) <==> AnyNumber(Segments(glob), Segments(path))
  {
    var globs, segments := Segments(glob), Segments(path);
    GlobMeaning(glob, path);
    MeaningsCompared(Segments(glob), Segments(path));
    if Solid(globs) == [] {
      OnlyStars(globs, segments);
    } else if '\n' in glob && AnyNumber(globs, segments) {
      SegmentsWithin(glob, '\n');
      SegmentsWithin(path, '\n');
      var p :| p in globs && '\n' in p;
      var t := NewlineInSegments(globs, segments, p);
      assert false;
    }
  }

  // `**` inside a segment
  // --------------------------------------------------------------------------------------------

  /** What a segment matches, it matches with `**` and anything after it. */
  lemma {:induction false} StarsTakeMore(p: string, t: string, more: string)
    requires SegmentMatch(p, t)
    ensures SegmentMatch(p + "**", t + more)
    decreases |p|
  {
    if p == "" {
      assert p + "**" == "**" && t + more == more;
      assert more[|more|..] == "" && "**"[1..] == "*" && "*"[1..] == "";
      assert SegmentMatch("", more[|more|..]);
      assert SegmentMatch("*", more[|more|..]) by {
        assert more[|more|..][0..] == "";
      }
    } else {
      assert (p + "**")[1..] == p[1..] + "**" && (p + "**")[0] == p[0];
      if p[0] == '*' {
        var k :| 0 <= k <= |t| && SegmentMatch(p[1..], t[k..]);
        StarsTakeMore(p[1..], t[k..], more);
        assert (t + more)[k..] == t[k..] + more;
      } else {
        StarsTakeMore(p[1..], t[1..], more);
        assert (t + more)[1..] == t[1..] + more;
      }
    }
  }

  /**
   Closing a segment that does not end in `*`, `**` takes anything, slashes included, after what the segment matches;
   as a wildcard of that segment it would take exactly what has no slash.
   */
  lemma InnerStarsCrossSlashes(p: string, t: string, more: string)
    requires Plain(p) && '/' !in p && p != "" && p[|p| - 1] != '*'
    requires SegmentMatch(p, t) && '/' !in t && '\n' !in t + more
    ensures Matches(p + "**", t + more)
    ensures PathMatch(Segments(p + "**"), Segments(t + more)) <==> '/' !in more
  {
    PlainCompiles(p, "**");
    StarsCompile("");
    DotMatches(more);
    var s := t + more;
    assert s[..|t|] == t && s[|t|..] == more;
    StretchToTokens(p, [AnyPath], s, |t|);
    assert |p + "**"| > |"**"| && forall c :: c in p + "**" ==> c in p || c == '*';
    InnerAsSegment(p, p + "**", t, more);
  }

  lemma OneGlob(q: string, s: string)
    requires '/' !in q && q != "**"
    ensures PathMatch(Segments(q), Segments(s)) <==> '/' !in s && SegmentMatch(q, s)
  {
    OneSegment(q);
    var segments := Segments(s);
    PathMatchCons(q, [], segments[0], segments[1..]);
    assert [q] + [] == [q] && [segments[0]] + segments[1..] == segments;
    if |segments| == 1 {
      Unsplit(s);
    } else {
      var k := FirstSlash(s);
    }
  }

  lemma InnerAsSegment(p: string, q: string, t: string, more: string)
    requires q == p + "**" && '/' !in q && q != "**" && SegmentMatch(p, t) && '/' !in t
    ensures PathMatch(Segments(q), Segments(t + more)) <==> '/' !in more
  {
    OneGlob(q, t + more);
    StarsTakeMore(p, t, more);
  }

  lemma DotMatches(s: string)
    requires '\n' !in s
    ensures Match([AnyPath], s)
  {
    assert s[..|s|] == s && |s[|s|..]| == 0 && [AnyPath][1..] == [];
    assert Match([], s[|s|..]);
  }
}
