/** The deep merge that layers configuration tables, later sources taking precedence. */
module Merge {
  import opened Wrappers

  datatype Value = Scalar(text: string) | Table(entries: map<string, Value>)

  const EMPTY: Value := Table(map[])

  function Get(t: Value, key: string): Value
    requires t.Table?
  {
    if key in t.entries then t.entries[key] else EMPTY
  }

  /** One value over another: tables merge key by key, anything else replaces. */
  function Over(low: Value, top: Value): Value
    decreases top
  {
    if !low.Table? || !top.Table? then top
    else Table(map key | key in low.entries.Keys + top.entries.Keys ::
                 if key in top.entries then Over(Get(low, key), top.entries[key]) else low.entries[key])
  }

  function MergeAll(sources: seq<Value>): Value {
    if sources == [] then EMPTY else Over(MergeAll(sources[..|sources| - 1]), sources[|sources| - 1])
  }

  ghost predicate AllTables(sources: seq<Value>) {
    forall t :: t in sources ==> t.Table?
  }

  // The loop
  // --------------------------------------------------------------------------------------------

  method Merge(sources: seq<Value>) returns (rv: Value)
    requires AllTables(sources)
    ensures rv == MergeAll(sources) && rv.Table?
  {
    rv := EMPTY;
    for i := 0 to |sources|
      invariant rv == MergeAll(sources[..i]) && rv.Table?
    {
      assert sources[..i + 1] == sources[..i] + [sources[i]];
      rv := MergeSource(rv, sources[i]);
    }
    assert sources[..|sources|] == sources;
  }

  /** One source's keys, in any order, into the table so far. */
  method MergeSource(before: Value, source: Value) returns (rv: Value)
    requires before.Table? && source.Table?
    ensures rv == Over(before, source) && rv.Table?
    decreases source
  {
    var entries, keys := before.entries, source.entries.Keys;
    while keys != {}
      invariant keys <= source.entries.Keys
      invariant entries == Partly(before, source, source.entries.Keys - keys)
      decreases |keys|
    {
      var key :| key in keys;
      var low, top := if key in entries then entries[key] else EMPTY, source.entries[key];
      PartlyMore(before, source, source.entries.Keys - keys, key);
      assert source.entries.Keys - (keys - {key}) == (source.entries.Keys - keys) + {key};
      var merged := top;
      if top.Table? && low.Table? {
        merged := MergeSource(low, top);
      }
      entries := entries[key := merged];
      keys := keys - {key};
    }
    rv := Table(entries);
    PartlyAll(before, source, source.entries.Keys - keys);
  }

  /** The table so far once the keys in `done` have been merged. */
  ghost function Partly(before: Value, source: Value, done: set<string>): map<string, Value>
    requires before.Table? && source.Table? && done <= source.entries.Keys
  {
    map key | key in before.entries.Keys + done ::
      if key in done then Over(Get(before, key), source.entries[key]) else before.entries[key]
  }

  lemma PartlyAll(before: Value, source: Value, done: set<string>)
    requires before.Table? && source.Table? && done == source.entries.Keys
    ensures Table(Partly(before, source, done)) == Over(before, source)
  {
    assert Partly(before, source, done) == Over(before, source).entries;
  }

  lemma PartlyMore(before: Value, source: Value, done: set<string>, key: string)
    requires before.Table? && source.Table? && done <= source.entries.Keys
    requires key in source.entries && key !in done
    ensures Partly(before, source, done + {key}) ==
              Partly(before, source, done)[key := Over(Get(before, key), source.entries[key])]
    ensures Get(Table(Partly(before, source, done)), key) == Get(before, key)
  {
  }

  // Identity and layering
  // --------------------------------------------------------------------------------------------

  /** Merging over nothing copies, so the copy a nested merge takes of its first table changes nothing. */
  lemma {:induction false} OverEmpty(v: Value)
    ensures Over(EMPTY, v) == v
    decreases v
  {
    if v.Table? {
      forall key | key in v.entries ensures Over(EMPTY, v).entries[key] == v.entries[key] {
        OverEmpty(v.entries[key]);
      }
      assert Over(EMPTY, v).entries == v.entries;
    }
  }

  lemma EmptyOver(t: Value)
    requires t.Table?
    ensures Over(t, EMPTY) == t
  {
    assert Over(t, EMPTY).entries == t.entries;
  }

  /** Merging one more table over an already merged result is one merge with that table last. */
  lemma LayersOnTop(sources: seq<Value>, top: Value)
    requires AllTables(sources) && top.Table?
    ensures MergeAll([MergeAll(sources), top]) == MergeAll(sources + [top])
  {
    var below := MergeAll(sources);
    assert (sources + [top])[..|sources|] == sources;
    assert [below, top][..1] == [below] && [below][..0] == [];
    assert MergeAll([below]) == Over(EMPTY, below);
    OverEmpty(below);
  }

  // The last source decides
  // --------------------------------------------------------------------------------------------

  type Path = seq<string>

  function Leaf(v: Value, path: Path): Option<string>
    decreases |path|
  {
    if path == [] then if v.Scalar? then Some(v.text) else None
    else if v.Table? && path[0] in v.entries then Leaf(v.entries[path[0]], path[1..])
    else None
  }

  /** The source says something at the path: a value there, or a scalar somewhere on the way. */
  predicate Touches(v: Value, path: Path)
    decreases |path|
  {
    path == [] || v.Scalar? || (path[0] in v.entries && Touches(v.entries[path[0]], path[1..]))
  }

  /** What the last source that touches the path has there. */
  function LastWord(sources: seq<Value>, path: Path): Option<string> {
    if sources == [] then None
    else
      var last := sources[|sources| - 1];
      if Touches(last, path) then Leaf(last, path) else LastWord(sources[..|sources| - 1], path)
  }

  lemma {:induction false} UntouchedHasNoLeaf(v: Value, path: Path)
    requires !Touches(v, path)
    ensures Leaf(v, path).None?
    decreases |path|
  {
    if path[0] in v.entries {
      UntouchedHasNoLeaf(v.entries[path[0]], path[1..]);
    }
  }

  lemma {:induction false} OverLeaf(low: Value, top: Value, path: Path)
    ensures Leaf(Over(low, top), path) == if Touches(top, path) then Leaf(top, path) else Leaf(low, path)
    decreases |path|
  {
    if path != [] && top.Table? {
      if low.Scalar? {
        if !Touches(top, path) { UntouchedHasNoLeaf(top, path); }
      } else if path[0] in top.entries {
        OverLeaf(Get(low, path[0]), top.entries[path[0]], path[1..]);
      }
    }
  }

  /** At every path the last source that touches it decides. */
  lemma {:induction false} LastSourceDecides(sources: seq<Value>, path: Path)
    requires path != []
    ensures Leaf(MergeAll(sources), path) == LastWord(sources, path)
  {
    if sources != [] {
      LastSourceDecides(sources[..|sources| - 1], path);
      OverLeaf(MergeAll(sources[..|sources| - 1]), sources[|sources| - 1], path);
    }
  }

  // When merging is associative
  // --------------------------------------------------------------------------------------------

  /** Every key of `x` is covered by `z`, all the way down: merging `x` under `z` adds nothing. */
  predicate Absorbed(x: Value, z: Value)
    decreases z
  {
    x.Table? && z.Table? ==>
      forall key :: key in x.entries ==> key in z.entries && Absorbed(x.entries[key], z.entries[key])
  }

  /** Somewhere a table is hidden by a scalar in the middle and a table on top does not cover it. */
  predicate Clash(a: Value, b: Value, c: Value)
    decreases c
  {
    && a.Table? && c.Table?
    && if b.Scalar? then !Absorbed(a, c)
       else exists key :: key in c.entries && key in a.entries && key in b.entries
                          && Clash(a.entries[key], b.entries[key], c.entries[key])
  }

  lemma {:induction false} AbsorbedExactly(x: Value, z: Value)
    ensures Over(x, z) == z <==> Absorbed(x, z)
    decreases z
  {
    if x.Table? && z.Table? {
      var o := Over(x, z);
      forall key | key in z.entries ensures Over(Get(x, key), z.entries[key]) == o.entries[key] {}
      forall key | key in z.entries && key in x.entries
        ensures Over(x.entries[key], z.entries[key]) == z.entries[key] <==> Absorbed(x.entries[key], z.entries[key])
      {
        AbsorbedExactly(x.entries[key], z.entries[key]);
      }
      forall key | key in z.entries && key !in x.entries ensures o.entries[key] == z.entries[key] {
        OverEmpty(z.entries[key]);
      }
      if Absorbed(x, z) {
        assert o.entries == z.entries;
      }
      if o == z {
        forall key | key in x.entries ensures key in z.entries && Absorbed(x.entries[key], z.entries[key]) {
          assert key in o.entries;
        }
      }
    }
  }

  /** What the two groupings put under a key that all of the three may have. */
  lemma {:induction false} AssociativeExactly(a: Value, b: Value, c: Value)
    ensures Over(Over(a, b), c) == Over(a, Over(b, c)) <==> !Clash(a, b, c)
    decreases c
  {
    if a.Table? && c.Table? {
      if b.Scalar? {
        AbsorbedExactly(a, c);
      } else {
        var l, r := Over(Over(a, b), c), Over(a, Over(b, c));
        assert l.entries.Keys == r.entries.Keys;
        forall key | key in l.entries
          ensures l.entries[key] == r.entries[key] <==>
                    !(key in a.entries && key in b.entries && key in c.entries
                      && Clash(a.entries[key], b.entries[key], c.entries[key]))
        {
          KeyAssociative(a, b, c, key);
        }
        if l == r {
          assert !Clash(a, b, c);
        } else {
          var key :| key in l.entries && l.entries[key] != r.entries[key];
        }
      }
    }
  }

  lemma {:induction false} KeyAssociative(a: Value, b: Value, c: Value, key: string)
    requires a.Table? && b.Table? && c.Table?
    requires key in a.entries || key in b.entries || key in c.entries
    ensures key in Over(Over(a, b), c).entries && key in Over(a, Over(b, c)).entries
    ensures Over(Over(a, b), c).entries[key] == Over(a, Over(b, c)).entries[key] <==>
              !(key in a.entries && key in b.entries && key in c.entries
                && Clash(a.entries[key], b.entries[key], c.entries[key]))
    decreases c, 0
  {
    if key in c.entries {
      var x, y, z := Get(a, key), Get(b, key), c.entries[key];
      if key in b.entries {
        if key in a.entries {
          AssociativeExactly(x, y, z);
        } else {
          OverEmpty(y);
          OverEmpty(Over(y, z));
        }
      } else {
        OverEmpty(z);
      }
    }
  }

  /** No path holds a table in one of the three and a scalar in another. */
  predicate Compatible(a: Value, b: Value)
    decreases b
  {
    && a.Table? == b.Table?
    && (a.Table? ==> forall key :: key in a.entries && key in b.entries ==> Compatible(a.entries[key], b.entries[key]))
  }

  /** So merging is associative on sources that agree on what is a table. */
  lemma {:induction false} CompatibleAssociates(a: Value, b: Value, c: Value)
    requires Compatible(a, b) && Compatible(b, c)
    ensures Over(Over(a, b), c) == Over(a, Over(b, c))
  {
    CompatibleNoClash(a, b, c);
    AssociativeExactly(a, b, c);
  }

  lemma {:induction false} CompatibleNoClash(a: Value, b: Value, c: Value)
    requires Compatible(a, b) && Compatible(b, c)
    ensures !Clash(a, b, c)
    decreases c
  {
    if a.Table? && b.Table? && c.Table? {
      forall key | key in c.entries && key in a.entries && key in b.entries
        ensures !Clash(a.entries[key], b.entries[key], c.entries[key])
      {
        CompatibleNoClash(a.entries[key], b.entries[key], c.entries[key]);
      }
    }
  }

  /**
   A table under a scalar under a table: grouped to the left the scalar wipes it out, to the right it shines through.
   */
  lemma GroupingMatters()
    ensures var a, b, c := Table(map["x" := Scalar("1")]), Scalar("off"), Table(map["y" := Scalar("2")]);
      var key := (v: Value) => Table(map["k" := v]);
      Over(Over(key(a), key(b)), key(c)) != Over(key(a), Over(key(b), key(c)))
  {
    var a, b, c := Table(map["x" := Scalar("1")]), Scalar("off"), Table(map["y" := Scalar("2")]);
    assert "x" in a.entries && "x" !in c.entries;
    assert !Absorbed(a, c) && Clash(a, b, c);
    var ka, kb, kc := Table(map["k" := a]), Table(map["k" := b]), Table(map["k" := c]);
    assert "k" in kc.entries && Clash(ka, kb, kc);
    AssociativeExactly(ka, kb, kc);
  }
}
