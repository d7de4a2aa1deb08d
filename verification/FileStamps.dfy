/**
 Change detection by file stamps: a cache and a watcher that compare the stat of a file with the one they kept.

 A file system moves a file's change time with every write, but only in ticks: the time it records lags the write by
 at most the settle window.  Two writes in one tick can leave every field of the stamp equal.
 */
module FileStamps {
  import opened Wrappers

  const WINDOW: nat := 2_000_000_000

  /** What a stat reports; `settled` compares the change time with the clock at that moment. */
  datatype Stamp = Stamp(ino: nat, size: nat, mtime: nat, ctime: nat, settled: bool)

  /** Equality of stamps leaves `settled` out. */
  predicate Same(a: Option<Stamp>, b: Option<Stamp>) {
    match (a, b)
    case (None, None) => true
    case (Some(x), Some(y)) => x.ino == y.ino && x.size == y.size && x.mtime == y.mtime && x.ctime == y.ctime
    case _ => false
  }

  // The file and its clock
  // --------------------------------------------------------------------------------------------

  datatype Meta = Meta(ino: nat, size: nat, mtime: nat, ctime: nat)

  /** `writes` counts every write, removal included; `meta` is None while there is no file to stat. */
  datatype World = World(now: nat, meta: Option<Meta>, lastCtime: nat, writes: nat)

  predicate CanWrite(w: World, meta: Option<Meta>) {
    meta.Some? ==> w.lastCtime <= meta.value.ctime <= w.now <= meta.value.ctime + WINDOW
  }

  function Write(w: World, meta: Option<Meta>): World
    requires CanWrite(w, meta)
  {
    w.(meta := meta, lastCtime := if meta.Some? then meta.value.ctime else w.lastCtime, writes := w.writes + 1)
  }

  function StampOf(w: World): Option<Stamp> {
    match w.meta
    case None => None
    case Some(m) => Some(Stamp(m.ino, m.size, m.mtime, m.ctime, m.ctime + WINDOW < w.now))
  }

  datatype Change = Tick(elapsed: nat) | Touch(meta: Option<Meta>)

  predicate Possible(w: World, change: Change) {
    change.Touch? ==> CanWrite(w, change.meta)
  }

  function After(w: World, change: Change): World
    requires Possible(w, change)
  {
    match change
    case Tick(elapsed) => w.(now := w.now + elapsed)
    case Touch(meta) => Write(w, meta)
  }

  ghost predicate Evolves(w: World, changes: seq<Change>, t: World)
    decreases |changes|
  {
    if changes == [] then w == t
    else Possible(w, changes[0]) && Evolves(After(w, changes[0]), changes[1..], t)
  }

  /** The recorded change time is the latest one. */
  ghost predicate Sane(w: World) {
    w.meta.Some? ==> w.meta.value.ctime == w.lastCtime <= w.now
  }

  /**
   What a settled stamp, taken when `taken` writes had been made, is worth: the file still has that change time if and
   only if it has not been written since.
   */
  ghost predicate Holds(stamp: Option<Stamp>, taken: nat, w: World) {
    stamp.Some? && stamp.value.settled ==>
      && taken <= w.writes
      && stamp.value.ctime + WINDOW < w.now
      && (w.writes == taken ==> w.meta.Some?)
      && (w.writes > taken && w.meta.Some? ==> stamp.value.ctime < w.meta.value.ctime)
  }

  lemma StampHolds(w: World)
    ensures Holds(StampOf(w), w.writes, w)
  {
  }

  lemma HoldsOn(stamp: Option<Stamp>, taken: nat, w: World, change: Change)
    requires Holds(stamp, taken, w) && Possible(w, change)
    ensures Holds(stamp, taken, After(w, change))
  {
  }

  lemma {:induction false} HoldsAfter(stamp: Option<Stamp>, taken: nat, w: World, changes: seq<Change>, t: World)
    requires Holds(stamp, taken, w) && Evolves(w, changes, t)
    ensures Holds(stamp, taken, t)
    decreases |changes|
  {
    if changes != [] {
      HoldsOn(stamp, taken, w, changes[0]);
      HoldsAfter(stamp, taken, After(w, changes[0]), changes[1..], t);
    }
  }

  /** A settled stamp that still compares equal proves the file unwritten since it was taken. */
  lemma SettledStampProves(w: World, changes: seq<Change>, t: World)
    requires StampOf(w).Some? && StampOf(w).value.settled
    requires Evolves(w, changes, t) && Same(StampOf(w), StampOf(t))
    ensures t.writes == w.writes
  {
    StampHolds(w);
    HoldsAfter(StampOf(w), w.writes, w, changes, t);
  }

  // The cache
  // --------------------------------------------------------------------------------------------

  /** What a callback reads: nothing, or the content that the file's latest write left. */
  datatype Content = Missing | Version(writes: nat)

  function ContentOf(w: World): Content {
    if w.meta.None? then Missing else Version(w.writes)
  }

  datatype Entry = Entry(stamp: Option<Stamp>, value: Content)

  predicate Hit(entry: Entry, current: Option<Stamp>) {
    Same(entry.stamp, current) && (current.None? || current.value.settled)
  }

  /** A hit on this entry is right in every world that can follow. */
  ghost predicate NeverStale(entry: Entry, w: World) {
    forall changes, t :: Evolves(w, changes, t) && Hit(entry, StampOf(t)) ==> entry.value == ContentOf(t)
  }

  /**
   When the callback has read, no write to come can carry the stamp taken before it: its tick is over, or a later one
   has been recorded.  Without a stamp there must have been nothing to read either.
   */
  predicate TickOver(stamp: Option<Stamp>, u: World) {
    match stamp
    case None => u.meta.None?
    case Some(m) => m.ctime + WINDOW < u.now || m.ctime < u.lastCtime
  }

  lemma {:induction false} EvolvesSanely(w: World, changes: seq<Change>, t: World)
    requires Sane(w) && Evolves(w, changes, t)
    ensures Sane(t) && w.now <= t.now && w.lastCtime <= t.lastCtime && w.writes <= t.writes
    decreases |changes|
  {
    if changes != [] {
      EvolvesSanely(After(w, changes[0]), changes[1..], t);
    }
  }

  /** Since `u` the file is unwritten or removed, or it has been written with a later change time. */
  ghost predicate Passed(m: Stamp, u: World, t: World) {
    && Sane(t)
    && (|| m.ctime < t.lastCtime
        || (m.ctime + WINDOW < t.now && (t.meta.None? || (t.meta == u.meta && t.writes == u.writes))))
  }

  lemma {:induction false} StaysPassed(m: Stamp, u: World, v: World, changes: seq<Change>, t: World)
    requires Passed(m, u, v) && Evolves(v, changes, t)
    ensures Passed(m, u, t)
    decreases |changes|
  {
    if changes != [] {
      StaysPassed(m, u, After(v, changes[0]), changes[1..], t);
    }
  }

  lemma OverIsSafe(stamp: Option<Stamp>, u: World)
    requires Sane(u) && TickOver(stamp, u)
    ensures NeverStale(Entry(stamp, ContentOf(u)), u)
  {
    if stamp.Some? {
      forall changes, t | Evolves(u, changes, t) && Hit(Entry(stamp, ContentOf(u)), StampOf(t))
        ensures ContentOf(u) == ContentOf(t)
      {
        StaysPassed(stamp.value, u, u, changes, t);
      }
    }
  }

  /** Otherwise some run ends in a stale hit: a same-size write in the same tick, or the removal of what was read. */
  lemma StaleHit(stamp: Option<Stamp>, u: World) returns (changes: seq<Change>, t: World)
    requires Sane(u) && !TickOver(stamp, u) && (stamp.Some? ==> stamp.value.ctime <= u.now)
    ensures Evolves(u, changes, t) && Hit(Entry(stamp, ContentOf(u)), StampOf(t)) && ContentOf(t) != ContentOf(u)
  {
    if stamp.None? {
      changes, t := [Touch(None)], Write(u, None);
      assert Evolves(t, [], t);
    } else {
      var meta := Some(Meta(stamp.value.ino, stamp.value.size, stamp.value.mtime, stamp.value.ctime));
      var rewritten := Write(u, meta);
      t := rewritten.(now := stamp.value.ctime + WINDOW + 1);
      var wait := t.now - u.now;
      changes := [Touch(meta), Tick(wait)];
      assert Evolves(t, [], t);
      assert Evolves(rewritten, [Tick(wait)], t);
      assert changes[1..] == [Tick(wait)];
    }
  }

  /**
   An entry, stamped in `w` and read in `u`, is right whenever it hits if and only if the stamp's tick was over when the
   callback read.  The stored stamp's own flag is not part of what a hit tests.
   */
  lemma SafeExactly(w: World, during: seq<Change>, u: World)
    requires Sane(w) && Evolves(w, during, u)
    ensures NeverStale(Entry(StampOf(w), ContentOf(u)), u) <==> TickOver(StampOf(w), u)
  {
    EvolvesSanely(w, during, u);
    if TickOver(StampOf(w), u) {
      OverIsSafe(StampOf(w), u);
    } else {
      var changes, t := StaleHit(StampOf(w), u);
    }
  }

  /** A callback that takes no time makes a safe entry if and only if its stamp was settled, or there was no file. */
  lemma SafeExactlyIfStoredSettled(w: World)
    requires Sane(w)
    ensures NeverStale(Entry(StampOf(w), ContentOf(w)), w) <==> StampOf(w).None? || StampOf(w).value.settled
  {
    assert Evolves(w, [], w);
    SafeExactly(w, [], w);
  }

  /** Writes that land while the callback runs cost a settled entry nothing: it can only miss. */
  lemma WriteDuringCallbackMisses(w: World, during: seq<Change>, u: World, changes: seq<Change>, t: World)
    requires StampOf(w).Some? && StampOf(w).value.settled && Sane(w)
    requires Evolves(w, during, u) && Evolves(u, changes, t)
    requires Hit(Entry(StampOf(w), ContentOf(u)), StampOf(t))
    ensures t.writes == u.writes == w.writes
  {
    StampHolds(w);
    HoldsAfter(StampOf(w), w.writes, w, during, u);
    HoldsAfter(StampOf(w), w.writes, u, changes, t);
    EvolvesSanely(w, during, u);
    EvolvesSanely(u, changes, t);
  }

  /** One path over a run of lookups and writes.  `begun` is the stamp of a lookup whose callback is still to read. */
  datatype Cached = Cached(world: World, entry: Option<Entry>, sound: bool, begun: Option<Option<Stamp>>)

  datatype Use = Outside(change: Change) | Looks | Reads

  predicate CanUse(s: Cached, a: Use) {
    match a
    case Outside(change) => Possible(s.world, change)
    case Looks => s.begun.None?
    case Reads => s.begun.Some?
  }

  /** `sound` says of the stored entry that its tick was over when it was read. */
  function Used(s: Cached, a: Use): Cached
    requires CanUse(s, a)
  {
    match a
    case Outside(change) => s.(world := After(s.world, change))
    case Looks =>
      var stamp := StampOf(s.world);
      if s.entry.Some? && Hit(s.entry.value, stamp) then s else s.(begun := Some(stamp))
    case Reads =>
      Cached(s.world, Some(Entry(s.begun.value, ContentOf(s.world))), TickOver(s.begun.value, s.world), None)
  }

  ghost predicate Uses(s: Cached, uses: seq<Use>, t: Cached)
    decreases |uses|
  {
    if uses == [] then s == t else CanUse(s, uses[0]) && Uses(Used(s, uses[0]), uses[1..], t)
  }

  ghost predicate CacheInv(s: Cached) {
    && Sane(s.world)
    && (s.begun.Some? && s.begun.value.Some? ==> s.begun.value.value.ctime <= s.world.now)
    && (s.entry.Some? && s.sound ==> NeverStale(s.entry.value, s.world))
  }

  lemma StaysSafe(entry: Entry, w: World, change: Change)
    requires NeverStale(entry, w) && Possible(w, change)
    ensures NeverStale(entry, After(w, change))
  {
    forall changes, t | Evolves(After(w, change), changes, t) && Hit(entry, StampOf(t))
      ensures entry.value == ContentOf(t)
    {
      assert ([change] + changes)[1..] == changes;
      assert Evolves(w, [change] + changes, t);
    }
  }

  lemma UseInv(s: Cached, a: Use)
    requires CacheInv(s) && CanUse(s, a)
    ensures CacheInv(Used(s, a))
  {
    match a
    case Outside(change) =>
      if s.entry.Some? && s.sound {
        StaysSafe(s.entry.value, s.world, change);
      }
    case Looks =>
    case Reads =>
      if TickOver(s.begun.value, s.world) {
        OverIsSafe(s.begun.value, s.world);
      }
  }

  lemma {:induction false} UsesInv(s: Cached, uses: seq<Use>, t: Cached)
    requires CacheInv(s) && Uses(s, uses, t)
    ensures CacheInv(t)
    decreases |uses|
  {
    if uses != [] {
      UseInv(s, uses[0]);
      UsesInv(Used(s, uses[0]), uses[1..], t);
    }
  }

  /** Over every run of lookups and writes, a hit on an entry read after its stamp's tick returns what is there now. */
  lemma HitsAreFresh(w: World, uses: seq<Use>, s: Cached)
    requires Sane(w) && Uses(Cached(w, None, true, None), uses, s)
    ensures s.entry.Some? && s.sound && Hit(s.entry.value, StampOf(s.world)) ==>
              s.entry.value.value == ContentOf(s.world)
  {
    UsesInv(Cached(w, None, true, None), uses, s);
    assert Evolves(s.world, [], s.world);
  }

  /** And an entry read before that can be made stale from where the run stands. */
  lemma UnsoundGoesStale(w: World, uses: seq<Use>, s: Cached) returns (changes: seq<Change>, t: World)
    requires Sane(w) && Uses(Cached(w, None, true, None), uses, s)
    requires s.begun.Some? && !TickOver(s.begun.value, s.world)
    ensures var entry := Used(s, Reads).entry.value;
      Evolves(s.world, changes, t) && Hit(entry, StampOf(t)) && entry.value != ContentOf(t)
  {
    UsesInv(Cached(w, None, true, None), uses, s);
    changes, t := StaleHit(s.begun.value, s.world);
  }

  /**
   A lookup returns the stored value, and leaves everything as it is, if and only if the file is gone now as it was
   then, or it agrees with the stamp on inode, size and times and was last written longer ago than these can lag.
   Otherwise the callback's turn comes, under the stamp of now, and what it reads is stored.
   */
  lemma LookupHits(s: Cached)
    requires CanUse(s, Looks)
    ensures var hit := s.entry.Some? &&
              (match (s.entry.value.stamp, s.world.meta)
               case (None, None) => true
               case (Some(k), Some(m)) =>
                 && k.ino == m.ino && k.size == m.size && k.mtime == m.mtime && k.ctime == m.ctime
                 && m.ctime + 2_000_000_000 < s.world.now
               case _ => false);
      if hit then Used(s, Looks) == s
      else CanUse(Used(s, Looks), Reads) && Used(s, Looks) == s.(begun := Some(StampOf(s.world)))
    ensures CanUse(Used(s, Looks), Reads) ==>
              var t := Used(Used(s, Looks), Reads);
              t.entry == Some(Entry(StampOf(s.world), ContentOf(s.world))) && CanUse(t, Looks)
  {
  }

  /** The changes to the file among the uses. */
  function ChangesOf(uses: seq<Use>): seq<Change> {
    if uses == [] then []
    else (if uses[0].Outside? then [uses[0].change] else []) + ChangesOf(uses[1..])
  }

  /** Lookups and callbacks leave the file alone, and every change from outside happens. */
  lemma {:induction false} UsesEvolve(s: Cached, uses: seq<Use>, t: Cached)
    requires Uses(s, uses, t)
    ensures Evolves(s.world, ChangesOf(uses), t.world)
    decreases |uses|
  {
    if uses != [] {
      UsesEvolve(Used(s, uses[0]), uses[1..], t);
      var rest := ChangesOf(uses[1..]);
      if uses[0].Outside? {
        assert ([uses[0].change] + rest)[1..] == rest;
      } else {
        assert [] + rest == rest;
      }
    }
  }

  class FileCache {
    var store: map<string, Entry>

    constructor ()
      ensures store == map[]
    {
      store := map[];
    }

    /** `stamp` is taken before the callback; `read` is what the callback would return. */
    method Get(path: string, stamp: Option<Stamp>, read: Content) returns (value: Content)
      modifies this
      ensures old(path in store && Hit(store[path], stamp)) ==> value == old(store)[path].value && store == old(store)
      ensures !old(path in store && Hit(store[path], stamp)) ==>
                value == read && store == old(store)[path := Entry(stamp, read)]
    {
      if path in store && Same(store[path].stamp, stamp) && (stamp.None? || stamp.value.settled) {
        return store[path].value;
      }
      value := read;
      store := store[path := Entry(stamp, value)];
    }

    method Retain(paths: seq<string>)
      modifies this
      ensures store.Keys == set path | path in old(store) && path in paths
      ensures forall path :: path in store ==> store[path] == old(store)[path]
    {
      var dropped := store.Keys - set path | path in paths;
      ghost var all := dropped;
      while dropped != {}
        invariant dropped <= all <= old(store).Keys
        invariant store == old(store) - (all - dropped)
        decreases |dropped|
      {
        var path :| path in dropped;
        store := store - {path};
        dropped := dropped - {path};
      }
    }
  }

  // The watcher
  // --------------------------------------------------------------------------------------------

  /** The poll's test, on the stamp it kept and the one it has just taken. */
  predicate Fires(previous: Option<Stamp>, current: Option<Stamp>) {
    && current.Some?
    && (!Same(current, previous) || (previous.Some? && !previous.value.settled && current.value.settled))
  }

  /**
   One watched file.  `kept` was taken when `taken` writes had been made; `notified` is how many had been when
   `_on_changed` last ran, or when the watch began.  `lost` says that since then a poll that had sampled a later write
   was cut short.
   */
  datatype Watch = Watch(world: World, kept: Option<Stamp>, taken: nat, firing: bool, notified: nat, lost: bool)

  function Begin(w: World): Watch {
    Watch(w, StampOf(w), w.writes, false, w.writes, false)
  }

  datatype Action =
    | FileSystem(change: Change)
    | Poll           // samples, and completes unless there is a change to react to
    | Reacts         // the debounce is over and `_on_changed` runs
    | CutShort       // the poll times out or fails first

  predicate Enabled(s: Watch, a: Action) {
    match a
    case FileSystem(change) => Possible(s.world, change)
    case Poll => !s.firing
    case Reacts => s.firing
    case CutShort => s.firing
  }

  function Next(s: Watch, a: Action): Watch
    requires Enabled(s, a)
  {
    match a
    case FileSystem(change) => s.(world := After(s.world, change))
    case Poll =>
      var current := StampOf(s.world);
      if current.None? then s
      else s.(kept := current, taken := s.world.writes, firing := Fires(s.kept, current))
    case Reacts => s.(firing := false, notified := s.world.writes, lost := false)
    case CutShort => s.(firing := false, lost := s.lost || s.notified < s.taken)
  }

  ghost predicate Steps(s: Watch, actions: seq<Action>, t: Watch)
    decreases |actions|
  {
    if actions == [] then s == t
    else Enabled(s, actions[0]) && Steps(Next(s, actions[0]), actions[1..], t)
  }

  /** A settled stamp in hand means its writes were reacted to, are about to be, or were lost. */
  ghost predicate Inv(s: Watch) {
    && Holds(s.kept, s.taken, s.world)
    && s.taken <= s.world.writes && s.notified <= s.world.writes
    && (s.kept.Some? && s.kept.value.settled && !s.firing && !s.lost ==> s.notified >= s.taken)
    && (s.lost ==> s.notified < s.taken)
  }

  lemma StepInv(s: Watch, a: Action)
    requires Inv(s) && Enabled(s, a)
    ensures Inv(Next(s, a))
  {
    match a
    case FileSystem(change) => HoldsOn(s.kept, s.taken, s.world, change);
    case Poll => StampHolds(s.world);
    case _ =>
  }

  lemma {:induction false} RunInv(s: Watch, actions: seq<Action>, t: Watch)
    requires Inv(s) && Steps(s, actions, t)
    ensures Inv(t)
    decreases |actions|
  {
    if actions != [] {
      StepInv(s, actions[0]);
      RunInv(Next(s, actions[0]), actions[1..], t);
    }
  }

  /**
   No write is lost but to a poll cut short: when a poll that sampled the file settled has completed, `_on_changed`
   has run since the last write it sampled, if and only if no poll that had sampled a later write was cut short since
   it ran.
   */
  lemma NoWriteLost(w: World, actions: seq<Action>, s: Watch)
    requires Steps(Begin(w), actions, s)
    requires s.kept.Some? && s.kept.value.settled && !s.firing
    ensures s.notified < s.taken <==> s.lost
    ensures s.lost ==> CutShort in actions
  {
    StampHolds(w);
    RunInv(Begin(w), actions, s);
    if s.lost {
      LostMeansCutShort(Begin(w), actions, s);
    }
  }

  lemma {:induction false} LostMeansCutShort(s: Watch, actions: seq<Action>, t: Watch)
    requires Steps(s, actions, t) && t.lost
    ensures s.lost || CutShort in actions
    decreases |actions|
  {
    if actions != [] {
      LostMeansCutShort(Next(s, actions[0]), actions[1..], t);
      assert actions == [actions[0]] + actions[1..];
    }
  }

  /** No write among them; the rest may come in any number and order. */
  ghost predicate NoWrites(actions: seq<Action>) {
    forall i :: 0 <= i < |actions| ==> !(actions[i].FileSystem? && actions[i].change.Touch?)
  }

  /** The stamp in hand and the file agree on inode, size and times. */
  predicate Unchanged(s: Watch) {
    && s.kept.Some? && s.world.meta.Some?
    && var k, m := s.kept.value, s.world.meta.value;
       k.ino == m.ino && k.size == m.size && k.mtime == m.mtime && k.ctime == m.ctime
  }

  /** The file was last written longer ago than its change time can lag. */
  predicate LongUnwritten(s: Watch) {
    s.world.meta.Some? && s.world.now > s.world.meta.value.ctime + 2_000_000_000
  }

  /**
   A poll reacts at once to a stamp that has changed, settled or not, and else exactly when the file has settled since
   the stamp in hand; to a file that is gone it does not react.
   */
  lemma PollReacts(s: Watch)
    requires Enabled(s, Poll)
    ensures Next(s, Poll).firing <==>
              s.world.meta.Some? && (!Unchanged(s) || (!s.kept.value.settled && LongUnwritten(s)))
    ensures s.world.meta.Some? ==>
              Unchanged(Next(s, Poll)) && (Next(s, Poll).kept.value.settled <==> LongUnwritten(s))
    ensures s.world.meta.None? ==> Next(s, Poll) == s
  {
  }

  /** A poll that has found something ends with its reaction or is cut short, and the next one may follow either way. */
  lemma PollingGoesOn(s: Watch)
    ensures Enabled(s, Poll) || (Enabled(s, Reacts) && Enabled(s, CutShort))
    ensures Enabled(s, Reacts) ==> Enabled(Next(s, Reacts), Poll) && Next(s, Reacts).notified == s.world.writes
    ensures Enabled(s, CutShort) ==> Enabled(Next(s, CutShort), Poll) && Next(s, CutShort).notified == s.notified
  {
  }

  /** How many polls of the run find something to react to. */
  function Reports(s: Watch, actions: seq<Action>): nat
    decreases |actions|
  {
    if actions == [] || !Enabled(s, actions[0]) then 0
    else
      (if actions[0].Poll? && Next(s, actions[0]).firing then 1 else 0) + Reports(Next(s, actions[0]), actions[1..])
  }

  /** What is still to be reported of a file that nobody writes: the change, and once more that it has settled. */
  function Due(s: Watch): nat {
    if s.world.meta.None? then 0 else if !Unchanged(s) then 2 else if !s.kept.value.settled then 1 else 0
  }

  /** A file that nobody writes is reported at most that often, however long and often it is polled. */
  lemma {:induction false} FewReports(s: Watch, actions: seq<Action>, t: Watch)
    requires Inv(s) && Steps(s, actions, t) && NoWrites(actions)
    ensures Reports(s, actions) + Due(t) <= Due(s)
    decreases |actions|
  {
    if actions != [] {
      assert !(actions[0].FileSystem? && actions[0].change.Touch?);
      assert forall i :: 0 <= i < |actions[1..]| ==> actions[1..][i] == actions[i + 1];
      if actions[0].Poll? {
        PollReacts(s);
      }
      StepInv(s, actions[0]);
      FewReports(Next(s, actions[0]), actions[1..], t);
    }
  }

  /** The settled stamp in hand is the file's, and nobody is about to react to it. */
  ghost predicate Stuck(s: Watch) {
    && s.kept.Some? && !s.firing && Same(s.kept, StampOf(s.world)) && s.taken == s.world.writes
    && s.kept.value.settled && StampOf(s.world).value.settled
  }

  lemma {:induction false} StaysStuck(s: Watch, actions: seq<Action>, t: Watch)
    requires Stuck(s) && Steps(s, actions, t) && NoWrites(actions)
    ensures Stuck(t) && t.notified == s.notified && t.taken == s.taken && t.lost == s.lost
    decreases |actions|
  {
    if actions != [] {
      var a := actions[0];
      assert !(a.FileSystem? && a.change.Touch?);
      assert forall i :: 0 <= i < |actions[1..]| ==> actions[1..][i] == actions[i + 1];
      StaysStuck(Next(s, a), actions[1..], t);
    }
  }

  /**
   Once the poll that sampled a write settled is cut short, nothing but another write makes the watcher report it: after
   any further polls and however long.
   */
  lemma CutShortIsForGood(w: World, before: seq<Action>, s: Watch, actions: seq<Action>, t: Watch)
    requires Steps(Begin(w), before, s) && s.firing && s.notified < s.taken
    requires s.kept.Some? && s.kept.value.settled && Same(s.kept, StampOf(s.world))
    requires Steps(Next(s, CutShort), actions, t) && NoWrites(actions)
    ensures t.notified == s.notified < t.taken && t.lost && !t.firing
  {
    StampHolds(w);
    RunInv(Begin(w), before, s);
    StaysStuck(Next(s, CutShort), actions, t);
  }

  /**
   It takes no more than one cut: whatever the file was when the watch began, and whatever is written to it, the run in
   which the poll that samples it settled is cut short exists, and no run from there reports it before another write.
   */
  lemma AnyWriteCanBeLost(w: World, meta: Meta, wait: nat) returns (s: Watch)
    requires Sane(w) && CanWrite(w, Some(meta)) && meta.ctime + WINDOW < w.now + wait
    ensures Steps(Begin(w), [FileSystem(Touch(Some(meta))), FileSystem(Tick(wait)), Poll, CutShort], s)
    ensures forall actions, t :: Steps(s, actions, t) && NoWrites(actions) ==>
              t.notified == w.writes < t.taken && t.lost && !t.firing
  {
    var a := Next(Begin(w), FileSystem(Touch(Some(meta))));
    var b := Next(a, FileSystem(Tick(wait)));
    var c := Next(b, Poll);
    s := Next(c, CutShort);
    assert Steps(c, [CutShort], s);
    assert [Poll, CutShort][1..] == [CutShort];
    assert Steps(b, [Poll, CutShort], s);
    assert [FileSystem(Tick(wait)), Poll, CutShort][1..] == [Poll, CutShort];
    assert Steps(a, [FileSystem(Tick(wait)), Poll, CutShort], s);
    forall actions, t | Steps(s, actions, t) && NoWrites(actions)
      ensures t.notified == w.writes < t.taken && t.lost && !t.firing
    {
      StaysStuck(s, actions, t);
    }
  }

  class MtimeWatcher {
    var watched: map<string, Option<Stamp>>

    constructor ()
      ensures watched == map[]
    {
      watched := map[];
    }

    /** Paths already watched keep their stamp; new ones are stamped now. */
    method SyncWatches(paths: seq<string>, stamps: map<string, Option<Stamp>>)
      requires forall path :: path in paths ==> path in stamps
      modifies this
      ensures watched.Keys == set path | path in paths
      ensures forall path :: path in watched ==>
                watched[path] == if path in old(watched) then old(watched)[path] else stamps[path]
    {
      var synced: map<string, Option<Stamp>> := map[];
      for i := 0 to |paths|
        invariant synced.Keys == set path | path in paths[..i]
        invariant forall path :: path in synced ==>
                    synced[path] == if path in watched then watched[path] else stamps[path]
      {
        var path := paths[i];
        assert paths[..i + 1] == paths[..i] + [path];
        synced := synced[path := if path in watched then watched[path] else stamps[path]];
      }
      assert paths[..|paths|] == paths;
      watched := synced;
    }

    /** The body of the poll's loop up to its first await: keep the new stamp, and say whether to react. */
    method Sample(key: string, current: Option<Stamp>) returns (react: bool)
      modifies this
      ensures react == Fires(if key in old(watched) then old(watched)[key] else None, current)
      ensures watched == if current.None? then old(watched) else old(watched)[key := current]
    {
      var previous := if key in watched then watched[key] else None;
      if current.None? {
        return false;
      }
      watched := watched[key := current];
      var unsettledNowSettled := previous.Some? && !previous.value.settled && current.value.settled;
      react := !Same(current, previous) || unsettledNowSettled;
    }
  }
}
