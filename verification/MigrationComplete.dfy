/**
 What the migration tells, said of the log alone: which events speak, what each becomes, and that up to the cut every
 one of them has its message.
 */
module MigrationComplete {
  import opened Migration

  // What an event has to say
  // --------------------------------------------------------------------------------------------

  predicate UnmappedUse(e: Event, mapped: set<string>) {
    e.ToolUse? && !e.nested && e.name !in mapped
  }

  /** Nothing answers `c` from `j` on, before `n`. */
  ghost predicate Unanswered(events: seq<Event>, j: nat, n: nat, c: string)
    requires n <= |events|
  {
    forall k :: j < k < n ==> !Answers(events[k], c)
  }

  /** A mapped call that goes by `c` was issued before `n` and has not been answered since. */
  ghost predicate MappedOpen(events: seq<Event>, names: seq<string>, mapped: set<string>, n: nat, c: string)
    requires n <= |events| == |names|
  {
    exists j :: 0 <= j < n && MappedUse(events[j], mapped) && names[j] == c && Unanswered(events, j, n, c)
  }

  /** Since `j` nothing before `n` answers `c` except what answers a mapped call of that id. */
  ghost predicate StillOpen(events: seq<Event>, names: seq<string>, mapped: set<string>, j: nat, n: nat, c: string)
    requires n <= |events| == |names|
  {
    forall k :: j < k < n && Answers(events[k], c) ==> MappedOpen(events, names, mapped, k, c)
  }

  /** The same of a call without a counterpart, which a result answers only if no mapped call is open under its id. */
  ghost predicate UnmappedOpen(events: seq<Event>, names: seq<string>, mapped: set<string>, n: nat, c: string)
    requires n <= |events| == |names|
  {
    exists j :: 0 <= j < n && UnmappedUse(events[j], mapped) && names[j] == c
                && StillOpen(events, names, mapped, j, n, c)
  }

  /** The event is to become a message. */
  ghost predicate Speaks(events: seq<Event>, names: seq<string>, mapped: set<string>, i: nat)
    requires i < |events| == |names|
  {
    var e := events[i];
    !e.nested &&
    match e
    case UserText(_, content, attachments, echo) => (content != "" || attachments != []) && !echo
    case AssistantText(_, content) => content != ""
    case ToolUse(_, _, _, _) => true
    case ToolResult(_, callId, _, _) =>
      MappedOpen(events, names, mapped, i, callId) || UnmappedOpen(events, names, mapped, i, callId)
    case _ => false
  }

  function HumanId(m: Message): Id {
    Id("human", if m.Answer? then 0 else m.id.number)
  }

  function AiId(m: Message): Id {
    Id("ai", if m.Answer? then 0 else m.id.number)
  }

  /** `m` is what the event becomes, whatever its number. */
  ghost predicate Says(events: seq<Event>, names: seq<string>, mapped: set<string>, i: nat, m: Message)
    requires i < |events| == |names|
  {
    match events[i]
    case UserText(_, content, attachments, _) => m == HumanMessage(HumanId(m), content, attachments)
    case AssistantText(_, content) => m == AiMessage(AiId(m), content)
    case ToolUse(_, name, input, _) =>
      if name in mapped then m == Call(AiId(m), names[i], name, input)
      else m == AiMessage(AiId(m), "[Called " + name + "(" + input + ")]")
    case ToolResult(_, callId, content, isError) =>
      if MappedOpen(events, names, mapped, i, callId) then m == Answer(callId, content, isError)
      else m == HumanMessage(HumanId(m), "[Result: " + content + "]", [])
    case _ => false
  }

  // The loop's tables
  // --------------------------------------------------------------------------------------------

  ghost predicate Tables(s: State, events: seq<Event>, names: seq<string>, mapped: set<string>, n: nat)
    requires n <= |events| == |names|
  {
    && (forall c :: c in s.pendingMapped <==> MappedOpen(events, names, mapped, n, c))
    && (forall c :: c in s.pendingUnmapped <==> UnmappedOpen(events, names, mapped, n, c))
  }

  lemma MappedOpenStep(events: seq<Event>, names: seq<string>, mapped: set<string>, n: nat, c: string)
    requires n < |events| == |names|
    ensures MappedOpen(events, names, mapped, n + 1, c) <==>
              || (MappedUse(events[n], mapped) && names[n] == c)
              || (MappedOpen(events, names, mapped, n, c) && !Answers(events[n], c))
  {
    if MappedUse(events[n], mapped) && names[n] == c {
      assert Unanswered(events, n, n + 1, c);
    } else if MappedOpen(events, names, mapped, n, c) && !Answers(events[n], c) {
      var j :| 0 <= j < n && MappedUse(events[j], mapped) && names[j] == c && Unanswered(events, j, n, c);
      assert Unanswered(events, j, n + 1, c);
    } else if MappedOpen(events, names, mapped, n + 1, c) {
      var j :| 0 <= j < n + 1 && MappedUse(events[j], mapped) && names[j] == c && Unanswered(events, j, n + 1, c);
      assert Unanswered(events, j, n, c);
    }
  }

  lemma UnmappedOpenStep(events: seq<Event>, names: seq<string>, mapped: set<string>, n: nat, c: string)
    requires n < |events| == |names|
    ensures UnmappedOpen(events, names, mapped, n + 1, c) <==>
              || (UnmappedUse(events[n], mapped) && names[n] == c)
              || (UnmappedOpen(events, names, mapped, n, c)
                  && (Answers(events[n], c) ==> MappedOpen(events, names, mapped, n, c)))
  {
    if UnmappedUse(events[n], mapped) && names[n] == c {
      assert StillOpen(events, names, mapped, n, n + 1, c);
    } else if UnmappedOpen(events, names, mapped, n, c)
              && (Answers(events[n], c) ==> MappedOpen(events, names, mapped, n, c)) {
      var j :| 0 <= j < n && UnmappedUse(events[j], mapped) && names[j] == c
               && StillOpen(events, names, mapped, j, n, c);
      assert StillOpen(events, names, mapped, j, n + 1, c);
    } else if UnmappedOpen(events, names, mapped, n + 1, c) {
      var j :| 0 <= j < n + 1 && UnmappedUse(events[j], mapped) && names[j] == c
               && StillOpen(events, names, mapped, j, n + 1, c);
      assert StillOpen(events, names, mapped, j, n, c);
    }
  }

  /** What one step does to the tables. */
  lemma StepTables(s: State, e: Event, index: nat, mapped: set<string>, c: string)
    ensures var t := Step(s, e, index, mapped);
      && (c in t.pendingMapped <==>
            || (MappedUse(e, mapped) && NameOf(s, e) == c) || (c in s.pendingMapped && !Answers(e, c)))
      && (c in t.pendingUnmapped <==>
            || (UnmappedUse(e, mapped) && NameOf(s, e) == c)
            || (c in s.pendingUnmapped && (Answers(e, c) ==> c in s.pendingMapped)))
  {
  }

  lemma TablesStep(s: State, events: seq<Event>, names: seq<string>, mapped: set<string>, n: nat)
    requires n < |events| == |names| && Tables(s, events, names, mapped, n) && names[n] == NameOf(s, events[n])
    ensures Tables(Step(s, events[n], n, mapped), events, names, mapped, n + 1)
  {
    forall c
      ensures c in Step(s, events[n], n, mapped).pendingMapped <==> MappedOpen(events, names, mapped, n + 1, c)
      ensures c in Step(s, events[n], n, mapped).pendingUnmapped <==> UnmappedOpen(events, names, mapped, n + 1, c)
    {
      StepTables(s, events[n], n, mapped, c);
      MappedOpenStep(events, names, mapped, n, c);
      UnmappedOpenStep(events, names, mapped, n, c);
    }
  }

  // Every event that speaks has its message
  // --------------------------------------------------------------------------------------------

  /** Exactly the speaking events before `n` have messages, and each says what its event said. */
  ghost predicate Told(s: State, events: seq<Event>, names: seq<string>, mapped: set<string>, n: nat)
    requires n <= |events| == |names|
  {
    && |s.source| == |s.messages|
    && (forall p :: 0 <= p < |s.messages| ==>
          && s.source[p] < n && Speaks(events, names, mapped, s.source[p])
          && Says(events, names, mapped, s.source[p], s.messages[p]))
    && (forall i :: 0 <= i < n && Speaks(events, names, mapped, i) ==> i in s.source)
  }

  /** The step appends the event's message if it speaks, and nothing if it does not. */
  lemma StepTells(s: State, events: seq<Event>, names: seq<string>, mapped: set<string>, n: nat)
    requires n < |events| == |names| && Tables(s, events, names, mapped, n) && names[n] == NameOf(s, events[n])
    ensures var t := Step(s, events[n], n, mapped);
      if Speaks(events, names, mapped, n) then
        && |t.messages| == |s.messages| + 1 && t.source == s.source + [n]
        && t.messages[..|s.messages|] == s.messages && Says(events, names, mapped, n, t.messages[|s.messages|])
      else t.messages == s.messages && t.source == s.source
  {
  }

  lemma ToldStep(s: State, events: seq<Event>, names: seq<string>, mapped: set<string>, n: nat)
    requires n < |events| == |names| && Tables(s, events, names, mapped, n) && names[n] == NameOf(s, events[n])
    requires Told(s, events, names, mapped, n)
    ensures Told(Step(s, events[n], n, mapped), events, names, mapped, n + 1)
  {
    var t := Step(s, events[n], n, mapped);
    StepTells(s, events, names, mapped, n);
    if Speaks(events, names, mapped, n) {
      forall p | 0 <= p < |t.messages|
        ensures t.source[p] < n + 1 && Speaks(events, names, mapped, t.source[p])
        ensures Says(events, names, mapped, t.source[p], t.messages[p])
      {
        if p < |s.messages| {
          assert t.messages[..|s.messages|][p] == t.messages[p];
        }
      }
    }
  }

  lemma RunTold(events: seq<Event>, n: nat, mapped: set<string>)
    requires n <= |events|
    ensures Tables(Run(events, n, mapped), events, Names(events, mapped), mapped, n)
    ensures Told(Run(events, n, mapped), events, Names(events, mapped), mapped, n)
  {
    var names := Names(events, mapped);
    var holds := (s: State, i: nat) =>
      i <= |events| && Tables(s, events, names, mapped, i) && Told(s, events, names, mapped, i);
    forall s, i: nat | i < |events| && s == Run(events, i, mapped) && holds(s, i)
      ensures holds(Step(s, events[i], i, mapped), i + 1)
    {
      NameAt(events, mapped, i);
      TablesStep(s, events, names, mapped, i);
      ToldStep(s, events, names, mapped, i);
    }
    assert holds(INITIAL, 0);
    RunHolds(events, n, mapped, holds);
  }

  /** The event from which on everything is cut off, or the end of the log. */
  function CutAt(source: seq<nat>, kept: nat, end: nat): nat {
    if kept < |source| then source[kept] else end
  }

  lemma KeptSources(source: seq<nat>, kept: nat, end: nat, i: nat)
    requires kept <= |source| && i < end && forall p, q :: 0 <= p < q < |source| ==> source[p] < source[q]
    ensures i in source[..kept] <==> i < CutAt(source, kept, end) && i in source
  {
    if i in source {
      var p :| 0 <= p < |source| && source[p] == i;
      assert p < kept ==> source[..kept][p] == i;
    }
  }

  lemma CutIsPrefix(s: State, messages: seq<Message>)
    requires IsCut(s, messages)
    ensures |messages| <= |s.messages| && messages == s.messages[..|messages|]
  {
  }

  /**
   Up to the cut an event has a message if and only if it speaks, and just one; the messages come in the order of their
   events, and each is what its event becomes.
   */
  lemma EveryEventTold(events: seq<Event>, mapped: set<string>, messages: seq<Message>)
    requires Migrated(events, mapped, messages)
    ensures var source, names := Run(events, |events|, mapped).source, Names(events, mapped);
      && |messages| <= |source|
      && (forall p, q :: 0 <= p < q < |source| ==> source[p] < source[q])
      && (forall p :: 0 <= p < |messages| ==>
            source[p] < |events| && Says(events, names, mapped, source[p], messages[p]))
      && (forall i :: 0 <= i < |events| ==>
            (i in source[..|messages|] <==>
               i < CutAt(source, |messages|, |events|) && Speaks(events, names, mapped, i)))
  {
    var s, names := Run(events, |events|, mapped), Names(events, mapped);
    RunSourced(events, |events|, mapped);
    RunTold(events, |events|, mapped);
    CutIsPrefix(s, messages);
    forall i | 0 <= i < |events|
      ensures i in s.source[..|messages|] <==>
                i < CutAt(s.source, |messages|, |events|) && Speaks(events, names, mapped, i)
    {
      KeptSources(s.source, |messages|, |events|, i);
    }
  }

  // Ids count without gaps
  // --------------------------------------------------------------------------------------------

  /** How many of the messages have an id of their own. */
  function Ids(messages: seq<Message>): nat {
    if messages == [] then 0
    else Ids(messages[..|messages| - 1]) + if messages[|messages| - 1].Answer? then 0 else 1
  }

  /** How many of the first `n` events are tool uses that were given an id. */
  function Nameless(events: seq<Event>, n: nat): nat
    requires n <= |events|
  {
    if n == 0 then 0
    else
      var e := events[n - 1];
      Nameless(events, n - 1) + if e.ToolUse? && !e.nested && e.callId == "" then 1 else 0
  }

  ghost predicate NumberAt(s: State, events: seq<Event>, n: nat, p: nat)
    requires n <= |events| && p < |s.messages| == |s.source|
  {
    && s.source[p] < n
    && (!s.messages[p].Answer? ==>
          s.messages[p].id.number == Ids(s.messages[..p + 1]) + Nameless(events, s.source[p] + 1))
  }

  ghost predicate Consecutive(s: State, events: seq<Event>, n: nat)
    requires n <= |events|
  {
    && |s.source| == |s.messages| && s.counter == Ids(s.messages) + Nameless(events, n)
    && (forall p :: 0 <= p < |s.messages| ==> NumberAt(s, events, n, p))
  }

  lemma StepCounts(s: State, e: Event, index: nat, mapped: set<string>)
    requires |s.source| == |s.messages|
    ensures var t := Step(s, e, index, mapped);
      var named := if e.ToolUse? && !e.nested && e.callId == "" then 1 else 0;
      && (t.messages == s.messages ==> t.counter == s.counter + named && t.source == s.source)
      && (t.messages != s.messages ==>
            && |t.messages| == |s.messages| + 1 && t.messages[..|s.messages|] == s.messages
            && t.source == s.source + [index]
            && var m := t.messages[|s.messages|];
               t.counter == s.counter + named + (if m.Answer? then 0 else 1)
               && (!m.Answer? ==> m.id.number == t.counter))
  {
  }

  lemma NumberStays(s: State, t: State, events: seq<Event>, n: nat, p: nat)
    requires n < |events| && p < |s.messages| == |s.source| && NumberAt(s, events, n, p)
    requires |t.messages| == |t.source| && s.messages <= t.messages && s.source <= t.source
    ensures NumberAt(t, events, n + 1, p)
  {
    assert t.messages[..p + 1] == s.messages[..p + 1];
  }

  lemma ConsecutiveStep(s: State, events: seq<Event>, n: nat, mapped: set<string>)
    requires n < |events| && Consecutive(s, events, n)
    ensures Consecutive(Step(s, events[n], n, mapped), events, n + 1)
  {
    var t, next := Step(s, events[n], n, mapped), n + 1;
    StepCounts(s, events[n], n, mapped);
    forall p | 0 <= p < |t.messages|
      ensures NumberAt(t, events, next, p)
    {
      if p < |s.messages| {
        NumberStays(s, t, events, n, p);
      } else {
        assert t.messages[..p + 1] == t.messages;
      }
    }
  }

  /** Generated ids are numbered one after the other, those of calls among those of messages, from 1 on. */
  lemma IdsAreConsecutive(events: seq<Event>, mapped: set<string>, messages: seq<Message>, p: nat)
    requires Migrated(events, mapped, messages) && p < |messages| && !messages[p].Answer?
    ensures var source := Run(events, |events|, mapped).source;
      && p < |source| && source[p] < |events|
      && messages[p].id.number == Ids(messages[..p + 1]) + Nameless(events, source[p] + 1)
  {
    var s := Run(events, |events|, mapped);
    var holds := (s: State, i: nat) => i <= |events| && Consecutive(s, events, i);
    forall s, i: nat | i < |events| && holds(s, i)
      ensures holds(Step(s, events[i], i, mapped), i + 1)
    {
      ConsecutiveStep(s, events, i, mapped);
    }
    assert holds(INITIAL, 0);
    RunHolds(events, |events|, mapped, holds);
    CutIsPrefix(s, messages);
    assert NumberAt(s, events, |events|, p);
    assert messages[..p + 1] == s.messages[..p + 1];
  }
}
