/**
 The one-way migration of a Claude event log into LangChain messages.

 Text is carried through uninterpreted; `echo` marks a user message that only echoes a tool result.  A missing
 tool-use id is the empty string.  `mapped` is the set of tool names that have a LangGraph counterpart.
 */
module Migration {
  datatype Event =
    | UserText(nested: bool, content: string, attachments: seq<string>, echo: bool)
    | Thinking(nested: bool)
    | AssistantText(nested: bool, content: string)
    | ToolUse(nested: bool, name: string, input: string, callId: string)
    | ToolResult(nested: bool, callId: string, content: string, isError: bool)
    | Pipeline(nested: bool)

  datatype Id = Id(prefix: string, number: nat)

  datatype Message =
    | HumanMessage(id: Id, content: string, attachments: seq<string>)
    | AiMessage(id: Id, content: string)
    | Call(id: Id, callId: string, name: string, input: string)
    | Answer(callId: string, content: string, isError: bool)

  /** The loop's state; `source` records which event each message came from. */
  datatype State = State(
    messages: seq<Message>,
    source: seq<nat>,
    pendingMapped: map<string, nat>,
    pendingUnmapped: set<string>,
    counter: nat)

  const INITIAL: State := State([], [], map[], {}, 0)

  // Ids
  // --------------------------------------------------------------------------------------------

  function Digits(n: nat): string {
    (if n < 10 then "" else Digits(n / 10)) + [['0', '1', '2', '3', '4', '5', '6', '7', '8', '9'][n % 10]]
  }

  function Render(id: Id): string {
    "migrated-" + id.prefix + "-" + Digits(id.number)
  }

  lemma {:induction false} DigitsInjective(m: nat, n: nat)
    requires Digits(m) == Digits(n)
    ensures m == n
    decreases m
  {
    var a, b := Digits(m), Digits(n);
    assert a[|a| - 1] == b[|b| - 1] && a[..|a| - 1] == b[..|b| - 1];
    assert m % 10 == n % 10;
    assert (m < 10) == (a[..|a| - 1] == "") && (n < 10) == (b[..|b| - 1] == "");
    if m >= 10 {
      DigitsInjective(m / 10, n / 10);
    }
  }

  /** Two generated ids render alike only if they are the same id. */
  lemma RenderInjective(a: Id, b: Id)
    requires a.prefix in {"human", "ai", "call"} && b.prefix in {"human", "ai", "call"}
    requires Render(a) == Render(b)
    ensures a == b
  {
    var x, y := Render(a), Render(b);
    assert x[9] == a.prefix[0] && y[9] == b.prefix[0];
    assert a.prefix == b.prefix;
    var k := 10 + |a.prefix|;
    assert x[k..] == Digits(a.number) && y[k..] == Digits(b.number);
    DigitsInjective(a.number, b.number);
  }

  // One event
  // --------------------------------------------------------------------------------------------

  function Append(s: State, m: Message, index: nat, counter: nat): State {
    s.(messages := s.messages + [m], source := s.source + [index], counter := counter)
  }

  function StepUse(s: State, e: Event, index: nat, mapped: set<string>): State
    requires e.ToolUse?
  {
    var missing := e.callId == "";
    var callId := if missing then Render(Id("call", s.counter + 1)) else e.callId;
    var counter := s.counter + if missing then 2 else 1;
    if e.name in mapped then
      Append(s, Call(Id("ai", counter), callId, e.name, e.input), index, counter)
        .(pendingMapped := s.pendingMapped[callId := |s.messages|])
    else
      Append(s, AiMessage(Id("ai", counter), CalledText(e)), index, counter)
        .(pendingUnmapped := s.pendingUnmapped + {callId})
  }

  function StepResult(s: State, e: Event, index: nat): State
    requires e.ToolResult?
  {
    if e.callId in s.pendingMapped then
      Append(s, Answer(e.callId, e.content, e.isError), index, s.counter)
        .(pendingMapped := s.pendingMapped - {e.callId})
    else if e.callId in s.pendingUnmapped then
      Append(s, HumanMessage(Id("human", s.counter + 1), ResultText(e), []), index, s.counter + 1)
        .(pendingUnmapped := s.pendingUnmapped - {e.callId})
    else s
  }

  function CalledText(e: Event): string
    requires e.ToolUse?
  {
    "[Called " + e.name + "(" + e.input + ")]"
  }

  function ResultText(e: Event): string
    requires e.ToolResult?
  {
    "[Result: " + e.content + "]"
  }

  function Step(s: State, e: Event, index: nat, mapped: set<string>): State {
    if e.nested then s
    else
      match e
      case UserText(_, content, attachments, echo) =>
        if (content == "" && attachments == []) || echo then s
        else Append(s, HumanMessage(Id("human", s.counter + 1), content, attachments), index, s.counter + 1)
      case AssistantText(_, content) =>
        if content == "" then s else Append(s, AiMessage(Id("ai", s.counter + 1), content), index, s.counter + 1)
      case ToolUse(_, _, _, _) => StepUse(s, e, index, mapped)
      case ToolResult(_, _, _, _) => StepResult(s, e, index)
      case _ => s
  }

  /** The state after the first `n` events. */
  function Run(events: seq<Event>, n: nat, mapped: set<string>): State
    requires n <= |events|
  {
    if n == 0 then INITIAL else Step(Run(events, n - 1, mapped), events[n - 1], n - 1, mapped)
  }

  /** What holds at the start and is kept by every step holds after any number of events. */
  lemma {:induction false} RunHolds(events: seq<Event>, n: nat, mapped: set<string>, holds: (State, nat) -> bool)
    requires n <= |events| && holds(INITIAL, 0)
    requires forall s, i: nat :: i < |events| && s == Run(events, i, mapped) && holds(s, i) ==>
               holds(Step(s, events[i], i, mapped), i + 1)
    ensures holds(Run(events, n, mapped), n)
  {
    if n > 0 {
      RunHolds(events, n - 1, mapped, holds);
      assert Run(events, n, mapped) == Step(Run(events, n - 1, mapped), events[n - 1], n - 1, mapped);
    }
  }

  /** The id a tool use goes by: its own, or one generated for it. */
  function NameOf(s: State, e: Event): string {
    if !e.ToolUse? then "" else if e.callId == "" then Render(Id("call", s.counter + 1)) else e.callId
  }

  /** The ids that the tool uses of a log go by. */
  function Names(events: seq<Event>, mapped: set<string>): (names: seq<string>)
    ensures |names| == |events|
  {
    seq(|events|, i requires 0 <= i < |events| => NameOf(Run(events, i, mapped), events[i]))
  }

  ghost predicate IsMin(m: nat, values: set<nat>) {
    m in values && forall v :: v in values ==> m <= v
  }

  /** What is left once the first unanswered call and everything after it are cut off. */
  ghost predicate IsCut(s: State, messages: seq<Message>) {
    if s.pendingMapped == map[] then messages == s.messages
    else |messages| <= |s.messages| && messages == s.messages[..|messages|] && IsMin(|messages|, s.pendingMapped.Values)
  }

  ghost predicate Migrated(events: seq<Event>, mapped: set<string>, messages: seq<Message>) {
    IsCut(Run(events, |events|, mapped), messages)
  }

  // The invariant
  // --------------------------------------------------------------------------------------------

  function Weight(m: Message, callId: string): int {
    if m.Call? && m.callId == callId then 1 else if m.Answer? && m.callId == callId then -1 else 0
  }

  /** Calls less answers under one id. */
  function Balance(messages: seq<Message>, callId: string): int {
    if messages == [] then 0
    else Balance(messages[..|messages| - 1], callId) + Weight(messages[|messages| - 1], callId)
  }

  ghost predicate Paired(messages: seq<Message>) {
    forall k, c :: 0 <= k <= |messages| ==> Balance(messages[..k], c) >= 0
  }

  ghost predicate Open(s: State) {
    forall c :: c in s.pendingMapped ==>
      var p := s.pendingMapped[c];
      p < |s.messages| && s.messages[p].Call? && s.messages[p].callId == c && Balance(s.messages, c) >= 1
  }

  ghost predicate Numbered(s: State) {
    && (forall i :: 0 <= i < |s.messages| && !s.messages[i].Answer? ==>
          s.messages[i].id.number <= s.counter && s.messages[i].id.prefix in {"human", "ai"})
    && (forall i, j :: 0 <= i < j < |s.messages| && !s.messages[i].Answer? && !s.messages[j].Answer? ==>
          s.messages[i].id.number < s.messages[j].id.number)
  }

  /** How a message reads the event it came from. */
  predicate Renders(m: Message, e: Event, mapped: set<string>) {
    !e.nested &&
    match m
    case HumanMessage(_, content, attachments) =>
      if e.UserText? then content == e.content && attachments == e.attachments && !e.echo
      else e.ToolResult? && content == ResultText(e) && attachments == []
    case AiMessage(_, content) =>
      if e.AssistantText? then content == e.content else e.ToolUse? && e.name !in mapped && content == CalledText(e)
    case Call(_, callId, name, input) =>
      && e.ToolUse? && e.name in mapped && name == e.name && input == e.input
      && (e.callId != "" ==> callId == e.callId)
    case Answer(callId, content, isError) =>
      e.ToolResult? && callId == e.callId && content == e.content && isError == e.isError
  }

  ghost predicate Sourced(s: State, events: seq<Event>, n: nat, mapped: set<string>)
    requires n <= |events|
  {
    && |s.source| == |s.messages|
    && (forall i :: 0 <= i < |s.source| ==> s.source[i] < n && Renders(s.messages[i], events[s.source[i]], mapped))
    && (forall i, j :: 0 <= i < j < |s.source| ==> s.source[i] < s.source[j])
  }

  lemma BalanceStep(messages: seq<Message>, m: Message, c: string)
    ensures Balance(messages + [m], c) == Balance(messages, c) + Weight(m, c)
  {
    assert (messages + [m])[..|messages|] == messages;
  }

  /** Appending keeps the pairing when it does not answer a call that is not open. */
  lemma PairedAppend(messages: seq<Message>, m: Message)
    requires Paired(messages)
    requires m.Answer? ==> Balance(messages, m.callId) >= 1
    ensures Paired(messages + [m])
  {
    var all := messages + [m];
    forall k, c | 0 <= k <= |all| ensures Balance(all[..k], c) >= 0 {
      if k <= |messages| {
        assert all[..k] == messages[..k];
      } else {
        assert all[..k] == all && messages[..|messages|] == messages;
        BalanceStep(messages, m, c);
      }
    }
  }

  lemma OpenAppend(s: State, t: State, m: Message)
    requires Open(s) && t.messages == s.messages + [m]
    requires forall c :: c in t.pendingMapped ==>
               if m.Call? && m.callId == c then t.pendingMapped[c] == |s.messages|
               else c in s.pendingMapped && t.pendingMapped[c] == s.pendingMapped[c] && !(m.Answer? && m.callId == c)
    requires m.Call? ==> Balance(s.messages, m.callId) >= 0
    ensures Open(t)
  {
    forall c | c in t.pendingMapped ensures Balance(t.messages, c) >= 1 {
      BalanceStep(s.messages, m, c);
    }
  }

  lemma StepPaired(s: State, e: Event, index: nat, mapped: set<string>)
    requires Paired(s.messages) && Open(s)
    ensures Paired(Step(s, e, index, mapped).messages) && Open(Step(s, e, index, mapped))
  {
    var t := Step(s, e, index, mapped);
    if t.messages != s.messages {
      var m := t.messages[|s.messages|];
      assert t.messages == s.messages + [m];
      assert s.messages[..|s.messages|] == s.messages;
      PairedAppend(s.messages, m);
      OpenAppend(s, t, m);
    }
  }

  lemma RunPaired(events: seq<Event>, n: nat, mapped: set<string>)
    requires n <= |events|
    ensures Paired(Run(events, n, mapped).messages) && Open(Run(events, n, mapped))
  {
    var holds := (s: State, i: nat) => Paired(s.messages) && Open(s);
    forall s, i: nat | i < |events| && holds(s, i)
      ensures holds(Step(s, events[i], i, mapped), i + 1)
    {
      StepPaired(s, events[i], i, mapped);
    }
    assert holds(INITIAL, 0);
    RunHolds(events, n, mapped, holds);
  }

  lemma StepNumbered(s: State, e: Event, index: nat, mapped: set<string>)
    requires Numbered(s)
    ensures Numbered(Step(s, e, index, mapped))
  {
  }

  /** The message a step appends, if any, says what the event said. */
  lemma StepRenders(s: State, e: Event, index: nat, mapped: set<string>)
    requires |s.source| == |s.messages|
    ensures var t := Step(s, e, index, mapped);
      Grows(s, t, index) && (|t.messages| > |s.messages| ==> Renders(t.messages[|s.messages|], e, mapped))
  {
  }

  lemma StepSourced(s: State, events: seq<Event>, n: nat, mapped: set<string>)
    requires n < |events| && Sourced(s, events, n, mapped)
    ensures Sourced(Step(s, events[n], n, mapped), events, n + 1, mapped)
  {
    var t := Step(s, events[n], n, mapped);
    StepRenders(s, events[n], n, mapped);
    forall i | 0 <= i < |t.source|
      ensures t.source[i] < n + 1 && Renders(t.messages[i], events[t.source[i]], mapped)
    {
      if i < |s.source| {
        GrowsAt(s, t, n, i);
      }
    }
  }

  lemma RunSourced(events: seq<Event>, n: nat, mapped: set<string>)
    requires n <= |events|
    ensures Numbered(Run(events, n, mapped)) && Sourced(Run(events, n, mapped), events, n, mapped)
  {
    var holds := (s: State, i: nat) => i <= |events| && Numbered(s) && Sourced(s, events, i, mapped);
    forall s, i: nat | i < |events| && holds(s, i)
      ensures holds(Step(s, events[i], i, mapped), i + 1)
    {
      StepNumbered(s, events[i], i, mapped);
      StepSourced(s, events, i, mapped);
    }
    assert Sourced(INITIAL, events, 0, mapped) && holds(INITIAL, 0);
    RunHolds(events, n, mapped, holds);
  }

  // What every migration satisfies
  // --------------------------------------------------------------------------------------------

  /** Each answer follows a call it answers, and no prefix holds more answers than calls under any id. */
  lemma AnswersFollowCalls(events: seq<Event>, mapped: set<string>, messages: seq<Message>)
    requires Migrated(events, mapped, messages)
    ensures Paired(messages)
    ensures forall q :: 0 <= q < |messages| && messages[q].Answer? ==>
              exists p :: 0 <= p < q && messages[p].Call? && messages[p].callId == messages[q].callId
  {
    var all := Run(events, |events|, mapped).messages;
    RunPaired(events, |events|, mapped);
    assert messages == all[..|messages|];
    forall k, c | 0 <= k <= |messages| ensures Balance(messages[..k], c) >= 0 {
      assert messages[..k] == all[..k];
    }
    forall q | 0 <= q < |messages| && messages[q].Answer?
      ensures exists p :: 0 <= p < q && messages[p].Call? && messages[p].callId == messages[q].callId
    {
      assert messages[..q + 1] == messages[..q] + [messages[q]];
      BalanceStep(messages[..q], messages[q], messages[q].callId);
      PositiveBalance(messages[..q], messages[q].callId);
    }
  }

  lemma {:induction false} PositiveBalance(messages: seq<Message>, c: string)
    requires Balance(messages, c) >= 1
    ensures exists p :: 0 <= p < |messages| && messages[p].Call? && messages[p].callId == c
  {
    var n := |messages| - 1;
    if Weight(messages[n], c) != 1 {
      PositiveBalance(messages[..n], c);
    }
  }

  lemma {:induction false} CounterGrows(events: seq<Event>, mapped: set<string>, i: nat, k: nat)
    requires i <= k <= |events|
    ensures Run(events, i, mapped).counter <= Run(events, k, mapped).counter
    decreases k
  {
    if i < k {
      CounterGrows(events, mapped, i, k - 1);
    }
  }

  lemma UseCounts(s: State, e: Event, index: nat, mapped: set<string>)
    requires e.ToolUse? && !e.nested && e.callId == ""
    ensures Step(s, e, index, mapped).counter == s.counter + 2
  {
  }

  lemma CallIdsDiffer(m: nat, n: nat)
    requires m != n
    ensures Render(Id("call", m)) != Render(Id("call", n))
  {
    if Render(Id("call", m)) == Render(Id("call", n)) {
      RenderInjective(Id("call", m), Id("call", n));
    }
  }

  lemma NameAt(events: seq<Event>, mapped: set<string>, i: nat)
    requires i < |events|
    ensures Names(events, mapped)[i] == NameOf(Run(events, i, mapped), events[i])
  {
  }

  lemma NamesDifferLater(s: State, d: Event, t: State, e: Event)
    requires d.ToolUse? && e.ToolUse? && d.callId == "" && e.callId == "" && s.counter < t.counter
    ensures NameOf(s, d) != NameOf(t, e)
  {
    CallIdsDiffer(s.counter + 1, t.counter + 1);
  }

  /** Ids generated for tool uses without one are pairwise different. */
  lemma GeneratedNamesDiffer(events: seq<Event>, mapped: set<string>, i: nat, k: nat)
    requires i < k < |events| && events[i].ToolUse? && events[k].ToolUse? && !events[i].nested
    requires events[i].callId == "" && events[k].callId == ""
    ensures Names(events, mapped)[i] != Names(events, mapped)[k]
  {
    var s, t := Run(events, i, mapped), Run(events, k, mapped);
    UseCounts(s, events[i], i, mapped);
    CounterGrows(events, mapped, i + 1, k);
    NamesDifferLater(s, events[i], t, events[k]);
    NameAt(events, mapped, i);
    NameAt(events, mapped, k);
  }

  /** Every call goes by the id of its tool use. */
  ghost predicate Named(s: State, events: seq<Event>, names: seq<string>) {
    |names| == |events| && |s.source| == |s.messages| &&
    forall p :: 0 <= p < |s.messages| && s.messages[p].Call? ==>
      s.source[p] < |events| && s.messages[p].callId == names[s.source[p]]
  }

  lemma StepNames(s: State, e: Event, index: nat, mapped: set<string>)
    requires |s.source| == |s.messages|
    ensures var t := Step(s, e, index, mapped);
      |t.messages| > |s.messages| && t.messages[|s.messages|].Call? ==> t.messages[|s.messages|].callId == NameOf(s, e)
  {
  }

  lemma StepNamed(s: State, events: seq<Event>, n: nat, mapped: set<string>, names: seq<string>)
    requires n < |events| && Named(s, events, names) && names[n] == NameOf(s, events[n])
    ensures Named(Step(s, events[n], n, mapped), events, names)
  {
    var t := Step(s, events[n], n, mapped);
    StepNames(s, events[n], n, mapped);
    StepShape(s, events[n], n, mapped);
    forall p | 0 <= p < |t.messages| && t.messages[p].Call?
      ensures p < |t.source| && t.source[p] < |events| && t.messages[p].callId == names[t.source[p]]
    {
      if p < |s.messages| {
        GrowsAt(s, t, n, p);
      }
    }
  }

  lemma RunNamed(events: seq<Event>, n: nat, mapped: set<string>)
    requires n <= |events|
    ensures Named(Run(events, n, mapped), events, Names(events, mapped))
  {
    var names := Names(events, mapped);
    var holds := (s: State, i: nat) => Named(s, events, names);
    forall s, i: nat | i < |events| && s == Run(events, i, mapped) && holds(s, i)
      ensures holds(Step(s, events[i], i, mapped), i + 1)
    {
      StepNamed(s, events, i, mapped, names);
    }
    assert holds(INITIAL, 0);
    RunHolds(events, n, mapped, holds);
  }

  /**
   Generated ids, as rendered, are pairwise different, those of messages and those of calls; messages keep event order,
   say what their event said, and a call goes by the id of its tool use.
   */
  lemma IdsUniqueAndOrdered(events: seq<Event>, mapped: set<string>, messages: seq<Message>)
    requires Migrated(events, mapped, messages)
    ensures forall i, j :: 0 <= i < j < |messages| && !messages[i].Answer? && !messages[j].Answer? ==>
              Render(messages[i].id) != Render(messages[j].id)
    ensures var source := Run(events, |events|, mapped).source;
      && |messages| <= |source|
      && (forall i :: 0 <= i < |messages| ==> source[i] < |events| && Renders(messages[i], events[source[i]], mapped))
      && (forall i, j :: 0 <= i < j < |messages| ==> source[i] < source[j])
      && (forall i :: 0 <= i < |messages| && messages[i].Call? ==>
            messages[i].callId == Names(events, mapped)[source[i]])
      && (forall i, j :: 0 <= i < j < |messages| && messages[i].Call? && messages[j].Call? ==>
            events[source[i]].callId == "" && events[source[j]].callId == "" ==>
              messages[i].callId != messages[j].callId)
  {
    RunSourced(events, |events|, mapped);
    RunNamed(events, |events|, mapped);
    var source := Run(events, |events|, mapped).source;
    forall i, j | 0 <= i < j < |messages| && !messages[i].Answer? && !messages[j].Answer?
      ensures Render(messages[i].id) != Render(messages[j].id)
    {
      if Render(messages[i].id) == Render(messages[j].id) {
        RenderInjective(messages[i].id, messages[j].id);
      }
    }
    forall i, j | 0 <= i < j < |messages| && messages[i].Call? && messages[j].Call?
                  && events[source[i]].callId == "" && events[source[j]].callId == ""
      ensures messages[i].callId != messages[j].callId
    {
      GeneratedNamesDiffer(events, mapped, source[i], source[j]);
    }
  }

  // When every call that is kept has its answer
  // --------------------------------------------------------------------------------------------

  predicate MappedUse(e: Event, mapped: set<string>) {
    e.ToolUse? && !e.nested && e.name in mapped
  }

  predicate Answers(e: Event, name: string) {
    e.ToolResult? && !e.nested && e.callId == name
  }

  /** The tool use at `i` has its result in the log before `k`. */
  ghost predicate AnsweredBefore(events: seq<Event>, names: seq<string>, i: nat, k: nat)
    requires i < |events| == |names| && k <= |events|
  {
    exists j :: i < j < k && Answers(events[j], names[i])
  }

  /** No two mapped calls go by the same id. */
  ghost predicate DistinctCalls(events: seq<Event>, names: seq<string>, mapped: set<string>)
    requires |events| == |names|
  {
    forall i, k :: 0 <= i < k < |events| && MappedUse(events[i], mapped) && MappedUse(events[k], mapped) ==>
      names[i] != names[k]
  }

  /** `k` is the first mapped call that the log never answers. */
  ghost predicate FirstUnanswered(events: seq<Event>, names: seq<string>, mapped: set<string>, k: nat)
    requires |events| == |names|
  {
    && k < |events| && MappedUse(events[k], mapped) && !AnsweredBefore(events, names, k, |events|)
    && forall i :: 0 <= i < k && MappedUse(events[i], mapped) ==> AnsweredBefore(events, names, i, |events|)
  }

  /** No call is still open when the first never-answered one is issued. */
  ghost predicate ClosedAtTheCut(events: seq<Event>, names: seq<string>, mapped: set<string>)
    requires |events| == |names|
  {
    forall k: nat, i: nat ::
      FirstUnanswered(events, names, mapped, k) && i < k && MappedUse(events[i], mapped) ==>
        AnsweredBefore(events, names, i, k)
  }

  // Which calls are answered
  // --------------------------------------------------------------------------------------------

  ghost predicate InTable(s: State, p: nat)
    requires p < |s.messages| && s.messages[p].Call?
  {
    s.messages[p].callId in s.pendingMapped && s.pendingMapped[s.messages[p].callId] == p
  }

  /** The call at `p` has an answer in the output that comes from an event before `k`. */
  ghost predicate AnswerBy(s: State, p: nat, k: nat)
    requires p < |s.messages| == |s.source| && s.messages[p].Call?
  {
    exists q :: p < q < |s.messages| && IsAnswer(s.messages[q], s.messages[p].callId) && s.source[q] < k
  }

  predicate IsAnswer(m: Message, callId: string) {
    m.Answer? && m.callId == callId
  }

  lemma AnsweredLater(events: seq<Event>, names: seq<string>, i: nat, n: nat)
    requires i < n < |events| == |names|
    ensures AnsweredBefore(events, names, i, n + 1) <==>
            AnsweredBefore(events, names, i, n) || Answers(events[n], names[i])
  {
    if Answers(events[n], names[i]) {
      assert i < n < n + 1;
    }
  }

  /** A step appends one message or none. */
  ghost predicate Grows(s: State, t: State, index: nat) {
    || (t.messages == s.messages && t.source == s.source)
    || (|t.messages| == |s.messages| + 1 && t.messages[..|s.messages|] == s.messages && t.source == s.source + [index])
  }

  predicate NewIs(s: State, t: State, callId: string) {
    |t.messages| == |s.messages| + 1 && IsAnswer(t.messages[|s.messages|], callId)
  }

  predicate Resolves(s: State, e: Event) {
    e.ToolResult? && !e.nested && e.callId in s.pendingMapped
  }

  /** A call enters the table, a result that resolves one takes it out and is the answer, anything else leaves it. */
  lemma StepShape(s: State, e: Event, index: nat, mapped: set<string>)
    requires |s.source| == |s.messages|
    ensures var t := Step(s, e, index, mapped);
      && Grows(s, t, index)
      && (MappedUse(e, mapped) ==>
            && |t.messages| == |s.messages| + 1 && t.messages[|s.messages|].Call?
            && t.pendingMapped == s.pendingMapped[t.messages[|s.messages|].callId := |s.messages|])
      && (Resolves(s, e) ==> NewIs(s, t, e.callId) && t.pendingMapped == s.pendingMapped - {e.callId})
      && (!MappedUse(e, mapped) && !Resolves(s, e) ==>
            && t.pendingMapped == s.pendingMapped
            && (|t.messages| > |s.messages| ==>
                  !t.messages[|s.messages|].Call? && !t.messages[|s.messages|].Answer?))
  {
  }

  lemma GrowsAt(s: State, t: State, index: nat, p: nat)
    requires Grows(s, t, index) && p < |s.messages| == |s.source|
    ensures |t.messages| == |t.source| >= |s.messages| && t.messages[p] == s.messages[p] && t.source[p] == s.source[p]
  {
    if |t.messages| > |s.messages| { assert t.messages[..|s.messages|][p] == t.messages[p]; }
  }

  /** The answers from earlier events are those there were... */
  lemma AnswersKept(s: State, t: State, p: nat, k: nat, n: nat)
    requires p < |s.messages| == |s.source| && s.messages[p].Call? && Grows(s, t, n) && k <= n
    requires |t.messages| == |t.source| && p < |t.messages| && t.messages[p] == s.messages[p]
    ensures AnswerBy(t, p, k) <==> AnswerBy(s, p, k)
  {
    forall q | p < q < |s.messages|
      ensures t.messages[q] == s.messages[q] && t.source[q] == s.source[q]
    {
      GrowsAt(s, t, n, q);
    }
  }

  /** ...and the event at hand adds one exactly if its message is one. */
  lemma AnswersAdded(s: State, t: State, p: nat, n: nat)
    requires p < |s.messages| == |s.source| && s.messages[p].Call? && Grows(s, t, n)
    requires |t.messages| == |t.source| && p < |t.messages| && t.messages[p] == s.messages[p]
    requires forall q :: 0 <= q < |s.source| ==> s.source[q] < n
    ensures AnswerBy(t, p, n + 1) <==> AnswerBy(s, p, n) || NewIs(s, t, s.messages[p].callId)
  {
    forall q | p < q < |s.messages|
      ensures t.messages[q] == s.messages[q] && t.source[q] == s.source[q]
    {
      GrowsAt(s, t, n, q);
    }
    if NewIs(s, t, s.messages[p].callId) {
      assert p < |s.messages| < |t.messages| && t.source[|s.messages|] == n;
    }
  }

  /** The call is in the table until the log has answered it, and from then on its answer is in the output. */
  ghost predicate TrackedCall(s: State, events: seq<Event>, names: seq<string>, n: nat, p: nat)
    requires n <= |events| == |names| && p < |s.messages| == |s.source| && s.messages[p].Call?
    requires s.source[p] < n
  {
    && (InTable(s, p) <==> !AnsweredBefore(events, names, s.source[p], n))
    && (forall k: nat :: k <= n ==> (AnsweredBefore(events, names, s.source[p], k) <==> AnswerBy(s, p, k)))
  }

  lemma CallStillTracked(s: State, t: State, events: seq<Event>, names: seq<string>, n: nat, p: nat)
    requires n < |events| == |names| && p < |s.messages| == |s.source| && s.messages[p].Call? && Grows(s, t, n)
    requires forall q :: 0 <= q < |s.source| ==> s.source[q] < n
    requires s.messages[p].callId == names[s.source[p]] && TrackedCall(s, events, names, n, p)
    requires p < |t.messages| == |t.source| && t.messages[p] == s.messages[p] && t.source[p] == s.source[p]
    requires var hit := Answers(events[n], s.messages[p].callId);
      (InTable(t, p) <==> InTable(s, p) && !hit) && (NewIs(s, t, s.messages[p].callId) <==> InTable(s, p) && hit)
    ensures TrackedCall(t, events, names, n + 1, p)
  {
    var i := s.source[p];
    AnsweredLater(events, names, i, n);
    AnswersAdded(s, t, p, n);
    assert AnsweredBefore(events, names, i, n) <==> AnswerBy(s, p, n);
    forall k: nat | k <= n + 1
      ensures AnsweredBefore(events, names, i, k) <==> AnswerBy(t, p, k)
    {
      if k <= n {
        AnswersKept(s, t, p, k, n);
        assert AnsweredBefore(events, names, i, k) <==> AnswerBy(s, p, k);
      }
    }
  }

  // Call ids are distinct
  // --------------------------------------------------------------------------------------------

  ghost predicate OneCallPerId(s: State) {
    forall p, q :: 0 <= p < q < |s.messages| && s.messages[p].Call? && s.messages[q].Call? ==>
      s.messages[p].callId != s.messages[q].callId
  }

  /** All there is to know of a run for telling which calls are answered. */
  ghost predicate Shaped(s: State, events: seq<Event>, n: nat, mapped: set<string>, names: seq<string>)
    requires n <= |events|
  {
    Sourced(s, events, n, mapped) && Named(s, events, names) && Open(s)
  }

  /** A call's event is a mapped use, its name is the call's id. */
  lemma CallFrom(s: State, events: seq<Event>, n: nat, mapped: set<string>, names: seq<string>, p: nat)
    requires n <= |events| && Sourced(s, events, n, mapped) && Named(s, events, names)
    requires p < |s.messages| && s.messages[p].Call?
    ensures s.source[p] < n && MappedUse(events[s.source[p]], mapped) && s.messages[p].callId == names[s.source[p]]
  {
    assert Renders(s.messages[p], events[s.source[p]], mapped);
  }

  lemma CallsDiffer(s: State, events: seq<Event>, n: nat, mapped: set<string>, names: seq<string>)
    requires n <= |events| && Sourced(s, events, n, mapped) && Named(s, events, names)
    requires DistinctCalls(events, names, mapped)
    ensures OneCallPerId(s)
  {
    forall p, q | 0 <= p < q < |s.messages| && s.messages[p].Call? && s.messages[q].Call?
      ensures s.messages[p].callId != s.messages[q].callId
    {
      CallFrom(s, events, n, mapped, names, p);
      CallFrom(s, events, n, mapped, names, q);
    }
  }

  // Every call is tracked
  // --------------------------------------------------------------------------------------------

  /** The table has nothing else under a call's id. */
  lemma OwnEntry(s: State, p: nat)
    requires OneCallPerId(s) && Open(s) && p < |s.messages| && s.messages[p].Call?
    ensures s.messages[p].callId in s.pendingMapped ==> s.pendingMapped[s.messages[p].callId] == p
  {
    var c := s.messages[p].callId;
    if c in s.pendingMapped {
      var o := s.pendingMapped[c];
      assert s.messages[o].Call? && s.messages[o].callId == c;
    }
  }

  /** What the step does to the table's entry for a call that was there, and whether it answers it. */
  lemma StepOnCall(s: State, e: Event, n: nat, mapped: set<string>, p: nat)
    requires |s.source| == |s.messages| && p < |s.messages| && s.messages[p].Call?
    requires s.messages[p].callId in s.pendingMapped ==> s.pendingMapped[s.messages[p].callId] == p
    requires MappedUse(e, mapped) ==> s.messages[p].callId != NameOf(s, e)
    ensures var t := Step(s, e, n, mapped); var hit := Answers(e, s.messages[p].callId);
      && Grows(s, t, n) && p < |t.messages| == |t.source|
      && t.messages[p] == s.messages[p] && t.source[p] == s.source[p]
      && (InTable(t, p) <==> InTable(s, p) && !hit)
      && (NewIs(s, t, s.messages[p].callId) <==> InTable(s, p) && hit)
  {
    StepShape(s, e, n, mapped);
    StepNames(s, e, n, mapped);
    GrowsAt(s, Step(s, e, n, mapped), n, p);
  }

  lemma OldCallTracked(s: State, events: seq<Event>, n: nat, mapped: set<string>, names: seq<string>, p: nat)
    requires n < |events| == |names| && |s.source| == |s.messages| && p < |s.messages| && s.messages[p].Call?
    requires forall q :: 0 <= q < |s.source| ==> s.source[q] < n
    requires s.messages[p].callId in s.pendingMapped ==> s.pendingMapped[s.messages[p].callId] == p
    requires MappedUse(events[n], mapped) ==> s.messages[p].callId != NameOf(s, events[n])
    requires s.messages[p].callId == names[s.source[p]] && TrackedCall(s, events, names, n, p)
    ensures var t := Step(s, events[n], n, mapped);
      && p < |t.messages| == |t.source| && t.messages[p] == s.messages[p] && t.source[p] == s.source[p]
      && TrackedCall(t, events, names, n + 1, p)
  {
    StepOnCall(s, events[n], n, mapped, p);
    CallStillTracked(s, Step(s, events[n], n, mapped), events, names, n, p);
  }

  lemma NewCallTracked(s: State, events: seq<Event>, n: nat, mapped: set<string>, names: seq<string>)
    requires n < |events| == |names| && |s.messages| == |s.source| && MappedUse(events[n], mapped)
    ensures var t := Step(s, events[n], n, mapped);
      |t.messages| == |t.source| == |s.messages| + 1 && t.messages[|s.messages|].Call? && t.source[|s.messages|] == n &&
      TrackedCall(t, events, names, n + 1, |s.messages|)
  {
    StepShape(s, events[n], n, mapped);
  }

  ghost predicate HasCall(s: State, i: nat) {
    exists p :: 0 <= p < |s.messages| == |s.source| && s.messages[p].Call? && s.source[p] == i
  }

  /** A call of the output, and what is known of it after `n` events. */
  ghost predicate Known(s: State, events: seq<Event>, names: seq<string>, n: nat, mapped: set<string>, p: nat)
    requires n <= |events| == |names| && p < |s.messages| == |s.source| && s.messages[p].Call?
  {
    s.source[p] < n && MappedUse(events[s.source[p]], mapped) && TrackedCall(s, events, names, n, p)
  }

  ghost predicate AllKnown(s: State, events: seq<Event>, names: seq<string>, n: nat, mapped: set<string>)
    requires n <= |events| == |names| && |s.messages| == |s.source|
  {
    && (forall p :: 0 <= p < |s.messages| && s.messages[p].Call? ==> Known(s, events, names, n, mapped, p))
    && (forall i :: 0 <= i < n && MappedUse(events[i], mapped) ==> HasCall(s, i))
  }

  lemma StepKnown(s: State, events: seq<Event>, n: nat, mapped: set<string>, names: seq<string>, p: nat)
    requires n < |events| == |names| && DistinctCalls(events, names, mapped) && names[n] == NameOf(s, events[n])
    requires Shaped(s, events, n, mapped, names) && AllKnown(s, events, names, n, mapped)
    requires var t := Step(s, events[n], n, mapped);
      p < |t.messages| == |t.source| && t.messages[p].Call?
    ensures Known(Step(s, events[n], n, mapped), events, names, n + 1, mapped, p)
  {
    StepShape(s, events[n], n, mapped);
    if p < |s.messages| {
      GrowsAt(s, Step(s, events[n], n, mapped), n, p);
      CallFrom(s, events, n, mapped, names, p);
      CallsDiffer(s, events, n, mapped, names);
      OwnEntry(s, p);
      assert Known(s, events, names, n, mapped, p);
      OldCallTracked(s, events, n, mapped, names, p);
    } else {
      NewCallTracked(s, events, n, mapped, names);
    }
  }

  lemma StepHasCall(s: State, events: seq<Event>, n: nat, mapped: set<string>, i: nat)
    requires n < |events| && |s.messages| == |s.source| && i <= n && MappedUse(events[i], mapped)
    requires i < n ==> HasCall(s, i)
    ensures HasCall(Step(s, events[n], n, mapped), i)
  {
    var t := Step(s, events[n], n, mapped);
    StepShape(s, events[n], n, mapped);
    if i < n {
      var p :| 0 <= p < |s.messages| && s.messages[p].Call? && s.source[p] == i;
      GrowsAt(s, t, n, p);
      assert t.messages[p].Call? && t.source[p] == i;
    } else {
      assert t.messages[|s.messages|].Call? && t.source[|s.messages|] == n;
    }
  }

  lemma KnownStep(s: State, events: seq<Event>, n: nat, mapped: set<string>, names: seq<string>)
    requires n < |events| == |names| && DistinctCalls(events, names, mapped) && names[n] == NameOf(s, events[n])
    requires Shaped(s, events, n, mapped, names) && AllKnown(s, events, names, n, mapped)
    ensures var t := Step(s, events[n], n, mapped);
      |t.messages| == |t.source| && AllKnown(t, events, names, n + 1, mapped)
  {
    var t := Step(s, events[n], n, mapped);
    StepShape(s, events[n], n, mapped);
    forall p | 0 <= p < |t.messages| && t.messages[p].Call?
      ensures Known(t, events, names, n + 1, mapped, p)
    {
      StepKnown(s, events, n, mapped, names, p);
    }
    forall i | 0 <= i < n + 1 && MappedUse(events[i], mapped)
      ensures HasCall(t, i)
    {
      assert i < n ==> HasCall(s, i);
      StepHasCall(s, events, n, mapped, i);
    }
  }

  lemma StepShaped(s: State, events: seq<Event>, n: nat, mapped: set<string>, names: seq<string>)
    requires n < |events| && Shaped(s, events, n, mapped, names) && Paired(s.messages)
    requires names[n] == NameOf(s, events[n])
    ensures Shaped(Step(s, events[n], n, mapped), events, n + 1, mapped, names)
    ensures Paired(Step(s, events[n], n, mapped).messages)
  {
    StepPaired(s, events[n], n, mapped);
    StepSourced(s, events, n, mapped);
    StepNamed(s, events, n, mapped, names);
  }

  lemma StartKnown(events: seq<Event>, mapped: set<string>, names: seq<string>)
    requires |events| == |names|
    ensures Shaped(INITIAL, events, 0, mapped, names) && Paired(INITIAL.messages)
    ensures AllKnown(INITIAL, events, names, 0, mapped)
  {
  }

  lemma RunKnown(events: seq<Event>, mapped: set<string>)
    requires DistinctCalls(events, Names(events, mapped), mapped)
    ensures var s, names := Run(events, |events|, mapped), Names(events, mapped);
      Shaped(s, events, |events|, mapped, names) && AllKnown(s, events, names, |events|, mapped)
  {
    var names := Names(events, mapped);
    var holds := (s: State, i: nat) =>
      && i <= |events| && Shaped(s, events, i, mapped, names) && Paired(s.messages)
      && AllKnown(s, events, names, i, mapped);
    forall s, i: nat | i < |events| && s == Run(events, i, mapped) && holds(s, i)
      ensures holds(Step(s, events[i], i, mapped), i + 1)
    {
      StepShaped(s, events, i, mapped, names);
      KnownStep(s, events, i, mapped, names);
    }
    StartKnown(events, mapped, names);
    assert holds(INITIAL, 0);
    RunHolds(events, |events|, mapped, holds);
  }

  // The cut
  // --------------------------------------------------------------------------------------------

  /** A state in which the calls are known, and the order of its messages and its table are what they should be. */
  ghost predicate Settled(s: State, events: seq<Event>, names: seq<string>, mapped: set<string>) {
    && |s.messages| == |s.source| && |events| == |names|
    && (forall p, q :: 0 <= p < q < |s.source| ==> s.source[p] < s.source[q])
    && (forall c :: c in s.pendingMapped ==> TableEntry(s, c, s.pendingMapped[c]))
    && AllKnown(s, events, names, |events|, mapped)
  }

  predicate TableEntry(s: State, c: string, p: nat) {
    p < |s.messages| && s.messages[p].Call? && s.messages[p].callId == c
  }

  lemma SettledIfKnown(s: State, events: seq<Event>, names: seq<string>, mapped: set<string>)
    requires |events| == |names| && Shaped(s, events, |events|, mapped, names)
    requires AllKnown(s, events, names, |events|, mapped)
    ensures Settled(s, events, names, mapped) && forall i :: 0 <= i < |s.source| ==> s.source[i] < |events|
  {
  }

  lemma RunSettled(events: seq<Event>, names: seq<string>, mapped: set<string>) returns (s: State)
    requires names == Names(events, mapped) && DistinctCalls(events, names, mapped)
    ensures s == Run(events, |events|, mapped) && Settled(s, events, names, mapped)
    ensures forall i :: 0 <= i < |s.source| ==> s.source[i] < |events|
  {
    s := Run(events, |events|, mapped);
    RunKnown(events, mapped);
    SettledIfKnown(s, events, names, mapped);
  }

  lemma CutIsPrefix(s: State, messages: seq<Message>)
    requires IsCut(s, messages)
    ensures |messages| <= |s.messages| && forall p :: 0 <= p < |messages| ==> messages[p] == s.messages[p]
  {
  }

  /** Nothing before the cut is in the table... */
  lemma BeforeCut(s: State, messages: seq<Message>, p: nat)
    requires IsCut(s, messages) && p < |messages| <= |s.messages| && s.messages[p].Call?
    ensures !InTable(s, p)
  {
    assert InTable(s, p) ==> p in s.pendingMapped.Values;
  }

  /** ...and what is cut off begins with something that is. */
  lemma AtCut(s: State, messages: seq<Message>)
    requires IsCut(s, messages) && |messages| < |s.messages|
    requires forall c :: c in s.pendingMapped ==> TableEntry(s, c, s.pendingMapped[c])
    ensures s.messages[|messages|].Call? && InTable(s, |messages|)
  {
    var c :| c in s.pendingMapped && s.pendingMapped[c] == |messages|;
    assert TableEntry(s, c, s.pendingMapped[c]);
  }

  /** Every call before the cut is answered somewhere in the log. */
  lemma KeptCallAnswered(s: State, events: seq<Event>, names: seq<string>, mapped: set<string>,
                         messages: seq<Message>, p: nat)
    requires |events| == |names| && |s.messages| == |s.source| && IsCut(s, messages)
    requires p < |messages| <= |s.messages| && s.messages[p].Call?
    requires Known(s, events, names, |events|, mapped, p)
    ensures AnsweredBefore(events, names, s.source[p], |events|)
  {
    BeforeCut(s, messages, p);
  }

  lemma EarlierAnswered(s: State, events: seq<Event>, names: seq<string>, mapped: set<string>,
                        messages: seq<Message>, i: nat)
    requires |events| == |names| && IsCut(s, messages) && |messages| < |s.messages| == |s.source|
    requires forall p, q :: 0 <= p < q < |s.source| ==> s.source[p] < s.source[q]
    requires forall p :: 0 <= p < |s.messages| && s.messages[p].Call? ==> Known(s, events, names, |events|, mapped, p)
    requires i < |events| && HasCall(s, i) && i < s.source[|messages|]
    ensures AnsweredBefore(events, names, i, |events|)
  {
    var p :| 0 <= p < |s.messages| && s.messages[p].Call? && s.source[p] == i;
    assert p < |messages|;
    assert Known(s, events, names, |events|, mapped, p);
    KeptCallAnswered(s, events, names, mapped, messages, p);
  }

  /** The cut falls at the first call the log never answers... */
  lemma CutIsFirstUnanswered(s: State, events: seq<Event>, names: seq<string>, mapped: set<string>,
                             messages: seq<Message>)
    requires Settled(s, events, names, mapped) && IsCut(s, messages) && |messages| < |s.messages|
    ensures FirstUnanswered(events, names, mapped, s.source[|messages|])
  {
    var cut := |messages|;
    AtCut(s, messages);
    assert Known(s, events, names, |events|, mapped, cut);
    forall i | 0 <= i < s.source[cut] && MappedUse(events[i], mapped)
      ensures AnsweredBefore(events, names, i, |events|)
    {
      assert HasCall(s, i);
      EarlierAnswered(s, events, names, mapped, messages, i);
    }
  }

  /** ...and if there is such a call, something is cut. */
  lemma UnansweredIsCut(s: State, events: seq<Event>, names: seq<string>, mapped: set<string>,
                        messages: seq<Message>, k: nat)
    requires Settled(s, events, names, mapped) && IsCut(s, messages) && FirstUnanswered(events, names, mapped, k)
    ensures |messages| < |s.messages|
  {
    assert HasCall(s, k);
    var p :| 0 <= p < |s.messages| && s.messages[p].Call? && s.source[p] == k;
    assert Known(s, events, names, |events|, mapped, p);
    CutIsPrefix(s, messages);
    if p < |messages| {
      BeforeCut(s, messages, p);
    }
  }

  lemma OneFirst(events: seq<Event>, names: seq<string>, mapped: set<string>, j: nat, k: nat)
    requires |events| == |names| && FirstUnanswered(events, names, mapped, j)
    requires FirstUnanswered(events, names, mapped, k)
    ensures j == k
  {
  }

  lemma FirstUnansweredIsCut(s: State, events: seq<Event>, names: seq<string>, mapped: set<string>,
                             messages: seq<Message>, k: nat)
    requires Settled(s, events, names, mapped) && IsCut(s, messages) && FirstUnanswered(events, names, mapped, k)
    ensures |messages| < |s.messages| && s.source[|messages|] == k
  {
    UnansweredIsCut(s, events, names, mapped, messages, k);
    CutIsFirstUnanswered(s, events, names, mapped, messages);
    OneFirst(events, names, mapped, s.source[|messages|], k);
  }

  /** For distinct ids: the output is cut at the first call the log never answers, and not at all if it answers all. */
  lemma CutExactly(events: seq<Event>, mapped: set<string>, messages: seq<Message>, k: nat)
    requires DistinctCalls(events, Names(events, mapped), mapped) && Migrated(events, mapped, messages)
    ensures var s := Run(events, |events|, mapped);
      && |s.messages| == |s.source|
      && (FirstUnanswered(events, Names(events, mapped), mapped, k) <==>
              |messages| < |s.messages| && s.source[|messages|] == k)
  {
    var names := Names(events, mapped);
    var s := RunSettled(events, names, mapped);
    if FirstUnanswered(events, names, mapped, k) {
      FirstUnansweredIsCut(s, events, names, mapped, messages, k);
    }
    if |messages| < |s.messages| {
      CutIsFirstUnanswered(s, events, names, mapped, messages);
    }
  }

  ghost predicate AnsweredIn(messages: seq<Message>, p: nat)
    requires p < |messages| && messages[p].Call?
  {
    exists q :: p < q < |messages| && IsAnswer(messages[q], messages[p].callId)
  }

  ghost predicate AllAnswered(messages: seq<Message>) {
    forall p :: 0 <= p < |messages| && messages[p].Call? ==> AnsweredIn(messages, p)
  }

  /** Where the cut falls in the log. */
  function CutAt(s: State, messages: seq<Message>, end: nat): nat {
    if |messages| < |s.source| then s.source[|messages|] else end
  }

  /** An answer that comes from before the cut is before the cut. */
  lemma AnswerInside(s: State, messages: seq<Message>, p: nat, end: nat)
    requires |s.source| == |s.messages| && IsCut(s, messages) && p < |messages| <= |s.messages| && s.messages[p].Call?
    requires forall i, j :: 0 <= i < j < |s.source| ==> s.source[i] < s.source[j]
    requires forall i :: 0 <= i < |s.source| ==> s.source[i] < end
    ensures messages[p] == s.messages[p]
    ensures AnsweredIn(messages, p) <==> AnswerBy(s, p, CutAt(s, messages, end))
  {
    CutIsPrefix(s, messages);
    var k := CutAt(s, messages, end);
    forall q | 0 <= q < |s.messages|
      ensures q < |messages| <==> s.source[q] < k
    {
    }
    if AnswerBy(s, p, k) {
      var q :| p < q < |s.messages| && IsAnswer(s.messages[q], s.messages[p].callId) && s.source[q] < k;
      assert messages[q] == s.messages[q];
    }
  }

  /** A call kept is answered in the output if and only if the log answers it before the cut. */
  lemma KeptAnswered(s: State, events: seq<Event>, names: seq<string>, mapped: set<string>,
                     messages: seq<Message>, p: nat)
    requires Settled(s, events, names, mapped) && IsCut(s, messages) && p < |messages| && messages[p].Call?
    requires forall i :: 0 <= i < |s.source| ==> s.source[i] < |events|
    ensures |messages| <= |s.messages| && s.messages[p] == messages[p] && Known(s, events, names, |events|, mapped, p)
    ensures CutAt(s, messages, |events|) <= |events|
    ensures AnsweredIn(messages, p) <==> AnsweredBefore(events, names, s.source[p], CutAt(s, messages, |events|))
  {
    CutIsPrefix(s, messages);
    assert Known(s, events, names, |events|, mapped, p);
    AnswerInside(s, messages, p, |events|);
  }

  lemma ClosedMeansAnswered(s: State, events: seq<Event>, names: seq<string>, mapped: set<string>,
                            messages: seq<Message>, p: nat)
    requires Settled(s, events, names, mapped) && IsCut(s, messages) && ClosedAtTheCut(events, names, mapped)
    requires forall i :: 0 <= i < |s.source| ==> s.source[i] < |events|
    requires p < |messages| && messages[p].Call?
    ensures AnsweredIn(messages, p)
  {
    KeptAnswered(s, events, names, mapped, messages, p);
    if |messages| < |s.messages| {
      CutIsFirstUnanswered(s, events, names, mapped, messages);
      assert s.source[p] < s.source[|messages|];
    } else {
      KeptCallAnswered(s, events, names, mapped, messages, p);
    }
  }

  lemma AnsweredMeansClosed(s: State, events: seq<Event>, names: seq<string>, mapped: set<string>,
                            messages: seq<Message>, k: nat, i: nat)
    requires Settled(s, events, names, mapped) && IsCut(s, messages) && AllAnswered(messages)
    requires forall j :: 0 <= j < |s.source| ==> s.source[j] < |events|
    requires FirstUnanswered(events, names, mapped, k) && i < k && MappedUse(events[i], mapped)
    ensures AnsweredBefore(events, names, i, k)
  {
    FirstUnansweredIsCut(s, events, names, mapped, messages, k);
    assert HasCall(s, i);
    var p :| 0 <= p < |s.messages| && s.messages[p].Call? && s.source[p] == i;
    assert p < |messages|;
    CutIsPrefix(s, messages);
    KeptAnswered(s, events, names, mapped, messages, p);
  }

  /** For distinct ids: every call in the output has its answer if and only if none is open when the cut is made. */
  lemma AllAnsweredExactly(events: seq<Event>, mapped: set<string>, messages: seq<Message>)
    requires DistinctCalls(events, Names(events, mapped), mapped) && Migrated(events, mapped, messages)
    ensures AllAnswered(messages) <==> ClosedAtTheCut(events, Names(events, mapped), mapped)
  {
    var names := Names(events, mapped);
    var s := RunSettled(events, names, mapped);
    ExactlyAtTheEnd(s, events, names, mapped, messages);
  }

  lemma ExactlyAtTheEnd(s: State, events: seq<Event>, names: seq<string>, mapped: set<string>, messages: seq<Message>)
    requires Settled(s, events, names, mapped) && IsCut(s, messages)
    requires forall i :: 0 <= i < |s.source| ==> s.source[i] < |events|
    ensures AllAnswered(messages) <==> ClosedAtTheCut(events, names, mapped)
  {
    if ClosedAtTheCut(events, names, mapped) {
      forall p | 0 <= p < |messages| && messages[p].Call?
        ensures AnsweredIn(messages, p)
      {
        ClosedMeansAnswered(s, events, names, mapped, messages, p);
      }
    }
    if AllAnswered(messages) {
      forall k: nat, i: nat | FirstUnanswered(events, names, mapped, k) && i < k && MappedUse(events[i], mapped)
        ensures AnsweredBefore(events, names, i, k)
      {
        AnsweredMeansClosed(s, events, names, mapped, messages, k, i);
      }
    }
  }

  /** In particular when no mapped call is issued while another is open. */
  lemma SequentialCallsAnswered(events: seq<Event>, mapped: set<string>, messages: seq<Message>)
    requires DistinctCalls(events, Names(events, mapped), mapped) && Migrated(events, mapped, messages)
    requires forall i: nat, k: nat ::
               i < k < |events| && MappedUse(events[i], mapped) && MappedUse(events[k], mapped) ==>
                 AnsweredBefore(events, Names(events, mapped), i, k)
    ensures AllAnswered(messages)
  {
    var names := Names(events, mapped);
    forall k: nat, i: nat | FirstUnanswered(events, names, mapped, k) && i < k && MappedUse(events[i], mapped)
      ensures AnsweredBefore(events, names, i, k)
    {
      assert MappedUse(events[k], mapped);
    }
    AllAnsweredExactly(events, mapped, messages);
  }

  function Overlapping(): seq<Event> {
    [ToolUse(false, "Read", "", "a"), ToolUse(false, "Read", "", "b"), ToolResult(false, "a", "", false)]
  }

  /** Call A, call B, result A: the cut at B keeps A and drops its result. */
  lemma OverlappingCallsLoseAnAnswer(messages: seq<Message>)
    requires Migrated(Overlapping(), {"Read"}, messages)
    ensures messages == [Call(Id("ai", 1), "a", "Read", "")]
    ensures !AllAnswered(messages)
  {
    var events := Overlapping();
    var a, b := Call(Id("ai", 1), "a", "Read", ""), Call(Id("ai", 2), "b", "Read", "");
    var zero, one := Run(events, 0, {"Read"}), Run(events, 1, {"Read"});
    assert zero == INITIAL && events[0] == ToolUse(false, "Read", "", "a");
    assert one == StepUse(zero, events[0], 0, {"Read"});
    assert one.counter == 1;
    assert one.messages == [a];
    var two := Run(events, 2, {"Read"});
    assert two == StepUse(one, events[1], 1, {"Read"});
    assert two.messages == [a, b] && two.pendingMapped == map["a" := 0, "b" := 1];
    var s := Run(events, 3, {"Read"});
    assert s == StepResult(two, events[2], 2);
    assert s.messages == [a, b, Answer("a", "", false)] && s.pendingMapped == map["b" := 1];
    assert "b" in s.pendingMapped;
    var c :| c in s.pendingMapped && s.pendingMapped[c] == |messages|;
    assert |messages| == 1 && messages[0] == a;
  }

  // The loop
  // --------------------------------------------------------------------------------------------

  method EventsToMessages(events: seq<Event>, mapped: set<string>) returns (messages: seq<Message>)
    ensures Migrated(events, mapped, messages)
  {
    var s := INITIAL;
    for n := 0 to |events|
      invariant s == Run(events, n, mapped)
    {
      if !events[n].nested {
        match events[n] {
          case ToolUse(_, _, _, _) => s := Use(s, events[n], n, mapped);
          case ToolResult(_, _, _, _) => s := Resolve(s, events[n], n);
          case _ => s := Say(s, events[n], n, mapped);
        }
      }
    }
    messages := s.messages;
    if s.pendingMapped != map[] {
      RunPaired(events, |events|, mapped);
      var cut := Least(s.pendingMapped);
      messages := messages[..cut];
    }
  }

  /** The loop's body for what is said: user and assistant text. */
  method Say(s: State, e: Event, index: nat, mapped: set<string>) returns (t: State)
    requires !e.nested && !e.ToolUse? && !e.ToolResult?
    ensures t == Step(s, e, index, mapped)
  {
    var messages, counter := s.messages, s.counter;
    match e {
      case UserText(_, content, attachments, echo) =>
        if (content != "" || attachments != []) && !echo {
          counter := counter + 1;
          messages := messages + [HumanMessage(Id("human", counter), content, attachments)];
        }
      case AssistantText(_, content) =>
        if content != "" {
          counter := counter + 1;
          messages := messages + [AiMessage(Id("ai", counter), content)];
        }
      case _ =>
    }
    var source := if |messages| > |s.messages| then s.source + [index] else s.source;
    t := State(messages, source, s.pendingMapped, s.pendingUnmapped, counter);
  }

  /** For a tool use: a real call if the tool is mapped, else a bracketed text. */
  method Use(s: State, e: Event, index: nat, mapped: set<string>) returns (t: State)
    requires e.ToolUse?
    ensures t == StepUse(s, e, index, mapped)
  {
    var messages, counter, callId := s.messages, s.counter, e.callId;
    var pendingMapped, pendingUnmapped := s.pendingMapped, s.pendingUnmapped;
    if callId == "" {
      counter := counter + 1;
      callId := Render(Id("call", counter));
    }
    counter := counter + 1;
    if e.name in mapped {
      messages := messages + [Call(Id("ai", counter), callId, e.name, e.input)];
      pendingMapped := pendingMapped[callId := |messages| - 1];
    } else {
      messages := messages + [AiMessage(Id("ai", counter), CalledText(e))];
      pendingUnmapped := pendingUnmapped + {callId};
    }
    t := State(messages, s.source + [index], pendingMapped, pendingUnmapped, counter);
  }

  /** For a tool result: the answer to a mapped call, the text for a bracketed one, nothing for an unknown one. */
  method Resolve(s: State, e: Event, index: nat) returns (t: State)
    requires e.ToolResult?
    ensures t == StepResult(s, e, index)
  {
    var messages, counter := s.messages, s.counter;
    var pendingMapped, pendingUnmapped := s.pendingMapped, s.pendingUnmapped;
    if e.callId in pendingMapped {
      pendingMapped := pendingMapped - {e.callId};
      messages := messages + [Answer(e.callId, e.content, e.isError)];
    } else if e.callId in pendingUnmapped {
      pendingUnmapped := pendingUnmapped - {e.callId};
      counter := counter + 1;
      messages := messages + [HumanMessage(Id("human", counter), ResultText(e), [])];
    }
    var source := if |messages| > |s.messages| then s.source + [index] else s.source;
    t := State(messages, source, pendingMapped, pendingUnmapped, counter);
  }

  method Least(table: map<string, nat>) returns (least: nat)
    requires table != map[]
    ensures IsMin(least, table.Values)
  {
    var keys := table.Keys;
    var key :| key in keys;
    least, keys := table[key], keys - {key};
    while keys != {}
      invariant keys <= table.Keys && least in table.Values
      invariant forall k :: k in table && k !in keys ==> least <= table[k]
      decreases |keys|
    {
      key :| key in keys;
      if table[key] < least {
        least := table[key];
      }
      keys := keys - {key};
    }
  }
}
