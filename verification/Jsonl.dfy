/**
 JSONL logs: reading a whole file, reading on from an offset, reading back from the end, and repairing a torn tail.

 Files are byte sequences.  What a line means is left to a codec: functions of a line without its terminator, which
 JSON decoding and stripping ignore.
 */
module Jsonl {
  import opened Wrappers

  type Byte = b: int | 0 <= b < 256

  const NEWLINE: Byte := 10
  const RETURN: Byte := 13

  type Line = seq<Byte>

  /**
   `blank` is the text reader's test for a line to skip and `blankBytes` the byte reader's; `parse` is JSON decoding,
   `recover` the records found in a damaged line, and `isObject` the test of a torn tail.
   */
  datatype Codec<!R> = Codec(
    blank: Line -> bool,
    blankBytes: Line -> bool,
    parse: Line -> Option<R>,
    recover: Line -> seq<R>,
    isObject: Line -> bool)

  ghost predicate Lawful<R>(c: Codec<R>) {
    && c.blankBytes([])
    && (forall l :: c.blankBytes(l) ==> c.blank(l))
    && (forall l :: c.blank(l) ==> c.parse(l).None? && c.recover(l) == [])
    && (forall l :: c.isObject(l) ==> c.parse(l).Some?)
  }

  // Lines
  // --------------------------------------------------------------------------------------------

  /** The pieces between newlines: every line without its terminator, then what follows the last newline. */
  function Split(file: seq<Byte>): (pieces: seq<Line>)
    ensures pieces != []
  {
    if file == [] then [[]]
    else
      var rest := Split(file[1..]);
      if file[0] == NEWLINE then [[]] + rest else [[file[0]] + rest[0]] + rest[1..]
  }

  function Last(pieces: seq<Line>): Line
    requires pieces != []
  {
    pieces[|pieces| - 1]
  }

  /** The complete lines. */
  function Heads(file: seq<Byte>): seq<Line> {
    Split(file)[..|Split(file)| - 1]
  }

  /** Every line is complete. */
  predicate Clean(file: seq<Byte>) {
    file == [] || file[|file| - 1] == NEWLINE
  }

  function Count(file: seq<Byte>): nat {
    if file == [] then 0 else (if file[0] == NEWLINE then 1 else 0) + Count(file[1..])
  }

  /** Universal newlines, as the text reader sees them. */
  function Universal(file: seq<Byte>): seq<Byte> {
    if file == [] then []
    else if file[0] != RETURN then [file[0]] + Universal(file[1..])
    else if |file| > 1 && file[1] == NEWLINE then [NEWLINE] + Universal(file[2..])
    else [NEWLINE] + Universal(file[1..])
  }

  lemma {:induction false} NoReturns(file: seq<Byte>)
    requires RETURN !in file
    ensures Universal(file) == file
  {
    if file != [] {
      assert file == [file[0]] + file[1..];
      NoReturns(file[1..]);
    }
  }

  /** In text mode a return ends a line like a newline, and the two together end just one. */
  lemma {:induction false} ReturnsEndLines(line: Line, rest: seq<Byte>)
    requires RETURN !in line
    ensures Universal(line + [RETURN, NEWLINE] + rest) == line + [NEWLINE] + Universal(rest)
    ensures rest == [] || rest[0] != NEWLINE ==> Universal(line + [RETURN] + rest) == line + [NEWLINE] + Universal(rest)
  {
    if line == [] {
      assert ([RETURN, NEWLINE] + rest)[2..] == rest && ([RETURN] + rest)[1..] == rest;
      assert line + [RETURN, NEWLINE] + rest == [RETURN, NEWLINE] + rest && line + [RETURN] + rest == [RETURN] + rest;
    } else {
      assert line == [line[0]] + line[1..];
      assert (line + [RETURN, NEWLINE] + rest)[1..] == line[1..] + [RETURN, NEWLINE] + rest;
      assert (line + [RETURN] + rest)[1..] == line[1..] + [RETURN] + rest;
      ReturnsEndLines(line[1..], rest);
      assert (line + [NEWLINE] + Universal(rest)) == [line[0]] + (line[1..] + [NEWLINE] + Universal(rest));
    }
  }

  /** Splitting at a newline splits the pieces. */
  lemma {:induction false} SplitAtNewline(a: seq<Byte>, b: seq<Byte>)
    ensures Split(a + [NEWLINE] + b) == Split(a) + Split(b)
  {
    var whole := a + [NEWLINE] + b;
    if a == [] {
      assert whole == [NEWLINE] + b && whole[1..] == b;
    } else {
      assert whole[1..] == a[1..] + [NEWLINE] + b;
      SplitAtNewline(a[1..], b);
    }
  }

  lemma {:induction false} SplitNoNewline(a: seq<Byte>)
    requires NEWLINE !in a
    ensures Split(a) == [a]
  {
    if a != [] {
      assert a == [a[0]] + a[1..];
      SplitNoNewline(a[1..]);
    }
  }

  /** Appending to complete lines leaves them as they are. */
  lemma CleanConcat(a: seq<Byte>, b: seq<Byte>)
    requires Clean(a)
    ensures Split(a + b) == Heads(a) + Split(b)
    ensures Heads(a + b) == Heads(a) + Heads(b) && Last(Split(a + b)) == Last(Split(b))
    ensures Last(Split(a)) == []
  {
    if a == [] {
      assert a + b == b;
      assert Split(a) == [[]];
    } else {
      var init := a[..|a| - 1];
      assert a == init + [NEWLINE] + [] && a + b == init + [NEWLINE] + b;
      SplitAtNewline(init, []);
      SplitAtNewline(init, b);
      HeadsOf(Split(a), Split(init));
    }
    HeadsAndLast(Split(a + b), Heads(a), Split(b));
  }

  lemma HeadsOf(pieces: seq<Line>, init: seq<Line>)
    requires pieces == init + Split([])
    ensures pieces[..|pieces| - 1] == init && Last(pieces) == []
  {
    assert Split([]) == [[]];
  }

  lemma HeadsAndLast(all: seq<Line>, heads: seq<Line>, pieces: seq<Line>)
    requires pieces != [] && all == heads + pieces
    ensures all[..|all| - 1] == heads + pieces[..|pieces| - 1] && Last(all) == Last(pieces)
  {
  }

  /** One line and its terminator. */
  lemma OneLine(text: Line)
    requires NEWLINE !in text
    ensures Heads(text + [NEWLINE]) == [text] && Heads(text) == []
  {
    assert text + [NEWLINE] == text + [NEWLINE] + [];
    SplitAtNewline(text, []);
    SplitNoNewline(text);
    assert Split([]) == [[]];
  }

  lemma {:induction false} SplitCount(file: seq<Byte>)
    ensures |Split(file)| == Count(file) + 1
  {
    if file != [] { SplitCount(file[1..]); }
  }

  /** Where the last, possibly empty, line begins. */
  function LastLineStart(file: seq<Byte>): (start: nat)
    ensures start <= |file| && Clean(file[..start]) && NEWLINE !in file[start..]
  {
    if Clean(file) then |file|
    else
      var init := file[..|file| - 1];
      var start := LastLineStart(init);
      assert file[start..] == init[start..] + [file[|file| - 1]] && file[..start] == init[..start];
      start
  }

  lemma LastLineIs(file: seq<Byte>, start: nat)
    requires start <= |file| && Clean(file[..start]) && NEWLINE !in file[start..]
    ensures LastLineStart(file) == start
  {
    var other := LastLineStart(file);
    forall i | start <= i < |file| ensures file[i] != NEWLINE { assert file[i] == file[start..][i - start]; }
    forall i | other <= i < |file| ensures file[i] != NEWLINE { assert file[i] == file[other..][i - other]; }
  }

  lemma LastLineAfter(done: seq<Byte>, after: seq<Byte>)
    requires Clean(done)
    ensures LastLineStart(done + after) == |done| + LastLineStart(after)
  {
    var start := |done| + LastLineStart(after);
    assert (done + after)[..start] == done + after[..LastLineStart(after)];
    assert (done + after)[start..] == after[LastLineStart(after)..];
    LastLineIs(done + after, start);
  }

  /** What follows the last newline is the last piece. */
  lemma SplitLast(file: seq<Byte>)
    ensures Last(Split(file)) == file[LastLineStart(file)..]
    ensures Heads(file) == Heads(file[..LastLineStart(file)])
  {
    var done, open := file[..LastLineStart(file)], file[LastLineStart(file)..];
    assert file == done + open;
    CleanConcat(done, open);
    SplitNoNewline(open);
  }

  // What the lines hold
  // --------------------------------------------------------------------------------------------

  /** A complete line yields its record, or what can be recovered; an unterminated one its record or nothing. */
  function LineRecords<R>(c: Codec<R>, line: Line, terminated: bool): seq<R> {
    if c.blank(line) then []
    else
      match c.parse(line)
      case Some(r) => [r]
      case None => if terminated then c.recover(line) else []
  }

  function Complete<R>(c: Codec<R>, lines: seq<Line>): seq<R> {
    if lines == [] then [] else LineRecords(c, lines[0], true) + Complete(c, lines[1..])
  }

  /** All the pieces, the last one unterminated. */
  function Decode<R>(c: Codec<R>, pieces: seq<Line>): seq<R> {
    if pieces == [] then []
    else Complete(c, pieces[..|pieces| - 1]) + LineRecords(c, Last(pieces), false)
  }

  function ReadJsonl<R>(c: Codec<R>, file: seq<Byte>): seq<R> {
    Decode(c, Split(Universal(file)))
  }

  /** What an incremental read returns: the records of the complete lines, and the offset past them. */
  datatype Reading<R> = Reading(records: seq<R>, position: nat)

  function ReadFrom<R>(c: Codec<R>, file: seq<Byte>, offset: nat): Reading<R> {
    if offset > |file| then Reading([], offset)
    else Reading(Complete(c, Heads(file[offset..])), offset + LastLineStart(file[offset..]))
  }

  lemma {:induction false} CompleteConcat<R>(c: Codec<R>, a: seq<Line>, b: seq<Line>)
    ensures Complete(c, a + b) == Complete(c, a) + Complete(c, b)
  {
    if a == [] {
      assert a + b == b;
    } else {
      assert (a + b)[1..] == a[1..] + b;
      CompleteConcat(c, a[1..], b);
    }
  }

  // Reading on from an offset
  // --------------------------------------------------------------------------------------------

  /** Complete lines at the offset are read one way or the other: at once, or before reading on from their end. */
  lemma ReadFromSteps<R>(c: Codec<R>, file: seq<Byte>, offset: nat, done: seq<Byte>)
    requires Clean(done) && offset + |done| <= |file| && file[offset..offset + |done|] == done
    ensures ReadFrom(c, file, offset).records ==
              Complete(c, Heads(done)) + ReadFrom(c, file, offset + |done|).records
    ensures ReadFrom(c, file, offset).position == ReadFrom(c, file, offset + |done|).position
  {
    var after := file[offset + |done|..];
    assert file[offset..] == done + after;
    LastLineAfter(done, after);
    CleanConcat(done, after);
    CompleteConcat(c, Heads(done), Heads(after));
  }

  lemma ReadsCompleteLines<R>(c: Codec<R>, file: seq<Byte>, offset: nat, done: seq<Byte>, open: Line)
    requires offset <= |file| && file[offset..] == done + open && Clean(done) && NEWLINE !in open
    ensures ReadFrom(c, file, offset).records == Complete(c, Heads(done))
    ensures ReadFrom(c, file, offset).position == offset + |done|
  {
    CleanConcat(done, open);
    OneLine(open);
    assert Heads(done) + [] == Heads(done);
    assert (done + open)[..|done|] == done && (done + open)[|done|..] == open;
    LastLineIs(done + open, |done|);
  }

  lemma SliceAcross(file: seq<Byte>, extra: seq<Byte>, offset: nat, k: nat)
    requires offset + k <= |file|
    ensures (file + extra)[offset..offset + k] == file[offset..][..k]
  {
  }

  /** What it is to compose: `whole` is one read, `first` and `second` the same in two. */
  predicate InTwo<R(==)>(whole: Reading<R>, first: Reading<R>, second: Reading<R>) {
    whole.records == first.records + second.records && whole.position == second.position
  }

  lemma ComposesWithin<R>(c: Codec<R>, file: seq<Byte>, extra: seq<Byte>, offset: nat)
    requires offset <= |file|
    ensures offset <= ReadFrom(c, file, offset).position <= |file|
    ensures InTwo(ReadFrom(c, file + extra, offset), ReadFrom(c, file, offset),
                  ReadFrom(c, file + extra, ReadFrom(c, file, offset).position))
  {
    var rest := file[offset..];
    var start := LastLineStart(rest);
    assert rest == rest[..start] + rest[start..];
    ComposeAt(c, file, extra, offset, rest[..start], rest[start..]);
  }

  lemma ComposesBeyond<R>(c: Codec<R>, file: seq<Byte>, extra: seq<Byte>, offset: nat)
    requires offset > |file|
    ensures ReadFrom(c, file, offset) == Reading([], offset)
    ensures InTwo(ReadFrom(c, file + extra, offset), ReadFrom(c, file, offset), ReadFrom(c, file + extra, offset))
  {
    var records := ReadFrom(c, file + extra, offset).records;
    assert [] + records == records;
  }

  /** Reading, appending anything, and reading on from the returned offset is one read of the final file. */
  lemma ReadFromComposes<R>(c: Codec<R>, file: seq<Byte>, extra: seq<Byte>, offset: nat)
    ensures var first := ReadFrom(c, file, offset);
            && offset <= first.position && (offset <= |file| ==> first.position <= |file|)
            && InTwo(ReadFrom(c, file + extra, offset), first, ReadFrom(c, file + extra, first.position))
  {
    if offset <= |file| {
      ComposesWithin(c, file, extra, offset);
    } else {
      ComposesBeyond(c, file, extra, offset);
    }
  }

  lemma ComposeAt<R>(c: Codec<R>, file: seq<Byte>, extra: seq<Byte>, offset: nat, done: seq<Byte>, open: Line)
    requires offset <= |file| && file[offset..] == done + open && Clean(done) && NEWLINE !in open
    ensures ReadFrom(c, file, offset).position == offset + |done| <= |file|
    ensures ReadFrom(c, file + extra, offset).records ==
              ReadFrom(c, file, offset).records + ReadFrom(c, file + extra, offset + |done|).records
    ensures ReadFrom(c, file + extra, offset).position == ReadFrom(c, file + extra, offset + |done|).position
  {
    ReadsCompleteLines(c, file, offset, done, open);
    SliceAcross(file, extra, offset, |done|);
    ReadFromSteps(c, file + extra, offset, done);
  }

  /** One read from the start, plus the record of an unterminated last line if it has one, is the whole file. */
  lemma ReadFromStart<R>(c: Codec<R>, file: seq<Byte>)
    requires RETURN !in file
    ensures var first := ReadFrom(c, file, 0);
            && first.position <= |file|
            && ReadJsonl(c, file) == first.records + LineRecords(c, file[first.position..], false)
  {
    NoReturns(file);
    SplitLast(file);
    assert file[0..] == file;
  }

  // Repairing a torn tail
  // --------------------------------------------------------------------------------------------

  function Repaired<R>(c: Codec<R>, file: seq<Byte>): seq<Byte> {
    var start := LastLineStart(file);
    if start == |file| then file
    else if c.isObject(file[start..]) then file + [NEWLINE]
    else file[..start]
  }

  lemma CleanStart(file: seq<Byte>)
    ensures Clean(file) <==> LastLineStart(file) == |file|
  {
    var start := LastLineStart(file);
    assert start < |file| ==> file[|file| - 1] == file[start..][|file| - 1 - start];
  }

  /** Repair leaves a file that needs none, keeps every byte through the last newline, and is idempotent. */
  lemma RepairKeepsCompleteLines<R>(c: Codec<R>, file: seq<Byte>)
    ensures Clean(Repaired(c, file))
    ensures file[..LastLineStart(file)] <= Repaired(c, file)
    ensures Repaired(c, Repaired(c, file)) == Repaired(c, file)
    ensures Clean(file) ==> Repaired(c, file) == file
  {
    CleanStart(file);
    CleanStart(Repaired(c, file));
  }

  /** On a clean file, and so after every repair, the next append decodes as its own line. */
  lemma AppendDecodesAlone<R>(c: Codec<R>, file: seq<Byte>, text: Line)
    requires Clean(file) && NEWLINE !in text && RETURN !in file + text && Lawful(c)
    ensures ReadJsonl(c, file + text + [NEWLINE]) == ReadJsonl(c, file) + LineRecords(c, text, true)
  {
    CleanReads(c, file);
    CleanReads(c, file + text + [NEWLINE]);
    assert file + text + [NEWLINE] == file + (text + [NEWLINE]);
    CompleteOneMore(c, file, text);
  }

  /** Complete lines read alone, whatever follows them. */
  lemma CleanThenMore<R>(c: Codec<R>, done: seq<Byte>, after: seq<Byte>)
    requires Clean(done) && RETURN !in done + after && Lawful(c)
    ensures ReadJsonl(c, done + after) == ReadJsonl(c, done) + ReadJsonl(c, after)
  {
    assert forall b :: b in done || b in after ==> b in done + after;
    CleanReads(c, done);
    NoReturns(after);
    NoReturns(done + after);
    CleanConcat(done, after);
    assert Split(done + after) != [] && Split(after) != [];
    CompleteConcat(c, Heads(done), Heads(after));
    Regroup(Complete(c, Heads(done)), Complete(c, Heads(after)), LineRecords(c, Last(Split(after)), false));
  }

  /**
   What a line yields, wherever it stands: if it is terminated, its record, or whatever can be recovered from it when it
   does not parse; at the end of the file and unterminated, its record or nothing.
   */
  lemma LineYields<R>(c: Codec<R>, before: seq<Byte>, line: Line, after: seq<Byte>)
    requires Clean(before) && NEWLINE !in line && RETURN !in before + line + after && Lawful(c)
    ensures ReadJsonl(c, before + line + [NEWLINE] + after) ==
              ReadJsonl(c, before)
              + (match c.parse(line) case Some(r) => [r] case None => c.recover(line))
              + ReadJsonl(c, after)
    ensures ReadJsonl(c, before + line) ==
              ReadJsonl(c, before) + (match c.parse(line) case Some(r) => [r] case None => [])
  {
    assert forall b :: b in before || b in line || b in after ==> b in before + line + after;
    AppendDecodesAlone(c, before, line);
    CleanThenMore(c, before + line + [NEWLINE], after);
    CleanReads(c, before);
    CleanThenTail(c, before, line);
    assert c.blank(line) ==> c.parse(line).None? && c.recover(line) == [];
  }

  lemma CleanReads<R>(c: Codec<R>, file: seq<Byte>)
    requires Clean(file) && RETURN !in file && Lawful(c)
    ensures ReadJsonl(c, file) == Complete(c, Heads(file))
  {
    assert file + [] == file;
    CleanThenTail(c, file, []);
    EmptyLine(c);
  }

  /** The lines between an offset and the last line are complete, and repair leaves them where they were. */
  lemma LinesBefore<R>(c: Codec<R>, file: seq<Byte>, offset: nat) returns (done: seq<Byte>)
    requires offset <= LastLineStart(file)
    ensures LastLineStart(file) <= |Repaired(c, file)| && offset + |done| == LastLineStart(file)
    ensures Clean(done) && file[offset..] == done + file[LastLineStart(file)..]
    ensures Repaired(c, file)[offset..offset + |done|] == done
  {
    var start, fixed := LastLineStart(file), Repaired(c, file);
    done := file[offset..start];
    assert offset < start ==> done[start - offset - 1] == file[..start][start - 1];
    assert file[..start] <= fixed;
    assert fixed[offset..start] == file[..start][offset..];
  }

  /**
   An offset issued before a repair stays valid: reading on from it afterwards gives the records it gave before, then
   the completed line if there is one, and ends at the file's end.
   */
  lemma OffsetsSurviveRepair<R>(c: Codec<R>, file: seq<Byte>, offset: nat)
    requires Lawful(c) && offset <= LastLineStart(file)
    ensures ReadFrom(c, file, offset).position == LastLineStart(file) <= |Repaired(c, file)|
    ensures var again, tail := ReadFrom(c, Repaired(c, file), offset), file[LastLineStart(file)..];
            && again.position == |Repaired(c, file)|
            && again.records ==
                 ReadFrom(c, file, offset).records + if c.isObject(tail) then [c.parse(tail).value] else []
  {
    var start := LastLineStart(file);
    var done := LinesBefore(c, file, offset);
    ReadsCompleteLines(c, file, offset, done, file[start..]);
    ReadFromSteps(c, Repaired(c, file), offset, done);
    ReadOnAfterRepair(c, file);
    RepairKeepsCompleteLines(c, file);
    CleanReadsToEnd(c, Repaired(c, file), start);
  }

  lemma CleanReadsToEnd<R>(c: Codec<R>, file: seq<Byte>, offset: nat)
    requires Clean(file) && offset <= |file|
    ensures ReadFrom(c, file, offset).position == |file|
  {
    var rest := file[offset..];
    assert offset < |file| ==> rest[|rest| - 1] == file[|file| - 1];
    CleanStart(rest);
  }

  /**
   Reading on from the last line's start after the repair yields the completed line, if there is one, and nothing
   else.
   */
  lemma ReadOnAfterRepair<R>(c: Codec<R>, file: seq<Byte>)
    requires Lawful(c)
    ensures var tail := file[LastLineStart(file)..];
            ReadFrom(c, Repaired(c, file), LastLineStart(file)).records ==
              if c.isObject(tail) then [c.parse(tail).value] else []
  {
    var start := LastLineStart(file);
    var fixed, tail := Repaired(c, file), file[start..];
    EmptyLine(c);
    if start < |file| && c.isObject(tail) {
      assert fixed[start..] == tail + [NEWLINE];
      ReadsRepairedLine(c, fixed, start, tail);
    } else {
      assert fixed[start..] == [] + [] && start == |fixed|;
      ReadsCompleteLines(c, fixed, start, [], []);
      OneLine([]);
    }
  }

  lemma EmptyLine<R>(c: Codec<R>)
    requires Lawful(c)
    ensures c.blank([]) && !c.isObject([]) && c.parse([]).None?
  {
    assert c.blankBytes([]);
  }

  lemma ReadsRepairedLine<R>(c: Codec<R>, file: seq<Byte>, start: nat, line: Line)
    requires start <= |file| && file[start..] == line + [NEWLINE] && NEWLINE !in line
    requires Lawful(c) && c.isObject(line)
    ensures ReadFrom(c, file, start).records == [c.parse(line).value]
  {
    assert file[start..] == (line + [NEWLINE]) + [];
    ReadsCompleteLines(c, file, start, line + [NEWLINE], []);
    OneLine(line);
    assert LineRecords(c, line, true) == [c.parse(line).value];
    assert Complete(c, [line]) == LineRecords(c, line, true) + [];
  }

  lemma CleanThenTail<R>(c: Codec<R>, done: seq<Byte>, tail: Line)
    requires Clean(done) && NEWLINE !in tail && RETURN !in done + tail
    ensures ReadJsonl(c, done + tail) == Complete(c, Heads(done)) + LineRecords(c, tail, false)
  {
    NoReturns(done + tail);
    CleanConcat(done, tail);
    SplitNoNewline(tail);
    OneLine(tail);
    assert Heads(done) + [] == Heads(done);
  }

  /** Repair loses no record that reading yields, unless the torn tail decodes to something other than an object. */
  lemma RepairKeepsRecords<R>(c: Codec<R>, file: seq<Byte>)
    requires RETURN !in file && Lawful(c)
    ensures var tail := file[LastLineStart(file)..];
            ReadJsonl(c, Repaired(c, file)) == ReadJsonl(c, file) <==> (c.parse(tail).Some? ==> c.isObject(tail))
  {
    var start := LastLineStart(file);
    var done, tail := file[..start], file[start..];
    assert file == done + tail;
    CleanThenTail(c, done, tail);
    TailRecord(c, tail);
    if start < |file| && c.isObject(tail) {
      CompletedReads(c, done, tail);
      assert file + [NEWLINE] == done + tail + [NEWLINE];
    } else {
      CleanReads(c, done);
      EmptyLine(c);
    }
  }

  /** An unterminated tail yields its record, if it has one. */
  lemma TailRecord<R>(c: Codec<R>, tail: Line)
    requires Lawful(c)
    ensures LineRecords(c, tail, false) == if c.parse(tail).Some? then [c.parse(tail).value] else []
  {
  }

  lemma CompletedReads<R>(c: Codec<R>, done: seq<Byte>, tail: Line)
    requires Clean(done) && NEWLINE !in tail && RETURN !in done + tail && Lawful(c) && c.isObject(tail)
    ensures ReadJsonl(c, done + tail + [NEWLINE]) == ReadJsonl(c, done + tail)
  {
    CleanThenTail(c, done, tail);
    AppendDecodesAlone(c, done, tail);
    CleanReads(c, done);
  }

  // Reading back from the end
  // --------------------------------------------------------------------------------------------

  /** Walks back in chunks until more than `limit` newlines are in hand, or the file's start is reached. */
  method ReadTail(file: seq<Byte>, limit: nat, chunk: nat) returns (pos: nat, data: seq<Byte>)
    requires chunk >= 1
    ensures pos <= |file| && data == file[pos..]
    ensures pos > 0 ==> Count(data) > limit
  {
    pos, data := |file|, [];
    while pos > 0 && Count(data) <= limit
      invariant pos <= |file| && data == file[pos..]
    {
      var step := if chunk < pos then chunk else pos;
      pos := pos - step;
      data := file[pos..pos + step] + data;
    }
  }

  /** Walks back in chunks to the last newline. */
  method FindLastLineStart(file: seq<Byte>, chunk: nat) returns (start: nat)
    requires chunk >= 1
    ensures start == LastLineStart(file)
  {
    var pos: nat := |file|;
    while pos > 0
      invariant pos <= |file|
      invariant forall i :: pos <= i < |file| ==> file[i] != NEWLINE
    {
      var step := if chunk < pos then chunk else pos;
      pos := pos - step;
      var newline := RFind(file, pos, pos + step);
      if newline != -1 {
        LastLineIs(file, newline + 1);
        return newline + 1;
      }
    }
    LastLineIs(file, 0);
    return 0;
  }

  /** The last newline of a chunk, as a position in the file, or -1. */
  method RFind(file: seq<Byte>, from: nat, to: nat) returns (index: int)
    requires from <= to <= |file|
    ensures index == -1 || (from <= index < to && file[index] == NEWLINE)
    ensures forall i :: from <= i < to && index < i ==> file[i] != NEWLINE
  {
    index := to - 1;
    while index >= from
      invariant from - 1 <= index < to
      invariant forall i :: index < i < to ==> file[i] != NEWLINE
    {
      if file[index] == NEWLINE {
        return;
      }
      index := index - 1;
    }
    index := -1;
  }

  /** The indices, from `first` on, of the lines the byte reader does not take for blank. */
  function NonBlank<R>(c: Codec<R>, lines: seq<Line>, first: nat): (kept: seq<nat>)
    ensures forall i :: 0 <= i < |kept| ==> first <= kept[i] < |lines|
    decreases |lines| - first
  {
    if first >= |lines| then []
    else (if c.blankBytes(lines[first]) then [] else [first]) + NonBlank(c, lines, first + 1)
  }

  /** The slice `[-limit:]`; with limit 0 that is everything. */
  function LastN(kept: seq<nat>, limit: nat): seq<nat> {
    if limit == 0 || limit >= |kept| then kept else kept[|kept| - limit..]
  }

  function TailLine<R>(c: Codec<R>, line: Line, terminated: bool): seq<R> {
    match c.parse(line)
    case Some(r) => [r]
    case None => if terminated then c.recover(line) else []
  }

  /** What the tail reader makes of the kept lines; every piece but the last is terminated. */
  function TailRecords<R>(c: Codec<R>, lines: seq<Line>, kept: seq<nat>): seq<R>
    requires forall i :: 0 <= i < |kept| ==> kept[i] < |lines|
  {
    if kept == [] then []
    else TailLine(c, lines[kept[0]], kept[0] < |lines| - 1) + TailRecords(c, lines, kept[1..])
  }

  /** Reading that began mid-file leaves a first piece that is not wanted. */
  function TailOf<R>(c: Codec<R>, pos: nat, data: seq<Byte>, limit: nat): seq<R> {
    TailOfLines(c, Split(data), if pos > 0 then 1 else 0, limit)
  }

  function TailOfLines<R>(c: Codec<R>, lines: seq<Line>, first: nat, limit: nat): seq<R> {
    TailRecords(c, lines, LastN(NonBlank(c, lines, first), limit))
  }

  /** `records` is the tail of what a read back to some sufficient position gives. */
  ghost predicate TailRead<R>(c: Codec<R>, file: seq<Byte>, limit: nat, pos: nat, records: seq<R>) {
    pos <= |file| && (pos > 0 ==> Count(file[pos..]) > limit) && records == TailOf(c, pos, file[pos..], limit)
  }

  /**
   Whatever the chunk size: a suffix of the whole file's records and, without blank lines, those of the last lines.
   */
  method ReadJsonlTail<R>(c: Codec<R>, file: seq<Byte>, limit: nat, chunk: nat) returns (records: seq<R>)
    requires chunk >= 1
    ensures exists pos: nat :: TailRead(c, file, limit, pos, records)
    ensures Lawful(c) && RETURN !in file ==> IsTail(records, ReadJsonl(c, file))
    ensures Lawful(c) && limit >= 1 && NoBlankLine(c, Split(file), 0) ==>
              records == Decode(c, LastLines(Split(file), limit))
  {
    var start, data := ReadTail(file, limit, chunk);
    var lines := Split(data);
    var kept := LastN(NonBlank(c, lines, if start > 0 then 1 else 0), limit);
    records := Gather(c, lines, kept);
    assert TailRead(c, file, limit, start, records);
    if Lawful(c) && RETURN !in file {
      TailIsSuffix(c, file, start, limit);
    }
    if Lawful(c) && limit >= 1 && NoBlankLine(c, Split(file), 0) {
      TailIsLastLines(c, file, start, limit);
    }
  }

  method Gather<R>(c: Codec<R>, lines: seq<Line>, kept: seq<nat>) returns (records: seq<R>)
    requires forall i :: 0 <= i < |kept| ==> kept[i] < |lines|
    ensures records == TailRecords(c, lines, kept)
  {
    records := [];
    for i := 0 to |kept|
      invariant records == TailRecords(c, lines, kept[..i])
    {
      assert kept[..i + 1] == kept[..i] + [kept[i]];
      OneMoreKept(c, lines, kept[..i], kept[i]);
      match c.parse(lines[kept[i]]) {
        case Some(r) =>
          records := records + [r];
        case None =>
          if kept[i] < |lines| - 1 {
            records := records + c.recover(lines[kept[i]]);
          }
      }
    }
    assert kept[..|kept|] == kept;
  }

  lemma Regroup<T>(a: seq<T>, b: seq<T>, c: seq<T>)
    ensures a + (b + c) == a + b + c
  {
  }

  lemma {:induction false} OneMoreKept<R>(c: Codec<R>, lines: seq<Line>, kept: seq<nat>, last: nat)
    requires last < |lines| && forall k :: 0 <= k < |kept| ==> kept[k] < |lines|
    ensures TailRecords(c, lines, kept + [last]) ==
              TailRecords(c, lines, kept) + TailLine(c, lines[last], last < |lines| - 1)
  {
    var line := TailLine(c, lines[last], last < |lines| - 1);
    if kept == [] {
      assert [last][1..] == [] && [] + [last] == [last];
      assert TailRecords(c, lines, [last]) == line + [] == line;
    } else {
      var head, rest := TailLine(c, lines[kept[0]], kept[0] < |lines| - 1), TailRecords(c, lines, kept[1..]);
      OneMoreKept(c, lines, kept[1..], last);
      assert (kept + [last])[1..] == kept[1..] + [last] && (kept + [last])[0] == kept[0];
      Regroup(head, rest, line);
    }
  }

  lemma DecodeCons<R>(c: Codec<R>, pieces: seq<Line>)
    requires |pieces| > 1
    ensures Decode(c, pieces) == LineRecords(c, pieces[0], true) + Decode(c, pieces[1..])
  {
    assert pieces[..|pieces| - 1][1..] == pieces[1..][..|pieces| - 2];
  }

  lemma TailLineSame<R>(c: Codec<R>, line: Line, terminated: bool)
    requires Lawful(c)
    ensures TailLine(c, line, terminated) == LineRecords(c, line, terminated)
    ensures c.blankBytes(line) ==> LineRecords(c, line, terminated) == []
  {
    assert c.blank(line) ==> c.parse(line).None? && c.recover(line) == [];
  }

  /** The kept lines from `m` on decode to what all the lines from `m` on decode to. */
  lemma {:induction false} NonBlankDecodes<R>(c: Codec<R>, lines: seq<Line>, m: nat)
    requires Lawful(c) && m <= |lines|
    ensures TailRecords(c, lines, NonBlank(c, lines, m)) == Decode(c, lines[m..])
    decreases |lines| - m
  {
    if m < |lines| {
      NonBlankDecodes(c, lines, m + 1);
      var rest := lines[m..];
      assert rest[1..] == lines[m + 1..];
      var terminated := m < |lines| - 1;
      TailLineSame(c, lines[m], terminated);
      assert Decode(c, rest) == LineRecords(c, lines[m], terminated) + Decode(c, lines[m + 1..]) by {
        if |rest| > 1 { DecodeCons(c, rest); } else { assert rest[..0] == []; }
      }
      if c.blankBytes(lines[m]) {
        assert Decode(c, rest) == Decode(c, lines[m + 1..]);
        assert NonBlank(c, lines, m) == NonBlank(c, lines, m + 1);
      } else {
        assert NonBlank(c, lines, m)[1..] == NonBlank(c, lines, m + 1);
      }
    } else {
      assert lines[m..] == [];
    }
  }

  /** Any tail of the kept lines is the kept lines from some line on. */
  lemma {:induction false} LastNonBlank<R>(c: Codec<R>, lines: seq<Line>, first: nat, k: nat) returns (m: nat)
    requires first <= |lines| && k <= |NonBlank(c, lines, first)|
    ensures first <= m <= |lines| && NonBlank(c, lines, first)[k..] == NonBlank(c, lines, m)
    decreases |lines| - first
  {
    var all := NonBlank(c, lines, first);
    if k == 0 {
      m := first;
      assert all[0..] == all;
    } else {
      var next := NonBlank(c, lines, first + 1);
      var skipped := if c.blankBytes(lines[first]) then 0 else 1;
      assert all == (if skipped == 0 then [] else [first]) + next;
      m := LastNonBlank(c, lines, first + 1, k - skipped);
      assert all[k..] == next[k - skipped..];
    }
  }

  /** The pieces of a tail, past a first one that may be partial, are the last pieces of the file. */
  lemma TailPieces(file: seq<Byte>, pos: nat) returns (k: nat)
    requires pos <= |file| && Count(file[pos..]) > 0
    ensures k <= |Split(file)| && Split(file)[k..] == Split(file[pos..])[1..]
  {
    var data := file[pos..];
    var n := FirstNewline(data);
    var first, rest := data[..n], data[n + 1..];
    assert data == first + [NEWLINE] + rest;
    assert file == (file[..pos] + first) + [NEWLINE] + rest;
    SplitAtNewline(first, rest);
    SplitAtNewline(file[..pos] + first, rest);
    SplitNoNewline(first);
    k := |Split(file[..pos] + first)|;
  }

  lemma {:induction false} FirstNewline(data: seq<Byte>) returns (n: nat)
    requires Count(data) > 0
    ensures n < |data| && data[n] == NEWLINE && NEWLINE !in data[..n]
  {
    if data[0] == NEWLINE {
      n := 0;
    } else {
      n := FirstNewline(data[1..]);
      n := n + 1;
      assert data[..n] == [data[0]] + data[1..][..n - 1];
    }
  }

  /** Where the kept lines begin among the pieces that were read. */
  lemma TailStart<R>(c: Codec<R>, pos: nat, data: seq<Byte>, limit: nat) returns (m: nat)
    requires Lawful(c) && (pos > 0 ==> Count(data) > 0)
    ensures (if pos > 0 then 1 else 0) <= m <= |Split(data)|
    ensures TailOf(c, pos, data, limit) == Decode(c, Split(data)[m..])
  {
    var lines, first := Split(data), if pos > 0 then 1 else 0;
    var all := NonBlank(c, lines, first);
    var k := if limit == 0 || limit >= |all| then 0 else |all| - limit;
    assert LastN(all, limit) == all[k..];
    m := LastNonBlank(c, lines, first, k);
    NonBlankDecodes(c, lines, m);
  }

  /** The pieces from `m` on of what was read, as pieces of the whole file. */
  lemma PiecesOfFile(file: seq<Byte>, pos: nat, m: nat) returns (k: nat)
    requires pos <= |file| && (pos > 0 ==> Count(file[pos..]) > 0)
    requires (if pos > 0 then 1 else 0) <= m <= |Split(file[pos..])|
    ensures k <= |Split(file)| && Split(file)[k..] == Split(file[pos..])[m..]
    ensures k + |Split(file[pos..])| == |Split(file)| + m
  {
    if pos > 0 {
      var j := TailPieces(file, pos);
      SliceShift(Split(file[pos..]), 1, Split(file), j, m);
      k := j + m - 1;
      assert |Split(file)[j..]| == |Split(file[pos..])[1..]|;
    } else {
      assert file[0..] == file;
      k := m;
    }
  }

  predicate IsTail<R(==)>(tail: seq<R>, all: seq<R>) {
    |tail| <= |all| && all[|all| - |tail|..] == tail
  }

  /** From a later line on, the file decodes to a tail of what the whole of it decodes to. */
  lemma {:induction false} DecodeSuffix<R>(c: Codec<R>, pieces: seq<Line>, k: nat)
    requires k <= |pieces|
    ensures IsTail(Decode(c, pieces[k..]), Decode(c, pieces))
  {
    if k == 0 {
      assert pieces[0..] == pieces;
    } else {
      DecodeSuffix(c, pieces[1..], k - 1);
      assert pieces[1..][k - 1..] == pieces[k..];
      if |pieces| > 1 { DecodeCons(c, pieces); }
    }
  }

  /** The tail reader returns a tail of what the whole-file reader yields. */
  lemma TailIsSuffix<R>(c: Codec<R>, file: seq<Byte>, pos: nat, limit: nat)
    requires Lawful(c) && RETURN !in file
    requires pos <= |file| && (pos > 0 ==> Count(file[pos..]) > limit)
    ensures IsTail(TailOf(c, pos, file[pos..], limit), ReadJsonl(c, file))
  {
    var m := TailStart(c, pos, file[pos..], limit);
    var k := PiecesOfFile(file, pos, m);
    NoReturns(file);
    DecodeSuffix(c, Split(file), k);
  }

  // Exactly the last lines
  // --------------------------------------------------------------------------------------------

  /** The last `limit` lines, or all of them if there are fewer. */
  function LastLines(pieces: seq<Line>, limit: nat): seq<Line>
    requires pieces != []
  {
    pieces[if limit < FullLines(pieces) then FullLines(pieces) - limit else 0..]
  }

  /** How many lines the pieces make up, an unterminated last one included. */
  function FullLines(pieces: seq<Line>): nat
    requires pieces != []
  {
    |pieces| - if Last(pieces) == [] then 1 else 0
  }

  ghost predicate NoBlankLine<R>(c: Codec<R>, pieces: seq<Line>, first: nat) {
    forall i :: first <= i < |pieces| && (i < |pieces| - 1 || pieces[i] != []) ==> !c.blankBytes(pieces[i])
  }

  /** Without blank lines the kept lines from `first` on are all the lines from there on. */
  lemma {:induction false} NonBlankIsAll<R>(c: Codec<R>, lines: seq<Line>, first: nat)
    requires lines != [] && first <= |lines| && c.blankBytes([])
    requires NoBlankLine(c, lines, first)
    ensures |NonBlank(c, lines, first)| == if first <= FullLines(lines) then FullLines(lines) - first else 0
    ensures forall i :: 0 <= i < |NonBlank(c, lines, first)| ==> NonBlank(c, lines, first)[i] == first + i
    decreases |lines| - first
  {
    if first < |lines| {
      NonBlankIsAll(c, lines, first + 1);
      var rest := NonBlank(c, lines, first + 1);
      if c.blankBytes(lines[first]) {
        assert NonBlank(c, lines, first) == rest == [];
      } else {
        assert NonBlank(c, lines, first) == [first] + rest;
      }
    }
  }

  /** So a slice of them from the end is again all the lines from some line on. */
  lemma SliceIsAll<R>(c: Codec<R>, lines: seq<Line>, first: nat, limit: nat, m: nat)
    requires limit >= 1 && lines != [] && c.blankBytes([]) && NoBlankLine(c, lines, first) && first <= FullLines(lines)
    requires m == if FullLines(lines) - first > limit then FullLines(lines) - limit else first
    ensures LastN(NonBlank(c, lines, first), limit) == NonBlank(c, lines, m)
  {
    NonBlankIsAll(c, lines, first);
    NonBlankIsAll(c, lines, m);
  }

  /**
   Without blank lines, whatever the chunk size, the tail reader returns exactly the records of the last `limit` lines,
   or of all of them if there are fewer.
   */
  lemma TailIsLastLines<R>(c: Codec<R>, file: seq<Byte>, pos: nat, limit: nat)
    requires Lawful(c) && limit >= 1 && NoBlankLine(c, Split(file), 0)
    requires pos <= |file| && (pos > 0 ==> Count(file[pos..]) > limit)
    ensures TailOf(c, pos, file[pos..], limit) == Decode(c, LastLines(Split(file), limit))
  {
    var first := if pos > 0 then 1 else 0;
    var j := Alignment(c, file, pos, limit, first);
    LastLinesOf(c, Split(file), Split(file[pos..]), first, j, limit);
  }

  /** How the pieces that were read line up with the pieces of the file. */
  lemma Alignment<R>(c: Codec<R>, file: seq<Byte>, pos: nat, limit: nat, first: nat) returns (j: nat)
    requires c.blankBytes([]) && limit >= 1 && NoBlankLine(c, Split(file), 0) && first == if pos > 0 then 1 else 0
    requires pos <= |file| && (pos > 0 ==> Count(file[pos..]) > limit)
    ensures Aligned(c, Split(file), Split(file[pos..]), first, j, limit)
  {
    SplitCount(file[pos..]);
    j := PiecesOfFile(file, pos, first);
    assert pos == 0 ==> file[pos..] == file;
    SameEnd(c, Split(file), Split(file[pos..]), first, j);
  }

  ghost predicate Aligned<R>(c: Codec<R>, pieces: seq<Line>, lines: seq<Line>, first: nat, j: nat, limit: nat) {
    && lines != [] && pieces != [] && NoBlankLine(c, lines, first)
    && first <= FullLines(lines) && j <= |pieces| && pieces[j..] == lines[first..]
    && FullLines(pieces) - j == FullLines(lines) - first
    && (j == 0 || FullLines(lines) - first >= limit)
  }

  lemma LastLinesOf<R>(c: Codec<R>, pieces: seq<Line>, lines: seq<Line>, first: nat, j: nat, limit: nat)
    requires Lawful(c) && limit >= 1 && Aligned(c, pieces, lines, first, j, limit)
    ensures TailOfLines(c, lines, first, limit) == Decode(c, LastLines(pieces, limit))
  {
    var n := FullLines(lines);
    var m := if n - first > limit then n - limit else first;
    SliceIsAll(c, lines, first, limit, m);
    NonBlankDecodes(c, lines, m);
    LineUp(pieces, lines, first, j, limit, m);
  }

  /** The last lines of the file are those of what was read. */
  lemma LineUp(pieces: seq<Line>, lines: seq<Line>, first: nat, j: nat, limit: nat, m: nat)
    requires lines != [] && pieces != [] && first <= FullLines(lines) && j <= |pieces| && pieces[j..] == lines[first..]
    requires FullLines(pieces) - j == FullLines(lines) - first && (j == 0 || FullLines(lines) - first >= limit)
    requires m == if FullLines(lines) - first > limit then FullLines(lines) - limit else first
    ensures LastLines(pieces, limit) == lines[m..]
  {
    SliceShift(lines, first, pieces, j, m);
  }

  lemma SliceShift<T>(lines: seq<T>, first: nat, pieces: seq<T>, j: nat, m: nat)
    requires first <= m <= |lines| && j <= |pieces| && pieces[j..] == lines[first..]
    ensures j + m - first <= |pieces| && pieces[j + m - first..] == lines[m..]
  {
    assert lines[m..] == lines[first..][m - first..];
    assert pieces[j + m - first..] == pieces[j..][m - first..];
  }

  lemma SameEnd<R>(c: Codec<R>, pieces: seq<Line>, lines: seq<Line>, first: nat, j: nat)
    requires first < |lines| && j <= |pieces| && pieces[j..] == lines[first..] && NoBlankLine(c, pieces, 0)
    ensures pieces != [] && Last(lines) == Last(pieces) && NoBlankLine(c, lines, first)
  {
    assert |pieces[j..]| == |lines[first..]|;
    forall i | first <= i < |lines| ensures lines[i] == pieces[j + i - first] {
      assert lines[i] == lines[first..][i - first];
    }
  }

  /** A limit of 0 is not "no lines": every line that was read is returned. */
  lemma LimitZeroKeepsAll<R>(c: Codec<R>, pos: nat, data: seq<Byte>)
    requires Lawful(c) && (pos > 0 ==> Count(data) > 0)
    ensures TailOf(c, pos, data, 0) == Decode(c, Split(data)[if pos > 0 then 1 else 0..])
  {
    SplitCount(data);
    NonBlankDecodes(c, Split(data), if pos > 0 then 1 else 0);
  }

  // The file
  // --------------------------------------------------------------------------------------------

  class LogFile {
    var bytes: seq<Byte>

    /** `append_text`: the text and its newline. */
    method Append(text: Line)
      modifies this
      ensures bytes == old(bytes) + text + [NEWLINE]
    {
      bytes := bytes + text + [NEWLINE];
    }

    /** `repair_jsonl_tail`, reading back in chunks and then appending to or truncating the file. */
    method Repair<R>(c: Codec<R>, chunk: nat)
      requires chunk >= 1
      modifies this
      ensures bytes == Repaired(c, old(bytes))
    {
      CleanStart(bytes);
      if bytes == [] || bytes[|bytes| - 1] == NEWLINE {
        return;
      }
      var start := FindLastLineStart(bytes, chunk);
      if c.isObject(bytes[start..]) {
        bytes := bytes + [NEWLINE];
      } else {
        bytes := bytes[..start];
      }
    }

    /** `read_jsonl_from`: one complete line after another. */
    method ReadOn<R>(c: Codec<R>, offset: nat) returns (records: seq<R>, position: nat)
      ensures Reading(records, position) == ReadFrom(c, bytes, offset)
    {
      records, position := [], offset;
      if offset > |bytes| {
        return;
      }
      var end := NextNewline(bytes, position);
      ghost var done: seq<Byte> := [];
      while end < |bytes|
        invariant offset <= position <= end <= |bytes| && NEWLINE !in bytes[position..end]
        invariant end < |bytes| ==> bytes[end] == NEWLINE
        invariant done == bytes[offset..position] && Clean(done) && records == Complete(c, Heads(done))
      {
        var line := bytes[position..end];
        CompleteOneMore(c, done, line);
        records := records + LineRecords(c, line, true);
        done := done + (line + [NEWLINE]);
        SliceGrows(bytes, offset, position, end);
        position := end + 1;
        end := NextNewline(bytes, position);
      }
      assert bytes[position..end] == bytes[position..];
      assert bytes[offset..] == done + bytes[position..];
      ReadsCompleteLines(c, bytes, offset, done, bytes[position..]);
    }
  }

  lemma SliceGrows(file: seq<Byte>, a: nat, b: nat, e: nat)
    requires a <= b <= e < |file|
    ensures file[a..b] + (file[b..e] + [file[e]]) == file[a..e + 1]
  {
  }

  lemma CompleteOneMore<R>(c: Codec<R>, done: seq<Byte>, line: Line)
    requires Clean(done) && NEWLINE !in line
    ensures Complete(c, Heads(done + (line + [NEWLINE]))) == Complete(c, Heads(done)) + LineRecords(c, line, true)
  {
    CleanConcat(done, line + [NEWLINE]);
    OneLine(line);
    CompleteConcat(c, Heads(done), [line]);
    assert Complete(c, [line]) == LineRecords(c, line, true) + [];
  }

  /** The next newline from here on, or the file's length. */
  method NextNewline(file: seq<Byte>, from: nat) returns (end: nat)
    requires from <= |file|
    ensures from <= end <= |file| && NEWLINE !in file[from..end]
    ensures end < |file| ==> file[end] == NEWLINE
  {
    end := from;
    while end < |file| && file[end] != NEWLINE
      invariant from <= end <= |file| && forall i :: from <= i < end ==> file[i] != NEWLINE
    {
      end := end + 1;
    }
  }
}
