/**
 The AT command parser of the audio gateway: characters arrive in chunks of any size and
 collect in a buffer of fixed size; each full line leads to at most one callback.
 */
module AtParsers {
  import opened Options
  import opened Text
  import opened AtCommands

  const SUB := '\U{1A}'
  const ESC := '\U{1B}'

  predicate IsEol(c: char)
  {
    c == '\r' || c == '\n'
  }

  predicate IsAbort(c: char)
  {
    c == SUB || c == ESC
  }

  predicate StartsWithAt(line: string)
  {
    |line| > 2 && (line[0] == 'A' || line[0] == 'a') && (line[1] == 'T' || line[1] == 't')
  }

  ghost function LineEvents(table: Table, line: string): seq<Event>
  {
    if StartsWithAt(line) then [Interpret(table, line[2..])] else []
  }

  function AbortEvents(held: string, c: char): seq<Event>
  {
    [Error(true, Some(CString(held + [c])))]
  }

  /** What the parser holds, and the callbacks it has made. */
  datatype Progress = Progress(held: string, events: seq<Event>)

  /** A full buffer is emptied when one more character arrives. */
  function Room(max: nat, held: string): string
    requires max >= 2
  {
    if |held| >= max - 1 then "" else held
  }

  /** One character. */
  ghost function Feed(table: Table, max: nat, p: Progress, c: char): Progress
    requires max >= 2
  {
    var held := Room(max, p.held);
    if held == "" && c == '\0' then Progress("", p.events)
    else if IsEol(c) then Progress("", p.events + LineEvents(table, held))
    else if IsAbort(c) then Progress("", p.events + AbortEvents(held, c))
    else Progress(held + [c], p.events)
  }

  ghost function FeedAll(table: Table, max: nat, p: Progress, input: string): Progress
    requires max >= 2
  {
    if input == "" then p else
      var n := |input| - 1;
      Feed(table, max, FeedAll(table, max, p, input[..n]), input[n])
  }

  lemma {:induction false} FeedLast(table: Table, max: nat, p: Progress, input: string, i: nat)
    requires max >= 2 && i < |input|
    ensures FeedAll(table, max, p, input[..i + 1]) == Feed(table, max, FeedAll(table, max, p, input[..i]), input[i])
  {
    assert input[..i + 1][..i] == input[..i];
  }

  lemma {:induction false} FeedNeedsRoomOnly(table: Table, max: nat, p: Progress, q: Progress, c: char)
    requires max >= 2 && p.events == q.events && Room(max, p.held) == Room(max, q.held)
    ensures Feed(table, max, p, c) == Feed(table, max, q, c)
  {
  }

  // ----- bta_ag_at_parse

  class AtParser {
    const table: Table
    const maxLen: nat
    var buffer: array?<char>
    var pos: nat
    var events: seq<Event>

    ghost predicate Valid()
      reads this
    {
      maxLen >= 2 && (buffer != null ==> buffer.Length == maxLen && pos < maxLen)
    }

    ghost function Held(): string
      reads this, buffer
      requires Valid()
    {
      if buffer == null then "" else buffer[..pos]
    }

    ghost function State(): Progress
      reads this, buffer
      requires Valid()
    {
      Progress(Held(), events)
    }

    constructor (table: Table, maxLen: nat)
      requires maxLen >= 2
      ensures Valid() && State() == Progress("", [])
      ensures this.table == table && this.maxLen == maxLen
    {
      this.table, this.maxLen := table, maxLen;
      buffer, pos, events := null, 0, [];
    }

    /** The loop body for one character, with room for it in the buffer. */
    method ParseChar(c: char)
      requires Valid() && buffer != null && pos < maxLen - 1
      modifies this`pos, this`events, buffer
      ensures Valid() && State() == Feed(table, maxLen, old(State()), c)
    {
      if pos == 0 && c == '\0' {
        return;
      }
      buffer[pos] := c;
      if buffer[pos] == '\r' || buffer[pos] == '\n' {
        buffer[pos] := '\0';
        var line := buffer[..pos];
        assert line == old(Held());
        if pos > 2 && (line[0] == 'A' || line[0] == 'a') && (line[1] == 'T' || line[1] == 't') {
          var e := ProcessAt(table, line[2..]);
          events := events + [e];
        }
        pos := 0;
      } else if buffer[pos] == SUB || buffer[pos] == ESC {
        pos := pos + 1;
        buffer[pos] := '\0';
        assert buffer[..pos] == old(Held()) + [c];
        events := events + [Error(true, Some(CString(buffer[..pos])))];
        pos := 0;
      } else {
        pos := pos + 1;
        assert buffer[..pos] == old(Held()) + [c];
      }
    }

    /** The inner loop: characters go into the buffer while it has room. */
    method ParseWhileRoom(input: string, first: nat, ghost start: Progress) returns (i: nat)
      requires Valid() && buffer != null && first < |input|
      requires Caught(FeedAll(table, maxLen, start, input[..first]), true)
      modifies this`pos, this`events, buffer
      ensures Valid() && first <= i <= |input| && Caught(FeedAll(table, maxLen, start, input[..i]), i < |input|)
      ensures i < |input| ==> pos == maxLen - 1
      ensures i == first ==> pos == old(pos)
    {
      i := first;
      while pos < maxLen - 1 && i < |input|
        invariant Valid() && first <= i <= |input|
        invariant Caught(FeedAll(table, maxLen, start, input[..i]), i < |input|)
        invariant i == first ==> pos == old(pos)
        decreases |input| - i
      {
        FeedLast(table, maxLen, start, input, i);
        FeedNeedsRoomOnly(table, maxLen, State(), FeedAll(table, maxLen, start, input[..i]), input[i]);
        ParseChar(input[i]);
        i := i + 1;
      }
    }

    method Parse(input: string)
      requires Valid()
      modifies this, buffer
      ensures Valid() && State() == FeedAll(table, maxLen, old(State()), input)
      ensures buffer == old(buffer) || fresh(buffer)
    {
      ghost var start := State();
      if buffer == null {
        buffer := new char[maxLen];
        pos := 0;
      }
      assert State() == start;
      var i := 0;
      while i < |input|
        invariant Valid() && buffer != null && i <= |input|
        invariant buffer == old(buffer) || fresh(buffer)
        invariant Caught(FeedAll(table, maxLen, start, input[..i]), i < |input|)
        decreases |input| - i, pos
      {
        i := ParseWhileRoom(input, i, start);
        if i < |input| { pos := 0; }
      }
      assert input[..|input|] == input;
    }

    /** The parser is where the model is, except that it may already have emptied a full
        buffer because it knows of another character. */
    ghost predicate Caught(p: Progress, more: bool)
      reads this, buffer
      requires Valid()
    {
      events == p.events && (Held() == p.held || (more && Held() == "" && |p.held| >= maxLen - 1))
    }
  }

  // ----- Chunks do not matter

  /** However the input is cut, the callbacks and what is held are the same. */
  lemma {:induction false} ChunksDoNotMatter(table: Table, max: nat, p: Progress, a: string, b: string)
    requires max >= 2
    ensures FeedAll(table, max, p, a + b) == FeedAll(table, max, FeedAll(table, max, p, a), b)
  {
    if b == "" {
      assert a + b == a;
    } else {
      var n := |b| - 1;
      ChunksDoNotMatter(table, max, p, a, b[..n]);
      assert (a + b)[..|a| + n] == a + b[..n];
    }
  }

  function Concat(chunks: seq<string>): string
  {
    if chunks == [] then "" else Concat(chunks[..|chunks| - 1]) + chunks[|chunks| - 1]
  }

  lemma {:induction false} NextChunk(table: Table, max: nat, p: Progress, chunks: seq<string>, i: nat)
    requires max >= 2 && i < |chunks|
    ensures FeedAll(table, max, FeedAll(table, max, p, Concat(chunks[..i])), chunks[i]) ==
            FeedAll(table, max, p, Concat(chunks[..i + 1]))
  {
    assert chunks[..i + 1][..i] == chunks[..i];
    ChunksDoNotMatter(table, max, p, Concat(chunks[..i]), chunks[i]);
  }

  /** Parsing any chunks one by one is parsing their concatenation. */
  method ParseChunks(parser: AtParser, chunks: seq<string>)
    requires parser.Valid()
    modifies parser, parser.buffer
    ensures parser.Valid()
    ensures parser.State() == FeedAll(parser.table, parser.maxLen, old(parser.State()), Concat(chunks))
  {
    ghost var start := parser.State();
    for i := 0 to |chunks|
      invariant parser.Valid() && (parser.buffer == old(parser.buffer) || fresh(parser.buffer))
      invariant parser.State() == FeedAll(parser.table, parser.maxLen, start, Concat(chunks[..i]))
    {
      NextChunk(parser.table, parser.maxLen, start, chunks, i);
      parser.Parse(chunks[i]);
    }
    assert chunks[..|chunks|] == chunks;
  }

  // ----- The parser as a line splitter

  /** A stretch of input up to a line end or an abort character. */
  datatype Segment = Segment(text: string, terminator: char)

  datatype Segments = Segments(done: seq<Segment>, tail: string)

  predicate IsTerminator(c: char)
  {
    IsEol(c) || IsAbort(c)
  }

  function Cut(input: string): Segments
  {
    if input == "" then Segments([], "") else
      var n := |input| - 1;
      var s := Cut(input[..n]);
      if IsTerminator(input[n]) then Segments(s.done + [Segment(s.tail, input[n])], "")
      else s.(tail := s.tail + [input[n]])
  }

  function DropNuls(text: string): (r: string)
    ensures |r| <= |text|
  {
    if text != "" && text[0] == '\0' then DropNuls(text[1..]) else text
  }

  /** What a buffer that overflows keeps of a text without terminators: leading NULs go, and
      so does every full buffer that is followed by more. */
  function Residue(max: nat, text: string): (r: string)
    requires max >= 2
    decreases |text|
  {
    var d := DropNuls(text);
    if |d| <= max - 1 then d else Residue(max, d[max - 1..])
  }

  ghost function SegmentEvents(table: Table, max: nat, s: Segment): seq<Event>
    requires max >= 2
  {
    var held := Room(max, Residue(max, s.text));
    if IsEol(s.terminator) then LineEvents(table, held) else AbortEvents(held, s.terminator)
  }

  ghost function AllEvents(table: Table, max: nat, segments: seq<Segment>): seq<Event>
    requires max >= 2
  {
    if segments == [] then [] else
      var n := |segments| - 1;
      AllEvents(table, max, segments[..n]) + SegmentEvents(table, max, segments[n])
  }

  lemma {:induction false} DropNulsAppend(text: string, c: char)
    ensures DropNuls(text + [c]) ==
            if DropNuls(text) == "" then (if c == '\0' then "" else [c]) else DropNuls(text) + [c]
  {
    if text != "" && text[0] == '\0' {
      DropNulsAppend(text[1..], c);
      assert (text + [c])[1..] == text[1..] + [c];
    } else if text == "" {
      assert text + [c] == [c];
    }
  }

  /** One more character of text moves the residue as Feed moves the buffer. */
  lemma {:induction false} ResidueAppend(max: nat, text: string, c: char)
    requires max >= 2
    ensures Residue(max, text + [c]) ==
            var held := Room(max, Residue(max, text));
            if held == "" && c == '\0' then "" else held + [c]
    decreases |text|
  {
    DropNulsAppend(text, c);
    var d := DropNuls(text);
    if |d| >= max - 1 {
      assert (d + [c])[max - 1..] == d[max - 1..] + [c];
      if |d| > max - 1 { ResidueAppend(max, d[max - 1..], c); } else { assert d[max - 1..] + [c] == [c]; }
    }
  }

  /** For all inputs, however long their lines: the parser makes exactly the callbacks of the
      segments, in order, each from what its buffer kept. */
  lemma {:induction false} ParsesSegments(table: Table, max: nat, input: string)
    requires max >= 2
    ensures FeedAll(table, max, Progress("", []), input) ==
            Progress(Residue(max, Cut(input).tail), AllEvents(table, max, Cut(input).done))
  {
    if input != "" {
      var n := |input| - 1;
      ParsesSegments(table, max, input[..n]);
      var s := Cut(input[..n]);
      if IsTerminator(input[n]) {
        assert (s.done + [Segment(s.tail, input[n])])[..|s.done|] == s.done;
      } else {
        ResidueAppend(max, s.tail, input[n]);
      }
    }
  }

  /** What a parser without limits would do with a segment. */
  ghost function PlainEvents(table: Table, s: Segment): seq<Event>
  {
    var line := DropNuls(s.text);
    if s.terminator != '\r' && s.terminator != '\n' then [Error(true, Some(CString(line + [s.terminator])))]
    else if |line| > 2 && UpperChar(line[0]) == 'A' && UpperChar(line[1]) == 'T' then [Interpret(table, line[2..])]
    else []
  }

  ghost function AllPlainEvents(table: Table, segments: seq<Segment>): seq<Event>
  {
    if segments == [] then [] else
      var n := |segments| - 1;
      AllPlainEvents(table, segments[..n]) + PlainEvents(table, segments[n])
  }

  /** If no line is longer than the buffer allows, there is one callback for each ended line
      that starts with AT and has more, one error for each abort character, and no other. */
  lemma {:induction false} ShortLinesParsePlainly(table: Table, max: nat, segments: seq<Segment>)
    requires max >= 2
    requires forall i | 0 <= i < |segments| ::
               IsTerminator(segments[i].terminator) && |DropNuls(segments[i].text)| <= max - 2
    ensures AllEvents(table, max, segments) == AllPlainEvents(table, segments)
  {
    if segments != [] { ShortLinesParsePlainly(table, max, segments[..|segments| - 1]); }
  }

  lemma {:induction false} CutTerminators(input: string)
    ensures forall i | 0 <= i < |Cut(input).done| :: IsTerminator(Cut(input).done[i].terminator)
  {
    if input != "" { CutTerminators(input[..|input| - 1]); }
  }

  predicate Ends(c: char)
  {
    c == '\r' || c == '\n' || c == '\U{1A}' || c == '\U{1B}'
  }

  predicate NoEnd(text: string)
  {
    forall i | 0 <= i < |text| :: !Ends(text[i])
  }

  /** The input is cut at carriage returns, line feeds and the two abort characters, at each of
      them and nowhere else. */
  lemma {:induction false} CutsAtEnds(input: string)
    ensures NoEnd(Cut(input).tail)
    ensures forall i | 0 <= i < |Cut(input).done| ::
              NoEnd(Cut(input).done[i].text) && Ends(Cut(input).done[i].terminator)
  {
    if input != "" { CutsAtEnds(input[..|input| - 1]); }
  }

  lemma {:induction false} RefinesLineSplitter(table: Table, max: nat, input: string)
    requires max >= 2
    requires forall i | 0 <= i < |Cut(input).done| :: |DropNuls(Cut(input).done[i].text)| <= max - 2
    ensures FeedAll(table, max, Progress("", []), input).events == AllPlainEvents(table, Cut(input).done)
  {
    ParsesSegments(table, max, input);
    CutTerminators(input);
    ShortLinesParsePlainly(table, max, Cut(input).done);
  }

  /** Cutting loses nothing: the segments and the tail spell the input. */
  lemma {:induction false} CutSpellsInput(input: string)
    ensures Spelled(Cut(input).done) + Cut(input).tail == input
  {
    if input != "" {
      var n := |input| - 1;
      CutSpellsInput(input[..n]);
      var s := Cut(input[..n]);
      assert (s.done + [Segment(s.tail, input[n])])[..|s.done|] == s.done;
      assert input == input[..n] + [input[n]];
    }
  }

  function Spelled(segments: seq<Segment>): string
  {
    if segments == [] then "" else
      var n := |segments| - 1;
      Spelled(segments[..n]) + segments[n].text + [segments[n].terminator]
  }
}
