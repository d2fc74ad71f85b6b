/**
  Bounded reads from an MCP server's standard output (src-tauri/src/agent_mcp.rs).

  JSON text is left to a parser, any function from a line's bytes to the message they hold.
*/
module McpReader {
  import opened Prelude

  type Byte = b: int | 0 <= b < 256

  const NEWLINE: Byte := 10

  datatype Tool = Tool(name: string, schema: string)

  /** A page of a tools/list result: its tools, the size of their encoding, and the next cursor. */
  datatype Page = Page(tools: seq<Tool>, size: nat, cursor: Option<string>)

  /** A JSON-RPC message: its id (`id` as an unsigned integer, `idText` as written), whether it is an
      elicitation request, whether it carries an error, its content, and its page if it has one. */
  datatype Message = Message(
    id: Option<nat>, idText: string, elicitation: bool, failed: bool, content: string, page: Option<Page>)

  type Parser = seq<Byte> -> Option<Message>

  datatype Failure =
    | Transport
    | TimedOut
    | OutputTooLarge
    | Protocol
    | Unauthorized
    | ToolUnavailable
    | ElicitationRequired(content: string)

  /** What the server is still going to print; after that its pipe ends, or stays silent until the
      request times out. */
  datatype Output = Output(bytes: seq<Byte>, hangs: bool)

  function EndOf(o: Output): Failure {
    if o.hangs then TimedOut else Transport
  }

  // ----- One line -----

  function FirstNewline(s: seq<Byte>): (n: nat)
    ensures n <= |s| && (n < |s| ==> s[n] == NEWLINE) && NEWLINE !in s[..n]
  {
    if s == [] || s[0] == NEWLINE then 0
    else
      var m := FirstNewline(s[1..]);
      assert s[..1 + m] == [s[0]] + s[1..][..m];
      1 + m
  }

  lemma {:induction false} FirstNewlineIs(s: seq<Byte>, n: nat)
    requires n <= |s| && NEWLINE !in s[..n] && (n < |s| ==> s[n] == NEWLINE)
    ensures FirstNewline(s) == n
  {
    if n > 0 {
      assert s[0] in s[..n];
      assert s[1..][..n - 1] == s[..n][1..];
      FirstNewlineIs(s[1..], n - 1);
    }
  }

  datatype LineRead = LineRead(line: Result<seq<Byte>, Failure>, rest: seq<Byte>)

  /** A line of at most `limit` bytes, or what went wrong, and the bytes left in the pipe. */
  function ReadLine(o: Output, limit: nat): LineRead {
    var n := FirstNewline(o.bytes);
    if n > limit then LineRead(Err(OutputTooLarge), o.bytes[limit + 1..])
    else if n == |o.bytes| then LineRead(Err(EndOf(o)), [])
    else LineRead(Ok(o.bytes[..n]), o.bytes[n + 1..])
  }

  method ReadBoundedLine(o: Output, limit: nat) returns (r: LineRead)
    ensures r == ReadLine(o, limit)
  {
    var output: seq<Byte> := [];
    while true
      invariant |output| <= limit && |output| <= |o.bytes| && output == o.bytes[..|output|]
      invariant NEWLINE !in output
      decreases |o.bytes| - |output|
    {
      var i := |output|;
      if i == |o.bytes| {
        FirstNewlineIs(o.bytes, i);
        return LineRead(Err(EndOf(o)), []);
      }
      var byte := o.bytes[i];
      if byte == NEWLINE {
        FirstNewlineIs(o.bytes, i);
        return LineRead(Ok(output), o.bytes[i + 1..]);
      }
      if i == limit {
        assert o.bytes[..i + 1] == output + [byte];
        NewlineBeyond(o.bytes, i + 1);
        return LineRead(Err(OutputTooLarge), o.bytes[i + 1..]);
      }
      output := output + [byte];
    }
  }

  lemma {:induction false} NewlineBeyond(s: seq<Byte>, n: nat)
    requires n <= |s| && NEWLINE !in s[..n]
    ensures FirstNewline(s) >= n
  {
    if n > 0 {
      assert s[0] in s[..n];
      assert s[1..][..n - 1] == s[..n][1..];
      NewlineBeyond(s[1..], n - 1);
    }
  }

  lemma LineIsTaken(o: Output, limit: nat)
    requires ReadLine(o, limit).line.Ok?
    ensures var r := ReadLine(o, limit);
            && o.bytes == r.line.value + [NEWLINE] + r.rest
            && NEWLINE !in r.line.value && |r.line.value| <= limit
  {
  }

  lemma RestIsShorter(o: Output, limit: nat)
    ensures var r := ReadLine(o, limit);
            && |r.rest| <= |o.bytes| && (r.line.Ok? ==> |r.rest| < |o.bytes| && |r.line.value| <= limit)
            && (r.line.Err? ==> !r.line.error.ElicitationRequired?)
  {
  }

  lemma LineIsRead(o: Output, limit: nat, line: seq<Byte>, after: seq<Byte>)
    requires o.bytes == line + [NEWLINE] + after && NEWLINE !in line && |line| <= limit
    ensures ReadLine(o, limit) == LineRead(Ok(line), after)
  {
    assert o.bytes[..|line|] == line && o.bytes[|line|] == NEWLINE && o.bytes[|line| + 1..] == after;
    FirstNewlineIs(o.bytes, |line|);
  }

  // ----- One event -----

  datatype Event = Response(m: Message) | Elicitation(m: Message)

  /** What one line means to the request waiting for `id`. */
  datatype Meaning = Garbage | Asks(m: Message) | Answers(m: Message) | Fails | Other

  function MeaningOf(parse: Parser, line: seq<Byte>, id: nat): Meaning {
    match parse(line)
    case None => Garbage
    case Some(m) =>
      if m.elicitation then Asks(m)
      else if m.id != Some(id) then Other
      else if m.failed then Fails
      else Answers(m)
  }

  datatype EventRead = EventRead(event: Result<Event, Failure>, consumed: nat, rest: seq<Byte>)

  const MAX_LINES: nat := 64

  /** Lines are read until one asks or answers, at most `lines` of them, all within what `limit`
      leaves after `consumed`. */
  function ReadEvent(parse: Parser, o: Output, limit: nat, id: nat, consumed: nat, lines: nat): EventRead
    decreases lines
  {
    if lines == 0 then EventRead(Err(Protocol), consumed, o.bytes)
    else
      var r := ReadLine(o, SaturatingSub(limit, consumed));
      if r.line.Err? then EventRead(Err(r.line.error), consumed, r.rest)
      else
        var total := consumed + |r.line.value|;
        match MeaningOf(parse, r.line.value, id)
        case Garbage => EventRead(Err(Protocol), total, r.rest)
        case Asks(m) => EventRead(Ok(Elicitation(m)), total, r.rest)
        case Answers(m) => EventRead(Ok(Response(m)), total, r.rest)
        case Fails => EventRead(Err(Protocol), total, r.rest)
        case Other => ReadEvent(parse, o.(bytes := r.rest), limit, id, total, lines - 1)
  }

  method ReadStdioResponseEvent(parse: Parser, o: Output, limit: nat, id: nat, consumed: nat) returns (r: EventRead)
    ensures r == ReadEvent(parse, o, limit, id, consumed, MAX_LINES)
  {
    hide ReadLine, FirstNewline;
    var rest := o;
    var total: nat := consumed;
    for i := 0 to MAX_LINES
      invariant ReadEvent(parse, o, limit, id, consumed, MAX_LINES)
                == ReadEvent(parse, rest, limit, id, total, MAX_LINES - i)
    {
      var raw := ReadBoundedLine(rest, SaturatingSub(limit, total));
      rest := rest.(bytes := raw.rest);
      if raw.line.Err? {
        return EventRead(Err(raw.line.error), total, raw.rest);
      }
      total := total + |raw.line.value|;
      match parse(raw.line.value) {
        case None => return EventRead(Err(Protocol), total, raw.rest);
        case Some(m) =>
          if m.elicitation {
            return EventRead(Ok(Elicitation(m)), total, raw.rest);
          }
          if m.id == Some(id) {
            return EventRead(if m.failed then Err(Protocol) else Ok(Response(m)), total, raw.rest);
          }
      }
    }
    r := EventRead(Err(Protocol), total, rest.bytes);
  }

  // ----- What a read event is -----

  /** The lines as they stand in the pipe. */
  function Printed(lines: seq<seq<Byte>>): seq<Byte> {
    if lines == [] then [] else lines[0] + [NEWLINE] + Printed(lines[1..])
  }

  function TotalLength(lines: seq<seq<Byte>>): nat {
    if lines == [] then 0 else |lines[0]| + TotalLength(lines[1..])
  }

  /** The last line asks or answers; every earlier one is some other message. */
  ghost predicate FirstRelevant(parse: Parser, lines: seq<seq<Byte>>, id: nat, event: Event) {
    && lines != []
    && (forall line :: line in lines ==> NEWLINE !in line)
    && (forall i :: 0 <= i < |lines| - 1 ==> IsOther(parse(lines[i]), id))
    && parse(lines[|lines| - 1]) == Some(event.m)
    && match event
       case Elicitation(m) => m.elicitation
       case Response(m) => !m.elicitation && m.id == Some(id) && !m.failed
  }

  /** A message that neither asks anything nor has to do with the request. */
  predicate IsOther(message: Option<Message>, id: nat) {
    message.Some? && !message.value.elicitation && message.value.id != Some(id)
  }

  lemma Meanings(parse: Parser, line: seq<Byte>, id: nat)
    ensures MeaningOf(parse, line, id) == Other <==> IsOther(parse(line), id)
    ensures forall m :: MeaningOf(parse, line, id) == Asks(m) <==> parse(line) == Some(m) && m.elicitation
    ensures forall m :: MeaningOf(parse, line, id) == Answers(m)
              <==> parse(line) == Some(m) && !m.elicitation && m.id == Some(id) && !m.failed
  {
  }

  lemma {:induction false} EventIsFirstRelevant(
    parse: Parser, o: Output, limit: nat, id: nat, consumed: nat, budget: nat) returns (lines: seq<seq<Byte>>)
    requires consumed <= limit && ReadEvent(parse, o, limit, id, consumed, budget).event.Ok?
    ensures var r := ReadEvent(parse, o, limit, id, consumed, budget);
            && FirstRelevant(parse, lines, id, r.event.value) && |lines| <= budget
            && o.bytes == Printed(lines) + r.rest
            && r.consumed == consumed + TotalLength(lines) <= limit
    decreases budget
  {
    hide ReadLine, FirstNewline;
    var room := SaturatingSub(limit, consumed);
    var r := ReadLine(o, room);
    LineIsTaken(o, room);
    var line := r.line.value;
    Meanings(parse, line, id);
    hide MeaningOf, IsOther;
    if MeaningOf(parse, line, id) == Other {
      var more := EventIsFirstRelevant(parse, o.(bytes := r.rest), limit, id, consumed + |line|, budget - 1);
      lines := [line] + more;
      PrintedJoins(line, more, ReadEvent(parse, o, limit, id, consumed, budget).rest);
      RelevantJoins(parse, line, more, id, ReadEvent(parse, o, limit, id, consumed, budget).event.value);
    } else {
      lines := [line];
      PrintedJoins(line, [], r.rest);
      assert lines == [line] + [];
    }
  }

  lemma PrintedJoins(line: seq<Byte>, more: seq<seq<Byte>>, rest: seq<Byte>)
    ensures Printed([line] + more) + rest == line + [NEWLINE] + (Printed(more) + rest)
    ensures TotalLength([line] + more) == |line| + TotalLength(more)
  {
    assert ([line] + more)[1..] == more;
  }

  lemma RelevantJoins(parse: Parser, line: seq<Byte>, more: seq<seq<Byte>>, id: nat, event: Event)
    requires NEWLINE !in line && IsOther(parse(line), id) && FirstRelevant(parse, more, id, event)
    ensures FirstRelevant(parse, [line] + more, id, event)
  {
    hide IsOther;
  }

  lemma RelevantSplits(parse: Parser, lines: seq<seq<Byte>>, id: nat, event: Event)
    requires FirstRelevant(parse, lines, id, event) && |lines| > 1
    ensures NEWLINE !in lines[0] && IsOther(parse(lines[0]), id)
    ensures FirstRelevant(parse, lines[1..], id, event)
  {
    hide IsOther;
    var more := lines[1..];
    assert forall l :: l in more ==> l in lines;
    assert forall i :: 0 <= i < |more| ==> more[i] == lines[i + 1];
  }

  lemma {:induction false} FirstRelevantIsRead(
    parse: Parser, o: Output, limit: nat, id: nat, consumed: nat, budget: nat,
    lines: seq<seq<Byte>>, event: Event, rest: seq<Byte>)
    requires FirstRelevant(parse, lines, id, event) && |lines| <= budget
    requires o.bytes == Printed(lines) + rest && consumed + TotalLength(lines) <= limit
    ensures ReadEvent(parse, o, limit, id, consumed, budget)
            == EventRead(Ok(event), consumed + TotalLength(lines), rest)
    decreases |lines|
  {
    hide ReadLine, FirstNewline, Printed, TotalLength, MeaningOf, IsOther;
    var line, more := lines[0], lines[1..];
    Meanings(parse, line, id);
    assert lines == [line] + more && line in lines;
    PrintedJoins(line, more, rest);
    NothingPrinted();
    LineIsRead(o, SaturatingSub(limit, consumed), line, Printed(more) + rest);
    if |lines| > 1 {
      RelevantSplits(parse, lines, id, event);
      FirstRelevantIsRead(
        parse, o.(bytes := Printed(more) + rest), limit, id, consumed + |line|, budget - 1, more, event, rest);
    } else {
      assert more == [] && Printed(more) + rest == rest;
    }
  }

  lemma NothingPrinted()
    ensures Printed([]) == [] && TotalLength([]) == 0
  {
  }

  /** The reader returns an event exactly when, within the byte limit and the first 64 lines, some line
      asks or answers and every line before it is another message; it returns the first such line
      and leaves the pipe right behind it. */
  lemma ReaderRefinesFirstRelevant(
    parse: Parser, o: Output, limit: nat, id: nat, consumed: nat, event: Event, total: nat, rest: seq<Byte>)
    requires consumed <= limit
    ensures ReadEvent(parse, o, limit, id, consumed, MAX_LINES) == EventRead(Ok(event), total, rest)
            <==> exists lines ::
                   && FirstRelevant(parse, lines, id, event) && |lines| <= 64
                   && o.bytes == Printed(lines) + rest && total == consumed + TotalLength(lines) <= limit
  {
    if ReadEvent(parse, o, limit, id, consumed, MAX_LINES) == EventRead(Ok(event), total, rest) {
      var lines := EventIsFirstRelevant(parse, o, limit, id, consumed, MAX_LINES);
    }
    forall lines |
      && FirstRelevant(parse, lines, id, event) && |lines| <= 64
      && o.bytes == Printed(lines) + rest && total == consumed + TotalLength(lines) <= limit
      ensures ReadEvent(parse, o, limit, id, consumed, MAX_LINES) == EventRead(Ok(event), total, rest)
    {
      FirstRelevantIsRead(parse, o, limit, id, consumed, MAX_LINES, lines, event, rest);
    }
  }

  /** Nothing is ever put back into the pipe, and an event takes at least its newline. */
  lemma {:induction false} EventTakesBytes(
    parse: Parser, o: Output, limit: nat, id: nat, consumed: nat, budget: nat)
    ensures var r := ReadEvent(parse, o, limit, id, consumed, budget);
            && |r.rest| <= |o.bytes| && consumed <= r.consumed && (r.consumed <= limit || r.consumed == consumed)
            && (r.event.Ok? ==> |r.rest| < |o.bytes|)
    decreases budget
  {
    hide ReadLine, FirstNewline;
    if budget > 0 {
      var r := ReadLine(o, SaturatingSub(limit, consumed));
      RestIsShorter(o, SaturatingSub(limit, consumed));
      if r.line.Ok? && MeaningOf(parse, r.line.value, id) == Other {
        EventTakesBytes(parse, o.(bytes := r.rest), limit, id, consumed + |r.line.value|, budget - 1);
      }
    }
  }

  // ----- How a read fails -----

  /** Other messages are read past, at the cost of their bytes and lines. */
  lemma {:induction false} OthersAreReadPast(
    parse: Parser, o: Output, limit: nat, id: nat, consumed: nat, budget: nat, lines: seq<seq<Byte>>, rest: seq<Byte>)
    requires o.bytes == Printed(lines) + rest && |lines| <= budget && consumed + TotalLength(lines) <= limit
    requires forall line :: line in lines ==> NEWLINE !in line && IsOther(parse(line), id)
    ensures ReadEvent(parse, o, limit, id, consumed, budget)
            == ReadEvent(parse, o.(bytes := rest), limit, id, consumed + TotalLength(lines), budget - |lines|)
    decreases |lines|
  {
    hide ReadLine, FirstNewline, Printed, TotalLength, MeaningOf, IsOther;
    NothingPrinted();
    if lines == [] {
      assert Printed([]) + rest == rest;
    } else {
      var line, more := lines[0], lines[1..];
      assert lines == [line] + more && line in lines;
      assert forall l :: l in more ==> l in lines;
      PrintedJoins(line, more, rest);
      LineIsRead(o, SaturatingSub(limit, consumed), line, Printed(more) + rest);
      Meanings(parse, line, id);
      OthersAreReadPast(parse, o.(bytes := Printed(more) + rest), limit, id, consumed + |line|, budget - 1, more, rest);
    }
  }

  /** What stands next in the pipe when it is no event. */
  datatype Obstacle = TooLong | Ends | NoMessage(line: seq<Byte>) | Refuses(line: seq<Byte>)

  ghost predicate Stands(parse: Parser, id: nat, rest: seq<Byte>, room: nat, obstacle: Obstacle) {
    match obstacle
    case TooLong => |rest| > room && NEWLINE !in rest[..room + 1]
    case Ends => |rest| <= room && NEWLINE !in rest
    case NoMessage(line) =>
      && |line| <= room && NEWLINE !in line && parse(line).None?
      && exists after :: rest == line + [NEWLINE] + after
    case Refuses(line) =>
      && |line| <= room && NEWLINE !in line
      && parse(line).Some? && !parse(line).value.elicitation && parse(line).value.id == Some(id) && parse(line).value.failed
      && exists after :: rest == line + [NEWLINE] + after
  }

  lemma ObstacleFails(
    parse: Parser, o: Output, limit: nat, id: nat, consumed: nat, budget: nat, obstacle: Obstacle)
    requires consumed <= limit && budget > 0 && Stands(parse, id, o.bytes, limit - consumed, obstacle)
    ensures ReadEvent(parse, o, limit, id, consumed, budget).event
            == match obstacle
               case TooLong => Err(OutputTooLarge)
               case Ends => Err(if o.hangs then TimedOut else Transport)
               case NoMessage(_) => Err(Protocol)
               case Refuses(_) => Err(Protocol)
  {
    var rest, room := o.bytes, limit - consumed;
    match obstacle {
      case TooLong => NewlineBeyond(rest, room + 1);
      case Ends => FirstNewlineIs(rest, |rest|);
      case NoMessage(line) =>
        var after :| rest == line + [NEWLINE] + after;
        LineIsRead(o, room, line, after);
      case Refuses(line) =>
        var after :| rest == line + [NEWLINE] + after;
        LineIsRead(o, room, line, after);
    }
  }

  /** Reading fails for the first obstacle behind other messages, and after 64 lines in any case. */
  lemma ReaderFails(
    parse: Parser, o: Output, limit: nat, id: nat, consumed: nat, lines: seq<seq<Byte>>, rest: seq<Byte>,
    obstacle: Obstacle)
    requires o.bytes == Printed(lines) + rest && |lines| <= 64 && consumed + TotalLength(lines) <= limit
    requires forall line :: line in lines ==> NEWLINE !in line && IsOther(parse(line), id)
    requires |lines| == 64 || Stands(parse, id, rest, limit - consumed - TotalLength(lines), obstacle)
    ensures ReadEvent(parse, o, limit, id, consumed, MAX_LINES).event
            == if |lines| == 64 then Err(Protocol)
               else match obstacle
                    case TooLong => Err(OutputTooLarge)
                    case Ends => Err(if o.hangs then TimedOut else Transport)
                    case NoMessage(_) => Err(Protocol)
                    case Refuses(_) => Err(Protocol)
  {
    hide ReadEvent, Stands, Printed, TotalLength, IsOther;
    OthersAreReadPast(parse, o, limit, id, consumed, MAX_LINES, lines, rest);
    if |lines| == 64 {
      NoMoreLines(parse, o.(bytes := rest), limit, id, consumed + TotalLength(lines));
    } else {
      ObstacleFails(parse, o.(bytes := rest), limit, id, consumed + TotalLength(lines), MAX_LINES - |lines|, obstacle);
    }
  }

  lemma NoMoreLines(parse: Parser, o: Output, limit: nat, id: nat, consumed: nat)
    ensures ReadEvent(parse, o, limit, id, consumed, 0).event == Err(Protocol)
  {
  }
}
