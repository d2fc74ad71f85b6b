/**
  One request over a persistent MCP transport (src-tauri/src/agent_mcp.rs): a child process or a
  streaming HTTP endpoint. An elicitation without an answer parks the request in the transport; a
  later request that brings the answer resumes it.
*/
module McpTransport {
  import opened Prelude
  import opened McpReader

  /** The JSON-RPC method. */
  datatype Verb = ToolsList | ToolsCall

  datatype Params = Empty | Cursor(cursor: string) | ToolParams(tool: string, arguments: string)

  /** Frames the client tried to send. */
  datatype Frame = Request(id: nat, verb: Verb, params: Params) | Answer(idText: string, answer: string)

  datatype Reply<+T> = Reply(result: Result<Message, Failure>, after: T)

  // ----- A child process -----

  datatype PendingStdio = PendingStdio(requestId: nat, elicitation: Message, consumed: nat)

  /** `writes` is how many more frames the process takes; a later write fails as its output ends. */
  datatype Stdio = Stdio(output: Output, writes: nat, pending: Option<PendingStdio>, sent: seq<Frame>)

  function Wrote(t: Stdio, frame: Frame): Stdio {
    t.(sent := t.sent + [frame], writes := SaturatingSub(t.writes, 1))
  }

  function ReadRequest(
    parse: Parser, t: Stdio, limit: nat, requestId: nat, consumed: nat, answer: Option<string>): Reply<Stdio>
    decreases if answer.Some? then 1 else 0
  {
    var e := ReadEvent(parse, t.output, limit, requestId, consumed, MAX_LINES);
    var u := t.(output := t.output.(bytes := e.rest));
    match e.event
    case Err(f) => Reply(Err(f), u)
    case Ok(Response(m)) => Reply(Ok(m), u)
    case Ok(Elicitation(m)) =>
      match answer
      case None =>
        Reply(Err(ElicitationRequired(m.content)), u.(pending := Some(PendingStdio(requestId, m, e.consumed))))
      case Some(a) =>
        var v := Wrote(u, Answer(m.idText, a));
        if u.writes == 0 then Reply(Err(EndOf(u.output)), v)
        else ReadRequest(parse, v, limit, requestId, e.consumed, None)
  }

  function StdioRequest(
    parse: Parser, t: Stdio, alive: bool, id: nat, verb: Verb, params: Params, limit: nat, answer: Option<string>)
    : Reply<Stdio>
  {
    if !alive then Reply(Err(Transport), t)
    else match t.pending
         case Some(p) =>
           if answer.None? then Reply(Err(ElicitationRequired(p.elicitation.content)), t)
           else
             var v := Wrote(t.(pending := None), Answer(p.elicitation.idText, answer.value));
             if t.writes == 0 then Reply(Err(EndOf(t.output)), v)
             else ReadRequest(parse, v, limit, p.requestId, p.consumed, None)
         case None =>
           var v := Wrote(t, Request(id, verb, params));
           if t.writes == 0 then Reply(Err(EndOf(t.output)), v)
           else ReadRequest(parse, v, limit, id, 0, answer)
  }

  class StdioMcpSession {
    var output: Output
    var writes: nat
    var pending: Option<PendingStdio>
    var sent: seq<Frame>

    function View(): Stdio
      reads this
    {
      Stdio(output, writes, pending, sent)
    }

    constructor (output: Output, writes: nat)
      ensures View() == Stdio(output, writes, None, [])
    {
      this.output, this.writes := output, writes;
      pending, sent := None, [];
    }

    method Write(frame: Frame) returns (failure: Option<Failure>)
      modifies this`sent, this`writes
      ensures View() == Wrote(old(View()), frame)
      ensures failure == if old(writes) == 0 then Some(EndOf(output)) else None
    {
      sent := sent + [frame];
      if writes == 0 {
        return Some(EndOf(output));
      }
      writes := writes - 1;
      failure := None;
    }

    method ReadReply(parse: Parser, limit: nat, requestId: nat, start: nat, given: Option<string>)
      returns (result: Result<Message, Failure>)
      modifies this
      ensures ReadRequest(parse, old(View()), limit, requestId, start, given) == Reply(result, View())
    {
      var consumed, answer := start, given;
      while true
        invariant ReadRequest(parse, old(View()), limit, requestId, start, given)
                  == ReadRequest(parse, View(), limit, requestId, consumed, answer)
        decreases if answer.Some? then 1 else 0
      {
        var read := ReadStdioResponseEvent(parse, output, limit, requestId, consumed);
        output := output.(bytes := read.rest);
        consumed := read.consumed;
        match read.event {
          case Err(f) => return Err(f);
          case Ok(Response(m)) => return Ok(m);
          case Ok(Elicitation(m)) =>
            if answer.None? {
              pending := Some(PendingStdio(requestId, m, consumed));
              return Err(ElicitationRequired(m.content));
            }
            var failure := Write(Answer(m.idText, answer.value));
            if failure.Some? {
              return Err(failure.value);
            }
            answer := None;
        }
      }
    }

    method Request(parse: Parser, alive: bool, id: nat, verb: Verb, params: Params, limit: nat, answer: Option<string>)
      returns (result: Result<Message, Failure>)
      modifies this
      ensures StdioRequest(parse, old(View()), alive, id, verb, params, limit, answer) == Reply(result, View())
    {
      if !alive {
        return Err(Transport);
      }
      match pending {
        case Some(parked) =>
          if answer.None? {
            return Err(ElicitationRequired(parked.elicitation.content));
          }
          pending := None;
          var failure := Write(Answer(parked.elicitation.idText, answer.value));
          if failure.Some? {
            return Err(failure.value);
          }
          result := ReadReply(parse, limit, parked.requestId, parked.consumed, None);
        case None =>
          var failure := Write(Frame.Request(id, verb, params));
          if failure.Some? {
            return Err(failure.value);
          }
          result := ReadReply(parse, limit, id, 0, answer);
      }
    }
  }

  // ----- A streaming HTTP endpoint -----

  /** One piece of a response body and the messages that become readable with it. */
  datatype Chunk = Chunk(size: nat, messages: seq<Message>)

  datatype Refusal = Unreachable | NotAuthorized | Stalls

  function FailureOf(r: Refusal): Failure {
    match r
    case Unreachable => Transport
    case NotAuthorized => Unauthorized
    case Stalls => TimedOut
  }

  /** What the endpoint makes of one POST; a stream may be cut. */
  datatype Post = Refused(refusal: Refusal) | Streams(chunks: seq<Chunk>, cut: Option<Refusal>)

  datatype PendingHttp = PendingHttp(
    requestId: nat, elicitation: Message, chunks: seq<Chunk>, cut: Option<Refusal>, seen: seq<Message>, size: nat)

  datatype Http = Http(posts: seq<Post>, pending: Option<PendingHttp>, sent: seq<Frame>)

  function NextPost(h: Http): Post {
    if h.posts == [] then Refused(Unreachable) else h.posts[0]
  }

  function Posted(h: Http, frame: Frame): Http {
    h.(posts := if h.posts == [] then [] else h.posts[1..], sent := h.sent + [frame])
  }

  /** The first elicitation in the body that is not the one answered last. */
  function FindUnanswered(seen: seq<Message>, answered: Option<string>): Option<Message> {
    if seen == [] then None
    else if seen[0].elicitation && Some(seen[0].idText) != answered then Some(seen[0])
    else FindUnanswered(seen[1..], answered)
  }

  function FindResponse(seen: seq<Message>, id: nat): (r: Result<Message, Failure>)
    ensures r.Ok? ==> r.value.id == Some(id) && !r.value.failed
    ensures r.Err? ==> r.error == Protocol
  {
    if seen == [] then Err(Protocol)
    else if seen[0].id == Some(id) then if seen[0].failed then Err(Protocol) else Ok(seen[0])
    else FindResponse(seen[1..], id)
  }

  function Consume(
    h: Http, limit: nat, requestId: nat, chunks: seq<Chunk>, cut: Option<Refusal>, seen: seq<Message>, size: nat,
    answer: Option<string>, answered: Option<string>): Reply<Http>
    decreases |chunks|
  {
    if chunks == [] then Reply(if cut.Some? then Err(FailureOf(cut.value)) else FindResponse(seen, requestId), h)
    else if size + chunks[0].size > limit then Reply(Err(OutputTooLarge), h)
    else
      var got, total := seen + chunks[0].messages, size + chunks[0].size;
      match FindUnanswered(got, answered)
      case None => Consume(h, limit, requestId, chunks[1..], cut, got, total, answer, answered)
      case Some(e) =>
        match answer
        case None =>
          Reply(Err(ElicitationRequired(e.content)),
                h.(pending := Some(PendingHttp(requestId, e, chunks[1..], cut, got, total))))
        case Some(a) =>
          var v := Posted(h, Answer(e.idText, a));
          if NextPost(h).Refused? then Reply(Err(FailureOf(NextPost(h).refusal)), v)
          else Consume(v, limit, requestId, chunks[1..], cut, got, total, None, Some(e.idText))
  }

  function HttpRequest(h: Http, id: nat, verb: Verb, params: Params, limit: nat, answer: Option<string>)
    : Reply<Http>
  {
    match h.pending
    case Some(p) =>
      if answer.None? then Reply(Err(ElicitationRequired(p.elicitation.content)), h)
      else
        var v := Posted(h.(pending := None), Answer(p.elicitation.idText, answer.value));
        if NextPost(h).Refused? then Reply(Err(FailureOf(NextPost(h).refusal)), v)
        else Consume(v, limit, p.requestId, p.chunks, p.cut, p.seen, p.size, None, Some(p.elicitation.idText))
    case None =>
      var v := Posted(h, Request(id, verb, params));
      match NextPost(h)
      case Refused(f) => Reply(Err(FailureOf(f)), v)
      case Streams(chunks, cut) => Consume(v, limit, id, chunks, cut, [], 0, answer, None)
  }

  class HttpMcpSession {
    var posts: seq<Post>
    var pending: Option<PendingHttp>
    var sent: seq<Frame>

    function View(): Http
      reads this
    {
      Http(posts, pending, sent)
    }

    constructor (posts: seq<Post>)
      ensures View() == Http(posts, None, [])
    {
      this.posts, pending, sent := posts, None, [];
    }

    method Send(frame: Frame) returns (outcome: Post)
      modifies this`posts, this`sent
      ensures View() == Posted(old(View()), frame) && outcome == NextPost(old(View()))
    {
      sent := sent + [frame];
      outcome := NextPost(View());
      if posts != [] {
        posts := posts[1..];
      }
    }

    /** consume_http_response */
    method ConsumeResponse(
      limit: nat, requestId: nat, stream: seq<Chunk>, cut: Option<Refusal>, start: seq<Message>, startSize: nat,
      given: Option<string>, answeredBefore: Option<string>) returns (result: Result<Message, Failure>)
      modifies this
      ensures Consume(old(View()), limit, requestId, stream, cut, start, startSize, given, answeredBefore)
              == Reply(result, View())
    {
      var chunks, seen := stream, start;
      var size: nat := startSize;
      var answer, answered := given, answeredBefore;
      while chunks != []
        invariant Consume(old(View()), limit, requestId, stream, cut, start, startSize, given, answeredBefore)
                  == Consume(View(), limit, requestId, chunks, cut, seen, size, answer, answered)
        decreases |chunks|
      {
        if size + chunks[0].size > limit {
          return Err(OutputTooLarge);
        }
        seen, size := seen + chunks[0].messages, size + chunks[0].size;
        match FindUnanswered(seen, answered) {
          case None =>
          case Some(e) =>
            if answer.None? {
              pending := Some(PendingHttp(requestId, e, chunks[1..], cut, seen, size));
              return Err(ElicitationRequired(e.content));
            }
            var outcome := Send(Answer(e.idText, answer.value));
            if outcome.Refused? {
              return Err(FailureOf(outcome.refusal));
            }
            answer, answered := None, Some(e.idText);
        }
        chunks := chunks[1..];
      }
      result := if cut.Some? then Err(FailureOf(cut.value)) else FindResponse(seen, requestId);
    }

    method Request(id: nat, verb: Verb, params: Params, limit: nat, answer: Option<string>)
      returns (result: Result<Message, Failure>)
      modifies this
      ensures HttpRequest(old(View()), id, verb, params, limit, answer) == Reply(result, View())
    {
      match pending {
        case Some(parked) =>
          if answer.None? {
            return Err(ElicitationRequired(parked.elicitation.content));
          }
          pending := None;
          var outcome := Send(Answer(parked.elicitation.idText, answer.value));
          if outcome.Refused? {
            return Err(FailureOf(outcome.refusal));
          }
          result := ConsumeResponse(limit, parked.requestId, parked.chunks, parked.cut, parked.seen, parked.size, None,
                                    Some(parked.elicitation.idText));
        case None =>
          var outcome := Send(Frame.Request(id, verb, params));
          match outcome {
            case Refused(f) => return Err(FailureOf(f));
            case Streams(chunks, cut) =>
              result := ConsumeResponse(limit, id, chunks, cut, [], 0, answer, None);
          }
      }
    }
  }

  // ----- Either transport -----

  datatype Link = StdioLink(stdio: Stdio) | HttpLink(http: Http)

  function Sent(l: Link): seq<Frame> {
    if l.StdioLink? then l.stdio.sent else l.http.sent
  }

  /** The parked request's id and the elicitation it waits for. */
  function Parked(l: Link): Option<(nat, Message)> {
    match l
    case StdioLink(t) => if t.pending.Some? then Some((t.pending.value.requestId, t.pending.value.elicitation)) else None
    case HttpLink(h) => if h.pending.Some? then Some((h.pending.value.requestId, h.pending.value.elicitation)) else None
  }

  function LinkRequest(
    parse: Parser, l: Link, alive: bool, id: nat, verb: Verb, params: Params, limit: nat, answer: Option<string>)
    : Reply<Link>
  {
    match l
    case StdioLink(t) =>
      var r := StdioRequest(parse, t, alive, id, verb, params, limit, answer);
      Reply(r.result, StdioLink(r.after))
    case HttpLink(h) =>
      var r := HttpRequest(h, id, verb, params, limit, answer);
      Reply(r.result, HttpLink(r.after))
  }

  predicate OnlyAnswers(frames: seq<Frame>) {
    forall f :: f in frames ==> f.Answer?
  }

  /** How waiting for one reply may end: an answer to this very request, or parked under its id, or an
      error with nothing parked; at most one elicitation is answered on the way, none without an answer
      at hand. */
  predicate Waits(before: seq<Frame>, after: Link, result: Result<Message, Failure>, id: nat, answers: nat) {
    && before <= Sent(after)
    && OnlyAnswers(Sent(after)[|before|..]) && |Sent(after)| <= |before| + answers
    && (result.Ok? ==> result.value.id == Some(id) && !result.value.failed)
    && match Parked(after)
       case Some((parked, _)) => parked == id && result.Err? && result.error.ElicitationRequired?
       case None => result.Err? ==> !result.error.ElicitationRequired?
  }

  lemma {:induction false} ReadRequestWaits(
    parse: Parser, t: Stdio, limit: nat, requestId: nat, consumed: nat, answer: Option<string>)
    requires t.pending.None?
    ensures var r := ReadRequest(parse, t, limit, requestId, consumed, answer);
            Waits(t.sent, StdioLink(r.after), r.result, requestId, if answer.Some? then 1 else 0)
    decreases if answer.Some? then 1 else 0
  {
    hide ReadEvent;
    var e := ReadEvent(parse, t.output, limit, requestId, consumed, MAX_LINES);
    EventAnswers(parse, t.output, limit, requestId, consumed, MAX_LINES);
    if answer.Some? && e.event.Ok? && e.event.value.Elicitation? {
      var u := t.(output := t.output.(bytes := e.rest));
      var frame := Answer(e.event.value.m.idText, answer.value);
      ReadRequestWaits(parse, Wrote(u, frame), limit, requestId, e.consumed, None);
    }
  }

  lemma {:induction false} EventAnswers(
    parse: Parser, o: Output, limit: nat, id: nat, consumed: nat, lines: nat)
    ensures match ReadEvent(parse, o, limit, id, consumed, lines).event
            case Ok(Response(m)) => m.id == Some(id) && !m.failed
            case Ok(Elicitation(m)) => m.elicitation
            case Err(f) => !f.ElicitationRequired?
    decreases lines
  {
    hide ReadLine, FirstNewline;
    if lines > 0 {
      var r := ReadLine(o, SaturatingSub(limit, consumed));
      RestIsShorter(o, SaturatingSub(limit, consumed));
      if r.line.Ok? && MeaningOf(parse, r.line.value, id) == Other {
        EventAnswers(parse, o.(bytes := r.rest), limit, id, consumed + |r.line.value|, lines - 1);
      }
    }
  }

  lemma {:induction false} ConsumeWaits(
    h: Http, limit: nat, requestId: nat, chunks: seq<Chunk>, cut: Option<Refusal>, seen: seq<Message>, size: nat,
    answer: Option<string>, answered: Option<string>)
    requires h.pending.None?
    ensures var r := Consume(h, limit, requestId, chunks, cut, seen, size, answer, answered);
            Waits(h.sent, HttpLink(r.after), r.result, requestId, if answer.Some? then 1 else 0)
    decreases |chunks|
  {
    if chunks != [] && size + chunks[0].size <= limit {
      hide FindUnanswered, Posted, NextPost;
      var got, total := seen + chunks[0].messages, size + chunks[0].size;
      match FindUnanswered(got, answered) {
        case None => ConsumeWaits(h, limit, requestId, chunks[1..], cut, got, total, answer, answered);
        case Some(e) =>
          if answer.Some? {
            PostedSends(h, Answer(e.idText, answer.value));
            ConsumeWaits(Posted(h, Answer(e.idText, answer.value)), limit, requestId, chunks[1..], cut, got, total, None,
                         Some(e.idText));
          }
      }
    }
  }

  lemma PostedSends(h: Http, frame: Frame)
    ensures Posted(h, frame).sent == h.sent + [frame] && Posted(h, frame).pending == h.pending
  {
  }

  /** A child process that has ended takes nothing any more. */
  predicate Reached(l: Link, alive: bool) {
    l.HttpLink? || alive
  }

  /** What one request writes and what may come back. An ended process is told nothing. Otherwise a
      request on an idle link writes its own frame and at most one answer; on a parked link it writes
      nothing without an answer, and with one exactly that answer; whatever comes back then belongs to
      the parked request. */
  predicate RequestContract(l: Link, alive: bool, r: Reply<Link>, frame: Frame, answer: Option<string>)
    requires frame.Request?
  {
    if !Reached(l, alive) then r.after == l && r.result == Err(Transport)
    else
      match Parked(l)
      case None => Waits(Sent(l) + [frame], r.after, r.result, frame.id, if answer.Some? then 1 else 0)
      case Some((id, elicitation)) =>
        if answer.None? then r.after == l && r.result == Err(ElicitationRequired(elicitation.content))
        else Waits(Sent(l) + [Answer(elicitation.idText, answer.value)], r.after, r.result, id, 0)
  }

  lemma LinkAsks(
    parse: Parser, l: Link, alive: bool, id: nat, verb: Verb, params: Params, limit: nat, answer: Option<string>)
    ensures RequestContract(l, alive, LinkRequest(parse, l, alive, id, verb, params, limit, answer),
                            Request(id, verb, params), answer)
  {
    hide ReadRequest, Consume, Posted, NextPost;
    match l {
      case StdioLink(t) =>
        match t.pending {
          case None => ReadRequestWaits(parse, Wrote(t, Request(id, verb, params)), limit, id, 0, answer);
          case Some(p) =>
            if answer.Some? {
              var frame := Answer(p.elicitation.idText, answer.value);
              ReadRequestWaits(parse, Wrote(t.(pending := None), frame), limit, p.requestId, p.consumed, None);
            }
        }
      case HttpLink(h) =>
        match h.pending {
          case None =>
            var v := Posted(h, Request(id, verb, params));
            PostedSends(h, Request(id, verb, params));
            if NextPost(h).Streams? {
              ConsumeWaits(v, limit, id, NextPost(h).chunks, NextPost(h).cut, [], 0, answer, None);
            }
          case Some(p) =>
            if answer.Some? {
              var frame := Answer(p.elicitation.idText, answer.value);
              var v := Posted(h.(pending := None), frame);
              PostedSends(h.(pending := None), frame);
              ConsumeWaits(v, limit, p.requestId, p.chunks, p.cut, p.seen, p.size, None, Some(p.elicitation.idText));
            }
        }
    }
  }

  // ----- What a request comes to over HTTP -----

  /** The messages a stream of chunks brings, and its size. */
  function Body(chunks: seq<Chunk>): seq<Message> {
    if chunks == [] then [] else chunks[0].messages + Body(chunks[1..])
  }

  function TotalSize(chunks: seq<Chunk>): nat {
    if chunks == [] then 0 else chunks[0].size + TotalSize(chunks[1..])
  }

  /** The first message that carries the id. */
  predicate IsFirstWithId(messages: seq<Message>, id: nat, m: Message) {
    exists k :: 0 <= k < |messages| && messages[k] == m && m.id == Some(id)
                && forall j :: 0 <= j < k ==> messages[j].id != Some(id)
  }

  /** An elicitation other than the one answered last. */
  predicate Unanswered(m: Message, answered: Option<string>) {
    m.elicitation && answered != Some(m.idText)
  }

  predicate IsFirstUnanswered(messages: seq<Message>, answered: Option<string>, e: Message) {
    exists k :: 0 <= k < |messages| && messages[k] == e && Unanswered(e, answered)
                && forall j :: 0 <= j < k ==> !Unanswered(messages[j], answered)
  }

  predicate NoneUnanswered(messages: seq<Message>, answered: Option<string>) {
    forall m :: m in messages ==> !Unanswered(m, answered)
  }

  /** A whole body was read: the result is its first message with the id, unless that carries an error or
      there is none. */
  ghost predicate IsResponseIn(result: Result<Message, Failure>, messages: seq<Message>, id: nat) {
    && (forall m :: result == Ok(m) <==> IsFirstWithId(messages, id, m) && !m.failed)
    && (result.Err? ==> result.error == Protocol)
  }

  lemma {:induction false} FoundResponse(messages: seq<Message>, id: nat)
    ensures IsResponseIn(FindResponse(messages, id), messages, id)
  {
    if messages != [] {
      var rest := messages[1..];
      FoundResponse(rest, id);
      forall m ensures FindResponse(messages, id) == Ok(m) <==> IsFirstWithId(messages, id, m) && !m.failed {
        FirstWithIdStep(messages, id, m);
      }
    }
  }

  lemma FirstWithIdStep(messages: seq<Message>, id: nat, m: Message)
    requires messages != []
    ensures IsFirstWithId(messages, id, m)
            <==> if messages[0].id == Some(id) then m == messages[0] else IsFirstWithId(messages[1..], id, m)
  {
    var rest := messages[1..];
    if IsFirstWithId(messages, id, m) && messages[0].id != Some(id) {
      var k :| 0 <= k < |messages| && messages[k] == m && m.id == Some(id)
               && forall j :: 0 <= j < k ==> messages[j].id != Some(id);
      assert rest[k - 1] == m && forall j :: 0 <= j < k - 1 ==> rest[j] == messages[j + 1];
    }
    if IsFirstWithId(rest, id, m) && messages[0].id != Some(id) {
      var k :| 0 <= k < |rest| && rest[k] == m && m.id == Some(id)
               && forall j :: 0 <= j < k ==> rest[j].id != Some(id);
      assert messages[k + 1] == m && forall j :: 1 <= j < k + 1 ==> messages[j] == rest[j - 1];
    }
  }

  lemma {:induction false} FoundUnanswered(messages: seq<Message>, answered: Option<string>)
    ensures match FindUnanswered(messages, answered)
            case None => NoneUnanswered(messages, answered)
            case Some(e) => IsFirstUnanswered(messages, answered, e)
  {
    if messages != [] {
      var rest := messages[1..];
      FoundUnanswered(rest, answered);
      assert messages == [messages[0]] + rest;
      if Unanswered(messages[0], answered) {
        assert IsFirstUnanswered(messages, answered, messages[0]);
      } else if FindUnanswered(rest, answered).Some? {
        var e := FindUnanswered(rest, answered).value;
        var k :| 0 <= k < |rest| && rest[k] == e && Unanswered(e, answered)
                 && forall j :: 0 <= j < k ==> !Unanswered(rest[j], answered);
        assert messages[k + 1] == e && forall j :: 1 <= j < k + 1 ==> messages[j] == rest[j - 1];
      }
    }
  }

  lemma FirstUnansweredIsUnique(messages: seq<Message>, answered: Option<string>, e: Message, f: Message)
    requires IsFirstUnanswered(messages, answered, e) && IsFirstUnanswered(messages, answered, f)
    ensures e == f
  {
  }

  lemma FirstUnansweredIsThere(messages: seq<Message>, answered: Option<string>, e: Message)
    requires IsFirstUnanswered(messages, answered, e)
    ensures !NoneUnanswered(messages, answered) && e.elicitation && e in messages
  {
  }

  /** A response body being read: for which request, what is still to come and how the stream ends, what
      was read before, the answer at hand, and the elicitation answered last. */
  datatype Reading = Reading(
    id: nat, chunks: seq<Chunk>, cut: Option<Refusal>, seen: seq<Message>, size: nat,
    answer: Option<string>, answered: Option<string>)

  function Read(h: Http, limit: nat, rd: Reading): Reply<Http> {
    Consume(h, limit, rd.id, rd.chunks, rd.cut, rd.seen, rd.size, rd.answer, rd.answered)
  }

  /** The messages read once `k` more chunks have come, and their size. */
  function SeenBy(rd: Reading, k: nat): seq<Message>
    requires k <= |rd.chunks|
  {
    rd.seen + Body(rd.chunks[..k])
  }

  function SizeBy(rd: Reading, k: nat): nat
    requires k <= |rd.chunks|
  {
    rd.size + TotalSize(rd.chunks[..k])
  }

  function After(rd: Reading, k: nat): Reading
    requires k <= |rd.chunks|
  {
    rd.(chunks := rd.chunks[k..], seen := SeenBy(rd, k), size := SizeBy(rd, k))
  }

  /** The first `k` chunks fit and ask nothing new. */
  predicate QuietFor(rd: Reading, limit: nat, k: nat) {
    && k <= |rd.chunks|
    && (k > 0 ==> SizeBy(rd, k) <= limit && NoneUnanswered(SeenBy(rd, k), rd.answered))
  }

  lemma {:induction false} BodyAppend(chunks: seq<Chunk>, k: nat)
    requires k < |chunks|
    ensures Body(chunks[..k + 1]) == Body(chunks[..k]) + chunks[k].messages
    ensures TotalSize(chunks[..k + 1]) == TotalSize(chunks[..k]) + chunks[k].size
  {
    var rest := chunks[1..];
    assert chunks[..k + 1][1..] == rest[..k];
    if k > 0 {
      assert chunks[..k][1..] == rest[..k - 1];
      BodyAppend(rest, k - 1);
    }
  }

  lemma QuietBefore(rd: Reading, limit: nat, k: nat)
    requires k > 0 && QuietFor(rd, limit, k)
    ensures QuietFor(rd, limit, k - 1)
    ensures SizeBy(rd, k) == SizeBy(rd, k - 1) + rd.chunks[k - 1].size
    ensures SeenBy(rd, k) == SeenBy(rd, k - 1) + rd.chunks[k - 1].messages
  {
    BodyAppend(rd.chunks, k - 1);
    assert SeenBy(rd, k) == SeenBy(rd, k - 1) + rd.chunks[k - 1].messages;
  }

  /** Quiet chunks are read past, whatever comes after them. */
  lemma {:induction false} QuietIsReadPast(h: Http, limit: nat, rd: Reading, k: nat)
    requires QuietFor(rd, limit, k)
    ensures Read(h, limit, rd) == Read(h, limit, After(rd, k))
  {
    if k == 0 {
      assert rd.chunks[0..] == rd.chunks && SeenBy(rd, 0) == rd.seen;
    } else {
      QuietBefore(rd, limit, k);
      QuietIsReadPast(h, limit, rd, k - 1);
      FoundUnanswered(SeenBy(rd, k), rd.answered);
      var was := After(rd, k - 1);
      assert was.chunks[0] == rd.chunks[k - 1] && was.chunks[1..] == rd.chunks[k..];
      if FindUnanswered(SeenBy(rd, k), rd.answered).Some? {
        FirstUnansweredIsThere(SeenBy(rd, k), rd.answered, FindUnanswered(SeenBy(rd, k), rd.answered).value);
        assert false;
      }
      hide FindUnanswered, NoneUnanswered, SeenBy, SizeBy, QuietFor;
    }
  }

  /** What reading comes to without an answer at hand: after `k` quiet chunks the stream ends, or the next
      chunk is too much, or it brings the first unanswered elicitation. */
  ghost predicate ComesTo(r: Reply<Http>, h: Http, limit: nat, rd: Reading, k: nat)
    requires k <= |rd.chunks|
  {
    if k == |rd.chunks| then
      && r.after == h
      && match rd.cut
         case Some(Unreachable) => r.result == Err(Transport)
         case Some(NotAuthorized) => r.result == Err(Unauthorized)
         case Some(Stalls) => r.result == Err(TimedOut)
         case None => IsResponseIn(r.result, SeenBy(rd, k), rd.id)
    else if SizeBy(rd, k + 1) > limit then r == Reply(Err(OutputTooLarge), h)
    else
      forall e :: IsFirstUnanswered(SeenBy(rd, k + 1), rd.answered, e) ==>
        r == Reply(Err(ElicitationRequired(e.content)),
                   h.(pending := Some(PendingHttp(rd.id, e, rd.chunks[k + 1..], rd.cut,
                                                  SeenBy(rd, k + 1), SizeBy(rd, k + 1)))))
  }

  lemma ReadingComesTo(h: Http, limit: nat, rd: Reading, k: nat)
    requires QuietFor(rd, limit, k) && rd.answer.None?
    ensures ComesTo(Read(h, limit, rd), h, limit, rd, k)
  {
    QuietIsReadPast(h, limit, rd, k);
    var there := After(rd, k);
    if k == |rd.chunks| {
      FoundResponse(SeenBy(rd, k), rd.id);
    } else {
      BodyAppend(rd.chunks, k);
      assert there.chunks[0] == rd.chunks[k] && there.chunks[1..] == rd.chunks[k + 1..];
      assert SeenBy(rd, k + 1) == SeenBy(rd, k) + rd.chunks[k].messages;
      var got := SeenBy(rd, k + 1);
      FoundUnanswered(got, rd.answered);
      forall e | IsFirstUnanswered(got, rd.answered, e) ensures FindUnanswered(got, rd.answered) == Some(e) {
        FirstUnansweredIsThere(got, rd.answered, e);
        FirstUnansweredIsUnique(got, rd.answered, e, FindUnanswered(got, rd.answered).value);
      }
      hide FindUnanswered, NoneUnanswered, IsFirstUnanswered, SeenBy, SizeBy, QuietFor, IsResponseIn;
    }
  }

  /** The body a request is about to read: the one its own POST opens, or the parked one. */
  predicate AboutToRead(h: Http, id: nat, answer: Option<string>, rd: Reading) {
    match h.pending
    case None =>
      h.posts != [] && h.posts[0] == Streams(rd.chunks, rd.cut)
      && rd == Reading(id, rd.chunks, rd.cut, [], 0, answer, None)
    case Some(p) =>
      && answer.Some? && h.posts != [] && h.posts[0].Streams?
      && rd == Reading(p.requestId, p.chunks, p.cut, p.seen, p.size, None, Some(p.elicitation.idText))
  }

  /** What a request over HTTP comes to. With a quiet stream that is not cut it returns the first message
      with its id unless that is an error, and a protocol failure otherwise; it parks exactly at the first
      unanswered elicitation, keeping all that was read and what is still to come. */
  lemma HttpRequestComesTo(
    h: Http, id: nat, verb: Verb, params: Params, limit: nat, answer: Option<string>, rd: Reading, k: nat)
    requires AboutToRead(h, id, answer, rd) && rd.answer.None? && QuietFor(rd, limit, k)
    ensures var after := Http(h.posts[1..], None, h.sent + [match h.pending
                                                            case None => Request(id, verb, params)
                                                            case Some(p) => Answer(p.elicitation.idText, answer.value)]);
            ComesTo(HttpRequest(h, id, verb, params, limit, answer), after, limit, rd, k)
  {
    var after := Http(h.posts[1..], None, h.sent + [match h.pending
                                                    case None => Request(id, verb, params)
                                                    case Some(p) => Answer(p.elicitation.idText, answer.value)]);
    ReadingComesTo(after, limit, rd, k);
    hide Consume, ComesTo, QuietFor;
  }

  /** A POST that is refused ends the request, with nothing parked. */
  lemma RefusedPostFails(h: Http, id: nat, verb: Verb, params: Params, limit: nat, answer: Option<string>)
    requires h.posts == [] || h.posts[0].Refused?
    requires h.pending.Some? ==> answer.Some?
    ensures var r := HttpRequest(h, id, verb, params, limit, answer);
            && r.after.pending.None?
            && r.result == Err(if h.posts == [] then Transport
                               else match h.posts[0].refusal
                                    case Unreachable => Transport
                                    case NotAuthorized => Unauthorized
                                    case Stalls => TimedOut)
  {
    hide Consume;
  }

  // ----- What a request comes to over a process -----

  /** What a request to a process may find in its output, read from `consumed` on for `id`: the response
      or an elicitation, in the first lines that matter within the limits. */
  ghost predicate Finds(
    parse: Parser, bytes: seq<Byte>, limit: nat, id: nat, consumed: nat, event: Event, total: nat, rest: seq<Byte>)
  {
    exists lines ::
      && FirstRelevant(parse, lines, id, event) && |lines| <= 64
      && bytes == Printed(lines) + rest && total == consumed + TotalLength(lines) <= limit
  }

  /** Without an answer at hand a request to a live process returns a response exactly if that is the first
      relevant message within the limits, and parks exactly if an elicitation is. */
  ghost predicate ReadsFirstRelevant(
    parse: Parser, r: Reply<Stdio>, t: Stdio, limit: nat, id: nat, consumed: nat)
  {
    && (forall m :: r.result == Ok(m)
          <==> exists total, rest :: Finds(parse, t.output.bytes, limit, id, consumed, Response(m), total, rest))
    && (forall m, total, rest :: Finds(parse, t.output.bytes, limit, id, consumed, Elicitation(m), total, rest) ==>
          r == Reply(Err(ElicitationRequired(m.content)),
                     t.(output := t.output.(bytes := rest), pending := Some(PendingStdio(id, m, total)))))
    && (forall m, total, rest :: Finds(parse, t.output.bytes, limit, id, consumed, Response(m), total, rest) ==>
          r == Reply(Ok(m), t.(output := t.output.(bytes := rest))))
  }

  lemma ReadRequestFinds(parse: Parser, t: Stdio, limit: nat, id: nat, consumed: nat)
    requires t.pending.None? && consumed <= limit
    ensures ReadsFirstRelevant(parse, ReadRequest(parse, t, limit, id, consumed, None), t, limit, id, consumed)
  {
    var e := ReadEvent(parse, t.output, limit, id, consumed, MAX_LINES);
    forall event, total, rest
      ensures e == EventRead(Ok(event), total, rest)
              <==> Finds(parse, t.output.bytes, limit, id, consumed, event, total, rest)
    {
      ReaderRefinesFirstRelevant(parse, t.output, limit, id, consumed, event, total, rest);
    }
    hide ReadEvent, Finds;
    if e.event.Ok? {
      assert e == EventRead(Ok(e.event.value), e.consumed, e.rest);
    }
  }

  lemma StdioRequestFinds(
    parse: Parser, t: Stdio, id: nat, verb: Verb, params: Params, limit: nat, answer: Option<string>)
    requires t.writes > 0 && (t.pending.None? <==> answer.None?)
    requires t.pending.Some? ==> t.pending.value.consumed <= limit
    ensures var v := t.(pending := None, writes := t.writes - 1,
                        sent := t.sent + [match t.pending
                                          case None => Request(id, verb, params)
                                          case Some(p) => Answer(p.elicitation.idText, answer.value)]);
            var waiting := match t.pending case None => (id, 0) case Some(p) => (p.requestId, p.consumed);
            ReadsFirstRelevant(parse, StdioRequest(parse, t, true, id, verb, params, limit, answer), v, limit,
                               waiting.0, waiting.1)
  {
    hide ReadRequest, ReadsFirstRelevant;
    match t.pending {
      case None =>
        ReadRequestFinds(parse, Wrote(t, Request(id, verb, params)), limit, id, 0);
      case Some(p) =>
        ReadRequestFinds(parse, Wrote(t.(pending := None), Answer(p.elicitation.idText, answer.value)), limit,
                         p.requestId, p.consumed);
    }
  }

  /** A process that has ended, or takes no more input, fails the request and parks nothing. */
  lemma LostProcessFails(
    parse: Parser, t: Stdio, alive: bool, id: nat, verb: Verb, params: Params, limit: nat, answer: Option<string>)
    requires !alive || t.writes == 0
    requires t.pending.Some? ==> answer.Some?
    ensures var r := StdioRequest(parse, t, alive, id, verb, params, limit, answer);
            && r.result == Err(if alive && t.output.hangs then TimedOut else Transport)
            && (alive ==> r.after.pending.None?) && (!alive ==> r.after == t)
  {
    hide ReadRequest;
  }

  // ----- Answers given ahead -----

  lemma {:induction false} ReadAheadIsResume(h: Http, limit: nat, rd: Reading, answer: string)
    requires rd.answer.None? && h.pending.None?
    ensures Read(h, limit, rd).after.(pending := None) == h
    ensures var parked := Read(h, limit, rd);
            Read(h, limit, rd.(answer := Some(answer)))
            == match parked.after.pending
               case None => parked
               case Some(p) =>
                 var v := Posted(h, Answer(p.elicitation.idText, answer));
                 if NextPost(h).Refused? then Reply(Err(FailureOf(NextPost(h).refusal)), v)
                 else Read(v, limit, Reading(p.requestId, p.chunks, p.cut, p.seen, p.size, None,
                                             Some(p.elicitation.idText)))
    decreases |rd.chunks|
  {
    if rd.chunks != [] && rd.size + rd.chunks[0].size <= limit {
      hide FindUnanswered, Posted, NextPost;
      var got := rd.seen + rd.chunks[0].messages;
      if FindUnanswered(got, rd.answered).None? {
        ReadAheadIsResume(
          h, limit, rd.(chunks := rd.chunks[1..], seen := got, size := rd.size + rd.chunks[0].size), answer);
      }
    }
  }

  /** An answer brought along with a request is used as if the request had parked and been resumed with it,
      and a request that would not park is the same with it as without. */
  lemma AnswerAheadIsResume(
    parse: Parser, l: Link, id: nat, verb: Verb, params: Params, limit: nat, answer: string)
    requires Parked(l).None?
    ensures var without := LinkRequest(parse, l, true, id, verb, params, limit, None);
            LinkRequest(parse, l, true, id, verb, params, limit, Some(answer))
            == if Parked(without.after).None? then without
               else LinkRequest(parse, without.after, true, id, verb, params, limit, Some(answer))
  {
    match l {
      case StdioLink(t) => hide ReadEvent;
      case HttpLink(h) =>
        hide Consume, FindUnanswered;
        match NextPost(h) {
          case Refused(_) =>
          case Streams(chunks, cut) =>
            ReadAheadIsResume(Posted(h, Request(id, verb, params)), limit, Reading(id, chunks, cut, [], 0, None, None),
                              answer);
        }
    }
  }

  // ----- Output accounting across parks -----

  lemma {:induction false} PrintedConcat(a: seq<seq<Byte>>, b: seq<seq<Byte>>)
    ensures Printed(a + b) == Printed(a) + Printed(b) && TotalLength(a + b) == TotalLength(a) + TotalLength(b)
  {
    if a == [] {
      assert a + b == b && Printed(a) + Printed(b) == Printed(b);
    } else {
      PrintedConcat(a[1..], b);
      assert (a + b)[1..] == a[1..] + b;
      assert a[0] + [NEWLINE] + (Printed(a[1..]) + Printed(b)) == (a[0] + [NEWLINE] + Printed(a[1..])) + Printed(b);
    }
  }

  lemma {:induction false} ReadRequestAccounts(
    parse: Parser, t: Stdio, limit: nat, requestId: nat, consumed: nat, answer: Option<string>)
    returns (lines: seq<seq<Byte>>)
    requires t.pending.None? && consumed <= limit
    requires var r := ReadRequest(parse, t, limit, requestId, consumed, answer);
             r.result.Ok? || r.after.pending.Some?
    ensures var r := ReadRequest(parse, t, limit, requestId, consumed, answer);
            && t.output.bytes == Printed(lines) + r.after.output.bytes
            && consumed + TotalLength(lines) <= limit
            && (r.after.pending.Some? ==> r.after.pending.value.consumed == consumed + TotalLength(lines))
    decreases if answer.Some? then 1 else 0
  {
    hide ReadEvent, Printed, TotalLength;
    var e := ReadEvent(parse, t.output, limit, requestId, consumed, MAX_LINES);
    lines := EventIsFirstRelevant(parse, t.output, limit, requestId, consumed, MAX_LINES);
    if answer.Some? && e.event.value.Elicitation? {
      var u := t.(output := t.output.(bytes := e.rest));
      var v := Wrote(u, Answer(e.event.value.m.idText, answer.value));
      var more := ReadRequestAccounts(parse, v, limit, requestId, e.consumed, None);
      PrintedConcat(lines, more);
      var end := ReadRequest(parse, v, limit, requestId, e.consumed, None).after.output.bytes;
      assert Printed(lines) + (Printed(more) + end) == Printed(lines) + Printed(more) + end;
      lines := lines + more;
    }
  }

  /** One call that resumes the parked request; its own id, method and parameters go unused. */
  datatype Turn = Turn(id: nat, verb: Verb, params: Params, answer: string)

  function Resumed(parse: Parser, t: Stdio, limit: nat, turn: Turn): Reply<Stdio> {
    StdioRequest(parse, t, true, turn.id, turn.verb, turn.params, limit, Some(turn.answer))
  }

  /** The replies to one request and to the resumes that follow it: each but the last parks, and the last
      parks again or brings the response. With no turns the request may never have parked. */
  ghost predicate OneRequest(
    parse: Parser, t: Stdio, rs: seq<Reply<Stdio>>, id: nat, verb: Verb, params: Params, limit: nat,
    first: Option<string>, turns: seq<Turn>)
  {
    && |rs| == |turns| + 1 && t.pending.None?
    && rs[0] == StdioRequest(parse, t, true, id, verb, params, limit, first)
    && (forall i :: 0 <= i < |turns| ==>
          rs[i].after.pending.Some? && rs[i + 1] == Resumed(parse, rs[i].after, limit, turns[i]))
    && (rs[|turns|].after.pending.Some? || rs[|turns|].result.Ok?)
  }

  lemma OneRequestPrefix(
    parse: Parser, t: Stdio, rs: seq<Reply<Stdio>>, id: nat, verb: Verb, params: Params, limit: nat,
    first: Option<string>, turns: seq<Turn>)
    requires OneRequest(parse, t, rs, id, verb, params, limit, first, turns) && turns != []
    ensures OneRequest(parse, t, rs[..|turns|], id, verb, params, limit, first, turns[..|turns| - 1])
  {
    hide StdioRequest, Resumed;
  }

  /** Over all the events of one request, parks, resumes and the response included, the lines read for
      it never exceed the output limit; a parked count is their exact total, and a response carries the
      request's id. */
  lemma {:induction false} OneRequestStaysWithinLimit(
    parse: Parser, t: Stdio, rs: seq<Reply<Stdio>>, id: nat, verb: Verb, params: Params, limit: nat,
    first: Option<string>, turns: seq<Turn>)
    returns (lines: seq<seq<Byte>>)
    requires OneRequest(parse, t, rs, id, verb, params, limit, first, turns)
    ensures var last := rs[|turns|];
            && t.output.bytes == Printed(lines) + last.after.output.bytes
            && TotalLength(lines) <= limit
            && (last.after.pending.Some? ==>
                  last.after.pending.value.consumed == TotalLength(lines) && last.after.pending.value.requestId == id)
            && (last.result.Ok? ==> last.result.value.id == Some(id))
    decreases |turns|
  {
    hide ReadRequest, Printed, TotalLength;
    var n := |turns|;
    if n == 0 {
      var v := Wrote(t, Request(id, verb, params));
      lines := ReadRequestAccounts(parse, v, limit, id, 0, first);
      ReadRequestWaits(parse, v, limit, id, 0, first);
    } else {
      OneRequestPrefix(parse, t, rs, id, verb, params, limit, first, turns);
      var before := OneRequestStaysWithinLimit(
        parse, t, rs[..n], id, verb, params, limit, first, turns[..n - 1]);
      var u := rs[n - 1].after;
      var p := u.pending.value;
      var v := Wrote(u.(pending := None), Answer(p.elicitation.idText, turns[n - 1].answer));
      var more := ReadRequestAccounts(parse, v, limit, p.requestId, p.consumed, None);
      ReadRequestWaits(parse, v, limit, p.requestId, p.consumed, None);
      PrintedConcat(before, more);
      assert Printed(before) + (Printed(more) + rs[n].after.output.bytes)
             == Printed(before) + Printed(more) + rs[n].after.output.bytes;
      lines := before + more;
    }
  }
}
