/**
  The persistent session slot of one MCP server (src-tauri/src/agent_mcp.rs): request ids, retries,
  parked elicitations and the discovery page cache. A slot is locked for the whole of one request.
*/
module McpSession {
  import opened Prelude
  import opened McpReader
  import opened McpTransport

  const FIRST_REQUEST_ID: nat := 2

  /** `past` (frames of closed links) and `closes` are history. */
  datatype Slot = Slot(
    fingerprint: string,
    nextId: nat,
    link: Option<Link>,
    pages: map<Params, Message>,
    past: seq<Frame>,
    closes: nat)

  function NewSlot(fingerprint: string): Slot {
    Slot(fingerprint, FIRST_REQUEST_ID, None, map[], [], 0)
  }

  /** How starting a transport, initialisation included, ends. */
  datatype Start = StartFails(failure: Failure) | Spawned(output: Output, writes: nat) | Connected(posts: seq<Post>)

  function FreshLink(start: Start): Link
    requires !start.StartFails?
  {
    match start
    case Spawned(output, writes) => StdioLink(Stdio(output, writes, None, []))
    case Connected(posts) => HttpLink(Http(posts, None, []))
  }

  /** What one attempt meets: whether the connector's lifecycle is still current before and after a
      start, the start itself, and whether the child process still runs. */
  datatype Attempt = Attempt(current: bool, start: Start, currentAfterStart: bool, alive: bool)

  /** What one request meets: the server's fingerprint and output limit, the lifecycle checks before
      and under the slot's lock, and up to two attempts. */
  datatype Env = Env(fingerprint: string, limit: nat, admitted: bool, current: bool, first: Attempt, second: Attempt)

  datatype Call = Call(verb: Verb, params: Params, answer: Option<string>)

  // ----- The specification -----

  function LinkSent(link: Option<Link>): seq<Frame> {
    if link.Some? then Sent(link.value) else []
  }

  function History(s: Slot): seq<Frame> {
    s.past + LinkSent(s.link)
  }

  predicate HasParked(s: Slot) {
    s.link.Some? && Parked(s.link.value).Some?
  }

  function Closed(s: Slot): Slot {
    s.(link := None, pages := map[], past := History(s), closes := s.closes + 1)
  }

  /** retire_server_sessions: the slot is closed and a later request gets a new one. */
  function Retired(s: Slot): Slot {
    Closed(s).(nextId := FIRST_REQUEST_ID)
  }

  /** The transport to use: the open one, or a new one if the start and the lifecycle allow. */
  function Opened(s: Slot, a: Attempt): Reply<Slot>
    ensures Opened(s, a).result.Ok? ==> Opened(s, a).after.link.Some?
  {
    if !a.current then Reply(Err(ToolUnavailable), Closed(s))
    else if s.link.Some? then Reply(Ok(NO_MESSAGE), s)
    else if a.start.StartFails? then Reply(Err(a.start.failure), s)
    else
      var t := s.(link := Some(FreshLink(a.start)));
      if a.currentAfterStart then Reply(Ok(NO_MESSAGE), t) else Reply(Err(ToolUnavailable), Closed(t))
  }

  const NO_MESSAGE := Message(None, "", false, false, "", None)

  /** One attempt on an open slot: the id is used up whatever happens. */
  function Asked(parse: Parser, s: Slot, a: Attempt, limit: nat, call: Call): Reply<Slot>
    requires s.link.Some?
  {
    var r := LinkRequest(parse, s.link.value, a.alive, s.nextId, call.verb, call.params, limit, call.answer);
    Reply(r.result, s.(nextId := SaturatingIncrement(s.nextId), link := Some(r.after)))
  }

  function Cached(s: Slot, call: Call, m: Message): Slot {
    if call.verb.ToolsList? then s.(pages := s.pages[call.params := m]) else s
  }

  /** One attempt: a result of a listing is cached, a lost transport closes the slot. */
  function Tried(parse: Parser, s: Slot, a: Attempt, limit: nat, call: Call): Reply<Slot> {
    var o := Opened(s, a);
    if o.result.Err? then o
    else
      var r := Asked(parse, o.after, a, limit, call);
      if r.result.Ok? then Reply(r.result, Cached(r.after, call, r.result.value))
      else if r.result.error.Transport? then Reply(r.result, Closed(r.after))
      else r
  }

  /** A lost transport is tried again once, but never for a tool call. */
  function Attempts(parse: Parser, s: Slot, env: Env, call: Call): Reply<Slot> {
    var r := Tried(parse, s, env.first, env.limit, call);
    if Opened(s, env.first).result.Ok? && r.result == Err(Transport) && call.verb.ToolsList?
    then Tried(parse, r.after, env.second, env.limit, call)
    else r
  }

  function Refreshed(s: Slot, env: Env): Slot {
    if s.fingerprint == env.fingerprint then s
    else Closed(s).(fingerprint := env.fingerprint, nextId := FIRST_REQUEST_ID)
  }

  function SessionRequest(parse: Parser, s: Slot, env: Env, call: Call): Reply<Slot> {
    if !env.admitted then Reply(Err(ToolUnavailable), s)
    else if !env.current then Reply(Err(ToolUnavailable), Closed(s))
    else
      var t := Refreshed(s, env);
      if HasParked(t) && call.verb.ToolsList? && call.params in t.pages then Reply(Ok(t.pages[call.params]), t)
      else
        var u := if !HasParked(t) && call.verb.ToolsList? && call.params.Empty? then t.(pages := map[]) else t;
        var r := Attempts(parse, u, env, call);
        if r.result == Err(TimedOut) then Reply(r.result, Retired(r.after)) else r
  }

  // ----- The slot object -----

  class McpSessionSlot {
    var fingerprint: string
    var nextRequestId: nat
    var stdio: StdioMcpSession?
    var http: HttpMcpSession?
    var pages: map<Params, Message>
    ghost var past: seq<Frame>
    ghost var closes: nat

    ghost predicate Valid()
      reads this
    {
      stdio == null || http == null
    }

    ghost function LinkView(): Option<Link>
      reads this, stdio, http
    {
      if stdio != null then Some(StdioLink(stdio.View()))
      else if http != null then Some(HttpLink(http.View()))
      else None
    }

    ghost function View(): Slot
      reads this, stdio, http
    {
      Slot(fingerprint, nextRequestId, LinkView(), pages, past, closes)
    }

    constructor (fingerprint: string)
      ensures Valid() && View() == NewSlot(fingerprint)
    {
      this.fingerprint, nextRequestId := fingerprint, FIRST_REQUEST_ID;
      stdio, http, pages := null, null, map[];
      past, closes := [], 0;
    }

    method Close()
      requires Valid()
      modifies this
      ensures Valid() && View() == Closed(old(View()))
      ensures stdio == null && http == null
    {
      past, closes := past + LinkSent(LinkView()), closes + 1;
      stdio, http, pages := null, null, map[];
    }

    method HasPendingElicitation() returns (parked: bool)
      requires Valid()
      ensures parked == HasParked(View())
    {
      parked := (stdio != null && stdio.pending.Some?) || (http != null && http.pending.Some?);
    }

    /** Starts a transport if none is open; an error ends the request. */
    method Open(a: Attempt) returns (failure: Option<Failure>)
      requires Valid()
      modifies this
      ensures Valid()
      ensures View() == Opened(old(View()), a).after
      ensures failure == match Opened(old(View()), a).result { case Ok(_) => None case Err(e) => Some(e) }
      ensures stdio == null || stdio == old(stdio) || fresh(stdio)
      ensures http == null || http == old(http) || fresh(http)
    {
      if !a.current {
        Close();
        return Some(ToolUnavailable);
      }
      if stdio != null || http != null {
        return None;
      }
      match a.start {
        case StartFails(f) => return Some(f);
        case Spawned(output, writes) => stdio := new StdioMcpSession(output, writes);
        case Connected(posts) => http := new HttpMcpSession(posts);
      }
      if !a.currentAfterStart {
        Close();
        return Some(ToolUnavailable);
      }
      failure := None;
    }

    method Ask(parse: Parser, a: Attempt, limit: nat, call: Call) returns (result: Result<Message, Failure>)
      requires Valid() && (stdio != null || http != null)
      modifies this, stdio, http
      ensures Valid() && Asked(parse, old(View()), a, limit, call) == Reply(result, View())
      ensures stdio == old(stdio) && http == old(http)
    {
      var id := nextRequestId;
      nextRequestId := SaturatingIncrement(nextRequestId);
      if stdio != null {
        result := stdio.Request(parse, a.alive, id, call.verb, call.params, limit, call.answer);
      } else {
        result := http.Request(id, call.verb, call.params, limit, call.answer);
      }
    }

    method Try(parse: Parser, a: Attempt, limit: nat, call: Call)
      returns (result: Result<Message, Failure>, lost: bool)
      requires Valid()
      modifies this, stdio, http
      ensures Valid() && Tried(parse, old(View()), a, limit, call) == Reply(result, View())
      ensures lost == (Opened(old(View()), a).result.Ok? && result == Err(Transport))
      ensures stdio == null || stdio == old(stdio) || fresh(stdio)
      ensures http == null || http == old(http) || fresh(http)
    {
      lost := false;
      var failure := Open(a);
      if failure.Some? {
        return Err(failure.value), false;
      }
      result := Ask(parse, a, limit, call);
      match result {
        case Ok(m) =>
          if call.verb.ToolsList? {
            pages := pages[call.params := m];
          }
        case Err(e) =>
          if e.Transport? {
            Close();
            lost := true;
          }
      }
    }

    method TryTwice(parse: Parser, env: Env, call: Call) returns (result: Result<Message, Failure>)
      requires Valid()
      modifies this, stdio, http
      ensures Valid() && Attempts(parse, old(View()), env, call) == Reply(result, View())
      ensures stdio == null || stdio == old(stdio) || fresh(stdio)
      ensures http == null || http == old(http) || fresh(http)
    {
      hide Tried, Opened;
      var lost;
      result, lost := Try(parse, env.first, env.limit, call);
      if lost && call.verb.ToolsList? {
        result, lost := Try(parse, env.second, env.limit, call);
      }
    }

    method Request(parse: Parser, env: Env, call: Call) returns (result: Result<Message, Failure>)
      requires Valid()
      modifies this, stdio, http
      ensures Valid() && SessionRequest(parse, old(View()), env, call) == Reply(result, View())
      ensures stdio == null || stdio == old(stdio) || fresh(stdio)
      ensures http == null || http == old(http) || fresh(http)
    {
      hide Attempts, History;
      if !env.admitted {
        return Err(ToolUnavailable);
      }
      if !env.current {
        Close();
        return Err(ToolUnavailable);
      }
      if fingerprint != env.fingerprint {
        Close();
        fingerprint, nextRequestId := env.fingerprint, FIRST_REQUEST_ID;
      }
      var parked := HasPendingElicitation();
      if parked {
        if call.verb.ToolsList? && call.params in pages {
          return Ok(pages[call.params]);
        }
      } else if call.verb.ToolsList? && call.params.Empty? {
        pages := map[];
      }
      result := TryTwice(parse, env, call);
      if result == Err(TimedOut) {
        Close();
        nextRequestId := FIRST_REQUEST_ID;
      }
    }
  }

  // ----- What one request writes -----

  function CallFrames(frames: seq<Frame>): nat {
    if frames == [] then 0
    else
      var last := frames[|frames| - 1];
      CallFrames(frames[..|frames| - 1]) + (if last.Request? && last.verb.ToolsCall? then 1 else 0)
  }

  function RequestFrames(frames: seq<Frame>): nat {
    if frames == [] then 0
    else RequestFrames(frames[..|frames| - 1]) + (if frames[|frames| - 1].Request? then 1 else 0)
  }

  /** The frames a request added. */
  function Added(s: Slot, t: Slot): seq<Frame>
    requires |History(s)| <= |History(t)|
  {
    History(t)[|History(s)|..]
  }

  lemma {:induction false} AnswersAreNoRequests(frames: seq<Frame>)
    requires OnlyAnswers(frames)
    ensures CallFrames(frames) == 0 && RequestFrames(frames) == 0
  {
    if frames != [] {
      assert frames[|frames| - 1] in frames;
      AnswersAreNoRequests(frames[..|frames| - 1]);
    }
  }

  lemma {:induction false} FramesConcat(a: seq<Frame>, b: seq<Frame>)
    ensures CallFrames(a + b) == CallFrames(a) + CallFrames(b)
    ensures RequestFrames(a + b) == RequestFrames(a) + RequestFrames(b)
  {
    if b == [] {
      assert a + b == a;
    } else {
      var n := |b| - 1;
      FramesConcat(a, b[..n]);
      assert (a + b)[..|a + b| - 1] == a + b[..n];
    }
  }

  /** Frames from a to c, by way of b. */
  lemma AddedJoins(a: Slot, b: Slot, c: Slot)
    requires History(a) <= History(b) <= History(c)
    ensures History(a) <= History(c) && Added(a, c) == Added(a, b) + Added(b, c)
  {
    hide History;
  }

  /** One attempt: at most one request frame, with the slot's next id; none on a parked link. */
  predicate TriedWrites(s: Slot, r: Reply<Slot>, call: Call) {
    && History(s) <= History(r.after)
    && RequestFrames(Added(s, r.after)) <= (if HasParked(s) then 0 else 1)
    && CallFrames(Added(s, r.after)) <= (if HasParked(s) || call.verb.ToolsList? then 0 else 1)
  }

  lemma AskedHistory(parse: Parser, s: Slot, a: Attempt, limit: nat, call: Call)
    requires s.link.Some?
    ensures TriedWrites(s, Asked(parse, s, a, limit, call), call)
  {
    var l := s.link.value;
    var r := LinkRequest(parse, l, a.alive, s.nextId, call.verb, call.params, limit, call.answer);
    LinkAsks(parse, l, a.alive, s.nextId, call.verb, call.params, limit, call.answer);
    hide LinkRequest, Sent, Parked;
    FramesWritten(Sent(l), r, l, a.alive, Request(s.nextId, call.verb, call.params), call.answer);
    assert s.past + Sent(r.after) == History(Asked(parse, s, a, limit, call).after);
    assert (s.past + Sent(r.after))[|s.past + Sent(l)|..] == Sent(r.after)[|Sent(l)|..];
  }

  lemma FramesWritten(before: seq<Frame>, r: Reply<Link>, l: Link, alive: bool, frame: Frame, answer: Option<string>)
    requires before == Sent(l) && frame.Request? && RequestContract(l, alive, r, frame, answer)
    ensures before <= Sent(r.after)
    ensures var added := Sent(r.after)[|before|..];
            && RequestFrames(added) <= (if Parked(l).Some? then 0 else 1)
            && CallFrames(added) <= (if Parked(l).Some? || frame.verb.ToolsList? then 0 else 1)
  {
    hide Sent, Parked;
    var added := Sent(r.after)[|before|..];
    if r.after != l {
      var written := if Parked(l).None? then frame else Answer(Parked(l).value.1.idText, answer.value);
      var rest := Sent(r.after)[|before + [written]|..];
      assert added == [written] + rest;
      FramesConcat([written], rest);
      AnswersAreNoRequests(rest);
      assert [written][..0] == [];
    } else {
      assert added == [];
    }
  }

  lemma NothingAdded(s: Slot, t: Slot)
    requires History(s) == History(t)
    ensures Added(s, t) == [] && CallFrames(Added(s, t)) == 0 && RequestFrames(Added(s, t)) == 0
  {
  }

  lemma ClosedHistory(s: Slot)
    ensures History(Closed(s)) == History(s)
  {
    assert History(s) + [] == History(s);
  }

  lemma OpenedHistory(s: Slot, a: Attempt)
    ensures History(Opened(s, a).after) == History(s)
    ensures HasParked(Opened(s, a).after) ==> HasParked(s) && Opened(s, a).after == s
    ensures HasParked(s) && Opened(s, a).result.Ok? ==> Opened(s, a).after == s
  {
    hide Parked;
    ClosedHistory(s);
    FreshIsIdle(a.start);
    assert s.link.None? ==> History(s) == s.past && s.past + [] == s.past;
    if s.link.None? && !a.start.StartFails? {
      ClosedHistory(s.(link := Some(FreshLink(a.start))));
    }
  }

  lemma FreshIsIdle(start: Start)
    ensures !start.StartFails? ==> Sent(FreshLink(start)) == [] && Parked(FreshLink(start)).None?
  {
  }

  lemma TriedHistory(parse: Parser, s: Slot, a: Attempt, limit: nat, call: Call)
    ensures TriedWrites(s, Tried(parse, s, a, limit, call), call)
  {
    hide Asked, History, Opened, HasParked;
    var o := Opened(s, a);
    OpenedHistory(s, a);
    if o.result.Err? {
      NothingAdded(s, o.after);
    } else {
      var r := Asked(parse, o.after, a, limit, call);
      AskedHistory(parse, o.after, a, limit, call);
      ClosedHistory(r.after);
      CachedHistory(r.after, call);
      var t := Tried(parse, s, a, limit, call).after;
      assert History(t) == History(r.after);
      assert Added(s, t) == Added(o.after, r.after);
    }
  }

  lemma CachedHistory(s: Slot, call: Call)
    ensures forall m :: History(Cached(s, call, m)) == History(s)
  {
  }

  lemma AttemptsHistory(parse: Parser, s: Slot, env: Env, call: Call)
    ensures var t := Attempts(parse, s, env, call).after;
            && History(s) <= History(t)
            && CallFrames(Added(s, t)) <= (if call.verb.ToolsCall? && !HasParked(s) then 1 else 0)
            && RequestFrames(Added(s, t)) <= (if HasParked(s) then 0 else 1) + (if call.verb.ToolsList? then 1 else 0)
  {
    hide Tried, History, Opened, HasParked;
    var r := Tried(parse, s, env.first, env.limit, call);
    TriedHistory(parse, s, env.first, env.limit, call);
    if Opened(s, env.first).result.Ok? && r.result == Err(Transport) && call.verb.ToolsList? {
      var q := Tried(parse, r.after, env.second, env.limit, call);
      TriedHistory(parse, r.after, env.second, env.limit, call);
      AddedJoins(s, r.after, q.after);
      FramesConcat(Added(s, r.after), Added(r.after, q.after));
    }
  }

  lemma SameHistory(s: Slot, t: Slot, u: Slot)
    requires History(s) == History(t) && History(t) <= History(u)
    ensures History(s) <= History(u) && Added(s, u) == Added(t, u)
  {
  }

  /** One request for a tool call writes at most one tools/call frame, whatever fails; one for a
      listing writes none, and at most two frames of its own. */
  lemma OneRequestOneCall(parse: Parser, s: Slot, env: Env, call: Call)
    ensures var t := SessionRequest(parse, s, env, call).after;
            && History(s) <= History(t)
            && CallFrames(Added(s, t)) <= (if call.verb.ToolsCall? then 1 else 0)
            && RequestFrames(Added(s, t)) <= (if call.verb.ToolsCall? then 1 else 2)
  {
    hide Attempts, History, HasParked;
    var t := Refreshed(s, env);
    ClosedHistory(s);
    RefreshedHistory(s, env);
    NothingAdded(s, s);
    NothingAdded(s, Closed(s));
    NothingAdded(s, t);
    var u := if !HasParked(t) && call.verb.ToolsList? && call.params.Empty? then t.(pages := map[]) else t;
    PagesHistory(t);
    var r := Attempts(parse, u, env, call);
    AttemptsHistory(parse, u, env, call);
    RetiredHistory(r.after);
    SameHistory(s, u, r.after);
    SameHistory(s, u, Retired(r.after));
    assert Added(s, r.after) == Added(s, Retired(r.after));
  }

  lemma RefreshedHistory(s: Slot, env: Env)
    ensures History(Refreshed(s, env)) == History(s)
  {
    ClosedHistory(s);
  }

  lemma PagesHistory(s: Slot)
    ensures History(s.(pages := map[])) == History(s)
  {
  }

  lemma RetiredHistory(s: Slot)
    ensures History(Retired(s)) == History(s)
  {
    ClosedHistory(s);
  }

  // ----- What a request comes to -----

  /** A request whose caller's lifecycle has moved on is refused; under the lock that also closes the slot. */
  lemma OutdatedRequestsAreRefused(parse: Parser, s: Slot, env: Env, call: Call)
    requires !env.admitted || !env.current
    ensures var r := SessionRequest(parse, s, env, call);
            && r.result == Err(ToolUnavailable) && Added(s, r.after) == []
            && (!env.admitted ==> r.after == s)
            && (env.admitted ==> r.after.link.None? && r.after.pages == map[])
  {
    ClosedHistory(s);
    NothingAdded(s, s);
    NothingAdded(s, Closed(s));
  }

  /** The link an attempt asks: the open one, or else one it starts, provided the lifecycle stays current. */
  predicate AsksOn(link: Option<Link>, a: Attempt, l: Link) {
    && a.current
    && match link
       case Some(open) => l == open
       case None =>
         && a.currentAfterStart
         && match a.start
            case StartFails(_) => false
            case Spawned(output, writes) => l == StdioLink(Stdio(output, writes, None, []))
            case Connected(posts) => l == HttpLink(Http(posts, None, []))
  }

  /** The pages a slot keeps for a request that reaches its link: a fresh round starts over. */
  function PagesFor(s: Slot, call: Call): map<Params, Message> {
    if call.verb.ToolsList? && call.params.Empty? && !HasParked(s) then map[] else s.pages
  }

  /** What an exchange on a link leaves: a response of a listing is kept, a lost transport or a timeout
      closes the slot, and any other failure leaves it open. */
  ghost predicate Leaves(s: Slot, call: Call, q: Reply<Link>, t: Slot) {
    match q.result
    case Ok(m) =>
      && t.link == Some(q.after) && t.nextId == SaturatingIncrement(s.nextId)
      && t.pages == if call.verb.ToolsList? then PagesFor(s, call)[call.params := m] else PagesFor(s, call)
    case Err(Transport) => t.link.None? && t.pages == map[] && t.nextId == SaturatingIncrement(s.nextId)
    case Err(TimedOut) => t.link.None? && t.pages == map[] && t.nextId == 2
    case Err(_) =>
      t.link == Some(q.after) && t.pages == PagesFor(s, call) && t.nextId == SaturatingIncrement(s.nextId)
  }

  /** An up-to-date request that no cached page answers. */
  predicate Proceeds(s: Slot, env: Env, call: Call) {
    && env.admitted && env.current && env.fingerprint == s.fingerprint
    && !(call.verb.ToolsList? && HasParked(s) && call.params in s.pages)
  }

  lemma TriedIsOneExchange(parse: Parser, s: Slot, a: Attempt, limit: nat, call: Call, l: Link)
    requires AsksOn(s.link, a, l)
    ensures var q := LinkRequest(parse, l, a.alive, s.nextId, call.verb, call.params, limit, call.answer);
            var r := Tried(parse, s, a, limit, call);
            && Opened(s, a).result.Ok? && r.result == q.result
            && match q.result
               case Ok(m) =>
                 && r.after.link == Some(q.after) && r.after.nextId == SaturatingIncrement(s.nextId)
                 && r.after.pages == (if call.verb.ToolsList? then s.pages[call.params := m] else s.pages)
               case Err(Transport) =>
                 r.after.link.None? && r.after.pages == map[] && r.after.nextId == SaturatingIncrement(s.nextId)
               case Err(_) =>
                 r.after.link == Some(q.after) && r.after.pages == s.pages
                 && r.after.nextId == SaturatingIncrement(s.nextId)
  {
    hide LinkRequest, History;
  }

  /** An up-to-date request asks the open link, or a new one, once; its result is that exchange's, and the
      slot keeps exactly what the exchange warrants. Only a listing that lost its transport goes on. */
  lemma RequestIsOneExchange(parse: Parser, s: Slot, env: Env, call: Call, l: Link)
    requires Proceeds(s, env, call) && AsksOn(s.link, env.first, l)
    ensures var q := LinkRequest(parse, l, env.first.alive, s.nextId, call.verb, call.params, env.limit, call.answer);
            var r := SessionRequest(parse, s, env, call);
            call.verb.ToolsCall? || q.result != Err(Transport) ==> r.result == q.result && Leaves(s, call, q, r.after)
  {
    hide Tried, History, Opened, LinkRequest, HasParked;
    TriedIsOneExchange(parse, s.(pages := PagesFor(s, call)), env.first, env.limit, call, l);
  }

  /** A listing that lost its transport is asked once more, on a new link, with the next id. */
  lemma LostListingIsAskedAgain(parse: Parser, s: Slot, env: Env, call: Call, l: Link, m: Link)
    requires Proceeds(s, env, call) && call.verb.ToolsList?
    requires AsksOn(s.link, env.first, l) && AsksOn(None, env.second, m)
    requires LinkRequest(parse, l, env.first.alive, s.nextId, call.verb, call.params, env.limit, call.answer).result
             == Err(Transport)
    ensures var q := LinkRequest(parse, m, env.second.alive, SaturatingIncrement(s.nextId), call.verb, call.params,
                                 env.limit, call.answer);
            var r := SessionRequest(parse, s, env, call);
            && r.result == q.result
            && (r.result.Ok? ==> r.after.link == Some(q.after) && r.after.pages == map[call.params := r.result.value])
  {
    hide Tried, History, Opened, LinkRequest, HasParked;
    var t := s.(pages := PagesFor(s, call));
    TriedIsOneExchange(parse, t, env.first, env.limit, call, l);
    TriedIsOneExchange(parse, Tried(parse, t, env.first, env.limit, call).after, env.second, env.limit, call, m);
  }

  /** A transport that cannot be used ends the request without a frame: a start that fails with its own
      failure, a lifecycle that moved on as unavailable, and then nothing stays open. */
  lemma UnusableTransportFails(parse: Parser, s: Slot, env: Env, call: Call)
    requires Proceeds(s, env, call)
    requires !env.first.current || (s.link.None? && (env.first.start.StartFails? || !env.first.currentAfterStart))
    ensures var r := SessionRequest(parse, s, env, call);
            && r.result == Err(if env.first.current && env.first.start.StartFails? then env.first.start.failure
                               else ToolUnavailable)
            && r.after.link.None? && Added(s, r.after) == []
  {
    var t := s.(pages := PagesFor(s, call));
    PagesHistory(s);
    OpenedHistory(t, env.first);
    RetiredHistory(Opened(t, env.first).after);
    hide LinkRequest, History;
    assert History(SessionRequest(parse, s, env, call).after) == History(s);
    NothingAdded(s, SessionRequest(parse, s, env, call).after);
  }

  // ----- Parks and resumes -----

  lemma ClosesGrow(parse: Parser, s: Slot, a: Attempt, limit: nat, call: Call)
    ensures var r := Tried(parse, s, a, limit, call);
            && s.closes <= r.after.closes
            && (Opened(s, a).result.Ok? && r.result == Err(Transport) ==> s.closes < r.after.closes)
  {
    hide LinkRequest, History;
  }

  lemma SessionClosesGrow(parse: Parser, s: Slot, env: Env, call: Call)
    ensures s.closes <= SessionRequest(parse, s, env, call).after.closes
  {
    hide Tried, History, Opened, HasParked;
    var t := Refreshed(s, env);
    var u := if !HasParked(t) && call.verb.ToolsList? && call.params.Empty? then t.(pages := map[]) else t;
    var r := Tried(parse, u, env.first, env.limit, call);
    ClosesGrow(parse, u, env.first, env.limit, call);
    ClosesGrow(parse, r.after, env.second, env.limit, call);
  }

  /** A request that finds the slot open and leaves it open is one exchange on its link. */
  lemma OpenRequestIsOneExchange(parse: Parser, s: Slot, env: Env, call: Call)
    requires var r := SessionRequest(parse, s, env, call);
             r.after.closes == s.closes && env.admitted
    ensures var r := SessionRequest(parse, s, env, call);
            && env.current && env.fingerprint == s.fingerprint
            && (if HasParked(s) && call.verb.ToolsList? && call.params in s.pages
                then r == Reply(Ok(s.pages[call.params]), s)
                else
                  var u := if !HasParked(s) && call.verb.ToolsList? && call.params.Empty? then s.(pages := map[]) else s;
                  && r == Tried(parse, u, env.first, env.limit, call)
                  && (Opened(u, env.first).result.Ok? ==> r.result != Err(Transport)))
  {
    hide Tried, History, Opened, HasParked;
    var t := Refreshed(s, env);
    var u := if !HasParked(t) && call.verb.ToolsList? && call.params.Empty? then t.(pages := map[]) else t;
    var q := Tried(parse, u, env.first, env.limit, call);
    ClosesGrow(parse, u, env.first, env.limit, call);
    ClosesGrow(parse, q.after, env.second, env.limit, call);
  }

  function ParkedId(s: Slot): nat
    requires HasParked(s)
  {
    Parked(s.link.value).value.0
  }

  function ParkedElicitation(s: Slot): Message
    requires HasParked(s)
  {
    Parked(s.link.value).value.1
  }

  /** The call gets through to the transport that holds the parked request: the lifecycle is current,
      no cached page answers it, and the process, if it is one, still runs. */
  predicate Resumes(s: Slot, env: Env, call: Call) {
    && HasParked(s) && env.admitted && env.current && env.first.current && Reached(s.link.value, env.first.alive)
    && call.answer.Some? && !(call.verb.ToolsList? && call.params in s.pages)
  }

  function AnswerFrame(s: Slot, call: Call): Frame
    requires HasParked(s) && call.answer.Some?
  {
    Answer(ParkedElicitation(s).idText, call.answer.value)
  }

  /** While a request is parked no call writes a tools/call frame, whatever fails. A tool call, and any
      call that leaves the slot open, writes exactly the answer if it has one and gets through, and
      nothing otherwise, whatever comes of it. What comes back is a cached page or the reply to the
      parked request, and what stays parked is that request; only a listing that lost its transport can
      do more, on a new one. */
  lemma ResumeWritesOnlyTheAnswer(parse: Parser, s: Slot, env: Env, call: Call)
    requires HasParked(s) && (env.admitted ==> env.fingerprint == s.fingerprint)
    ensures var r := SessionRequest(parse, s, env, call);
            && History(s) <= History(r.after)
            && CallFrames(Added(s, r.after)) == 0
            && (call.verb.ToolsCall? || r.after.closes == s.closes ==>
                  && Added(s, r.after) == (if Resumes(s, env, call) then [AnswerFrame(s, call)] else [])
                  && (r.result.Ok? ==>
                        if Resumes(s, env, call) then r.result.value.id == Some(ParkedId(s))
                        else call.params in s.pages && r.result.value == s.pages[call.params] && r.after == s)
                  && (HasParked(r.after) ==> ParkedId(r.after) == ParkedId(s)))
            && (call.answer.None? && r.after.closes == s.closes ==> r.after.link == s.link)
  {
    NothingAdded(s, s);
    ClosedHistory(s);
    NothingAdded(s, Closed(s));
    if env.admitted && env.current && !(call.verb.ToolsList? && call.params in s.pages) {
      ParkedAttempts(parse, s, env, call);
      var r := Attempts(parse, s, env, call);
      RetiredHistory(r.after);
      hide Attempts, History;
      assert Added(s, Retired(r.after)) == Added(s, r.after);
    }
  }

  lemma ParkedAttempts(parse: Parser, s: Slot, env: Env, call: Call)
    requires HasParked(s) && env.admitted && env.current && !(call.verb.ToolsList? && call.params in s.pages)
    ensures var r := Attempts(parse, s, env, call);
            && History(s) <= History(r.after)
            && CallFrames(Added(s, r.after)) == 0
            && (call.verb.ToolsCall? || r.after.closes == s.closes ==>
                  && Added(s, r.after) == (if Resumes(s, env, call) then [AnswerFrame(s, call)] else [])
                  && (r.result.Ok? ==> Resumes(s, env, call) && r.result.value.id == Some(ParkedId(s)))
                  && (HasParked(r.after) ==> ParkedId(r.after) == ParkedId(s)))
            && (call.answer.None? && r.after.closes == s.closes ==> r.after.link == s.link)
  {
    AttemptsHistory(parse, s, env, call);
    ParkedTry(parse, s, env.first, env.limit, call);
    var r := Tried(parse, s, env.first, env.limit, call);
    ClosesGrow(parse, s, env.first, env.limit, call);
    ClosesGrow(parse, r.after, env.second, env.limit, call);
    hide Tried, Opened, HasParked, History;
  }

  /** One attempt on a parked link, the slot closed afterwards or not. */
  lemma ParkedTry(parse: Parser, s: Slot, a: Attempt, limit: nat, call: Call)
    requires HasParked(s)
    ensures var r := Tried(parse, s, a, limit, call);
            var gotThrough := a.current && Reached(s.link.value, a.alive);
            && History(s) <= History(r.after)
            && Added(s, r.after) == (if gotThrough && call.answer.Some? then [AnswerFrame(s, call)] else [])
            && (r.result.Ok? ==> gotThrough && call.answer.Some? && r.result.value.id == Some(ParkedId(s)))
            && (HasParked(r.after) ==> ParkedId(r.after) == ParkedId(s))
            && (call.answer.None? && r.after.closes == s.closes ==> r.after.link == s.link)
  {
    ClosedHistory(s);
    NothingAdded(s, Closed(s));
    if a.current {
      var l := s.link.value;
      var q := LinkRequest(parse, l, a.alive, s.nextId, call.verb, call.params, limit, call.answer);
      LinkAsks(parse, l, a.alive, s.nextId, call.verb, call.params, limit, call.answer);
      var u := Asked(parse, s, a, limit, call).after;
      ClosedHistory(u);
      hide LinkRequest, Sent, Parked, Reached;
      ResumeFrames(s, q, a.alive, call, u);
      CachedHistory(u, call);
      assert Added(s, Closed(u)) == Added(s, u);
      hide History;
      assert forall m :: Added(s, Cached(u, call, m)) == Added(s, u);
    }
  }

  lemma ResumeFrames(s: Slot, q: Reply<Link>, alive: bool, call: Call, u: Slot)
    requires HasParked(s) && RequestContract(s.link.value, alive, q, Request(s.nextId, call.verb, call.params), call.answer)
    requires u.past == s.past && u.link == Some(q.after)
    ensures History(s) <= History(u)
    ensures Added(s, u) == if Reached(s.link.value, alive) && call.answer.Some? then [AnswerFrame(s, call)] else []
  {
    hide Sent, Parked, Reached;
    var l := s.link.value;
    var sent := Sent(q.after);
    if Reached(l, alive) && call.answer.Some? {
      var written := Sent(l) + [AnswerFrame(s, call)];
      assert |sent| == |written| && written <= sent;
      assert sent == written;
      assert s.past + written == (s.past + Sent(l)) + [AnswerFrame(s, call)];
    } else {
      assert sent == Sent(l);
      NothingAdded(s, u);
    }
  }

  // ----- Runs of a slot -----

  /** The slots a sequence of calls visits. */
  predicate Visits(parse: Parser, ss: seq<Slot>, envs: seq<Env>, calls: seq<Call>) {
    && |ss| == |calls| + 1 && |envs| == |calls|
    && forall i :: 0 <= i < |calls| ==> ss[i + 1] == SessionRequest(parse, ss[i], envs[i], calls[i]).after
  }

  ghost predicate IsRun(parse: Parser, ss: seq<Slot>, envs: seq<Env>, calls: seq<Call>) {
    Visits(parse, ss, envs, calls) && exists fingerprint :: ss[0] == NewSlot(fingerprint)
  }

  /** Request ids below saturation: all smaller than the next one, and increasing. */
  predicate IdsIncrease(sent: seq<Frame>, nextId: nat) {
    && (forall i :: 0 <= i < |sent| && sent[i].Request? ==> sent[i].id < nextId)
    && (forall i, j :: 0 <= i < j < |sent| && sent[i].Request? && sent[j].Request? ==> sent[i].id < sent[j].id)
  }

  /** The last request written is this one; only answers followed it. */
  predicate LastRequestIs(sent: seq<Frame>, id: nat) {
    exists k :: 0 <= k < |sent| && sent[k].Request? && sent[k].id == id && OnlyAnswers(sent[k + 1..])
  }

  predicate SlotInv(s: Slot) {
    && (s.nextId < U64_MAX ==> IdsIncrease(LinkSent(s.link), s.nextId))
    && (HasParked(s) ==> LastRequestIs(LinkSent(s.link), ParkedId(s)))
    && (s.link.None? ==> s.pages == map[])
  }

  lemma AnswersKeepIds(sent: seq<Frame>, after: seq<Frame>, nextId: nat)
    requires IdsIncrease(sent, nextId) && sent <= after && OnlyAnswers(after[|sent|..])
    ensures IdsIncrease(after, nextId)
  {
    forall i | |sent| <= i < |after| ensures after[i].Answer? {
      assert after[i] in after[|sent|..];
    }
  }

  lemma AnswersKeepLast(sent: seq<Frame>, after: seq<Frame>, id: nat)
    requires LastRequestIs(sent, id) && sent <= after && OnlyAnswers(after[|sent|..])
    ensures LastRequestIs(after, id)
  {
    var k :| 0 <= k < |sent| && sent[k].Request? && sent[k].id == id && OnlyAnswers(sent[k + 1..]);
    assert after[k + 1..] == sent[k + 1..] + after[|sent|..];
  }

  lemma NextIdIsNew(sent: seq<Frame>, frame: Frame)
    requires frame.Request?
    ensures IdsIncrease(sent, frame.id) ==> IdsIncrease(sent + [frame], frame.id + 1)
    ensures LastRequestIs(sent + [frame], frame.id)
  {
    var after := sent + [frame];
    assert after[|sent|] == frame && after[|sent| + 1..] == [];
  }

  lemma AskedInv(parse: Parser, s: Slot, a: Attempt, limit: nat, call: Call)
    requires SlotInv(s) && s.link.Some?
    ensures SlotInv(Asked(parse, s, a, limit, call).after) && Asked(parse, s, a, limit, call).after.link.Some?
  {
    var l := s.link.value;
    var frame := Request(s.nextId, call.verb, call.params);
    var r := LinkRequest(parse, l, a.alive, s.nextId, call.verb, call.params, limit, call.answer);
    LinkAsks(parse, l, a.alive, s.nextId, call.verb, call.params, limit, call.answer);
    hide LinkRequest, Sent, Parked;
    ContractKeepsInv(s, r, a.alive, frame, call.answer);
  }

  lemma ContractKeepsInv(s: Slot, r: Reply<Link>, alive: bool, frame: Frame, answer: Option<string>)
    requires SlotInv(s) && s.link.Some? && frame.Request? && frame.id == s.nextId
    requires RequestContract(s.link.value, alive, r, frame, answer)
    ensures s.nextId < U64_MAX ==> IdsIncrease(Sent(r.after), s.nextId + 1)
    ensures Parked(r.after).Some? ==> LastRequestIs(Sent(r.after), Parked(r.after).value.0)
  {
    hide Sent, Parked, LastRequestIs;
    var l := s.link.value;
    var after := Sent(r.after);
    if r.after == l {
      IdsStayBelow(after, s.nextId);
    } else if Parked(l).None? {
      var written := Sent(l) + [frame];
      NextIdIsNew(Sent(l), frame);
      AnswersKeepLast(written, after, frame.id);
      if s.nextId < U64_MAX {
        AnswersKeepIds(written, after, s.nextId + 1);
      }
    } else {
      var (id, e) := Parked(l).value;
      var written := Sent(l) + [Answer(e.idText, answer.value)];
      assert written[|Sent(l)|..] == [Answer(e.idText, answer.value)];
      assert after == written;
      AnswersKeepLast(Sent(l), after, id);
      if s.nextId < U64_MAX {
        AnswersKeepIds(Sent(l), after, s.nextId);
        IdsStayBelow(after, s.nextId);
      }
    }
  }

  lemma IdsStayBelow(sent: seq<Frame>, nextId: nat)
    ensures IdsIncrease(sent, nextId) ==> IdsIncrease(sent, nextId + 1)
  {
  }

  lemma TriedInv(parse: Parser, s: Slot, a: Attempt, limit: nat, call: Call)
    requires SlotInv(s)
    ensures SlotInv(Tried(parse, s, a, limit, call).after)
  {
    hide Asked, LinkRequest, History;
    FreshIsIdle(a.start);
    var o := Opened(s, a);
    assert SlotInv(o.after);
    if o.result.Ok? {
      AskedInv(parse, o.after, a, limit, call);
    }
  }

  lemma SessionInv(parse: Parser, s: Slot, env: Env, call: Call)
    requires SlotInv(s)
    ensures SlotInv(SessionRequest(parse, s, env, call).after)
  {
    hide Tried, History, Opened, Parked, Sent;
    var t := Refreshed(s, env);
    assert SlotInv(t);
    var u := if !HasParked(t) && call.verb.ToolsList? && call.params.Empty? then t.(pages := map[]) else t;
    assert SlotInv(u);
    TriedInv(parse, u, env.first, env.limit, call);
    TriedInv(parse, Tried(parse, u, env.first, env.limit, call).after, env.second, env.limit, call);
  }

  lemma {:induction false} InvRun(parse: Parser, ss: seq<Slot>, envs: seq<Env>, calls: seq<Call>, n: nat)
    requires IsRun(parse, ss, envs, calls) && n < |ss|
    ensures SlotInv(ss[n])
  {
    hide SlotInv, SessionRequest;
    if n == 0 {
      NewSlotInv(ss[0].fingerprint);
    } else {
      InvRun(parse, ss, envs, calls, n - 1);
      SessionInv(parse, ss[n - 1], envs[n - 1], calls[n - 1]);
    }
  }

  lemma NewSlotInv(fingerprint: string)
    ensures SlotInv(NewSlot(fingerprint))
  {
  }

  /** On one link the request ids increase strictly, as long as the counter has not saturated; the
      request that is parked is the last one written, and only answers have followed it. */
  lemma RequestIdsIncrease(parse: Parser, ss: seq<Slot>, envs: seq<Env>, calls: seq<Call>, n: nat)
    requires IsRun(parse, ss, envs, calls) && n < |ss|
    ensures ss[n].nextId < U64_MAX ==> IdsIncrease(LinkSent(ss[n].link), ss[n].nextId)
    ensures HasParked(ss[n]) ==> LastRequestIs(LinkSent(ss[n].link), ParkedId(ss[n]))
  {
    InvRun(parse, ss, envs, calls, n);
  }

  /** Cached pages never outlive the transport they were read from. */
  lemma PagesNeedOpenLink(parse: Parser, ss: seq<Slot>, envs: seq<Env>, calls: seq<Call>, n: nat)
    requires IsRun(parse, ss, envs, calls) && n < |ss| && ss[n].pages != map[]
    ensures ss[n].link.Some?
  {
    InvRun(parse, ss, envs, calls, n);
  }

  lemma FirstFrame(parse: Parser, s: Slot, a: Attempt, limit: nat, call: Call)
    requires s.link.Some? && !HasParked(s) && Reached(s.link.value, a.alive)
    ensures var u := Asked(parse, s, a, limit, call).after;
            LinkSent(s.link) + [Request(s.nextId, call.verb, call.params)] <= LinkSent(u.link)
  {
    LinkAsks(parse, s.link.value, a.alive, s.nextId, call.verb, call.params, limit, call.answer);
    hide StdioRequest, HttpRequest, Sent, Parked;
  }

  /** Two requests in a row on one link carry the same id exactly when the counter is saturated. */
  lemma SaturatedIdRepeats(parse: Parser, s: Slot, a: Attempt, b: Attempt, limit: nat, call: Call, next: Call)
    requires s.link.Some? && s.nextId <= U64_MAX && !HasParked(s) && Reached(s.link.value, a.alive)
    requires var u := Asked(parse, s, a, limit, call).after;
             u.link.Some? && !HasParked(u) && Reached(u.link.value, b.alive)
    ensures var u := Asked(parse, s, a, limit, call).after;
            var sent := LinkSent(Asked(parse, u, b, limit, next).after.link);
            var i, j := |LinkSent(s.link)|, |LinkSent(u.link)|;
            && i < j < |sent|
            && sent[i] == Request(s.nextId, call.verb, call.params) && sent[j] == Request(u.nextId, next.verb, next.params)
            && (sent[i].id == sent[j].id <==> s.nextId == U64_MAX)
  {
    var u := Asked(parse, s, a, limit, call).after;
    FirstFrame(parse, s, a, limit, call);
    FirstFrame(parse, u, b, limit, next);
    assert u.nextId == SaturatingIncrement(s.nextId);
    hide Asked, LinkSent, HasParked, Reached;
    var sent := LinkSent(Asked(parse, u, b, limit, next).after.link);
    assert sent[..|LinkSent(u.link)|] == LinkSent(u.link);
    assert sent[|LinkSent(s.link)|] == LinkSent(u.link)[|LinkSent(s.link)|];
  }

  /** The reply answers the last request written on the link: only answers have followed it, and no
      earlier request on the link had its id. */
  predicate AnswersLastRequest(sent: seq<Frame>, m: Message) {
    m.id.Some? && LastRequestIs(sent, m.id.value)
  }

  lemma AskedReply(parse: Parser, s: Slot, a: Attempt, limit: nat, call: Call)
    requires SlotInv(s) && s.link.Some?
    ensures var r := Asked(parse, s, a, limit, call);
            r.result.Ok? ==> AnswersLastRequest(LinkSent(r.after.link), r.result.value)
  {
    var l := s.link.value;
    var frame := Request(s.nextId, call.verb, call.params);
    var r := LinkRequest(parse, l, a.alive, s.nextId, call.verb, call.params, limit, call.answer);
    LinkAsks(parse, l, a.alive, s.nextId, call.verb, call.params, limit, call.answer);
    hide LinkRequest, Sent, Parked, LastRequestIs, Reached;
    if r.result.Ok? {
      if Parked(l).None? {
        NextIdIsNew(Sent(l), frame);
        AnswersKeepLast(Sent(l) + [frame], Sent(r.after), s.nextId);
      } else {
        var (id, e) := Parked(l).value;
        assert Sent(r.after)[|Sent(l)|..] == [Answer(e.idText, call.answer.value)];
        AnswersKeepLast(Sent(l), Sent(r.after), id);
      }
    }
  }

  lemma TriedReply(parse: Parser, s: Slot, a: Attempt, limit: nat, call: Call)
    requires SlotInv(s)
    ensures var r := Tried(parse, s, a, limit, call);
            r.result.Ok? ==> AnswersLastRequest(LinkSent(r.after.link), r.result.value)
  {
    hide Asked, LinkRequest, History, AnswersLastRequest, LinkSent;
    OpenedInv(s, a);
    var o := Opened(s, a);
    if o.result.Ok? {
      AskedReply(parse, o.after, a, limit, call);
    }
  }

  lemma OpenedInv(s: Slot, a: Attempt)
    requires SlotInv(s)
    ensures SlotInv(Opened(s, a).after)
  {
    hide History;
    FreshIsIdle(a.start);
  }

  lemma SessionReply(parse: Parser, s: Slot, env: Env, call: Call)
    requires SlotInv(s)
    ensures var r := SessionRequest(parse, s, env, call);
            r.result.Ok? ==>
              || (HasParked(s) && call.verb.ToolsList? && call.params in s.pages && r == Reply(Ok(s.pages[call.params]), s))
              || AnswersLastRequest(LinkSent(r.after.link), r.result.value)
  {
    hide Tried, History, Opened, Parked, Sent, AnswersLastRequest;
    var t := Refreshed(s, env);
    assert SlotInv(t) && (t == s || t.link.None?);
    var u := if !HasParked(t) && call.verb.ToolsList? && call.params.Empty? then t.(pages := map[]) else t;
    assert SlotInv(u);
    TriedInv(parse, u, env.first, env.limit, call);
    TriedReply(parse, u, env.first, env.limit, call);
    TriedReply(parse, Tried(parse, u, env.first, env.limit, call).after, env.second, env.limit, call);
  }

  /** In every run a reply that is not a cached page answers the last request written on its link, first
      time or resumed; below saturation no earlier request there had its id, so a late reply to an
      earlier request is never returned to a later one. */
  lemma LateRepliesAreNotReturned(parse: Parser, ss: seq<Slot>, envs: seq<Env>, calls: seq<Call>, n: nat)
    requires IsRun(parse, ss, envs, calls) && n < |calls|
    requires SessionRequest(parse, ss[n], envs[n], calls[n]).result.Ok?
    requires !(HasParked(ss[n]) && calls[n].verb.ToolsList? && calls[n].params in ss[n].pages)
    ensures var m := SessionRequest(parse, ss[n], envs[n], calls[n]).result.value;
            var sent := LinkSent(ss[n + 1].link);
            && AnswersLastRequest(sent, m)
            && (ss[n + 1].nextId < U64_MAX ==>
                  forall i :: 0 <= i < |sent| && sent[i].Request? && m.id == Some(sent[i].id) ==> OnlyAnswers(sent[i + 1..]))
  {
    InvRun(parse, ss, envs, calls, n);
    InvRun(parse, ss, envs, calls, n + 1);
    SessionReply(parse, ss[n], envs[n], calls[n]);
    hide SessionRequest, HasParked;
  }

  lemma PastGrows(parse: Parser, s: Slot, a: Attempt, limit: nat, call: Call)
    ensures s.past <= Tried(parse, s, a, limit, call).after.past
  {
    hide LinkRequest, FreshLink;
  }

  /** A request for a changed server definition closes the slot first: nothing more is written to the old
      transport, and its pages and parked request are gone. */
  lemma ChangedServerGetsNewTransport(parse: Parser, s: Slot, env: Env, call: Call)
    requires env.admitted && env.current && env.fingerprint != s.fingerprint
    ensures var t := SessionRequest(parse, s, env, call).after;
            t.closes > s.closes && History(s) <= t.past && t.fingerprint == env.fingerprint
  {
    hide Tried, Opened, History;
    var u := Refreshed(s, env).(pages := map[]);
    assert Refreshed(s, env) == u;
    var r := Tried(parse, u, env.first, env.limit, call);
    PastGrows(parse, u, env.first, env.limit, call);
    PastGrows(parse, r.after, env.second, env.limit, call);
    ClosesGrow(parse, u, env.first, env.limit, call);
    ClosesGrow(parse, r.after, env.second, env.limit, call);
    FingerprintKept(parse, u, env.first, env.limit, call);
    FingerprintKept(parse, r.after, env.second, env.limit, call);
    RetiredKeepsPast(r.after);
    RetiredKeepsPast(Tried(parse, r.after, env.second, env.limit, call).after);
  }

  /** A changed server is met as by a slot with nothing open, nothing cached and the first request id. */
  lemma ChangedServerStartsOver(parse: Parser, s: Slot, env: Env, call: Call)
    requires env.admitted && env.current && env.fingerprint != s.fingerprint
    ensures SessionRequest(parse, s, env, call)
            == SessionRequest(parse, Slot(env.fingerprint, 2, None, map[], History(s), s.closes + 1), env, call)
  {
    hide Attempts, History;
  }

  lemma RetiredKeepsPast(s: Slot)
    ensures s.past <= Retired(s).past && Retired(s).fingerprint == s.fingerprint
  {
  }

  lemma FingerprintKept(parse: Parser, s: Slot, a: Attempt, limit: nat, call: Call)
    ensures Tried(parse, s, a, limit, call).after.fingerprint == s.fingerprint
  {
    hide LinkRequest, History;
  }

  // ----- A chain of parks and resumes -----

  /** Slots visited by a tool call that parked and by the calls made while it stayed parked, with the
      slot open throughout. */
  ghost predicate ParkedThroughout(parse: Parser, ss: seq<Slot>, envs: seq<Env>, calls: seq<Call>) {
    && Visits(parse, ss, envs, calls) && |calls| >= 1
    && ss[|calls|].closes == ss[0].closes
    && !HasParked(ss[0]) && calls[0].verb.ToolsCall? && (forall i :: 1 <= i < |calls| ==> HasParked(ss[i]))
  }

  lemma {:induction false} ClosesAlong(
    parse: Parser, ss: seq<Slot>, envs: seq<Env>, calls: seq<Call>, m: nat, n: nat)
    requires Visits(parse, ss, envs, calls) && m <= n < |ss|
    ensures ss[m].closes <= ss[n].closes
  {
    hide SessionRequest;
    if m < n {
      ClosesAlong(parse, ss, envs, calls, m, n - 1);
      SessionClosesGrow(parse, ss[n - 1], envs[n - 1], calls[n - 1]);
    }
  }

  /** A call that parks on an open idle slot wrote its one request frame. */
  lemma ParkingWritesOneRequest(parse: Parser, s: Slot, env: Env, call: Call)
    requires !HasParked(s) && call.verb.ToolsCall?
    requires var t := SessionRequest(parse, s, env, call).after; t.closes == s.closes && HasParked(t)
    ensures var t := SessionRequest(parse, s, env, call).after;
            && History(s) <= History(t)
            && CallFrames(Added(s, t)) == 1 && RequestFrames(Added(s, t)) == 1 && ParkedId(t) == s.nextId
  {
    OpenRequestIsOneExchange(parse, s, env, call);
    hide SessionRequest;
    var o := Opened(s, env.first);
    OpenedHistory(s, env.first);
    var l := o.after.link.value;
    var r := LinkRequest(parse, l, env.first.alive, s.nextId, call.verb, call.params, env.limit, call.answer);
    LinkAsks(parse, l, env.first.alive, s.nextId, call.verb, call.params, env.limit, call.answer);
    hide LinkRequest, Sent, Parked;
    ParkingFrames(Sent(l), r, l, env.first.alive, Request(s.nextId, call.verb, call.params), call.answer);
    var t := SessionRequest(parse, s, env, call).after;
    assert History(t) == o.after.past + Sent(r.after);
    assert (o.after.past + Sent(r.after))[|o.after.past + Sent(l)|..] == Sent(r.after)[|Sent(l)|..];
  }

  lemma ParkingFrames(before: seq<Frame>, r: Reply<Link>, l: Link, alive: bool, frame: Frame, answer: Option<string>)
    requires before == Sent(l) && frame.Request? && RequestContract(l, alive, r, frame, answer)
    requires Parked(l).None? && Parked(r.after).Some?
    ensures before <= Sent(r.after) && Parked(r.after).value.0 == frame.id
    ensures var added := Sent(r.after)[|before|..];
            RequestFrames(added) == 1 && CallFrames(added) == (if frame.verb.ToolsCall? then 1 else 0)
  {
    hide Sent, Parked;
    var added := Sent(r.after)[|before|..];
    var rest := Sent(r.after)[|before + [frame]|..];
    assert added == [frame] + rest;
    FramesConcat([frame], rest);
    AnswersAreNoRequests(rest);
    assert [frame][..0] == [];
  }

  lemma ChainShrinks(parse: Parser, ss: seq<Slot>, envs: seq<Env>, calls: seq<Call>)
    requires ParkedThroughout(parse, ss, envs, calls) && |calls| > 1
    ensures var n := |calls| - 1;
            ParkedThroughout(parse, ss[..n + 1], envs[..n], calls[..n]) && ss[n].closes == ss[n + 1].closes
  {
    hide SessionRequest, HasParked;
    var n := |calls| - 1;
    ClosesAlong(parse, ss, envs, calls, 0, n);
    ClosesAlong(parse, ss, envs, calls, n, |calls|);
  }

  /** While the slot is not closed, a tool call and all the parks and resumes that follow it write one
      tools/call frame in total. */
  lemma {:induction false} ChainWritesOneCall(parse: Parser, ss: seq<Slot>, envs: seq<Env>, calls: seq<Call>)
    requires ParkedThroughout(parse, ss, envs, calls) && HasParked(ss[1])
    ensures var last := ss[|calls|];
            && History(ss[0]) <= History(last)
            && CallFrames(Added(ss[0], last)) == 1 && RequestFrames(Added(ss[0], last)) == 1
            && (HasParked(last) ==> ParkedId(last) == ss[0].nextId)
    decreases |calls|
  {
    hide SessionRequest, HasParked, History, CallFrames, RequestFrames;
    var n := |calls| - 1;
    if n == 0 {
      ParkingWritesOneRequest(parse, ss[0], envs[0], calls[0]);
    } else {
      ChainShrinks(parse, ss, envs, calls);
      assert ss[..n + 1][1] == ss[1] && ss[..n + 1][n] == ss[n];
      ChainWritesOneCall(parse, ss[..n + 1], envs[..n], calls[..n]);
      if envs[n].admitted {
        OpenRequestIsOneExchange(parse, ss[n], envs[n], calls[n]);
      }
      ResumeWritesOnlyTheAnswer(parse, ss[n], envs[n], calls[n]);
      AddedJoins(ss[0], ss[n], ss[n + 1]);
      FramesConcat(Added(ss[0], ss[n]), Added(ss[n], ss[n + 1]));
      OneAnswerIsNoRequest(Added(ss[n], ss[n + 1]));
    }
  }

  lemma OneAnswerIsNoRequest(frames: seq<Frame>)
    ensures frames == [] || (|frames| == 1 && frames[0].Answer?) ==> CallFrames(frames) == 0 && RequestFrames(frames) == 0
  {
    if frames == [] || (|frames| == 1 && frames[0].Answer?) {
      AnswersAreNoRequests(frames);
    }
  }

  // ----- The discovery cache -----

  /** Tool calls, and listings made while a request is parked, leave the pages of an open slot alone. */
  lemma CallsKeepPages(parse: Parser, s: Slot, env: Env, call: Call)
    requires SessionRequest(parse, s, env, call).after.closes == s.closes
    requires call.verb.ToolsCall? || (HasParked(s) && call.answer.None?)
    ensures SessionRequest(parse, s, env, call).after.pages == s.pages
  {
    if env.admitted {
      OpenRequestIsOneExchange(parse, s, env, call);
      hide SessionRequest;
      if call.verb.ToolsCall? {
        CallTryKeepsPages(parse, s, env.first, env.limit, call);
      } else if call.params !in s.pages {
        ParkedTry(parse, s, env.first, env.limit, call);
        ParkedListKeepsPages(parse, s, env.first, env.limit, call);
      }
    }
  }

  lemma CallTryKeepsPages(parse: Parser, s: Slot, a: Attempt, limit: nat, call: Call)
    requires call.verb.ToolsCall?
    requires var r := Tried(parse, s, a, limit, call);
             r.after.closes == s.closes && (Opened(s, a).result.Ok? ==> r.result != Err(Transport))
    ensures Tried(parse, s, a, limit, call).after.pages == s.pages
  {
    hide LinkRequest, History;
  }

  lemma ParkedListKeepsPages(parse: Parser, s: Slot, a: Attempt, limit: nat, call: Call)
    requires var r := Tried(parse, s, a, limit, call);
             && r.after.closes == s.closes && (Opened(s, a).result.Ok? ==> r.result != Err(Transport))
             && r.result.Err?
    ensures Tried(parse, s, a, limit, call).after.pages == s.pages
  {
    hide LinkRequest, History;
  }

  /** While a request is parked, a cached page is replayed: the slot, its frames and the parked request
      stay exactly as they are. */
  lemma ParkedListingIsReplayed(parse: Parser, s: Slot, env: Env, params: Params)
    requires HasParked(s) && params in s.pages
    requires env.admitted && env.current && env.fingerprint == s.fingerprint
    ensures SessionRequest(parse, s, env, Call(ToolsList, params, None)) == Reply(Ok(s.pages[params]), s)
  {
  }

  /** A listing that succeeds is in the cache afterwards; on an open slot only a fresh round, which asks
      without a cursor, drops other pages. */
  lemma ListingIsCached(parse: Parser, s: Slot, env: Env, params: Params)
    requires SessionRequest(parse, s, env, Call(ToolsList, params, None)).result.Ok?
    ensures var r := SessionRequest(parse, s, env, Call(ToolsList, params, None));
            && params in r.after.pages && r.after.pages[params] == r.result.value
            && (r.after.closes == s.closes && !params.Empty? ==>
                  forall p :: p in s.pages && p != params ==> p in r.after.pages && r.after.pages[p] == s.pages[p])
  {
    hide LinkRequest, History;
  }
}
