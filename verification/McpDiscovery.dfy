/** Managed tool discovery: bounded pagination over a session slot (src-tauri/src/agent_mcp.rs). */
module McpDiscovery {
  import opened Prelude
  import opened McpReader
  import opened McpTransport
  import opened McpSession

  const MAX_PAGES: nat := 20
  const MAX_TOOLS: nat := 512
  const MAX_BYTES: nat := 4 * 1024 * 1024
  const MAX_CURSOR_CHARS: nat := 2048

  type Fetch = Result<Message, Failure>

  type Tools = Result<seq<Tool>, Failure>

  /** An empty cursor ends the listing like a missing one. */
  function NextCursor(page: Page): Option<string> {
    if page.cursor == Some("") then None else page.cursor
  }

  function PageOf(fetch: Fetch): Result<Page, Failure> {
    match fetch
    case Err(e) => Err(e)
    case Ok(m) => if m.page.Some? then Ok(m.page.value) else Err(Protocol)
  }

  datatype Progress = Progress(tools: seq<Tool>, bytes: nat, seen: set<string>)

  const NOTHING := Progress([], 0, {})

  datatype Absorbed = Finished(result: Tools) | Follow(cursor: string, progress: Progress)

  /** One turn of the loop. */
  function Absorb(p: Progress, fetch: Fetch): Absorbed {
    match PageOf(fetch)
    case Err(e) => Finished(Err(e))
    case Ok(page) =>
      if |p.tools| + |page.tools| > MAX_TOOLS || p.bytes + page.size > MAX_BYTES then Finished(Err(Protocol))
      else
        match NextCursor(page)
        case None => Finished(Ok(p.tools + page.tools))
        case Some(cursor) =>
          if |cursor| > MAX_CURSOR_CHARS || cursor in p.seen then Finished(Err(Protocol))
          else Follow(cursor, Progress(p.tools + page.tools, p.bytes + page.size, p.seen + {cursor}))
  }

  /** Discovery on a slot from page `n` on: the result and the slot it leaves. */
  function DiscoverOn(parse: Parser, s: Slot, envs: seq<Env>, n: nat, params: Params, p: Progress): (Tools, Slot)
    requires |envs| == MAX_PAGES && n <= MAX_PAGES
    decreases MAX_PAGES - n
  {
    if n == MAX_PAGES then (Err(Protocol), s)
    else
      var r := SessionRequest(parse, s, envs[n], Call(ToolsList, params, None));
      match Absorb(p, r.result)
      case Finished(result) => (result, r.after)
      case Follow(cursor, progress) => DiscoverOn(parse, r.after, envs, n + 1, Cursor(cursor), progress)
  }

  method DiscoverManagedTools(parse: Parser, slot: McpSessionSlot, envs: seq<Env>) returns (result: Tools)
    requires slot.Valid() && |envs| == MAX_PAGES
    modifies slot, slot.stdio, slot.http
    ensures slot.Valid()
    ensures DiscoverOn(parse, old(slot.View()), envs, 0, Empty, NOTHING) == (result, slot.View())
  {
    hide SessionRequest;
    var tools: seq<Tool> := [];
    var totalBytes: nat := 0;
    var nextCursor: Option<string> := None;
    var seen: set<string> := {};
    for n := 0 to MAX_PAGES
      invariant slot.Valid()
      invariant slot.stdio == null || slot.stdio == old(slot.stdio) || fresh(slot.stdio)
      invariant slot.http == null || slot.http == old(slot.http) || fresh(slot.http)
      invariant DiscoverOn(parse, old(slot.View()), envs, 0, Empty, NOTHING)
                == DiscoverOn(parse, slot.View(), envs, n, if nextCursor.Some? then Cursor(nextCursor.value) else Empty,
                              Progress(tools, totalBytes, seen))
    {
      var params := if nextCursor.Some? then Cursor(nextCursor.value) else Empty;
      var fetched := slot.Request(parse, envs[n], Call(ToolsList, params, None));
      if fetched.Err? {
        return Err(fetched.error);
      }
      if fetched.value.page.None? {
        return Err(Protocol);
      }
      var page := fetched.value.page.value;
      if |tools| + |page.tools| > MAX_TOOLS {
        return Err(Protocol);
      }
      totalBytes := totalBytes + page.size;
      if totalBytes > MAX_BYTES {
        return Err(Protocol);
      }
      tools := tools + page.tools;
      var next := NextCursor(page);
      if next.None? {
        return Ok(tools);
      }
      if |next.value| > MAX_CURSOR_CHARS || next.value in seen {
        return Err(Protocol);
      }
      seen := seen + {next.value};
      nextCursor := next;
    }
    result := Err(Protocol);
  }

  // ----- Discovery over a list of fetched results -----

  /** The same loop over results already fetched; a missing one counts as a lost transport. */
  function Discover(fetches: seq<Fetch>, n: nat, p: Progress): Tools
    requires n <= MAX_PAGES
    decreases MAX_PAGES - n
  {
    if n == MAX_PAGES then Err(Protocol)
    else
      match Absorb(p, FetchAt(fetches, n))
      case Finished(result) => result
      case Follow(_, progress) => Discover(fetches, n + 1, progress)
  }

  function FetchAt(fetches: seq<Fetch>, n: nat): Fetch {
    if n < |fetches| then fetches[n] else Err(Transport)
  }

  /** What is asked for page `n`: nothing in particular first, then the cursor of the page before. */
  function ParamsAt(fetches: seq<Fetch>, n: nat): Params {
    if n == 0 then Empty
    else
      match PageOf(FetchAt(fetches, n - 1))
      case Ok(page) => if NextCursor(page).Some? then Cursor(NextCursor(page).value) else Empty
      case Err(_) => Empty
  }

  // ----- What a successful discovery is -----

  predicate IsPage(fetches: seq<Fetch>, n: nat) {
    n < |fetches| && fetches[n].Ok? && fetches[n].value.page.Some?
  }

  function PageAt(fetches: seq<Fetch>, n: nat): Page
    requires IsPage(fetches, n)
  {
    fetches[n].value.page.value
  }

  /** The page names a next one. */
  predicate GoesOn(page: Page) {
    page.cursor.Some? && page.cursor.value != ""
  }

  function NextOf(page: Page): string
    requires GoesOn(page)
  {
    page.cursor.value
  }

  /** The first `n` results are pages and each, but perhaps the last, names the next one. */
  predicate Chained(fetches: seq<Fetch>, n: nat) {
    && (forall i :: 0 <= i < n ==> IsPage(fetches, i))
    && (forall i :: 0 <= i < n - 1 ==> GoesOn(PageAt(fetches, i)))
  }

  function ToolsUpTo(fetches: seq<Fetch>, n: nat): seq<Tool>
    requires forall i :: 0 <= i < n ==> IsPage(fetches, i)
  {
    if n == 0 then [] else ToolsUpTo(fetches, n - 1) + PageAt(fetches, n - 1).tools
  }

  function BytesUpTo(fetches: seq<Fetch>, n: nat): nat
    requires forall i :: 0 <= i < n ==> IsPage(fetches, i)
  {
    if n == 0 then 0 else BytesUpTo(fetches, n - 1) + PageAt(fetches, n - 1).size
  }

  /** The cursors followed are bounded and pairwise distinct. */
  predicate CursorsGood(fetches: seq<Fetch>, n: nat)
    requires forall i :: 0 <= i < n ==> IsPage(fetches, i) && GoesOn(PageAt(fetches, i))
  {
    && (forall i :: 0 <= i < n ==> |NextOf(PageAt(fetches, i))| <= 2_048)
    && (forall i, j :: 0 <= i < j < n ==> NextOf(PageAt(fetches, i)) != NextOf(PageAt(fetches, j)))
  }

  /** `n` pages, each reached by the cursor of the one before, the last without a cursor, within every
      limit. */
  predicate Complete(fetches: seq<Fetch>, n: nat) {
    && 1 <= n <= 20 && Chained(fetches, n)
    && !GoesOn(PageAt(fetches, n - 1))
    && CursorsGood(fetches, n - 1)
    && |ToolsUpTo(fetches, n)| <= 512 && BytesUpTo(fetches, n) <= 4_194_304
  }

  /** `n` pages absorbed, all naming a next one. */
  ghost predicate Under(fetches: seq<Fetch>, n: nat, p: Progress) {
    && (forall i :: 0 <= i < n ==> IsPage(fetches, i) && GoesOn(PageAt(fetches, i)))
    && CursorsGood(fetches, n)
    && p.tools == ToolsUpTo(fetches, n) && p.bytes == BytesUpTo(fetches, n)
    && (forall c :: c in p.seen <==> exists i :: 0 <= i < n && NextOf(PageAt(fetches, i)) == c)
    && |p.tools| <= MAX_TOOLS && p.bytes <= MAX_BYTES
  }

  lemma {:induction false} LimitsAreMonotone(fetches: seq<Fetch>, n: nat, m: nat)
    requires n <= m && forall i :: 0 <= i < m ==> IsPage(fetches, i)
    ensures |ToolsUpTo(fetches, n)| <= |ToolsUpTo(fetches, m)| && BytesUpTo(fetches, n) <= BytesUpTo(fetches, m)
  {
    if n < m {
      LimitsAreMonotone(fetches, n, m - 1);
    }
  }

  lemma FetchedPage(fetches: seq<Fetch>, n: nat)
    ensures IsPage(fetches, n) <==> PageOf(FetchAt(fetches, n)).Ok?
    ensures IsPage(fetches, n) ==>
              var page := PageAt(fetches, n);
              && PageOf(FetchAt(fetches, n)) == Ok(page)
              && NextCursor(page) == if GoesOn(page) then Some(NextOf(page)) else None
  {
  }

  lemma AbsorbGoesOn(fetches: seq<Fetch>, n: nat, p: Progress)
    requires Under(fetches, n, p) && Absorb(p, FetchAt(fetches, n)).Follow?
    ensures Under(fetches, n + 1, Absorb(p, FetchAt(fetches, n)).progress)
  {
    var q := Absorb(p, FetchAt(fetches, n)).progress;
    FetchedPage(fetches, n);
    hide PageOf, FetchAt, NextCursor, IsPage, PageAt, GoesOn;
    forall c ensures c in q.seen <==> exists i :: 0 <= i < n + 1 && NextOf(PageAt(fetches, i)) == c {
      if c in p.seen {
        var i :| 0 <= i < n && NextOf(PageAt(fetches, i)) == c;
        assert 0 <= i < n + 1;
      }
      assert NextOf(PageAt(fetches, n)) in q.seen;
    }
  }

  /** A page without a cursor ends the discovery well exactly when the whole is complete. */
  lemma AbsorbFinishes(fetches: seq<Fetch>, n: nat, p: Progress)
    requires Under(fetches, n, p) && n < MAX_PAGES && Absorb(p, FetchAt(fetches, n)).Finished?
    ensures Absorb(p, FetchAt(fetches, n)).result.Ok? <==> Complete(fetches, n + 1)
    ensures Complete(fetches, n + 1) ==> Absorb(p, FetchAt(fetches, n)).result == Ok(ToolsUpTo(fetches, n + 1))
  {
    FetchedPage(fetches, n);
    hide PageOf, FetchAt, NextCursor, IsPage, PageAt, GoesOn;
    if IsPage(fetches, n) {
      assert forall i :: 0 <= i < n + 1 ==> IsPage(fetches, i);
      assert ToolsUpTo(fetches, n + 1) == ToolsUpTo(fetches, n) + PageAt(fetches, n).tools;
      assert BytesUpTo(fetches, n + 1) == BytesUpTo(fetches, n) + PageAt(fetches, n).size;
      assert Chained(fetches, n + 1);
    }
  }

  lemma CompleteGoesOn(fetches: seq<Fetch>, n: nat, p: Progress, m: nat)
    requires Under(fetches, n, p) && Complete(fetches, m) && n < m
    ensures m == n + 1 || Absorb(p, FetchAt(fetches, n)).Follow?
  {
    if m > n + 1 {
      LimitsAreMonotone(fetches, n + 1, m);
      assert IsPage(fetches, n) && GoesOn(PageAt(fetches, n));
      FetchedPage(fetches, n);
      hide PageOf, FetchAt, NextCursor, IsPage, PageAt, GoesOn;
      var cursor := NextOf(PageAt(fetches, n));
      assert cursor !in p.seen;
    }
  }

  lemma {:induction false} DiscoverMeans(fetches: seq<Fetch>, n: nat, p: Progress, tools: seq<Tool>)
    requires n <= MAX_PAGES && Under(fetches, n, p)
    ensures Discover(fetches, n, p) == Ok(tools)
            <==> exists m :: n < m && Complete(fetches, m) && tools == ToolsUpTo(fetches, m)
    decreases MAX_PAGES - n
  {
    hide Under, Absorb, FetchAt, ToolsUpTo;
    if n < MAX_PAGES {
      match Absorb(p, FetchAt(fetches, n)) {
        case Follow(_, q) =>
          AbsorbGoesOn(fetches, n, p);
          DiscoverMeans(fetches, n + 1, q, tools);
          FollowIsNotTheEnd(fetches, n, p);
        case Finished(result) =>
          AbsorbFinishes(fetches, n, p);
          forall m | n < m && Complete(fetches, m) ensures m == n + 1 {
            CompleteGoesOn(fetches, n, p, m);
          }
      }
    }
  }

  lemma FollowIsNotTheEnd(fetches: seq<Fetch>, n: nat, p: Progress)
    requires Absorb(p, FetchAt(fetches, n)).Follow?
    ensures !Complete(fetches, n + 1)
  {
    hide ToolsUpTo, BytesUpTo;
  }

  /** Managed discovery succeeds exactly when following cursors from the start reaches, within 20 pages,
      one without a cursor, with all cursors bounded and distinct, at most 512 tools and at most 4 MiB
      of encoded pages; the tools are those of the pages in order. */
  lemma DiscoverySucceedsExactlyWhenComplete(fetches: seq<Fetch>, tools: seq<Tool>)
    ensures Discover(fetches, 0, NOTHING) == Ok(tools)
            <==> exists n :: Complete(fetches, n) && tools == ToolsUpTo(fetches, n)
  {
    DiscoverMeans(fetches, 0, NOTHING, tools);
    forall n | Complete(fetches, n) ensures 0 < n {
    }
  }

  /** The first `n` results are pages that keep the discovery going. */
  predicate GoesThrough(fetches: seq<Fetch>, n: nat) {
    && (forall i :: 0 <= i < n ==> IsPage(fetches, i) && GoesOn(PageAt(fetches, i)))
    && CursorsGood(fetches, n)
    && |ToolsUpTo(fetches, n)| <= 512 && BytesUpTo(fetches, n) <= 4_194_304
  }

  lemma {:induction false} DiscoveryGetsTo(fetches: seq<Fetch>, n: nat) returns (p: Progress)
    requires n <= 20 && GoesThrough(fetches, n)
    ensures Under(fetches, n, p) && Discover(fetches, 0, NOTHING) == Discover(fetches, n, p)
  {
    if n == 0 {
      p := NOTHING;
    } else {
      LimitsAreMonotone(fetches, n - 1, n);
      var q := DiscoveryGetsTo(fetches, n - 1);
      FetchedPage(fetches, n - 1);
      NextIsNew(fetches, n - 1, q);
      hide PageOf, FetchAt, NextCursor, IsPage, PageAt, GoesOn, Under, CursorsGood;
      AbsorbGoesOn(fetches, n - 1, q);
      p := Absorb(q, FetchAt(fetches, n - 1)).progress;
    }
  }

  lemma NextIsNew(fetches: seq<Fetch>, n: nat, p: Progress)
    requires Under(fetches, n, p) && GoesThrough(fetches, n + 1)
    ensures Absorb(p, FetchAt(fetches, n)).Follow?
  {
    FetchedPage(fetches, n);
    assert IsPage(fetches, n) && GoesOn(PageAt(fetches, n));
    hide PageOf, FetchAt, NextCursor, IsPage, PageAt, GoesOn;
    var cursor := NextOf(PageAt(fetches, n));
    assert cursor !in p.seen;
    assert ToolsUpTo(fetches, n + 1) == ToolsUpTo(fetches, n) + PageAt(fetches, n).tools;
    assert BytesUpTo(fetches, n + 1) == BytesUpTo(fetches, n) + PageAt(fetches, n).size;
  }

  /** What a page does wrong: it brings too much, or its cursor is too long or was followed before. */
  predicate Oversteps(fetches: seq<Fetch>, n: nat)
    requires GoesThrough(fetches, n) && IsPage(fetches, n)
  {
    var page := PageAt(fetches, n);
    || |ToolsUpTo(fetches, n)| + |page.tools| > 512 || BytesUpTo(fetches, n) + page.size > 4_194_304
    || (GoesOn(page) && (|NextOf(page)| > 2_048
                         || exists i :: 0 <= i < n && NextOf(PageAt(fetches, i)) == NextOf(page)))
  }

  /** A discovery fails with the first failed request's own failure, and as a protocol error for a result
      without a page, a page that oversteps a limit, and a 21st page. */
  lemma DiscoveryFailsWith(fetches: seq<Fetch>, n: nat)
    requires n <= 20 && GoesThrough(fetches, n)
    ensures n == 20 ==> Discover(fetches, 0, NOTHING) == Err(Protocol)
    ensures n < 20 && n < |fetches| && fetches[n].Err? ==>
              Discover(fetches, 0, NOTHING) == Err(fetches[n].error)
    ensures n < 20 && n < |fetches| && fetches[n].Ok? && (IsPage(fetches, n) ==> Oversteps(fetches, n)) ==>
              Discover(fetches, 0, NOTHING) == Err(Protocol)
  {
    var p := DiscoveryGetsTo(fetches, n);
    FetchedPage(fetches, n);
    if n < 20 && n < |fetches| && IsPage(fetches, n) && Oversteps(fetches, n) {
      hide PageOf, FetchAt, NextCursor, IsPage, PageAt, GoesOn;
      var page := PageAt(fetches, n);
      if GoesOn(page) && exists i :: 0 <= i < n && NextOf(PageAt(fetches, i)) == NextOf(page) {
        assert NextOf(page) in p.seen;
      }
    }
  }

  // ----- Discovery on a slot follows the cursors -----

  /** The loop asks for exactly these pages, from page `n` on: it goes on after each but the last. */
  predicate Asks(fetches: seq<Fetch>, n: nat, p: Progress)
    decreases MAX_PAGES - n
  {
    && n < |fetches| && n < MAX_PAGES
    && match Absorb(p, fetches[n])
       case Finished(_) => |fetches| == n + 1
       case Follow(_, q) => if n + 1 == MAX_PAGES then |fetches| == MAX_PAGES else Asks(fetches, n + 1, q)
  }

  lemma ParamsFollow(all: seq<Fetch>, n: nat, p: Progress)
    requires Absorb(p, FetchAt(all, n)).Follow?
    ensures ParamsAt(all, n + 1) == Cursor(Absorb(p, FetchAt(all, n)).cursor)
  {
  }

  lemma {:induction false} RoundFrom(parse: Parser, s: Slot, envs: seq<Env>, done: seq<Fetch>, p: Progress)
    returns (all: seq<Fetch>, ss: seq<Slot>)
    requires |envs| == MAX_PAGES && |done| < MAX_PAGES
    ensures |done| < |all| <= MAX_PAGES && all[..|done|] == done && |ss| == |all| - |done| + 1 && ss[0] == s
    ensures forall i :: |done| <= i < |all| ==>
              SessionRequest(parse, ss[i - |done|], envs[i], Call(ToolsList, ParamsAt(all, i), None))
              == Reply(all[i], ss[i - |done| + 1])
    ensures DiscoverOn(parse, s, envs, |done|, ParamsAt(done, |done|), p)
            == (Discover(all, |done|, p), ss[|all| - |done|])
    ensures Asks(all, |done|, p)
    decreases MAX_PAGES - |done|
  {
    hide SessionRequest, Absorb, PageOf, NextCursor;
    var n := |done|;
    var r := SessionRequest(parse, s, envs[n], Call(ToolsList, ParamsAt(done, n), None));
    var grown := done + [r.result];
    assert grown[..n] == done && FetchAt(grown, n) == r.result;
    assert ParamsAt(grown, n) == ParamsAt(done, n);
    if Absorb(p, r.result).Follow? && n + 1 < MAX_PAGES {
      ParamsFollow(grown, n, p);
      var more;
      all, more := RoundFrom(parse, r.after, envs, grown, Absorb(p, r.result).progress);
      assert all[n] == all[..n + 1][n] == r.result;
      assert all[..n] == all[..n + 1][..n];
      ss := [s] + more;
      ParamsAgree(all, grown, n);
    } else {
      all, ss := grown, [s, r.after];
    }
  }

  lemma ParamsAgree(a: seq<Fetch>, b: seq<Fetch>, n: nat)
    requires n <= |a| && n <= |b| && a[..n] == b[..n]
    ensures ParamsAt(a, n) == ParamsAt(b, n)
  {
    if n > 0 {
      assert a[..n][n - 1] == b[..n][n - 1];
    }
  }

  /** A discovery makes at most 20 requests, the first without a cursor and each later one with the
      cursor of the page before, for as long as there is a next page to follow, and succeeds exactly
      when those results are complete. */
  lemma DiscoveryRound(parse: Parser, s: Slot, envs: seq<Env>, tools: seq<Tool>)
    returns (fetches: seq<Fetch>, ss: seq<Slot>)
    requires |envs| == MAX_PAGES
    ensures 1 <= |fetches| <= MAX_PAGES && |ss| == |fetches| + 1 && ss[0] == s
    ensures forall i :: 0 <= i < |fetches| ==>
              SessionRequest(parse, ss[i], envs[i], Call(ToolsList, ParamsAt(fetches, i), None))
              == Reply(fetches[i], ss[i + 1])
    ensures Asks(fetches, 0, NOTHING)
    ensures DiscoverOn(parse, s, envs, 0, Empty, NOTHING).1 == ss[|fetches|]
    ensures DiscoverOn(parse, s, envs, 0, Empty, NOTHING).0 == Ok(tools)
            <==> exists n :: Complete(fetches, n) && tools == ToolsUpTo(fetches, n)
  {
    hide SessionRequest, DiscoverOn, Discover, Complete, ToolsUpTo, Asks;
    fetches, ss := RoundFrom(parse, s, envs, [], NOTHING);
    DiscoverySucceedsExactlyWhenComplete(fetches, tools);
  }

  // ----- Agreement with the cache -----

  /** A discovery round among the calls made on a slot: its requests are the calls number `at[0]`, `at[1]`
      and so on, whatever other calls fall between them. */
  predicate IsRound(
    parse: Parser, ss: seq<Slot>, envs: seq<Env>, calls: seq<Call>, at: seq<nat>, fetches: seq<Fetch>)
    requires |ss| == |calls| + 1 && |envs| == |calls|
  {
    && |at| == |fetches| && Asks(fetches, 0, NOTHING)
    && (forall i, j :: 0 <= i < j < |at| ==> at[i] < at[j])
    && (forall i :: 0 <= i < |at| ==>
          && at[i] < |calls| && calls[at[i]] == Call(ToolsList, ParamsAt(fetches, i), None)
          && fetches[i] == SessionRequest(parse, ss[at[i]], envs[at[i]], calls[at[i]]).result)
  }

  /** A tool call, or a listing while a request is parked. */
  predicate Aside(s: Slot, call: Call) {
    call.verb.ToolsCall? || (HasParked(s) && call.answer.None?)
  }

  lemma {:induction false} AsksUntilComplete(fetches: seq<Fetch>, n: nat, p: Progress, m: nat)
    requires Asks(fetches, n, p) && Under(fetches, n, p) && n < m && Complete(fetches, m)
    ensures m == |fetches|
    decreases MAX_PAGES - n
  {
    CompleteGoesOn(fetches, n, p, m);
    if Absorb(p, fetches[n]).Follow? {
      FollowIsNotTheEnd(fetches, n, p);
      AbsorbGoesOn(fetches, n, p);
      hide Under, Complete, Absorb;
      AtMostTwentyPages(fetches, m);
      AsksUntilComplete(fetches, n + 1, Absorb(p, fetches[n]).progress, m);
    }
  }

  lemma AtMostTwentyPages(fetches: seq<Fetch>, m: nat)
    requires Complete(fetches, m)
    ensures m <= MAX_PAGES
  {
  }

  /** A round that succeeded got a page each time and asked for no page twice. */
  lemma RoundIsComplete(fetches: seq<Fetch>, tools: seq<Tool>)
    requires Asks(fetches, 0, NOTHING) && Discover(fetches, 0, NOTHING) == Ok(tools)
    ensures Complete(fetches, |fetches|)
  {
    hide Asks, Discover;
    DiscoverySucceedsExactlyWhenComplete(fetches, tools);
    var m :| Complete(fetches, m) && tools == ToolsUpTo(fetches, m);
    AsksUntilComplete(fetches, 0, NOTHING, m);
  }

  lemma PagesAskedFor(fetches: seq<Fetch>, i: nat, j: nat)
    requires Complete(fetches, |fetches|) && i < j < |fetches|
    ensures ParamsAt(fetches, j).Cursor? && ParamsAt(fetches, i) != ParamsAt(fetches, j)
  {
    assert IsPage(fetches, j - 1) && GoesOn(PageAt(fetches, j - 1));
    if i > 0 {
      assert IsPage(fetches, i - 1) && GoesOn(PageAt(fetches, i - 1));
    }
  }

  /** The first `m` pages of the round are in the cache. */
  predicate HasCached(s: Slot, fetches: seq<Fetch>, m: nat)
    requires m <= |fetches|
  {
    forall i :: 0 <= i < m ==>
      fetches[i].Ok? && ParamsAt(fetches, i) in s.pages && s.pages[ParamsAt(fetches, i)] == fetches[i].value
  }

  lemma PageIsCached(parse: Parser, s: Slot, env: Env, fetches: seq<Fetch>, m: nat)
    requires Complete(fetches, |fetches|) && m < |fetches|
    requires m > 0 ==> HasCached(s, fetches, m)
    requires var r := SessionRequest(parse, s, env, Call(ToolsList, ParamsAt(fetches, m), None));
             fetches[m] == r.result && (m > 0 ==> r.after.closes == s.closes)
    ensures HasCached(SessionRequest(parse, s, env, Call(ToolsList, ParamsAt(fetches, m), None)).after, fetches, m + 1)
  {
    assert IsPage(fetches, m);
    hide SessionRequest, Complete, ParamsAt, IsPage, HasCached;
    ListingIsCached(parse, s, env, ParamsAt(fetches, m));
    forall i | 0 <= i < m ensures ParamsAt(fetches, m).Cursor? && ParamsAt(fetches, i) != ParamsAt(fetches, m) {
      PagesAskedFor(fetches, i, m);
    }
    CachedOn(s, SessionRequest(parse, s, env, Call(ToolsList, ParamsAt(fetches, m), None)).after, fetches, m);
  }

  lemma CachedOn(s: Slot, t: Slot, fetches: seq<Fetch>, m: nat)
    requires m < |fetches| && fetches[m].Ok? && (m > 0 ==> HasCached(s, fetches, m))
    requires ParamsAt(fetches, m) in t.pages && t.pages[ParamsAt(fetches, m)] == fetches[m].value
    requires m > 0 ==>
               forall p :: p in s.pages && p != ParamsAt(fetches, m) ==> p in t.pages && t.pages[p] == s.pages[p]
    requires forall i :: 0 <= i < m ==> ParamsAt(fetches, i) != ParamsAt(fetches, m)
    ensures HasCached(t, fetches, m + 1)
  {
    hide ParamsAt;
  }

  /** While the slot is not closed and no other round is made, the pages of a round stay in the cache. */
  lemma {:induction false} PagesStay(
    parse: Parser, ss: seq<Slot>, envs: seq<Env>, calls: seq<Call>, at: seq<nat>, fetches: seq<Fetch>, k: nat, m: nat)
    requires Visits(parse, ss, envs, calls) && IsRound(parse, ss, envs, calls, at, fetches)
    requires Complete(fetches, |fetches|) && 1 <= m <= |at| && at[0] < k <= |calls|
    requires forall i :: 0 <= i < |at| ==> (at[i] < k <==> i < m)
    requires forall i :: at[0] < i < k && i !in at ==> Aside(ss[i], calls[i])
    requires forall i :: at[0] < i <= k ==> ss[i].closes == ss[k].closes
    ensures HasCached(ss[k], fetches, m)
    decreases k
  {
    hide SessionRequest, Complete, Asks, ParamsAt, Aside, HasCached;
    var j := k - 1;
    if at[m - 1] == j {
      if m > 1 {
        PagesStay(parse, ss, envs, calls, at, fetches, j, m - 1);
      }
      PageIsCached(parse, ss[j], envs[j], fetches, m - 1);
    } else {
      assert j !in at;
      PagesStay(parse, ss, envs, calls, at, fetches, j, m);
      AsideKeepsCached(parse, ss[j], envs[j], calls[j], fetches, m);
    }
  }

  lemma AsideKeepsCached(parse: Parser, s: Slot, env: Env, call: Call, fetches: seq<Fetch>, m: nat)
    requires Aside(s, call) && m <= |fetches| && HasCached(s, fetches, m)
    requires SessionRequest(parse, s, env, call).after.closes == s.closes
    ensures HasCached(SessionRequest(parse, s, env, call).after, fetches, m)
  {
    hide SessionRequest, HasParked, ParamsAt;
    CallsKeepPages(parse, s, env, call);
  }

  /** Two rounds that get the same page wherever they ask for the same one are the same. */
  lemma {:induction false} RoundsAgree(a: seq<Fetch>, b: seq<Fetch>, n: nat, p: Progress)
    requires Asks(a, n, p) && Asks(b, n, p) && a[..n] == b[..n]
    requires forall i :: 0 <= i < |a| && i < |b| && ParamsAt(a, i) == ParamsAt(b, i) ==> a[i] == b[i]
    ensures a == b
    decreases MAX_PAGES - n
  {
    hide Absorb, ParamsAt;
    ParamsAgree(a, b, n);
    assert a[..n + 1] == a[..n] + [a[n]] && b[..n + 1] == b[..n] + [b[n]];
    match Absorb(p, a[n]) {
      case Finished(_) => assert a == a[..n + 1] && b == b[..n + 1];
      case Follow(_, q) =>
        if n + 1 == MAX_PAGES {
          assert a == a[..n + 1] && b == b[..n + 1];
        } else {
          RoundsAgree(a, b, n + 1, q);
        }
    }
  }

  /** After a managed discovery that succeeded, with tool calls of any turn between its pages and after
      it, no close since its first page and no other round, running it again while tool calls are parked
      returns exactly the same results, and each of its requests leaves the slot as it found it: no frame
      is written and the parked request stays parked. */
  lemma DiscoveryAgreesWithCache(
    parse: Parser, ss: seq<Slot>, envs: seq<Env>, calls: seq<Call>,
    at: seq<nat>, fetches: seq<Fetch>, again: seq<nat>, refetches: seq<Fetch>, tools: seq<Tool>)
    requires Visits(parse, ss, envs, calls)
    requires IsRound(parse, ss, envs, calls, at, fetches) && Discover(fetches, 0, NOTHING) == Ok(tools)
    requires forall i :: at[0] < i < |calls| && i !in at ==> Aside(ss[i], calls[i])
    requires ss[at[0] + 1].closes == ss[|calls|].closes
    requires IsRound(parse, ss, envs, calls, again, refetches) && at[|at| - 1] < again[0]
    requires forall i :: 0 <= i < |again| ==> HasParked(ss[again[i]]) && InOrder(ss[again[i]], envs[again[i]])
    ensures refetches == fetches && Discover(refetches, 0, NOTHING) == Ok(tools)
    ensures forall i :: 0 <= i < |again| ==> ss[again[i] + 1] == ss[again[i]]
  {
    hide SessionRequest, Discover, Asks, Aside, HasParked, ParamsAt;
    RoundIsComplete(fetches, tools);
    hide Complete;
    forall i | 0 <= i < |again| && i < |at| && ParamsAt(fetches, i) == ParamsAt(refetches, i)
      ensures fetches[i] == refetches[i]
    {
      PageIsReplayed(parse, ss, envs, calls, at, fetches, again[i], i);
    }
    RoundsAgree(fetches, refetches, 0, NOTHING);
    forall i | 0 <= i < |again| ensures ss[again[i] + 1] == ss[again[i]] {
      PageIsReplayed(parse, ss, envs, calls, at, fetches, again[i], i);
    }
  }

  predicate InOrder(s: Slot, env: Env) {
    env.admitted && env.current && env.fingerprint == s.fingerprint
  }

  /** Asked again, a page of the round comes from the cache. */
  lemma PageIsReplayed(
    parse: Parser, ss: seq<Slot>, envs: seq<Env>, calls: seq<Call>, at: seq<nat>, fetches: seq<Fetch>, k: nat, i: nat)
    requires Visits(parse, ss, envs, calls) && IsRound(parse, ss, envs, calls, at, fetches)
    requires Complete(fetches, |fetches|) && i < |at| && at[|at| - 1] < k < |calls|
    requires forall j :: at[0] < j < |calls| && j !in at ==> Aside(ss[j], calls[j])
    requires ss[at[0] + 1].closes == ss[|calls|].closes
    requires HasParked(ss[k]) && InOrder(ss[k], envs[k])
    ensures SessionRequest(parse, ss[k], envs[k], Call(ToolsList, ParamsAt(fetches, i), None)) == Reply(fetches[i], ss[k])
  {
    hide SessionRequest, Complete, Asks, ParamsAt, Aside, HasParked;
    forall n | at[0] < n <= k ensures ss[n].closes == ss[k].closes {
      ClosesAlong(parse, ss, envs, calls, at[0] + 1, n);
      ClosesAlong(parse, ss, envs, calls, n, k);
      ClosesAlong(parse, ss, envs, calls, k, |calls|);
    }
    PagesStay(parse, ss, envs, calls, at, fetches, k, |at|);
    ParkedListingIsReplayed(parse, ss[k], envs[k], ParamsAt(fetches, i));
  }
}
