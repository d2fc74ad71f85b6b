/** History compaction (agent-runtime/src/compaction.ts). */
module Compaction {
  import opened Prelude
  import opened Text

  datatype Kind = Message | Reasoning | ToolCall | ToolResult | ContextSummary

  datatype Role = System | User | Assistant | Tool

  /** `payload` is the payload's JSON text; None stands for an absent payload. */
  datatype Item = Item(
    id: string,
    kind: Kind,
    role: Option<Role>,
    text: Option<string>,
    name: Option<string>,
    callId: Option<string>,
    groupId: Option<string>,
    payload: Option<string>,
    estimatedTokens: Option<int>)

  const DEFAULT_OUTPUT_RESERVE: int := 4_096
  const MIN_RECENT_GROUPS: nat := 6
  const SUMMARY_HEADER := "Earlier conversation context:\n"
  const TRUNCATED_HEADER := "[earlier context truncated]\n"
  const TRUNCATED_SUFFIX := "\n[summary truncated]"

  function Max(a: int, b: int): int {
    if a < b then b else a
  }

  function Min(a: nat, b: nat): nat {
    if a < b then a else b
  }

  // ----- Sizes -----

  function EstimateText(text: string): int {
    Max(1, (|text| + 3) / 4)
  }

  /** The text whose length stands in for an item without a recorded size; JSON null counts as
      absent, and an absent payload serialises to a pair of quotes. */
  function SizedText(item: Item): string {
    match item.text
    case Some(t) => t
    case None => if item.payload.Some? && item.payload.value != "null" then item.payload.value else "\"\""
  }

  function ItemTokens(item: Item): int {
    (match item.estimatedTokens case Some(n) => n case None => EstimateText(SizedText(item))) + 8
  }

  function EstimateTokens(history: seq<Item>): int {
    if history == [] then 0
    else EstimateTokens(history[..|history| - 1]) + ItemTokens(history[|history| - 1])
  }

  // ----- Partition of the history -----

  /** Real instructions, summaries of earlier compactions, and everything else. */
  datatype Part = Instructions | Summaries | Conversation

  function PartOf(item: Item): Part {
    if item.kind == ContextSummary then Summaries
    else if item.role == Some(System) then Instructions
    else Conversation
  }

  function Where(p: Part, s: seq<Item>): seq<Item> {
    if s == [] then []
    else
      var last := s[|s| - 1];
      Where(p, s[..|s| - 1]) + (if PartOf(last) == p then [last] else [])
  }

  // ----- Groups -----

  function GroupKey(item: Item): string {
    match item.groupId
    case Some(g) => g
    case None => if item.callId.Some? then item.callId.value else item.id
  }

  /** Two items belong together when the first identifier each has, of its group, its call and its own,
      is the same. */
  predicate Together(x: Item, y: Item) {
    match (x.groupId, y.groupId)
    case (Some(g), Some(h)) => g == h
    case (Some(g), None) => if y.callId.Some? then y.callId == Some(g) else y.id == g
    case (None, Some(h)) => if x.callId.Some? then x.callId == Some(h) else x.id == h
    case (None, None) =>
      match (x.callId, y.callId)
      case (Some(c), Some(d)) => c == d
      case (Some(c), None) => y.id == c
      case (None, Some(d)) => x.id == d
      case (None, None) => x.id == y.id
  }

  lemma TogetherSharesKey(x: Item, y: Item)
    ensures Together(x, y) <==> GroupKey(x) == GroupKey(y)
  {
  }

  /** The group keys of a history, in order of first appearance. */
  function GroupKeys(history: seq<Item>): seq<string> {
    if history == [] then []
    else
      var keys := GroupKeys(history[..|history| - 1]);
      var key := GroupKey(history[|history| - 1]);
      if key in keys then keys else keys + [key]
  }

  function Members(history: seq<Item>, key: string): seq<Item> {
    if history == [] then []
    else
      var last := history[|history| - 1];
      Members(history[..|history| - 1], key) + (if GroupKey(last) == key then [last] else [])
  }

  function MembersOf(history: seq<Item>, keys: seq<string>): (groups: seq<seq<Item>>)
    ensures |groups| == |keys|
    ensures forall i :: 0 <= i < |keys| ==> groups[i] == Members(history, keys[i])
  {
    if keys == [] then []
    else MembersOf(history, keys[..|keys| - 1]) + [Members(history, keys[|keys| - 1])]
  }

  function GroupsOf(history: seq<Item>): seq<seq<Item>> {
    MembersOf(history, GroupKeys(history))
  }

  function Flatten(groups: seq<seq<Item>>): seq<Item> {
    if groups == [] then [] else Flatten(groups[..|groups| - 1]) + groups[|groups| - 1]
  }

  // ----- What compaction keeps and removes -----

  function Budget(contextWindow: int, maxOutputTokens: Option<int>): (budget: int)
    ensures budget >= 1_024
  {
    Max(1_024, contextWindow - (match maxOutputTokens case Some(n) => n case None => DEFAULT_OUTPUT_RESERVE))
  }

  /** The retained prompt leaves a quarter of the budget free. */
  predicate Fits(system: seq<Item>, recent: seq<seq<Item>>, budget: int) {
    4 * EstimateTokens(system + Flatten(recent)) <= 3 * budget
  }

  function LastGroups(groups: seq<seq<Item>>, k: nat): seq<seq<Item>>
    requires k <= |groups|
  {
    groups[|groups| - k..]
  }

  /** The largest count up to `k` whose suffix fits, or zero. */
  function KeptCount(system: seq<Item>, groups: seq<seq<Item>>, budget: int, k: nat): (kept: nat)
    requires k <= |groups|
    ensures kept <= k
  {
    if k == 0 || Fits(system, LastGroups(groups, k), budget) then k
    else KeptCount(system, groups, budget, k - 1)
  }

  function Recent(history: seq<Item>, budget: int): seq<seq<Item>> {
    var groups := GroupsOf(Where(Conversation, history));
    LastGroups(groups, KeptCount(Where(Instructions, history), groups, budget, Min(MIN_RECENT_GROUPS, |groups|)))
  }

  function Removed(history: seq<Item>, budget: int): seq<Item> {
    var groups := GroupsOf(Where(Conversation, history));
    Where(Summaries, history) + Flatten(groups[..|groups| - |Recent(history, budget)|])
  }

  // ----- Summary text -----

  function RoleName(role: Role): string {
    match role
    case System => "system"
    case User => "user"
    case Assistant => "assistant"
    case Tool => "tool"
  }

  function KindName(kind: Kind): string {
    match kind
    case Message => "message"
    case Reasoning => "reasoning"
    case ToolCall => "tool_call"
    case ToolResult => "tool_result"
    case ContextSummary => "context_summary"
  }

  function BoundedJson(payload: Option<string>, maxChars: nat): string {
    match payload
    case None => "[no payload]"
    case Some(json) => if |json| > maxChars then json[..maxChars] + "[payload truncated]" else json
  }

  function Present(s: Option<string>): string {
    if s.Some? then s.value else ""
  }

  function SummaryLine(item: Item): Option<string> {
    if Present(item.text) != "" then
      Some((if item.role.Some? then RoleName(item.role.value) else KindName(item.kind)) + ": " + item.text.value)
    else if item.kind != ToolCall && item.kind != ToolResult then None
    else
      var name, call := Present(item.name), Present(item.callId);
      var identity := if name != "" && call != "" then name + " " + call else name + call;
      Some(KindName(item.kind) + (if identity != "" then " " + identity else "") + ": "
           + BoundedJson(item.payload, 4_000))
  }

  function JoinLines(lines: seq<string>): string {
    if lines == [] then ""
    else if |lines| == 1 then lines[0]
    else JoinLines(lines[..|lines| - 1]) + "\n" + lines[|lines| - 1]
  }

  function SummaryLines(items: seq<Item>): seq<string> {
    if items == [] then []
    else
      SummaryLines(items[..|items| - 1])
      + (match SummaryLine(items[|items| - 1]) case Some(line) => [line] case None => [])
  }

  /** Keeps the newest `maxChars` characters. */
  function FormatHistoryForSummary(items: seq<Item>, maxChars: nat): (text: string)
    requires maxChars > 0
    ensures |text| <= |SUMMARY_HEADER| + |TRUNCATED_HEADER| + maxChars
  {
    var lines := JoinLines(SummaryLines(items));
    if |lines| <= maxChars then SUMMARY_HEADER + lines
    else SUMMARY_HEADER + TRUNCATED_HEADER + lines[|lines| - maxChars..]
  }

  /** What the model-backed summariser did, when there is one. */
  datatype Summarizer = NoSummarizer | Returned(text: string) | Failed | Aborted

  datatype CompactionResult = CompactionResult(
    history: seq<Item>,
    compacted: bool,
    removedItemIds: seq<string>,
    summary: Option<Item>,
    estimatedTokens: int)

  datatype AbortError = AbortError

  function UsableSummary(summarizer: Summarizer): string {
    if summarizer.Returned? then Trim(summarizer.text) else ""
  }

  /** A model summary is cut to a quarter of the budget in tokens, four characters each; without
      one, the removed items themselves are formatted into that space. */
  function SummaryText(removed: seq<Item>, summarizer: Summarizer, budget: int): string
    requires budget >= 1_024
  {
    var usable := UsableSummary(summarizer);
    if usable == "" then FormatHistoryForSummary(removed, budget)
    else if |usable| > budget then usable[..budget] + TRUNCATED_SUFFIX
    else usable
  }

  function SummaryItem(text: string, clock: string): Item {
    Item("context-summary-" + clock, ContextSummary, Some(User), Some(text), None, None, None, None,
         Some(EstimateText(text)))
  }

  function Ids(items: seq<Item>): seq<string> {
    seq(|items|, i requires 0 <= i < |items| => items[i].id)
  }

  // ----- Sizes, parts and summaries in terms of the items -----

  /** An item is estimated at its recorded size or else at a quarter of its text, its payload if it has no
      text, rounded up and at least 1; and at 8 more in either case. */
  lemma EstimateOfItem(item: Item)
    ensures item.estimatedTokens.Some? ==> ItemTokens(item) == item.estimatedTokens.value + 8
    ensures item.estimatedTokens.None? ==>
              var n := match (item.text, item.payload)
                       case (Some(text), _) => |text|
                       case (None, Some(json)) => if json == "null" then 2 else |json|
                       case (None, None) => 2;
              if n <= 4 then ItemTokens(item) == 9 else n <= 4 * (ItemTokens(item) - 8) <= n + 3
  {
  }

  /** Items that satisfy a condition, in order. */
  function Keep(s: seq<Item>, p: Item -> bool): seq<Item> {
    if s == [] then []
    else Keep(s[..|s| - 1], p) + (if p(s[|s| - 1]) then [s[|s| - 1]] else [])
  }

  /** The instructions are the system items, the summaries the items of that kind whatever their role. */
  lemma {:induction false} PartsByKindAndRole(s: seq<Item>)
    ensures Where(Instructions, s) == Keep(s, (x: Item) => x.kind != ContextSummary && x.role == Some(System))
    ensures Where(Summaries, s) == Keep(s, (x: Item) => x.kind == ContextSummary)
    ensures Where(Conversation, s) == Keep(s, (x: Item) => x.kind != ContextSummary && x.role != Some(System))
  {
    if s != [] {
      PartsByKindAndRole(s[..|s| - 1]);
    }
  }

  /** Who an item speaks for in a summary: its role, or its kind if it has none. */
  predicate SpeaksAs(item: Item, who: string) {
    match item.role
    case Some(System) => who == "system"
    case Some(User) => who == "user"
    case Some(Assistant) => who == "assistant"
    case Some(Tool) => who == "tool"
    case None =>
      match item.kind
      case Message => who == "message"
      case Reasoning => who == "reasoning"
      case ToolCall => who == "tool_call"
      case ToolResult => who == "tool_result"
      case ContextSummary => who == "context_summary"
  }

  predicate HasText(s: Option<string>) {
    s.Some? && s.value != ""
  }

  /** A tool item without text is told by its name, its call and its payload, at most 4,000 characters
      of it. */
  predicate TellsTool(line: string, item: Item) {
    var kind := if item.kind.ToolCall? then "tool_call" else "tool_result";
    var name := if HasText(item.name) then " " + item.name.value else "";
    var call := if HasText(item.callId) then " " + item.callId.value else "";
    var payload := match item.payload
                   case None => "[no payload]"
                   case Some(json) => if |json| <= 4_000 then json else json[..4_000] + "[payload truncated]";
    line == kind + (name + call) + ": " + payload
  }

  /** An item with text is told in full, a tool item without text by what is known of the call, and any
      other item not at all. */
  predicate Tells(line: Option<string>, item: Item) {
    if HasText(item.text) then
      && line.Some? && |item.text.value| + 2 <= |line.value|
      && var n := |line.value| - |item.text.value|;
         SpeaksAs(item, line.value[..n - 2]) && line.value[n - 2..n] == ": " && line.value[n..] == item.text.value
    else if item.kind.ToolCall? || item.kind.ToolResult? then line.Some? && TellsTool(line.value, item)
    else line.None?
  }

  lemma Identity(name: Option<string>, callId: Option<string>)
    ensures var n, c := Present(name), Present(callId);
            var identity := if n != "" && c != "" then n + " " + c else n + c;
            (if identity != "" then " " + identity else "")
            == (if HasText(name) then " " + name.value else "") + (if HasText(callId) then " " + callId.value else "")
  {
    var n, c := Present(name), Present(callId);
    if n != "" && c != "" {
      assert " " + (n + " " + c) == (" " + n) + (" " + c);
    } else {
      assert n + c == if n != "" then n else c;
    }
  }

  lemma ToolLine(item: Item)
    requires !HasText(item.text) && (item.kind.ToolCall? || item.kind.ToolResult?)
    ensures SummaryLine(item).Some? && TellsTool(SummaryLine(item).value, item)
  {
    var kind := if item.kind.ToolCall? then "tool_call" else "tool_result";
    var name := if HasText(item.name) then " " + item.name.value else "";
    var call := if HasText(item.callId) then " " + item.callId.value else "";
    Identity(item.name, item.callId);
    hide Present, HasText;
    assert SummaryLine(item) == Some(kind + (name + call) + ": " + BoundedJson(item.payload, 4_000));
  }

  lemma LineTells(item: Item)
    ensures Tells(SummaryLine(item), item)
  {
    if HasText(item.text) {
      var who := if item.role.Some? then RoleName(item.role.value) else KindName(item.kind);
      var text := item.text.value;
      var line := who + ": " + text;
      var n := |line| - |text|;
      assert line[..n - 2] == who && line[n - 2..n] == ": " && line[n..] == text;
    } else if item.kind.ToolCall? || item.kind.ToolResult? {
      ToolLine(item);
    }
  }

  /** The lines tell the items one by one, in order. */
  predicate TellAll(lines: seq<string>, items: seq<Item>) {
    if items == [] then lines == []
    else
      var last := items[|items| - 1];
      if Tells(None, last) then TellAll(lines, items[..|items| - 1])
      else
        && lines != [] && Tells(Some(lines[|lines| - 1]), last)
        && TellAll(lines[..|lines| - 1], items[..|items| - 1])
  }

  lemma {:induction false} SummaryLinesTell(items: seq<Item>)
    ensures TellAll(SummaryLines(items), items)
  {
    if items != [] {
      hide Tells, SummaryLine;
      var init, last := items[..|items| - 1], items[|items| - 1];
      SummaryLinesTell(init);
      LineTells(last);
      NotBoth(last, SummaryLine(last));
      assert SummaryLines(init) + [] == SummaryLines(init);
    }
  }

  lemma NotBoth(item: Item, line: Option<string>)
    requires Tells(line, item)
    ensures Tells(None, item) <==> line.None?
  {
  }

  /** Lines joined by single newlines. */
  predicate Joins(text: string, lines: seq<string>) {
    match |lines|
    case 0 => text == ""
    case 1 => text == lines[0]
    case _ =>
      var last := lines[|lines| - 1];
      && |last| < |text|
      && var n := |text| - |last|;
         text[n..] == last && text[n - 1] == '\n' && Joins(text[..n - 1], lines[..|lines| - 1])
  }

  lemma {:induction false} JoinLinesJoins(lines: seq<string>)
    ensures Joins(JoinLines(lines), lines)
  {
    if |lines| > 1 {
      var init, last := lines[..|lines| - 1], lines[|lines| - 1];
      JoinLinesJoins(init);
      var text := JoinLines(lines);
      var n := |text| - |last|;
      assert text == JoinLines(init) + "\n" + last;
      assert text[n..] == last && text[n - 1] == '\n' && text[..n - 1] == JoinLines(init);
    }
  }

  /** What the summary says. A model's summary counts if it is not blank, trimmed, and beyond the budget's
      characters it is cut. Otherwise the removed items are told line by line; if that is too long, the
      newest part of it is kept. */
  lemma SummarySays(removed: seq<Item>, summarizer: Summarizer, budget: int) returns (lines: seq<string>, told: string)
    requires budget >= 1_024
    ensures TellAll(lines, removed) && Joins(told, lines)
    ensures var text := SummaryText(removed, summarizer, budget);
            if summarizer.Returned? && !IsBlank(summarizer.text) then
              var said := Trim(summarizer.text);
              text == if |said| <= budget then said else said[..budget] + "\n[summary truncated]"
            else if |told| <= budget then text == "Earlier conversation context:\n" + told
            else text == "Earlier conversation context:\n" + "[earlier context truncated]\n" + told[|told| - budget..]
  {
    hide Trim, IsBlank, TellAll, Joins, SummaryLine;
    lines := SummaryLines(removed);
    told := JoinLines(lines);
    SummaryLinesTell(removed);
    JoinLinesJoins(lines);
    if summarizer.Returned? {
      TrimsToNothing(summarizer.text);
    }
  }

  // ----- Algebra of the helpers -----

  lemma {:induction false} EstimateConcat(a: seq<Item>, b: seq<Item>)
    ensures EstimateTokens(a + b) == EstimateTokens(a) + EstimateTokens(b)
  {
    if b == [] {
      assert a + b == a;
    } else {
      EstimateConcat(a, b[..|b| - 1]);
      assert (a + b)[..|a + b| - 1] == a + b[..|b| - 1];
    }
  }

  lemma EstimateSingle(x: Item)
    ensures EstimateTokens([x]) == ItemTokens(x)
  {
    assert [x][..0] == [];
  }

  lemma EstimateWithout(s: seq<Item>, k: nat)
    requires k < |s|
    ensures EstimateTokens(s) == EstimateTokens(s[..k] + s[k + 1..]) + ItemTokens(s[k])
  {
    hide EstimateTokens, ItemTokens;
    var head, tail := s[..k], s[k + 1..];
    assert s == head + [s[k]] + tail;
    EstimateConcat(head + [s[k]], tail);
    EstimateConcat(head, [s[k]]);
    EstimateConcat(head, tail);
    EstimateSingle(s[k]);
  }

  lemma MultisetWithout(s: seq<Item>, k: nat)
    requires k < |s|
    ensures multiset(s[..k] + s[k + 1..]) == multiset(s) - multiset{s[k]}
  {
    assert s == s[..k] + [s[k]] + s[k + 1..];
  }

  /** The estimate does not depend on the order of the items. */
  lemma {:induction false} EstimatePermutation(a: seq<Item>, b: seq<Item>)
    requires multiset(a) == multiset(b)
    ensures EstimateTokens(a) == EstimateTokens(b)
  {
    if a == [] {
      assert |multiset(b)| == 0;
    } else {
      var n := |a| - 1;
      assert a[n] in multiset(b);
      var k :| 0 <= k < |b| && b[k] == a[n];
      MultisetWithout(a, n);
      MultisetWithout(b, k);
      assert a[..n] + a[n + 1..] == a[..n];
      EstimatePermutation(a[..n], b[..k] + b[k + 1..]);
      EstimateWithout(b, k);
    }
  }

  lemma {:induction false} WhereConcat(p: Part, a: seq<Item>, b: seq<Item>)
    ensures Where(p, a + b) == Where(p, a) + Where(p, b)
  {
    if b == [] {
      assert a + b == a;
    } else {
      WhereConcat(p, a, b[..|b| - 1]);
      assert (a + b)[..|a + b| - 1] == a + b[..|b| - 1];
    }
  }

  lemma {:induction false} WhereAll(p: Part, s: seq<Item>)
    requires forall x :: x in s ==> PartOf(x) == p
    ensures Where(p, s) == s
  {
    if s != [] {
      WhereAll(p, s[..|s| - 1]);
    }
  }

  lemma {:induction false} WhereNone(p: Part, s: seq<Item>)
    requires forall x :: x in s ==> PartOf(x) != p
    ensures Where(p, s) == []
  {
    if s != [] {
      WhereNone(p, s[..|s| - 1]);
    }
  }

  lemma {:induction false} WhereIn(p: Part, s: seq<Item>, x: Item)
    ensures x in Where(p, s) <==> x in s && PartOf(x) == p
  {
    if s != [] {
      WhereIn(p, s[..|s| - 1], x);
      assert s == s[..|s| - 1] + [s[|s| - 1]];
    }
  }

  lemma {:induction false} FlattenConcat(a: seq<seq<Item>>, b: seq<seq<Item>>)
    ensures Flatten(a + b) == Flatten(a) + Flatten(b)
  {
    if b == [] {
      assert a + b == a;
    } else {
      var init, last := b[..|b| - 1], b[|b| - 1];
      assert (a + b)[..|a + b| - 1] == a + init;
      assert Flatten(a + b) == Flatten(a + init) + last && Flatten(b) == Flatten(init) + last;
      hide Flatten;
      FlattenConcat(a, init);
    }
  }

  lemma {:induction false} FlattenIn(groups: seq<seq<Item>>, x: Item)
    ensures x in Flatten(groups) <==> exists i :: 0 <= i < |groups| && x in groups[i]
  {
    if groups != [] {
      var n := |groups| - 1;
      FlattenIn(groups[..n], x);
      if x in Flatten(groups) && x !in groups[n] {
        var i :| 0 <= i < n && x in groups[..n][i];
        assert x in groups[i];
      }
    }
  }

  // ----- Grouping -----

  lemma {:induction false} GroupKeysFacts(history: seq<Item>)
    ensures forall i, j :: 0 <= i < j < |GroupKeys(history)| ==> GroupKeys(history)[i] != GroupKeys(history)[j]
    ensures forall x :: x in history ==> GroupKey(x) in GroupKeys(history)
    ensures forall k :: k in GroupKeys(history) ==> Members(history, k) != []
  {
    if history != [] {
      var init := history[..|history| - 1];
      GroupKeysFacts(init);
      assert history == init + [history[|history| - 1]];
      forall k | k in GroupKeys(history) ensures Members(history, k) != [] {
      }
    }
  }

  lemma MembersAppend(history: seq<Item>, item: Item, key: string)
    ensures Members(history + [item], key)
            == Members(history, key) + (if GroupKey(item) == key then [item] else [])
  {
    assert (history + [item])[..|history + [item]| - 1] == history;
  }

  /** An item with a new key opens a group at the end. */
  lemma GroupsOpen(history: seq<Item>, item: Item)
    requires GroupKey(item) !in GroupKeys(history)
    ensures GroupKeys(history + [item]) == GroupKeys(history) + [GroupKey(item)]
    ensures GroupsOf(history + [item]) == GroupsOf(history) + [[item]]
  {
    hide Members, MembersOf;
    var h, keys := history + [item], GroupKeys(history);
    assert h[..|h| - 1] == history;
    MembersAbsent(history, GroupKey(item));
    forall i | 0 <= i <= |keys| ensures GroupsOf(h)[i] == (GroupsOf(history) + [[item]])[i] {
      MembersAppend(history, item, GroupKeys(h)[i]);
    }
  }

  /** An item with a known key extends the group of that key. */
  lemma GroupsExtend(history: seq<Item>, item: Item, at: nat)
    requires at < |GroupKeys(history)| && GroupKeys(history)[at] == GroupKey(item)
    ensures GroupKeys(history + [item]) == GroupKeys(history)
    ensures GroupsOf(history + [item]) == GroupsOf(history)[at := GroupsOf(history)[at] + [item]]
  {
    hide Members, MembersOf;
    var h, keys := history + [item], GroupKeys(history);
    assert h[..|h| - 1] == history;
    GroupKeysFacts(history);
    var next := GroupsOf(history)[at := GroupsOf(history)[at] + [item]];
    forall i | 0 <= i < |keys| ensures GroupsOf(h)[i] == next[i] {
      MembersAppend(history, item, keys[i]);
    }
  }

  lemma {:induction false} MembersIn(history: seq<Item>, key: string, x: Item)
    ensures x in Members(history, key) <==> x in history && GroupKey(x) == key
  {
    if history != [] {
      MembersIn(history[..|history| - 1], key, x);
      assert history == history[..|history| - 1] + [history[|history| - 1]];
    }
  }

  lemma {:induction false} MembersAbsent(history: seq<Item>, key: string)
    requires key !in GroupKeys(history)
    ensures Members(history, key) == []
  {
    if history != [] {
      MembersAbsent(history[..|history| - 1], key);
    }
  }

  lemma {:induction false} GroupsFlattenMultiset(history: seq<Item>)
    ensures multiset(Flatten(GroupsOf(history))) == multiset(history)
  {
    if history != [] {
      var init, item := history[..|history| - 1], history[|history| - 1];
      assert history == init + [item];
      GroupsFlattenMultiset(init);
      var groups := GroupsOf(init);
      if GroupKey(item) !in GroupKeys(init) {
        GroupsOpen(init, item);
        FlattenConcat(groups, [[item]]);
        assert [[item]][..0] == [];
        assert Flatten([[item]]) == [item];
      } else {
        var i :| 0 <= i < |groups| && GroupKeys(init)[i] == GroupKey(item);
        GroupsExtend(init, item, i);
        FlattenExtend(groups, i, item);
      }
    }
  }

  lemma {:induction false} FlattenExtend(groups: seq<seq<Item>>, i: nat, item: Item)
    requires i < |groups|
    ensures multiset(Flatten(groups[i := groups[i] + [item]])) == multiset(Flatten(groups)) + multiset{item}
  {
    var n := |groups| - 1;
    var next := groups[i := groups[i] + [item]];
    if i == n {
      assert next[..n] == groups[..n];
    } else {
      FlattenExtend(groups[..n], i, item);
      assert next[..n] == groups[..n][i := groups[..n][i] + [item]];
    }
  }

  /** Every group is the whole set of items with its key, so two items of the history are in one group
      exactly when they belong together, and every item is in some group. */
  lemma GroupsPartitionByKey(history: seq<Item>, i: nat, j: nat, x: Item, y: Item)
    requires i < |GroupsOf(history)| && j < |GroupsOf(history)|
    requires x in GroupsOf(history)[i] && y in GroupsOf(history)[j]
    ensures Together(x, y) <==> i == j
    ensures GroupKey(x) == GroupKey(y) <==> i == j
    ensures x in history && GroupsOf(history)[i] == Members(history, GroupKey(x))
  {
    TogetherSharesKey(x, y);
    hide Together;
    var keys := GroupKeys(history);
    GroupKeysFacts(history);
    MembersIn(history, keys[i], x);
    MembersIn(history, keys[j], y);
  }

  /** Non-empty groups whose items carry the group's own key, no two keys alike. */
  predicate KeyedBy(groups: seq<seq<Item>>, keys: seq<string>) {
    if groups == [] then keys == []
    else
      var n := |groups| - 1;
      && |keys| == n + 1
      && KeyedBy(groups[..n], keys[..n])
      && groups[n] != [] && AllHaveKey(groups[n], keys[n]) && keys[n] !in keys[..n]
  }

  predicate AllHaveKey(group: seq<Item>, key: string) {
    forall x :: x in group ==> GroupKey(x) == key
  }

  lemma MembersHaveKey(history: seq<Item>, key: string)
    ensures AllHaveKey(Members(history, key), key)
  {
    forall x | x in Members(history, key) ensures GroupKey(x) == key {
      MembersIn(history, key, x);
    }
  }

  lemma {:induction false} MembersKeyed(history: seq<Item>, keys: seq<string>)
    requires forall k :: k in keys ==> Members(history, k) != []
    requires forall i, j :: 0 <= i < j < |keys| ==> keys[i] != keys[j]
    ensures KeyedBy(MembersOf(history, keys), keys)
  {
    if keys != [] {
      var n := |keys| - 1;
      MembersKeyed(history, keys[..n]);
      MembersHaveKey(history, keys[n]);
      assert MembersOf(history, keys)[..n] == MembersOf(history, keys[..n]);
      hide Members, MembersOf, AllHaveKey;
    }
  }

  lemma GroupCount(history: seq<Item>)
    ensures |GroupsOf(history)| == |GroupKeys(history)|
  {
  }

  lemma {:induction false} GroupsAppendGroup(history: seq<Item>, group: seq<Item>, key: string)
    requires group != [] && AllHaveKey(group, key)
    requires key !in GroupKeys(history)
    ensures GroupsOf(history + group) == GroupsOf(history) + [group]
    ensures GroupKeys(history + group) == GroupKeys(history) + [key]
  {
    hide Members, MembersOf, GroupsOf, GroupKeys;
    var n := |group| - 1;
    var last := group[n];
    assert last in group;
    assert history + group == (history + group[..n]) + [last];
    if n == 0 {
      assert history + group[..n] == history && group == [last];
      GroupsOpen(history, last);
    } else {
      assert AllHaveKey(group[..n], key);
      GroupsAppendGroup(history, group[..n], key);
      var at := |GroupKeys(history)|;
      GroupCount(history);
      GroupsExtend(history + group[..n], last, at);
      assert group == group[..n] + [last];
      assert (GroupsOf(history) + [group[..n]])[at := group] == GroupsOf(history) + [group];
    }
  }

  lemma RegroupStep(init: seq<seq<Item>>, keys: seq<string>, group: seq<Item>, key: string)
    requires GroupsOf(Flatten(init)) == init && GroupKeys(Flatten(init)) == keys
    requires group != [] && AllHaveKey(group, key) && key !in keys
    ensures GroupsOf(Flatten(init + [group])) == init + [group]
    ensures GroupKeys(Flatten(init + [group])) == keys + [key]
  {
    assert (init + [group])[..|init|] == init;
    assert Flatten(init + [group]) == Flatten(init) + group;
    hide *;
    GroupsAppendGroup(Flatten(init), group, key);
  }

  lemma SplitLast<T>(s: seq<T>)
    requires s != []
    ensures s == s[..|s| - 1] + [s[|s| - 1]]
  {
  }

  /** Regrouping flattened groups gives the same groups back. */
  lemma {:induction false} RegroupFlattened(groups: seq<seq<Item>>, keys: seq<string>)
    requires KeyedBy(groups, keys)
    ensures GroupsOf(Flatten(groups)) == groups && GroupKeys(Flatten(groups)) == keys
  {
    if groups != [] {
      var init, group := groups[..|groups| - 1], groups[|groups| - 1];
      var kinit, key := keys[..|groups| - 1], keys[|groups| - 1];
      SplitLast(groups);
      SplitLast(keys);
      assert KeyedBy(init, kinit) && group != [] && AllHaveKey(group, key) && key !in kinit;
      hide *;
      RegroupFlattened(init, kinit);
      RegroupStep(init, kinit, group, key);
    }
  }

  // ----- Main results about the split -----

  /** How often `x` occurs in one part of the history. */
  function Occurrences(p: Part, s: seq<Item>, x: Item): nat {
    multiset(Where(p, s))[x]
  }

  lemma OccurrencesStep(p: Part, s: seq<Item>, last: Item, x: Item)
    ensures Occurrences(p, s + [last], x)
            == Occurrences(p, s, x) + (if PartOf(last) == p && last == x then 1 else 0)
  {
    assert (s + [last])[..|s|] == s;
  }

  lemma {:induction false} PartitionOccurrences(history: seq<Item>, x: Item)
    ensures multiset(history)[x] == Occurrences(Instructions, history, x) + Occurrences(Summaries, history, x)
                                    + Occurrences(Conversation, history, x)
  {
    if history != [] {
      hide Where;
      var init, last := history[..|history| - 1], history[|history| - 1];
      PartitionOccurrences(init, x);
      assert history == init + [last];
      OccurrencesStep(Instructions, init, last, x);
      OccurrencesStep(Summaries, init, last, x);
      OccurrencesStep(Conversation, init, last, x);
    }
  }

  lemma PartitionMultiset(history: seq<Item>)
    ensures multiset(history) == multiset(Where(Instructions, history)) + multiset(Where(Summaries, history))
                                 + multiset(Where(Conversation, history))
  {
    forall x {
      PartitionOccurrences(history, x);
    }
    hide Where;
  }

  lemma CutMultiset(groups: seq<seq<Item>>, cut: nat)
    requires cut <= |groups|
    ensures multiset(Flatten(groups)) == multiset(Flatten(groups[..cut])) + multiset(Flatten(groups[cut..]))
  {
    assert groups == groups[..cut] + groups[cut..];
    FlattenConcat(groups[..cut], groups[cut..]);
  }

  /** Nothing is lost or duplicated: the input is exactly the kept instructions, the removed items
      and the kept conversation. */
  lemma LosslessSplit(history: seq<Item>, budget: int)
    ensures multiset(history) == multiset(Where(Instructions, history)) + multiset(Removed(history, budget))
                                 + multiset(Flatten(Recent(history, budget)))
  {
    hide Where, GroupsOf, Flatten, KeptCount;
    PartitionMultiset(history);
    var conversation := Where(Conversation, history);
    GroupsFlattenMultiset(conversation);
    CutMultiset(GroupsOf(conversation), |GroupsOf(conversation)| - |Recent(history, budget)|);
  }

  lemma CutGroupsDiffer(history: seq<Item>, cut: nat, x: Item, y: Item)
    requires cut <= |GroupsOf(history)|
    requires x in Flatten(GroupsOf(history)[..cut]) && y in Flatten(GroupsOf(history)[cut..])
    ensures !Together(x, y)
  {
    var groups := GroupsOf(history);
    FlattenIn(groups[..cut], x);
    FlattenIn(groups[cut..], y);
    var i :| 0 <= i < cut && x in groups[..cut][i];
    var j :| 0 <= j < |groups| - cut && y in groups[cut..][j];
    GroupsPartitionByKey(history, i, cut + j, x, y);
  }

  /** A call and its result are never separated: nothing removed from the conversation belongs together
      with anything kept, so they never have the same group, nor, outside groups, the same call. */
  lemma NoGroupIsSplit(history: seq<Item>, budget: int, x: Item, y: Item)
    requires x in Removed(history, budget) && PartOf(x) == Conversation
    requires y in Flatten(Recent(history, budget))
    ensures !Together(x, y)
    ensures x.groupId.Some? ==> x.groupId != y.groupId
    ensures x.groupId.None? && y.groupId.None? && x.callId.Some? ==> x.callId != y.callId
  {
    hide GroupsOf, Flatten, KeptCount, Where;
    var conversation := Where(Conversation, history);
    WhereIn(Summaries, history, x);
    CutGroupsDiffer(conversation, |GroupsOf(conversation)| - |Recent(history, budget)|, x, y);
  }

  lemma {:induction false} KeptCountIsLargest(
      system: seq<Item>, groups: seq<seq<Item>>, budget: int, k: nat, j: nat)
    requires k <= |groups|
    requires KeptCount(system, groups, budget, k) < j <= k
    ensures !Fits(system, LastGroups(groups, j), budget)
  {
    if j < k {
      KeptCountIsLargest(system, groups, budget, k - 1, j);
    }
  }

  lemma {:induction false} KeptCountFits(system: seq<Item>, groups: seq<seq<Item>>, budget: int, k: nat)
    requires k <= |groups|
    ensures var kept := KeptCount(system, groups, budget, k);
            kept == 0 || Fits(system, LastGroups(groups, kept), budget)
  {
    hide Fits, LastGroups;
    if !(k == 0 || Fits(system, LastGroups(groups, k), budget)) {
      KeptCountFits(system, groups, budget, k - 1);
    }
  }

  /** The kept conversation is the longest suffix of at most six groups that, with the real
      instructions, takes no more than three quarters of the budget. */
  lemma RecentIsLongestFittingSuffix(history: seq<Item>, budget: int)
    ensures var system := Where(Instructions, history);
            var groups := GroupsOf(Where(Conversation, history));
            var kept := |Recent(history, budget)|;
            && kept <= |groups| && kept <= 6
            && Recent(history, budget) == groups[|groups| - kept..]
            && (kept == 0 || 4 * EstimateTokens(system + Flatten(Recent(history, budget))) <= 3 * budget)
            && (forall j :: kept < j <= |groups| && j <= 6 ==>
                  4 * EstimateTokens(system + Flatten(LastGroups(groups, j))) > 3 * budget)
  {
    hide EstimateTokens, GroupsOf, Flatten, Where, KeptCount;
    var system := Where(Instructions, history);
    var groups := GroupsOf(Where(Conversation, history));
    var k := Min(MIN_RECENT_GROUPS, |groups|);
    KeptCountFits(system, groups, budget, k);
    forall j | KeptCount(system, groups, budget, k) < j <= k ensures !Fits(system, LastGroups(groups, j), budget) {
      KeptCountIsLargest(system, groups, budget, k, j);
    }
  }

  // ----- Size of the result -----

  /** The size of the real instructions, or three quarters of the budget, whichever is larger, in
      quarter tokens. */
  function RetainedCeiling(history: seq<Item>, budget: int): int {
    Max(3 * budget, 4 * EstimateTokens(Where(Instructions, history)))
  }

  lemma RetainedBound(history: seq<Item>, budget: int)
    ensures 4 * EstimateTokens(Where(Instructions, history) + Flatten(Recent(history, budget)))
              <= RetainedCeiling(history, budget)
  {
    RecentIsLongestFittingSuffix(history, budget);
    if |Recent(history, budget)| == 0 {
      assert Where(Instructions, history) + Flatten(Recent(history, budget)) == Where(Instructions, history);
    }
  }

  lemma SummaryBound(removed: seq<Item>, summarizer: Summarizer, budget: int, clock: string)
    requires budget >= 1_024
    ensures 4 * ItemTokens(SummaryItem(SummaryText(removed, summarizer, budget), clock)) <= budget + 93
  {
    var text := SummaryText(removed, summarizer, budget);
    assert |text| <= budget + 58;
  }

  /** The compacted history exceeds its ceiling plus the summary's quarter by at most 93 quarter
      tokens: two truncation headers of 58 characters, rounding up, and the 8 of the item. */
  lemma CompactedBound(history: seq<Item>, budget: int, summary: Item)
    requires 4 * ItemTokens(summary) <= budget + 93
    ensures 4 * EstimateTokens(Where(Instructions, history) + [summary] + Flatten(Recent(history, budget)))
              <= RetainedCeiling(history, budget) + budget + 93
  {
    hide *;
    var system, tail := Where(Instructions, history), Flatten(Recent(history, budget));
    RetainedBound(history, budget);
    EstimateConcat(system + [summary], tail);
    EstimateConcat(system, [summary]);
    EstimateConcat(system, tail);
    EstimateSingle(summary);
  }

  /** A history left as it is because nothing can be folded obeys the ceiling without a summary. */
  lemma UnfoldableBound(history: seq<Item>, budget: int)
    requires Where(Summaries, history) == []
    requires |Recent(history, budget)| == |GroupsOf(Where(Conversation, history))|
    ensures 4 * EstimateTokens(history) <= RetainedCeiling(history, budget)
  {
    LosslessSplit(history, budget);
    var kept := Where(Instructions, history) + Flatten(Recent(history, budget));
    assert Removed(history, budget) == [];
    assert multiset(kept) == multiset(history);
    EstimatePermutation(kept, history);
    RetainedBound(history, budget);
  }

  // ----- Compacting a compacted history -----

  lemma FlattenedGroupsAreConversation(history: seq<Item>, budget: int, x: Item)
    requires x in Flatten(Recent(history, budget))
    ensures PartOf(x) == Conversation
  {
    var conversation := Where(Conversation, history);
    var recent := Recent(history, budget);
    FlattenIn(recent, x);
    var i :| 0 <= i < |recent| && x in recent[i];
    var at := |GroupsOf(conversation)| - |recent| + i;
    GroupsPartitionByKey(conversation, at, at, x, x);
    WhereIn(Conversation, history, x);
  }

  lemma SuffixRegroups(history: seq<Item>, cut: nat)
    requires cut <= |GroupsOf(history)|
    ensures GroupsOf(Flatten(GroupsOf(history)[cut..])) == GroupsOf(history)[cut..]
  {
    var keys := GroupKeys(history);
    GroupKeysFacts(history);
    MembersKeyed(history, keys[cut..]);
    assert GroupsOf(history)[cut..] == MembersOf(history, keys[cut..]);
    hide *;
    RegroupFlattened(MembersOf(history, keys[cut..]), keys[cut..]);
  }

  lemma RecentRegroups(history: seq<Item>, budget: int)
    ensures GroupsOf(Flatten(Recent(history, budget))) == Recent(history, budget)
  {
    hide GroupsOf, Flatten, KeptCount, Where;
    var conversation := Where(Conversation, history);
    SuffixRegroups(conversation, |GroupsOf(conversation)| - |Recent(history, budget)|);
  }

  lemma InstructionsAre(history: seq<Item>, x: Item)
    requires x in Where(Instructions, history)
    ensures PartOf(x) == Instructions
  {
    WhereIn(Instructions, history, x);
  }

  /** Where the three stretches of an output end up. */
  lemma StretchesSplitBack(system: seq<Item>, summary: Item, tail: seq<Item>)
    requires PartOf(summary) == Summaries
    requires forall x :: x in system ==> PartOf(x) == Instructions
    requires forall x :: x in tail ==> PartOf(x) == Conversation
    ensures var output := system + [summary] + tail;
            && Where(Instructions, output) == system
            && Where(Summaries, output) == [summary]
            && Where(Conversation, output) == tail
  {
    hide Where, PartOf;
    SplitThree(Instructions, system, summary, tail);
    SplitThree(Summaries, system, summary, tail);
    SplitThree(Conversation, system, summary, tail);
    WhereAll(Instructions, system);
    WhereNone(Instructions, tail);
    WhereNone(Summaries, system);
    WhereNone(Summaries, tail);
    WhereNone(Conversation, system);
    WhereAll(Conversation, tail);
  }

  lemma SummaryIsSummary(text: string, clock: string)
    ensures PartOf(SummaryItem(text, clock)) == Summaries
  {
    hide EstimateText;
  }

  /** The output splits back into the same instructions, the one new summary and the same recent
      groups, so repeated compaction always folds exactly one earlier summary. */
  lemma CompactedSplitsBack(history: seq<Item>, budget: int, text: string, clock: string)
    ensures var summary := SummaryItem(text, clock);
            var output := Where(Instructions, history) + [summary] + Flatten(Recent(history, budget));
            && Where(Instructions, output) == Where(Instructions, history)
            && Where(Summaries, output) == [summary]
            && Where(Conversation, output) == Flatten(Recent(history, budget))
            && GroupsOf(Where(Conversation, output)) == Recent(history, budget)
  {
    hide *;
    var system, tail := Where(Instructions, history), Flatten(Recent(history, budget));
    forall x | x in system ensures PartOf(x) == Instructions {
      InstructionsAre(history, x);
    }
    forall x | x in tail ensures PartOf(x) == Conversation {
      FlattenedGroupsAreConversation(history, budget, x);
    }
    SummaryIsSummary(text, clock);
    StretchesSplitBack(system, SummaryItem(text, clock), tail);
    RecentRegroups(history, budget);
  }

  lemma SplitThree(p: Part, a: seq<Item>, x: Item, b: seq<Item>)
    ensures Where(p, a + [x] + b) == Where(p, a) + (if PartOf(x) == p then [x] else []) + Where(p, b)
  {
    WhereConcat(p, a + [x], b);
    WhereConcat(p, a, [x]);
    assert [x][..0] == [];
    assert Where(p, [x]) == if PartOf(x) == p then [x] else [];
  }

  // ----- The algorithms -----

  /** The index map of groupHistory: every key so far, at the position of its group. */
  predicate Indexed(indexes: map<string, nat>, keys: seq<string>) {
    && (forall k :: k in indexes ==> indexes[k] < |keys| && keys[indexes[k]] == k)
    && (forall k :: k in keys ==> k in indexes)
  }

  /** One turn of groupHistory: the item joins the group of its key, or opens one at the end. */
  lemma GroupNext(history: seq<Item>, n: nat, indexes: map<string, nat>)
    requires n < |history| && Indexed(indexes, GroupKeys(history[..n]))
    ensures var item, key := history[n], GroupKey(history[n]);
            var groups, next := GroupsOf(history[..n]), GroupsOf(history[..n + 1]);
            && |groups| == |GroupKeys(history[..n])|
            && (if key in indexes then
                  && indexes[key] < |groups|
                  && next == groups[indexes[key] := groups[indexes[key]] + [item]]
                  && Indexed(indexes, GroupKeys(history[..n + 1]))
                else
                  && next == groups + [[item]]
                  && Indexed(indexes[key := |groups|], GroupKeys(history[..n + 1])))
  {
    hide GroupsOf, GroupKeys, GroupKey;
    var item := history[n];
    GroupCount(history[..n]);
    assert history[..n + 1] == history[..n] + [item];
    if GroupKey(item) in indexes {
      GroupsExtend(history[..n], item, indexes[GroupKey(item)]);
    } else {
      GroupsOpen(history[..n], item);
    }
  }

  /** Every item is in a group, and two items are in one group exactly when they belong together. */
  lemma GroupsPartition(history: seq<Item>)
    ensures forall i, j, x, y | 0 <= i < |GroupsOf(history)| && 0 <= j < |GroupsOf(history)|
              && x in GroupsOf(history)[i] && y in GroupsOf(history)[j] :: Together(x, y) <==> i == j
    ensures forall x :: x in history <==> exists i :: 0 <= i < |GroupsOf(history)| && x in GroupsOf(history)[i]
  {
    hide GroupsOf, Together;
    var groups := GroupsOf(history);
    forall i, j, x, y | 0 <= i < |groups| && 0 <= j < |groups| && x in groups[i] && y in groups[j]
      ensures Together(x, y) <==> i == j
    {
      GroupsPartitionByKey(history, i, j, x, y);
    }
    GroupsFlattenMultiset(history);
    forall x ensures x in history <==> exists i :: 0 <= i < |groups| && x in groups[i] {
      FlattenIn(groups, x);
      assert x in multiset(Flatten(groups)) <==> x in multiset(history);
    }
  }

  /** groupHistory: one pass that appends each item to its group, found through an index map. */
  method GroupHistory(history: seq<Item>) returns (groups: seq<seq<Item>>)
    ensures groups == GroupsOf(history)
    ensures forall i, j, x, y | 0 <= i < |groups| && 0 <= j < |groups| && x in groups[i] && y in groups[j] ::
              Together(x, y) <==> i == j
    ensures forall x :: x in history <==> exists i :: 0 <= i < |groups| && x in groups[i]
  {
    groups := [];
    var indexes: map<string, nat> := map[];
    assert history[..0] == [];
    for n := 0 to |history|
      invariant groups == GroupsOf(history[..n]) && Indexed(indexes, GroupKeys(history[..n]))
    {
      hide *;
      GroupNext(history, n, indexes);
      var item := history[n];
      var key := GroupKey(item);
      if key !in indexes {
        indexes := indexes[key := |groups|];
        groups := groups + [[item]];
      } else {
        groups := groups[indexes[key] := groups[indexes[key]] + [item]];
      }
    }
    assert history[..|history|] == history;
    hide GroupsOf, Together;
    GroupsPartition(history);
  }

  /** The shrink loop: while the retained prompt is too large, the oldest recent group joins the
      candidates for folding. */
  method ShrinkRecent(system: seq<Item>, groups: seq<seq<Item>>, budget: int)
    returns (recent: seq<seq<Item>>, folded: seq<seq<Item>>)
    ensures var k := KeptCount(system, groups, budget, Min(MIN_RECENT_GROUPS, |groups|));
            recent == LastGroups(groups, k) && folded == groups[..|groups| - k]
  {
    var k: nat := Min(MIN_RECENT_GROUPS, |groups|);
    recent := groups[|groups| - k..];
    folded := groups[..|groups| - k];
    while |recent| > 0 && 4 * EstimateTokens(system + Flatten(recent)) > 3 * budget
      invariant k == |recent| <= |groups|
      invariant recent == LastGroups(groups, k) && folded == groups[..|groups| - k]
      invariant KeptCount(system, groups, budget, k)
                == KeptCount(system, groups, budget, Min(MIN_RECENT_GROUPS, |groups|))
    {
      var oldest := recent[0];
      recent := recent[1..];
      folded := folded + [oldest];
      k := k - 1;
    }
  }

  lemma FlattenCandidates(prior: seq<Item>, folded: seq<seq<Item>>)
    ensures Flatten((if |prior| > 0 then [prior] else []) + folded) == prior + Flatten(folded)
  {
    FlattenConcat(if |prior| > 0 then [prior] else [], folded);
    assert [prior][..0] == [];
  }

  /** compactHistory. The last postcondition is the token bound: with instructions of at most three
      quarters of the budget, every outcome stays within the budget plus 23. */
  method CompactHistory(history: seq<Item>, contextWindow: int, maxOutputTokens: Option<int>,
                        summarizer: Summarizer, clock: string, force: bool)
    returns (r: Result<CompactionResult, AbortError>)
    ensures var output := if maxOutputTokens.Some? then maxOutputTokens.value else 4_096;
            Budget(contextWindow, maxOutputTokens)
            == if contextWindow - output < 1_024 then 1_024 else contextWindow - output
    ensures var budget := Budget(contextWindow, maxOutputTokens);
            var estimate := EstimateTokens(history);
            if (!force && 20 * estimate <= 17 * budget)
               || (Where(Summaries, history) == []
                   && |Recent(history, budget)| == |GroupsOf(Where(Conversation, history))|)
            then r == Ok(CompactionResult(history, false, [], None, estimate))
            else if summarizer == Aborted then r == Err(AbortError)
            else
              var removed := Removed(history, budget);
              var summary := SummaryItem(SummaryText(removed, summarizer, budget), clock);
              var output := Where(Instructions, history) + [summary] + Flatten(Recent(history, budget));
              r == Ok(CompactionResult(output, true, Ids(removed), Some(summary), EstimateTokens(output)))
              && summary.kind == ContextSummary && summary.role == Some(User)
              && summary.text == Some(SummaryText(removed, summarizer, budget))
              && summary.id == "context-summary-" + clock
    ensures r.Ok? ==>
              4 * EstimateTokens(r.value.history)
                <= RetainedCeiling(history, Budget(contextWindow, maxOutputTokens))
                   + Budget(contextWindow, maxOutputTokens) + 93
    ensures var budget := Budget(contextWindow, maxOutputTokens);
            r.Ok? && 4 * EstimateTokens(Where(Instructions, history)) <= 3 * budget ==>
              EstimateTokens(r.value.history) <= budget + 23
  {
    hide Where, GroupsOf, Flatten, EstimateTokens, KeptCount, SummaryText, ItemTokens;
    var budget := Budget(contextWindow, maxOutputTokens);
    var estimated := EstimateTokens(history);
    if !force && 20 * estimated <= 17 * budget {
      return Ok(CompactionResult(history, false, [], None, estimated));
    }
    var system := Where(Instructions, history);
    var priorSummaries := Where(Summaries, history);
    var conversation := Where(Conversation, history);
    var groups := GroupHistory(conversation);
    var recent, folded := ShrinkRecent(system, groups, budget);
    var candidates := (if |priorSummaries| > 0 then [priorSummaries] else []) + folded;
    if |candidates| == 0 {
      UnfoldableBound(history, budget);
      return Ok(CompactionResult(history, false, [], None, estimated));
    }
    if summarizer == Aborted {
      return Err(AbortError);
    }
    var removed := Flatten(candidates);
    FlattenCandidates(priorSummaries, folded);
    assert removed == Removed(history, budget);
    var text := SummaryText(removed, summarizer, budget);
    var summary := SummaryItem(text, clock);
    var output := system + [summary] + Flatten(recent);
    SummaryBound(removed, summarizer, budget, clock);
    CompactedBound(history, budget, summary);
    r := Ok(CompactionResult(output, true, Ids(removed), Some(summary), EstimateTokens(output)));
  }
}
