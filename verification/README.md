# Clovy protocol models

Dafny models of seven stateful components of Clovy, with proofs of the properties their users rely on. Each component is modelled from its own source file; network, disk, native windows, the language model and the clock appear only as parameters whose values are arbitrary.

* **Browser approval broker** (`Broker.dfy`, `BrokerProtocol.dfy`, `BrokerTheorems.dfy`). Sessions, tabs, parked approvals, resolved outcomes and allowed sites. The class performs the critical sections in place; the protocol lets agent calls, user answers, expiry, revocation, tab release, session starts and shutdown interleave at every await and every release of the state mutex, and keeps a history of what was inspected, parked, answered, sent and carried out. The element policy is any function of the action and the element.
* **MCP client** (`McpReader.dfy`, `McpTransport.dfy`, `McpSession.dfy`, `McpDiscovery.dfy`). Bounded reading of JSON-RPC 2.0 lines, requests over a child process or a streaming HTTP endpoint with parked elicitations (MCP revision 2025-06-18), the persistent session slot with its retry rule, request ids and page cache, and cursor pagination. The server is an arbitrary stream of bytes, chunks and refusals; JSON parsing is any function from a line to a message.
* **Virtual cursor** (`Cursor.dfy`, `Drag.dfy`). Epochs and revisions shared by helper threads and closures queued on the main thread in any order, and the timed drag schedule.
* **History compaction** (`Compaction.dfy`). Grouping, suffix selection, summary folding and the token bound.
* **Run service** (`RunService.dfy`, `RunProtocol.dfy`). Starts, resumes, steering, cancellation, shutdown and settlement of run segments.
* **Streaming chat normaliser and collector** (`OrderedMap.dfy`, `Normalizer.dfy`, `Text.dfy`). The rewrite of chunk streams and what collecting them yields.
* **Extension tab and share registries** (`Tabs.dfy`, `TabProtocol.dfy`). Tab ownership, reference epochs and one-use shares across the controller's awaits.

Where a component is a protocol, `Enabled` says which steps may happen, `Apply` what a step does, `IsRun` what a run is, and every main result is about all runs. Fields described as history record what happened and never influence a step.

Points where the code does less than a reader might expect, kept as they are:

* Reasoning text is preserved by the normaliser unless a delta carries both reasoning fields with different texts; `ReasoningChangesExactlyWhenBothDiffer` gives the exact condition and `BothReasoningsExample` an input.
* A cursor point that has passed its check just before a hide is still drawn after it, because the check and the drawing are separate critical sections; `DrawingsAfterHide` says exactly which drawings those are, and `AcceptedPointIsDrawnAfterHide` gives the run. The queued hide then removes the panel (`HideRemovesExactlyOlderPanels`).
* The cursor's revision counter saturates; `SaturationRevivesHiddenPoints` says exactly when a hidden point is accepted again, and the run theorems speak of runs in which it does not.
* Request ids saturate too: `SaturatedIdRepeats` states that an id is used twice in a row exactly then.
* A tab already owned when its share is accepted costs the share (`TabProtocol.ApplyBeginAccept`).
* A run's engine events are forwarded whether or not the run is still active. A run cancelled while a tool call is in flight reports the tool's failure after `run.cancelled`, and that report can arrive inside a successor with the same session and run id; `LateToolFailure` gives both runs, and `AfterSettlement` says exactly when anything follows an ending and what it can be.
* Only the approved path of the broker rechecks that a session holds the tab; a direct action is admitted by session and access alone.

## Model

| member | source | states |
|---|---|---|
| BrokerTheorems.EveryDispatchIsJustified | src-tauri/src/browser_broker.rs:1521-1833 | In every interleaving each click, fill or press acts on the element and origin just inspected and is either a routine action, or acts on an approval parked for exactly that key, element and origin and approved by the user less than ten minutes after, or is at a site the user allowed for that session through an earlier executed approval; a sensitive field is never acted on |
| BrokerTheorems.AnswersMeetTheDeadline | src-tauri/src/browser_broker.rs:1649-1719 | Ten minutes or more after the step that parked an approval an answer ends it as not executed whatever it says; before that an approving one takes it for execution and any other declines it |
| BrokerTheorems.ScansFindTheExpired | src-tauri/src/browser_broker.rs:839-851 | A scan finds a pending approval exactly if it was parked ten minutes before or earlier |
| BrokerTheorems.ExpiryIsExact | src-tauri/src/browser_broker.rs:852-868 | The removals after a scan end exactly the approvals it found, each as not executed, and leave the others |
| BrokerTheorems.ApprovalsEndExactlyWhen | src-tauri/src/browser_broker.rs:533-869 | A pending approval stays as parked until exactly one of: attended use withdrawn, its tab or session ended, found expired, answered for good, or taken for execution |
| BrokerTheorems.CallsTakeTheirCourse | src-tauri/src/browser_broker.rs:1521-1833 | Which section follows which in an interaction, a response and a close, under which condition on access, policy, session, tab, element class and earlier outcome, and what each writes to the history |
| BrokerTheorems.LockIsAlwaysReleased | src-tauri/src/browser_broker.rs:1521-1833 | In every reachable state the call that holds the action lock can go on at any time without failing, nothing but its own sections happens under the lock, and the lock is released after at most seven of them |
| BrokerTheorems.OutcomesAreRecorded | src-tauri/src/browser_broker.rs:1781-1833 | After an approval is retired or carried out, its key has exactly the outcome it came to and nothing of it is pending |
| BrokerTheorems.ApprovalDispatchesAtMostOnce | src-tauri/src/browser_broker.rs:1649-1833 | Each approval id causes at most one dispatch over a whole run |
| BrokerTheorems.ApprovedActionsAreRechecked | src-tauri/src/browser_broker.rs:1711-1762 | Before an approved action is sent, and after it was taken, access, the remote policy and the session's hold on the tab were each checked again and found in order |
| BrokerTheorems.InteractionsWereAdmitted | src-tauri/src/browser_broker.rs:1521-1546 | An interaction in progress belongs to a call that was admitted under the lock for an attended session and has held the lock ever since |
| BrokerTheorems.DirectDispatchesWereAdmitted | src-tauri/src/browser_broker.rs:1521-1617 | Every action sent without an approval comes from such a call, from its admission to the dispatch |
| BrokerTheorems.ReplayUntilCleared | src-tauri/src/browser_broker.rs:1547-1552 | Once an action key has an outcome, declined or expired ones and tabs the session does not hold included, that same outcome is kept and the action is not sent, until its tab is released or closed, its session closed, or all attended sessions removed |
| BrokerTheorems.OutcomeEndsExactlyWhenCleared | src-tauri/src/browser_broker.rs:2095-2114 | A step drops an outcome exactly when it is one of those, and then the tab is no longer in its session |
| BrokerTheorems.ReplayWhileTabLives | src-tauri/src/browser_broker.rs:1547-1552 | In particular the outcome is replayed for as long as the key's tab is seen in its session |
| BrokerTheorems.ApprovedActionIsSentOnce | src-tauri/src/browser_broker.rs:1781-1833 | An approved action that was sent is not sent again until such a step, whatever the transport answered and even if no receipt could be written |
| BrokerTheorems.WithdrawnApprovalNeverActs | src-tauri/src/browser_broker.rs:533-869 | An approval that leaves the pending ones by revocation, expiry, decline or the end of its tab is never taken for execution and never acts in the rest of the run |
| BrokerTheorems.EndedTabIsForgotten | src-tauri/src/browser_broker.rs:2095-2114 | When a tab is released or closed, or its session closed, every pending approval, action entry and outcome for its keys is gone |
| BrokerTheorems.RevocationWithdrawsApprovals | src-tauri/src/browser_broker.rs:533-730 | Revoking attended access, by the switch, the policy or shutdown, leaves no attended session, and an approval pending at that point never acts afterwards unless it had already been taken |
| BrokerTheorems.NoSessionOutlivesItsAccess | src-tauri/src/browser_broker.rs:533-684 | In every reachable state a blocked transition leaves only routine sessions, no session is of a disabled transport kind, and managed sessions are exactly the routine ones |
| BrokerTheorems.OvertakenStartFails | src-tauri/src/browser_broker.rs:1186-1280 | A start overlapped by a revocation of its caller (access, policy, routine or shutdown) never reports success and its session never comes back |
| BrokerTheorems.StartSucceedsExactlyWhenOwned | src-tauri/src/browser_broker.rs:1251-1280 | A start reports success exactly when its caller is still admitted and its session still exists |
| BrokerTheorems.RevocationIsExact | src-tauri/src/browser_broker.rs:458-684 | Turning attended access off, by the switch or by the policy, leaves every routine session unchanged and removes the others; revoking a routine removes that routine's sessions and no other |
| BrokerTheorems.AdmittedMeans | src-tauri/src/browser_broker.rs:1941-1958 | The attended agent is admitted while attended use is allowed, not blocked and access is given; a routine while managed use is allowed and it has an enabled grant |
| BrokerTheorems.SettingsAreSet | src-tauri/src/browser_broker.rs:533-684 | The switch, the policy, the grants and the access flag are what the last step that sets them said, and no other step changes them |
| BrokerTheorems.StartsInsertSessions | src-tauri/src/browser_broker.rs:1186-1230 | A start of an admitted caller inserts its session, of its kind, without tabs or allowed sites; any other start fails at once and inserts nothing |
| BrokerTheorems.StartsGoOn | src-tauri/src/browser_broker.rs:1230-1280 | A start whose transport fails has failed and its session is gone; otherwise it waits for the final check |
| BrokerTheorems.StartsNeverWait | src-tauri/src/browser_broker.rs:1230-1280 | In every reachable state a start that is not over can go on without the lock, whatever its transport answers |
| BrokerTheorems.SessionsChangeExactly | src-tauri/src/browser_broker.rs:1359-1374 | A session that outlasts a step has a tab afterwards exactly if it had it and the step does not take it or it is given one nobody has, and may use a site exactly if it could before or an executed approval has just allowed it |
| BrokerTheorems.MapsStayCoherent | src-tauri/src/browser_broker.rs:1640-1643 | In every reachable state pending-by-id and pending-by-action are mutually inverse, no key is both pending and resolved, and no tab is in two sessions |
| BrokerState.ListedTabs | src-tauri/src/browser_broker.rs:1458-1490 | A listing shows exactly those of the extension's tabs that the session owns, and an active tab only if owned |
| BrokerState.BrowserBroker.SetEnabled | src-tauri/src/browser_broker.rs:533-568 | Disabling blocks starts, drops every pending approval and outcome and removes exactly the attended sessions; enabling only unblocks |
| BrokerState.BrowserBroker.SetTransportPolicy | src-tauri/src/browser_broker.rs:631-665 | The new policy removes exactly the sessions of disabled kinds, and the approvals and outcomes if attended use is disabled |
| BrokerState.BrowserBroker.ReleaseTab | src-tauri/src/browser_broker.rs:781-803 | The tab leaves every session that has it, and the approvals and outcomes of those sessions on that tab are forgotten |
| BrokerState.BrowserBroker.RemoveActionsMatching | src-tauri/src/browser_broker.rs:2095-2114 | The loop forgets exactly the matching approvals, their action entries and the matching outcomes, and returns the approvals |
| BrokerState.BrowserBroker.InsertTab | src-tauri/src/browser_broker.rs:1359-1374 | A tab is accepted exactly when no session has it and the session still exists |
| BrokerState.BrowserBroker.ExpiredApprovals | src-tauri/src/browser_broker.rs:839-851 | The snapshot holds exactly the approvals parked ten minutes ago or earlier, and each once |
| McpReader.ReaderRefinesFirstRelevant | src-tauri/src/agent_mcp.rs:2632-2656 | The reader returns an event exactly when, within the byte limit and the first 64 lines, some line is an elicitation or carries the request's id and all lines before it are other messages; it is the first such line, and the pipe is left right behind it |
| McpReader.ReaderFails | src-tauri/src/agent_mcp.rs:2632-2704 | Behind any other messages a line that is too long, the end of the pipe, a pipe that stays silent, a line without a message and an error response each give their own failure, and so do 64 other messages |
| McpReader.ReadBoundedLine | src-tauri/src/agent_mcp.rs:2686-2704 | The byte loop returns the bytes up to the first newline if they fit, fails as too large as soon as they cannot, and otherwise reports the end of the pipe |
| McpReader.ReadStdioResponseEvent | src-tauri/src/agent_mcp.rs:2632-2656 | The line loop computes the event, the consumed count and the rest of the pipe that the refinement speaks of |
| McpTransport.OneRequestStaysWithinLimit | src-tauri/src/agent_mcp.rs:2485-2543 | Over all events of one request, parks, resumes and the response included, the lines read for it never exceed the output limit, a parked count is their exact total, and a response carries the request's id |
| McpTransport.LinkAsks | src-tauri/src/agent_mcp.rs:2485-2543 | An ended process is told nothing; otherwise, on either transport, an idle request writes its own frame and at most one answer, a parked one nothing without an answer and exactly that answer with one; any reply carries the id of the request that was waiting; which replies there are is said by the next five rows |
| McpTransport.HttpRequestComesTo | src-tauri/src/agent_mcp.rs:3024-3206 | Over HTTP, fresh or resumed, a request whose uncut body fits and asks nothing new returns a message if and only if it is the first with its id and no error, and fails as a protocol error otherwise; a cut stream, a chunk beyond the limit and the first unanswered elicitation end or park it with exactly what was read and what is to come |
| McpTransport.RefusedPostFails | src-tauri/src/agent_mcp.rs:2978-3023 | A refused POST fails the request with the matching failure and parks nothing |
| McpTransport.StdioRequestFinds | src-tauri/src/agent_mcp.rs:2485-2543 | Over a live process, fresh or resumed, a request returns a message if and only if it is the response in the first relevant line within the limits, and parks exactly if that line is an elicitation |
| McpTransport.LostProcessFails | src-tauri/src/agent_mcp.rs:2485-2543 | A process that has ended or takes no input fails the request and parks nothing |
| McpTransport.AnswerAheadIsResume | src-tauri/src/agent_mcp.rs:2485-2543 | On either transport an answer brought along is used exactly as if the request had parked and been resumed with it |
| McpTransport.StdioMcpSession.Request | src-tauri/src/agent_mcp.rs:2485-2543 | The process session's request, with its read loop and parked state updated in place, is the exchange the lemmas speak of |
| McpTransport.HttpMcpSession.Request | src-tauri/src/agent_mcp.rs:2742-2823 | The HTTP session's request, with its chunk loop and parked response, is the exchange whose outcome HttpRequestComesTo decides |
| McpSession.OneRequestOneCall | src-tauri/src/agent_mcp.rs:2202-2345 | One request for a tool call writes at most one tools/call frame whatever fails; a listing writes none and is tried at most twice |
| McpSession.RequestIsOneExchange | src-tauri/src/agent_mcp.rs:2242-2345 | An up-to-date request asks the open link, or a new one, with the next id; its result is that exchange's, a response of a listing is kept, a lost transport or a timeout closes the slot, and any other failure leaves it open |
| McpSession.LostListingIsAskedAgain | src-tauri/src/agent_mcp.rs:2275-2330 | A listing that lost its transport is asked once more on a new one, and that result counts |
| McpSession.UnusableTransportFails | src-tauri/src/agent_mcp.rs:2265-2284 | A failed start, or a lifecycle that moved on before or during it, ends the request without a frame and leaves nothing open |
| McpSession.OutdatedRequestsAreRefused | src-tauri/src/agent_mcp.rs:2202-2235 | A request whose lifecycle has moved on is refused without a frame, and under the lock the slot is closed |
| McpSession.ResumeWritesOnlyTheAnswer | src-tauri/src/agent_mcp.rs:2485-2511 | While a request is parked no call writes a tools/call frame, whatever fails; a tool call writes exactly the one answer if it has one and gets through to the transport, and nothing otherwise, whatever comes of it; a response is a cached page or carries the parked request's id; what stays parked is that request |
| McpSession.ChainWritesOneCall | src-tauri/src/agent_mcp.rs:2202-2345 | While the slot is not closed a tool call and all its parks and resumes write exactly one tools/call frame in total |
| McpSession.RequestIdsIncrease | src-tauri/src/agent_mcp.rs:2285-2286 | On one transport request ids increase strictly below saturation, and a parked request is the last one written, followed only by answers |
| McpSession.LateRepliesAreNotReturned | src-tauri/src/agent_mcp.rs:2645-2654 | In every run a reply that is not a cached page answers the last request written on its transport, resumed or not, and below saturation no earlier request there had its id |
| McpSession.SaturatedIdRepeats | src-tauri/src/agent_mcp.rs:2286 | Two successive requests on one transport carry the same id exactly when the counter is saturated |
| McpSession.ChangedServerGetsNewTransport | src-tauri/src/agent_mcp.rs:2236-2241 | A request for a changed server definition closes the slot first, so nothing more is written to the old transport |
| McpSession.ChangedServerStartsOver | src-tauri/src/agent_mcp.rs:2236-2241 | A changed server is met as by a slot with nothing open, nothing cached and the first request id |
| McpSession.PagesNeedOpenLink | src-tauri/src/agent_mcp.rs:2833-2842 | Cached pages never outlive the transport they came from |
| McpSession.McpSessionSlot.Request | src-tauri/src/agent_mcp.rs:2202-2345 | The slot's request with its lifecycle checks, retry loop and cache, in place, is the function the session theorems speak of |
| McpDiscovery.DiscoveryAgreesWithCache | src-tauri/src/agent_mcp.rs:2242-2268 | After a successful discovery round with no close since its first page and no other round, discovering again while tool calls are parked returns the same results, and each of its requests writes no frame and leaves the slot and the parked request as they were; tool calls of other turns may fall between the pages of either round and in between |
| McpDiscovery.DiscoverySucceedsExactlyWhenComplete | src-tauri/src/agent_mcp.rs:2057-2100 | Discovery succeeds exactly when following cursors from the start ends within 20 pages, with cursors bounded and distinct, at most 512 tools and at most 4 MiB of encodings, and then yields the pages' tools in order |
| McpDiscovery.DiscoveryFailsWith | src-tauri/src/agent_mcp.rs:2057-2100 | A discovery fails with the first failed request's own failure, and as a protocol error for a result without a page, a page that oversteps a limit or repeats a cursor, and a 21st page |
| McpDiscovery.DiscoveryRound | src-tauri/src/agent_mcp.rs:2057-2120 | On a slot discovery makes between 1 and 20 requests, the first without a cursor and each later one with the previous page's cursor, goes on after exactly the pages that name an admissible next one, and succeeds exactly for complete results |
| McpDiscovery.DiscoverManagedTools | src-tauri/src/agent_mcp.rs:2057-2100 | The pagination loop over the slot object computes that discovery |
| CursorLifecycle.PanelMirrorsRecord | src-tauri/src/computer_use_cursor.rs:72-138 | Whenever the main thread is not touching it, the panel is visible exactly when a native revision is recorded, and the record names the revision that drew it |
| CursorLifecycle.HiddenPointsStayRejected | src-tauri/src/computer_use_cursor.rs:108-138 | No point queued before a hide, nor a later frame of a drag begun before it, passes its acceptance check after that hide |
| CursorLifecycle.DrawingsAfterHide | src-tauri/src/computer_use_cursor.rs:291-304 | After a hide a drawing stems from no newer motion exactly when the main thread had accepted that very point before the hide and held it ever since, so of everything that existed at the hide at most that one point is drawn |
| CursorLifecycle.AcceptedPointIsDrawnAfterHide | src-tauri/src/computer_use_cursor.rs:291-304 | A concrete run in which a point queued and checked before a hide is drawn after it |
| CursorLifecycle.HideRemovesExactlyOlderPanels | src-tauri/src/computer_use_cursor.rs:218-233 | A queued hide removes the panel exactly when the panel was not drawn by a newer motion |
| CursorLifecycle.DrainedPanelIsNewerThanStop | src-tauri/src/computer_use_cursor.rs:218-233 | Once no hide is queued, a visible panel was drawn after the last hide for a motion accepted after it, so without such a motion the cursor is hidden |
| CursorLifecycle.MovedSinceHideMeaning | src-tauri/src/computer_use_cursor.rs:88-113 | The history flag used above holds exactly when a motion was accepted after the last hide |
| CursorLifecycle.LatestHide | src-tauri/src/computer_use_cursor.rs:108-113 | The other history fields name the revision and epoch of the latest hide |
| CursorLifecycle.ClosuresAreConserved | src-tauri/src/computer_use_cursor.rs:235-304 | Every point or hide closure that shows, moves, drags, frames and hides schedule has run once or is still queued, and there are no others |
| CursorLifecycle.DragsAreAccepted | src-tauri/src/computer_use_cursor.rs:256-289 | The drags that go on producing frames are exactly the accepted ones that take time |
| CursorLifecycle.LastPointIsLastTarget | src-tauri/src/computer_use_cursor.rs:72-113 | The point a show repeats is the target of the last motion accepted since the last hide |
| CursorLifecycle.PointIsDrawnExactlyWhenCurrent | src-tauri/src/computer_use_cursor.rs:291-304 | A closure's point is drawn exactly if its epoch was current when the closure began and at its check it is still the newest point of that epoch's visible cursor |
| CursorLifecycle.ClosuresEnd | src-tauri/src/computer_use_cursor.rs:115-138 | A drawn point is on screen and recorded when its closure ends, a removed panel gone and unrecorded |
| CursorLifecycle.SaturationRevivesHiddenPoints | src-tauri/src/computer_use_cursor.rs:108-113 | After a hide and a new show of the same epoch, a point that was current before the hide is accepted again exactly when the revision counter was already at its maximum |
| CursorLifecycle.CursorState.ApplyMotion | src-tauri/src/computer_use_cursor.rs:88-106 | A motion is accepted exactly for the visible, current epoch, takes a new revision and remembers its target |
| DragSchedule.ScheduleDrag | src-tauri/src/computer_use_cursor.rs:256-289 | A drag's first frame is immediate; a timed drag has one frame per 16 ms begun, each at most 16 ms after the one before, at its share of the straight way and at that share of the time rounded down; the waits add up to the duration and the last point is the target |
| DragSchedule.OffsetGap | src-tauri/src/computer_use_cursor.rs:269-281 | For every positive duration successive frame offsets never decrease and differ by at most 16 ms, so the subtraction cannot underflow |
| DragSchedule.OffsetRoundsDown | src-tauri/src/computer_use_cursor.rs:269-281 | An offset is the frame's share of the duration rounded down to whole milliseconds |
| DragSchedule.OffsetsFitU64 | src-tauri/src/computer_use_cursor.rs:269-281 | With the durations the notification parser admits, no product of the schedule overflows 64 bits |
| DragSchedule.LastOffset | src-tauri/src/computer_use_cursor.rs:269-281 | The last frame offset is the whole duration |
| DragSchedule.InterpolateOnSegment | src-tauri/src/computer_use_cursor.rs:306-311 | Over the reals an interpolated point lies between the endpoints, and at full progress it is the target |
| Compaction.CompactHistory | agent-runtime/src/compaction.ts:17-91 | The history is left alone exactly if it takes at most 85 percent of the budget and compaction is not forced, or nothing can be folded; otherwise the output is the instructions, one summary of the removed items and the recent groups; whatever the outcome, its estimate is at most the budget plus 23 when the instructions take at most three quarters of it |
| Compaction.SummarySays | agent-runtime/src/compaction.ts:120-171 | A model's summary counts if it is not blank, trimmed and cut to the budget's characters; otherwise every removed item with text is told in full and every other tool item by name, call and payload, line by line in order, cut at the front if too long |
| Compaction.PartsByKindAndRole | agent-runtime/src/compaction.ts:35-48 | Instructions are the system items that are no summaries, summaries the items of that kind, conversation the rest, each in order |
| Compaction.EstimateOfItem | agent-runtime/src/compaction.ts:93-102 | An item is estimated at its recorded size or a quarter of its text or payload rounded up, at least 1, and 8 more |
| Compaction.LosslessSplit | agent-runtime/src/compaction.ts:35-59 | As multisets the input is the kept instructions, the removed items and the kept conversation |
| Compaction.RecentIsLongestFittingSuffix | agent-runtime/src/compaction.ts:40-52 | The kept conversation is the longest suffix of at most six groups whose estimate, with the instructions, is at most three quarters of the budget |
| Compaction.NoGroupIsSplit | agent-runtime/src/compaction.ts:104-118 | Nothing removed from the conversation has the same group as anything kept, nor, outside groups, the same call, so no call is parted from its result |
| Compaction.CompactedSplitsBack | agent-runtime/src/compaction.ts:35-91 | The output splits back into the same instructions, the one new summary and the same recent groups, so one summary remains and older ones are folded in |
| Compaction.GroupsPartitionByKey | agent-runtime/src/compaction.ts:104-118 | Two grouped items are in the same group exactly when the first identifier each has, of its group, its call and its own, is the same |
| Compaction.GroupHistory | agent-runtime/src/compaction.ts:104-118 | The index-map loop computes the groups in order of first appearance: every item is in one, and two are together exactly when their first identifiers are the same |
| Compaction.ShrinkRecent | agent-runtime/src/compaction.ts:40-52 | The shrink loop terminates with the largest fitting suffix and everything before it folded |
| RunProtocol.ExactlyOneEnding | agent-runtime/src/service.ts:273-320 | A settled segment has emitted exactly one proper ending, in one piece, and nothing that only settlement emits before or after it; a live one none |
| RunProtocol.EndingTellsOutcome | agent-runtime/src/service.ts:273-320 | Among a settled segment's events are run.cancelled exactly if it was aborted or threw an abort, run.failed exactly if it threw anything else unaborted, and run.completed exactly if it finished unaborted without interruptions, right behind its usage and, exactly if there is one, its final message; otherwise all its interruptions in order right behind its usage |
| RunProtocol.OutcomeIsTheEngines | agent-runtime/src/service.ts:273-320 | The outcome a segment settles with is the one its engine's promise ended with |
| RunProtocol.AfterSettlement | agent-runtime/src/service.ts:322-325 | After its settlement a segment emits only what its engine sends, tool, text and steering reports and never an ending, and nothing if it never entered the engine; it stays silent exactly when the engine emits nothing more for it and sends off no more queued steering |
| RunProtocol.LateToolFailure | agent-runtime/src/sdk-engine.ts:281-306 | For every session and run id, a run cancelled during a tool call whose tool.failed follows run.cancelled, and one where it falls inside the live successor of the same run |
| RunProtocol.AbortAlwaysCancels | agent-runtime/src/service.ts:201-206 | An abort seen before settlement ends the segment with run.cancelled, and without one only an abort-like error does |
| RunProtocol.ShutdownIsFinal | agent-runtime/src/service.ts:266-271 | Shutdown aborts every unsettled segment and no other; from then on no run is accepted, and each of those segments ends with run.cancelled once it settles |
| RunProtocol.RunsNeedInitialization | agent-runtime/src/service.ts:361-363 | There is no run before the service is initialised |
| RunProtocol.CallsAreAdmittedExactlyWhen | agent-runtime/src/service.ts:41-66 | Starts, resumes, steers and cancels are taken up exactly between the first initialisation and the first shutdown of the run |
| RunProtocol.EverySegmentCanSettle | agent-runtime/src/service.ts:102-183 | In every reachable state an unsettled segment can take its own next step and none takes it back, so it settles after at most four; its engine callbacks work exactly once it was entered |
| RunProtocol.AbortedStartNeverRuns | agent-runtime/src/service.ts:102-158 | A start aborted before its compaction finished never reaches the engine and so never has an engine to emit for it |
| RunProtocol.LiveSegmentsHaveDistinctKeys | agent-runtime/src/service.ts:85-100 | Two unsettled segments never share a key |
| RunProtocol.SteeringExactlyOnce | agent-runtime/src/service.ts:185-199 | Per segment, what the model requests carried followed by what is queued is the accepted messages in order with later duplicates dropped, and each consumption event matches |
| RunProtocol.SteerArrives | agent-runtime/src/service.ts:185-199 | A steer call for an active run reaches it, trimmed, exactly if neither its id nor its text is blank; any other changes nothing |
| RunService.RunKeyInjective | agent-runtime/src/service.ts:378-380 | Run keys tell runs apart when session ids contain no NUL |
| RunService.RuntimeService.Steer | agent-runtime/src/service.ts:185-199 | Steering one run queues its trimmed message once per id and touches no other run |
| RunService.RuntimeService.Shutdown | agent-runtime/src/service.ts:266-271 | Shutdown aborts every active run and keeps their queues |
| RunService.RuntimeService.Settle | agent-runtime/src/service.ts:273-320 | Settling emits the ending that tells the outcome and frees the key, leaving other runs alone |
| StreamNormalizer.CollectedMeaningPreserved | agent-runtime/src/rpc-model-provider.ts:137-196 | Collecting the normalised stream gives the same choices, content, refusals, finish reasons and tool ids, types, names and order as collecting the raw one; a tool's arguments differ exactly when it was filled in |
| StreamNormalizer.ArgumentsChangeExactlyWhenFilled | agent-runtime/src/rpc-model-provider.ts:137-196 | A tool's arguments change exactly when at some chunk finishing its choice with tool calls all its pieces so far were blank; the text is then the raw one with what the first such chunk carried replaced by empty objects |
| StreamNormalizer.UnfinishedToolsAreUntouched | agent-runtime/src/rpc-model-provider.ts:137-196 | While a choice has not finished with tool calls its collected tools are those of the raw stream |
| StreamNormalizer.FinishingKeepsRealArguments | agent-runtime/src/rpc-model-provider.ts:137-196 | The first chunk finishing a choice with tool calls leaves a tool with a non-blank piece with exactly its raw arguments |
| StreamNormalizer.FinishingFillsEveryTool | agent-runtime/src/rpc-model-provider.ts:137-196 | In a choice finishing with tool calls every tool seen ends with non-blank arguments; unless an earlier chunk filled it, it ends with its raw text if any piece was non-blank, and otherwise with its blanks followed by one empty object per entry of the chunk, or by one |
| StreamNormalizer.ReasoningPreserved | agent-runtime/src/rpc-model-provider.ts:198-224 | A choice's collected reasoning is unchanged when none of its own deltas carries two different reasoning texts |
| StreamNormalizer.ReasoningChangesExactlyWhenBothDiffer | agent-runtime/src/rpc-model-provider.ts:198-224 | A delta's reasoning changes exactly when it carries two different texts |
| StreamNormalizer.BothReasoningsExample | agent-runtime/src/rpc-model-provider.ts:198-224 | A concrete delta whose collected reasoning changes |
| StreamNormalizer.SplittingContent | agent-runtime/src/rpc-model-provider.ts:297-368 | Splitting a content delta in two changes nothing collected |
| StreamNormalizer.SplittingArguments | agent-runtime/src/rpc-model-provider.ts:137-196 | Cutting a delta inside the arguments of any of its tool entries, before the finishing chunk, changes nothing collected |
| StreamNormalizer.ChunkNormalizer.NormalizeStream | agent-runtime/src/rpc-model-provider.ts:74-135 | The chunk loop with its state map computes the normalised stream |
| StreamNormalizer.CollectChatCompletion | agent-runtime/src/rpc-model-provider.ts:297-368 | The collecting loop computes the collected choices |
| StreamNormalizer.CollectedTexts | agent-runtime/src/rpc-model-provider.ts:297-330 | For each choice index the collected content, refusal and reasoning are the strings its deltas carry, one after another, and the finish reason is the last string one; an index is collected exactly if some value carries it |
| StreamNormalizer.CollectedTool | agent-runtime/src/rpc-model-provider.ts:331-343 | For each tool index of a choice the collected name and arguments are the strings its entries carry, one after another, and id and type the last strings or the defaults; a tool is collected exactly if some entry carries its index |
| StreamNormalizer.NormalizedDelta | agent-runtime/src/rpc-model-provider.ts:198-224 | In the normalised stream non-empty native reasoning appears as the only reasoning of its delta, and apart from the tools of finishing chunks everything else stays as it was |
| StreamNormalizer.FlatConcatenates | agent-runtime/src/rpc-model-provider.ts:313-315 | The choices of a stream are those of its chunks, one after another |
| TabProtocol.TabsHaveOneOwner | extension/src/browser.ts:26-130 | In every interleaving each tab is in at most one session |
| TabProtocol.SharesAreUsedOnce | extension/src/browser.ts:132-167 | A share id is consumed at most once and never while open, and a tab has at most one open offer |
| TabProtocol.AcceptOutcome | extension/src/browser.ts:1003-1022 | An accept succeeds exactly when the tab is attached and at that point shared to its session, and otherwise its session does not keep the tab |
| TabProtocol.OvertakenAcceptFails | extension/src/browser.ts:791-799 | An accept overtaken by a revoke, with no new offer since, is refused and leaves the tab unowned unless the controller itself opened that tab |
| TabProtocol.ReferencesAreCurrent | extension/src/browser.ts:70-86 | Every accepted reference carries its tab's current epoch |
| TabProtocol.OldReferencesStayStale | extension/src/browser.ts:63-86 | While a tab stays in its session a reference of an earlier epoch is never accepted again |
| TabProtocol.PageChangesDropReferences | extension/src/browser.ts:697-713 | A page change or an action on the page starts a new epoch and drops every reference |
| TabProtocol.OnlyOwnTabsAreClosed | extension/src/browser.ts:996-1062 | Only tabs the controller created, or that a tab it was acting on opened, are ever closed |
| TabProtocol.DepartedTabsAreForgotten | extension/src/browser.ts:714-729 | A closed or detached tab leaves its session, and a closed one loses its offer |
| TabProtocol.TabsChangeHands | extension/src/browser.ts:26-130 | A session has a tab after a step exactly if an accepted share or a finished open gives it a tab nobody has, or it had it and the step does not take it: a refused accept, a revoke of a shared tab, a close, a departure, a group change or a disconnect |
| TabProtocol.TabsAreClosedExactlyWhen | extension/src/browser.ts:996-1062 | A tab is closed exactly by an open that failed after creating it, a confirmed close or session end of a created tab, or as a popup of a tab being acted on |
| TabProtocol.OffersOpenExactlyWhen | extension/src/browser.ts:132-167 | An offer is open exactly from its making, for a tab nobody has, until it is taken up, replaced, revoked or its tab or the connection gone; a share is consumed exactly by a session accepting an open offer |
| TabProtocol.OpensGoOn | extension/src/browser.ts:996-1062 | An open begins for an existing session and goes from creation over grouping to joining, failing exactly when Chrome does, its session is gone or its tab was taken |
| TabProtocol.OpensCanEnd | extension/src/browser.ts:1024-1062 | An open that is not over can go on after its await, however it ends, and is over after at most three |
| TabProtocol.AcceptsAndClosesCanEnd | extension/src/browser.ts:996-1022 | An accepted share and a close can go on after their await, however it ends, and are then over |
| TabProtocol.CallsBegin | extension/src/browser.ts:996-1062 | An accept begins exactly with the tab its session gains, a close with a tab its session has and that tab's ownership |
| TabProtocol.ActionsNeedReferences | extension/src/browser.ts:847-880 | A tab is acted on exactly through one of its current references, and its popups are caught until that action ends |
| TabProtocol.SnapshotsGiveReferences | extension/src/browser.ts:77-82 | A snapshot of a tab's current epoch makes exactly the references it names acceptable; any other changes nothing |
| TabProtocol.SerialsTellSessionsApart | extension/src/browser.ts:26-43 | No two session objects share a number |
| TabProtocol.SessionsGoOn | extension/src/browser.ts:26-43 | Sessions begin empty, stay until closed or disconnected, and a finished group call sets the group of the very session object it was made for |
| TabRegistries.TaskTabRegistry.Add | extension/src/browser.ts:44-52 | A tab is added exactly when nobody has it and the session exists |
| TabRegistries.TaskTabRegistry.SetRefs | extension/src/browser.ts:77-82 | References are stored exactly for a snapshot of the tab's current epoch |
| TabRegistries.TaskTabRegistry.RemoveTab | extension/src/browser.ts:88-95 | The tab leaves the session; the group is forgotten with its last created tab and the active tab moves to the first one left |
| TabRegistries.TaskTabRegistry.RemoveSession | extension/src/browser.ts:97-104 | The session is forgotten and its tabs are sorted into those to close and those only to detach |
| TabRegistries.CleanupIsComplete | extension/src/browser.ts:97-104 | Each tab of a removed session is in exactly one of the two lists, by its ownership |
| TabRegistries.SessionWithoutMeans | extension/src/browser.ts:88-95 | Without the removed tab the first one left is active if the removed one was, and the group is kept exactly while a created tab is left |
| TabRegistries.PendingShareRegistry.Offer | extension/src/browser.ts:135-139 | A new offer replaces any earlier one of the tab |
| TabRegistries.PendingShareRegistry.Consume | extension/src/browser.ts:141-147 | A share is handed out and removed, or reported as not found |

## Left out

- Native windows, AppKit panels, HUD pages and coordinate conversion of the cursor: rendering and foreign calls; a panel call that fails silently is not modelled.
- DragSchedule.InterpolateOnSegment: does not model f64 rounding, the arithmetic is over the reals.
- The cursor's epoch counter is unbounded and a poisoned mutex or a failed post to the main thread is not modelled.
- Transport traffic behind the broker (CDP, extension messages), its ledger, artifacts and notifications: they succeed or fail, and a failed receipt returns at the point where the code returns.
- Managed browser actions: the broker hands them to the transport without an approval, so they are no part of the dispatch history; navigate, snapshot and screenshot check access like the modelled tools.
- After a revocation the action lock is held during teardown; the model releases it at once, which only adds interleavings.
- The routine entitlement check and grant tokens: grants are an arbitrary list that may change at any step.
- The handshake of a new MCP transport, OAuth, headers, HTTP session ids and process sandboxing: a start ends in a fresh transport or a failure.
- The MCP session map: a slot dropped from it by shutdown or retirement is the end of the slot's run, and a timeout leaves a fresh slot.
- JSON text, UTF-8 and event-stream framing: a line holds a message or none, and a chunk brings the messages readable with it.
- HTTP elicitations: the response body remembers only the latest answered one, so no claim is made that each is asked once.
- A reconnect in the middle of a discovery drops the pages cached before it, so cache agreement is claimed for rounds without a close; a second round on an idle slot between the two refills the cache, and no agreement with the first is claimed then.
- Compaction budgets are exact rationals instead of doubles, and text lengths count characters instead of UTF-16 units.
- The order in which the kept groups were interleaved: compaction keeps order within groups only.
- Chunk header fields (id, model, usage), model selection and wire-format tracking of the chat stream.
- The agents engine is any source of engine events and model requests from the moment it is entered, with no bound on how long; the host peer stays attached.
- Registry objects of the extension are values with a serial number, so two references to one session object are told apart by that number; writing to an object already dropped from its map is dropped with it.
- The active tab of an extension session: kept up to date step by step as in the code, but no invariant is claimed about it, because switching sets it after an await.
- Chrome's failures inside one await are one oracle per call, and grouping and naming a tab group are one await.
- Pairing, message transport, recorder, paths, environment shims and build scripts.
