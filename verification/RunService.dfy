/**
  The run service of the agent sidecar (agent-runtime/src/service.ts).

  JavaScript runs one synchronous stretch at a time; the awaits inside a run split it into the
  phases below. A run segment is one accepted start or resume, from acceptance to settlement.
*/
module RunService {
  import opened Prelude
  import opened Text

  datatype Message = Message(messageId: string, text: string)

  /** The object a run's controller and steering queue live in. */
  datatype ActiveRun = ActiveRun(aborted: bool, steering: seq<Message>, steeringIds: set<string>)

  const FRESH_RUN := ActiveRun(false, [], {})

  datatype EngineResult = EngineResult(finalOutput: Option<string>, interruptions: seq<string>)

  /** How a run's promise ends; `abortLike` is what isAbortError says of the thrown error. */
  datatype Outcome = Finished(result: EngineResult) | Threw(abortLike: bool)

  datatype Event =
    | RunStarted(resumed: bool)
    | EngineEvent(name: string)           // message, reasoning and tool events of the engine
    | SteeringConsumed(message: Message)
    | MessageCompleted(text: string)
    | UsageUpdated
    | InterruptionRequested(id: string)
    | RunCompleted
    | RunCancelled
    | RunFailed

  predicate IsEnding(e: Event) {
    e.InterruptionRequested? || e.RunCompleted? || e.RunCancelled? || e.RunFailed?
  }

  /** The events that settle alone emits. */
  predicate FromSettle(e: Event) {
    IsEnding(e) || e.MessageCompleted? || e.UsageUpdated?
  }

  function RunKey(sessionId: string, runId: string): string {
    sessionId + "\0" + runId
  }

  function IndexOfNul(s: string): nat {
    if s == "" || s[0] == '\0' then 0 else 1 + IndexOfNul(s[1..])
  }

  lemma {:induction false} KeySplitsAtNul(sessionId: string, runId: string)
    requires '\0' !in sessionId
    ensures IndexOfNul(RunKey(sessionId, runId)) == |sessionId|
  {
    if sessionId != "" {
      KeySplitsAtNul(sessionId[1..], runId);
      assert RunKey(sessionId, runId)[1..] == RunKey(sessionId[1..], runId);
    }
  }

  /** Run keys tell runs apart as long as session ids contain no NUL character. */
  lemma RunKeyInjective(s1: string, r1: string, s2: string, r2: string)
    requires '\0' !in s1 && '\0' !in s2
    requires RunKey(s1, r1) == RunKey(s2, r2)
    ensures s1 == s2 && r1 == r2
  {
    KeySplitsAtNul(s1, r1);
    KeySplitsAtNul(s2, r2);
    var k := RunKey(s1, r1);
    assert s1 == k[..|s1|] && s2 == k[..|s2|];
    assert r1 == k[|s1| + 1..] && r2 == k[|s2| + 1..];
  }

  // ----- Steering -----

  datatype SteerReply = NotActive | InvalidParams | Duplicate | Queued

  function SteerReplyOf(run: ActiveRun, messageId: string, text: string): SteerReply {
    if Trim(text) == "" || Trim(messageId) == "" then InvalidParams
    else if Trim(messageId) in run.steeringIds then Duplicate
    else Queued
  }

  function Steered(run: ActiveRun, messageId: string, text: string): ActiveRun {
    if SteerReplyOf(run, messageId, text) != Queued then run
    else run.(steeringIds := run.steeringIds + {Trim(messageId)},
              steering := run.steering + [Message(Trim(messageId), Trim(text))])
  }

  // ----- Settlement -----

  function InterruptionEvents(ids: seq<string>): (events: seq<Event>)
    ensures |events| == |ids|
    ensures forall i :: 0 <= i < |ids| ==> events[i] == InterruptionRequested(ids[i])
  {
    if ids == [] then [] else InterruptionEvents(ids[..|ids| - 1]) + [InterruptionRequested(ids[|ids| - 1])]
  }

  /** What settle emits for a segment whose controller is or is not aborted. */
  function SettleEvents(aborted: bool, outcome: Outcome): seq<Event> {
    match outcome
    case Threw(abortLike) => if aborted || abortLike then [RunCancelled] else [RunFailed]
    case Finished(result) =>
      if aborted then [RunCancelled]
      else if |result.interruptions| > 0 then [UsageUpdated] + InterruptionEvents(result.interruptions)
      else (match result.finalOutput case Some(text) => [MessageCompleted(text)] case None => [])
           + [UsageUpdated, RunCompleted]
  }

  /** A proper ending: one final event of its kind at the very end, or usage followed by one or
      more interruptions. */
  predicate ProperEnding(events: seq<Event>) {
    || (&& events != []
        && (var last := events[|events| - 1]; last.RunCompleted? || last.RunCancelled? || last.RunFailed?)
        && (forall i :: 0 <= i < |events| - 1 ==> !IsEnding(events[i])))
    || (&& |events| >= 2 && events[0] == UsageUpdated
        && (forall i :: 1 <= i < |events| ==> events[i].InterruptionRequested?))
  }

  lemma SettleEndsProperly(aborted: bool, outcome: Outcome)
    ensures ProperEnding(SettleEvents(aborted, outcome))
    ensures SettleEvents(aborted, outcome) == [RunCancelled] <==> aborted || outcome == Threw(true)
    ensures RunCancelled in SettleEvents(aborted, outcome) <==> aborted || outcome == Threw(true)
  {
    var events := SettleEvents(aborted, outcome);
    if outcome.Finished? && !aborted {
      assert events[|events| - 1] != RunCancelled;
      assert RunCancelled !in events;
    }
  }

  /** A run that came to its end, and one that stopped for interruptions. */
  predicate Completes(aborted: bool, outcome: Outcome) {
    !aborted && outcome.Finished? && outcome.result.interruptions == []
  }

  predicate Interrupted(aborted: bool, outcome: Outcome) {
    !aborted && outcome.Finished? && outcome.result.interruptions != []
  }

  /** At `at` the completion, the usage right before it, and before that the final message if any. */
  ghost predicate CompletedAt(events: seq<Event>, finalOutput: Option<string>, at: nat) {
    && 1 <= at < |events| && events[at] == RunCompleted && events[at - 1] == UsageUpdated
    && forall text :: at >= 2 && events[at - 2] == MessageCompleted(text) <==> finalOutput == Some(text)
  }

  /** From `at` on the usage and then the interruptions, in order. */
  predicate InterruptedAt(events: seq<Event>, ids: seq<string>, at: nat) {
    && at + |ids| < |events| && events[at] == UsageUpdated
    && forall k :: 0 <= k < |ids| ==> events[at + 1 + k] == InterruptionRequested(ids[k])
  }

  /** The interruptions among some events. */
  function InterruptionsOf(events: seq<Event>): seq<string> {
    if events == [] then []
    else
      var last := events[|events| - 1];
      InterruptionsOf(events[..|events| - 1]) + (if last.InterruptionRequested? then [last.id] else [])
  }

  lemma {:induction false} InterruptionsConcat(a: seq<Event>, b: seq<Event>)
    ensures InterruptionsOf(a + b) == InterruptionsOf(a) + InterruptionsOf(b)
  {
    if b == [] {
      assert a + b == a;
    } else {
      InterruptionsConcat(a, b[..|b| - 1]);
      assert (a + b)[..|a + b| - 1] == a + b[..|b| - 1];
    }
  }

  lemma {:induction false} NoInterruptions(events: seq<Event>)
    requires forall e :: e in events ==> !e.InterruptionRequested?
    ensures InterruptionsOf(events) == []
  {
    if events != [] {
      NoInterruptions(events[..|events| - 1]);
    }
  }

  lemma {:induction false} AllInterruptions(ids: seq<string>)
    ensures InterruptionsOf(InterruptionEvents(ids)) == ids
  {
    if ids != [] {
      var n := |ids| - 1;
      AllInterruptions(ids[..n]);
      assert InterruptionEvents(ids)[..n] == InterruptionEvents(ids[..n]);
      assert ids == ids[..n] + [ids[n]];
    }
  }

  /** What some events say of how a segment ended. */
  ghost predicate TellsOutcome(events: seq<Event>, aborted: bool, outcome: Outcome) {
    && (RunCancelled in events <==> aborted || outcome == Threw(true))
    && (RunFailed in events <==> !aborted && outcome == Threw(false))
    && (RunCompleted in events <==> Completes(aborted, outcome))
    && (forall text :: MessageCompleted(text) in events
                       <==> Completes(aborted, outcome) && outcome.result.finalOutput == Some(text))
    && (Completes(aborted, outcome) ==> exists at: nat :: CompletedAt(events, outcome.result.finalOutput, at))
    && (Interrupted(aborted, outcome) ==> exists at: nat :: InterruptedAt(events, outcome.result.interruptions, at))
    && InterruptionsOf(events) == (if Interrupted(aborted, outcome) then outcome.result.interruptions else [])
  }

  lemma OneEventTells(aborted: bool, outcome: Outcome)
    requires aborted || outcome.Threw?
    ensures TellsOutcome(SettleEvents(aborted, outcome), aborted, outcome)
  {
    NoInterruptions(SettleEvents(aborted, outcome));
    hide InterruptionsOf;
  }

  lemma CompletionTells(result: EngineResult)
    requires result.interruptions == []
    ensures TellsOutcome(SettleEvents(false, Finished(result)), false, Finished(result))
  {
    var ending := SettleEvents(false, Finished(result));
    NoInterruptions(ending);
    hide InterruptionsOf, InterruptedAt;
    assert CompletedAt(ending, result.finalOutput, |ending| - 1);
    hide CompletedAt;
    match result.finalOutput {
      case Some(text) => assert ending == [MessageCompleted(text), UsageUpdated, RunCompleted];
      case None => assert ending == [UsageUpdated, RunCompleted];
    }
  }

  lemma UsageThenInterruptions(ids: seq<string>)
    ensures var ending := [UsageUpdated] + InterruptionEvents(ids);
            && InterruptionsOf(ending) == ids && InterruptedAt(ending, ids, 0)
            && forall e :: e in ending ==> e.UsageUpdated? || e.InterruptionRequested?
  {
    assert InterruptionsOf([UsageUpdated] + InterruptionEvents(ids)) == ids by {
      InterruptionsConcat([UsageUpdated], InterruptionEvents(ids));
      NoInterruptions([UsageUpdated]);
      AllInterruptions(ids);
      hide *;
      assert [] + ids == ids;
    }
    hide InterruptionsOf;
  }

  lemma OnlyInterruptionsTell(ending: seq<Event>, result: EngineResult)
    requires result.interruptions != [] && InterruptionsOf(ending) == result.interruptions
    requires InterruptedAt(ending, result.interruptions, 0)
    requires forall e :: e in ending ==> e.UsageUpdated? || e.InterruptionRequested?
    ensures TellsOutcome(ending, false, Finished(result))
  {
    hide InterruptionsOf, CompletedAt, InterruptedAt;
  }

  lemma InterruptionTells(result: EngineResult)
    requires result.interruptions != []
    ensures TellsOutcome(SettleEvents(false, Finished(result)), false, Finished(result))
  {
    hide TellsOutcome, InterruptionsOf, CompletedAt, InterruptedAt, InterruptionEvents;
    UsageThenInterruptions(result.interruptions);
    OnlyInterruptionsTell([UsageUpdated] + InterruptionEvents(result.interruptions), result);
  }

  lemma SettleTells(aborted: bool, outcome: Outcome)
    ensures TellsOutcome(SettleEvents(aborted, outcome), aborted, outcome)
  {
    hide TellsOutcome, SettleEvents;
    if aborted || outcome.Threw? {
      OneEventTells(aborted, outcome);
    } else if outcome.result.interruptions == [] {
      CompletionTells(outcome.result);
    } else {
      InterruptionTells(outcome.result);
    }
  }

  lemma InterruptionsWithin(before: seq<Event>, ending: seq<Event>, after: seq<Event>)
    requires forall e :: e in before || e in after ==> !FromSettle(e)
    ensures InterruptionsOf(before + ending + after) == InterruptionsOf(ending)
  {
    InterruptionsConcat(before + ending, after);
    InterruptionsConcat(before, ending);
    NoInterruptions(before);
    NoInterruptions(after);
  }

  lemma CompletedWithin(before: seq<Event>, ending: seq<Event>, after: seq<Event>, finalOutput: Option<string>, at: nat)
    requires forall e :: e in before ==> !FromSettle(e)
    requires CompletedAt(ending, finalOutput, at)
    ensures CompletedAt(before + ending + after, finalOutput, |before| + at)
  {
    var events := before + ending + after;
    if at >= 2 {
      assert events[|before| + at - 2] == ending[at - 2];
    } else if |before| + at >= 2 {
      assert events[|before| + at - 2] == before[|before| + at - 2] && before[|before| + at - 2] in before;
    }
  }

  lemma InterruptedWithin(before: seq<Event>, ending: seq<Event>, after: seq<Event>, ids: seq<string>, at: nat)
    requires InterruptedAt(ending, ids, at)
    ensures InterruptedAt(before + ending + after, ids, |before| + at)
  {
  }

  lemma EndingWithin(before: seq<Event>, ending: seq<Event>, after: seq<Event>)
    requires forall e :: e in before || e in after ==> !FromSettle(e)
    ensures var events := before + ending + after;
            && (RunCancelled in events <==> RunCancelled in ending) && (RunFailed in events <==> RunFailed in ending)
            && (RunCompleted in events <==> RunCompleted in ending)
            && forall text :: MessageCompleted(text) in events <==> MessageCompleted(text) in ending
  {
  }

  /** A longer log tells the same when it has the same endings and interruptions and shows them `shift`
      events later. */
  lemma TellsTheSame(events: seq<Event>, ending: seq<Event>, shift: nat, aborted: bool, outcome: Outcome)
    requires (RunCancelled in events <==> RunCancelled in ending) && (RunFailed in events <==> RunFailed in ending)
    requires RunCompleted in events <==> RunCompleted in ending
    requires forall text :: MessageCompleted(text) in events <==> MessageCompleted(text) in ending
    requires forall at: nat, text :: CompletedAt(ending, text, at) ==> CompletedAt(events, text, shift + at)
    requires forall at: nat, ids :: InterruptedAt(ending, ids, at) ==> InterruptedAt(events, ids, shift + at)
    requires InterruptionsOf(events) == InterruptionsOf(ending)
    requires TellsOutcome(ending, aborted, outcome)
    ensures TellsOutcome(events, aborted, outcome)
  {
    hide CompletedAt, InterruptedAt, InterruptionsOf;
    if Completes(aborted, outcome) {
      var at: nat :| CompletedAt(ending, outcome.result.finalOutput, at);
      assert CompletedAt(events, outcome.result.finalOutput, shift + at);
    }
    if Interrupted(aborted, outcome) {
      var at: nat :| InterruptedAt(ending, outcome.result.interruptions, at);
      assert InterruptedAt(events, outcome.result.interruptions, shift + at);
    }
  }

  /** Events that settle does not emit neither add to what its own say nor take from it. */
  lemma TellsWithin(before: seq<Event>, ending: seq<Event>, after: seq<Event>, aborted: bool, outcome: Outcome)
    requires forall e :: e in before || e in after ==> !FromSettle(e)
    requires TellsOutcome(ending, aborted, outcome)
    ensures TellsOutcome(before + ending + after, aborted, outcome)
  {
    hide CompletedAt, InterruptedAt, InterruptionsOf, FromSettle, TellsOutcome;
    EndingWithin(before, ending, after);
    InterruptionsWithin(before, ending, after);
    forall at: nat, text | CompletedAt(ending, text, at)
      ensures CompletedAt(before + ending + after, text, |before| + at)
    {
      CompletedWithin(before, ending, after, text, at);
    }
    forall at: nat, ids | InterruptedAt(ending, ids, at)
      ensures InterruptedAt(before + ending + after, ids, |before| + at)
    {
      InterruptedWithin(before, ending, after, ids, at);
    }
    TellsTheSame(before + ending + after, ending, |before|, aborted, outcome);
  }

  // ----- The service object -----

  class RunHandle {
    var aborted: bool
    var steering: seq<Message>
    var steeringIds: set<string>

    function View(): ActiveRun
      reads this
    {
      ActiveRun(aborted, steering, steeringIds)
    }

    constructor ()
      ensures View() == FRESH_RUN
    {
      aborted, steering, steeringIds := false, [], {};
    }

    /** `takeSteering`: empties the queue into the caller's hands. */
    method TakeSteering() returns (taken: seq<Message>)
      modifies this`steering
      ensures taken == old(steering) && View() == old(View()).(steering := [])
    {
      taken := steering;
      steering := [];
    }
  }

  class RuntimeService {
    var initialized: bool
    var shuttingDown: bool
    var activeRuns: map<string, RunHandle>
    var emitted: seq<Event>

    /** No two keys share a handle. */
    ghost predicate Valid()
      reads this
    {
      forall j, k :: j in activeRuns && k in activeRuns && activeRuns[j] == activeRuns[k] ==> j == k
    }

    function Handles(): set<RunHandle>
      reads this
    {
      set k | k in activeRuns :: activeRuns[k]
    }

    ghost function Runs(): map<string, ActiveRun>
      reads this, Handles()
    {
      map k | k in activeRuns :: activeRuns[k].View()
    }

    constructor ()
      ensures Valid() && !initialized && !shuttingDown && activeRuns == map[] && emitted == []
    {
      initialized, shuttingDown, activeRuns, emitted := false, false, map[], [];
    }

    /** `start`: one controller per key at a time. */
    method Start(sessionId: string, runId: string, valid: bool) returns (accepted: bool)
      requires Valid()
      modifies this
      ensures Valid() && emitted == old(emitted)
      ensures accepted == (RunKey(sessionId, runId) !in old(activeRuns) && valid)
      ensures Runs() == if accepted then old(Runs())[RunKey(sessionId, runId) := FRESH_RUN] else old(Runs())
    {
      var key := RunKey(sessionId, runId);
      if key in activeRuns || !valid {
        return false;
      }
      var handle := new RunHandle();
      activeRuns := activeRuns[key := handle];
      accepted := true;
    }

    /** `resume`: like start, but announces the run at once. */
    method Resume(sessionId: string, runId: string, valid: bool) returns (accepted: bool)
      requires Valid()
      modifies this
      ensures Valid()
      ensures accepted == (RunKey(sessionId, runId) !in old(activeRuns) && valid)
      ensures Runs() == if accepted then old(Runs())[RunKey(sessionId, runId) := FRESH_RUN] else old(Runs())
      ensures emitted == old(emitted) + (if accepted then [RunStarted(true)] else [])
    {
      var key := RunKey(sessionId, runId);
      if key in activeRuns || !valid {
        return false;
      }
      var handle := new RunHandle();
      activeRuns := activeRuns[key := handle];
      emitted := emitted + [RunStarted(true)];
      accepted := true;
    }

    /** Writing to the handle under one key changes that key's run. */
    twostate lemma OneRunChanges(key: string)
      requires old(Valid()) && activeRuns == old(activeRuns) && key in activeRuns
      requires forall h: RunHandle :: h in old(Handles()) && h != activeRuns[key] ==> unchanged(h)
      ensures Runs() == old(Runs())[key := activeRuns[key].View()]
    {
      forall k | k in activeRuns && k != key ensures activeRuns[k].View() == old(activeRuns[k].View()) {
        assert activeRuns[k] in old(Handles());
      }
    }

    method Steer(sessionId: string, runId: string, messageId: string, text: string) returns (reply: SteerReply)
      requires Valid()
      modifies Handles()
      ensures Valid()
      ensures var key := RunKey(sessionId, runId);
              if key !in old(activeRuns) then reply == NotActive && Runs() == old(Runs())
              else
                && reply == SteerReplyOf(old(Runs())[key], messageId, text)
                && (reply == InvalidParams <==> IsBlank(messageId) || IsBlank(text))
                && Runs() == old(Runs())[key := Steered(old(Runs())[key], messageId, text)]
    {
      var key := RunKey(sessionId, runId);
      if key !in activeRuns {
        return NotActive;
      }
      var active := activeRuns[key];
      hide Trim, IsBlank, RunKey;
      TrimsToNothing(text);
      TrimsToNothing(messageId);
      var body, id := Trim(text), Trim(messageId);
      if body == "" || id == "" {
        return InvalidParams;
      }
      if id in active.steeringIds {
        return Duplicate;
      }
      active.steeringIds := active.steeringIds + {id};
      active.steering := active.steering + [Message(id, body)];
      OneRunChanges(key);
      reply := Queued;
    }

    method Cancel(sessionId: string, runId: string) returns (cancelled: bool)
      requires Valid()
      modifies Handles()
      ensures Valid()
      ensures cancelled == (RunKey(sessionId, runId) in old(activeRuns))
      ensures var key := RunKey(sessionId, runId);
              Runs() == if cancelled then old(Runs())[key := old(Runs())[key].(aborted := true)] else old(Runs())
    {
      var key := RunKey(sessionId, runId);
      if key !in activeRuns {
        return false;
      }
      activeRuns[key].aborted := true;
      cancelled := true;
    }

    /** `shutdown`: aborts every active controller. */
    method Shutdown()
      requires Valid()
      modifies this`shuttingDown, Handles()
      ensures Valid() && shuttingDown
      ensures Runs().Keys == old(Runs()).Keys
      ensures forall k :: k in Runs() ==> Runs()[k] == old(Runs())[k].(aborted := true)
    {
      shuttingDown := true;
      var rest := activeRuns.Keys;
      while rest != {}
        invariant rest <= activeRuns.Keys && activeRuns == old(activeRuns) && shuttingDown
        invariant forall k :: k in activeRuns ==>
                    activeRuns[k].View() == if k in rest then old(activeRuns[k].View())
                                            else old(activeRuns[k].View()).(aborted := true)
      {
        var k :| k in rest;
        activeRuns[k].aborted := true;
        rest := rest - {k};
      }
    }

    method EmitInterruptions(ids: seq<string>)
      modifies this`emitted
      ensures emitted == old(emitted) + InterruptionEvents(ids)
    {
      for i := 0 to |ids|
        invariant emitted == old(emitted) + InterruptionEvents(ids[..i])
      {
        assert ids[..i + 1][..i] == ids[..i];
        emitted := emitted + [InterruptionRequested(ids[i])];
      }
      assert ids[..|ids|] == ids;
    }

    method EmitEnding(aborted: bool, outcome: Outcome)
      modifies this`emitted
      ensures emitted == old(emitted) + SettleEvents(aborted, outcome)
    {
      match outcome {
        case Threw(abortLike) =>
          emitted := emitted + [if aborted || abortLike then RunCancelled else RunFailed];
        case Finished(result) =>
          if aborted {
            emitted := emitted + [RunCancelled];
            return;
          }
          if |result.interruptions| > 0 {
            emitted := emitted + [UsageUpdated];
            EmitInterruptions(result.interruptions);
            return;
          }
          if result.finalOutput.Some? {
            emitted := emitted + [MessageCompleted(result.finalOutput.value)];
          }
          emitted := emitted + [UsageUpdated];
          emitted := emitted + [RunCompleted];
      }
    }

    /** `settle`, once the run's promise has ended: emits the ending and frees the key. */
    method Settle(sessionId: string, runId: string, outcome: Outcome)
      requires Valid() && RunKey(sessionId, runId) in activeRuns
      modifies this`emitted, this`activeRuns
      ensures Valid()
      ensures emitted == old(emitted) + SettleEvents(old(Runs())[RunKey(sessionId, runId)].aborted, outcome)
      ensures TellsOutcome(emitted[|old(emitted)|..], old(Runs())[RunKey(sessionId, runId)].aborted, outcome)
      ensures Runs() == old(Runs()) - {RunKey(sessionId, runId)}
    {
      var key := RunKey(sessionId, runId);
      hide TellsOutcome, SettleEvents;
      SettleTells(activeRuns[key].aborted, outcome);
      EmitEnding(activeRuns[key].aborted, outcome);
      activeRuns := activeRuns - {key};
    }
  }
}
