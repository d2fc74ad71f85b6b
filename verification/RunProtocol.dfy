/** Whole runs of the sidecar's run service: segments, interleavings and the event log. */
module RunProtocol {
  import opened Prelude
  import opened Text
  import opened RunService

  datatype Phase =
    | Accepted                       // start acknowledged, its callback not yet run
    | Compacting                     // awaiting compactHistory
    | Running                        // engine started or resumed
    | Returned(outcome: Outcome)     // promise ended, settle not yet resumed
    | Settled(aborted: bool, outcome: Outcome)

  /** `entered` says whether the engine was ever started or resumed, and so holds the segment's callbacks.
      `arrivals` and `requests` are history: the well-formed steer calls that reached the segment,
      duplicates included, and the steering appended to each of its model requests. */
  datatype Segment = Segment(
    sessionId: string,
    runId: string,
    resumed: bool,
    run: ActiveRun,
    phase: Phase,
    entered: bool,
    arrivals: seq<Message>,
    requests: seq<seq<Message>>)

  datatype Emission = Emission(segment: nat, event: Event)

  datatype Service = Service(
    initialized: bool,
    shuttingDown: bool,
    active: map<string, nat>,
    segments: seq<Segment>,
    log: seq<Emission>)

  const INITIAL := Service(false, false, map[], [], [])

  datatype Step =
    | Initialize
    | Start(sessionId: string, runId: string, valid: bool)
    | Resume(sessionId: string, runId: string, valid: bool)
    | Steer(sessionId: string, runId: string, messageId: string, text: string)
    | Cancel(sessionId: string, runId: string)
    | Shutdown
    | BeginStart(g: nat, identity: Option<EngineResult>)
    | CompactionEnds(g: nat, aborted: bool)
    | EngineEmits(g: nat, event: Event)
    | ModelRequest(g: nat)
    | EngineReturns(g: nat, outcome: Outcome)
    | Settle(g: nat)

  /** Host calls are refused before initialisation and during shutdown. */
  predicate Admits(s: Service) {
    s.initialized && !s.shuttingDown
  }

  /** The engine can use a segment's callbacks from the moment it is entered on. Neither its promise
      ending nor the segment's settlement takes them away: the service forwards whatever comes. */
  predicate InEngine(seg: Segment) {
    seg.phase.Running? || (seg.entered && (seg.phase.Returned? || seg.phase.Settled?))
  }

  predicate Enabled(s: Service, step: Step) {
    match step
    case Initialize => !s.shuttingDown
    case Start(_, _, _) => Admits(s)
    case Resume(_, _, _) => Admits(s)
    case Steer(_, _, _, _) => Admits(s)
    case Cancel(_, _) => Admits(s)
    case Shutdown => true
    case BeginStart(g, _) => g < |s.segments| && s.segments[g].phase.Accepted?
    case CompactionEnds(g, _) => g < |s.segments| && s.segments[g].phase.Compacting?
    case EngineEmits(g, e) => g < |s.segments| && InEngine(s.segments[g]) && e.EngineEvent?
    case ModelRequest(g) => g < |s.segments| && InEngine(s.segments[g])
    case EngineReturns(g, _) => g < |s.segments| && s.segments[g].phase.Running?
    case Settle(g) => g < |s.segments| && s.segments[g].phase.Returned?
  }

  function KeyOf(seg: Segment): string {
    RunKey(seg.sessionId, seg.runId)
  }

  function Tagged(g: nat, events: seq<Event>): seq<Emission> {
    seq(|events|, i requires 0 <= i < |events| => Emission(g, events[i]))
  }

  function Emit(s: Service, g: nat, events: seq<Event>): Service {
    s.(log := s.log + Tagged(g, events))
  }

  function WithSegment(s: Service, g: nat, seg: Segment): Service
    requires g < |s.segments|
  {
    s.(segments := s.segments[g := seg])
  }

  function WithPhase(s: Service, g: nat, phase: Phase): Service
    requires g < |s.segments|
  {
    WithSegment(s, g, s.segments[g].(phase := phase))
  }

  /** assertRunAvailable, then a fresh controller under the key. */
  function Accept(s: Service, sessionId: string, runId: string, resumed: bool): Service {
    var key := RunKey(sessionId, runId);
    s.(active := s.active[key := |s.segments|],
       segments := s.segments
                   + [Segment(sessionId, runId, resumed, FRESH_RUN, if resumed then Running else Accepted, resumed,
                              [], [])])
  }

  function ApplySteer(s: Service, key: string, messageId: string, text: string): Service
    requires key in s.active ==> s.active[key] < |s.segments|
  {
    if key !in s.active then s
    else
      var g := s.active[key];
      var seg := s.segments[g];
      if SteerReplyOf(seg.run, messageId, text) == InvalidParams then s
      else
        WithSegment(s, g, seg.(run := Steered(seg.run, messageId, text),
                               arrivals := seg.arrivals + [Message(Trim(messageId), Trim(text))]))
  }

  function ApplyCancel(s: Service, key: string): Service
    requires key in s.active ==> s.active[key] < |s.segments|
  {
    if key !in s.active then s
    else
      var g := s.active[key];
      WithSegment(s, g, s.segments[g].(run := s.segments[g].run.(aborted := true)))
  }

  function ApplyShutdown(s: Service): Service {
    var live := set key | key in s.active :: s.active[key];
    s.(shuttingDown := true,
       segments := seq(|s.segments|, g requires 0 <= g < |s.segments| =>
                         if g in live then s.segments[g].(run := s.segments[g].run.(aborted := true))
                         else s.segments[g]))
  }

  /** The callback of an accepted start: an aborted run throws at once, a question about the
      assistant's identity is answered without the engine, anything else is compacted first. */
  function ApplyBeginStart(s: Service, g: nat, identity: Option<EngineResult>): Service
    requires g < |s.segments|
  {
    if s.segments[g].run.aborted then WithPhase(s, g, Returned(Threw(true)))
    else if identity.Some? then
      WithPhase(Emit(s, g, [RunStarted(false), EngineEvent("message.delta")]), g, Returned(Finished(identity.value)))
    else WithPhase(s, g, Compacting)
  }

  function ApplyCompactionEnds(s: Service, g: nat, aborted: bool): Service
    requires g < |s.segments|
  {
    if aborted || s.segments[g].run.aborted then WithPhase(s, g, Returned(Threw(true)))
    else WithSegment(Emit(s, g, [RunStarted(false)]), g, s.segments[g].(phase := Running, entered := true))
  }

  function ConsumedEvents(messages: seq<Message>): (events: seq<Event>)
    ensures |events| == |messages|
    ensures forall i :: 0 <= i < |messages| ==> events[i] == SteeringConsumed(messages[i])
  {
    seq(|messages|, i requires 0 <= i < |messages| => SteeringConsumed(messages[i]))
  }

  /** streamChunks: the queue is emptied into the request being built. */
  function ApplyModelRequest(s: Service, g: nat): Service
    requires g < |s.segments|
  {
    var seg := s.segments[g];
    var taken := seg.run.steering;
    WithSegment(Emit(s, g, ConsumedEvents(taken)), g,
                seg.(run := seg.run.(steering := []), requests := seg.requests + [taken]))
  }

  function ApplySettle(s: Service, g: nat): Service
    requires g < |s.segments| && s.segments[g].phase.Returned?
  {
    var seg := s.segments[g];
    var outcome := seg.phase.outcome;
    WithPhase(Emit(s, g, SettleEvents(seg.run.aborted, outcome)), g, Settled(seg.run.aborted, outcome))
      .(active := s.active - {KeyOf(seg)})
  }

  predicate ActiveInRange(s: Service) {
    forall key :: key in s.active ==> s.active[key] < |s.segments|
  }

  function Apply(s: Service, step: Step): Service
    requires Enabled(s, step) && ActiveInRange(s)
  {
    match step
    case Initialize => s.(initialized := true)
    case Start(sid, rid, valid) => if RunKey(sid, rid) in s.active || !valid then s else Accept(s, sid, rid, false)
    case Resume(sid, rid, valid) =>
      if RunKey(sid, rid) in s.active || !valid then s
      else Emit(Accept(s, sid, rid, true), |s.segments|, [RunStarted(true)])
    case Steer(sid, rid, messageId, text) => ApplySteer(s, RunKey(sid, rid), messageId, text)
    case Cancel(sid, rid) => ApplyCancel(s, RunKey(sid, rid))
    case Shutdown => ApplyShutdown(s)
    case BeginStart(g, identity) => ApplyBeginStart(s, g, identity)
    case CompactionEnds(g, aborted) => ApplyCompactionEnds(s, g, aborted)
    case EngineEmits(g, e) => Emit(s, g, [e])
    case ModelRequest(g) => ApplyModelRequest(s, g)
    case EngineReturns(g, outcome) => WithPhase(s, g, Returned(outcome))
    case Settle(g) => ApplySettle(s, g)
  }

  ghost predicate IsRun(ss: seq<Service>, steps: seq<Step>) {
    && |ss| == |steps| + 1
    && ss[0] == INITIAL
    && forall i :: 0 <= i < |steps| ==>
         Enabled(ss[i], steps[i]) && ActiveInRange(ss[i]) && ss[i + 1] == Apply(ss[i], steps[i])
  }

  // ----- Projections -----

  /** What one segment has emitted, in order. */
  function EventsOf(log: seq<Emission>, g: nat): seq<Event> {
    if log == [] then []
    else
      var last := log[|log| - 1];
      EventsOf(log[..|log| - 1], g) + (if last.segment == g then [last.event] else [])
  }

  lemma {:induction false} EventsAppend(log: seq<Emission>, g: nat, events: seq<Event>, h: nat)
    ensures EventsOf(log + Tagged(g, events), h) == EventsOf(log, h) + (if g == h then events else [])
  {
    if events == [] {
      assert log + Tagged(g, events) == log;
    } else {
      var n := |events| - 1;
      EventsAppend(log, g, events[..n], h);
      var whole := log + Tagged(g, events);
      assert whole[..|whole| - 1] == log + Tagged(g, events[..n]);
      assert whole[|whole| - 1] == Emission(g, events[n]);
      assert events == events[..n] + [events[n]];
    }
  }

  function Consumed(events: seq<Event>): seq<Message> {
    if events == [] then []
    else
      var last := events[|events| - 1];
      Consumed(events[..|events| - 1]) + (if last.SteeringConsumed? then [last.message] else [])
  }

  lemma {:induction false} ConsumedConcat(a: seq<Event>, b: seq<Event>)
    ensures Consumed(a + b) == Consumed(a) + Consumed(b)
  {
    if b == [] {
      assert a + b == a;
    } else {
      var n := |b| - 1;
      ConsumedConcat(a, b[..n]);
      assert (a + b)[..|a + b| - 1] == a + b[..n];
    }
  }

  lemma {:induction false} ConsumedNone(events: seq<Event>)
    requires forall e :: e in events ==> !e.SteeringConsumed?
    ensures Consumed(events) == []
  {
    if events != [] {
      ConsumedNone(events[..|events| - 1]);
    }
  }

  lemma {:induction false} ConsumedAll(messages: seq<Message>)
    ensures Consumed(ConsumedEvents(messages)) == messages
  {
    if messages != [] {
      var n := |messages| - 1;
      ConsumedAll(messages[..n]);
      assert ConsumedEvents(messages)[..n] == ConsumedEvents(messages[..n]);
      assert messages == messages[..n] + [messages[n]];
    }
  }

  function Join(requests: seq<seq<Message>>): seq<Message> {
    if requests == [] then [] else Join(requests[..|requests| - 1]) + requests[|requests| - 1]
  }

  function MessageIds(messages: seq<Message>): set<string> {
    set i | 0 <= i < |messages| :: messages[i].messageId
  }

  /** Keeps the first message of every id. */
  function Dedup(messages: seq<Message>): seq<Message> {
    if messages == [] then []
    else
      var n := |messages| - 1;
      Dedup(messages[..n]) + (if messages[n].messageId in MessageIds(messages[..n]) then [] else [messages[n]])
  }

  // ----- The invariant -----

  /** Nothing that only settle emits. */
  predicate NoEnding(events: seq<Event>) {
    forall e :: e in events ==> !FromSettle(e)
  }

  /** The events from `at` on begin with exactly what settle emits; there is no ending before or after. */
  predicate EndedAt(events: seq<Event>, ending: seq<Event>, at: nat) {
    && at + |ending| <= |events|
    && events[at..at + |ending|] == ending
    && NoEnding(events[..at]) && NoEnding(events[at + |ending|..])
  }

  ghost predicate EndedOnce(events: seq<Event>, ending: seq<Event>) {
    exists at: nat :: EndedAt(events, ending, at)
  }

  predicate KeysInv(s: Service) {
    && (forall key :: key in s.active ==>
          s.active[key] < |s.segments| && KeyOf(s.segments[s.active[key]]) == key
          && !s.segments[s.active[key]].phase.Settled?)
    && (forall g :: 0 <= g < |s.segments| && !s.segments[g].phase.Settled? ==>
          KeyOf(s.segments[g]) in s.active && s.active[KeyOf(s.segments[g])] == g)
  }

  ghost predicate EndingInv(seg: Segment, events: seq<Event>) {
    match seg.phase
    case Settled(aborted, outcome) => EndedOnce(events, SettleEvents(aborted, outcome))
    case Accepted => events == [] && !seg.entered
    case Compacting => NoEnding(events) && !seg.entered
    case _ => NoEnding(events)
  }

  predicate SteeringInv(seg: Segment, events: seq<Event>) {
    && seg.run.steeringIds == MessageIds(seg.arrivals)
    && Join(seg.requests) + seg.run.steering == Dedup(seg.arrivals)
    && Consumed(events) == Join(seg.requests)
  }

  ghost predicate SegmentInv(s: Service, g: nat)
    requires g < |s.segments|
  {
    && EndingInv(s.segments[g], EventsOf(s.log, g))
    && SteeringInv(s.segments[g], EventsOf(s.log, g))
  }

  predicate LogInv(s: Service) {
    forall i :: 0 <= i < |s.log| ==> s.log[i].segment < |s.segments|
  }

  ghost predicate Inv(s: Service) {
    && KeysInv(s)
    && LogInv(s)
    && forall g :: 0 <= g < |s.segments| ==> SegmentInv(s, g)
  }

  /** The invariants of a segment do not depend on the abort flag. */
  lemma AbortKeepsSegment(seg: Segment, events: seq<Event>)
    requires EndingInv(seg, events) && SteeringInv(seg, events)
    ensures EndingInv(seg.(run := seg.run.(aborted := true)), events)
    ensures SteeringInv(seg.(run := seg.run.(aborted := true)), events)
  {
  }

  /** Emitting for one segment leaves the events of the others alone. */
  lemma SegmentsTouch(s: Service, g: nat, seg: Segment, events: seq<Event>, h: nat)
    requires g < |s.segments| && h < |s.segments| && SegmentInv(s, h)
    requires EndingInv(seg, EventsOf(s.log, g) + events) && SteeringInv(seg, EventsOf(s.log, g) + events)
    ensures SegmentInv(WithSegment(Emit(s, g, events), g, seg), h)
  {
    EventsAppend(s.log, g, events, h);
    assert EventsOf(s.log, h) + [] == EventsOf(s.log, h);
    hide EndingInv, SteeringInv, EventsOf;
  }

  lemma KeysTouch(s: Service, g: nat, seg: Segment, events: seq<Event>)
    requires KeysInv(s) && g < |s.segments|
    requires (seg.phase.Settled? <==> s.segments[g].phase.Settled?) && KeyOf(seg) == KeyOf(s.segments[g])
    ensures KeysInv(WithSegment(Emit(s, g, events), g, seg))
  {
    hide KeyOf, Tagged;
  }

  /** A step that changes one segment short of settling it and emits on its behalf keeps the
      invariant. */
  lemma InvTouch(s: Service, g: nat, seg: Segment, events: seq<Event>)
    requires Inv(s) && g < |s.segments|
    requires (seg.phase.Settled? <==> s.segments[g].phase.Settled?) && KeyOf(seg) == KeyOf(s.segments[g])
    requires EndingInv(seg, EventsOf(s.log, g) + events) && SteeringInv(seg, EventsOf(s.log, g) + events)
    ensures Inv(WithSegment(Emit(s, g, events), g, seg))
  {
    var next := WithSegment(Emit(s, g, events), g, seg);
    KeysTouch(s, g, seg, events);
    hide EndingInv, SteeringInv, EventsOf, KeyOf, SegmentInv, KeysInv;
    forall h | 0 <= h < |next.segments| ensures SegmentInv(next, h) {
      SegmentsTouch(s, g, seg, events, h);
    }
  }

  lemma InvQuietTouch(s: Service, g: nat, seg: Segment)
    requires Inv(s) && g < |s.segments|
    requires !s.segments[g].phase.Settled? && !seg.phase.Settled? && KeyOf(seg) == KeyOf(s.segments[g])
    requires EndingInv(seg, EventsOf(s.log, g)) && SteeringInv(seg, EventsOf(s.log, g))
    ensures Inv(WithSegment(s, g, seg))
  {
    assert EventsOf(s.log, g) + [] == EventsOf(s.log, g);
    assert Emit(s, g, []) == s;
    InvTouch(s, g, seg, []);
  }

  lemma FreshSegmentHasNoEvents(log: seq<Emission>, g: nat)
    requires forall i :: 0 <= i < |log| ==> log[i].segment != g
    ensures EventsOf(log, g) == []
  {
  }

  lemma AcceptedKeys(s: Service, sessionId: string, runId: string, resumed: bool)
    requires KeysInv(s) && RunKey(sessionId, runId) !in s.active
    ensures KeysInv(Accept(s, sessionId, runId, resumed))
  {
    hide RunKey;
  }

  lemma AcceptedSegment(s: Service, sessionId: string, runId: string, resumed: bool)
    requires LogInv(s)
    ensures SegmentInv(Accept(s, sessionId, runId, resumed), |s.segments|)
  {
    FreshSegmentHasNoEvents(s.log, |s.segments|);
  }

  lemma InvAccept(s: Service, sessionId: string, runId: string, resumed: bool)
    requires Inv(s) && RunKey(sessionId, runId) !in s.active
    ensures Inv(Accept(s, sessionId, runId, resumed))
  {
    var next := Accept(s, sessionId, runId, resumed);
    AcceptedKeys(s, sessionId, runId, resumed);
    AcceptedSegment(s, sessionId, runId, resumed);
    hide EndingInv, SteeringInv, EventsOf, KeysInv, RunKey;
    forall h | 0 <= h < |s.segments| ensures SegmentInv(next, h) {
      assert SegmentInv(s, h);
    }
  }

  lemma InvSteer(s: Service, key: string, messageId: string, text: string)
    requires Inv(s)
    ensures Inv(ApplySteer(s, key, messageId, text))
  {
    if key in s.active {
      var g := s.active[key];
      var seg := s.segments[g];
      assert SegmentInv(s, g);
      if SteerReplyOf(seg.run, messageId, text) != InvalidParams {
        var m := Message(Trim(messageId), Trim(text));
        var arrivals := seg.arrivals + [m];
        assert arrivals[..|seg.arrivals|] == seg.arrivals;
        MessageIdsAppend(seg.arrivals, m);
        assert Join(seg.requests) + (seg.run.steering + [m]) == (Join(seg.requests) + seg.run.steering) + [m];
        InvQuietTouch(s, g, seg.(run := Steered(seg.run, messageId, text), arrivals := arrivals));
      }
    }
  }

  lemma MessageIdsAppend(messages: seq<Message>, m: Message)
    ensures MessageIds(messages + [m]) == MessageIds(messages) + {m.messageId}
  {
    var all := messages + [m];
    assert all[|messages|] == m;
    assert forall i :: 0 <= i < |messages| ==> all[i] == messages[i];
    forall id | id in MessageIds(messages) ensures id in MessageIds(all) {
      var i :| 0 <= i < |messages| && messages[i].messageId == id;
      assert all[i].messageId == id;
    }
  }

  lemma InvCancel(s: Service, key: string)
    requires Inv(s)
    ensures Inv(ApplyCancel(s, key))
  {
    if key in s.active {
      var g := s.active[key];
      var seg := s.segments[g];
      assert SegmentInv(s, g);
      AbortKeepsSegment(seg, EventsOf(s.log, g));
      InvQuietTouch(s, g, seg.(run := seg.run.(aborted := true)));
    }
  }

  lemma InvShutdown(s: Service)
    requires Inv(s)
    ensures Inv(ApplyShutdown(s))
  {
    var next := ApplyShutdown(s);
    hide EndingInv, SteeringInv, EventsOf;
    forall h | 0 <= h < |next.segments| ensures SegmentInv(next, h) {
      assert SegmentInv(s, h);
      AbortKeepsSegment(s.segments[h], EventsOf(s.log, h));
    }
  }

  lemma QuietEvents(events: seq<Event>, more: seq<Event>)
    requires NoEnding(events) && NoEnding(more)
    requires forall e :: e in more ==> !e.SteeringConsumed?
    ensures NoEnding(events + more) && Consumed(events + more) == Consumed(events)
  {
    ConsumedConcat(events, more);
    ConsumedNone(more);
  }

  /** An ending stays the only one when more events follow that are none. */
  lemma EndedOnceGrows(events: seq<Event>, more: seq<Event>, ending: seq<Event>)
    requires EndedOnce(events, ending) && NoEnding(more)
    ensures EndedOnce(events + more, ending)
  {
    var at: nat :| EndedAt(events, ending, at);
    var all, end := events + more, at + |ending|;
    assert all[..at] == events[..at] && all[at..end] == events[at..end] && all[end..] == events[end..] + more;
    assert EndedAt(all, ending, at);
  }

  /** Events that are no ending, emitted in any phase but the first. */
  lemma EndingInvGrows(seg: Segment, events: seq<Event>, more: seq<Event>)
    requires EndingInv(seg, events) && NoEnding(more) && !seg.phase.Accepted?
    ensures EndingInv(seg, events + more)
  {
    match seg.phase {
      case Settled(aborted, outcome) => EndedOnceGrows(events, more, SettleEvents(aborted, outcome));
      case _ =>
    }
  }

  /** What the engine emits, before or after settlement. */
  lemma InvEngineEmits(s: Service, g: nat, e: Event)
    requires Inv(s) && g < |s.segments| && InEngine(s.segments[g]) && e.EngineEvent?
    ensures Inv(Emit(s, g, [e]))
  {
    var seg, before := s.segments[g], EventsOf(s.log, g);
    assert SegmentInv(s, g);
    EndingInvGrows(seg, before, [e]);
    ConsumedConcat(before, [e]);
    ConsumedNone([e]);
    assert WithSegment(Emit(s, g, [e]), g, seg) == Emit(s, g, [e]);
    hide EndingInv, EventsOf, Consumed;
    InvTouch(s, g, seg, [e]);
  }

  /** Phase changes before settlement that emit no ending and no steering. */
  lemma InvProgress(s: Service, g: nat, phase: Phase, events: seq<Event>)
    requires Inv(s) && g < |s.segments|
    requires !s.segments[g].phase.Settled? && !phase.Settled? && !phase.Accepted?
    requires phase.Compacting? ==> !s.segments[g].entered
    requires NoEnding(events) && forall e :: e in events ==> !e.SteeringConsumed?
    ensures Inv(WithPhase(Emit(s, g, events), g, phase))
    ensures !phase.Compacting? ==>
              Inv(WithSegment(Emit(s, g, events), g, s.segments[g].(phase := phase, entered := true)))
  {
    assert SegmentInv(s, g);
    var before := EventsOf(s.log, g);
    assert NoEnding(before);
    QuietEvents(before, events);
    InvTouch(s, g, s.segments[g].(phase := phase), events);
    if !phase.Compacting? {
      InvTouch(s, g, s.segments[g].(phase := phase, entered := true), events);
    }
  }

  lemma InvQuietProgress(s: Service, g: nat, phase: Phase)
    requires Inv(s) && g < |s.segments|
    requires !s.segments[g].phase.Settled? && !phase.Settled? && !phase.Accepted?
    requires phase.Compacting? ==> !s.segments[g].entered
    ensures Inv(WithPhase(s, g, phase))
  {
    assert Emit(s, g, []) == s;
    InvProgress(s, g, phase, []);
  }

  lemma InvModelRequest(s: Service, g: nat)
    requires Inv(s) && g < |s.segments| && InEngine(s.segments[g])
    ensures Inv(ApplyModelRequest(s, g))
  {
    var seg := s.segments[g];
    var taken := seg.run.steering;
    assert SegmentInv(s, g);
    var before := EventsOf(s.log, g);
    EndingInvGrows(seg, before, ConsumedEvents(taken));
    ConsumedConcat(before, ConsumedEvents(taken));
    ConsumedAll(taken);
    var requests := seg.requests + [taken];
    assert requests[..|seg.requests|] == seg.requests;
    assert Join(requests) == Join(seg.requests) + taken;
    assert Join(requests) + [] == Join(requests);
    InvTouch(s, g, seg.(run := seg.run.(steering := []), requests := requests), ConsumedEvents(taken));
  }

  lemma SettledSegment(seg: Segment, before: seq<Event>)
    requires seg.phase.Returned? && EndingInv(seg, before) && SteeringInv(seg, before)
    ensures var ending := SettleEvents(seg.run.aborted, seg.phase.outcome);
            var settled := seg.(phase := Settled(seg.run.aborted, seg.phase.outcome));
            EndingInv(settled, before + ending) && SteeringInv(settled, before + ending)
  {
    var ending := SettleEvents(seg.run.aborted, seg.phase.outcome);
    ConsumedConcat(before, ending);
    ConsumedNone(ending);
    var all := before + ending;
    assert all[..|before|] == before && all[|before|..|before| + |ending|] == ending && all[|all|..] == [];
    assert EndedAt(all, ending, |before|);
  }

  lemma SettledKeys(s: Service, g: nat)
    requires KeysInv(s) && g < |s.segments| && s.segments[g].phase.Returned?
    ensures KeysInv(ApplySettle(s, g))
  {
    hide RunKey, SettleEvents;
  }

  lemma InvSettle(s: Service, g: nat)
    requires Inv(s) && g < |s.segments| && s.segments[g].phase.Returned?
    ensures Inv(ApplySettle(s, g))
  {
    var seg := s.segments[g];
    var ending := SettleEvents(seg.run.aborted, seg.phase.outcome);
    var settled := seg.(phase := Settled(seg.run.aborted, seg.phase.outcome));
    var next := ApplySettle(s, g);
    assert SegmentInv(s, g);
    SettledKeys(s, g);
    SettledSegment(seg, EventsOf(s.log, g));
    hide EndingInv, SteeringInv, EventsOf, KeysInv, SettleEvents;
    forall h | 0 <= h < |next.segments| ensures SegmentInv(next, h) {
      SegmentsTouch(s, g, settled, ending, h);
    }
  }

  /** The engine is entered only once compaction has ended. */
  lemma NotYetEntered(s: Service, g: nat)
    requires Inv(s) && g < |s.segments| && (s.segments[g].phase.Accepted? || s.segments[g].phase.Compacting?)
    ensures !s.segments[g].entered
  {
    assert SegmentInv(s, g);
  }

  lemma InvStep(s: Service, step: Step)
    requires Inv(s) && Enabled(s, step)
    ensures Inv(Apply(s, step))
  {
    hide KeysInv, LogInv, SegmentInv;
    match step {
      case Initialize => InitializeKeeps(s);
      case Start(sid, rid, valid) =>
        if RunKey(sid, rid) !in s.active { InvAccept(s, sid, rid, false); }
      case Resume(sid, rid, valid) =>
        if RunKey(sid, rid) !in s.active && valid {
          InvAccept(s, sid, rid, true);
          InvProgress(Accept(s, sid, rid, true), |s.segments|, Running, [RunStarted(true)]);
          var accepted := Accept(s, sid, rid, true);
          assert WithPhase(Emit(accepted, |s.segments|, [RunStarted(true)]), |s.segments|, Running)
                 == Emit(accepted, |s.segments|, [RunStarted(true)]);
        }
      case Steer(sid, rid, messageId, text) => InvSteer(s, RunKey(sid, rid), messageId, text);
      case Cancel(sid, rid) => InvCancel(s, RunKey(sid, rid));
      case Shutdown => InvShutdown(s);
      case BeginStart(g, identity) =>
        if s.segments[g].run.aborted { InvQuietProgress(s, g, Returned(Threw(true))); }
        else if identity.Some? {
          InvProgress(s, g, Returned(Finished(identity.value)), [RunStarted(false), EngineEvent("message.delta")]);
        } else {
          NotYetEntered(s, g);
          InvQuietProgress(s, g, Compacting);
        }
      case CompactionEnds(g, aborted) =>
        if aborted || s.segments[g].run.aborted { InvQuietProgress(s, g, Returned(Threw(true))); }
        else { InvProgress(s, g, Running, [RunStarted(false)]); }
      case EngineEmits(g, e) => InvEngineEmits(s, g, e);
      case ModelRequest(g) => InvModelRequest(s, g);
      case EngineReturns(g, outcome) => InvQuietProgress(s, g, Returned(outcome));
      case Settle(g) => InvSettle(s, g);
    }
  }

  lemma InitializeKeeps(s: Service)
    requires Inv(s)
    ensures Inv(s.(initialized := true))
  {
    forall g | 0 <= g < |s.segments| ensures SegmentInv(s.(initialized := true), g) {
      assert SegmentInv(s, g);
    }
  }

  lemma {:induction false} InvRun(ss: seq<Service>, steps: seq<Step>, n: nat)
    requires IsRun(ss, steps) && n < |ss|
    ensures Inv(ss[n])
  {
    if n > 0 {
      InvRun(ss, steps, n - 1);
      InvStep(ss[n - 1], steps[n - 1]);
    }
  }

  lemma RunLength(ss: seq<Service>, steps: seq<Step>)
    requires IsRun(ss, steps)
    ensures |ss| == |steps| + 1
  {
  }

  /** What the proofs by induction over a run need of its step n. */
  lemma RunStep(ss: seq<Service>, steps: seq<Step>, n: nat)
    requires IsRun(ss, steps) && n < |steps|
    ensures |ss| == |steps| + 1
    ensures Inv(ss[n]) && KeysInv(ss[n]) && Enabled(ss[n], steps[n])
    ensures ActiveInRange(ss[n]) && ss[n + 1] == Apply(ss[n], steps[n])
  {
    InvRun(ss, steps, n);
  }

  // ----- What every run guarantees -----

  /** How a step may change one segment: its identity is fixed, an abort is never undone, a settled
      segment is final, and an aborted segment outside the engine never enters it. */
  predicate Succeeds(seg: Segment, next: Segment) {
    && KeyOf(next) == KeyOf(seg) && next.resumed == seg.resumed
    && (seg.run.aborted ==> next.run.aborted)
    && (seg.phase.Settled? ==> next.phase == seg.phase && next.entered == seg.entered)
    && (seg.run.aborted && !seg.phase.Running? ==> !next.phase.Running? && next.entered == seg.entered)
    && (seg.phase.Returned? ==>
          next.phase == seg.phase || next.phase == Settled(seg.run.aborted, seg.phase.outcome))
    && (next.phase.Settled? ==> seg.phase.Settled? || seg.phase.Returned?)
  }

  lemma HostStepSucceeds(s: Service, step: Step, g: nat)
    requires KeysInv(s) && Enabled(s, step) && g < |s.segments|
    requires step.Initialize? || step.Start? || step.Resume? || step.Steer? || step.Cancel? || step.Shutdown?
    ensures g < |Apply(s, step).segments| && Succeeds(s.segments[g], Apply(s, step).segments[g])
  {
    hide RunKey, SteerReplyOf, Tagged;
  }

  lemma BeginSucceeds(s: Service, h: nat, identity: Option<EngineResult>, g: nat)
    requires h < |s.segments| && s.segments[h].phase.Accepted? && g < |s.segments|
    ensures g < |ApplyBeginStart(s, h, identity).segments|
    ensures Succeeds(s.segments[g], ApplyBeginStart(s, h, identity).segments[g])
  {
    hide RunKey, Tagged;
  }

  lemma CompactionSucceeds(s: Service, h: nat, aborted: bool, g: nat)
    requires h < |s.segments| && s.segments[h].phase.Compacting? && g < |s.segments|
    ensures g < |ApplyCompactionEnds(s, h, aborted).segments|
    ensures Succeeds(s.segments[g], ApplyCompactionEnds(s, h, aborted).segments[g])
  {
    hide RunKey, Tagged;
  }

  lemma EngineStepSucceeds(s: Service, step: Step, g: nat)
    requires KeysInv(s) && Enabled(s, step) && g < |s.segments|
    requires step.EngineEmits? || step.ModelRequest? || step.EngineReturns? || step.Settle?
    ensures g < |Apply(s, step).segments| && Succeeds(s.segments[g], Apply(s, step).segments[g])
  {
    hide KeysInv, RunKey, SettleEvents, Tagged, ConsumedEvents;
  }

  lemma SegmentSucceeds(s: Service, step: Step, g: nat)
    requires KeysInv(s) && Enabled(s, step) && g < |s.segments|
    ensures g < |Apply(s, step).segments| && Succeeds(s.segments[g], Apply(s, step).segments[g])
  {
    hide Succeeds, KeysInv, ApplyBeginStart, ApplyCompactionEnds;
    match step {
      case Initialize => HostStepSucceeds(s, step, g);
      case Start(_, _, _) => HostStepSucceeds(s, step, g);
      case Resume(_, _, _) => HostStepSucceeds(s, step, g);
      case Steer(_, _, _, _) => HostStepSucceeds(s, step, g);
      case Cancel(_, _) => HostStepSucceeds(s, step, g);
      case Shutdown => HostStepSucceeds(s, step, g);
      case BeginStart(h, identity) => BeginSucceeds(s, h, identity, g);
      case CompactionEnds(h, aborted) => CompactionSucceeds(s, h, aborted, g);
      case _ => EngineStepSucceeds(s, step, g);
    }
  }

  /** A settled segment has emitted exactly one proper ending, in one piece, and no ending event before
      or after it; a segment still live has emitted none. */
  lemma ExactlyOneEnding(ss: seq<Service>, steps: seq<Step>, n: nat, g: nat)
    requires IsRun(ss, steps) && n < |ss| && g < |ss[n].segments|
    ensures var seg := ss[n].segments[g];
            var events := EventsOf(ss[n].log, g);
            match seg.phase
            case Settled(aborted, outcome) =>
              EndedOnce(events, SettleEvents(aborted, outcome)) && ProperEnding(SettleEvents(aborted, outcome))
            case _ => NoEnding(events)
  {
    InvRun(ss, steps, n);
    assert SegmentInv(ss[n], g);
    var seg := ss[n].segments[g];
    if seg.phase.Settled? {
      SettleEndsProperly(seg.phase.aborted, seg.phase.outcome);
    }
  }

  /** The ending says how the segment ended: cancelled if it was aborted or the error was an abort, failed
      on any other error, completed with the final message if it finished without interruptions, and
      otherwise every interruption in order. */
  lemma EndingTellsOutcome(ss: seq<Service>, steps: seq<Step>, n: nat, g: nat)
    requires IsRun(ss, steps) && n < |ss| && g < |ss[n].segments| && ss[n].segments[g].phase.Settled?
    ensures var settled := ss[n].segments[g].phase;
            TellsOutcome(EventsOf(ss[n].log, g), settled.aborted, settled.outcome)
  {
    InvRun(ss, steps, n);
    assert SegmentInv(ss[n], g);
    hide Inv, EventsOf, SettleEvents, TellsOutcome, EndedOnce, SteeringInv, IsRun;
    var settled := ss[n].segments[g].phase;
    EndedOnceTells(EventsOf(ss[n].log, g), settled.aborted, settled.outcome);
  }

  lemma EndedOnceTells(events: seq<Event>, aborted: bool, outcome: Outcome)
    requires EndedOnce(events, SettleEvents(aborted, outcome))
    ensures TellsOutcome(events, aborted, outcome)
  {
    hide SettleEvents, TellsOutcome;
    var ending := SettleEvents(aborted, outcome);
    var at: nat :| EndedAt(events, ending, at);
    assert events == events[..at] + ending + events[at + |ending|..];
    SettleTells(aborted, outcome);
    TellsWithin(events[..at], ending, events[at + |ending|..], aborted, outcome);
  }

  /** The outcome is the one the engine's promise ended with, and the abort the one seen then. */
  lemma {:induction false} OutcomeIsTheEngines(ss: seq<Service>, steps: seq<Step>, i: nat, j: nat, g: nat)
    requires IsRun(ss, steps) && i < j < |ss| && i < |steps| && steps[i].EngineReturns? && steps[i].g == g
    ensures g < |ss[j].segments|
    ensures var phase := ss[j].segments[g].phase;
            (phase.Returned? || phase.Settled?) && phase.outcome == steps[i].outcome
  {
    hide IsRun, Inv, KeysInv, Apply, Enabled, ActiveInRange, KeyOf;
    RunLength(ss, steps);
    if i + 1 == j {
      RunStep(ss, steps, i);
      EngineReturnsKeeps(ss[i], g, steps[i].outcome);
    } else {
      OutcomeIsTheEngines(ss, steps, i, j - 1, g);
      RunStep(ss, steps, j - 1);
      SegmentSucceeds(ss[j - 1], steps[j - 1], g);
    }
  }

  lemma EngineReturnsKeeps(s: Service, g: nat, outcome: Outcome)
    requires Enabled(s, EngineReturns(g, outcome)) && ActiveInRange(s)
    ensures var t := Apply(s, EngineReturns(g, outcome));
            g < |t.segments| && t.segments[g].phase == Returned(outcome)
  {
  }

  /** The engine emits for the segment, or makes a model request that carries steering. */
  predicate EngineSpeaks(s: Service, step: Step, g: nat) {
    || (step.EngineEmits? && step.g == g)
    || (step == ModelRequest(g) && g < |s.segments| && s.segments[g].run.steering != [])
  }

  predicate FromEngine(events: seq<Event>) {
    forall e :: e in events ==> e.EngineEvent? || e.SteeringConsumed?
  }

  /** Between the states i and j the engine does not speak for the segment. */
  predicate EngineQuiet(ss: seq<Service>, steps: seq<Step>, i: nat, j: nat, g: nat)
    requires i <= j < |ss| == |steps| + 1
  {
    forall n :: i <= n < j ==> !EngineSpeaks(ss[n], steps[n], g)
  }

  lemma QuietUpTo(ss: seq<Service>, steps: seq<Step>, i: nat, j: nat, g: nat)
    requires i < j < |ss| == |steps| + 1
    ensures EngineQuiet(ss, steps, i, j, g)
            <==> EngineQuiet(ss, steps, i, j - 1, g) && !EngineSpeaks(ss[j - 1], steps[j - 1], g)
  {
    hide EngineSpeaks;
  }

  lemma NothingSaid(ss: seq<Service>, steps: seq<Step>, i: nat, g: nat)
    requires i < |ss| == |steps| + 1
    ensures EngineQuiet(ss, steps, i, i, g) && FromEngine([]) && NoEnding([])
  {
  }

  lemma FromEngineConcat(a: seq<Event>, b: seq<Event>)
    requires FromEngine(a) && FromEngine(b)
    ensures FromEngine(a + b) && NoEnding(a + b)
  {
  }

  /** Every step speaks for at most one segment, and for a settled one only as the engine does. */
  lemma StepSpeaks(s: Service, step: Step) returns (h: nat, events: seq<Event>)
    requires KeysInv(s) && Enabled(s, step)
    ensures ActiveInRange(s) && Apply(s, step).log == s.log + Tagged(h, events)
    ensures h < |s.segments| && s.segments[h].phase.Settled? ==>
              FromEngine(events) && (events != [] ==> s.segments[h].entered)
    ensures forall g: nat :: g < |s.segments| && s.segments[g].phase.Settled? ==>
              (EngineSpeaks(s, step, g) <==> h == g && events != [])
  {
    hide RunKey, SettleEvents, SteerReplyOf;
    h, events := |s.segments|, [];
    assert s.log + Tagged(h, events) == s.log;
    match step {
      case Resume(_, _, _) =>
        if Apply(s, step) != s { events := [RunStarted(true)]; }
      case BeginStart(g, identity) =>
        if identity.Some? && !s.segments[g].run.aborted {
          h, events := g, [RunStarted(false), EngineEvent("message.delta")];
        }
      case CompactionEnds(g, aborted) =>
        if !aborted && !s.segments[g].run.aborted { h, events := g, [RunStarted(false)]; }
      case EngineEmits(g, e) => h, events := g, [e];
      case ModelRequest(g) => h, events := g, ConsumedEvents(s.segments[g].run.steering);
      case Settle(g) => h, events := g, SettleEvents(s.segments[g].run.aborted, s.segments[g].phase.outcome);
      case _ =>
    }
  }

  /** What one step adds to a settled segment's events. */
  lemma StepAfterSettlement(s: Service, step: Step, g: nat) returns (more: seq<Event>)
    requires Inv(s) && Enabled(s, step) && g < |s.segments| && s.segments[g].phase.Settled?
    ensures EventsOf(Apply(s, step).log, g) == EventsOf(s.log, g) + more
    ensures FromEngine(more) && (more != [] <==> EngineSpeaks(s, step, g))
    ensures !s.segments[g].entered ==> more == []
  {
    var h, events := StepSpeaks(s, step);
    hide EventsOf, Apply, EngineSpeaks, SegmentInv, LogInv, Enabled;
    EventsAppend(s.log, h, events, g);
    more := if h == g then events else [];
  }

  lemma RunStepAfterSettlement(ss: seq<Service>, steps: seq<Step>, n: nat, g: nat) returns (more: seq<Event>)
    requires IsRun(ss, steps) && n < |steps| && |ss| == |steps| + 1
    requires g < |ss[n].segments| && ss[n].segments[g].phase.Settled?
    ensures g < |ss[n + 1].segments|
    ensures ss[n + 1].segments[g].phase == ss[n].segments[g].phase
    ensures ss[n + 1].segments[g].entered == ss[n].segments[g].entered
    ensures EventsOf(ss[n + 1].log, g) == EventsOf(ss[n].log, g) + more
    ensures FromEngine(more) && (more != [] <==> EngineSpeaks(ss[n], steps[n], g))
    ensures !ss[n].segments[g].entered ==> more == []
  {
    hide IsRun, Inv, KeysInv, Apply, Enabled, EventsOf, EngineSpeaks, FromEngine, ActiveInRange, KeyOf;
    RunStep(ss, steps, n);
    SegmentSucceeds(ss[n], steps[n], g);
    more := StepAfterSettlement(ss[n], steps[n], g);
  }

  /** After its settlement only the engine still speaks for a segment, never with an ending, and not at
      all for a segment that never entered the engine. The segment stays silent exactly when the engine
      emits nothing more for it and sends off no more of its steering. */
  lemma {:induction false} AfterSettlement(ss: seq<Service>, steps: seq<Step>, i: nat, j: nat, g: nat)
    returns (late: seq<Event>)
    requires IsRun(ss, steps) && i <= j < |ss|
    requires g < |ss[i].segments| && ss[i].segments[g].phase.Settled?
    ensures |ss| == |steps| + 1 && g < |ss[j].segments|
    ensures ss[j].segments[g].phase == ss[i].segments[g].phase && ss[j].segments[g].entered == ss[i].segments[g].entered
    ensures EventsOf(ss[j].log, g) == EventsOf(ss[i].log, g) + late
    ensures FromEngine(late) && NoEnding(late)
    ensures late == [] <==> EngineQuiet(ss, steps, i, j, g)
    ensures !ss[i].segments[g].entered ==> late == []
  {
    hide *;
    RunLength(ss, steps);
    if i == j {
      late := [];
      assert EventsOf(ss[i].log, g) + [] == EventsOf(ss[i].log, g);
      NothingSaid(ss, steps, i, g);
    } else {
      var n := j - 1;
      var before := AfterSettlement(ss, steps, i, n, g);
      var more := RunStepAfterSettlement(ss, steps, n, g);
      QuietUpTo(ss, steps, i, j, g);
      FromEngineConcat(before, more);
      assert EventsOf(ss[i].log, g) + before + more == EventsOf(ss[i].log, g) + (before + more);
      late := before + more;
    }
  }

  /** A run goes on with any enabled step. */
  lemma RunGoesOn(ss: seq<Service>, steps: seq<Step>, last: Service, step: Step, next: Service)
    requires IsRun(ss, steps) && ss[|ss| - 1] == last
    requires Enabled(last, step) && ActiveInRange(last) && next == Apply(last, step)
    ensures IsRun(ss + [next], steps + [step])
  {
    hide Enabled, Apply;
  }

  lemma TaggedOne(g: nat, e: Event)
    ensures Tagged(g, [e]) == [Emission(g, e)]
  {
  }

  /** A run with a tool call in flight. */
  lemma ToolInFlight(sid: string, rid: string) returns (ss: seq<Service>, steps: seq<Step>)
    ensures IsRun(ss, steps)
    ensures ss[|ss| - 1] == Service(true, false, map[RunKey(sid, rid) := 0],
                                    [Segment(sid, rid, false, FRESH_RUN, Running, true, [], [])],
                                    [Emission(0, RunStarted(false)), Emission(0, EngineEvent("tool.started"))])
  {
    var seg := Segment(sid, rid, false, FRESH_RUN, Accepted, false, [], []);
    var started := Emission(0, RunStarted(false));
    TaggedOne(0, RunStarted(false));
    TaggedOne(0, EngineEvent("tool.started"));
    ss, steps := [INITIAL], [];
    assert IsRun(ss, steps);
    hide IsRun, RunKey, Tagged;
    var s1 := Service(true, false, map[], [], []);
    RunGoesOn(ss, steps, INITIAL, Initialize, s1);
    var s2 := s1.(active := map[RunKey(sid, rid) := 0], segments := [seg]);
    RunGoesOn(ss + [s1], [Initialize], s1, Start(sid, rid, true), s2);
    ss, steps := ss + [s1] + [s2], [Initialize] + [Start(sid, rid, true)];
    var s3 := s2.(segments := [seg.(phase := Compacting)]);
    RunGoesOn(ss, steps, s2, BeginStart(0, None), s3);
    ss, steps := ss + [s3], steps + [BeginStart(0, None)];
    var s4 := s2.(segments := [seg.(phase := Running, entered := true)], log := [started]);
    RunGoesOn(ss, steps, s3, CompactionEnds(0, false), s4);
    ss, steps := ss + [s4], steps + [CompactionEnds(0, false)];
    var s5 := s4.(log := [started, Emission(0, EngineEvent("tool.started"))]);
    RunGoesOn(ss, steps, s4, EngineEmits(0, EngineEvent("tool.started")), s5);
    ss, steps := ss + [s5], steps + [EngineEmits(0, EngineEvent("tool.started"))];
  }

  /** That run is then cancelled; the engine throws at once and the segment is settled. */
  lemma CancelledInFlight(sid: string, rid: string) returns (ss: seq<Service>, steps: seq<Step>)
    ensures IsRun(ss, steps)
    ensures var run := FRESH_RUN.(aborted := true);
            ss[|ss| - 1] == Service(true, false, map[],
                                    [Segment(sid, rid, false, run, Settled(true, Threw(true)), true, [], [])],
                                    [Emission(0, RunStarted(false)), Emission(0, EngineEvent("tool.started")),
                                     Emission(0, RunCancelled)])
  {
    ss, steps := ToolInFlight(sid, rid);
    RunLength(ss, steps);
    hide IsRun, RunKey, Tagged;
    TaggedOne(0, RunCancelled);
    var last := ss[|ss| - 1];
    var seg := last.segments[0].(run := FRESH_RUN.(aborted := true));
    var s1 := last.(segments := [seg]);
    RunGoesOn(ss, steps, last, Cancel(sid, rid), s1);
    ss, steps := ss + [s1], steps + [Cancel(sid, rid)];
    var s2 := last.(segments := [seg.(phase := Returned(Threw(true)))]);
    RunGoesOn(ss, steps, s1, EngineReturns(0, Threw(true)), s2);
    ss, steps := ss + [s2], steps + [EngineReturns(0, Threw(true))];
    var s3 := Service(true, false, map[], [seg.(phase := Settled(true, Threw(true)))],
                      last.log + [Emission(0, RunCancelled)]);
    RunGoesOn(ss, steps, s2, Settle(0), s3);
    ss, steps := ss + [s3], steps + [Settle(0)];
  }

  /** The engine waits for a tool call without watching the abort, so a run cancelled meanwhile reports the
      tool's failure after run.cancelled, and even after its successor under the same key has started. */
  lemma LateToolFailure(sid: string, rid: string, successor: bool) returns (ss: seq<Service>, steps: seq<Step>)
    ensures IsRun(ss, steps)
    ensures var last := ss[|ss| - 1];
            && last.log == [Emission(0, RunStarted(false)), Emission(0, EngineEvent("tool.started")),
                            Emission(0, RunCancelled)]
                           + (if successor then [Emission(1, RunStarted(true))] else [])
                           + [Emission(0, EngineEvent("tool.failed"))]
            && last.segments != [] && last.segments[0].phase.Settled?
            && (successor ==> |last.segments| == 2 && last.segments[1].phase.Running?
                              && KeyOf(last.segments[1]) == KeyOf(last.segments[0]) == RunKey(sid, rid))
  {
    ss, steps := CancelledInFlight(sid, rid);
    RunLength(ss, steps);
    hide IsRun, RunKey, Tagged;
    var last := ss[|ss| - 1];
    TaggedOne(1, RunStarted(true));
    TaggedOne(0, EngineEvent("tool.failed"));
    if successor {
      var next := Apply(last, Resume(sid, rid, true));
      RunGoesOn(ss, steps, last, Resume(sid, rid, true), next);
      ss, steps, last := ss + [next], steps + [Resume(sid, rid, true)], next;
    }
    var failed := EngineEmits(0, EngineEvent("tool.failed"));
    RunGoesOn(ss, steps, last, failed, Apply(last, failed));
    ss, steps := ss + [Apply(last, failed)], steps + [failed];
  }

  lemma {:induction false} SegmentsPersist(ss: seq<Service>, steps: seq<Step>, i: nat, j: nat, g: nat)
    requires IsRun(ss, steps) && i <= j < |ss| && g < |ss[i].segments|
    ensures g < |ss[j].segments|
    ensures KeyOf(ss[j].segments[g]) == KeyOf(ss[i].segments[g])
    ensures ss[j].segments[g].resumed == ss[i].segments[g].resumed
    ensures ss[i].segments[g].run.aborted ==> ss[j].segments[g].run.aborted
  {
    hide IsRun, Inv, KeysInv, Apply, Enabled, ActiveInRange, KeyOf;
    RunLength(ss, steps);
    if i < j {
      SegmentsPersist(ss, steps, i, j - 1, g);
      RunStep(ss, steps, j - 1);
      SegmentSucceeds(ss[j - 1], steps[j - 1], g);
    }
  }

  /** An abort seen before settlement, by cancellation or shutdown, ends the segment with
      run.cancelled and nothing else; without one, only an abort-like error does. */
  lemma AbortAlwaysCancels(ss: seq<Service>, steps: seq<Step>, i: nat, j: nat, g: nat)
    requires IsRun(ss, steps) && i <= j < |steps| && g < |ss[i].segments|
    requires steps[j] == Settle(g)
    ensures g < |ss[j].segments| && ss[j].segments[g].phase.Returned?
    ensures ss[i].segments[g].run.aborted ==> EventsOf(ss[j + 1].log, g) == EventsOf(ss[j].log, g) + [RunCancelled]
    ensures EventsOf(ss[j + 1].log, g) == EventsOf(ss[j].log, g) + [RunCancelled]
            <==> ss[j].segments[g].run.aborted || ss[j].segments[g].phase.outcome == Threw(true)
  {
    SegmentsPersist(ss, steps, i, j, g);
    assert Enabled(ss[j], steps[j]);
    var seg := ss[j].segments[g];
    var ending := SettleEvents(seg.run.aborted, seg.phase.outcome);
    EventsAppend(ss[j].log, g, ending, g);
    SettleEndsProperly(seg.run.aborted, seg.phase.outcome);
    var before := EventsOf(ss[j].log, g);
    assert (before + ending)[|before|..] == ending && (before + [RunCancelled])[|before|..] == [RunCancelled];
  }

  /** A start aborted before its compaction finished never reaches the engine, so the engine never emits
      for it. */
  lemma {:induction false} AbortedStartNeverRuns(ss: seq<Service>, steps: seq<Step>, i: nat, j: nat, g: nat)
    requires IsRun(ss, steps) && i <= j < |ss| && g < |ss[i].segments|
    requires ss[i].segments[g].run.aborted
    requires ss[i].segments[g].phase.Accepted? || ss[i].segments[g].phase.Compacting?
    ensures g < |ss[j].segments| && ss[j].segments[g].run.aborted
    ensures !ss[j].segments[g].entered && !ss[j].segments[g].phase.Running? && !InEngine(ss[j].segments[g])
  {
    hide IsRun, Inv, KeysInv, Apply, Enabled, ActiveInRange, KeyOf;
    RunLength(ss, steps);
    if i == j {
      InvRun(ss, steps, i);
      NotYetEntered(ss[i], g);
    } else {
      AbortedStartNeverRuns(ss, steps, i, j - 1, g);
      RunStep(ss, steps, j - 1);
      SegmentSucceeds(ss[j - 1], steps[j - 1], g);
    }
  }

  /** Two live segments never share a key: segments of one run follow one another. */
  lemma LiveSegmentsHaveDistinctKeys(ss: seq<Service>, steps: seq<Step>, n: nat, g: nat, h: nat)
    requires IsRun(ss, steps) && n < |ss| && g < |ss[n].segments| && h < |ss[n].segments|
    requires !ss[n].segments[g].phase.Settled? && !ss[n].segments[h].phase.Settled?
    requires KeyOf(ss[n].segments[g]) == KeyOf(ss[n].segments[h])
    ensures g == h
  {
    InvRun(ss, steps, n);
  }

  /** Steering is delivered exactly once and in order: what the model requests carried, followed by
      what is still queued, is the accepted messages with later duplicates dropped, and the
      consumption events report precisely what the requests carried. */
  lemma SteeringExactlyOnce(ss: seq<Service>, steps: seq<Step>, n: nat, g: nat)
    requires IsRun(ss, steps) && n < |ss| && g < |ss[n].segments|
    ensures var seg := ss[n].segments[g];
            && Join(seg.requests) + seg.run.steering == Dedup(seg.arrivals)
            && Consumed(EventsOf(ss[n].log, g)) == Join(seg.requests)
            && (forall i, j :: 0 <= i < j < |Dedup(seg.arrivals)| ==>
                  Dedup(seg.arrivals)[i].messageId != Dedup(seg.arrivals)[j].messageId)
            && MessageIds(Dedup(seg.arrivals)) == MessageIds(seg.arrivals)
  {
    InvRun(ss, steps, n);
    assert SegmentInv(ss[n], g);
    DedupDistinct(ss[n].segments[g].arrivals);
  }

  /** A steer call for an active run reaches it, trimmed, exactly if neither its id nor its text is blank;
      any other changes nothing. */
  lemma SteerArrives(ss: seq<Service>, steps: seq<Step>, i: nat)
    requires IsRun(ss, steps) && i < |steps| && steps[i].Steer?
    ensures |ss| == |steps| + 1
    ensures var s, t, step := ss[i], ss[i + 1], steps[i];
            var key := RunKey(step.sessionId, step.runId);
            if key in s.active && !IsBlank(step.messageId) && !IsBlank(step.text) then
              var g := s.active[key];
              && g < |s.segments| == |t.segments|
              && t.segments[g].arrivals == s.segments[g].arrivals + [Message(Trim(step.messageId), Trim(step.text))]
              && (forall h :: 0 <= h < |s.segments| && h != g ==> t.segments[h] == s.segments[h])
            else t == s
  {
    RunStep(ss, steps, i);
    hide Inv, IsRun, RunKey, Trim;
    TrimsToNothing(steps[i].messageId);
    TrimsToNothing(steps[i].text);
  }

  // ----- Before initialisation and after shutdown -----

  /** No run exists before the service is initialised. */
  lemma {:induction false} RunsNeedInitialization(ss: seq<Service>, steps: seq<Step>, n: nat)
    requires IsRun(ss, steps) && n < |ss|
    ensures ss[n].segments != [] ==> ss[n].initialized
  {
    hide Apply, Enabled, Inv, KeysInv;
    if n > 0 {
      RunsNeedInitialization(ss, steps, n - 1);
      RunStep(ss, steps, n - 1);
      StepInitializes(ss[n - 1], steps[n - 1]);
    }
  }

  lemma StepInitializes(s: Service, step: Step)
    requires ActiveInRange(s) && Enabled(s, step)
    ensures var t := Apply(s, step);
            && (s.initialized ==> t.initialized) && (s.shuttingDown ==> t.shuttingDown)
            && |s.segments| <= |t.segments|
            && (|s.segments| < |t.segments| ==> s.initialized && !s.shuttingDown)
  {
    hide RunKey, SettleEvents, SteerReplyOf, Tagged, ConsumedEvents;
  }

  lemma ShutdownAborts(s: Service)
    requires KeysInv(s)
    ensures var t := ApplyShutdown(s);
            && t.shuttingDown && |t.segments| == |s.segments|
            && forall g :: 0 <= g < |s.segments| ==>
                 t.segments[g] == if s.segments[g].phase.Settled? then s.segments[g]
                                  else s.segments[g].(run := s.segments[g].run.(aborted := true))
  {
    hide RunKey, KeyOf;
    forall g | 0 <= g < |s.segments| && !s.segments[g].phase.Settled?
      ensures g in set key | key in s.active :: s.active[key]
    {
      assert KeyOf(s.segments[g]) in s.active;
    }
  }

  /** Shutdown aborts every unsettled segment and no other, and from then on no run is accepted: each of
      those segments, once it settles, ends with run.cancelled. */
  lemma {:induction false} ShutdownIsFinal(ss: seq<Service>, steps: seq<Step>, i: nat, j: nat)
    requires IsRun(ss, steps) && i < j < |ss| && i < |steps| && steps[i].Shutdown?
    ensures ss[j].shuttingDown && |ss[j].segments| == |ss[i].segments|
    ensures forall g :: 0 <= g < |ss[i].segments| && !ss[i].segments[g].phase.Settled? ==>
              && ss[j].segments[g].run.aborted
              && (ss[j].segments[g].phase.Settled? ==> RunCancelled in EventsOf(ss[j].log, g))
    ensures i + 1 == j ==> forall g :: 0 <= g < |ss[i].segments| && ss[i].segments[g].phase.Settled? ==>
              ss[j].segments[g] == ss[i].segments[g]
  {
    hide *;
    RunLength(ss, steps);
    RunStep(ss, steps, j - 1);
    if i + 1 == j {
      ShutdownAborts(ss[i]);
      ShutdownStep(ss[i], steps[i]);
    } else {
      ShutdownIsFinal(ss, steps, i, j - 1);
      StepInitializes(ss[j - 1], steps[j - 1]);
    }
    forall g | 0 <= g < |ss[i].segments| && !ss[i].segments[g].phase.Settled?
      ensures ss[j].segments[g].run.aborted
      ensures ss[j].segments[g].phase.Settled? ==> RunCancelled in EventsOf(ss[j].log, g)
    {
      RunStep(ss, steps, i);
      ShutdownAborts(ss[i]);
      ShutdownStep(ss[i], steps[i]);
      AbortedEndsCancelled(ss, steps, i + 1, j, g);
    }
  }

  /** A segment aborted while it is unsettled stays so, and ends cancelled. */
  lemma {:induction false} AbortedEndsCancelled(ss: seq<Service>, steps: seq<Step>, i: nat, j: nat, g: nat)
    requires IsRun(ss, steps) && i <= j < |ss| && g < |ss[i].segments|
    requires ss[i].segments[g].run.aborted && !ss[i].segments[g].phase.Settled?
    ensures g < |ss[j].segments| && ss[j].segments[g].run.aborted
    ensures ss[j].segments[g].phase.Settled? ==>
              ss[j].segments[g].phase.aborted && RunCancelled in EventsOf(ss[j].log, g)
  {
    hide IsRun, Inv, KeysInv, Apply, Enabled, ActiveInRange, KeyOf, EventsOf;
    RunLength(ss, steps);
    if i < j {
      AbortedEndsCancelled(ss, steps, i, j - 1, g);
      RunStep(ss, steps, j - 1);
      SegmentSucceeds(ss[j - 1], steps[j - 1], g);
    }
    if ss[j].segments[g].phase.Settled? {
      EndingTellsOutcome(ss, steps, j, g);
    }
  }

  lemma ShutdownStep(s: Service, step: Step)
    requires ActiveInRange(s) && Enabled(s, step) && step.Shutdown?
    ensures Apply(s, step) == ApplyShutdown(s)
  {
  }

  lemma {:induction false} DedupDistinct(messages: seq<Message>)
    ensures forall i, j :: 0 <= i < j < |Dedup(messages)| ==>
              Dedup(messages)[i].messageId != Dedup(messages)[j].messageId
    ensures MessageIds(Dedup(messages)) == MessageIds(messages)
  {
    if messages != [] {
      var n := |messages| - 1;
      DedupDistinct(messages[..n]);
      assert messages == messages[..n] + [messages[n]];
      MessageIdsAppend(messages[..n], messages[n]);
      var init := Dedup(messages[..n]);
      if messages[n].messageId !in MessageIds(messages[..n]) {
        MessageIdsAppend(init, messages[n]);
        assert Dedup(messages) == init + [messages[n]];
        forall i | 0 <= i < |init| ensures init[i].messageId != messages[n].messageId {
          assert init[i].messageId in MessageIds(init);
        }
      } else {
        assert Dedup(messages) == init;
      }
    }
  }

  // ----- No run waits for another -----

  function StagesLeft(phase: Phase): nat {
    match phase
    case Accepted => 4
    case Compacting => 3
    case Running => 2
    case Returned(_) => 1
    case Settled(_, _) => 0
  }

  ghost predicate NearerSettlement(s: Service, step: Step, g: nat)
    requires ActiveInRange(s) && g < |s.segments|
  {
    && Enabled(s, step) && g < |Apply(s, step).segments|
    && StagesLeft(Apply(s, step).segments[g].phase) < StagesLeft(s.segments[g].phase)
  }

  /** Whatever the other runs and the host do, a segment that is not settled can take its own next step,
      and no step takes it back: so it is settled after at most four steps of its own. The engine can use
      a segment's callbacks exactly from the moment it was entered on, settled or not. */
  lemma EverySegmentCanSettle(ss: seq<Service>, steps: seq<Step>, n: nat, g: nat)
    requires IsRun(ss, steps) && n < |ss| && g < |ss[n].segments|
    ensures ActiveInRange(ss[n]) && StagesLeft(ss[n].segments[g].phase) <= 4
    ensures !ss[n].segments[g].phase.Settled? ==> exists step :: NearerSettlement(ss[n], step, g)
    ensures forall step :: Enabled(ss[n], step) ==>
              && g < |Apply(ss[n], step).segments|
              && (Apply(ss[n], step).segments[g].phase == ss[n].segments[g].phase || NearerSettlement(ss[n], step, g))
    ensures Enabled(ss[n], ModelRequest(g)) <==> ss[n].segments[g].entered
    ensures forall kind :: Enabled(ss[n], EngineEmits(g, EngineEvent(kind))) <==> ss[n].segments[g].entered
  {
    var s := ss[n];
    InvRun(ss, steps, n);
    CallbacksAreKept(ss, steps, n, g);
    InvKeys(s);
    hide IsRun, Inv, KeysInv, ActiveInRange, Apply, Enabled, NearerSettlement, InEngine;
    forall step | Enabled(s, step)
      ensures g < |Apply(s, step).segments|
      ensures Apply(s, step).segments[g].phase == s.segments[g].phase || NearerSettlement(s, step, g)
    {
      OnlyNearer(s, step, g);
    }
    if !s.segments[g].phase.Settled? {
      OnlyNearer(s, OwnStep(s, g), g);
    }
  }

  function OwnStep(s: Service, g: nat): (step: Step)
    requires g < |s.segments| && !s.segments[g].phase.Settled?
    ensures Enabled(s, step)
  {
    match s.segments[g].phase
    case Accepted => BeginStart(g, None)
    case Compacting => CompactionEnds(g, false)
    case Running => EngineReturns(g, Threw(false))
    case Returned(_) => Settle(g)
  }

  /** The step leaves the phase of every segment or moves one segment on. */
  lemma HostLeavesPhases(s: Service, step: Step, g: nat)
    requires KeysInv(s) && Enabled(s, step) && g < |s.segments|
    requires step.Initialize? || step.Start? || step.Resume? || step.Steer? || step.Cancel? || step.Shutdown?
    ensures g < |Apply(s, step).segments| && Apply(s, step).segments[g].phase == s.segments[g].phase
  {
    hide RunKey, SteerReplyOf, Tagged;
  }

  lemma RunMovesOn(s: Service, step: Step, g: nat)
    requires KeysInv(s) && Enabled(s, step) && g < |s.segments|
    requires step.BeginStart? || step.CompactionEnds? || step.EngineReturns? || step.Settle?
    ensures g < |Apply(s, step).segments|
    ensures if step.g == g then StagesLeft(Apply(s, step).segments[g].phase) < StagesLeft(s.segments[g].phase)
            else Apply(s, step).segments[g].phase == s.segments[g].phase
  {
    hide KeysInv, RunKey, SettleEvents, Tagged;
  }

  lemma EngineLeavesPhases(s: Service, step: Step, g: nat)
    requires KeysInv(s) && Enabled(s, step) && g < |s.segments| && (step.EngineEmits? || step.ModelRequest?)
    ensures g < |Apply(s, step).segments| && Apply(s, step).segments[g].phase == s.segments[g].phase
  {
    hide KeysInv, RunKey, Tagged, ConsumedEvents;
  }

  lemma OnlyNearer(s: Service, step: Step, g: nat)
    requires KeysInv(s) && ActiveInRange(s) && Enabled(s, step) && g < |s.segments|
    ensures g < |Apply(s, step).segments|
    ensures Apply(s, step).segments[g].phase == s.segments[g].phase || NearerSettlement(s, step, g)
    ensures !s.segments[g].phase.Settled? && step == OwnStep(s, g) ==> NearerSettlement(s, step, g)
  {
    hide Apply, Enabled, KeysInv, ActiveInRange, StagesLeft;
    if step.Initialize? || step.Start? || step.Resume? || step.Steer? || step.Cancel? || step.Shutdown? {
      HostLeavesPhases(s, step, g);
    } else if step.EngineEmits? || step.ModelRequest? {
      EngineLeavesPhases(s, step, g);
    } else {
      RunMovesOn(s, step, g);
    }
  }

  lemma InvKeys(s: Service)
    requires Inv(s)
    ensures KeysInv(s) && ActiveInRange(s)
  {
  }

  lemma CallbacksAreKept(ss: seq<Service>, steps: seq<Step>, n: nat, g: nat)
    requires IsRun(ss, steps) && n < |ss| && g < |ss[n].segments|
    ensures Enabled(ss[n], ModelRequest(g)) <==> ss[n].segments[g].entered
    ensures forall kind :: Enabled(ss[n], EngineEmits(g, EngineEvent(kind))) <==> ss[n].segments[g].entered
  {
    InvRun(ss, steps, n);
    EnteredWhenRunning(ss, steps, n);
    assert SegmentInv(ss[n], g);
    hide IsRun, LogInv, KeysInv, SteeringInv, NoEnding, EndedOnce, EventsOf;
  }

  lemma {:induction false} EnteredWhenRunning(ss: seq<Service>, steps: seq<Step>, n: nat)
    requires IsRun(ss, steps) && n < |ss|
    ensures forall g :: 0 <= g < |ss[n].segments| && ss[n].segments[g].phase.Running? ==> ss[n].segments[g].entered
  {
    if n > 0 {
      EnteredWhenRunning(ss, steps, n - 1);
      RunStep(ss, steps, n - 1);
      EnteredStep(ss[n - 1], steps[n - 1]);
    }
    hide Apply, Enabled, Inv, KeysInv;
  }

  lemma EnteredStep(s: Service, step: Step)
    requires ActiveInRange(s) && Enabled(s, step)
    requires forall g :: 0 <= g < |s.segments| && s.segments[g].phase.Running? ==> s.segments[g].entered
    ensures var t := Apply(s, step).segments;
            forall g :: 0 <= g < |t| && t[g].phase.Running? ==> t[g].entered
  {
    hide RunKey, SettleEvents, SteerReplyOf, Tagged, ConsumedEvents;
  }

  /** The host's calls about runs are taken up exactly between the first initialisation and the first
      shutdown, and a shutdown always is. */
  lemma {:induction false} CallsAreAdmittedExactlyWhen(ss: seq<Service>, steps: seq<Step>, n: nat, call: Step)
    requires IsRun(ss, steps) && n < |ss| && (call.Start? || call.Resume? || call.Steer? || call.Cancel?)
    ensures |ss| == |steps| + 1 && Enabled(ss[n], Shutdown)
    ensures Enabled(ss[n], call) <==>
              && (exists k :: 0 <= k < n && steps[k].Initialize?)
              && (forall k :: 0 <= k < n ==> !steps[k].Shutdown?)
    ensures Enabled(ss[n], Initialize) <==> forall k :: 0 <= k < n ==> !steps[k].Shutdown?
  {
    SwitchesAre(ss, steps, n);
    hide IsRun;
  }

  lemma {:induction false} SwitchesAre(ss: seq<Service>, steps: seq<Step>, n: nat)
    requires IsRun(ss, steps) && n < |ss|
    ensures |ss| == |steps| + 1
    ensures ss[n].initialized <==> exists k :: 0 <= k < n && steps[k].Initialize?
    ensures ss[n].shuttingDown <==> exists k :: 0 <= k < n && steps[k].Shutdown?
  {
    hide Apply, Enabled, Inv, KeysInv;
    if n > 0 {
      SwitchesAre(ss, steps, n - 1);
      RunStep(ss, steps, n - 1);
      SwitchStep(ss[n - 1], steps[n - 1]);
    }
  }

  lemma SwitchStep(s: Service, step: Step)
    requires ActiveInRange(s) && Enabled(s, step)
    ensures Apply(s, step).initialized <==> s.initialized || step.Initialize?
    ensures Apply(s, step).shuttingDown <==> s.shuttingDown || step.Shutdown?
  {
    hide RunKey, SettleEvents, SteerReplyOf, Tagged, ConsumedEvents;
  }
}
