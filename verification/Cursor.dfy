/**
  The virtual cursor of Computer use (src-tauri/src/computer_use_cursor.rs).

  Helper threads change a small lifecycle record under a mutex and create closures for the
  main thread. The main thread runs one closure at a time, in any order, and releases the
  mutex between reading the record, touching the native panel and recording what it drew.
*/
module CursorLifecycle {
  import opened Prelude

  datatype Point = Point(x: real, y: real)

  datatype Motion = MoveTo(point: Point) | Drag(from: Point, to: Point, durationMs: nat)

  datatype Snapshot = Snapshot(revision: nat, motion: Option<Motion>)

  datatype Lifecycle = Lifecycle(
    visibleEpoch: Option<nat>,
    lastPoint: Option<Point>,
    nativeRevision: Option<nat>,
    revision: nat)

  const FRESH := Lifecycle(None, None, None, 0)

  // ----- What each critical section does to the record -----

  predicate ShowAllowed(l: Lifecycle, expected: nat, observed: nat) {
    expected == observed && l.visibleEpoch != Some(expected)
  }

  function Shown(l: Lifecycle, expected: nat): Lifecycle {
    l.(visibleEpoch := Some(expected), revision := SaturatingIncrement(l.revision))
  }

  predicate MotionAllowed(l: Lifecycle, expected: nat, observed: nat) {
    expected == observed && l.visibleEpoch == Some(expected)
  }

  function Target(m: Motion): Point {
    match m
    case MoveTo(p) => p
    case Drag(_, to, _) => to
  }

  function Moved(l: Lifecycle, m: Motion): Lifecycle {
    l.(lastPoint := Some(Target(m)), revision := SaturatingIncrement(l.revision))
  }

  function Hidden(l: Lifecycle): Lifecycle {
    l.(visibleEpoch := None, lastPoint := None, revision := SaturatingIncrement(l.revision))
  }

  function Recorded(l: Lifecycle, revision: nat): Lifecycle {
    l.(nativeRevision := Some(match l.nativeRevision
                              case None => revision
                              case Some(current) => if current < revision then revision else current))
  }

  predicate HideClaims(l: Lifecycle, hideRevision: nat) {
    l.nativeRevision.Some? ==> l.nativeRevision.value <= hideRevision
  }

  predicate Accepts(l: Lifecycle, expected: nat, observed: nat, revision: nat) {
    expected == observed && l.visibleEpoch == Some(expected) && l.revision == revision
  }

  /** The record behind the mutex. */
  class CursorState {
    var visibleEpoch: Option<nat>
    var lastPoint: Option<Point>
    var nativeRevision: Option<nat>
    var revision: nat

    function View(): Lifecycle
      reads this
    {
      Lifecycle(visibleEpoch, lastPoint, nativeRevision, revision)
    }

    constructor ()
      ensures View() == FRESH
    {
      visibleEpoch, lastPoint, nativeRevision, revision := None, None, None, 0;
    }

    method Show(expected: nat, observed: nat) returns (snapshot: Option<Snapshot>)
      modifies this
      ensures !ShowAllowed(old(View()), expected, observed) ==> snapshot == None && View() == old(View())
      ensures ShowAllowed(old(View()), expected, observed) ==>
                && View() == Shown(old(View()), expected)
                && snapshot == Some(Snapshot(revision, if lastPoint.Some? then Some(MoveTo(lastPoint.value)) else None))
      ensures snapshot.Some? <==> expected == observed && old(visibleEpoch) != Some(expected)
      ensures snapshot.Some? ==> visibleEpoch == Some(expected)
    {
      if expected != observed {
        return None;
      }
      if visibleEpoch == Some(expected) {
        return None;
      }
      visibleEpoch := Some(expected);
      revision := SaturatingIncrement(revision);
      var motion: Option<Motion> := None;
      if lastPoint.Some? {
        motion := Some(MoveTo(lastPoint.value));
      }
      snapshot := Some(Snapshot(revision, motion));
    }

    method ApplyMotion(expected: nat, observed: nat, motion: Motion) returns (snapshot: Option<Snapshot>)
      modifies this
      ensures !MotionAllowed(old(View()), expected, observed) ==> snapshot == None && View() == old(View())
      ensures MotionAllowed(old(View()), expected, observed) ==>
                && View() == Moved(old(View()), motion)
                && snapshot == Some(Snapshot(revision, Some(motion)))
      ensures snapshot.Some? <==> expected == observed && old(visibleEpoch) == Some(expected)
      ensures snapshot.Some? ==>
                lastPoint == Some(match motion case MoveTo(point) => point case Drag(_, to, _) => to)
    {
      if expected != observed || visibleEpoch != Some(expected) {
        return None;
      }
      match motion {
        case MoveTo(point) => lastPoint := Some(point);
        case Drag(_, to, _) => lastPoint := Some(to);
      }
      revision := SaturatingIncrement(revision);
      snapshot := Some(Snapshot(revision, Some(motion)));
    }

    method Hide() returns (hideRevision: nat)
      modifies this
      ensures View() == Hidden(old(View())) && hideRevision == revision
    {
      visibleEpoch := None;
      lastPoint := None;
      revision := SaturatingIncrement(revision);
      hideRevision := revision;
    }

    method RecordNativeShow(drawn: nat)
      modifies this`nativeRevision
      ensures View() == Recorded(old(View()), drawn)
      ensures nativeRevision.Some? && nativeRevision.value >= drawn
      ensures nativeRevision == Some(drawn) || nativeRevision == old(nativeRevision)
    {
      if nativeRevision == None || nativeRevision.value < drawn {
        nativeRevision := Some(drawn);
      }
    }

    method ClaimNativeHide(hideRevision: nat) returns (claimed: bool)
      modifies this`nativeRevision
      ensures claimed == HideClaims(old(View()), hideRevision)
      ensures View() == if claimed then old(View()).(nativeRevision := None) else old(View())
    {
      if nativeRevision.Some? && nativeRevision.value > hideRevision {
        return false;
      }
      nativeRevision := None;
      claimed := true;
    }
  }

  // ----- The whole application as a step relation -----

  datatype Closure =
    | PointClosure(epoch: nat, revision: nat, point: Point)
    | HideClosure(hideRevision: nat)

  /** A drag whose later frames are still being produced by its own task. */
  datatype DragTask = DragTask(epoch: nat, revision: nat)

  datatype Drawn = Drawn(epoch: nat, revision: nat)

  /** Where the main thread is inside the closure it runs. */
  datatype MainThread =
    | Idle
    | Checking(d: Drawn, observed: nat)  // epoch loaded, record not yet read
    | Drawing(d: Drawn)                  // accepted, panel not yet touched
    | Recording(d: Drawn)                // panel drawn, record not yet updated
    | Removing                           // hide claimed, panel not yet removed

  /** `queue` holds every closure that exists and has not started. The last three fields are
      history: the revision and epoch of the latest hide, and whether a motion came after it. */
  datatype World = World(
    life: Lifecycle,
    epoch: nat,
    queue: multiset<Closure>,
    drags: set<DragTask>,
    main: MainThread,
    panel: Option<Drawn>,
    lastHide: nat,
    hideEpoch: nat,
    movedSinceHide: bool)

  const INITIAL := World(FRESH, 0, multiset{}, {}, Idle, None, 0, 0, false)

  datatype Event =
    | HelperShow(expected: nat, observed: nat)
    | HelperMotion(expected: nat, observed: nat, motion: Motion)
    | DragFrame(task: DragTask, point: Point)
    | AdvanceEpoch
    | HideCursor
    | BeginPoint(closure: Closure)
    | CheckPoint
    | DrawPanel
    | RecordPanel
    | BeginHide(closure: Closure)
    | RemovePanel

  /** A helper may act on an epoch it loaded some time ago; everything else is unrestricted. */
  predicate Enabled(w: World, ev: Event) {
    match ev
    case HelperShow(_, observed) => observed <= w.epoch
    case HelperMotion(_, observed, _) => observed <= w.epoch
    case DragFrame(task, _) => task in w.drags
    case AdvanceEpoch => true
    case HideCursor => true
    case BeginPoint(c) => w.main.Idle? && c.PointClosure? && c in w.queue
    case CheckPoint => w.main.Checking?
    case DrawPanel => w.main.Drawing?
    case RecordPanel => w.main.Recording?
    case BeginHide(c) => w.main.Idle? && c.HideClosure? && c in w.queue
    case RemovePanel => w.main.Removing?
  }

  /** schedule_snapshot: a point closure now, and a frame-producing task for a timed drag. */
  function Scheduled(w: World, epoch: nat, snapshot: Snapshot): World {
    match snapshot.motion
    case None => w
    case Some(MoveTo(p)) => w.(queue := w.queue + multiset{PointClosure(epoch, snapshot.revision, p)})
    case Some(Drag(from, to, ms)) =>
      if ms == 0 then
        w.(queue := w.queue + multiset{PointClosure(epoch, snapshot.revision, from),
                                       PointClosure(epoch, snapshot.revision, to)})
      else
        w.(queue := w.queue + multiset{PointClosure(epoch, snapshot.revision, from)},
           drags := w.drags + {DragTask(epoch, snapshot.revision)})
  }

  function ApplyShow(w: World, expected: nat, observed: nat): World {
    if !ShowAllowed(w.life, expected, observed) then w
    else
      var life := Shown(w.life, expected);
      var motion := if life.lastPoint.Some? then Some(MoveTo(life.lastPoint.value)) else None;
      Scheduled(w.(life := life), expected, Snapshot(life.revision, motion))
  }

  function ApplyMove(w: World, expected: nat, observed: nat, motion: Motion): World {
    if !MotionAllowed(w.life, expected, observed) then w
    else
      var life := Moved(w.life, motion);
      Scheduled(w.(life := life, movedSinceHide := true), expected, Snapshot(life.revision, Some(motion)))
  }

  function ApplyHide(w: World): World {
    var life := Hidden(w.life);
    w.(life := life, queue := w.queue + multiset{HideClosure(life.revision)},
       lastHide := life.revision, hideEpoch := w.epoch, movedSinceHide := false)
  }

  function ApplyBeginHide(w: World, c: Closure): World
    requires c.HideClosure?
  {
    var rest := w.(queue := w.queue - multiset{c});
    if HideClaims(w.life, c.hideRevision)
    then rest.(life := w.life.(nativeRevision := None), main := Removing)
    else rest
  }

  function Apply(w: World, ev: Event): World
    requires Enabled(w, ev)
  {
    match ev
    case HelperShow(expected, observed) => ApplyShow(w, expected, observed)
    case HelperMotion(expected, observed, motion) => ApplyMove(w, expected, observed, motion)
    case DragFrame(task, p) => w.(queue := w.queue + multiset{PointClosure(task.epoch, task.revision, p)})
    case AdvanceEpoch => w.(epoch := w.epoch + 1)
    case HideCursor => ApplyHide(w)
    case BeginPoint(c) =>
      w.(queue := w.queue - multiset{c}, main := Checking(Drawn(c.epoch, c.revision), w.epoch))
    case CheckPoint =>
      var d := w.main.d;
      w.(main := if Accepts(w.life, d.epoch, w.main.observed, d.revision) then Drawing(d) else Idle)
    case DrawPanel => w.(panel := Some(w.main.d), main := Recording(w.main.d))
    case RecordPanel => w.(life := Recorded(w.life, w.main.d.revision), main := Idle)
    case BeginHide(c) => ApplyBeginHide(w, c)
    case RemovePanel => w.(panel := None, main := Idle)
  }

  /** Whether an event takes a new revision number. */
  predicate TakesRevision(w: World, ev: Event) {
    match ev
    case HelperShow(expected, observed) => ShowAllowed(w.life, expected, observed)
    case HelperMotion(expected, observed, _) => MotionAllowed(w.life, expected, observed)
    case HideCursor => true
    case _ => false
  }

  /** A step that neither is refused by its guard nor saturates the revision counter. */
  predicate Step(w: World, ev: Event) {
    Enabled(w, ev) && (TakesRevision(w, ev) ==> w.life.revision < U64_MAX)
  }

  /** `ws` are the successive states of a run under `evs`. */
  ghost predicate IsRun(ws: seq<World>, evs: seq<Event>) {
    && |ws| == |evs| + 1
    && ws[0] == INITIAL
    && forall i :: 0 <= i < |evs| ==> Step(ws[i], evs[i]) && ws[i + 1] == Apply(ws[i], evs[i])
  }

  // ----- The inductive invariant -----

  /** A drawing that postdates the latest hide belongs to an epoch at least as new as that hide
      and stems from a motion accepted after it. */
  predicate Current(w: World, d: Drawn) {
    d.revision > w.lastHide ==> d.epoch >= w.hideEpoch && w.movedSinceHide
  }

  predicate RevisionsKnown(w: World) {
    && w.lastHide <= w.life.revision
    && (w.life.visibleEpoch.Some? ==> w.lastHide < w.life.revision)
    && (w.life.nativeRevision.Some? ==> w.life.nativeRevision.value <= w.life.revision)
    && (w.panel.Some? ==> w.panel.value.revision <= w.life.revision)
    && (forall c :: c in w.queue && c.PointClosure? ==> c.revision <= w.life.revision)
    && (forall t :: t in w.drags ==> t.revision <= w.life.revision)
    && (match w.main
        case Idle => true
        case Checking(d, _) => d.revision <= w.life.revision
        case Drawing(d) => d.revision <= w.life.revision
        case Recording(d) => d.revision <= w.life.revision
        case Removing => true)
  }

  predicate PanelRecorded(w: World) {
    match w.main
    case Recording(d) =>
      w.panel == Some(d) && (w.life.nativeRevision.Some? ==> w.life.nativeRevision.value <= d.revision)
    case Removing => w.life.nativeRevision == None
    case Drawing(d) =>
      && (w.life.nativeRevision.Some? ==> w.life.nativeRevision.value <= d.revision)
      && w.life.nativeRevision == (if w.panel.Some? then Some(w.panel.value.revision) else None)
    case _ => w.life.nativeRevision == (if w.panel.Some? then Some(w.panel.value.revision) else None)
  }

  /** Either the closure of the latest hide is still to run, or nothing older than it is drawn
      or about to be drawn. */
  predicate HidePending(w: World) {
    || HideClosure(w.lastHide) in w.queue
    || (match w.main
        case Removing => true
        case Drawing(d) => d.revision > w.lastHide && PanelNewer(w)
        case Recording(d) => d.revision > w.lastHide
        case _ => PanelNewer(w))
  }

  predicate PanelNewer(w: World) {
    w.panel.Some? ==> w.panel.value.revision > w.lastHide
  }

  predicate MotionKnown(w: World) {
    && w.hideEpoch <= w.epoch
    && (w.life.lastPoint.Some? ==> w.movedSinceHide)
    && (forall c :: c in w.queue && c.PointClosure? && c.revision > w.lastHide ==> w.movedSinceHide)
    && (forall t :: t in w.drags && t.revision > w.lastHide ==> w.movedSinceHide)
    && (w.panel.Some? ==> Current(w, w.panel.value))
    && (match w.main
        case Checking(d, observed) => d.revision > w.lastHide ==> observed >= w.hideEpoch && w.movedSinceHide
        case Drawing(d) => Current(w, d)
        case Recording(d) => Current(w, d)
        case _ => true)
  }

  predicate Inv(w: World) {
    RevisionsKnown(w) && PanelRecorded(w) && HidePending(w) && MotionKnown(w)
  }

  lemma InvQueued(w: World, c: Closure)
    requires Inv(w) && c.PointClosure? && c.revision <= w.life.revision && w.movedSinceHide
    ensures Inv(w.(queue := w.queue + multiset{c}))
  {
    var next := w.(queue := w.queue + multiset{c});
    assert forall d :: d in next.queue ==> d in w.queue || d == c;
    assert w.queue <= next.queue;
  }

  lemma InvDragging(w: World, t: DragTask)
    requires Inv(w) && t.revision <= w.life.revision && w.movedSinceHide
    ensures Inv(w.(drags := w.drags + {t}))
  {
  }

  lemma InvScheduled(w: World, epoch: nat, snapshot: Snapshot)
    requires Inv(w) && snapshot.revision <= w.life.revision
    requires snapshot.motion.Some? ==> w.movedSinceHide
    ensures Inv(Scheduled(w, epoch, snapshot))
  {
    hide Inv;
    match snapshot.motion {
      case None =>
      case Some(MoveTo(p)) => InvQueued(w, PointClosure(epoch, snapshot.revision, p));
      case Some(Drag(from, to, ms)) =>
        var first := PointClosure(epoch, snapshot.revision, from);
        var last := PointClosure(epoch, snapshot.revision, to);
        var t := w.(queue := w.queue + multiset{first});
        InvQueued(w, first);
        if ms == 0 {
          InvQueued(t, last);
          assert w.queue + multiset{first} + multiset{last} == w.queue + multiset{first, last};
        } else {
          InvDragging(t, DragTask(epoch, snapshot.revision));
        }
    }
  }

  /** A larger revision and a newer last point disturb nothing already in flight. */
  lemma InvAdvance(w: World, life: Lifecycle, moved: bool)
    requires Inv(w) && life.nativeRevision == w.life.nativeRevision && life.revision == w.life.revision + 1
    requires w.movedSinceHide ==> moved
    requires life.lastPoint.Some? ==> moved
    ensures Inv(w.(life := life, movedSinceHide := moved))
  {
  }

  lemma InvHide(w: World)
    requires Inv(w) && w.life.revision < U64_MAX
    ensures Inv(ApplyHide(w))
  {
    var next := ApplyHide(w);
    assert HideClosure(next.lastHide) in next.queue;
  }

  lemma InvBeginHide(w: World, c: Closure)
    requires Inv(w) && w.main.Idle? && c.HideClosure? && c in w.queue
    ensures Inv(ApplyBeginHide(w, c))
  {
    var next := ApplyBeginHide(w, c);
    assert next.queue <= w.queue;
    if c != HideClosure(w.lastHide) && HideClosure(w.lastHide) in w.queue {
      assert HideClosure(w.lastHide) in next.queue;
    }
  }

  lemma InvBeginPoint(w: World, c: Closure)
    requires Inv(w) && Enabled(w, BeginPoint(c))
    ensures Inv(Apply(w, BeginPoint(c)))
  {
    var next := Apply(w, BeginPoint(c));
    assert next.queue <= w.queue;
    if HideClosure(w.lastHide) in w.queue {
      assert HideClosure(w.lastHide) in next.queue;
    }
  }

  lemma InvMainThread(w: World, ev: Event)
    requires Inv(w) && Enabled(w, ev)
    requires ev.CheckPoint? || ev.DrawPanel? || ev.RecordPanel? || ev.RemovePanel?
    ensures Inv(Apply(w, ev))
  {
  }

  lemma InvShow(w: World, expected: nat, observed: nat)
    requires Inv(w) && (ShowAllowed(w.life, expected, observed) ==> w.life.revision < U64_MAX)
    ensures Inv(ApplyShow(w, expected, observed))
  {
    if ShowAllowed(w.life, expected, observed) {
      var life := Shown(w.life, expected);
      LastPointKnown(w);
      hide Inv, Scheduled;
      InvAdvance(w, life, w.movedSinceHide);
      assert w.(life := life) == w.(life := life, movedSinceHide := w.movedSinceHide);
      InvScheduled(w.(life := life), expected, Snapshot(life.revision,
        if life.lastPoint.Some? then Some(MoveTo(life.lastPoint.value)) else None));
    }
  }

  lemma LastPointKnown(w: World)
    requires Inv(w)
    ensures w.life.lastPoint.Some? ==> w.movedSinceHide
  {
  }

  lemma InvMove(w: World, expected: nat, observed: nat, motion: Motion)
    requires Inv(w) && (MotionAllowed(w.life, expected, observed) ==> w.life.revision < U64_MAX)
    ensures Inv(ApplyMove(w, expected, observed, motion))
  {
    if MotionAllowed(w.life, expected, observed) {
      hide Inv, Scheduled;
      var life := Moved(w.life, motion);
      InvAdvance(w, life, true);
      InvScheduled(w.(life := life, movedSinceHide := true), expected, Snapshot(life.revision, Some(motion)));
    }
  }

  lemma InvDragFrame(w: World, task: DragTask, p: Point)
    requires Inv(w) && task in w.drags
    ensures Inv(Apply(w, DragFrame(task, p)))
  {
    var next := Apply(w, DragFrame(task, p));
    assert forall c :: c in next.queue ==> c in w.queue || c == PointClosure(task.epoch, task.revision, p);
    assert w.queue <= next.queue;
  }

  lemma InvAdvanceEpoch(w: World)
    requires Inv(w)
    ensures Inv(Apply(w, AdvanceEpoch))
  {
  }

  lemma InvStep(w: World, ev: Event)
    requires Inv(w) && Step(w, ev)
    ensures Inv(Apply(w, ev))
  {
    hide Inv;
    match ev {
      case HelperShow(expected, observed) => InvShow(w, expected, observed);
      case HelperMotion(expected, observed, motion) => InvMove(w, expected, observed, motion);
      case DragFrame(task, p) => InvDragFrame(w, task, p);
      case AdvanceEpoch => InvAdvanceEpoch(w);
      case HideCursor => InvHide(w);
      case BeginPoint(c) => InvBeginPoint(w, c);
      case BeginHide(c) => InvBeginHide(w, c);
      case _ => InvMainThread(w, ev);
    }
  }

  lemma {:induction false} InvRun(ws: seq<World>, evs: seq<Event>, n: nat)
    requires IsRun(ws, evs) && n < |ws|
    ensures Inv(ws[n])
  {
    if n > 0 {
      InvRun(ws, evs, n - 1);
      InvStep(ws[n - 1], evs[n - 1]);
    }
  }

  // ----- What every run guarantees -----

  lemma {:induction false} RevisionsGrow(ws: seq<World>, evs: seq<Event>, i: nat, j: nat)
    requires IsRun(ws, evs) && i <= j < |ws|
    ensures ws[i].life.revision <= ws[j].life.revision
  {
    if i < j {
      RevisionsGrow(ws, evs, i, j - 1);
      assert Step(ws[j - 1], evs[j - 1]);
    }
  }

  /** Whenever the main thread is not touching the panel, the panel is on screen exactly when the
      record says so, and the record names the revision that drew it. */
  lemma PanelMirrorsRecord(ws: seq<World>, evs: seq<Event>, n: nat)
    requires IsRun(ws, evs) && n < |ws|
    requires !ws[n].main.Recording? && !ws[n].main.Removing?
    ensures ws[n].panel.Some? <==> ws[n].life.nativeRevision.Some?
    ensures ws[n].panel.Some? ==> ws[n].life.nativeRevision == Some(ws[n].panel.value.revision)
  {
    InvRun(ws, evs, n);
  }

  /** No point that existed before a hide, as a closure or as the remaining frames of a drag, can
      pass its check after that hide, whatever epoch the main thread loads. A point that had passed
      it just before can still be drawn: see the next lemmas. */
  lemma HiddenPointsStayRejected(
      ws: seq<World>, evs: seq<Event>, i: nat, j: nat, k: nat, c: Drawn, observed: nat)
    requires IsRun(ws, evs) && i <= j < k < |ws|
    requires || (exists p :: PointClosure(c.epoch, c.revision, p) in ws[i].queue)
             || DragTask(c.epoch, c.revision) in ws[i].drags
    requires evs[j] == HideCursor
    ensures !Accepts(ws[k].life, c.epoch, observed, c.revision)
  {
    InvRun(ws, evs, i);
    RevisionsGrow(ws, evs, i, j);
    assert Step(ws[j], evs[j]);
    RevisionsGrow(ws, evs, j + 1, k);
  }

  lemma DrawingComesFrom(w: World, ev: Event, d: Drawn)
    requires Enabled(w, ev) && Apply(w, ev).main == Drawing(d)
    ensures w.main == Drawing(d) || (ev == CheckPoint && d.revision == w.life.revision)
  {
    hide Scheduled;
    match ev {
      case HelperShow(_, _) => KeepsMain(w, ev);
      case HelperMotion(_, _, _) => KeepsMain(w, ev);
      case _ =>
    }
  }

  lemma KeepsMain(w: World, ev: Event)
    requires Enabled(w, ev) && (ev.HelperShow? || ev.HelperMotion?)
    ensures Apply(w, ev).main == w.main
  {
  }

  lemma RunStep(ws: seq<World>, evs: seq<Event>, n: nat)
    requires IsRun(ws, evs) && n < |evs|
    ensures |ws| == |evs| + 1 && Step(ws[n], evs[n]) && ws[n + 1] == Apply(ws[n], evs[n])
  {
  }

  lemma RunLength(ws: seq<World>, evs: seq<Event>)
    requires IsRun(ws, evs)
    ensures |ws| == |evs| + 1
  {
  }

  lemma StepIsEnabled(w: World, ev: Event)
    requires Step(w, ev)
    ensures Enabled(w, ev)
  {
  }

  lemma HideStep(ws: seq<World>, evs: seq<Event>, j: nat)
    requires IsRun(ws, evs) && j < |evs| && evs[j] == HideCursor
    ensures j + 1 < |ws| && ws[j + 1].life.revision > ws[j].life.revision && ws[j + 1].main == ws[j].main
  {
    assert Step(ws[j], evs[j]);
  }

  /** From a hide on, a drawing with a revision no newer than that hide's can only be one the main
      thread already held. */
  lemma {:induction false} OldDrawingWasHeld(ws: seq<World>, evs: seq<Event>, j: nat, n: nat, d: Drawn)
    requires IsRun(ws, evs) && j < n < |ws| && evs[j] == HideCursor
    requires ws[n].main == Drawing(d) && d.revision <= ws[j].life.revision
    ensures forall m :: j <= m <= n ==> ws[m].main == Drawing(d)
  {
    hide *;
    RunLength(ws, evs);
    HideStep(ws, evs, j);
    if n - 1 > j {
      RunStep(ws, evs, n - 1);
      StepIsEnabled(ws[n - 1], evs[n - 1]);
      DrawingComesFrom(ws[n - 1], evs[n - 1], d);
      RevisionsGrow(ws, evs, j + 1, n - 1);
      OldDrawingWasHeld(ws, evs, j, n - 1, d);
    }
  }

  /** What can be drawn after a hide: a drawing stems from no newer motion than the hide exactly when
      the main thread had accepted that very point before the hide and held it ever since. So of
      everything that existed at a hide, at most the one point already past its check is drawn. */
  lemma DrawingsAfterHide(ws: seq<World>, evs: seq<Event>, j: nat, k: nat)
    requires IsRun(ws, evs) && j < k < |evs| && evs[j] == HideCursor && evs[k] == DrawPanel
    ensures ws[k].main.Drawing?
    ensures ws[k].main.d.revision <= ws[j].life.revision
            <==> forall n :: j <= n <= k ==> ws[n].main == ws[k].main
  {
    RunStep(ws, evs, k);
    HeldRevision(ws, evs, j);
    if ws[k].main.d.revision <= ws[j].life.revision {
      OldDrawingWasHeld(ws, evs, j, k, ws[k].main.d);
    }
  }

  lemma HeldRevision(ws: seq<World>, evs: seq<Event>, n: nat)
    requires IsRun(ws, evs) && n < |ws|
    ensures ws[n].main.Drawing? ==> ws[n].main.d.revision <= ws[n].life.revision
  {
    InvRun(ws, evs, n);
  }

  /** It does happen: a point queued and checked before a hide is drawn after it. */
  lemma AcceptedPointIsDrawnAfterHide(p: Point) returns (ws: seq<World>, evs: seq<Event>)
    ensures IsRun(ws, evs) && |evs| == 6
    ensures PointClosure(0, 2, p) in ws[2].queue
    ensures evs[4] == HideCursor && evs[5] == DrawPanel && ws[6].panel == Some(Drawn(0, 2))
  {
    var c := PointClosure(0, 2, p);
    evs := [HelperShow(0, 0), HelperMotion(0, 0, MoveTo(p)), BeginPoint(c), CheckPoint, HideCursor, DrawPanel];
    var w1 := Apply(INITIAL, evs[0]);
    var w2 := Apply(w1, evs[1]);
    assert w2.queue == multiset{c};
    var w3 := Apply(w2, evs[2]);
    var w4 := Apply(w3, evs[3]);
    assert w4.main == Drawing(Drawn(0, 2));
    var w5 := Apply(w4, evs[4]);
    var w6 := Apply(w5, evs[5]);
    ws := [INITIAL, w1, w2, w3, w4, w5, w6];
  }

  /** Running a hide closure removes the panel if and only if the panel was not drawn by a motion
      newer than that hide; a newer drawing is left alone. */
  lemma HideRemovesExactlyOlderPanels(ws: seq<World>, evs: seq<Event>, n: nat, c: Closure)
    requires IsRun(ws, evs) && n < |evs| && evs[n] == BeginHide(c)
    ensures ws[n + 1].panel == ws[n].panel
    ensures ws[n].panel.Some? ==>
              (ws[n + 1].main == Idle <==> ws[n].panel.value.revision > c.hideRevision)
    ensures ws[n + 1].main != Idle ==> Enabled(ws[n + 1], RemovePanel) && Apply(ws[n + 1], RemovePanel).panel == None
  {
    InvRun(ws, evs, n);
    assert Step(ws[n], evs[n]);
  }

  /** Once no hide closure is left to run, a panel on screen was drawn after the latest hide, for
      a motion accepted after it, under an epoch no older than the one that hide saw: a late
      helper notification cannot bring the cursor back after Stop. */
  lemma DrainedPanelIsNewerThanStop(ws: seq<World>, evs: seq<Event>, n: nat)
    requires IsRun(ws, evs) && n < |ws|
    requires ws[n].main == Idle && (forall c :: c in ws[n].queue ==> c.PointClosure?)
    ensures ws[n].panel.Some? ==>
              && ws[n].movedSinceHide
              && ws[n].panel.value.revision > ws[n].lastHide
              && ws[n].panel.value.epoch >= ws[n].hideEpoch
  {
    InvRun(ws, evs, n);
  }

  /** The history field means what it says: it is set at `n` exactly when some motion was accepted
      after the last hide before `n`. */
  lemma {:induction false} MovedSinceHideMeaning(ws: seq<World>, evs: seq<Event>, n: nat)
    requires IsRun(ws, evs) && n < |ws|
    ensures ws[n].movedSinceHide <==>
              exists i :: 0 <= i < n && AcceptedMotion(ws[i], evs[i]) && NoHideIn(evs, i, n)
  {
    if n > 0 {
      MovedSinceHideMeaning(ws, evs, n - 1);
      assert Step(ws[n - 1], evs[n - 1]);
      var ev := evs[n - 1];
      if ev == HideCursor {
        assert forall i :: 0 <= i < n ==> !NoHideIn(evs, i, n);
      } else if AcceptedMotion(ws[n - 1], ev) {
        assert NoHideIn(evs, n - 1, n);
      } else {
        assert forall i :: 0 <= i < n - 1 ==> (NoHideIn(evs, i, n) <==> NoHideIn(evs, i, n - 1));
        assert ws[n].movedSinceHide == ws[n - 1].movedSinceHide;
      }
    }
  }

  predicate AcceptedMotion(w: World, ev: Event) {
    ev.HelperMotion? && ev.expected == ev.observed && w.life.visibleEpoch == Some(ev.expected)
  }

  predicate NoHideIn(evs: seq<Event>, i: nat, n: nat)
    requires n <= |evs|
  {
    forall j :: i <= j < n ==> evs[j] != HideCursor
  }

  /** The other history fields name the latest hide: its revision and the epoch it saw. */
  lemma {:induction false} LatestHide(ws: seq<World>, evs: seq<Event>, n: nat) returns (latest: Option<nat>)
    requires IsRun(ws, evs) && n < |ws|
    ensures |ws| == |evs| + 1
    ensures match latest
            case None => NoHideIn(evs, 0, n) && ws[n].lastHide == 0 && ws[n].hideEpoch == 0
            case Some(i) =>
              && i < n && evs[i] == HideCursor && NoHideIn(evs, i + 1, n)
              && ws[n].lastHide == ws[i].life.revision + 1 && ws[n].hideEpoch == ws[i].epoch
  {
    hide Inv, Scheduled;
    if n == 0 {
      latest := None;
    } else {
      latest := LatestHide(ws, evs, n - 1);
      assert Step(ws[n - 1], evs[n - 1]);
      if evs[n - 1] == HideCursor {
        latest := Some(n - 1);
      } else {
        HideFieldsStay(ws[n - 1], evs[n - 1]);
      }
    }
  }

  lemma HideFieldsStay(w: World, ev: Event)
    requires Enabled(w, ev) && ev != HideCursor
    ensures Apply(w, ev).lastHide == w.lastHide && Apply(w, ev).hideEpoch == w.hideEpoch
  {
  }

  // ----- What is scheduled, and that it runs -----

  /** How many copies of a closure an event is to queue. A show repeats the last point, a move brings its
      point, a drag its first point and, if it takes no time, its last. */
  function Schedules(w: World, ev: Event, c: Closure): nat {
    match ev
    case HelperShow(expected, observed) =>
      if expected == observed && w.life.visibleEpoch != Some(expected) && w.life.lastPoint.Some?
         && c == PointClosure(expected, w.life.revision + 1, w.life.lastPoint.value) then 1 else 0
    case HelperMotion(expected, _, MoveTo(p)) =>
      if AcceptedMotion(w, ev) && c == PointClosure(expected, w.life.revision + 1, p) then 1 else 0
    case HelperMotion(expected, _, Drag(from, to, ms)) =>
      if !AcceptedMotion(w, ev) then 0
      else
        (if c == PointClosure(expected, w.life.revision + 1, from) then 1 else 0)
        + (if ms == 0 && c == PointClosure(expected, w.life.revision + 1, to) then 1 else 0)
    case DragFrame(task, p) => if c == PointClosure(task.epoch, task.revision, p) then 1 else 0
    case HideCursor => if c == HideClosure(w.life.revision + 1) then 1 else 0
    case _ => 0
  }

  function Runs(ev: Event, c: Closure): nat {
    if ev == BeginPoint(c) || ev == BeginHide(c) then 1 else 0
  }

  function Scheduling(ws: seq<World>, evs: seq<Event>, n: nat, c: Closure): nat
    requires n <= |evs| <= |ws|
  {
    if n == 0 then 0 else Scheduling(ws, evs, n - 1, c) + Schedules(ws[n - 1], evs[n - 1], c)
  }

  function Running(evs: seq<Event>, n: nat, c: Closure): nat
    requires n <= |evs|
  {
    if n == 0 then 0 else Running(evs, n - 1, c) + Runs(evs[n - 1], c)
  }

  lemma ShowQueues(w: World, ev: Event, c: Closure)
    requires Step(w, ev) && ev.HelperShow?
    ensures Apply(w, ev).queue[c] == w.queue[c] + Schedules(w, ev, c)
  {
  }

  lemma MotionQueues(w: World, ev: Event, c: Closure)
    requires Step(w, ev) && ev.HelperMotion?
    ensures Apply(w, ev).queue[c] == w.queue[c] + Schedules(w, ev, c)
  {
  }

  lemma MainQueues(w: World, ev: Event, c: Closure)
    requires Step(w, ev) && !ev.HelperShow? && !ev.HelperMotion?
    ensures Apply(w, ev).queue[c] + Runs(ev, c) == w.queue[c] + Schedules(w, ev, c)
  {
    hide Scheduled;
  }

  lemma QueueStep(w: World, ev: Event, c: Closure)
    requires Step(w, ev)
    ensures Apply(w, ev).queue[c] + Runs(ev, c) == w.queue[c] + Schedules(w, ev, c)
  {
    hide Apply, Schedules;
    if ev.HelperShow? {
      ShowQueues(w, ev, c);
    } else if ev.HelperMotion? {
      MotionQueues(w, ev, c);
    } else {
      MainQueues(w, ev, c);
    }
  }

  /** No closure is lost, doubled or made up: what was scheduled has run once or is still queued. */
  lemma {:induction false} ClosuresAreConserved(ws: seq<World>, evs: seq<Event>, n: nat, c: Closure)
    requires IsRun(ws, evs) && n < |ws|
    ensures |ws| == |evs| + 1 && ws[n].queue[c] + Running(evs, n, c) == Scheduling(ws, evs, n, c)
  {
    hide Apply, Step, Schedules, Runs;
    if n > 0 {
      ClosuresAreConserved(ws, evs, n - 1, c);
      QueueStep(ws[n - 1], evs[n - 1], c);
    }
  }

  /** The drags that go on producing frames are the accepted ones that take time. */
  lemma {:induction false} DragsAreAccepted(ws: seq<World>, evs: seq<Event>, n: nat, task: DragTask)
    requires IsRun(ws, evs) && n < |ws|
    ensures |ws| == |evs| + 1
    ensures task in ws[n].drags
            <==> exists i :: 0 <= i < n && StartsDrag(ws[i], evs[i], task)
  {
    hide Apply, StartsDrag;
    if n > 0 {
      DragsAreAccepted(ws, evs, n - 1, task);
      assert Step(ws[n - 1], evs[n - 1]);
      DragStep(ws[n - 1], evs[n - 1], task);
    }
  }

  predicate StartsDrag(w: World, ev: Event, task: DragTask) {
    AcceptedMotion(w, ev) && ev.motion.Drag? && ev.motion.durationMs > 0
    && task == DragTask(ev.expected, w.life.revision + 1)
  }

  lemma DragStep(w: World, ev: Event, task: DragTask)
    requires Step(w, ev)
    ensures task in Apply(w, ev).drags <==> task in w.drags || StartsDrag(w, ev, task)
  {
  }

  /** The point a show repeats: the target of the last motion accepted since the last hide. */
  function LastTarget(ws: seq<World>, evs: seq<Event>, n: nat): Option<Point>
    requires n <= |evs| <= |ws|
  {
    if n == 0 || evs[n - 1] == HideCursor then None
    else if AcceptedMotion(ws[n - 1], evs[n - 1]) then
      Some(match evs[n - 1].motion case MoveTo(p) => p case Drag(_, to, _) => to)
    else LastTarget(ws, evs, n - 1)
  }

  lemma {:induction false} LastPointIsLastTarget(ws: seq<World>, evs: seq<Event>, n: nat)
    requires IsRun(ws, evs) && n < |ws|
    ensures |ws| == |evs| + 1 && ws[n].life.lastPoint == LastTarget(ws, evs, n)
  {
    hide Apply;
    if n > 0 {
      LastPointIsLastTarget(ws, evs, n - 1);
      assert Step(ws[n - 1], evs[n - 1]);
      LastPointStep(ws[n - 1], evs[n - 1]);
    }
  }

  lemma LastPointStep(w: World, ev: Event)
    requires Step(w, ev)
    ensures Apply(w, ev).life.lastPoint
            == if ev == HideCursor then None
               else if AcceptedMotion(w, ev) then
                 Some(match ev.motion case MoveTo(p) => p case Drag(_, to, _) => to)
               else w.life.lastPoint
  {
  }

  function Advances(evs: seq<Event>, n: nat): nat
    requires n <= |evs|
  {
    if n == 0 then 0 else Advances(evs, n - 1) + (if evs[n - 1] == AdvanceEpoch then 1 else 0)
  }

  /** The epoch counts the turns so far. */
  lemma {:induction false} EpochCountsAdvances(ws: seq<World>, evs: seq<Event>, n: nat)
    requires IsRun(ws, evs) && n < |ws|
    ensures |ws| == |evs| + 1 && ws[n].epoch == Advances(evs, n)
  {
    hide Apply;
    if n > 0 {
      EpochCountsAdvances(ws, evs, n - 1);
      assert Step(ws[n - 1], evs[n - 1]);
      EpochStep(ws[n - 1], evs[n - 1]);
    }
  }

  lemma EpochStep(w: World, ev: Event)
    requires Enabled(w, ev)
    ensures Apply(w, ev).epoch == if ev == AdvanceEpoch then w.epoch + 1 else w.epoch
  {
  }

  predicate OnMain(ev: Event) {
    ev.BeginPoint? || ev.CheckPoint? || ev.DrawPanel? || ev.RecordPanel? || ev.BeginHide? || ev.RemovePanel?
  }

  /** The main thread does nothing between two of its own events. */
  lemma {:induction false} MainStays(ws: seq<World>, evs: seq<Event>, j: nat, k: nat)
    requires IsRun(ws, evs) && j <= k < |ws| && |ws| == |evs| + 1 && forall n :: j <= n < k ==> !OnMain(evs[n])
    ensures ws[k].main == ws[j].main && ws[k].panel == ws[j].panel
    ensures ws[k].life.nativeRevision == ws[j].life.nativeRevision
  {
    hide Apply;
    if j < k {
      MainStays(ws, evs, j, k - 1);
      assert Step(ws[k - 1], evs[k - 1]);
      OffMain(ws[k - 1], evs[k - 1]);
    }
  }

  lemma OffMain(w: World, ev: Event)
    requires Enabled(w, ev) && !OnMain(ev)
    ensures Apply(w, ev).main == w.main && Apply(w, ev).panel == w.panel
    ensures Apply(w, ev).life.nativeRevision == w.life.nativeRevision
  {
  }

  /** A point whose closure runs is drawn exactly if its epoch was the current one when the closure began
      and, at its check, it is still the newest point of that epoch's visible cursor; it is then on screen
      and recorded once the closure ends. */
  lemma PointIsDrawnExactlyWhenCurrent(ws: seq<World>, evs: seq<Event>, j: nat, k: nat, c: Closure)
    requires IsRun(ws, evs) && j < k < |evs| && evs[j] == BeginPoint(c) && evs[k] == CheckPoint
    requires forall n :: j < n < k ==> !OnMain(evs[n])
    ensures |ws| == |evs| + 1 && c.PointClosure?
    ensures ws[k + 1].main
            == if ws[j].epoch == c.epoch && ws[k].life.visibleEpoch == Some(c.epoch) && ws[k].life.revision == c.revision
               then Drawing(Drawn(c.epoch, c.revision)) else Idle
  {
    assert Step(ws[j], evs[j]);
    MainStays(ws, evs, j + 1, k);
    assert Step(ws[k], evs[k]);
  }

  /** What each later section of a closure leaves behind. */
  lemma ClosuresEnd(ws: seq<World>, evs: seq<Event>, n: nat)
    requires IsRun(ws, evs) && n < |evs|
    ensures |ws| == |evs| + 1
    ensures evs[n] == DrawPanel ==>
              ws[n].main.Drawing? && ws[n + 1].panel == Some(ws[n].main.d) && ws[n + 1].main == Recording(ws[n].main.d)
    ensures evs[n] == RecordPanel ==>
              && ws[n + 1].main == Idle && ws[n + 1].panel == ws[n].panel
              && ws[n].main.Recording? && ws[n].panel == Some(ws[n].main.d)
              && ws[n + 1].life.nativeRevision == Some(ws[n].main.d.revision)
    ensures evs[n] == RemovePanel ==>
              ws[n + 1].main == Idle && ws[n + 1].panel == None && ws[n + 1].life.nativeRevision == None
  {
    InvRun(ws, evs, n);
    InvRun(ws, evs, n + 1);
    assert Step(ws[n], evs[n]);
  }

  /** The revision counter saturates. A point checked before a hide is accepted again after the
      same epoch is shown anew if and only if the counter had already reached its maximum. */
  lemma SaturationRevivesHiddenPoints(l: Lifecycle, epoch: nat)
    requires l.revision <= U64_MAX
    ensures Accepts(Shown(Hidden(l), epoch), epoch, epoch, l.revision) <==> l.revision == U64_MAX
  {
    assert Shown(Hidden(l), epoch).revision == SaturatingIncrement(SaturatingIncrement(l.revision));
  }
}
