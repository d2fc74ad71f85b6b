/** The frame schedule of an animated drag (src-tauri/src/computer_use_cursor.rs). */
module DragSchedule {
  import opened Prelude
  import opened CursorLifecycle

  const MAX_DRAG_DURATION_MS: nat := 5_000
  const DRAG_FRAME_INTERVAL_MS: nat := 16

  /** A point handed to the main thread after waiting `delay` milliseconds. */
  datatype Frame = Frame(delay: nat, point: Point)

  function DivCeil(a: nat, b: nat): (q: nat)
    requires b > 0
    ensures (q as int - 1) * b < a <= q * b || (a == 0 && q == 0)
  {
    var q := a / b;
    assert q * b <= a < (q + 1) * b;
    if a % b == 0 then q else q + 1
  }

  function Scaled(d: real, progress: real): real {
    d * progress
  }

  function Interpolate(from: Point, to: Point, progress: real): Point {
    Point(from.x + Scaled(to.x - from.x, progress), from.y + Scaled(to.y - from.y, progress))
  }

  function TotalDelay(frames: seq<Frame>): nat {
    if frames == [] then 0 else TotalDelay(frames[..|frames| - 1]) + frames[|frames| - 1].delay
  }

  predicate Within(a: real, v: real, b: real) {
    a <= v <= b || b <= v <= a
  }

  predicate OnSegment(from: Point, p: Point, to: Point) {
    Within(from.x, p.x, to.x) && Within(from.y, p.y, to.y)
  }

  /** The time offset of frame `k`, rounded down to a millisecond. */
  function Offset(duration: nat, k: nat, steps: nat): nat
    requires steps > 0
  {
    duration * k / steps
  }

  lemma Cancel(a: int, b: int, c: int)
    requires c > 0 && a * c < b * c
    ensures a < b
  {
  }

  /** Rounding down keeps the order, and a rise of `c` units costs `c * b`. */
  lemma FloorOrder(lo: nat, hi: nat, c: nat, b: nat)
    requires b > 0 && lo <= hi <= lo + c * b
    ensures lo / b <= hi / b <= lo / b + c
  {
    var p, q := lo / b, hi / b;
    assert p * b <= lo < (p + 1) * b;
    assert q * b <= hi < (q + 1) * b;
    Cancel(p, q + 1, b);
    assert (p + 1) * b + c * b == (p + 1 + c) * b;
    Cancel(q, p + 1 + c, b);
  }

  /** Successive offsets never decrease and are at most one frame interval apart. */
  lemma OffsetGap(duration: nat, k: nat, steps: nat)
    requires duration > 0 && steps == DivCeil(duration, DRAG_FRAME_INTERVAL_MS) && k < steps
    ensures Offset(duration, k, steps) <= Offset(duration, k + 1, steps)
                                       <= Offset(duration, k, steps) + 16
  {
    assert duration * (k + 1) == duration * k + duration;
    FloorOrder(duration * k, duration * (k + 1), DRAG_FRAME_INTERVAL_MS, steps);
  }

  /** An offset is the even pace rounded down to whole milliseconds. */
  lemma OffsetRoundsDown(duration: nat, k: nat, steps: nat)
    requires steps > 0
    ensures Offset(duration, k, steps) * steps <= duration * k < (Offset(duration, k, steps) + 1) * steps
  {
  }

  lemma LastOffset(duration: nat, steps: nat)
    requires steps > 0
    ensures Offset(duration, steps, steps) == duration
  {
    var q := Offset(duration, steps, steps);
    assert q * steps <= duration * steps < (q + 1) * steps;
    Cancel(duration, q + 1, steps);
    Cancel(q, duration + 1, steps);
  }

  /** With the duration the notification parser admits, no product overflows a `u64`. */
  lemma OffsetsFitU64(duration: nat, k: nat)
    requires 0 < duration <= 5_000 && k <= DivCeil(duration, DRAG_FRAME_INTERVAL_MS)
    ensures duration * k <= 0xFFFF_FFFF_FFFF_FFFF
  {
    assert k <= MAX_DRAG_DURATION_MS;
    Product(duration, k, MAX_DRAG_DURATION_MS);
  }

  lemma Product(a: nat, b: nat, c: nat)
    requires a <= c && b <= c
    ensures a * b <= c * c
  {
    assert a * b <= c * b <= c * c;
  }

  lemma ScaleWithin(d: real, progress: real)
    requires 0.0 <= progress <= 1.0
    ensures Within(0.0, Scaled(d, progress), d)
    ensures progress == 1.0 ==> Scaled(d, progress) == d
  {
    var rest := 1.0 - progress;
    assert d * progress + d * rest == d;
    if d >= 0.0 {
      assert d * progress >= 0.0 && d * rest >= 0.0;
    } else {
      assert d * progress <= 0.0 && d * rest <= 0.0;
    }
  }

  lemma InterpolateOnSegment(from: Point, to: Point, progress: real)
    requires 0.0 <= progress <= 1.0
    ensures OnSegment(from, Interpolate(from, to, progress), to)
    ensures progress == 1.0 ==> Interpolate(from, to, progress) == to
  {
    ScaleWithin(to.x - from.x, progress);
    ScaleWithin(to.y - from.y, progress);
  }

  lemma QuotientUnit(n: real, d: real)
    requires 0.0 < n <= d
    ensures 0.0 <= n / d <= 1.0 && (n == d ==> n / d == 1.0)
  {
    var q := n / d;
    assert q * d == n;
    if q > 1.0 { CancelReal(1.0, q, d); }
    if q < 0.0 { CancelReal(q, 0.0, d); }
    if n == d { assert (q - 1.0) * d == 0.0; }
  }

  lemma CancelReal(a: real, b: real, c: real)
    requires a < b && c > 0.0
    ensures a * c < b * c
  {
    assert (b - a) * c > 0.0;
  }

  function Progress(step: nat, steps: nat): (p: real)
    requires 0 < step <= steps
    ensures 0.0 <= p <= 1.0 && (step == steps ==> p == 1.0)
  {
    QuotientUnit(step as real, steps as real);
    step as real / steps as real
  }

  /** The point of frame `i` of `n`: the way from the start to the target is covered at an even pace. */
  function EvenPoint(from: Point, to: Point, i: nat, n: nat): Point
    requires 0 < i <= n
  {
    var part := i as real / n as real;
    Point(from.x + (to.x - from.x) * part, from.y + (to.y - from.y) * part)
  }

  /** Frame `i` of `n` comes at its offset, at most 16 ms after the one before, and shows its point. */
  predicate IsFrame(f: Frame, from: Point, to: Point, duration: nat, i: nat, n: nat)
    requires 0 < i <= n
  {
    && Offset(duration, i - 1, n) + f.delay == Offset(duration, i, n) && f.delay <= 16
    && f.point == EvenPoint(from, to, i, n) && OnSegment(from, f.point, to)
  }

  lemma NextFrame(from: Point, to: Point, duration: nat, i: nat, n: nat)
    requires 0 < i <= n && duration > 0 && n == DivCeil(duration, DRAG_FRAME_INTERVAL_MS)
    ensures Offset(duration, i - 1, n) <= Offset(duration, i, n)
    ensures var f := Frame(Offset(duration, i, n) - Offset(duration, i - 1, n), Interpolate(from, to, Progress(i, n)));
            IsFrame(f, from, to, duration, i, n) && (i == n ==> f.point == to)
  {
    OffsetGap(duration, i - 1, n);
    InterpolateOnSegment(from, to, Progress(i, n));
    hide OnSegment, Offset;
  }

  lemma FramesNeeded(duration: nat)
    requires duration > 0
    ensures var steps := DivCeil(duration, DRAG_FRAME_INTERVAL_MS);
            steps > 0 && 16 * (steps - 1) < duration <= 16 * steps
  {
  }

  lemma NoOffset(duration: nat, steps: nat)
    requires steps > 0
    ensures Offset(duration, 0, steps) == 0
  {
  }

  /** schedule_drag: the first frame is immediate, the last one is the target; for a timed drag there is a
      frame every 16 ms or less, each at its place on an even pace, and the waits add up to the duration. */
  method ScheduleDrag(from: Point, to: Point, duration: nat) returns (frames: seq<Frame>)
    ensures |frames| >= 2 && frames[0] == Frame(0, from) && frames[|frames| - 1].point == to
    ensures duration == 0 ==> |frames| == 2 && frames[1].delay == 0
    ensures duration > 0 ==> 16 * (|frames| - 2) < duration <= 16 * (|frames| - 1)
    ensures duration > 0 ==>
              forall i :: 0 < i < |frames| ==> IsFrame(frames[i], from, to, duration, i, |frames| - 1)
    ensures TotalDelay(frames) == duration
  {
    hide Interpolate, Progress, IsFrame, DivCeil, Offset;
    frames := [Frame(0, from)];
    if duration == 0 {
      frames := frames + [Frame(0, to)];
      assert frames[..1] == [Frame(0, from)] && TotalDelay(frames[..1]) == 0;
      return;
    }
    FramesNeeded(duration);
    var steps := DivCeil(duration, DRAG_FRAME_INTERVAL_MS);
    var elapsed := 0;
    var step := 1;
    NoOffset(duration, steps);
    while step <= steps
      invariant 1 <= step <= steps + 1 && |frames| == step
      invariant elapsed == Offset(duration, step - 1, steps) == TotalDelay(frames)
      invariant frames[0] == Frame(0, from)
      invariant step == steps + 1 ==> frames[|frames| - 1].point == to
      invariant forall i :: 0 < i < |frames| ==> IsFrame(frames[i], from, to, duration, i, steps)
    {
      var next := Offset(duration, step, steps);
      NextFrame(from, to, duration, step, steps);
      ghost var before := frames;
      frames := frames + [Frame(next - elapsed, Interpolate(from, to, Progress(step, steps)))];
      assert frames[..|frames| - 1] == before;
      elapsed := next;
      step := step + 1;
    }
    LastOffset(duration, steps);
  }
}
