/**
 * The sprite-frame state machine that animates one strip of a sprite sheet.
 *
 * Every draw advances the elapsed time by the tick delta (only while the game
 * runs), wraps it (looped) or clamps the frame (not looped), derives the
 * current frame, and yields the sub-rectangle of the sheet to show together
 * with the destination rectangle. The time step is the pure function `Step`;
 * `Animator.DrawFrame` performs it in place and is proved to agree with it.
 */
module Animation {
  import opened Geometry
  import opened Clock

  /** The timing parameters of one animation; `totalTime` is fixed at construction. */
  datatype Timing = Timing(frameCount: int, frameDuration: real, totalTime: real, looped: bool)
  {
    predicate Valid()
    {
      frameCount > 0 && frameDuration > 0.0 && totalTime == frameCount as real * frameDuration
    }
  }

  /** The mutable part of an animator: elapsed time and the frame being shown. */
  datatype Playhead = Playhead(elapsed: real, frame: int)

  /** The frame index an elapsed time falls in: the floor of `elapsed / frameDuration`. */
  function FrameAt(tm: Timing, elapsed: real): int
    requires tm.frameDuration > 0.0
  {
    (elapsed / tm.frameDuration).Floor
  }

  /** One time step of a draw: accumulate, then wrap or clamp, then pick the frame. */
  function Step(tm: Timing, elapsed: real, tick: Tick): Playhead
    requires tm.frameDuration > 0.0
  {
    var e := if tick.running then elapsed + tick.clockTick else elapsed;
    if e > tm.totalTime then
      if tm.looped then Playhead(e - tm.totalTime, 0)
      else Playhead(e, tm.frameCount - 1)
    else
      Playhead(e, FrameAt(tm, e))
  }

  /** Whether one full pass has been played; the looped flag plays no part. */
  function Done(tm: Timing, elapsed: real): bool
  {
    elapsed >= tm.totalTime
  }

  /** Successive draws, one per tick. */
  function Run(tm: Timing, p: Playhead, ticks: seq<Tick>): Playhead
    requires tm.frameDuration > 0.0
    decreases |ticks|
  {
    if ticks == [] then p else Run(tm, Step(tm, p.elapsed, ticks[0]), ticks[1..])
  }

  /** The time one tick adds to the animator: its delta when running, nothing when paused. */
  function Gain(tick: Tick): real
  {
    if tick.running then tick.clockTick else 0.0
  }

  /** The time that reaches the animator over some ticks. */
  function RunningTime(ticks: seq<Tick>): real
  {
    if ticks == [] then 0.0 else Gain(ticks[0]) + RunningTime(ticks[1..])
  }

  /** The host's promise that no delta is negative. */
  predicate Forward(ticks: seq<Tick>)
  {
    forall i :: 0 <= i < |ticks| ==> ticks[i].clockTick >= 0.0
  }

  // ---------------------------------------------------------------------------
  // Geometry of a frame on the sheet

  /** A rectangle: its corner and its extent. */
  datatype Rect = Rect(x: real, y: real, w: real, h: real)

  /** A draw scale: one number for both axes, or one per axis. */
  datatype Scaling = Uniform(s: real) | PerAxis(v: Vector)

  /** The scale as a vector; a single number `s` stands for `(s, s)`. */
  function ScaleVector(scale: Scaling): (v: Vector)
    ensures scale.Uniform? ==> v.x == scale.s && v.y == scale.s
    ensures scale.PerAxis? ==> v == scale.v
  {
    match scale
    case Uniform(s) => Vector(s, s)
    case PerAxis(v) => v
  }

  /** Where the strip is read from: a reversed strip starts one strip-width to the right. */
  function SheetOrigin(start: Vector, size: Vector, frameCount: int, reversed: bool): (r: Vector)
    ensures r.y == start.y
  {
    if reversed then Add(start, Vector(frameCount as real * size.x, 0.0)) else start
  }

  /** The sub-rectangle of the sheet shown for a frame; reversed strips walk left. */
  function SourceRect(origin: Vector, size: Vector, frame: int, reversed: bool): (r: Rect)
    ensures r.y == origin.y && r.w == size.x && r.h == size.y
  {
    Rect(origin.x + (if reversed then -1.0 else 1.0) * size.x * frame as real, origin.y, size.x, size.y)
  }

  /** The rectangle on the canvas: at `pos`, the frame size scaled per axis. */
  function DestRect(pos: Vector, size: Vector, scale: Scaling): (r: Rect)
    ensures r.x == pos.x && r.y == pos.y
    ensures r.w == size.x * ScaleVector(scale).x && r.h == size.y * ScaleVector(scale).y
  {
    var s := ScaleVector(scale);
    Rect(pos.x, pos.y, size.x * s.x, size.y * s.y)
  }

  // ---------------------------------------------------------------------------
  // The object

  class Animator {
    const spritesheet: string
    /** The sheet position the strip is read from (already shifted when reversed). */
    const start: Vector
    const size: Vector
    const frameCount: int
    const frameDuration: real
    const totalTime: real
    const looped: bool
    const reversed: bool
    var elapsedTime: real
    var currentFrame: int

    function Params(): Timing
    {
      Timing(frameCount, frameDuration, totalTime, looped)
    }

    predicate Valid()
    {
      Params().Valid()
    }

    constructor (spritesheet: string, start: Vector, size: Vector, frameCount: int, frameDuration: real,
                 looped: bool := true, reversed: bool := false)
      requires frameCount > 0 && frameDuration > 0.0
      ensures Valid()
      ensures this.spritesheet == spritesheet && this.size == size
      ensures this.start == SheetOrigin(start, size, frameCount, reversed)
      ensures this.frameCount == frameCount && this.frameDuration == frameDuration
      ensures totalTime == frameCount as real * frameDuration
      ensures this.looped == looped && this.reversed == reversed
      ensures elapsedTime == 0.0 && currentFrame == 0
    {
      this.spritesheet := spritesheet;
      this.start := SheetOrigin(start, size, frameCount, reversed);
      this.size := size;
      this.frameCount := frameCount;
      this.frameDuration := frameDuration;
      elapsedTime := 0.0;
      totalTime := frameCount as real * frameDuration;
      currentFrame := 0;
      this.looped := looped;
      this.reversed := reversed;
    }

    /**
     * Advances the animation by one tick and returns what would be drawn:
     * the source rectangle on the sheet and the destination rectangle.
     */
    method DrawFrame(pos: Vector, scale: Scaling, tick: Tick) returns (src: Rect, dst: Rect)
      requires Valid()
      modifies this
      ensures Playhead(elapsedTime, currentFrame) == Step(Params(), old(elapsedTime), tick)
      ensures src == SourceRect(start, size, currentFrame, reversed)
      ensures dst == DestRect(pos, size, scale)
    {
      if tick.running {
        elapsedTime := elapsedTime + tick.clockTick;
      }

      if elapsedTime > totalTime {
        if looped {
          elapsedTime := elapsedTime - totalTime;
          currentFrame := 0;
        } else {
          currentFrame := frameCount - 1;
        }
      } else {
        currentFrame := FrameAt(Params(), elapsedTime);
      }

      var s := ScaleVector(scale);
      src := Rect(start.x + (if reversed then -1.0 else 1.0) * size.x * currentFrame as real, start.y,
                  size.x, size.y);
      dst := Rect(pos.x, pos.y, size.x * s.x, size.y * s.y);
    }

    /** Done exactly when the floored frame has run off the end of the strip. */
    function IsDone(): (r: bool)
      requires Valid()
      reads this
      ensures r <==> FrameAt(Params(), elapsedTime) >= frameCount
    {
      DoneIffPastStrip(Params(), elapsedTime);
      Done(Params(), elapsedTime)
    }
  }

  // ---------------------------------------------------------------------------
  // Properties of one step

  /**
   * A non-looped step never winds time back; a looped one winds back at most
   * one pass, and a step that winds back shows frame 0.
   */
  lemma StepWindsBackOnce(tm: Timing, elapsed: real, tick: Tick)
    requires tm.frameDuration > 0.0
    ensures var p := Step(tm, elapsed, tick);
            && (!tm.looped ==> p.elapsed == elapsed + Gain(tick))
            && (tm.looped ==> p.elapsed == elapsed + Gain(tick) || p.elapsed == elapsed + Gain(tick) - tm.totalTime)
            && (p.elapsed != elapsed + Gain(tick) ==> p.frame == 0)
  {
  }

  /** A paused draw keeps the elapsed time exactly when no looped wrap is pending. */
  lemma PausedKeepsTime(tm: Timing, elapsed: real, dt: real)
    requires tm.Valid()
    ensures Step(tm, elapsed, Tick(dt, false)).elapsed == elapsed
            <==> !(tm.looped && elapsed > tm.totalTime)
  {
  }

  /** Within one pass, repeated paused draws show the same frame over and over. */
  lemma PausedDrawIdempotent(tm: Timing, elapsed: real, dt: real, dt': real)
    requires tm.Valid()
    requires elapsed <= tm.totalTime
    ensures var p := Step(tm, elapsed, Tick(dt, false));
            p.elapsed == elapsed && Step(tm, p.elapsed, Tick(dt', false)) == p
  {
  }

  /** While running, the delta is added in full before the wrap check. */
  lemma RunningAddsTick(tm: Timing, elapsed: real, dt: real)
    requires tm.Valid()
    ensures var p := Step(tm, elapsed, Tick(dt, true));
            var e := elapsed + dt;
            if e > tm.totalTime && tm.looped then p.elapsed == e - tm.totalTime else p.elapsed == e
  {
  }

  /**
   * A looped wrap subtracts exactly one total time and restarts at frame 0;
   * only one subtraction happens, so a delta above twice the total time
   * leaves the elapsed time above the total.
   */
  lemma LoopWrapOnce(tm: Timing, elapsed: real, tick: Tick)
    requires tm.Valid() && tm.looped && tick.running
    requires elapsed + tick.clockTick > tm.totalTime
    ensures Step(tm, elapsed, tick) == Playhead(elapsed + tick.clockTick - tm.totalTime, 0)
    ensures elapsed >= 0.0 && tick.clockTick > 2.0 * tm.totalTime ==>
              Step(tm, elapsed, tick).elapsed > tm.totalTime
  {
  }

  /**
   * Inside a pass the frame is the floor of elapsed over duration; it ranges
   * over `0 .. frameCount`, reaching `frameCount` exactly at the end of the pass.
   */
  lemma FrameAtRange(tm: Timing, elapsed: real)
    requires tm.Valid()
    requires 0.0 <= elapsed <= tm.totalTime
    ensures 0 <= FrameAt(tm, elapsed) <= tm.frameCount
    ensures FrameAt(tm, elapsed) == tm.frameCount <==> elapsed == tm.totalTime
  {
    var d := tm.frameDuration;
    var n := tm.frameCount as real;
    var q := elapsed / d;
    assert q * d == elapsed;
    assert q <= n;
    if elapsed < tm.totalTime {
      assert q < n;
    } else {
      assert q == n;
    }
  }

  /** A pass is done exactly when the floored frame has reached `frameCount`. */
  lemma DoneIffPastStrip(tm: Timing, elapsed: real)
    requires tm.Valid()
    ensures Done(tm, elapsed) <==> FrameAt(tm, elapsed) >= tm.frameCount
  {
    var d := tm.frameDuration;
    var n := tm.frameCount as real;
    var q := elapsed / d;
    assert q * d == elapsed;
    if elapsed >= tm.totalTime {
      assert q >= n;
    } else {
      assert q < n;
    }
  }

  /**
   * After a step the frame is in `0 .. frameCount`, provided the elapsed time
   * was not negative and the delta not negative.
   */
  lemma StepFrameRange(tm: Timing, elapsed: real, tick: Tick)
    requires tm.Valid()
    requires elapsed >= 0.0 && tick.clockTick >= 0.0
    ensures 0 <= Step(tm, elapsed, tick).frame <= tm.frameCount
    ensures Step(tm, elapsed, tick).elapsed >= 0.0
  {
    var e := if tick.running then elapsed + tick.clockTick else elapsed;
    if e <= tm.totalTime {
      FrameAtRange(tm, e);
    }
  }

  /**
   * A looped animator that stays within one pass reports done only at the exact
   * end of a pass: a wrap that overshoots the boundary is not reported.
   */
  lemma LoopedDoneOnlyAtBoundary(tm: Timing, elapsed: real, tick: Tick)
    requires tm.Valid() && tm.looped
    requires 0.0 <= elapsed <= tm.totalTime
    requires 0.0 <= tick.clockTick <= tm.totalTime
    ensures var p := Step(tm, elapsed, tick);
            0.0 <= p.elapsed <= tm.totalTime && (Done(tm, p.elapsed) <==> p.elapsed == tm.totalTime)
  {
  }

  // ---------------------------------------------------------------------------
  // Properties of a run of ticks

  /** With non-negative deltas the elapsed time never becomes negative. */
  lemma {:induction false} ElapsedNeverNegative(tm: Timing, p: Playhead, ticks: seq<Tick>)
    requires tm.Valid()
    requires p.elapsed >= 0.0
    requires Forward(ticks)
    ensures Run(tm, p, ticks).elapsed >= 0.0
    decreases |ticks|
  {
    if ticks != [] {
      StepFrameRange(tm, p.elapsed, ticks[0]);
      assert Forward(ticks[1..]) by {
        forall i | 0 <= i < |ticks[1..]| ensures ticks[1..][i].clockTick >= 0.0 {
          assert ticks[1..][i] == ticks[i + 1];
        }
      }
      ElapsedNeverNegative(tm, Step(tm, p.elapsed, ticks[0]), ticks[1..]);
    }
  }

  /** The time a step takes off: one total time when it wraps a looped animator. */
  function Wrapped(tm: Timing, elapsed: real, tick: Tick): real
  {
    if tm.looped && elapsed + Gain(tick) > tm.totalTime then tm.totalTime else 0.0
  }

  /** The number of looped wraps over a run of ticks. */
  function Wraps(tm: Timing, p: Playhead, ticks: seq<Tick>): nat
    requires tm.frameDuration > 0.0
    decreases |ticks|
  {
    if ticks == [] then 0
    else (if tm.looped && p.elapsed + Gain(ticks[0]) > tm.totalTime then 1 else 0)
         + Wraps(tm, Step(tm, p.elapsed, ticks[0]), ticks[1..])
  }

  /** The time taken off by the wraps over a run of ticks. */
  function Unwound(tm: Timing, p: Playhead, ticks: seq<Tick>): real
    requires tm.frameDuration > 0.0
    decreases |ticks|
  {
    if ticks == [] then 0.0
    else Wrapped(tm, p.elapsed, ticks[0]) + Unwound(tm, Step(tm, p.elapsed, ticks[0]), ticks[1..])
  }

  /**
   * Frame-time conservation: the elapsed time is the starting time plus every
   * running delta, less the time the wraps took off.
   */
  lemma {:induction false} TimeConserved(tm: Timing, p: Playhead, ticks: seq<Tick>)
    requires tm.frameDuration > 0.0
    ensures Run(tm, p, ticks).elapsed == p.elapsed + RunningTime(ticks) - Unwound(tm, p, ticks)
    decreases |ticks|
  {
    if ticks != [] {
      TimeConserved(tm, Step(tm, p.elapsed, ticks[0]), ticks[1..]);
    }
  }

  /** The time the wraps take off is a whole number of passes, one per wrap. */
  lemma {:induction false} UnwoundWholePasses(tm: Timing, p: Playhead, ticks: seq<Tick>)
    requires tm.Valid()
    ensures Unwound(tm, p, ticks) == Wraps(tm, p, ticks) as real * tm.totalTime
    decreases |ticks|
  {
    if ticks != [] {
      var q := Step(tm, p.elapsed, ticks[0]);
      var w := Wraps(tm, q, ticks[1..]);
      UnwoundWholePasses(tm, q, ticks[1..]);
      assert (w + 1) as real * tm.totalTime == w as real * tm.totalTime + tm.totalTime;
    }
  }

  /**
   * When no delta exceeds one pass, a looped animator that starts within a
   * pass stays within a pass: combined with `TimeConserved`, its elapsed
   * time is the running time modulo the total time, up to the boundary.
   */
  lemma {:induction false} LoopedTimeBounded(tm: Timing, p: Playhead, ticks: seq<Tick>)
    requires tm.Valid() && tm.looped
    requires 0.0 <= p.elapsed <= tm.totalTime
    requires forall i :: 0 <= i < |ticks| ==> 0.0 <= ticks[i].clockTick <= tm.totalTime
    ensures 0.0 <= Run(tm, p, ticks).elapsed <= tm.totalTime
    decreases |ticks|
  {
    if ticks != [] {
      LoopedDoneOnlyAtBoundary(tm, p.elapsed, ticks[0]);
      assert forall i :: 0 <= i < |ticks[1..]| ==> ticks[1..][i] == ticks[i + 1];
      LoopedTimeBounded(tm, Step(tm, p.elapsed, ticks[0]), ticks[1..]);
    }
  }

  /**
   * Clamp idempotence: once a non-looped animator is past its total time,
   * every later draw with a non-negative delta shows the last frame and the
   * animation stays done.
   */
  lemma {:induction false} ClampForever(tm: Timing, p: Playhead, ticks: seq<Tick>)
    requires tm.Valid() && !tm.looped
    requires p.elapsed > tm.totalTime
    requires Forward(ticks)
    ensures Run(tm, p, ticks).elapsed >= p.elapsed
    ensures Done(tm, Run(tm, p, ticks).elapsed)
    ensures ticks != [] ==> Run(tm, p, ticks).frame == tm.frameCount - 1
    decreases |ticks|
  {
    if ticks != [] {
      var q := Step(tm, p.elapsed, ticks[0]);
      assert q.elapsed >= p.elapsed && q.frame == tm.frameCount - 1;
      assert Forward(ticks[1..]) by {
        forall i | 0 <= i < |ticks[1..]| ensures ticks[1..][i].clockTick >= 0.0 {
          assert ticks[1..][i] == ticks[i + 1];
        }
      }
      ClampForever(tm, q, ticks[1..]);
    }
  }

  // ---------------------------------------------------------------------------
  // Frames on the sheet

  /**
   * A reversed strip is read from the right edge of the last cell of the
   * forward strip; a forward strip from `start` itself.
   */
  lemma ReversedOrigin(start: Vector, size: Vector, frameCount: int)
    ensures SheetOrigin(start, size, frameCount, true).x
            == SourceRect(start, size, frameCount - 1, false).x + size.x
    ensures SheetOrigin(start, size, frameCount, false) == start
  {
  }

  /**
   * Reversed playback mirrors forward playback: frame `f` of a reversed strip
   * reads the cell that frame `frameCount - f` reads when played forward.
   */
  lemma ReversedMirrors(start: Vector, size: Vector, frameCount: int, f: int)
    ensures SourceRect(SheetOrigin(start, size, frameCount, true), size, f, true)
         == SourceRect(SheetOrigin(start, size, frameCount, false), size, frameCount - f, false)
  {
  }

  /**
   * Consecutive frames sit side by side on the sheet, one frame width apart:
   * to the right on a forward strip, to the left on a reversed one.
   */
  lemma AdjacentFrames(origin: Vector, size: Vector, frame: int, reversed: bool)
    ensures SourceRect(origin, size, frame + 1, reversed).x - SourceRect(origin, size, frame, reversed).x
            == if reversed then -size.x else size.x
  {
  }

  /**
   * One pixel of the sheet covers `scale.x` by `scale.y` pixels of the canvas,
   * and a single-number scale `s` draws exactly as the vector `(s, s)`.
   */
  lemma PixelScaling(pos: Vector, origin: Vector, size: Vector, frame: int, reversed: bool, scale: Scaling)
    ensures var src := SourceRect(origin, size, frame, reversed);
            var dst := DestRect(pos, size, scale);
            dst.w == src.w * ScaleVector(scale).x && dst.h == src.h * ScaleVector(scale).y
    ensures scale.Uniform? ==> DestRect(pos, size, scale) == DestRect(pos, size, PerAxis(Vector(scale.s, scale.s)))
  {
  }

  // ---------------------------------------------------------------------------
  // Worked scenarios: six frames of half a second (three seconds a pass)

  /** Looped, 3.2 s in two running ticks: 0.2 s into the second pass, frame 0. */
  lemma LoopedScenario()
    ensures Run(Timing(6, 0.5, 3.0, true), Playhead(0.0, 0), [Tick(1.6, true), Tick(1.6, true)])
            == Playhead(0.2, 0)
  {
  }

  /**
   * Not looped, four one-second ticks: at exactly three seconds the frame is
   * 6 (one past the strip), and after four it is clamped to 5 and done.
   */
  lemma ClampedScenario()
    ensures var tm := Timing(6, 0.5, 3.0, false);
            var t := Tick(1.0, true);
            Run(tm, Playhead(0.0, 0), [t, t, t]) == Playhead(3.0, 6)
            && Run(tm, Playhead(0.0, 0), [t, t, t, t]) == Playhead(4.0, 5)
            && Done(tm, 4.0)
  {
    var tm := Timing(6, 0.5, 3.0, false);
    var t := Tick(1.0, true);
    assert 1.0 / 0.5 == 2.0 && 2.0 / 0.5 == 4.0 && 3.0 / 0.5 == 6.0;
    assert Step(tm, 0.0, t) == Playhead(1.0, 2);
    assert Step(tm, 1.0, t) == Playhead(2.0, 4);
    assert Step(tm, 2.0, t) == Playhead(3.0, 6);
    assert Step(tm, 3.0, t) == Playhead(4.0, 5);
    assert Run(tm, Playhead(3.0, 6), [t]) == Playhead(4.0, 5);
    assert Run(tm, Playhead(2.0, 4), [t]) == Playhead(3.0, 6);
    assert Run(tm, Playhead(2.0, 4), [t, t]) == Playhead(4.0, 5);
    assert Run(tm, Playhead(1.0, 2), [t, t]) == Playhead(3.0, 6);
    assert Run(tm, Playhead(1.0, 2), [t, t, t]) == Playhead(4.0, 5);
  }

  /** A paused tick in the middle of a pass changes nothing. */
  lemma PausedScenario()
    ensures Run(Timing(6, 0.5, 3.0, true), Playhead(1.2, 2), [Tick(0.7, false)]) == Playhead(1.2, 2)
  {
  }
}
