/**
 * The marker shown where the player respawns: a six-frame animation and a
 * timer that counts the time since it appeared.
 *
 * The update adds the tick delta to the timer and does nothing else; the
 * branch meant to expire the marker reads the removal flag without setting
 * it, so the marker is never removed by its own update.
 */
module Spawnpoints {
  import opened Geometry
  import Animation
  import Clock

  const SPRITESHEET := "./sprites/spawnpoint.png"
  const SIZE := Vector(16.0, 16.0)
  const SCALE := 2.0

  class Spawnpoint {
    const pos: Vector
    const animator: Animation.Animator
    var timer: real
    var removeFromWorld: bool

    predicate Valid()
    {
      animator.Valid()
    }

    constructor (pos: Vector)
      ensures Valid()
      ensures this.pos == pos && timer == 0.0 && !removeFromWorld
      ensures fresh(animator)
      ensures animator.spritesheet == SPRITESHEET && animator.start == Origin && animator.size == SIZE
      ensures animator.frameCount == 6 && animator.frameDuration == 0.5 && animator.totalTime == 3.0
      ensures animator.looped && !animator.reversed
      ensures animator.elapsedTime == 0.0 && animator.currentFrame == 0
    {
      this.pos := pos;
      animator := new Animation.Animator(SPRITESHEET, Vector(0.0, 0.0), SIZE, 6, 0.5);
      timer := 0.0;
      removeFromWorld := false;
    }

    /**
     * Accumulates the timer. Past half a second the source only evaluates the
     * removal flag, which has no effect, so nothing else changes.
     */
    method Update(clockTick: real)
      modifies this`timer
      ensures timer == old(timer) + clockTick
      ensures removeFromWorld == old(removeFromWorld)
      ensures unchanged(animator)
    {
      timer := timer + clockTick;
    }

    /** Draws the current frame at the marker's position, twice the sprite size. */
    method Draw(tick: Clock.Tick) returns (src: Animation.Rect, dst: Animation.Rect)
      requires Valid()
      modifies animator
      ensures Animation.Playhead(animator.elapsedTime, animator.currentFrame)
              == Animation.Step(animator.Params(), old(animator.elapsedTime), tick)
      ensures src == Animation.SourceRect(animator.start, animator.size, animator.currentFrame, animator.reversed)
      ensures dst == Animation.DestRect(pos, animator.size, Animation.Uniform(SCALE))
    {
      src, dst := animator.DrawFrame(pos, Animation.Uniform(SCALE), tick);
    }
  }

  /**
   * The engine's frame loop as one spawn point sees it: one update per delta.
   * The timer ends at its start plus the sum of the deltas, which with
   * non-negative deltas is never below the start; the removal flag is never set.
   */
  method RunFrames(sp: Spawnpoint, deltas: seq<real>)
    modifies sp`timer
    ensures sp.timer == old(sp.timer) + Clock.Sum(deltas)
    ensures Clock.NonNegative(deltas) ==> old(sp.timer) <= sp.timer
    ensures sp.removeFromWorld == old(sp.removeFromWorld)
  {
    var i := 0;
    while i < |deltas|
      invariant 0 <= i <= |deltas|
      invariant sp.timer == old(sp.timer) + Clock.Sum(deltas[..i])
      invariant sp.removeFromWorld == old(sp.removeFromWorld)
    {
      sp.Update(deltas[i]);
      assert deltas[..i + 1][..i] == deltas[..i];
      i := i + 1;
    }
    assert deltas[..|deltas|] == deltas;
    if Clock.NonNegative(deltas) {
      Clock.SumMonotone(deltas, 0);
    }
  }
}
