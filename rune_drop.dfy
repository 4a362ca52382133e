/**
 * A rune lying in the world: a pickup worth a fixed number of runes by type.
 *
 * Each update first checks whether the rune touches the player's box and, if
 * so, collects it. A rune with gravity then takes one explicit physics step:
 * within 300 units of the player it is pulled toward the player, otherwise it
 * falls; it moves by its velocity times the delta, its box is rebuilt at the
 * new position (the old box kept as the last one), and the terrain
 * collaborator may then correct position, velocity and boxes.
 */
module RuneDrops {
  import opened Geometry
  import opened Options
  import Animation
  import Clock

  const SPRITESHEET := "./sprites/runes.png"

  const PURPLE := 0
  const WHITE := 1
  const GREEN := 2
  const GRAY := 3
  const RED := 4
  const YELLOW := 5

  const SCALE := 1.5
  const SIZE := Vector(36.0, 36.0)

  /** Within this distance of the player a rune is pulled instead of falling. */
  const MAGNET_RADIUS := 300.0
  /** The pull's strength is the distance divided by this. */
  const MAGNET_DIVISOR := 10.0

  /** The value of each rune type. */
  const VALUE_MAP: map<int, nat> := map[0 := 1, 1 := 2, 2 := 5, 3 := 10, 4 := 20, 5 := 50]

  /** `VALUE_MAP[type]`: undefined for a type outside the table. */
  function ValueOf(runeType: int): (r: Option<nat>)
    ensures r.Some? <==> PURPLE <= runeType <= YELLOW
    ensures r.Some? ==> r.value > 0
  {
    if runeType in VALUE_MAP then Some(VALUE_MAP[runeType]) else None
  }

  /** The table: purple 1, white 2, green 5, gray 10, red 20, yellow 50; rarer types are worth more. */
  lemma RuneValues()
    ensures ValueOf(PURPLE) == Some(1) && ValueOf(WHITE) == Some(2) && ValueOf(GREEN) == Some(5)
    ensures ValueOf(GRAY) == Some(10) && ValueOf(RED) == Some(20) && ValueOf(YELLOW) == Some(50)
    ensures forall s, t :: PURPLE <= s < t <= YELLOW ==> ValueOf(s).value < ValueOf(t).value
  {
  }

  /** On-screen size: the sprite size times the scale. */
  function ScaledSize(): (v: Vector)
    ensures v == Vector(54.0, 54.0)
  {
    Scale(SIZE, SCALE)
  }

  // ---------------------------------------------------------------------------
  // The physics step

  /** The state the physics step and the terrain collaborator work on. */
  datatype Motion = Motion(pos: Vector, velocity: Vector, boundingBox: Box, lastBoundingBox: Box)

  /** What the rune needs to know of the player. */
  datatype Chad = Chad(boundingBox: Box, center: Vector, pos: Vector)

  /**
   * The physics configuration: the gravity constant, and the terrain
   * collaborator, which given the moved body and its size returns it corrected.
   */
  datatype Physics = Physics(gravityAcc: real, terrain: (Motion, Vector) -> Motion)

  /**
   * The velocity after one step: the magnet pull within the radius (a gain of
   * `distance / 10` along the direction, not scaled by the delta), gravity
   * (`gravityAcc * clockTick` downward) outside it.
   */
  function Accelerate(velocity: Vector, chadDist: real, chadDir: Vector, gravityAcc: real, clockTick: real): (v: Vector)
    ensures chadDist >= MAGNET_RADIUS ==> v.x == velocity.x && v.y == velocity.y + gravityAcc * clockTick
    ensures chadDist < MAGNET_RADIUS ==> v == Add(velocity, Scale(chadDir, chadDist / MAGNET_DIVISOR))
  {
    if chadDist < MAGNET_RADIUS then Add(velocity, Scale(chadDir, chadDist / MAGNET_DIVISOR))
    else Add(velocity, Vector(0.0, gravityAcc * clockTick))
  }

  /** The pull does not depend on the delta: a long frame gets no more of it than a short one. */
  lemma PullIgnoresTick(velocity: Vector, chadDist: real, chadDir: Vector, g: real, dt: real, dt': real)
    requires chadDist < MAGNET_RADIUS
    ensures Accelerate(velocity, chadDist, chadDir, g, dt) == Accelerate(velocity, chadDist, chadDir, g, dt')
  {
  }

  /**
   * Moving with the new velocity: the position advances by velocity times the
   * delta, the box is rebuilt there and the previous box becomes the last one.
   */
  function Move(m: Motion, velocity: Vector, clockTick: real, size: Vector): (r: Motion)
    ensures r.pos == Add(m.pos, Scale(velocity, clockTick)) && r.velocity == velocity
    ensures r.lastBoundingBox == m.boundingBox && r.boundingBox == Box(r.pos, size)
  {
    var p := Add(m.pos, Scale(velocity, clockTick));
    Motion(p, velocity, Box(p, size), m.boundingBox)
  }

  /** `n` steps of equal delta with the player out of range and no terrain correction. */
  function Fall(m: Motion, far: real, g: real, dt: real, size: Vector, n: nat): Motion
    requires far >= MAGNET_RADIUS
  {
    if n == 0 then m
    else
      var prev := Fall(m, far, g, dt, size, n - 1);
      Move(prev, Accelerate(prev.velocity, far, Origin, g, dt), dt, size)
  }

  /**
   * Free fall, integrated step by step: after `n` steps of delta `dt` the
   * vertical velocity has gained `n * g * dt`, the horizontal one is
   * unchanged, and the position has advanced by the Euler sum (which exceeds
   * the closed form `g t^2 / 2` by `g dt^2 n / 2`).
   */
  lemma {:induction false} FreeFall(m: Motion, far: real, g: real, dt: real, size: Vector, n: nat)
    requires far >= MAGNET_RADIUS
    ensures var r := Fall(m, far, g, dt, size, n);
            var k := n as real;
            && r.velocity == Vector(m.velocity.x, m.velocity.y + k * g * dt)
            && r.pos.x == m.pos.x + k * dt * m.velocity.x
            && r.pos.y == m.pos.y + k * dt * m.velocity.y + g * dt * dt * k * (k + 1.0) / 2.0
  {
    if n > 0 {
      FreeFall(m, far, g, dt, size, n - 1);
      var k := (n - 1) as real;
      var prev := Fall(m, far, g, dt, size, n - 1);
      var v := m.velocity;
      var v' := Accelerate(prev.velocity, far, Origin, g, dt);
      assert v'.y == v.y + (k + 1.0) * g * dt;
      assert v'.y * dt == v.y * dt + (k + 1.0) * g * dt * dt;
      assert k * dt * v.y + v.y * dt  == (k + 1.0) * dt * v.y;
      assert k * dt * v.x + v.x * dt  == (k + 1.0) * dt * v.x;
      assert g * dt * dt * k * (k + 1.0) / 2.0 + (k + 1.0) * g * dt * dt
             == g * dt * dt * (k + 1.0) * (k + 2.0) / 2.0;
    }
  }

  // ---------------------------------------------------------------------------
  // The object

  class RuneDrop {
    var pos: Vector
    const runeType: int
    /** The runes this drop is worth; undefined for a type outside the table. */
    const amount: Option<nat>
    const hasGravity: bool
    var velocity: Vector
    /** Set by the spawn pop, and read by nothing: the pop does not reach `velocity`. */
    const yVelocity: Option<real>
    const scale: real
    const scaledSize: Vector
    /** The centre at construction; the updates never recompute it. */
    const center: Vector
    var boundingBox: Box
    var lastBoundingBox: Box
    const animation: Animation.Animator
    var removeFromWorld: bool

    constructor (pos: Vector, runeType: int, hasGravity: bool := true, popInAir: bool := true)
      ensures this.pos == pos && this.runeType == runeType && this.hasGravity == hasGravity
      ensures amount == ValueOf(runeType)
      ensures velocity == Origin
      ensures yVelocity == if popInAir then Some(-300.0) else None
      ensures scale == 1.5 && scaledSize == Vector(54.0, 54.0)
      ensures center == Add(pos, Vector(27.0, 27.0))
      ensures boundingBox == Box(pos, scaledSize) && lastBoundingBox == boundingBox
      ensures !removeFromWorld
      ensures fresh(animation) && Valid()
      ensures animation.spritesheet == SPRITESHEET
      ensures animation.start == Vector(36.0, runeType as real * 36.0) && animation.size == SIZE
      ensures animation.frameCount == 8 && animation.frameDuration == 0.15 && animation.totalTime == 1.2
      ensures animation.looped && !animation.reversed
    {
      this.pos := pos;
      this.runeType := runeType;
      amount := ValueOf(runeType);
      this.hasGravity := hasGravity;

      velocity := Vector(0.0, 0.0);
      yVelocity := if popInAir then Some(-300.0) else None;
      scale := SCALE;
      scaledSize := Scale(SIZE, SCALE);
      center := Add(pos, Scale(Scale(SIZE, SCALE), 0.5));
      boundingBox := Box(pos, Scale(SIZE, SCALE));
      lastBoundingBox := Box(pos, Scale(SIZE, SCALE));
      removeFromWorld := false;

      animation := new Animation.Animator(SPRITESHEET, Vector(SIZE.x, runeType as real * SIZE.y), SIZE, 8, 0.15);
    }

    predicate Valid()
    {
      animation.Valid()
    }

    /**
     * Draws the current frame at the drop's position mapped to the canvas
     * (`canvasPos`), scaled by 1.5; the value label is not modelled.
     */
    method Draw(canvasPos: Vector, tick: Clock.Tick) returns (src: Animation.Rect, dst: Animation.Rect)
      requires Valid()
      modifies animation
      ensures Animation.Playhead(animation.elapsedTime, animation.currentFrame)
              == Animation.Step(animation.Params(), old(animation.elapsedTime), tick)
      ensures src == Animation.SourceRect(animation.start, animation.size, animation.currentFrame, animation.reversed)
      ensures dst == Animation.DestRect(canvasPos, animation.size, Animation.Uniform(scale))
    {
      src, dst := animation.DrawFrame(canvasPos, Animation.Uniform(scale), tick);
    }

    /** Marks the drop for removal; the result is the amount credited to the inventory. */
    method Collect() returns (credited: Option<nat>)
      modifies this`removeFromWorld
      ensures removeFromWorld
      ensures credited == amount
    {
      removeFromWorld := true;
      credited := amount;
    }

    /**
     * One update. `collected` tells whether the drop touched the player's box
     * (as it was before this step); `credited` is what it then credited.
     */
    method Update(chad: Chad, clockTick: real, ops: Oracles, physics: Physics)
      returns (collected: bool, credited: Option<nat>)
      modifies this`pos, this`velocity, this`boundingBox, this`lastBoundingBox, this`removeFromWorld
      ensures collected == ops.collide(old(boundingBox), chad.boundingBox)
      ensures removeFromWorld == (old(removeFromWorld) || collected)
      ensures credited == if collected then amount else None
      ensures !hasGravity ==>
                pos == old(pos) && velocity == old(velocity)
                && boundingBox == old(boundingBox) && lastBoundingBox == old(lastBoundingBox)
      ensures hasGravity ==>
                var before := Motion(old(pos), old(velocity), old(boundingBox), old(lastBoundingBox));
                var v := Accelerate(old(velocity), ops.distance(center, chad.center),
                                    ops.direction(old(pos), chad.pos), physics.gravityAcc, clockTick);
                Motion(pos, velocity, boundingBox, lastBoundingBox)
                == physics.terrain(Move(before, v, clockTick, scaledSize), scaledSize)
    {
      collected := false;
      credited := None;
      if ops.collide(boundingBox, chad.boundingBox) {
        credited := Collect();
        collected := true;
      }

      if hasGravity {
        var chadDist := ops.distance(center, chad.center);
        if chadDist < MAGNET_RADIUS {
          var chadDir := ops.direction(pos, chad.pos);
          var speedMultiplier := chadDist / MAGNET_DIVISOR;
          velocity := Add(velocity, Scale(chadDir, speedMultiplier));
        } else {
          velocity := Add(velocity, Vector(0.0, physics.gravityAcc * clockTick));
        }
        assert velocity == Accelerate(old(velocity), chadDist, ops.direction(old(pos), chad.pos),
                                      physics.gravityAcc, clockTick);

        pos := Add(pos, Scale(velocity, clockTick));

        lastBoundingBox := boundingBox;
        boundingBox := Box(pos, scaledSize);
        assert Motion(pos, velocity, boundingBox, lastBoundingBox)
            == Move(Motion(old(pos), old(velocity), old(boundingBox), old(lastBoundingBox)), velocity, clockTick, scaledSize);

        var corrected := physics.terrain(Motion(pos, velocity, boundingBox, lastBoundingBox), scaledSize);
        pos, velocity := corrected.pos, corrected.velocity;
        boundingBox, lastBoundingBox := corrected.boundingBox, corrected.lastBoundingBox;
      }
    }
  }
}
