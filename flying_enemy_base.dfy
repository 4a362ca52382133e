/**
 * The waypoint patrol controller of flying enemies.
 *
 * The enemy's path is given relative to its spawn point and converted to
 * absolute coordinates once. The controller keeps the index of the node it
 * is flying to; on arrival it re-targets a neighbouring node (the only one at
 * an end of the path, a random one in the interior) and every update moves
 * the enemy toward the current target at its speed.
 *
 * `Math.random() > 0.5` is the caller-supplied bit `coin`; distance and the
 * unit vector come from `Geometry.Oracles`.
 */
module FlyingEnemies {
  import opened Geometry
  import opened Options

  // ---------------------------------------------------------------------------
  // Paths

  /** Converts a path relative to `pos` into absolute coordinates, node by node. */
  function RelativeToAbsolute(path: seq<Vector>, pos: Vector): (r: seq<Vector>)
    ensures |r| == |path|
    ensures forall i :: 0 <= i < |r| ==> r[i] == Add(path[i], pos)
  {
    seq(|path|, i requires 0 <= i < |path| => Add(path[i], pos))
  }

  /** The inverse conversion: each node's offset from `pos`. */
  function AbsoluteToRelative(path: seq<Vector>, pos: Vector): (r: seq<Vector>)
    ensures |r| == |path|
    ensures forall i :: 0 <= i < |r| ==> r[i] == Sub(path[i], pos)
  {
    seq(|path|, i requires 0 <= i < |path| => Sub(path[i], pos))
  }

  /** Converting to absolute coordinates loses nothing: converting back gives the path. */
  lemma RelativeRoundTrip(path: seq<Vector>, pos: Vector)
    ensures AbsoluteToRelative(RelativeToAbsolute(path, pos), pos) == path
  {
    var r := AbsoluteToRelative(RelativeToAbsolute(path, pos), pos);
    assert forall i :: 0 <= i < |path| ==> r[i] == path[i];
  }

  // The path presets, relative to the spawn point.

  function StraightLine(): seq<Vector>
  {
    [Vector(0.0, 0.0), Vector(400.0, 0.0)]
  }

  function ZigZag(): seq<Vector>
  {
    [Vector(0.0, 0.0), Vector(200.0, 200.0), Vector(400.0, 0.0), Vector(200.0, -200.0), Vector(0.0, 0.0)]
  }

  function SineWave(): seq<Vector>
  {
    [Vector(0.0, 0.0), Vector(200.0, 200.0), Vector(400.0, 0.0), Vector(600.0, -200.0), Vector(800.0, 0.0)]
  }

  function Circle(): seq<Vector>
  {
    [Vector(0.0, 0.0), Vector(200.0, 200.0), Vector(400.0, 0.0), Vector(200.0, -200.0), Vector(0.0, 0.0)]
  }

  function UpAndDown(): seq<Vector>
  {
    [Vector(0.0, 0.0), Vector(0.0, 200.0), Vector(0.0, 0.0)]
  }

  function LeftAndRight(): seq<Vector>
  {
    [Vector(0.0, 0.0), Vector(200.0, 0.0), Vector(0.0, 0.0)]
  }

  /** The jump presets differ only in the jump distance. */
  function Jump(jumpDistance: real): seq<Vector>
  {
    [Vector(0.0, 0.0), Vector(0.0, -jumpDistance / 4.0), Vector(0.0, -jumpDistance), Vector(0.0, 0.0)]
  }

  function JumpSmall(): seq<Vector> { Jump(200.0) }
  function JumpMedium(): seq<Vector> { Jump(400.0) }
  function JumpBig(): seq<Vector> { Jump(600.0) }

  function Presets(): seq<seq<Vector>>
  {
    [StraightLine(), ZigZag(), SineWave(), Circle(), UpAndDown(), LeftAndRight(),
     JumpSmall(), JumpMedium(), JumpBig()]
  }

  /**
   * Every preset has at least two nodes and begins at the spawn point; the
   * circle preset is the zig-zag preset node for node.
   */
  lemma PresetShapes()
    ensures forall k :: 0 <= k < |Presets()| ==> |Presets()[k]| >= 2 && Presets()[k][0] == Origin
    ensures Circle() == ZigZag()
    ensures JumpBig()[1] == Vector(0.0, -150.0) && JumpBig()[2] == Vector(0.0, -600.0)
  {
  }

  // ---------------------------------------------------------------------------
  // The start index

  /** `!this.target` holds of an unset target and of index 0 alike. */
  predicate Falsy(target: Option<nat>)
  {
    target.None? || target.value == 0
  }

  /**
   * The target after the start loop has looked at nodes `0 .. k-1`.
   * `closer(i, t)` stands for the loop's comparison of the distance to the
   * relative node `i` with the distance to the index `t`.
   */
  function Scan(k: nat, closer: (nat, nat) -> bool): (r: Option<nat>)
    ensures r.None? <==> k == 0
    ensures r.Some? ==> r.value < k
  {
    if k == 0 then None
    else
      var t := Scan(k - 1, closer);
      if Falsy(t) || closer(k - 1, t.value) then Some(k - 1) else t
  }

  /**
   * The constructor's start loop over a path of `n` nodes. Because index 0 is
   * falsy, node 1 always overwrites node 0: a one-node path starts at 0, a
   * longer path at an index in `1 .. n-1`, and an empty path leaves the target unset.
   */
  method StartIndex(n: nat, closer: (nat, nat) -> bool) returns (target: Option<nat>)
    ensures target == Scan(n, closer)
    ensures target.None? <==> n == 0
    ensures n == 1 ==> target == Some(0)
    ensures n >= 2 ==> target.Some? && 1 <= target.value < n
  {
    target := None;
    var i := 0;
    while i < n
      invariant 0 <= i <= n
      invariant target == Scan(i, closer)
      invariant target.None? <==> i == 0
      invariant i == 1 ==> target == Some(0)
      invariant i >= 2 ==> target.Some? && 1 <= target.value < i
    {
      if Falsy(target) || closer(i, target.value) {
        target := Some(i);
      }
      i := i + 1;
    }
  }

  /**
   * When the comparison never succeeds (a distance to a bare number is not a
   * number, so `<` is false), every path of two or more nodes starts at node 1.
   */
  lemma {:induction false} NeverCloserStartsAtOne(n: nat, closer: (nat, nat) -> bool)
    requires forall i: nat, t: nat :: !closer(i, t)
    requires n >= 2
    ensures Scan(n, closer) == Some(1)
  {
    if n > 2 {
      NeverCloserStartsAtOne(n - 1, closer);
    }
  }

  // ---------------------------------------------------------------------------
  // Re-targeting

  /**
   * The index of the next target. Off arrival nothing changes; on arrival an
   * interior node steps by one (back when the coin is set), the last node
   * steps back, the first steps forward, and a one-node path stays put.
   */
  function Retarget(target: nat, n: nat, arrived: bool, coin: bool): (r: nat)
    requires target < n
    ensures r < n
    ensures r != target <==> arrived && n >= 2
    ensures arrived && 0 < target < n - 1 ==> r == if coin then target - 1 else target + 1
    ensures arrived && n >= 2 && target == n - 1 ==> r == n - 2
    ensures arrived && n >= 2 && target == 0 ==> r == 1
  {
    if !arrived then target
    else
      var hasPrev := target > 0;
      var hasNext := target < n - 1;
      if hasPrev && hasNext then (if coin then target - 1 else target + 1)
      else if hasPrev then target - 1
      else if hasNext then target + 1
      else target
  }

  /** One arrival flag and one random bit per update. */
  datatype Roll = Roll(arrived: bool, coin: bool)

  /**
   * The target after a series of updates: it never leaves the path, and on a
   * one-node path it never changes.
   */
  function Patrol(target: nat, n: nat, rolls: seq<Roll>): (r: nat)
    requires target < n
    ensures r < n
    ensures n == 1 ==> r == target
    decreases |rolls|
  {
    if rolls == [] then target
    else Patrol(Retarget(target, n, rolls[0].arrived, rolls[0].coin), n, rolls[1..])
  }

  // ---------------------------------------------------------------------------
  // The controller

  /** The enemy the controller drives: the fields the controller reads and moves. */
  class Enemy {
    var pos: Vector
    var isDead: bool
    var scaledSize: Vector
    var speed: real

    constructor (pos: Vector, scaledSize: Vector, speed: real)
      ensures this.pos == pos && this.scaledSize == scaledSize && this.speed == speed && !isDead
    {
      this.pos := pos;
      this.scaledSize := scaledSize;
      this.speed := speed;
      isDead := false;
    }
  }

  class FlyingEnemyBase {
    const enemy: Enemy
    /** The path in absolute coordinates. */
    const path: seq<Vector>
    var target: nat

    predicate Valid()
      reads this
    {
      target < |path|
    }

    /**
     * Converts the path and runs the start loop. An empty path would leave the
     * target unset, and the first update would index the path with it.
     */
    constructor (enemy: Enemy, pos: Vector, relativePath: seq<Vector>, closer: (nat, nat) -> bool)
      requires |relativePath| > 0
      ensures Valid()
      ensures this.enemy == enemy
      ensures path == RelativeToAbsolute(relativePath, pos)
      ensures Scan(|relativePath|, closer) == Some(target)
    {
      this.enemy := enemy;
      path := RelativeToAbsolute(relativePath, pos);
      var start := StartIndex(|relativePath|, closer);
      target := start.value;
    }

    /** The facing: 1 when the target lies right of the enemy's centre, else -1. */
    function GetDirection(center: Vector): (r: int)
      requires Valid()
      reads this
      ensures r == 1 <==> path[target].x > center.x
      ensures r == -1 <==> path[target].x <= center.x
    {
      if path[target].x - center.x > 0.0 then 1 else -1
    }

    /**
     * One update: nothing when the enemy is dead; otherwise re-target when the
     * enemy is within half its width of the target, then move it toward the
     * (new) target by `speed * clockTick`.
     */
    method Update(clockTick: real, coin: bool, ops: Oracles)
      requires Valid()
      modifies this`target, enemy`pos
      ensures Valid()
      ensures old(enemy.isDead) ==> target == old(target) && enemy.pos == old(enemy.pos)
      ensures !old(enemy.isDead) ==>
                target == Retarget(old(target), |path|,
                                   ops.distance(old(enemy.pos), path[old(target)]) < enemy.scaledSize.x / 2.0, coin)
      ensures !old(enemy.isDead) ==>
                enemy.pos == Add(old(enemy.pos),
                                 Scale(ops.unit(Sub(path[target], old(enemy.pos))), enemy.speed * clockTick))
    {
      if enemy.isDead {
        return;
      }

      if ops.distance(enemy.pos, path[target]) < enemy.scaledSize.x / 2.0 {
        var hasPrev := target > 0;
        var hasNext := target < |path| - 1;
        if hasPrev && hasNext {
          target := if coin then target - 1 else target + 1;
        } else if hasPrev {
          target := target - 1;
        } else if hasNext {
          target := target + 1;
        }
      }

      var velocity := Scale(ops.unit(Sub(path[target], enemy.pos)), enemy.speed * clockTick);
      enemy.pos := Add(enemy.pos, velocity);
    }
  }
}
