/** The guard agent (`StandardAI`): its fields, its hitbox and collision query, and the helpers
    for facing, normalising, reaching a patrol target and placing an agent on a track. */
module Agents {
  import opened Geometry
  import opened Mazes
  import opened Movement

  const DEFAULT_SIZE: int := 6
  const VISION_DISTANCE: real := 120.0
  const STANDARD_SPEED: real := 60.0
  const RUNNING_SPEED: real := 180.0
  /** The default `thresh` of `reached_patrol_target`, in pixels. */
  const REACH_THRESHOLD: real := 4.0

  /** The part of an agent's state that a tick reads and writes: top-left position, facing,
      chase flag, patrol endpoints and current patrol target (`None` where the source has `None`). */
  datatype Motion = Motion(pos: Vec, facing: Vec, chasing: bool, endA: Option<Vec>, endB: Option<Vec>, target: Option<Vec>)

  /** The fixed attributes of an agent that a tick reads: hitbox size and the two speeds. */
  datatype Body = Body(size: int, standardSpeed: real, runningSpeed: real)

  /** `_normalize(dx, dy)`: the unit vector along `d`, or `None` (the source's `(None, None)`)
      exactly when `d` is the zero vector. */
  function Normalize(lib: MathLib, d: Vec): (r: Option<Vec>)
    requires Sound(lib)
    ensures r.None? <==> d == Zero
  {
    var mag := Length(lib, d);
    if mag == 0.0 then None
    else Some(Vec(d.x / mag, d.y / mag))
  }

  /** A normalised vector has length one and points along the original: scaled back by the
      original's length it gives the original. */
  lemma NormalizeUnit(lib: MathLib, d: Vec)
    requires Sound(lib) && d != Zero
    ensures NormSq(Normalize(lib, d).value) == 1.0
    ensures Scale(Normalize(lib, d).value, Length(lib, d)) == d
  {
    LengthSquared(lib, d);
    UnitLength(d.x, d.y, Length(lib, d));
  }

  /** `_set_facing_toward` as a value: the direction from `pos` toward `target`, or the old
      facing when the target is at `pos`. */
  function FacingToward(lib: MathLib, pos: Vec, facing: Vec, target: Vec): (r: Vec)
    requires Sound(lib)
    ensures target == pos ==> r == facing
  {
    match Normalize(lib, Sub(target, pos))
    case None => facing
    case Some(n) => n
  }

  /** Facing a target elsewhere gives the unit vector from the position toward it. */
  lemma FacingTowardUnit(lib: MathLib, pos: Vec, facing: Vec, target: Vec)
    requires Sound(lib) && target != pos
    ensures var r := FacingToward(lib, pos, facing, target);
      NormSq(r) == 1.0 && Scale(r, Length(lib, Sub(target, pos))) == Sub(target, pos)
  {
    NormalizeUnit(lib, Sub(target, pos));
  }

  /** `reached_patrol_target(thresh)`: false without a target, otherwise whether the target is
      within `thresh` pixels, decided here on squared distances. */
  function Reached(lib: MathLib, pos: Vec, target: Option<Vec>, thresh: real): (r: bool)
    requires Sound(lib)
    ensures target.None? ==> !r
    ensures target.Some? ==> (r <==> thresh >= 0.0 && NormSq(Sub(target.value, pos)) <= Sq(thresh))
  {
    match target
    case None => false
    case Some(t) =>
      LengthAtMost(lib, Sub(t, pos), thresh);
      Length(lib, Sub(t, pos)) <= thresh
  }

  /** The point at parameter `t` on the segment from `a` to `b`, as `on_track` computes it. */
  function Lerp(a: Vec, b: Vec, t: real): (r: Vec)
    ensures t == 0.0 ==> r == a
    ensures t == 1.0 ==> r == b
    ensures Sub(r, a) == Scale(Sub(b, a), t)
  {
    Vec(a.x + (b.x - a.x) * t, a.y + (b.y - a.y) * t)
  }

  /** A guard agent. Position, facing, chase flag and patrol fields change in place; the size,
      vision parameters and speeds are set once. */
  class Agent {
    var x: real
    var y: real
    const size: int
    var facing: Vec
    const visionDistance: real
    const visionAngle: real
    const standardSpeed: real
    const runningSpeed: real
    var chasing: bool
    var patrolEndA: Option<Vec>
    var patrolEndB: Option<Vec>
    var patrolTarget: Option<Vec>
    const cosHalfVision: real

    /** `StandardAI(x, y, size)`: facing right, not chasing, no patrol endpoints or target. */
    constructor(x: real, y: real, size: int, lib: MathLib)
      ensures this.x == x && this.y == y && this.size == size
      ensures facing == Vec(1.0, 0.0) && !chasing
      ensures patrolEndA.None? && patrolEndB.None? && patrolTarget.None?
      ensures visionDistance == VISION_DISTANCE && visionAngle == lib.pi / 2.0
      ensures standardSpeed == STANDARD_SPEED && runningSpeed == RUNNING_SPEED
      ensures cosHalfVision == lib.cos(visionAngle / 2.0)
    {
      this.x := x;
      this.y := y;
      this.size := size;
      facing := Vec(1.0, 0.0);
      visionDistance := VISION_DISTANCE;
      visionAngle := lib.pi / 2.0;
      standardSpeed := STANDARD_SPEED;
      runningSpeed := RUNNING_SPEED;
      chasing := false;
      patrolEndA := None;
      patrolEndB := None;
      patrolTarget := None;
      cosHalfVision := lib.cos(lib.pi / 2.0 / 2.0);
    }

    function Position(): Vec
      reads this
    {
      Vec(x, y)
    }

    function State(): Motion
      reads this
    {
      Motion(Vec(x, y), facing, chasing, patrolEndA, patrolEndB, patrolTarget)
    }

    function Attributes(): Body
    {
      Body(size, standardSpeed, runningSpeed)
    }

    /** `get_rect`. */
    function Hitbox(): Rect
      reads this
    {
      HitboxAt(Vec(x, y), size)
    }

    /** `_collides_with_wall`: the tiles from the hitbox's top-left pixel to its last pixel
        inside (`right - 1`, `bottom - 1`) are searched for one out of bounds or a wall. */
    method CollidesWithWall(maze: Maze) returns (hit: bool)
      requires maze.Valid()
      ensures hit <==> !Free(maze, LastInside, size, Position())
    {
      var rect := Hitbox();
      var leftTile := rect.left / maze.tileSize;
      var rightTile := (rect.Right() - 1) / maze.tileSize;
      var topTile := rect.top / maze.tileSize;
      var bottomTile := (rect.Bottom() - 1) / maze.tileSize;
      hit := SearchSpan(maze, Span(topTile, bottomTile, leftTile, rightTile));
    }

    /** `_set_facing_toward(target)`: only the facing changes, and only when the target is not
        at the agent's position. */
    method SetFacingToward(target: Vec, lib: MathLib)
      requires Sound(lib)
      modifies this
      ensures facing == FacingToward(lib, old(Position()), old(facing), target)
      ensures x == old(x) && y == old(y) && chasing == old(chasing)
      ensures patrolEndA == old(patrolEndA) && patrolEndB == old(patrolEndB) && patrolTarget == old(patrolTarget)
    {
      var n := Normalize(lib, Sub(target, Vec(x, y)));
      if n.Some? {
        facing := n.value;
      }
    }

    /** `reached_patrol_target(thresh)` on this agent. */
    function ReachedPatrolTarget(lib: MathLib, thresh: real): bool
      requires Sound(lib)
      reads this
    {
      Reached(lib, Vec(x, y), patrolTarget, thresh)
    }

    /** `on_track(endA, endB, random_t, size)`: a new agent at parameter `t` on the segment, with
        both endpoints set, heading for the endpoint the caller's random choice picks. */
    static method OnTrack(endA: Vec, endB: Vec, t: real, size: int, pickB: bool, lib: MathLib) returns (a: Agent)
      requires Sound(lib)
      ensures fresh(a)
      ensures a.Position() == Lerp(endA, endB, t) && a.size == size && !a.chasing
      ensures a.patrolEndA == Some(endA) && a.patrolEndB == Some(endB)
      ensures a.patrolTarget == Some(if pickB then endB else endA)
      ensures a.facing == FacingToward(lib, Lerp(endA, endB, t), Vec(1.0, 0.0), a.patrolTarget.value)
      ensures a.standardSpeed == STANDARD_SPEED && a.runningSpeed == RUNNING_SPEED
      ensures a.visionDistance == VISION_DISTANCE && a.visionAngle == lib.pi / 2.0
      ensures a.cosHalfVision == lib.cos(a.visionAngle / 2.0)
    {
      var x := endA.x + (endB.x - endA.x) * t;
      var y := endA.y + (endB.y - endA.y) * t;
      a := new Agent(x, y, size, lib);
      a.patrolEndA := Some(endA);
      a.patrolEndB := Some(endB);
      a.patrolTarget := if pickB then a.patrolEndB else a.patrolEndA;
      a.SetFacingToward(a.patrolTarget.value, lib);
    }
  }
}
