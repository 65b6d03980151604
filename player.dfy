/** The player: keyboard direction input scaled on diagonals, then the same X-then-Y move with
    undo on collision as the agents, but with the player's own tile rule (the far edge taken at
    `right`/`bottom`, not one pixel inside). No clamp and no `dt` guard. */
module Players {
  import opened Geometry
  import opened Mazes
  import opened Movement

  const PLAYER_SIZE: int := 28
  const PLAYER_SPEED: real := 180.0
  /** The factor applied to each component of a diagonal input, an approximation of `1/sqrt(2)`. */
  const DIAGONAL: real := 0.7071

  /** The displacement for one update: direction input `(dx, dy)`, each component scaled by
      `DIAGONAL` when both are non-zero, times `speed * dt`. */
  function InputMove(dx: int, dy: int, speed: real, dt: real): Vec
  {
    Scale(KeyVector(dx, dy), speed * dt)
  }

  /** For keyboard input (each component -1, 0 or 1) the diagonal scaling keeps the move from
      being longer than `speed * dt`, the length of a single-axis move. */
  lemma DiagonalNotFaster(dx: int, dy: int, speed: real, dt: real)
    requires -1 <= dx <= 1 && -1 <= dy <= 1
    ensures NormSq(InputMove(dx, dy, speed, dt)) <= Sq(speed * dt)
  {
    var u := KeyVector(dx, dy);
    assert InputMove(dx, dy, speed, dt) == Scale(u, speed * dt);
    KeyVectorAtMostOne(dx, dy);
    ShortScaled(u, speed * dt);
  }

  /** The squared length of the move is that of the key direction times `(speed * dt)^2`:
      with `KeyVectorLength`, exactly `speed * dt` on one axis and `0.7071 * sqrt(2)` of it on
      a diagonal. */
  lemma InputMoveLength(dx: int, dy: int, speed: real, dt: real)
    ensures NormSq(InputMove(dx, dy, speed, dt)) == NormSq(KeyVector(dx, dy)) * Sq(speed * dt)
  {
    NormSqScale(KeyVector(dx, dy), speed * dt);
  }

  /** A vector no longer than one, scaled by `k`, is no longer than `|k|`. */
  lemma ShortScaled(u: Vec, k: real)
    requires NormSq(u) <= 1.0
    ensures NormSq(Scale(u, k)) <= Sq(k)
  {
    NormSqScale(u, k);
    SqNonNeg(k);
    ScaledAtMost(NormSq(Scale(u, k)), NormSq(u), Sq(k));
  }

  /** A non-negative quantity scaled by a factor in `[0, 1]` does not grow. */
  lemma ScaledAtMost(a: real, n: real, q: real)
    requires a == n * q && 0.0 <= n <= 1.0 && q >= 0.0
    ensures a <= q
  {
    ProductNonNeg(q - a, 1.0 - n, q);
  }

  /** The direction input after diagonal scaling, before multiplying by `speed * dt`. */
  function KeyVector(dx: int, dy: int): Vec
  {
    var f := if dx != 0 && dy != 0 then DIAGONAL else 1.0;
    Vec(dx as real * f, dy as real * f)
  }

  /** The squared length of a scaled key direction: 0 with no input, 1 on one axis, and
      `2 * DIAGONAL^2`, just under 1, on a diagonal. */
  lemma KeyVectorLength(dx: int, dy: int)
    requires -1 <= dx <= 1 && -1 <= dy <= 1
    ensures dx == 0 && dy == 0 ==> NormSq(KeyVector(dx, dy)) == 0.0
    ensures (dx == 0) != (dy == 0) ==> NormSq(KeyVector(dx, dy)) == 1.0
    ensures dx != 0 && dy != 0 ==> NormSq(KeyVector(dx, dy)) == 2.0 * Sq(DIAGONAL)
    ensures NormSq(KeyVector(dx, dy)) <= 1.0
  {
    KeySq(dx);
    KeySq(dy);
    if dx == 0 || dy == 0 {
      assert KeyVector(dx, dy) == Vec(dx as real, dy as real);
    } else {
      assert KeyVector(dx, dy) == Vec(dx as real * DIAGONAL, dy as real * DIAGONAL);
      SqMul(dx as real, DIAGONAL);
      SqMul(dy as real, DIAGONAL);
      assert Sq(DIAGONAL) == 0.49999041;
    }
  }

  /** A scaled key direction is never longer than one. */
  lemma KeyVectorAtMostOne(dx: int, dy: int)
    requires -1 <= dx <= 1 && -1 <= dy <= 1
    ensures 0.0 <= NormSq(KeyVector(dx, dy)) <= 1.0
  {
    KeyVectorLength(dx, dy);
  }

  /** A key direction `-1`, `0` or `1` squares to `0` or `1`. */
  lemma KeySq(d: int)
    requires -1 <= d <= 1
    ensures Sq(d as real) == if d == 0 then 0.0 else 1.0
  {
  }

  /** Scaling a vector by `k` scales its squared length by `k*k`. */
  lemma NormSqScale(u: Vec, k: real)
    ensures NormSq(Scale(u, k)) == NormSq(u) * Sq(k)
  {
    SqMul(u.x, k);
    SqMul(u.y, k);
  }

  /** The player. Only the position changes; size and speed are set once. */
  class Player {
    var x: real
    var y: real
    const size: int
    const speed: real

    /** `Player(x, y, size=28, speed=180)`, the position stored as floats. */
    constructor(x: real, y: real, size: int := PLAYER_SIZE, speed: real := PLAYER_SPEED)
      ensures this.x == x && this.y == y && this.size == size && this.speed == speed
    {
      this.x := x;
      this.y := y;
      this.size := size;
      this.speed := speed;
    }

    function Position(): Vec
      reads this
    {
      Vec(x, y)
    }

    /** `get_rect`, with the position truncated as for the agents. */
    function Hitbox(): Rect
      reads this
    {
      HitboxAt(Vec(x, y), size)
    }

    /** `_collides_with_wall`: the tiles from the hitbox's top-left pixel to its `right` and
        `bottom` edges are searched for one out of bounds or a wall. */
    method CollidesWithWall(maze: Maze) returns (hit: bool)
      requires maze.Valid()
      ensures hit <==> !Free(maze, FirstOutside, size, Position())
    {
      var rect := Hitbox();
      var leftTile := rect.left / maze.tileSize;
      var rightTile := rect.Right() / maze.tileSize;
      var topTile := rect.top / maze.tileSize;
      var bottomTile := rect.Bottom() / maze.tileSize;
      hit := SearchSpan(maze, Span(topTile, bottomTile, leftTile, rightTile));
    }

    /** `update(dt, maze, dx, dy)`: move along X and undo on collision, then along Y and undo on
        collision. The position ends where `AxisMove` under the player's rule puts it. */
    method Update(dt: real, maze: Maze, dx: int, dy: int)
      requires maze.Valid()
      modifies this
      ensures Vec(x, y) == AxisMove(maze, FirstOutside, size, Vec(old(x), old(y)), InputMove(dx, dy, speed, dt))
    {
      var fx := dx as real;
      var fy := dy as real;
      if dx != 0 && dy != 0 {
        fx := fx * DIAGONAL;
        fy := fy * DIAGONAL;
      }
      var moveX := fx * speed * dt;
      var moveY := fy * speed * dt;
      assert Vec(moveX, moveY) == InputMove(dx, dy, speed, dt);
      MoveAxes(maze, Vec(moveX, moveY));
    }

    /** The X step with undo, then the Y step with undo. */
    method MoveAxes(maze: Maze, move: Vec)
      requires maze.Valid()
      modifies this
      ensures Vec(x, y) == AxisMove(maze, FirstOutside, size, Vec(old(x), old(y)), move)
    {
      MoveX(maze, move.x);
      MoveY(maze, move.y);
    }

    /** Add `dx` to `x`, and subtract it again on collision. */
    method MoveX(maze: Maze, dx: real)
      requires maze.Valid()
      modifies this
      ensures Vec(x, y) == AxisStep(maze, FirstOutside, size, Vec(old(x), old(y)), Vec(dx, 0.0))
    {
      ghost var start := Vec(x, y);
      x := x + dx;
      assert Add(start, Vec(dx, 0.0)) == Vec(x, y);
      var hit := CollidesWithWall(maze);
      if hit {
        x := x - dx;
      }
    }

    /** Add `dy` to `y`, and subtract it again on collision. */
    method MoveY(maze: Maze, dy: real)
      requires maze.Valid()
      modifies this
      ensures Vec(x, y) == AxisStep(maze, FirstOutside, size, Vec(old(x), old(y)), Vec(0.0, dy))
    {
      ghost var start := Vec(x, y);
      y := y + dy;
      assert Add(start, Vec(0.0, dy)) == Vec(x, y);
      var hit := CollidesWithWall(maze);
      if hit {
        y := y - dy;
      }
    }
  }

  /** With no input the player stays exactly where it is, even inside a wall. */
  lemma UpdateIdle(maze: Maze, size: int, p: Vec, speed: real, dt: real)
    requires maze.Valid()
    ensures AxisMove(maze, FirstOutside, size, p, InputMove(0, 0, speed, dt)) == p
  {
    AxisMoveZero(maze, FirstOutside, size, p);
  }

  /** A player whose hitbox is collision-free stays collision-free, whatever the input and `dt`. */
  lemma UpdateStaysFree(maze: Maze, size: int, p: Vec, dx: int, dy: int, speed: real, dt: real)
    requires maze.Valid() && Free(maze, FirstOutside, size, p)
    ensures Free(maze, FirstOutside, size, AxisMove(maze, FirstOutside, size, p, InputMove(dx, dy, speed, dt)))
  {
    AxisMoveKeepsFree(maze, FirstOutside, size, p, InputMove(dx, dy, speed, dt));
  }
}
