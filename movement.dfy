/** Axis-separated movement with undo on collision, shared by the guard agents and the player,
    and the final clamp of an agent into the maze's pixel bounds. */
module Movement {
  import opened Geometry
  import opened Mazes
  import opened Utils

  /** `get_rect`: the square hitbox whose top-left corner is the truncated position. */
  function HitboxAt(p: Vec, size: int): Rect
  {
    Rect(Trunc(p.x), Trunc(p.y), size, size)
  }

  /** The hitbox of a body of this size at `p` does not collide under the rule. */
  ghost predicate Free(m: Maze, rule: EdgeRule, size: int, p: Vec)
    requires m.Valid()
  {
    !HitboxBlocked(m, rule, HitboxAt(p, size))
  }

  /** One axis of a move: add the displacement, and take it back off if the hitbox then
      collides. With exact arithmetic taking it back off returns to exactly `p`. */
  ghost function AxisStep(m: Maze, rule: EdgeRule, size: int, p: Vec, d: Vec): Vec
    requires m.Valid()
  {
    var q := Add(p, d);
    if Free(m, rule, size, q) then q else p
  }

  /** One tick of movement: the X step with undo, then the Y step with undo from wherever the X
      step left the body. */
  ghost function AxisMove(m: Maze, rule: EdgeRule, size: int, p: Vec, move: Vec): Vec
    requires m.Valid()
  {
    AxisStep(m, rule, size, AxisStep(m, rule, size, p, Vec(move.x, 0.0)), Vec(0.0, move.y))
  }

  /** A collision-free body stays collision-free, whatever the displacement. */
  lemma AxisMoveKeepsFree(m: Maze, rule: EdgeRule, size: int, p: Vec, move: Vec)
    requires m.Valid() && Free(m, rule, size, p)
    ensures Free(m, rule, size, AxisMove(m, rule, size, p, move))
  {
  }

  /** Each axis takes its whole displacement or none of it. */
  lemma AxisMoveWholeSteps(m: Maze, rule: EdgeRule, size: int, p: Vec, move: Vec)
    requires m.Valid()
    ensures var q := AxisMove(m, rule, size, p, move);
      (q.x == p.x + move.x || q.x == p.x) && (q.y == p.y + move.y || q.y == p.y)
  {
  }

  /** When neither axis step collides, the body advances by exactly the displacement. */
  lemma AxisMoveUnblocked(m: Maze, rule: EdgeRule, size: int, p: Vec, move: Vec)
    requires m.Valid()
    requires Free(m, rule, size, Vec(p.x + move.x, p.y)) && Free(m, rule, size, Add(p, move))
    ensures AxisMove(m, rule, size, p, move) == Add(p, move)
  {
  }

  /** A blocked X step is undone exactly and does not stop the Y step: the body slides. */
  lemma AxisMoveSlides(m: Maze, rule: EdgeRule, size: int, p: Vec, move: Vec)
    requires m.Valid()
    requires !Free(m, rule, size, Vec(p.x + move.x, p.y)) && Free(m, rule, size, Vec(p.x, p.y + move.y))
    ensures AxisMove(m, rule, size, p, move) == Vec(p.x, p.y + move.y)
  {
  }

  /** With both axis steps blocked the body stays where it was. */
  lemma AxisMoveBlocked(m: Maze, rule: EdgeRule, size: int, p: Vec, move: Vec)
    requires m.Valid()
    requires !Free(m, rule, size, Vec(p.x + move.x, p.y)) && !Free(m, rule, size, Vec(p.x, p.y + move.y))
    ensures AxisMove(m, rule, size, p, move) == p
  {
  }

  /** A zero displacement leaves the body where it was, colliding or not. */
  lemma AxisMoveZero(m: Maze, rule: EdgeRule, size: int, p: Vec)
    requires m.Valid()
    ensures AxisMove(m, rule, size, p, Zero) == p
  {
  }

  // ----- the agents' clamp -----

  /** `clamp(v, 0, max(0, extent - size))`: the agent's final clamp on one axis. */
  function ClampAxis(v: real, extent: int, size: int): (r: real)
    ensures 0.0 <= r <= MaxInt(0, extent - size) as real
  {
    Clamp(v, 0.0, MaxInt(0, extent - size) as real)
  }

  /** A collision-free agent hitbox (agents' rule, non-empty) lies inside the maze's pixel extent. */
  lemma FreeHitboxInside(m: Maze, size: int, p: Vec)
    requires m.Valid() && size >= 1 && Free(m, LastInside, size, p)
    ensures 0 <= Trunc(p.x) && Trunc(p.x) + size <= m.width
    ensures 0 <= Trunc(p.y) && Trunc(p.y) + size <= m.height
  {
    var ts := m.tileSize;
    var rect := HitboxAt(p, size);
    var s := TileSpan(m, LastInside, rect);
    DivMono(rect.left, rect.Right() - 1, ts);
    DivMono(rect.top, rect.Bottom() - 1, ts);
    assert !TileBlocked(m, s.top, s.left);
    assert !TileBlocked(m, s.bottom, s.right);
    DivGalois(0, rect.left, ts);
    DivGalois(0, rect.top, ts);
    DivGalois(m.cols, rect.Right() - 1, ts);
    DivGalois(m.rows, rect.Bottom() - 1, ts);
  }

  /** Clamping a coordinate whose truncated hitbox already lies within `[0, extent]` does not
      change the truncated coordinate. */
  lemma ClampAxisKeepsTrunc(v: real, extent: int, size: int)
    requires size >= 1 && 0 <= Trunc(v) && Trunc(v) + size <= extent
    ensures Trunc(ClampAxis(v, extent, size)) == Trunc(v)
  {
    var hi := extent - size;
    assert MaxInt(0, hi) == hi;
    if v < 0.0 {
      assert Trunc(v) == 0;
      assert ClampAxis(v, extent, size) == 0.0;
    } else if v > hi as real {
      assert ClampAxis(v, extent, size) == hi as real;
      assert Trunc(hi as real) == hi;
    }
  }

  /** The clamp never moves a collision-free agent's hitbox, so the agent stays collision-free. */
  lemma ClampKeepsFree(m: Maze, size: int, p: Vec)
    requires m.Valid() && size >= 1 && Free(m, LastInside, size, p)
    ensures var q := Vec(ClampAxis(p.x, m.width, size), ClampAxis(p.y, m.height, size));
      HitboxAt(q, size) == HitboxAt(p, size) && Free(m, LastInside, size, q)
  {
    FreeHitboxInside(m, size, p);
    ClampAxisKeepsTrunc(p.x, m.width, size);
    ClampAxisKeepsTrunc(p.y, m.height, size);
  }
}
