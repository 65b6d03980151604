/** `World.populate`: collect the maze's floor tiles in row-major order, then create the guard
    agents, each centred on a floor tile with two floor-tile patrol endpoints. The random choices
    are the caller's `Pick`s; the current state's maze is the world's `maze` field. */
module Worlds {
  import opened Geometry
  import opened Mazes
  import opened Movement
  import opened Agents
  import opened Patrol

  /** A grid position `(row, col)`. */
  datatype Tile = Tile(row: int, col: int)

  /** The random choices for one agent: indices (taken modulo the number of floor tiles) of its
      spawn tile and of its two endpoint tiles, and whether its first target is `endB`. */
  datatype Pick = Pick(spawn: nat, endA: nat, endB: nat, pickB: bool)

  // ----- the floor-tile scan -----

  /** The floor tiles among the first `c` columns of row `r`, left to right. */
  function RowFloorTiles(row: seq<int>, r: int, c: nat): seq<Tile>
    requires c <= |row|
  {
    if c == 0 then []
    else RowFloorTiles(row, r, c - 1) + (if row[c - 1] == FLOOR then [Tile(r, c - 1)] else [])
  }

  /** The floor tiles of the first `r` rows, in row-major order. */
  function FloorTilesBefore(m: Maze, r: nat): seq<Tile>
    requires m.Valid() && r <= m.rows
  {
    if r == 0 then []
    else FloorTilesBefore(m, r - 1) + RowFloorTiles(m.grid[r - 1], r - 1, m.cols)
  }

  /** `floor_tiles`: every floor tile of the maze, in row-major order. */
  function FloorTiles(m: Maze): seq<Tile>
    requires m.Valid()
  {
    FloorTilesBefore(m, m.rows)
  }

  /** The scan of `populate`: rows top to bottom, columns left to right, appending each floor tile. */
  method CollectFloorTiles(m: Maze) returns (tiles: seq<Tile>)
    requires m.Valid()
    ensures tiles == FloorTiles(m)
  {
    tiles := [];
    for r := 0 to m.rows
      invariant tiles == FloorTilesBefore(m, r)
    {
      for c := 0 to m.cols
        invariant tiles == FloorTilesBefore(m, r) + RowFloorTiles(m.grid[r], r, c)
      {
        if m.grid[r][c] == FLOOR {
          tiles := tiles + [Tile(r, c)];
        }
      }
    }
  }

  /** A tile is a floor tile of the maze. */
  predicate IsFloor(m: Maze, t: Tile)
    requires m.Valid()
  {
    0 <= t.row < m.rows && 0 <= t.col < m.cols && m.grid[t.row][t.col] == FLOOR
  }

  /** `a` comes strictly before `b` in row-major order. */
  predicate Precedes(a: Tile, b: Tile)
  {
    a.row < b.row || (a.row == b.row && a.col < b.col)
  }

  /** Strictly increasing in row-major order, so in particular without repeats. */
  predicate RowMajor(s: seq<Tile>)
  {
    forall i, j :: 0 <= i < j < |s| ==> Precedes(s[i], s[j])
  }

  lemma {:induction false} RowFloorExact(row: seq<int>, r: int, c: nat, t: Tile)
    requires c <= |row|
    ensures t in RowFloorTiles(row, r, c) <==> t.row == r && 0 <= t.col < c && row[t.col] == FLOOR
  {
    if c > 0 {
      RowFloorExact(row, r, c - 1, t);
    }
  }

  lemma {:induction false} RowFloorOrdered(row: seq<int>, r: int, c: nat)
    requires c <= |row|
    ensures RowMajor(RowFloorTiles(row, r, c))
    ensures forall t :: t in RowFloorTiles(row, r, c) ==> t.row == r && t.col < c
  {
    if c > 0 {
      RowFloorOrdered(row, r, c - 1);
    }
  }

  /** Joining two row-major runs, every element of the first before every element of the
      second, gives a row-major run. */
  lemma ConcatRowMajor(s: seq<Tile>, u: seq<Tile>)
    requires RowMajor(s) && RowMajor(u)
    requires forall a, b :: a in s && b in u ==> Precedes(a, b)
    ensures RowMajor(s + u)
  {
    forall i, j | 0 <= i < j < |s + u|
      ensures Precedes((s + u)[i], (s + u)[j])
    {
      if j < |s| {
        assert (s + u)[i] == s[i] && (s + u)[j] == s[j];
      } else if i < |s| {
        assert (s + u)[i] in s && (s + u)[j] in u;
      } else {
        assert (s + u)[i] == u[i - |s|] && (s + u)[j] == u[j - |s|];
      }
    }
  }

  /** `floor_tiles` holds exactly the floor tiles of the first `r` rows, in row-major order. */
  lemma {:induction false} FloorTilesBeforeExact(m: Maze, r: nat)
    requires m.Valid() && r <= m.rows
    ensures forall t :: t in FloorTilesBefore(m, r) <==> IsFloor(m, t) && t.row < r
    ensures RowMajor(FloorTilesBefore(m, r))
  {
    if r > 0 {
      FloorTilesBeforeExact(m, r - 1);
      var s := FloorTilesBefore(m, r - 1);
      var u := RowFloorTiles(m.grid[r - 1], r - 1, m.cols);
      RowFloorOrdered(m.grid[r - 1], r - 1, m.cols);
      forall t
        ensures t in u <==> IsFloor(m, t) && t.row == r - 1
      {
        RowFloorExact(m.grid[r - 1], r - 1, m.cols, t);
      }
      ConcatRowMajor(s, u);
    }
  }

  /** `floor_tiles` is exactly the set of floor tiles, each once, in row-major order. */
  lemma FloorTilesExact(m: Maze)
    requires m.Valid()
    ensures forall t :: t in FloorTiles(m) <==> IsFloor(m, t)
    ensures RowMajor(FloorTiles(m))
  {
    FloorTilesBeforeExact(m, m.rows);
  }

  // ----- spawn arithmetic -----

  /** The top-left corner that centres a `size`-pixel body on tile `t`:
      `col*ts + ts/2 - size/2`, and the same for the row, in true division. */
  function TileSpot(m: Maze, t: Tile, size: int): (r: Vec)
    ensures r.x + size as real / 2.0 == (t.col * m.tileSize) as real + m.tileSize as real / 2.0
    ensures r.y + size as real / 2.0 == (t.row * m.tileSize) as real + m.tileSize as real / 2.0
  {
    Vec((t.col * m.tileSize) as real + m.tileSize as real / 2.0 - size as real / 2.0,
        (t.row * m.tileSize) as real + m.tileSize as real / 2.0 - size as real / 2.0)
  }

  /** On one axis, a body no larger than a tile and centred on tile `k` spans only tile `k`:
      its truncated left edge and its last pixel inside both divide to `k`. */
  lemma CentredSpan(k: int, ts: int, size: int, v: real)
    requires 0 <= k && 1 <= size <= ts
    requires v == (k * ts) as real + ts as real / 2.0 - size as real / 2.0
    ensures Trunc(v) / ts == k && (Trunc(v) + size - 1) / ts == k
  {
    var base := k * ts;
    IntProductNonNeg(base, k, ts);
    assert base as real <= v;
    var left := Trunc(v);
    assert base <= left;
    assert left + size - 1 < base + ts;
    DivExact(k, left, ts);
    DivExact(k, left + size - 1, ts);
  }

  /** An agent centred on a floor tile, no larger than a tile, is collision-free. */
  lemma SpawnIsFree(m: Maze, t: Tile, size: int)
    requires m.Valid() && IsFloor(m, t) && 1 <= size <= m.tileSize
    ensures Free(m, LastInside, size, TileSpot(m, t, size))
  {
    SpotSpansOneTile(m, t, size);
    assert !TileBlocked(m, t.row, t.col);
    SingleTileSpan(m, t.row, t.col);
  }

  /** The collision query for an agent centred on tile `t` visits that tile alone. */
  lemma SpotSpansOneTile(m: Maze, t: Tile, size: int)
    requires 0 <= t.row && 0 <= t.col && 1 <= size <= m.tileSize
    ensures TileSpan(m, LastInside, HitboxAt(TileSpot(m, t, size), size)) == Span(t.row, t.row, t.col, t.col)
  {
    var p := TileSpot(m, t, size);
    CentredSpan(t.col, m.tileSize, size, p.x);
    CentredSpan(t.row, m.tileSize, size, p.y);
    var left, top := Trunc(p.x), Trunc(p.y);
    var rect := HitboxAt(p, size);
    assert rect == Rect(left, top, size, size);
    assert FarEdge(LastInside, rect.Right()) == left + size - 1;
    assert FarEdge(LastInside, rect.Bottom()) == top + size - 1;
  }

  /** A span of one tile blocks exactly when that tile does. */
  lemma SingleTileSpan(m: Maze, r: int, c: int)
    requires m.Valid()
    ensures SpanBlocked(m, Span(r, r, c, c)) <==> TileBlocked(m, r, c)
  {
  }

  /** The state `populate` gives one agent: at the spawn tile's centre, with endpoints at the
      centres of the two endpoint tiles, heading for the picked one and facing it, not chasing. */
  function SpawnMotion(lib: MathLib, m: Maze, tiles: seq<Tile>, p: Pick): (s: Motion)
    requires Sound(lib) && |tiles| > 0
    ensures !s.chasing && s.endA.Some? && s.endB.Some? && TargetOnTrack(s) && s.target.Some?
  {
    var spot := TileSpot(m, tiles[p.spawn % |tiles|], DEFAULT_SIZE);
    var a := TileSpot(m, tiles[p.endA % |tiles|], DEFAULT_SIZE);
    var b := TileSpot(m, tiles[p.endB % |tiles|], DEFAULT_SIZE);
    var t := if p.pickB then b else a;
    Motion(spot, FacingToward(lib, spot, Vec(1.0, 0.0), t), false, Some(a), Some(b), Some(t))
  }

  /** In a maze whose tiles fit an agent, every agent `populate` creates starts collision-free on
      a floor tile, and both its patrol endpoints are collision-free floor-tile centres. */
  lemma SpawnOnFloor(lib: MathLib, m: Maze, p: Pick)
    requires Sound(lib) && m.Valid() && |FloorTiles(m)| > 0 && DEFAULT_SIZE <= m.tileSize
    ensures var s := SpawnMotion(lib, m, FloorTiles(m), p);
      && (exists t :: IsFloor(m, t) && s.pos == TileSpot(m, t, DEFAULT_SIZE))
      && (exists t :: IsFloor(m, t) && s.endA.value == TileSpot(m, t, DEFAULT_SIZE))
      && (exists t :: IsFloor(m, t) && s.endB.value == TileSpot(m, t, DEFAULT_SIZE))
      && Free(m, LastInside, DEFAULT_SIZE, s.pos)
      && Free(m, LastInside, DEFAULT_SIZE, s.endA.value)
      && Free(m, LastInside, DEFAULT_SIZE, s.endB.value)
  {
    var tiles := FloorTiles(m);
    FloorTilesExact(m);
    var n := |tiles|;
    assert tiles[p.spawn % n] in tiles && tiles[p.endA % n] in tiles && tiles[p.endB % n] in tiles;
    assert IsFloor(m, tiles[p.spawn % n]) && IsFloor(m, tiles[p.endA % n]) && IsFloor(m, tiles[p.endB % n]);
    SpawnIsFree(m, tiles[p.spawn % n], DEFAULT_SIZE);
    SpawnIsFree(m, tiles[p.endA % n], DEFAULT_SIZE);
    SpawnIsFree(m, tiles[p.endB % n], DEFAULT_SIZE);
  }

  /** The fixed attributes `StandardAI(x, y, 6)` gives: size 6, speeds 60 and 180, vision 120 px
      and the cosine of a quarter turn as the cached half-angle cosine. */
  predicate StandardGuard(lib: MathLib, a: Agent)
  {
    && a.Attributes() == Body(DEFAULT_SIZE, STANDARD_SPEED, RUNNING_SPEED)
    && a.visionDistance == VISION_DISTANCE
    && a.cosHalfVision == lib.cos(lib.pi / 2.0 / 2.0)
  }

  /** One iteration of `populate`'s agent loop: the new agent with its spawn, endpoints, target
      and facing. */
  method Spawn(m: Maze, tiles: seq<Tile>, p: Pick, lib: MathLib) returns (a: Agent)
    requires Sound(lib) && |tiles| > 0
    ensures fresh(a) && a.State() == SpawnMotion(lib, m, tiles, p)
    ensures StandardGuard(lib, a)
  {
    var spot := TileSpot(m, tiles[p.spawn % |tiles|], DEFAULT_SIZE);
    a := new Agent(spot.x, spot.y, DEFAULT_SIZE, lib);
    var endA := TileSpot(m, tiles[p.endA % |tiles|], DEFAULT_SIZE);
    var endB := TileSpot(m, tiles[p.endB % |tiles|], DEFAULT_SIZE);
    a.patrolEndA := Some(endA);
    a.patrolEndB := Some(endB);
    a.patrolTarget := if p.pickB then a.patrolEndB else a.patrolEndA;
    a.SetFacingToward(a.patrolTarget.value, lib);
  }

  /** The world's agents and the maze of its current state (`None` when the state has none). */
  class World {
    var agents: seq<Agent>
    var maze: Option<Maze>

    constructor(maze: Option<Maze>)
      ensures agents == [] && this.maze == maze
    {
      agents := [];
      this.maze := maze;
    }

    /** `populate()`: nothing happens when there already are agents, when there is no maze or
        when the maze has no floor tile; otherwise `agentCount` new, distinct agents are
        appended, agent `i` placed as `picks[i]` chooses among the floor tiles. */
    method Populate(agentCount: nat, picks: seq<Pick>, lib: MathLib)
      requires Sound(lib) && |picks| == agentCount
      requires maze.Some? ==> maze.value.Valid()
      modifies this
      ensures maze == old(maze)
      ensures old(|agents|) > 0 || maze.None? || FloorTiles(maze.value) == [] ==> agents == old(agents)
      ensures old(|agents|) == 0 && maze.Some? && FloorTiles(maze.value) != [] ==>
        && |agents| == agentCount
        && (forall i :: 0 <= i < agentCount ==>
              fresh(agents[i]) && agents[i].State() == SpawnMotion(lib, maze.value, FloorTiles(maze.value), picks[i]))
        && (forall i :: 0 <= i < agentCount ==> StandardGuard(lib, agents[i]))
        && (forall i, j :: 0 <= i < j < agentCount ==> agents[i] != agents[j])
    {
      if |agents| > 0 {
        return;
      }
      if maze.None? {
        return;
      }
      var m := maze.value;
      var tiles := CollectFloorTiles(m);
      if |tiles| == 0 {
        return;
      }
      for i := 0 to agentCount
        invariant maze == old(maze) && |agents| == i
        invariant forall k :: 0 <= k < i ==>
          fresh(agents[k]) && agents[k].State() == SpawnMotion(lib, m, tiles, picks[k])
        invariant forall k :: 0 <= k < i ==> StandardGuard(lib, agents[k])
        invariant forall k, j :: 0 <= k < j < i ==> agents[k] != agents[j]
      {
        var a := Spawn(m, tiles, picks[i], lib);
        agents := agents + [a];
      }
    }
  }
}
