/** The tile grid: tile codes, the derived pixel dimensions, and the tile-overlap collision
    query that both the guard agents and the player run against it. */
module Mazes {
  import opened Geometry

  const FLOOR: int := 0
  const WALL: int := 1
  const GOAL: int := 2

  datatype Result<T, E> = Ok(value: T) | Err(error: E)

  datatype MazeError = EmptyGrid

  /** A maze: the grid of tile codes (indexed `grid[row][col]`), the tile size in pixels, and
      the fields derived from them when the maze is built. */
  datatype Maze = Maze(grid: seq<seq<int>>, tileSize: int, rows: int, cols: int, width: int, height: int)
  {
    /** The shape every query relies on: a positive tile size, a non-empty rectangular grid,
        and derived fields that agree with it. */
    predicate Valid()
    {
      && tileSize > 0
      && rows == |grid| && rows > 0
      && cols == |grid[0]|
      && (forall r :: 0 <= r < rows ==> |grid[r]| == cols)
      && width == cols * tileSize
      && height == rows * tileSize
    }
  }

  /** Building a maze from a grid. An empty grid has no first row, so it is an error. */
  function NewMaze(grid: seq<seq<int>>, tileSize: int): (r: Result<Maze, MazeError>)
    ensures r.Err? <==> |grid| == 0
    ensures r.Ok? ==> r.value.grid == grid && r.value.tileSize == tileSize
    ensures r.Ok? ==> r.value.rows == |grid| && r.value.cols == |grid[0]|
    ensures r.Ok? ==> r.value.width == r.value.cols * tileSize && r.value.height == r.value.rows * tileSize
  {
    if |grid| == 0 then Err(EmptyGrid)
    else
      var rows := |grid|;
      var cols := |grid[0]|;
      Ok(Maze(grid, tileSize, rows, cols, cols * tileSize, rows * tileSize))
  }

  /** A non-empty rectangular grid with a positive tile size gives a well-formed maze with one
      row per grid row, one column per entry of a row, and a pixel extent of `cols*tileSize` by
      `rows*tileSize`. */
  lemma NewMazeValid(grid: seq<seq<int>>, tileSize: int)
    requires |grid| > 0 && tileSize > 0
    requires forall r :: 0 <= r < |grid| ==> |grid[r]| == |grid[0]|
    ensures NewMaze(grid, tileSize).Ok?
    ensures var m := NewMaze(grid, tileSize).value;
      m.Valid() && m.rows == |grid| && m.cols == |grid[0]|
      && m.width == m.cols * tileSize && m.height == m.rows * tileSize
  {
  }

  // ----- integer division by the tile size -----

  lemma IntProductNonNeg(p: int, a: int, b: int)
    requires p == a * b && a >= 0 && b >= 0
    ensures p >= 0
  {
  }

  /** Floor division by a positive tile size: `q <= a // ts` exactly when `q*ts <= a`. */
  lemma DivGalois(q: int, a: int, ts: int)
    requires ts > 0
    ensures q <= a / ts <==> q * ts <= a
  {
    var d := a / ts;
    assert a == d * ts + a % ts;
    if q <= d {
      IntProductNonNeg((d - q) * ts, d - q, ts);
    } else {
      IntProductNonNeg((q - d - 1) * ts, q - d - 1, ts);
    }
  }

  lemma DivMono(a: int, b: int, ts: int)
    requires ts > 0 && a <= b
    ensures a / ts <= b / ts
  {
    DivGalois(a / ts, a, ts);
    DivGalois(a / ts, b, ts);
  }

  /** A pixel in `[q*ts, q*ts + ts)` lies in tile `q`. */
  lemma DivExact(q: int, a: int, ts: int)
    requires ts > 0 && q * ts <= a < q * ts + ts
    ensures a / ts == q
  {
    DivGalois(q, a, ts);
    DivGalois(q + 1, a, ts);
  }

  /** Every tile index between `lo // ts` and `hi // ts` holds some pixel of `[lo, hi]`. */
  lemma PixelOfTile(lo: int, hi: int, k: int, ts: int) returns (p: int)
    requires ts > 0 && lo <= hi && lo / ts <= k <= hi / ts
    ensures lo <= p <= hi && p / ts == k
  {
    DivGalois(k, hi, ts);
    if k * ts >= lo {
      p := k * ts;
      DivExact(k, p, ts);
    } else {
      p := lo;
      DivGalois(k, lo, ts);
    }
  }

  // ----- hitboxes and the tiles they span -----

  /** An integer-pixel rectangle as pygame's `Rect(left, top, w, h)`. */
  datatype Rect = Rect(left: int, top: int, w: int, h: int)
  {
    function Right(): int { left + w }
    function Bottom(): int { top + h }
  }

  /** Which pixel bounds the far side of a hitbox. Guard agents divide `right - 1` and
      `bottom - 1`, the last pixel inside; the player divides `right` and `bottom`, the first
      pixel outside. */
  datatype EdgeRule = LastInside | FirstOutside

  function FarEdge(rule: EdgeRule, edge: int): int
  {
    match rule
    case LastInside => edge - 1
    case FirstOutside => edge
  }

  /** An inclusive range of tile rows and columns. */
  datatype Span = Span(top: int, bottom: int, left: int, right: int)

  /** The tiles the collision query visits for a hitbox under an edge rule. */
  function TileSpan(m: Maze, rule: EdgeRule, rect: Rect): Span
    requires m.tileSize > 0
  {
    Span(rect.top / m.tileSize, FarEdge(rule, rect.Bottom()) / m.tileSize,
         rect.left / m.tileSize, FarEdge(rule, rect.Right()) / m.tileSize)
  }

  /** A tile blocks when it lies outside the grid or holds a wall. */
  predicate TileBlocked(m: Maze, r: int, c: int)
    requires m.Valid()
  {
    !(0 <= r < m.rows && 0 <= c < m.cols) || m.grid[r][c] == WALL
  }

  ghost predicate SpanBlocked(m: Maze, s: Span)
    requires m.Valid()
  {
    exists r, c :: s.top <= r <= s.bottom && s.left <= c <= s.right && TileBlocked(m, r, c)
  }

  /** `_collides_with_wall` as a property: some tile the hitbox spans blocks. */
  ghost predicate HitboxBlocked(m: Maze, rule: EdgeRule, rect: Rect)
    requires m.Valid()
  {
    SpanBlocked(m, TileSpan(m, rule, rect))
  }

  /** The nested row-then-column search of `_collides_with_wall`: true as soon as a visited tile
      is out of bounds or a wall, false after visiting them all. */
  method SearchSpan(m: Maze, s: Span) returns (hit: bool)
    requires m.Valid()
    ensures hit <==> SpanBlocked(m, s)
  {
    var row := s.top;
    while row <= s.bottom
      invariant s.top <= row
      invariant forall r, c :: s.top <= r < row && s.left <= c <= s.right ==> !TileBlocked(m, r, c)
    {
      var col := s.left;
      while col <= s.right
        invariant s.left <= col
        invariant forall r, c :: s.top <= r < row && s.left <= c <= s.right ==> !TileBlocked(m, r, c)
        invariant forall c :: s.left <= c < col ==> !TileBlocked(m, row, c)
      {
        if row < 0 || row >= m.rows || col < 0 || col >= m.cols {
          assert TileBlocked(m, row, col);
          return true;
        }
        if m.grid[row][col] == WALL {
          assert TileBlocked(m, row, col);
          return true;
        }
        col := col + 1;
      }
      row := row + 1;
    }
    return false;
  }

  // ----- what the collision query means -----

  /** A hitbox with any spanned tile outside the grid collides: outside the map counts as wall. */
  lemma OutOfBoundsBlocks(m: Maze, rule: EdgeRule, rect: Rect, r: int, c: int)
    requires m.Valid()
    requires var s := TileSpan(m, rule, rect); s.top <= r <= s.bottom && s.left <= c <= s.right
    requires !(0 <= r < m.rows && 0 <= c < m.cols)
    ensures HitboxBlocked(m, rule, rect)
  {
    assert TileBlocked(m, r, c);
  }

  /** For a hitbox whose spanned tiles all lie inside the grid, it collides exactly when some
      spanned tile is a wall; floor and goal tiles never collide. */
  lemma InBoundsBlocked(m: Maze, rule: EdgeRule, rect: Rect)
    requires m.Valid()
    requires var s := TileSpan(m, rule, rect); 0 <= s.top && s.bottom < m.rows && 0 <= s.left && s.right < m.cols
    ensures var s := TileSpan(m, rule, rect);
      HitboxBlocked(m, rule, rect)
      <==> exists r, c :: s.top <= r <= s.bottom && s.left <= c <= s.right && m.grid[r][c] == WALL
    ensures var s := TileSpan(m, rule, rect);
      (forall r, c :: s.top <= r <= s.bottom && s.left <= c <= s.right ==> m.grid[r][c] in {FLOOR, GOAL})
      ==> !HitboxBlocked(m, rule, rect)
  {
    var s := TileSpan(m, rule, rect);
    if HitboxBlocked(m, rule, rect) {
      var r, c :| s.top <= r <= s.bottom && s.left <= c <= s.right && TileBlocked(m, r, c);
      assert m.grid[r][c] == WALL;
    }
    if exists r, c :: s.top <= r <= s.bottom && s.left <= c <= s.right && m.grid[r][c] == WALL {
      var r, c :| s.top <= r <= s.bottom && s.left <= c <= s.right && m.grid[r][c] == WALL;
      assert TileBlocked(m, r, c);
    }
  }

  /** The pixel at `(px, py)` lies in a blocking tile. */
  predicate PixelBlocked(m: Maze, px: int, py: int)
    requires m.Valid()
  {
    TileBlocked(m, py / m.tileSize, px / m.tileSize)
  }

  /** The collision query in pixels: some pixel from the hitbox's near edges up to its far edges
      (under the rule) lies in a blocking tile. Under `LastInside` these are exactly the hitbox's
      own pixels. */
  ghost predicate PixelsBlocked(m: Maze, rule: EdgeRule, rect: Rect)
    requires m.Valid()
  {
    exists px, py :: rect.left <= px <= FarEdge(rule, rect.Right()) && rect.top <= py <= FarEdge(rule, rect.Bottom())
                     && PixelBlocked(m, px, py)
  }

  /** The tiles visited by the division arithmetic are exactly the tiles holding the hitbox's
      pixels, so the tile query and the pixel query agree for any non-empty hitbox. */
  lemma TilesArePixels(m: Maze, rule: EdgeRule, rect: Rect)
    requires m.Valid() && rect.w >= 1 && rect.h >= 1
    ensures HitboxBlocked(m, rule, rect) <==> PixelsBlocked(m, rule, rect)
  {
    var ts := m.tileSize;
    var s := TileSpan(m, rule, rect);
    var right := FarEdge(rule, rect.Right());
    var bottom := FarEdge(rule, rect.Bottom());
    if HitboxBlocked(m, rule, rect) {
      var r, c :| s.top <= r <= s.bottom && s.left <= c <= s.right && TileBlocked(m, r, c);
      var px := PixelOfTile(rect.left, right, c, ts);
      var py := PixelOfTile(rect.top, bottom, r, ts);
      assert PixelBlocked(m, px, py);
    }
    if PixelsBlocked(m, rule, rect) {
      var px, py :| rect.left <= px <= right && rect.top <= py <= bottom && PixelBlocked(m, px, py);
      DivMono(rect.left, px, ts);
      DivMono(px, right, ts);
      DivMono(rect.top, py, ts);
      DivMono(py, bottom, ts);
      assert TileBlocked(m, py / ts, px / ts);
    }
  }

  /** The player's rule visits every tile the agents' rule visits, so whatever stops an agent's
      hitbox also stops the same hitbox under the player's rule. */
  lemma FirstOutsideCoversLastInside(m: Maze, rect: Rect)
    requires m.Valid()
    ensures HitboxBlocked(m, LastInside, rect) ==> HitboxBlocked(m, FirstOutside, rect)
  {
    if HitboxBlocked(m, LastInside, rect) {
      var s := TileSpan(m, LastInside, rect);
      var r, c :| s.top <= r <= s.bottom && s.left <= c <= s.right && TileBlocked(m, r, c);
      DivMono(rect.Right() - 1, rect.Right(), m.tileSize);
      DivMono(rect.Bottom() - 1, rect.Bottom(), m.tileSize);
      var t := TileSpan(m, FirstOutside, rect);
      assert t.top <= r <= t.bottom && t.left <= c <= t.right;
    }
  }

  /** The two rules differ: a tile-sized hitbox filling the only floor tile of a one-tile maze
      fits under the agents' rule, but the player's rule also visits the tiles beyond its right
      and bottom edges, which lie outside the grid. */
  lemma RulesDiffer()
    ensures var m := Maze([[FLOOR]], 10, 1, 1, 10, 10);
      m.Valid()
      && !HitboxBlocked(m, LastInside, Rect(0, 0, 10, 10))
      && HitboxBlocked(m, FirstOutside, Rect(0, 0, 10, 10))
  {
    var m := Maze([[FLOOR]], 10, 1, 1, 10, 10);
    assert TileSpan(m, LastInside, Rect(0, 0, 10, 10)) == Span(0, 0, 0, 0);
    assert TileSpan(m, FirstOutside, Rect(0, 0, 10, 10)) == Span(0, 1, 0, 1);
    assert TileBlocked(m, 1, 1);
  }
}
