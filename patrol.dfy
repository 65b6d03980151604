/** One tick of a guard agent as values: the chase/patrol decision, the axis-separated move with
    undo on collision, and the clamp into the maze. The imperative `move_agents` is proved
    against these functions. */
module Patrol {
  import opened Geometry
  import opened Mazes
  import opened Utils
  import opened Movement
  import opened Agents

  /** A decided state and the velocity chosen for this tick, in pixels per second. */
  datatype Plan = Plan(m: Motion, vel: Vec)

  /** The player is seen: chase, facing and running toward the player when not on top of them. */
  function Chase(lib: MathLib, s: Motion, player: Vec, runningSpeed: real): (p: Plan)
    requires Sound(lib)
    ensures p.m == s.(chasing := true, facing := p.m.facing)
    ensures player == s.pos ==> p.vel == Zero && p.m.facing == s.facing
  {
    match Normalize(lib, Sub(player, s.pos))
    case None => Plan(s.(chasing := true), Zero)
    case Some(n) => Plan(s.(chasing := true, facing := n), Scale(n, runningSpeed))
  }

  /** Sight was lost while chasing: stop chasing and head for a patrol endpoint, the nearer one
      when both are set (ties go to `endB`), facing it only in that case. */
  function ResumePatrol(lib: MathLib, s: Motion): (r: Motion)
    requires Sound(lib)
    ensures r == s.(chasing := false, target := r.target, facing := r.facing)
    ensures r.target == s.endA || r.target == s.endB
  {
    if s.endA.None? || s.endB.None? then
      s.(chasing := false, target := if s.endA.Some? then s.endA else s.endB)
    else
      var dA := Length(lib, Sub(s.endA.value, s.pos));
      var dB := Length(lib, Sub(s.endB.value, s.pos));
      var t := if dA < dB then s.endA else s.endB;
      s.(chasing := false, target := t, facing := FacingToward(lib, s.pos, s.facing, t.value))
  }

  /** A missing patrol target defaults to `endA`, or to `endB` when `endA` is missing. */
  function DefaultTarget(s: Motion): (r: Motion)
    ensures r == s.(target := r.target)
    ensures s.target.Some? ==> r.target == s.target
    ensures s.target.None? ==> r.target == (if s.endA.Some? then s.endA else s.endB)
    ensures TargetOnTrack(s) ==> TargetOnTrack(r)
  {
    if s.target.None? then s.(target := if s.endA.Some? then s.endA else s.endB) else s
  }

  /** Once defaulted, the target stays put: defaulting again changes nothing, and an agent with
      at least one endpoint always ends up with a target. */
  lemma DefaultTargetSettles(s: Motion)
    ensures DefaultTarget(DefaultTarget(s)) == DefaultTarget(s)
    ensures s.endA.Some? || s.endB.Some? ==> DefaultTarget(s).target.Some?
  {
  }

  /** On reaching the target the agent turns round: a target equal to `endA` becomes `endB`,
      any other becomes `endA`, and the agent faces the new target when there is one. */
  function FlipOnArrival(lib: MathLib, s: Motion): (r: Motion)
    requires Sound(lib)
    ensures r == s.(target := r.target, facing := r.facing)
    ensures !Reached(lib, s.pos, s.target, REACH_THRESHOLD) ==> r == s
    ensures Reached(lib, s.pos, s.target, REACH_THRESHOLD) ==>
      && r.target == (if s.target == s.endA then s.endB else s.endA)
      && (r.target.Some? ==> r.facing == FacingToward(lib, s.pos, s.facing, r.target.value))
      && (r.target.None? ==> r.facing == s.facing)
    ensures TargetOnTrack(s) ==> TargetOnTrack(r)
  {
    if Reached(lib, s.pos, s.target, REACH_THRESHOLD) then
      var t := if s.target == s.endA then s.endB else s.endA;
      s.(target := t, facing := if t.Some? then FacingToward(lib, s.pos, s.facing, t.value) else s.facing)
    else s
  }

  /** Patrolling: face and walk toward the target at standard speed, unless there is no target
      or the agent is already on it. */
  function PatrolVelocity(lib: MathLib, s: Motion, standardSpeed: real): (p: Plan)
    requires Sound(lib)
    ensures p.m == s.(facing := p.m.facing)
  {
    if s.target.None? then Plan(s, Zero)
    else
      match Normalize(lib, Sub(s.target.value, s.pos))
      case None => Plan(s, Zero)
      case Some(n) => Plan(s.(facing := n), Scale(n, standardSpeed))
  }

  /** The behaviour half of a tick: chase when the player is seen, otherwise resume the patrol
      if the agent was chasing, pick a default target, turn at the target and walk. */
  function Decide(lib: MathLib, body: Body, s: Motion, player: Vec, visible: bool): Plan
    requires Sound(lib)
  {
    if visible then Chase(lib, s, player, body.runningSpeed)
    else
      var s1 := if s.chasing then ResumePatrol(lib, s) else s;
      PatrolVelocity(lib, FlipOnArrival(lib, DefaultTarget(s1)), body.standardSpeed)
  }

  /** The agent's final clamp into `[0, max(0, width - size)] x [0, max(0, height - size)]`. */
  function ClampToMaze(m: Maze, size: int, p: Vec): Vec
  {
    Vec(ClampAxis(p.x, m.width, size), ClampAxis(p.y, m.height, size))
  }

  /** One agent's tick for a positive time step: decide, move by velocity times `dt` one axis
      at a time with undo on collision, then clamp. */
  ghost function Step(lib: MathLib, body: Body, m: Maze, s: Motion, player: Vec, visible: bool, dt: real): Motion
    requires Sound(lib) && m.Valid()
  {
    var plan := Decide(lib, body, s, player, visible);
    var moved := AxisMove(m, LastInside, body.size, plan.m.pos, Scale(plan.vel, dt));
    plan.m.(pos := ClampToMaze(m, body.size, moved))
  }

  /** One agent's tick: nothing at all happens unless `dt` is positive. */
  ghost function Tick(lib: MathLib, body: Body, m: Maze, s: Motion, player: Vec, visible: bool, dt: real): Motion
    requires Sound(lib) && m.Valid()
  {
    if dt <= 0.0 then s else Step(lib, body, m, s, player, visible, dt)
  }

  // ----- properties of the decision -----

  /** Seeing the player makes the agent chase. Its velocity then has the running speed and
      points at the player (scaled by the distance it equals the offset scaled by the speed), and
      its facing is the direction to the player; on top of the player it stands still with its
      facing unchanged. The patrol fields are left alone. */
  lemma ChaseOnSight(lib: MathLib, body: Body, s: Motion, player: Vec)
    requires Sound(lib)
    ensures var p := Decide(lib, body, s, player, true);
      && p.m.chasing
      && p.m.pos == s.pos && p.m.endA == s.endA && p.m.endB == s.endB && p.m.target == s.target
      && p.m.facing == FacingToward(lib, s.pos, s.facing, player)
      && (player == s.pos ==> p.vel == Zero && p.m.facing == s.facing)
      && (player != s.pos ==>
            var d := Sub(player, s.pos);
            NormSq(p.vel) == Sq(body.runningSpeed)
            && Scale(p.vel, Length(lib, d)) == Scale(d, body.runningSpeed)
            && NormSq(p.m.facing) == 1.0)
  {
    var d := Sub(player, s.pos);
    if player != s.pos {
      NormalizeUnit(lib, d);
      var n := Normalize(lib, d).value;
      ScaledUnit(n, body.runningSpeed);
      var L := Length(lib, d);
      assert Scale(Scale(n, body.runningSpeed), L) == Scale(Scale(n, L), body.runningSpeed);
    }
  }

  /** Losing sight with both endpoints set heads for the strictly nearer endpoint, `endB` on a
      tie, comparing squared distances, and faces it. */
  lemma ResumeNearer(lib: MathLib, s: Motion)
    requires Sound(lib) && s.endA.Some? && s.endB.Some?
    ensures var r := ResumePatrol(lib, s);
      var t := if NormSq(Sub(s.endA.value, s.pos)) < NormSq(Sub(s.endB.value, s.pos)) then s.endA else s.endB;
      && !r.chasing && r.target == t
      && r.facing == FacingToward(lib, s.pos, s.facing, t.value)
      && r.pos == s.pos && r.endA == s.endA && r.endB == s.endB
  {
    LengthLess(lib, Sub(s.endA.value, s.pos), Sub(s.endB.value, s.pos));
  }

  /** Losing sight with an endpoint missing heads for whichever endpoint is set (or none) and
      keeps the facing. */
  lemma ResumeMissingEndpoint(lib: MathLib, s: Motion)
    requires Sound(lib) && (s.endA.None? || s.endB.None?)
    ensures var r := ResumePatrol(lib, s);
      && !r.chasing && r.facing == s.facing && r.pos == s.pos
      && r.target == (if s.endA.Some? then s.endA else s.endB)
  {
  }

  /** A target that is missing or one of the two endpoints. */
  predicate TargetOnTrack(s: Motion)
  {
    s.target.None? || s.target == s.endA || s.target == s.endB
  }

  /** The decision never invents a target and never moves an endpoint: a target that is
      missing or one of the endpoints stays so. */
  lemma DecideKeepsTrack(lib: MathLib, body: Body, s: Motion, player: Vec, visible: bool)
    requires Sound(lib) && TargetOnTrack(s)
    ensures var p := Decide(lib, body, s, player, visible);
      TargetOnTrack(p.m) && p.m.endA == s.endA && p.m.endB == s.endB
  {
  }

  /** With both endpoints set and distinct, arriving at one sends the agent to the other. */
  lemma FlipAlternates(lib: MathLib, s: Motion)
    requires Sound(lib) && s.endA.Some? && s.endB.Some? && s.endA != s.endB
    requires s.target == s.endA || s.target == s.endB
    requires Reached(lib, s.pos, s.target, REACH_THRESHOLD)
    ensures var r := FlipOnArrival(lib, s);
      (s.target == s.endA ==> r.target == s.endB) && (s.target == s.endB ==> r.target == s.endA)
  {
  }

  /** With no target, or standing on it, the patrol velocity is zero and the facing unchanged;
      otherwise the agent faces its target and walks toward it at standard speed. */
  lemma PatrolVelocityToward(lib: MathLib, s: Motion, standardSpeed: real)
    requires Sound(lib)
    ensures var p := PatrolVelocity(lib, s, standardSpeed);
      && p.m.pos == s.pos && p.m.target == s.target && p.m.chasing == s.chasing
      && (s.target.Some? ==> p.m.facing == FacingToward(lib, s.pos, s.facing, s.target.value))
      && (s.target.None? || s.target == Some(s.pos) ==> p.vel == Zero && p.m.facing == s.facing)
      && (s.target.Some? && s.target != Some(s.pos) ==>
            var d := Sub(s.target.value, s.pos);
            NormSq(p.vel) == Sq(standardSpeed)
            && Scale(p.vel, Length(lib, d)) == Scale(d, standardSpeed)
            && NormSq(p.m.facing) == 1.0)
  {
    if s.target.Some? && s.target != Some(s.pos) {
      var d := Sub(s.target.value, s.pos);
      NormalizeUnit(lib, d);
      var n := Normalize(lib, d).value;
      ScaledUnit(n, standardSpeed);
      var L := Length(lib, d);
      assert Scale(Scale(n, standardSpeed), L) == Scale(Scale(n, L), standardSpeed);
    }
  }

  // ----- properties of the whole tick -----

  /** A tick with `dt <= 0` changes nothing. */
  lemma TickIgnoresNonPositiveDt(lib: MathLib, body: Body, m: Maze, s: Motion, player: Vec, visible: bool, dt: real)
    requires Sound(lib) && m.Valid() && dt <= 0.0
    ensures Tick(lib, body, m, s, player, visible, dt) == s
  {
  }

  /** After a tick with positive `dt` the agent's top-left corner lies in
      `[0, max(0, width - size)] x [0, max(0, height - size)]`. */
  lemma TickWithinBounds(lib: MathLib, body: Body, m: Maze, s: Motion, player: Vec, visible: bool, dt: real)
    requires Sound(lib) && m.Valid() && dt > 0.0
    ensures var p := Tick(lib, body, m, s, player, visible, dt).pos;
      0.0 <= p.x <= MaxInt(0, m.width - body.size) as real
      && 0.0 <= p.y <= MaxInt(0, m.height - body.size) as real
  {
  }

  /** An agent whose hitbox is collision-free stays collision-free: each axis step is undone
      when it collides, and the clamp never moves a collision-free hitbox. */
  lemma TickStaysFree(lib: MathLib, body: Body, m: Maze, s: Motion, player: Vec, visible: bool, dt: real)
    requires Sound(lib) && m.Valid() && body.size >= 1
    requires Free(m, LastInside, body.size, s.pos)
    ensures Free(m, LastInside, body.size, Tick(lib, body, m, s, player, visible, dt).pos)
  {
    if dt > 0.0 {
      var plan := Decide(lib, body, s, player, visible);
      assert plan.m.pos == s.pos;
      var moved := AxisMove(m, LastInside, body.size, plan.m.pos, Scale(plan.vel, dt));
      AxisMoveKeepsFree(m, LastInside, body.size, plan.m.pos, Scale(plan.vel, dt));
      ClampKeepsFree(m, body.size, moved);
    }
  }
}
