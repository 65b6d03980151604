/** `Agent_Actions`: the per-frame update of every guard agent, mutating each agent in place. */
module AgentActions {
  import opened Geometry
  import opened Mazes
  import opened Utils
  import opened Movement
  import opened Agents
  import opened Patrol
  import opened Outcomes

  // ----- the sight call of `move_agents` -----

  /** Python's binding of the positional arguments `args` to the positional parameters `params`
      of a function without defaults, left to right: it fails (and the call raises `TypeError`
      before its body runs) when an argument has no parameter left or a parameter no argument;
      otherwise each parameter names its own argument. */
  function Bind<V>(params: seq<string>, args: seq<V>): (r: Option<map<string, V>>)
    requires forall i, j :: 0 <= i < j < |params| ==> params[i] != params[j]
    ensures r.Some? <==> |args| == |params|
    ensures r.Some? ==> forall p :: p in r.value <==> p in params
    ensures r.Some? ==> forall i :: 0 <= i < |params| ==> r.value[params[i]] == args[i]
  {
    if |params| == 0 then
      if |args| == 0 then Some(map[]) else None
    else if |args| == 0 then
      None
    else
      match Bind(params[1..], args[1..])
      case None => None
      case Some(env) =>
        assert forall i :: 1 <= i < |params| ==> params[1..][i - 1] == params[i];
        Some(env[params[0] := args[0]])
  }

  /** The parameters of `in_vision_cone(agent, target)`. */
  const IN_VISION_CONE_PARAMS: seq<string> := ["agent", "target"]
  /** The arguments of the sight call in `move_agents`, `in_vision_cone(a, player, maze)`. */
  const SIGHT_CALL_ARGS: seq<string> := ["a", "player", "maze"]

  /** The sight call as written cannot bind its arguments, while the intended two-argument call
      binds the agent to `agent` and the player to `target`. */
  lemma SightCallRaises()
    ensures Bind(IN_VISION_CONE_PARAMS, SIGHT_CALL_ARGS).None?
    ensures Bind(IN_VISION_CONE_PARAMS, ["a", "player"]) == Some(map["agent" := "a", "target" := "player"])
  {
    assert Bind(["target"], ["player"]) == Some(map["target" := "player"]) by {
      assert Bind(["target"][1..], ["player"][1..]) == Some(map[]);
    }
    assert "agent" != "target" by {
      assert |"agent"| != |"target"|;
    }
    assert map["target" := "player"]["agent" := "a"] == map["agent" := "a", "target" := "player"];
  }

  /** The intended sight test of `move_agents`, `in_vision_cone(a, player)`, on the agent's state
      `s`. */
  function Sees(lib: MathLib, a: Agent, s: Motion, player: Vec): (r: bool)
    requires Sound(lib)
    ensures r ==> s.pos != player && NormSq(Sub(player, s.pos)) <= Sq(a.visionDistance)
  {
    InVisionCone(lib, s.pos, s.facing, a.visionDistance, a.cosHalfVision, player)
  }

  class AgentActions {
    /** Whether cones are drawn by default; drawing itself is not modelled. */
    const showCones: bool

    constructor(showCones: bool)
      ensures this.showCones == showCones
    {
      this.showCones := showCones;
    }

    /** `_face_toward`: every agent has `_set_facing_toward`, so this turns the agent toward the
        target and changes nothing else. */
    static method FaceToward(a: Agent, target: Vec, lib: MathLib)
      requires Sound(lib)
      modifies a
      ensures a.facing == FacingToward(lib, old(a.Position()), old(a.facing), target)
      ensures a.x == old(a.x) && a.y == old(a.y) && a.chasing == old(a.chasing)
      ensures a.patrolEndA == old(a.patrolEndA) && a.patrolEndB == old(a.patrolEndB)
      ensures a.patrolTarget == old(a.patrolTarget)
    {
      a.SetFacingToward(target, lib);
    }

    /** `move_agents(agents, player, maze, dt)`: nothing happens when `dt <= 0`; otherwise every
        agent takes one tick, `visible[i]` standing for the sight test of agent `i`. Each agent
        ends in exactly the state `Tick` gives for its own starting state. */
    method MoveAgents(agents: seq<Agent>, player: Vec, maze: Maze, dt: real, visible: seq<bool>, lib: MathLib)
      requires Sound(lib) && maze.Valid()
      requires |visible| == |agents|
      requires forall i, j :: 0 <= i < j < |agents| ==> agents[i] != agents[j]
      modifies set a | a in agents
      ensures forall i :: 0 <= i < |agents| ==>
        agents[i].State() == Tick(lib, agents[i].Attributes(), maze, old(agents[i].State()), player, visible[i], dt)
    {
      if dt <= 0.0 {
        return;
      }
      StepAll(agents, player, maze, dt, visible, lib);
    }

    /** `move_agents` as written. With `dt <= 0` it returns at once, and with no agents the loop
        body never runs. Otherwise the first pass of the loop evaluates the sight call
        `in_vision_cone(a, player, maze)` before it assigns anything; three arguments do not bind
        to two parameters, so the call raises and the exception leaves `move_agents` with every
        agent as it was. */
    method MoveAgentsAsWritten(agents: seq<Agent>, player: Vec, maze: Maze, dt: real) returns (r: Outcome)
      ensures r == TypeError <==> dt > 0.0 && |agents| > 0
      ensures r != TypeError <==> r == Returned
      ensures r == TypeError ==> Bind(IN_VISION_CONE_PARAMS, SIGHT_CALL_ARGS).None?
      ensures forall i :: 0 <= i < |agents| ==> agents[i].State() == old(agents[i].State())
    {
      if dt <= 0.0 || |agents| == 0 {
        return Returned;
      }
      SightCallRaises();
      return TypeError;
    }

    /** `move_agents` with the sight call as intended, `in_vision_cone(a, player)`. Each agent's
        sight depends only on its own state and the player, which the earlier agents' moves do not
        change, so the tests are taken before the loop. Every agent ends in the state `Tick`
        gives for its own start state and its own sight. */
    method MoveAgentsSighted(agents: seq<Agent>, player: Vec, maze: Maze, dt: real, lib: MathLib)
      requires Sound(lib) && maze.Valid()
      requires forall i, j :: 0 <= i < j < |agents| ==> agents[i] != agents[j]
      modifies set a | a in agents
      ensures forall i :: 0 <= i < |agents| ==>
        agents[i].State() == Tick(lib, agents[i].Attributes(), maze, old(agents[i].State()), player,
                                  Sees(lib, agents[i], old(agents[i].State()), player), dt)
    {
      var visible: seq<bool> := [];
      for i := 0 to |agents|
        invariant |visible| == i
        invariant forall k :: 0 <= k < i ==> visible[k] == Sees(lib, agents[k], agents[k].State(), player)
      {
        var a := agents[i];
        visible := visible + [InVisionCone(lib, Vec(a.x, a.y), a.facing, a.visionDistance, a.cosHalfVision, player)];
      }
      MoveAgents(agents, player, maze, dt, visible, lib);
    }

    /** The loop of `move_agents` over the agents, for a positive `dt`. */
    method StepAll(agents: seq<Agent>, player: Vec, maze: Maze, dt: real, visible: seq<bool>, lib: MathLib)
      requires Sound(lib) && maze.Valid()
      requires |visible| == |agents|
      requires forall i, j :: 0 <= i < j < |agents| ==> agents[i] != agents[j]
      modifies set a | a in agents
      ensures forall i :: 0 <= i < |agents| ==>
        agents[i].State() == Step(lib, agents[i].Attributes(), maze, old(agents[i].State()), player, visible[i], dt)
    {
      // the state each agent must reach, fixed before any agent moves
      ghost var goals := seq(|agents|, k requires 0 <= k < |agents| reads set a | a in agents =>
        Step(lib, agents[k].Attributes(), maze, agents[k].State(), player, visible[k], dt));
      for i := 0 to |agents|
        invariant forall k :: 0 <= k < i ==> agents[k].State() == goals[k]
        invariant forall k :: i <= k < |agents| ==> agents[k].State() == old(agents[k].State())
      {
        label before:
        StepToward(agents[i], player, maze, dt, visible[i], lib, goals[i]);
        forall k | 0 <= k < |agents| && k != i
          ensures agents[k].State() == old@before(agents[k].State())
        {
          assert agents[k] != agents[i];
        }
      }
      forall k | 0 <= k < |agents|
        ensures agents[k].State() == Step(lib, agents[k].Attributes(), maze, old(agents[k].State()), player, visible[k], dt)
      {
        assert goals[k] == Step(lib, agents[k].Attributes(), maze, old(agents[k].State()), player, visible[k], dt);
      }
    }

    /** `StepAgent` for a caller that has already named the state the agent must reach. */
    method StepToward(a: Agent, player: Vec, maze: Maze, dt: real, visible: bool, lib: MathLib, ghost goal: Motion)
      requires Sound(lib) && maze.Valid()
      requires goal == Step(lib, a.Attributes(), maze, a.State(), player, visible, dt)
      modifies a
      ensures a.State() == goal
    {
      StepAgent(a, player, maze, dt, visible, lib);
    }

    /** The body of the loop in `move_agents` for one agent: decide, move X then Y with undo
        on collision, clamp. */
    method StepAgent(a: Agent, player: Vec, maze: Maze, dt: real, visible: bool, lib: MathLib)
      requires Sound(lib) && maze.Valid()
      modifies a
      ensures a.State() == Step(lib, a.Attributes(), maze, old(a.State()), player, visible, dt)
    {
      var vel := DecideInPlace(a, player, visible, lib);
      MoveInPlace(a, maze, Scale(vel, dt));
      // clamp within the maze's pixel bounds (top-left coordinates)
      a.x := Clamp(a.x, 0.0, MaxInt(0, maze.width - a.size) as real);
      a.y := Clamp(a.y, 0.0, MaxInt(0, maze.height - a.size) as real);
    }

    /** The decision half of the loop body: chase, or resume, default, flip and walk; returns the
        velocity `(vx, vy)`. */
    method DecideInPlace(a: Agent, player: Vec, visible: bool, lib: MathLib) returns (vel: Vec)
      requires Sound(lib)
      modifies a
      ensures a.State() == Decide(lib, a.Attributes(), old(a.State()), player, visible).m
      ensures vel == Decide(lib, a.Attributes(), old(a.State()), player, visible).vel
    {
      if visible {
        vel := ChaseInPlace(a, player, lib);
      } else {
        if a.chasing {
          ResumeInPlace(a, lib);
        }
        if a.patrolTarget.None? {
          a.patrolTarget := if a.patrolEndA.Some? then a.patrolEndA else a.patrolEndB;
        }
        FlipInPlace(a, lib);
        vel := WalkInPlace(a, lib);
      }
    }

    /** The player is seen: chase, facing and running toward the player. */
    method ChaseInPlace(a: Agent, player: Vec, lib: MathLib) returns (vel: Vec)
      requires Sound(lib)
      modifies a
      ensures a.State() == Chase(lib, old(a.State()), player, a.runningSpeed).m
      ensures vel == Chase(lib, old(a.State()), player, a.runningSpeed).vel
    {
      a.chasing := true;
      vel := Zero;
      var n := Normalize(lib, Sub(player, Vec(a.x, a.y)));
      if n.Some? {
        a.facing := n.value;
        vel := Vec(n.value.x * a.runningSpeed, n.value.y * a.runningSpeed);
      }
    }

    /** Sight lost while chasing: stop chasing and head for the nearer endpoint. */
    method ResumeInPlace(a: Agent, lib: MathLib)
      requires Sound(lib)
      modifies a
      ensures a.State() == ResumePatrol(lib, old(a.State()))
    {
      a.chasing := false;
      if a.patrolEndA.None? || a.patrolEndB.None? {
        a.patrolTarget := if a.patrolEndA.Some? then a.patrolEndA else a.patrolEndB;
      } else {
        var dA := Length(lib, Sub(a.patrolEndA.value, Vec(a.x, a.y)));
        var dB := Length(lib, Sub(a.patrolEndB.value, Vec(a.x, a.y)));
        a.patrolTarget := if dA < dB then a.patrolEndA else a.patrolEndB;
        FaceToward(a, a.patrolTarget.value, lib);
      }
    }

    /** At the target: switch to the other endpoint and face it. */
    method FlipInPlace(a: Agent, lib: MathLib)
      requires Sound(lib)
      modifies a
      ensures a.State() == FlipOnArrival(lib, old(a.State()))
    {
      if a.ReachedPatrolTarget(lib, REACH_THRESHOLD) {
        a.patrolTarget := if a.patrolTarget == a.patrolEndA then a.patrolEndB else a.patrolEndA;
        if a.patrolTarget.Some? {
          FaceToward(a, a.patrolTarget.value, lib);
        }
      }
    }

    /** Patrolling: face the target and walk toward it at standard speed. */
    method WalkInPlace(a: Agent, lib: MathLib) returns (vel: Vec)
      requires Sound(lib)
      modifies a
      ensures a.State() == PatrolVelocity(lib, old(a.State()), a.standardSpeed).m
      ensures vel == PatrolVelocity(lib, old(a.State()), a.standardSpeed).vel
    {
      vel := Zero;
      if a.patrolTarget.Some? {
        var n := Normalize(lib, Sub(a.patrolTarget.value, Vec(a.x, a.y)));
        if n.Some? {
          a.facing := n.value;
          vel := Vec(n.value.x * a.standardSpeed, n.value.y * a.standardSpeed);
        }
      }
    }

    /** Move along X, undo on collision, then along Y, undo on collision. */
    method MoveInPlace(a: Agent, maze: Maze, move: Vec)
      requires maze.Valid()
      modifies a
      ensures Vec(a.x, a.y) == AxisMove(maze, LastInside, a.size, Vec(old(a.x), old(a.y)), move)
      ensures a.facing == old(a.facing) && a.chasing == old(a.chasing)
      ensures a.patrolEndA == old(a.patrolEndA) && a.patrolEndB == old(a.patrolEndB)
      ensures a.patrolTarget == old(a.patrolTarget)
    {
      MoveX(a, maze, move.x);
      MoveY(a, maze, move.y);
    }

    /** The X half of the move: add `dx`, and subtract it again on collision. */
    method MoveX(a: Agent, maze: Maze, dx: real)
      requires maze.Valid()
      modifies a
      ensures Vec(a.x, a.y) == AxisStep(maze, LastInside, a.size, Vec(old(a.x), old(a.y)), Vec(dx, 0.0))
      ensures a.facing == old(a.facing) && a.chasing == old(a.chasing)
      ensures a.patrolEndA == old(a.patrolEndA) && a.patrolEndB == old(a.patrolEndB)
      ensures a.patrolTarget == old(a.patrolTarget)
    {
      ghost var start := Vec(a.x, a.y);
      a.x := a.x + dx;
      assert Add(start, Vec(dx, 0.0)) == Vec(a.x, a.y);
      var hit := a.CollidesWithWall(maze);
      if hit {
        a.x := a.x - dx;
      }
    }

    /** The Y half of the move: add `dy`, and subtract it again on collision. */
    method MoveY(a: Agent, maze: Maze, dy: real)
      requires maze.Valid()
      modifies a
      ensures Vec(a.x, a.y) == AxisStep(maze, LastInside, a.size, Vec(old(a.x), old(a.y)), Vec(0.0, dy))
      ensures a.facing == old(a.facing) && a.chasing == old(a.chasing)
      ensures a.patrolEndA == old(a.patrolEndA) && a.patrolEndB == old(a.patrolEndB)
      ensures a.patrolTarget == old(a.patrolTarget)
    {
      ghost var start := Vec(a.x, a.y);
      a.y := a.y + dy;
      assert Add(start, Vec(0.0, dy)) == Vec(a.x, a.y);
      var hit := a.CollidesWithWall(maze);
      if hit {
        a.y := a.y - dy;
      }
    }
  }
}
