# Guard agents and player of a tile-maze stealth game, in Dafny

This project models the perception-and-motion core of a small pygame stealth game. A player
walks a tile maze while guard agents patrol between two endpoints. A guard chases the player
when the player is inside its vision cone, and returns to the nearer endpoint when it loses
sight of the player.

The model covers these parts of the game:

- **Maze** (`maze.dfy`, module `Mazes`): the grid, its tile codes (`FLOOR = 0`, `WALL = 1`,
  `GOAL = 2`) and the fields derived when it is built. It also holds the tile-overlap collision
  query shared by guards and player.
  - The query divides the hitbox edges by the tile size.
  - A tile outside the grid counts as a wall.
  - Guards take the far edge one pixel inside the hitbox (`right - 1`). The player takes the
    first pixel outside (`right`). The type `EdgeRule` names the two choices.
- **Geometry and helpers** (`geometry.dfy`, `utils.dfy`): vectors, `distance`, `clamp` and
  `in_vision_cone`.
  `outcome.dfy` names how a call of the movers ends: it returns, or raises `TypeError` or
  `UnboundLocalError`.
  - `math.hypot` and `math.sqrt` come in as a `MathLib` value.
  - `Sound(lib)` says that these return the non-negative roots.
- **Guard agent** (`agents.dfy`, class `Agents.Agent`): its fields, hitbox and collision query,
  `_normalize`, `_set_facing_toward`, `reached_patrol_target` and `on_track`.
- **One tick of every guard** (`patrol.dfy`, `agent_actions.dfy`): the current `move_agents`.
  - `patrol.dfy` states it as functions on an agent's `Motion`: the chase/patrol decision, the
    X-then-Y move with undo on collision, and the clamp.
  - `agent_actions.dfy` has the in-place class `AgentActions.AgentActions`. Its methods are
    proved to leave every agent in exactly the state those functions give.
- **The older draft of `move_agents`** (`draft_actions.dfy`): chase and patrol that snap onto
  the target and do no collision. It is modelled as written and also corrected; see
  "## Findings".
- **Player** (`player.dfy`, class `Players.Player`):
  - diagonal input scaled by `0.7071`;
  - the same X-then-Y move with undo as the guards, but under the player's own edge rule;
  - no clamp and no `dt` guard.
- **Populating the world** (`world.dfy`, class `Worlds.World`):
  - `populate` scans the floor tiles in row-major order;
  - it creates the agents centred on floor tiles, each with two floor-tile patrol endpoints;
  - each random choice is an index the caller supplies (a `Pick`).

Positions are reals. Python's `int()` on a position is `Trunc`, which truncates toward zero.
Python's `//` by the positive tile size is Dafny's `/`.

Some behaviour of the code is easy to get wrong, and the model keeps to the code:

- **Sight.** `in_vision_cone` consults no maze, so walls never block sight. It measures from
  the agent's top-left corner, not the hitbox centre.
- **No snap in the current mover.** The current `move_agents` moves by velocity times `dt` and
  undoes an axis step on collision. It can overshoot a target. Only the older draft snaps onto
  the target.
- **Clamp and `dt` guard.** Only the guards are clamped into the maze, and only the current
  `Agent_Actions.move_agents` in `Hackathon_Stealth_main` ignores `dt <= 0`. The older draft's
  `move_agents` and the player update do neither.
- **Diagonal factor.** Diagonal input is scaled by the literal `0.7071`, not by `1/sqrt(2)`.
- **Ties between endpoints.** On losing sight the guard picks `endA` only when it is strictly
  nearer, so a tie goes to `endB`. `ResumeNearer` states it that way.
- **Default target in the draft.** The draft defaults a missing target to `endA` only. The
  current code falls back to `endB` when `endA` is unset.
- **The sight call in the current mover.** `move_agents` calls `in_vision_cone` with three
  arguments, but the function takes two. See "## Findings".

## Model

| member | source | states |
|---|---|---|
| Geometry.Length | Hackathon_Stealth_main/AI_Agents/AI_Agents.py:98-103 | `math.hypot` of an offset is non-negative, and it is zero exactly for the zero offset (the case in which `_normalize` returns no direction) |
| Geometry.LengthSquared | Hackathon_Stealth_main/AI_Agents/AI_Agents.py:100 | the square of `hypot(dx, dy)` is `dx*dx + dy*dy` |
| Geometry.LengthLess | Hackathon_Stealth_main/AI_Agents/Agent_Actions.py:66-68 | comparing two `hypot` distances is comparing their squared lengths, so `dA < dB` needs no root |
| Geometry.LengthAtMost | Hackathon_Stealth_main/AI_Agents/AI_Agents.py:110 | `hypot(...) <= thresh` holds exactly when `thresh >= 0` and the squared distance is at most `thresh*thresh` |
| Geometry.Trunc | Hackathon_Stealth_main/AI_Agents/AI_Agents.py:36 | `int()` truncates toward zero: the result is within one of the value, on the side nearer zero |
| Geometry.MaxInt | Hackathon_Stealth_main/AI_Agents/Agent_Actions.py:107-108 | Python's `max` of two ints: no smaller than either, and equal to one of them |
| Utils.Distance | Hackathon_Stealth_main/utils/utils.py:3-4 | `distance(a, b)` is non-negative and zero exactly when `a == b` |
| Utils.DistanceSymmetric | Hackathon_Stealth_main/utils/utils.py:3-4 | `distance(a, b) == distance(b, a)` |
| Utils.Clamp | Hackathon_Stealth_main/utils/utils.py:6-7 | `max(low, min(high, val))` lies in `[low, high]` when `low <= high`, keeps a value inside, sends a value below to `low` and one above to `high`, and gives `low` when the bounds cross |
| Utils.ClampIdempotent | Hackathon_Stealth_main/utils/utils.py:6-7 | clamping twice is clamping once, whatever the bounds |
| Utils.InVisionCone | Hackathon_Stealth_main/utils/utils.py:9-26 | a target on the agent's own corner, or beyond the vision distance, is never seen |
| Utils.VisionConeExact | Hackathon_Stealth_main/utils/utils.py:14-26 | seen exactly when `0 < dist^2 <= visionDistance^2` and `facing . d >= cosHalfVision * |d|`, both bounds inclusive |
| Utils.VisionConeRootFree | Hackathon_Stealth_main/utils/utils.py:14-26 | the same condition decided on squares, without any root |
| Utils.SeenAtFullRange | Hackathon_Stealth_main/utils/utils.py:15 | a target straight ahead at exactly the vision distance is seen, because the range test is `>` and not `>=` |
| Mazes.NewMaze | world/maze.py:8-16 | building a maze fails exactly for an empty grid, whose first row does not exist; otherwise it keeps the grid and tile size, has one row per grid row and as many columns as the first row, and measures `cols*tileSize` by `rows*tileSize` pixels |
| Mazes.NewMazeValid | world/maze.py:12-16 | for a non-empty rectangular grid, `rows` is the number of rows, `cols` the length of the first row, `width == cols*tile_size` and `height == rows*tile_size` |
| Mazes.SearchSpan | Hackathon_Stealth_main/AI_Agents/AI_Agents.py:51-61 | the nested row/column loop returns true exactly when some visited tile is outside the grid or a wall |
| Mazes.OutOfBoundsBlocks | Hackathon_Stealth_main/AI_Agents/AI_Agents.py:54-55 | a hitbox that spans any tile outside `[0, rows) x [0, cols)` collides |
| Mazes.InBoundsBlocked | Hackathon_Stealth_main/AI_Agents/AI_Agents.py:57-59 | inside the grid a hitbox collides exactly when a spanned tile is a wall; floor and goal tiles never block |
| Mazes.TilesArePixels | Hackathon_Stealth_main/AI_Agents/AI_Agents.py:45-49 | the tile range computed by `//` is exactly the set of tiles that hold the hitbox's pixels |
| Mazes.FirstOutsideCoversLastInside | entities/player.py:50-53 | the player's `right // ts` range covers the agents' `(right - 1) // ts` range, so anything that stops an agent's hitbox stops the same hitbox of the player |
| Mazes.RulesDiffer | entities/player.py:50-53 | the two edge rules differ: a tile-sized hitbox on the only floor tile fits under the agents' rule but collides under the player's rule |
| Movement.HitboxAt | Hackathon_Stealth_main/AI_Agents/AI_Agents.py:34-36 | `get_rect`: the `size` by `size` rectangle at the truncated position; its collision facts are in `TilesArePixels` and `FreeHitboxInside` |
| Movement.AxisStep | Hackathon_Stealth_main/AI_Agents/Agent_Actions.py:95-98 | one axis step: add the displacement and take it back off when the hitbox then collides; `AxisMoveKeepsFree` and `AxisMoveWholeSteps` state its effect |
| Movement.AxisMove | Hackathon_Stealth_main/AI_Agents/Agent_Actions.py:94-103 | the X step with undo, then the Y step with undo from where X left the body; its properties are the `AxisMove*` lemmas below |
| Movement.AxisMoveKeepsFree | Hackathon_Stealth_main/AI_Agents/Agent_Actions.py:94-103 | a collision-free body stays collision-free, whatever the displacement |
| Movement.AxisMoveWholeSteps | Hackathon_Stealth_main/AI_Agents/Agent_Actions.py:94-103 | each axis takes its whole displacement or none of it |
| Movement.AxisMoveUnblocked | Hackathon_Stealth_main/AI_Agents/Agent_Actions.py:94-103 | with neither step colliding, the body advances by the whole displacement |
| Movement.AxisMoveSlides | Hackathon_Stealth_main/AI_Agents/Agent_Actions.py:94-103 | a blocked X step is undone and the Y step still happens, so the body slides along the wall |
| Movement.AxisMoveBlocked | Hackathon_Stealth_main/AI_Agents/Agent_Actions.py:94-103 | with both steps blocked the body stays put |
| Movement.AxisMoveZero | Hackathon_Stealth_main/AI_Agents/Agent_Actions.py:94-103 | a zero displacement leaves the body where it was, even inside a wall |
| Movement.ClampAxis | Hackathon_Stealth_main/AI_Agents/Agent_Actions.py:105-108 | the clamped coordinate lies in `[0, max(0, extent - size)]` |
| Movement.FreeHitboxInside | Hackathon_Stealth_main/AI_Agents/AI_Agents.py:54-55 | a collision-free agent hitbox lies inside the maze's pixel extent |
| Movement.ClampKeepsFree | Hackathon_Stealth_main/AI_Agents/Agent_Actions.py:105-108 | the clamp never moves the hitbox of a collision-free agent |
| Agents.Normalize | Hackathon_Stealth_main/AI_Agents/AI_Agents.py:98-103 | `_normalize` returns no direction exactly for the zero vector |
| Agents.NormalizeUnit | Hackathon_Stealth_main/AI_Agents/AI_Agents.py:98-103 | the direction has length one and, scaled by the original length, gives back the original vector |
| Agents.FacingToward | Hackathon_Stealth_main/AI_Agents/AI_Agents.py:85-92 | a target at the agent's own position leaves the facing unchanged |
| Agents.FacingTowardUnit | Hackathon_Stealth_main/AI_Agents/AI_Agents.py:85-92 | a target elsewhere gives the unit vector from the agent toward it |
| Agents.Reached | Hackathon_Stealth_main/AI_Agents/AI_Agents.py:105-110 | false without a target; otherwise true exactly when the squared distance is at most `thresh*thresh` and `thresh >= 0` |
| Agents.Lerp | Hackathon_Stealth_main/AI_Agents/AI_Agents.py:75-76 | `t = 0` gives `endA`, `t = 1` gives `endB`, and the offset from `endA` is `t` times the segment |
| Agents.Agent.Hitbox | Hackathon_Stealth_main/AI_Agents/AI_Agents.py:34-36 | `get_rect` on the agent's current position and size |
| Agents.Agent.ReachedPatrolTarget | Hackathon_Stealth_main/AI_Agents/AI_Agents.py:105-110 | `reached_patrol_target(thresh)` on the agent's position and target; `Agents.Reached` states its meaning |
| Agents.Agent.constructor | Hackathon_Stealth_main/AI_Agents/AI_Agents.py:8-32 | a new agent faces right, is not chasing, has no endpoints or target, and has vision 120 px over `pi/2`, speeds 60 and 180, and the cached cosine of the half angle |
| Agents.Agent.CollidesWithWall | Hackathon_Stealth_main/AI_Agents/AI_Agents.py:38-61 | true exactly when the hitbox at the current position is not collision-free under the agents' rule (`right - 1`, `bottom - 1`) |
| Agents.Agent.SetFacingToward | Hackathon_Stealth_main/AI_Agents/AI_Agents.py:85-92 | only the facing changes, to the direction toward the target, and not at all when the target is at the agent's position |
| Agents.Agent.OnTrack | Hackathon_Stealth_main/AI_Agents/AI_Agents.py:63-83 | a fresh agent at parameter `t` on the segment, with both endpoints set, aimed at the picked endpoint and facing it, with the size given and the speeds and sight fields of `StandardAI` |
| Patrol.Chase | Hackathon_Stealth_main/AI_Agents/Agent_Actions.py:48-57 | seeing the player sets `chasing` and changes nothing but the facing; on top of the player the velocity is zero and the facing unchanged |
| Patrol.ResumePatrol | Hackathon_Stealth_main/AI_Agents/Agent_Actions.py:60-69 | losing sight clears `chasing`, changes only target and facing, and the new target is one of the endpoints |
| Patrol.DefaultTarget | Hackathon_Stealth_main/AI_Agents/Agent_Actions.py:72-73 | only the target changes, and an on-track target stays on track |
| Patrol.FlipOnArrival | Hackathon_Stealth_main/AI_Agents/Agent_Actions.py:75-81 | only target and facing change, and an on-track target stays on track |
| Patrol.PatrolVelocity | Hackathon_Stealth_main/AI_Agents/Agent_Actions.py:83-92 | walking changes at most the facing |
| Patrol.Decide | Hackathon_Stealth_main/AI_Agents/Agent_Actions.py:44-92 | the chase-or-patrol half of a tick; `ChaseOnSight`, `DecideKeepsTrack` and the stage functions state what it does |
| Patrol.ClampToMaze | Hackathon_Stealth_main/AI_Agents/Agent_Actions.py:105-108 | the final clamp on both axes; `TickWithinBounds` and `ClampKeepsFree` state its effect |
| Patrol.Step | Hackathon_Stealth_main/AI_Agents/Agent_Actions.py:43-108 | one agent's loop body for a positive `dt`: decide, move with undo, clamp; `StepAgent` is proved against it |
| Patrol.Tick | Hackathon_Stealth_main/AI_Agents/Agent_Actions.py:40-108 | one agent's tick, doing nothing when `dt <= 0`; `MoveAgents` is proved against it and `TickIgnoresNonPositiveDt`, `TickWithinBounds` and `TickStaysFree` state its properties |
| Patrol.DefaultTargetSettles | Hackathon_Stealth_main/AI_Agents/Agent_Actions.py:72-73 | defaulting twice is defaulting once, and an agent with an endpoint always gets a target |
| Patrol.ChaseOnSight | Hackathon_Stealth_main/AI_Agents/Agent_Actions.py:48-57 | on sight the agent chases. Its velocity has the running speed and points at the player, and it faces the player. On top of the player it stands still. The patrol fields are untouched |
| Patrol.ResumeNearer | Hackathon_Stealth_main/AI_Agents/Agent_Actions.py:65-69 | with both endpoints set, the target becomes the strictly nearer endpoint (`endB` on a tie) and the agent faces it |
| Patrol.ResumeMissingEndpoint | Hackathon_Stealth_main/AI_Agents/Agent_Actions.py:63-64 | with an endpoint missing, the target becomes whichever endpoint is set (`endA or endB`) and the facing is kept |
| Patrol.DecideKeepsTrack | Hackathon_Stealth_main/AI_Agents/Agent_Actions.py:47-92 | the decision never moves an endpoint and never sets a target other than an endpoint or none |
| Patrol.FlipAlternates | Hackathon_Stealth_main/AI_Agents/Agent_Actions.py:75-79 | with distinct endpoints, arriving at one sends the agent to the other |
| Patrol.PatrolVelocityToward | Hackathon_Stealth_main/AI_Agents/Agent_Actions.py:83-92 | with no target, or standing on it, the velocity is zero and the facing kept; otherwise the agent faces the target and walks toward it at standard speed |
| Patrol.TickIgnoresNonPositiveDt | Hackathon_Stealth_main/AI_Agents/Agent_Actions.py:40-41 | a tick with `dt <= 0` changes nothing |
| Patrol.TickWithinBounds | Hackathon_Stealth_main/AI_Agents/Agent_Actions.py:105-108 | after a tick the top-left corner lies in `[0, max(0, width - size)] x [0, max(0, height - size)]` |
| Patrol.TickStaysFree | Hackathon_Stealth_main/AI_Agents/Agent_Actions.py:94-108 | an agent whose hitbox is collision-free is still collision-free after the tick |
| AgentActions.AgentActions.constructor | Hackathon_Stealth_main/AI_Agents/Agent_Actions.py:13-14 | keeps the `show_cones` flag |
| AgentActions.AgentActions.FaceToward | Hackathon_Stealth_main/AI_Agents/Agent_Actions.py:16-29 | turns the agent toward the target as `_set_facing_toward` does, changing nothing else |
| AgentActions.AgentActions.MoveAgents | Hackathon_Stealth_main/AI_Agents/Agent_Actions.py:31-108 | every agent ends in exactly the state `Tick` gives for its own start state (nothing happens when `dt <= 0`) |
| AgentActions.Bind | Hackathon_Stealth_main/utils/utils.py:9 | positional arguments bind to the parameters of a function without defaults exactly when their counts agree, and then each parameter names the argument in its position; otherwise the call raises `TypeError` |
| AgentActions.SightCallRaises | Hackathon_Stealth_main/AI_Agents/Agent_Actions.py:48 | the three arguments of the sight call as written do not bind to the two parameters of `in_vision_cone`, while `(a, player)` binds `agent` to `a` and `target` to `player` |
| AgentActions.AgentActions.MoveAgentsAsWritten | Hackathon_Stealth_main/AI_Agents/Agent_Actions.py:40-48 | as written: the call raises `TypeError` exactly when `dt > 0` and there is at least one agent, because the sight call's arguments do not bind; otherwise it returns; in every case no agent's state changes |
| AgentActions.Sees | Hackathon_Stealth_main/utils/utils.py:9-26 | the intended two-argument sight test on an agent's state; a seen player is never on the agent's corner and never beyond its vision distance |
| AgentActions.AgentActions.MoveAgentsSighted | Hackathon_Stealth_main/AI_Agents/Agent_Actions.py:31-108 | corrected: with the sight test `in_vision_cone(a, player)`, every agent ends in the state `Tick` gives for its own start state and its own sight |
| AgentActions.AgentActions.StepAll | Hackathon_Stealth_main/AI_Agents/Agent_Actions.py:43-108 | the loop over the agents leaves each agent in the state `Step` gives for its own start state, whatever the other agents did |
| AgentActions.AgentActions.StepAgent | Hackathon_Stealth_main/AI_Agents/Agent_Actions.py:44-108 | one agent's loop body leaves it in the state `Step` gives |
| AgentActions.AgentActions.DecideInPlace | Hackathon_Stealth_main/AI_Agents/Agent_Actions.py:44-92 | the chase-or-patrol half leaves the agent in the state `Decide` gives and returns its velocity |
| AgentActions.AgentActions.ChaseInPlace | Hackathon_Stealth_main/AI_Agents/Agent_Actions.py:48-57 | the chase branch in place matches `Chase` |
| AgentActions.AgentActions.ResumeInPlace | Hackathon_Stealth_main/AI_Agents/Agent_Actions.py:61-69 | the lost-sight branch in place matches `ResumePatrol` |
| AgentActions.AgentActions.FlipInPlace | Hackathon_Stealth_main/AI_Agents/Agent_Actions.py:75-81 | the turn at the target in place matches `FlipOnArrival` |
| AgentActions.AgentActions.WalkInPlace | Hackathon_Stealth_main/AI_Agents/Agent_Actions.py:83-92 | the walk in place matches `PatrolVelocity` |
| AgentActions.AgentActions.MoveInPlace | Hackathon_Stealth_main/AI_Agents/Agent_Actions.py:94-103 | the X-then-Y move with undo ends where `AxisMove` under the agents' rule says, and changes no other field |
| AgentActions.AgentActions.MoveX | Hackathon_Stealth_main/AI_Agents/Agent_Actions.py:95-98 | the X step with undo ends at `AxisStep` for `(move_x, 0)` and changes no other field |
| AgentActions.AgentActions.MoveY | Hackathon_Stealth_main/AI_Agents/Agent_Actions.py:100-103 | the Y step with undo ends at `AxisStep` for `(0, move_y)` and changes no other field |
| DraftActions.SnapToward | Hackathon-Stealth-main/AI_Agents/Agent_Actions.py:26-34 | an agent already on its target stays there |
| DraftActions.SnapArrives | Hackathon-Stealth-main/AI_Agents/Agent_Actions.py:28-31 | within reach the agent lands exactly on the target |
| DraftActions.SnapStepsExactly | Hackathon-Stealth-main/AI_Agents/Agent_Actions.py:32-34 | out of reach it moves exactly `move_dist` along the line to the target, and the remaining distance drops by exactly `move_dist` |
| DraftActions.SnapRemaining | Hackathon-Stealth-main/AI_Agents/Agent_Actions.py:32-34 | a positive move that falls short of the target ends strictly closer to it |
| DraftActions.SnapProgress | Hackathon-Stealth-main/AI_Agents/Agent_Actions.py:26-34 | a positive move toward a target elsewhere always ends strictly closer to it |
| DraftActions.DraftSight | Hackathon-Stealth-main/AI_Agents/Agent_Actions.py:16-44 | the draft's loop body never changes the endpoints |
| DraftActions.DraftPatrol | Hackathon-Stealth-main/AI_Agents/Agent_Actions.py:48-77 | the patrol block keeps the endpoints and the chase flag, and its target is an endpoint or the target it was given |
| DraftActions.DraftTick | Hackathon-Stealth-main/AI_Agents/Agent_Actions.py:14-77 | the corrected per-agent tick never changes the endpoints |
| DraftActions.DraftChaseNoOvershoot | Hackathon-Stealth-main/AI_Agents/Agent_Actions.py:16-34 | a guard that sees the player chases it and never overshoots: it lands on the player when within reach and otherwise ends strictly closer |
| DraftActions.DraftTickPatrols | Hackathon-Stealth-main/AI_Agents/Agent_Actions.py:48-77 | in the corrected tick every unseeing agent aims at its (defaulted, flipped) target, is not chasing, and ends strictly closer to the target or on it |
| DraftActions.EarlierAgentIdles | Hackathon-Stealth-main/AI_Agents/Agent_Actions.py:14-48 | for a concrete first-of-two agent the draft as written leaves the agent unchanged, while the corrected tick moves it 6 px toward `endA` |
| DraftActions.DraftMoveAgents | Hackathon-Stealth-main/AI_Agents/Agent_Actions.py:7-77 | as written: every agent takes only the sight half, the last agent then also patrols, and an empty list raises `UnboundLocalError`; otherwise it returns |
| DraftActions.PatrolLast | Hackathon-Stealth-main/AI_Agents/Agent_Actions.py:48-77 | as written, the patrol block acts on the last agent only: that agent ends in the `DraftPatrol` state and every other agent is unchanged |
| DraftActions.SightAll | Hackathon-Stealth-main/AI_Agents/Agent_Actions.py:14-44 | as written, the loop applies only the sight half: every agent ends in the `DraftSight` state of its own start state |
| DraftActions.DraftMoveAgentsFixed | Hackathon-Stealth-main/AI_Agents/Agent_Actions.py:7-77 | corrected: every agent ends in the state `DraftTick` gives |
| DraftActions.TickInPlace | Hackathon-Stealth-main/AI_Agents/Agent_Actions.py:14-77 | the corrected loop body in place ends in the state `DraftTick` gives |
| DraftActions.SightInPlace | Hackathon-Stealth-main/AI_Agents/Agent_Actions.py:16-44 | the loop body in place matches `DraftSight` |
| DraftActions.PatrolInPlace | Hackathon-Stealth-main/AI_Agents/Agent_Actions.py:48-77 | the patrol block in place matches `DraftPatrol` |
| DraftActions.ChaseInPlace | Hackathon-Stealth-main/AI_Agents/Agent_Actions.py:17-34 | the chase branch sets `chasing`, faces the player as `FacingToward` gives, lands where `SnapToward` at running speed times `dt` gives, and keeps the endpoints and the target |
| DraftActions.WalkInPlace | Hackathon-Stealth-main/AI_Agents/Agent_Actions.py:63-77 | the walk faces the target as `FacingToward` gives, lands where `SnapToward` gives, and keeps `chasing`, the target and the endpoints |
| DraftActions.SnapInPlace | Hackathon-Stealth-main/AI_Agents/Agent_Actions.py:26-34 | the in-place snap ends at `SnapToward` and changes no other field |
| Players.KeyVector | entities/player.py:25-28 | the direction input after diagonal scaling; `KeyVectorLength` states its length |
| Players.InputMove | entities/player.py:25-32 | the move for one update, the scaled key direction times `speed * dt`; `DiagonalNotFaster` and `InputMoveLength` state its length |
| Players.DiagonalNotFaster | entities/player.py:25-32 | for key input in `{-1, 0, 1}` the move is never longer than `speed * dt` |
| Players.InputMoveLength | entities/player.py:25-32 | the squared move length is the squared scaled-key length times `(speed*dt)^2` |
| Players.KeyVectorLength | entities/player.py:25-28 | the scaled key direction has squared length 0 with no input, 1 on one axis and `2 * 0.7071^2 < 1` on a diagonal |
| Players.Player.constructor | entities/player.py:4-12 | stores the position, size and speed; size and speed default to 28 and 180 |
| Players.Player.Hitbox | entities/player.py:14-16 | `get_rect` on the player's position and size, truncated as for the agents |
| Players.Player.CollidesWithWall | entities/player.py:45-66 | true exactly when the hitbox is not collision-free under the player's rule (`right`, `bottom`) |
| Players.Player.Update | entities/player.py:18-43 | the position ends where `AxisMove` under the player's rule puts it, for the diagonal-scaled input times `speed * dt` |
| Players.Player.MoveAxes | entities/player.py:34-43 | the X step with undo and then the Y step with undo end where `AxisMove` under the player's rule says |
| Players.Player.MoveX | entities/player.py:34-38 | the X step with undo ends at `AxisStep` for `(move_x, 0)` |
| Players.Player.MoveY | entities/player.py:40-43 | the Y step with undo ends at `AxisStep` for `(0, move_y)` |
| Players.UpdateIdle | entities/player.py:18-43 | with no input the player does not move |
| Players.UpdateStaysFree | entities/player.py:34-43 | a collision-free player stays collision-free whatever the input |
| Worlds.FloorTiles | world/world.py:45-50 | `floor_tiles`, the floor tiles in row-major order; `FloorTilesExact` states its contents and order |
| Worlds.IsFloor | world/world.py:49 | a tile inside the grid whose code is `0` |
| Worlds.CollectFloorTiles | world/world.py:45-50 | the scan returns `FloorTiles`, the floor tiles in row-major order |
| Worlds.FloorTilesExact | world/world.py:45-50 | `floor_tiles` holds exactly the tiles `(r, c)` with `grid[r][c] == 0`, each once, in strictly increasing row-major order |
| Worlds.TileSpot | world/world.py:59-68 | the spot's centre, `spot + size/2`, is the tile's centre `c*ts + ts/2` on each axis |
| Worlds.SpawnIsFree | world/world.py:59-68 | an agent no larger than a tile, centred on a floor tile, is collision-free |
| Worlds.SpawnMotion | world/world.py:70-83 | a spawned agent is not chasing, has both endpoints set, and has a target that is one of them |
| Worlds.SpawnOnFloor | world/world.py:57-83 | when a tile fits an agent, its spawn and both patrol endpoints are spots centred on floor tiles (never on a wall or goal tile), and all three are collision-free |
| Worlds.Spawn | world/world.py:57-83 | one loop iteration creates a fresh agent in the `SpawnMotion` state, with size 6, speeds 60 and 180, vision 120 px and the cached cosine of a quarter turn |
| Worlds.World.constructor | world/world.py:27 | a new world has no agents |
| Worlds.World.Populate | world/world.py:29-85 | nothing changes when there are agents already, there is no maze, or there is no floor tile; otherwise exactly `agentCount` fresh, distinct agents are added, each in the state its `Pick` selects and with the attributes of `StandardAI(x, y, 6)` |

## Left out

- The old draft's `move_agents` patrol block is placed after the loop over agents. This is
  listed under "## Findings".
- Drawing is left out. That means `draw_agents`, `World.draw`, `drawAgents`,
  `Maze._build_surface`, `Maze.draw`, `Player.draw` and the vision-cone polygon, which is
  floating-point trigonometry for rendering only.
- The game loop, the state classes, the window, the clock and keyboard polling are left out.
  Key input enters `Update` as `dx`, `dy`. The time step enters as `dt`.
- The root-level `maze.py` cannot run as written, and it is not part of this model.
- `AgentActions.AgentActions.MoveAgents`: the sight test of each agent is an input
  (`visible[i]`). `MoveAgentsSighted` ties it to `InVisionCone`, the intended two-argument
  call. The three-argument call as written is listed under "## Findings".
- The draft imports `StandardAI` from `AI_Agents` and `in_vision_cone` from `..utils.utils`.
  Those modules are not part of this model. The draft is taken to use the same `StandardAI`
  and `in_vision_cone` as the current code.
- `AgentActions.AgentActions.MoveAgents`: requires the agents in the list to be distinct
  objects. `populate` creates each one fresh, and `Populate` proves they are distinct.
- The `getattr`/`hasattr` defaults for `running_speed`, `standard_speed`, `size` and
  `_set_facing_toward` are left out. Every agent is a `StandardAI`, so the defaults never fire.
- The draft methods require both patrol endpoints to be set. The draft reaches a missing
  endpoint only on three paths: an agent that stops chasing indexes both endpoints
  (`Hackathon-Stealth-main/AI_Agents/Agent_Actions.py:41-42`); an arrival that flips to a missing
  endpoint passes `None` to `_set_facing_toward` (line 60); and a target still `None` after
  the default is unpacked (line 63). Each raises. An agent that sees the player, or takes none
  of these paths, runs with missing endpoints, and that case is not modelled either. `populate`
  and `on_track` set both endpoints on every agent they create, so the requirement excludes no
  agent the program produces.
- Python default arguments are parameters the caller always supplies: `size` of `on_track`
  and of `StandardAI`, `dt=1.0` of `move_agents`, and `thresh=4.0` of `reached_patrol_target`,
  which is passed as `REACH_THRESHOLD`. `populate` passes the size explicitly, both movers call
  `reached_patrol_target()` with the default, which `REACH_THRESHOLD` equals, and the callers of
  `move_agents` and `on_track` are not part of this model.
- The draft's `self.AI` and `self.player` assignments store values the draft never reads, and
  they are left out.
- `DraftActions.SnapInPlace` computes the direction afresh rather than reusing the one computed
  for the facing. The value is the same.
- Floating-point rounding is left out. Arithmetic is on exact reals, so `x + m - m == x` holds.
  `0.7071` is the exact decimal.
- `math.hypot`, `math.sqrt`, `math.cos` and `math.pi` are taken from a `MathLib` value.
  Only `hypot` and `sqrt` are constrained: they return the non-negative roots.
- `Utils.Distance`: states non-negativity and when the distance is zero, but not its square.
  `Geometry.LengthSquared` gives that.
- `Players.Player.Hitbox`: pygame's conversion of the player's float position to a `Rect` is
  taken to truncate, as `int()` does for the agents.
- `Mazes.Maze.Valid` is required by the collision queries. It asks for a positive tile size and
  a rectangular grid. A ragged grid, or a tile size of zero or less, is not modelled.
- `AGENT_COUNT` is a parameter of `Populate`, because the settings module is not part of this
  model.
- The random choices of `populate` and `on_track` are parameters:
  - `random.choice` over the floor tiles is an index, taken modulo their number;
  - the choice between the two endpoints is a boolean;
  - `random_t` is a real.
- `Worlds.World.Populate`: the maze is a field of the world. In the game it is read from the
  current state with `getattr`, and a missing maze is `None`.
- `Players.UpdateStaysFree`: the claim holds whatever the input, because each axis step is
  undone on collision. It needs no restriction of `dx`, `dy` to `{-1, 0, 1}`.

## Findings

| source | as written | input that shows it | evidently intended | confidence | as-written member | corrected member |
|---|---|---|---|---|---|---|
| Hackathon-Stealth-main/AI_Agents/Agent_Actions.py:45-77 | The patrol block is indented outside the `for a in agents` loop. It runs once, on the loop variable, which is the last agent. An empty list leaves `a` unbound and raises. | Two agents, neither chasing. The player sits on the first agent's corner, so it is unseen. The first agent's endpoints are 100 px and 200 px to its right, it has no target, and standard speed 60 with `dt = 0.1`. The first agent does not move. | Every agent that does not see the player patrols: it takes a default target, flips it on arrival and walks 6 px toward `endA`. | not executed | DraftActions.DraftMoveAgents, DraftActions.EarlierAgentIdles | DraftActions.DraftMoveAgentsFixed, DraftActions.DraftTickPatrols |
| Hackathon_Stealth_main/AI_Agents/Agent_Actions.py:48 | The sight test is called as `in_vision_cone(a, player, maze)`. `in_vision_cone` at `utils/utils.py:9` takes two parameters and has no defaults, so the call raises `TypeError`. | One agent, `dt = 0.016`. The first loop iteration makes the three-argument call, which raises before any agent moves. | Each agent's sight is `in_vision_cone(a, player)`, and every agent takes its tick. | not executed | AgentActions.AgentActions.MoveAgentsAsWritten | AgentActions.AgentActions.MoveAgentsSighted |
