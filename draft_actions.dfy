/** The older draft of `move_agents`: chase and patrol with snap-to-target and no collision.
    Its patrol block sits after the loop over agents, so only the last agent patrols; the
    corrected version runs it for every agent that does not see the player. */
module DraftActions {
  import opened Geometry
  import opened Utils
  import opened Agents
  import opened Patrol
  import opened Outcomes

  /** One move of at most `moveDist` toward `target`: land exactly on the target when it is within
      reach or already reached (no direction), otherwise step `moveDist` along the unit direction
      to it. */
  function SnapToward(lib: MathLib, pos: Vec, target: Vec, moveDist: real): (r: Vec)
    requires Sound(lib)
    ensures target == pos ==> r == pos
  {
    var d := Sub(target, pos);
    match Normalize(lib, d)
    case None => target
    case Some(n) => if Length(lib, d) <= moveDist then target else Add(pos, Scale(n, moveDist))
  }

  /** Within reach the move lands exactly on the target. */
  lemma SnapArrives(lib: MathLib, pos: Vec, target: Vec, moveDist: real)
    requires Sound(lib) && Length(lib, Sub(target, pos)) <= moveDist
    ensures SnapToward(lib, pos, target, moveDist) == target
  {
  }

  /** Out of reach the move covers exactly `moveDist` along the line to the target, and what is
      left is the old distance less `moveDist`: the move never overshoots. */
  lemma SnapStepsExactly(lib: MathLib, pos: Vec, target: Vec, moveDist: real)
    requires Sound(lib) && 0.0 <= moveDist < Length(lib, Sub(target, pos))
    ensures var r := SnapToward(lib, pos, target, moveDist);
      var dist := Length(lib, Sub(target, pos));
      && NormSq(Sub(r, pos)) == Sq(moveDist)
      && Length(lib, Sub(target, r)) == dist - moveDist
      && Scale(Sub(r, pos), dist) == Scale(Sub(target, pos), moveDist)
  {
    var d := Sub(target, pos);
    var dist := Length(lib, d);
    NormalizeUnit(lib, d);
    var n := Normalize(lib, d).value;
    var r := SnapToward(lib, pos, target, moveDist);
    assert Sub(r, pos) == Scale(n, moveDist);
    ScaledUnit(n, moveDist);
    assert Sub(target, r) == Scale(n, dist - moveDist);
    ScaledUnit(n, dist - moveDist);
    LengthIsRoot(lib, Sub(target, r), dist - moveDist);
    assert Scale(Scale(n, moveDist), dist) == Scale(Scale(n, dist), moveDist);
  }

  /** A positive move toward a target elsewhere always gets strictly closer. */
  lemma SnapProgress(lib: MathLib, pos: Vec, target: Vec, moveDist: real)
    requires Sound(lib) && moveDist > 0.0 && target != pos
    ensures NormSq(Sub(target, SnapToward(lib, pos, target, moveDist))) < NormSq(Sub(target, pos))
  {
    if moveDist < Length(lib, Sub(target, pos)) {
      SnapRemaining(lib, pos, target, moveDist);
    } else {
      SnapArrives(lib, pos, target, moveDist);
      assert Sub(target, target) == Zero;
      assert Sub(target, pos) != Zero;
    }
  }

  /** Out of reach, the squared distance left after the move is that of the shorter distance
      `dist - moveDist`. */
  lemma SnapRemaining(lib: MathLib, pos: Vec, target: Vec, moveDist: real)
    requires Sound(lib) && 0.0 < moveDist < Length(lib, Sub(target, pos))
    ensures NormSq(Sub(target, SnapToward(lib, pos, target, moveDist))) < NormSq(Sub(target, pos))
  {
    var dist := Length(lib, Sub(target, pos));
    var r := SnapToward(lib, pos, target, moveDist);
    SnapStepsExactly(lib, pos, target, moveDist);
    LengthSquared(lib, Sub(target, pos));
    LengthSquared(lib, Sub(target, r));
    SqMonotone(dist - moveDist, dist);
  }

  /** The loop body of the draft for one agent: chase with snap when the player is in the vision
      cone; otherwise, if it was chasing, stop and head for the nearer endpoint. */
  function DraftSight(lib: MathLib, s: Motion, visionDistance: real, cosHalfVision: real,
                      runningSpeed: real, player: Vec, dt: real): (r: Motion)
    requires Sound(lib) && s.endA.Some? && s.endB.Some?
    ensures r.endA == s.endA && r.endB == s.endB
  {
    if InVisionCone(lib, s.pos, s.facing, visionDistance, cosHalfVision, player) then
      s.(chasing := true, facing := FacingToward(lib, s.pos, s.facing, player),
         pos := SnapToward(lib, s.pos, player, runningSpeed * dt))
    else if s.chasing then ResumePatrol(lib, s)
    else s
  }

  /** The draft's patrol block for one agent: default the target to `endA`, flip on arrival, then
      face the target and snap toward it at standard speed. */
  function DraftPatrol(lib: MathLib, s: Motion, moveDist: real): (r: Motion)
    requires Sound(lib) && s.endA.Some? && s.endB.Some?
    ensures r.endA == s.endA && r.endB == s.endB && r.chasing == s.chasing
    ensures r.target == s.endA || r.target == s.endB || (r.target == s.target && s.target.Some?)
  {
    var s2 := FlipOnArrival(lib, DefaultTarget(s));
    var t := s2.target.value;
    s2.(facing := FacingToward(lib, s2.pos, s2.facing, t), pos := SnapToward(lib, s2.pos, t, moveDist))
  }

  /** The evidently intended tick of the draft: an agent that does not see the player patrols. */
  function DraftTick(lib: MathLib, s: Motion, visionDistance: real, cosHalfVision: real,
                     runningSpeed: real, standardSpeed: real, player: Vec, dt: real): (r: Motion)
    requires Sound(lib) && s.endA.Some? && s.endB.Some?
    ensures r.endA == s.endA && r.endB == s.endB
  {
    var s1 := DraftSight(lib, s, visionDistance, cosHalfVision, runningSpeed, player, dt);
    if InVisionCone(lib, s.pos, s.facing, visionDistance, cosHalfVision, player) then s1
    else DraftPatrol(lib, s1, standardSpeed * dt)
  }

  /** A chasing agent that sees the player never overshoots it: it lands on the player when within
      this tick's running distance, and otherwise gets strictly closer. */
  lemma DraftChaseNoOvershoot(lib: MathLib, s: Motion, visionDistance: real, cosHalfVision: real,
                              runningSpeed: real, player: Vec, dt: real)
    requires Sound(lib) && s.endA.Some? && s.endB.Some? && runningSpeed * dt > 0.0
    requires InVisionCone(lib, s.pos, s.facing, visionDistance, cosHalfVision, player)
    ensures var r := DraftSight(lib, s, visionDistance, cosHalfVision, runningSpeed, player, dt);
      && r.chasing
      && (Length(lib, Sub(player, s.pos)) <= runningSpeed * dt ==> r.pos == player)
      && NormSq(Sub(player, r.pos)) < NormSq(Sub(player, s.pos))
  {
    SnapProgress(lib, s.pos, player, runningSpeed * dt);
  }

  /** In the corrected tick every agent that does not see the player, once its target is set and
      flipped, ends strictly closer to that target (or on it), whatever its place in the list. */
  lemma DraftTickPatrols(lib: MathLib, s: Motion, visionDistance: real, cosHalfVision: real,
                         runningSpeed: real, standardSpeed: real, player: Vec, dt: real)
    requires Sound(lib) && s.endA.Some? && s.endB.Some? && standardSpeed * dt > 0.0
    requires !InVisionCone(lib, s.pos, s.facing, visionDistance, cosHalfVision, player)
    ensures var s1 := DraftSight(lib, s, visionDistance, cosHalfVision, runningSpeed, player, dt);
      var t := FlipOnArrival(lib, DefaultTarget(s1)).target;
      var r := DraftTick(lib, s, visionDistance, cosHalfVision, runningSpeed, standardSpeed, player, dt);
      && t.Some? && r.target == t && !r.chasing
      && (t.value != s.pos ==> NormSq(Sub(t.value, r.pos)) < NormSq(Sub(t.value, s.pos)))
  {
    var s1 := DraftSight(lib, s, visionDistance, cosHalfVision, runningSpeed, player, dt);
    var t := FlipOnArrival(lib, DefaultTarget(s1)).target;
    if t.value != s.pos {
      SnapProgress(lib, s.pos, t.value, standardSpeed * dt);
    }
  }

  /** The indentation slip, on one concrete agent: first of two in the list, not chasing, the
      player on its own corner (so unseen), endpoints 100 and 200 pixels to its right, no target,
      standard speed 60 and `dt = 0.1`. As written it does not move at all; corrected, it walks
      6 pixels toward `endA`. */
  lemma EarlierAgentIdles(lib: MathLib, p: Vec, facing: Vec, visionDistance: real, cosHalfVision: real, runningSpeed: real)
    requires Sound(lib)
    ensures var s := Motion(p, facing, false, Some(Add(p, Vec(100.0, 0.0))), Some(Add(p, Vec(200.0, 0.0))), None);
      && DraftSight(lib, s, visionDistance, cosHalfVision, runningSpeed, p, 0.1) == s
      && DraftTick(lib, s, visionDistance, cosHalfVision, runningSpeed, 60.0, p, 0.1).pos == Add(p, Vec(6.0, 0.0))
  {
    var endA := Add(p, Vec(100.0, 0.0));
    var d := Sub(endA, p);
    assert d == Vec(100.0, 0.0);
    LengthIsRoot(lib, d, 100.0);
    assert Normalize(lib, d) == Some(Vec(1.0, 0.0));
  }

  /** `move_agents(agents, player, dt)` of the draft, as written: the loop applies only the sight
      half to each agent, then the patrol block runs on the loop variable, the last agent. With an
      empty list that variable is unbound and the block raises `UnboundLocalError`. Every
      agent must carry both endpoints, as losing sight indexes them. */
  method DraftMoveAgents(agents: seq<Agent>, player: Vec, dt: real, lib: MathLib) returns (r: Outcome)
    requires Sound(lib)
    requires forall i, j :: 0 <= i < j < |agents| ==> agents[i] != agents[j]
    requires forall i :: 0 <= i < |agents| ==> agents[i].patrolEndA.Some? && agents[i].patrolEndB.Some?
    modifies set a | a in agents
    ensures r == UnboundLocalError <==> |agents| == 0
    ensures r != UnboundLocalError <==> r == Returned
    ensures forall i :: 0 <= i < |agents| - 1 ==>
      agents[i].State() == DraftSight(lib, old(agents[i].State()), agents[i].visionDistance,
                                      agents[i].cosHalfVision, agents[i].runningSpeed, player, dt)
    ensures |agents| > 0 ==>
      var a := agents[|agents| - 1];
      a.State() == DraftPatrol(lib, DraftSight(lib, old(a.State()), a.visionDistance, a.cosHalfVision,
                                               a.runningSpeed, player, dt), a.standardSpeed * dt)
  {
    SightAll(agents, player, dt, lib);
    if |agents| == 0 {
      return UnboundLocalError;
    }
    PatrolLast(agents, dt, lib);
    return Returned;
  }

  /** The patrol block after the loop, applied to the loop variable: the last agent. */
  method PatrolLast(agents: seq<Agent>, dt: real, lib: MathLib)
    requires Sound(lib) && |agents| > 0
    requires forall i, j :: 0 <= i < j < |agents| ==> agents[i] != agents[j]
    requires agents[|agents| - 1].patrolEndA.Some? && agents[|agents| - 1].patrolEndB.Some?
    modifies agents[|agents| - 1]
    ensures forall i :: 0 <= i < |agents| - 1 ==> agents[i].State() == old(agents[i].State())
    ensures var a := agents[|agents| - 1];
      a.State() == DraftPatrol(lib, old(a.State()), a.standardSpeed * dt)
  {
    var last := agents[|agents| - 1];
    PatrolInPlace(last, dt, lib);
    forall i | 0 <= i < |agents| - 1
      ensures agents[i].State() == old(agents[i].State())
    {
      assert agents[i] != last;
    }
  }

  /** The draft's loop over agents, which applies only the sight half. */
  method SightAll(agents: seq<Agent>, player: Vec, dt: real, lib: MathLib)
    requires Sound(lib)
    requires forall i, j :: 0 <= i < j < |agents| ==> agents[i] != agents[j]
    requires forall i :: 0 <= i < |agents| ==> agents[i].patrolEndA.Some? && agents[i].patrolEndB.Some?
    modifies set a | a in agents
    ensures forall i :: 0 <= i < |agents| ==>
      agents[i].State() == DraftSight(lib, old(agents[i].State()), agents[i].visionDistance,
                                      agents[i].cosHalfVision, agents[i].runningSpeed, player, dt)
  {
    ghost var starts := seq(|agents|, k requires 0 <= k < |agents| reads set a | a in agents => agents[k].State());
    for i := 0 to |agents|
      invariant forall k :: 0 <= k < |agents| ==> starts[k] == old(agents[k].State())
      invariant forall k :: 0 <= k < i ==>
        agents[k].State() == DraftSight(lib, starts[k], agents[k].visionDistance,
                                        agents[k].cosHalfVision, agents[k].runningSpeed, player, dt)
      invariant forall k :: i <= k < |agents| ==> agents[k].State() == starts[k]
    {
      label before:
      SightInPlace(agents[i], player, dt, lib);
      forall k | 0 <= k < |agents| && k != i
        ensures agents[k].State() == old@before(agents[k].State())
      {
        assert agents[k] != agents[i];
      }
    }
  }

  /** The draft with the patrol block inside the loop's no-sight branch: every agent takes the
      whole corrected tick. */
  method DraftMoveAgentsFixed(agents: seq<Agent>, player: Vec, dt: real, lib: MathLib)
    requires Sound(lib)
    requires forall i, j :: 0 <= i < j < |agents| ==> agents[i] != agents[j]
    requires forall i :: 0 <= i < |agents| ==> agents[i].patrolEndA.Some? && agents[i].patrolEndB.Some?
    modifies set a | a in agents
    ensures forall i :: 0 <= i < |agents| ==>
      agents[i].State() == DraftTick(lib, old(agents[i].State()), agents[i].visionDistance, agents[i].cosHalfVision,
                                     agents[i].runningSpeed, agents[i].standardSpeed, player, dt)
  {
    ghost var starts := seq(|agents|, k requires 0 <= k < |agents| reads set a | a in agents => agents[k].State());
    for i := 0 to |agents|
      invariant forall k :: 0 <= k < |agents| ==> starts[k] == old(agents[k].State())
      invariant forall k :: 0 <= k < i ==>
        agents[k].State() == DraftTick(lib, starts[k], agents[k].visionDistance, agents[k].cosHalfVision,
                                       agents[k].runningSpeed, agents[k].standardSpeed, player, dt)
      invariant forall k :: i <= k < |agents| ==> agents[k].State() == starts[k]
    {
      label before:
      TickInPlace(agents[i], player, dt, lib);
      forall k | 0 <= k < |agents| && k != i
        ensures agents[k].State() == old@before(agents[k].State())
      {
        assert agents[k] != agents[i];
      }
    }
  }

  /** The corrected loop body on one agent: the sight half, then the patrol block when the
      player was not seen. */
  method TickInPlace(a: Agent, player: Vec, dt: real, lib: MathLib)
    requires Sound(lib) && a.patrolEndA.Some? && a.patrolEndB.Some?
    modifies a
    ensures a.State() == DraftTick(lib, old(a.State()), a.visionDistance, a.cosHalfVision,
                                   a.runningSpeed, a.standardSpeed, player, dt)
  {
    var seen := InVisionCone(lib, Vec(a.x, a.y), a.facing, a.visionDistance, a.cosHalfVision, player);
    SightInPlace(a, player, dt, lib);
    if !seen {
      PatrolInPlace(a, dt, lib);
    }
  }

  /** The draft's loop body on one agent. */
  method SightInPlace(a: Agent, player: Vec, dt: real, lib: MathLib)
    requires Sound(lib) && a.patrolEndA.Some? && a.patrolEndB.Some?
    modifies a
    ensures a.State() == DraftSight(lib, old(a.State()), a.visionDistance, a.cosHalfVision, a.runningSpeed, player, dt)
  {
    if InVisionCone(lib, Vec(a.x, a.y), a.facing, a.visionDistance, a.cosHalfVision, player) {
      ChaseInPlace(a, player, dt, lib);
    } else if a.chasing {
      a.chasing := false;
      var dA := Length(lib, Sub(a.patrolEndA.value, Vec(a.x, a.y)));
      var dB := Length(lib, Sub(a.patrolEndB.value, Vec(a.x, a.y)));
      a.patrolTarget := if dA < dB then a.patrolEndA else a.patrolEndB;
      a.SetFacingToward(a.patrolTarget.value, lib);
    }
  }

  /** Chase: face the player and snap toward it at running speed. */
  method ChaseInPlace(a: Agent, player: Vec, dt: real, lib: MathLib)
    requires Sound(lib)
    modifies a
    ensures a.chasing && a.facing == FacingToward(lib, Vec(old(a.x), old(a.y)), old(a.facing), player)
    ensures Vec(a.x, a.y) == SnapToward(lib, Vec(old(a.x), old(a.y)), player, a.runningSpeed * dt)
    ensures a.patrolEndA == old(a.patrolEndA) && a.patrolEndB == old(a.patrolEndB)
    ensures a.patrolTarget == old(a.patrolTarget)
  {
    a.chasing := true;
    var n := Normalize(lib, Sub(player, Vec(a.x, a.y)));
    if n.Some? {
      a.facing := n.value;
    }
    SnapInPlace(a, player, a.runningSpeed * dt, lib);
  }

  /** The draft's patrol block on one agent. */
  method PatrolInPlace(a: Agent, dt: real, lib: MathLib)
    requires Sound(lib) && a.patrolEndA.Some? && a.patrolEndB.Some?
    modifies a
    ensures a.State() == DraftPatrol(lib, old(a.State()), a.standardSpeed * dt)
  {
    if a.patrolTarget.None? {
      a.patrolTarget := a.patrolEndA;
    }
    if a.ReachedPatrolTarget(lib, REACH_THRESHOLD) {
      a.patrolTarget := if a.patrolTarget == a.patrolEndA then a.patrolEndB else a.patrolEndA;
      a.SetFacingToward(a.patrolTarget.value, lib);
    }
    WalkInPlace(a, a.patrolTarget.value, a.standardSpeed * dt, lib);
  }

  /** Face the patrol target and snap toward it; nothing happens when already on it. */
  method WalkInPlace(a: Agent, target: Vec, moveDist: real, lib: MathLib)
    requires Sound(lib)
    modifies a
    ensures a.facing == FacingToward(lib, Vec(old(a.x), old(a.y)), old(a.facing), target)
    ensures Vec(a.x, a.y) == SnapToward(lib, Vec(old(a.x), old(a.y)), target, moveDist)
    ensures a.chasing == old(a.chasing) && a.patrolTarget == old(a.patrolTarget)
    ensures a.patrolEndA == old(a.patrolEndA) && a.patrolEndB == old(a.patrolEndB)
  {
    var n := Normalize(lib, Sub(target, Vec(a.x, a.y)));
    if n.Some? {
      a.facing := n.value;
      SnapInPlace(a, target, moveDist, lib);
    }
  }

  /** The snap shared by chase and patrol: land on the target when this tick's `moveDist`
      reaches it, otherwise advance `moveDist` along the unit direction. */
  method SnapInPlace(a: Agent, target: Vec, moveDist: real, lib: MathLib)
    requires Sound(lib)
    modifies a
    ensures Vec(a.x, a.y) == SnapToward(lib, Vec(old(a.x), old(a.y)), target, moveDist)
    ensures a.facing == old(a.facing) && a.chasing == old(a.chasing)
    ensures a.patrolEndA == old(a.patrolEndA) && a.patrolEndB == old(a.patrolEndB)
    ensures a.patrolTarget == old(a.patrolTarget)
  {
    var d := Sub(target, Vec(a.x, a.y));
    var n := Normalize(lib, d);
    var dist := Length(lib, d);
    if dist <= moveDist || dist == 0.0 {
      a.x := target.x;
      a.y := target.y;
    } else {
      a.x := a.x + n.value.x * moveDist;
      a.y := a.y + n.value.y * moveDist;
    }
  }
}
