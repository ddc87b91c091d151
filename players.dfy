/** The actor (player.cpp, class Player) and its per-frame update.

    A frame moves the actor horizontally in sub-steps of 0.2 toward the
    target x, climbing ledges of up to 8 units; applies gravity and moves it
    vertically in the same sub-steps until it lands, bumps its head or
    slides off a wall; pushes it out of any polygon it still touches; lets
    it slide along the edge it stands on; handles the buffered jump; and
    finally kills it in the wrong liquid or outside the screen.

    Which edge of a platform the actor touches, and in which direction, is
    the job of GetBestCollisionDirection; the update takes that query as the
    parameter `probe` (Collision.ContactProbe computes the same contact with
    an un-normalised normal), and takes std::sqrt as the parameter `sqrt`. */
module Players {
  import opened Geometry
  import opened Wrappers
  import opened Collision
  import opened Levers
  import opened LiquidPools

  const Gravity: real := 0.6
  const JumpForce: real := -18.0
  const MaxFallSpeed: real := 25.0
  const StepSize: real := 0.2
  const SlideFriction: real := 0.95
  const SurfaceStickiness: real := 0.8
  const JumpInputBuffer: int := 6
  const StepUpMax: int := 8

  datatype PlayerType = WaterPlayer | FirePlayer

  /** GetBestCollisionDirection for a box (position, size) and the points of
      one platform: direction -1 when there is no contact. */
  type Probe = (Vec2, Vec2, seq<Vec2>) -> EdgeContact

  /** Position and velocity, the part of the state the passes move. */
  datatype Motion = Motion(position: Vec2, velocity: Vec2)

  /** The outcome of the vertical pass: whether the actor was grounded, and
      the contact it was grounded on (the edge it may slide along). */
  datatype Landing = Landing(motion: Motion, grounded: bool, slide: Option<EdgeContact>)

  datatype PlayerState = PlayerState(
    position: Vec2,
    size: Vec2,
    velocity: Vec2,
    speed: real,
    isOnGround: bool,
    canJump: bool,
    isDead: bool,
    kind: PlayerType,
    jumpInputBuffer: int)

  /** The horizontal input: the right key wins when both are down. */
  function MoveDirX(left: bool, right: bool): real {
    if right then 1.0 else if left then -1.0 else 0.0
  }

  predicate IsWall(dir: int) {
    dir == 2 || dir == 3
  }

  function ProbeDir(probe: Probe, pos: Vec2, size: Vec2, plat: Platform): int {
    probe(pos, size, plat.points).direction
  }

  function ProbeNormal(probe: Probe, pos: Vec2, size: Vec2, plat: Platform): Vec2 {
    probe(pos, size, plat.points).normal
  }

  /** How many sub-steps are left between `from` and `to` when moving with
      sign v: the measure that makes both sweeps terminate. */
  function Remaining(from: real, to: real, v: real): int {
    if v > 0.0 then ((to - from) / StepSize).Floor else ((from - to) / StepSize).Floor
  }

  // ---------------------------------------------------------------------
  // Horizontal pass

  /** The first polygon platform, from index k on, that reports a wall. */
  function FirstWall(pos: Vec2, size: Vec2, platforms: seq<Platform>, probe: Probe, k: nat): (r: Option<nat>)
    ensures r.Some? ==> k <= r.value < |platforms|
    decreases |platforms| - k
  {
    if k >= |platforms| then None
    else if platforms[k].shape == Polygon && IsWall(ProbeDir(probe, pos, size, platforms[k])) then Some(k)
    else FirstWall(pos, size, platforms, probe, k + 1)
  }

  /** FirstWall finds the first such platform, and None means there is none. */
  lemma {:induction false} FirstWallIsFirst(pos: Vec2, size: Vec2, platforms: seq<Platform>, probe: Probe, k: nat)
    ensures var r := FirstWall(pos, size, platforms, probe, k);
      && (r.Some? ==> platforms[r.value].shape == Polygon && IsWall(ProbeDir(probe, pos, size, platforms[r.value])))
      && (forall j :: k <= j < |platforms| && (r.None? || j < r.value) ==>
            !(platforms[j].shape == Polygon && IsWall(ProbeDir(probe, pos, size, platforms[j]))))
    decreases |platforms| - k
  {
    if k < |platforms| {
      FirstWallIsFirst(pos, size, platforms, probe, k + 1);
    }
  }

  method FindWall(pos: Vec2, size: Vec2, platforms: seq<Platform>, probe: Probe) returns (wall: Option<nat>)
    ensures wall == FirstWall(pos, size, platforms, probe, 0)
  {
    var k := 0;
    while k < |platforms|
      invariant 0 <= k <= |platforms|
      invariant FirstWall(pos, size, platforms, probe, 0) == FirstWall(pos, size, platforms, probe, k)
    {
      if platforms[k].shape != Polygon {
        k := k + 1;
        continue;
      }
      var dir := probe(pos, size, platforms[k].points).direction;
      if dir == 2 || dir == 3 {
        return Some(k);
      }
      k := k + 1;
    }
    return None;
  }

  /** The box raised by h units (screen y grows downwards). */
  function Raised(pos: Vec2, h: int): Vec2 {
    Vec2(pos.x, pos.y - h as real)
  }

  /** The step-up probe: the lowest raise h, from h on up to 8, at which the
      platform reports a floor. */
  function StepUp(pos: Vec2, size: Vec2, poly: seq<Vec2>, probe: Probe, h: int): (r: Option<Vec2>)
    ensures r.Some? ==> r.value.x == pos.x && r.value.y <= pos.y - h as real
    decreases StepUpMax + 1 - h
  {
    if h > StepUpMax then None
    else if probe(Raised(pos, h), size, poly).direction == 0 then Some(Raised(pos, h))
    else StepUp(pos, size, poly, probe, h + 1)
  }

  /** Raising the box by g finds a floor, and no raise from h up to g does. */
  predicate LowestFloorAt(pos: Vec2, size: Vec2, poly: seq<Vec2>, probe: Probe, h: int, g: int) {
    && probe(Raised(pos, g), size, poly).direction == 0
    && forall f :: h <= f < g ==> probe(Raised(pos, f), size, poly).direction != 0
  }

  /** A step-up lifts the box by 1 to 8 units onto a floor, the smallest
      lift that finds one; None means no lift in range finds a floor. */
  lemma {:induction false} StepUpIsLowestFloor(pos: Vec2, size: Vec2, poly: seq<Vec2>, probe: Probe, h: int)
    requires 1 <= h
    ensures var r := StepUp(pos, size, poly, probe, h);
      && (r.Some? ==> exists g :: h <= g <= StepUpMax && r.value == Raised(pos, g) && LowestFloorAt(pos, size, poly, probe, h, g))
      && (r.None? ==> forall f :: h <= f <= StepUpMax ==> probe(Raised(pos, f), size, poly).direction != 0)
    decreases StepUpMax + 1 - h
  {
    if h <= StepUpMax && probe(Raised(pos, h), size, poly).direction != 0 {
      StepUpIsLowestFloor(pos, size, poly, probe, h + 1);
    }
  }

  method FindStepUp(pos: Vec2, size: Vec2, poly: seq<Vec2>, probe: Probe) returns (up: Option<Vec2>)
    ensures up == StepUp(pos, size, poly, probe, 1)
  {
    var baseY := pos.y;
    var h := 1;
    while h <= StepUpMax
      invariant 1 <= h <= StepUpMax + 1
      invariant StepUp(pos, size, poly, probe, 1) == StepUp(pos, size, poly, probe, h)
    {
      var testPos := Vec2(pos.x, baseY - h as real);
      var dir2 := probe(testPos, size, poly).direction;
      if dir2 == 0 {
        return Some(testPos);
      }
      h := h + 1;
    }
    return None;
  }

  /** One sub-step of the horizontal sweep, and whether a wall stopped it. */
  datatype SubStep = SubStep(motion: Motion, blocked: bool)

  function Direction(v: real): real {
    if v > 0.0 then StepSize else -StepSize
  }

  /** A sub-step of 0.2 in the direction of travel: free, or climbing a wall
      when a step-up finds a floor; otherwise the sub-step is undone and the
      horizontal velocity zeroed. */
  function StepX(m: Motion, size: Vec2, platforms: seq<Platform>, probe: Probe): (r: SubStep)
    ensures !r.blocked ==>
      && r.motion.velocity == m.velocity
      && r.motion.position.x == m.position.x + Direction(m.velocity.x)
      && r.motion.position.y <= m.position.y
    ensures r.blocked ==> r.motion == Motion(m.position, Vec2(0.0, m.velocity.y))
  {
    var moved := Vec2(m.position.x + Direction(m.velocity.x), m.position.y);
    match FirstWall(moved, size, platforms, probe, 0)
    case None => SubStep(m.(position := moved), false)
    case Some(k) =>
      match StepUp(moved, size, platforms[k].points, probe, 1)
      case Some(up) => SubStep(m.(position := up), false)
      case None => SubStep(Motion(Vec2(moved.x - Direction(m.velocity.x), moved.y), Vec2(0.0, m.velocity.y)), true)
  }

  predicate ShortOf(m: Motion, newX: real) {
    (m.velocity.x > 0.0 && m.position.x < newX) || (m.velocity.x < 0.0 && m.position.x > newX)
  }

  /** The horizontal sweep: sub-steps toward newX until it is reached or a
      wall stops the box. */
  function SweepX(m: Motion, size: Vec2, newX: real, platforms: seq<Platform>, probe: Probe): Motion
    decreases Remaining(m.position.x, newX, m.velocity.x)
  {
    if !ShortOf(m, newX) then m
    else if StepX(m, size, platforms, probe).blocked then StepX(m, size, platforms, probe).motion
    else SweepX(StepX(m, size, platforms, probe).motion, size, newX, platforms, probe)
  }

  /** The sweep never lowers the box (step-ups only raise it), keeps the
      vertical velocity, and either keeps the horizontal velocity or zeroes
      it at a wall; with no horizontal velocity it does nothing. */
  lemma {:induction false} SweepXKeeps(m: Motion, size: Vec2, newX: real, platforms: seq<Platform>, probe: Probe)
    ensures var r := SweepX(m, size, newX, platforms, probe);
      && r.position.y <= m.position.y
      && (r.velocity.x == m.velocity.x || r.velocity.x == 0.0)
      && r.velocity.y == m.velocity.y
      && (m.velocity.x == 0.0 ==> r == m)
    decreases Remaining(m.position.x, newX, m.velocity.x)
  {
    if ShortOf(m, newX) && !StepX(m, size, platforms, probe).blocked {
      SweepXKeeps(StepX(m, size, platforms, probe).motion, size, newX, platforms, probe);
    }
  }

  /** Moving right, the sweep ends between its start and less than one
      sub-step past newX. */
  lemma {:induction false} SweepXRight(m: Motion, size: Vec2, newX: real, platforms: seq<Platform>, probe: Probe)
    requires m.velocity.x > 0.0 && m.position.x < newX
    ensures m.position.x <= SweepX(m, size, newX, platforms, probe).position.x < newX + StepSize
    decreases Remaining(m.position.x, newX, m.velocity.x)
  {
    var next := StepX(m, size, platforms, probe).motion;
    if !StepX(m, size, platforms, probe).blocked && next.position.x < newX {
      SweepXRight(next, size, newX, platforms, probe);
    }
  }

  /** Moving left, the sweep ends between less than one sub-step before
      newX and its start. */
  lemma {:induction false} SweepXLeft(m: Motion, size: Vec2, newX: real, platforms: seq<Platform>, probe: Probe)
    requires m.velocity.x < 0.0 && m.position.x > newX
    ensures newX - StepSize < SweepX(m, size, newX, platforms, probe).position.x <= m.position.x
    decreases Remaining(m.position.x, newX, m.velocity.x)
  {
    var next := StepX(m, size, platforms, probe).motion;
    if !StepX(m, size, platforms, probe).blocked && next.position.x > newX {
      SweepXLeft(next, size, newX, platforms, probe);
    }
  }

  /** The sweep stops short of newX only at a wall: whenever it ends with
      its horizontal velocity still set, it has reached or passed newX. */
  lemma {:induction false} SweepXReachesUnlessBlocked(m: Motion, size: Vec2, newX: real, platforms: seq<Platform>, probe: Probe)
    ensures var r := SweepX(m, size, newX, platforms, probe);
      && (m.velocity.x > 0.0 && r.velocity.x != 0.0 ==> r.position.x >= newX)
      && (m.velocity.x < 0.0 && r.velocity.x != 0.0 ==> r.position.x <= newX)
    decreases Remaining(m.position.x, newX, m.velocity.x)
  {
    if ShortOf(m, newX) && !StepX(m, size, platforms, probe).blocked {
      SweepXReachesUnlessBlocked(StepX(m, size, platforms, probe).motion, size, newX, platforms, probe);
    }
  }

  /** One iteration of the horizontal loop of Player::Update. */
  method HorizontalStep(m: Motion, size: Vec2, platforms: seq<Platform>, probe: Probe) returns (r: SubStep)
    ensures r == StepX(m, size, platforms, probe)
  {
    var stepX := if m.velocity.x > 0.0 then StepSize else -StepSize;
    var moved := Vec2(m.position.x + stepX, m.position.y);
    var wall := FindWall(moved, size, platforms, probe);
    if wall.None? {
      return SubStep(m.(position := moved), false);
    }
    var up := FindStepUp(moved, size, platforms[wall.value].points, probe);
    if up.Some? {
      return SubStep(m.(position := up.value), false);
    }
    return SubStep(Motion(Vec2(moved.x - stepX, moved.y), Vec2(0.0, m.velocity.y)), true);
  }

  /** The horizontal pass of Player::Update. */
  method HorizontalPass(m: Motion, size: Vec2, platforms: seq<Platform>, probe: Probe) returns (r: Motion)
    ensures r == SweepX(m, size, m.position.x + m.velocity.x, platforms, probe)
  {
    var newX := m.position.x + m.velocity.x;
    r := m;
    if r.velocity.x != 0.0 {
      while (r.velocity.x > 0.0 && r.position.x < newX) || (r.velocity.x < 0.0 && r.position.x > newX)
        invariant r.velocity == m.velocity
        invariant SweepX(r, size, newX, platforms, probe) == SweepX(m, size, newX, platforms, probe)
        decreases Remaining(r.position.x, newX, r.velocity.x)
      {
        var step := HorizontalStep(r, size, platforms, probe);
        if step.blocked {
          r := step.motion;
          break;
        }
        r := step.motion;
      }
    }
  }

  // ---------------------------------------------------------------------
  // Vertical pass

  /** Gravity, with the fall speed capped. */
  function Fall(vy: real): real {
    if vy + Gravity > MaxFallSpeed then MaxFallSpeed else vy + Gravity
  }

  /** The fall speed never exceeds the cap, and below the cap gravity always
      speeds the fall up (or slows the rise). */
  lemma FallCapped(vy: real)
    ensures Fall(vy) <= MaxFallSpeed
    ensures vy < MaxFallSpeed ==> vy < Fall(vy)
    ensures vy + Gravity <= MaxFallSpeed ==> Fall(vy) == vy + Gravity
  {
  }

  /** A contact the vertical pass reacts to: a floor while falling, a
      ceiling while rising, or a wall while falling. */
  predicate Reacts(dir: int, vy: real) {
    (dir == 0 && vy > 0.0) || (dir == 1 && vy < 0.0) || (IsWall(dir) && vy > 0.0)
  }

  /** The contact of the first polygon platform, from index k on, that the
      vertical pass reacts to. */
  function FirstReaction(pos: Vec2, size: Vec2, vy: real, platforms: seq<Platform>, probe: Probe, k: nat): (r: Option<EdgeContact>)
    ensures r.Some? ==> Reacts(r.value.direction, vy)
    decreases |platforms| - k
  {
    if k >= |platforms| then None
    else if platforms[k].shape == Polygon && Reacts(ProbeDir(probe, pos, size, platforms[k]), vy) then
      Some(probe(pos, size, platforms[k].points))
    else FirstReaction(pos, size, vy, platforms, probe, k + 1)
  }

  method FindReaction(pos: Vec2, size: Vec2, vy: real, platforms: seq<Platform>, probe: Probe) returns (c: Option<EdgeContact>)
    ensures c == FirstReaction(pos, size, vy, platforms, probe, 0)
  {
    var k := 0;
    while k < |platforms|
      invariant 0 <= k <= |platforms|
      invariant FirstReaction(pos, size, vy, platforms, probe, 0) == FirstReaction(pos, size, vy, platforms, probe, k)
    {
      if platforms[k].shape != Polygon {
        k := k + 1;
        continue;
      }
      var contact := probe(pos, size, platforms[k].points);
      var dir := contact.direction;
      if (dir == 0 && vy > 0.0) || (dir == 1 && vy < 0.0) || ((dir == 2 || dir == 3) && vy > 0.0) {
        return Some(contact);
      }
      k := k + 1;
    }
    return None;
  }

  /** The reaction to contact c after the sub-step stepY took the box to
      pos: a floor undoes the sub-step and pulls the box along the normal, a
      ceiling undoes the sub-step, a wall pushes the box out along the
      normal.  Every reaction stops the fall or the rise. */
  function React(pos: Vec2, size: Vec2, vx: real, stepY: real, c: EdgeContact): Landing {
    if c.direction == 0 then
      var pull := CollisionMargin * SurfaceStickiness * 1.5;
      Landing(Motion(Vec2(pos.x + c.normal.x * pull, pos.y - stepY + c.normal.y * pull), Vec2(vx, 0.0)), true, Some(c))
    else if c.direction == 1 then
      Landing(Motion(Vec2(pos.x, pos.y - stepY), Vec2(vx, 0.0)), false, None)
    else
      var push := Max(size.x, size.y) * 0.6 + CollisionMargin;
      Landing(Motion(Vec2(pos.x + c.normal.x * push, pos.y + c.normal.y * push), Vec2(vx, 0.0)), true, Some(c))
  }

  /** The vertical sweep: sub-steps toward newY until a contact reacts. */
  function SweepY(m: Motion, size: Vec2, newY: real, platforms: seq<Platform>, probe: Probe): Landing
    decreases Remaining(m.position.y, newY, m.velocity.y)
  {
    var vy := m.velocity.y;
    if !((vy > 0.0 && m.position.y < newY) || (vy < 0.0 && m.position.y > newY)) then Landing(m, false, None)
    else
      var stepY := if vy > 0.0 then StepSize else -StepSize;
      var moved := Vec2(m.position.x, m.position.y + stepY);
      match FirstReaction(moved, size, vy, platforms, probe, 0)
      case None => SweepY(m.(position := moved), size, newY, platforms, probe)
      case Some(c) => React(moved, size, m.velocity.x, stepY, c)
  }

  /** The actor is grounded only by a floor or a wall met while falling, and
      then stops falling and remembers that contact; a rising actor is never
      grounded; the vertical velocity survives or is zeroed, and the
      horizontal one is untouched. */
  lemma {:induction false} SweepYLanding(m: Motion, size: Vec2, newY: real, platforms: seq<Platform>, probe: Probe)
    ensures var r := SweepY(m, size, newY, platforms, probe);
      && (r.grounded ==>
            && m.velocity.y > 0.0 && r.motion.velocity.y == 0.0
            && r.slide.Some? && (r.slide.value.direction == 0 || IsWall(r.slide.value.direction)))
      && (r.slide.Some? ==> r.grounded)
      && (m.velocity.y <= 0.0 ==> !r.grounded)
      && (r.motion.velocity.y == m.velocity.y || r.motion.velocity.y == 0.0)
      && r.motion.velocity.x == m.velocity.x
    decreases Remaining(m.position.y, newY, m.velocity.y)
  {
    var vy := m.velocity.y;
    if (vy > 0.0 && m.position.y < newY) || (vy < 0.0 && m.position.y > newY) {
      var stepY := if vy > 0.0 then StepSize else -StepSize;
      var moved := Vec2(m.position.x, m.position.y + stepY);
      if FirstReaction(moved, size, vy, platforms, probe, 0).None? {
        SweepYLanding(m.(position := moved), size, newY, platforms, probe);
      }
    }
  }

  /** The sweep stops short of newY only at a contact it reacts to.  Falling,
      the actor ends grounded exactly when its fall was stopped, and otherwise
      has reached newY; rising, it is never grounded, and unless a ceiling
      stopped the rise it has reached newY.  A rise never moves the box
      sideways or down. */
  lemma {:induction false} SweepYReaches(m: Motion, size: Vec2, newY: real, platforms: seq<Platform>, probe: Probe)
    ensures var r := SweepY(m, size, newY, platforms, probe);
      && (m.velocity.y > 0.0 ==>
            && (r.grounded <==> r.motion.velocity.y == 0.0)
            && (r.motion.velocity.y != 0.0 ==> r.motion.position.y >= newY))
      && (m.velocity.y < 0.0 ==>
            && !r.grounded && r.slide.None?
            && r.motion.position.x == m.position.x && r.motion.position.y <= m.position.y
            && (r.motion.velocity.y != 0.0 ==> r.motion.position.y <= newY))
    decreases Remaining(m.position.y, newY, m.velocity.y)
  {
    var vy := m.velocity.y;
    if (vy > 0.0 && m.position.y < newY) || (vy < 0.0 && m.position.y > newY) {
      var stepY := if vy > 0.0 then StepSize else -StepSize;
      var moved := Vec2(m.position.x, m.position.y + stepY);
      if FirstReaction(moved, size, vy, platforms, probe, 0).None? {
        SweepYReaches(m.(position := moved), size, newY, platforms, probe);
      }
    }
  }

  /** The vertical pass of Player::Update, after gravity. */
  method VerticalPass(m: Motion, size: Vec2, platforms: seq<Platform>, probe: Probe) returns (l: Landing)
    ensures l == SweepY(m, size, m.position.y + m.velocity.y, platforms, probe)
  {
    var newY := m.position.y + m.velocity.y;
    var stepY := if m.velocity.y > 0.0 then StepSize else -StepSize;
    var r := m;
    if r.velocity.y != 0.0 {
      while (r.velocity.y > 0.0 && r.position.y < newY) || (r.velocity.y < 0.0 && r.position.y > newY)
        invariant r.velocity == m.velocity
        invariant SweepY(r, size, newY, platforms, probe) == SweepY(m, size, newY, platforms, probe)
        decreases Remaining(r.position.y, newY, r.velocity.y)
      {
        r := r.(position := Vec2(r.position.x, r.position.y + stepY));
        var c := FindReaction(r.position, size, r.velocity.y, platforms, probe);
        if c.Some? {
          return React(r.position, size, r.velocity.x, stepY, c.value);
        }
      }
    }
    return Landing(r, false, None);
  }

  // ---------------------------------------------------------------------
  // Corrective pass

  /** Pushing the box out along normal n and removing the velocity component
      that points into the surface. */
  function PushOut(m: Motion, size: Vec2, n: Vec2): Motion {
    var push := Max(size.x, size.y) / 2.0 + CollisionMargin + 1.0;
    var velDot := m.velocity.x * n.x + m.velocity.y * n.y;
    Motion(
      Vec2(m.position.x + n.x * push, m.position.y + n.y * push),
      if velDot < 0.0 then Vec2(m.velocity.x - n.x * velDot, m.velocity.y - n.y * velDot) else m.velocity)
  }

  /** The corrective pass over the platforms from index k on, each probe
      seeing the position the previous pushes left. */
  function Depenetrate(m: Motion, size: Vec2, platforms: seq<Platform>, probe: Probe, k: nat): Motion
    decreases |platforms| - k
  {
    if k >= |platforms| then m
    else if platforms[k].shape != Polygon then Depenetrate(m, size, platforms, probe, k + 1)
    else
      if ProbeDir(probe, m.position, size, platforms[k]) >= 0 then
        Depenetrate(PushOut(m, size, ProbeNormal(probe, m.position, size, platforms[k])), size, platforms, probe, k + 1)
      else Depenetrate(m, size, platforms, probe, k + 1)
  }

  /** With a unit normal, a push-out leaves no velocity into the surface:
      afterwards the velocity is along or away from the normal, and it is
      untouched when it already was. */
  lemma PushOutShedsInwardVelocity(m: Motion, size: Vec2, n: Vec2)
    requires Dot(n, n) == 1.0
    ensures Dot(PushOut(m, size, n).velocity, n) >= 0.0
    ensures Dot(m.velocity, n) >= 0.0 ==> PushOut(m, size, n).velocity == m.velocity
  {
    var v := m.velocity;
    var d := v.x * n.x + v.y * n.y;
    if d < 0.0 {
      var w := Vec2(v.x - n.x * d, v.y - n.y * d);
      assert PushOut(m, size, n).velocity == w;
      ComponentRemoved(v, n, d);
    }
  }

  lemma ComponentRemoved(v: Vec2, n: Vec2, d: real)
    ensures Dot(Vec2(v.x - n.x * d, v.y - n.y * d), n) == Dot(v, n) - d * Dot(n, n)
  {
    assert (v.x - n.x * d) * n.x == v.x * n.x - d * (n.x * n.x);
    assert (v.y - n.y * d) * n.y == v.y * n.y - d * (n.y * n.y);
  }

  /** A platform that reports no contact leaves the box alone; when no
      polygon platform reports one, the pass changes nothing. */
  lemma {:induction false} DepenetrateWithoutContact(m: Motion, size: Vec2, platforms: seq<Platform>, probe: Probe, k: nat)
    requires forall j :: k <= j < |platforms| && platforms[j].shape == Polygon ==> probe(m.position, size, platforms[j].points).direction < 0
    ensures Depenetrate(m, size, platforms, probe, k) == m
    decreases |platforms| - k
  {
    if k < |platforms| {
      DepenetrateWithoutContact(m, size, platforms, probe, k + 1);
    }
  }

  method CorrectivePass(m: Motion, size: Vec2, platforms: seq<Platform>, probe: Probe) returns (r: Motion)
    ensures r == Depenetrate(m, size, platforms, probe, 0)
  {
    r := m;
    var k := 0;
    while k < |platforms|
      invariant 0 <= k <= |platforms|
      invariant Depenetrate(r, size, platforms, probe, k) == Depenetrate(m, size, platforms, probe, 0)
    {
      if platforms[k].shape != Polygon {
        k := k + 1;
        continue;
      }
      var c := probe(r.position, size, platforms[k].points);
      if c.direction >= 0 {
        r := PushOut(r, size, c.normal);
      }
      k := k + 1;
    }
  }

  // ---------------------------------------------------------------------
  // Edge slide

  function EdgeLength(c: EdgeContact, sqrt: real -> real): real {
    sqrt(LengthSq(Sub(c.edgeEnd, c.edgeStart)))
  }

  /** The slide along the edge the actor was grounded on: with horizontal
      input on a sloped edge the horizontal speed is reset and the vertical
      one biased along the slope; then friction is applied. */
  function Slide(v: Vec2, moveX: real, speed: real, l: Landing, sqrt: real -> real): Vec2 {
    if !l.grounded || l.slide.None? || l.slide.value.normal.y == 0.0 then v
    else if !(EdgeLength(l.slide.value, sqrt) > 0.0001) then v
    else
      var len := EdgeLength(l.slide.value, sqrt);
      var ex := (l.slide.value.edgeEnd.x - l.slide.value.edgeStart.x) / len;
      var ey := (l.slide.value.edgeEnd.y - l.slide.value.edgeStart.y) / len;
      if !(Abs(ey) > 0.2) then v
      else
        var steered :=
          if moveX == 0.0 then v
          else if (ey < 0.0 && moveX > 0.0) || (ey > 0.0 && moveX < 0.0) then
            Vec2(moveX * speed, v.y - moveX * speed * 0.15 * Abs(ex))
          else
            Vec2(moveX * speed, v.y + moveX * speed * 0.1 * Abs(ex));
        Vec2(steered.x * SlideFriction, steered.y)
  }

  /** Without horizontal input the slide only applies friction: the vertical
      velocity is never changed. */
  lemma SlideWithoutInput(v: Vec2, speed: real, l: Landing, sqrt: real -> real)
    ensures Slide(v, 0.0, speed, l, sqrt).y == v.y
    ensures Slide(v, 0.0, speed, l, sqrt).x == v.x || Slide(v, 0.0, speed, l, sqrt).x == v.x * SlideFriction
  {
  }

  // ---------------------------------------------------------------------
  // Jump buffer and hazards

  /** The jump buffer after this frame's key press and decrement. */
  function BufferAfterPress(buffer: int, pressed: bool): int {
    var b := if pressed then JumpInputBuffer else buffer;
    if b > 0 then b - 1 else b
  }

  /** The buffer n frames after a press, with no press since and no jump. */
  function BufferAfterFrames(buffer: int, n: nat): int {
    if n == 0 then buffer else BufferAfterFrames(BufferAfterPress(buffer, false), n - 1)
  }

  /** A press keeps a jump possible for five frames: the one of the press
      and the four after it (the buffer is set to 6 and decremented in the
      same frame); on the sixth frame it has run out. */
  lemma BufferedJumpWindow(buffer: int)
    ensures forall n :: 0 <= n < JumpInputBuffer - 1 ==> BufferAfterFrames(BufferAfterPress(buffer, true), n) > 0
    ensures BufferAfterFrames(BufferAfterPress(buffer, true), JumpInputBuffer - 1) == 0
  {
    forall n | 0 <= n < JumpInputBuffer - 1
      ensures BufferAfterFrames(BufferAfterPress(buffer, true), n) > 0
    {
      BufferCountsDown(BufferAfterPress(buffer, true), n);
    }
    BufferCountsDown(BufferAfterPress(buffer, true), JumpInputBuffer - 1);
  }

  lemma {:induction false} BufferCountsDown(buffer: int, n: nat)
    requires n <= buffer
    ensures BufferAfterFrames(buffer, n) == buffer - n
  {
    if n > 0 {
      BufferCountsDown(buffer - 1, n - 1);
    }
  }

  /** A Water actor dies in lava or poison, a Fire actor in water or poison. */
  predicate Lethal(kind: PlayerType, liquid: Option<LiquidType>) {
    match liquid
    case None => false
    case Some(t) =>
      if kind == WaterPlayer then t == Lava || t == Poison
      else t == Water || t == Poison
  }

  /** Poison kills both actors; each survives its own element. */
  lemma LethalLiquids()
    ensures Lethal(WaterPlayer, Some(Poison)) && Lethal(FirePlayer, Some(Poison))
    ensures !Lethal(WaterPlayer, Some(Water)) && !Lethal(FirePlayer, Some(Lava))
    ensures Lethal(WaterPlayer, Some(Lava)) && Lethal(FirePlayer, Some(Water))
  {
  }

  predicate OutOfBounds(position: Vec2, size: Vec2, screenHeight: real) {
    position.y < 0.0 || position.y + size.y > screenHeight
  }

  // ---------------------------------------------------------------------
  // One frame

  function Horizontal(s: PlayerState, left: bool, right: bool, platforms: seq<Platform>, probe: Probe): Motion {
    var vx := MoveDirX(left, right) * s.speed;
    SweepX(Motion(s.position, Vec2(vx, s.velocity.y)), s.size, s.position.x + vx, platforms, probe)
  }

  function Vertical(m: Motion, size: Vec2, platforms: seq<Platform>, probe: Probe): Landing {
    var vy := Fall(m.velocity.y);
    SweepY(Motion(m.position, Vec2(m.velocity.x, vy)), size, m.position.y + vy, platforms, probe)
  }

  /** The movement part of a frame: where the passes leave the actor, and
      whether the vertical pass grounded it. */
  datatype Moved = Moved(motion: Motion, grounded: bool)

  function Physics(s: PlayerState, left: bool, right: bool, platforms: seq<Platform>, probe: Probe,
                   sqrt: real -> real): Moved
  {
    var l := Vertical(Horizontal(s, left, right, platforms, probe), s.size, platforms, probe);
    var c := Depenetrate(l.motion, s.size, platforms, probe, 0);
    Moved(Motion(c.position, Slide(c.velocity, MoveDirX(left, right), s.speed, l, sqrt)), l.grounded)
  }

  /** The four passes in the order Player::Update runs them. */
  method MovementPasses(s: PlayerState, left: bool, right: bool, platforms: seq<Platform>, probe: Probe,
                        sqrt: real -> real) returns (r: Moved)
    ensures r == Physics(s, left, right, platforms, probe, sqrt)
  {
    var moveDirX := 0.0;
    if left { moveDirX := -1.0; }
    if right { moveDirX := 1.0; }
    assert moveDirX == MoveDirX(left, right);
    var h := HorizontalPass(Motion(s.position, Vec2(moveDirX * s.speed, s.velocity.y)), s.size, platforms, probe);
    assert h == Horizontal(s, left, right, platforms, probe);
    var vy := h.velocity.y + Gravity;
    if vy > MaxFallSpeed {
      vy := MaxFallSpeed;
    }
    assert vy == Fall(h.velocity.y);
    var l := VerticalPass(Motion(h.position, Vec2(h.velocity.x, vy)), s.size, platforms, probe);
    assert l == Vertical(h, s.size, platforms, probe);
    var c := CorrectivePass(l.motion, s.size, platforms, probe);
    r := Moved(Motion(c.position, Slide(c.velocity, moveDirX, s.speed, l, sqrt)), l.grounded);
  }

  /** After the movement passes: the new position and velocity; the actor
      is on the ground exactly when the vertical pass grounded it, and a
      landing re-arms the jump. */
  function Land(s: PlayerState, p: Moved): PlayerState {
    s.(position := p.motion.position, velocity := p.motion.velocity,
       isOnGround := p.grounded, canJump := s.canJump || p.grounded)
  }

  /** The jump buffer and the jump: a live buffered press jumps when the
      actor can jump; an airborne actor then loses the jump. */
  function Jump(s: PlayerState, up: bool): PlayerState {
    var buffer := BufferAfterPress(s.jumpInputBuffer, up);
    var jump := buffer > 0 && s.canJump;
    var onGround := s.isOnGround && !jump;
    s.(velocity := if jump then Vec2(s.velocity.x, JumpForce) else s.velocity,
       isOnGround := onGround,
       canJump := s.canJump && !jump && onGround,
       jumpInputBuffer := if jump then 0 else buffer)
  }

  /** The hazards: a lethal liquid under the centre of the box, or leaving
      the screen vertically, kills the actor. */
  function Judge(s: PlayerState, liquids: seq<Liquid>, screenHeight: real): PlayerState {
    s.(isDead := s.isDead || Lethal(s.kind, LiquidAt(liquids, Center(s.position, s.size)))
                 || OutOfBounds(s.position, s.size, screenHeight))
  }

  /** Player::Update as a function of the state before the frame. */
  function Frame(s: PlayerState, left: bool, right: bool, up: bool, platforms: seq<Platform>,
                 liquids: seq<Liquid>, screenHeight: real, probe: Probe, sqrt: real -> real): PlayerState
  {
    if s.isDead then s
    else Judge(Jump(Land(s, Physics(s, left, right, platforms, probe, sqrt)), up), liquids, screenHeight)
  }

  /** A dead actor is frozen, and nothing brings it back. */
  lemma FrameDeadIsFrozen(s: PlayerState, left: bool, right: bool, up: bool, platforms: seq<Platform>,
                          liquids: seq<Liquid>, screenHeight: real, probe: Probe, sqrt: real -> real)
    ensures s.isDead ==> Frame(s, left, right, up, platforms, liquids, screenHeight, probe, sqrt) == s
    ensures s.isDead ==> Frame(s, left, right, up, platforms, liquids, screenHeight, probe, sqrt).isDead
  {
  }

  /** A live actor dies exactly when the centre of its box ends the frame in
      a liquid that is lethal to it, or the box leaves the screen vertically. */
  lemma FrameDeathRule(s: PlayerState, left: bool, right: bool, up: bool, platforms: seq<Platform>,
                       liquids: seq<Liquid>, screenHeight: real, probe: Probe, sqrt: real -> real)
    requires !s.isDead
    ensures var r := Frame(s, left, right, up, platforms, liquids, screenHeight, probe, sqrt);
      r.isDead <==> Lethal(s.kind, LiquidAt(liquids, Center(r.position, r.size))) || OutOfBounds(r.position, r.size, screenHeight)
  {
  }

  /** The jump rule: the actor jumps exactly when the buffered press is
      still live and it could jump (it could before, or it landed this
      frame); a jump sets the upward speed, leaves it airborne, and empties
      the buffer.  At the end of every frame an airborne actor cannot jump,
      and the buffer stays within [0, 6). */
  lemma FrameJumpRule(s: PlayerState, left: bool, right: bool, up: bool, platforms: seq<Platform>,
                      liquids: seq<Liquid>, screenHeight: real, probe: Probe, sqrt: real -> real)
    requires !s.isDead && 0 <= s.jumpInputBuffer <= JumpInputBuffer
    ensures var r := Frame(s, left, right, up, platforms, liquids, screenHeight, probe, sqrt);
      var grounded := Physics(s, left, right, platforms, probe, sqrt).grounded;
      var jump := BufferAfterPress(s.jumpInputBuffer, up) > 0 && (s.canJump || grounded);
      && (jump ==> r.velocity.y == JumpForce && !r.isOnGround && !r.canJump && r.jumpInputBuffer == 0)
      && (!jump ==> r.isOnGround == grounded && r.jumpInputBuffer == BufferAfterPress(s.jumpInputBuffer, up))
      && (!r.isOnGround ==> !r.canJump)
      && 0 <= r.jumpInputBuffer < JumpInputBuffer
  {
  }

  /** The actor ends a frame on the ground only if, after gravity, it was
      falling and the vertical pass met a floor or a wall. */
  lemma FrameGroundedNeedsLanding(s: PlayerState, left: bool, right: bool, up: bool, platforms: seq<Platform>,
                                  liquids: seq<Liquid>, screenHeight: real, probe: Probe, sqrt: real -> real)
    requires !s.isDead
    ensures var r := Frame(s, left, right, up, platforms, liquids, screenHeight, probe, sqrt);
      var h := Horizontal(s, left, right, platforms, probe);
      var l := Vertical(h, s.size, platforms, probe);
      r.isOnGround ==>
        && Fall(h.velocity.y) > 0.0
        && l.slide.Some? && (l.slide.value.direction == 0 || IsWall(l.slide.value.direction))
  {
    var h := Horizontal(s, left, right, platforms, probe);
    var vy := Fall(h.velocity.y);
    SweepYLanding(Motion(h.position, Vec2(h.velocity.x, vy)), s.size, h.position.y + vy, platforms, probe);
  }

  // ---------------------------------------------------------------------
  // The object

  class Player {
    var position: Vec2
    var size: Vec2
    var velocity: Vec2
    var speed: real
    var isOnGround: bool
    var canJump: bool
    var isDead: bool
    var kind: PlayerType
    var jumpInputBuffer: int

    ghost predicate Valid()
      reads this
    {
      0 <= jumpInputBuffer <= JumpInputBuffer
    }

    ghost function State(): PlayerState
      reads this
    {
      PlayerState(position, size, velocity, speed, isOnGround, canJump, isDead, kind, jumpInputBuffer)
    }

    constructor (t: PlayerType, pos: Vec2, sz: Vec2, vel: Vec2, spd: real)
      ensures State() == PlayerState(pos, sz, vel, spd, false, true, false, t, 0)
      ensures Valid()
    {
      position := pos;
      size := sz;
      velocity := vel;
      speed := spd;
      isOnGround := false;
      canJump := true;
      isDead := false;
      kind := t;
      jumpInputBuffer := 0;
    }

    /** One frame.  `left`, `right` and `up` are the key states the source
        reads from raylib; the horizontal screen size is unused, as in the
        source. */
    method Update(left: bool, right: bool, up: bool, platforms: seq<Platform>, liquids: seq<Liquid>,
                  screenWidth: real, screenHeight: real, probe: Probe, sqrt: real -> real)
      modifies this
      ensures State() == Frame(old(State()), left, right, up, platforms, liquids, screenHeight, probe, sqrt)
      ensures old(Valid()) ==> Valid()
    {
      if isDead {
        return;
      }
      var s := PlayerState(position, size, velocity, speed, isOnGround, canJump, isDead, kind, jumpInputBuffer);
      assert s == old(State());
      var p := MovementPasses(s, left, right, platforms, probe, sqrt);
      position, velocity := p.motion.position, p.motion.velocity;
      isOnGround := p.grounded;
      if p.grounded {
        canJump := true;
      }
      assert State() == Land(s, p);
      HandleJump(up);
      CheckHazards(liquids, screenHeight);
    }

    /** The jump-buffer and jump steps of Player::Update. */
    method HandleJump(up: bool)
      modifies this
      ensures State() == Jump(old(State()), up)
    {
      if up {
        jumpInputBuffer := JumpInputBuffer;
      }
      if jumpInputBuffer > 0 {
        jumpInputBuffer := jumpInputBuffer - 1;
      }
      if jumpInputBuffer > 0 && canJump {
        velocity := Vec2(velocity.x, JumpForce);
        isOnGround := false;
        canJump := false;
        jumpInputBuffer := 0;
      }
      if !isOnGround {
        canJump := false;
      }
    }

    /** The liquid and screen checks that end Player::Update. */
    method CheckHazards(liquids: seq<Liquid>, screenHeight: real)
      modifies this
      ensures State() == Judge(old(State()), liquids, screenHeight)
    {
      var liquid := CheckLiquidCollision(liquids, position, size);
      if liquid.Some? {
        var shouldDie := false;
        if kind == WaterPlayer {
          if liquid.value == Lava || liquid.value == Poison {
            shouldDie := true;
          }
        } else if kind == FirePlayer {
          if liquid.value == Water || liquid.value == Poison {
            shouldDie := true;
          }
        }
        if shouldDie {
          isDead := true;
        }
      }
      if position.y < 0.0 || position.y + size.y > screenHeight {
        isDead := true;
      }
    }
  }
}
