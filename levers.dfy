/** Levers and the moving platforms they drive (platforms.cpp, platforms.h).

    A lever counts how often it has fired; the parity of the count is its
    `triggered` flag.  Firing a lever points every moving platform linked to
    it forward (odd count) or backward (even count) and activates it.  Each
    frame an active platform moves its progress toward 1 or 0, stops and
    deactivates when it reaches the end, and is redrawn from its original
    points shifted by progress times the start-to-end vector.  One debounce
    slot keeps a lever from firing again while a player stays on it. */
module Levers {
  import opened Geometry

  datatype ShapeType = Rectangle | Polygon

  datatype Platform = Platform(
    points: seq<Vec2>,
    originalPoints: seq<Vec2>,
    shape: ShapeType,
    isMoving: bool,
    startPos: Vec2,
    endPos: Vec2,
    speed: real,
    progress: real,
    movingForward: bool,
    linkedLeverId: int,
    isActive: bool)

  /** raylib's `Rectangle`: top-left corner, width and height. */
  datatype Rect = Rect(x: real, y: real, width: real, height: real)

  /** The value of the debounce slot when it names no lever. */
  const NoLever: int := -999
  const DefaultLeverSize: Vec2 := Vec2(117.0, 99.0)
  const DefaultPlatformSpeed: real := 20.0
  const DefaultLinkedLeverId: int := -1

  /** C++'s `%` on int: the remainder takes the sign of the dividend. */
  function CRem(a: int, b: int): int
    requires b != 0
  {
    if a >= 0 then a % b else -((-a) % b)
  }

  // ---------------------------------------------------------------------
  // Platforms as values

  /** The original points shifted by t times the vector d. */
  function Placed(orig: seq<Vec2>, d: Vec2, t: real): seq<Vec2> {
    seq(|orig|, i requires 0 <= i < |orig| => Vec2(orig[i].x + d.x * t, orig[i].y + d.y * t))
  }

  function Travel(p: Platform): Vec2 {
    Sub(p.endPos, p.startPos)
  }

  /** What every platform keeps: as many points as original points, drawn at
      its current progress along the start-to-end vector. */
  predicate WellPlaced(p: Platform) {
    p.points == Placed(p.originalPoints, Travel(p), p.progress)
  }

  predicate InUnit(p: Platform) {
    0.0 <= p.progress <= 1.0
  }

  /** An inactive platform rests at one end of its track: a platform stops
      only where it is loaded (progress 0) or where a frame clamps it. */
  predicate AtRest(p: Platform) {
    !p.isActive ==> p.progress == 0.0 || p.progress == 1.0
  }

  /** A platform as the level loader builds it from one parsed record: a
      polygon at progress 0, inactive, headed forward at the default speed;
      the end points and the lever link are read only for a moving platform,
      and otherwise keep their defaults (the origin and -1). */
  function LoadedPlatform(points: seq<Vec2>, moving: bool, startPos: Vec2, endPos: Vec2, leverId: int): (p: Platform)
    ensures WellPlaced(p) && InUnit(p) && AtRest(p) && !p.isActive
    ensures p.originalPoints == points && p.points == points
    ensures p.shape == Polygon && p.isMoving == moving && p.progress == 0.0
    ensures p.speed == DefaultPlatformSpeed && p.movingForward
    ensures moving ==> p.startPos == startPos && p.endPos == endPos && p.linkedLeverId == leverId
    ensures !moving ==> p.startPos == Vec2(0.0, 0.0) && p.endPos == Vec2(0.0, 0.0) && p.linkedLeverId == DefaultLinkedLeverId
  {
    var p := Platform(points, points, Polygon, moving,
      if moving then startPos else Vec2(0.0, 0.0),
      if moving then endPos else Vec2(0.0, 0.0),
      DefaultPlatformSpeed, 0.0, true,
      if moving then leverId else DefaultLinkedLeverId, false);
    assert Placed(points, Travel(p), 0.0) == points;
    p
  }

  /** Moving by `step` in the platform's direction, with the clamp. */
  function Move(p: Platform, step: real): Platform {
    var raw := if p.movingForward then p.progress + step else p.progress - step;
    var clamped := if p.movingForward then raw >= 1.0 else raw <= 0.0;
    var progress := if !clamped then raw else if p.movingForward then 1.0 else 0.0;
    p.(progress := progress,
       isActive := p.isActive && !clamped,
       points := Placed(p.originalPoints, Travel(p), progress))
  }

  /** The length of the travel vector, through the square root the frame
      step is given. */
  function Distance(p: Platform, sqrt: real -> real): real {
    sqrt(LengthSq(Travel(p)))
  }

  /** One frame of Platforms::Update for one platform. */
  function Advance(p: Platform, deltaTime: real, sqrt: real -> real): Platform {
    if !p.isMoving || !p.isActive || Distance(p, sqrt) < 1.0 then p
    else Move(p, StepOf(p, deltaTime, sqrt))
  }

  /** The step a moving platform makes in one frame. */
  function StepOf(p: Platform, deltaTime: real, sqrt: real -> real): real
    requires Distance(p, sqrt) >= 1.0
  {
    deltaTime * p.speed / Distance(p, sqrt)
  }

  /** A platform that is not moving, not active, or whose ends are less than
      one unit apart does not change. */
  lemma AdvanceIdle(p: Platform, deltaTime: real, sqrt: real -> real)
    requires !p.isMoving || !p.isActive || Distance(p, sqrt) < 1.0
    ensures Advance(p, deltaTime, sqrt) == p
  {
  }

  /** Otherwise progress moves by the step in the platform's direction and is
      clamped to the end it was heading for; the platform deactivates exactly
      when the clamp is hit, and nothing but the progress, the activity and
      the drawn points changes. */
  lemma AdvanceMoves(p: Platform, deltaTime: real, sqrt: real -> real)
    requires p.isMoving && p.isActive && Distance(p, sqrt) >= 1.0
    ensures var r, step := Advance(p, deltaTime, sqrt), StepOf(p, deltaTime, sqrt);
      && (p.movingForward ==>
            && (!r.isActive <==> p.progress + step >= 1.0)
            && r.progress == (if r.isActive then p.progress + step else 1.0))
      && (!p.movingForward ==>
            && (!r.isActive <==> p.progress - step <= 0.0)
            && r.progress == (if r.isActive then p.progress - step else 0.0))
      && r.(progress := p.progress, isActive := p.isActive, points := p.points) == p
  {
  }

  /** Every frame leaves a platform well placed. */
  lemma AdvanceWellPlaced(p: Platform, deltaTime: real, sqrt: real -> real)
    requires WellPlaced(p)
    ensures WellPlaced(Advance(p, deltaTime, sqrt))
    ensures |Advance(p, deltaTime, sqrt).points| == |p.originalPoints|
  {
  }

  /** A frame stops a platform only at a clamp, so a resting platform stays
      at an end of its track. */
  lemma AdvanceKeepsAtRest(p: Platform, deltaTime: real, sqrt: real -> real)
    requires AtRest(p)
    ensures AtRest(Advance(p, deltaTime, sqrt))
  {
  }

  /** With a non-negative frame time and speed, progress never leaves [0, 1]. */
  lemma AdvanceInUnit(p: Platform, deltaTime: real, sqrt: real -> real)
    requires InUnit(p) && deltaTime >= 0.0 && p.speed >= 0.0
    ensures InUnit(Advance(p, deltaTime, sqrt))
  {
    if p.isMoving && p.isActive && Distance(p, sqrt) >= 1.0 {
      StepNonneg(deltaTime, p.speed, Distance(p, sqrt));
    }
  }

  lemma StepNonneg(deltaTime: real, speed: real, distance: real)
    requires deltaTime >= 0.0 && speed >= 0.0 && distance >= 1.0
    ensures deltaTime * speed / distance >= 0.0
  {
    MulNonneg(deltaTime, speed);
  }

  /** n frames of Platforms::Update. */
  function AdvanceTimes(p: Platform, deltaTime: real, sqrt: real -> real, n: nat): Platform
    decreases n
  {
    if n == 0 then p else AdvanceTimes(Advance(p, deltaTime, sqrt), deltaTime, sqrt, n - 1)
  }

  /** A platform sent forward with a positive step arrives: after any n frames
      whose steps add up to the remaining distance, it rests at progress 1,
      inactive, drawn at its end position. */
  lemma {:induction false} ForwardPlatformArrives(p: Platform, deltaTime: real, sqrt: real -> real, n: nat)
    requires p.isMoving && p.isActive && p.movingForward && Distance(p, sqrt) >= 1.0
    requires p.progress < 1.0
    requires StepOf(p, deltaTime, sqrt) > 0.0
    requires p.progress + (n as real) * StepOf(p, deltaTime, sqrt) >= 1.0
    ensures var r := AdvanceTimes(p, deltaTime, sqrt, n);
      r.progress == 1.0 && !r.isActive && r.points == Placed(p.originalPoints, Travel(p), 1.0)
    decreases n
  {
    var step := StepOf(p, deltaTime, sqrt);
    var q := Advance(p, deltaTime, sqrt);
    AdvanceMoves(p, deltaTime, sqrt);
    assert n > 0;
    if !q.isActive {
      AdvanceTimesInactive(q, deltaTime, sqrt, n - 1);
    } else {
      assert q.startPos == p.startPos && q.endPos == p.endPos && q.speed == p.speed;
      assert Travel(q) == Travel(p);
      assert Distance(q, sqrt) == Distance(p, sqrt);
      assert StepOf(q, deltaTime, sqrt) == step;
      assert q.progress + ((n - 1) as real) * step == p.progress + (n as real) * step;
      ForwardPlatformArrives(q, deltaTime, sqrt, n - 1);
    }
  }

  /** An inactive platform stays where it is, frame after frame. */
  lemma {:induction false} AdvanceTimesInactive(p: Platform, deltaTime: real, sqrt: real -> real, n: nat)
    requires !p.isActive
    ensures AdvanceTimes(p, deltaTime, sqrt, n) == p
    decreases n
  {
    if n > 0 {
      AdvanceTimesInactive(p, deltaTime, sqrt, n - 1);
    }
  }

  /** At progress 1 a platform is its original shape moved by end − start. */
  lemma PlacedAtEnd(orig: seq<Vec2>, d: Vec2)
    ensures forall i :: 0 <= i < |orig| ==> Placed(orig, d, 1.0)[i] == Add(orig[i], d)
  {
  }

  // ---------------------------------------------------------------------
  // One pass of lever interactions, as values

  /** The platform as a fired lever leaves it: linked moving platforms are
      pointed forward on an odd count, backward on an even one, and
      activated. */
  function LinkOne(p: Platform, id: int, count: int): Platform {
    if p.isMoving && p.linkedLeverId == id then
      if CRem(count, 2) == 1 then p.(movingForward := true, isActive := true)
      else p.(movingForward := false, isActive := true)
    else p
  }

  function Link(ps: seq<Platform>, id: int, count: int): seq<Platform> {
    seq(|ps|, j requires 0 <= j < |ps| => LinkOne(ps[j], id, count))
  }

  /** What a lever pass reads and writes: every lever's trigger count, the
      debounce slot and the platforms. */
  datatype LeverPass = LeverPass(counts: seq<int>, slot: int, platforms: seq<Platform>)

  /** Lever k's part of the pass: `hit` is whether either player overlaps it. */
  function LeverStep(id: int, hit: bool, s: LeverPass, k: nat): LeverPass
    requires k < |s.counts|
  {
    var fires := hit && s.slot != id;
    var count := s.counts[k] + 1;
    var s1 := if fires then LeverPass(s.counts[k := count], id, Link(s.platforms, id, count)) else s;
    if !hit && s1.slot == id then s1.(slot := NoLever) else s1
  }

  /** The state after the first k levers of a pass. */
  function Interact(ids: seq<int>, hits: seq<bool>, s: LeverPass, k: nat): LeverPass
    requires |ids| == |hits| == |s.counts| && k <= |ids|
    ensures |Interact(ids, hits, s, k).counts| == |s.counts|
  {
    if k == 0 then s
    else LeverStep(ids[k - 1], hits[k - 1], Interact(ids, hits, s, k - 1), k - 1)
  }

  /** A lever fires only when a player overlaps it and the slot does not
      name it; then its count goes up by exactly one, the slot takes its id
      and the linked platforms follow it.  No other count changes. */
  lemma LeverStepFires(id: int, hit: bool, s: LeverPass, k: nat)
    requires k < |s.counts|
    ensures var r := LeverStep(id, hit, s, k);
      && |r.counts| == |s.counts|
      && (hit && s.slot != id ==>
            r.counts[k] == s.counts[k] + 1 && r.slot == id
            && r.platforms == Link(s.platforms, id, s.counts[k] + 1))
      && (!(hit && s.slot != id) ==> r.counts == s.counts && r.platforms == s.platforms)
      && (forall j :: 0 <= j < |s.counts| && j != k ==> r.counts[j] == s.counts[j])
  {
  }

  /** The slot changes only to the id of a lever that just fired, or back to
      NoLever when neither player overlaps the lever it names. */
  lemma LeverStepSlot(id: int, hit: bool, s: LeverPass, k: nat)
    requires k < |s.counts|
    ensures var r := LeverStep(id, hit, s, k);
      r.slot != s.slot ==>
        (hit && r.slot == id) || (!hit && s.slot == id && r.slot == NoLever)
  {
  }

  /** A lever that stays overlapped while the slot names it does not fire. */
  lemma HeldLeverStaysDebounced(id: int, s: LeverPass, k: nat)
    requires k < |s.counts| && s.slot == id
    ensures LeverStep(id, true, s, k) == s
  {
  }

  /** Exactly the linked moving platforms change, and only in direction and
      activity: they become active and point forward on an odd count. */
  lemma LinkChangesLinkedOnly(ps: seq<Platform>, id: int, count: int)
    requires count >= 0
    ensures |Link(ps, id, count)| == |ps|
    ensures forall j :: 0 <= j < |ps| ==>
      var p, q := ps[j], Link(ps, id, count)[j];
      && (p.isMoving && p.linkedLeverId == id ==>
            q == p.(movingForward := count % 2 == 1, isActive := true))
      && (!(p.isMoving && p.linkedLeverId == id) ==> q == p)
  {
  }

  /** Firing a lever only activates platforms, so resting platforms stay at
      an end of their track. */
  lemma LinkKeepsAtRest(ps: seq<Platform>, id: int, count: int)
    requires forall j :: 0 <= j < |ps| ==> AtRest(ps[j])
    ensures forall j :: 0 <= j < |ps| ==> AtRest(Link(ps, id, count)[j])
  {
  }

  /** When nobody touches any lever, no lever fires and no platform changes;
      the slot is cleared if it named one of the levers and kept otherwise. */
  lemma {:induction false} UntouchedPassChangesNothing(ids: seq<int>, hits: seq<bool>, s: LeverPass, k: nat)
    requires |ids| == |hits| == |s.counts| && k <= |ids|
    requires forall j :: 0 <= j < |hits| ==> !hits[j]
    ensures var r := Interact(ids, hits, s, k);
      && r.counts == s.counts && r.platforms == s.platforms
      && r.slot == (if s.slot in ids[..k] then NoLever else s.slot)
  {
    if k > 0 {
      UntouchedPassChangesNothing(ids, hits, s, k - 1);
      assert ids[..k] == ids[..k - 1] + [ids[k - 1]];
    }
  }

  /** Counts only grow, by at most one per lever per pass, so they stay
      non-negative and each lever's `triggered` flag is the parity of its
      count. */
  lemma {:induction false} InteractCounts(ids: seq<int>, hits: seq<bool>, s: LeverPass, k: nat)
    requires |ids| == |hits| == |s.counts| && k <= |ids|
    ensures var r := Interact(ids, hits, s, k);
      forall j :: 0 <= j < |s.counts| ==>
        s.counts[j] <= r.counts[j] <= s.counts[j] + 1
        && (k <= j ==> r.counts[j] == s.counts[j])
  {
    if k > 0 {
      InteractCounts(ids, hits, s, k - 1);
      LeverStepFires(ids[k - 1], hits[k - 1], Interact(ids, hits, s, k - 1), k - 1);
    }
  }

  /** The slot names a lever of the pass or no lever at all, provided it did
      so before the pass. */
  lemma {:induction false} SlotNamesALeverOrNone(ids: seq<int>, hits: seq<bool>, s: LeverPass, k: nat)
    requires |ids| == |hits| == |s.counts| && k <= |ids|
    requires s.slot == NoLever || s.slot in ids
    ensures var r := Interact(ids, hits, s, k);
      r.slot == NoLever || r.slot in ids
  {
    if k > 0 {
      SlotNamesALeverOrNone(ids, hits, s, k - 1);
      LeverStepSlot(ids[k - 1], hits[k - 1], Interact(ids, hits, s, k - 1), k - 1);
    }
  }

  /** The single slot debounces one lever only: when two levers with
      different ids are both held down, each pass fires both of them again,
      because each firing overwrites the slot the other one needed. */
  lemma TwoHeldLeversRefire(a: int, b: int, s: LeverPass)
    requires a != b && |s.counts| == 2 && s.slot == b
    ensures var r := Interact([a, b], [true, true], s, 2);
      r.counts == [s.counts[0] + 1, s.counts[1] + 1] && r.slot == b
  {
    var s1 := Interact([a, b], [true, true], s, 1);
    assert Interact([a, b], [true, true], s, 0) == s;
    assert s1 == LeverStep(a, true, s, 0);
    assert s1.slot == a && s1.counts == [s.counts[0] + 1, s.counts[1]];
  }

  // ---------------------------------------------------------------------
  // The frame step as the source computes it

  /** Rewrites the points of a platform from its original points and the
      offset, point by point. */
  method RedrawPoints(points: seq<Vec2>, orig: seq<Vec2>, d: Vec2, t: real) returns (r: seq<Vec2>)
    requires |points| == |orig|
    ensures r == Placed(orig, d, t)
  {
    var offsetX := d.x * t;
    var offsetY := d.y * t;
    r := points;
    var k := 0;
    while k < |orig|
      invariant 0 <= k <= |orig| == |r|
      invariant forall m :: 0 <= m < k ==> r[m] == Vec2(orig[m].x + offsetX, orig[m].y + offsetY)
    {
      r := r[k := Vec2(orig[k].x + offsetX, orig[k].y + offsetY)];
      k := k + 1;
    }
    assert forall m :: 0 <= m < |orig| ==> r[m] == Placed(orig, d, t)[m];
  }

  /** The body of Platforms::Update for one platform. */
  method AdvancePlatform(plat: Platform, deltaTime: real, sqrt: real -> real) returns (r: Platform)
    requires |plat.points| == |plat.originalPoints|
    ensures r == Advance(plat, deltaTime, sqrt)
  {
    r := plat;
    if !r.isMoving || !r.isActive {
      return;
    }
    var dx := r.endPos.x - r.startPos.x;
    var dy := r.endPos.y - r.startPos.y;
    var distance := sqrt(dx * dx + dy * dy);
    assert LengthSq(Travel(plat)) == dx * dx + dy * dy;
    if distance < 1.0 {
      return;
    }
    var speedStep := (deltaTime * r.speed) / distance;
    if r.movingForward {
      r := r.(progress := r.progress + speedStep);
      if r.progress >= 1.0 {
        r := r.(progress := 1.0, isActive := false);
      }
    } else {
      r := r.(progress := r.progress - speedStep);
      if r.progress <= 0.0 {
        r := r.(progress := 0.0, isActive := false);
      }
    }
    assert Travel(r) == Vec2(dx, dy);
    var points := RedrawPoints(r.points, r.originalPoints, Vec2(dx, dy), r.progress);
    r := r.(points := points);
    assert speedStep == StepOf(plat, deltaTime, sqrt);
    assert r.progress == Move(plat, speedStep).progress;
  }

  // ---------------------------------------------------------------------
  // The objects

  class Lever {
    const position: Vec2
    const size: Vec2
    const id: int
    var triggered: bool
    var triggerCount: int

    ghost predicate Valid()
      reads this
    {
      triggerCount >= 0 && triggered == (triggerCount % 2 == 1)
    }

    constructor (pos: Vec2, leverId: int)
      ensures position == pos && id == leverId && size == DefaultLeverSize
      ensures !triggered && triggerCount == 0
      ensures Valid()
    {
      position := pos;
      size := DefaultLeverSize;
      id := leverId;
      triggered := false;
      triggerCount := 0;
    }

    function Bounds(): Rect {
      Rect(position.x, position.y, size.x, size.y)
    }

    /** A player box hits the lever when its rectangle overlaps the lever's
        rectangle.  The overlap test itself is raylib's CheckCollisionRecs,
        which this model takes as the parameter `overlaps`; the contract
        says which two rectangles the lever hands to it. */
    function CheckCollision(playerPos: Vec2, playerSize: Vec2, overlaps: (Rect, Rect) -> bool): (hit: bool)
      ensures hit <==> overlaps(Rect(playerPos.x, playerPos.y, playerSize.x, playerSize.y), Bounds())
    {
      overlaps(Rect(playerPos.x, playerPos.y, playerSize.x, playerSize.y), Rect(position.x, position.y, size.x, size.y))
    }

    method Trigger()
      modifies this
      ensures triggerCount == old(triggerCount) + 1
      ensures triggered == (CRem(triggerCount, 2) == 1)
      ensures old(Valid()) ==> Valid()
    {
      triggerCount := triggerCount + 1;
      triggered := CRem(triggerCount, 2) == 1;
    }
  }

  function Ids(levers: seq<Lever>): seq<int> {
    seq(|levers|, j requires 0 <= j < |levers| => levers[j].id)
  }

  /** For every lever, whether either player box overlaps it. */
  function Hits(levers: seq<Lever>, p1Pos: Vec2, p1Size: Vec2, p2Pos: Vec2, p2Size: Vec2,
                overlaps: (Rect, Rect) -> bool): seq<bool>
  {
    seq(|levers|, j requires 0 <= j < |levers| =>
      levers[j].CheckCollision(p1Pos, p1Size, overlaps) || levers[j].CheckCollision(p2Pos, p2Size, overlaps))
  }

  ghost function Counts(levers: seq<Lever>): seq<int>
    reads levers
  {
    seq(|levers|, j requires 0 <= j < |levers| reads levers => levers[j].triggerCount)
  }

  class Platforms {
    var platforms: seq<Platform>
    const levers: seq<Lever>
    /** The debounce slot: the id of the lever that fired last and is still
        overlapped, or NoLever. */
    var lastTriggeredId: int

    ghost predicate Valid()
      reads this, levers
    {
      && (forall i :: 0 <= i < |platforms| ==> WellPlaced(platforms[i]) && AtRest(platforms[i]))
      && (forall i, j :: 0 <= i < |levers| && 0 <= j < |levers| && i != j ==> levers[i] != levers[j])
      && (forall i :: 0 <= i < |levers| ==> levers[i].Valid())
    }

    ghost function Pass(): LeverPass
      reads this, levers
    {
      LeverPass(Counts(levers), lastTriggeredId, platforms)
    }

    /** The slot outlives the object that uses it: a level loaded after
        another starts with whatever value the slot was left with, `slot`
        here (NoLever on the first load). */
    constructor (plats: seq<Platform>, ls: seq<Lever>, slot: int)
      requires forall i :: 0 <= i < |plats| ==> WellPlaced(plats[i]) && AtRest(plats[i])
      requires forall i, j :: 0 <= i < |ls| && 0 <= j < |ls| && i != j ==> ls[i] != ls[j]
      requires forall i :: 0 <= i < |ls| ==> ls[i].Valid()
      ensures platforms == plats && levers == ls && lastTriggeredId == slot
      ensures Valid()
    {
      platforms := plats;
      levers := ls;
      lastTriggeredId := slot;
    }

    /** One frame: every platform advances as Advance says. */
    method Update(deltaTime: real, sqrt: real -> real)
      requires Valid()
      modifies this
      ensures Valid()
      ensures |platforms| == |old(platforms)|
      ensures forall i :: 0 <= i < |platforms| ==> platforms[i] == Advance(old(platforms)[i], deltaTime, sqrt)
      ensures lastTriggeredId == old(lastTriggeredId)
    {
      var i := 0;
      while i < |platforms|
        invariant 0 <= i <= |platforms| == |old(platforms)|
        invariant forall m :: 0 <= m < i ==> platforms[m] == Advance(old(platforms)[m], deltaTime, sqrt)
        invariant forall m :: i <= m < |platforms| ==> platforms[m] == old(platforms)[m]
        invariant lastTriggeredId == old(lastTriggeredId)
        invariant Valid()
      {
        var plat := AdvancePlatform(platforms[i], deltaTime, sqrt);
        AdvanceWellPlaced(platforms[i], deltaTime, sqrt);
        AdvanceKeepsAtRest(platforms[i], deltaTime, sqrt);
        platforms := platforms[i := plat];
        i := i + 1;
      }
    }

    /** Points every moving platform linked to lever `id` as a lever with
        trigger count `count` directs, and activates it. */
    method LinkPlatforms(id: int, count: int)
      modifies this
      ensures platforms == Link(old(platforms), id, count)
      ensures lastTriggeredId == old(lastTriggeredId)
    {
      ghost var before := platforms;
      var j := 0;
      while j < |platforms|
        invariant 0 <= j <= |platforms| == |before|
        invariant forall m :: 0 <= m < j ==> platforms[m] == LinkOne(before[m], id, count)
        invariant forall m :: j <= m < |platforms| ==> platforms[m] == before[m]
        invariant lastTriggeredId == old(lastTriggeredId)
      {
        var plat := platforms[j];
        if plat.isMoving && plat.linkedLeverId == id {
          if CRem(count, 2) == 1 {
            plat := plat.(movingForward := true, isActive := true);
          } else {
            plat := plat.(movingForward := false, isActive := true);
          }
          platforms := platforms[j := plat];
        }
        j := j + 1;
      }
    }

    /** The body of the lever loop for lever i. */
    method VisitLever(i: nat, p1Pos: Vec2, p1Size: Vec2, p2Pos: Vec2, p2Size: Vec2,
                      overlaps: (Rect, Rect) -> bool)
      requires Valid() && i < |levers|
      modifies this, levers[i]
      ensures Valid()
      ensures Pass() == LeverStep(levers[i].id,
        levers[i].CheckCollision(p1Pos, p1Size, overlaps) || levers[i].CheckCollision(p2Pos, p2Size, overlaps),
        old(Pass()), i)
    {
      var lever := levers[i];
      var player1Hit := lever.CheckCollision(p1Pos, p1Size, overlaps);
      var player2Hit := lever.CheckCollision(p2Pos, p2Size, overlaps);
      if (player1Hit || player2Hit) && lastTriggeredId != lever.id {
        FireLever(i);
      }
      if !player1Hit && !player2Hit && lastTriggeredId == lever.id {
        lastTriggeredId := NoLever;
      }
    }

    /** Lever i fires: it toggles, takes the slot, and its platforms follow. */
    method FireLever(i: nat)
      requires Valid() && i < |levers|
      modifies this, levers[i]
      ensures Valid()
      ensures Pass() == LeverPass(old(Pass()).counts[i := old(Pass()).counts[i] + 1], levers[i].id,
                                  Link(old(platforms), levers[i].id, old(Pass()).counts[i] + 1))
    {
      var lever := levers[i];
      ghost var before := Counts(levers);
      lever.Trigger();
      lastTriggeredId := lever.id;
      LinkPlatforms(lever.id, lever.triggerCount);
      LinkChangesLinkedOnly(old(platforms), lever.id, lever.triggerCount);
      LinkKeepsAtRest(old(platforms), lever.id, lever.triggerCount);
      assert forall j :: 0 <= j < |levers| && j != i ==> levers[j] != lever;
      assert Counts(levers) == before[i := lever.triggerCount];
    }

    /** One pass over the levers, in order, for two player boxes. */
    method CheckLeverInteractions(p1Pos: Vec2, p1Size: Vec2, p2Pos: Vec2, p2Size: Vec2,
                                  overlaps: (Rect, Rect) -> bool)
      requires Valid()
      modifies this, levers
      ensures Valid()
      ensures Pass() == Interact(Ids(levers), Hits(levers, p1Pos, p1Size, p2Pos, p2Size, overlaps), old(Pass()), |levers|)
    {
      ghost var ids := Ids(levers);
      ghost var hits := Hits(levers, p1Pos, p1Size, p2Pos, p2Size, overlaps);
      ghost var start := Pass();
      var i := 0;
      while i < |levers|
        invariant 0 <= i <= |levers|
        invariant Valid()
        invariant Pass() == Interact(ids, hits, start, i)
      {
        VisitLever(i, p1Pos, p1Size, p2Pos, p2Size, overlaps);
        i := i + 1;
      }
    }
  }
}
