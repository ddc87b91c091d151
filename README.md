# Level state and collision decisions of a two-player platformer

This project models in Dafny the game-logic layer of a small cooperative platformer built on
raylib. In the game, a water character and a fire character move through a level made of polygon
platforms. The model covers these parts:

- **Levers and moving platforms** (`levers.dfy`, module `Levers`).
  - A lever counts how often it has fired. The parity of that count is its `triggered` flag.
  - One debounce slot keeps a held lever from firing again.
  - Firing a lever points each moving platform linked to it forward (odd count) or backward (even
    count), and activates it.
  - Every frame, an active platform moves its `progress` toward 1 or 0. It clamps at the end,
    deactivates there, and is redrawn as its original points shifted by `progress` times the
    start-to-end vector.
  - `Lever` and `Platforms` are classes, because the source updates them in place.
  - The frame step and the lever pass are proved against value-level specifications (`Advance`,
    `Interact`). The properties are proved about those specifications.
- **Liquid pools** (`liquids.dfy`, module `LiquidPools`). A ray-casting point-in-polygon test, and
  a lookup that returns the first pool, in list order, that contains the centre of a player's box.
  The source's `-1` result is `None`.
- **Diamonds** (`diamonds.dfy`, module `Collectibles`).
  - A circle-against-box test.
  - Gating by colour: blue diamonds go to player type 0, red ones to type 1.
  - A `collected` flag that never goes back.
  - The per-colour and total counts.
- **Exit doors** (`doors.dfy`, module `Exits`): the level is complete when each player stands at a
  door of its own kind.
- **Collision primitives of the actors** (`collision.dfy`, module `Collision`, on plane geometry
  in `geometry.dfy`):
  - point-in-polygon;
  - the closest point of a segment;
  - the contact of the player's box with one edge, classified as floor (0), ceiling (1), wall
    with the normal pointing left (2), or other (3);
  - the choice of the nearest contact over a polygon's edges.
- **The actor's frame** (`players.dfy`, module `Players`). `Player.Update` is proved equal to the
  function `Frame`. A frame runs these stages in order:
  - a horizontal sweep in sub-steps of 0.2, with an 8-unit step-up over ledges;
  - gravity, capped at 25;
  - a vertical sweep that lands on floors, bumps into ceilings, and is pushed out of walls;
  - a corrective push-out pass;
  - the slide along the edge the actor stands on;
  - the jump input buffer and the jump;
  - death in a lethal liquid or outside the screen.

Coordinates are `real`. Where the source compares a square root, the model compares squares:
`sqrt(d) < r` becomes `0 < r && d < r * r`, and the "no contact" distance 1e9 becomes 1e18. Where
the source uses the value of `std::sqrt`, the model takes it as a parameter `sqrt`. This happens in
`Platforms::Update` and in the edge slide.

Some behaviours of the source, as written, are recorded here. The model keeps each of them.

- The debounce slot is one `static int` inside `Platforms::CheckLeverInteractions`
  (platforms.cpp:208), shared by every `Platforms` object. It is set to -999 once and then lives
  for the whole run. Loading a level deletes the `level1` object, with its `Platforms` member, and
  builds a new one (main.cpp:22-32, level1.h:26), but the slot keeps its value. Here the slot is the
  field `Platforms.lastTriggeredId`. The constructor takes the value it starts with: -999 for the
  first level, and whatever the previous level left in the slot for a later one.
  - Because there is only one slot, two levers held down at the same time both fire again on every
    pass: each firing overwrites the slot the other lever needed. `TwoHeldLeversRefire` proves this.
- A key press sets the jump buffer to 6, and the same frame decrements it. A jump is therefore
  possible on the frame of the press and the four frames after it, five in all. `BufferedJumpWindow`
  proves this.
- On a sloped edge, with horizontal input `moveDir.x`, the slide sets the horizontal velocity to
  `moveDir.x * speed`. It changes the vertical velocity by a term proportional to `|ex|`, where
  `(ex, ey)` is the unit vector from the edge's start to its end. When `ey < 0` and
  `moveDir.x > 0`, or `ey > 0` and `moveDir.x < 0`, the vertical velocity decreases by
  `moveDir.x * speed * 0.15 * |ex|`. Otherwise it increases by `moveDir.x * speed * 0.1 * |ex|`.
  The test depends on which way the edge's points are listed, not only on the slope.
  `SLIDE_ACCELERATION` (player.cpp:13) is never used: the 0.15 is a literal.
- In `Player::Update`, `wasOnGround` and `dotWithEdge` are computed but never used, and so is the
  `screenWidth` parameter.
- The player's copy of point-in-polygon has no vertex-count guard, but its answer is the same as
  the guarded copy in `Liquids`. `NoInsideBelowThreeVertices` and `ContainsIsInside` prove this.

## Model

| member | source | states |
|---|---|---|
| Geometry.NextIsModulo | player.cpp:28 | `Next(k, n)`, the vertex after k, is the source's wrap-around index `(k + 1) % n` |
| Geometry.XInterceptOnEdge | player.cpp:29-31 | under the half-open span test, which makes the division well defined, the intercept lies between the x coordinates of the edge's two ends |
| Geometry.CrossesSymmetric | player.cpp:29-32 | whether the ray crosses an edge does not depend on the order of the edge's ends |
| Geometry.NoInsideBelowThreeVertices | player.cpp:22-36 | the crossing parity never reports a point inside a polygon of fewer than three vertices |
| Collision.PointInPolygon | player.cpp:22-36 | the answer is the parity of the number of edges the rightward ray crosses (`Inside`) |
| Collision.ClosestPointOnSegment | player.cpp:38-47 | a segment shorter than the threshold (squared length below 0.0001) answers its first end |
| Collision.ClosestPointIsOnSegment | player.cpp:38-47 | otherwise the answer is `a + t(b - a)` for some t in [0, 1] |
| Collision.ClosestPointIsNearest | player.cpp:38-47 | ... and no point of the segment is nearer to p |
| Collision.Classify | player.cpp:104-121 | every normal falls into one of the four directions 0..3 |
| Collision.ClassifyZeroNormal | player.cpp:72-81 | a zero-length edge, whose normal in the source is (-0, +0) with angle pi, is classed as wall 2 |
| Collision.ClassifyAxes | player.cpp:104-121 | an upward normal is a floor (0), a downward one a ceiling (1), a leftward one wall 2, a rightward one 3 |
| Collision.ClassifyScaleInvariant | player.cpp:76-81 | scaling the normal by a positive factor keeps its direction class, so normalising before taking the angle does not change it |
| Collision.FacingMeaning | player.cpp:93-99 | the flipped normal is the edge normal or its opposite, and it faces the box centre |
| Collision.CheckEdgeCollision | player.cpp:67-124 | the edge's ends are recorded; without contact the result is the empty record (direction -1, distance 1e9); with contact the direction is in 0..3 |
| Collision.EdgeContactMeaning | player.cpp:67-124 | contact exactly when the closest point lies strictly within the radius (half the larger side plus 3); the contact then has that point, its distance, an edge normal that faces the centre, and that normal's class |
| Collision.EdgeContacts | player.cpp:149-154 | one contact per edge, edge k joining vertex k to the next one, the last edge closing the polygon |
| Collision.BestOfIsFirstNearest | player.cpp:128-160 | the running best has a contact iff some edge's contact is nearer than the sentinel; then it is the first such contact of least distance, and otherwise it is the sentinel |
| Collision.BestOfDirection | player.cpp:156-169 | a chosen contact carries one of the directions 0..3 |
| Collision.CornerInside | player.cpp:130-145 | the corner loop answers whether some corner of the box lies inside the polygon |
| Collision.NearestEdgeContact | player.cpp:149-160 | the edge loop returns the running best over every edge in order |
| Collision.GetBestCollisionDirection | player.cpp:126-170 | -1 with no contact reported when no corner is inside or no edge touches; otherwise the nearest edge's contact and its direction in 0..3 |
| Collision.ContactProbe | player.cpp:126-170 | the contact reported for a box and polygon carries the direction GetBestCollisionDirection returns |
| Levers.LoadedPlatform | platforms.cpp:76-93 | a loaded platform is an inactive polygon at progress 0, whose points and original points are the record's points. It has the default speed and moves forward. A moving record gives its start, end and lever id; a still one keeps the zero defaults and lever id -1. It is well placed and at rest |
| Levers.AdvanceKeepsAtRest | platforms.cpp:130-147 | a platform that has stopped is at one end of its path (progress 0 or 1), and advancing keeps this |
| Levers.LinkKeepsAtRest | platforms.cpp:215-230 | linking platforms to a lever keeps every stopped platform at one end of its path |
| Levers.AdvanceIdle | platforms.cpp:120-126 | a platform that is not moving, not active, or whose ends are less than one unit apart is unchanged by a frame |
| Levers.AdvanceMoves | platforms.cpp:128-147 | otherwise progress moves by `deltaTime * speed / distance` toward its end, is clamped there, the platform deactivates exactly when the clamp is hit, and nothing else but the points changes |
| Levers.AdvanceWellPlaced | platforms.cpp:149-156 | after a frame every point is its original point plus (end - start) times progress |
| Levers.PlacedAtEnd | platforms.cpp:149-156 | at progress 1 the platform is its original shape moved by end - start |
| Levers.AdvanceInUnit | platforms.cpp:128-147 | with non-negative frame time and speed, progress stays in [0, 1] |
| Levers.ForwardPlatformArrives | platforms.cpp:130-137 | a platform sent forward with a positive step rests at progress 1, inactive, at its end position once its steps add up to the remaining distance |
| Levers.AdvanceTimesInactive | platforms.cpp:120 | an inactive platform never moves, frame after frame |
| Levers.LeverStepFires | platforms.cpp:205-231 | a lever fires iff a player overlaps it and the slot does not name it; its count then rises by exactly one, the slot takes its id and the linked platforms follow; no other count changes |
| Levers.LeverStepSlot | platforms.cpp:208-236 | the slot changes only to the id of a lever that just fired, or back to -999 when no player overlaps the lever it names |
| Levers.HeldLeverStaysDebounced | platforms.cpp:210-213 | a lever still overlapped while the slot names it changes nothing |
| Levers.LinkChangesLinkedOnly | platforms.cpp:215-230 | exactly the moving platforms linked to the lever change, becoming active and pointing forward iff the count is odd |
| Levers.UntouchedPassChangesNothing | platforms.cpp:201-238 | a pass with nobody on any lever fires nothing and moves no platform; the slot is cleared iff it named one of the levers |
| Levers.InteractCounts | platforms.cpp:201-238 | in a pass each count grows by zero or one, and levers not yet visited keep theirs |
| Levers.SlotNamesALeverOrNone | platforms.cpp:208-236 | the slot names one of the levers or no lever |
| Levers.TwoHeldLeversRefire | platforms.cpp:208-213 | two different levers both held fire again on every pass |
| Levers.RedrawPoints | platforms.cpp:149-156 | the point loop rewrites every point to original plus offset |
| Levers.AdvancePlatform | platforms.cpp:118-157 | the loop body for one platform computes `Advance` |
| Levers.Lever.constructor | platforms.h:38-49 | a new lever has size 117 x 99, count 0, not triggered |
| Levers.Lever.CheckCollision | platforms.cpp:38-43 | a box hits the lever iff its rectangle overlaps the lever's rectangle |
| Levers.Lever.Trigger | platforms.cpp:45-49 | the count rises by exactly one and `triggered` is its parity (C++ remainder); the invariant count >= 0 and flag == parity is kept |
| Levers.Platforms.constructor | platforms.cpp:208 | the debounce slot starts at the value it carries over (-999 before the first level), and the platforms are the given well-placed, at-rest list |
| Levers.Platforms.Update | platforms.cpp:116-158 | every platform becomes `Advance` of its old self, the slot is untouched, and every platform stays well placed and at rest |
| Levers.Platforms.LinkPlatforms | platforms.cpp:215-230 | the platforms become `Link` of the old ones |
| Levers.Platforms.FireLever | platforms.cpp:212-230 | the lever's count rises by one, the slot takes its id, the linked platforms follow, and other levers keep their counts |
| Levers.Platforms.VisitLever | platforms.cpp:205-236 | one loop iteration performs `LeverStep` on the pass state |
| Levers.Platforms.CheckLeverInteractions | platforms.cpp:201-238 | the counts, slot and platforms become `Interact` over all levers in order |
| LiquidPools.LiquidTypeOf | platforms.cpp:255-260 | "lava" and "poison" name those liquids, and every other string means water |
| LiquidPools.LoadedLiquids | platforms.cpp:252-271 | the loader keeps only pools with at least one point, and never more pools than records |
| LiquidPools.LoadedLiquidsOne | platforms.cpp:256-269 | one record becomes the pool of its points and the type its name says, or nothing when it has no points |
| LiquidPools.LoadedLiquidsAppend | platforms.cpp:252-271 | the loader works record by record, in order: loading two runs of records gives their pools one after the other |
| LiquidPools.LoadedLiquidsKeepsEveryPool | platforms.cpp:266-269 | every record with at least one point is loaded as a pool with its points and type |
| LiquidPools.PointInPolygon | platforms.cpp:333-352 | fewer than three points gives false, and otherwise the crossing parity |
| LiquidPools.ContainsIsInside | platforms.cpp:335-336 | the vertex-count guard never changes the answer of the crossing rule |
| LiquidPools.LiquidAtIsFirstMatch | platforms.cpp:358-366 | the lookup answers the type of the first pool containing the point, and None iff no pool contains it |
| LiquidPools.CheckLiquidCollision | platforms.cpp:369-382 | the static query answers the lookup at the centre of the box |
| LiquidPools.Liquids.constructor | platforms.h:107 | the pools are the given list |
| LiquidPools.Liquids.CheckCollision | platforms.cpp:354-367 | the member query answers the lookup at the centre of the box over its own pools |
| Collectibles.DiamondTypeOf | platforms.cpp:413-417 | "red" names a red diamond, and every other string a blue one |
| Collectibles.LoadedDiamond | platforms.cpp:411-423 | a loaded diamond is uncollected, of size 15, at its position, of the type its name says |
| Collectibles.CheckCircleRectCollision | platforms.cpp:444-454 | a hit needs a positive radius |
| Collectibles.HitIsNearestWithin | platforms.cpp:446-453 | a hit iff the clamped nearest point of the box lies strictly within the radius |
| Collectibles.NearestInBoxIsNearest | platforms.cpp:446-447 | the clamped point is the point of the box nearest to the centre |
| Collectibles.CircleRectMeaning | platforms.cpp:444-454 | for a box of non-negative extent, a hit iff some point of the closed box lies strictly inside the circle |
| Collectibles.CollectIsOneWay | platforms.cpp:460-488 | collection never clears a flag, sets it exactly on uncollected, overlapping diamonds of the player's colour, and changes nothing else |
| Collectibles.CollectCount | platforms.cpp:456-501 | the collected count grows by the number of diamonds collected |
| Collectibles.CollectableCountPositive | platforms.cpp:456-491 | some diamond is collected iff the number collected is positive |
| Collectibles.CollectedCountMonotone | platforms.cpp:456-501 | the collected count never decreases, and it grows iff the call reports a collection |
| Collectibles.CountsByTypeAddUp | platforms.cpp:493-511 | the blue and red counts add up to the total |
| Collectibles.Diamonds.constructor | platforms.h:122 | the diamonds are the given list |
| Collectibles.Diamonds.CheckCollisionAndCollect | platforms.cpp:456-491 | the diamonds become `CollectAll` of the old ones, and the result is true iff some diamond was collectable |
| Collectibles.Diamonds.GetCollectedCount | platforms.cpp:493-501 | the number of collected diamonds |
| Collectibles.Diamonds.GetCollectedCountByType | platforms.cpp:503-511 | the number of collected diamonds of the given colour |
| Exits.Doors.constructor | platforms.cpp:522-529 | the doors are the given list |
| Exits.AtDoorSnoc | platforms.cpp:540-550 | looking at one more door adds exactly that door's own answer |
| Exits.Doors.CheckBothPlayersAtDoors | platforms.cpp:535-553 | true iff some "water" door touches the water box and some "fire" door touches the fire box |
| Exits.Doors.IsPlayerAtDoor | platforms.cpp:555-565 | true iff some door of the given type touches the box |
| Players.FirstWall | player.cpp:192-201 | a reported wall is one of the platforms from k on |
| Players.FirstWallIsFirst | player.cpp:192-201 | it is the first polygon platform whose contact is a wall (2 or 3), and None iff there is none |
| Players.FindWall | player.cpp:192-201 | the platform loop finds `FirstWall` |
| Players.StepUp | player.cpp:203-220 | a step-up keeps x and raises the box by at least the first trial height |
| Players.StepUpIsLowestFloor | player.cpp:203-220 | a step-up raises the box by the least height from 1 to 8 at which the probe reports a floor, and None iff no such height reports one |
| Players.FindStepUp | player.cpp:203-220 | the `h` loop finds `StepUp` from height 1 |
| Players.StepX | player.cpp:189-231 | a free or climbing sub-step keeps the velocity, moves x by 0.2 toward the target and never lowers the box; a blocked one undoes the sub-step and zeroes the horizontal velocity |
| Players.SweepXKeeps | player.cpp:182-233 | the horizontal sweep never lowers the box, keeps the vertical velocity, keeps or zeroes the horizontal one, and does nothing without horizontal velocity |
| Players.SweepXRight | player.cpp:182-189 | moving right, the sweep ends between its start and less than one sub-step past the target |
| Players.SweepXLeft | player.cpp:182-189 | moving left, the sweep ends between less than one sub-step before the target and its start |
| Players.SweepXReachesUnlessBlocked | player.cpp:182-233 | the sweep stops short of the target only at a wall: if the horizontal velocity survives, the target was reached or passed |
| Players.HorizontalStep | player.cpp:189-231 | one iteration of the horizontal loop computes `StepX` |
| Players.HorizontalPass | player.cpp:182-233 | the horizontal loop computes the sweep toward `x + vx` |
| Players.FallCapped | player.cpp:235-236 | gravity adds 0.6 and the fall speed never exceeds 25 |
| Players.FirstReaction | player.cpp:254-302 | the contact reacted to is a floor or wall while falling, or a ceiling while rising |
| Players.FindReaction | player.cpp:254-302 | the platform loop of a vertical sub-step finds `FirstReaction` |
| Players.SweepYReaches | player.cpp:238-305 | falling, the actor ends grounded exactly when its fall was stopped, and otherwise has reached the target; rising, it is never grounded, is not moved sideways or down, and has reached the target unless a ceiling stopped it |
| Players.SweepYLanding | player.cpp:238-305 | the actor is grounded only by a floor or wall met while falling, which zeroes the vertical velocity and records that contact; a rising actor is never grounded; the horizontal velocity is untouched |
| Players.VerticalPass | player.cpp:238-305 | the vertical loop computes the sweep toward `y + vy` |
| Players.PushOutShedsInwardVelocity | player.cpp:316-327 | with a unit normal, a push-out leaves no velocity into the surface, and keeps a velocity that already points away |
| Players.DepenetrateWithoutContact | player.cpp:307-328 | when no polygon platform reports a contact, the corrective pass changes nothing |
| Players.CorrectivePass | player.cpp:307-328 | the corrective loop computes `Depenetrate`, each probe seeing the previous pushes |
| Players.SlideWithoutInput | player.cpp:331-362 | without horizontal input the slide never changes the vertical velocity and at most applies the 0.95 friction |
| Players.BufferedJumpWindow | player.cpp:365-381 | after a press the buffer stays positive for five frames and is empty on the sixth |
| Players.BufferCountsDown | player.cpp:370-373 | without presses the buffer drops by one per frame |
| Players.LethalLiquids | player.cpp:388-412 | poison kills both actors, lava the water actor, water the fire actor, and each survives its own element |
| Players.MovementPasses | player.cpp:177-362 | the horizontal, gravity, vertical, corrective and slide stages in order compute `Physics` |
| Players.FrameDeadIsFrozen | player.cpp:175 | a frame leaves a dead actor unchanged, and dead |
| Players.FrameDeathRule | player.cpp:388-417 | a live actor dies iff the centre of its box ends in a liquid lethal to it or the box leaves the screen vertically |
| Players.FrameJumpRule | player.cpp:365-386 | a jump happens iff the buffer is still live and the actor could jump or landed; it sets vy = -18, leaves the ground and empties the buffer; an airborne actor cannot jump; the buffer stays in [0, 6) |
| Players.FrameGroundedNeedsLanding | player.cpp:241-305 | the actor ends a frame on the ground only if it was falling after gravity and the vertical pass met a floor or a wall |
| Players.Player.constructor | player.cpp:18-20 | a new actor is not on the ground, can jump, is alive, and has an empty buffer |
| Players.Player.Update | player.cpp:173-418 | the new state is `Frame` of the old one, and the buffer stays in [0, 6] |
| Players.Player.HandleJump | player.cpp:365-386 | the buffer and jump steps compute `Jump` |
| Players.Player.CheckHazards | player.cpp:388-417 | the liquid and screen checks compute `Judge` |

## Left out

- File loading (`LoadFromJSON` of platforms, liquids, diamonds and doors) is not modelled. It uses
  file I/O through a JSON library. What is modelled is the mapping from an already-parsed record to
  the entity: `LoadedPlatform`, `LoadedLiquids`, `LiquidTypeOf`, `LoadedDiamond`, `DiamondTypeOf`.
  The lever loader's default id (the lever's index) is not modelled.
- Textures, colours, names and all drawing (`Draw*`, `LoadTextures`, `UnloadDiamondTexture`) are
  rendering calls and are left out.
- raylib's `IsKeyDown` and `IsKeyPressed` become the boolean parameters `left`, `right` and `up`.
  raylib's `CheckCollisionRecs` and the door's `CheckCollision` become the parameters `overlaps` and
  `touches`. Their code is not part of this model.
- `std::sqrt` is the parameter `sqrt` wherever its value is used.
- Floating-point rounding is not modelled (coordinates are exact reals). This includes the rounding
  of the 0.2 sub-steps, which in `float` can make a sweep end differently.
- Levers.Platforms.constructor: the debounce slot is a field of `Platforms`, not a static shared
  by all `Platforms` objects. The constructor takes the slot's carried-over value, so a sequence of
  level loads is modelled. Two `Platforms` objects alive at the same time would not share the slot.
  The game never has two at once.
- Levers.Lever.Trigger: the count is an unbounded integer, so C++ `int` overflow after 2^31 firings
  is not modelled.
- Collision.Classify: the `atan2` sectors are exact comparisons on the diagonals. The source's float
  bounds 0.785 and 2.356 differ from pi/4 and 3pi/4 by less than 0.0004 rad, and a normal that close
  to a diagonal can be classed differently.
- Collision.CheckEdgeCollision: the normal is not normalised. Its direction, its class and its
  flipping do not depend on its length (`ClassifyScaleInvariant`), but its length does.
  - `Collision.ContactProbe` therefore reports a normal of the edge's length.
  - `Players` takes GetBestCollisionDirection as the parameter `probe`, so the frame is proved for
    any probe. This includes one that returns unit normals, as the source's does.
  - The push distances of the floor, wall and corrective reactions are multiplied by the normal the
    probe reports.
- Players.SlideWithoutInput covers only the slide without input. With input, the slide's velocity
  is `Slide` as written. No further property of the float slope tweaks is claimed.
- The `screenWidth` parameter of `Player::Update` is unused in the source; the model takes and
  ignores it.
- menu.cpp, main.cpp, level1.cpp and level1.h hold the UI, the window loop and level wiring, and are
  not part of this model.
