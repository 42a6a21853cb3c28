# Cube / plane runner: a Dafny model of the game modes

The game is a side-scrolling runner drawn with Three.js. The player stays at
a fixed x. The world scrolls left under it, and each frame the active mode
object advances the simulation by one tick. There are four mode classes:

- `docs/modes/full.js` and `docs/modes/prototype.js`: a cube that jumps over
  spikes and lands on platforms. Passing a portal turns it into a plane. In
  the full mode the plane dodges asteroids. In the prototype it flies
  through gaps between barrier pairs.
- `src/modes/prototype.js`: the same cube/plane game, with one physics for
  both forms and a four-kind level.
- `src/modes/full.js`: a thrust-against-gravity flyer between a floor and a
  ceiling, dodging floating missiles.

The model has six modules:

- `World` (world.dfy): the entities and per-entity rules that the modes
  share. These are the player's body (height, velocity, grounded), ground
  pieces, spikes, platforms, portals, gap barriers, velocity clamps, plane
  flight, the fall of the cube, and the landing pass.
- `Layout` (layout.dfy): obstacle generation. A cursor walks right, and each
  random draw lays one kind of obstacle and advances the cursor by that
  kind's stride. This covers `createLevel` and the course `transformToCube`
  lays.
- `DocsFullMode`, `DocsPrototypeMode`, `SrcPrototypeMode` and `SrcFullMode`:
  one class per mode class. Its fields are the fields the source updates in
  place. Each list of scene objects is a `seq` of value records. Each method
  is proved against the pure specification functions above.

Each portal mode also states its tick on values. `State` (world.dfy) is
the whole simulated state, and `Scene` is the part a firing portal may
change. `Pressed` is `handleInput` on a state. `Transition` is what one
firing portal does, and `PortalPass` is the whole portal pass. `Step` is
one `update`. The class methods are proved to compute these functions: for
example, `Update` ensures `Snapshot() == Step(old(Snapshot()), ...)`, and
`Frame` ensures the same of `Step(Pressed(...))`. The lemmas about `Step`
state what a tick does: the invariant it keeps, the motion, the collision
test of each form, and what changes when no portal fires.

`Math.random()` is modelled as explicit draws: real numbers `r` with
`0 <= r < 1`, passed to the operation that consumes them. `Math.floor(r*n)`
is `Pick`, and `low + r*span` is `Spread.At`. Keyboard state is passed to
`HandleInput` as a set of key names plus the mobile-jump flag.

Some behaviour the source has, and the model keeps:

- A game over raised inside a `forEach` does not stop that pass, nor the
  rest of `update`. The score still grows on the tick that ends the game.
- The docs full mode recycles a portal before testing it. Both prototypes
  test it first (`StepPortal`'s `recycleFirst`). `PortalOrderIrrelevant`
  shows that the two orders agree for the player's x.
- The src prototype applies the cube's gravity, clamp and ground check to
  the plane as well (src/modes/prototype.js:437-475). Its plane has no
  ceiling.
- The src prototype's `restart` empties the pools itself instead of calling
  `cleanup`. The docs modes call `cleanup`.

## Model

| member | source | states |
|---|---|---|
| World.Flip | docs/modes/full.js:588 | a recycled portal's target is the other form, never the same one |
| World.Pick | docs/modes/full.js:158 | `floor(r*n)` of a draw is a valid kind index below n |
| World.Spread.At | docs/modes/full.js:166 | `low + r*span` lies in `[low, low + span)` |
| World.Clamp | src/modes/prototype.js:439 | the `max(-m, min(m, v))` clamp lies in range, is the identity inside it and the bound outside |
| World.Glide | docs/modes/full.js:427-450 | one plane tick: the new velocity is `clamp((v - gravity) * drag, -maxDown, maxUp)`; the plane moves by it when it stays inside `[ground + 0.5, ceiling]`, and otherwise stops at the bound it crossed with velocity 0 |
| World.GlideMonotone | docs/modes/full.js:387-390 | holding thrust (any non-negative addition to the velocity) never leaves the plane lower after the next tick |
| World.ClampedFall | docs/modes/prototype.js:344-356 | the velocity drops by 0.015 and is clamped to ±0.8; the cube is grounded (at rest on the ground top) iff that move reaches the ground top, and otherwise it moved by that velocity |
| World.FallAndLand | docs/modes/prototype.js:344-368 | a cube tick over platforms at least 0.5 above ground ends at or above the ground top, at rest whenever grounded, with velocity within ±0.8 |
| World.RestingCubeStays | docs/modes/prototype.js:344-368 | a cube at rest on the ground stays exactly there for a tick |
| World.ScrollGround | docs/modes/full.js:487-497 | a ground piece moves left by the speed, and wraps forward by exactly the wrap distance iff it passed x = -15 |
| World.ScrollGrounds | docs/modes/full.js:488-496 | the ground pass scrolls every piece by the rule above and keeps their number |
| World.GroundRow | docs/modes/full.js:139-152 | `createGround` lays n pieces at `first + spacing*i` |
| World.GroundStaysInWindow | docs/modes/full.js:489-492 | a piece inside `[-15, hi]` stays inside it when the speed is between 0 and the wrap and the window is at least one wrap wide |
| World.GroundSpacingKept | docs/modes/full.js:489-492 | the gap between two pieces changes only by a whole wrap distance, so the ground stays seamless |
| World.ScrollSpike | docs/modes/full.js:515-524 | a spike keeps its height and moves left; it jumps to x = 40 iff it passed x = -15 |
| World.ScrollSpikes | docs/modes/full.js:515-532 | the spike pass scrolls every spike by that rule |
| World.ScrollPlatform | docs/modes/full.js:499-511 | a platform moves left; past x = -15 it reappears at x = 40 at a height in `[ground + 0.5, ground + 2.5)` |
| World.ScrollPlatforms | docs/modes/full.js:500-510 | the platform pass scrolls every platform by that rule |
| World.ScrollPlatformsAboveGround | docs/modes/full.js:506-509 | recycling keeps every platform at least 0.5 above the ground |
| World.Land | docs/modes/full.js:474-484 | the landing pass either leaves the body alone or leaves it at rest and grounded, and over platforms above the ground never below the ground top |
| World.FirstLanding | docs/modes/full.js:474-484 | the index of the first platform in list order that catches the body (-1 when none does): it catches it and no earlier one does |
| World.LandOnFirst | docs/modes/full.js:474-484 | the landing pass puts the body 0.6 above the first platform that catches it, at rest and grounded, and leaves it unchanged when none does |
| World.LandPass | docs/modes/full.js:474-484 | one iteration of the landing loop followed by the rest of the pass is the pass from that platform on |
| World.LandAtRest | docs/modes/full.js:478 | a body that is not falling is never moved by the landing pass |
| World.RecyclePortal | docs/modes/full.js:583-592 | a portal past x = -15 reappears at x = 60, unlatched, with the other target; otherwise it is unchanged |
| World.ActivatePortal | docs/modes/full.js:594-603 | a portal fires iff the player is within 1.2 of it and it is unlatched; firing latches it and yields its target |
| World.StepPortal | docs/modes/full.js:573-604 | one portal step moves the portal left or respawns it at 60, and any form it yields is its target (or, recycling first, the flipped target) |
| World.StepPortalFires | docs/modes/full.js:573-604 | a portal fires iff, after the scroll (and, recycling first, the recycling), it is within 1.2 of the player and unlatched, and it then yields the target it has at that moment |
| World.StepPortals | docs/modes/full.js:572-605 | the portal pass steps every portal, keeping their number |
| World.PortalOrderIrrelevant | docs/modes/prototype.js:463-497 | for the player's x, recycling before or after the activation test gives the same portal and the same transform |
| World.LatchHolds | docs/modes/full.js:595 | a latched portal that is not recycled only moves; it yields nothing |
| World.FiresAtMostOnce | docs/modes/full.js:583-603 | until a portal is recycled, it triggers at most one transform over any run of ticks, and none once latched |
| World.FormAfterPortals | docs/modes/full.js:572-605 | if no portal fires the form is unchanged |
| World.LastFiring | docs/modes/full.js:572-605 | the index of the last portal of the pass that fires (-1 when none does): it fires and no later one does |
| World.LastFiringDecides | docs/modes/full.js:572-605 | the form after the portal pass is the target yielded by the last portal that fires, and the old form when none fires |
| World.ScrollBarrier | docs/modes/prototype.js:420-449 | both halves of a barrier move left together; past x = -15 both reappear at the respawn x with a fresh gap centre and size from the rule's ranges; aligned halves stay aligned |
| World.ScrollBarriers | docs/modes/prototype.js:421-459 | the barrier pass scrolls every pair by that rule |
| World.BarrierHitIffOutsideGap | docs/modes/prototype.js:450-459 | within 0.8 of a barrier, the plane crashes iff its extent ±0.5 does not fit inside the gap |
| World.BarrierField | docs/modes/prototype.js:574-579 | a transform spawns one aligned pair per draw, `spacing` apart from x = 10, with gaps in the rule's ranges |
| World.BarrierFieldOrdered | docs/modes/prototype.js:574-579 | spawned barriers are strictly ordered left to right |
| Layout.DocsKindsOk | docs/modes/full.js:160-181 | the five docs obstacle kinds are well formed: positive strides, spikes inside the stride, platforms at least 0.5 up |
| Layout.SrcLevelKindsOk | src/modes/prototype.js:112-133 | the four kinds of the src first level are well formed |
| Layout.SrcCubeKindsOk | src/modes/prototype.js:404-423 | the four kinds the src transform into the cube lays are well formed |
| Layout.SpikesAt | docs/modes/full.js:169-173 | spikes of one kind stand at the cursor plus their offsets, at spike height |
| Layout.PlacePieceWellLaid | docs/modes/full.js:158-181 | laying one well-formed kind keeps the course ordered, inside `[start, cursor)`, with platforms above ground |
| Layout.GenerateWellLaid | docs/modes/full.js:154-185 | every generated course is strictly ordered in each pool, lies in `[start, cursor)` and keeps platforms at least 0.5 above the ground |
| Layout.SchemesStrides | docs/modes/full.js:160-181 | every obstacle kind of the three schemes advances the cursor by 4 to 6 |
| Layout.GenerateCursorStep | docs/modes/full.js:157-182 | one more draw advances the cursor by the stride of the kind drawn |
| Layout.GenerateCursor | docs/modes/full.js:155-181 | a course of n draws ends its cursor between `start + 4n` and `start + 6n` |
| DocsFullMode.CubeFall | docs/modes/full.js:452-467 | a grounded cube is held (v = 0), an airborne one gains -0.015; it is grounded, at rest on the ground top, iff it would reach the ground top |
| DocsFullMode.CubeMotion | docs/modes/full.js:452-485 | a cube tick ends at or above the ground top and at rest when grounded |
| DocsFullMode.GroundedCubeRests | docs/modes/full.js:453-454 | a grounded cube that did not jump ends the tick with velocity 0 |
| DocsFullMode.ScrollAsteroid | docs/modes/full.js:536-555 | an asteroid keeps its size; past x = -15 it reappears at x = 60 at a height in `[ground + 1.5, ground + 4)` |
| DocsFullMode.ScrollAsteroids | docs/modes/full.js:538-568 | the asteroid pass scrolls every asteroid by that rule |
| DocsFullMode.AsteroidHitIsDistanceTest | docs/modes/full.js:557-567 | the squared-distance hit test agrees with `sqrt(dx²+dy²) < size + 0.4` |
| DocsFullMode.AsteroidField | docs/modes/full.js:697-702 | a transform spawns asteroids 8 apart from x = 10, heights in `[ground + 1.5, ground + 4)`, sizes in `[0.6, 1)` |
| DocsFullMode.Transition | docs/modes/full.js:651-761 | a firing portal leaves the player in its target form; a cube turning plane ends at rest with spikes and platforms gone and the asteroid field added; a plane turning cube ends at rest with asteroids gone and the generated course from x = 10 added; same form, nothing changes; the pool invariant is kept |
| DocsFullMode.PortalPass | docs/modes/full.js:572-605 | the portal pass on form, velocity and pools ends in `FormAfterPortals`; with no firing portal nothing changes; the velocity is kept or zeroed; the pool invariant is kept |
| DocsFullMode.PortalPassSnoc | docs/modes/full.js:572-605 | passing one more portal applies its transition, if it fires, to the scene the earlier portals left |
| DocsFullMode.Pressed | docs/modes/full.js:375-396 | input changes only the body's velocity and ground flag: nothing after game over or when released; a plane's velocity never drops; a cube changes only by a grounded jump to v = 0.45 |
| DocsFullMode.Step | docs/modes/full.js:398-425 | a finished game is frozen; otherwise the score grows by 0.2 and the speed is `0.12 + score*0.00005` |
| DocsFullMode.StepKeepsInvariant | docs/modes/full.js:398-425 | a tick keeps score, speed and the pool invariant |
| DocsFullMode.StepAdvances | docs/modes/full.js:398-425 | a running tick scrolls the ground, steps every portal, leaves the form `FormAfterPortals` decides and moves the player as its form dictates |
| DocsFullMode.StepPlane | docs/modes/full.js:427-450 | a plane stays in its flight band and the game is over iff it hits a scrolled asteroid |
| DocsFullMode.StepCube | docs/modes/full.js:452-485 | a cube over platforms above ground stays at or above the ground top and the game is over iff it hits a scrolled spike |
| DocsFullMode.StepWithoutPortal | docs/modes/full.js:398-425 | with no firing portal the form is kept, the body is the form's motion and only the active form's pools (and the platforms) scroll |
| DocsFullMode.StepParts | docs/modes/full.js:398-425 | the tick assembled from the motion, the scrolling passes and the portal pass is `Step` |
| DocsFullMode.ThrustNeverLowers | docs/modes/full.js:387-390 | a plane that holds the control is never lower after the tick than one that does not |
| DocsFullMode.FullMode.constructor | docs/modes/full.js:4-43 | the fresh mode: score 0, speed 0.12, cube form, at rest, every pool empty |
| DocsFullMode.FullMode.Init | docs/modes/full.js:45-74 | `init` places the cube on the ground, lays 30 ground pieces, the generated level and the first portal at x = 30 |
| DocsFullMode.FullMode.CreateGround | docs/modes/full.js:139-152 | 30 pieces 3 apart from x = -10 |
| DocsFullMode.FullMode.CreateLevel | docs/modes/full.js:154-185 | the level is the generated course from x = 5, then a portal to the plane at x = 30 |
| DocsFullMode.FullMode.LayCourse | docs/modes/full.js:157-182 | the draw loop appends exactly the generated course |
| DocsFullMode.FullMode.PlaceObstacle | docs/modes/full.js:160-181 | one switch arm lays its kind at the cursor and returns the advanced cursor |
| DocsFullMode.FullMode.HandleInput | docs/modes/full.js:375-396 | nothing after game over; the cube jumps (v = 0.45, airborne) only when held and grounded; the plane gains 0.018 while held |
| DocsFullMode.FullMode.Update | docs/modes/full.js:398-425 | the whole new state is `Step` of the old: body, form, score, speed, game over, ground, spikes, platforms, asteroids and portals; the class invariant is kept |
| DocsFullMode.FullMode.Tick | docs/modes/full.js:401-424 | the running tick: the new state is `Step` of the old |
| DocsFullMode.FullMode.MoveAndScroll | docs/modes/full.js:403-412 | the body becomes the form's motion, the pools become the scrolled pools and the game is over iff the active form's obstacles are touched |
| DocsFullMode.FullMode.ScrollObstacles | docs/modes/full.js:409-412 | the ground and platforms scroll, the spikes only as a cube and the asteroids only as a plane, and the game is over iff the scrolled obstacles of the current form are hit |
| DocsFullMode.FullMode.MovePlayer | docs/modes/full.js:403-407 | the plane glides, the cube falls and lands |
| DocsFullMode.FullMode.Frame | docs/main.js:57-71 | input, then the tick: the new state is `Step` of `Pressed` of the old |
| DocsFullMode.FullMode.HandlePlaneMode | docs/modes/full.js:427-450 | the player's body becomes `Glide` of the old one |
| DocsFullMode.FullMode.HandleCubeMode | docs/modes/full.js:452-485 | the player's body becomes `CubeMotion` of the old one |
| DocsFullMode.FullMode.LandOnPlatforms | docs/modes/full.js:474-484 | the landing loop computes `Land` |
| DocsFullMode.FullMode.UpdateGround | docs/modes/full.js:487-497 | the ground becomes `ScrollGrounds` with wrap 90 |
| DocsFullMode.FullMode.UpdatePlatforms | docs/modes/full.js:499-511 | the platforms become `ScrollPlatforms` |
| DocsFullMode.FullMode.UpdateSpikes | docs/modes/full.js:513-534 | as a cube, the spikes scroll and the game ends iff one is hit; as a plane nothing changes |
| DocsFullMode.FullMode.UpdateBarriers | docs/modes/full.js:536-570 | as a plane, the asteroids scroll and the game ends iff one is hit; as a cube nothing changes |
| DocsFullMode.FullMode.UpdatePortals | docs/modes/full.js:572-605 | every portal takes its step, recycling first, and form, velocity and pools become `PortalPass` of the old ones |
| DocsFullMode.FullMode.PassPortal | docs/modes/full.js:573-604 | one portal's step; if it fires, form, velocity and pools take the `Transition` to its target |
| DocsFullMode.FullMode.TransformToPlane | docs/modes/full.js:651-707 | plane form, velocity 0, spikes and platforms gone, the asteroid field added |
| DocsFullMode.FullMode.SpawnAsteroids | docs/modes/full.js:697-702 | appends exactly `AsteroidField` |
| DocsFullMode.FullMode.CreateAsteroid | docs/modes/full.js:261-299 | one asteroid of size `0.6 + r*0.4` |
| DocsFullMode.FullMode.TransformToCube | docs/modes/full.js:709-761 | cube form, velocity 0, asteroids gone, a generated course from x = 10 |
| DocsFullMode.FullMode.GameOver | docs/modes/full.js:770-785 | the game is over |
| DocsFullMode.FullMode.Restart | docs/modes/full.js:787-801 | everything reset to a fresh `init` |
| DocsFullMode.FullMode.Cleanup | docs/modes/full.js:803-827 | every pool emptied |
| DocsPrototypeMode.GapsPassable | docs/modes/prototype.js:430-433 | every recycled gap leaves a height inside the flight band at which the plane passes without a crash |
| DocsPrototypeMode.Transition | docs/modes/prototype.js:528-638 | a firing portal leaves the player in its target form; a cube turning plane ends at rest with spikes and platforms gone and six barrier pairs added; a plane turning cube keeps its velocity, loses the barriers and gains the generated course from x = 10; same form, nothing changes; the pool invariant is kept |
| DocsPrototypeMode.PortalPass | docs/modes/prototype.js:463-497 | the portal pass ends in `FormAfterPortals`; with no firing portal nothing changes; the velocity is kept or zeroed; the pool invariant is kept |
| DocsPrototypeMode.PortalPassSnoc | docs/modes/prototype.js:463-497 | passing one more portal applies its transition, if it fires, to the scene the earlier portals left |
| DocsPrototypeMode.Pressed | docs/modes/prototype.js:266-287 | input changes only the body's velocity and ground flag: nothing after game over or when released; a plane's velocity never drops; a cube changes only by a grounded jump to v = 0.45 |
| DocsPrototypeMode.Step | docs/modes/prototype.js:289-318 | a finished game is frozen; otherwise the score grows by 0.2 and the speed is `0.12 + score*0.00005` |
| DocsPrototypeMode.StepKeepsInvariant | docs/modes/prototype.js:289-318 | a tick keeps score, speed and the pool invariant |
| DocsPrototypeMode.StepAdvances | docs/modes/prototype.js:289-318 | a running tick scrolls the ground, steps every portal, leaves the form `FormAfterPortals` decides and moves the player as its form dictates |
| DocsPrototypeMode.StepPlane | docs/modes/prototype.js:320-342 | a plane stays in its flight band and the game is over iff it is outside the gap of a scrolled barrier pair in reach |
| DocsPrototypeMode.StepCube | docs/modes/prototype.js:344-369 | a cube over platforms above ground stays at or above the ground top and the game is over iff it hits a scrolled spike |
| DocsPrototypeMode.StepWithoutPortal | docs/modes/prototype.js:289-318 | with no firing portal the form is kept, the body is the form's motion and only the active form's pools (and the platforms) scroll |
| DocsPrototypeMode.StepParts | docs/modes/prototype.js:289-318 | the tick assembled from the motion, the scrolling passes and the portal pass is `Step` |
| DocsPrototypeMode.ThrustNeverLowers | docs/modes/prototype.js:278-282 | a plane that holds the control is never lower after the tick than one that does not |
| DocsPrototypeMode.PrototypeMode.constructor | docs/modes/prototype.js:4-41 | the fresh mode: score 0, speed 0.12, cube form, at rest, every pool empty |
| DocsPrototypeMode.PrototypeMode.Init | docs/modes/prototype.js:43-67 | the cube on the ground, 30 ground pieces, the generated level and the first portal |
| DocsPrototypeMode.PrototypeMode.CreateGround | docs/modes/prototype.js:81-94 | 30 pieces 3 apart from x = -10 |
| DocsPrototypeMode.PrototypeMode.CreateLevel | docs/modes/prototype.js:96-127 | the generated course from x = 5, then a portal at x = 30 |
| DocsPrototypeMode.PrototypeMode.LayCourse | docs/modes/prototype.js:99-124 | the draw loop appends exactly the generated course |
| DocsPrototypeMode.PrototypeMode.PlaceObstacle | docs/modes/prototype.js:102-123 | one switch arm lays its kind and returns the advanced cursor |
| DocsPrototypeMode.PrototypeMode.HandleInput | docs/modes/prototype.js:266-287 | jump only when grounded; thrust 0.012 while held as a plane; nothing after game over |
| DocsPrototypeMode.PrototypeMode.Update | docs/modes/prototype.js:289-318 | the whole new state is `Step` of the old; the class invariant is kept |
| DocsPrototypeMode.PrototypeMode.Tick | docs/modes/prototype.js:292-317 | the running tick: the new state is `Step` of the old |
| DocsPrototypeMode.PrototypeMode.MoveAndScroll | docs/modes/prototype.js:294-310 | the body becomes the form's motion, the pools become the scrolled pools and the game is over iff the active form's obstacles are touched |
| DocsPrototypeMode.PrototypeMode.Frame | docs/main.js:57-71 | input, then the tick: the new state is `Step` of `Pressed` of the old |
| DocsPrototypeMode.PrototypeMode.ScrollObstacles | docs/modes/prototype.js:307-310 | the ground and platforms scroll, the spikes only as a cube and the barriers only as a plane, and the game is over iff the scrolled obstacles of the current form are hit |
| DocsPrototypeMode.PrototypeMode.MovePlayer | docs/modes/prototype.js:294-298 | the plane glides, the cube does the clamped fall and lands |
| DocsPrototypeMode.PrototypeMode.HandlePlaneMode | docs/modes/prototype.js:320-342 | the body becomes `Glide` with this mode's constants |
| DocsPrototypeMode.PrototypeMode.HandleCubeMode | docs/modes/prototype.js:344-369 | the body becomes `FallAndLand` |
| DocsPrototypeMode.PrototypeMode.LandOnPlatforms | docs/modes/prototype.js:358-368 | the landing loop computes `Land` |
| DocsPrototypeMode.PrototypeMode.UpdateGround | docs/modes/prototype.js:371-381 | the ground becomes `ScrollGrounds` with wrap 90 |
| DocsPrototypeMode.PrototypeMode.UpdatePlatforms | docs/modes/prototype.js:383-395 | the platforms become `ScrollPlatforms` |
| DocsPrototypeMode.PrototypeMode.UpdateSpikes | docs/modes/prototype.js:397-418 | as a cube, the spikes scroll and the game ends iff one is hit |
| DocsPrototypeMode.PrototypeMode.UpdateBarriers | docs/modes/prototype.js:420-461 | as a plane, the barriers scroll (respawn at 60) and the game ends iff one is hit |
| DocsPrototypeMode.PrototypeMode.UpdatePortals | docs/modes/prototype.js:463-497 | every portal is checked for activation, then recycled, and form, velocity and pools become `PortalPass` of the old ones |
| DocsPrototypeMode.PrototypeMode.PassPortal | docs/modes/prototype.js:464-496 | one portal's step; if it fires, form, velocity and pools take the `Transition` to its target |
| DocsPrototypeMode.PrototypeMode.TransformToPlane | docs/modes/prototype.js:528-584 | plane form, velocity 0, spikes and platforms gone, 6 barrier pairs 10 apart |
| DocsPrototypeMode.PrototypeMode.SpawnBarriers | docs/modes/prototype.js:574-579 | appends exactly `BarrierField`, aligned |
| DocsPrototypeMode.PrototypeMode.TransformToCube | docs/modes/prototype.js:586-638 | cube form (velocity kept), barriers gone, a generated course from x = 10 |
| DocsPrototypeMode.PrototypeMode.GameOver | docs/modes/prototype.js:647-662 | the game is over |
| DocsPrototypeMode.PrototypeMode.Restart | docs/modes/prototype.js:664-678 | everything reset to a fresh `init` |
| DocsPrototypeMode.PrototypeMode.Cleanup | docs/modes/prototype.js:680-703 | every pool emptied |
| SrcPrototypeMode.GapsPassable | src/modes/prototype.js:362-366 | every gap, spawned or recycled, leaves a height above the ground top at which the plane passes |
| SrcPrototypeMode.Transition | src/modes/prototype.js:310-430 | a firing portal leaves the player in its target form with its velocity; a cube turning plane loses spikes and platforms and gains eight barrier pairs; a plane turning cube loses the barriers and gains the course of the transform's kinds from x = 10; same form, nothing changes; the pool invariant is kept |
| SrcPrototypeMode.PortalPass | src/modes/prototype.js:604-642 | the portal pass ends in `FormAfterPortals`, keeps the velocity, changes nothing when no portal fires and keeps the pool invariant |
| SrcPrototypeMode.PortalPassSnoc | src/modes/prototype.js:604-642 | passing one more portal applies its transition, if it fires, to the scene the earlier portals left |
| SrcPrototypeMode.Pressed | src/modes/prototype.js:288-308 | input changes only the body's velocity and ground flag: nothing after game over or when released; a plane's velocity never drops; a cube changes only by a grounded jump to v = 0.45 |
| SrcPrototypeMode.Step | src/modes/prototype.js:432-650 | a finished game is frozen; otherwise the score grows by 0.2 and the speed is `0.12 + score*0.00005` |
| SrcPrototypeMode.StepKeepsInvariant | src/modes/prototype.js:432-650 | a tick keeps score, speed and the pool invariant |
| SrcPrototypeMode.StepAdvances | src/modes/prototype.js:432-650 | a running tick scrolls the ground, steps every portal, leaves the form `FormAfterPortals` decides and moves the player by `FallAndLand` in either form |
| SrcPrototypeMode.StepPlane | src/modes/prototype.js:527-574 | a plane stays at or above the ground top with velocity within ±0.8 and the game is over iff it is outside the gap of a scrolled barrier pair in reach |
| SrcPrototypeMode.StepCube | src/modes/prototype.js:503-525 | a cube over platforms above ground stays at or above the ground top and the game is over iff it hits a scrolled spike |
| SrcPrototypeMode.StepWithoutPortal | src/modes/prototype.js:432-650 | with no firing portal the form is kept, the body is `FallAndLand` and only the active form's pools (and the platforms) scroll |
| SrcPrototypeMode.StepParts | src/modes/prototype.js:432-650 | the tick assembled from the motion, the scrolling passes and the portal pass is `Step` |
| SrcPrototypeMode.PrototypeMode.constructor | src/modes/prototype.js:3-36 | the fresh mode: score 0, speed 0.12, cube form, every pool empty |
| SrcPrototypeMode.PrototypeMode.Init | src/modes/prototype.js:38-75 | the cube on the ground, 30 ground pieces, the four-kind level and the first portal |
| SrcPrototypeMode.PrototypeMode.CreateGround | src/modes/prototype.js:90-104 | 30 pieces 3 apart from x = -10 |
| SrcPrototypeMode.PrototypeMode.CreateLevel | src/modes/prototype.js:106-138 | the four-kind course from x = 5, then a portal at x = 30 |
| SrcPrototypeMode.PrototypeMode.LayLevel | src/modes/prototype.js:110-134 | the draw loop appends exactly the generated course |
| SrcPrototypeMode.PrototypeMode.PlaceLevelObstacle | src/modes/prototype.js:113-133 | one switch arm (including the triple spike and the floating platform with its spike) lays its kind |
| SrcPrototypeMode.PrototypeMode.HandleInput | src/modes/prototype.js:288-308 | jump only when grounded; thrust 0.015 while held as a plane; nothing after game over |
| SrcPrototypeMode.PrototypeMode.Update | src/modes/prototype.js:432-650 | the whole new state is `Step` of the old; the class invariant is kept |
| SrcPrototypeMode.PrototypeMode.Tick | src/modes/prototype.js:436-649 | the running tick: the new state is `Step` of the old |
| SrcPrototypeMode.PrototypeMode.MoveAndScroll | src/modes/prototype.js:437-574 | the body becomes `FallAndLand`, the pools become the scrolled pools and the game is over iff the active form's obstacles are touched |
| SrcPrototypeMode.PrototypeMode.Frame | src/main.js:124-133 | input, then the tick: the new state is `Step` of `Pressed` of the old |
| SrcPrototypeMode.PrototypeMode.ScrollObstacles | src/modes/prototype.js:477-574 | the ground and platforms scroll, the spikes only as a cube and the barriers only as a plane, and the game is over iff the scrolled obstacles of the current form are hit |
| SrcPrototypeMode.PrototypeMode.MovePlayer | src/modes/prototype.js:437-475 | gravity, clamp, move, ground check and landing for either form |
| SrcPrototypeMode.PrototypeMode.LandOnPlatforms | src/modes/prototype.js:464-475 | the landing loop computes `Land` |
| SrcPrototypeMode.PrototypeMode.UpdateGround | src/modes/prototype.js:477-487 | the ground becomes `ScrollGrounds` with wrap 90 |
| SrcPrototypeMode.PrototypeMode.UpdatePlatforms | src/modes/prototype.js:489-501 | the platforms become `ScrollPlatforms` |
| SrcPrototypeMode.PrototypeMode.UpdateSpikes | src/modes/prototype.js:503-525 | as a cube, the spikes scroll and the game ends iff one is hit |
| SrcPrototypeMode.PrototypeMode.UpdateBarriers | src/modes/prototype.js:527-574 | as a plane, the barriers scroll (respawn at 50) and the game ends iff one is hit |
| SrcPrototypeMode.PrototypeMode.UpdatePortals | src/modes/prototype.js:604-642 | every portal is checked for activation, then recycled, and form and pools become `PortalPass` of the old ones |
| SrcPrototypeMode.PrototypeMode.PassPortal | src/modes/prototype.js:605-641 | one portal's step; if it fires, form and pools take the `Transition` to its target |
| SrcPrototypeMode.PrototypeMode.TransformToPlane | src/modes/prototype.js:310-373 | plane form, spikes and platforms gone, 8 barrier pairs 8 apart |
| SrcPrototypeMode.PrototypeMode.SpawnBarriers | src/modes/prototype.js:362-368 | appends exactly `BarrierField`, aligned |
| SrcPrototypeMode.PrototypeMode.TransformToCube | src/modes/prototype.js:375-430 | cube form, barriers gone, a course of the transform's four kinds from x = 10 |
| SrcPrototypeMode.PrototypeMode.LayCubeSection | src/modes/prototype.js:401-425 | the draw loop appends exactly the generated course |
| SrcPrototypeMode.PrototypeMode.PlaceCubeObstacle | src/modes/prototype.js:404-423 | one switch arm lays its kind |
| SrcPrototypeMode.PrototypeMode.GameOver | src/modes/prototype.js:659-675 | the game is over |
| SrcPrototypeMode.PrototypeMode.Restart | src/modes/prototype.js:677-724 | every pool emptied, scalars reset, a fresh `init` |
| SrcPrototypeMode.PrototypeMode.Reset | src/modes/prototype.js:677-715 | every pool emptied, score 0, speed 0.12, at rest in cube form, game running |
| SrcPrototypeMode.PrototypeMode.Cleanup | src/modes/prototype.js:726-749 | every pool emptied |
| SrcFullMode.Hover | src/modes/full.js:238-256 | one tick: the velocity drops by 0.008 and is clamped to ±0.3; the flyer moves by it when it stays inside `[ground + 0.5, ceiling - 0.5]`, and otherwise stops at the floor or ceiling it crossed with velocity 0 |
| SrcFullMode.HoverMonotone | src/modes/full.js:226-233 | holding thrust never leaves the flyer lower after the next tick |
| SrcFullMode.MissileHeight | src/modes/full.js:170 | a drawn missile height lies in `[-1.5, 1.5)` |
| SrcFullMode.ScrollMissile | src/modes/full.js:270-279 | a missile moves left; past x = -10 it reappears at x = 25 at a fresh height, recorded in its user data too |
| SrcFullMode.ScrollMissiles | src/modes/full.js:270-288 | the missile pass scrolls every missile by that rule |
| SrcFullMode.ScrollMissilesSound | src/modes/full.js:274-279 | recycling keeps every missile's recorded height equal to its height and inside `[-1.5, 1.5)` |
| SrcFullMode.MissileAvoidable | src/modes/full.js:282-287 | for every missile there is a height inside the flight band that does not hit it |
| SrcFullMode.DriftDecoration | src/modes/full.js:305-308 | a crystal drifts left at half speed and wraps to x = 20 past x = -20 |
| SrcFullMode.DriftDecorations | src/modes/full.js:296-309 | the decoration pass drifts every crystal |
| SrcFullMode.DriftStaysInWindow | src/modes/full.js:305-308 | at non-negative speed every crystal stays inside `[-20, 20]` |
| SrcFullMode.MissileRow | src/modes/full.js:159-163 | `createObstacles` lays missiles 15 apart from x = 8, each with a sound recorded height |
| SrcFullMode.CrystalRow | src/modes/full.js:201-224 | `createDecorations` lays crystal i at `x = 40r - 20` of its draw, inside `[-20, 20)` |
| SrcFullMode.FullMode.constructor | src/modes/full.js:3-25 | the fresh mode: score 0, speed 0.08, at rest, every pool empty |
| SrcFullMode.FullMode.Init | src/modes/full.js:27-64 | the flyer at height 0.5, 20 ground pieces, the missiles and the crystals |
| SrcFullMode.FullMode.CreateGround | src/modes/full.js:145-157 | 20 pieces 5 apart from x = -10 |
| SrcFullMode.FullMode.CreateObstacles | src/modes/full.js:159-163 | appends exactly `MissileRow`, keeping every missile sound |
| SrcFullMode.FullMode.CreateObstacle | src/modes/full.js:165-199 | one missile at a drawn height, recorded twice |
| SrcFullMode.FullMode.CreateDecorations | src/modes/full.js:201-224 | appends exactly `CrystalRow`, keeping the window |
| SrcFullMode.FullMode.HandleInput | src/modes/full.js:226-233 | thrust 0.015 while held, nothing after game over |
| SrcFullMode.FullMode.Update | src/modes/full.js:235-317 | a finished game is frozen; otherwise the body follows `Hover`, ground, missiles and crystals scroll, the game is over iff a scrolled missile is hit, the score grows by 0.1 and the speed is `0.08 + score*0.00003` |
| SrcFullMode.FullMode.Frame | src/main.js:124-133 | a finished game is frozen; otherwise the whole new state: the body is `Hover` of the body after thrust, ground, missiles and crystals scroll, the game is over iff a scrolled missile is hit, score and speed advance |
| SrcFullMode.FullMode.MovePlayer | src/modes/full.js:238-256 | the body becomes `Hover` of the old one |
| SrcFullMode.FullMode.UpdateGround | src/modes/full.js:262-267 | the ground becomes `ScrollGrounds` with wrap 100 |
| SrcFullMode.FullMode.UpdateObstacles | src/modes/full.js:270-288 | the missiles become `ScrollMissiles` and the game ends iff one of them is hit |
| SrcFullMode.FullMode.UpdateDecorations | src/modes/full.js:296-309 | the crystals become `DriftDecorations`, inside their window |
| SrcFullMode.FullMode.GameOver | src/modes/full.js:326-336 | the game is over |
| SrcFullMode.FullMode.Restart | src/modes/full.js:338-361 | every pool emptied, scalars reset, a fresh `init` |
| SrcFullMode.FullMode.Cleanup | src/modes/full.js:363-372 | every pool emptied |

## Left out

- Rendering: meshes, materials, textures, colours, lights, fog, camera,
  pulse and glow effects, the plane's tilt, and the heights of barrier
  meshes (which can be negative).
- The cube's rotation and its snapping to multiples of π/2. These are
  visual only and never read by the simulation.
- Particles, trails and background cubes. They are decoration with no
  effect on play, and their updates only draw random numbers.
- The score display and the game-over overlay (DOM writes).
- The distribution of `Math.random()`: draws are arbitrary values in
  `[0, 1)`, so the model proves what holds for every draw.
- The bob of the src full mode's crystals, which reads the clock
  (`Date.now()`), and their rotation and vertical and depth positions. Only
  their horizontal drift is modelled.
- Missile rotation in the src full mode (visual only).
- `nextPortalScore` in the src prototype: it is set and never read.
- The page loop, mode switching and key handling outside the mode classes
  (main.js, utils/inputHandler.js). `Frame` stands for one call of
  `handleInput` followed by `update`.
- The player's height before `init` creates it. The constructors set it so
  that the class invariant holds.
- Floating point: all arithmetic is on exact reals, so rounding of the
  positions is not modelled.
- World.GroundStaysInWindow: the ground window is proved piece by piece;
  a class invariant would need the speed bounded by the wrap, which the
  source never enforces as the score grows.
- DocsPrototypeMode.GapsPassable and SrcPrototypeMode.GapsPassable: proved
  for the gap ranges alone; whether the plane can climb to the gap in time
  is not modelled.
