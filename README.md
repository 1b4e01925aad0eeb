# Astro-Dash gameplay core in Dafny

A model of the gameplay rules of Astro-Dash, a three.js endless runner. A
ball-shaped player runs automatically along a corridor of 100 platform
segments. Each segment's platform has a random rectangular hole. The player
steers left and right, jumps, falls through holes, and respawns after falling
below a fatal height. A camera follows at one of four headings.

The model has seven modules:

- `Geometry` (geometry.dfy) models `createPlatform`, `createWalls` and
  `createRoof`. The three `Math.random()` draws are a `Draws` parameter in
  [0, 1). Boxes are exact `real` boxes given by size and centre.
- `Track` (track.dfy) models the build loop that pushes 100 segments.
- `Probe` (probe.dfy) models `checkPlatformBelow/Right/Left`. The ray caster
  is a `Caster` parameter that maps an origin and a direction to the
  distances of its platform hits.
- `Camera` (camera.dfy) holds the quarter-turn sine/cosine table behind
  `updateCamera`.
- `Physics` (physics.dfy) states the rules as functions of a `GameState`
  value. These are `updatePlayer` (split into its stages, in source order),
  `resetPlayer`, the keydown and keyup handlers, `updateCamera` and the
  `animate` frame.
- `Game` (game.dfy) is a class whose fields are the module-level variables
  of `main.js`: the player position, `velocityY`, `isJumping`,
  `gameStarted`, the `keys` table, `cameraAngle` and the camera's position
  and target. Its methods update these fields in place, in source order.
  Each method is proved to leave exactly the state `Physics` prescribes. The
  constructor, `UpdatePlayer`, `KeyDown`, `KeyUp`, `UpdateCamera` and
  `Animate` also keep the invariant `Physics.Inv`. The single stages of the
  player update (`Move`, `Fall`, `Land`, `ClampToWalls`) and `ResetPlayer`
  are not claimed to: `Fall` alone can leave the player below -40, which
  the fall check at the end of the update repairs.
- `Traces` (traces.dfy) covers whole runs: any sequence of key presses, key
  releases and frames.

Behaviours of the code that the model keeps as written:

- **Hole shape.** The hole is not always inside the platform. For hole size
  11 its Z extent is 11, which is more than the depth of 8. The Z offset
  range is then reversed, to (-1.5, 1.5].
- **Mirrored gap.** The hole's X offset is added to the origin, but the
  front and back pieces leave their gap centred at `z - holeOffsetZ`: the
  Z offset acts mirrored.
- **Doubled origin.** Each piece's position already includes the segment
  origin, and the group is placed at the origin again. On screen, a platform
  therefore appears where one generated at twice the origin would be. The
  platforms end up 4 units apart, while walls and roofs are 2 units apart.
- **Keys table.** A space-bar keydown writes the entry `" "` of the keys
  table. The entry named `"Space"` is never written.
- **Initial velocity.** The initial vertical velocity is 9.81, not 0.
- **No empty platform case.** The code has no special case for a platform
  without pieces. It needs none: the right piece always exists
  (Geometry.PieceExistence), so every platform has at least one piece.

## Model

| member | source | states |
|---|---|---|
| Geometry.HoleSize | main.js:167 | For a draw in [0,1), the hole size is 5, 8 or 11. It is 5 exactly for draws below 1/3 and 11 exactly for draws of 2/3 or more. |
| Geometry.Scale | main.js:169-170 | For a draw r in [0,1), r·span lies in [0, span) or (span, 0], and it is 0 only when r is 0. |
| Geometry.HoleOffset | main.js:169-170 | If the hole is shorter than the axis, the offset lies in [-(E-h)/2, (E-h)/2). If it is longer, the range is reversed. If the two are equal, the offset is 0 for every draw. Unless h = E, the end (h-E)/2 is reached exactly at draw 0: it is the lower end when h < E and the upper end when h > E. |
| Geometry.MakeHole | main.js:164-170 | The hole's X extent stays inside the 15-wide platform. It touches the left edge exactly when the X draw is 0. |
| Geometry.LeftPiece | main.js:172-178 | The piece exists iff the gap starts right of the platform's left edge. It then spans from the left edge to the gap, at full depth, one platform thick, at height y. |
| Geometry.RightPiece | main.js:180-186 | The piece exists iff the gap ends left of the right edge. It then spans from the gap to the right edge, at full depth. |
| Geometry.FrontPiece | main.js:188-194 | The piece exists iff the mirrored gap ends before the +z edge. It then covers the hole's column from the gap to that edge. |
| Geometry.BackPiece | main.js:196-202 | The piece exists iff the mirrored gap starts after the -z edge. It then covers the hole's column from that edge to the gap. |
| Geometry.CreatePlatform | main.js:154-208 | The group is placed at the origin. The hole size is in {5,8,11}. There are 1 to 4 pieces, each lying at height y inside the platform footprint. |
| Geometry.PieceExistence | main.js:167-202 | The right piece always exists. The left piece exists iff the X draw is positive. The back piece exists iff the hole size is 5. The front piece exists iff the size is 5 and the Z draw is positive. |
| Geometry.PiecesCover | main.js:172-202 | Every point of the platform outside the gap lies on some piece. |
| Geometry.PiecesDisjoint | main.js:172-202 | The pieces lie inside the platform, are pairwise non-overlapping, and none of them overlaps the gap. |
| Geometry.DrawnHoleWellPlaced | main.js:167-170 | Every drawn hole has positive size, its X extent inside the platform, and a mirrored Z extent that meets the platform. |
| Geometry.WidthsAddUp | main.js:172-185 | Left width (0 when absent) + hole size + right width = 15. |
| Geometry.DepthsAddUp | main.js:188-201 | For hole size 5: front depth (0 when absent) + hole size + back depth = 8. |
| Geometry.PlatformTiles | main.js:154-208 | A generated platform's pieces cover it outside the gap and do not overlap one another. |
| Geometry.LargeHoleSpansDepth | main.js:167-201 | For hole sizes 8 and 11, the gap spans the full depth and there are at most two pieces. |
| Geometry.WorldPiecesDoubled | main.js:176-204 | On screen, each piece (its group position plus its own position) is the matching piece of the same draws generated at twice the origin. |
| Geometry.CreateWalls | main.js:212-229 | The two walls stand on the platform's left and right edges (x = ±7.5 from the origin). Each rises from the platform plane to 10 units above it, at the segment's z. |
| Geometry.CreateRoof | main.js:249-260 | The roof spans the platform's width and the walls' length. Its mid-plane is at the walls' tops. |
| Track.BuildTrack | main.js:263-271 | Segment i's platform, walls and roof are those generated at (0, 0, -2i) from segment i's draws, for all 100 segments. |
| Track.SegmentOnScreen | main.js:266-271 | On screen, segment i's pieces are those of a platform generated at (0, 0, -4i). Its walls and roof are centred on z = -2i. |
| Probe.NearSupport | main.js:300 | Support needs a hit: an empty hit list gives no support, and support means some hit is at most 1 away. |
| Probe.CheckPlatform | main.js:295-319 | A probe from a position in a direction finds no support when its ray hits nothing, and finds support only when some hit of that ray is at most 1 away. |
| Probe.FirstIsNearest | main.js:297-300 | In a list of hits reported nearest first, the first hit is no farther than any other. |
| Probe.NearSupportIffAnyWithinReach | main.js:295-319 | A probe succeeds (a first hit exists and is at most 1 away) iff some hit lies within distance 1, inclusive. |
| Camera.SinCos | main.js:724-730 | For a whole number of quarter turns, the table entry (sin, cos) has sin² + cos² = 1. At heading 0 it is (0, 1). |
| Camera.AngleAddition | main.js:724-730 | The table satisfies the sine and cosine angle-addition identities, so it behaves as sin/cos on quarter turns. |
| Camera.Offset | main.js:724-731 | The camera offset is 2 units up and on a circle of radius 5. At heading 0 it is (0, 2, 5). |
| Camera.QuarterTurnRotates | main.js:708-714 | A +90° turn maps the camera offset (x, z) to (z, -x). |
| Camera.FullTurn | main.js:708-714 | Four quarter turns give back the same offset. |
| Physics.InitialInv | main.js:283-292 | The initial state satisfies the invariant: heading 0, height 1, not jumping, not started. |
| Physics.MoveStep | main.js:366-374 | Only x and z change. z decreases iff the game has started. x decreases iff left is held, and increases iff right is held without left, by at most 0.1. |
| Physics.GravityStep | main.js:378-385 | Only y and the velocity change. Without support below the velocity gains -0.002. With support it becomes 0 when not jumping and is kept when jumping. y then moves by the new velocity. |
| Physics.LandingStep | main.js:388-392 | At or below height 1 with support below, the player is set to height 1, at rest, not jumping. Otherwise nothing changes. It never lowers the player, never starts a jump and never moves x or z. |
| Physics.WallStep | main.js:395-399 | Only x changes, and only to ±6.5. x decreases only from beyond 6.5 and increases only from beyond -6.5. Strictly between the bounds nothing changes. |
| Physics.FallStep | main.js:442-444 | Below -40 the body becomes the respawn state. Otherwise it is unchanged. Either way the result is at or above -40. |
| Physics.PlayerFrame | main.js:365-444 | A player update changes only the body, leaves it at or above -40 and keeps the invariant. |
| Physics.UpdatePlayer | main.js:365-444 | After a frame the player is at or above -40. A frame never starts a jump. z never increases, and it changes only once the game has started, unless the player respawned. |
| Physics.ForwardMotion | main.js:366-368 | If the player did not fall, z moves by exactly -0.15 when started and stays put otherwise. If the player fell, the result is the respawn state. |
| Physics.LateralMotion | main.js:369-374 | Left moves x by -0.1 and wins over right. Right alone moves x by +0.1. Unless the player fell (the respawn puts x at 0), only a position at or past ±6.5 is changed afterwards, and only to the bound. |
| Physics.VerticalMotion | main.js:377-392 | Velocity gains -0.002 with no support below. With support it becomes 0 when not jumping and stays the same when jumping. Then y += velocity. Landing (y ≤ 1 and support at the new height) sets y = 1, velocity 0 and ends the jump. Otherwise nothing changes. Unless the player fell, these are the height, velocity and jump flag the frame ends with. |
| Physics.WallClampOneSide | main.js:394-399 | x is clamped to 6.5 when x ≥ 6.5 and there is no right support, and to -6.5 when x ≤ -6.5 and there is no left support. Otherwise x is unchanged. Only x changes. |
| Physics.GroundedAtRest | main.js:377-392 | Standing at y = 1 between the wall bounds (-6.5 < x < 6.5), at rest and supported, with no input before the start, the player does not move. |
| Physics.RightClampHolds | main.js:394-399 | At x = 6.5 with right input and no right support at the post-landing position, x stays 6.5, unless the player fell (the respawn puts x at 0). |
| Physics.FallResets | main.js:442-444 | A frame that leaves y below -40 ends at (0,1,0), with velocity 0 and not jumping. |
| Physics.FirstFrame | main.js:283 | Spawned over support, the first frame zeroes the 9.81 velocity. Over a hole, it throws the player up to y = 10.808. |
| Physics.KeyDown | main.js:695-715 | A tracked key (left, right, " ") is recorded as held. Every other key keeps its state, and an untracked key leaves the table as it was. Space while not jumping sets velocity 0.15 and jumping; otherwise the body is unchanged. The game is started afterwards iff it was before or such a jump happened. 'c' and 'v' change the heading by -90 and +90. The camera and its target are unchanged. The invariant is kept. |
| Physics.KeyUp | main.js:717-721 | A tracked key is released and every other key keeps its state. An untracked key changes nothing. |
| Physics.JumpStarts | main.js:699-707 | Space while not jumping sets velocity 0.15 and isJumping, starts the game, keeps the position, and records " " (not "Space") as held. |
| Physics.UpdateCamera | main.js:724-735 | The camera is at player + Offset(heading): 2 above the player, horizontally 5 away, at player + (0, 2, 5) for heading 0. It looks at the player. Nothing else changes. |
| Physics.Animate | main.js:738-745 | The new body is the player update of the old state. A frame keeps the invariant, the started flag, the keys and the heading. It leaves the camera at the new player position + Offset(heading), looking at the player. |
| Game.Game.constructor | main.js:282-292 | The fields start at the initial state: position (0,1,0), velocity 9.81, not jumping, not started, camera at (0,0,5). |
| Game.Game.ResetPlayer | main.js:347-353 | The position becomes (0,1,0), velocity 0 and isJumping false. gameStarted, the keys and the camera are unchanged. |
| Game.Game.UpdatePlayer | main.js:365-444 | The in-place update leaves exactly Physics.PlayerFrame of the old state and keeps the invariant. |
| Game.Game.Move | main.js:366-374 | The in-place forward and lateral moves leave exactly Physics.MoveStep of the old body. Nothing else changes. |
| Game.Game.Fall | main.js:378-385 | The in-place velocity update and integration leave exactly Physics.GravityStep of the old body. Nothing else changes. |
| Game.Game.Land | main.js:388-392 | The in-place landing clamp leaves exactly Physics.LandingStep of the old body. Nothing else changes. |
| Game.Game.ClampToWalls | main.js:395-399 | The in-place wall clamp leaves exactly Physics.WallStep of the old body. Nothing else changes. |
| Game.Game.KeyDown | main.js:695-715 | The handler leaves exactly Physics.KeyDown of the old state and keeps the invariant. |
| Game.Game.KeyUp | main.js:717-721 | The handler leaves exactly Physics.KeyUp of the old state. |
| Game.Game.UpdateCamera | main.js:724-735 | The camera fields become exactly those of Physics.UpdateCamera. |
| Game.Game.Animate | main.js:738-745 | The player update, then the camera update, leave exactly Physics.Animate of the old state. |
| Traces.Run | main.js:695-745 | Every run of events from a state satisfying the invariant keeps it. The heading stays a multiple of 90, the player stays at or above -40, and jumping implies started. |
| Traces.StartedIffSpacePressed | main.js:699-707 | After a run, the game is started iff it was before or space was pressed during the run. The flag is never cleared. |
| Traces.StartsOnFirstSpace | main.js:286-292 | From the initial state, the game has started iff space was pressed. |
| Traces.HeadingCountsTurns | main.js:708-714 | After a run, the heading is the old heading + 90 × (presses of 'v' − presses of 'c'). |
| Traces.NeverBackwards | main.js:366-368 | In a run without falls, the player's z never increases, and it does not change unless the game has started. |

## Left out

- Rendering is left out: the scene, camera projection, renderer, materials, lights, light helper, background and the starfield. None of it affects gameplay.
- The GLSL material builders (`createGouraudMaterial`, `createPhongMaterial`, `createRingMaterial`) are left out. They are GPU string templates.
- The arms, legs and antennas are left out: their construction, the limb swing, the arm matrix chains in `updatePlayer`, and the arm reset lines in `resetPlayer`. This is cosmetic trigonometry that never feeds back into the physics.
- The three.js ray-box intersection (`Raycaster.intersectObjects`) is not modelled. Its answers are the `Caster` parameter. The lemma about the nearest hit assumes the caster's documented nearest-first order.
- `Math.random()` is not modelled. Its draws are parameters in [0, 1).
- Floating point is not modelled: all arithmetic is exact on reals. Camera.SinCos gives exact quarter-turn values, where `Math.sin`/`Math.cos` of a multiple of π/2 are only approximately 0 or ±1.
- `requestAnimationFrame` and listener registration are left out. Frames and key events are modelled only as the transitions they cause.
- Dead code is left out: the empty `collisions()`, the unused `endPositionZ`, and the unused `leftRaycaster`/`rightRaycaster`.
- Track.BuildTrack: takes one triple of draws per segment as a sequence of exactly 100. Where the draws of consecutive calls come from is not modelled.
