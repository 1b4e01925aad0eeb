/** The game's rules as functions of the state: the per-frame player update
    (forward motion, lateral input, gravity, integration, landing, the wall
    clamp and the fall reset), the key handlers and the camera update. The
    class in game.dfy performs these same steps on mutable fields and is
    proved to agree with them. */
module Physics {
  import opened Geometry
  import opened Probe
  import Camera

  const Gravity: real := -0.002
  const JumpStrength: real := 0.15
  const ForwardSpeed: real := 0.15
  const LateralStep: real := 0.1
  const FloorY: real := 1.0
  const WallX: real := 6.5
  const FallThreshold: real := -40.0
  const InitialVelocityY: real := 9.81
  const Spawn: Vec3 := Vec3(0.0, 1.0, 0.0)

  /** The player's position, vertical velocity and jump flag. */
  datatype Body = Body(pos: Vec3, velocityY: real, isJumping: bool)

  /** What resetPlayer leaves: at the spawn point, at rest, not jumping. */
  const Respawned: Body := Body(Spawn, 0.0, false)

  /** The key-state table, indexed by the browser's key names. */
  type Keys = map<string, bool>

  const ArrowLeft: string := "ArrowLeft"
  const ArrowRight: string := "ArrowRight"
  const SpaceBar: string := " "

  /** The table starts with three entries; the third is named "Space", which
      no key event ever writes (the space bar's key name is " "). */
  function InitialKeys(): Keys {
    map[ArrowLeft := false, ArrowRight := false, "Space" := false]
  }

  /** An absent entry reads as false. */
  predicate Held(keys: Keys, key: string) {
    key in keys && keys[key]
  }

  /** The keys whose state the handlers record. */
  predicate Tracked(key: string) {
    key == ArrowLeft || key == ArrowRight || key == SpaceBar
  }

  /** The module-level state the handlers and the frame loop share. The
      camera's target is None until the first camera update points it at the
      player. */
  datatype GameState = GameState(
    body: Body,
    gameStarted: bool,
    keys: Keys,
    cameraAngle: int,
    camera: Vec3,
    lookAt: Option<Vec3>)

  /** Player at (0, 1, 0) with the initial upward velocity 9.81, not jumping,
      game not started, camera at (0, 0, 5) with heading 0. */
  function Initial(): GameState {
    GameState(Body(Vec3(0.0, 1.0, 0.0), InitialVelocityY, false), false,
              InitialKeys(), 0, Vec3(0.0, 0.0, 5.0), None)
  }

  /** What stays true between frames and events: the heading is a whole
      number of quarter turns, the player is never left below the fatal
      height, and a jump in progress means the game has started. */
  predicate Inv(g: GameState) {
    Camera.Quarter(g.cameraAngle)
    && g.body.pos.y >= FallThreshold
    && (g.body.isJumping ==> g.gameStarted)
  }

  lemma InitialInv()
    ensures Inv(Initial())
  {
  }

  // ---- The stages of one player update, in source order ----

  /** Forward motion once the game has started, then lateral input, left
      taking priority over right. */
  function MoveStep(b: Body, started: bool, left: bool, right: bool): (r: Body)
    ensures r.pos.y == b.pos.y && r.velocityY == b.velocityY && r.isJumping == b.isJumping
    ensures r.pos.z <= b.pos.z
    ensures r.pos.z == b.pos.z <==> !started
    ensures r.pos.x < b.pos.x <==> left
    ensures r.pos.x > b.pos.x <==> !left && right
    ensures -LateralStep <= r.pos.x - b.pos.x <= LateralStep
  {
    var z := if started then b.pos.z - ForwardSpeed else b.pos.z;
    var x := if left then b.pos.x - LateralStep
             else if right then b.pos.x + LateralStep
             else b.pos.x;
    b.(pos := Vec3(x, b.pos.y, z))
  }

  /** Without support below, gravity accelerates the player; with support
      and no jump in progress, the vertical velocity is zeroed; then the
      height is integrated. */
  function GravityStep(b: Body, cast: Caster): (r: Body)
    ensures r.pos.x == b.pos.x && r.pos.z == b.pos.z && r.isJumping == b.isJumping
    ensures r.pos.y == b.pos.y + r.velocityY
    ensures !CheckPlatform(cast, b.pos, Down) ==> r.velocityY == b.velocityY + Gravity
    ensures CheckPlatform(cast, b.pos, Down) && !b.isJumping ==> r.velocityY == 0.0
    ensures CheckPlatform(cast, b.pos, Down) && b.isJumping ==> r.velocityY == b.velocityY
  {
    var vy := if !CheckPlatform(cast, b.pos, Down) then b.velocityY + Gravity
              else if !b.isJumping then 0.0
              else b.velocityY;
    Body(Vec3(b.pos.x, b.pos.y + vy, b.pos.z), vy, b.isJumping)
  }

  /** At or below the floor height with support below (probed again at the
      new height): snap to the floor, stop and end the jump. */
  function LandingStep(b: Body, cast: Caster): (r: Body)
    ensures r.pos.x == b.pos.x && r.pos.z == b.pos.z
    ensures r.isJumping ==> b.isJumping
    ensures r.pos.y >= b.pos.y
    ensures b.pos.y <= FloorY && CheckPlatform(cast, b.pos, Down) ==>
              r.pos.y == FloorY && r.velocityY == 0.0 && !r.isJumping
    ensures !(b.pos.y <= FloorY && CheckPlatform(cast, b.pos, Down)) ==> r == b
  {
    if b.pos.y <= FloorY && CheckPlatform(cast, b.pos, Down) then
      Body(Vec3(b.pos.x, FloorY, b.pos.z), 0.0, false)
    else b
  }

  /** Past the right bound without support to the right: pulled back to it;
      otherwise the same on the left. */
  function WallStep(b: Body, cast: Caster): (r: Body)
    ensures r == b.(pos := r.pos) && r.pos.y == b.pos.y && r.pos.z == b.pos.z
    ensures r.pos.x == b.pos.x || r.pos.x == WallX || r.pos.x == -WallX
    ensures r.pos.x < b.pos.x ==> b.pos.x > WallX
    ensures r.pos.x > b.pos.x ==> b.pos.x < -WallX
    ensures -WallX < b.pos.x < WallX ==> r == b
  {
    if b.pos.x >= WallX && !CheckPlatform(cast, b.pos, Right) then
      b.(pos := b.pos.(x := WallX))
    else if b.pos.x <= -WallX && !CheckPlatform(cast, b.pos, Left) then
      b.(pos := b.pos.(x := -WallX))
    else b
  }

  /** Below the fatal height: reset. */
  function FallStep(b: Body): (r: Body)
    ensures r.pos.y >= FallThreshold
    ensures b.pos.y < FallThreshold ==> r == Respawned
    ensures b.pos.y >= FallThreshold ==> r == b
  {
    if b.pos.y < FallThreshold then Respawned else b
  }

  /** One frame of player physics. */
  function UpdatePlayer(b: Body, started: bool, left: bool, right: bool, cast: Caster): (r: Body)
    ensures r.pos.y >= FallThreshold
    ensures r.isJumping ==> b.isJumping
    ensures r.pos.z <= b.pos.z || r == Respawned
    ensures started || r.pos.z == b.pos.z || r == Respawned
  {
    FallStep(WallStep(LandingStep(GravityStep(MoveStep(b, started, left, right), cast), cast), cast))
  }

  /** The height the player would be left at before the fall check. */
  function HeightBeforeFallCheck(b: Body, started: bool, left: bool, right: bool, cast: Caster): real {
    LandingStep(GravityStep(MoveStep(b, started, left, right), cast), cast).pos.y
  }

  predicate Fell(b: Body, started: bool, left: bool, right: bool, cast: Caster) {
    HeightBeforeFallCheck(b, started, left, right, cast) < FallThreshold
  }

  /** z moves by exactly -0.15 when the game has started and not at all
      otherwise, unless the player fell and was respawned. */
  lemma ForwardMotion(b: Body, started: bool, left: bool, right: bool, cast: Caster)
    ensures var r := UpdatePlayer(b, started, left, right, cast);
            if Fell(b, started, left, right, cast) then r == Respawned
            else r.pos.z == (if started then b.pos.z - ForwardSpeed else b.pos.z)
  {
  }

  /** Lateral input: left moves -0.1 and wins over right, right alone moves
      +0.1; the wall clamp can then only pull a position at or beyond +-6.5
      back to the bound. */
  lemma LateralMotion(b: Body, started: bool, left: bool, right: bool, cast: Caster)
    requires !Fell(b, started, left, right, cast)
    ensures var x := MoveStep(b, started, left, right).pos.x;
            && x == b.pos.x + (if left then -LateralStep else if right then LateralStep else 0.0)
            && var r := UpdatePlayer(b, started, left, right, cast);
               (-WallX < x < WallX ==> r.pos.x == x)
               && (r.pos.x == x || (r.pos.x == WallX && x >= WallX) || (r.pos.x == -WallX && x <= -WallX))
  {
  }

  /** The vertical update: the velocity after the first probe, the
      integration, and the landing that the second probe (at the integrated
      height) allows; unless the player fell, these are the height, velocity
      and jump flag the frame ends with. */
  lemma VerticalMotion(b: Body, started: bool, left: bool, right: bool, cast: Caster)
    ensures var m := MoveStep(b, started, left, right);
            var g := GravityStep(m, cast);
            var below := CheckPlatform(cast, m.pos, Down);
            && g.velocityY == (if !below then b.velocityY + Gravity else if !b.isJumping then 0.0 else b.velocityY)
            && g.pos.y == b.pos.y + g.velocityY
            && var landed := g.pos.y <= FloorY && CheckPlatform(cast, g.pos, Down);
               var l := LandingStep(g, cast);
               (landed ==> l.pos.y == FloorY && l.velocityY == 0.0 && !l.isJumping)
               && (!landed ==> l == g)
               && var r := UpdatePlayer(b, started, left, right, cast);
                  (!Fell(b, started, left, right, cast) ==>
                     r.pos.y == l.pos.y && r.velocityY == l.velocityY && r.isJumping == l.isJumping)
  {
  }

  /** The wall clamp acts on at most one side per frame, and only where the
      probe on that side finds no platform. */
  lemma WallClampOneSide(b: Body, cast: Caster)
    ensures var r := WallStep(b, cast);
            && r.pos.y == b.pos.y && r.pos.z == b.pos.z && r.velocityY == b.velocityY && r.isJumping == b.isJumping
            && (b.pos.x >= WallX && !CheckPlatform(cast, b.pos, Right) ==> r.pos.x == WallX)
            && (b.pos.x >= WallX && CheckPlatform(cast, b.pos, Right) ==> r.pos.x == b.pos.x)
            && (b.pos.x <= -WallX && !CheckPlatform(cast, b.pos, Left) ==> r.pos.x == -WallX)
            && (b.pos.x <= -WallX && CheckPlatform(cast, b.pos, Left) ==> r.pos.x == b.pos.x)
            && (-WallX < b.pos.x < WallX ==> r == b)
  {
  }

  /** Standing on a platform with no input before the start: nothing moves. */
  lemma GroundedAtRest(b: Body, cast: Caster)
    requires b.pos.y == FloorY && b.velocityY == 0.0 && !b.isJumping
    requires CheckPlatform(cast, b.pos, Down)
    requires -WallX < b.pos.x < WallX
    ensures UpdatePlayer(b, false, false, false, cast) == b
  {
  }

  /** Held against the right bound with no support to the right, further
      right input leaves x at 6.5. */
  lemma RightClampHolds(b: Body, started: bool, cast: Caster)
    requires b.pos.x == WallX
    requires !Fell(b, started, false, true, cast)
    requires !CheckPlatform(cast, LandingStep(GravityStep(MoveStep(b, started, false, true), cast), cast).pos, Right)
    ensures UpdatePlayer(b, started, false, true, cast).pos.x == WallX
  {
  }

  /** A frame that leaves the player below -40 ends with the player at the
      spawn point, at rest and not jumping. */
  lemma FallResets(b: Body, started: bool, left: bool, right: bool, cast: Caster)
    requires Fell(b, started, left, right, cast)
    ensures UpdatePlayer(b, started, left, right, cast) == Body(Vec3(0.0, 1.0, 0.0), 0.0, false)
  {
  }

  /** The initial velocity 9.81 only matters when the spawn point has no
      support below: on a platform the first frame zeroes it, over a hole it
      throws the player up by 9.808 units. */
  lemma FirstFrame(cast: Caster)
    ensures var b := Initial().body;
            var r := UpdatePlayer(b, false, false, false, cast);
            && (CheckPlatform(cast, b.pos, Down) ==> r == b.(velocityY := 0.0))
            && (!CheckPlatform(cast, b.pos, Down) ==> r.pos.y == 10.808 && r.velocityY == 9.808 && !r.isJumping)
  {
  }

  // ---- Key handlers, camera, frame ----

  /** keydown: record a tracked key; the space bar jumps (and starts the
      game) unless a jump is in progress; 'c' and 'v' turn the heading by -90
      and +90 degrees. */
  function KeyDown(g: GameState, key: string): (r: GameState)
    ensures r.gameStarted == (g.gameStarted || (key == SpaceBar && !g.body.isJumping))
    ensures r.cameraAngle == g.cameraAngle + (if key == "c" then -Camera.QuarterTurn else if key == "v" then Camera.QuarterTurn else 0)
    ensures Inv(g) ==> Inv(r)
    ensures Tracked(key) ==> Held(r.keys, key)
    ensures forall k :: k != key ==> (Held(r.keys, k) <==> Held(g.keys, k))
    ensures r.keys.Keys == g.keys.Keys + (if Tracked(key) then {key} else {})
    ensures !Tracked(key) ==> r.keys == g.keys
    ensures r.body == (if key == SpaceBar && !g.body.isJumping
                       then g.body.(velocityY := JumpStrength, isJumping := true) else g.body)
    ensures r.camera == g.camera && r.lookAt == g.lookAt
  {
    var keys := if Tracked(key) then g.keys[key := true] else g.keys;
    var jump := key == SpaceBar && !g.body.isJumping;
    var body := if jump then g.body.(velocityY := JumpStrength, isJumping := true) else g.body;
    var started := if jump && !g.gameStarted then true else g.gameStarted;
    var angle := if key == "c" then g.cameraAngle - Camera.QuarterTurn
                 else if key == "v" then g.cameraAngle + Camera.QuarterTurn
                 else g.cameraAngle;
    g.(keys := keys, body := body, gameStarted := started, cameraAngle := angle)
  }

  /** keyup: clear a tracked key. */
  function KeyUp(g: GameState, key: string): (r: GameState)
    ensures r.keys.Keys == g.keys.Keys + (if Tracked(key) then {key} else {})
    ensures Tracked(key) ==> !Held(r.keys, key)
    ensures !Tracked(key) ==> r == g
    ensures forall k :: k != key ==> (Held(r.keys, k) <==> Held(g.keys, k))
    ensures r.(keys := g.keys) == g
  {
    if Tracked(key) then g.(keys := g.keys[key := false]) else g
  }

  /** A jump from the ground: velocity exactly 0.15, jumping, game started,
      the position untouched; the table records the key under " ", and its
      "Space" entry is left as it was. */
  lemma JumpStarts(g: GameState)
    requires !g.body.isJumping
    ensures var r := KeyDown(g, SpaceBar);
            && r.body == Body(g.body.pos, JumpStrength, true)
            && r.gameStarted
            && Held(r.keys, SpaceBar)
            && (Held(r.keys, "Space") <==> Held(g.keys, "Space"))
  {
  }

  /** The camera sits at player + (5 sin, 2, 5 cos) of the heading and looks
      at the player. */
  function UpdateCamera(g: GameState): (r: GameState)
    requires Camera.Quarter(g.cameraAngle)
    ensures r.lookAt == Some(g.body.pos)
    ensures r.camera.y == g.body.pos.y + Camera.Lift
    ensures var dx, dz := r.camera.x - g.body.pos.x, r.camera.z - g.body.pos.z;
            dx * dx + dz * dz == Camera.Radius * Camera.Radius
    ensures g.cameraAngle == 0 ==> r.camera == Vec3(g.body.pos.x, g.body.pos.y + 2.0, g.body.pos.z + 5.0)
    ensures r.camera == Add(g.body.pos, Camera.Offset(g.cameraAngle))
    ensures r.(camera := g.camera, lookAt := g.lookAt) == g
  {
    var off := Camera.Offset(g.cameraAngle);
    g.(camera := Add(g.body.pos, off), lookAt := Some(g.body.pos))
  }

  /** The player's update for one frame, reading the arrow keys from the table. */
  function PlayerFrame(g: GameState, cast: Caster): (r: GameState)
    ensures Inv(g) ==> Inv(r)
    ensures r == g.(body := r.body)
    ensures r.body.pos.y >= FallThreshold
  {
    g.(body := UpdatePlayer(g.body, g.gameStarted, Held(g.keys, ArrowLeft), Held(g.keys, ArrowRight), cast))
  }

  /** One animation frame: the player update, then the camera update; the
      render that follows reads the state and changes nothing. */
  function Animate(g: GameState, cast: Caster): (r: GameState)
    requires Inv(g)
    ensures Inv(r)
    ensures r.gameStarted == g.gameStarted && r.keys == g.keys && r.cameraAngle == g.cameraAngle
    ensures r.lookAt == Some(r.body.pos)
    ensures r.camera == Add(r.body.pos, Camera.Offset(r.cameraAngle))
    ensures r.body == UpdatePlayer(g.body, g.gameStarted, Held(g.keys, ArrowLeft), Held(g.keys, ArrowRight), cast)
  {
    UpdateCamera(PlayerFrame(g, cast))
  }
}
