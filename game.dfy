/** The game's mutable state and the code that updates it in place: the
    player's position, vertical velocity and jump flag, the started flag, the
    key table, the camera heading and the camera's position and target. Each
    method is proved to leave exactly the state the rules in Physics
    prescribe. The constructor, UpdatePlayer, KeyDown, KeyUp, UpdateCamera
    and Animate also keep the invariant Physics.Inv; the single stages of the
    player update and ResetPlayer do not claim to (Fall alone can leave the
    player below the fatal height, which the fall check then repairs). */
module Game {
  import opened Geometry
  import opened Probe
  import Physics
  import Camera

  class Game {
    var x: real
    var y: real
    var z: real
    var velocityY: real
    var isJumping: bool
    var gameStarted: bool
    var keys: map<string, bool>
    var cameraAngle: int
    var cameraX: real
    var cameraY: real
    var cameraZ: real
    var lookAt: Option<Vec3>

    /** The state as a value. */
    function State(): Physics.GameState
      reads this
    {
      Physics.GameState(Physics.Body(Vec3(x, y, z), velocityY, isJumping), gameStarted, keys,
                        cameraAngle, Vec3(cameraX, cameraY, cameraZ), lookAt)
    }

    ghost predicate Valid()
      reads this
    {
      Physics.Inv(State())
    }

    constructor ()
      ensures State() == Physics.Initial()
      ensures Valid()
    {
      x, y, z := 0.0, 1.0, 0.0;
      velocityY := Physics.InitialVelocityY;
      isJumping := false;
      gameStarted := false;
      keys := Physics.InitialKeys();
      cameraAngle := 0;
      cameraX, cameraY, cameraZ := 0.0, 0.0, 5.0;
      lookAt := None;
    }

    /** Back to the spawn point, at rest and not jumping; the started flag,
        keys and camera are kept. */
    method ResetPlayer()
      modifies this
      ensures State() == old(State()).(body := Physics.Respawned)
    {
      x, y, z := Physics.Spawn.x, Physics.Spawn.y, Physics.Spawn.z;
      velocityY := 0.0;
      isJumping := false;
    }

    /** One frame of player physics, in source order. */
    method UpdatePlayer(cast: Caster)
      requires Valid()
      modifies this
      ensures State() == Physics.PlayerFrame(old(State()), cast)
      ensures Valid()
    {
      Move();
      Fall(cast);
      Land(cast);
      ClampToWalls(cast);
      if y < Physics.FallThreshold {
        ResetPlayer();
      }
    }

    /** Forward motion once started, then left-first lateral input. */
    method Move()
      modifies this
      ensures State() == old(State()).(body := Physics.MoveStep(old(State()).body, old(gameStarted),
                Physics.Held(old(keys), Physics.ArrowLeft), Physics.Held(old(keys), Physics.ArrowRight)))
    {
      if gameStarted {
        z := z - Physics.ForwardSpeed;
      }
      if Physics.Held(keys, Physics.ArrowLeft) {
        x := x - Physics.LateralStep;
      } else if Physics.Held(keys, Physics.ArrowRight) {
        x := x + Physics.LateralStep;
      }
    }

    /** Gravity or velocity zeroing, by the probe below, then integration. */
    method Fall(cast: Caster)
      modifies this
      ensures State() == old(State()).(body := Physics.GravityStep(old(State()).body, cast))
    {
      if !CheckPlatform(cast, Vec3(x, y, z), Down) {
        velocityY := velocityY + Physics.Gravity;
      } else if !isJumping {
        velocityY := 0.0;
      }
      y := y + velocityY;
    }

    /** Landing clamp, probing below again at the new height. */
    method Land(cast: Caster)
      modifies this
      ensures State() == old(State()).(body := Physics.LandingStep(old(State()).body, cast))
    {
      if y <= Physics.FloorY && CheckPlatform(cast, Vec3(x, y, z), Down) {
        y := Physics.FloorY;
        velocityY := 0.0;
        isJumping := false;
      }
    }

    /** The single-sided wall clamp. */
    method ClampToWalls(cast: Caster)
      modifies this
      ensures State() == old(State()).(body := Physics.WallStep(old(State()).body, cast))
    {
      if x >= Physics.WallX && !CheckPlatform(cast, Vec3(x, y, z), Right) {
        x := Physics.WallX;
      } else if x <= -Physics.WallX && !CheckPlatform(cast, Vec3(x, y, z), Left) {
        x := -Physics.WallX;
      }
    }

    /** The keydown handler. */
    method KeyDown(key: string)
      requires Valid()
      modifies this
      ensures State() == Physics.KeyDown(old(State()), key)
      ensures Valid()
    {
      if key == Physics.ArrowLeft || key == Physics.ArrowRight || key == Physics.SpaceBar {
        keys := keys[key := true];
      }
      if key == Physics.SpaceBar && !isJumping {
        velocityY := Physics.JumpStrength;
        isJumping := true;
        if !gameStarted {
          gameStarted := true;
        }
      }
      if key == "c" {
        cameraAngle := cameraAngle - Camera.QuarterTurn;
      } else if key == "v" {
        cameraAngle := cameraAngle + Camera.QuarterTurn;
      }
    }

    /** The keyup handler. */
    method KeyUp(key: string)
      requires Valid()
      modifies this
      ensures State() == Physics.KeyUp(old(State()), key)
      ensures Valid()
    {
      if key == Physics.ArrowLeft || key == Physics.ArrowRight || key == Physics.SpaceBar {
        keys := keys[key := false];
      }
    }

    /** Places the camera on its circle around the player and aims it at the player. */
    method UpdateCamera()
      requires Valid()
      modifies this
      ensures State() == Physics.UpdateCamera(old(State()))
      ensures Valid()
    {
      var sc := Camera.SinCos(cameraAngle);
      cameraX := x + Camera.Radius * sc.0;
      cameraZ := z + Camera.Radius * sc.1;
      cameraY := y + Camera.Lift;
      lookAt := Some(Vec3(x, y, z));
    }

    /** One animation frame: player update, then camera update. */
    method Animate(cast: Caster)
      requires Valid()
      modifies this
      ensures State() == Physics.Animate(old(State()), cast)
      ensures Valid()
    {
      UpdatePlayer(cast);
      UpdateCamera();
    }
  }
}
