/**
 * The first-person controls as one object: the movement-flag refs, the speed,
 * crouch and jump state, the velocity ref and the camera position, with the key
 * handlers and the per-frame update as methods. The frame's camera-relative
 * movement vector (normalised, scaled and rotated by the camera orientation) is
 * supplied by the caller as `rotate`; calls to `onTeleport` are recorded.
 */
module PlayerRig {
  import opened FirstPerson

  /**
   * The teleport check of one frame (`teleportZones.forEach`): the urls of the
   * zones that contain `p`, in declaration order.
   */
  method FireZones(zones: seq<Zone>, p: Vec3) returns (fired: seq<string>)
    ensures fired == ZoneHits(zones, p)
  {
    fired := [];
    var i := 0;
    while i < |zones|
      invariant 0 <= i <= |zones|
      invariant fired == ZoneHits(zones[..i], p)
    {
      if InZone(zones[i], p) {
        fired := fired + [zones[i].url];
      }
      assert zones[..i + 1][..i] == zones[..i];
      i := i + 1;
    }
    assert zones[..i] == zones;
  }

  class PlayerControls {
    const initialSpeed: real
    const zones: seq<Zone>
    /** The launch speed of a jump, the value of `Math.sqrt(2 * jumpHeight * gravity)`. */
    const jumpLaunch: real
    /** The camera height when the controls mounted: the standing resting height. */
    ghost const standingY: real

    var moveForward: bool
    var moveBackward: bool
    var moveLeft: bool
    var moveRight: bool
    var speed: real
    var originalY: real
    var isCrouching: bool
    var isJumping: bool
    var velocity: Vec3
    var camera: Vec3
    /** The urls passed to `onTeleport`, in order. */
    var teleports: seq<string>

    function State(): Controls
      reads this`moveForward, this`moveBackward, this`moveLeft, this`moveRight
      reads this`speed, this`originalY, this`isCrouching, this`isJumping
    {
      Controls(moveForward, moveBackward, moveLeft, moveRight, speed, originalY, isCrouching, isJumping)
    }

    /** The resting height is the standing height, lowered by 0.5 exactly while crouching. */
    ghost predicate Valid()
      reads this`originalY, this`isCrouching
    {
      originalY == if isCrouching then standingY - CrouchHeight else standingY
    }

    constructor (initialSpeed: real, zones: seq<Zone>, camera: Vec3, jumpLaunch: real)
      ensures Valid()
      ensures State() == Initial(initialSpeed, camera.y) && standingY == camera.y
      ensures this.initialSpeed == initialSpeed && this.zones == zones && this.jumpLaunch == jumpLaunch
      ensures this.camera == camera && velocity == Vec3(0.0, 0.0, 0.0) && teleports == []
    {
      this.initialSpeed := initialSpeed;
      this.zones := zones;
      this.jumpLaunch := jumpLaunch;
      standingY := camera.y;
      moveForward, moveBackward, moveLeft, moveRight := false, false, false, false;
      speed := initialSpeed;
      originalY := camera.y;
      isCrouching, isJumping := false, false;
      velocity := Vec3(0.0, 0.0, 0.0);
      this.camera := camera;
      teleports := [];
    }

    /** The keydown handler; a jump that starts also sets the vertical velocity to the launch speed. */
    method KeyDown(code: string)
      requires Valid()
      modifies this
      ensures Valid()
      ensures State() == FirstPerson.KeyDown(old(State()), code)
      ensures velocity == if code == "Space" && CanJump(old(State())) then old(velocity).(y := jumpLaunch)
                          else old(velocity)
      ensures camera == old(camera) && teleports == old(teleports)
    {
      if code == "KeyW" {
        moveForward := true;
      } else if code == "KeyS" {
        moveBackward := true;
      } else if code == "KeyA" {
        moveLeft := true;
      } else if code == "KeyD" {
        moveRight := true;
      } else if code == "ShiftLeft" {
        speed := SprintSpeed;
      } else if code == "KeyC" {
        if !isCrouching {
          isCrouching := true;
          originalY := originalY - CrouchHeight;
        }
      } else if code == "Space" {
        if !isJumping && !isCrouching {
          isJumping := true;
          velocity := velocity.(y := jumpLaunch);
        }
      }
    }

    /** The keyup handler. */
    method KeyUp(code: string)
      requires Valid()
      modifies this
      ensures Valid()
      ensures State() == FirstPerson.KeyUp(old(State()), code, initialSpeed)
      ensures velocity == old(velocity) && camera == old(camera) && teleports == old(teleports)
    {
      if code == "KeyW" {
        moveForward := false;
      } else if code == "KeyS" {
        moveBackward := false;
      } else if code == "KeyA" {
        moveLeft := false;
      } else if code == "KeyD" {
        moveRight := false;
      } else if code == "ShiftLeft" {
        speed := initialSpeed;
      } else if code == "KeyC" {
        if isCrouching {
          isCrouching := false;
          originalY := originalY + CrouchHeight;
        }
      }
    }

    /**
     * The velocity of a frame: zeroed, then the camera-relative movement added
     * (the direction from the flags, scaled to `moveSpeed * delta` and rotated
     * by `rotate`), then the vertical rule applied in place.
     */
    method ComposeVelocity(delta: real, rotate: (Vec3, real) -> Vec3)
      modifies this`velocity
      ensures velocity == FrameVelocity(State(), rotate(Direction(State()), Stride(State(), delta)), delta)
    {
      velocity := Vec3(0.0, 0.0, 0.0);
      var moveSpeed := if isCrouching then speed / 2.0 else speed;
      var movement := Vec3(0.0, 0.0, 0.0);
      if moveForward { movement := movement.(z := -1.0); }
      if moveBackward { movement := movement.(z := 1.0); }
      if moveLeft { movement := movement.(x := -1.0); }
      if moveRight { movement := movement.(x := 1.0); }
      assert movement == Direction(State());
      var step := moveSpeed * delta;
      assert step == Stride(State(), delta);
      var horizontal := rotate(movement, step);
      velocity := Add(velocity, horizontal);
      if isJumping {
        velocity := velocity.(y := velocity.y + JumpHeight * Gravity * delta);
        velocity := velocity.(y := velocity.y - Gravity * delta);
        velocity := velocity.(y := if velocity.y > TerminalVelocity then velocity.y else TerminalVelocity);
      } else {
        velocity := velocity.(y := velocity.y - Gravity * delta);
      }
    }

    /** The camera height eased toward its target and clamped; a clamp from above ends the jump. */
    method SettleCamera(delta: real)
      modifies this`camera, this`isJumping
      ensures var s := SettledHeight(old(State()), old(camera).y, delta);
              camera == old(camera).(y := s.y) && isJumping == (old(isJumping) && !s.landed)
    {
      var targetY := if isCrouching then originalY - CrouchHeight else originalY;
      camera := camera.(y := EasedY(camera.y, targetY, delta));
      if camera.y < originalY - CrouchHeight {
        camera := camera.(y := originalY - CrouchHeight);
      } else if camera.y > originalY {
        camera := camera.(y := originalY);
        isJumping := false;
      }
    }

    /** The zone check at the end of a frame: `onTeleport` for each zone holding the camera. */
    method Teleport()
      modifies this`teleports
      ensures teleports == old(teleports) + ZoneHits(zones, camera)
    {
      var fired := FireZones(zones, camera);
      teleports := teleports + fired;
    }

    /**
     * One frame of `delta` seconds: the velocity composed; the height eased and
     * clamped (a clamp from above ends the jump); the velocity added to the
     * camera; then every zone holding the camera fires `onTeleport`.
     */
    method Frame(delta: real, rotate: (Vec3, real) -> Vec3)
      requires Valid()
      modifies this
      ensures Valid()
      ensures velocity == FrameVelocity(old(State()), rotate(Direction(old(State())), Stride(old(State()), delta)), delta)
      ensures var s := SettledHeight(old(State()), old(camera).y, delta);
              camera == Add(old(camera).(y := s.y), velocity)
              && State() == old(State()).(jumping := old(isJumping) && !s.landed)
      ensures teleports == old(teleports) + ZoneHits(zones, camera)
    {
      ComposeVelocity(delta, rotate);
      SettleCamera(delta);
      camera := Add(camera, velocity);
      Teleport();
    }
  }
}
