/**
 * The first-person controls of the 3D scene, as values: the key flags and the
 * speed, crouch and jump state changed by the key handlers, and the pieces of
 * one frame (movement direction and speed, vertical velocity, height easing and
 * clamp, and the teleport-zone test).
 */
module FirstPerson {

  /** Amount the resting height drops when crouching. */
  const CrouchHeight: real := 0.5
  const JumpHeight: real := 30.0
  const Gravity: real := 1.0
  /** The floor of the vertical velocity while jumping. */
  const TerminalVelocity: real := -2.0
  /** Rate at which the camera height eases toward its target, per second. */
  const EaseRate: real := 5.0
  /** The speed while ShiftLeft is held. */
  const SprintSpeed: real := 10.0

  datatype Vec3 = Vec3(x: real, y: real, z: real)

  function Add(a: Vec3, b: Vec3): Vec3 {
    Vec3(a.x + b.x, a.y + b.y, a.z + b.z)
  }

  /** A teleport zone: a box centred at `position` with full extents `size`. */
  datatype Zone = Zone(position: Vec3, size: Vec3, url: string, title: string)

  /** The state the key handlers change. */
  datatype Controls = Controls(
    forward: bool, backward: bool, left: bool, right: bool,
    speed: real, originalY: real, crouching: bool, jumping: bool)

  /** The state when the controls mount with the camera at height `y`. */
  function Initial(initialSpeed: real, y: real): Controls {
    Controls(false, false, false, false, initialSpeed, y, false, false)
  }

  /** The four movement flags, in the order W, S, A, D. */
  function Flags(c: Controls): (bool, bool, bool, bool) {
    (c.forward, c.backward, c.left, c.right)
  }

  /** A jump starts only when neither jumping nor crouching. */
  predicate CanJump(c: Controls) {
    !c.jumping && !c.crouching
  }

  /** The keydown handler, by `KeyboardEvent.code`; unknown codes change nothing. */
  function KeyDown(c: Controls, code: string): (r: Controls)
    ensures r.forward == (c.forward || code == "KeyW") && r.backward == (c.backward || code == "KeyS")
    ensures r.left == (c.left || code == "KeyA") && r.right == (c.right || code == "KeyD")
    ensures r.speed == if code == "ShiftLeft" then SprintSpeed else c.speed
    ensures r.crouching == (c.crouching || code == "KeyC")
    ensures r.originalY == if code == "KeyC" && !c.crouching then c.originalY - CrouchHeight else c.originalY
    ensures r.jumping == (c.jumping || (code == "Space" && !c.crouching))
  {
    if code == "KeyW" then c.(forward := true)
    else if code == "KeyS" then c.(backward := true)
    else if code == "KeyA" then c.(left := true)
    else if code == "KeyD" then c.(right := true)
    else if code == "ShiftLeft" then c.(speed := SprintSpeed)
    else if code == "KeyC" then
      (if !c.crouching then c.(crouching := true, originalY := c.originalY - CrouchHeight) else c)
    else if code == "Space" then
      (if CanJump(c) then c.(jumping := true) else c)
    else c
  }

  /** The keyup handler; unknown codes (and Space) change nothing. */
  function KeyUp(c: Controls, code: string, initialSpeed: real): (r: Controls)
    ensures r.forward == (c.forward && code != "KeyW") && r.backward == (c.backward && code != "KeyS")
    ensures r.left == (c.left && code != "KeyA") && r.right == (c.right && code != "KeyD")
    ensures r.speed == if code == "ShiftLeft" then initialSpeed else c.speed
    ensures r.crouching == (c.crouching && code != "KeyC")
    ensures r.originalY == if code == "KeyC" && c.crouching then c.originalY + CrouchHeight else c.originalY
    ensures r.jumping == c.jumping
  {
    if code == "KeyW" then c.(forward := false)
    else if code == "KeyS" then c.(backward := false)
    else if code == "KeyA" then c.(left := false)
    else if code == "KeyD" then c.(right := false)
    else if code == "ShiftLeft" then c.(speed := initialSpeed)
    else if code == "KeyC" then
      (if c.crouching then c.(crouching := false, originalY := c.originalY + CrouchHeight) else c)
    else c
  }

  /** Each of W/S/A/D sets exactly its own flag on keydown and clears it on keyup. */
  lemma MovementKeyFlags(c: Controls, initialSpeed: real)
    ensures Flags(KeyDown(c, "KeyW")) == (true, c.backward, c.left, c.right)
    ensures Flags(KeyDown(c, "KeyS")) == (c.forward, true, c.left, c.right)
    ensures Flags(KeyDown(c, "KeyA")) == (c.forward, c.backward, true, c.right)
    ensures Flags(KeyDown(c, "KeyD")) == (c.forward, c.backward, c.left, true)
    ensures Flags(KeyUp(c, "KeyW", initialSpeed)) == (false, c.backward, c.left, c.right)
    ensures Flags(KeyUp(c, "KeyS", initialSpeed)) == (c.forward, false, c.left, c.right)
    ensures Flags(KeyUp(c, "KeyA", initialSpeed)) == (c.forward, c.backward, false, c.right)
    ensures Flags(KeyUp(c, "KeyD", initialSpeed)) == (c.forward, c.backward, c.left, false)
  {
  }

  /** Any code other than W/S/A/D leaves all four movement flags as they were. */
  lemma OtherKeysKeepFlags(c: Controls, code: string, initialSpeed: real)
    requires code != "KeyW" && code != "KeyS" && code != "KeyA" && code != "KeyD"
    ensures Flags(KeyDown(c, code)) == Flags(c)
    ensures Flags(KeyUp(c, code, initialSpeed)) == Flags(c)
  {
  }

  /** Codes the handlers do not know change nothing at all. */
  lemma UnknownKeysIgnored(c: Controls, code: string, initialSpeed: real)
    requires code !in {"KeyW", "KeyS", "KeyA", "KeyD", "ShiftLeft", "KeyC", "Space"}
    ensures KeyDown(c, code) == c && KeyUp(c, code, initialSpeed) == c
  {
  }

  /**
   * Crouching: C down when standing sets the flag and lowers the resting height
   * by 0.5; a repeated C down changes nothing; C up restores the height.
   */
  lemma CrouchRoundTrip(c: Controls, initialSpeed: real)
    requires !c.crouching
    ensures KeyDown(c, "KeyC").crouching
    ensures KeyDown(c, "KeyC").originalY == c.originalY - CrouchHeight
    ensures KeyDown(KeyDown(c, "KeyC"), "KeyC") == KeyDown(c, "KeyC")
    ensures KeyUp(KeyDown(c, "KeyC"), "KeyC", initialSpeed) == c
    ensures KeyUp(c, "KeyC", initialSpeed) == c
  {
  }

  /** Space starts a jump exactly when neither jumping nor crouching, and otherwise changes nothing. */
  lemma JumpGuard(c: Controls)
    ensures KeyDown(c, "Space").jumping
            == (c.jumping || CanJump(c))
    ensures !CanJump(c) ==> KeyDown(c, "Space") == c
    ensures CanJump(c) ==> KeyDown(c, "Space") == c.(jumping := true)
  {
  }

  /** ShiftLeft down sets the speed to 10 and ShiftLeft up restores the initial speed. */
  lemma SprintKeys(c: Controls, initialSpeed: real)
    ensures KeyDown(c, "ShiftLeft") == c.(speed := SprintSpeed)
    ensures KeyUp(c, "ShiftLeft", initialSpeed) == c.(speed := initialSpeed)
    ensures KeyUp(KeyDown(c, "ShiftLeft"), "ShiftLeft", initialSpeed).speed == initialSpeed
  {
  }

  /** The horizontal speed of a frame: halved while crouching. */
  function MoveSpeed(c: Controls): (s: real)
    ensures c.crouching ==> s * 2.0 == c.speed
    ensures !c.crouching ==> s == c.speed
  {
    if c.crouching then c.speed / 2.0 else c.speed
  }

  /** The length the movement vector is scaled to in a frame of `delta` seconds. */
  function Stride(c: Controls, delta: real): real {
    MoveSpeed(c) * delta
  }

  /**
   * The frame's movement direction before normalisation. The assignments run
   * forward, backward, left, right, so a later one wins: backward over forward
   * on z, right over left on x.
   */
  function Direction(c: Controls): (d: Vec3)
    ensures d.y == 0.0
    ensures d.z == -1.0 <==> c.forward && !c.backward
    ensures d.z == 1.0 <==> c.backward
    ensures d.z == 0.0 <==> !c.forward && !c.backward
    ensures d.x == -1.0 <==> c.left && !c.right
    ensures d.x == 1.0 <==> c.right
    ensures d.x == 0.0 <==> !c.left && !c.right
  {
    var z := if c.backward then 1.0 else if c.forward then -1.0 else 0.0;
    var x := if c.right then 1.0 else if c.left then -1.0 else 0.0;
    Vec3(x, 0.0, z)
  }

  lemma DirectionComposition(c: Controls)
    ensures Direction(c).y == 0.0
    ensures Direction(c).z == (if c.backward then 1.0 else if c.forward then -1.0 else 0.0)
    ensures Direction(c).x == (if c.right then 1.0 else if c.left then -1.0 else 0.0)
    ensures !c.forward && !c.backward && !c.left && !c.right ==> Direction(c) == Vec3(0.0, 0.0, 0.0)
    ensures Direction(c) == Vec3(0.0, 0.0, 0.0) ==> !c.forward && !c.backward && !c.left && !c.right
  {
  }

  /**
   * The vertical velocity of a frame, starting from `vy` (the y component of the
   * camera-rotated horizontal movement). While jumping: plus the jump term,
   * minus gravity, floored at the terminal velocity; otherwise minus gravity.
   */
  function VerticalVelocity(vy: real, jumping: bool, delta: real): (r: real)
    ensures jumping ==> r >= TerminalVelocity
    ensures jumping ==> r == (if vy + (JumpHeight - 1.0) * Gravity * delta >= TerminalVelocity
                              then vy + (JumpHeight - 1.0) * Gravity * delta else TerminalVelocity)
    ensures !jumping ==> r == vy - Gravity * delta
  {
    if jumping then
      var up := vy + JumpHeight * Gravity * delta;
      var down := up - Gravity * delta;
      if down > TerminalVelocity then down else TerminalVelocity
    else vy - Gravity * delta
  }

  /** The velocity of a frame: zeroed, plus the horizontal movement, then the vertical rule. */
  function FrameVelocity(c: Controls, horizontal: Vec3, delta: real): (v: Vec3)
    ensures v.x == horizontal.x && v.z == horizontal.z
    ensures v.y == VerticalVelocity(horizontal.y, c.jumping, delta)
  {
    var v := Add(Vec3(0.0, 0.0, 0.0), horizontal);
    v.(y := VerticalVelocity(v.y, c.jumping, delta))
  }

  /** The height the camera eases toward. */
  function TargetY(c: Controls): real {
    if c.crouching then c.originalY - CrouchHeight else c.originalY
  }

  /** The camera height eased toward `target`. */
  function EasedY(y: real, target: real, delta: real): real {
    y + (target - y) * EaseRate * delta
  }

  /** The outcome of the height clamp: the new height and whether it counted as landing. */
  datatype Settled = Settled(y: real, landed: bool)

  /**
   * The height clamp: below `originalY - 0.5` it is raised to that; above
   * `originalY` it is lowered to `originalY`, which is a landing.
   */
  function Settle(y: real, originalY: real): (s: Settled)
    ensures originalY - CrouchHeight <= s.y <= originalY
    ensures s.landed <==> y > originalY
    ensures originalY - CrouchHeight <= y <= originalY ==> s.y == y
    ensures y < originalY - CrouchHeight ==> s.y == originalY - CrouchHeight
    ensures y > originalY ==> s.y == originalY
  {
    if y < originalY - CrouchHeight then Settled(originalY - CrouchHeight, false)
    else if y > originalY then Settled(originalY, true)
    else Settled(y, false)
  }

  /**
   * The camera height after the easing and the clamp of a frame that starts at
   * height `y`: always within `[originalY - 0.5, originalY]`, and a landing
   * exactly when the eased height overshoots `originalY`.
   */
  function SettledHeight(c: Controls, y: real, delta: real): (s: Settled)
    ensures c.originalY - CrouchHeight <= s.y <= c.originalY
    ensures s.landed <==> EasedY(y, TargetY(c), delta) > c.originalY
    ensures var e := EasedY(y, TargetY(c), delta);
      (c.originalY - CrouchHeight <= e <= c.originalY ==> s.y == e)
      && (e < c.originalY - CrouchHeight ==> s.y == c.originalY - CrouchHeight)
      && (e > c.originalY ==> s.y == c.originalY)
  {
    Settle(EasedY(y, TargetY(c), delta), c.originalY)
  }

  /**
   * Crouching lowers the resting height by 0.5 and the easing target by a
   * further 0.5, so a crouched camera settles a full 1.0 below the standing
   * height, which is also the floor of the clamp.
   */
  lemma CrouchDepth(initialSpeed: real, y: real, camera: real, delta: real)
    ensures var c := KeyDown(Initial(initialSpeed, y), "KeyC");
      TargetY(c) == y - 1.0 && c.originalY - CrouchHeight == y - 1.0
      && SettledHeight(c, camera, delta).y >= y - 1.0
  {
  }

  /** The camera is strictly inside the zone's box on x and z; y is not tested. */
  predicate InZone(z: Zone, p: Vec3)
    ensures InZone(z, p) ==> z.size.x > 0.0 && z.size.z > 0.0
    ensures z.size.x > 0.0 && z.size.z > 0.0 && p.x == z.position.x && p.z == z.position.z ==> InZone(z, p)
  {
    p.x > z.position.x - z.size.x / 2.0 && p.x < z.position.x + z.size.x / 2.0
    && p.z > z.position.z - z.size.z / 2.0 && p.z < z.position.z + z.size.z / 2.0
  }

  function Abs(r: real): real {
    if r < 0.0 then -r else r
  }

  /** The zone test as distances: strictly less than half the extent on x and on z. */
  lemma InZoneIff(z: Zone, p: Vec3, y: real)
    ensures InZone(z, p) <==> Abs(p.x - z.position.x) < z.size.x / 2.0 && Abs(p.z - z.position.z) < z.size.z / 2.0
    ensures InZone(z, p) <==> InZone(z, p.(y := y))
  {
  }

  /** Points on a face of the box are outside. */
  lemma BoundaryOutside(z: Zone, p: Vec3)
    requires p.x == z.position.x + z.size.x / 2.0 || p.x == z.position.x - z.size.x / 2.0
             || p.z == z.position.z + z.size.z / 2.0 || p.z == z.position.z - z.size.z / 2.0
    ensures !InZone(z, p)
  {
  }

  /** A zone of size (2, 4, 4) at the origin holds (0.9, 0, 0) and not (1.1, 0, 0). */
  lemma ZoneExamples()
    ensures InZone(Zone(Vec3(0.0, 0.0, 0.0), Vec3(2.0, 4.0, 4.0), "#", "t"), Vec3(0.9, 0.0, 0.0))
    ensures !InZone(Zone(Vec3(0.0, 0.0, 0.0), Vec3(2.0, 4.0, 4.0), "#", "t"), Vec3(1.1, 0.0, 0.0))
  {
  }

  /** The urls `onTeleport` receives in one frame: one per zone containing `p`, in declaration order. */
  function ZoneHits(zones: seq<Zone>, p: Vec3): (urls: seq<string>)
    ensures |urls| <= |zones|
  {
    if zones == [] then []
    else
      var last := zones[|zones| - 1];
      ZoneHits(zones[..|zones| - 1], p) + if InZone(last, p) then [last.url] else []
  }

  /** No zone contains the point exactly when `onTeleport` is not called. */
  lemma {:induction false} ZoneHitsEmpty(zones: seq<Zone>, p: Vec3)
    ensures ZoneHits(zones, p) == [] <==> forall i :: 0 <= i < |zones| ==> !InZone(zones[i], p)
  {
    if zones != [] {
      var front := zones[..|zones| - 1];
      ZoneHitsEmpty(front, p);
      assert forall i :: 0 <= i < |front| ==> front[i] == zones[i];
    }
  }

  /** Hits over a concatenation of zone lists are the hits of each, in order. */
  lemma {:induction false} ZoneHitsAppend(a: seq<Zone>, b: seq<Zone>, p: Vec3)
    ensures ZoneHits(a + b, p) == ZoneHits(a, p) + ZoneHits(b, p)
    decreases |b|
  {
    if b != [] {
      var b' := b[..|b| - 1];
      assert (a + b)[..|a + b| - 1] == a + b';
      ZoneHitsAppend(a, b', p);
    } else {
      assert a + b == a;
    }
  }

  /** Every zone that contains the point fires, and only such zones fire. */
  lemma {:induction false} ZoneHitsMembers(zones: seq<Zone>, p: Vec3)
    ensures forall i :: 0 <= i < |zones| && InZone(zones[i], p) ==> zones[i].url in ZoneHits(zones, p)
    ensures forall u :: u in ZoneHits(zones, p) ==> exists i :: 0 <= i < |zones| && InZone(zones[i], p) && zones[i].url == u
  {
    if zones != [] {
      var front := zones[..|zones| - 1];
      ZoneHitsMembers(front, p);
      assert forall i :: 0 <= i < |front| ==> front[i] == zones[i];
    }
  }

  /** When every zone contains the point, each zone's url fires once, in declaration order. */
  lemma {:induction false} ZoneHitsAll(zones: seq<Zone>, p: Vec3)
    requires forall i :: 0 <= i < |zones| ==> InZone(zones[i], p)
    ensures |ZoneHits(zones, p)| == |zones|
    ensures forall i :: 0 <= i < |zones| ==> ZoneHits(zones, p)[i] == zones[i].url
  {
    if zones != [] {
      var front := zones[..|zones| - 1];
      assert forall i :: 0 <= i < |front| ==> front[i] == zones[i];
      ZoneHitsAll(front, p);
    }
  }
}
