/**
 * One step of the keyboard-driven block on the 2D page: the heading built from
 * the W/A/S/D keys, the diagonal normalisation and the clamped pixel update.
 *
 * `Math.sqrt(2)` is a library call; it enters as the parameter `root2`, and the
 * properties that depend on its value assume `root2 * root2 == 2`.
 */
module PlanarMovement {
  import opened CircleZones

  /** Pixels moved per unit of heading and unit of speed in one step. */
  const StepScale: real := 10.0

  /** True when `key` was recorded as pressed (an absent key reads as not pressed). */
  predicate IsDown(pressed: map<string, bool>, key: string) {
    key in pressed && pressed[key]
  }

  /** A heading before normalisation; each component is -1, 0 or 1. */
  datatype RawHeading = RawHeading(x: int, y: int)

  /** A heading after normalisation, in pixels per unit of speed and scale. */
  datatype Heading = Heading(x: real, y: real)

  /** One axis: the negative key subtracts 1, the positive key adds 1. */
  function Axis(negative: bool, positive: bool): (v: int)
    ensures -1 <= v <= 1
    ensures v == 0 <==> negative == positive
    ensures v == 1 <==> !negative && positive
  {
    (if negative then -1 else 0) + (if positive then 1 else 0)
  }

  /** The heading of `move`: "w" up (y -1), "a" left (x -1), "s" down (y +1), "d" right (x +1). */
  function RawHeadingOf(pressed: map<string, bool>): (h: RawHeading)
    ensures -1 <= h.x <= 1 && -1 <= h.y <= 1
    ensures h.x == 0 <==> IsDown(pressed, "a") == IsDown(pressed, "d")
    ensures h.y == 0 <==> IsDown(pressed, "w") == IsDown(pressed, "s")
    ensures h.x == -1 <==> IsDown(pressed, "a") && !IsDown(pressed, "d")
    ensures h.y == -1 <==> IsDown(pressed, "w") && !IsDown(pressed, "s")
  {
    RawHeading(Axis(IsDown(pressed, "a"), IsDown(pressed, "d")),
               Axis(IsDown(pressed, "w"), IsDown(pressed, "s")))
  }

  /** Both components are divided by `root2` only when the heading is diagonal. */
  function Normalize(h: RawHeading, root2: real): (n: Heading)
    requires root2 > 0.0
    ensures (n.x > 0.0 <==> h.x > 0) && (n.x < 0.0 <==> h.x < 0)
    ensures (n.y > 0.0 <==> h.y > 0) && (n.y < 0.0 <==> h.y < 0)
  {
    if h.x != 0 && h.y != 0 then Heading(h.x as real / root2, h.y as real / root2)
    else Heading(h.x as real, h.y as real)
  }

  /**
   * Normalisation divides exactly on diagonals, leaves axial and zero headings
   * alone, and (for the true square root of 2) yields a unit or zero vector.
   */
  lemma NormalizeSpec(h: RawHeading, root2: real)
    requires root2 > 0.0
    requires -1 <= h.x <= 1 && -1 <= h.y <= 1
    ensures var n := Normalize(h, root2);
      (h.x != 0 && h.y != 0 ==> n.x * root2 == h.x as real && n.y * root2 == h.y as real)
      && (h.x == 0 || h.y == 0 ==> n == Heading(h.x as real, h.y as real))
    ensures root2 * root2 == 2.0 ==>
      var n := Normalize(h, root2);
      n.x * n.x + n.y * n.y == (if h == RawHeading(0, 0) then 0.0 else 1.0)
  {
    var n := Normalize(h, root2);
    if h.x != 0 && h.y != 0 {
      assert n.x * root2 == h.x as real;
      assert n.y * root2 == h.y as real;
      if root2 * root2 == 2.0 {
        assert h.x as real * h.x as real == 1.0 && h.y as real * h.y as real == 1.0;
        calc {
          (n.x * n.x + n.y * n.y) * (root2 * root2);
          (n.x * root2) * (n.x * root2) + (n.y * root2) * (n.y * root2);
          2.0;
        }
      }
    }
  }

  /** `Math.max(0, Math.min(hi, v))`. */
  function Clamp(v: real, hi: real): (r: real)
    ensures r >= 0.0
    ensures hi >= 0.0 ==> r <= hi
    ensures hi < 0.0 ==> r == 0.0
    ensures 0.0 <= v <= hi ==> r == v
    ensures 0.0 <= hi <= v ==> r == hi
    ensures v <= 0.0 ==> r == 0.0
  {
    var m := if hi < v then hi else v;
    if m < 0.0 then 0.0 else m
  }

  /** A pixel coordinate as a percentage of the viewport extent. */
  function PxToPct(px: real, extent: real): real
    requires extent > 0.0
  {
    px / extent * 100.0
  }

  lemma PxPctRoundTrip(px: real, extent: real)
    requires extent > 0.0
    ensures PctToPx(PxToPct(px, extent), extent) == px
  {
  }

  lemma PctPxRoundTrip(pct: real, extent: real)
    requires extent > 0.0
    ensures PxToPct(PctToPx(pct, extent), extent) == pct
  {
  }

  /** The upper pixel bound of the block's centre on an axis of the given extent. */
  function MaxPx(extent: real): real {
    extent - BlockDiameter
  }

  /** Pixels moved along one axis by heading component `d` at the given speed. */
  function Displacement(d: real, speed: real): real {
    d * speed * StepScale
  }

  /** One axis of a step: move by `d * speed * 10` pixels, clamp, convert back. */
  function StepAxis(pct: real, d: real, speed: real, extent: real): real
    requires extent > 0.0
  {
    PxToPct(Clamp(PctToPx(pct, extent) + Displacement(d, speed), MaxPx(extent)), extent)
  }

  /** The position after one call of `move` with the given keys held. */
  function StepPosition(pos: Position, pressed: map<string, bool>, speed: real,
                        width: real, height: real, root2: real): (r: Position)
    requires width > 0.0 && height > 0.0 && root2 > 0.0
    ensures InBounds(r, width, height)
  {
    var n := Normalize(RawHeadingOf(pressed), root2);
    StepAxisPixels(pos.top, n.y, speed, height);
    StepAxisPixels(pos.left, n.x, speed, width);
    Position(StepAxis(pos.top, n.y, speed, height), StepAxis(pos.left, n.x, speed, width))
  }

  /** One axis of a step, in pixels: the clamped sum, within `[0, max(0, extent - 40)]`. */
  lemma StepAxisPixels(pct: real, d: real, speed: real, extent: real)
    requires extent > 0.0
    ensures PctToPx(StepAxis(pct, d, speed, extent), extent)
            == Clamp(PctToPx(pct, extent) + Displacement(d, speed), MaxPx(extent))
  {
    PxPctRoundTrip(Clamp(PctToPx(pct, extent) + Displacement(d, speed), MaxPx(extent)), extent);
  }

  /**
   * After a step each pixel coordinate is `max(0, min(extent - 40, old + d * speed * 10))`,
   * so it lies in `[0, max(0, extent - 40)]`.
   */
  lemma StepPixels(pos: Position, pressed: map<string, bool>, speed: real,
                   width: real, height: real, root2: real)
    requires width > 0.0 && height > 0.0 && root2 > 0.0
    ensures PctToPx(StepPosition(pos, pressed, speed, width, height, root2).left, width)
      == Clamp(PctToPx(pos.left, width) + Displacement(Normalize(RawHeadingOf(pressed), root2).x, speed), MaxPx(width))
    ensures PctToPx(StepPosition(pos, pressed, speed, width, height, root2).top, height)
      == Clamp(PctToPx(pos.top, height) + Displacement(Normalize(RawHeadingOf(pressed), root2).y, speed), MaxPx(height))
    ensures InBounds(StepPosition(pos, pressed, speed, width, height, root2), width, height)
  {
    var n := Normalize(RawHeadingOf(pressed), root2);
    var r := StepPosition(pos, pressed, speed, width, height, root2);
    var left := PctToPx(pos.left, width) + Displacement(n.x, speed);
    var top := PctToPx(pos.top, height) + Displacement(n.y, speed);
    assert r.left == StepAxis(pos.left, n.x, speed, width);
    assert r.top == StepAxis(pos.top, n.y, speed, height);
    StepAxisPixels(pos.left, n.x, speed, width);
    StepAxisPixels(pos.top, n.y, speed, height);
    assert PctToPx(r.left, width) == Clamp(left, MaxPx(width));
    assert PctToPx(r.top, height) == Clamp(top, MaxPx(height));
  }

  /** The block's centre is in `[0, max(0, extent - 40)]` pixels on both axes. */
  predicate InBounds(pos: Position, width: real, height: real) {
    0.0 <= PctToPx(pos.left, width) && (MaxPx(width) >= 0.0 ==> PctToPx(pos.left, width) <= MaxPx(width))
    && (MaxPx(width) < 0.0 ==> PctToPx(pos.left, width) == 0.0)
    && 0.0 <= PctToPx(pos.top, height) && (MaxPx(height) >= 0.0 ==> PctToPx(pos.top, height) <= MaxPx(height))
    && (MaxPx(height) < 0.0 ==> PctToPx(pos.top, height) == 0.0)
  }

  /** With none of W/A/S/D held, a position already within bounds does not move. */
  lemma StepAtRest(pos: Position, pressed: map<string, bool>, speed: real,
                   width: real, height: real, root2: real)
    requires width > 0.0 && height > 0.0 && root2 > 0.0
    requires !IsDown(pressed, "w") && !IsDown(pressed, "a") && !IsDown(pressed, "s") && !IsDown(pressed, "d")
    requires InBounds(pos, width, height)
    ensures StepPosition(pos, pressed, speed, width, height, root2) == pos
  {
    assert Normalize(RawHeadingOf(pressed), root2) == Heading(0.0, 0.0);
    PctPxRoundTrip(pos.left, width);
    PctPxRoundTrip(pos.top, height);
  }

  /** Opposite keys cancel: holding "a" and "d" together moves like holding neither. */
  lemma OppositeKeysCancel(pressed: map<string, bool>, root2: real)
    requires root2 > 0.0
    ensures Normalize(RawHeadingOf(pressed[ "a" := true][ "d" := true]), root2).x == 0.0
    ensures Normalize(RawHeadingOf(pressed[ "w" := true][ "s" := true]), root2).y == 0.0
  {
  }

  /**
   * Axial and diagonal steps cover the same distance: for any held keys that do
   * not cancel out, the squared displacement is `(speed * 10)^2`.
   */
  lemma StepLength(pressed: map<string, bool>, speed: real, root2: real)
    requires root2 > 0.0 && root2 * root2 == 2.0
    requires RawHeadingOf(pressed) != RawHeading(0, 0)
    ensures var n := Normalize(RawHeadingOf(pressed), root2);
      Displacement(n.x, speed) * Displacement(n.x, speed) + Displacement(n.y, speed) * Displacement(n.y, speed)
      == (speed * StepScale) * (speed * StepScale)
  {
    var n := Normalize(RawHeadingOf(pressed), root2);
    NormalizeSpec(RawHeadingOf(pressed), root2);
    var k := speed * StepScale;
    assert Displacement(n.x, speed) == n.x * k && Displacement(n.y, speed) == n.y * k;
    calc {
      (n.x * k) * (n.x * k) + (n.y * k) * (n.y * k);
      (n.x * n.x + n.y * n.y) * (k * k);
      k * k;
    }
  }
}
