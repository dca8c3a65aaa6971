/**
 * The circular hover zones of the 2D dwell-navigation page: the circle record,
 * the containment test and the first-match selection of the hovered circle.
 *
 * Positions are percentages of the viewport (`top` of its height, `left` of its
 * width); the containment test converts both centres to pixels. The distance
 * test of the page is stated on squared distances, so no square root appears;
 * `InsideIffDistance` ties the two formulations together.
 */
module CircleZones {
  import opened Wrappers

  /** Diameter of a circle zone, in pixels. */
  const CircleDiameter: real := 80.0
  /** Diameter of the moving block, in pixels. */
  const BlockDiameter: real := 40.0
  const CircleRadius: real := CircleDiameter / 2.0
  const BlockRadius: real := BlockDiameter / 2.0
  /** The block is inside once its centre is at most this far from the circle's centre. */
  const Reach: real := CircleRadius - BlockRadius

  /** A navigation target on the page; `top` and `left` are percentages of the viewport. */
  datatype Circle = Circle(id: string, top: real, left: real, url: string)

  /** The block's centre, as percentages of the viewport height (`top`) and width (`left`). */
  datatype Position = Position(top: real, left: real)

  /** A percentage of a viewport extent, in pixels. */
  function PctToPx(pct: real, extent: real): real {
    pct / 100.0 * extent
  }

  /** Squared pixel distance between the centre of `c` and the block's centre. */
  function SquaredPixelDistance(c: Circle, pos: Position, width: real, height: real): (d: real)
    ensures d >= 0.0
  {
    var dTop := PctToPx(c.top, height) - PctToPx(pos.top, height);
    var dLeft := PctToPx(c.left, width) - PctToPx(pos.left, width);
    dTop * dTop + dLeft * dLeft
  }

  /** The block lies inside `c`: its centre is within `Reach` pixels of the circle's centre. */
  predicate InsideCircle(c: Circle, pos: Position, width: real, height: real)
    ensures InsideCircle(c, pos, width, height) ==>
      -Reach <= PctToPx(c.top, height) - PctToPx(pos.top, height) <= Reach
      && -Reach <= PctToPx(c.left, width) - PctToPx(pos.left, width) <= Reach
    ensures c.top == pos.top && c.left == pos.left ==> InsideCircle(c, pos, width, height)
  {
    var dTop := PctToPx(c.top, height) - PctToPx(pos.top, height);
    var dLeft := PctToPx(c.left, width) - PctToPx(pos.left, width);
    assert SquaredPixelDistance(c, pos, width, height) == dTop * dTop + dLeft * dLeft;
    AxisWithinReach(dTop, dLeft);
    AxisWithinReach(dLeft, dTop);
    SquaredPixelDistance(c, pos, width, height) <= Reach * Reach
  }

  /** A squared distance within `Reach * Reach` bounds each axis offset by `Reach`. */
  lemma AxisWithinReach(a: real, b: real)
    ensures a * a + b * b <= Reach * Reach ==> -Reach <= a <= Reach
  {
    assert Reach == 20.0;
    if a > Reach {
      assert a * a > Reach * a > Reach * Reach;
      assert b * b >= 0.0;
    } else if a < -Reach {
      assert (-a) * (-a) > Reach * (-a) > Reach * Reach;
      assert a * a == (-a) * (-a);
      assert b * b >= 0.0;
    }
  }

  /**
   * The squared test agrees with the page's `distance <= circleRadius - blockRadius`
   * for the true (non-negative) distance; the boundary counts as inside.
   */
  lemma InsideIffDistance(c: Circle, pos: Position, width: real, height: real, distance: real)
    requires distance >= 0.0
    requires distance * distance == SquaredPixelDistance(c, pos, width, height)
    ensures InsideCircle(c, pos, width, height) <==> distance <= Reach
  {
    assert Reach == 20.0;
    if distance > Reach {
      assert distance * distance > Reach * distance >= Reach * Reach;
    } else {
      assert distance * distance <= Reach * distance <= Reach * Reach;
    }
  }

  /** Two worked cases: centres 15 pixels apart are inside, 25 pixels apart are outside. */
  lemma InsideExamples()
    ensures InsideCircle(Circle("c", 50.0, 50.0, "u"), Position(50.0, 65.0), 100.0, 100.0)
    ensures !InsideCircle(Circle("c", 50.0, 50.0, "u"), Position(50.0, 75.0), 100.0, 100.0)
  {
  }

  /** Index of the first circle of `circles[from..]` that contains the block, if any. */
  function FirstInsideFrom(circles: seq<Circle>, from: nat, pos: Position, width: real, height: real): (r: Option<nat>)
    requires from <= |circles|
    ensures r.Some? ==> from <= r.value < |circles| && InsideCircle(circles[r.value], pos, width, height)
    ensures r.Some? ==> forall j :: from <= j < r.value ==> !InsideCircle(circles[j], pos, width, height)
    ensures r.None? ==> forall j :: from <= j < |circles| ==> !InsideCircle(circles[j], pos, width, height)
    decreases |circles| - from
  {
    if from == |circles| then None
    else if InsideCircle(circles[from], pos, width, height) then Some(from)
    else FirstInsideFrom(circles, from + 1, pos, width, height)
  }

  /**
   * The hovered circle (`circles.find(checkIfInsideCircle)`): the first circle in
   * declaration order that contains the block, or none when no circle does.
   */
  function FindHovered(circles: seq<Circle>, pos: Position, width: real, height: real): (r: Option<Circle>)
    ensures r.None? <==> forall j :: 0 <= j < |circles| ==> !InsideCircle(circles[j], pos, width, height)
    ensures r.Some? ==> exists i :: 0 <= i < |circles| && circles[i] == r.value
                          && InsideCircle(circles[i], pos, width, height)
                          && forall j :: 0 <= j < i ==> !InsideCircle(circles[j], pos, width, height)
  {
    match FirstInsideFrom(circles, 0, pos, width, height)
    case None => None
    case Some(i) => Some(circles[i])
  }

  /** No zones: the block never hovers anything. */
  lemma NoCirclesNoHover(pos: Position, width: real, height: real)
    ensures FindHovered([], pos, width, height) == None
  {
  }
}
