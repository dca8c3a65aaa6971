/**
 * The 2D dwell-navigation page as one object: the block position, the hover and
 * countdown state, the key tracker and the recorded redirects. Its methods are
 * the page's callbacks made explicit: `KeyDown`/`KeyUp` (the key listeners),
 * `Step` (one animation-frame callback of the `move` loop) and `Tick` (one
 * firing of the one-second interval). A change of the block position is followed
 * at once by the page's effects: the hovered circle is looked up again and the
 * countdown effect runs.
 */
module HomePage {
  import opened Wrappers
  import opened CircleZones
  import opened PlanarMovement
  import opened DwellTimer
  import opened KeyTracker

  /** The four circles of the page, in declaration order. */
  function PageCircles(): (cs: seq<Circle>)
    ensures |cs| == 4
  {
    [ Circle("topLeft", 25.0, 25.0, "https://www.example1.com"),
      Circle("topRight", 25.0, 75.0, "https://www.example2.com"),
      Circle("bottomLeft", 75.0, 25.0, "https://www.example3.com"),
      Circle("bottomRight", 75.0, 75.0, "https://www.example4.com") ]
  }

  /** The initial speed of the block. */
  const InitialSpeed: real := 0.35

  class Home {
    const circles: seq<Circle>
    /** `window.innerWidth` and `window.innerHeight`, in pixels. */
    const width: real
    const height: real
    const speed: real
    /** The value `Math.sqrt(2)` returns. */
    const root2: real

    var pos: Position
    var hovered: Option<Circle>
    var timer: int
    var interval: Option<Circle>
    var pressed: map<string, bool>
    var running: bool
    var pendingFrames: nat
    /** The urls redirected to, in order. */
    var navigations: seq<string>

    function DwellState(): Dwell
      reads this
    {
      Dwell(hovered, timer, interval)
    }

    function KeyState(): Keys
      reads this
    {
      Keys(pressed, running, pendingFrames)
    }

    /** The viewport is non-empty and the hover and countdown state match the position. */
    ghost predicate Placed()
      reads this
    {
      width > 0.0 && height > 0.0 && root2 > 0.0
      && hovered == FindHovered(circles, pos, width, height)
      && Consistent(DwellState())
    }

    ghost predicate Valid()
      reads this
    {
      Placed() && Tracking(KeyState())
    }

    /** Mounting the page: block at the centre, no key held, the effects run once. */
    constructor (width: real, height: real, root2: real)
      requires width > 0.0 && height > 0.0 && root2 > 0.0
      ensures Valid()
      ensures circles == PageCircles() && speed == InitialSpeed
      ensures this.width == width && this.height == height && this.root2 == root2
      ensures pos == Position(50.0, 50.0)
      ensures DwellState() == OnHover(Idle, FindHovered(circles, pos, width, height))
      ensures KeyState() == NoKeys && navigations == []
    {
      this.circles := PageCircles();
      this.width := width;
      this.height := height;
      this.speed := InitialSpeed;
      this.root2 := root2;
      pos := Position(50.0, 50.0);
      pressed := map[];
      running := false;
      pendingFrames := 0;
      navigations := [];
      new;
      hovered := FindHovered(circles, pos, width, height);
      if hovered.Some? {
        timer, interval := DwellSeconds, hovered;
      } else {
        timer, interval := DwellSeconds, None;
      }
    }

    /**
     * The part of `move` that changes the page: one clamped step with the held
     * keys, then the hover lookup and countdown effect for the new position.
     */
    method Advance()
      requires Placed()
      modifies this`pos, this`hovered, this`timer, this`interval
      ensures Placed()
      ensures pos == StepPosition(old(pos), pressed, speed, width, height, root2)
      ensures DwellState() == OnHover(old(DwellState()), FindHovered(circles, pos, width, height))
    {
      pos := StepPosition(pos, pressed, speed, width, height, root2);
      hovered := FindHovered(circles, pos, width, height);
      if hovered.Some? {
        interval := hovered;
      } else {
        timer, interval := DwellSeconds, None;
      }
    }

    /** The keydown listener. */
    method KeyDown(key: string)
      requires Valid()
      modifies this
      ensures Valid()
      ensures KeyState() == KeyTracker.KeyDown(old(KeyState()), key).next
      ensures pos == if old(running) then old(pos)
                     else StepPosition(old(pos), pressed, speed, width, height, root2)
      ensures DwellState() == if old(running) then old(DwellState())
                              else OnHover(old(DwellState()), FindHovered(circles, pos, width, height))
      ensures navigations == old(navigations)
    {
      pressed := pressed[key := true];
      assert key in pressed && pressed[key];
      if !running {
        running := true;
        pendingFrames := pendingFrames + 1;
        Advance();
      }
    }

    /** The keyup listener. */
    method KeyUp(key: string)
      requires Valid()
      modifies this
      ensures Valid()
      ensures KeyState() == KeyTracker.KeyUp(old(KeyState()), key)
      ensures pos == old(pos) && DwellState() == old(DwellState()) && navigations == old(navigations)
    {
      KeyUpKeepsTracking(KeyState(), key);
      pressed := pressed[key := false];
      if !AnyDown(pressed) {
        running := false;
      }
    }

    /** One pending animation-frame callback of the `move` loop runs. */
    method Step()
      requires Valid() && pendingFrames > 0
      modifies this
      ensures Valid()
      ensures KeyState() == KeyTracker.Frame(old(KeyState()))
      ensures pos == StepPosition(old(pos), pressed, speed, width, height, root2)
      ensures DwellState() == OnHover(old(DwellState()), FindHovered(circles, pos, width, height))
      ensures navigations == old(navigations)
    {
      pendingFrames := pendingFrames - 1;
      Advance();
      if running {
        pendingFrames := pendingFrames + 1;
      }
    }

    /** One firing of the one-second interval; a redirect is recorded, not performed. */
    method Tick()
      requires Valid()
      modifies this
      ensures Valid()
      ensures DwellState() == DwellTimer.Tick(old(DwellState())).next
      ensures navigations == old(navigations) + match DwellTimer.Tick(old(DwellState())).navigate
                                                case Some(url) => [url]
                                                case None => []
      ensures pos == old(pos) && KeyState() == old(KeyState())
    {
      if interval.Some? {
        if timer == 1 {
          navigations := navigations + [interval.value.url];
          interval := None;
        }
        timer := timer - 1;
      }
    }
  }
}
