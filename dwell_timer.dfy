/**
 * The dwell countdown of the 2D page: a counter that starts at 3, loses 1 on
 * every firing of a one-second interval while a circle is hovered, redirects to
 * the hovered circle's url on the firing that takes it from 1 to 0, and is reset
 * to 3 (with the interval cleared) whenever no circle is hovered.
 *
 * The interval is part of the state: `interval` holds the circle whose url the
 * live interval's callback will redirect to, or `None` when no interval is live.
 */
module DwellTimer {
  import opened Wrappers
  import opened CircleZones

  /** The value the countdown starts from and is reset to. */
  const DwellSeconds: int := 3

  datatype Dwell = Dwell(hovered: Option<Circle>, timer: int, interval: Option<Circle>)

  /** Nothing hovered, no interval, the countdown at its full value. */
  const Idle: Dwell := Dwell(None, DwellSeconds, None)

  /**
   * The states the page can reach: with nothing hovered the countdown is full and
   * no interval is live; a live interval always redirects to the hovered circle.
   */
  predicate Consistent(d: Dwell) {
    (d.hovered.None? ==> d.timer == DwellSeconds && d.interval.None?)
    && (d.interval.Some? ==> d.interval == d.hovered)
  }

  /**
   * The effect that follows a change of the hovered circle: a hovered circle gets
   * a fresh interval (any previous one is cleared) and the count is kept; no
   * hovered circle clears the interval and resets the count to 3.
   */
  function OnHover(d: Dwell, h: Option<Circle>): (r: Dwell)
    ensures r.hovered == h && Consistent(r)
    ensures h.None? ==> r == Idle
    ensures h.Some? ==> r.interval == h && r.timer == d.timer
  {
    if h.Some? then Dwell(h, d.timer, h) else Idle
  }

  /** What one firing of the interval does: the new state and the url redirected to, if any. */
  datatype TickResult = TickResult(next: Dwell, navigate: Option<string>)

  /**
   * One firing of the one-second interval. Without a live interval nothing
   * happens. Otherwise the count drops by exactly 1; the firing that finds the
   * count at 1 also clears the interval and redirects to that circle's url.
   */
  function Tick(d: Dwell): (r: TickResult)
    ensures d.interval.None? ==> r == TickResult(d, None)
    ensures d.interval.Some? ==> r.next.timer == d.timer - 1 && r.next.hovered == d.hovered
    ensures r.navigate.Some? <==> d.interval.Some? && d.timer == 1
    ensures r.navigate.Some? ==> r.navigate.value == d.interval.value.url && r.next.interval.None?
    ensures r.navigate.None? ==> r.next.interval == d.interval
  {
    match d.interval
    case None => TickResult(d, None)
    case Some(c) =>
      if d.timer == 1 then TickResult(Dwell(d.hovered, 0, None), Some(c.url))
      else TickResult(Dwell(d.hovered, d.timer - 1, d.interval), None)
  }

  /** Hover changes and ticks keep the page in a consistent state. */
  lemma TickKeepsConsistent(d: Dwell)
    requires Consistent(d)
    ensures Consistent(Tick(d).next)
  {
  }

  /** The state after `n` consecutive firings with no hover change, and the urls redirected to. */
  function Run(d: Dwell, n: nat): (r: (Dwell, seq<string>))
    ensures |r.1| <= n
    decreases n
  {
    if n == 0 then (d, [])
    else
      var t := Tick(d);
      var rest := Run(t.next, n - 1);
      (rest.0, (if t.navigate.Some? then [t.navigate.value] else []) + rest.1)
  }

  /** Without a live interval, time passes without effect. */
  lemma {:induction false} RunWithoutInterval(d: Dwell, n: nat)
    requires d.interval.None?
    ensures Run(d, n) == (d, [])
  {
    if n > 0 {
      RunWithoutInterval(d, n - 1);
    }
  }

  /**
   * Whatever the state, consecutive firings redirect at most once: the firing
   * that redirects also clears the interval, after which nothing fires.
   */
  lemma {:induction false} RunRedirectsAtMostOnce(d: Dwell, n: nat)
    ensures |Run(d, n).1| <= 1
    decreases n
  {
    if n > 0 {
      var t := Tick(d);
      if t.navigate.Some? {
        RunWithoutInterval(t.next, n - 1);
      } else {
        RunRedirectsAtMostOnce(t.next, n - 1);
      }
    }
  }

  /**
   * With a count of `t >= 1` and continuous hover, the redirect happens on the
   * `t`-th firing and never again; the count stops at 0 and the interval is gone.
   */
  lemma {:induction false} RunFiresOnce(c: Circle, t: nat, n: nat)
    requires t >= 1
    ensures Run(Dwell(Some(c), t, Some(c)), n).1 == if n >= t then [c.url] else []
    ensures Run(Dwell(Some(c), t, Some(c)), n).0
            == if n >= t then Dwell(Some(c), 0, None) else Dwell(Some(c), t - n, Some(c))
  {
    if n > 0 {
      if t == 1 {
        RunWithoutInterval(Dwell(Some(c), 0, None), n - 1);
      } else {
        RunFiresOnce(c, t - 1, n - 1);
      }
    }
  }

  /** Entering a circle from rest redirects on the third firing, exactly once. */
  lemma EnterFiresOnThirdTick(c: Circle, n: nat)
    ensures Run(OnHover(Idle, Some(c)), n).1 == if n >= 3 then [c.url] else []
  {
    RunFiresOnce(c, 3, n);
  }

  /**
   * A count at or below 0 never reaches 1 again: once a redirect has fired, a
   * restarted interval only counts further down and never redirects.
   */
  lemma {:induction false} RunBelowOneNeverFires(d: Dwell, n: nat)
    requires d.timer < 1
    ensures Run(d, n).1 == []
    ensures Run(d, n).0.timer <= d.timer
    decreases n
  {
    if n > 0 {
      RunBelowOneNeverFires(Tick(d).next, n - 1);
    }
  }

  /**
   * Leaving before the count completes cancels it: enter, one firing (count 2),
   * leave (count back to 3, no interval), re-enter (counting again from 3).
   */
  lemma LeaveResetsCount(a: Circle)
    ensures Tick(OnHover(Idle, Some(a))).next.timer == 2
    ensures OnHover(Tick(OnHover(Idle, Some(a))).next, None) == Idle
    ensures OnHover(OnHover(Tick(OnHover(Idle, Some(a))).next, None), Some(a)) == Dwell(Some(a), 3, Some(a))
  {
  }

  /**
   * Moving straight from one circle to another restarts the interval for the new
   * circle but keeps the count: only the no-circle branch resets it.
   */
  lemma SwitchKeepsCount(a: Circle, b: Circle)
    ensures OnHover(Tick(OnHover(Idle, Some(a))).next, Some(b)) == Dwell(Some(b), 2, Some(b))
  {
  }
}
