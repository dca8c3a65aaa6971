/**
 * The key tracker of the 2D page: a map from key name to "pressed", the flag
 * that says the movement loop is running, and the number of pending
 * animation-frame callbacks of that loop.
 *
 * Key down records `true`; when the loop is not running it sets the flag and
 * calls `move` at once, which schedules the next frame while the flag stays
 * set. Key up records `false` and clears the flag once no recorded key is
 * pressed. A pending frame callback still runs after the flag is cleared; it
 * moves once more and does not reschedule.
 */
module KeyTracker {

  datatype Keys = Keys(pressed: map<string, bool>, running: bool, pendingFrames: nat)

  const NoKeys: Keys := Keys(map[], false, 0)

  /** Some recorded key is pressed (`Object.values(pressed).some(v => v)`). */
  predicate AnyDown(pressed: map<string, bool>) {
    exists k :: k in pressed && pressed[k]
  }

  /**
   * The reachable states: the loop runs exactly while some key is recorded as
   * pressed, and a running loop always has a frame callback pending.
   */
  predicate Tracking(s: Keys) {
    (s.running <==> AnyDown(s.pressed)) && (s.running ==> s.pendingFrames >= 1)
  }

  /** The outcome of a key event: the new tracker state and whether `move` runs now. */
  datatype KeyResult = KeyResult(next: Keys, movesNow: bool)

  /**
   * Key down: the key is recorded as pressed; a loop is started (one immediate
   * move plus one scheduled frame) only when none is running.
   */
  function KeyDown(s: Keys, key: string): (r: KeyResult)
    ensures key in r.next.pressed && r.next.pressed[key]
    ensures forall k :: k != key ==> (k in r.next.pressed <==> k in s.pressed)
    ensures forall k :: k != key && k in s.pressed ==> r.next.pressed[k] == s.pressed[k]
    ensures r.next.running
    ensures r.movesNow <==> !s.running
    ensures r.next.pendingFrames == if s.running then s.pendingFrames else s.pendingFrames + 1
  {
    var pressed := s.pressed[key := true];
    if s.running then KeyResult(Keys(pressed, true, s.pendingFrames), false)
    else KeyResult(Keys(pressed, true, s.pendingFrames + 1), true)
  }

  /** Key up: the key is recorded as released; the loop flag is cleared iff no key remains pressed. */
  function KeyUp(s: Keys, key: string): (r: Keys)
    ensures key in r.pressed && !r.pressed[key]
    ensures forall k :: k != key ==> (k in r.pressed <==> k in s.pressed)
    ensures forall k :: k != key && k in s.pressed ==> r.pressed[k] == s.pressed[k]
    ensures r.running <==> s.running && AnyDown(r.pressed)
    ensures r.pendingFrames == s.pendingFrames
  {
    var pressed := s.pressed[key := false];
    Keys(pressed, if !AnyDown(pressed) then false else s.running, s.pendingFrames)
  }

  /** A pending frame callback runs: it moves once and reschedules only while the loop flag is set. */
  function Frame(s: Keys): (r: Keys)
    requires s.pendingFrames > 0
    ensures r.pressed == s.pressed && r.running == s.running
    ensures r.pendingFrames == if s.running then s.pendingFrames else s.pendingFrames - 1
  {
    Keys(s.pressed, s.running, if s.running then s.pendingFrames else s.pendingFrames - 1)
  }

  lemma KeyDownKeepsTracking(s: Keys, key: string)
    requires Tracking(s)
    ensures Tracking(KeyDown(s, key).next)
  {
    var r := KeyDown(s, key).next;
    assert key in r.pressed && r.pressed[key];
  }

  lemma KeyUpKeepsTracking(s: Keys, key: string)
    requires Tracking(s)
    ensures Tracking(KeyUp(s, key))
  {
    var r := KeyUp(s, key);
    if AnyDown(r.pressed) {
      var k :| k in r.pressed && r.pressed[k];
      assert k != key && k in s.pressed && s.pressed[k];
    }
  }

  lemma FrameKeepsTracking(s: Keys)
    requires Tracking(s) && s.pendingFrames > 0
    ensures Tracking(Frame(s))
  {
  }

  /** A key down while the loop runs starts no second loop and moves nothing at once. */
  lemma KeyDownWhileRunning(s: Keys, key: string)
    requires s.running
    ensures !KeyDown(s, key).movesNow
    ensures KeyDown(s, key).next.pendingFrames == s.pendingFrames
  {
  }

  /**
   * Releasing the only held key and pressing it again before the pending frame
   * runs leaves two frame callbacks pending, i.e. two loops that each move the
   * block on every frame from then on.
   */
  lemma QuickRepressStartsSecondLoop(key: string)
    ensures var s := KeyDown(NoKeys, key).next;
      var t := KeyDown(KeyUp(s, key), key);
      s.pendingFrames == 1 && t.movesNow && t.next.pendingFrames == 2 && Frame(t.next).pendingFrames == 2
  {
    var s := KeyDown(NoKeys, key).next;
    assert s.pressed == map[key := true];
    var u := KeyUp(s, key);
    assert u.pressed == map[key := false];
    assert !AnyDown(u.pressed);
  }
}
