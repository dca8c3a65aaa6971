# Dwell navigation and first-person controls, modelled in Dafny

This project models the movement-and-zone logic of two React components.

- **The 2D dwell-navigation page** (`app/page.tsx`). A block moves over the viewport under the W/A/S/D keys. Its step is clamped to the viewport. There are four circular zones. When the block sits inside one, a countdown runs from 3, one per second. When the countdown passes 1 the page redirects to that circle's url. Leaving all circles resets the countdown to 3.
- **The first-person controls** (`components/test/PlayerControls.tsx`). W/A/S/D movement flags, ShiftLeft sprint, C crouch and Space jump. Each frame composes a velocity, applies a simplified vertical rule, eases and clamps the camera height, and calls `onTeleport` for every box zone that holds the camera.

Modules:

- `Wrappers` holds `Option`.
- `CircleZones` holds the circle record, the containment test and the first-match selection.
- `PlanarMovement` holds the W/A/S/D heading, the diagonal normalisation and the clamped step.
- `DwellTimer` holds the countdown as a state machine with explicit ticks.
- `KeyTracker` holds the pressed-key map, the loop flag and the pending frame callbacks.
- `HomePage` holds the page as a class `Home`. Its methods are the callbacks: `KeyDown`, `KeyUp`, `Step` (one animation frame) and `Tick` (one firing of the one-second interval).
- `FirstPerson` holds the controls as values: the key handlers and the pieces of a frame.
- `PlayerRig` holds the controls as a class `PlayerControls`, whose fields are the refs and the state. It also holds the zone loop `FireZones`.

Each class method is proved against the pure functions. The properties are lemmas about those functions.

Inputs that are not computed here become parameters:

- the viewport size;
- the value of `Math.sqrt(2)` (`root2`);
- the launch speed `Math.sqrt(2 * jumpHeight * gravity)` (`jumpLaunch`);
- the camera-relative movement vector. This is the normalised, scaled and quaternion-rotated direction, and it is passed in as the function `rotate`.

Redirects and `onTeleport` calls are recorded in a sequence rather than performed.

The model follows the code, including these behaviours:

- Moving straight from one circle into another keeps the current count. The interval restarts for the new circle, but only the no-circle branch resets the count to 3 (`DwellTimer.SwitchKeepsCount`).
- Each frame adds the velocity to the camera after the height clamp. So `[originalY - 0.5, originalY]` bounds the height right after the clamp block, not at the end of the frame.
- Crouching lowers `originalY` by 0.5, and the easing target is `originalY - 0.5`. A crouched camera therefore settles 1.0 below the standing height (`FirstPerson.CrouchDepth`).
- Box zones fire on every frame while the camera is inside. There is no dwell and no single-firing guarantee in 3D.
- The velocity set by Space never reaches the camera. The next frame starts by zeroing the velocity.

## Model

| member | source | states |
|---|---|---|
| `CircleZones.InsideCircle` | app/page.tsx:32-42 | A block inside a circle is within 20 px of its centre on each axis. A block whose centre coincides with the circle's is inside. |
| `CircleZones.InsideIffDistance` | app/page.tsx:23-42 | The squared-distance test holds iff the true pixel distance between the centres is at most 40 − 20 = 20. The boundary counts as inside. |
| `CircleZones.InsideExamples` | app/page.tsx:32-42 | Centres 15 px apart are inside and centres 25 px apart are outside. |
| `CircleZones.FirstInsideFrom` | app/page.tsx:45 | The index of the first circle from `from` on that contains the block. No earlier one contains it. None is returned iff no circle from `from` on contains it. |
| `CircleZones.FindHovered` | app/page.tsx:44-54 | The hovered circle is the first circle in declaration order that contains the block. It is none iff no circle does. |
| `CircleZones.NoCirclesNoHover` | app/page.tsx:45-53 | With no circles nothing is ever hovered. |
| `PlanarMovement.Axis` | app/page.tsx:89-93 | One axis is −1, 0 or 1. It is 0 iff both or neither key is held, and 1 iff only the positive key is held. |
| `PlanarMovement.RawHeadingOf` | app/page.tsx:89-93 | Each heading component is in {−1, 0, 1}. Opposite keys cancel. "a" alone gives x = −1 and "w" alone gives y = −1. |
| `PlanarMovement.Normalize` | app/page.tsx:95-99 | Normalisation keeps the sign of each heading component: a component is positive, negative or zero after it iff it was before. |
| `PlanarMovement.NormalizeSpec` | app/page.tsx:95-99 | Both components are divided by √2 only when both are nonzero. Axial and zero headings are unchanged. With the true √2 the result has length 1, or 0 for no input. |
| `PlanarMovement.OppositeKeysCancel` | app/page.tsx:89-93 | Holding "a" with "d", or "w" with "s", gives a zero component. |
| `PlanarMovement.Clamp` | app/page.tsx:109-110 | `max(0, min(hi, v))` is never negative and never above a non-negative `hi`. It is the identity inside `[0, hi]` and 0 when `hi` is negative. |
| `PlanarMovement.PxPctRoundTrip` | app/page.tsx:106-110 | Converting pixels to a percentage and back gives the same pixels. |
| `PlanarMovement.PctPxRoundTrip` | app/page.tsx:106-110 | Converting a percentage to pixels and back gives the same percentage. |
| `PlanarMovement.StepPosition` | app/page.tsx:88-116 | After one call of `move`, the block's centre lies within the viewport's clamp range on both axes. |
| `PlanarMovement.StepAxisPixels` | app/page.tsx:101-116 | After a step, one pixel coordinate equals `clamp(old + d·speed·10, extent − 40)`. |
| `PlanarMovement.StepPixels` | app/page.tsx:101-116 | After a step, each pixel coordinate equals `max(0, min(extent − 40, old + d·speed·10))`, so the block is within bounds. |
| `PlanarMovement.StepAtRest` | app/page.tsx:89-116 | With none of W/A/S/D held, a position already within bounds does not move. |
| `PlanarMovement.StepLength` | app/page.tsx:95-107 | A diagonal step covers the same distance as an axial one, `speed·10`. |
| `DwellTimer.OnHover` | app/page.tsx:56-80 | A hovered circle gets a fresh interval and the count is kept. With no circle hovered the interval is cleared and the count is reset to 3. The result is always consistent. |
| `DwellTimer.Tick` | app/page.tsx:58-66 | Without an interval nothing changes. Otherwise the count drops by exactly 1. The redirect happens iff the count was 1, goes to the interval's circle, and clears the interval. |
| `DwellTimer.TickKeepsConsistent` | app/page.tsx:56-73 | A tick keeps this invariant: with nothing hovered, the count is 3 and no interval is live. |
| `DwellTimer.Run` | app/page.tsx:58-66 | `n` ticks redirect at most `n` times. |
| `DwellTimer.RunWithoutInterval` | app/page.tsx:67-72 | Without a live interval, ticks change nothing and redirect nowhere. |
| `DwellTimer.RunRedirectsAtMostOnce` | app/page.tsx:59-64 | From any state, consecutive firings redirect at most once, because the redirecting firing clears the interval. |
| `DwellTimer.RunFiresOnce` | app/page.tsx:59-64 | From count `t ≥ 1` with continuous hover, the redirect happens on tick `t` and never again. The count then stays at 0 with no interval. |
| `DwellTimer.EnterFiresOnThirdTick` | app/page.tsx:56-66 | Entering a circle from rest redirects on the third tick, exactly once. |
| `DwellTimer.RunBelowOneNeverFires` | app/page.tsx:59-64 | A count below 1 never redirects, even after the interval is restarted. |
| `DwellTimer.LeaveResetsCount` | app/page.tsx:56-73 | Enter, tick (count 2), leave: the page is back to rest with count 3. Re-entering restarts from 3. |
| `DwellTimer.SwitchKeepsCount` | app/page.tsx:56-80 | Moving straight from circle a to circle b restarts the interval for b and keeps the count. |
| `KeyTracker.KeyDown` | app/page.tsx:83-124 | Key down records `true` for that key and leaves other keys as they were. It starts a loop (an immediate move plus a scheduled frame) iff none is running. |
| `KeyTracker.KeyUp` | app/page.tsx:127-132 | Key up records `false` for that key and leaves other keys as they were. The loop flag is cleared iff no recorded key stays pressed. |
| `KeyTracker.Frame` | app/page.tsx:118-120 | A pending frame moves once. It reschedules only while the loop flag is set. |
| `KeyTracker.KeyDownKeepsTracking` | app/page.tsx:83-87 | After key down the loop runs iff a key is pressed, and a running loop has a frame pending. |
| `KeyTracker.KeyUpKeepsTracking` | app/page.tsx:127-132 | Key up keeps the same invariant. |
| `KeyTracker.FrameKeepsTracking` | app/page.tsx:118-120 | A frame keeps the same invariant. |
| `KeyTracker.KeyDownWhileRunning` | app/page.tsx:85 | A key down while the loop runs starts no second loop. |
| `KeyTracker.QuickRepressStartsSecondLoop` | app/page.tsx:84-131 | Releasing the only key and pressing it again before the pending frame runs leaves two loops running. |
| `HomePage.PageCircles` | app/page.tsx:25-30 | The page has four circles. |
| `HomePage.Home.constructor` | app/page.tsx:12-30 | The block starts at (50 %, 50 %) with no keys and no redirects. The mount effects have run. |
| `HomePage.Home.Advance` | app/page.tsx:101-116 | The position becomes the clamped step. Then the hover lookup and the countdown effect run for the new position. |
| `HomePage.Home.KeyDown` | app/page.tsx:83-124 | The keydown listener, as `KeyTracker.KeyDown`. It moves once iff the loop was not running. |
| `HomePage.Home.KeyUp` | app/page.tsx:127-132 | The keyup listener, as `KeyTracker.KeyUp`. The position and the countdown are unchanged. |
| `HomePage.Home.Step` | app/page.tsx:88-121 | One pending frame of `move`: a clamped step, the hover effects, and a reschedule while the loop flag is set. |
| `HomePage.Home.Tick` | app/page.tsx:58-66 | One interval firing, as `DwellTimer.Tick`. A redirect is appended to `navigations`. |
| `FirstPerson.KeyDown` | components/test/PlayerControls.tsx:33-64 | A movement flag is set iff it was set or its key went down. ShiftLeft sets speed 10. KeyC crouches and lowers `originalY` by 0.5 only when not already crouching. Jumping starts on Space only when not crouching. Nothing else changes. |
| `FirstPerson.KeyUp` | components/test/PlayerControls.tsx:66-90 | A movement flag stays set iff its key was not the one released. ShiftLeft restores the initial speed. KeyC stands up and raises `originalY` by 0.5 only when crouching. A key release never changes the jump flag. |
| `FirstPerson.MovementKeyFlags` | components/test/PlayerControls.tsx:33-79 | KeyW/S/A/D set exactly their own flag on keydown and clear it on keyup. |
| `FirstPerson.OtherKeysKeepFlags` | components/test/PlayerControls.tsx:33-89 | Any other code leaves all four flags unchanged. |
| `FirstPerson.UnknownKeysIgnored` | components/test/PlayerControls.tsx:33-89 | Codes the handlers do not handle change nothing. |
| `FirstPerson.CrouchRoundTrip` | components/test/PlayerControls.tsx:50-54 | C down when standing crouches and lowers `originalY` by 0.5. A repeated C down is a no-op. C up restores the prior state. |
| `FirstPerson.JumpGuard` | components/test/PlayerControls.tsx:56-62 | Space starts a jump iff neither jumping nor crouching. Otherwise nothing changes. |
| `FirstPerson.SprintKeys` | components/test/PlayerControls.tsx:47-49 | ShiftLeft down sets speed 10 and ShiftLeft up restores the initial speed. |
| `FirstPerson.MoveSpeed` | components/test/PlayerControls.tsx:105 | The move speed is half the speed while crouching and the full speed otherwise. |
| `FirstPerson.Direction` | components/test/PlayerControls.tsx:108-112 | The direction is flat. z is −1 iff forward alone is held, 1 iff backward is held, and 0 iff neither is. x is −1 iff left alone is held, 1 iff right is held, and 0 iff neither is. |
| `FirstPerson.DirectionComposition` | components/test/PlayerControls.tsx:108-112 | Backward overrides forward on z and right overrides left on x. The vector is zero iff no key is held. |
| `FirstPerson.VerticalVelocity` | components/test/PlayerControls.tsx:121-133 | While jumping the result is at least −2 and equals `max(vy + 29·delta, −2)`. Otherwise it is exactly `vy − gravity·delta`. |
| `FirstPerson.FrameVelocity` | components/test/PlayerControls.tsx:102-133 | The velocity is zeroed and the horizontal movement added on x and z. On y the vertical rule is applied to the movement's y. |
| `FirstPerson.Settle` | components/test/PlayerControls.tsx:141-146 | The clamped height lies in `[originalY − 0.5, originalY]`. A height below the band becomes exactly `originalY − 0.5`, and a height above it becomes exactly `originalY`. It counts as a landing iff it was clamped from above. Heights already in the band are unchanged. |
| `FirstPerson.SettledHeight` | components/test/PlayerControls.tsx:136-146 | After easing and clamping, the height is within `[originalY − 0.5, originalY]`. It is the eased height when that is in the band, and otherwise the nearer edge of the band. It lands iff the eased height exceeds `originalY`. |
| `FirstPerson.CrouchDepth` | components/test/PlayerControls.tsx:50-54 | A crouched camera targets 1.0 below the standing height, which is also the clamp floor. |
| `FirstPerson.InZone` | components/test/PlayerControls.tsx:152-158 | Only a zone with positive x and z size can hold the camera. Such a zone holds its own centre. |
| `FirstPerson.InZoneIff` | components/test/PlayerControls.tsx:152-158 | In a zone iff strictly within half the size of the centre on x and on z. The y coordinate is ignored. |
| `FirstPerson.BoundaryOutside` | components/test/PlayerControls.tsx:153-157 | Points on a face of the box are outside. |
| `FirstPerson.ZoneExamples` | components/test/PlayerControls.tsx:153-157 | A zone of size (2, 4, 4) at the origin holds (0.9, 0, 0) and not (1.1, 0, 0). |
| `FirstPerson.ZoneHits` | components/test/PlayerControls.tsx:152-161 | A frame fires at most one teleport per zone. |
| `FirstPerson.ZoneHitsEmpty` | components/test/PlayerControls.tsx:152-161 | No teleport fires iff no zone holds the camera. |
| `FirstPerson.ZoneHitsAppend` | components/test/PlayerControls.tsx:152-161 | Teleports fire in declaration order: the firings for a concatenation of lists are the firings for each list in turn. |
| `FirstPerson.ZoneHitsMembers` | components/test/PlayerControls.tsx:152-161 | Every zone that holds the camera fires, and only such zones fire. |
| `FirstPerson.ZoneHitsAll` | components/test/PlayerControls.tsx:152-161 | When every zone holds the camera, each zone fires once, in order. |
| `PlayerRig.FireZones` | components/test/PlayerControls.tsx:152-161 | The `forEach` loop fires exactly the zone urls given by `ZoneHits`, in order. |
| `PlayerRig.PlayerControls.constructor` | components/test/PlayerControls.tsx:18-26 | Mounting clears every flag and sets the initial speed. `originalY` starts at the camera height. |
| `PlayerRig.PlayerControls.KeyDown` | components/test/PlayerControls.tsx:33-64 | The keydown handler, as `FirstPerson.KeyDown`. A jump that starts sets the vertical velocity to the launch speed. The crouch invariant is kept. |
| `PlayerRig.PlayerControls.KeyUp` | components/test/PlayerControls.tsx:66-90 | The keyup handler, as `FirstPerson.KeyUp`. `originalY` stays the standing height, minus 0.5 exactly while crouching. |
| `PlayerRig.PlayerControls.ComposeVelocity` | components/test/PlayerControls.tsx:102-133 | The velocity ref becomes `FrameVelocity` of the flags, the speed and the rotated movement. |
| `PlayerRig.PlayerControls.SettleCamera` | components/test/PlayerControls.tsx:135-146 | The camera height becomes the eased and clamped height. `isJumping` is cleared iff the height was clamped from above. |
| `PlayerRig.PlayerControls.Teleport` | components/test/PlayerControls.tsx:152-161 | `onTeleport` is called for each zone holding the camera, in order. |
| `PlayerRig.PlayerControls.Frame` | components/test/PlayerControls.tsx:101-162 | One frame: the composed velocity, then the settled height plus the velocity, then the jump flag cleared only on landing, then the teleports. |

## Left out

- The homing loop (app/page.tsx:144-176). `followRef` is never assigned, so the branch never runs, and it relies on floating-point `atan2`/`cos`/`sin`.
- Rendering: the JSX, the controls popup and the countdown display (app/page.tsx:178-222).
- Scheduling by `requestAnimationFrame`, `setInterval` and the listener registration. These become the explicit `Step`, `Tick`, `KeyDown` and `KeyUp` calls.
- The timing of the one-second interval. While the block moves inside a circle, the interval is re-created on every move, which restarts its one-second phase. The model only records that an interval is live.
- React's asynchronous state updates and effect timing. State changes and the effects that follow a move are applied at once and in program order.
- The `isHovering` flag is not a separate field. It is always set together with `hoverCircle`, so the model reads it as `hovered.Some?`.
- Floating point. All arithmetic is exact over `real`, and `Math.sqrt(2)` is an exact square root in the lemmas that need it.
- `window.location.href` redirects and `onTeleport` side effects. They are recorded as sequences of urls.
- THREE's `normalize`, `multiplyScalar` and `applyQuaternion`, and the camera orientation. They are the caller-supplied `rotate`.
- `Math.sqrt(2 * jumpHeight * gravity)`. It is the constant `jumpLaunch`.
- The viewport size. It is fixed for the life of the page. The page reads `window.innerWidth` and `window.innerHeight` afresh on every move and every hover check, so after a resize the clamp bound changes, and the hover state can be stale until the next move. The model does not capture resizing.
- The zone rotation field of the scene configuration. The zone test ignores it.
- The zone configuration page, the physics-engine zone wrapper, the skybox and the floor. These files are not part of this model.
