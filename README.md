# Turn coordinator display: a Dafny model

This project models the turn-coordinator demo for an ST7796 display driven
through the TFT_eSPI sprite library. Two parts of the program are modelled:

- **The frame sweep of `loop()`** (`src/main.cpp`). A counter `i` runs from
  -60 to 60. For each value the loop computes the plane angle
  `abs(i) - 30`, the ball position and the lamp gate `angle < 10`. It then
  redraws the main sprite in a fixed order: background, ball, the nine lamp
  images when gated, the main pivot, the rotated plane, and the transfer to
  the screen. `setup()` creates the three sprites and sets the plane's pivot.
- **The `DisplayLED` class** (`src/displayLED.hpp`). It holds a fixed
  rectangle, an image pointer and an on/off state. `draw` pushes the image
  into a target sprite only when the state is on.

Pixels are not modelled. A sprite (module `Sprites`) is its size, its pivot
and the ordered log of requests made to draw into it. `pushImage`,
`pushToSprite`, `setPivot`, `pushRotated` and `pushSprite` each append one
record to the log of the sprite they write into. `pushToSprite` and
`pushRotated` are called on the source sprite, so their records go to the
target's log and name the source.

The sizes of the pixel tables and the lamp positions come from headers that
are not part of this model. They are the `Assets` record that a `Gauge`
holds. `ballHeight` is one of them.

Modules:

- `Sprites` (`sprites.dfy`): the 16-bit type `u16`, the `TftWhite` mask
  (0xFFFF, TFT_eSPI's value for `TFT_WHITE`), the image tables, the
  `Request` records and the `Sprite` class.
- `Leds` (`leds.dfy`): the `DisplayLED` class and `DrawRequests`, the
  reference for what `draw` asks of its target.
- `TurnCoordinator` (`turn_coordinator.dfy`): the constants (320×300 main
  sprite, pivots (83, 22) and (160, 150)), the reference functions `FrameAt`
  and `Sweep`, and the `Gauge` class. `Gauge` holds the program's global
  sprites and has `Setup` and `Loop`. `Loop` is a `while` loop proved
  against `Sweep`.
- `SweepFacts` (`sweep_facts.dfy`): lemmas about `Sweep` and `FrameAt`.

Arithmetic notes:

- `i` and `angle` are `int16_t` in the source. Their values stay in
  [-60, 60], so no wrap-around happens and they are modelled as `int`.
- `mainSpr.width() / 2` and `abs(angle) / 5` divide non-negative values, so
  C's truncating division agrees with Dafny's.
- `round` is applied to an integer quotient, so it is the identity.

## Model

| member | source | states |
|---|---|---|
| `Sprites.Sprite.constructor` | src/main.cpp:32-36 | A declared sprite has no buffer yet: size 0×0, pivot (0, 0), empty log. |
| `Sprites.Sprite.CreateSprite` | src/main.cpp:62 | The sprite gets the requested width and height, and its request log starts empty. |
| `Sprites.Sprite.SetPivotTo` | src/main.cpp:70 | The pivot becomes the given point, and one `SetPivot` record is appended. |
| `Sprites.Sprite.PushImageAt` | src/main.cpp:64 | Exactly one `PushImage` record with the given rectangle and table is appended. |
| `Sprites.Sprite.PushToSprite` | src/main.cpp:97 | Only the target's log grows, by one record naming the source sprite, the position and the mask. |
| `Sprites.Sprite.PushRotated` | src/main.cpp:121 | Only the target's log grows, by one record with the angle, the mask, the source's pivot and the target's pivot. |
| `Sprites.Sprite.PushSpriteAt` | src/main.cpp:123 | Exactly one `PushSprite` record with the screen offset is appended. |
| `Leds.DrawRequests` | src/displayLED.hpp:57-63 | Drawing a lamp asks for at most one request. The list is non-empty exactly when the lamp is lit, and that request is `pushImage(x, y, width, height, imageData)` of the stored fields. |
| `Leds.DisplayLED.constructor` | src/displayLED.hpp:28-36 | The default lamp has x = y = width = height = 0, a null image and state false. |
| `Leds.DisplayLED.WithImage` | src/displayLED.hpp:37-45 | Stores x, y, width, height and imageData exactly as given, with state false. |
| `Leds.DisplayLED.SetState` | src/displayLED.hpp:47-50 | After `setState(b)` the state is `b`. Position, size and image are unchanged. |
| `Leds.DisplayLED.GetState` | src/displayLED.hpp:52-55 | Returns the current state and modifies nothing. |
| `Leds.DisplayLED.Draw` | src/displayLED.hpp:57-63 | The target's log grows by exactly `DrawRequests` of the lamp's fields: nothing when dark, one `pushImage` when lit. The lamp's own fields do not change. |
| `TurnCoordinator.AllLamps` | src/main.cpp:103-115 | The lamp block is nine `pushImage` requests, all of lamp tables (never the dial, ball or plane table). |
| `TurnCoordinator.Gauge.constructor` | src/main.cpp:32-36 | The three global sprites are distinct fresh objects with empty logs. |
| `TurnCoordinator.Gauge.Setup` | src/main.cpp:62-75 | After setup the main sprite is 320×300 and holds the dial. The plane sprite has the plane's size, pivot (83, 22) and the plane outline. The ball sprite has the ball's size and image. |
| `TurnCoordinator.Gauge.DrawBackgroundAndBall` | src/main.cpp:95-97 | Appends the full dial, then the ball composited with the white mask at x = width/2 + angle - 10 and y = height - ballHeight - abs(angle)/5 - 24. |
| `TurnCoordinator.Gauge.DrawLamps` | src/main.cpp:103-115 | Appends exactly the nine lamp requests, in source order. |
| `TurnCoordinator.Gauge.DrawPlaneAndPresent` | src/main.cpp:119-123 | Sets the main pivot to (160, 150). Then appends the plane, rotated by the angle about its own pivot with the white mask, and last the transfer at (0, 0). |
| `TurnCoordinator.Gauge.DrawFrame` | src/main.cpp:93-124 | One loop pass produces exactly `FrameAt(i)`. The main sprite's log grows by that frame's requests, and no sprite's size or the plane pivot changes. |
| `TurnCoordinator.Gauge.Loop` | src/main.cpp:88-128 | One call returns exactly `Sweep` of the current geometry, and the main log grows by all its frames' requests in order. Every frame's angle is in [-30, 30]. The main pivot ends at (160, 150). |
| `SweepFacts.SweepUpToShape` | src/main.cpp:91 | The frames up to counter value n are one per value from -60, in counter order. |
| `SweepFacts.SweepShape` | src/main.cpp:91-93 | A sweep has exactly 121 frames, the k-th for counter value k - 60. |
| `SweepFacts.SweepAngles` | src/main.cpp:91-93 | Every frame's angle is abs(i) - 30 with i in [-60, 60], so it lies in [-30, 30]. |
| `SweepFacts.SweepProfile` | src/main.cpp:91-93 | The angle starts at 30, falls by one per frame to -30 at i = 0, and climbs back to 30. |
| `SweepFacts.SweepSymmetric` | src/main.cpp:93-123 | The frames for i and -i are identical apart from the counter: same angle, ball position, gate and requests. |
| `SweepFacts.SweepPauses` | src/main.cpp:99 | A frame pauses exactly when its angle is 0. That happens exactly for i = -30 and i = 30, the frames at positions 30 and 90. |
| `SweepFacts.SweepLamps` | src/main.cpp:101-117 | The lamps are drawn exactly when angle < 10, i.e. for -40 < i < 40, which includes every negative angle. A lamp request appears in a frame exactly when the lamps are gated on. |
| `SweepFacts.FrameOrder` | src/main.cpp:95-123 | Each frame's requests in order: background first, the ball with the white mask second, then the nine lamps or nothing, then the main pivot (160, 150), the rotated plane, and the transfer at (0, 0) last. A frame has 14 requests with lamps and 5 without. |
| `SweepFacts.FramePlaneLast` | src/main.cpp:119-123 | No request before the last two rotates a sprite or presents the main sprite, so the plane is composited once, on top of everything else. |
| `SweepFacts.FrameLampGate` | src/main.cpp:101-117 | The gate is `angle < 10`. Each lamp request is in a frame's requests exactly when the gate is on, because no other request of the frame uses a lamp table. |
| `SweepFacts.SweepBallAfterSetup` | src/main.cpp:97 | After setup, ball x = 150 + angle, within [120, 180]. The ball's lift is abs(angle)/5 in integer division, within [0, 6], and equals 6 exactly when abs(angle) = 30. |
| `SweepFacts.SweepPlaneAfterSetup` | src/main.cpp:120-121 | After setup, every frame rotates the plane about its pivot (83, 22), placed on the main sprite's point (160, 150). |

## Left out

- The TFT_eSPI library itself, which is not part of this model. Pixel buffers, rotation sampling, clipping, colour-key masking and DMA transfer are left out. Each library call is a record in a log.
- `Sprites.Sprite.CreateSprite`: allocation failure is not modelled. The library's own pivot handling inside `createSprite` is not modelled either; the pivot is left as it was. Every pivot the program relies on is set explicitly after creation.
- Serial output, `while (!Serial)`, `initDMA`, `begin` and `setRotation`. These are hardware and I/O set-up with no logic in the program.
- `delay(...)`: no time is modelled. The two-second pause at angle 0 is kept only as the frame's `pause` flag; `delay(10)` and `delay(1000)` are dropped.
- `setSwapBytes`: it sets library byte order and has no logic in the program.
- The values in `dial_background.h`, `ball.h`, `plane_outline.h` and `LED_Images.h`, which are not part of this model. Table sizes and lamp positions are the `Assets` parameters.
- The `DisplayLED` destructor: `src/displayLED.hpp` declares it without a definition, and nothing uses it.
- Setters that map percentages to angles and offsets, named lamp setters and clamping. None of these exist in the modelled code.
- The Arduino runtime that calls `setup()` once and `loop()` forever. `Gauge.Loop` models one call, and calls after the first are identical as long as the geometry does not change.
