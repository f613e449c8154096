# Interaction controllers of the campus and box-inspector demos

This project models, in Dafny, the two interaction controllers under the
three.js scenes of this repository.

**Campus orbit controls** (`Assignments/Rectorate.js`, module `Rectorate`, class
`Rectorate.Controls`). The class is a two-state drag machine:

- Mouse-down starts a drag and records the pointer. Mouse-up ends any drag.
- A move during a drag turns two target angles by 0.005 rad per pixel.
- The elevation target is clamped to [-L, L], where L is pi/3. The constructor
  takes L as a positive parameter, so pi is never approximated.
- Each frame advances the clock and sets the point light from it.
- Each frame eases both live angles 5% of the way to their targets.
- Each frame then puts the camera back on its orbit of radius 80, lifted by 25.
  This replaces any position a wheel zoom left.
- The wheel scales the camera position by 1.1 (deltaY > 0) or 0.9 (otherwise).
- A click that hits the building sets the main building's colour to
  `floor(random * 0xffffff)`.
- 'l' or 'L' flips the light switch and sets both light intensities.

Sine and cosine are constructor parameters of type `real -> real`. Nothing is
assumed about them.

Proved about it:

- The elevation target and the live elevation stay in [-L, L]. This is part of
  `Valid()`, which every handler keeps.
- One easing step leaves exactly 95% of the gap and never overshoots.
- After n frames toward a fixed target the gap is 0.95^n of the first gap.
- The live angle approaches the target monotonically.
- From a gap of at most 1 rad, the live angle is within 0.001 after 140 frames.

**Box inspector** (`display-object-information-using-raycasting/script.js`,
module `CubeInspector`, class `CubeInspector.Inspector`).

- The construction loop builds 20 boxes from 11 `Math.random()` draws each.
  The draws are passed in as a sequence.
- A click normalises the pointer to device coordinates. It then restores the
  previously selected box from its record's `originalColor` and clears that
  box's emissive.
- If the ray hit something, the nearest box hit becomes the selection. Its
  colour becomes 0xffff00 and its emissive 0xff6600, its record goes to the
  information panel, and the 300 ms scale pulse restarts. Otherwise the
  selection and the panel are cleared.
- The raycaster's result is an input: box indices, nearest first.
- Mesh identity is the box's index. Record `i` names box `i`.
- The records are a `const` field, so they cannot be written after
  construction.

Proved about it:

- At most one box is highlighted, and it is the selected one.
- Selecting a box and then restoring it gives back exactly the boxes before.
- Restoring the selected box and selecting it again changes nothing.
- The pulse is 1 at progress 0, 1.2 at 0.5 and 1 at 1, and stays in [1, 1.2].
- The pulse's two branches form one triangle. It is continuous, with slope at
  most 0.4.

The pulse frame that the host runs is modelled with its latent fault. A miss
does not cancel a scheduled pulse frame. That frame then finds no selected box
and fails, where the program would dereference null. `MissDuringPulse` shows
this, and `PulseFrame` returns the fault. Deselection also leaves a box at
whatever scale the pulse had reached.

Shared geometry (module `Geometry`): pointer-to-device normalisation and its
inverse, component-wise scaling, and the small real arithmetic both
controllers use.

## Model

| member | source | states |
|---|---|---|
| Geometry.ToDevice | display-object-information-using-raycasting/script.js:100-101 | pixels inside the viewport map into [-1,1]x[-1,1]; the centre maps to (0,0); the left edge maps to x = -1 and the right edge to x = 1; the top edge maps to y = 1 and the bottom edge to y = -1 (y is flipped) |
| Geometry.ToPixel | Assignments/Rectorate.js:440-441 | a device point in [-1,1]x[-1,1] names a pixel inside the canvas rectangle |
| Geometry.PixelRoundTrip | display-object-information-using-raycasting/script.js:100-101 | normalisation is injective: the pixel is recovered from its device point |
| Geometry.DeviceRoundTrip | Assignments/Rectorate.js:440-441 | normalisation is onto: every device point comes from the pixel `ToPixel` names |
| Geometry.Scale | Assignments/Rectorate.js:67 | `multiplyScalar` multiplies the squared distance from the origin by the square of the factor, so a wheel step changes the camera's distance from the origin by that factor |
| Geometry.ScaleTwice | Assignments/Rectorate.js:67 | two wheel steps scale the camera position by the product of the factors, so zooming out then in gives 0.99, not the identity |
| Rectorate.Clamp | Assignments/Rectorate.js:58 | the result lies in [lo, hi]; it is v when v is inside; it is the nearer bound when v is outside |
| Rectorate.ClampIsNearest | Assignments/Rectorate.js:58 | the clamped value is the point of [lo, hi] closest to v |
| Rectorate.Ease | Assignments/Rectorate.js:509-510 | after one frame the remaining gap is exactly 0.95 of the old gap, and the new angle lies between the old angle and the target |
| Rectorate.EaseStaysInside | Assignments/Rectorate.js:509-510 | easing keeps an angle inside any interval that contains both the angle and its target |
| Rectorate.EaseFramesGap | Assignments/Rectorate.js:509-510 | after n frames toward a fixed target the gap is 0.95^n times the starting gap |
| Rectorate.EaseFramesApproach | Assignments/Rectorate.js:509-510 | with a fixed target the gap never grows from one frame to the next, and the live angle never crosses the target |
| Rectorate.EaseConverges | Assignments/Rectorate.js:509-510 | from a gap of at most 1 rad the live angle is within 0.001 of the target after 140 frames |
| Rectorate.RandomHex | Assignments/Rectorate.js:447-448 | the new building colour is a hex code in [0, 0xFFFFFE], the integer part of random * 0xFFFFFF |
| Rectorate.ZoomFactor | Assignments/Rectorate.js:67 | the factor zooms out (> 1) for deltaY > 0 and zooms in (< 1) otherwise, including deltaY = 0 |
| Rectorate.Controls.constructor | Assignments/Rectorate.js:24-42 | starts idle with every angle and the last pointer at 0 and the camera at (50, 35, 50); also lights on at 0.8 / 1.5 (lines 166, 180, 471), a white building (default material colour) and time 0 (line 487) |
| Rectorate.Controls.MouseDown | Assignments/Rectorate.js:44-48 | a drag starts and the pointer position is recorded; nothing else changes |
| Rectorate.Controls.MouseUp | Assignments/Rectorate.js:61-63 | the drag ends whatever the prior state; nothing else changes |
| Rectorate.Controls.MouseMove | Assignments/Rectorate.js:50-59 | without a drag nothing changes; during a drag the azimuth target grows by dx*0.005 unclamped, the elevation target becomes Clamp(old + dy*0.005, -L, L), and the pointer is recorded; the elevation target always ends in [-L, L] |
| Rectorate.Controls.Wheel | Assignments/Rectorate.js:65-68 | the camera position is scaled by ZoomFactor(deltaY); the angles and everything else are unchanged |
| Rectorate.Controls.Tick | Assignments/Rectorate.js:488-515 | the clock advances by 0.01 and sets the point light to 1.5 + 0.4 sin(3t); each live angle takes one Ease step; the camera is set from the live angles alone, so an earlier zoom does not persist; the live elevation stays in [-L, L] |
| Rectorate.Controls.Click | Assignments/Rectorate.js:438-452 | the pointer is normalised against the canvas rectangle; on any hit the main building colour becomes RandomHex(random); with no hit no colour changes |
| Rectorate.Controls.KeyPress | Assignments/Rectorate.js:471-480 | 'l' or 'L' flips the switch and sets the intensities to 0.8/1.5 (on) or 0.2/0 (off); any other key changes nothing |
| Rectorate.PressTwice | Assignments/Rectorate.js:471-480 | two presses of the same key restore the switch and the directional intensity |
| Rectorate.ZoomThenFrame | Assignments/Rectorate.js:512-514 | after a wheel event and a frame, the camera stands where the frame alone would put it |
| Rectorate.Controls.Orbit | Assignments/Rectorate.js:512-514 | the camera stands Radius sin(rx) above the lift height; where sine and cosine lie on the unit circle it is 80 from the orbit centre (0, 25, 0) and 80 abs(cos rx) from the vertical axis |
| CubeInspector.BuildCubes | display-object-information-using-raycasting/script.js:34-62 | 20 boxes and 20 records; record i names box i and is built from draws 11i..11i+8; sizes lie in [1,4); x and z lie in [-20,20) and y in [-10,10); each box starts with its record's colour, no glow and scale 1 |
| CubeInspector.Generated | display-object-information-using-raycasting/script.js:35-61 | the record of box i names box i; when the draws are `Math.random()` values its size lies in [1,4), x and z in [-20,20), y in [-10,10) and its colour is a random RGB triple |
| CubeInspector.Fresh | display-object-information-using-raycasting/script.js:39-49 | a new box shows its record's colour with no glow, is not highlighted, has scale 1 and stands at its record's position |
| CubeInspector.Find | display-object-information-using-raycasting/script.js:108 | returns the first record naming the box, or none when no record names it |
| CubeInspector.FindOwnRecord | display-object-information-using-raycasting/script.js:117 | when record i names box i, the lookup of box s returns record s |
| CubeInspector.Restore | display-object-information-using-raycasting/script.js:107-113 | the previously selected box gets its record's original colour and no glow; its scale and position and every other box are untouched |
| CubeInspector.Select | display-object-information-using-raycasting/script.js:120-121 | box s is highlighted (0xffff00 fill, 0xff6600 glow); nothing else changes |
| CubeInspector.SetScale | display-object-information-using-raycasting/script.js:141 | box s takes uniform scale v with its colours unchanged; every other box is untouched |
| CubeInspector.RestoreClearsSelection | display-object-information-using-raycasting/script.js:107-113 | after the restore step every box shows its original colour with no glow, whether or not a box was selected |
| CubeInspector.SelectKeepsConsistent | display-object-information-using-raycasting/script.js:115-121 | highlighting the hit box after the restore yields a field where exactly that box is selected and all others show their originals |
| CubeInspector.AtMostOneHighlighted | display-object-information-using-raycasting/script.js:107-121 | any highlighted box is the selected one, so at most one box is highlighted |
| CubeInspector.RestoreUndoesSelect | display-object-information-using-raycasting/script.js:107-121 | selecting a box and then clicking empty space restores every box exactly |
| CubeInspector.ReselectIsIdempotent | display-object-information-using-raycasting/script.js:110-121 | clicking the already selected box gives the same colours again, and the highlight never becomes the stored original |
| CubeInspector.Progress | display-object-information-using-raycasting/script.js:131-132 | progress is at most 1 and not negative for non-negative elapsed time; it is 1 exactly when 300 ms have passed, and elapsed/300 before that |
| CubeInspector.PulseScale | display-object-information-using-raycasting/script.js:134-139 | the scale is 1 at progress 0, 1.2 at 0.5 and 1 at 1, and lies in [1, 1.2] for progress in [0, 1] |
| CubeInspector.PulseIsTriangle | display-object-information-using-raycasting/script.js:134-139 | the two branches equal one triangular envelope 1 + 0.2(1 - abs(2p - 1)) |
| CubeInspector.PulseIsContinuous | display-object-information-using-raycasting/script.js:134-139 | the scale changes by at most 0.4 times the change in progress, so it has no jump at 0.5 |
| CubeInspector.PulseIsSymmetric | display-object-information-using-raycasting/script.js:134-139 | the rise and the fall mirror each other: the scale at p equals the scale at 1 - p |
| CubeInspector.PulseEndsAtRest | display-object-information-using-raycasting/script.js:131-145 | once 300 ms have passed the box is back at scale 1 |
| CubeInspector.Inspector.constructor | display-object-information-using-raycasting/script.js:31-67 | boxes and records as the construction loop builds them; nothing selected, no pulse frame scheduled and nothing shown |
| CubeInspector.Inspector.AnimatePulse | display-object-information-using-raycasting/script.js:130-146 | scales the currently selected box to PulseScale(Progress(now - start)) and reschedules only while progress < 1; with no box selected it fails and schedules nothing |
| CubeInspector.Inspector.PulseFrame | display-object-information-using-raycasting/script.js:143-145 | without a scheduled frame nothing happens; otherwise the frame runs as AnimatePulse, and fails when nothing is selected |
| CubeInspector.Inspector.Click | display-object-information-using-raycasting/script.js:99-155 | the pointer is normalised; the previous selection is restored first; on a hit the nearest box is selected and highlighted, its record is shown, the pending pulse frame is replaced by a new pulse from scale 1 starting now; on a miss the selection and the panel are cleared and a pending pulse frame is kept; the one-highlight invariant holds afterwards |
| CubeInspector.ClickSameCubeTwice | display-object-information-using-raycasting/script.js:107-152 | a second click on the same box, after a pulse frame has moved its scale, leaves the boxes exactly as the first click did |
| CubeInspector.MissDuringPulse | display-object-information-using-raycasting/script.js:141-152 | a hit, then a miss, then the pending pulse frame: the frame fails because no box is selected |

## Left out

- Scene construction is not modelled: textures, lights, geometry, windows, trees, flags, fog and shadows. These are three.js and canvas calls with no contract.
- `transform-objects-assignment/main.js` is not part of this model. It only adds constant increments to three rotations.
- Raycasting (`setFromCamera`, `intersectObjects`) is not modelled. The hit list is an input, already ordered nearest first.
- Flag waving, tree spin and box spin are not modelled. Neither is the inspector's clock-driven camera orbit, nor the box's random initial rotation. The draws for rotation are consumed but unused.
- Scheduling is explicit. `requestAnimationFrame` and `cancelAnimationFrame` become the `framePending` flag and the `PulseFrame` method. `Date.now()` becomes a `now` parameter.
- `camera.lookAt(0, 8, 0)` (Assignments/Rectorate.js:515) is not modelled. The camera's orientation is not part of the state; only its position is.
- The source calls `animate()` once at Assignments/Rectorate.js:520, before any handler can run. The model leaves that call to the host: it runs `Tick` once after construction. So the constructor's camera (50, 35, 50) and time 0 are never seen by a handler.
- The `setTimeout` that resets the campus info text is not modelled.
- DOM and React I/O are not modelled: `updateUI`'s HTML and two-decimal formatting, `setInfo`, the hover handler and its cursor, the JSX, resize handlers and cleanup. Only the record passed to `updateUI` is kept, in the `shown` field.
- Numbers are exact reals, not IEEE doubles, so no rounding behaviour is claimed.
- Colours are not decoded into channels. Original box colours are kept as the random RGB triple. Colours set with `setHex` are kept as the hex code. three.js colour management is not part of this model.
- Rectorate.RandomHex: relies on three.js `setHex` dropping the fraction of its argument. three.js is not part of this model.
- Rectorate.Controls.Tick: the point-light line is modelled because it overwrites the intensity the light key sets. The key's "off" setting for the point light therefore lasts only until the next frame.
- Each box's mesh is an element of a sequence field rather than a separate object, so aliasing between meshes is not modelled. The program does not share materials between boxes.
- CubeInspector.Inspector.Click: the branch where a hit box has no record cannot occur under `Valid()`. It is modelled, but the postcondition states only the case where the record is found.
