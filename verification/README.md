# Bouncing circles on a 2D canvas — a Dafny model

This project models the state logic of a small canvas animation. A row of
labelled circles bounces inside a resizable rectangle. The user can add a
circle, remove the last one, regenerate ten, change the global speed
multiplier, and resize the canvas. The model covers all of `js/main.js` that
decides anything:

- `Circle` (constructor and `update`): the horizontal wall check, then the
  vertical one, each reversing that axis's velocity and clamping the
  coordinate into `[radius, dim - radius]` on overlap, then the advance by
  `velocity * speedMultiplier`.
- `clamp`, `randomBetween` and `createRandomCircle`, with every
  `Math.random()` draw passed in as a real in `[0, 1)`.
- The collection: `addCircle`, `removeCircle`, `resetCircles`, the resize
  button's clamp-and-reset, and the per-frame `updateCircle` as an in-order
  map of `update`. Drawing is a no-op.

Modules:

- `Numeric` (numeric.dfy): `Abs`, `Min`, `Max`, `Clamp`.
- `Optional` (optional.dfy): the `??` default.
- `Circles` (circle.dfy): the circle record and its update.
- `Spawn` (spawn.dfy): the palette and random creation.
- `Worlds` (world.dfy): the `World` record, which holds the bounds and the
  circles; its operations; the invariant they keep; and runs of user actions
  and frames.

Coordinates are exact reals. The bounds that the original keeps in the
globals `window_width`/`window_height` are fields of `World`. The speed
multiplier is an argument of each frame.

Three behaviours of the code are worth stating up front:

- A full update does not keep a circle inside the box. The circle is inside
  after the wall checks, but the advance that follows can carry it past a
  wall by one displacement; the next frame's wall check pulls it back.
  `Circles.UpdateCanLeaveBox` exhibits the excursion, and `Circles.Update`
  proves the one-displacement bound.
- A fresh circle does not always start inside. The centre is drawn at least
  30 from each wall, but a radius can be as large as 49, so from radius 31
  on a centre at the margin overlaps the wall.
  `Spawn.FreshCircleMayOverlapWall` shows this with the exact threshold.
- The resize handler assigns the clamped value to the canvas's
  `width`/`height` attributes and reads it back. Those attributes are
  `unsigned long` in the HTML canvas interface, so a fractional request keeps
  only its integer part. `Worlds.ResizeDimension` models this. A whole-number
  request in `[200, 1000]` is kept exactly.

## Model

| member | source | states |
|---|---|---|
| `Numeric.Clamp` | js/main.js:131-133 | With `lo <= hi` the result lies in `[lo, hi]`. A value already in range is returned unchanged. Values below the range go to `lo` and values above it go to `hi`. With an empty range (`hi < lo`) the upper bound wins. |
| `Numeric.ClampNearest` | js/main.js:131-133 | The clamped value is the point of `[lo, hi]` nearest to the input, and clamping twice is the same as clamping once. |
| `Optional.Coalesce` | js/main.js:154 | `indexLabel ?? fallback`: a given label is used as it is, and the fallback is used only when none is given. |
| `Circles.Direction` | js/main.js:44-45 | The direction factor is -1 or +1, and it is negative exactly when the draw is below 0.5. |
| `Circles.NewCircle` | js/main.js:30-50 | The constructor stores position, radius, colour, text and speed as given. For a non-negative speed both velocity components have magnitude `speed`. With a positive speed, each component's sign is negative exactly when its draw is below 0.5. |
| `Circles.OverlapsIffOutside` | js/main.js:83 | The wall test fires exactly when the disc is not within `[radius, dim - radius]`. |
| `Circles.Bounce` | js/main.js:83-94 | On one axis: with no overlap nothing changes. On overlap the velocity is negated and keeps its magnitude. If the box is at least one diameter wide, the coordinate ends inside and moves to the nearest wall-touching position. If the box is narrower than a diameter, the coordinate is set to `dim - radius`. |
| `Circles.WallCheck` | js/main.js:82-94 | After both wall checks the circle is inside on every axis at least one diameter wide. Radius, colour, text and speed are unchanged. Velocity magnitudes are kept. An axis already inside keeps its coordinate and velocity. |
| `Circles.Step` | js/main.js:83-98 | One axis of the update keeps the speed magnitude and can only flip the sign. Away from the walls it moves by exactly `vel * m`. When the box is at least one diameter wide, the advance starts from a point inside, so the result is at most one displacement outside. |
| `Circles.Update` | js/main.js:78-99 | The update changes only position and velocity, and each velocity component is kept or negated. It preserves `abs(dx) == abs(dy) == speed`. It does not reverse an axis that was inside. With bounds at least one diameter, the point the advance starts from is inside the box, and the circle ends within one displacement of the box. |
| `Circles.UpdateAfterWallCheck` | js/main.js:82-98 | The update equals the wall checks followed by the advance by velocity times multiplier. |
| `Circles.UpdateFreeFlight` | js/main.js:83-98 | A circle touching no wall keeps its velocity and moves by exactly `(dx * m, dy * m)`. |
| `Circles.DisplacementOfSteady` | js/main.js:47-49 | When both velocity components have magnitude `speed`, each per-frame displacement has magnitude `speed * abs(m)`. |
| `Circles.UpdateCanLeaveBox` | js/main.js:83-98 | A circle resting on the right wall and moving right is inside before the update and outside after it. Containment is not an invariant of `update`. |
| `Circles.ReflectAtRightWall` | js/main.js:83-87 | A circle one unit past the right wall and moving right gets its horizontal velocity reversed and its centre set to `width - radius`. It then advances from there. |
| `Spawn.RandomBetween` | js/main.js:121-123 | For a draw in `[0, 1)` the result lies in `[lo, hi)` when `lo < hi`, and in `(hi, lo]` when the bounds are swapped. A zero draw gives `lo`. |
| `Spawn.RandomRadius` | js/main.js:148 | The radius is a whole number in `[20, 49]` for every draw. |
| `Spawn.CreateRandomCircle` | js/main.js:140-161 | A new circle has a whole radius in `[20, 49]`, a speed in `[1, 4)`, and velocity magnitudes equal to its speed. Its centre is at least 30 from each wall, provided the bounds allow it. Its colour is `COLORS[count mod 10]`. Its label is the given one, or `count + 1` when none is given. Each direction's sign follows its draw. |
| `Spawn.RadiusAboveMargin` | js/main.js:141-148 | The drawn radius is larger than the 30-pixel margin exactly when the radius draw is at least 11/30. |
| `Spawn.FreshCircleMayOverlapWall` | js/main.js:141-148 | A centre drawn at the margin overlaps the left wall exactly when its radius is 31 or more (a radius draw of at least 11/30), so fresh circles are not always inside. |
| `Worlds.Push` | js/main.js:186 | A push appends exactly one circle, created for the current length, and keeps the bounds and the existing circles. |
| `Worlds.AddCircle` | js/main.js:185-188 | The length grows by exactly one and the existing prefix is unchanged. The new circle's label is its 1-based position and its colour is the palette entry of its 0-based position. Well-formedness is preserved. |
| `Worlds.RemoveCircle` | js/main.js:193-198 | On a non-empty collection it removes exactly the last circle. On an empty one the state is unchanged. Bounds and well-formedness are preserved. |
| `Worlds.RemoveUndoesAdd` | js/main.js:185-198 | Removing right after adding restores the previous state exactly. |
| `Worlds.ResetLoop` | js/main.js:176-178 | From iteration `i` on, the loop yields one circle per remaining draw and keeps the first `i`. Circle `k` is the one created when the collection held `k` circles, with label `k + 1`. |
| `Worlds.ResetCircles` | js/main.js:174-180 | The result has exactly 10 circles, labelled 1..10 in order and coloured by the palette in order, and the collection is well-formed. Centres are at least 30 from each wall when the bounds allow it. The bounds are unchanged. |
| `Worlds.AddAll` | js/main.js:185-188 | `n` adds give exactly `n` more circles and keep the prefix. A well-formed collection stays well-formed, so every circle's colour and default label remain tied to its position. |
| `Worlds.ResetLoopIsAdds` | js/main.js:174-188 | The explicit labels `i + 1` of the reset loop are exactly the defaults `addCircle` would choose, so the loop equals a run of adds. |
| `Worlds.ResetIsTenAdds` | js/main.js:174-188 | Resetting is the same as emptying the collection and adding ten circles. |
| `Worlds.PaletteCycles` | js/main.js:151 | In a well-formed collection, circle `i + 10` has the same colour as circle `i`. |
| `Worlds.ResetThenAdds` | js/main.js:174-188 | A reset followed by `n` adds holds `10 + n` circles, and every circle is coloured and labelled by its position. |
| `Worlds.CanvasSize` | js/main.js:250-255 | The stored canvas size is the whole number at or below the assigned value, and less than one below it. |
| `Worlds.ResizeDimension` | js/main.js:242-255 | The applied dimension is a whole number in `[200, 1000]`. Requests below 200 become 200 and requests above 1000 become 1000. A request within range loses at most its fractional part, and a whole-number request within range is kept exactly. |
| `Worlds.Resize` | js/main.js:239-258 | The new bounds are the applied dimensions. The collection is exactly a fresh reset at those bounds with 10 circles; no old circle survives. The invariant holds afterwards, and every centre is at least 30 from each wall. |
| `Worlds.UpdateAll` | js/main.js:282 | The frame's map keeps the length, and circle `i` becomes the update of circle `i` at the same bounds and multiplier. |
| `Worlds.Tick` | js/main.js:274-283 | A frame keeps the bounds, the number of circles, well-formedness and the invariant. Under the invariant, every circle ends within one displacement of the box. |
| `Worlds.Ticks` | js/main.js:274-283 | Any number of frames keeps the bounds, the number of circles and the invariant. After at least one frame, every circle is within one displacement of the box. |
| `Worlds.Apply` | js/main.js:220-258 | Add, remove, reset, resize and frame each preserve the invariant, and a resize establishes it from any state. |
| `Worlds.Run` | js/main.js:220-283 | Any sequence of user actions and frames that starts in the invariant, or starts with a resize, ends in it. |
| `Worlds.Scenario` | js/main.js:239-283 | Resize to 800 x 600, then run any number of frames, then resize to 300 x 300. The bounds are the requested ones and there are ten circles throughout. After the frames each circle is within one displacement of the box. After the second resize every centre lies in `[30, 270]` on both axes. |

## Left out

- Drawing (`Circle.draw`, `clearRect`, `arc`, `fillText`, font and line styles): rendering with no effect on the state, so each update and frame treats it as a no-op.
- DOM lookups and listener wiring, `updateCountLabel` and the size and speed text labels: user-interface I/O with no decisions.
- The speed slider listener only stores `Number(speedRange.value)`. Its value is the multiplier `m` that every frame receives as an argument.
- `requestAnimationFrame`: the self-rescheduling loop is modelled as `Worlds.Ticks`, a finite number of frames.
- `Math.random`: each draw is a parameter in `[0, 1)`, and the ±1 direction uses the draw itself (`u < 0.5`).
- The initial canvas size comes from the page markup, which is not part of this model. The model accepts any starting bounds, and the invariant `Worlds.Inv` is established by the first resize.
- IEEE-754 rounding, infinities and `NaN` (for example from `Number(input.value)` on a non-numeric entry): all numbers are exact, finite reals.
- `Numeric.Clamp`: states nothing about `NaN` arguments, because the model has none.
