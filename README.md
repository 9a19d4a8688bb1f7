# cursr particle engine, modelled in Dafny

cursr draws particles that follow the pointer on a full-window canvas. This project models the engine that runs each frame, without the DOM and the canvas. It covers:

- the element record that `createElement` builds: its position, scale and scale ceiling, count and count floor, velocity, image size and bound behaviour. It also covers the record's `valid()` test and the rectangle its `draw` computes;
- the effects `trail` (a damped spring towards a target), `float` (one unit up) and `scale` (multiply the scale);
- the display: the live cursor that pointer moves overwrite, and the element pool with its `addElement`, `updateElements` (filter, then update the survivors) and `drawElements` passes;
- the controller returned by `cursr(configs)`: the `follow`, `spring` and `spawn` presets, one pointer-move event, and one tick of the render loop (update then draw).

Coordinates, velocities and scales are Dafny `real`s. The constants 0.1, 0.9 and 1.1 are exact rationals. This is an idealisation of JavaScript's doubles.

Layout, one module per component:

- `vectors.dfy`: `Vectors`, points and `vecSubtract`.
- `elements.dfy`: `Elements`, the element record as a value (`ElementState`) and as a class whose fields change in place (`Element`), plus `Create`, `Valid` and `DrawRect`.
- `effects.dfy`: `Effects`. The in-place effect methods `Trail`, `Float` and `Scale` are each proved against a pure step function (`TrailStep`, `FloatStep`, `ScaleStep`).
- `behaviours.dfy`: `Behaviours`. The closures the presets bind are modelled as a tag on the element, `Trail` or `FloatScale`. `Run` dispatches on the tag and is given the display's current cursor. This module also has lemmas about many frames: `Frames` applies one step per cursor position.
- `display.dfy`: `Display`, the pool and its passes.
- `cursr.dfy`: `Cursr`, the presets, the pointer-move event and one tick.

Details of the code that the model reproduces:

- The pool is the closure variable `elements` of `createDisplay`. `updateElements` rebinds that variable (index.js:55). The `elements` property of the returned object goes stale after the first update and is not modelled.
- A preset's default `reference` is the display's cursor object. The display's mousemove listener changes that object in place. `follow` and `spring` read it when they are called. A spawn listener reads it every time its event fires. The display's listener was registered first, so on each event it runs before any spawn listener, and every spawned element starts at that event's pointer position (`Controller.MouseMove`).
- An element that becomes invalid during one tick's update is still drawn in that tick. It is dropped by the next tick's filter, because `drawElements` does not test validity.
- `follow` and `spring` are the same preset. `Spring` delegates to `Follow`, and both state the same contract.
- The spawned behaviour grows the scale by 1.1 per frame from 1, so the element passes the validity test after 0 to 41 frames and fails it from frame 42 on (`SpawnedLifetime`). The filter runs before the update, so the element is updated 42 times, drawn 42 times, and removed at the start of the 43rd tick.
- A spawn listener reads `reference.x` and `reference.y` every time its event fires, not once when it is registered (index.js:166-170).

## Model

| member | source | states |
|---|---|---|
| `Vectors.Subtract` | index.js:24-29 | adding `minus` back to the difference gives `vector`, and the difference is zero exactly when the two points are equal |
| `Vectors.SubtractShift` | index.js:24-29 | moving both points by the same offset does not change the difference |
| `Elements.Create` | index.js:76-86 | a new element is at (x, y), has zero velocity, keeps the given image and behaviour, and is valid |
| `Elements.CreateDefaults` | index.js:76-98 | the defaults are scale 1, scaleMax 50, count 100 and countMin 1, which makes the new element valid |
| `Elements.Element.constructor` | index.js:76-100 | the new record's fields are exactly `Create`'s state |
| `Elements.Valid` | index.js:96-98 | holds exactly when scale < scaleMax and count > countMin; `CreateDefaults` shows a new element meets it and `InvalidForever` shows it never comes back once false |
| `Elements.DrawRect` | index.js:87-95 | the size is (w·s, h·s), and at every scale the centre stays at (x + w/2, y + h/2), so the image grows about its own centre; together these fix the corner at (x - (w·s - w)/2, y - (h·s - h)/2) |
| `Elements.Draw` | index.js:87-95 | `draw` is one DrawImage call with the element's own image, drawn at size (w·s, h·s) and centred at (x + w/2, y + h/2) |
| `Elements.DrawRectUnitScale` | index.js:87-95 | at scale 1 the image is drawn at (x, y) with its own width and height |
| `Elements.DrawRectDoubleScale` | index.js:87-95 | at scale 2 the corner is (x - w/2, y - h/2) and the size is (2w, 2h) |
| `Effects.Trail` | index.js:120-129 | the in-place updates of velocity and then position leave the element in the state `TrailStep` gives |
| `Effects.TrailLaw` | index.js:120-129 | v' = 9/10 (v + 1/10 (target - p)) and p' = p + v' in each axis, and no other field changes |
| `Effects.TrailFirstFrame` | index.js:120-129 | from rest at (0, 0) with the target at (100, 0), one step gives x = 9 and velocity (9, 0) |
| `Effects.TrailAtRest` | index.js:120-129 | an element at rest on its target does not move |
| `Effects.TrailShift` | index.js:120-129 | moving the element and the target by one offset moves the result by that offset and leaves the velocity unchanged |
| `Effects.Float` | index.js:131-133 | the in-place decrement leaves the element in the state `FloatStep` gives |
| `Effects.FloatLaw` | index.js:131-133 | y drops by exactly 1 and every other field, x, scale and velocity included, is unchanged |
| `Effects.Scale` | index.js:135-141 | the in-place multiplication leaves the element in the state `ScaleStep` gives |
| `Effects.ScaleLaw` | index.js:135-137 | the scale is multiplied by the factor, and x, y and every other field are unchanged |
| `Effects.ScaleCompose` | index.js:135-137 | scaling by f and then by g is the same as scaling once by f * g |
| `Behaviours.Run` | index.js:149-175 | running the bound behaviour leaves the element in the state `Step` gives: a trail step towards the cursor for follow and spring, one unit up and then scale times 1.1 for spawn |
| `Behaviours.StepFields` | index.js:149-175 | a step never changes the image, behaviour, scaleMax, count or countMin; a trail step keeps the scale and moves by the damped-spring velocity 9/10 (v + 1/10 (cursor - p)); a spawn step keeps x and the velocity, lowers y by 1 and multiplies the scale by 1.1 |
| `Behaviours.PresetPreserved` | index.js:81-84 | under the shipped behaviours scaleMax, count and countMin keep their defaults and the scale stays at least 1 |
| `Behaviours.InvalidStaysInvalid` | index.js:96-98 | one more frame never makes an invalid element valid again |
| `Behaviours.InvalidForever` | index.js:96-98 | no sequence of frames makes an invalid element valid again |
| `Behaviours.TrailKeepsScale` | index.js:120-129 | over any sequence of cursor positions a trailing element keeps its scale, scaleMax, count and countMin, and so stays valid if it was valid |
| `Behaviours.TrailingNeverExpires` | index.js:149-163 | an element made by follow or spring is valid after any number of frames |
| `Behaviours.FloatScaleFrames` | index.js:171-174 | after n frames a spawned element has risen by n, its scale is multiplied by 1.1^n, and the cursor plays no part |
| `Behaviours.GrowthBounds` | index.js:81-82 | 1.1^41 < 50 <= 1.1^42 |
| `Behaviours.SpawnedLifetime` | index.js:165-178 | a spawned element is valid after n frames exactly when n < 42 |
| `Behaviours.SpawnedExpiresAtCeiling` | index.js:171-174 | a spawned element at scale 500/11 is valid, and one frame takes its scale to exactly 50 and makes it invalid |
| `Display.Survivors` | index.js:55-57 | the filtered pool is no longer than the pool, and every element in it is in the pool and valid |
| `Display.SurvivorsAppend` | index.js:55-57 | filtering a concatenation gives the concatenation of the filtered parts, so the filter keeps the pool's order |
| `Display.SurvivorsMembership` | index.js:55-57 | an element is kept exactly when it is in the pool and valid |
| `Display.SurvivorsDistinct` | index.js:55-57 | filtering a pool that has no repeated element gives a pool with no repeated element |
| `Display.SurvivorsAllValid` | index.js:55-57 | a pool whose elements are all valid comes out of the filter unchanged |
| `Display.AddedSurvives` | index.js:50-57 | a valid element appended to the pool survives the next filter, at the end of the pool, after the pool's own survivors |
| `Display.FilterValid` | index.js:55-57 | the filter pass returns exactly `Survivors` of the pool and changes nothing |
| `Display.RunEach` | index.js:58-60 | every element of the pool takes exactly one step of its behaviour with the given cursor, and nothing outside the pool changes |
| `Display.Display.constructor` | index.js:33-48 | a new display has an empty pool, its cursor at (0, 0) and the given canvas size |
| `Display.Display.MoveCursor` | index.js:39-42 | the cursor becomes the event's coordinates and the pool is unchanged |
| `Display.Display.AddElement` | index.js:50-52 | the element is appended at the end, and every earlier element stays in its place |
| `Display.Display.UpdateElements` | index.js:54-61 | the pool becomes exactly the elements that were valid at the start, in their order. Each of them takes exactly one step with the current cursor. The elements that were dropped are not changed |
| `Display.Display.DrawElements` | index.js:63-68 | the first call clears the whole canvas, then each element of the pool is drawn in pool order with its `DrawRect`, and nothing changes |
| `Cursr.Controller.constructor` | index.js:145-148 | the controller owns a new display with an empty pool, its cursor at the origin, and no spawn listeners |
| `Cursr.Controller.Resolve` | index.js:149-165 | the definition of the presets' default argument `reference = display.cursor`, read when the preset or listener runs; `Follow`, `Spring` and `MouseMove` state its consequences |
| `Cursr.Controller.Follow` | index.js:149-155 | a new element is made at the reference with the trail behaviour, appended to the pool and returned; with no reference it starts at the cursor as it is at the call |
| `Cursr.Controller.Spring` | index.js:157-163 | the same as follow: with no reference the new element starts at the cursor as it is at the call |
| `Cursr.Controller.Spawn` | index.js:165-179 | a spawn listener is registered at the end of the listener list, and the pool is untouched |
| `Cursr.Controller.MouseMove` | index.js:165-178 | the cursor becomes the event's point. Then each spawn listener, in order, appends one new element with the float-and-scale behaviour at that listener's reference. A listener with no reference spawns exactly at this event's point (x, y) |
| `Cursr.Controller.Tick` | index.js:181-188 | one loop turn updates the pool as `UpdateElements` does, then clears the canvas and draws the updated pool in order |

## Left out

- The DOM and canvas plumbing is left out: `cursorSet`, `canvasCreate`, `getContext`, `appendChild`, `clearRect`, `drawImage` and `preRender`/`Image`. These are browser APIs. An image is only its width and height, and drawing is the list of calls `DrawElements` returns.
- Event delivery is left out: `addEventListener` (index.js:39, 166) and the `requestAnimationFrame` loop (index.js:185). The model offers one pointer-move event (`MouseMove`) and one loop turn (`Tick`), to be called in any order.
- The `console.log` in `scale` (index.js:138-140) is left out. It changes no state.
- `createEffect` (index.js:102-116) is left out. Nothing calls it, and it ignores its parameters.
- The `async` on the spawn listener is left out. The listener has no `await`, so it runs to completion when the event fires.
- Floating point is left out: there are no bounds on how the trail spring converges or oscillates, and no bit-exact IEEE-754 results. Arithmetic is exact over the reals.
- Display.Display.AddElement: requires that the element is not already in the pool. Every preset adds an element it has just created. Adding the same element twice would run its behaviour twice per frame, and the model does not cover that.
- Cursr.Controller.MouseMove: an explicit `reference` is stored as a fixed point when `Spawn` registers the listener, so later changes to the reference object are not modelled. The source reads `reference.x` and `reference.y` from that object on every event (index.js:169-170). The likeliest such change comes from the engine itself: an element returned by `follow` or `spring` (index.js:154) can be passed as `spawn`'s reference, `trail` moves it every tick, and the source would spawn at its current position. The model spawns at the point it had when the listener was registered.
- An element's image size is fixed when the element is created. In the source each element gets its own `Image` (index.js:78), and `draw` reads its width and height on every call (index.js:90-93). Those read 0 until the image loads and the real size after. The model holds one size for the element's whole life.
- The `configs` object is modelled as the size of the image it names. Nothing in the core reads `configs` except `configs.img`.
