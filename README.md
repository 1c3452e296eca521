# wasmrain: a verified model of the rain simulation core

wasmrain animates rain falling on a landscape of rectangular blocks in a
browser canvas. The user types a landscape (heights separated by spaces or
commas) and a rain duration in hours. A click on the start button parses the
landscape. If a token does not parse, the page shows an alert and nothing
else happens. Otherwise the click creates a `World`, which draws the land
under a cloudy sky (a clear one when there is no rain). Then, once per
animation frame, it turns the milliseconds since the previous frame into
rain-hours (one real second is one simulated hour). It asks the
water-levelling solver for the new water surface and charges the hours to
its rain budget. It redraws the water and asks for another frame. When the
budget is used up, it repaints the sky clear and restores the start button.

This project models that core in Dafny:

- `landscape_input.dfy` (module `LandscapeInput`): splitting the landscape text on every space and comma, parsing each token, and the error message for the first bad token.
- `render.dfy` (module `Render`): the block size, the four colours, and what `draw_land_sky` and `draw_water` paint, as lists of rectangle fills `FillRect(color, x, y, width, height)`.
- `world.dfy` (module `Simulation`):
  - the frame-step state machine, both as the class `World`, whose `Step` updates its fields in place, and as the transition function `Next` on `WorldState` values that `Step` is proved against;
  - the canvas geometry fixed at creation;
  - whole runs over a sequence of frame timestamps (`RunFrames`);
  - the start-button click handler `SimulateWorld`.
- `wrappers.dfy` (module `Wrappers`): `Option` and `Result`.

The side effects become data:

- The canvas becomes the returned list of fills.
- `request_animation_frame` becomes the returned `Outcome` (`Continue` or `Finished`). `Finished` also stands for the `finish_simulation` call, which restores the start button to `IdleButton`; only `SimulateWorld`'s immediate finish applies that restore itself.
- The solver `snapwater::solve_landscape` becomes a function parameter. `Step` requires only that it preserves length. The water-above-land lemmas also require that it never lowers a segment over a non-negative time.
- `f64::from_str` becomes a parameter `string -> Result<real, string>`. Its error value is the text of the cause.
- `f64` becomes `real`.

Behaviour worth knowing, as the code has it:

- The first frame is a warm-up that advances nothing, so one hour of rain needs two frames, `t0` and `t0 + 1000` (`OneHourOfRain`).
- The height fold starts at 0, so an all-negative landscape counts as height 0 when the canvas is sized (`MaxHeight`).
- The world does not check that water stays on or above the land. It stays there when the solver never lowers a segment and frames arrive in time order (`RunKeepsWaterAboveLand`).
- The last step is not clamped to the remaining budget. The solver may be handed more hours than remain, and the budget may end below 0.

## Model

| member | source | states |
|---|---|---|
| `LandscapeInput.Split` | src/lib.rs:61-62 | the text splits into one more token than it has spaces and commas, and no token contains a space or comma |
| `LandscapeInput.JoinSplit` | src/lib.rs:61-62 | splitting loses nothing: the tokens joined back with the delimiters, in order, give the original text |
| `LandscapeInput.SplitUnique` | src/lib.rs:61-62 | any cut of the text into delimiter-free tokens separated by single spaces/commas is exactly the split (empty tokens between adjacent delimiters included) |
| `LandscapeInput.ParseTokensOk` | src/lib.rs:61-68 | a landscape results exactly when every token parses, and it holds each token's number in order, one per token |
| `LandscapeInput.ParseTokensFirstFailure` | src/lib.rs:61-72 | when some token fails, the error is `Cannot parse '<token>' as number: <cause>` for the first failing token |
| `LandscapeInput.ParseTokens` | src/lib.rs:63-66 | when the tokens parse, there is exactly one height per token |
| `LandscapeInput.ParseLandscape` | src/lib.rs:61-66 | the text is split on every space and comma and each token parsed in order; a landscape results exactly when every token parses, and it has one height more than the text has spaces and commas |
| `LandscapeInput.EmptyInputIsOneEmptyToken` | src/lib.rs:61-66 | an empty field is one empty token, handed to the number parser like any other |
| `LandscapeInput.MalformedPairNamesFirstToken` | src/lib.rs:61-72 | the text `a,b` is refused with the message for its first token `a` |
| `Render.LandSkyLayout` | src/lib.rs:149-167 | one full-canvas backdrop fill (cloud colour exactly while rain remains, sky colour otherwise), then one land column per segment: adjacent from x = 0, one block wide, bottom-aligned, `landscape[i]` blocks tall |
| `Render.WetSegments` | src/lib.rs:172-176 | the wet segments are listed in increasing order, and a segment is listed exactly when its water stands above its land |
| `Render.WaterFollowsWetSegments` | src/lib.rs:170-187 | `draw_water` issues exactly one water column per wet segment, in segment order, and nothing for a dry segment |
| `Render.WaterRestsOnLand` | src/lib.rs:157-185 | a water column has the x and width of its segment's land column, its bottom edge on the land's top edge, and a positive height of `(surface - land)` blocks |
| `Simulation.MaxHeight` | src/lib.rs:116 | the fold of `max` from 0 is at least 0, at least every height, and is 0 or one of the heights |
| `Simulation.Ceil` | src/lib.rs:117 | the ceiling is the least whole number at or above its argument |
| `Simulation.CanvasHeight` | src/lib.rs:115-117 | the canvas height is a whole number of blocks, and the least such height that holds the tallest segment plus the whole rain budget |
| `Simulation.LandFitsCanvas` | src/lib.rs:115-166 | with a non-negative rain budget every land column lies within the canvas width, its top edge is at or below the canvas top and its bottom edge is the canvas bottom; a column of non-negative height lies wholly inside the canvas |
| `Simulation.Next` | src/lib.rs:205-216 | a step records its timestamp; the first step leaves the budget alone; a step lowers the budget or leaves it unchanged exactly when time has not run backwards |
| `Simulation.RunFrames` | src/lib.rs:190-226 | a world whose budget is spent takes no frame and stays as it is; while rain remains, a non-empty run consumes at least one frame; the last timestamp seen afterwards is the one from before the run or one of the delivered frames |
| `Simulation.FirstStepIsWarmUp` | src/lib.rs:205-216 | the first frame passes 0 rain-hours to the solver, leaves the budget unchanged and records the timestamp |
| `Simulation.StepChargesElapsedSeconds` | src/lib.rs:205-216 | a later step charges exactly `(timestamp - previous) / 1000` hours, records the timestamp, and does not raise the budget when time has not run backwards |
| `Simulation.StepKeepsWaterAboveLand` | src/lib.rs:213-215 | with a length-preserving, never-lowering solver, a step keeps one water height per segment, each at or above its land |
| `Simulation.FrameDrawing` | src/lib.rs:218-223 | the step that ends the rain first fills the whole canvas with clear sky, then repaints each segment's land column in order, then draws the water; every other step draws only water |
| `Simulation.RunBudgetNeverRises` | src/lib.rs:190-226 | over any run whose frames arrive in time order the rain budget never goes up |
| `Simulation.RunKeepsWaterAboveLand` | src/lib.rs:190-226 | over any run whose frames arrive in time order, with a never-lowering solver, water never sinks below the land |
| `Simulation.RunChargesWholeSpan` | src/lib.rs:204-216 | a run charges the budget exactly the seconds between the frame seen before it and the last frame it consumed |
| `Simulation.RunConsumesFramesWhileRaining` | src/lib.rs:190-200 | while rain remains, the world consumes every frame delivered to it |
| `Simulation.RunFinishesAfterRainDuration` | src/lib.rs:190-226 | once frames spanning the rain duration have arrived (last minus first at least `rainHours` seconds), the budget is spent |
| `Simulation.DryWorldNeverSteps` | src/lib.rs:190-195 | a world created with rain `<= 0` finishes at once and no frame changes it |
| `Simulation.OneHourOfRain` | src/lib.rs:204-225 | one hour of rain on `[1, 1]` is a warm-up frame then one frame a second later that spends the budget exactly and finishes |
| `Simulation.World.constructor` | src/lib.rs:113-143 | the canvas is `len * 30` wide and `CanvasHeight` tall; the surface is a copy of the landscape; the whole budget remains; no timestamp has been seen |
| `Simulation.World.New` | src/lib.rs:113-146 | creating a world also draws its land under the backdrop for its budget |
| `Simulation.World.DrawLandSky` | src/lib.rs:149-167 | the loop issues exactly the fills laid out by `Render.LandSkyLayout` |
| `Simulation.World.DrawWater` | src/lib.rs:170-187 | the loop over landscape zipped with surface issues exactly the fills characterised by `Render.WaterFollowsWetSegments` |
| `Simulation.World.ScheduleNextOrFinish` | src/lib.rs:190-201 | the world finishes exactly when the budget is `<= 0`, and otherwise asks for another frame |
| `Simulation.World.Step` | src/lib.rs:204-226 | the new state is `Next` of the old one (see the step and run lemmas); the surface stays one height per segment; the drawing is `FrameDrawing`'s; the outcome is finish exactly when the budget is `<= 0` |
| `Simulation.SimulateWorld` | src/lib.rs:58-83 | a bad token shows its message, creates no world and leaves the button alone; otherwise the button shows running, a world is created from the parsed heights with the canvas sized from them and the rain, and drawn, and a world with no rain finishes at once and restores the button |

## Left out

- Page plumbing is not modelled because it is host glue. This covers the DOM lookups of input and button elements, event-listener registration, the `alert` display, logging and the panic hook.
- The canvas element is not modelled because these are foreign web-sys calls. This covers its lookup, its resizing (including the `as u32` casts of width and height) and acquiring its 2D context. The canvas is replaced by the list of fills each operation returns. Each `set_fill_style` call is folded into the colour of the fills that follow it.
- `request_animation_frame` and the hand-over of the world into the frame closure are host scheduling. They are replaced by the `Outcome` a step returns. `RunFrames` stands for the host delivering a sequence of frames.
- The internals of `snapwater::solve_landscape` are an external crate that is not part of this model. It is a parameter, assumed to preserve length and, for the water-above-land lemmas only, never to lower a segment over a non-negative time.
- `f64::from_str` and the rain field's `value_as_number` are foreign. They are a parser parameter and a number parameter.
- IEEE-754 behaviour cannot be expressed with `real`, so the model ignores it:
  - rounding is not modelled;
  - a NaN rain duration makes `<= 0.0` false forever, so the real loop never ends, which the model cannot show;
  - `f64::max` skipping NaN in the height fold is not modelled;
  - NaN and infinite heights are not handled.
- The raster itself is not modelled, only the fills issued. So the property that drawing the water twice looks the same as drawing it once is not stated.
- The start button's caption before the first run comes from the page markup, which is not part of this model. `SimulateWorld` therefore takes the button as a parameter and leaves it unchanged when the landscape does not parse. `IdleButton` is only the state that `finish_simulation` writes.
