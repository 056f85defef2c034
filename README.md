# Slide verification widget: drag-offset state machine

This project models the logic of a slide-to-verify widget from a React Native demo. The user
drags a handle along a 270-unit track, and a puzzle piece follows it. When the handle is
released, the widget checks whether the piece landed within 3 units of offset 85.

The logic works on three mutable cells:

- `dragX` holds the latest pan translation.
- `offsetX` holds the committed base offset.
- `gestureState` holds the latest gesture phase. It starts at -1.

Four pieces of logic read or update these cells:

- the pan-event mapping;
- the clamp expression `addX`;
- the render/commit expression `transX`;
- the release judge `onDrop`, which a watcher calls whenever the phase is END.

The model has three modules:

- `SlideModel` (`slide_model.dfy`) is the value-level model. It holds the cells as one
  `Cells` value, the phase as a datatype (`Initial` for -1, `Active`, `End`, `Other`), the
  constants, `AddX` and `Judge`, one step function per operation, and lemmas about the clamp
  and the window.
- `SlideWidget` (`slide_widget.dfy`) is the widget itself: class `SlideVerifier`, with the
  three cells as fields and one method per operation. Each method updates the fields in
  place. Its postcondition gives the new fields one by one and equates the new state with
  the matching `SlideModel` step.
- `SlideTraces` (`slide_traces.dfy`) covers sequences of operations in whatever order the
  runtime schedules them. It proves by induction that the committed offset stays
  non-negative, that ACTIVE events never move it, that the END check is level-triggered,
  and that repeated commits accumulate. It also works through the release scenarios.

Numbers are modelled as `real`: the logic only compares numbers and adds two of them.

### Where the code behaves unexpectedly

The model follows the code in three places where a reader might expect otherwise:

- The clamp tests `dragX` alone, not `offsetX + dragX`. Once an offset has been committed,
  the position can go past 270 (`PositionCanPassTrackEnd`). A negative drag snaps to 0 even
  when the sum would be positive (`AddXIsNotClampOfSum`).
- The release check is level-triggered, not once per release. Every watcher pass at END
  calls the judge (`EndFramesJudgeEachTime`, `HeldPassIsJudgedEveryPass`).
- A cancelled gesture gets no special handling. It is a non-ACTIVE phase, so it commits the
  position and is never judged (`CancelledReleaseCommitsUnjudged`).

The code does not fix the order in which the runtime evaluates `transX` and the watcher.
If a commit is evaluated before the watcher's next read of `addX`, then from a zero offset
the judge sees twice the drag (`CommitBeforeJudgeDoublesPosition`,
`ReleaseAtTargetDependsOnOrder`). Even when the watcher reads first, a pass does not last. A pass resets nothing, so the
phase stays END. The next `transX` then commits the position, and the next watcher pass
judges twice it and fails (`PassIsUndoneByNextCommit`).

## Model

| member | source | states |
|---|---|---|
| `SlideModel.AddX` | SlideVerify/index.js:43-47 | a negative drag gives 0 and a drag above 270 gives 270, whatever the offset; a drag in [0, 270] gives offset + drag; the result is never negative when the offset is not, and lies in [0, 270] when the offset is 0 |
| `SlideModel.Judge` | SlideVerify/index.js:52-55 | pass exactly when the position lies in [82, 88], both ends inclusive |
| `SlideModel.OnEvent` | SlideVerify/index.js:65-72 | a pan event sets `dragX` to the translation and `gestureState` to the state, and leaves `offsetX` alone |
| `SlideModel.OnRender` | SlideVerify/index.js:48-48 | `transX` draws the clamp of the pre-call cells in both branches; while ACTIVE the cells are unchanged; otherwise `offsetX` becomes exactly the drawn value; `dragX` and the phase never change |
| `SlideModel.OnDrop` | SlideVerify/index.js:50-63 | pass exactly in [82, 88], in which case no cell changes; a fail resets the cells to 0, 0, -1, after which the clamp evaluates to 0 |
| `SlideModel.OnWatch` | SlideVerify/index.js:77-77 | outside END nothing happens and the judge is not called; at END the judge is called with the current clamp value, and the cells follow the judge |
| `SlideModel.AddXAtRestIsClamp` | SlideVerify/index.js:43-47 | from a zero committed offset, the clamp equals the closed-interval clamp of the drag to [0, 270] |
| `SlideModel.AddXIgnoresOffsetOutsideRange` | SlideVerify/index.js:44-46 | for a drag outside [0, 270], the committed offset has no effect on the clamp |
| `SlideModel.AddXIsNotClampOfSum` | SlideVerify/index.js:43-47 | the clamp is not the clamp of offset + drag: offset 85 with drag 200 gives 285; offset 10 with drag -5 gives 0 |
| `SlideModel.JudgeWindowBoundaries` | SlideVerify/index.js:35-55 | 82 and 88 pass; 81.9 and 88.1 fail |
| `SlideWidget.SlideVerifier.constructor` | SlideVerify/index.js:39-41 | the cells start at 0, 0, -1 (the same value a failed judgement restores) |
| `SlideWidget.SlideVerifier.Sample` | SlideVerify/index.js:65-72 | copies the translation into `dragX` and the state into `gestureState`; `offsetX` is unchanged |
| `SlideWidget.SlideVerifier.Render` | SlideVerify/index.js:48-48 | returns the clamp of the old cells; while ACTIVE, `offsetX` is unchanged; otherwise `offsetX` becomes the returned value; the other cells are unchanged; keeps `offsetX` non-negative |
| `SlideWidget.SlideVerifier.Drop` | SlideVerify/index.js:50-63 | passes exactly in [82, 88] and then changes nothing; on a fail, sets all three cells to 0, 0, -1 |
| `SlideWidget.SlideVerifier.WatchRelease` | SlideVerify/index.js:77-77 | at END, calls the judge with the clamp value of the old cells; otherwise returns no outcome and changes nothing |
| `SlideTraces.Run` | SlideVerify/index.js:48-77 | over any trace of events, renders and watcher passes, the judge produces at most one outcome per watcher pass |
| `SlideTraces.RunAppend` | SlideVerify/index.js:48-77 | running two traces one after the other is the same as running their concatenation, for both the cells and the outcomes |
| `SlideTraces.RunKeepsOffsetNonNegative` | SlideVerify/index.js:40-61 | from a non-negative committed offset, no trace can make `offsetX` negative |
| `SlideTraces.ActiveRunKeepsOffset` | SlideVerify/index.js:48-48 | while every event reports ACTIVE, `offsetX` stays fixed and the judge never runs, for any mix of renders and watcher passes |
| `SlideTraces.EndFramesJudgeEachTime` | SlideVerify/index.js:77-77 | n frames that each deliver END and then run the watcher call the judge exactly n times, from any cells: nothing guards against repeats |
| `SlideTraces.HeldPassIsJudgedEveryPass` | SlideVerify/index.js:52-56 | a passing release stays at END, so each of n later watcher passes judges Pass again, and the cells do not change, as long as `transX` is not evaluated in between |
| `SlideTraces.RendersAccumulateDrag` | SlideVerify/index.js:48-48 | n evaluations of `transX` while not ACTIVE, with a drag in [0, 270], leave offset + n·drag, so the commit is not idempotent |
| `SlideTraces.CancelledReleaseCommitsUnjudged` | SlideVerify/index.js:48-48 | a non-ACTIVE, non-END release (such as a cancel), whatever its translation, commits the clamp value and is never judged |
| `SlideTraces.CommitBeforeJudgeDoublesPosition` | SlideVerify/index.js:48-77 | from a zero offset at END, the judge sees the drag when the watcher runs before `transX`, and twice the drag when `transX` commits first |
| `SlideTraces.PassIsUndoneByNextCommit` | SlideVerify/index.js:48-77 | a pass resets nothing and leaves the phase at END, so from a zero offset and a drag in [82, 88] the next `transX` commits the drag, the next watcher pass judges twice it, fails, and resets the cells to 0, 0, -1 |
| `SlideTraces.ReleaseAtTargetDependsOnOrder` | SlideVerify/index.js:39-77 | a drag to 85 passes when the watcher reads first, and is committed at 85 until the next `transX` evaluation, after which the next watcher pass fails and resets the cells; it fails and resets to 0, 0, -1 when `transX` commits first |
| `SlideTraces.FarReleaseFailsAndResets` | SlideVerify/index.js:39-77 | a drag to 200 released with the watcher running first fails, and the cells end back at 0, 0, -1 |
| `SlideTraces.PositionCanPassTrackEnd` | SlideVerify/index.js:43-48 | after a pass commits 85, a second drag of 200 puts the handle at 285, beyond the 270 track |

## Left out

- App.js only mounts the widget inside a safe-area view. It has no logic.
- The JSX layout, the modal, the margins computed from the screen size, the images and the
  styles (SlideVerify/index.js:74-197) are left out. They only render.
- The animation runtime's scheduling is left out: when it re-evaluates `transX` and the
  watcher each frame. The native gesture recognizer is left out too. Both are foreign
  libraries. In their place, the caller (or a `SlideTraces.Op` trace) invokes `Sample`,
  `Render` and `WatchRelease` explicitly, in any order.
- The hand-off from the watcher to the judge is merged into one step. In the code,
  `call([addX], onDrop)` (SlideVerify/index.js:77) passes the value to the JavaScript-side
  `onDrop`, and its `setValue` reset (SlideVerify/index.js:59-61) lands later.
  `SlideModel.OnWatch` and `SlideVerifier.WatchRelease` read `addX`, judge it and apply
  the reset as one atomic step, so the model does not capture evaluations that fall between
  the read and the reset.
- The numeric codes of the recognizer's states come from a library that is not part of
  this model. `Phase.Other` stands for every state other than ACTIVE and END, CANCELLED
  included. `Phase.Initial` stands for -1.
- The console messages on pass and fail (SlideVerify/index.js:56, 58) are replaced by the
  returned `Outcome`.
- IEEE-754 behaviour of JavaScript numbers (rounding, NaN, infinities) is not modelled:
  numbers are `real`.
- `SlideTraces.Run`: its contract bounds the number of judge outcomes by the number of
  watcher passes, not by the number of passes made at END. The END-only condition is
  stated per step, in `SlideModel.OnWatch`.
