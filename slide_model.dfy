/**
 The value-level model of the slide-verification widget's drag-offset state machine.

 The widget keeps three numeric cells: the latest pan translation (`dragX`), the
 committed base offset (`offsetX`) and the latest gesture phase (`gestureState`).
 A clamp expression (`addX`) combines the first two into the handle position, a
 render expression (`transX`) draws that position and commits it while the gesture
 is not active, and a judge (`onDrop`) decides pass or fail on release and resets
 the cells on failure.

 Numbers are `real`: the widget only compares them and adds two of them.
 */
module SlideModel {

  /** Travel of the handle along the track, in layout units. */
  const MaxTravel: real := 270.0
  /** Horizontal offset at which the puzzle piece matches its hole. */
  const PuzzleMatchOffsetX: real := 85.0
  /** Half-width of the acceptance window around the match offset. */
  const Tolerance: real := 3.0

  /** Gesture phase held in `gestureState`. `Initial` is the mount and reset value -1;
      `Other` stands for every recognizer phase that is neither ACTIVE nor END
      (undetermined, began, failed, cancelled). */
  datatype Phase = Initial | Active | End | Other

  datatype Outcome = Pass | Fail

  datatype Option<T> = None | Some(value: T)

  /** The three mutable cells, as one value. */
  datatype Cells = Cells(dragX: real, offsetX: real, gestureState: Phase)

  /** The cells at mount, and again after a failed verification. */
  const Idle: Cells := Cells(0.0, 0.0, Initial)

  /** The clamp expression `addX`. The bounds test looks at the drag alone,
      not at the sum with the committed offset. */
  function AddX(offset: real, drag: real): (r: real)
    ensures drag < 0.0 ==> r == 0.0
    ensures MaxTravel < drag ==> r == MaxTravel
    ensures 0.0 <= drag <= MaxTravel ==> r == offset + drag
    ensures 0.0 <= offset ==> 0.0 <= r
    ensures offset == 0.0 ==> 0.0 <= r <= MaxTravel
  {
    if drag < 0.0 then 0.0
    else if drag > MaxTravel then MaxTravel
    else offset + drag
  }

  /** The pass-window test of `onDrop`: both bounds inclusive. */
  function Judge(x: real): (o: Outcome)
    ensures o == Pass <==> 82.0 <= x <= 88.0
  {
    if PuzzleMatchOffsetX - Tolerance <= x && x <= PuzzleMatchOffsetX + Tolerance then Pass else Fail
  }

  /** A pan event: `translationX` goes to `dragX`, `state` to `gestureState`. */
  function OnEvent(c: Cells, translationX: real, state: Phase): (r: Cells)
    ensures r.dragX == translationX && r.gestureState == state
    ensures r.offsetX == c.offsetX
  {
    c.(dragX := translationX, gestureState := state)
  }

  /** One evaluation of `transX`: the value drawn, and the cells afterwards.
      Both branches draw the position computed from the cells before the call;
      only the inactive branch writes it into `offsetX`. */
  function OnRender(c: Cells): (r: (real, Cells))
    ensures r.0 == AddX(c.offsetX, c.dragX)
    ensures c.gestureState == Active ==> r.1 == c
    ensures c.gestureState != Active ==> r.1.offsetX == r.0
    ensures r.1.dragX == c.dragX && r.1.gestureState == c.gestureState
  {
    var x := AddX(c.offsetX, c.dragX);
    if c.gestureState == Active then (x, c) else (x, c.(offsetX := x))
  }

  /** `onDrop(x)`: the outcome, and the cells afterwards. */
  function OnDrop(c: Cells, x: real): (r: (Outcome, Cells))
    ensures r.0 == Pass <==> 82.0 <= x <= 88.0
    ensures r.0 == Pass ==> r.1 == c
    ensures r.0 == Fail ==> r.1 == Idle && AddX(r.1.offsetX, r.1.dragX) == 0.0
  {
    var o := Judge(x);
    if o == Pass then (o, c) else (o, Idle)
  }

  /** The release watcher: while `gestureState` is END it calls the judge with `addX`;
      otherwise it does nothing. */
  function OnWatch(c: Cells): (r: (Option<Outcome>, Cells))
    ensures c.gestureState != End ==> r == (None, c)
    ensures c.gestureState == End ==>
      var x := AddX(c.offsetX, c.dragX);
      r.0 == Some(Judge(x)) && r.1 == OnDrop(c, x).1
  {
    if c.gestureState == End then
      var (o, c') := OnDrop(c, AddX(c.offsetX, c.dragX));
      (Some(o), c')
    else (None, c)
  }

  /** Reference definition: the closed-interval clamp of a value to the track. */
  function ClampToTrack(v: real): (r: real)
  {
    if v < 0.0 then 0.0 else if v > MaxTravel then MaxTravel else v
  }

  /** From a zero committed offset, `addX` is the clamp of the drag to the track. */
  lemma AddXAtRestIsClamp(drag: real)
    ensures AddX(0.0, drag) == ClampToTrack(drag)
  {
  }

  /** Outside [0, MaxTravel] the drag alone decides `addX`; the committed offset is ignored. */
  lemma AddXIgnoresOffsetOutsideRange(o1: real, o2: real, drag: real)
    requires drag < 0.0 || MaxTravel < drag
    ensures AddX(o1, drag) == AddX(o2, drag)
  {
  }

  /** `addX` is not the clamp of `offsetX + dragX`: with a committed offset it can leave
      the track, and a negative drag snaps to 0 even when the sum is positive. */
  lemma AddXIsNotClampOfSum()
    ensures AddX(85.0, 200.0) == 285.0 && ClampToTrack(85.0 + 200.0) == MaxTravel
    ensures AddX(10.0, -5.0) == 0.0 && ClampToTrack(10.0 - 5.0) == 5.0
  {
  }

  /** The window boundaries: 82 and 88 pass, 81.9 and 88.1 fail. */
  lemma JudgeWindowBoundaries()
    ensures Judge(82.0) == Pass && Judge(88.0) == Pass
    ensures Judge(81.9) == Fail && Judge(88.1) == Fail
  {
  }
}
