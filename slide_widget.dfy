/**
 The widget's three cells as an object whose methods update them in place, one
 method per piece of logic: the pan-event mapping, the `transX` render/commit
 expression, the `onDrop` judge and the release watcher that calls it.
 Each method's postcondition gives the new cells field by field and ties them to
 the value-level step in SlideModel, about which the lemmas are proved.
 */
module SlideWidget {
  import opened SlideModel

  class SlideVerifier {
    var dragX: real
    var offsetX: real
    var gestureState: Phase

    /** The cells as a value. */
    function Snapshot(): (c: Cells)
      reads this
    {
      Cells(dragX, offsetX, gestureState)
    }

    /** Every operation keeps the committed offset non-negative. */
    ghost predicate Valid()
      reads this
    {
      0.0 <= offsetX
    }

    /** Mounting: `dragX` and `offsetX` start at 0, `gestureState` at -1. */
    constructor ()
      ensures Valid()
      ensures dragX == 0.0 && offsetX == 0.0 && gestureState == Initial
      ensures Snapshot() == Idle
    {
      dragX, offsetX, gestureState := 0.0, 0.0, Initial;
    }

    /** A pan event copies its translation and its state into the cells. */
    method Sample(translationX: real, state: Phase)
      requires Valid()
      modifies this
      ensures Valid()
      ensures dragX == translationX && gestureState == state
      ensures offsetX == old(offsetX)
      ensures Snapshot() == OnEvent(old(Snapshot()), translationX, state)
    {
      dragX, gestureState := translationX, state;
    }

    /** Evaluates `transX`: the position drawn for the handle and the piece. While the
        gesture is ACTIVE nothing changes; otherwise the position is committed. */
    method Render() returns (transX: real)
      requires Valid()
      modifies this
      ensures Valid()
      ensures transX == AddX(old(offsetX), old(dragX))
      ensures old(gestureState) == Active ==> offsetX == old(offsetX)
      ensures old(gestureState) != Active ==> offsetX == transX
      ensures dragX == old(dragX) && gestureState == old(gestureState)
      ensures (transX, Snapshot()) == OnRender(old(Snapshot()))
    {
      var x := AddX(offsetX, dragX);
      if gestureState != Active {
        offsetX := x;
      }
      transX := x;
    }

    /** `onDrop(x)`: passes iff x lies in [82, 88]; a failure resets all three cells. */
    method Drop(x: real) returns (o: Outcome)
      requires Valid()
      modifies this
      ensures Valid()
      ensures o == Pass <==> 82.0 <= x <= 88.0
      ensures o == Pass ==> dragX == old(dragX) && offsetX == old(offsetX) && gestureState == old(gestureState)
      ensures o == Fail ==> dragX == 0.0 && offsetX == 0.0 && gestureState == Initial
      ensures (o, Snapshot()) == OnDrop(old(Snapshot()), x)
    {
      o := Judge(x);
      if o == Fail {
        dragX := 0.0;
        offsetX := 0.0;
        gestureState := Initial;
      }
    }

    /** The release watcher: whenever `gestureState` is END it hands the current
        `addX` to the judge. It keeps no record of having fired before. */
    method WatchRelease() returns (judged: Option<Outcome>)
      requires Valid()
      modifies this
      ensures Valid()
      ensures old(gestureState) != End ==> judged == None && Snapshot() == old(Snapshot())
      ensures old(gestureState) == End ==>
        judged == Some(Judge(AddX(old(offsetX), old(dragX))))
      ensures (judged, Snapshot()) == OnWatch(old(Snapshot()))
    {
      if gestureState == End {
        var o := Drop(AddX(offsetX, dragX));
        judged := Some(o);
      } else {
        judged := None;
      }
    }
  }

  /** A client: a drag to 85 released with the watcher running before the render
      passes and commits 85; the phase is still END, so the next watcher pass judges
      85 + 85 and resets the cells. */
  method ReleaseAtTarget()
  {
    var w := new SlideVerifier();
    w.Sample(10.0, Active);
    var t := w.Render();
    assert t == 10.0;
    w.Sample(85.0, Active);
    t := w.Render();
    assert t == 85.0 && w.offsetX == 0.0;
    w.Sample(85.0, End);
    var judged := w.WatchRelease();
    assert judged == Some(Pass);
    t := w.Render();
    assert t == 85.0 && w.offsetX == 85.0;
    judged := w.WatchRelease();
    assert judged == Some(Fail) && w.Snapshot() == Idle;
  }
}
