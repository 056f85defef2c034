/**
 Sequences of the widget's operations, as the animation runtime and the gesture
 recognizer would drive them: pan events, evaluations of `transX`, and passes of
 the release watcher. The code does not fix the order in which the runtime
 evaluates `transX` and the watcher, so a trace lists every evaluation as a step
 of its own, and any interleaving can be written down.
 */
module SlideTraces {
  import opened SlideModel

  datatype Op = Event(translationX: real, state: Phase) | Render | Watch

  /** The cells at the end of a trace, and every outcome the judge produced, in order. */
  datatype Trace = Trace(final: Cells, judged: seq<Outcome>)

  /** One operation: the judge's outcome, if it ran, and the cells afterwards. */
  function Apply(c: Cells, op: Op): (r: (Option<Outcome>, Cells))
  {
    match op
    case Event(tx, st) => (None, OnEvent(c, tx, st))
    case Render => (None, OnRender(c).1)
    case Watch => OnWatch(c)
  }

  /** The number of watcher passes in a trace. */
  function Watches(ops: seq<Op>): (n: nat)
  {
    if ops == [] then 0 else (if ops[0] == Watch then 1 else 0) + Watches(ops[1..])
  }

  /** Runs a trace from the given cells. The judge runs at most once per watcher pass. */
  function Run(c: Cells, ops: seq<Op>): (t: Trace)
    ensures |t.judged| <= Watches(ops)
    decreases |ops|
  {
    if ops == [] then Trace(c, [])
    else
      var (j, c1) := Apply(c, ops[0]);
      var rest := Run(c1, ops[1..]);
      Trace(rest.final, (if j.Some? then [j.value] else []) + rest.judged)
  }

  /** Running two traces one after the other is running their concatenation. */
  lemma {:induction false} RunAppend(c: Cells, ops1: seq<Op>, ops2: seq<Op>)
    ensures Run(c, ops1 + ops2).final == Run(Run(c, ops1).final, ops2).final
    ensures Run(c, ops1 + ops2).judged == Run(c, ops1).judged + Run(Run(c, ops1).final, ops2).judged
    decreases |ops1|
  {
    if ops1 == [] {
      assert ops1 + ops2 == ops2;
    } else {
      assert (ops1 + ops2)[1..] == ops1[1..] + ops2;
      RunAppend(Apply(c, ops1[0]).1, ops1[1..], ops2);
    }
  }

  /** The committed offset never becomes negative, whatever the events. */
  lemma {:induction false} RunKeepsOffsetNonNegative(c: Cells, ops: seq<Op>)
    requires 0.0 <= c.offsetX
    ensures 0.0 <= Run(c, ops).final.offsetX
    decreases |ops|
  {
    if ops != [] {
      RunKeepsOffsetNonNegative(Apply(c, ops[0]).1, ops[1..]);
    }
  }

  /** While every event reports ACTIVE, the committed offset stays put and the judge never runs. */
  lemma {:induction false} ActiveRunKeepsOffset(c: Cells, ops: seq<Op>)
    requires c.gestureState == Active
    requires forall op :: op in ops && op.Event? ==> op.state == Active
    ensures Run(c, ops).final.offsetX == c.offsetX
    ensures Run(c, ops).final.gestureState == Active
    ensures Run(c, ops).judged == []
    decreases |ops|
  {
    if ops != [] {
      assert ops[0] in ops;
      forall op | op in ops[1..] ensures op in ops {
        var i :| 0 <= i < |ops[1..]| && ops[1..][i] == op;
        assert ops[i + 1] == op;
      }
      ActiveRunKeepsOffset(Apply(c, ops[0]).1, ops[1..]);
    }
  }

  /** `n` frames, each delivering an END event and then running the watcher. */
  function EndFrames(translationX: real, n: nat): (ops: seq<Op>)
    ensures |ops| == 2 * n && Watches(ops) == n
  {
    if n == 0 then [] else [Event(translationX, End), Watch] + EndFrames(translationX, n - 1)
  }

  /** The END check is level-triggered: `n` END frames call the judge `n` times,
      whatever happened to the cells in between. */
  lemma {:induction false} EndFramesJudgeEachTime(c: Cells, translationX: real, n: nat)
    ensures |Run(c, EndFrames(translationX, n)).judged| == n
    decreases n
  {
    if n > 0 {
      var ops := EndFrames(translationX, n);
      var c1 := OnEvent(c, translationX, End);
      var c2 := OnWatch(c1).1;
      assert ops[1..][1..] == EndFrames(translationX, n - 1);
      EndFramesJudgeEachTime(c2, translationX, n - 1);
    }
  }

  /** `n` watcher passes with no event in between. */
  function Watching(n: nat): (ops: seq<Op>)
    ensures |ops| == n && Watches(ops) == n
  {
    if n == 0 then [] else [Watch] + Watching(n - 1)
  }

  /** A release that passes stays at END, so every later watcher pass judges it again. */
  lemma {:induction false} HeldPassIsJudgedEveryPass(c: Cells, n: nat)
    requires c.gestureState == End && Judge(AddX(c.offsetX, c.dragX)) == Pass
    ensures Run(c, Watching(n)).final == c
    ensures Run(c, Watching(n)).judged == seq(n, _ => Pass)
    decreases n
  {
    if n > 0 {
      assert Watching(n)[1..] == Watching(n - 1);
      HeldPassIsJudgedEveryPass(c, n - 1);
    }
  }

  /** `n` evaluations of `transX` with no event in between. */
  function Renders(n: nat): (ops: seq<Op>)
    ensures |ops| == n && Watches(ops) == 0
  {
    if n == 0 then [] else [Render] + Renders(n - 1)
  }

  /** The commit is not idempotent: while not ACTIVE with a drag in [0, MaxTravel],
      each evaluation of `transX` adds the drag to the committed offset again. */
  lemma {:induction false} RendersAccumulateDrag(c: Cells, n: nat)
    requires c.gestureState != Active && 0.0 <= c.dragX <= MaxTravel
    ensures Run(c, Renders(n)).final == c.(offsetX := c.offsetX + (n as real) * c.dragX)
    decreases n
  {
    if n > 0 {
      var c1 := OnRender(c).1;
      assert Renders(n)[1..] == Renders(n - 1);
      RendersAccumulateDrag(c1, n - 1);
    }
  }

  /** The ACTIVE test is the only one: a cancelled (or any other non-ACTIVE, non-END)
      release commits the position and is never judged. */
  lemma CancelledReleaseCommitsUnjudged(c: Cells, translationX: real)
    ensures Run(c, [Event(translationX, Other), Render, Watch]).judged == []
    ensures Run(c, [Event(translationX, Other), Render, Watch]).final.offsetX == AddX(c.offsetX, translationX)
  {
    var ops := [Event(translationX, Other), Render, Watch];
    var c1 := OnEvent(c, translationX, Other);
    var c2 := OnRender(c1).1;
    assert ops[1..][1..] == [Watch];
    assert Run(c2, [Watch]) == Trace(c2, []);
    assert Run(c1, ops[1..]) == Trace(c2, []);
  }

  /** The outcome depends on whether an evaluation of `transX` commits before the watcher's
      next read of `addX`: from a zero offset, a commit first hands the judge twice the drag. */
  lemma CommitBeforeJudgeDoublesPosition(drag: real)
    requires 0.0 <= drag <= MaxTravel
    ensures Run(Cells(drag, 0.0, End), [Watch, Render]).judged == [Judge(drag)]
    ensures Run(Cells(drag, 0.0, End), [Render, Watch]).judged == [Judge(2.0 * drag)]
  {
  }

  /** A pass resets nothing, so the phase stays END: the next evaluation of `transX` commits
      the position and the next watcher pass judges twice it, fails and resets the cells. */
  lemma PassIsUndoneByNextCommit(drag: real)
    requires 82.0 <= drag <= 88.0
    ensures Run(Cells(drag, 0.0, End), [Watch, Render, Watch]).judged == [Pass, Fail]
    ensures Run(Cells(drag, 0.0, End), [Watch, Render, Watch]).final == Idle
  {
  }

  /** The drag to 85 passes when the watcher reads first, and fails when `transX` commits
      first. The pass leaves 85 committed only until the next watcher pass, which fails. */
  lemma ReleaseAtTargetDependsOnOrder()
    ensures Run(Idle, [Event(85.0, Active), Render, Event(85.0, End), Watch, Render]).judged == [Pass]
    ensures Run(Idle, [Event(85.0, Active), Render, Event(85.0, End), Watch, Render]).final.offsetX == 85.0
    ensures Run(Idle, [Event(85.0, Active), Render, Event(85.0, End), Watch, Render, Watch]).judged == [Pass, Fail]
    ensures Run(Idle, [Event(85.0, Active), Render, Event(85.0, End), Watch, Render, Watch]).final == Idle
    ensures Run(Idle, [Event(85.0, Active), Render, Event(85.0, End), Render, Watch]).judged == [Fail]
    ensures Run(Idle, [Event(85.0, Active), Render, Event(85.0, End), Render, Watch]).final == Idle
  {
  }

  /** A drag to 200 fails when the watcher runs first, and the cells end where they started. */
  lemma FarReleaseFailsAndResets()
    ensures Run(Idle, [Event(200.0, Active), Render, Event(200.0, End), Watch, Render]).judged == [Fail]
    ensures Run(Idle, [Event(200.0, Active), Render, Event(200.0, End), Watch, Render]).final == Idle
  {
  }

  /** The track bound is not kept: after a pass, a second drag takes the handle past MaxTravel. */
  lemma PositionCanPassTrackEnd()
    ensures var c := Run(Idle, [Event(85.0, Active), Event(85.0, End), Watch, Render, Event(200.0, Active)]).final;
      AddX(c.offsetX, c.dragX) == 285.0 && MaxTravel < 285.0
  {
  }
}
