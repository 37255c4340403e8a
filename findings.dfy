/** MergeMove's time selection as written, over times that may be +infinity.
    MergeRotate and MergeScale of two empty tracks add their one keyframe at
    `time = double.PositiveInfinity`, and a group hands that track down to
    its children. In a child's MergeMove a pending end at +infinity is then
    never reached once `previousTime` is finite: `Math.Min(previousTime +
    KEYFRAME_TIMESTEP, time)` is always finite, CheckNextKeyframe never sees
    `time == end.Time`, and the do-while loop never ends. The rest of the
    model uses the corrected merges of module Merge, where a merge of empty
    tracks is empty and every output time is an input time. */
module Findings {
  import opened Options
  import opened Keyframes
  import opened Cursors
  import opened Formulas
  import opened Merge

  /** A double time that is finite or +infinity (NaN is the separate
      "no previous time" of the loop, written None). */
  datatype ExtTime = At(t: real) | Infinity

  /** `a < b` on extended times. */
  predicate Before(a: ExtTime, b: ExtTime) {
    a.At? && (b.Infinity? || a.t < b.t)
  }

  /** `previousTime + KEYFRAME_TIMESTEP`. */
  function Plus(a: ExtTime, d: real): (r: ExtTime)
    ensures r.Infinity? <==> a.Infinity?
  {
    if a.At? then At(a.t + d) else Infinity
  }

  /** Math.Min on extended times. */
  function MinExt(a: ExtTime, b: ExtTime): (r: ExtTime)
    ensures r == a || r == b
    ensures !Before(a, r) && !Before(b, r)
  {
    if Before(b, a) then b else a
  }

  /** The `if (check && end.Time < time) time = end.Time` chain from
      `time = +infinity`; a cursor is its pending end, or None once its
      check is false. */
  function WrittenEarliest(ends: seq<Option<ExtTime>>): (r: ExtTime)
    ensures forall i :: 0 <= i < |ends| && ends[i].Some? ==> !Before(ends[i].value, r)
    ensures r.At? ==> exists i :: 0 <= i < |ends| && ends[i] == Some(r)
  {
    if |ends| == 0 then Infinity
    else
      var time := WrittenEarliest(ends[..|ends| - 1]);
      var end := ends[|ends| - 1];
      if end.Some? && Before(end.value, time) then end.value else time
  }

  /** The time of one pass of MergeMove's loop as written: the earliest
      pending end, capped at `previousTime + KEYFRAME_TIMESTEP` unless
      `previousTime` is NaN. */
  function WrittenTime(ends: seq<Option<ExtTime>>, previous: Option<ExtTime>): ExtTime {
    var time := WrittenEarliest(ends);
    if previous.Some? then MinExt(Plus(previous.value, KeyframeTimestep), time) else time
  }

  /** CheckNextKeyframe on inputs of one keyframe each: an input whose end
      the time has reached is finished; the others are left alone. */
  function Consume(ends: seq<Option<ExtTime>>, time: ExtTime): (r: seq<Option<ExtTime>>)
    ensures |r| == |ends|
    ensures forall i :: 0 <= i < |ends| ==> r[i] == if ends[i] == Some(time) then None else ends[i]
  {
    seq(|ends|, i requires 0 <= i < |ends| => if ends[i] == Some(time) then None else ends[i])
  }

  /** The loop state of MergeMove as written over one-keyframe inputs. */
  datatype WrittenState = WrittenState(ends: seq<Option<ExtTime>>, previous: Option<ExtTime>)

  /** `moveCheck || parentMoveCheck || parentRotateCheck || parentScaleCheck`. */
  predicate Pending(s: WrittenState) {
    exists i :: 0 <= i < |s.ends| && s.ends[i].Some?
  }

  /** One pass of the do-while loop: pick the time, remember it as
      `previousTime`, advance the cursors it reaches. */
  function WrittenStep(s: WrittenState): WrittenState {
    var time := WrittenTime(s.ends, s.previous);
    WrittenState(Consume(s.ends, time), Some(time))
  }

  /** The state after `n` passes. */
  function WrittenRun(s: WrittenState, n: nat): WrittenState
    decreases n
  {
    if n == 0 then s else WrittenRun(WrittenStep(s), n - 1)
  }

  /** MergeRotate / MergeScale of two empty tracks, as written: no check is
      set, so the one keyframe the loop adds is at +infinity, and the loop
      stops after it. */
  lemma {:induction false} WrittenEmptyAtInfinity(ends: seq<Option<ExtTime>>)
    requires forall i :: 0 <= i < |ends| ==> ends[i].None?
    ensures WrittenTime(ends, None) == Infinity
    ensures !Pending(WrittenStep(WrittenState(ends, None)))
  {
    if |ends| > 0 {
      WrittenEmptyAtInfinity(ends[..|ends| - 1]);
    }
    assert WrittenEarliest(ends) == Infinity;
  }

  /** With every pending end at +infinity, the earliest end is +infinity. */
  lemma {:induction false} EarliestOfInfinite(ends: seq<Option<ExtTime>>)
    requires forall i :: 0 <= i < |ends| ==> ends[i].None? || ends[i] == Some(Infinity)
    ensures WrittenEarliest(ends) == Infinity
  {
    if |ends| > 0 {
      EarliestOfInfinite(ends[..|ends| - 1]);
    }
  }

  /** Once `previousTime` is finite and every pending end is +infinity, each
      pass moves the time on by exactly KEYFRAME_TIMESTEP and finishes no
      input: after `n` passes the state is the same but for the time. */
  lemma {:induction false} WrittenStuck(s: WrittenState, n: nat)
    requires s.previous.Some? && s.previous.value.At?
    requires forall i :: 0 <= i < |s.ends| ==> s.ends[i].None? || s.ends[i] == Some(Infinity)
    ensures WrittenRun(s, n) == WrittenState(s.ends, Some(At(s.previous.value.t + n as real * KeyframeTimestep)))
    decreases n
  {
    if n > 0 {
      EarliestOfInfinite(s.ends);
      var time := At(s.previous.value.t + KeyframeTimestep);
      assert WrittenTime(s.ends, s.previous) == time;
      assert Consume(s.ends, time) == s.ends;
      WrittenStuck(WrittenState(s.ends, Some(time)), n - 1);
    }
  }

  /** The four inputs of a sprite's MergeMove under a root group and a
      middle group that have no keyframes of their own, the sprite having
      one Move keyframe at time 0: its own end at 0, and the middle group's
      merged tracks each with its one keyframe at +infinity. */
  function HangStart(): WrittenState {
    WrittenState([Some(At(0.0)), Some(Infinity), Some(Infinity), Some(Infinity)], None)
  }

  /** MergeMove as written on HangStart never leaves its loop: after the
      first pass at time 0, pass `n + 1` is at `16 n` and the three inputs
      ending at +infinity are still pending. */
  lemma HangForever(n: nat)
    ensures var s := WrittenRun(HangStart(), n + 1);
      && Pending(s)
      && s.previous == Some(At(n as real * KeyframeTimestep))
  {
    var first := WrittenState([None, Some(Infinity), Some(Infinity), Some(Infinity)], Some(At(0.0)));
    var r := WrittenEarliest(HangStart().ends);
    assert !Before(At(0.0), r);
    var i :| 0 <= i < 4 && HangStart().ends[i] == Some(r);
    assert WrittenTime(HangStart().ends, None) == r == At(0.0);
    assert Consume(HangStart().ends, At(0.0)) == first.ends;
    assert WrittenStep(HangStart()) == first;
    WrittenStuck(first, n);
    assert WrittenRun(first, n).ends[1].Some?;
  }

  /** What the corrected merges give for the same tree: the middle group's
      merges of empty tracks are empty, and the sprite's sweep ends after its
      one keyframe, at time 0. */
  lemma CorrectedHangStart(ext: Externals, position: Vec2)
    ensures MergedRotate([], []) == [] && MergedScale([], []) == []
    ensures MergedMove(ext, MoveInputs([], [], [], [])) == []
    ensures SweptMove(ext, MoveInputs([Keyframe(0.0, position)], [], [], []))
         == [Keyframe(0.0, MoveFormula(ext, position, DefaultMove, DefaultRotate, DefaultScale))]
  {
    var ins := MoveInputs([Keyframe(0.0, position)], [], [], []);
    var cs := InitialCursors(ins);
    assert EarliestEnd(cs) == 0.0;
    var s := MoveIterate(ext, ins, cs, None);
    assert s.time == 0.0;
    assert !AnyPending(s.cs);
    MoveSweepUnfold(ext, ins, cs, None);
  }
}
