/** The merge sweep of GroupElement.MergeMove / MergeRotate / MergeScale as
    functions of the input tracks: the specification the imperative merges
    are proved against, and the properties they inherit from it. */
module Merge {
  import opened Options
  import opened Keyframes
  import opened Cursors
  import opened Formulas
  import opened Sampling

  /** One `if (check && end.Time < time) time = end.Time` of the sweep; the
      sweep starts from `time = +infinity`, written None. */
  function Earlier<T>(time: Option<real>, c: Cursor<T>): (r: Option<real>)
    ensures r.Some? <==> time.Some? || c.check
    ensures r.Some? && time.Some? ==> r.value <= time.value
    ensures r.Some? && c.check ==> r.value <= c.end.time
    ensures r.Some? ==> (time.Some? && r == time) || (c.check && r.value == c.end.time)
  {
    if c.check && (time.None? || c.end.time < time.value) then Some(c.end.time) else time
  }

  function Min(x: real, y: real): real {
    if x <= y then x else y
  }

  // ---------------------------------------------------------------------
  // MergeRotate and MergeScale: two inputs, no step cap.

  /** The time of the next output keyframe: the earliest pending end. */
  function PairTime<T>(a: Cursor<T>, b: Cursor<T>): real
    requires a.check || b.check
  {
    Earlier(Earlier(None, a), b).value
  }

  /** One pass of the loop body of MergeRotate / MergeScale: the output
      time, the keyframe (and the repeat) emitted there, and the advanced
      cursors. */
  datatype PairStep = PairStep(time: real, emitted: Track<real>, a: Cursor<real>, b: Cursor<real>)

  /** The loop body from cursors `a` (own track `ta`) and `b` (parent track
      `tb`); `compose` is RotateFormula or ScaleFormula. */
  function PairIterate(ta: Track<real>, tb: Track<real>, a: Cursor<real>, b: Cursor<real>, compose: (real, real) -> real): (s: PairStep)
    requires Valid(ta, a) && Valid(tb, b) && (a.check || b.check)
    ensures Valid(ta, s.a) && Valid(tb, s.b)
    ensures Remaining(ta, s.a) + Remaining(tb, s.b) < Remaining(ta, a) + Remaining(tb, b)
    ensures 1 <= |s.emitted| <= 2 && forall k :: 0 <= k < |s.emitted| ==> s.emitted[k].time == s.time
  {
    var time := PairTime(a, b);
    var sa := Sample(ta, a, time, LerpReal);
    var sb := Sample(tb, b, time, LerpReal);
    var emitted := [Keyframe(time, compose(sa.value, sb.value))]
      + if sa.repeat || sb.repeat then [Keyframe(time, compose(sa.after, sb.after))] else [];
    PairStep(time, emitted, sa.cursor, sb.cursor)
  }

  /** The do-while loop of MergeRotate / MergeScale. */
  function PairSweep(ta: Track<real>, tb: Track<real>, a: Cursor<real>, b: Cursor<real>, compose: (real, real) -> real): Track<real>
    requires Valid(ta, a) && Valid(tb, b) && (a.check || b.check)
    decreases Remaining(ta, a) + Remaining(tb, b)
  {
    var s := PairIterate(ta, tb, a, b, compose);
    if s.a.check || s.b.check then s.emitted + PairSweep(ta, tb, s.a, s.b, compose) else s.emitted
  }

  // ---------------------------------------------------------------------
  // MergeMove: four inputs, steps capped at KEYFRAME_TIMESTEP.

  datatype MoveInputs = MoveInputs(move: Track<Vec2>, parentMove: Track<Vec2>, parentRotate: Track<real>, parentScale: Track<real>)

  datatype MoveCursors = MoveCursors(move: Cursor<Vec2>, parentMove: Cursor<Vec2>, parentRotate: Cursor<real>, parentScale: Cursor<real>)

  predicate MoveValid(ins: MoveInputs, cs: MoveCursors) {
    Valid(ins.move, cs.move) && Valid(ins.parentMove, cs.parentMove)
    && Valid(ins.parentRotate, cs.parentRotate) && Valid(ins.parentScale, cs.parentScale)
  }

  predicate AnyPending(cs: MoveCursors) {
    cs.move.check || cs.parentMove.check || cs.parentRotate.check || cs.parentScale.check
  }

  function MoveRemaining(ins: MoveInputs, cs: MoveCursors): nat
    requires MoveValid(ins, cs)
  {
    Remaining(ins.move, cs.move) + Remaining(ins.parentMove, cs.parentMove)
    + Remaining(ins.parentRotate, cs.parentRotate) + Remaining(ins.parentScale, cs.parentScale)
  }

  /** The earliest pending end of the four cursors. */
  function EarliestEnd(cs: MoveCursors): real
    requires AnyPending(cs)
  {
    Earlier(Earlier(Earlier(Earlier(None, cs.move), cs.parentMove), cs.parentRotate), cs.parentScale).value
  }

  /** The time of the next output keyframe: the earliest pending end, but
      never more than KEYFRAME_TIMESTEP after the previous output time
      (None before the first keyframe, where the source has NaN). */
  function MoveTime(cs: MoveCursors, previous: Option<real>): real
    requires AnyPending(cs)
  {
    if previous.Some? then Min(previous.value + KeyframeTimestep, EarliestEnd(cs)) else EarliestEnd(cs)
  }

  /** How many capped steps may still come before the earliest pending end. */
  function CapBudget(cs: MoveCursors, previous: Option<real>): int
    requires AnyPending(cs)
  {
    if previous.Some? then (EarliestEnd(cs) - previous.value).Floor else 0
  }

  /** The four CheckNextKeyframe calls on the cursors. */
  function MoveAdvance(ins: MoveInputs, cs: MoveCursors, time: real): MoveCursors
    requires MoveValid(ins, cs)
  {
    MoveCursors(AdvanceAt(ins.move, cs.move, time), AdvanceAt(ins.parentMove, cs.parentMove, time),
                AdvanceAt(ins.parentRotate, cs.parentRotate, time), AdvanceAt(ins.parentScale, cs.parentScale, time))
  }

  /** One pass of the loop body of MergeMove. */
  datatype MoveStep = MoveStep(time: real, emitted: Track<Vec2>, cs: MoveCursors)

  /** The loop body of MergeMove: either some cursor advances, or the step
      was capped and nothing but the time moves on. */
  function MoveIterate(ext: Externals, ins: MoveInputs, cs: MoveCursors, previous: Option<real>): (s: MoveStep)
    requires MoveValid(ins, cs) && AnyPending(cs)
    ensures MoveValid(ins, s.cs)
    ensures || MoveRemaining(ins, s.cs) < MoveRemaining(ins, cs)
            || (s.cs == cs && previous.Some? && s.time == previous.value + KeyframeTimestep < EarliestEnd(cs))
    ensures 1 <= |s.emitted| <= 2 && forall k :: 0 <= k < |s.emitted| ==> s.emitted[k].time == s.time
    ensures s.time == MoveTime(cs, previous)
    ensures s.cs == MoveAdvance(ins, cs, s.time)
  {
    var time := MoveTime(cs, previous);
    var m := Sample(ins.move, cs.move, time, LerpVec);
    var pm := Sample(ins.parentMove, cs.parentMove, time, LerpVec);
    var pr := Sample(ins.parentRotate, cs.parentRotate, time, LerpReal);
    var ps := Sample(ins.parentScale, cs.parentScale, time, LerpReal);
    var emitted := [Keyframe(time, MoveFormula(ext, m.value, pm.value, pr.value, ps.value))]
      + if m.repeat || pm.repeat || pr.repeat || ps.repeat then [Keyframe(time, MoveFormula(ext, m.after, pm.after, pr.after, ps.after))] else [];
    MoveStep(time, emitted, MoveCursors(m.cursor, pm.cursor, pr.cursor, ps.cursor))
  }

  /** The do-while loop of MergeMove (before the final simplification). */
  function MoveSweep(ext: Externals, ins: MoveInputs, cs: MoveCursors, previous: Option<real>): Track<Vec2>
    requires MoveValid(ins, cs) && AnyPending(cs)
    decreases MoveRemaining(ins, cs), CapBudget(cs, previous)
  {
    var s := MoveIterate(ext, ins, cs, previous);
    if AnyPending(s.cs) then s.emitted + MoveSweep(ext, ins, s.cs, Some(s.time)) else s.emitted
  }

  // ---------------------------------------------------------------------
  // The shape of a sweep's output.

  /** Keyframe `k` is the first one at its time. */
  predicate FirstAt<T>(out: Track<T>, k: int) {
    0 <= k < |out| && (k == 0 || out[k - 1].time < out[k].time)
  }

  /** Keyframe `k` is followed by a repeat at the same time. */
  predicate Doubled<T>(out: Track<T>, k: int) {
    0 <= k && k + 1 < |out| && out[k + 1].time == out[k].time
  }

  /** Times never decrease and no time is held by more than two keyframes:
      one iteration emits one or two keyframes at its time, and later
      iterations have later times. */
  predicate Chronological<T>(out: Track<T>) {
    Sorted(out) && forall k :: 0 <= k < |out| - 2 ==> out[k].time < out[k + 2].time
  }

  /** The bookkeeping of `emitted + rest`, shared by all three sweeps: the
      order and the times. */
  lemma Prepend<T>(emitted: Track<T>, rest: Track<T>, time: real)
    requires 1 <= |emitted| <= 2 && forall k :: 0 <= k < |emitted| ==> emitted[k].time == time
    requires |rest| > 0 ==> Chronological(rest) && time < rest[0].time
    ensures var out := emitted + rest;
      && Chronological(out)
      && TimesOf(out) == {time} + TimesOf(rest)
  {
    var out := emitted + rest;
    assert forall k :: |emitted| <= k < |out| ==> out[k] == rest[k - |emitted|];
    assert forall k :: 0 <= k < |rest| ==> rest[0].time <= rest[k].time;
    TimesOfAppend(emitted, rest);
    assert TimesOf(emitted) == {time} by {
      assert emitted[0].time == time;
    }
  }

  /** The first-at-its-time and repeat structure of `emitted + rest`. */
  lemma PrependShape<T>(emitted: Track<T>, rest: Track<T>, time: real)
    requires 1 <= |emitted| <= 2 && forall k :: 0 <= k < |emitted| ==> emitted[k].time == time
    requires |rest| > 0 ==> time < rest[0].time
    ensures var out := emitted + rest;
      && FirstAt(out, 0) && (|emitted| == 2 ==> !FirstAt(out, 1))
      && (Doubled(out, 0) <==> |emitted| == 2)
      && (forall k :: |emitted| <= k < |out| ==>
            (FirstAt(out, k) <==> FirstAt(rest, k - |emitted|)) && (Doubled(out, k) <==> Doubled(rest, k - |emitted|)))
  {
    var out := emitted + rest;
    assert forall k :: |emitted| <= k < |out| ==> out[k] == rest[k - |emitted|];
  }

  // ---------------------------------------------------------------------
  // What MergeRotate / MergeScale compute.

  /** At the first output keyframe of each time, the output holds the
      composition of what both inputs show there; a repeat follows exactly
      when one of them jumps, and it holds the composition of the values
      from that time on. */
  predicate PairSampleAt(out: Track<real>, k: int, ta: Track<real>, tb: Track<real>, da: real, db: real, compose: (real, real) -> real)
    requires 0 <= k < |out|
  {
    var t := out[k].time;
    && out[k].value == compose(ValueAt(ta, da, t, LerpReal), ValueAt(tb, db, t, LerpReal))
    && (Doubled(out, k) <==> Jump(ta, da, t, LerpReal) || Jump(tb, db, t, LerpReal))
    && (Doubled(out, k) ==> out[k + 1].value == compose(ValueFrom(ta, da, t, LerpReal), ValueFrom(tb, db, t, LerpReal)))
  }

  predicate PairSamples(out: Track<real>, ta: Track<real>, tb: Track<real>, da: real, db: real, compose: (real, real) -> real) {
    forall k | 0 <= k < |out| && FirstAt(out, k) :: PairSampleAt(out, k, ta, tb, da, db, compose)
  }

  /** One iteration over sorted inputs: the time is an input time after
      the previous one, the keyframes consumed are those at that time, and
      the emitted keyframes compose the values both inputs show there. */
  lemma PairIterateSpec(ta: Track<real>, tb: Track<real>, a: Cursor<real>, b: Cursor<real>,
                        da: real, db: real, compose: (real, real) -> real, previous: Option<real>)
    requires Sorted(ta) && Sorted(tb)
    requires Entry(ta, a, da, previous) && Entry(tb, b, db, previous) && (a.check || b.check)
    ensures var s := PairIterate(ta, tb, a, b, compose);
      && s.time == PairTime(a, b)
      && (previous.Some? ==> previous.value < s.time)
      && s.time in TimesOf(ta) + TimesOf(tb)
      && Entry(ta, s.a, da, Some(s.time)) && Entry(tb, s.b, db, Some(s.time))
      && LiveTimes(ta, a) <= LiveTimes(ta, s.a) + {s.time}
      && LiveTimes(tb, b) <= LiveTimes(tb, s.b) + {s.time}
      && s.emitted[0].value == compose(ValueAt(ta, da, s.time, LerpReal), ValueAt(tb, db, s.time, LerpReal))
      && (|s.emitted| == 2 <==> Jump(ta, da, s.time, LerpReal) || Jump(tb, db, s.time, LerpReal))
      && (|s.emitted| == 2 ==> s.emitted[1].value == compose(ValueFrom(ta, da, s.time, LerpReal), ValueFrom(tb, db, s.time, LerpReal)))
  {
    var time := PairTime(a, b);
    PairTimeBounds(ta, tb, a, b, da, db, previous);
    var sa := Sample(ta, a, time, LerpReal);
    var sb := Sample(tb, b, time, LerpReal);
    StepCursor(ta, a, da, previous, time, LerpReal);
    StepCursor(tb, b, db, previous, time, LerpReal);
    var s := PairIterate(ta, tb, a, b, compose);
    assert s.time == time && s.a == sa.cursor && s.b == sb.cursor;
    assert s.emitted[0].value == compose(sa.value, sb.value);
    assert |s.emitted| == 2 <==> sa.repeat || sb.repeat;
  }

  /** The time of an iteration comes after the previous one, is not after
      either pending end, and is the time of an input keyframe. */
  lemma PairTimeBounds(ta: Track<real>, tb: Track<real>, a: Cursor<real>, b: Cursor<real>,
                       da: real, db: real, previous: Option<real>)
    requires Entry(ta, a, da, previous) && Entry(tb, b, db, previous) && (a.check || b.check)
    ensures var time := PairTime(a, b);
      && (a.check ==> time <= a.end.time) && (b.check ==> time <= b.end.time)
      && (previous.Some? ==> previous.value < time)
      && time in TimesOf(ta) + TimesOf(tb)
  {
    if a.check && PairTime(a, b) == a.end.time {
      PendingEndIn(ta, a);
    } else {
      PendingEndIn(tb, b);
    }
  }

  /** The pair sweep from any iteration on, over sorted inputs with defaults
      `da` and `db`: its output is chronological, starts at the earliest
      pending end, and contains only input times and every time of a
      keyframe not yet consumed. */
  lemma {:induction false} PairSweepTimes(ta: Track<real>, tb: Track<real>, a: Cursor<real>, b: Cursor<real>,
                                          da: real, db: real, compose: (real, real) -> real, previous: Option<real>)
    requires Sorted(ta) && Sorted(tb)
    requires Entry(ta, a, da, previous) && Entry(tb, b, db, previous) && (a.check || b.check)
    ensures var out := PairSweep(ta, tb, a, b, compose);
      && |out| > 0 && out[0].time == PairTime(a, b)
      && (previous.Some? ==> previous.value < out[0].time)
      && Chronological(out)
      && TimesOf(out) <= TimesOf(ta) + TimesOf(tb)
      && LiveTimes(ta, a) + LiveTimes(tb, b) <= TimesOf(out)
    decreases Remaining(ta, a) + Remaining(tb, b)
  {
    var s := PairIterate(ta, tb, a, b, compose);
    PairIterateSpec(ta, tb, a, b, da, db, compose, previous);
    var out := PairSweep(ta, tb, a, b, compose);
    var rest: Track<real> := [];
    if s.a.check || s.b.check {
      rest := PairSweep(ta, tb, s.a, s.b, compose);
      PairSweepTimes(ta, tb, s.a, s.b, da, db, compose, Some(s.time));
    } else {
      LiveDone(ta, s.a);
      LiveDone(tb, s.b);
    }
    PairSweepUnfold(ta, tb, a, b, compose);
    Prepend(s.emitted, rest, s.time);
  }

  /** PairSamples of `emitted + rest` from PairSamples of `rest` and the
      emitted keyframes of one iteration. */
  lemma PairSamplesPrepend(emitted: Track<real>, rest: Track<real>, time: real,
                           ta: Track<real>, tb: Track<real>, da: real, db: real, compose: (real, real) -> real)
    requires 1 <= |emitted| <= 2 && forall k :: 0 <= k < |emitted| ==> emitted[k].time == time
    requires |rest| > 0 ==> Chronological(rest) && time < rest[0].time && PairSamples(rest, ta, tb, da, db, compose)
    requires emitted[0].value == compose(ValueAt(ta, da, time, LerpReal), ValueAt(tb, db, time, LerpReal))
    requires |emitted| == 2 <==> Jump(ta, da, time, LerpReal) || Jump(tb, db, time, LerpReal)
    requires |emitted| == 2 ==> emitted[1].value == compose(ValueFrom(ta, da, time, LerpReal), ValueFrom(tb, db, time, LerpReal))
    ensures PairSamples(emitted + rest, ta, tb, da, db, compose)
  {
    var out := emitted + rest;
    PrependShape(emitted, rest, time);
    assert PairSampleAt(out, 0, ta, tb, da, db, compose);
    forall k | 0 <= k < |out| && FirstAt(out, k) ensures PairSampleAt(out, k, ta, tb, da, db, compose) {
      if k >= |emitted| {
        var i := k - |emitted|;
        assert FirstAt(rest, i) && out[k] == rest[i];
        assert PairSampleAt(rest, i, ta, tb, da, db, compose);
        assert Doubled(out, k) ==> out[k + 1] == rest[i + 1];
      }
    }
  }

  /** The pair sweep from any iteration on samples both sorted inputs
      exactly (PairSamples). */
  lemma {:induction false} PairSweepSamples(ta: Track<real>, tb: Track<real>, a: Cursor<real>, b: Cursor<real>,
                                            da: real, db: real, compose: (real, real) -> real, previous: Option<real>)
    requires Sorted(ta) && Sorted(tb)
    requires Entry(ta, a, da, previous) && Entry(tb, b, db, previous) && (a.check || b.check)
    ensures PairSamples(PairSweep(ta, tb, a, b, compose), ta, tb, da, db, compose)
    decreases Remaining(ta, a) + Remaining(tb, b)
  {
    var s := PairIterate(ta, tb, a, b, compose);
    PairIterateSpec(ta, tb, a, b, da, db, compose, previous);
    var rest: Track<real> := [];
    if s.a.check || s.b.check {
      rest := PairSweep(ta, tb, s.a, s.b, compose);
      PairSweepTimes(ta, tb, s.a, s.b, da, db, compose, Some(s.time));
      PairSweepSamples(ta, tb, s.a, s.b, da, db, compose, Some(s.time));
    }
    PairSweepUnfold(ta, tb, a, b, compose);
    PairSamplesPrepend(s.emitted, rest, s.time, ta, tb, da, db, compose);
  }

  // ---------------------------------------------------------------------
  // What MergeMove computes.

  predicate MoveSorted(ins: MoveInputs) {
    Sorted(ins.move) && Sorted(ins.parentMove) && Sorted(ins.parentRotate) && Sorted(ins.parentScale)
  }

  /** Entry of all four cursors, with the channel defaults of MergeMove. */
  predicate MoveEntry(ins: MoveInputs, cs: MoveCursors, previous: Option<real>) {
    && Entry(ins.move, cs.move, DefaultMove, previous)
    && Entry(ins.parentMove, cs.parentMove, DefaultMove, previous)
    && Entry(ins.parentRotate, cs.parentRotate, DefaultRotate, previous)
    && Entry(ins.parentScale, cs.parentScale, DefaultScale, previous)
  }

  function InputTimes(ins: MoveInputs): set<real> {
    TimesOf(ins.move) + TimesOf(ins.parentMove) + TimesOf(ins.parentRotate) + TimesOf(ins.parentScale)
  }

  function MoveLiveTimes(ins: MoveInputs, cs: MoveCursors): set<real> {
    LiveTimes(ins.move, cs.move) + LiveTimes(ins.parentMove, cs.parentMove)
    + LiveTimes(ins.parentRotate, cs.parentRotate) + LiveTimes(ins.parentScale, cs.parentScale)
  }

  /** Some input jumps at `time`. */
  predicate MoveJump(ins: MoveInputs, time: real) {
    || Jump(ins.move, DefaultMove, time, LerpVec) || Jump(ins.parentMove, DefaultMove, time, LerpVec)
    || Jump(ins.parentRotate, DefaultRotate, time, LerpReal) || Jump(ins.parentScale, DefaultScale, time, LerpReal)
  }

  /** The composed position the four inputs show at `time`, from the left. */
  function MoveAt(ext: Externals, ins: MoveInputs, time: real): Vec2 {
    MoveFormula(ext, ValueAt(ins.move, DefaultMove, time, LerpVec), ValueAt(ins.parentMove, DefaultMove, time, LerpVec),
                ValueAt(ins.parentRotate, DefaultRotate, time, LerpReal), ValueAt(ins.parentScale, DefaultScale, time, LerpReal))
  }

  /** The composed position the four inputs show from `time` on. */
  function MoveFrom(ext: Externals, ins: MoveInputs, time: real): Vec2 {
    MoveFormula(ext, ValueFrom(ins.move, DefaultMove, time, LerpVec), ValueFrom(ins.parentMove, DefaultMove, time, LerpVec),
                ValueFrom(ins.parentRotate, DefaultRotate, time, LerpReal), ValueFrom(ins.parentScale, DefaultScale, time, LerpReal))
  }

  /** As PairSampleAt, for the move merge. */
  predicate MoveSampleAt(ext: Externals, out: Track<Vec2>, k: int, ins: MoveInputs)
    requires 0 <= k < |out|
  {
    var t := out[k].time;
    && out[k].value == MoveAt(ext, ins, t)
    && (Doubled(out, k) <==> MoveJump(ins, t))
    && (Doubled(out, k) ==> out[k + 1].value == MoveFrom(ext, ins, t))
  }

  predicate MoveSamples(ext: Externals, out: Track<Vec2>, ins: MoveInputs) {
    forall k | 0 <= k < |out| && FirstAt(out, k) :: MoveSampleAt(ext, out, k, ins)
  }

  /** Every output time is an input time, a repeat of the time before it,
      or exactly one step after it, and no gap exceeds one step. */
  predicate Stepped<T>(out: Track<T>, times: set<real>) {
    && (forall k :: 0 < k < |out| ==> out[k].time <= out[k - 1].time + KeyframeTimestep)
    && (forall k :: 0 < k < |out| ==>
          out[k].time in times || out[k].time == out[k - 1].time || out[k].time == out[k - 1].time + KeyframeTimestep)
  }

  /** One iteration of MergeMove over sorted inputs: the time is an input
      time or a capped step, after the previous time by at most one step,
      and the keyframes consumed are those at that time. */
  lemma MoveIterateTimes(ext: Externals, ins: MoveInputs, cs: MoveCursors, previous: Option<real>)
    requires MoveSorted(ins) && MoveEntry(ins, cs, previous) && AnyPending(cs)
    ensures var s := MoveIterate(ext, ins, cs, previous);
      && s.time == MoveTime(cs, previous)
      && (previous.Some? ==> previous.value < s.time <= previous.value + KeyframeTimestep)
      && (s.time in InputTimes(ins) || (previous.Some? && s.time == previous.value + KeyframeTimestep))
      && MoveLiveTimes(ins, cs) <= MoveLiveTimes(ins, s.cs) + {s.time}
  {
    MoveAdvanceSpec(ins, cs, previous, MoveTime(cs, previous));
    EarliestEndIn(ins, cs);
  }

  /** The earliest pending end is the time of some input keyframe. */
  lemma EarliestEndIn(ins: MoveInputs, cs: MoveCursors)
    requires MoveValid(ins, cs) && AnyPending(cs)
    ensures EarliestEnd(cs) in InputTimes(ins)
  {
    if cs.move.check { PendingEndIn(ins.move, cs.move); }
    if cs.parentMove.check { PendingEndIn(ins.parentMove, cs.parentMove); }
    if cs.parentRotate.check { PendingEndIn(ins.parentRotate, cs.parentRotate); }
    if cs.parentScale.check { PendingEndIn(ins.parentScale, cs.parentScale); }
  }

  /** After one iteration of MergeMove the cursors are ready for the next. */
  lemma MoveIterateEntry(ext: Externals, ins: MoveInputs, cs: MoveCursors, previous: Option<real>)
    requires MoveSorted(ins) && MoveEntry(ins, cs, previous) && AnyPending(cs)
    ensures var s := MoveIterate(ext, ins, cs, previous);
      && (previous.Some? ==> previous.value < s.time <= previous.value + KeyframeTimestep)
      && MoveEntry(ins, s.cs, Some(s.time))
  {
    MoveAdvanceSpec(ins, cs, previous, MoveTime(cs, previous));
  }

  /** The capped time comes after the previous one and not after any
      pending end. */
  lemma MoveTimeBounds(ins: MoveInputs, cs: MoveCursors, previous: Option<real>)
    requires MoveEntry(ins, cs, previous) && AnyPending(cs)
    ensures var time := MoveTime(cs, previous);
      && (cs.move.check ==> time <= cs.move.end.time)
      && (cs.parentMove.check ==> time <= cs.parentMove.end.time)
      && (cs.parentRotate.check ==> time <= cs.parentRotate.end.time)
      && (cs.parentScale.check ==> time <= cs.parentScale.end.time)
      && (previous.Some? ==> previous.value < time <= previous.value + KeyframeTimestep)
  {
  }

  /** The cursors after one iteration of MergeMove at the capped time. */
  lemma MoveAdvanceSpec(ins: MoveInputs, cs: MoveCursors, previous: Option<real>, time: real)
    requires MoveSorted(ins) && MoveEntry(ins, cs, previous) && AnyPending(cs)
    requires time == MoveTime(cs, previous)
    ensures MoveEntry(ins, MoveAdvance(ins, cs, time), Some(time))
    ensures MoveLiveTimes(ins, cs) <= MoveLiveTimes(ins, MoveAdvance(ins, cs, time)) + {time}
  {
    MoveTimeBounds(ins, cs, previous);
    StepEntry(ins.move, cs.move, DefaultMove, previous, time);
    StepEntry(ins.parentMove, cs.parentMove, DefaultMove, previous, time);
    StepEntry(ins.parentRotate, cs.parentRotate, DefaultRotate, previous, time);
    StepEntry(ins.parentScale, cs.parentScale, DefaultScale, previous, time);
  }

  /** The four samples of one iteration of MergeMove at the capped time
      compose to the position the inputs show there, from the left and
      from then on, and some sample repeats exactly when an input jumps. */
  lemma MoveSamplesHold(ext: Externals, ins: MoveInputs, cs: MoveCursors, previous: Option<real>, time: real)
    requires MoveSorted(ins) && MoveEntry(ins, cs, previous) && AnyPending(cs)
    requires time == MoveTime(cs, previous)
    ensures var m := Sample(ins.move, cs.move, time, LerpVec);
      var pm := Sample(ins.parentMove, cs.parentMove, time, LerpVec);
      var pr := Sample(ins.parentRotate, cs.parentRotate, time, LerpReal);
      var ps := Sample(ins.parentScale, cs.parentScale, time, LerpReal);
      && MoveFormula(ext, m.value, pm.value, pr.value, ps.value) == MoveAt(ext, ins, time)
      && (m.repeat || pm.repeat || pr.repeat || ps.repeat <==> MoveJump(ins, time))
      && MoveFormula(ext, m.after, pm.after, pr.after, ps.after) == MoveFrom(ext, ins, time)
  {
    MoveTimeBounds(ins, cs, previous);
    StepCursor(ins.move, cs.move, DefaultMove, previous, time, LerpVec);
    StepCursor(ins.parentMove, cs.parentMove, DefaultMove, previous, time, LerpVec);
    StepCursor(ins.parentRotate, cs.parentRotate, DefaultRotate, previous, time, LerpReal);
    StepCursor(ins.parentScale, cs.parentScale, DefaultScale, previous, time, LerpReal);
  }

  /** One iteration of MergeMove over sorted inputs emits the composed
      position from the left, and a repeat with the composed position from
      that time on exactly when some input jumps. */
  lemma MoveIterateValues(ext: Externals, ins: MoveInputs, cs: MoveCursors, previous: Option<real>)
    requires MoveSorted(ins) && MoveEntry(ins, cs, previous) && AnyPending(cs)
    ensures var s := MoveIterate(ext, ins, cs, previous);
      && s.emitted[0].value == MoveAt(ext, ins, s.time)
      && (|s.emitted| == 2 <==> MoveJump(ins, s.time))
      && (|s.emitted| == 2 ==> s.emitted[1].value == MoveFrom(ext, ins, s.time))
  {
    MoveSamplesHold(ext, ins, cs, previous, MoveTime(cs, previous));
  }

  /** Stepped of `emitted + rest` from Stepped of `rest`. */
  lemma SteppedPrepend<T>(emitted: Track<T>, rest: Track<T>, time: real, times: set<real>)
    requires 1 <= |emitted| <= 2 && forall k :: 0 <= k < |emitted| ==> emitted[k].time == time
    requires |rest| > 0 ==> Stepped(rest, times) && rest[0].time <= time + KeyframeTimestep
    requires |rest| > 0 ==> rest[0].time in times || rest[0].time == time + KeyframeTimestep
    ensures Stepped(emitted + rest, times)
  {
    var out := emitted + rest;
    forall k | 0 < k < |out|
      ensures out[k].time <= out[k - 1].time + KeyframeTimestep
      ensures out[k].time in times || out[k].time == out[k - 1].time || out[k].time == out[k - 1].time + KeyframeTimestep
    {
      if k > |emitted| {
        assert out[k] == rest[k - |emitted|] && out[k - 1] == rest[k - 1 - |emitted|];
      } else if k == |emitted| {
        assert out[k] == rest[0] && out[k - 1].time == time;
      }
    }
  }

  /** The move sweep from any iteration on, over sorted inputs: its output
      is chronological and starts at the capped earliest pending end. */
  lemma {:induction false} MoveSweepOrder(ext: Externals, ins: MoveInputs, cs: MoveCursors, previous: Option<real>)
    requires MoveSorted(ins) && MoveEntry(ins, cs, previous) && AnyPending(cs)
    ensures var out := MoveSweep(ext, ins, cs, previous);
      && |out| > 0 && out[0].time == MoveTime(cs, previous)
      && (previous.Some? ==> previous.value < out[0].time <= previous.value + KeyframeTimestep)
      && Chronological(out)
    decreases MoveRemaining(ins, cs), CapBudget(cs, previous)
  {
    var s := MoveIterate(ext, ins, cs, previous);
    MoveIterateEntry(ext, ins, cs, previous);
    var rest: Track<Vec2> := [];
    if AnyPending(s.cs) {
      rest := MoveSweep(ext, ins, s.cs, Some(s.time));
      MoveSweepOrder(ext, ins, s.cs, Some(s.time));
    }
    MoveSweepUnfold(ext, ins, cs, previous);
    Prepend(s.emitted, rest, s.time);
  }

  /** The move sweep from any iteration on, over sorted inputs, steps by at
      most KEYFRAME_TIMESTEP and holds only input times, repeats and capped
      steps. */
  lemma {:induction false} MoveSweepSteps(ext: Externals, ins: MoveInputs, cs: MoveCursors, previous: Option<real>)
    requires MoveSorted(ins) && MoveEntry(ins, cs, previous) && AnyPending(cs)
    ensures var out := MoveSweep(ext, ins, cs, previous);
      && |out| > 0
      && (out[0].time in InputTimes(ins) || (previous.Some? && out[0].time == previous.value + KeyframeTimestep))
      && Stepped(out, InputTimes(ins))
    decreases MoveRemaining(ins, cs), CapBudget(cs, previous)
  {
    var s := MoveIterate(ext, ins, cs, previous);
    MoveIterateTimes(ext, ins, cs, previous);
    MoveIterateEntry(ext, ins, cs, previous);
    var rest: Track<Vec2> := [];
    if AnyPending(s.cs) {
      rest := MoveSweep(ext, ins, s.cs, Some(s.time));
      MoveSweepSteps(ext, ins, s.cs, Some(s.time));
      MoveSweepOrder(ext, ins, s.cs, Some(s.time));
    }
    MoveSweepUnfold(ext, ins, cs, previous);
    SteppedPrepend(s.emitted, rest, s.time, InputTimes(ins));
  }

  /** The move sweep from any iteration on, over sorted inputs, holds the
      time of every keyframe not consumed yet. */
  lemma {:induction false} MoveSweepCovers(ext: Externals, ins: MoveInputs, cs: MoveCursors, previous: Option<real>)
    requires MoveSorted(ins) && MoveEntry(ins, cs, previous) && AnyPending(cs)
    ensures MoveLiveTimes(ins, cs) <= TimesOf(MoveSweep(ext, ins, cs, previous))
    decreases MoveRemaining(ins, cs), CapBudget(cs, previous)
  {
    var s := MoveIterate(ext, ins, cs, previous);
    MoveIterateTimes(ext, ins, cs, previous);
    MoveIterateEntry(ext, ins, cs, previous);
    var rest: Track<Vec2> := [];
    if AnyPending(s.cs) {
      rest := MoveSweep(ext, ins, s.cs, Some(s.time));
      MoveSweepCovers(ext, ins, s.cs, Some(s.time));
      MoveSweepOrder(ext, ins, s.cs, Some(s.time));
    } else {
      MoveLiveDone(ins, s.cs);
    }
    MoveSweepUnfold(ext, ins, cs, previous);
    Prepend(s.emitted, rest, s.time);
  }

  lemma MoveLiveDone(ins: MoveInputs, cs: MoveCursors)
    requires !AnyPending(cs)
    ensures MoveLiveTimes(ins, cs) == {}
  {
    LiveDone(ins.move, cs.move);
    LiveDone(ins.parentMove, cs.parentMove);
    LiveDone(ins.parentRotate, cs.parentRotate);
    LiveDone(ins.parentScale, cs.parentScale);
  }

  /** MoveSamples of `emitted + rest` from MoveSamples of `rest`. */
  lemma MoveSamplesPrepend(ext: Externals, emitted: Track<Vec2>, rest: Track<Vec2>, time: real, ins: MoveInputs)
    requires 1 <= |emitted| <= 2 && forall k :: 0 <= k < |emitted| ==> emitted[k].time == time
    requires |rest| > 0 ==> Chronological(rest) && time < rest[0].time && MoveSamples(ext, rest, ins)
    requires emitted[0].value == MoveAt(ext, ins, time)
    requires |emitted| == 2 <==> MoveJump(ins, time)
    requires |emitted| == 2 ==> emitted[1].value == MoveFrom(ext, ins, time)
    ensures MoveSamples(ext, emitted + rest, ins)
  {
    var out := emitted + rest;
    PrependShape(emitted, rest, time);
    assert MoveSampleAt(ext, out, 0, ins);
    forall k | 0 <= k < |out| && FirstAt(out, k) ensures MoveSampleAt(ext, out, k, ins) {
      if k >= |emitted| {
        var i := k - |emitted|;
        assert FirstAt(rest, i) && out[k] == rest[i];
        assert MoveSampleAt(ext, rest, i, ins);
        assert Doubled(out, k) ==> out[k + 1] == rest[i + 1];
      }
    }
  }

  /** The move sweep from any iteration on samples the four sorted inputs
      exactly (MoveSamples). */
  lemma {:induction false} MoveSweepSamples(ext: Externals, ins: MoveInputs, cs: MoveCursors, previous: Option<real>)
    requires MoveSorted(ins) && MoveEntry(ins, cs, previous) && AnyPending(cs)
    ensures MoveSamples(ext, MoveSweep(ext, ins, cs, previous), ins)
    decreases MoveRemaining(ins, cs), CapBudget(cs, previous)
  {
    var s := MoveIterate(ext, ins, cs, previous);
    MoveIterateEntry(ext, ins, cs, previous);
    MoveIterateValues(ext, ins, cs, previous);
    var rest: Track<Vec2> := [];
    if AnyPending(s.cs) {
      rest := MoveSweep(ext, ins, s.cs, Some(s.time));
      MoveSweepOrder(ext, ins, s.cs, Some(s.time));
      MoveSweepSamples(ext, ins, s.cs, Some(s.time));
    }
    MoveSweepUnfold(ext, ins, cs, previous);
    MoveSamplesPrepend(ext, s.emitted, rest, s.time, ins);
  }

  // ---------------------------------------------------------------------
  // The merges as the engine calls them.

  /** MergeRotate / MergeScale of the own track `own` against the parent
      track `parent`, both read with the channel default `default`. With
      both tracks empty the loop as written emits its single keyframe at
      +infinity (see Findings in the README); the merge here yields the
      empty track instead, which every reader of a track takes for the
      constant default. */
  function MergedPair(own: Track<real>, parent: Track<real>, default: real, compose: (real, real) -> real): Track<real> {
    if |own| == 0 && |parent| == 0 then []
    else PairSweep(own, parent, Initialize(own, default), Initialize(parent, default), compose)
  }

  function MergedRotate(own: Track<real>, parent: Track<real>): Track<real> {
    MergedPair(own, parent, DefaultRotate, RotateFormula)
  }

  function MergedScale(own: Track<real>, parent: Track<real>): Track<real> {
    MergedPair(own, parent, DefaultScale, ScaleFormula)
  }

  predicate AnyInput(ins: MoveInputs) {
    |ins.move| > 0 || |ins.parentMove| > 0 || |ins.parentRotate| > 0 || |ins.parentScale| > 0
  }

  function InitialCursors(ins: MoveInputs): MoveCursors {
    MoveCursors(Initialize(ins.move, DefaultMove), Initialize(ins.parentMove, DefaultMove),
                Initialize(ins.parentRotate, DefaultRotate), Initialize(ins.parentScale, DefaultScale))
  }

  /** The output of the MergeMove loop before simplification (empty when
      every input is, as for MergedPair). */
  function SweptMove(ext: Externals, ins: MoveInputs): Track<Vec2> {
    if AnyInput(ins) then MoveSweep(ext, ins, InitialCursors(ins), None) else []
  }

  /** MergeMove: the sweep, then Simplify2dKeyframes. */
  function MergedMove(ext: Externals, ins: MoveInputs): Track<Vec2> {
    if AnyInput(ins) then ext.simplify(SweptMove(ext, ins)) else []
  }

  // ---------------------------------------------------------------------
  // The theorems about the merges.

  /** MergeRotate / MergeScale over sorted inputs: the output is
      chronological, its times are exactly the input keyframe times, and at
      each of them it holds the composition of what the two inputs show,
      followed by a repeat exactly where an input jumps. */
  lemma MergedPairSpec(own: Track<real>, parent: Track<real>, default: real, compose: (real, real) -> real)
    requires Sorted(own) && Sorted(parent)
    ensures var out := MergedPair(own, parent, default, compose);
      && (|out| == 0 <==> |own| == 0 && |parent| == 0)
      && Chronological(out)
      && TimesOf(out) == TimesOf(own) + TimesOf(parent)
      && PairSamples(out, own, parent, default, default, compose)
  {
    if |own| > 0 || |parent| > 0 {
      var a, b := Initialize(own, default), Initialize(parent, default);
      PairSweepTimes(own, parent, a, b, default, default, compose, None);
      PairSweepSamples(own, parent, a, b, default, default, compose, None);
      InitializeLive(own, default);
      InitializeLive(parent, default);
    }
  }

  /** MergeMove before simplification, over sorted inputs: the output is
      chronological, holds every input keyframe time, and between input
      times advances by steps of exactly KEYFRAME_TIMESTEP, so no two
      consecutive output times are further apart than that; at each time it
      holds the composed position, followed by a repeat exactly where an
      input jumps. */
  lemma SweptMoveSpec(ext: Externals, ins: MoveInputs)
    requires MoveSorted(ins)
    ensures var out := SweptMove(ext, ins);
      && (|out| == 0 <==> !AnyInput(ins))
      && (|out| > 0 ==> out[0].time in InputTimes(ins))
      && Chronological(out)
      && Stepped(out, InputTimes(ins))
      && InputTimes(ins) <= TimesOf(out)
      && MoveSamples(ext, out, ins)
  {
    if AnyInput(ins) {
      var cs := InitialCursors(ins);
      MoveSweepOrder(ext, ins, cs, None);
      MoveSweepSteps(ext, ins, cs, None);
      MoveSweepCovers(ext, ins, cs, None);
      MoveSweepSamples(ext, ins, cs, None);
      InitializeLive(ins.move, DefaultMove);
      InitializeLive(ins.parentMove, DefaultMove);
      InitializeLive(ins.parentRotate, DefaultRotate);
      InitializeLive(ins.parentScale, DefaultScale);
    }
  }

  // ---------------------------------------------------------------------
  // The loops.

  lemma AppendAssociative<T>(a: seq<T>, b: seq<T>, c: seq<T>)
    ensures (a + b) + c == a + (b + c)
  {
  }

  lemma PairSweepUnfold(ta: Track<real>, tb: Track<real>, a: Cursor<real>, b: Cursor<real>, compose: (real, real) -> real)
    requires Valid(ta, a) && Valid(tb, b) && (a.check || b.check)
    ensures var s := PairIterate(ta, tb, a, b, compose);
      PairSweep(ta, tb, a, b, compose) == s.emitted + if s.a.check || s.b.check then PairSweep(ta, tb, s.a, s.b, compose) else []
  {
  }

  lemma MoveSweepUnfold(ext: Externals, ins: MoveInputs, cs: MoveCursors, previous: Option<real>)
    requires MoveValid(ins, cs) && AnyPending(cs)
    ensures var s := MoveIterate(ext, ins, cs, previous);
      MoveSweep(ext, ins, cs, previous) == s.emitted + if AnyPending(s.cs) then MoveSweep(ext, ins, s.cs, Some(s.time)) else []
  {
  }

  /** The body of the do-while loop of MergeRotate / MergeScale: pick the
      earliest pending end, sample both inputs there, emit the composed
      keyframe, advance the cursors and emit the repeat if a value changed. */
  method PairBody(own: Track<real>, parent: Track<real>, a: Cursor<real>, b: Cursor<real>, compose: (real, real) -> real)
    returns (time: real, emitted: Track<real>, a': Cursor<real>, b': Cursor<real>)
    requires Valid(own, a) && Valid(parent, b) && (a.check || b.check)
    ensures PairStep(time, emitted, a', b') == PairIterate(own, parent, a, b, compose)
  {
    var earliest: Option<real> := None;
    earliest := Earlier(earliest, a);
    earliest := Earlier(earliest, b);
    time := earliest.value;
    var va := Interpolate(a.start, a.end, time, LerpReal);
    var vb := Interpolate(b.start, b.end, time, LerpReal);
    emitted := [Keyframe(time, compose(va, vb))];
    var isRepeat := false;
    a', va, isRepeat := CheckNextKeyframe(own, a, va, time, isRepeat);
    b', vb, isRepeat := CheckNextKeyframe(parent, b, vb, time, isRepeat);
    if isRepeat {
      emitted := emitted + [Keyframe(time, compose(va, vb))];
    }
  }

  /** The do-while loop shared by MergeRotate and MergeScale. */
  method SweepPair(own: Track<real>, parent: Track<real>, default: real, compose: (real, real) -> real) returns (out: Track<real>)
    ensures out == MergedPair(own, parent, default, compose)
  {
    out := [];
    if |own| == 0 && |parent| == 0 {
      return;
    }
    var a := Initialize(own, default);
    var b := Initialize(parent, default);
    while true
      invariant Valid(own, a) && Valid(parent, b) && (a.check || b.check)
      invariant out + PairSweep(own, parent, a, b, compose) == MergedPair(own, parent, default, compose)
      decreases Remaining(own, a) + Remaining(parent, b)
    {
      ghost var before, a0, b0 := out, a, b;
      PairSweepUnfold(own, parent, a, b, compose);
      var time, emitted;
      time, emitted, a, b := PairBody(own, parent, a, b, compose);
      out := out + emitted;
      if !(a.check || b.check) {
        break;
      }
      AppendAssociative(before, emitted, PairSweep(own, parent, a, b, compose));
    }
  }

  /** The body of the do-while loop of MergeMove, `previousTime` included. */
  method MoveBody(ext: Externals, ins: MoveInputs, cs: MoveCursors, previous: Option<real>)
    returns (time: real, emitted: Track<Vec2>, cs': MoveCursors)
    requires MoveValid(ins, cs) && AnyPending(cs)
    ensures MoveStep(time, emitted, cs') == MoveIterate(ext, ins, cs, previous)
  {
    var earliest: Option<real> := None;
    earliest := Earlier(earliest, cs.move);
    earliest := Earlier(earliest, cs.parentMove);
    earliest := Earlier(earliest, cs.parentRotate);
    earliest := Earlier(earliest, cs.parentScale);
    time := earliest.value;
    if previous.Some? {
      time := Min(previous.value + KeyframeTimestep, time);
    }
    assert time == MoveTime(cs, previous);
    ghost var s := MoveIterate(ext, ins, cs, previous);
    ghost var sm := Sample(ins.move, cs.move, time, LerpVec);
    ghost var spm := Sample(ins.parentMove, cs.parentMove, time, LerpVec);
    ghost var spr := Sample(ins.parentRotate, cs.parentRotate, time, LerpReal);
    ghost var sps := Sample(ins.parentScale, cs.parentScale, time, LerpReal);
    var move := Interpolate(cs.move.start, cs.move.end, time, LerpVec);
    var parentMove := Interpolate(cs.parentMove.start, cs.parentMove.end, time, LerpVec);
    var parentRotate := Interpolate(cs.parentRotate.start, cs.parentRotate.end, time, LerpReal);
    var parentScale := Interpolate(cs.parentScale.start, cs.parentScale.end, time, LerpReal);
    emitted := [Keyframe(time, MoveFormula(ext, move, parentMove, parentRotate, parentScale))];
    assert emitted == s.emitted[..1];
    var isRepeat := false;
    var m, pm, pr, ps;
    m, move, isRepeat := CheckNextKeyframe(ins.move, cs.move, move, time, isRepeat);
    assert m == sm.cursor && move == sm.after && isRepeat == sm.repeat;
    pm, parentMove, isRepeat := CheckNextKeyframe(ins.parentMove, cs.parentMove, parentMove, time, isRepeat);
    assert pm == spm.cursor && parentMove == spm.after && isRepeat == (sm.repeat || spm.repeat);
    pr, parentRotate, isRepeat := CheckNextKeyframe(ins.parentRotate, cs.parentRotate, parentRotate, time, isRepeat);
    assert pr == spr.cursor && parentRotate == spr.after && isRepeat == (sm.repeat || spm.repeat || spr.repeat);
    ps, parentScale, isRepeat := CheckNextKeyframe(ins.parentScale, cs.parentScale, parentScale, time, isRepeat);
    assert ps == sps.cursor && parentScale == sps.after && isRepeat == (sm.repeat || spm.repeat || spr.repeat || sps.repeat);
    cs' := MoveCursors(m, pm, pr, ps);
    if isRepeat {
      emitted := emitted + [Keyframe(time, MoveFormula(ext, move, parentMove, parentRotate, parentScale))];
    }
  }

  /** The do-while loop of MergeMove, followed by the simplification. */
  method SweepMove(ext: Externals, ins: MoveInputs) returns (out: Track<Vec2>)
    ensures out == MergedMove(ext, ins)
  {
    out := [];
    if !AnyInput(ins) {
      return;
    }
    var cs := InitialCursors(ins);
    var previous: Option<real> := None;
    while true
      invariant MoveValid(ins, cs) && AnyPending(cs)
      invariant out + MoveSweep(ext, ins, cs, previous) == SweptMove(ext, ins)
      decreases MoveRemaining(ins, cs), CapBudget(cs, previous)
    {
      ghost var before := out;
      MoveSweepUnfold(ext, ins, cs, previous);
      var time, emitted;
      time, emitted, cs := MoveBody(ext, ins, cs, previous);
      previous := Some(time);
      out := out + emitted;
      if !AnyPending(cs) {
        break;
      }
      AppendAssociative(before, emitted, MoveSweep(ext, ins, cs, previous));
    }
    out := ext.simplify(out);
  }
}
