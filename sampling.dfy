/** What a keyframed channel shows at a given time, defined on the track
    alone: the reference the merge sweeps are proved against. At a time
    where a sorted track holds several keyframes (a jump), the value reached
    from the left is the first of them and the value from there on is the
    last; the cursors of the sweep read exactly these. */
module Sampling {
  import opened Options
  import opened Keyframes
  import opened Cursors

  /** The value at `time` reached from the left: the first keyframe before
      the track starts, the last one after it ends, the first keyframe at
      `time` if there is one, and the interpolation of the bracketing pair
      otherwise; an empty track shows its default. */
  function ValueAt<T>(track: Track<T>, default: T, time: real, f: (T, T, real) -> T): T
    decreases |track|
  {
    if |track| == 0 then default
    else if time <= track[0].time || |track| == 1 then track[0].value
    else if time < track[1].time then f(track[0].value, track[1].value, Progress(track[0].time, track[1].time, time))
    else ValueAt(track[1..], default, time, f)
  }

  /** The value from `time` on: as ValueAt, but the last keyframe at `time`
      wins over the first. */
  function ValueFrom<T>(track: Track<T>, default: T, time: real, f: (T, T, real) -> T): T
    decreases |track|
  {
    if |track| == 0 then default
    else if time < track[0].time || |track| == 1 then track[0].value
    else if time < track[1].time then
      (if time == track[0].time then track[0].value
       else f(track[0].value, track[1].value, Progress(track[0].time, track[1].time, time)))
    else ValueFrom(track[1..], default, time, f)
  }

  /** The channel changes value instantly at `time`. */
  predicate Jump<T(==)>(track: Track<T>, default: T, time: real, f: (T, T, real) -> T) {
    ValueAt(track, default, time, f) != ValueFrom(track, default, time, f)
  }

  /** ValueAt of a sorted track, read off at index `j`, the number of
      keyframes strictly before `time`. */
  lemma {:induction false} ValueAtIndex<T>(track: Track<T>, default: T, time: real, f: (T, T, real) -> T, j: nat)
    requires Sorted(track) && 0 < |track| && j <= |track|
    requires forall k :: 0 <= k < j ==> track[k].time < time
    requires j < |track| ==> time <= track[j].time
    ensures ValueAt(track, default, time, f) ==
      if j == 0 then track[0].value
      else if j == |track| then track[|track| - 1].value
      else if time == track[j].time then track[j].value
      else f(track[j - 1].value, track[j].value, Progress(track[j - 1].time, track[j].time, time))
    decreases j
  {
    if j > 0 && |track| > 1 && time >= track[1].time {
      assert j >= 2 || time == track[1].time;
      var rest := track[1..];
      assert forall k :: 0 <= k < j - 1 ==> rest[k].time < time by {
        forall k | 0 <= k < j - 1 ensures rest[k].time < time { assert rest[k] == track[k + 1]; }
      }
      ValueAtIndex(rest, default, time, f, j - 1);
    }
  }

  /** ValueFrom of a sorted track, read off at index `j`, the number of
      keyframes not after `time`. */
  lemma {:induction false} ValueFromIndex<T>(track: Track<T>, default: T, time: real, f: (T, T, real) -> T, j: nat)
    requires Sorted(track) && 0 < |track| && j <= |track|
    requires forall k :: 0 <= k < j ==> track[k].time <= time
    requires j < |track| ==> time < track[j].time
    ensures ValueFrom(track, default, time, f) ==
      if j == 0 then track[0].value
      else if j == |track| then track[|track| - 1].value
      else if time == track[j - 1].time then track[j - 1].value
      else f(track[j - 1].value, track[j].value, Progress(track[j - 1].time, track[j].time, time))
    decreases j
  {
    if j > 0 && |track| > 1 && time >= track[1].time {
      assert j >= 2;
      var rest := track[1..];
      assert forall k :: 0 <= k < j - 1 ==> rest[k].time <= time by {
        forall k | 0 <= k < j - 1 ensures rest[k].time <= time { assert rest[k] == track[k + 1]; }
      }
      ValueFromIndex(rest, default, time, f, j - 1);
    }
  }

  /** A track without holds never jumps. */
  lemma {:induction false} NoJumpWithoutHolds<T>(track: Track<T>, default: T, time: real, f: (T, T, real) -> T)
    requires StrictlySorted(track)
    ensures ValueAt(track, default, time, f) == ValueFrom(track, default, time, f)
    decreases |track|
  {
    if |track| > 1 && time >= track[1].time {
      NoJumpWithoutHolds(track[1..], default, time, f);
    }
  }

  /** Keyframe `k` has not been consumed by the cursor yet (it is the
      current end or comes after it). */
  predicate Live<T>(track: Track<T>, c: Cursor<T>, k: int) {
    c.check && 0 <= k && c.next - 1 <= k < |track|
  }

  /** The times of the keyframes the cursor has not consumed yet. */
  function LiveTimes<T>(track: Track<T>, c: Cursor<T>): set<real> {
    set k | 0 <= k < |track| && Live(track, c, k) :: track[k].time
  }

  /** A fresh cursor has consumed nothing. */
  lemma InitializeLive<T>(track: Track<T>, default: T)
    ensures LiveTimes(track, Initialize(track, default)) == TimesOf(track)
  {
    var c := Initialize(track, default);
    forall x | x in TimesOf(track) ensures x in LiveTimes(track, c) {
      var k :| 0 <= k < |track| && track[k].time == x;
      assert Live(track, c, k);
    }
  }

  /** A cursor that is no longer pending has consumed everything. */
  lemma LiveDone<T>(track: Track<T>, c: Cursor<T>)
    requires !c.check
    ensures LiveTimes(track, c) == {}
  {
  }

  /** The keyframes a step consumes, all at `time`, leave the live times
      less `time` at most. */
  lemma LiveStep<T>(track: Track<T>, c: Cursor<T>, d: Cursor<T>, time: real)
    requires forall k :: Live(track, c, k) && !Live(track, d, k) ==> track[k].time == time
    ensures LiveTimes(track, c) <= LiveTimes(track, d) + {time}
  {
  }

  /** The cursor state at the top of a sweep iteration, after the output
      time `previous` (None before the first iteration): freshly
      initialised, or every consumed keyframe is at or before `previous`
      and the pending end after it. */
  predicate Entry<T(==)>(track: Track<T>, c: Cursor<T>, default: T, previous: Option<real>) {
    && Valid(track, c)
    && match previous
       case None => c == Initialize(track, default)
       case Some(p) =>
         && (|track| == 0 ==> c.end.value == default)
         && (c.check ==> p < c.end.time)
         && forall k :: 0 <= k < |track| && !Live(track, c, k) ==> track[k].time <= p
  }

  /** The cursor side of one sweep iteration on a sorted input at an output
      time `time` after `previous` and not after the cursor's end: the
      keyframes consumed are the ones at `time`, a new segment starts from
      `time`, and the cursor is ready for the next iteration. */
  lemma StepEntry<T>(track: Track<T>, c: Cursor<T>, default: T, previous: Option<real>, time: real)
    requires Sorted(track) && Entry(track, c, default, previous)
    requires previous.Some? ==> previous.value < time
    requires c.check ==> time <= c.end.time
    ensures var d := AdvanceAt(track, c, time);
      && Entry(track, d, default, Some(time))
      && (forall k :: Live(track, d, k) ==> Live(track, c, k))
      && (forall k :: Live(track, c, k) && !Live(track, d, k) ==> track[k].time == time)
      && LiveTimes(track, c) <= LiveTimes(track, d) + {time}
  {
    var d := AdvanceAt(track, c, time);
    if c.check && time == c.end.time {
      NextKeyframeSorted(track, c);
    }
    assert forall k :: Live(track, c, k) && !Live(track, d, k) ==> track[k].time == time;
    LiveStep(track, c, d, time);
  }

  /** The keyframes a cursor at the top of an iteration has consumed all
      come before the output time. */
  lemma ConsumedBefore<T>(track: Track<T>, c: Cursor<T>, default: T, previous: Option<real>, time: real)
    requires Entry(track, c, default, previous)
    requires previous.Some? ==> previous.value < time
    ensures forall k :: 0 <= k < (if c.check then c.next - 1 else |track|) ==> track[k].time < time
  {
    forall k | 0 <= k < (if c.check then c.next - 1 else |track|) ensures track[k].time < time {
      assert !Live(track, c, k);
    }
  }

  /** The value sampled by Interpolate is the value reached from the left;
      unless the cursor advances at `time`, it is also the value from there
      on. */
  lemma StepValueAt<T>(track: Track<T>, c: Cursor<T>, default: T, previous: Option<real>, time: real, f: (T, T, real) -> T)
    requires Sorted(track) && Entry(track, c, default, previous)
    requires previous.Some? ==> previous.value < time
    requires c.check ==> time <= c.end.time
    ensures Interpolate(c.start, c.end, time, f) == ValueAt(track, default, time, f)
    ensures !(c.check && time == c.end.time) ==> Interpolate(c.start, c.end, time, f) == ValueFrom(track, default, time, f)
  {
    if |track| > 0 {
      var j := if c.check then c.next - 1 else |track|;
      ConsumedBefore(track, c, default, previous, time);
      ValueAtIndex(track, default, time, f, j);
      assert j < |track| ==> track[j] == c.end;
      if c.check && c.next >= 2 {
        assert c.start == track[j - 1];
      }
      if !(c.check && time == c.end.time) {
        ValueFromIndex(track, default, time, f, j);
      }
    }
  }

  /** When the cursor advances at `time`, the start of its new segment holds
      the value from `time` on. */
  lemma StepValueFrom<T>(track: Track<T>, c: Cursor<T>, default: T, time: real, f: (T, T, real) -> T)
    requires Sorted(track) && Valid(track, c) && c.check && time == c.end.time
    ensures NextKeyframe(track, c).start.value == ValueFrom(track, default, time, f)
  {
    var d := NextKeyframe(track, c);
    NextKeyframeSorted(track, c);
    var j' := if d.check then d.next - 1 else |track|;
    assert forall k :: 0 <= k < j' ==> track[k].time <= time by {
      forall k | 0 <= k < j' ensures track[k].time <= time {
        if k < c.next - 1 {
          assert track[c.next - 1] == c.end;
        }
      }
    }
    assert j' < |track| ==> track[j'] == d.end;
    ValueFromIndex(track, default, time, f, j');
    if d.check {
      assert d.start == track[j' - 1];
    }
  }

  /** One iteration of the sweep on one sorted input at an output time
      `time` after `previous` and not after the cursor's end: the sampled
      value is ValueAt, the value after CheckNextKeyframe is ValueFrom, a
      repeat is reported exactly at a jump, the keyframes consumed are the
      ones at `time`, and the cursor is ready for the next iteration. */
  lemma StepCursor<T>(track: Track<T>, c: Cursor<T>, default: T, previous: Option<real>, time: real, f: (T, T, real) -> T)
    requires Sorted(track) && Entry(track, c, default, previous)
    requires previous.Some? ==> previous.value < time
    requires c.check ==> time <= c.end.time
    ensures var r := Sample(track, c, time, f);
      && r.value == ValueAt(track, default, time, f)
      && r.after == ValueFrom(track, default, time, f)
      && (r.repeat <==> Jump(track, default, time, f))
      && Entry(track, r.cursor, default, Some(time))
      && LiveTimes(track, c) <= LiveTimes(track, r.cursor) + {time}
  {
    StepEntry(track, c, default, previous, time);
    StepValueAt(track, c, default, previous, time, f);
    if c.check && time == c.end.time {
      StepValueFrom(track, c, default, time, f);
    }
  }
}
