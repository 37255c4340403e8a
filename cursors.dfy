/** The per-input cursor of the merge sweep (GroupElement's private helpers
    InitializeStartEnd, GetNextKeyframe, CheckNextKeyframe and Interpolate).
    The source walks each input with an enumerator and keeps the current
    segment in `ref` variables; here a cursor is a value holding the segment
    `start`/`end`, the `check` flag ("more keyframes may follow") and `next`,
    the number of keyframes the enumerator has consumed. */
module Cursors {
  import opened Keyframes

  /** DEFAULT_TIME: the time of the stand-in keyframe of an empty track. */
  const DefaultTime := 0.0

  datatype Cursor<T> = Cursor(start: Keyframe<T>, end: Keyframe<T>, check: bool, next: nat)

  /** What the enumerator loop keeps true of a cursor over `track`: `end` is
      the last keyframe consumed, `start` the one before it, and a cursor
      without pending keyframes has consumed the whole track. */
  predicate Valid<T(==)>(track: Track<T>, c: Cursor<T>) {
    && c.next <= |track|
    && (|track| == 0 ==> !c.check && c.start == c.end)
    && (|track| > 0 ==> 1 <= c.next && c.end == track[c.next - 1])
    && (!c.check ==> c.next == |track| && c.start == c.end)
    && (c.check && c.next == 1 ==> c.start == c.end)
    && (c.check && c.next >= 2 ==> c.start == track[c.next - 2] && c.start.time < c.end.time)
  }

  /** Keyframes still to be consumed, plus one while the cursor is pending:
      every advance of a pending cursor lowers it. */
  function Remaining<T(==)>(track: Track<T>, c: Cursor<T>): nat
    requires c.next <= |track|
  {
    |track| - c.next + if c.check then 1 else 0
  }

  /** InitializeStartEnd: the first keyframe as a zero-length segment, or the
      channel default at DEFAULT_TIME when the track is empty. */
  function Initialize<T(==)>(track: Track<T>, default: T): (c: Cursor<T>)
    ensures Valid(track, c)
    ensures c.check <==> |track| > 0
    ensures c.next <= 1 && c.start == c.end
    ensures |track| == 0 ==> c.end == Keyframe(DefaultTime, default)
  {
    if |track| > 0 then Cursor(track[0], track[0], true, 1)
    else Cursor(Keyframe(DefaultTime, default), Keyframe(DefaultTime, default), false, 0)
  }

  /** The `while (true)` loop of GetNextKeyframe, from the keyframe `end`
      with `next` keyframes consumed: skip keyframes not later than the
      current end, stop at the first later one or at the end of the track. */
  function Advance<T(==)>(track: Track<T>, end: Keyframe<T>, next: nat): Cursor<T>
    requires next <= |track|
    decreases |track| - next
  {
    if next < |track| then
      if track[next].time > end.time then Cursor(end, track[next], true, next + 1)
      else Advance(track, track[next], next + 1)
    else Cursor(end, end, false, next)
  }

  lemma {:induction false} AdvanceValid<T>(track: Track<T>, end: Keyframe<T>, next: nat)
    requires 1 <= next <= |track| && end == track[next - 1]
    ensures Valid(track, Advance(track, end, next))
    ensures Remaining(track, Advance(track, end, next)) < |track| - next + 1
    decreases |track| - next
  {
    if next < |track| && track[next].time <= end.time {
      AdvanceValid(track, track[next], next + 1);
    }
  }

  /** On a sorted track, every keyframe the loop passes over shares the
      current end time, and a new segment starts at the last keyframe with
      that time. */
  lemma {:induction false} AdvanceSorted<T>(track: Track<T>, end: Keyframe<T>, next: nat)
    requires 1 <= next <= |track| && end == track[next - 1]
    ensures Sorted(track) ==> var d := Advance(track, end, next);
      && d.next <= |track|
      && (d.check ==> d.end.time > end.time && d.start.time == end.time)
      && (!d.check ==> d.end.time == end.time)
      && forall k :: next - 1 <= k < (if d.check then d.next - 1 else |track|) ==> track[k].time == end.time
    decreases |track| - next
  {
    if Sorted(track) && next < |track| && track[next].time <= end.time {
      AdvanceSorted(track, track[next], next + 1);
    }
  }

  /** GetNextKeyframe as a function: a cursor without pending keyframes is
      left alone; otherwise the enumerator loop runs. */
  function NextKeyframe<T(==)>(track: Track<T>, c: Cursor<T>): (d: Cursor<T>)
    requires Valid(track, c)
    ensures Valid(track, d)
    ensures !c.check ==> d == c
    ensures c.check ==> Remaining(track, d) < Remaining(track, c)
    ensures c.check ==> (!d.check && d.start == d.end) || (d.check && d.start.time < d.end.time)
  {
    if !c.check then c
    else
      AdvanceValid(track, c.end, c.next);
      Advance(track, c.end, c.next)
  }

  /** On a sorted track GetNextKeyframe consumes exactly the keyframes at
      the current end time, and the new segment starts from that time. */
  lemma NextKeyframeSorted<T>(track: Track<T>, c: Cursor<T>)
    requires Valid(track, c) && c.check && Sorted(track)
    ensures var d := NextKeyframe(track, c);
      && (d.check ==> d.end.time > c.end.time && d.start.time == c.end.time)
      && (!d.check ==> d.end.time == c.end.time)
      && forall k :: c.next - 1 <= k < (if d.check then d.next - 1 else |track|) ==> track[k].time == c.end.time
  {
    AdvanceSorted(track, c.end, c.next);
  }

  /** GetNextKeyframe (GroupElement.cs), with its `while (true)` loop. */
  method GetNextKeyframe<T(==)>(track: Track<T>, c: Cursor<T>) returns (d: Cursor<T>)
    requires Valid(track, c)
    ensures d == NextKeyframe(track, c)
  {
    if !c.check {
      return c;
    }
    var end, next := c.end, c.next;
    while true
      invariant 1 <= next <= |track| && end == track[next - 1]
      invariant Advance(track, end, next) == NextKeyframe(track, c)
      decreases |track| - next
    {
      if next < |track| {
        var current := track[next];
        next := next + 1;
        if current.time > end.time {
          return Cursor(end, current, true, next);
        }
        end := current;
      } else {
        return Cursor(end, end, false, next);
      }
    }
  }

  /** A pending end is a keyframe of the track. */
  lemma PendingEndIn<T>(track: Track<T>, c: Cursor<T>)
    requires Valid(track, c) && c.check
    ensures c.end.time in TimesOf(track)
  {
    assert track[c.next - 1] == c.end;
  }

  /** The cursor after CheckNextKeyframe at `time`: advanced when the sweep
      time has reached its pending end. */
  function AdvanceAt<T(==)>(track: Track<T>, c: Cursor<T>, time: real): (d: Cursor<T>)
    requires Valid(track, c)
    ensures Valid(track, d)
    ensures c.check && time == c.end.time ==> Remaining(track, d) < Remaining(track, c)
    ensures !(c.check && time == c.end.time) ==> d == c
  {
    if c.check && time == c.end.time then NextKeyframe(track, c) else c
  }

  /** CheckNextKeyframe as a function: when the sweep time reaches a pending
      cursor's end, advance it; if the new segment starts from a different
      value than the one just sampled, report a repeat and take the new value. */
  function CheckNext<T(==)>(track: Track<T>, c: Cursor<T>, current: T, time: real): (r: (Cursor<T>, T, bool))
    requires Valid(track, c)
    ensures Valid(track, r.0)
    ensures r.0 == AdvanceAt(track, c, time)
    ensures r.2 <==> c.check && time == c.end.time && current != r.0.start.value
    ensures r.1 == if r.2 then r.0.start.value else current
  {
    if c.check && time == c.end.time then
      var d := NextKeyframe(track, c);
      if current != d.start.value then (d, d.start.value, true) else (d, current, false)
    else (c, current, false)
  }

  /** What one sweep iteration does with one input at `time`: the value it
      samples (Interpolate), the cursor after CheckNextKeyframe, the value
      it holds from then on, and whether that is a repeat. */
  datatype Sampled<T> = Sampled(value: T, cursor: Cursor<T>, after: T, repeat: bool)

  function Sample<T(==)>(track: Track<T>, c: Cursor<T>, time: real, f: (T, T, real) -> T): (r: Sampled<T>)
    requires Valid(track, c)
    ensures Valid(track, r.cursor) && r.cursor == AdvanceAt(track, c, time)
    ensures !r.repeat ==> r.after == r.value
  {
    var v := Interpolate(c.start, c.end, time, f);
    var r := CheckNext(track, c, v, time);
    Sampled(v, r.0, r.1, r.2)
  }

  /** CheckNextKeyframe (GroupElement.cs): the `ref` parameters become the
      returned cursor and value; `isRepeat` is only ever set, never cleared. */
  method CheckNextKeyframe<T(==)>(track: Track<T>, c: Cursor<T>, current: T, time: real, isRepeat: bool)
    returns (d: Cursor<T>, value: T, repeat: bool)
    requires Valid(track, c)
    ensures d == CheckNext(track, c, current, time).0
    ensures value == CheckNext(track, c, current, time).1
    ensures repeat == (isRepeat || CheckNext(track, c, current, time).2)
  {
    d, value, repeat := c, current, isRepeat;
    if c.check && time == c.end.time {
      d := GetNextKeyframe(track, c);
      if current != d.start.value {
        value := d.start.value;
        repeat := true;
      }
    }
  }

  /** The fraction of the segment `[start, end)` that has elapsed at `time`;
      its denominator is positive. */
  function Progress(start: real, end: real, time: real): (p: real)
    requires start <= time < end
    ensures 0.0 <= p < 1.0
    ensures start + p * (end - start) == time
  {
    var d := end - start;
    var p := (time - start) / d;
    assert p * d == time - start;
    p
  }

  /** Interpolate (GroupElement.cs): clamp to the start value before the
      segment and to the end value from its end on, interpolate in between. */
  function Interpolate<T>(start: Keyframe<T>, end: Keyframe<T>, time: real, f: (T, T, real) -> T): (r: T)
    ensures time < start.time ==> r == start.value
    ensures start.time <= time && end.time <= time ==> r == end.value
    ensures start.time <= time < end.time ==> r == f(start.value, end.value, Progress(start.time, end.time, time))
    ensures start == end ==> r == start.value
  {
    if time < start.time then start.value
    else if time >= end.time then end.value
    else f(start.value, end.value, Progress(start.time, end.time, time))
  }

  /** With the linear scalar interpolator the sampled value never leaves the
      range of the segment's two values, and it is exact at both keyframes. */
  lemma InterpolateWithinSegment(start: Keyframe<real>, end: Keyframe<real>, time: real)
    requires start.time <= end.time
    ensures var r := Interpolate(start, end, time, LerpReal);
      && (start.value <= end.value ==> start.value <= r <= end.value)
      && (end.value <= start.value ==> end.value <= r <= start.value)
      && (time == start.time < end.time ==> r == start.value)
      && (time == end.time ==> r == end.value)
  {
    if start.time <= time < end.time {
      LerpRealBetween(start.value, end.value, Progress(start.time, end.time, time));
      if time == start.time {
        assert Progress(start.time, end.time, time) == 0.0 / (end.time - start.time) == 0.0;
      }
    }
  }
}
