/** GroupSprite's window clipping: DrawData cuts one segment of a composed
    track to the sprite's `[startTimeBase, endTimeBase]` lifetime, and the
    Draw loops (KeyframedValue.ForEachPair) apply it to every consecutive
    pair of keyframes. */
module Clipping {
  import opened Options
  import opened Keyframes
  import opened Cursors

  /** GroupSprite.KeyframePair: one clipped segment. */
  datatype KeyframePair<T> = KeyframePair(startTime: real, endTime: real, startValue: T, endValue: T)

  function Max(a: real, b: real): real { if a >= b then a else b }

  function MinTime(a: real, b: real): real { if a <= b then a else b }

  /** DrawData: `None` (null) for a segment entirely outside the window;
      otherwise the segment cut to the window, an endpoint outside it being
      replaced by the interpolated value at the window boundary. */
  function DrawData<T>(start: Keyframe<T>, end: Keyframe<T>, startTimeBase: real, endTimeBase: real,
                       f: (T, T, real) -> T): (r: Option<KeyframePair<T>>)
    ensures r.None? <==> start.time > endTimeBase || end.time < startTimeBase
    ensures r.Some? ==> r.value.startTime == Max(start.time, startTimeBase)
    ensures r.Some? ==> r.value.endTime == MinTime(end.time, endTimeBase)
    ensures r.Some? && start.time >= startTimeBase ==> r.value.startValue == start.value
    ensures r.Some? && end.time <= endTimeBase ==> r.value.endValue == end.value
    // the divisor end.time - start.time is reached only when it is positive
    ensures r.Some? && (start.time < startTimeBase || end.time > endTimeBase) ==> start.time < end.time
  {
    if start.time <= endTimeBase && end.time >= startTimeBase then
      var startTime := if start.time >= startTimeBase then start.time else startTimeBase;
      var endTime := if end.time <= endTimeBase then end.time else endTimeBase;
      var startValue := if start.time >= startTimeBase then start.value
        else f(start.value, end.value, (startTimeBase - start.time) / (end.time - start.time));
      var endValue := if end.time <= endTimeBase then end.value
        else f(start.value, end.value, (endTimeBase - start.time) / (end.time - start.time));
      Some(KeyframePair(startTime, endTime, startValue, endValue))
    else None
  }

  /** For an ordered segment and a non-empty window, a surviving segment is
      ordered and lies inside the window; a segment already inside the
      window survives unchanged. */
  lemma DrawDataWithinWindow<T>(start: Keyframe<T>, end: Keyframe<T>, startTimeBase: real, endTimeBase: real,
                                f: (T, T, real) -> T)
    requires start.time <= end.time && startTimeBase <= endTimeBase
    ensures var r := DrawData(start, end, startTimeBase, endTimeBase, f);
      && (r.Some? ==> startTimeBase <= r.value.startTime <= r.value.endTime <= endTimeBase)
      && (startTimeBase <= start.time && end.time <= endTimeBase ==>
            r == Some(KeyframePair(start.time, end.time, start.value, end.value)))
  {
  }

  /** An interpolator exact at both ends, as the linear ones are. */
  ghost predicate ExactAtEnds<T(!new)>(f: (T, T, real) -> T) {
    forall a, b :: f(a, b, 0.0) == a && f(a, b, 1.0) == b
  }

  lemma LinearExactAtEnds()
    ensures ExactAtEnds(LerpReal)
    ensures ExactAtEnds(LerpVec)
  {
  }

  /** A clipped segment keeps to the original one: each of its endpoints is
      the value Interpolate gives on the original segment at that endpoint's
      time. */
  lemma DrawDataOnSegment<T(!new)>(start: Keyframe<T>, end: Keyframe<T>, startTimeBase: real, endTimeBase: real,
                                   f: (T, T, real) -> T)
    requires start.time < end.time && ExactAtEnds(f)
    requires DrawData(start, end, startTimeBase, endTimeBase, f).Some?
    ensures var p := DrawData(start, end, startTimeBase, endTimeBase, f).value;
      && p.startValue == Interpolate(start, end, p.startTime, f)
      && p.endValue == Interpolate(start, end, p.endTime, f)
  {
    var p := DrawData(start, end, startTimeBase, endTimeBase, f).value;
    if start.time >= startTimeBase {
      assert Progress(start.time, end.time, start.time) == 0.0;
      assert f(start.value, end.value, 0.0) == start.value;
    } else if startTimeBase == end.time {
      assert (startTimeBase - start.time) / (end.time - start.time) == 1.0;
      assert f(start.value, end.value, 1.0) == end.value;
    }
  }

  /** The segment of a consecutive pair, as a zero- or one-element list. */
  function Clipped<T>(start: Keyframe<T>, end: Keyframe<T>, startTimeBase: real, endTimeBase: real,
                      f: (T, T, real) -> T): seq<KeyframePair<T>>
  {
    match DrawData(start, end, startTimeBase, endTimeBase, f)
    case None => []
    case Some(p) => [p]
  }

  /** ForEachPair with DrawData: the surviving clipped segments of a track,
      in pair order. */
  function ClipTrack<T>(t: Track<T>, startTimeBase: real, endTimeBase: real, f: (T, T, real) -> T): seq<KeyframePair<T>>
    decreases |t|
  {
    if |t| < 2 then []
    else ClipTrack(t[..|t| - 1], startTimeBase, endTimeBase, f)
           + Clipped(t[|t| - 2], t[|t| - 1], startTimeBase, endTimeBase, f)
  }

  /** At most one segment per consecutive pair of keyframes. */
  lemma {:induction false} ClipTrackCount<T>(t: Track<T>, startTimeBase: real, endTimeBase: real,
                                             f: (T, T, real) -> T)
    ensures |ClipTrack(t, startTimeBase, endTimeBase, f)| <= |Pairs(t)|
    decreases |t|
  {
    if |t| >= 2 {
      ClipTrackCount(t[..|t| - 1], startTimeBase, endTimeBase, f);
    }
  }

  /** On a sorted track and a non-empty window, every segment is ordered and
      inside the window. */
  lemma {:induction false} ClipTrackWindow<T>(t: Track<T>, startTimeBase: real, endTimeBase: real,
                                              f: (T, T, real) -> T)
    requires Sorted(t) && startTimeBase <= endTimeBase
    ensures forall p <- ClipTrack(t, startTimeBase, endTimeBase, f) ::
      startTimeBase <= p.startTime <= p.endTime <= endTimeBase
    decreases |t|
  {
    if |t| >= 2 {
      var init := t[..|t| - 1];
      assert Sorted(init) by {
        assert forall i :: 0 <= i < |init| ==> init[i] == t[i];
      }
      ClipTrackWindow(init, startTimeBase, endTimeBase, f);
      DrawDataWithinWindow(t[|t| - 2], t[|t| - 1], startTimeBase, endTimeBase, f);
      var rest := ClipTrack(init, startTimeBase, endTimeBase, f);
      var c := Clipped(t[|t| - 2], t[|t| - 1], startTimeBase, endTimeBase, f);
      var ps := ClipTrack(t, startTimeBase, endTimeBase, f);
      assert ps == rest + c;
      var r := DrawData(t[|t| - 2], t[|t| - 1], startTimeBase, endTimeBase, f);
      assert r.Some? ==> c == [r.value];
    }
  }

  /** On a sorted track the segments are in chronological order, and the
      last one ends no later than the track's last keyframe and the window. */
  lemma {:induction false} ClipTrackOrdered<T>(t: Track<T>, startTimeBase: real, endTimeBase: real,
                                               f: (T, T, real) -> T)
    requires Sorted(t) && startTimeBase <= endTimeBase
    ensures var ps := ClipTrack(t, startTimeBase, endTimeBase, f);
      && (forall i, j :: 0 <= i < j < |ps| ==> ps[i].endTime <= ps[j].startTime)
      && (|ps| > 0 ==> ps[|ps| - 1].endTime <= MinTime(t[|t| - 1].time, endTimeBase))
    decreases |t|
  {
    if |t| >= 2 {
      var init := t[..|t| - 1];
      assert Sorted(init) by {
        assert forall i :: 0 <= i < |init| ==> init[i] == t[i];
      }
      ClipTrackOrdered(init, startTimeBase, endTimeBase, f);
      ClipTrackWindow(init, startTimeBase, endTimeBase, f);
      var start, end := t[|t| - 2], t[|t| - 1];
      var rest := ClipTrack(init, startTimeBase, endTimeBase, f);
      var c := Clipped(start, end, startTimeBase, endTimeBase, f);
      var ps := ClipTrack(t, startTimeBase, endTimeBase, f);
      assert ps == rest + c;
      assert init[|init| - 1] == start;
      if |c| > 0 {
        assert c[0].startTime >= start.time && c[0].endTime == MinTime(end.time, endTimeBase);
        forall i | 0 <= i < |rest| ensures rest[i].endTime <= c[0].startTime {
          assert rest[i].endTime <= rest[|rest| - 1].endTime;
        }
        forall i, j | 0 <= i < j < |ps| ensures ps[i].endTime <= ps[j].startTime {
          if j < |rest| {
            assert ps[i] == rest[i] && ps[j] == rest[j];
          } else {
            assert ps[i] == rest[i] && ps[j] == c[0];
          }
        }
      } else {
        assert ps == rest;
      }
    }
  }

  /** On a sorted track and a non-empty window: at most one segment per
      consecutive pair, each inside the window and ordered, and segments
      in chronological order. */
  lemma ClipTrackBounds<T>(t: Track<T>, startTimeBase: real, endTimeBase: real, f: (T, T, real) -> T)
    requires Sorted(t) && startTimeBase <= endTimeBase
    ensures var ps := ClipTrack(t, startTimeBase, endTimeBase, f);
      && |ps| <= |Pairs(t)|
      && (forall i :: 0 <= i < |ps| ==>
            startTimeBase <= ps[i].startTime <= ps[i].endTime <= endTimeBase)
      && (forall i, j :: 0 <= i < j < |ps| ==> ps[i].endTime <= ps[j].startTime)
      && (|ps| > 0 ==> ps[|ps| - 1].endTime <= MinTime(t[|t| - 1].time, endTimeBase))
  {
    ClipTrackCount(t, startTimeBase, endTimeBase, f);
    ClipTrackWindow(t, startTimeBase, endTimeBase, f);
    ClipTrackOrdered(t, startTimeBase, endTimeBase, f);
  }

  /** A track whose keyframes are all inside the window is not cut at all:
      one segment per consecutive pair, with the original times and values. */
  lemma {:induction false} ClipTrackInside<T>(t: Track<T>, startTimeBase: real, endTimeBase: real,
                                              f: (T, T, real) -> T)
    requires Sorted(t)
    requires forall i :: 0 <= i < |t| ==> startTimeBase <= t[i].time <= endTimeBase
    ensures var ps := ClipTrack(t, startTimeBase, endTimeBase, f);
      && |ps| == |Pairs(t)|
      && forall i :: 0 <= i < |ps| ==>
           ps[i] == KeyframePair(t[i].time, t[i + 1].time, t[i].value, t[i + 1].value)
    decreases |t|
  {
    if |t| >= 2 {
      var init := t[..|t| - 1];
      assert forall i :: 0 <= i < |init| ==> init[i] == t[i];
      assert Sorted(init);
      ClipTrackInside(init, startTimeBase, endTimeBase, f);
      DrawDataWithinWindow(t[|t| - 2], t[|t| - 1], startTimeBase, endTimeBase, f);
      var rest := ClipTrack(init, startTimeBase, endTimeBase, f);
      assert ClipTrack(t, startTimeBase, endTimeBase, f)
          == rest + [KeyframePair(t[|t| - 2].time, t[|t| - 1].time, t[|t| - 2].value, t[|t| - 1].value)];
    }
  }

  /** A track entirely before the window, or entirely after it, draws nothing. */
  lemma {:induction false} ClipTrackOutside<T>(t: Track<T>, startTimeBase: real, endTimeBase: real,
                                               f: (T, T, real) -> T)
    requires (forall i :: 0 <= i < |t| ==> t[i].time < startTimeBase)
          || (forall i :: 0 <= i < |t| ==> endTimeBase < t[i].time)
    ensures ClipTrack(t, startTimeBase, endTimeBase, f) == []
    decreases |t|
  {
    if |t| >= 2 {
      ClipTrackOutside(t[..|t| - 1], startTimeBase, endTimeBase, f);
    }
  }
}
