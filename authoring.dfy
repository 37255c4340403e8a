/** The authoring side of GroupElement: the Move / Rotate / Scale overloads
    append keyframes to a node's own track. KeyframedValue.Add(time) (not
    part of this model) is taken to append a hold: a keyframe at `time`
    repeating the last value. */
module Authoring {
  import opened Keyframes
  import opened Formulas

  /** `if (track.Count > 0) track.Add(time)`: nothing on an empty track,
      otherwise one keyframe at `time` carrying the last value on. */
  function Hold<T>(track: Track<T>, time: real): (r: Track<T>)
    ensures |track| == 0 ==> r == []
    ensures |track| > 0 ==> |r| == |track| + 1 && r[..|track|] == track
    ensures |track| > 0 ==> r[|track|] == Keyframe(time, track[|track| - 1].value)
  {
    if |track| > 0 then track + [Keyframe(time, track[|track| - 1].value)] else track
  }

  /** Move(time, position) and its Rotate / Scale twins. */
  function Instant<T>(track: Track<T>, time: real, value: T): (r: Track<T>)
  {
    Hold(track, time) + [Keyframe(time, value)]
  }

  /** Move(startTime, endTime, startPosition, endPosition) and its twins. */
  function Linear<T>(track: Track<T>, startTime: real, endTime: real, startValue: T, endValue: T): (r: Track<T>)
  {
    Hold(track, startTime) + [Keyframe(startTime, startValue), Keyframe(endTime, endValue)]
  }

  /** The `k`-th sample of the eased `for` loop: at `startTime + 16 k`, the
      interpolation between the two values at the eased progress. Only
      taken while that time is below `endTime`, so the divisor is positive. */
  function EasedSample<T>(startTime: real, endTime: real, startValue: T, endValue: T,
                          f: (T, T, real) -> T, easing: real -> real, k: nat): (r: Keyframe<T>)
    requires startTime + KeyframeTimestep * k as real < endTime
    ensures r.time == startTime + KeyframeTimestep * k as real
  {
    var time := startTime + KeyframeTimestep * k as real;
    Keyframe(time, f(startValue, endValue, easing((time - startTime) / (endTime - startTime))))
  }

  /** What remains of the loop to go: `(endTime - time) / 16` rounded down,
      plus one, while the loop condition holds. */
  function EasedBudget(startTime: real, endTime: real, k: nat): nat {
    var time := startTime + KeyframeTimestep * k as real;
    if time < endTime then ((endTime - time) / KeyframeTimestep).Floor + 1 else 0
  }

  lemma EasedBudgetDecreases(startTime: real, endTime: real, k: nat)
    requires startTime + KeyframeTimestep * k as real < endTime
    ensures EasedBudget(startTime, endTime, k + 1) < EasedBudget(startTime, endTime, k)
  {
    var time := startTime + KeyframeTimestep * k as real;
    var q := (endTime - time) / KeyframeTimestep;
    assert (endTime - (time + KeyframeTimestep)) / KeyframeTimestep == q - 1.0;
    assert (q - 1.0).Floor == q.Floor - 1;
  }

  /** The temp track of an eased overload from the `k`-th sample on: the
      samples while their time is below `endTime`, then `(endTime, endValue)`. */
  function EasedFrom<T>(startTime: real, endTime: real, startValue: T, endValue: T,
                        f: (T, T, real) -> T, easing: real -> real, k: nat): Track<T>
    decreases EasedBudget(startTime, endTime, k)
  {
    if startTime + KeyframeTimestep * k as real < endTime then
      EasedBudgetDecreases(startTime, endTime, k);
      [EasedSample(startTime, endTime, startValue, endValue, f, easing, k)]
        + EasedFrom(startTime, endTime, startValue, endValue, f, easing, k + 1)
    else [Keyframe(endTime, endValue)]
  }

  function EasedTemp<T>(startTime: real, endTime: real, startValue: T, endValue: T,
                        f: (T, T, real) -> T, easing: real -> real): Track<T>
  {
    EasedFrom(startTime, endTime, startValue, endValue, f, easing, 0)
  }

  /** Keyframe `i` of `r`, a temp track from sample `k` on, is sample `k + i`. */
  ghost predicate IsSample<T>(r: Track<T>, startTime: real, endTime: real, startValue: T, endValue: T,
                        f: (T, T, real) -> T, easing: real -> real, k: nat, i: nat)
    requires i < |r|
  {
    && startTime + KeyframeTimestep * (k + i) as real < endTime
    && r[i] == EasedSample(startTime, endTime, startValue, endValue, f, easing, k + i)
  }

  /** The eased temp track from sample `k` on: sample `k + i` sits at
      `startTime + 16 (k + i)`, below `endTime`, with the eased value; the
      last keyframe is `(endTime, endValue)` and no further sample would
      have fitted before it. */
  lemma {:induction false} EasedFromSpec<T>(startTime: real, endTime: real, startValue: T, endValue: T,
                                            f: (T, T, real) -> T, easing: real -> real, k: nat)
    ensures var r := EasedFrom(startTime, endTime, startValue, endValue, f, easing, k);
      && |r| >= 1
      && r[|r| - 1] == Keyframe(endTime, endValue)
      && endTime <= startTime + KeyframeTimestep * (k + |r| - 1) as real
      && (forall i :: 0 <= i < |r| - 1 ==> IsSample(r, startTime, endTime, startValue, endValue, f, easing, k, i))
    decreases EasedBudget(startTime, endTime, k)
  {
    if startTime + KeyframeTimestep * k as real < endTime {
      EasedBudgetDecreases(startTime, endTime, k);
      var r := EasedFrom(startTime, endTime, startValue, endValue, f, easing, k);
      var rest := EasedFrom(startTime, endTime, startValue, endValue, f, easing, k + 1);
      EasedFromSpec(startTime, endTime, startValue, endValue, f, easing, k + 1);
      assert r == [EasedSample(startTime, endTime, startValue, endValue, f, easing, k)] + rest;
      forall i | 0 <= i < |r| - 1
        ensures IsSample(r, startTime, endTime, startValue, endValue, f, easing, k, i)
      {
        if i > 0 {
          assert IsSample(rest, startTime, endTime, startValue, endValue, f, easing, k + 1, i - 1);
          assert r[i] == rest[i - 1];
          assert k + 1 + (i - 1) == k + i;
        }
      }
    }
  }

  /** An empty or reversed interval never enters the loop (so never divides):
      the temp track is the end keyframe alone. */
  lemma EasedTempEmptyInterval<T>(startTime: real, endTime: real, startValue: T, endValue: T,
                                  f: (T, T, real) -> T, easing: real -> real)
    requires endTime <= startTime
    ensures EasedTemp(startTime, endTime, startValue, endValue, f, easing) == [Keyframe(endTime, endValue)]
  {
  }

  /** The eased `for` loop of GroupElement.Move / Rotate / Scale (eased
      overloads), filling the temp track; `time` advances in exact steps. */
  method EasedKeyframes<T>(startTime: real, endTime: real, startValue: T, endValue: T,
                           f: (T, T, real) -> T, easing: real -> real) returns (temp: Track<T>)
    ensures temp == EasedTemp(startTime, endTime, startValue, endValue, f, easing)
  {
    temp := [];
    var time := startTime;
    while time < endTime
      invariant time == startTime + KeyframeTimestep * |temp| as real
      invariant temp + EasedFrom(startTime, endTime, startValue, endValue, f, easing, |temp|)
             == EasedTemp(startTime, endTime, startValue, endValue, f, easing)
      decreases EasedBudget(startTime, endTime, |temp|)
    {
      EasedBudgetDecreases(startTime, endTime, |temp|);
      ghost var k := |temp|;
      temp := temp + [Keyframe(time, f(startValue, endValue, easing((time - startTime) / (endTime - startTime))))];
      assert temp[k] == EasedSample(startTime, endTime, startValue, endValue, f, easing, k);
      time := time + KeyframeTimestep;
    }
    temp := temp + [Keyframe(endTime, endValue)];
  }

  /** The eased overload: hold, start keyframe, then the (possibly
      simplified) temp track transferred onto the end of the track. */
  function Eased<T>(track: Track<T>, startTime: real, startValue: T, temp: Track<T>): (r: Track<T>)
  {
    Hold(track, startTime) + [Keyframe(startTime, startValue)] + temp
  }

  /** The time of a track's last keyframe, or `time` for an empty track. */
  function LastTimeOr<T>(track: Track<T>, time: real): real {
    if |track| > 0 then track[|track| - 1].time else time
  }

  /** Appending at or after the current last time keeps a track sorted. */
  lemma AppendSorted<T>(track: Track<T>, added: Track<T>)
    requires Sorted(track) && Sorted(added)
    requires |track| > 0 && |added| > 0 ==> track[|track| - 1].time <= added[0].time
    ensures Sorted(track + added)
  {
    var r := track + added;
    forall i, j | 0 <= i < j < |r| ensures r[i].time <= r[j].time {
      if i < |track| && j >= |track| {
        assert r[i].time <= track[|track| - 1].time;
        assert added[0].time <= r[j].time;
      }
    }
  }

  /** What each authoring call promises about the track: earlier keyframes
      stay as they are and come first, and the last keyframe is the newly
      authored end. */
  lemma InstantSpec<T>(track: Track<T>, time: real, value: T)
    ensures var r := Instant(track, time, value);
      && |r| == |track| + (if |track| == 0 then 1 else 2)
      && r[..|track|] == track
      && r[|r| - 1] == Keyframe(time, value)
      && (|track| == 0 ==> r == [Keyframe(time, value)])
      && (|track| > 0 ==> r[|track|] == Keyframe(time, track[|track| - 1].value))
      && (Sorted(track) && LastTimeOr(track, time) <= time ==> Sorted(r))
  {
    var r := Instant(track, time, value);
    assert r[..|track|] == Hold(track, time)[..|track|];
    if Sorted(track) && LastTimeOr(track, time) <= time {
      AppendSorted(track, r[|track|..]);
      assert track + r[|track|..] == r;
    }
  }

  lemma LinearSpec<T>(track: Track<T>, startTime: real, endTime: real, startValue: T, endValue: T)
    ensures var r := Linear(track, startTime, endTime, startValue, endValue);
      && |r| == |track| + (if |track| == 0 then 2 else 3)
      && r[..|track|] == track
      && r[|r| - 2] == Keyframe(startTime, startValue)
      && r[|r| - 1] == Keyframe(endTime, endValue)
      && (|track| > 0 ==> r[|track|] == Keyframe(startTime, track[|track| - 1].value))
      && (Sorted(track) && LastTimeOr(track, startTime) <= startTime <= endTime ==> Sorted(r))
  {
    var r := Linear(track, startTime, endTime, startValue, endValue);
    assert r[..|track|] == Hold(track, startTime)[..|track|];
    if Sorted(track) && LastTimeOr(track, startTime) <= startTime <= endTime {
      AppendSorted(track, r[|track|..]);
      assert track + r[|track|..] == r;
    }
  }

  lemma EasedSpec<T>(track: Track<T>, startTime: real, startValue: T, temp: Track<T>)
    ensures var r := Eased(track, startTime, startValue, temp);
      && |r| == |track| + (if |track| == 0 then 1 else 2) + |temp|
      && r[..|track|] == track
      && r[|r| - |temp| - 1] == Keyframe(startTime, startValue)
      && r[|r| - |temp|..] == temp
      && (|track| > 0 ==> r[|track|] == Keyframe(startTime, track[|track| - 1].value))
      && ((Sorted(track) && LastTimeOr(track, startTime) <= startTime && Sorted(temp)
           && (forall i :: 0 <= i < |temp| ==> startTime <= temp[i].time)) ==> Sorted(r))
  {
    var r := Eased(track, startTime, startValue, temp);
    // the keyframes added before the temp track, all at startTime
    var pre: Track<T> := if |track| > 0 then [Keyframe(startTime, track[|track| - 1].value), Keyframe(startTime, startValue)]
                         else [Keyframe(startTime, startValue)];
    assert r == track + (pre + temp);
    assert (track + (pre + temp))[..|track|] == track;
    assert (track + (pre + temp))[|track| + |pre|..] == temp;
    if Sorted(track) && LastTimeOr(track, startTime) <= startTime && Sorted(temp)
       && (forall i :: 0 <= i < |temp| ==> startTime <= temp[i].time) {
      AppendSorted(pre, temp);
      AppendSorted(track, pre + temp);
    }
  }

  /** Over a forward interval the eased temp track lies within it and its
      times strictly increase, so eased authoring on a sorted track at or
      after its last time keeps it sorted. */
  lemma EasedTempSorted<T>(startTime: real, endTime: real, startValue: T, endValue: T,
                           f: (T, T, real) -> T, easing: real -> real)
    requires startTime <= endTime
    ensures var temp := EasedTemp(startTime, endTime, startValue, endValue, f, easing);
      && StrictlySorted(temp)
      && forall i :: 0 <= i < |temp| ==> startTime <= temp[i].time <= endTime
  {
    EasedFromSpec(startTime, endTime, startValue, endValue, f, easing, 0);
    var temp := EasedTemp(startTime, endTime, startValue, endValue, f, easing);
    forall i | 0 <= i < |temp| - 1
      ensures temp[i].time == startTime + KeyframeTimestep * i as real < endTime
    {
      assert IsSample(temp, startTime, endTime, startValue, endValue, f, easing, 0, i);
    }
  }
}
