/** Keyframes and tracks: the value side of a keyframed channel.
    A track is the ordered keyframe list of one channel of one node; the
    interpolating functions are the linear ones the channels are built with. */
module Keyframes {

  /** A 2-D vector (position or non-uniform scale). */
  datatype Vec2 = Vec2(x: real, y: real)

  function Add(a: Vec2, b: Vec2): Vec2 { Vec2(a.x + b.x, a.y + b.y) }

  function Sub(a: Vec2, b: Vec2): Vec2 { Vec2(a.x - b.x, a.y - b.y) }

  function Times(k: real, a: Vec2): Vec2 { Vec2(k * a.x, k * a.y) }

  const Zero := Vec2(0.0, 0.0)
  const One := Vec2(1.0, 1.0)

  /** One keyframe: a time and the value the channel has then. */
  datatype Keyframe<T> = Keyframe(time: real, value: T)

  type Track<T> = seq<Keyframe<T>>

  /** The interpolating function of a scalar channel: `a + (b - a) * t`. */
  function LerpReal(a: real, b: real, t: real): (r: real)
    ensures t == 0.0 ==> r == a
    ensures t == 1.0 ==> r == b
  {
    a + (b - a) * t
  }

  /** At a progress in [0, 1] the scalar interpolation lies between its two
      end values. */
  lemma LerpRealBetween(a: real, b: real, t: real)
    requires 0.0 <= t <= 1.0
    ensures a <= b ==> a <= LerpReal(a, b, t) <= b
    ensures b <= a ==> b <= LerpReal(a, b, t) <= a
  {
    var d := b - a;
    var e := if d >= 0.0 then d else -d;
    ProductNonnegative(e, t);
    ProductNonnegative(e, 1.0 - t);
    assert e * t + e * (1.0 - t) == e;
    assert d * t == if d >= 0.0 then e * t else -(e * t);
  }

  lemma ProductNonnegative(x: real, y: real)
    requires x >= 0.0 && y >= 0.0
    ensures x * y >= 0.0
  {
  }

  /** The interpolating function of a vector channel, component-wise. */
  function LerpVec(a: Vec2, b: Vec2, t: real): (r: Vec2)
    ensures r == Vec2(LerpReal(a.x, b.x, t), LerpReal(a.y, b.y, t))
    ensures t == 0.0 ==> r == a
    ensures t == 1.0 ==> r == b
  {
    Add(a, Times(t, Sub(b, a)))
  }

  /** Keyframe times never decrease along the track (holds share a time). */
  predicate Sorted<T>(t: Track<T>) {
    forall i, j :: 0 <= i < j < |t| ==> t[i].time <= t[j].time
  }

  /** Keyframe times strictly increase: a track without holds. */
  predicate StrictlySorted<T>(t: Track<T>) {
    forall i, j :: 0 <= i < j < |t| ==> t[i].time < t[j].time
  }

  /** The set of times at which a track has a keyframe. */
  function TimesOf<T>(t: Track<T>): set<real> {
    set i | 0 <= i < |t| :: t[i].time
  }

  lemma TimesOfAppend<T>(a: Track<T>, b: Track<T>)
    ensures TimesOf(a + b) == TimesOf(a) + TimesOf(b)
  {
    forall x | x in TimesOf(a) ensures x in TimesOf(a + b) {
      var i :| 0 <= i < |a| && a[i].time == x;
      assert (a + b)[i].time == x;
    }
    forall x | x in TimesOf(a + b) ensures x in TimesOf(a) + TimesOf(b) {
      var i :| 0 <= i < |a + b| && (a + b)[i].time == x;
      if i >= |a| { assert b[i - |a|].time == x; }
    }
    forall x | x in TimesOf(b) ensures x in TimesOf(a + b) {
      var i :| 0 <= i < |b| && b[i].time == x;
      assert (a + b)[|a| + i].time == x;
    }
  }

  /** The consecutive keyframe pairs of a track (KeyframedValue.ForEachPair). */
  function Pairs<T>(t: Track<T>): (ps: seq<(Keyframe<T>, Keyframe<T>)>)
    ensures |ps| == if |t| == 0 then 0 else |t| - 1
    ensures forall i :: 0 <= i < |ps| ==> ps[i] == (t[i], t[i + 1])
    ensures Sorted(t) ==> forall i :: 0 <= i < |ps| ==> ps[i].0.time <= ps[i].1.time
  {
    if |t| < 2 then [] else seq(|t| - 1, i requires 0 <= i < |t| - 1 => (t[i], t[i + 1]))
  }
}
