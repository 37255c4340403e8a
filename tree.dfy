/** What drawing a node tree issues, over a value snapshot of the tree:
    Group.Draw and GroupSprite.Draw as functions. A `Node` records one
    GroupElement: its kind, its own three tracks, its children (groups
    only) and, for a sprite, the OsbSprite it draws on, `_scaleBase` and
    the `[_startTimeBase, _endTimeBase]` window. */
module Tree {
  import opened Keyframes
  import opened Formulas
  import opened Merge
  import opened Clipping

  /** OsbSprite.Move / Rotate / ScaleVec over an interval, naming the sprite. */
  datatype Command =
    | Move(sprite: nat, startTime: real, endTime: real, startPosition: Vec2, endPosition: Vec2)
    | Rotate(sprite: nat, startTime: real, endTime: real, startRotation: real, endRotation: real)
    | ScaleVec(sprite: nat, startTime: real, endTime: real, startScale: Vec2, endScale: Vec2)

  datatype Node = Node(isGroup: bool, move: Track<Vec2>, rotate: Track<real>, scale: Track<real>,
                       children: seq<Node>,
                       sprite: nat, scaleBase: Vec2, startTimeBase: real, endTimeBase: real)

  /** Commands made from a list of clipped segments, one each, in order. */
  function Commands<T>(ps: seq<KeyframePair<T>>, make: KeyframePair<T> -> Command): (cs: seq<Command>)
    ensures |cs| == |ps|
    ensures forall i :: 0 <= i < |ps| ==> cs[i] == make(ps[i])
  {
    seq(|ps|, i requires 0 <= i < |ps| => make(ps[i]))
  }

  lemma CommandsAppend<T>(ps: seq<KeyframePair<T>>, qs: seq<KeyframePair<T>>, make: KeyframePair<T> -> Command)
    ensures Commands(ps + qs, make) == Commands(ps, make) + Commands(qs, make)
  {
  }

  /** Sprite.Move(segment). */
  function MoveMaker(sprite: nat): KeyframePair<Vec2> -> Command {
    (p: KeyframePair<Vec2>) => Move(sprite, p.startTime, p.endTime, p.startValue, p.endValue)
  }

  /** Sprite.Rotate(segment). */
  function RotateMaker(sprite: nat): KeyframePair<real> -> Command {
    (p: KeyframePair<real>) => Rotate(sprite, p.startTime, p.endTime, p.startValue, p.endValue)
  }

  /** Sprite.ScaleVec(segment): the scalar scale times `_scaleBase`. */
  function ScaleMaker(sprite: nat, scaleBase: Vec2): KeyframePair<real> -> Command {
    (p: KeyframePair<real>) => ScaleVec(sprite, p.startTime, p.endTime, Times(p.startValue, scaleBase), Times(p.endValue, scaleBase))
  }

  /** The three ForEachPair loops of a sprite over three tracks: a Move per
      surviving move segment, then a Rotate per rotate segment, then a
      ScaleVec per scale segment. */
  function SpriteDrawn(n: Node, move: Track<Vec2>, rotate: Track<real>, scale: Track<real>): seq<Command> {
    Commands(ClipTrack(move, n.startTimeBase, n.endTimeBase, LerpVec), MoveMaker(n.sprite))
      + Commands(ClipTrack(rotate, n.startTimeBase, n.endTimeBase, LerpReal), RotateMaker(n.sprite))
      + Commands(ClipTrack(scale, n.startTimeBase, n.endTimeBase, LerpReal), ScaleMaker(n.sprite, n.scaleBase))
  }

  /** Commands made from segments inside `[lo, hi]` by a maker that keeps
      the segment's times and names `sprite` lie inside `[lo, hi]`. */
  lemma CommandsInWindow<T>(ps: seq<KeyframePair<T>>, make: KeyframePair<T> -> Command, sprite: nat, lo: real, hi: real)
    requires forall p <- ps :: lo <= p.startTime <= p.endTime <= hi
    requires forall p :: make(p).sprite == sprite && make(p).startTime == p.startTime && make(p).endTime == p.endTime
    ensures forall c <- Commands(ps, make) :: c.sprite == sprite && lo <= c.startTime <= c.endTime <= hi
  {
    forall c <- Commands(ps, make) ensures c.sprite == sprite && lo <= c.startTime <= c.endTime <= hi {
      var i :| 0 <= i < |ps| && Commands(ps, make)[i] == c;
      assert ps[i] in ps;
    }
  }

  /** A sprite drawing sorted tracks within a non-empty window issues at
      most one command per consecutive pair of each track, every one to its
      own sprite and inside its window. */
  lemma SpriteDrawnInWindow(n: Node, move: Track<Vec2>, rotate: Track<real>, scale: Track<real>)
    requires Sorted(move) && Sorted(rotate) && Sorted(scale) && n.startTimeBase <= n.endTimeBase
    ensures |SpriteDrawn(n, move, rotate, scale)| <= |Pairs(move)| + |Pairs(rotate)| + |Pairs(scale)|
    ensures forall c <- SpriteDrawn(n, move, rotate, scale) ::
      c.sprite == n.sprite && n.startTimeBase <= c.startTime <= c.endTime <= n.endTimeBase
  {
    var lo, hi := n.startTimeBase, n.endTimeBase;
    ClipTrackCount(move, lo, hi, LerpVec);
    ClipTrackCount(rotate, lo, hi, LerpReal);
    ClipTrackCount(scale, lo, hi, LerpReal);
    ClipTrackWindow(move, lo, hi, LerpVec);
    ClipTrackWindow(rotate, lo, hi, LerpReal);
    ClipTrackWindow(scale, lo, hi, LerpReal);
    CommandsInWindow(ClipTrack(move, lo, hi, LerpVec), MoveMaker(n.sprite), n.sprite, lo, hi);
    CommandsInWindow(ClipTrack(rotate, lo, hi, LerpReal), RotateMaker(n.sprite), n.sprite, lo, hi);
    CommandsInWindow(ClipTrack(scale, lo, hi, LerpReal), ScaleMaker(n.sprite, n.scaleBase), n.sprite, lo, hi);
  }

  /** The tracks a node hands down (a group) or draws (a sprite) under a
      parent context: its own tracks merged against it. */
  function MergedContext(ext: Externals, n: Node, parentMove: Track<Vec2>, parentRotate: Track<real>, parentScale: Track<real>)
    : (Track<Vec2>, Track<real>, Track<real>)
  {
    (MergedMove(ext, MoveInputs(n.move, parentMove, parentRotate, parentScale)),
     MergedRotate(n.rotate, parentRotate),
     MergedScale(n.scale, parentScale))
  }

  /** Draw(parent...): a sprite draws its merged tracks; a group merges once
      and hands the same merged tracks to each child in turn. */
  function Drawn(ext: Externals, n: Node, parentMove: Track<Vec2>, parentRotate: Track<real>, parentScale: Track<real>): seq<Command>
    decreases n, 1
  {
    var ctx := MergedContext(ext, n, parentMove, parentRotate, parentScale);
    if n.isGroup then ChildrenDrawn(ext, n, |n.children|, ctx.0, ctx.1, ctx.2)
    else SpriteDrawn(n, ctx.0, ctx.1, ctx.2)
  }

  /** Simplify2dKeyframes (not part of this model) only drops keyframes, so
      it keeps a sorted track sorted; this is all the window lemma below
      assumes of it. */
  ghost predicate SimplifyKeepsSorted(ext: Externals) {
    forall t: Track<Vec2> {:trigger ext.simplify(t)} :: Sorted(t) ==> Sorted(ext.simplify(t))
  }

  /** GroupSprite.Draw(parent...) on sorted tracks within a non-empty window:
      at most one command per consecutive pair of each merged track, every
      one to the sprite and inside its window. */
  lemma DrawnSpriteInWindow(ext: Externals, n: Node, parentMove: Track<Vec2>, parentRotate: Track<real>, parentScale: Track<real>)
    requires !n.isGroup && n.startTimeBase <= n.endTimeBase && SimplifyKeepsSorted(ext)
    requires Sorted(n.move) && Sorted(n.rotate) && Sorted(n.scale)
    requires Sorted(parentMove) && Sorted(parentRotate) && Sorted(parentScale)
    ensures var ctx := MergedContext(ext, n, parentMove, parentRotate, parentScale);
      |Drawn(ext, n, parentMove, parentRotate, parentScale)| <= |Pairs(ctx.0)| + |Pairs(ctx.1)| + |Pairs(ctx.2)|
    ensures forall c <- Drawn(ext, n, parentMove, parentRotate, parentScale) ::
      c.sprite == n.sprite && n.startTimeBase <= c.startTime <= c.endTime <= n.endTimeBase
  {
    var ins := MoveInputs(n.move, parentMove, parentRotate, parentScale);
    SweptMoveSpec(ext, ins);
    assert Sorted(ext.simplify(SweptMove(ext, ins)));
    MergedPairSpec(n.rotate, parentRotate, DefaultRotate, RotateFormula);
    MergedPairSpec(n.scale, parentScale, DefaultScale, ScaleFormula);
    var ctx := MergedContext(ext, n, parentMove, parentRotate, parentScale);
    SpriteDrawnInWindow(n, ctx.0, ctx.1, ctx.2);
  }

  /** What the first `k` children of `n` issue, in list order, all drawn
      with the same context. */
  function ChildrenDrawn(ext: Externals, n: Node, k: nat, move: Track<Vec2>, rotate: Track<real>, scale: Track<real>): seq<Command>
    requires k <= |n.children|
    decreases n, 0, k, 1
  {
    if k == 0 then []
    else ChildrenDrawn(ext, n, k - 1, move, rotate, scale) + ChildDrawn(ext, n, k - 1, move, rotate, scale)
  }

  /** What child `i` of `n` issues under its parent's context. */
  function ChildDrawn(ext: Externals, n: Node, i: nat, move: Track<Vec2>, rotate: Track<real>, scale: Track<real>): seq<Command>
    requires i < |n.children|
    decreases n, 0, i, 0
  {
    Drawn(ext, n.children[i], move, rotate, scale)
  }

  /** Draw(): no merge; a sprite draws its own tracks, a group hands its own
      tracks, unmerged, to each child. */
  function RootDrawn(ext: Externals, n: Node): seq<Command> {
    if n.isGroup then ChildrenDrawn(ext, n, |n.children|, n.move, n.rotate, n.scale)
    else SpriteDrawn(n, n.move, n.rotate, n.scale)
  }
}
