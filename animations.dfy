/** The node tree: GroupElement with its two concrete kinds, Group (a list
    of child nodes) and GroupSprite (a leaf drawing onto one OsbSprite).
    One class stands for all three, told apart by `isGroup`; the sprite
    fields of a group node are unused. The OsbSprite targets are one
    command log, each command naming the sprite it was issued to. */
module Animations {
  import opened Options
  import opened Keyframes
  import opened Formulas
  import opened Cursors
  import opened Merge
  import opened Authoring
  import opened Clipping
  import opened Tree

  /** Everything the sprites of a tree receive, in order. */
  class CommandLog {
    var log: seq<Command>

    constructor ()
      ensures log == []
    {
      log := [];
    }

    /** Sprite.Move / Rotate / ScaleVec. */
    method Append(c: Command)
      modifies this
      ensures log == old(log) + [c]
    {
      log := log + [c];
    }
  }

  class GroupElement {
    var moveKeyframes: Track<Vec2>
    var rotateKeyframes: Track<real>
    var scaleKeyframes: Track<real>

    const isGroup: bool
    /** Group._groupElementList. */
    var children: seq<GroupElement>
    ghost var Repr: set<GroupElement>

    /** GroupSprite.Sprite, _scaleBase, _startTimeBase, _endTimeBase. */
    const sprite: nat
    const scaleBase: Vec2
    const startTimeBase: real
    const endTimeBase: real

    /** The node and everything below it make up `Repr`; no node lies below
        itself; sprites have no children. */
    ghost predicate Valid()
      reads this, Repr
      decreases Repr
    {
      && this in Repr
      && (!isGroup ==> children == [])
      && forall c :: c in children ==>
           && c in Repr && c.Repr <= Repr && this !in c.Repr
           && c.Valid()
    }

    /** new Group(). */
    constructor Group()
      ensures Valid() && Repr == {this}
      ensures isGroup && children == []
      ensures moveKeyframes == [] && rotateKeyframes == [] && scaleKeyframes == []
    {
      moveKeyframes, rotateKeyframes, scaleKeyframes := [], [], [];
      isGroup := true;
      children := [];
      sprite, scaleBase, startTimeBase, endTimeBase := 0, One, 0.0, 0.0;
      Repr := {this};
    }

    /** new GroupSprite(sprite, startTime, endTime, Vector2 scaleBase). */
    constructor SpriteVec(sprite: nat, startTime: real, endTime: real, scaleBase: Vec2)
      ensures Valid() && Repr == {this}
      ensures !isGroup && children == []
      ensures moveKeyframes == [] && rotateKeyframes == [] && scaleKeyframes == []
      ensures this.sprite == sprite && this.scaleBase == scaleBase
      ensures startTimeBase == startTime && endTimeBase == endTime
    {
      moveKeyframes, rotateKeyframes, scaleKeyframes := [], [], [];
      isGroup := false;
      children := [];
      this.sprite, this.scaleBase := sprite, scaleBase;
      startTimeBase, endTimeBase := startTime, endTime;
      Repr := {this};
    }

    /** new GroupSprite(sprite, startTime, endTime, double scaleBase): the
        uniform scale becomes `scaleBase * (1, 1)`; DEFAULT_SCALE is the
        caller's default. */
    constructor Sprite(sprite: nat, startTime: real, endTime: real, scaleBase: real)
      ensures Valid() && Repr == {this}
      ensures !isGroup && children == []
      ensures moveKeyframes == [] && rotateKeyframes == [] && scaleKeyframes == []
      ensures this.sprite == sprite && this.scaleBase == Vec2(scaleBase, scaleBase)
      ensures startTimeBase == startTime && endTimeBase == endTime
    {
      moveKeyframes, rotateKeyframes, scaleKeyframes := [], [], [];
      isGroup := false;
      children := [];
      this.sprite, this.scaleBase := sprite, Times(scaleBase, One);
      startTimeBase, endTimeBase := startTime, endTime;
      Repr := {this};
    }

    // -------------------------------------------------------------------
    // Authoring: each overload changes its own channel and nothing else.

    /** Move(time, position). */
    method MoveInstant(time: real, position: Vec2)
      requires Valid()
      modifies this
      ensures Valid()
      ensures moveKeyframes == Instant(old(moveKeyframes), time, position)
      ensures rotateKeyframes == old(rotateKeyframes) && scaleKeyframes == old(scaleKeyframes)
      ensures children == old(children) && Repr == old(Repr)
    {
      moveKeyframes := Instant(moveKeyframes, time, position);
    }

    /** Move(startTime, endTime, startPosition, endPosition). */
    method MoveLinear(startTime: real, endTime: real, startPosition: Vec2, endPosition: Vec2)
      requires Valid()
      modifies this
      ensures Valid()
      ensures moveKeyframes == Linear(old(moveKeyframes), startTime, endTime, startPosition, endPosition)
      ensures rotateKeyframes == old(rotateKeyframes) && scaleKeyframes == old(scaleKeyframes)
      ensures children == old(children) && Repr == old(Repr)
    {
      moveKeyframes := Linear(moveKeyframes, startTime, endTime, startPosition, endPosition);
    }

    /** Move(easing, startTime, endTime, startPosition, endPosition): the
        sampled temp track is simplified before it is transferred. */
    method MoveEased(ext: Externals, easing: real -> real, startTime: real, endTime: real,
                     startPosition: Vec2, endPosition: Vec2)
      requires Valid()
      modifies this
      ensures Valid()
      ensures moveKeyframes == Eased(old(moveKeyframes), startTime, startPosition,
                                     ext.simplify(EasedTemp(startTime, endTime, startPosition, endPosition, LerpVec, easing)))
      ensures rotateKeyframes == old(rotateKeyframes) && scaleKeyframes == old(scaleKeyframes)
      ensures children == old(children) && Repr == old(Repr)
    {
      var track := Hold(moveKeyframes, startTime) + [Keyframe(startTime, startPosition)];
      var temp := EasedKeyframes(startTime, endTime, startPosition, endPosition, LerpVec, easing);
      temp := ext.simplify(temp);
      moveKeyframes := track + temp;
    }

    /** Rotate(time, rotation). */
    method RotateInstant(time: real, rotation: real)
      requires Valid()
      modifies this
      ensures Valid()
      ensures rotateKeyframes == Instant(old(rotateKeyframes), time, rotation)
      ensures moveKeyframes == old(moveKeyframes) && scaleKeyframes == old(scaleKeyframes)
      ensures children == old(children) && Repr == old(Repr)
    {
      rotateKeyframes := Instant(rotateKeyframes, time, rotation);
    }

    /** Rotate(startTime, endTime, startRotation, endRotation). */
    method RotateLinear(startTime: real, endTime: real, startRotation: real, endRotation: real)
      requires Valid()
      modifies this
      ensures Valid()
      ensures rotateKeyframes == Linear(old(rotateKeyframes), startTime, endTime, startRotation, endRotation)
      ensures moveKeyframes == old(moveKeyframes) && scaleKeyframes == old(scaleKeyframes)
      ensures children == old(children) && Repr == old(Repr)
    {
      rotateKeyframes := Linear(rotateKeyframes, startTime, endTime, startRotation, endRotation);
    }

    /** Rotate(easing, startTime, endTime, startRotation, endRotation): no
        simplification. */
    method RotateEased(easing: real -> real, startTime: real, endTime: real, startRotation: real, endRotation: real)
      requires Valid()
      modifies this
      ensures Valid()
      ensures rotateKeyframes == Eased(old(rotateKeyframes), startTime, startRotation,
                                       EasedTemp(startTime, endTime, startRotation, endRotation, LerpReal, easing))
      ensures moveKeyframes == old(moveKeyframes) && scaleKeyframes == old(scaleKeyframes)
      ensures children == old(children) && Repr == old(Repr)
    {
      var track := Hold(rotateKeyframes, startTime) + [Keyframe(startTime, startRotation)];
      var temp := EasedKeyframes(startTime, endTime, startRotation, endRotation, LerpReal, easing);
      rotateKeyframes := track + temp;
    }

    /** Scale(time, scale). */
    method ScaleInstant(time: real, scale: real)
      requires Valid()
      modifies this
      ensures Valid()
      ensures scaleKeyframes == Instant(old(scaleKeyframes), time, scale)
      ensures moveKeyframes == old(moveKeyframes) && rotateKeyframes == old(rotateKeyframes)
      ensures children == old(children) && Repr == old(Repr)
    {
      scaleKeyframes := Instant(scaleKeyframes, time, scale);
    }

    /** Scale(startTime, endTime, startScale, endScale). */
    method ScaleLinear(startTime: real, endTime: real, startScale: real, endScale: real)
      requires Valid()
      modifies this
      ensures Valid()
      ensures scaleKeyframes == Linear(old(scaleKeyframes), startTime, endTime, startScale, endScale)
      ensures moveKeyframes == old(moveKeyframes) && rotateKeyframes == old(rotateKeyframes)
      ensures children == old(children) && Repr == old(Repr)
    {
      scaleKeyframes := Linear(scaleKeyframes, startTime, endTime, startScale, endScale);
    }

    /** Scale(easing, startTime, endTime, startScale, endScale): no
        simplification. */
    method ScaleEased(easing: real -> real, startTime: real, endTime: real, startScale: real, endScale: real)
      requires Valid()
      modifies this
      ensures Valid()
      ensures scaleKeyframes == Eased(old(scaleKeyframes), startTime, startScale,
                                      EasedTemp(startTime, endTime, startScale, endScale, LerpReal, easing))
      ensures moveKeyframes == old(moveKeyframes) && rotateKeyframes == old(rotateKeyframes)
      ensures children == old(children) && Repr == old(Repr)
    {
      var track := Hold(scaleKeyframes, startTime) + [Keyframe(startTime, startScale)];
      var temp := EasedKeyframes(startTime, endTime, startScale, endScale, LerpReal, easing);
      scaleKeyframes := track + temp;
    }

    // -------------------------------------------------------------------
    // Group.Add.

    /** Group.Add: the child goes to the end of the list. */
    method Add(child: GroupElement)
      requires isGroup && Valid() && child.Valid() && this !in child.Repr
      modifies this
      ensures Valid()
      ensures children == old(children) + [child]
      ensures Repr == old(Repr) + child.Repr
      ensures moveKeyframes == old(moveKeyframes) && rotateKeyframes == old(rotateKeyframes)
      ensures scaleKeyframes == old(scaleKeyframes)
    {
      children := children + [child];
      Repr := Repr + child.Repr;
    }

    // -------------------------------------------------------------------
    // The merges of this node's own tracks against a parent context.

    /** MergeMove. */
    method MergeMove(ext: Externals, parentMove: Track<Vec2>, parentRotate: Track<real>, parentScale: Track<real>)
      returns (r: Track<Vec2>)
      ensures r == MergedMove(ext, MoveInputs(moveKeyframes, parentMove, parentRotate, parentScale))
    {
      r := SweepMove(ext, MoveInputs(moveKeyframes, parentMove, parentRotate, parentScale));
    }

    /** MergeRotate. */
    method MergeRotate(parentRotate: Track<real>) returns (r: Track<real>)
      ensures r == MergedRotate(rotateKeyframes, parentRotate)
    {
      r := SweepPair(rotateKeyframes, parentRotate, DefaultRotate, RotateFormula);
    }

    /** MergeScale. */
    method MergeScale(parentScale: Track<real>) returns (r: Track<real>)
      ensures r == MergedScale(scaleKeyframes, parentScale)
    {
      r := SweepPair(scaleKeyframes, parentScale, DefaultScale, ScaleFormula);
    }

    // -------------------------------------------------------------------
    // Drawing.

    /** The value this node and the nodes below it currently hold. */
    ghost function Model(): Node
      reads this, Repr
      requires Valid()
      decreases Repr, 1
    {
      Node(isGroup, moveKeyframes, rotateKeyframes, scaleKeyframes, ChildModels(|children|),
           sprite, scaleBase, startTimeBase, endTimeBase)
    }

    ghost function ChildModels(k: nat): (ms: seq<Node>)
      reads this, Repr
      requires Valid() && k <= |children|
      ensures |ms| == k
      decreases Repr, 0, k
    {
      if k == 0 then []
      else
        assert children[k - 1] in children;
        ChildModels(k - 1) + [children[k - 1].Model()]
    }

    lemma {:induction false} ChildModelsAt(k: nat, i: nat)
      requires Valid() && i < k <= |children|
      ensures children[i].Valid() && ChildModels(k)[i] == children[i].Model()
      decreases k
    {
      assert children[i] in children;
      if i < k - 1 {
        ChildModelsAt(k - 1, i);
      }
    }

    /** The model of child `i` is child `i` of the model. */
    lemma ModelChild(i: nat)
      requires Valid() && i < |children|
      ensures children[i].Valid() && children[i].Repr < Repr
      ensures |Model().children| == |children| && Model().children[i] == children[i].Model()
    {
      assert children[i] in children;
      ChildModelsAt(|children|, i);
    }

    /** One ForEachPair loop of GroupSprite.Draw: clip each consecutive pair
        and issue a command for each one that survives. */
    method EmitPairs<T>(track: Track<T>, f: (T, T, real) -> T, make: KeyframePair<T> -> Command, log: CommandLog)
      modifies log
      ensures log.log == old(log.log) + Commands(ClipTrack(track, startTimeBase, endTimeBase, f), make)
    {
      if |track| == 0 {
        return;
      }
      var i := 1;
      while i < |track|
        invariant 1 <= i <= |track|
        invariant log.log == old(log.log) + Commands(ClipTrack(track[..i], startTimeBase, endTimeBase, f), make)
      {
        var keyframePair := DrawData(track[i - 1], track[i], startTimeBase, endTimeBase, f);
        ghost var before := ClipTrack(track[..i], startTimeBase, endTimeBase, f);
        assert track[..i + 1][..i] == track[..i];
        assert ClipTrack(track[..i + 1], startTimeBase, endTimeBase, f)
            == before + Clipped(track[i - 1], track[i], startTimeBase, endTimeBase, f);
        if keyframePair.Some? {
          log.Append(make(keyframePair.value));
          CommandsAppend(before, [keyframePair.value], make);
        } else {
          assert before + [] == before;
        }
        i := i + 1;
      }
      assert track[..i] == track;
    }

    /** The body of GroupSprite.Draw, over the tracks it draws. */
    method EmitSprite(move: Track<Vec2>, rotate: Track<real>, scale: Track<real>, log: CommandLog)
      requires Valid()
      modifies log
      ensures log.log == old(log.log) + SpriteDrawn(old(Model()), move, rotate, scale)
    {
      ghost var m := Model();
      ghost var moves := Commands(ClipTrack(move, startTimeBase, endTimeBase, LerpVec), MoveMaker(sprite));
      ghost var rotates := Commands(ClipTrack(rotate, startTimeBase, endTimeBase, LerpReal), RotateMaker(sprite));
      ghost var scales := Commands(ClipTrack(scale, startTimeBase, endTimeBase, LerpReal), ScaleMaker(sprite, scaleBase));
      assert SpriteDrawn(m, move, rotate, scale) == moves + rotates + scales;
      ghost var l0 := log.log;
      EmitPairs(move, LerpVec, MoveMaker(sprite), log);
      ghost var l1 := log.log;
      EmitPairs(rotate, LerpReal, RotateMaker(sprite), log);
      ghost var l2 := log.log;
      EmitPairs(scale, LerpReal, ScaleMaker(sprite, scaleBase), log);
      assert l1 == l0 + moves && l2 == l1 + rotates && log.log == l2 + scales;
      AppendAssociative(l0 + moves, rotates, scales);
      AppendAssociative(l0, moves, rotates);
      AppendAssociative(l0, moves + rotates, scales);
    }

    /** The three merges Draw(parent...) starts with. */
    method MergeContext(ext: Externals, parentMove: Track<Vec2>, parentRotate: Track<real>, parentScale: Track<real>)
      returns (move: Track<Vec2>, rotate: Track<real>, scale: Track<real>)
      requires Valid()
      ensures (move, rotate, scale) == MergedContext(ext, Model(), parentMove, parentRotate, parentScale)
    {
      move := MergeMove(ext, parentMove, parentRotate, parentScale);
      rotate := MergeRotate(parentRotate);
      scale := MergeScale(parentScale);
    }

    /** GroupSprite.Draw(parent...) and Group.Draw(parent...). */
    method Draw(ext: Externals, parentMove: Track<Vec2>, parentRotate: Track<real>, parentScale: Track<real>, log: CommandLog)
      requires Valid()
      modifies log
      ensures log.log == old(log.log) + Drawn(ext, old(Model()), parentMove, parentRotate, parentScale)
      decreases Repr, 1
    {
      ghost var m := Model();
      var move, rotate, scale := MergeContext(ext, parentMove, parentRotate, parentScale);
      if isGroup {
        DrawChildren(ext, move, rotate, scale, log);
      } else {
        EmitSprite(move, rotate, scale, log);
      }
    }

    /** One turn of the `foreach`: child `i` draws with the group's context,
        after the first `i` children have drawn onto `drawn`. */
    method DrawChild(i: nat, ext: Externals, move: Track<Vec2>, rotate: Track<real>, scale: Track<real>,
                     ghost drawn: seq<Command>, log: CommandLog)
      requires Valid() && i < |children|
      requires log.log == drawn + ChildrenDrawn(ext, Model(), i, move, rotate, scale)
      modifies log
      ensures log.log == drawn + ChildrenDrawn(ext, old(Model()), i + 1, move, rotate, scale)
      decreases Repr, 0, 1
    {
      ghost var m := Model();
      ModelChild(i);
      children[i].Draw(ext, move, rotate, scale, log);
      AppendAssociative(drawn, ChildrenDrawn(ext, m, i, move, rotate, scale), ChildDrawn(ext, m, i, move, rotate, scale));
    }

    /** The `foreach` over the children, all with the same context. */
    method DrawChildren(ext: Externals, move: Track<Vec2>, rotate: Track<real>, scale: Track<real>, log: CommandLog)
      requires Valid()
      modifies log
      ensures log.log == old(log.log) + ChildrenDrawn(ext, old(Model()), |children|, move, rotate, scale)
      decreases Repr, 0, 2
    {
      var i := 0;
      while i < |children|
        invariant i <= |children|
        invariant log.log == old(log.log) + ChildrenDrawn(ext, Model(), i, move, rotate, scale)
      {
        DrawChild(i, ext, move, rotate, scale, old(log.log), log);
        i := i + 1;
      }
    }

    /** GroupSprite.Draw() and Group.Draw(). */
    method DrawRoot(ext: Externals, log: CommandLog)
      requires Valid()
      modifies log
      ensures log.log == old(log.log) + RootDrawn(ext, old(Model()))
    {
      if isGroup {
        DrawChildren(ext, moveKeyframes, rotateKeyframes, scaleKeyframes, log);
      } else {
        EmitSprite(moveKeyframes, rotateKeyframes, scaleKeyframes, log);
      }
    }
  }
}
