/** The composition formulas of GroupElement (MoveFormula, RotateFormula,
    ScaleFormula) and the channel defaults they are neutral for. */
module Formulas {
  import opened Keyframes

  /** Calls the engine makes into code outside this model: Math.Cos,
      Math.Sin and KeyframedValue.Simplify2dKeyframes (with the built-in
      tolerance 0.01 and the identity projector). */
  datatype Externals = Externals(cos: real -> real, sin: real -> real, simplify: Track<Vec2> -> Track<Vec2>)

  /** The only facts about the trigonometric functions the model relies on. */
  predicate TrigAtZero(ext: Externals) {
    ext.cos(0.0) == 1.0 && ext.sin(0.0) == 0.0
  }

  /** DEFAULT_MOVE, DEFAULT_ROTATE, DEFAULT_SCALE. */
  const DefaultMove := Zero
  const DefaultRotate := 0.0
  const DefaultScale := 1.0

  /** KEYFRAME_TIMESTEP: the sampling step of eased authoring and the
      largest gap the move merge leaves between two output keyframes. */
  const KeyframeTimestep := 16.0

  /** RotateFormula: angles add up, with no wrap-around. */
  function RotateFormula(rotate: real, parentRotate: real): (r: real)
    ensures parentRotate == DefaultRotate ==> r == rotate
    ensures r - parentRotate == rotate
  {
    rotate + parentRotate
  }

  /** ScaleFormula: scales multiply. */
  function ScaleFormula(scale: real, parentScale: real): (r: real)
    ensures parentScale == DefaultScale ==> r == scale
    ensures scale == DefaultScale ==> r == parentScale
  {
    scale * parentScale
  }

  /** MoveFormula: the child's position, scaled by the parent's scale,
      rotated by the parent's rotation, then translated by the parent's
      position. */
  function MoveFormula(ext: Externals, move: Vec2, parentMove: Vec2, parentRotate: real, parentScale: real): (r: Vec2)
    ensures TrigAtZero(ext) && parentRotate == DefaultRotate && parentScale == DefaultScale ==>
      r == Add(move, parentMove)
  {
    var cosR := ext.cos(parentRotate);
    var sinR := ext.sin(parentRotate);
    var pos := Times(parentScale, move);
    Vec2(pos.x * cosR + pos.y * -sinR + parentMove.x,
         pos.x * sinR + pos.y * cosR + parentMove.y)
  }

  /** MoveFormula written out component by component. */
  lemma MoveFormulaExpanded(ext: Externals, move: Vec2, parentMove: Vec2, parentRotate: real, parentScale: real)
    ensures var r := MoveFormula(ext, move, parentMove, parentRotate, parentScale);
      var c, n, k := ext.cos(parentRotate), ext.sin(parentRotate), parentScale;
      && r.x == k * move.x * c - k * move.y * n + parentMove.x
      && r.y == k * move.x * n + k * move.y * c + parentMove.y
  {
  }

  function DistSq(a: Vec2, b: Vec2): real {
    (a.x - b.x) * (a.x - b.x) + (a.y - b.y) * (a.y - b.y)
  }

  /** Merging against the neutral parent sample leaves a position as it is. */
  lemma MoveFormulaNeutral(ext: Externals, move: Vec2)
    requires TrigAtZero(ext)
    ensures MoveFormula(ext, move, DefaultMove, DefaultRotate, DefaultScale) == move
  {
  }

  /** The move composition is a similarity: distances are multiplied by the
      parent's scale, whatever the parent's rotation and position (no shear),
      provided cos and sin satisfy the Pythagorean identity at that angle. */
  lemma MoveFormulaIsSimilarity(ext: Externals, a: Vec2, b: Vec2, parentMove: Vec2, parentRotate: real, parentScale: real)
    requires ext.cos(parentRotate) * ext.cos(parentRotate) + ext.sin(parentRotate) * ext.sin(parentRotate) == 1.0
    ensures DistSq(MoveFormula(ext, a, parentMove, parentRotate, parentScale),
                   MoveFormula(ext, b, parentMove, parentRotate, parentScale))
         == parentScale * parentScale * DistSq(a, b)
  {
    var c, s := ext.cos(parentRotate), ext.sin(parentRotate);
    var dx, dy := parentScale * (a.x - b.x), parentScale * (a.y - b.y);
    var ra := MoveFormula(ext, a, parentMove, parentRotate, parentScale);
    var rb := MoveFormula(ext, b, parentMove, parentRotate, parentScale);
    assert ra.x - rb.x == dx * c - dy * s;
    assert ra.y - rb.y == dx * s + dy * c;
    calc {
      DistSq(ra, rb);
      (dx * c - dy * s) * (dx * c - dy * s) + (dx * s + dy * c) * (dx * s + dy * c);
      dx * dx * (c * c + s * s) + dy * dy * (c * c + s * s);
      dx * dx + dy * dy;
      parentScale * parentScale * DistSq(a, b);
    }
  }

  /** Composing a position with a parent sample and then with the grandparent
      sample equals composing it once with the grandparent-composed parent
      sample (rotations added, scales multiplied), provided cos and sin obey
      the angle-addition identities at these angles: the context a group
      hands down folds its ancestors in consistently. */
  lemma MoveFormulaNests(ext: Externals, move: Vec2, pm1: Vec2, r1: real, s1: real, pm2: Vec2, r2: real, s2: real)
    requires ext.cos(r1 + r2) == ext.cos(r1) * ext.cos(r2) - ext.sin(r1) * ext.sin(r2)
    requires ext.sin(r1 + r2) == ext.sin(r1) * ext.cos(r2) + ext.cos(r1) * ext.sin(r2)
    ensures MoveFormula(ext, MoveFormula(ext, move, pm1, r1, s1), pm2, r2, s2)
         == MoveFormula(ext, move, MoveFormula(ext, pm1, pm2, r2, s2), RotateFormula(r1, r2), ScaleFormula(s1, s2))
  {
    var inner := MoveFormula(ext, move, pm1, r1, s1);
    var lhs := MoveFormula(ext, inner, pm2, r2, s2);
    var p := MoveFormula(ext, pm1, pm2, r2, s2);
    var rhs := MoveFormula(ext, move, p, r1 + r2, s1 * s2);
    MoveFormulaExpanded(ext, move, pm1, r1, s1);
    MoveFormulaExpanded(ext, inner, pm2, r2, s2);
    MoveFormulaExpanded(ext, pm1, pm2, r2, s2);
    MoveFormulaExpanded(ext, move, p, r1 + r2, s1 * s2);
    NestedComponents(move.x, move.y, ext.cos(r1), ext.sin(r1), ext.cos(r2), ext.sin(r2), ext.cos(r1 + r2), ext.sin(r1 + r2),
      s1, s2, pm1.x, pm1.y, pm2.x, pm2.y, inner.x, inner.y, lhs.x, lhs.y, p.x, p.y, rhs.x, rhs.y);
  }

  /** MoveFormulaNests on the components, with the four formula applications
      given as equations. */
  lemma NestedComponents(x: real, y: real, c1: real, n1: real, c2: real, n2: real, c12: real, n12: real,
                         s1: real, s2: real, p1x: real, p1y: real, p2x: real, p2y: real,
                         ix: real, iy: real, lx: real, ly: real, qx: real, qy: real, rx: real, ry: real)
    requires c12 == c1 * c2 - n1 * n2 && n12 == n1 * c2 + c1 * n2
    requires ix == s1 * x * c1 - s1 * y * n1 + p1x && iy == s1 * x * n1 + s1 * y * c1 + p1y
    requires lx == s2 * ix * c2 - s2 * iy * n2 + p2x && ly == s2 * ix * n2 + s2 * iy * c2 + p2y
    requires qx == s2 * p1x * c2 - s2 * p1y * n2 + p2x && qy == s2 * p1x * n2 + s2 * p1y * c2 + p2y
    requires rx == (s1 * s2) * x * c12 - (s1 * s2) * y * n12 + qx && ry == (s1 * s2) * x * n12 + (s1 * s2) * y * c12 + qy
    ensures lx == rx && ly == ry
  {
    RotationsCompose(x, y, c1, n1, c2, n2, s1, s2, p1x, p1y);
    assert (s1 * s2) * x * c12 == s1 * s2 * x * (c1 * c2 - n1 * n2);
    assert (s1 * s2) * y * n12 == s1 * s2 * y * (n1 * c2 + c1 * n2);
    assert (s1 * s2) * x * n12 == s1 * s2 * x * (n1 * c2 + c1 * n2);
    assert (s1 * s2) * y * c12 == s1 * s2 * y * (c1 * c2 - n1 * n2);
  }

  /** The polynomial identity behind MoveFormulaNests: two scaled rotations
      applied in turn are one rotation by the summed angle (written with the
      angle-addition formulas) scaled by the product of the scales. */
  lemma RotationsCompose(x: real, y: real, c1: real, n1: real, c2: real, n2: real, s1: real, s2: real, px: real, py: real)
    ensures s2 * (s1 * x * c1 - s1 * y * n1 + px) * c2 - s2 * (s1 * x * n1 + s1 * y * c1 + py) * n2
         == s1 * s2 * x * (c1 * c2 - n1 * n2) - s1 * s2 * y * (n1 * c2 + c1 * n2) + (s2 * px * c2 - s2 * py * n2)
    ensures s2 * (s1 * x * c1 - s1 * y * n1 + px) * n2 + s2 * (s1 * x * n1 + s1 * y * c1 + py) * c2
         == s1 * s2 * x * (n1 * c2 + c1 * n2) + s1 * s2 * y * (c1 * c2 - n1 * n2) + (s2 * px * n2 + s2 * py * c2)
  {
  }

}
