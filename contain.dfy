/** Hit tests between sprites: box against box, circle against circle,
    circle against box by region, circle against point. */
module Contain {
  import opened Js
  import opened Entities

  // ---------------------------------------------------------------------
  // Box against box
  // ---------------------------------------------------------------------

  /** The derived fields hitTestRectangle writes onto each argument: the
      centre and the half extents, from the position and the size. */
  function Boxed(f: Fields): Fields {
    f.(bounds := f.bounds.(
      centerX := Add(f.geo.x, Half(f.geo.width)), centerY := Add(f.geo.y, Half(f.geo.height)),
      halfWidth := Half(f.geo.width), halfHeight := Half(f.geo.height)))
  }

  /** Writing the derived fields twice is writing them once, and it keeps
      everything the tests read from: position, size, flags and tags. */
  lemma BoxedIdempotent(f: Fields)
    ensures Boxed(Boxed(f)) == Boxed(f)
    ensures Boxed(f).(bounds := Boxed(f).bounds.(centerX := f.bounds.centerX,
      centerY := f.bounds.centerY, halfWidth := f.bounds.halfWidth,
      halfHeight := f.bounds.halfHeight)) == f
  {
  }

  /** The overlap test of hitTestRectangle on its freshly derived fields:
      centre distance against the sum of the half extents, strictly, on
      both axes. */
  predicate RectangleHit(a: Fields, b: Fields) {
    var a', b' := Boxed(a), Boxed(b);
    Lt(Abs(Sub(a'.bounds.centerX, b'.bounds.centerX)), Add(a'.bounds.halfWidth, b'.bounds.halfWidth)) &&
    Lt(Abs(Sub(a'.bounds.centerY, b'.bounds.centerY)), Add(a'.bounds.halfHeight, b'.bounds.halfHeight))
  }

  /** An axis-aligned box of exact reals: left edge, top edge, width, height. */
  datatype Box = Box(left: real, top: real, w: real, h: real)

  /** The box of a sprite, when its position and size are numbers. */
  function BoxOf(f: Fields): Option<Box> {
    if f.geo.x.Fin? && f.geo.y.Fin? && f.geo.width.Fin? && f.geo.height.Fin?
    then Some(Box(f.geo.x.v, f.geo.y.v, f.geo.width.v, f.geo.height.v))
    else None
  }

  /** Reference definition: each box starts strictly before the other ends,
      on both axes. */
  predicate Overlap(a: Box, b: Box) {
    a.left < b.left + b.w && b.left < a.left + a.w &&
    a.top < b.top + b.h && b.top < a.top + a.h
  }

  /** hitTestRectangle is the interval-overlap test on exact boxes, and
      misses whenever a position or a size is undefined or NaN. */
  lemma RectangleHitIsOverlap(a: Fields, b: Fields)
    ensures RectangleHit(a, b) <==>
      BoxOf(a).Some? && BoxOf(b).Some? && Overlap(BoxOf(a).value, BoxOf(b).value)
  {
    if BoxOf(a).Some? && BoxOf(b).Some? {
      var dx := (a.geo.x.v + a.geo.width.v / 2.0) - (b.geo.x.v + b.geo.width.v / 2.0);
      var dy := (a.geo.y.v + a.geo.height.v / 2.0) - (b.geo.y.v + b.geo.height.v / 2.0);
      assert Sub(Boxed(a).bounds.centerX, Boxed(b).bounds.centerX) == Fin(dx);
      assert Sub(Boxed(a).bounds.centerY, Boxed(b).bounds.centerY) == Fin(dy);
    }
  }

  /** The test does not depend on the order of its arguments. */
  lemma RectangleHitSymmetric(a: Fields, b: Fields)
    ensures RectangleHit(a, b) == RectangleHit(b, a)
  {
    RectangleHitIsOverlap(a, b);
    RectangleHitIsOverlap(b, a);
  }

  /** Boxes that only touch along an edge, vertical or horizontal, do not hit. */
  lemma TouchingBoxesMiss(a: Fields, b: Fields)
    requires BoxOf(a).Some? && BoxOf(b).Some?
    requires a.geo.x.v + a.geo.width.v == b.geo.x.v || a.geo.y.v + a.geo.height.v == b.geo.y.v
    ensures !RectangleHit(a, b) && !RectangleHit(b, a)
  {
    RectangleHitIsOverlap(a, b);
    RectangleHitIsOverlap(b, a);
  }

  /** Two boxes of positive size with the same centre always hit. */
  lemma SameCentreBoxesHit(a: Fields, b: Fields)
    requires BoxOf(a).Some? && BoxOf(b).Some?
    requires a.geo.width.v > 0.0 && a.geo.height.v > 0.0 && b.geo.width.v > 0.0 && b.geo.height.v > 0.0
    requires a.geo.x.v + a.geo.width.v / 2.0 == b.geo.x.v + b.geo.width.v / 2.0
    requires a.geo.y.v + a.geo.height.v / 2.0 == b.geo.y.v + b.geo.height.v / 2.0
    ensures RectangleHit(a, b)
  {
    RectangleHitIsOverlap(a, b);
  }

  /** hitTestRectangle (src/contain.ts:3-23). It throws only when neither
      argument carries the bump flag; otherwise it writes the centre and the
      half extents onto both arguments and changes nothing else. */
  method HitTestRectangle(r1: Sprite, r2: Sprite) returns (r: Result<bool>)
    modifies r1, r2
    ensures !old(r1.marks.bump) && !old(r2.marks.bump) ==>
      r == Err(BumpMissing) &&
      r1.Snapshot() == old(r1.Snapshot()) && r2.Snapshot() == old(r2.Snapshot())
    ensures old(r1.marks.bump) || old(r2.marks.bump) ==>
      r == Ok(RectangleHit(old(r1.Snapshot()), old(r2.Snapshot()))) &&
      r1.Snapshot() == Boxed(old(r1.Snapshot())) &&
      r2.Snapshot() == Boxed(old(r2.Snapshot()))
  {
    if !r1.marks.bump && !r2.marks.bump {
      return Err(BumpMissing);
    }
    ghost var a, b := r1.Snapshot(), r2.Snapshot();
    WriteBox(r1);
    WriteBox(r2);
    BoxedIdempotent(a);

    var vx := Sub(r1.bounds.centerX, r2.bounds.centerX);
    var vy := Sub(r1.bounds.centerY, r2.bounds.centerY);

    var combinedHalfWidths := Add(r1.bounds.halfWidth, r2.bounds.halfWidth);
    var combinedHalfHeights := Add(r1.bounds.halfHeight, r2.bounds.halfHeight);

    r := Ok(Lt(Abs(vx), combinedHalfWidths) && Lt(Abs(vy), combinedHalfHeights));
  }

  /** The writes of src/contain.ts:6-14 onto one sprite: centre, then half
      extents, each from the sprite's own position and size. */
  method WriteBox(s: Sprite)
    modifies s
    ensures s.Snapshot() == Boxed(old(s.Snapshot()))
  {
    s.bounds := s.bounds.(centerX := Add(s.geo.x, Half(s.geo.width)));
    s.bounds := s.bounds.(centerY := Add(s.geo.y, Half(s.geo.height)));
    s.bounds := s.bounds.(halfWidth := Half(s.geo.width));
    s.bounds := s.bounds.(halfHeight := Half(s.geo.height));
  }

  // ---------------------------------------------------------------------
  // Circle against circle
  // ---------------------------------------------------------------------

  /** The position a test reads: global (`gx`, `gy`) or local (`x`, `y`). */
  function Px(f: Fields, global: bool): Num {
    if global then f.geo.gx else f.geo.x
  }

  function Py(f: Fields, global: bool): Num {
    if global then f.geo.gy else f.geo.y
  }

  /** The centre hitTestCircle uses: position plus half the WIDTH minus the
      anchor offset, on both axes. */
  function CircleCentreX(c: Fields, global: bool): Num {
    Sub(Add(Px(c, global), Half(c.geo.width)), c.bounds.xAnchorOffset)
  }

  function CircleCentreY(c: Fields, global: bool): Num {
    Sub(Add(Py(c, global), Half(c.geo.width)), c.bounds.yAnchorOffset)
  }

  /** `Math.sqrt(d2) < bound` for a sum of squares `d2`, stated without the
      square root. */
  predicate SqrtBelow(d2: Num, bound: Num) {
    d2.Fin? && bound.Fin? && 0.0 < bound.v && d2.v < bound.v * bound.v
  }

  /** The comparison of hitTestCircle: the distance between the centres
      against the sum of the radii. */
  predicate CircleHit(c1: Fields, c2: Fields, global: bool) {
    var vx := Sub(CircleCentreX(c2, global), CircleCentreX(c1, global));
    var vy := Sub(CircleCentreY(c2, global), CircleCentreY(c1, global));
    SqrtBelow(Add(Mul(vx, vx), Mul(vy, vy)), Add(c1.bounds.radius, c2.bounds.radius))
  }

  /** The square-root-free form is exact: for the non-negative root `d` of
      `d2`, `d < bound` holds exactly when SqrtBelow does. */
  lemma SqrtBelowIsRootBelow(d: real, d2: real, bound: real)
    requires 0.0 <= d && d * d == d2
    ensures SqrtBelow(Fin(d2), Fin(bound)) <==> d < bound
  {
    if d < bound {
      calc {
        d2;
        == d * d;
        <= d * bound;
        < bound * bound;
      }
    } else if 0.0 < bound {
      assert bound * bound <= bound * d;
      assert bound * d <= d * d;
      assert !(d2 < bound * bound);
    }
  }

  /** The Euclidean distance between the centres of hitTestCircle, for
      sprites whose fields it reads are all numbers. */
  predicate CircleDefined(c: Fields, global: bool) {
    CircleCentreX(c, global).Fin? && CircleCentreY(c, global).Fin? && c.bounds.radius.Fin?
  }

  /** hitTestCircle hits exactly when the centre distance is strictly less
      than the sum of the radii. */
  lemma CircleHitIsDistanceTest(c1: Fields, c2: Fields, global: bool, dist: real)
    requires CircleDefined(c1, global) && CircleDefined(c2, global)
    requires 0.0 <= dist
    requires var dx := CircleCentreX(c2, global).v - CircleCentreX(c1, global).v;
             var dy := CircleCentreY(c2, global).v - CircleCentreY(c1, global).v;
             dist * dist == dx * dx + dy * dy
    ensures CircleHit(c1, c2, global) <==> dist < c1.bounds.radius.v + c2.bounds.radius.v
  {
    var dx := CircleCentreX(c2, global).v - CircleCentreX(c1, global).v;
    var dy := CircleCentreY(c2, global).v - CircleCentreY(c1, global).v;
    SqrtBelowIsRootBelow(dist, dx * dx + dy * dy, c1.bounds.radius.v + c2.bounds.radius.v);
  }

  /** Circles whose centres are exactly the sum of the radii apart do not hit. */
  lemma TouchingCirclesMiss(c1: Fields, c2: Fields, global: bool)
    requires CircleDefined(c1, global) && CircleDefined(c2, global)
    requires 0.0 <= c1.bounds.radius.v + c2.bounds.radius.v
    requires var dx := CircleCentreX(c2, global).v - CircleCentreX(c1, global).v;
             var dy := CircleCentreY(c2, global).v - CircleCentreY(c1, global).v;
             var sum := c1.bounds.radius.v + c2.bounds.radius.v;
             sum * sum == dx * dx + dy * dy
    ensures !CircleHit(c1, c2, global)
  {
    CircleHitIsDistanceTest(c1, c2, global, c1.bounds.radius.v + c2.bounds.radius.v);
  }

  /** A circle with an undefined radius never hits. */
  lemma UndefinedRadiusMisses(c1: Fields, c2: Fields, global: bool)
    requires c1.bounds.radius.NaN? || c2.bounds.radius.NaN?
    ensures !CircleHit(c1, c2, global) && !CircleHit(c2, c1, global)
  {
  }

  /** The circle test does not depend on the order of its arguments. */
  lemma CircleHitSymmetric(c1: Fields, c2: Fields, global: bool)
    ensures CircleHit(c1, c2, global) == CircleHit(c2, c1, global)
  {
    var ax, bx0 := CircleCentreX(c1, global), CircleCentreX(c2, global);
    var ay, by0 := CircleCentreY(c1, global), CircleCentreY(c2, global);
    if ax.Fin? && bx0.Fin? && ay.Fin? && by0.Fin? {
      assert (bx0.v - ax.v) * (bx0.v - ax.v) == (ax.v - bx0.v) * (ax.v - bx0.v);
      assert (by0.v - ay.v) * (by0.v - ay.v) == (ay.v - by0.v) * (ay.v - by0.v);
    }
  }

  /** The global flag only swaps `gx`/`gy` in for `x`/`y`. */
  lemma CircleGlobalIsLocalOnGlobalCoordinates(c1: Fields, c2: Fields)
    ensures CircleHit(c1, c2, true) ==
      CircleHit(c1.(geo := c1.geo.(x := c1.geo.gx, y := c1.geo.gy)),
                c2.(geo := c2.geo.(x := c2.geo.gx, y := c2.geo.gy)), false)
  {
  }

  /** hitTestCircle (src/contain.ts:25-43). It reads its arguments and
      writes nothing; it throws only when neither carries the bump flag. */
  function HitTestCircle(c1: Fields, c2: Fields, global: bool): (r: Result<bool>)
    ensures r.Err? <==> !c1.marks.bump && !c2.marks.bump
    ensures r.Err? ==> r.error == BumpMissing
    ensures r.Ok? ==> (r.value <==> CircleHit(c1, c2, global))
  {
    if !c1.marks.bump && !c2.marks.bump then Err(BumpMissing)
    else Ok(CircleHit(c1, c2, global))
  }

  // ---------------------------------------------------------------------
  // Circle against point
  // ---------------------------------------------------------------------

  /** The fields hitTestCirclePoint writes onto the point object: a circle
      of diameter 1 at the point, with no anchor offset and the bump flag. */
  function AsPoint(p: Fields): Fields {
    p.(geo := p.geo.(width := Fin(1.0), gx := p.geo.x, gy := p.geo.y),
       bounds := p.bounds.(diameter := Fin(1.0), radius := Fin(0.5),
         centerX := p.geo.x, centerY := p.geo.y,
         xAnchorOffset := Fin(0.0), yAnchorOffset := Fin(0.0)),
       marks := p.marks.(bump := true))
  }

  /** hitTestCirclePoint (src/contain.ts:118-132). It throws when the circle
      lacks the bump flag; otherwise it turns the point object into a small
      circle and runs the local circle test, whatever `global` says. */
  method HitTestCirclePoint(c1: Sprite, point: Sprite, global: bool) returns (r: Result<bool>)
    modifies point
    ensures !old(c1.marks.bump) ==>
      r == Err(BumpMissing) && point.Snapshot() == old(point.Snapshot())
    ensures old(c1.marks.bump) ==>
      point.Snapshot() == AsPoint(old(point.Snapshot())) &&
      r == Ok(CircleHit(c1.Snapshot(), point.Snapshot(), false))
  {
    if !c1.marks.bump {
      return Err(BumpMissing);
    }
    WritePoint(point);
    r := HitTestCircle(c1.Snapshot(), point.Snapshot(), false);
  }

  /** The writes of src/contain.ts:121-130 onto the point object. */
  method WritePoint(point: Sprite)
    modifies point
    ensures point.Snapshot() == AsPoint(old(point.Snapshot()))
  {
    point.bounds := point.bounds.(diameter := Fin(1.0));
    point.geo := point.geo.(width := point.bounds.diameter);
    point.bounds := point.bounds.(radius := Fin(0.5));
    point.bounds := point.bounds.(centerX := point.geo.x, centerY := point.geo.y);
    point.geo := point.geo.(gx := point.geo.x, gy := point.geo.y);
    point.bounds := point.bounds.(xAnchorOffset := Fin(0.0), yAnchorOffset := Fin(0.0));
    point.marks := point.marks.(bump := true);
  }

  /** The point made of an empty object with position (px, py). */
  function PointAt(px: Num, py: Num): Fields {
    AsPoint(BlankFields.(geo := BlankFields.geo.(x := px, y := py)))
  }

  /** A point at (px, py) acts as a circle of radius 0.5 centred at
      (px + 0.5, py + 0.5): its width is 1 and both axes add half of it. */
  lemma PointIsHalfUnitCircle(c: Fields, px: real, py: real, dist: real)
    requires CircleDefined(c, false) && 0.0 <= dist
    requires var dx := px + 0.5 - CircleCentreX(c, false).v;
             var dy := py + 0.5 - CircleCentreY(c, false).v;
             dist * dist == dx * dx + dy * dy
    ensures CircleHit(c, PointAt(Fin(px), Fin(py)), false) <==> dist < c.bounds.radius.v + 0.5
  {
    var p := PointAt(Fin(px), Fin(py));
    assert CircleCentreX(p, false) == Fin(px + 0.5);
    assert CircleCentreY(p, false) == Fin(py + 0.5);
    CircleHitIsDistanceTest(c, p, false, dist);
  }

  // ---------------------------------------------------------------------
  // Circle against box, by region
  // ---------------------------------------------------------------------

  /** The eight regions around a box. */
  datatype Region =
    | TopLeft | TopMiddle | TopRight
    | LeftMiddle | RightMiddle
    | BottomLeft | BottomMiddle | BottomRight
  {
    predicate IsMiddle() {
      this == TopMiddle || this == BottomMiddle || this == LeftMiddle || this == RightMiddle
    }

    /** The string hitTestCircleRectangle returns for the region. */
    function Label(): string {
      match this
      case TopLeft => "topLeft"
      case TopMiddle => "topMiddle"
      case TopRight => "topRight"
      case LeftMiddle => "leftMiddle"
      case RightMiddle => "rightMiddle"
      case BottomLeft => "bottomLeft"
      case BottomMiddle => "bottomMiddle"
      case BottomRight => "bottomRight"
    }
  }

  /** The region of the circle's anchored position relative to the box
      (src/contain.ts:62-84). The corner columns lie more than one unit
      beyond the half width; the row of the box has no such margin. */
  function Classify(c: Fields, r: Fields, global: bool): Region {
    var cx := Sub(Px(c, global), c.bounds.xAnchorOffset);
    var cy := Sub(Py(c, global), c.bounds.yAnchorOffset);
    var rx, ry := Px(r, global), Py(r, global);
    var hw, hh := Abs(r.bounds.halfWidth), Abs(r.bounds.halfHeight);
    if Lt(cy, Sub(Sub(ry, hh), r.bounds.yAnchorOffset)) then
      if Lt(cx, Sub(Sub(Sub(rx, Fin(1.0)), hw), r.bounds.xAnchorOffset)) then TopLeft
      else if Gt(cx, Sub(Add(Add(rx, Fin(1.0)), hw), r.bounds.xAnchorOffset)) then TopRight
      else TopMiddle
    else if Gt(cy, Sub(Add(ry, hh), r.bounds.yAnchorOffset)) then
      if Lt(cx, Sub(Sub(Sub(rx, Fin(1.0)), hw), r.bounds.xAnchorOffset)) then BottomLeft
      else if Gt(cx, Sub(Add(Add(rx, Fin(1.0)), hw), r.bounds.xAnchorOffset)) then BottomRight
      else BottomMiddle
    else if Lt(cx, Sub(Sub(rx, hw), r.bounds.xAnchorOffset)) then LeftMiddle
    else RightMiddle
  }

  function AbsR(a: real): real {
    if a < 0.0 then -a else a
  }

  /** The fields Classify reads are all numbers. */
  predicate ClassifyDefined(c: Fields, r: Fields, global: bool) {
    Px(c, global).Fin? && Py(c, global).Fin? && c.bounds.xAnchorOffset.Fin? && c.bounds.yAnchorOffset.Fin? &&
    Px(r, global).Fin? && Py(r, global).Fin? && r.bounds.xAnchorOffset.Fin? && r.bounds.yAnchorOffset.Fin? &&
    r.bounds.halfWidth.Fin? && r.bounds.halfHeight.Fin?
  }

  /** Horizontal offset of the circle's anchored position from the box's. */
  function OffsetX(c: Fields, r: Fields, global: bool): real
    requires ClassifyDefined(c, r, global)
  {
    (Px(c, global).v - c.bounds.xAnchorOffset.v) - (Px(r, global).v - r.bounds.xAnchorOffset.v)
  }

  function OffsetY(c: Fields, r: Fields, global: bool): real
    requires ClassifyDefined(c, r, global)
  {
    (Py(c, global).v - c.bounds.yAnchorOffset.v) - (Py(r, global).v - r.bounds.yAnchorOffset.v)
  }

  /** A corner label means the circle lies outside the box's row and more
      than one unit outside its column; a middle label in the box's column
      or row means it is not. */
  lemma CornerIsBeyondTolerance(c: Fields, r: Fields, global: bool)
    requires ClassifyDefined(c, r, global)
    ensures !Classify(c, r, global).IsMiddle() <==>
      AbsR(OffsetX(c, r, global)) > AbsR(r.bounds.halfWidth.v) + 1.0 &&
      AbsR(OffsetY(c, r, global)) > AbsR(r.bounds.halfHeight.v)
  {
  }

  /** The left and right bands are exactly the box's row, edges included. */
  lemma SideBandIsRow(c: Fields, r: Fields, global: bool)
    requires ClassifyDefined(c, r, global)
    ensures Classify(c, r, global) in {LeftMiddle, RightMiddle} <==>
      AbsR(OffsetY(c, r, global)) <= AbsR(r.bounds.halfHeight.v)
    ensures Classify(c, r, global) == LeftMiddle <==>
      AbsR(OffsetY(c, r, global)) <= AbsR(r.bounds.halfHeight.v) &&
      OffsetX(c, r, global) < -AbsR(r.bounds.halfWidth.v)
  {
  }

  /** The corner point of a corner region: the box's edges, offset by its
      anchor (src/contain.ts:89-110). */
  function CornerPoint(r: Fields, region: Region, global: bool): (Num, Num)
    requires !region.IsMiddle()
  {
    var left := Sub(Px(r, global), r.bounds.xAnchorOffset);
    var right := Sub(Add(Px(r, global), r.geo.width), r.bounds.xAnchorOffset);
    var top := Sub(Py(r, global), r.bounds.yAnchorOffset);
    var bottom := Sub(Add(Py(r, global), r.geo.height), r.bounds.yAnchorOffset);
    if region == TopLeft then (left, top)
    else if region == TopRight then (right, top)
    else if region == BottomLeft then (left, bottom)
    else (right, bottom)
  }

  /** What hitTestCircleRectangle returns: the region label on a hit,
      the false collision value (None) on a miss, or the error it throws. */
  function CircleRectangleOutcome(c: Fields, r: Fields, global: bool): Result<Option<Region>> {
    if !r.marks.bump && !c.marks.bump then Err(BumpMissing)
    else
      var region := Classify(c, r, global);
      if region.IsMiddle() then
        if RectangleHit(c, r) then Ok(Some(region)) else Ok(None)
      else if !c.marks.bump then Err(BumpMissing)
      else
        var p := CornerPoint(r, region, global);
        if CircleHit(c, PointAt(p.0, p.1), false) then Ok(Some(region)) else Ok(None)
  }

  /** The circle test throws its own error in the corner regions only: a
      box with the flag is enough in the middle bands, not at the corners. */
  lemma CircleRectangleErrors(c: Fields, r: Fields, global: bool)
    ensures CircleRectangleOutcome(c, r, global).Err? <==>
      !c.marks.bump && (!r.marks.bump || !Classify(c, r, global).IsMiddle())
  {
  }

  /** A returned label is the circle's region, and a middle band reports a
      hit exactly when the boxes overlap, in local coordinates even when
      `global` is set. */
  lemma CircleRectangleReportsRegion(c: Fields, r: Fields, global: bool)
    requires c.marks.bump || r.marks.bump
    ensures var o := CircleRectangleOutcome(c, r, global);
      (o.Ok? && o.value.Some? ==> o.value.value == Classify(c, r, global)) &&
      (Classify(c, r, global).IsMiddle() ==>
        o == (if RectangleHit(c, r) then Ok(Some(Classify(c, r, global))) else Ok(None)))
  {
  }

  /** hitTestCircleRectangle (src/contain.ts:45-116). In a middle band the
      box test writes its derived fields onto both sprites; at a corner only
      a fresh point object is written. */
  method HitTestCircleRectangle(c1: Sprite, r1: Sprite, global: bool) returns (r: Result<Option<Region>>)
    modifies c1, r1
    ensures r == CircleRectangleOutcome(old(c1.Snapshot()), old(r1.Snapshot()), global)
    ensures var middle := (old(c1.marks.bump) || old(r1.marks.bump)) &&
                          Classify(old(c1.Snapshot()), old(r1.Snapshot()), global).IsMiddle();
      c1.Snapshot() == (if middle then Boxed(old(c1.Snapshot())) else old(c1.Snapshot())) &&
      r1.Snapshot() == (if middle then Boxed(old(r1.Snapshot())) else old(r1.Snapshot()))
  {
    if !r1.marks.bump && !c1.marks.bump {
      return Err(BumpMissing);
    }
    var region := Classify(c1.Snapshot(), r1.Snapshot(), global);
    var collision: Result<bool>;
    if region.IsMiddle() {
      collision := HitTestRectangle(c1, r1);
    } else {
      var point := new Sprite.Blank();
      var p := CornerPoint(r1.Snapshot(), region, global);
      point.geo := point.geo.(x := p.0, y := p.1);
      collision := HitTestCirclePoint(c1, point, global);
    }
    if collision.Err? {
      r := Err(collision.error);
    } else if collision.value {
      r := Ok(Some(region));
    } else {
      r := Ok(None);
    }
  }
}
