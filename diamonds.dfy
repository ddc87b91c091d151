/** Diamonds (platforms.cpp, class Diamonds): gems a player collects by
    touching them.  A blue diamond goes to the water player (type 0), a red
    one to the fire player (type 1); once collected a diamond stays so. */
module Collectibles {
  import opened Geometry

  datatype DiamondType = Blue | Red

  datatype Diamond = Diamond(position: Vec2, size: real, kind: DiamondType, collected: bool)

  const DefaultDiamondSize: real := 15.0
  const WaterPlayerType: int := 0
  const FirePlayerType: int := 1

  /** The loader's reading of a diamond's "type" string: "red" names a red
      diamond and every other string a blue one. */
  function DiamondTypeOf(name: string): (t: DiamondType)
    ensures t == Red <==> name == "red"
  {
    if name == "blue" then Blue
    else if name == "red" then Red
    else Blue
  }

  /** A diamond as the loader builds it from one parsed record. */
  function LoadedDiamond(position: Vec2, name: string): (d: Diamond)
    ensures !d.collected && d.size == DefaultDiamondSize && d.position == position
    ensures d.kind == DiamondTypeOf(name)
  {
    Diamond(position, DefaultDiamondSize, DiamondTypeOf(name), false)
  }

  // ---------------------------------------------------------------------
  // Circle against box

  /** The point of the interval [lo, hi] nearest to v. */
  function ClampTo(v: real, lo: real, hi: real): real {
    Max(lo, Min(v, hi))
  }

  /** The point of the box nearest to the circle's centre, coordinate by
      coordinate. */
  function NearestInBox(c: Vec2, rectPos: Vec2, rectSize: Vec2): Vec2 {
    Vec2(ClampTo(c.x, rectPos.x, rectPos.x + rectSize.x), ClampTo(c.y, rectPos.y, rectPos.y + rectSize.y))
  }

  /** The source compares `sqrt(d) < radius`; with squared distances that is
      `0 < radius && d < radius * radius`. */
  function CheckCircleRectCollision(circlePos: Vec2, radius: real, rectPos: Vec2, rectSize: Vec2): (hit: bool)
    ensures hit ==> 0.0 < radius
  {
    var closestX := Max(rectPos.x, Min(circlePos.x, rectPos.x + rectSize.x));
    var closestY := Max(rectPos.y, Min(circlePos.y, rectPos.y + rectSize.y));
    var distX := circlePos.x - closestX;
    var distY := circlePos.y - closestY;
    0.0 < radius && distX * distX + distY * distY < radius * radius
  }

  predicate InBox(q: Vec2, rectPos: Vec2, rectSize: Vec2) {
    rectPos.x <= q.x <= rectPos.x + rectSize.x && rectPos.y <= q.y <= rectPos.y + rectSize.y
  }

  /** For a box of non-negative extent the test means what it says: the
      circle hits the box exactly when some point of the (closed) box lies
      strictly inside the circle. */
  lemma CircleRectMeaning(c: Vec2, radius: real, rectPos: Vec2, rectSize: Vec2)
    requires rectSize.x >= 0.0 && rectSize.y >= 0.0
    ensures CheckCircleRectCollision(c, radius, rectPos, rectSize) <==>
      0.0 < radius && exists q :: InBox(q, rectPos, rectSize) && DistSq(c, q) < radius * radius
  {
    var n := NearestInBox(c, rectPos, rectSize);
    assert InBox(n, rectPos, rectSize);
    HitIsNearestWithin(c, radius, rectPos, rectSize);
    if exists q :: InBox(q, rectPos, rectSize) && DistSq(c, q) < radius * radius {
      var q :| InBox(q, rectPos, rectSize) && DistSq(c, q) < radius * radius;
      NearestInBoxIsNearest(c, rectPos, rectSize, q);
    }
  }

  /** The source's test compares the distance to the nearest point of the box. */
  lemma HitIsNearestWithin(c: Vec2, radius: real, rectPos: Vec2, rectSize: Vec2)
    ensures CheckCircleRectCollision(c, radius, rectPos, rectSize) <==>
      0.0 < radius && DistSq(c, NearestInBox(c, rectPos, rectSize)) < radius * radius
  {
    var n := NearestInBox(c, rectPos, rectSize);
    SquareOfDifference(c.x, n.x);
    SquareOfDifference(c.y, n.y);
  }

  lemma SquareOfDifference(a: real, b: real)
    ensures (a - b) * (a - b) == (b - a) * (b - a)
  {
  }

  lemma NearestInBoxIsNearest(c: Vec2, rectPos: Vec2, rectSize: Vec2, q: Vec2)
    requires InBox(q, rectPos, rectSize)
    ensures DistSq(c, NearestInBox(c, rectPos, rectSize)) <= DistSq(c, q)
  {
    ClampIsNearest(c.x, rectPos.x, rectPos.x + rectSize.x, q.x);
    ClampIsNearest(c.y, rectPos.y, rectPos.y + rectSize.y, q.y);
  }

  /** Clamping v to [lo, hi] gives the point of the interval nearest to v. */
  lemma ClampIsNearest(v: real, lo: real, hi: real, q: real)
    requires lo <= q <= hi
    ensures (ClampTo(v, lo, hi) - v) * (ClampTo(v, lo, hi) - v) <= (q - v) * (q - v)
  {
    var k := ClampTo(v, lo, hi);
    if v < lo {
      assert k == lo;
      SquareGrows(lo - v, q - v);
    } else if v > hi {
      assert k == hi;
      SquareGrows(v - hi, v - q);
      SquareOfDifference(hi, v);
      SquareOfDifference(q, v);
    } else {
      assert k == v;
      MulNonneg(Abs(q - v), Abs(q - v));
      assert (q - v) * (q - v) == Abs(q - v) * Abs(q - v);
    }
  }

  lemma SquareGrows(a: real, b: real)
    requires 0.0 <= a <= b
    ensures a * a <= b * b
  {
    MulNonneg(b - a, a);
    MulNonneg(b - a, b);
    assert b * b - a * a == (b - a) * a + (b - a) * b;
  }

  // ---------------------------------------------------------------------
  // Collection

  /** A diamond the player collects on this call: not yet collected, within
      the circle of radius twice its size around its position, and of the
      player's colour. */
  predicate Collectable(d: Diamond, playerPos: Vec2, playerSize: Vec2, playerType: int) {
    && !d.collected
    && CheckCircleRectCollision(d.position, d.size * 2.0, playerPos, playerSize)
    && ((d.kind == Blue && playerType == WaterPlayerType) || (d.kind == Red && playerType == FirePlayerType))
  }

  function Collect(d: Diamond, playerPos: Vec2, playerSize: Vec2, playerType: int): Diamond {
    if Collectable(d, playerPos, playerSize, playerType) then d.(collected := true) else d
  }

  function CollectAll(ds: seq<Diamond>, playerPos: Vec2, playerSize: Vec2, playerType: int): seq<Diamond> {
    seq(|ds|, i requires 0 <= i < |ds| => Collect(ds[i], playerPos, playerSize, playerType))
  }

  predicate AnyCollectable(ds: seq<Diamond>, playerPos: Vec2, playerSize: Vec2, playerType: int) {
    exists i :: 0 <= i < |ds| && Collectable(ds[i], playerPos, playerSize, playerType)
  }

  function CountCollected(ds: seq<Diamond>): nat {
    if |ds| == 0 then 0
    else CountCollected(ds[..|ds| - 1]) + (if ds[|ds| - 1].collected then 1 else 0)
  }

  function CountCollectedOf(ds: seq<Diamond>, t: DiamondType): nat {
    if |ds| == 0 then 0
    else CountCollectedOf(ds[..|ds| - 1], t) + (if ds[|ds| - 1].collected && ds[|ds| - 1].kind == t then 1 else 0)
  }

  function CountCollectable(ds: seq<Diamond>, playerPos: Vec2, playerSize: Vec2, playerType: int): nat {
    if |ds| == 0 then 0
    else
      var last := if Collectable(ds[|ds| - 1], playerPos, playerSize, playerType) then 1 else 0;
      CountCollectable(ds[..|ds| - 1], playerPos, playerSize, playerType) + last
  }

  /** Collection never clears a flag, sets it exactly on the collectable
      diamonds, and changes nothing else about any diamond. */
  lemma CollectIsOneWay(ds: seq<Diamond>, playerPos: Vec2, playerSize: Vec2, playerType: int)
    ensures |CollectAll(ds, playerPos, playerSize, playerType)| == |ds|
    ensures forall i :: 0 <= i < |ds| ==>
      var d, e := ds[i], CollectAll(ds, playerPos, playerSize, playerType)[i];
      && (d.collected ==> e.collected)
      && (e.collected && !d.collected <==> Collectable(d, playerPos, playerSize, playerType))
      && e.(collected := d.collected) == d
  {
  }

  /** The collected count grows by the number of diamonds collected. */
  lemma {:induction false} CollectCount(ds: seq<Diamond>, playerPos: Vec2, playerSize: Vec2, playerType: int)
    ensures CountCollected(CollectAll(ds, playerPos, playerSize, playerType))
      == CountCollected(ds) + CountCollectable(ds, playerPos, playerSize, playerType)
  {
    if |ds| > 0 {
      var init := ds[..|ds| - 1];
      CollectCount(init, playerPos, playerSize, playerType);
      var after := CollectAll(ds, playerPos, playerSize, playerType);
      assert after[..|ds| - 1] == CollectAll(init, playerPos, playerSize, playerType);
    }
  }

  lemma {:induction false} CollectableCountPositive(ds: seq<Diamond>, playerPos: Vec2, playerSize: Vec2, playerType: int)
    ensures CountCollectable(ds, playerPos, playerSize, playerType) > 0 <==> AnyCollectable(ds, playerPos, playerSize, playerType)
  {
    if |ds| > 0 {
      var init := ds[..|ds| - 1];
      CollectableCountPositive(init, playerPos, playerSize, playerType);
      if AnyCollectable(init, playerPos, playerSize, playerType) {
        var i :| 0 <= i < |init| && Collectable(init[i], playerPos, playerSize, playerType);
        assert ds[i] == init[i];
      }
      if AnyCollectable(ds, playerPos, playerSize, playerType) {
        var i :| 0 <= i < |ds| && Collectable(ds[i], playerPos, playerSize, playerType);
        if i < |ds| - 1 {
          assert init[i] == ds[i];
        }
      }
    }
  }

  /** So the collected count never decreases, and it grows exactly when the
      call reports that something was collected. */
  lemma CollectedCountMonotone(ds: seq<Diamond>, playerPos: Vec2, playerSize: Vec2, playerType: int)
    ensures var after := CountCollected(CollectAll(ds, playerPos, playerSize, playerType));
      && CountCollected(ds) <= after
      && (CountCollected(ds) < after <==> AnyCollectable(ds, playerPos, playerSize, playerType))
  {
    CollectCount(ds, playerPos, playerSize, playerType);
    CollectableCountPositive(ds, playerPos, playerSize, playerType);
  }

  /** Every collected diamond is blue or red, so the two per-type counts add
      up to the total. */
  lemma {:induction false} CountsByTypeAddUp(ds: seq<Diamond>)
    ensures CountCollected(ds) == CountCollectedOf(ds, Blue) + CountCollectedOf(ds, Red)
  {
    if |ds| > 0 {
      CountsByTypeAddUp(ds[..|ds| - 1]);
    }
  }

  class Diamonds {
    var diamonds: seq<Diamond>

    constructor (ds: seq<Diamond>)
      ensures diamonds == ds
    {
      diamonds := ds;
    }

    /** Collects every diamond the player can take now; reports whether it
        took any. */
    method CheckCollisionAndCollect(playerPos: Vec2, playerSize: Vec2, playerType: int) returns (collected: bool)
      modifies this
      ensures diamonds == CollectAll(old(diamonds), playerPos, playerSize, playerType)
      ensures collected <==> AnyCollectable(old(diamonds), playerPos, playerSize, playerType)
    {
      collected := false;
      var i := 0;
      while i < |diamonds|
        invariant 0 <= i <= |diamonds| == |old(diamonds)|
        invariant forall m :: 0 <= m < i ==> diamonds[m] == Collect(old(diamonds)[m], playerPos, playerSize, playerType)
        invariant forall m :: i <= m < |diamonds| ==> diamonds[m] == old(diamonds)[m]
        invariant collected <==> exists m :: 0 <= m < i && Collectable(old(diamonds)[m], playerPos, playerSize, playerType)
      {
        var diamond := diamonds[i];
        if diamond.collected {
          i := i + 1;
          continue;
        }
        var diamondCenter := diamond.position;
        if CheckCircleRectCollision(diamondCenter, diamond.size * 2.0, playerPos, playerSize) {
          var canCollect := false;
          if diamond.kind == Blue && playerType == 0 {
            canCollect := true;
          } else if diamond.kind == Red && playerType == 1 {
            canCollect := true;
          }
          if canCollect {
            diamonds := diamonds[i := diamond.(collected := true)];
            collected := true;
          }
        }
        i := i + 1;
      }
    }

    method GetCollectedCount() returns (count: int)
      ensures count == CountCollected(diamonds)
    {
      count := 0;
      var i := 0;
      while i < |diamonds|
        invariant 0 <= i <= |diamonds|
        invariant count == CountCollected(diamonds[..i])
      {
        assert diamonds[..i + 1][..i] == diamonds[..i];
        if diamonds[i].collected {
          count := count + 1;
        }
        i := i + 1;
      }
      assert diamonds[..i] == diamonds;
    }

    method GetCollectedCountByType(t: DiamondType) returns (count: int)
      ensures count == CountCollectedOf(diamonds, t)
    {
      count := 0;
      var i := 0;
      while i < |diamonds|
        invariant 0 <= i <= |diamonds|
        invariant count == CountCollectedOf(diamonds[..i], t)
      {
        assert diamonds[..i + 1][..i] == diamonds[..i];
        if diamonds[i].collected && diamonds[i].kind == t {
          count := count + 1;
        }
        i := i + 1;
      }
      assert diamonds[..i] == diamonds;
    }
  }
}
