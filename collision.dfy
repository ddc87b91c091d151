/** The actor-versus-polygon primitives of player.cpp: the ray-casting test,
    the closest point on a segment, the edge contact classifier and the
    nearest-contact selection over the edges of one polygon.

    Distances are compared squared (every radius here is positive), the
    contact normal is kept un-normalised (its direction and the sign test
    that flips it do not depend on its length), and the `atan2` sectors are
    the comparisons of `Classify`. */
module Collision {
  import opened Geometry
  import opened Wrappers

  const CollisionMargin: real := 3.0

  /** Squared length under which a segment is treated as a point. */
  const DegenerateSegmentSq: real := 0.0001

  /** The "no contact" distance 1e9 of the source, squared. */
  const NoContactDistSq: real := 1000000000000000000.0

  // ---------------------------------------------------------------------
  // PointInPolygon (the player.cpp copy: no vertex-count guard)

  method PointInPolygon(p: Vec2, poly: seq<Vec2>) returns (inside: bool)
    ensures inside == Inside(p, poly)
  {
    var count := 0;
    var i := 0;
    while i < |poly|
      invariant 0 <= i <= |poly|
      invariant count == Crossings(p, poly, i)
    {
      NextIsModulo(i, |poly|);
      CrossingsStep(p, poly, i);
      var p1 := poly[i];
      var p2 := poly[(i + 1) % |poly|];
      if (p1.y <= p.y && p.y < p2.y) || (p2.y <= p.y && p.y < p1.y) {
        var xinters := XIntercept(p, p1, p2);
        if p.x < xinters {
          count := count + 1;
        }
      }
      i := i + 1;
    }
    inside := count % 2 == 1;
  }

  // ---------------------------------------------------------------------
  // ClosestPointOnSegment

  /** The point at parameter t along segment a-b. */
  function PointAt(a: Vec2, b: Vec2, t: real): Vec2 {
    Vec2(a.x + t * (b.x - a.x), a.y + t * (b.y - a.y))
  }

  function Clamp(v: real, lo: real, hi: real): real
    requires lo <= hi
  {
    if v < lo then lo else if hi < v then hi else v
  }

  function ClosestPointOnSegment(p: Vec2, a: Vec2, b: Vec2): (r: Vec2)
    ensures LengthSq(Sub(b, a)) < DegenerateSegmentSq ==> r == a
  {
    var ab := Sub(b, a);
    var ap := Sub(p, a);
    var len2 := LengthSq(ab);
    if len2 < DegenerateSegmentSq then a
    else
      var t := Clamp(Dot(ap, ab) / len2, 0.0, 1.0);
      PointAt(a, b, t)
  }

  lemma SquareExpand(s: real, d: real, q: real)
    ensures (s * d - q) * (s * d - q) == s * s * (d * d) - 2.0 * s * (q * d) + q * q
  {
  }

  /** Squared distance from p to the point at parameter s, as a quadratic in s. */
  lemma DistSqAlong(p: Vec2, a: Vec2, b: Vec2, s: real)
    ensures DistSq(p, PointAt(a, b, s))
         == s * s * LengthSq(Sub(b, a)) - 2.0 * s * Dot(Sub(p, a), Sub(b, a)) + LengthSq(Sub(p, a))
  {
    var dx, dy := b.x - a.x, b.y - a.y;
    var qx, qy := p.x - a.x, p.y - a.y;
    var r := PointAt(a, b, s);
    assert r.x - p.x == s * dx - qx && r.y - p.y == s * dy - qy;
    SquareExpand(s, dx, qx);
    SquareExpand(s, dy, qy);
    assert s * s * (dx * dx) + s * s * (dy * dy) == s * s * (dx * dx + dy * dy);
    assert 2.0 * s * (qx * dx) + 2.0 * s * (qy * dy) == 2.0 * s * (qx * dx + qy * dy);
  }

  /** Away from degenerate segments the result is a point of segment a-b. */
  lemma ClosestPointIsOnSegment(p: Vec2, a: Vec2, b: Vec2)
    requires LengthSq(Sub(b, a)) >= DegenerateSegmentSq
    ensures exists t :: 0.0 <= t <= 1.0 && ClosestPointOnSegment(p, a, b) == PointAt(a, b, t)
  {
    var L := LengthSq(Sub(b, a));
    var t := Clamp(Dot(Sub(p, a), Sub(b, a)) / L, 0.0, 1.0);
    assert ClosestPointOnSegment(p, a, b) == PointAt(a, b, t);
  }

  /** ... and no point of a-b is nearer to p. */
  lemma ClosestPointIsNearest(p: Vec2, a: Vec2, b: Vec2, s: real)
    requires LengthSq(Sub(b, a)) >= DegenerateSegmentSq
    requires 0.0 <= s <= 1.0
    ensures DistSq(p, ClosestPointOnSegment(p, a, b)) <= DistSq(p, PointAt(a, b, s))
  {
    var L := LengthSq(Sub(b, a));
    var g := Dot(Sub(p, a), Sub(b, a));
    var t := Clamp(g / L, 0.0, 1.0);
    assert ClosestPointOnSegment(p, a, b) == PointAt(a, b, t);
    DistSqAlong(p, a, b, s);
    DistSqAlong(p, a, b, t);
    ClampedMinimiser(L, g, s);
  }

  /** The quadratic s*s*L - 2*s*g (L > 0) has no smaller value on [0, 1]
      than at the clamped vertex g / L. */
  lemma ClampedMinimiser(L: real, g: real, s: real)
    requires L > 0.0 && 0.0 <= s <= 1.0
    ensures var t := Clamp(g / L, 0.0, 1.0);
      t * t * L - 2.0 * t * g <= s * s * L - 2.0 * s * g
  {
    var t := Clamp(g / L, 0.0, 1.0);
    assert g / L * L == g;
    if g / L < 0.0 {
      NegativeQuotient(g, L);
      MulNonneg(s * s, L);
      MulNonneg(s, -g);
    } else if 1.0 < g / L {
      QuotientAboveOne(g, L);
      UpperClampGap(L, g, s);
    } else {
      VertexGap(L, g, s, t);
    }
  }

  lemma NegativeQuotient(g: real, L: real)
    requires L > 0.0 && g / L < 0.0
    ensures g < 0.0
  {
    assert g == g / L * L;
    MulNonneg(-(g / L), L);
  }

  lemma QuotientAboveOne(g: real, L: real)
    requires L > 0.0 && 1.0 < g / L
    ensures g > L
  {
    assert g == g / L * L;
    MulNonneg(g / L - 1.0, L);
    assert (g / L - 1.0) * L == g - L;
  }

  lemma UpperClampGap(L: real, g: real, s: real)
    requires L > 0.0 && g > L && 0.0 <= s <= 1.0
    ensures 1.0 * 1.0 * L - 2.0 * 1.0 * g <= s * s * L - 2.0 * s * g
  {
    MulNonneg(1.0 - s, L);
    assert (s + 1.0) * L <= 2.0 * L;
    MulNonneg(1.0 - s, 2.0 * g - (s + 1.0) * L);
    assert (s * s * L - 2.0 * s * g) - (L - 2.0 * g) == (1.0 - s) * (2.0 * g - (s + 1.0) * L);
  }

  lemma VertexGap(L: real, g: real, s: real, t: real)
    requires L > 0.0 && t * L == g
    ensures t * t * L - 2.0 * t * g <= s * s * L - 2.0 * s * g
  {
    MulNonneg((s - t) * (s - t), L);
    assert (s * s * L - 2.0 * s * g) - (t * t * L - 2.0 * t * g) == (s - t) * (s - t) * L;
  }

  // ---------------------------------------------------------------------
  // CheckEdgeCollision

  /** The source's `EdgeCollision` record; `distSq` is its `distance` squared. */
  datatype EdgeContact = EdgeContact(
    hasCollision: bool,
    direction: int,
    normal: Vec2,
    pushPoint: Vec2,
    distSq: real,
    edgeStart: Vec2,
    edgeEnd: Vec2)

  /** Radius of the actor's collision circle: half its larger side plus the margin. */
  function ContactRadius(size: Vec2): real {
    Max(size.x, size.y) / 2.0 + CollisionMargin
  }

  /** The left-hand perpendicular (-e.y, e.x) of edge p1-p2. */
  function EdgePerp(p1: Vec2, p2: Vec2): Vec2 {
    Vec2(-(p2.y - p1.y), p2.x - p1.x)
  }

  /** The four contact directions by the sector the normal points into
      (screen y grows downwards): 0 floor (normal up, angle in (-135, -45]
      degrees), 1 ceiling (normal down, [45, 135)), 2 wall with the normal
      pointing left ([135, 180] and [-180, -135]), 3 everything else.
      A zero-length edge has the normal (-0, +0) in the source, whose angle
      is 180 degrees, so the zero vector is wall 2. */
  function Classify(n: Vec2): (dir: int)
    ensures 0 <= dir <= 3
  {
    if n.y < n.x && n.x <= -n.y then 0
    else if -n.y < n.x && n.x <= n.y then 1
    else if n.x <= 0.0 && n.y <= -n.x && -n.y <= -n.x then 2
    else 3
  }

  /** The source normalises the normal before taking its angle; a positive
      scale never changes the sector, so the model can skip the square root. */
  lemma ClassifyScaleInvariant(n: Vec2, k: real)
    requires k > 0.0
    ensures Classify(Scale(n, k)) == Classify(n)
  {
    var a, b := n.x * k, n.y * k;
    assert Scale(n, k) == Vec2(a, b);
    assert -n.y * k == -b && -n.x * k == -a;
    MulMonotone(n.y, n.x, k);
    assert (b < a) == (n.y < n.x);
    MulMonotone(n.x, -n.y, k);
    assert (a <= -b) == (n.x <= -n.y);
    MulMonotone(-n.y, n.x, k);
    assert (-b < a) == (-n.y < n.x);
    MulMonotone(n.x, n.y, k);
    assert (a <= b) == (n.x <= n.y);
    MulMonotone(n.x, 0.0, k);
    assert (a < 0.0) == (n.x < 0.0);
    MulMonotone(n.y, -n.x, k);
    assert (b <= -a) == (n.y <= -n.x);
    MulMonotone(-n.y, -n.x, k);
    assert (-b <= -a) == (-n.y <= -n.x);
  }

  lemma MulMonotone(u: real, v: real, k: real)
    requires k > 0.0
    ensures (u < v <==> u * k < v * k) && (u <= v <==> u * k <= v * k)
  {
    if u < v {
      MulNonneg(v - u, k);
      assert (v - u) * k > 0.0;
    } else {
      MulNonneg(u - v, k);
    }
  }

  /** An upward normal is a floor, a downward one a ceiling, a leftward one
      wall 2 and a rightward one wall 3. */
  lemma ClassifyAxes(k: real)
    requires k > 0.0
    ensures Classify(Vec2(0.0, -k)) == 0 && Classify(Vec2(0.0, k)) == 1
    ensures Classify(Vec2(-k, 0.0)) == 2 && Classify(Vec2(k, 0.0)) == 3
  {
  }

  /** A zero-length edge has no perpendicular to speak of; its contact is
      classed as a wall facing left, as the source's atan2(+0, -0) = pi is. */
  lemma ClassifyZeroNormal(p: Vec2)
    ensures Classify(EdgePerp(p, p)) == 2
  {
  }

  function NoContact(p1: Vec2, p2: Vec2): EdgeContact {
    EdgeContact(false, -1, Vec2(0.0, 0.0), Vec2(0.0, 0.0), NoContactDistSq, p1, p2)
  }

  /** The contact of the player's box with one edge: the box is treated as
      a circle of radius ContactRadius around its centre (see
      EdgeContactMeaning for what a contact reports). */
  /** Normal n turned, if need be, to face along d (the source's sign test
      on the dot product). */
  function Facing(d: Vec2, n: Vec2): Vec2 {
    if Dot(d, n) < 0.0 then Vec2(-n.x, -n.y) else n
  }

  /** The turned normal is n or its opposite, and faces along d. */
  lemma FacingMeaning(d: Vec2, n: Vec2)
    ensures Facing(d, n) == n || Facing(d, n) == Scale(n, -1.0)
    ensures Dot(d, Facing(d, n)) >= 0.0
  {
    if Dot(d, n) < 0.0 {
      DotNegated(d, n);
    }
  }

  lemma DotNegated(u: Vec2, n: Vec2)
    ensures Dot(u, Vec2(-n.x, -n.y)) == -Dot(u, n)
  {
    assert u.x * -n.x == -(u.x * n.x) && u.y * -n.y == -(u.y * n.y);
  }

  /** The contact of the player's box with one edge: the box is treated as
      a circle of radius ContactRadius around its centre (see
      EdgeContactMeaning for what a contact reports). */
  function CheckEdgeCollision(pos: Vec2, size: Vec2, p1: Vec2, p2: Vec2): (r: EdgeContact)
    ensures r.edgeStart == p1 && r.edgeEnd == p2
    ensures r.hasCollision ==> 0 <= r.direction <= 3
    ensures !r.hasCollision ==> r == NoContact(p1, p2)
  {
    var center := Center(pos, size);
    var closest := ClosestPointOnSegment(center, p1, p2);
    var radius := ContactRadius(size);
    if radius <= 0.0 || DistSq(center, closest) >= radius * radius then NoContact(p1, p2)
    else
      var normal := Facing(Sub(center, closest), EdgePerp(p1, p2));
      EdgeContact(true, Classify(normal), normal, closest, DistSq(center, closest), p1, p2)
  }

  /** An edge is touched exactly when the closest point of the edge lies
      strictly within the contact radius of the box centre; the contact then
      reports that point, its squared distance, and the edge's normal turned
      to face the centre, classified into one of the four directions. */
  lemma EdgeContactMeaning(pos: Vec2, size: Vec2, p1: Vec2, p2: Vec2)
    ensures var r := CheckEdgeCollision(pos, size, p1, p2);
      var center, radius := Center(pos, size), ContactRadius(size);
      var closest := ClosestPointOnSegment(center, p1, p2);
      && (r.hasCollision <==> 0.0 < radius && DistSq(center, closest) < radius * radius)
      && (r.hasCollision ==>
            && r.direction == Classify(r.normal)
            && r.pushPoint == closest
            && r.distSq == DistSq(center, closest)
            && (r.normal == EdgePerp(p1, p2) || r.normal == Scale(EdgePerp(p1, p2), -1.0))
            && Dot(Sub(center, closest), r.normal) >= 0.0)
  {
    var center := Center(pos, size);
    FacingMeaning(Sub(center, ClosestPointOnSegment(center, p1, p2)), EdgePerp(p1, p2));
  }

  // ---------------------------------------------------------------------
  // GetBestCollisionDirection

  function Corners(pos: Vec2, size: Vec2): seq<Vec2> {
    [pos, Vec2(pos.x + size.x, pos.y), Vec2(pos.x + size.x, pos.y + size.y), Vec2(pos.x, pos.y + size.y)]
  }

  predicate AnyCornerInside(pos: Vec2, size: Vec2, poly: seq<Vec2>) {
    exists i :: 0 <= i < 4 && Inside(Corners(pos, size)[i], poly)
  }

  /** The contacts of the edges of poly, edge k joining poly[k] to poly[Next(k, n)]. */
  function EdgeContacts(pos: Vec2, size: Vec2, poly: seq<Vec2>): (cs: seq<EdgeContact>)
    ensures |cs| == |poly|
    ensures forall k :: 0 <= k < |poly| ==> cs[k] == CheckEdgeCollision(pos, size, poly[k], poly[Next(k, |poly|)])
  {
    seq(|poly|, k requires 0 <= k < |poly| => CheckEdgeCollision(pos, size, poly[k], poly[Next(k, |poly|)]))
  }

  /** The starting value of the source's running best. */
  const NoBest: EdgeContact := NoContact(Vec2(0.0, 0.0), Vec2(0.0, 0.0))

  /** A contact the running best can take: one nearer than the sentinel. */
  predicate Eligible(c: EdgeContact) {
    c.hasCollision && c.distSq < NoContactDistSq
  }

  /** The running best after the first k contacts (strict `<`, so a tie keeps the earlier edge). */
  function BestOf(cs: seq<EdgeContact>, k: nat): EdgeContact
    requires k <= |cs|
  {
    if k == 0 then NoBest
    else
      var best := BestOf(cs, k - 1);
      var c := cs[k - 1];
      if c.hasCollision && c.distSq < best.distSq then c else best
  }

  lemma BestOfStep(cs: seq<EdgeContact>, k: nat)
    requires k < |cs|
    ensures BestOf(cs, k + 1) ==
      if cs[k].hasCollision && cs[k].distSq < BestOf(cs, k).distSq then cs[k] else BestOf(cs, k)
  {
  }

  /** The direction GetBestCollisionDirection returns. */
  function BestDirection(pos: Vec2, size: Vec2, poly: seq<Vec2>): int {
    if !AnyCornerInside(pos, size, poly) then -1
    else
      var best := BestOf(EdgeContacts(pos, size, poly), |poly|);
      if !best.hasCollision then -1 else best.direction
  }

  /** The running best is the first contact with the least distance among
      the eligible ones, and there is one exactly when some contact is
      eligible. */
  lemma {:induction false} BestOfIsFirstNearest(cs: seq<EdgeContact>, k: nat)
    requires k <= |cs|
    ensures var best := BestOf(cs, k);
      && (best.hasCollision <==> exists i :: 0 <= i < k && Eligible(cs[i]))
      && (!best.hasCollision ==> best == NoBest)
      && (best.hasCollision ==>
            exists j :: 0 <= j < k && best == cs[j]
              && (forall i :: 0 <= i < k && Eligible(cs[i]) ==> best.distSq <= cs[i].distSq)
              && (forall i :: 0 <= i < j && Eligible(cs[i]) ==> best.distSq < cs[i].distSq))
  {
    if k > 0 {
      BestOfIsFirstNearest(cs, k - 1);
      var prev := BestOf(cs, k - 1);
      var c := cs[k - 1];
      if prev.hasCollision {
        var j :| 0 <= j < k - 1 && prev == cs[j]
          && (forall i :: 0 <= i < k - 1 && Eligible(cs[i]) ==> prev.distSq <= cs[i].distSq)
          && (forall i :: 0 <= i < j && Eligible(cs[i]) ==> prev.distSq < cs[i].distSq);
        assert Eligible(cs[j]);
        if c.hasCollision && c.distSq < prev.distSq {
          assert BestOf(cs, k) == cs[k - 1];
        } else {
          assert BestOf(cs, k) == cs[j];
        }
      } else {
        assert prev.distSq == NoContactDistSq;
      }
    }
  }

  /** A running best that has a collision carries one of the four directions. */
  lemma {:induction false} BestOfDirection(cs: seq<EdgeContact>, k: nat)
    requires k <= |cs|
    requires forall i :: 0 <= i < |cs| && cs[i].hasCollision ==> 0 <= cs[i].direction <= 3
    ensures BestOf(cs, k).hasCollision ==> 0 <= BestOf(cs, k).direction <= 3
  {
    if k > 0 {
      BestOfDirection(cs, k - 1);
    }
  }

  /** The corner pass of GetBestCollisionDirection: stops at the first
      corner the polygon contains. */
  method CornerInside(pos: Vec2, size: Vec2, poly: seq<Vec2>) returns (found: bool)
    ensures found == AnyCornerInside(pos, size, poly)
  {
    var corners := Corners(pos, size);
    found := false;
    var c := 0;
    while c < 4
      invariant 0 <= c <= 4
      invariant found <==> exists i :: 0 <= i < c && Inside(corners[i], poly)
      invariant found ==> c < 4
    {
      var inside := PointInPolygon(corners[c], poly);
      if inside {
        found := true;
        break;
      }
      c := c + 1;
    }
  }

  /** The edge pass of GetBestCollisionDirection: the running best over every
      edge, in polygon order. */
  method NearestEdgeContact(pos: Vec2, size: Vec2, poly: seq<Vec2>) returns (best: EdgeContact)
    ensures best == BestOf(EdgeContacts(pos, size, poly), |poly|)
  {
    ghost var contacts := EdgeContacts(pos, size, poly);
    best := NoBest;
    var i := 0;
    while i < |poly|
      invariant 0 <= i <= |poly|
      invariant best == BestOf(contacts, i)
    {
      NextIsModulo(i, |poly|);
      var collision := CheckEdgeCollision(pos, size, poly[i], poly[(i + 1) % |poly|]);
      assert collision == contacts[i];
      BestOfStep(contacts, i);
      if collision.hasCollision && collision.distSq < best.distSq {
        best := collision;
      }
      i := i + 1;
    }
  }

  method GetBestCollisionDirection(pos: Vec2, size: Vec2, poly: seq<Vec2>)
    returns (dir: int, contact: Option<EdgeContact>)
    ensures dir == BestDirection(pos, size, poly)
    ensures dir == -1 <==> contact.None?
    ensures contact.Some? ==>
      && contact.value == BestOf(EdgeContacts(pos, size, poly), |poly|)
      && contact.value.hasCollision
      && dir == contact.value.direction
      && 0 <= dir <= 3
  {
    var anyCornerInside := CornerInside(pos, size, poly);
    if !anyCornerInside {
      return -1, None;
    }
    var best := NearestEdgeContact(pos, size, poly);
    if !best.hasCollision {
      return -1, None;
    }
    BestOfDirection(EdgeContacts(pos, size, poly), |poly|);
    dir, contact := best.direction, Some(best);
  }

  /** The oracle view of GetBestCollisionDirection: the contact it reports
      for this box and polygon, with direction -1 when it reports none. */
  function ContactProbe(pos: Vec2, size: Vec2, poly: seq<Vec2>): (r: EdgeContact)
    ensures r.direction == BestDirection(pos, size, poly)
  {
    if BestDirection(pos, size, poly) == -1 then NoBest else BestOf(EdgeContacts(pos, size, poly), |poly|)
  }
}
