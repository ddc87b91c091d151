/** Plane geometry shared by the level and the actor code: 2-D vectors with
    real coordinates (raylib's `Vector2`) and the ray-casting point-in-polygon
    test that both platforms.cpp and player.cpp implement. */
module Geometry {

  datatype Vec2 = Vec2(x: real, y: real)

  function Add(a: Vec2, b: Vec2): Vec2 { Vec2(a.x + b.x, a.y + b.y) }

  function Sub(a: Vec2, b: Vec2): Vec2 { Vec2(a.x - b.x, a.y - b.y) }

  function Scale(a: Vec2, k: real): Vec2 { Vec2(a.x * k, a.y * k) }

  function Dot(a: Vec2, b: Vec2): real { a.x * b.x + a.y * b.y }

  function LengthSq(a: Vec2): real { Dot(a, a) }

  /** Squared Euclidean distance; the model compares these instead of the
      `std::sqrt` distances of the source (radii are positive). */
  function DistSq(a: Vec2, b: Vec2): real { LengthSq(Sub(b, a)) }

  /** The centre of the box with top-left corner pos and extent size. */
  function Center(pos: Vec2, size: Vec2): Vec2 {
    Vec2(pos.x + size.x / 2.0, pos.y + size.y / 2.0)
  }

  function Min(a: real, b: real): real { if a <= b then a else b }

  function Max(a: real, b: real): real { if a >= b then a else b }

  function Abs(a: real): real { if a < 0.0 then -a else a }

  // ---------------------------------------------------------------------
  // Ray casting.  Edge k of a polygon joins poly[k] to poly[Next(k, n)].

  /** The vertex after k, wrapping round to the first: the source's (k + 1) % n. */
  function Next(k: nat, n: nat): (j: nat)
    requires k < n
    ensures j < n
  {
    if k + 1 < n then k + 1 else 0
  }

  lemma NextIsModulo(k: nat, n: nat)
    requires k < n
    ensures (k + 1) % n == Next(k, n)
  {
  }

  /** The half-open y-span test of the crossing rule, for either winding. */
  predicate InSpan(p: Vec2, a: Vec2, b: Vec2) {
    (a.y <= p.y && p.y < b.y) || (b.y <= p.y && p.y < a.y)
  }

  /** The x where edge a-b meets the horizontal line through p.  The span
      test is what makes the division safe: it forces a.y != b.y. */
  function XIntercept(p: Vec2, a: Vec2, b: Vec2): real
    requires InSpan(p, a, b)
  {
    (b.x - a.x) * (p.y - a.y) / (b.y - a.y) + a.x
  }

  /** The intercept lies on the edge: between the x of its two ends. */
  lemma XInterceptOnEdge(p: Vec2, a: Vec2, b: Vec2)
    requires InSpan(p, a, b)
    ensures Min(a.x, b.x) <= XIntercept(p, a, b) <= Max(a.x, b.x)
  {
    var num, den := p.y - a.y, b.y - a.y;
    var t := num / den;
    if a.y < b.y {
      QuotientInUnit(num, den);
    } else {
      QuotientInUnit(-num, -den);
      NegatedQuotient(num, den);
    }
    LerpBetween(a.x, b.x, t);
    ScaleOverQuotient(b.x - a.x, num, den);
    assert XIntercept(p, a, b) == a.x + t * (b.x - a.x);
  }

  lemma NegatedQuotient(num: real, den: real)
    requires den != 0.0
    ensures -num / -den == num / den
  {
  }

  /** A quotient of a part by the whole lies in [0, 1]. */
  lemma QuotientInUnit(num: real, den: real)
    requires 0.0 <= num <= den && 0.0 < den
    ensures 0.0 <= num / den <= 1.0
  {
  }

  lemma ScaleOverQuotient(w: real, num: real, den: real)
    requires den != 0.0
    ensures w * num / den == num / den * w
  {
  }

  lemma LerpBetween(u: real, v: real, t: real)
    requires 0.0 <= t <= 1.0
    ensures Min(u, v) <= u + t * (v - u) <= Max(u, v)
  {
    assert (v - u) - t * (v - u) == (1.0 - t) * (v - u);
    if u <= v {
      MulNonneg(t, v - u);
      MulNonneg(1.0 - t, v - u);
    } else {
      MulNonneg(t, u - v);
      MulNonneg(1.0 - t, u - v);
    }
  }

  lemma MulNonneg(a: real, b: real)
    requires 0.0 <= a && 0.0 <= b
    ensures 0.0 <= a * b
  {
  }

  /** Edge a-b is crossed by the ray going right from p. */
  predicate Crosses(p: Vec2, a: Vec2, b: Vec2) {
    InSpan(p, a, b) && p.x < XIntercept(p, a, b)
  }

  /** Number of crossed edges among the first k edges of poly. */
  function Crossings(p: Vec2, poly: seq<Vec2>, k: nat): nat
    requires k <= |poly|
  {
    if k == 0 then 0
    else Crossings(p, poly, k - 1) + (if Crosses(p, poly[k - 1], poly[Next(k - 1, |poly|)]) then 1 else 0)
  }

  lemma CrossingsStep(p: Vec2, poly: seq<Vec2>, k: nat)
    requires k < |poly|
    ensures Crossings(p, poly, k + 1) == Crossings(p, poly, k) + (if Crosses(p, poly[k], poly[Next(k, |poly|)]) then 1 else 0)
  {
  }

  /** Crossing-count parity: the ray-casting meaning of "p is inside poly". */
  predicate Inside(p: Vec2, poly: seq<Vec2>) {
    Crossings(p, poly, |poly|) % 2 == 1
  }

  /** The crossing rule does not depend on the direction an edge is walked. */
  lemma CrossesSymmetric(p: Vec2, a: Vec2, b: Vec2)
    ensures Crosses(p, a, b) == Crosses(p, b, a)
  {
    if InSpan(p, a, b) {
      var d := b.y - a.y;
      assert d != 0.0;
      calc {
        XIntercept(p, b, a);
        (a.x - b.x) * (p.y - b.y) / (a.y - b.y) + b.x;
        { assert (a.x - b.x) * (p.y - b.y) / (a.y - b.y) == (b.x - a.x) * (p.y - b.y) / d; }
        (b.x - a.x) * (p.y - b.y) / d + b.x;
        { assert (b.x - a.x) * (p.y - b.y) == (b.x - a.x) * (p.y - a.y) - (b.x - a.x) * d; }
        (b.x - a.x) * (p.y - a.y) / d - (b.x - a.x) * d / d + b.x;
        { assert (b.x - a.x) * d / d == b.x - a.x; }
        XIntercept(p, a, b);
      }
    }
  }

  /** A polygon with fewer than three vertices never contains a point under
      the crossing rule: a one-vertex polygon has a flat edge, and the two
      edges of a two-vertex polygon are the same segment walked both ways. */
  lemma NoInsideBelowThreeVertices(p: Vec2, poly: seq<Vec2>)
    requires |poly| < 3
    ensures !Inside(p, poly)
  {
    if |poly| == 2 {
      CrossesSymmetric(p, poly[0], poly[1]);
      assert Crossings(p, poly, 1) == (if Crosses(p, poly[0], poly[1]) then 1 else 0);
      assert Crossings(p, poly, 2) == Crossings(p, poly, 1) + (if Crosses(p, poly[1], poly[0]) then 1 else 0);
    } else if |poly| == 1 {
      assert !InSpan(p, poly[0], poly[0]);
      assert Crossings(p, poly, 1) == 0;
    }
  }
}
