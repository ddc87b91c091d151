/** Liquid pools (platforms.cpp, class Liquids): polygons of water, lava or
    poison, and the query that tells which pool, if any, holds the centre of
    a player's box.  The first pool in list order wins. */
module LiquidPools {
  import opened Geometry
  import opened Wrappers

  datatype LiquidType = Water | Lava | Poison

  datatype Liquid = Liquid(points: seq<Vec2>, kind: LiquidType)

  /** The loader's reading of a pool's "type" string: "lava" and "poison"
      name those liquids and every other string means water. */
  function LiquidTypeOf(name: string): (t: LiquidType)
    ensures t == Lava <==> name == "lava"
    ensures t == Poison <==> name == "poison"
    ensures t == Water <==> name != "lava" && name != "poison"
  {
    if name == "water" then Water
    else if name == "lava" then Lava
    else if name == "poison" then Poison
    else Water
  }

  /** The loader keeps a pool only when it has at least one point. */
  function LoadedLiquids(records: seq<(seq<Vec2>, string)>): (ls: seq<Liquid>)
    ensures |ls| <= |records|
    ensures forall i :: 0 <= i < |ls| ==> |ls[i].points| > 0
  {
    if |records| == 0 then []
    else
      var rest := LoadedLiquids(records[1..]);
      if |records[0].0| == 0 then rest
      else [Liquid(records[0].0, LiquidTypeOf(records[0].1))] + rest
  }

  /** One record becomes one pool of its points and type, or nothing when it
      has no points. */
  lemma LoadedLiquidsOne(r: (seq<Vec2>, string))
    ensures LoadedLiquids([r]) == if |r.0| == 0 then [] else [Liquid(r.0, LiquidTypeOf(r.1))]
  {
    assert [r][1..] == [];
  }

  /** The loader works record by record and keeps their order: loading two
      runs of records one after the other gives the two lists of pools one
      after the other. */
  lemma {:induction false} LoadedLiquidsAppend(a: seq<(seq<Vec2>, string)>, b: seq<(seq<Vec2>, string)>)
    ensures LoadedLiquids(a + b) == LoadedLiquids(a) + LoadedLiquids(b)
  {
    if |a| > 0 {
      assert (a + b)[0] == a[0];
      assert (a + b)[1..] == a[1..] + b;
      LoadedLiquidsAppend(a[1..], b);
    } else {
      assert a + b == b;
    }
  }

  /** Every record with at least one point is kept, with its points and the
      type its name says. */
  lemma {:induction false} LoadedLiquidsKeepsEveryPool(records: seq<(seq<Vec2>, string)>, j: nat)
    requires j < |records| && |records[j].0| > 0
    ensures Liquid(records[j].0, LiquidTypeOf(records[j].1)) in LoadedLiquids(records)
  {
    assert records == records[..j] + [records[j]] + records[j + 1..];
    LoadedLiquidsAppend(records[..j] + [records[j]], records[j + 1..]);
    LoadedLiquidsAppend(records[..j], [records[j]]);
    LoadedLiquidsOne(records[j]);
  }

  /** The pools' copy of the crossing rule refuses polygons with fewer than
      three vertices before casting the ray. */
  predicate Contains(poly: seq<Vec2>, p: Vec2) {
    |poly| >= 3 && Inside(p, poly)
  }

  method PointInPolygon(point: Vec2, polygon: seq<Vec2>) returns (inside: bool)
    ensures inside == Contains(polygon, point)
  {
    var n := |polygon|;
    if n < 3 {
      return false;
    }
    var count := 0;
    var i := 0;
    while i < n
      invariant 0 <= i <= n
      invariant count == Crossings(point, polygon, i)
    {
      NextIsModulo(i, n);
      CrossingsStep(point, polygon, i);
      var p1 := polygon[i];
      var p2 := polygon[(i + 1) % n];
      if (p1.y <= point.y && point.y < p2.y) || (p2.y <= point.y && point.y < p1.y) {
        var xinters := XIntercept(point, p1, p2);
        if point.x < xinters {
          count := count + 1;
        }
      }
      i := i + 1;
    }
    inside := count % 2 == 1;
  }

  /** The guard changes nothing: the pools' test and the player's test agree
      on every polygon. */
  lemma ContainsIsInside(poly: seq<Vec2>, p: Vec2)
    ensures Contains(poly, p) == Inside(p, poly)
  {
    if |poly| < 3 {
      NoInsideBelowThreeVertices(p, poly);
    }
  }

  /** The first pool, in list order, that contains p. */
  function LiquidAt(liquids: seq<Liquid>, p: Vec2): Option<LiquidType> {
    if |liquids| == 0 then None
    else if Contains(liquids[0].points, p) then Some(liquids[0].kind)
    else LiquidAt(liquids[1..], p)
  }

  /** LiquidAt reports the type of the first pool containing p, and None
      exactly when no pool contains it. */
  lemma {:induction false} LiquidAtIsFirstMatch(liquids: seq<Liquid>, p: Vec2)
    ensures LiquidAt(liquids, p).None? <==> forall i :: 0 <= i < |liquids| ==> !Contains(liquids[i].points, p)
    ensures LiquidAt(liquids, p).Some? ==>
      exists i :: 0 <= i < |liquids| && Contains(liquids[i].points, p)
        && LiquidAt(liquids, p).value == liquids[i].kind
        && forall j :: 0 <= j < i ==> !Contains(liquids[j].points, p)
  {
    if |liquids| > 0 && !Contains(liquids[0].points, p) {
      LiquidAtIsFirstMatch(liquids[1..], p);
      if LiquidAt(liquids, p).Some? {
        var i :| 0 <= i < |liquids[1..]| && Contains(liquids[1..][i].points, p)
          && LiquidAt(liquids[1..], p).value == liquids[1..][i].kind
          && forall j :: 0 <= j < i ==> !Contains(liquids[1..][j].points, p);
        assert liquids[i + 1] == liquids[1..][i];
        assert forall j :: 1 <= j < i + 1 ==> liquids[j] == liquids[1..][j - 1];
      } else {
        assert forall i :: 1 <= i < |liquids| ==> liquids[i] == liquids[1..][i - 1];
      }
    }
  }

  /** The static query: the type of the first pool holding the centre of the
      box, or None (the source's -1). */
  method CheckLiquidCollision(liquids: seq<Liquid>, playerPos: Vec2, playerSize: Vec2)
    returns (r: Option<LiquidType>)
    ensures r == LiquidAt(liquids, Center(playerPos, playerSize))
  {
    var playerCenter := Vec2(playerPos.x + playerSize.x / 2.0, playerPos.y + playerSize.y / 2.0);
    var i := 0;
    while i < |liquids|
      invariant 0 <= i <= |liquids|
      invariant LiquidAt(liquids, playerCenter) == LiquidAt(liquids[i..], playerCenter)
    {
      assert liquids[i..][1..] == liquids[i + 1..];
      var inside := PointInPolygon(playerCenter, liquids[i].points);
      if inside {
        return Some(liquids[i].kind);
      }
      i := i + 1;
    }
    return None;
  }

  class Liquids {
    var liquids: seq<Liquid>

    constructor (ls: seq<Liquid>)
      ensures liquids == ls
    {
      liquids := ls;
    }

    /** The member query, over this level's pools. */
    method CheckCollision(playerPos: Vec2, playerSize: Vec2) returns (r: Option<LiquidType>)
      ensures r == LiquidAt(liquids, Center(playerPos, playerSize))
    {
      r := CheckLiquidCollision(liquids, playerPos, playerSize);
    }
  }
}
