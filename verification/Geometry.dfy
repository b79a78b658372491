/** The geometry of the collision detector, over the reals. */
module Geometry {
  import opened Basics

  datatype CollectionResult = CollectionResult(sqDistance: real, projRatio: real) {
    predicate IsCollected(radius: real) {
      0.0 <= projRatio <= 1.0 && sqDistance <= radius * radius
    }
  }

  function Minus(p: Coords, q: Coords): Coords { Coords(p.x - q.x, p.y - q.y) }

  function Dot(u: Coords, v: Coords): real { u.x * v.x + u.y * v.y }

  /** The point a + t(b - a). */
  function OnLine(a: Coords, b: Coords, t: real): Coords {
    Coords(a.x + t * (b.x - a.x), a.y + t * (b.y - a.y))
  }

  function SqLength(u: Coords): real { Dot(u, u) }

  lemma SquarePositive(x: real)
    ensures x * x >= 0.0
    ensures x != 0.0 ==> x * x > 0.0
  {
  }

  lemma SumOfSquaresPositive(x: real, y: real)
    requires x != 0.0 || y != 0.0
    ensures x * x + y * y > 0.0
  {
  }

  lemma SqLengthNonNegative(u: Coords)
    ensures SqLength(u) >= 0.0
  {
  }

  lemma SqLengthPositive(u: Coords)
    requires u.x != 0.0 || u.y != 0.0
    ensures SqLength(u) > 0.0
  {
    calc {
      SqLength(u);
      u.x * u.x + u.y * u.y;
    > { hide *; SumOfSquaresPositive(u.x, u.y); }
      0.0;
    }
  }

  lemma ApartPositive(a: Coords, b: Coords)
    requires a != b
    ensures SqLength(Minus(b, a)) > 0.0
  {
    SqLengthPositive(Minus(b, a));
  }

  /** u_len2 - (u_dot_v * u_dot_v) / v_len2 and u_dot_v / v_len2. */
  function Project(uu: real, uv: real, vv: real): CollectionResult
    requires vv != 0.0
  {
    CollectionResult(uu - uv * uv / vv, uv / vv)
  }

  function TryCollectPoint(a: Coords, b: Coords, c: Coords): CollectionResult
    requires a != b
  {
    ApartPositive(a, b);
    Project(SqLength(Minus(c, a)), Dot(Minus(c, a), Minus(b, a)), SqLength(Minus(b, a)))
  }

  lemma CompleteSquare(uu: real, uv: real, vv: real, t: real)
    requires vv > 0.0
    ensures var r := Project(uu, uv, vv);
            uu - 2.0 * (t * uv) + t * t * vv == r.sqDistance + vv * ((t - r.projRatio) * (t - r.projRatio))
  {
  }

  /** Completing the square: the squared distance from c to a point of the line, against the returned one. */
  lemma DistanceOnLine(a: Coords, b: Coords, c: Coords, t: real)
    requires a != b
    ensures var r := TryCollectPoint(a, b, c);
            SqLength(Minus(c, OnLine(a, b, t))) ==
            r.sqDistance + SqLength(Minus(b, a)) * ((t - r.projRatio) * (t - r.projRatio))
  {
    ApartPositive(a, b);
    MinusOnLine(a, b, c, t);
    hide Dot, SqLength, Minus, OnLine;
    Expand(Minus(c, a), Minus(b, a), t);
    CompleteSquare(SqLength(Minus(c, a)), Dot(Minus(c, a), Minus(b, a)), SqLength(Minus(b, a)), t);
  }

  lemma MinusOnLine(a: Coords, b: Coords, c: Coords, t: real)
    ensures Minus(c, OnLine(a, b, t)) ==
            Coords(Minus(c, a).x - t * Minus(b, a).x, Minus(c, a).y - t * Minus(b, a).y)
  {
    var u, v := Minus(c, a), Minus(b, a);
    var kx, ky := t * (b.x - a.x), t * (b.y - a.y);
    assert Minus(c, OnLine(a, b, t)) == Coords(u.x - kx, u.y - ky);
    assert kx == t * v.x && ky == t * v.y;
  }

  lemma Expand(u: Coords, v: Coords, t: real)
    ensures SqLength(Coords(u.x - t * v.x, u.y - t * v.y)) == SqLength(u) - 2.0 * (t * Dot(u, v)) + t * t * SqLength(v)
  {
  }

  lemma DistanceAtLeast(a: Coords, b: Coords, c: Coords, t: real)
    requires a != b
    ensures TryCollectPoint(a, b, c).sqDistance <= SqLength(Minus(c, OnLine(a, b, t)))
  {
    DistanceOnLine(a, b, c, t);
    ApartPositive(a, b);
    SquarePositive(t - TryCollectPoint(a, b, c).projRatio);
    hide *;
    ProductPositive(SqLength(Minus(b, a)),
                    (t - TryCollectPoint(a, b, c).projRatio) * (t - TryCollectPoint(a, b, c).projRatio));
  }

  lemma ProductPositive(x: real, y: real)
    requires x >= 0.0 && y >= 0.0
    ensures x * y >= 0.0
  {
  }

  lemma DistanceAttained(a: Coords, b: Coords, c: Coords)
    requires a != b
    ensures var r := TryCollectPoint(a, b, c);
            0.0 <= r.sqDistance && r.sqDistance == SqLength(Minus(c, OnLine(a, b, r.projRatio)))
  {
    var p := TryCollectPoint(a, b, c).projRatio;
    DistanceOnLine(a, b, c, p);
    SqLengthNonNegative(Minus(c, OnLine(a, b, p)));
    hide *;
    assert (p - p) * (p - p) == 0.0;
  }

  /** The returned squared distance is the minimum over the whole line, attained at the returned ratio. */
  lemma DistanceIsMinimal(a: Coords, b: Coords, c: Coords)
    requires a != b
    ensures var r := TryCollectPoint(a, b, c);
            && 0.0 <= r.sqDistance
            && r.sqDistance == SqLength(Minus(c, OnLine(a, b, r.projRatio)))
            && forall t :: r.sqDistance <= SqLength(Minus(c, OnLine(a, b, t)))
  {
    hide *;
    DistanceAttained(a, b, c);
    forall t
      ensures TryCollectPoint(a, b, c).sqDistance <= SqLength(Minus(c, OnLine(a, b, t)))
    {
      DistanceAtLeast(a, b, c, t);
    }
  }

  function Scale(k: real, u: Coords): Coords { Coords(k * u.x, k * u.y) }

  lemma DotScale(k: real, u: Coords, v: Coords)
    ensures Dot(u, Scale(k, v)) == k * Dot(u, v)
    ensures SqLength(Scale(k, v)) == k * (k * SqLength(v))
  {
  }

  /** Shortening the direction by a factor leaves the distance alone and stretches the ratio. */
  lemma ProjectScaled(uu: real, uv: real, vv: real, k: real, n: real, d: real)
    requires vv > 0.0 && k > 0.0 && d > 0.0
    requires n == k * uv && d == k * (k * vv)
    ensures Project(uu, n, d).sqDistance == Project(uu, uv, vv).sqDistance
    ensures k * Project(uu, n, d).projRatio == Project(uu, uv, vv).projRatio
  {
  }

  lemma ScaledLengthPositive(vv: real, k: real)
    requires vv > 0.0 && k > 0.0
    ensures k * (k * vv) > 0.0
  {
  }

  lemma PartDirections(a: Coords, b: Coords, s: real)
    ensures Minus(OnLine(a, b, s), a) == Scale(s, Minus(b, a))
    ensures Minus(b, OnLine(a, b, s)) == Scale(1.0 - s, Minus(b, a))
  {
  }

  lemma DirectionApart(a: Coords, b: Coords)
    requires SqLength(Minus(b, a)) > 0.0
    ensures a != b
  {
  }

  /** Projecting on a segment in the direction of a shorter or longer vector. */
  lemma AlongScaled(o: Coords, e: Coords, c: Coords, v: Coords, k: real)
    requires Minus(e, o) == Scale(k, v) && SqLength(v) > 0.0 && k > 0.0
    ensures o != e
    ensures var p := Project(SqLength(Minus(c, o)), Dot(Minus(c, o), v), SqLength(v));
            TryCollectPoint(o, e, c).sqDistance == p.sqDistance && k * TryCollectPoint(o, e, c).projRatio == p.projRatio
  {
    DotScale(k, Minus(c, o), v);
    hide Dot, SqLength, Minus, Scale, Project;
    calc {
      SqLength(Minus(e, o));
      k * (k * SqLength(v));
    > { ScaledLengthPositive(SqLength(v), k); }
      0.0;
    }
    DirectionApart(o, e);
    ProjectScaled(SqLength(Minus(c, o)), Dot(Minus(c, o), v), SqLength(v), k,
                  Dot(Minus(c, o), Minus(e, o)), SqLength(Minus(e, o)));
  }

  /** The part of a segment up to a + s(b - a). */
  lemma FirstPart(a: Coords, b: Coords, c: Coords, s: real)
    requires a != b && 0.0 < s
    ensures OnLine(a, b, s) != a
    ensures TryCollectPoint(a, OnLine(a, b, s), c).sqDistance == TryCollectPoint(a, b, c).sqDistance
    ensures s * TryCollectPoint(a, OnLine(a, b, s), c).projRatio == TryCollectPoint(a, b, c).projRatio
  {
    hide Dot, SqLength, Minus, OnLine, Scale, Project;
    ApartPositive(a, b);
    PartDirections(a, b, s);
    AlongScaled(a, OnLine(a, b, s), c, Minus(b, a), s);
  }

  lemma DotBeyond(a: Coords, b: Coords, c: Coords, s: real)
    ensures Dot(Minus(c, OnLine(a, b, s)), Minus(b, a)) ==
            Dot(Minus(c, a), Minus(b, a)) - s * SqLength(Minus(b, a))
  {
  }

  /** Moving the origin of the projection along the line. */
  lemma ProjectShifted(uu: real, uv: real, vv: real, s: real, wu: real, w: real)
    requires vv > 0.0
    requires var whole := Project(uu, uv, vv);
             wu == whole.sqDistance + vv * ((s - whole.projRatio) * (s - whole.projRatio)) && w == uv - s * vv
    ensures Project(wu, w, vv).sqDistance == Project(uu, uv, vv).sqDistance
    ensures Project(wu, w, vv).projRatio == Project(uu, uv, vv).projRatio - s
  {
  }

  /** The part of a segment from a + s(b - a) on. */
  lemma SecondPart(a: Coords, b: Coords, c: Coords, s: real)
    requires a != b && s < 1.0
    ensures OnLine(a, b, s) != b
    ensures TryCollectPoint(OnLine(a, b, s), b, c).sqDistance == TryCollectPoint(a, b, c).sqDistance
    ensures (1.0 - s) * TryCollectPoint(OnLine(a, b, s), b, c).projRatio == TryCollectPoint(a, b, c).projRatio - s
  {
    hide Dot, SqLength, Minus, OnLine, Scale, Project;
    ApartPositive(a, b);
    PartDirections(a, b, s);
    AlongScaled(OnLine(a, b, s), b, c, Minus(b, a), 1.0 - s);
    DotBeyond(a, b, c, s);
    DistanceOnLine(a, b, c, s);
    ProjectShifted(SqLength(Minus(c, a)), Dot(Minus(c, a), Minus(b, a)), SqLength(Minus(b, a)), s,
                   SqLength(Minus(c, OnLine(a, b, s))), Dot(Minus(c, OnLine(a, b, s)), Minus(b, a)));
  }

  /** Cutting a segment at an interior point collects exactly what the whole segment collects. */
  lemma SplitSegmentLeavesNoGap(a: Coords, b: Coords, c: Coords, s: real, radius: real)
    requires a != b && 0.0 < s < 1.0
    ensures OnLine(a, b, s) != a && OnLine(a, b, s) != b
    ensures TryCollectPoint(a, b, c).IsCollected(radius) <==>
            TryCollectPoint(a, OnLine(a, b, s), c).IsCollected(radius) ||
            TryCollectPoint(OnLine(a, b, s), b, c).IsCollected(radius)
  {
    FirstPart(a, b, c, s);
    SecondPart(a, b, c, s);
    hide TryCollectPoint, OnLine;
    var p := TryCollectPoint(a, b, c).projRatio;
    RatioSplits(p, s, TryCollectPoint(a, OnLine(a, b, s), c).projRatio,
                TryCollectPoint(OnLine(a, b, s), b, c).projRatio);
  }

  lemma RatioSplits(p: real, s: real, first: real, second: real)
    requires 0.0 < s < 1.0
    requires s * first == p && (1.0 - s) * second == p - s
    ensures 0.0 <= p <= 1.0 <==> 0.0 <= first <= 1.0 || 0.0 <= second <= 1.0
  {
    ScaledRange(s, first, p);
    ScaledRange(1.0 - s, second, p - s);
  }

  lemma ScaledRange(k: real, x: real, y: real)
    requires k > 0.0 && k * x == y
    ensures 0.0 <= x <==> 0.0 <= y
    ensures x <= 1.0 <==> y <= k
  {
    if x < 0.0 {
      assert k * x < 0.0;
    } else {
      assert 0.0 <= k * x;
    }
    var d := x - 1.0;
    assert y == k + k * d;
    if d > 0.0 {
      assert k * d > 0.0;
    } else {
      assert k * d <= 0.0;
    }
  }

  /** At the ratio t, the way from a to b is abreast of c and no further away than the radius. */
  predicate PassesAt(a: Coords, b: Coords, c: Coords, radius: real, t: real) {
    var dx, dy := c.x - (a.x + t * (b.x - a.x)), c.y - (a.y + t * (b.y - a.y));
    && 0.0 <= t <= 1.0
    && dx * (b.x - a.x) + dy * (b.y - a.y) == 0.0
    && dx * dx + dy * dy <= radius * radius
  }

  ghost predicate Passes(a: Coords, b: Coords, c: Coords, radius: real) {
    exists t :: PassesAt(a, b, c, radius, t)
  }

  lemma RatioOfFoot(uv: real, vv: real, t: real)
    requires vv > 0.0
    ensures uv - t * vv == 0.0 <==> t == uv / vv
  {
    if uv - t * vv == 0.0 {
      assert t * vv / vv == t;
    }
  }

  /** The way is abreast of c at the returned ratio and nowhere else. */
  lemma FootIff(a: Coords, b: Coords, c: Coords, t: real)
    requires a != b
    ensures Dot(Minus(c, OnLine(a, b, t)), Minus(b, a)) == 0.0 <==> t == TryCollectPoint(a, b, c).projRatio
  {
    ApartPositive(a, b);
    DotBeyond(a, b, c, t);
    hide Dot, SqLength, Minus, OnLine;
    RatioOfFoot(Dot(Minus(c, a), Minus(b, a)), SqLength(Minus(b, a)), t);
  }

  /** The point is collected exactly at the ratio where the way passes it within the radius. */
  lemma CollectedAt(a: Coords, b: Coords, c: Coords, radius: real, t: real)
    requires a != b
    ensures PassesAt(a, b, c, radius, t) <==>
            TryCollectPoint(a, b, c).IsCollected(radius) && t == TryCollectPoint(a, b, c).projRatio
  {
    hide TryCollectPoint;
    FootIff(a, b, c, t);
    DistanceAttained(a, b, c);
  }

  /** A point is collected exactly if the way passes it within the radius. */
  lemma CollectedIff(a: Coords, b: Coords, c: Coords, radius: real)
    requires a != b
    ensures TryCollectPoint(a, b, c).IsCollected(radius) <==> Passes(a, b, c, radius)
    ensures TryCollectPoint(a, b, c).IsCollected(radius) <==>
            exists t :: && 0.0 <= t <= 1.0
                        && Dot(Minus(c, OnLine(a, b, t)), Minus(b, a)) == 0.0
                        && SqLength(Minus(c, OnLine(a, b, t))) <= radius * radius
  {
    var r := TryCollectPoint(a, b, c);
    CollectedAt(a, b, c, radius, r.projRatio);
    DistanceAttained(a, b, c);
    FootIff(a, b, c, r.projRatio);
    hide TryCollectPoint, Dot, Minus, OnLine, SqLength, PassesAt;
    if Passes(a, b, c, radius) {
      var t :| PassesAt(a, b, c, radius, t);
      CollectedAt(a, b, c, radius, t);
    }
    if t :| && 0.0 <= t <= 1.0
            && Dot(Minus(c, OnLine(a, b, t)), Minus(b, a)) == 0.0
            && SqLength(Minus(c, OnLine(a, b, t))) <= radius * radius {
      FootIff(a, b, c, t);
    }
  }
}
