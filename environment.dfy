/**
 * The arena of src/environment.py: wall segments, the ray/segment test and
 * the axis-aligned square box centred at the origin.
 */
module Environment {
  import opened Wrappers
  import opened Vectors

  /**
   * A wall segment from `start` to `end` (the source's `endpoints[0]` and
   * `endpoints[1]`). The inward normal is carried along but takes no part in
   * the intersection test.
   */
  datatype Wall = Wall(start: Vec, end: Vec, insideNormal: Vec)

  /** `v3` of the source: the direction turned a quarter turn counter-clockwise. */
  function Perp(d: Vec): Vec { Vec(-d.y, d.x) }

  /** `np.dot(v2, v3)`: zero exactly when the ray runs parallel to the wall. */
  function Denominator(w: Wall, d: Vec): real { Dot(Sub(w.end, w.start), Perp(d)) }

  /** `t1`: how far along the ray the wall's line is met. */
  function RayParameter(w: Wall, origin: Vec, d: Vec): real
    requires Denominator(w, d) != 0.0
  {
    Cross(Sub(w.end, w.start), Sub(origin, w.start)) / Denominator(w, d)
  }

  /** `t2`: where on the wall the ray's line is met, 0 at `start` and 1 at `end`. */
  function WallParameter(w: Wall, origin: Vec, d: Vec): real
    requires Denominator(w, d) != 0.0
  {
    Dot(Sub(origin, w.start), Perp(d)) / Denominator(w, d)
  }

  /**
   * `Wall.ray_intersection`: the point where the ray from `origin` along
   * `direction` meets the wall, as a list of zero or one points. A zero
   * direction normalises to NaN in numpy, which fails every comparison, so it
   * yields no point; a ray parallel to the wall takes the `-inf` sentinels,
   * which fail the test too.
   */
  function RayIntersection(w: Wall, origin: Vec, direction: Vec, sqrt: real -> real): (hits: seq<Vec>)
    requires IsSqrt(sqrt)
    ensures |hits| <= 1
    ensures direction != Zero && Denominator(w, Normalize(direction, sqrt)) == 0.0 ==> hits == []
  {
    if direction == Zero then []
    else
      var d := Normalize(direction, sqrt);
      if Denominator(w, d) == 0.0 then []
      else
        var t1 := RayParameter(w, origin, d);
        var t2 := WallParameter(w, origin, d);
        if t1 >= 0.0 && t2 >= 0.0 && t2 <= 1.0 then [Add(origin, Scale(t1, d))] else []
  }

  /** `a / den` times `den` is `a`, and equal multiples of a non-zero `den` are equal. */
  lemma DivMul(a: real, den: real)
    requires den != 0.0
    ensures (a / den) * den == a
  {
  }

  lemma CancelFactor(a: real, b: real, den: real)
    requires den != 0.0 && den * a == den * b
    ensures a == b
  {
    assert den * (a - b) == 0.0;
  }

  /**
   * The algebra behind the test: for any non-parallel direction, the ray point
   * at `t1` and the wall point at `t2` coincide.
   */
  lemma ParametersMeet(w: Wall, origin: Vec, d: Vec)
    requires Denominator(w, d) != 0.0
    ensures Add(origin, Scale(RayParameter(w, origin, d), d))
         == Add(w.start, Scale(WallParameter(w, origin, d), Sub(w.end, w.start)))
  {
    var v1, v2, v3 := Sub(origin, w.start), Sub(w.end, w.start), Perp(d);
    var den := Denominator(w, d);
    var t1, t2 := RayParameter(w, origin, d), WallParameter(w, origin, d);
    DivMul(Cross(v2, v1), den);
    DivMul(Dot(v1, v3), den);
    assert den * v1.x + Cross(v2, v1) * d.x == Dot(v1, v3) * v2.x;
    assert den * v1.y + Cross(v2, v1) * d.y == Dot(v1, v3) * v2.y;
    CancelFactor(v1.x + t1 * d.x, t2 * v2.x, den);
    CancelFactor(v1.y + t1 * d.y, t2 * v2.y, den);
  }

  /**
   * Conversely, wherever the ray and the wall's line meet, the parameters are
   * `t1` and `t2`.
   */
  lemma MeetingGivesParameters(w: Wall, origin: Vec, d: Vec, t: real, s: real)
    requires Denominator(w, d) != 0.0
    requires Add(origin, Scale(t, d)) == Add(w.start, Scale(s, Sub(w.end, w.start)))
    ensures RayParameter(w, origin, d) == t && WallParameter(w, origin, d) == s
  {
    var den := Denominator(w, d);
    MeetingProducts(w, origin, d, t, s);
    DivMul(Cross(Sub(w.end, w.start), Sub(origin, w.start)), den);
    DivMul(Dot(Sub(origin, w.start), Perp(d)), den);
    CancelFactor(RayParameter(w, origin, d), t, den);
    CancelFactor(WallParameter(w, origin, d), s, den);
  }

  /** At a meeting point, the numerators of `t1` and `t2` are the parameters times the denominator. */
  lemma MeetingProducts(w: Wall, origin: Vec, d: Vec, t: real, s: real)
    requires Add(origin, Scale(t, d)) == Add(w.start, Scale(s, Sub(w.end, w.start)))
    ensures Cross(Sub(w.end, w.start), Sub(origin, w.start)) == t * Denominator(w, d)
    ensures Dot(Sub(origin, w.start), Perp(d)) == s * Denominator(w, d)
  {
    var v1, v2 := Sub(origin, w.start), Sub(w.end, w.start);
    assert v1 == Vec(s * v2.x - t * d.x, s * v2.y - t * d.y);
  }

  /**
   * A reported point lies on the wall and ahead of the origin along the
   * normalised direction.
   */
  lemma HitLiesOnWall(w: Wall, origin: Vec, direction: Vec, sqrt: real -> real)
    requires IsSqrt(sqrt) && RayIntersection(w, origin, direction, sqrt) != []
    ensures direction != Zero
    ensures var d := Normalize(direction, sqrt);
            var hit := RayIntersection(w, origin, direction, sqrt)[0];
            Denominator(w, d) != 0.0
            && 0.0 <= RayParameter(w, origin, d)
            && 0.0 <= WallParameter(w, origin, d) <= 1.0
            && hit == Add(origin, Scale(RayParameter(w, origin, d), d))
            && hit == Add(w.start, Scale(WallParameter(w, origin, d), Sub(w.end, w.start)))
  {
    ParametersMeet(w, origin, Normalize(direction, sqrt));
  }

  /**
   * A ray that does cross the wall, at distance `t >= 0` and fraction
   * `s` in [0, 1], is reported, at that point.
   */
  lemma CrossingIsReported(w: Wall, origin: Vec, direction: Vec, sqrt: real -> real, t: real, s: real)
    requires IsSqrt(sqrt) && direction != Zero
    requires Denominator(w, Normalize(direction, sqrt)) != 0.0
    requires 0.0 <= t && 0.0 <= s <= 1.0
    requires Add(origin, Scale(t, Normalize(direction, sqrt)))
          == Add(w.start, Scale(s, Sub(w.end, w.start)))
    ensures RayIntersection(w, origin, direction, sqrt)
         == [Add(origin, Scale(t, Normalize(direction, sqrt)))]
  {
    MeetingGivesParameters(w, origin, Normalize(direction, sqrt), t, s);
  }

  /** Only the direction's orientation matters: positive multiples give the same answer. */
  lemma RayIntersectionScaleInvariant(w: Wall, origin: Vec, direction: Vec, k: real, sqrt: real -> real)
    requires IsSqrt(sqrt) && 0.0 < k
    ensures RayIntersection(w, origin, Scale(k, direction), sqrt)
         == RayIntersection(w, origin, direction, sqrt)
  {
    if direction != Zero {
      NormalizeScaleInvariant(direction, k, sqrt);
    } else {
      assert Scale(k, direction) == Zero;
    }
  }

  /** The wall is met by the ray. */
  predicate Hits(w: Wall, origin: Vec, direction: Vec, sqrt: real -> real)
    requires IsSqrt(sqrt)
  {
    RayIntersection(w, origin, direction, sqrt) != []
  }

  /** `np.linalg.norm(intersection[0] - point)`. */
  function HitDistance(w: Wall, origin: Vec, direction: Vec, sqrt: real -> real): real
    requires IsSqrt(sqrt) && Hits(w, origin, direction, sqrt)
  {
    Norm(Sub(RayIntersection(w, origin, direction, sqrt)[0], origin), sqrt)
  }

  /** The distance to a reported point is the ray parameter `t1`, never negative. */
  lemma HitDistanceIsRayParameter(w: Wall, origin: Vec, direction: Vec, sqrt: real -> real)
    requires IsSqrt(sqrt) && Hits(w, origin, direction, sqrt)
    ensures direction != Zero && Denominator(w, Normalize(direction, sqrt)) != 0.0
    ensures HitDistance(w, origin, direction, sqrt) == RayParameter(w, origin, Normalize(direction, sqrt))
    ensures 0.0 <= HitDistance(w, origin, direction, sqrt)
  {
    HitLiesOnWall(w, origin, direction, sqrt);
    var d := Normalize(direction, sqrt);
    var t := RayParameter(w, origin, d);
    NormalizeFacts(direction, sqrt);
    assert Sub(Add(origin, Scale(t, d)), origin) == Scale(t, d);
    NormOfScaledUnit(t, d, sqrt);
  }

  /** The default side length of `BoxEnvironment`. */
  const DefaultWallLength: real := 5.0

  /** What `min` of an empty list raises: no wall lies ahead. */
  datatype EnvironmentError = NoWallAhead

  /**
   * A square box of side `wallLength` centred at the origin. Its walls run
   * bottom, right, top, left, counter-clockwise, each with the unit normal
   * pointing into the box.
   */
  datatype BoxEnvironment = BoxEnvironment(wallLength: real)
  {
    function HalfWall(): real { wallLength / 2.0 }

    function Walls(): (walls: seq<Wall>)
      ensures |walls| == 4
    {
      var h := HalfWall();
      var bottomLeft, bottomRight := Vec(-h, -h), Vec(h, -h);
      var topRight, topLeft := Vec(h, h), Vec(-h, h);
      [ Wall(bottomLeft, bottomRight, Vec(0.0, 1.0)),
        Wall(bottomRight, topRight, Vec(-1.0, 0.0)),
        Wall(topRight, topLeft, Vec(0.0, -1.0)),
        Wall(topLeft, bottomLeft, Vec(1.0, 0.0)) ]
    }

    /** Strictly inside on both axes: a point on a wall is outside. */
    predicate Inside(point: Vec)
    {
      var h := HalfWall();
      (point.x < h && point.x > -h) && (point.y < h && point.y > -h)
    }

    /**
     * `distance_to_boundary`: the distances to the walls the ray meets,
     * collected in wall order, and their minimum.
     */
    method DistanceToBoundary(point: Vec, direction: Vec, sqrt: real -> real)
      returns (r: Result<real, EnvironmentError>)
      requires IsSqrt(sqrt)
      ensures r == BoundaryDistance(this, point, direction, sqrt)
    {
      var walls := Walls();
      var distances: seq<real> := [];
      for i := 0 to |walls|
        invariant distances == HitDistances(walls[..i], point, direction, sqrt)
      {
        var intersection := RayIntersection(walls[i], point, direction, sqrt);
        if |intersection| != 0 {
          distances := distances + [Norm(Sub(intersection[0], point), sqrt)];
        }
        assert walls[..i + 1][..i] == walls[..i];
      }
      assert walls[..|walls|] == walls;
      if |distances| == 0 {
        return Failure(NoWallAhead);
      }
      r := Success(Minimum(distances));
    }
  }

  /** The distances to the walls met, in wall order. */
  function HitDistances(walls: seq<Wall>, point: Vec, direction: Vec, sqrt: real -> real): (ds: seq<real>)
    requires IsSqrt(sqrt)
    ensures |ds| <= |walls|
  {
    if walls == [] then []
    else
      var prior := HitDistances(walls[..|walls| - 1], point, direction, sqrt);
      var w := walls[|walls| - 1];
      if Hits(w, point, direction, sqrt) then prior + [HitDistance(w, point, direction, sqrt)] else prior
  }

  /** Python's `min` of a non-empty list. */
  function Minimum(s: seq<real>): (m: real)
    requires s != []
    ensures m in s
    ensures forall i :: 0 <= i < |s| ==> m <= s[i]
  {
    if |s| == 1 then s[0]
    else
      var init := s[..|s| - 1];
      var rest := Minimum(init);
      assert forall i :: 0 <= i < |init| ==> init[i] == s[i];
      if s[|s| - 1] < rest then s[|s| - 1] else rest
  }

  /** The result of `distance_to_boundary`, with `min([])` as the failure. */
  function BoundaryDistance(box: BoxEnvironment, point: Vec, direction: Vec, sqrt: real -> real)
    : Result<real, EnvironmentError>
    requires IsSqrt(sqrt)
  {
    var distances := HitDistances(box.Walls(), point, direction, sqrt);
    if distances == [] then Failure(NoWallAhead) else Success(Minimum(distances))
  }

  /**
   * What a simulation asks of an environment (the `Environment` base
   * class): whether a point is inside, and the distance from a point to
   * the boundary along a heading, or the failure to find one.
   */
  datatype Arena = Arena(inside: Vec -> bool, distance: (Vec, Vec) -> Result<real, EnvironmentError>)

  /** The box seen through that interface. */
  function BoxArena(box: BoxEnvironment, sqrt: real -> real): (a: Arena)
    requires IsSqrt(sqrt)
    ensures forall p :: a.inside(p) == box.Inside(p)
    ensures forall p, d :: a.distance(p, d) == BoundaryDistance(box, p, d, sqrt)
  {
    Arena(p => box.Inside(p), (p, d) => BoundaryDistance(box, p, d, sqrt))
  }

  /** A zero direction meets none of the walls. */
  lemma {:induction false} ZeroDirectionHitsNothing(walls: seq<Wall>, point: Vec, sqrt: real -> real)
    requires IsSqrt(sqrt)
    ensures HitDistances(walls, point, Zero, sqrt) == []
  {
    if walls != [] {
      ZeroDirectionHitsNothing(walls[..|walls| - 1], point, sqrt);
    }
  }

  /** So `distance_to_boundary` raises for a zero direction wherever the point is. */
  lemma ZeroDirectionSeesNoWall(box: BoxEnvironment, point: Vec, sqrt: real -> real)
    requires IsSqrt(sqrt)
    ensures BoundaryDistance(box, point, Zero, sqrt) == Failure(NoWallAhead)
  {
    ZeroDirectionHitsNothing(box.Walls(), point, sqrt);
  }

  /** `HitDistances` holds exactly one entry per wall met, and no other value. */
  lemma HitDistancesMembers(walls: seq<Wall>, point: Vec, direction: Vec, sqrt: real -> real)
    requires IsSqrt(sqrt)
    ensures forall i :: 0 <= i < |walls| && Hits(walls[i], point, direction, sqrt) ==>
              HitDistance(walls[i], point, direction, sqrt) in HitDistances(walls, point, direction, sqrt)
    ensures forall x :: x in HitDistances(walls, point, direction, sqrt) ==>
              exists i :: 0 <= i < |walls| && Hits(walls[i], point, direction, sqrt)
                          && x == HitDistance(walls[i], point, direction, sqrt)
    ensures HitDistances(walls, point, direction, sqrt) == []
            <==> forall i :: 0 <= i < |walls| ==> !Hits(walls[i], point, direction, sqrt)
  {
    HitDistancesComplete(walls, point, direction, sqrt);
    HitDistancesSound(walls, point, direction, sqrt);
  }

  /** Every wall met contributes its distance. */
  lemma {:induction false} HitDistancesComplete(walls: seq<Wall>, point: Vec, direction: Vec, sqrt: real -> real)
    requires IsSqrt(sqrt)
    ensures forall i :: 0 <= i < |walls| && Hits(walls[i], point, direction, sqrt) ==>
              HitDistance(walls[i], point, direction, sqrt) in HitDistances(walls, point, direction, sqrt)
  {
    if walls != [] {
      var n := |walls| - 1;
      var prefix := walls[..n];
      HitDistancesComplete(prefix, point, direction, sqrt);
      forall i | 0 <= i < |walls| && Hits(walls[i], point, direction, sqrt)
        ensures HitDistance(walls[i], point, direction, sqrt) in HitDistances(walls, point, direction, sqrt)
      {
        if i < n {
          assert prefix[i] == walls[i];
        }
      }
    }
  }

  /** Every collected distance is that of a wall met. */
  lemma {:induction false} HitDistancesSound(walls: seq<Wall>, point: Vec, direction: Vec, sqrt: real -> real)
    requires IsSqrt(sqrt)
    ensures forall x :: x in HitDistances(walls, point, direction, sqrt) ==>
              exists i :: 0 <= i < |walls| && Hits(walls[i], point, direction, sqrt)
                          && x == HitDistance(walls[i], point, direction, sqrt)
  {
    if walls != [] {
      var n := |walls| - 1;
      var prefix := walls[..n];
      HitDistancesSound(prefix, point, direction, sqrt);
      forall x | x in HitDistances(walls, point, direction, sqrt)
        ensures exists i :: 0 <= i < |walls| && Hits(walls[i], point, direction, sqrt)
                            && x == HitDistance(walls[i], point, direction, sqrt)
      {
        if x in HitDistances(prefix, point, direction, sqrt) {
          var i :| 0 <= i < |prefix| && Hits(prefix[i], point, direction, sqrt)
                   && x == HitDistance(prefix[i], point, direction, sqrt);
          assert prefix[i] == walls[i];
        } else {
          assert Hits(walls[n], point, direction, sqrt) && x == HitDistance(walls[n], point, direction, sqrt);
        }
      }
    }
  }

  /** When exactly one wall is met, its distance is the only one collected. */
  lemma {:induction false} HitDistancesOfOneHit(walls: seq<Wall>, point: Vec, direction: Vec, sqrt: real -> real, k: nat)
    requires IsSqrt(sqrt) && k < |walls|
    requires forall i :: 0 <= i < |walls| ==> (Hits(walls[i], point, direction, sqrt) <==> i == k)
    ensures HitDistances(walls, point, direction, sqrt) == [HitDistance(walls[k], point, direction, sqrt)]
  {
    var n := |walls| - 1;
    var prefix := walls[..n];
    if k == n {
      HitDistancesMembers(prefix, point, direction, sqrt);
      assert forall i :: 0 <= i < |prefix| ==> prefix[i] == walls[i];

    } else {
      assert forall i :: 0 <= i < |prefix| ==> prefix[i] == walls[i];
      HitDistancesOfOneHit(prefix, point, direction, sqrt, k);
    }
  }

  /**
   * `distance_to_boundary` reports the nearest wall the ray meets, and fails
   * exactly when it meets none.
   */
  lemma BoundaryDistanceIsNearestHit(box: BoxEnvironment, point: Vec, direction: Vec, sqrt: real -> real)
    requires IsSqrt(sqrt)
    ensures var walls := box.Walls();
            BoundaryDistance(box, point, direction, sqrt).Failure?
            <==> forall i :: 0 <= i < |walls| ==> !Hits(walls[i], point, direction, sqrt)
    ensures var walls := box.Walls();
            var r := BoundaryDistance(box, point, direction, sqrt);
            r.Success? ==>
              (exists i :: 0 <= i < |walls| && Hits(walls[i], point, direction, sqrt)
                           && r.value == HitDistance(walls[i], point, direction, sqrt))
              && (forall i :: 0 <= i < |walls| && Hits(walls[i], point, direction, sqrt)
                           ==> r.value <= HitDistance(walls[i], point, direction, sqrt))
  {
    HitDistancesMembers(box.Walls(), point, direction, sqrt);
  }

  /**
   * The walls form a closed counter-clockwise loop through the four corners,
   * and each normal is a unit vector perpendicular to its wall pointing
   * towards the centre.
   */
  lemma WallLayout(box: BoxEnvironment)
    requires 0.0 < box.wallLength
    ensures var walls := box.Walls();
            forall i :: 0 <= i < 4 ==>
              walls[i].end == walls[(i + 1) % 4].start
              && LengthSq(walls[i].insideNormal) == 1.0
              && Dot(walls[i].insideNormal, Sub(walls[i].end, walls[i].start)) == 0.0
              && 0.0 < Dot(walls[i].insideNormal, Sub(Zero, walls[i].start))
  {
    var walls := box.Walls();
    forall i | 0 <= i < 4
      ensures walls[i].end == walls[(i + 1) % 4].start
      ensures LengthSq(walls[i].insideNormal) == 1.0
      ensures Dot(walls[i].insideNormal, Sub(walls[i].end, walls[i].start)) == 0.0
      ensures 0.0 < Dot(walls[i].insideNormal, Sub(Zero, walls[i].start))
    {
      if i == 0 {
      } else if i == 1 {
      } else if i == 2 {
      } else {
        assert (i + 1) % 4 == 0;
      }
    }
  }

  /** No point of a wall is inside the box. */
  lemma WallPointsNotInside(box: BoxEnvironment, k: nat, s: real)
    requires k < 4 && 0.0 <= s <= 1.0
    ensures var w := box.Walls()[k];
            !box.Inside(Add(w.start, Scale(s, Sub(w.end, w.start))))
  {
  }

  /** From inside the box, every wall met is strictly ahead. */
  lemma HitsFromInsideAreAhead(box: BoxEnvironment, point: Vec, direction: Vec, sqrt: real -> real, k: nat)
    requires IsSqrt(sqrt) && box.Inside(point) && k < 4
    requires Hits(box.Walls()[k], point, direction, sqrt)
    ensures 0.0 < HitDistance(box.Walls()[k], point, direction, sqrt)
  {
    var w := box.Walls()[k];
    HitLiesOnWall(w, point, direction, sqrt);
    HitDistanceIsRayParameter(w, point, direction, sqrt);
    var d := Normalize(direction, sqrt);
    WallPointsNotInside(box, k, WallParameter(w, point, d));
  }

  lemma Fraction(num: real, den: real)
    requires 0.0 < den && 0.0 <= num <= den
    ensures 0.0 <= num / den <= 1.0 && (num / den) * den == num
  {
  }

  lemma QuotientNonNegative(num: real, den: real)
    requires (0.0 <= num && 0.0 < den) || (num <= 0.0 && den < 0.0)
    ensures 0.0 <= num / den && (num / den) * den == num
  {
  }

  /**
   * The ray from `p` along `d` crosses wall `w` after `t`, at fraction `s` of
   * the wall: the ray is not parallel to the wall and both parameters are in range.
   */
  predicate Crosses(w: Wall, p: Vec, d: Vec, t: real, s: real)
  {
    Denominator(w, d) != 0.0 && 0.0 <= t && 0.0 <= s <= 1.0
    && Add(p, Scale(t, d)) == Add(w.start, Scale(s, Sub(w.end, w.start)))
  }

  /** Crossing the right wall (index 1) where the line `x = h` is met inside the wall's span. */
  lemma RightWallCrossing(box: BoxEnvironment, p: Vec, d: Vec, t: real) returns (s: real)
    requires box.Inside(p)
    requires 0.0 < d.x && 0.0 <= t && t * d.x == box.HalfWall() - p.x
             && -box.HalfWall() <= p.y + t * d.y <= box.HalfWall()
    ensures Crosses(box.Walls()[1], p, d, t, s)
  {
    var h, w := box.HalfWall(), box.Walls()[1];
    var y := p.y + t * d.y;
    Fraction(y + h, 2.0 * h);
    s := (y + h) / (2.0 * h);
    assert Denominator(w, d) == 2.0 * h * d.x;
    MulPositive(2.0 * h, d.x);
    assert Add(p, Scale(t, d)) == Vec(h, y);
    assert Add(w.start, Scale(s, Sub(w.end, w.start))) == Vec(h, -h + s * (2.0 * h));
  }

  /** Crossing the top wall (index 2). */
  lemma TopWallCrossing(box: BoxEnvironment, p: Vec, d: Vec, t: real) returns (s: real)
    requires box.Inside(p)
    requires 0.0 < d.y && 0.0 <= t && t * d.y == box.HalfWall() - p.y
             && -box.HalfWall() <= p.x + t * d.x <= box.HalfWall()
    ensures Crosses(box.Walls()[2], p, d, t, s)
  {
    var h, w := box.HalfWall(), box.Walls()[2];
    var x := p.x + t * d.x;
    Fraction(h - x, 2.0 * h);
    s := (h - x) / (2.0 * h);
    assert Denominator(w, d) == 2.0 * h * d.y;
    MulPositive(2.0 * h, d.y);
    assert Add(p, Scale(t, d)) == Vec(x, h);
    assert Add(w.start, Scale(s, Sub(w.end, w.start))) == Vec(h - s * (2.0 * h), h);
  }

  /** Crossing the left wall (index 3). */
  lemma LeftWallCrossing(box: BoxEnvironment, p: Vec, d: Vec, t: real) returns (s: real)
    requires box.Inside(p)
    requires d.x < 0.0 && 0.0 <= t && t * d.x == -box.HalfWall() - p.x
             && -box.HalfWall() <= p.y + t * d.y <= box.HalfWall()
    ensures Crosses(box.Walls()[3], p, d, t, s)
  {
    var h, w := box.HalfWall(), box.Walls()[3];
    var y := p.y + t * d.y;
    Fraction(h - y, 2.0 * h);
    s := (h - y) / (2.0 * h);
    assert Denominator(w, d) == -2.0 * h * d.x;
    MulPositive(2.0 * h, -d.x);
    assert Add(p, Scale(t, d)) == Vec(-h, y);
    assert Add(w.start, Scale(s, Sub(w.end, w.start))) == Vec(-h, h - s * (2.0 * h));
  }

  /** Crossing the bottom wall (index 0). */
  lemma BottomWallCrossing(box: BoxEnvironment, p: Vec, d: Vec, t: real) returns (s: real)
    requires box.Inside(p)
    requires d.y < 0.0 && 0.0 <= t && t * d.y == -box.HalfWall() - p.y
             && -box.HalfWall() <= p.x + t * d.x <= box.HalfWall()
    ensures Crosses(box.Walls()[0], p, d, t, s)
  {
    var h, w := box.HalfWall(), box.Walls()[0];
    var x := p.x + t * d.x;
    Fraction(x + h, 2.0 * h);
    s := (x + h) / (2.0 * h);
    assert Denominator(w, d) == -2.0 * h * d.y;
    MulPositive(2.0 * h, -d.y);
    assert Add(p, Scale(t, d)) == Vec(x, -h);
    assert Add(w.start, Scale(s, Sub(w.end, w.start))) == Vec(-h + s * (2.0 * h), -h);
  }

  /**
   * Moving at rate `c` from `start`, the coordinate reaches `bound` at time
   * `u`; at any earlier time `t` it lies between the two.
   */
  lemma EarlierStaysBetween(t: real, u: real, c: real, start: real, bound: real)
    requires 0.0 <= t <= u && c != 0.0 && u * c == bound - start
    ensures 0.0 < c ==> start <= start + t * c <= bound
    ensures c < 0.0 ==> bound <= start + t * c <= start
  {
    if 0.0 < c {
      assert t * c <= u * c;
    } else {
      assert u * c <= t * c;
    }
  }

  /**
   * Which wall a ray from `(px, py)` along `(a, b)` leaves the box
   * `[-h, h] x [-h, h]` through, and after how long: wall indices as in
   * `Walls()`.
   */
  predicate ExitsThrough(k: nat, t: real, h: real, px: real, py: real, a: real, b: real)
  {
    0.0 <= t &&
    ((k == 0 && b < 0.0 && t * b == -h - py && -h <= px + t * a <= h)
     || (k == 1 && 0.0 < a && t * a == h - px && -h <= py + t * b <= h)
     || (k == 2 && 0.0 < b && t * b == h - py && -h <= px + t * a <= h)
     || (k == 3 && a < 0.0 && t * a == -h - px && -h <= py + t * b <= h))
  }

  /** Leaving sideways (`a != 0`): through the side wall, unless the top or bottom comes first. */
  lemma SidewaysExit(h: real, px: real, py: real, a: real, b: real) returns (k: nat, t: real)
    requires -h < px < h && -h < py < h && a != 0.0
    ensures ExitsThrough(k, t, h, px, py, a, b)
  {
    var side := if 0.0 < a then h else -h;
    var ts := (side - px) / a;
    QuotientNonNegative(side - px, a);
    if b == 0.0 {
      k, t := SideExit(h, px, py, a, b, side, ts);
      return;
    }
    var bound := if 0.0 < b then h else -h;
    var tv := (bound - py) / b;
    QuotientNonNegative(bound - py, b);
    if ts <= tv {
      EarlierStaysBetween(ts, tv, b, py, bound);
      k, t := SideExit(h, px, py, a, b, side, ts);
    } else {
      EarlierStaysBetween(tv, ts, a, px, side);
      k, t := EndExit(h, px, py, a, b, bound, tv);
    }
  }

  /** Reaching the side `x = side` after `ts`, still within the box's height, is leaving through the side wall. */
  lemma SideExit(h: real, px: real, py: real, a: real, b: real, side: real, ts: real) returns (k: nat, t: real)
    requires a != 0.0 && side == (if 0.0 < a then h else -h)
    requires 0.0 <= ts && ts * a == side - px && -h <= py + ts * b <= h
    ensures k == (if 0.0 < a then 1 else 3) && t == ts
    ensures ExitsThrough(k, t, h, px, py, a, b)
  {
    k, t := if 0.0 < a then 1 else 3, ts;
  }

  /** Reaching the top or bottom `y = bound` after `tv`, still within the box's width, is leaving through it. */
  lemma EndExit(h: real, px: real, py: real, a: real, b: real, bound: real, tv: real) returns (k: nat, t: real)
    requires b != 0.0 && bound == (if 0.0 < b then h else -h)
    requires 0.0 <= tv && tv * b == bound - py && -h <= px + tv * a <= h
    ensures k == (if 0.0 < b then 2 else 0) && t == tv
    ensures ExitsThrough(k, t, h, px, py, a, b)
  {
    k, t := if 0.0 < b then 2 else 0, tv;
  }

  /** Leaving vertically (`a == 0`): through the top or the bottom. */
  lemma VerticalExit(h: real, px: real, py: real, a: real, b: real) returns (k: nat, t: real)
    requires -h < px < h && -h < py < h && a == 0.0 && b != 0.0
    ensures ExitsThrough(k, t, h, px, py, a, b)
  {
    if 0.0 < b {
      QuotientNonNegative(h - py, b);
      return 2, (h - py) / b;
    } else {
      QuotientNonNegative(-h - py, b);
      return 0, (-h - py) / b;
    }
  }

  /** The exit found on the plain coordinates is reported by the wall test. */
  lemma ExitIsReported(box: BoxEnvironment, p: Vec, direction: Vec, sqrt: real -> real, k: nat, t: real)
    requires IsSqrt(sqrt) && direction != Zero && box.Inside(p)
    requires var d := Normalize(direction, sqrt);
             ExitsThrough(k, t, box.HalfWall(), p.x, p.y, d.x, d.y)
    ensures k < 4 && Hits(box.Walls()[k], p, direction, sqrt)
  {
    var s := ExitCrosses(box, p, Normalize(direction, sqrt), k, t);
    CrossingIsReported(box.Walls()[k], p, direction, sqrt, t, s);
  }

  /** The exit found on the plain coordinates crosses that wall. */
  lemma ExitCrosses(box: BoxEnvironment, p: Vec, d: Vec, k: nat, t: real) returns (s: real)
    requires box.Inside(p) && ExitsThrough(k, t, box.HalfWall(), p.x, p.y, d.x, d.y)
    ensures k < 4 && Crosses(box.Walls()[k], p, d, t, s)
  {
    if k == 0 {
      s := BottomWallCrossing(box, p, d, t);
    } else if k == 1 {
      s := RightWallCrossing(box, p, d, t);
    } else if k == 2 {
      s := TopWallCrossing(box, p, d, t);
    } else {
      s := LeftWallCrossing(box, p, d, t);
    }
  }

  /** Some wall is met from inside, along any non-zero direction. */
  lemma WallAhead(box: BoxEnvironment, p: Vec, direction: Vec, sqrt: real -> real) returns (k: nat)
    requires IsSqrt(sqrt) && direction != Zero && box.Inside(p)
    ensures k < 4 && Hits(box.Walls()[k], p, direction, sqrt)
  {
    var h, d := box.HalfWall(), Normalize(direction, sqrt);
    var t: real;
    if d.x != 0.0 {
      k, t := SidewaysExit(h, p.x, p.y, d.x, d.y);
    } else {
      assert d.y != 0.0 by {
        NormalizeFacts(direction, sqrt);
      }
      k, t := VerticalExit(h, p.x, p.y, d.x, d.y);
    }
    ExitIsReported(box, p, direction, sqrt, k, t);
  }

  /**
   * From any point strictly inside the box, along any non-zero direction,
   * `distance_to_boundary` succeeds with a positive distance.
   */
  lemma InsideHasBoundaryDistance(box: BoxEnvironment, p: Vec, direction: Vec, sqrt: real -> real)
    requires IsSqrt(sqrt) && direction != Zero && box.Inside(p)
    ensures BoundaryDistance(box, p, direction, sqrt).Success?
    ensures 0.0 < BoundaryDistance(box, p, direction, sqrt).value
  {
    var k := WallAhead(box, p, direction, sqrt);
    BoundaryDistanceIsNearestHit(box, p, direction, sqrt);
    var walls := box.Walls();
    var r := BoundaryDistance(box, p, direction, sqrt);
    var i :| 0 <= i < |walls| && Hits(walls[i], p, direction, sqrt)
             && r.value == HitDistance(walls[i], p, direction, sqrt);
    HitsFromInsideAreAhead(box, p, direction, sqrt, i);
  }

  /** The wall an axis direction faces from the centre: indices as in `Walls()`. */
  function FacingWall(direction: Vec): nat
  {
    if direction == Vec(0.0, -1.0) then 0
    else if direction == Vec(1.0, 0.0) then 1
    else if direction == Vec(0.0, 1.0) then 2
    else 3
  }

  predicate IsAxisDirection(direction: Vec)
  {
    direction == Vec(1.0, 0.0) || direction == Vec(0.0, 1.0)
    || direction == Vec(-1.0, 0.0) || direction == Vec(0.0, -1.0)
  }

  /**
   * From the centre along an axis, the only wall whose line is met ahead, within
   * the wall's span, is the facing one, at half the side.
   */
  lemma AxisMeeting(box: BoxEnvironment, direction: Vec, i: nat, t: real, s: real)
    requires 0.0 < box.wallLength && IsAxisDirection(direction) && i < 4
    requires Denominator(box.Walls()[i], direction) != 0.0 && 0.0 <= t && 0.0 <= s <= 1.0
    requires var w := box.Walls()[i];
             Add(Zero, Scale(t, direction)) == Add(w.start, Scale(s, Sub(w.end, w.start)))
    ensures i == FacingWall(direction) && t == box.HalfWall()
  {
    var h := box.HalfWall();
    var w := box.Walls()[i];
    var b := Sub(w.end, w.start);
    if i == 0 {
      assert w.start.y == -h && b.y == 0.0;
      MeetingOnHorizontal(t, direction, w.start, s, b);
      AxisCoordinate(direction, t, -h, 0);
    } else if i == 1 {
      assert w.start.x == h && b.x == 0.0;
      MeetingOnVertical(t, direction, w.start, s, b);
      AxisCoordinate(direction, t, h, 1);
    } else if i == 2 {
      assert w.start.y == h && b.y == 0.0;
      MeetingOnHorizontal(t, direction, w.start, s, b);
      AxisCoordinate(direction, t, h, 2);
    } else {
      assert w.start.x == -h && b.x == 0.0;
      MeetingOnVertical(t, direction, w.start, s, b);
      AxisCoordinate(direction, t, -h, 3);
    }
  }

  /** The ray from the centre meets the horizontal line through `a` at `a`'s height. */
  lemma MeetingOnHorizontal(t: real, d: Vec, a: Vec, s: real, b: Vec)
    requires Add(Zero, Scale(t, d)) == Add(a, Scale(s, b)) && b.y == 0.0
    ensures t * d.y == a.y
  {
    assert Add(Zero, Scale(t, d)).y == Add(a, Scale(s, b)).y;
  }

  /** The ray from the centre meets the vertical line through `a` at `a`'s abscissa. */
  lemma MeetingOnVertical(t: real, d: Vec, a: Vec, s: real, b: Vec)
    requires Add(Zero, Scale(t, d)) == Add(a, Scale(s, b)) && b.x == 0.0
    ensures t * d.x == a.x
  {
    assert Add(Zero, Scale(t, d)).x == Add(a, Scale(s, b)).x;
  }

  /**
   * Along an axis direction from the centre, reaching coordinate `c` (nonzero)
   * of the line of wall `i` ahead (the y coordinate for walls 0 and 2, x for 1
   * and 3) means facing that wall, at distance `|c|`.
   */
  lemma AxisCoordinate(direction: Vec, t: real, c: real, i: nat)
    requires IsAxisDirection(direction) && 0.0 <= t && i < 4
    requires if i == 0 || i == 2 then t * direction.y == c else t * direction.x == c
    requires if i == 0 || i == 3 then c < 0.0 else 0.0 < c
    ensures i == FacingWall(direction) && t == (if c < 0.0 then -c else c)
  {
  }

  /** The facing wall is left through after half the side. */
  lemma FacingExit(box: BoxEnvironment, direction: Vec)
    requires 0.0 < box.wallLength && IsAxisDirection(direction)
    ensures ExitsThrough(FacingWall(direction), box.HalfWall(), box.HalfWall(), 0.0, 0.0, direction.x, direction.y)
  {
  }

  /** An axis direction is its own normalisation, so the exit is along it. */
  lemma FacingExitAhead(box: BoxEnvironment, direction: Vec, sqrt: real -> real)
    requires IsSqrt(sqrt) && 0.0 < box.wallLength && IsAxisDirection(direction)
    ensures direction != Zero && box.Inside(Zero)
    ensures var d := Normalize(direction, sqrt);
            ExitsThrough(FacingWall(direction), box.HalfWall(), box.HalfWall(), Zero.x, Zero.y, d.x, d.y)
  {
    assert direction != Zero && box.Inside(Zero);
    NormalizeUnit(direction, sqrt);
    FacingExit(box, direction);
  }

  /** From the centre along an axis, the facing wall reports a hit. */
  lemma CentreAxisFacingHit(box: BoxEnvironment, direction: Vec, sqrt: real -> real)
    requires IsSqrt(sqrt) && 0.0 < box.wallLength && IsAxisDirection(direction)
    ensures FacingWall(direction) < 4 && Hits(box.Walls()[FacingWall(direction)], Zero, direction, sqrt)
  {
    FacingExitAhead(box, direction, sqrt);
    ExitIsReported(box, Zero, direction, sqrt, FacingWall(direction), box.HalfWall());
  }

  /** From the centre along an axis, any wall reporting a hit is the facing one, at half the side. */
  lemma CentreAxisOnlyFacing(box: BoxEnvironment, direction: Vec, sqrt: real -> real, i: nat)
    requires IsSqrt(sqrt) && 0.0 < box.wallLength && IsAxisDirection(direction) && i < 4
    requires Hits(box.Walls()[i], Zero, direction, sqrt)
    ensures i == FacingWall(direction)
    ensures HitDistance(box.Walls()[i], Zero, direction, sqrt) == box.HalfWall()
  {
    AxisUnit(direction);
    var w := box.Walls()[i];
    UnitHit(w, direction, sqrt);
    AxisMeeting(box, direction, i, RayParameter(w, Zero, direction), WallParameter(w, Zero, direction));
  }

  /** Along a unit direction from the centre, a hit is met at the ray parameter along the direction itself. */
  lemma UnitHit(w: Wall, direction: Vec, sqrt: real -> real)
    requires IsSqrt(sqrt) && LengthSq(direction) == 1.0 && Hits(w, Zero, direction, sqrt)
    ensures Denominator(w, direction) != 0.0
    ensures 0.0 <= RayParameter(w, Zero, direction) && 0.0 <= WallParameter(w, Zero, direction) <= 1.0
    ensures Add(Zero, Scale(RayParameter(w, Zero, direction), direction))
         == Add(w.start, Scale(WallParameter(w, Zero, direction), Sub(w.end, w.start)))
    ensures HitDistance(w, Zero, direction, sqrt) == RayParameter(w, Zero, direction)
  {
    NormalizeUnit(direction, sqrt);
    HitLiesOnWall(w, Zero, direction, sqrt);
    HitDistanceIsRayParameter(w, Zero, direction, sqrt);
  }

  /** The axis directions are unit vectors. */
  lemma AxisUnit(direction: Vec)
    requires IsAxisDirection(direction)
    ensures LengthSq(direction) == 1.0
  {
  }

  /**
   * From the centre of a box along an axis direction, exactly one wall is met
   * and `distance_to_boundary` is half the side.
   */
  lemma CentreAxisDistance(box: BoxEnvironment, direction: Vec, sqrt: real -> real)
    requires IsSqrt(sqrt) && 0.0 < box.wallLength && IsAxisDirection(direction)
    ensures forall i :: 0 <= i < 4 ==> (Hits(box.Walls()[i], Zero, direction, sqrt) <==> i == FacingWall(direction))
    ensures HitDistances(box.Walls(), Zero, direction, sqrt) == [box.HalfWall()]
    ensures BoundaryDistance(box, Zero, direction, sqrt) == Success(box.HalfWall())
  {
    var walls := box.Walls();
    CentreAxisFacingHit(box, direction, sqrt);
    forall i | 0 <= i < 4 && Hits(walls[i], Zero, direction, sqrt)
      ensures i == FacingWall(direction)
    {
      CentreAxisOnlyFacing(box, direction, sqrt, i);
    }
    CentreAxisOnlyFacing(box, direction, sqrt, FacingWall(direction));
    HitDistancesOfOneHit(walls, Zero, direction, sqrt, FacingWall(direction));
  }
}
