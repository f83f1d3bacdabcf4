/** The pure helpers of the game: homogeneous vectors, the collision and
    planar-distance tests, the ship's roll correction and the viewport
    arithmetic of the reshape callback. */
module GameMath {

  datatype Vec4 = Vec4(x: real, y: real, z: real, w: real)

  const Origin: Vec4 := Vec4(0.0, 0.0, 0.0, 0.0)

  function Plus(a: Vec4, b: Vec4): Vec4 {
    Vec4(a.x + b.x, a.y + b.y, a.z + b.z, a.w + b.w)
  }

  function Minus(a: Vec4, b: Vec4): Vec4 {
    Vec4(a.x - b.x, a.y - b.y, a.z - b.z, a.w - b.w)
  }

  function Times(k: real, a: Vec4): Vec4 {
    Vec4(k * a.x, k * a.y, k * a.z, k * a.w)
  }

  /** The squared length of the x-z part of v, the square of vec_length. */
  function PlanarLengthSq(v: Vec4): real {
    v.x * v.x + v.z * v.z
  }

  /** vec_length(v) < r, i.e. sqrt(v.x^2 + v.z^2) < r. A square root is never
      negative, so the test fails for r <= 0 and compares squares otherwise. */
  predicate PlanarWithin(v: Vec4, r: real) {
    0.0 < r && PlanarLengthSq(v) < r * r
  }

  /** The squared 3-D distance between a and b (w is ignored). */
  function DistanceSq(a: Vec4, b: Vec4): real {
    (a.x - b.x) * (a.x - b.x) + (a.y - b.y) * (a.y - b.y) + (a.z - b.z) * (a.z - b.z)
  }

  /** detect_collision(a, b, distance): the 3-D distance is below `distance`. */
  predicate Collides(a: Vec4, b: Vec4, distance: real) {
    0.0 < distance && DistanceSq(a, b) < distance * distance
  }

  lemma CollidesSymmetric(a: Vec4, b: Vec4, distance: real)
    ensures Collides(a, b, distance) <==> Collides(b, a, distance)
  {
    assert DistanceSq(a, b) == DistanceSq(b, a);
  }

  /** Two points whose heights differ by `gap` or more never collide within
      any distance up to `gap`. */
  lemma HeightGapPreventsCollision(a: Vec4, b: Vec4, distance: real, gap: real)
    requires 0.0 < distance <= gap
    requires a.y - b.y >= gap || b.y - a.y >= gap
    ensures !Collides(a, b, distance)
  {
    var dy := a.y - b.y;
    assert (a.x - b.x) * (a.x - b.x) >= 0.0 && (a.z - b.z) * (a.z - b.z) >= 0.0;
    assert dy * dy >= gap * gap by {
      if dy >= gap {
        MulMonotoneReal(dy, gap);
      } else {
        MulMonotoneReal(-dy, gap);
      }
    }
    MulMonotoneReal(gap, distance);
  }

  lemma MulMonotoneReal(a: real, b: real)
    requires a >= b >= 0.0
    ensures a * a >= b * b
  {
    assert a * a - b * b == (a - b) * (a + b);
  }

  // ---------------------------------------------------------------------
  // coordinateShipTurn

  /** fmodf(a, 720) for whole numbers: the remainder takes the sign of the
      dividend, unlike Dafny's %. */
  function FullTurnRem(a: int): (r: int)
    ensures -720 < r < 720
    ensures a >= 0 ==> r >= 0
    ensures a <= 0 ==> r <= 0
    ensures (a - r) % 720 == 0
  {
    if a >= 0 then a % 720 else -((-a) % 720)
  }

  /** coordinateShipTurn over half-degrees: turn_rot only ever changes by 3
      and 0.5 degrees from 0, so h = 2 * turn_rot is a whole number. Reduce
      by a full turn (720 half-degrees), then nudge one half-degree. */
  function CoordinateShipTurn(h: int): int {
    Nudge(FullTurnRem(h))
  }

  /** The four range tests of coordinateShipTurn on the reduced angle. */
  function Nudge(t: int): int {
    if (0 < t < 180) || (360 < t < 540) then t - 1
    else if (540 < t < 720) || (180 < t < 360) then t + 1
    else if (-180 < t < 0) || (-540 < t < -360) then t + 1
    else if (t < -720 && t > -540) || (-360 < t < -180) then t - 1
    else t
  }

  function Abs(x: int): nat {
    if x < 0 then -x else x
  }

  function Min(a: int, b: int): int {
    if a < b then a else b
  }

  /** Distance, in half-degrees, from t to the nearest multiple of 180 degrees
      within (-360, 360) degrees. */
  function DistToLevel(t: int): nat {
    Min(Min(Min(Abs(t), Abs(t - 360)), Min(Abs(t + 360), Abs(t - 720))), Abs(t + 720))
  }

  /** The result depends only on the angle reduced by a full turn, and stays
      within one half-degree of it. */
  lemma CoordinateShipTurnReduces(h: int)
    ensures CoordinateShipTurn(h) == CoordinateShipTurn(FullTurnRem(h))
    ensures Abs(CoordinateShipTurn(h) - FullTurnRem(h)) <= 1
    ensures -720 <= CoordinateShipTurn(h) <= 720
  {
    var t := FullTurnRem(h);
    assert FullTurnRem(t) == t;
  }

  /** Multiples of 90 degrees are left as reduced. */
  lemma CoordinateShipTurnRightAngles(h: int)
    requires h % 180 == 0
    ensures CoordinateShipTurn(h) == FullTurnRem(h)
  {
    var t := FullTurnRem(h);
    assert t % 180 == 0 by {
      assert (h - t) % 720 == 0;
    }
    assert t in {-540, -360, -180, 0, 180, 360, 540};
  }

  /** Between -360 and -270 degrees nothing happens: the first disjunct of the
      last test asks for an angle below -360 and above -270 at once. */
  lemma CoordinateShipTurnStuckBand(h: int)
    requires -720 < FullTurnRem(h) < -540
    ensures CoordinateShipTurn(h) == FullTurnRem(h)
  {
  }

  /** Everywhere else the angle moves half a degree closer to the nearest
      multiple of 180 degrees. */
  lemma CoordinateShipTurnLevels(h: int)
    requires FullTurnRem(h) % 180 != 0
    requires !(-720 < FullTurnRem(h) < -540)
    ensures DistToLevel(CoordinateShipTurn(h)) + 1 == DistToLevel(FullTurnRem(h))
    ensures Abs(CoordinateShipTurn(h) - FullTurnRem(h)) == 1
  {
    var t := FullTurnRem(h);
    if t < -360 {
      NudgeLevelsFarBelow(t);
    } else if t < 0 {
      NudgeLevelsBelow(t);
    } else if t < 360 {
      NudgeLevelsAbove(t);
    } else {
      NudgeLevelsFarAbove(t);
    }
  }

  lemma NudgeLevelsFarBelow(t: int)
    requires -540 <= t < -360 && t % 180 != 0
    ensures DistToLevel(Nudge(t)) + 1 == DistToLevel(t) && Abs(Nudge(t) - t) == 1
  {
  }

  lemma NudgeLevelsBelow(t: int)
    requires -360 < t < 0 && t % 180 != 0
    ensures DistToLevel(Nudge(t)) + 1 == DistToLevel(t) && Abs(Nudge(t) - t) == 1
  {
  }

  lemma NudgeLevelsAbove(t: int)
    requires 0 < t < 360 && t % 180 != 0
    ensures DistToLevel(Nudge(t)) + 1 == DistToLevel(t) && Abs(Nudge(t) - t) == 1
  {
  }

  lemma NudgeLevelsFarAbove(t: int)
    requires 360 < t < 720 && t % 180 != 0
    ensures DistToLevel(Nudge(t)) + 1 == DistToLevel(t) && Abs(Nudge(t) - t) == 1
  {
  }

  // ---------------------------------------------------------------------
  // reshape

  datatype Viewport = Viewport(x: int, y: int, width: int, height: int)

  /** reshape(width, height): the largest square viewport, centred along the
      longer side. */
  function Reshape(width: int, height: int): (v: Viewport)
    ensures v.width == v.height == Min(width, height)
  {
    if width > height then Viewport((width - height) / 2, 0, Min(width, height), Min(width, height))
    else Viewport(0, (height - width) / 2, Min(width, height), Min(width, height))
  }

  /** The square fits the window and its two margins differ by at most one
      pixel. */
  lemma ReshapeCentred(width: int, height: int)
    requires width >= 0 && height >= 0
    ensures var v := Reshape(width, height);
            0 <= v.x && v.x + v.width <= width && 0 <= v.y && v.y + v.height <= height
            && 0 <= (width - v.x - v.width) - v.x <= 1
            && 0 <= (height - v.y - v.height) - v.y <= 1
  {
  }
}
