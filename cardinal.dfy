/** SCardinalUtility: classifies a 2D input into the nearest of four directions. */
module CardinalUtility {
  import opened Common

  /** The component of `v` along the unit vector of `c` (their dot product). */
  function Alignment(v: Vec2, c: Cardinal): real {
    match c
    case East => v.x
    case West => -v.x
    case North => v.y
    case South => -v.y
  }

  /** GetNearestCardinal. The source takes angle = atan2(y, x) in degrees and
      answers East when |angle| < 45, West when |angle| > 135, otherwise North
      when angle >= 0 and South when it is negative. Over reals, |angle| < 45
      is x > |y| and |angle| > 135 is -x > |y|; in the remaining cone the sign
      of the angle is the sign of y. The zero vector has atan2(0, 0) = 0, so
      |angle| < 45 and it is East.
      The contract states what the name promises: the result is a direction
      the vector is most aligned with; away from zero, a tie with East or
      West goes to North or South (the comparisons are strict); South only
      when it is strictly better aligned than North; and the zero vector,
      aligned with every direction alike, is East. */
  function GetNearestCardinal(v: Vec2): (c: Cardinal)
    ensures forall d :: Alignment(v, d) <= Alignment(v, c)
    ensures v == Zero2 ==> c == East
    ensures v != Zero2 && (c == East || c == West) ==>
              Alignment(v, c) > Alignment(v, North) && Alignment(v, c) > Alignment(v, South)
    ensures c == South ==> Alignment(v, South) > Alignment(v, North)
  {
    if v == Zero2 || v.x > Abs(v.y) then East
    else if -v.x > Abs(v.y) then West
    else if v.y >= 0.0 then North
    else South
  }

  /** The three properties of GetNearestCardinal's contract determine its result:
      any direction that has them is the one it returns. */
  lemma NearestCardinalIsUnique(v: Vec2, c: Cardinal)
    requires forall d :: Alignment(v, d) <= Alignment(v, c)
    requires v == Zero2 ==> c == East
    requires v != Zero2 && (c == East || c == West) ==>
               Alignment(v, c) > Alignment(v, North) && Alignment(v, c) > Alignment(v, South)
    requires c == South ==> Alignment(v, South) > Alignment(v, North)
    ensures c == GetNearestCardinal(v)
  {
    assert Alignment(v, East) <= Alignment(v, c) && Alignment(v, West) <= Alignment(v, c);
    assert Alignment(v, North) <= Alignment(v, c) && Alignment(v, South) <= Alignment(v, c);
  }

  /** East exactly when x > |y| or the vector is zero, West exactly when
      -x > |y|, and otherwise North or South by the sign of y. */
  lemma EastWestCones(v: Vec2)
    ensures GetNearestCardinal(v) == East <==> v.x > Abs(v.y) || v == Zero2
    ensures GetNearestCardinal(v) == West <==> -v.x > Abs(v.y)
    ensures GetNearestCardinal(v) == North <==> Abs(v.x) <= Abs(v.y) && v.y >= 0.0 && v != Zero2
    ensures GetNearestCardinal(v) == South <==> Abs(v.x) <= Abs(v.y) && v.y < 0.0
  {
  }

  /** The four axes, and the diagonals at exactly 45 and 135 degrees, which
      the strict comparisons send to North or South. */
  lemma AxesAndDiagonals(a: real)
    requires a > 0.0
    ensures GetNearestCardinal(Zero2) == East
    ensures GetNearestCardinal(Vec2(1.0, 0.0)) == East
    ensures GetNearestCardinal(Vec2(-1.0, 0.0)) == West
    ensures GetNearestCardinal(Vec2(0.0, 1.0)) == North
    ensures GetNearestCardinal(Vec2(0.0, -1.0)) == South
    ensures GetNearestCardinal(Vec2(0.1, 0.99)) == North
    ensures GetNearestCardinal(Vec2(a, a)) == North && GetNearestCardinal(Vec2(-a, a)) == North
    ensures GetNearestCardinal(Vec2(a, -a)) == South && GetNearestCardinal(Vec2(-a, -a)) == South
  {
  }
}
