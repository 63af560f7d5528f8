/** Widget orientation (frut::widgets::Orientation): a value holding one
    angle in degrees, classified into four named directions. */
module Orientation {

  /** The enum `Orientation::orientations`. */
  datatype Named = BottomToTop | LeftToRight | TopToBottom | RightToLeft | Other

  /** The integer each enumerator stands for. */
  function NamedAngle(n: Named): int
  {
    match n
    case BottomToTop => 0
    case LeftToRight => 90
    case TopToBottom => 180
    case RightToLeft => 270
    case Other => -1
  }

  /** C++ `a % 360` on `int`: the quotient is truncated toward zero, so
      the remainder takes the sign of `a`. */
  function CppRem360(a: int): (r: int)
    ensures -360 < r < 360
    ensures a >= 0 ==> 0 <= r
    ensures a <= 0 ==> r <= 0
    ensures (a - r) % 360 == 0
  {
    if a >= 0 then a % 360 else -((-a) % 360)
  }

  /** An orientation is its angle and nothing else. */
  datatype Orientation = Orientation(angle: int)

  /** Angles that `setAngle` can store. */
  predicate Valid(o: Orientation)
  {
    -360 < o.angle < 360
  }

  /** `Orientation(int)` and `setAngle`: the angle is reduced with C++'s
      truncating remainder. */
  function FromAngle(newAngle: int): (o: Orientation)
    ensures Valid(o)
    ensures (o.angle - newAngle) % 360 == 0
    ensures newAngle >= 0 ==> o.angle >= 0
    ensures newAngle <= 0 ==> o.angle <= 0
    ensures -360 < newAngle < 360 ==> o.angle == newAngle
  {
    Orientation(CppRem360(newAngle))
  }

  /** `Orientation(orientations)` and `setOrientation`. */
  function FromNamed(n: Named): (o: Orientation)
    ensures o.angle == NamedAngle(n)
  {
    FromAngle(NamedAngle(n))
  }

  /** `getOrientation`: the four right angles are named, all else is `Other`. */
  function GetOrientation(o: Orientation): (n: Named)
    ensures n != Other ==> NamedAngle(n) == o.angle
    ensures n == Other <==> o.angle !in {0, 90, 180, 270}
  {
    if o.angle == 0 then BottomToTop
    else if o.angle == 90 then LeftToRight
    else if o.angle == 180 then TopToBottom
    else if o.angle == 270 then RightToLeft
    else Other
  }

  /** `isVertical`. */
  function IsVertical(o: Orientation): (r: bool)
    ensures r <==> GetOrientation(o) in {BottomToTop, TopToBottom}
  {
    o.angle == 0 || o.angle == 180
  }

  /** `isInverted`. */
  function IsInverted(o: Orientation): (r: bool)
    ensures r <==> GetOrientation(o) in {TopToBottom, RightToLeft}
  {
    o.angle == 180 || o.angle == 270
  }

  /** `mirror`: half a turn. */
  function Mirror(o: Orientation): (m: Orientation)
    ensures Valid(m)
    ensures (m.angle - o.angle - 180) % 360 == 0
    ensures o.angle + 180 >= 0 ==> m.angle >= 0
    ensures o.angle + 180 <= 0 ==> m.angle <= 0
  {
    FromAngle(o.angle + 180)
  }

  /** `turnLeft`: a quarter turn up. */
  function TurnLeft(o: Orientation): (t: Orientation)
    ensures Valid(t)
    ensures (t.angle - o.angle - 90) % 360 == 0
    ensures o.angle + 90 >= 0 ==> t.angle >= 0
    ensures o.angle + 90 <= 0 ==> t.angle <= 0
  {
    FromAngle(o.angle + 90)
  }

  /** `turnRight`: a quarter turn down, as written (see TurnRightFromBottomIsOther). */
  function TurnRight(o: Orientation): (t: Orientation)
    ensures Valid(t)
    ensures (t.angle - o.angle + 90) % 360 == 0
    ensures o.angle - 90 >= 0 ==> t.angle >= 0
    ensures o.angle - 90 <= 0 ==> t.angle <= 0
  {
    FromAngle(o.angle - 90)
  }

  /** `operator==` between two orientations: by angle only. */
  predicate Equal(a: Orientation, b: Orientation)
  {
    a.angle == b.angle
  }

  /** `operator==` between an orientation and an enumerator: by name. */
  predicate EqualsNamed(a: Orientation, n: Named)
  {
    GetOrientation(a) == n
  }

  /** Naming an orientation and reading its name back gives the name. */
  lemma NamedRoundTrip(n: Named)
    ensures GetOrientation(FromNamed(n)) == n
    ensures EqualsNamed(FromNamed(n), n)
  {
  }

  /** Orientation equality is equality of the values (only the angle is stored). */
  lemma EqualIsValueEquality(a: Orientation, b: Orientation)
    ensures Equal(a, b) <==> a == b
  {
  }

  /** Comparing with a named direction agrees with comparing with the
      orientation built from it, except for `Other`, which every unnamed angle equals. */
  lemma EqualsNamedAgrees(a: Orientation, n: Named)
    ensures n != Other ==> (EqualsNamed(a, n) <==> Equal(a, FromNamed(n)))
    ensures EqualsNamed(Orientation(45), Other) && !Equal(Orientation(45), FromNamed(Other))
  {
  }

  /** Mirroring twice restores every non-negative stored angle. */
  lemma {:induction false} MirrorTwice(o: Orientation)
    requires Valid(o) && o.angle >= 0
    ensures Mirror(Mirror(o)) == o
  {
    var m := Mirror(o);
    if o.angle < 180 {
      assert m.angle == o.angle + 180;
      assert Mirror(m).angle == (o.angle + 360) % 360;
    } else {
      assert m.angle == o.angle - 180;
    }
  }

  /** Mirroring keeps a named direction vertical or horizontal and flips whether it is inverted. */
  lemma MirrorNamed(n: Named)
    requires n != Other
    ensures GetOrientation(Mirror(FromNamed(n))) != Other
    ensures IsVertical(Mirror(FromNamed(n))) == IsVertical(FromNamed(n))
    ensures IsInverted(Mirror(FromNamed(n))) == !IsInverted(FromNamed(n))
  {
    match n
    case BottomToTop => assert Mirror(FromNamed(n)).angle == 180;
    case LeftToRight => assert Mirror(FromNamed(n)).angle == 270;
    case TopToBottom => assert Mirror(FromNamed(n)).angle == 0;
    case RightToLeft => assert Mirror(FromNamed(n)).angle == 90;
  }

  /** Turning left walks through the named directions counter-clockwise. */
  lemma TurnLeftNamed()
    ensures GetOrientation(TurnLeft(FromNamed(BottomToTop))) == LeftToRight
    ensures GetOrientation(TurnLeft(FromNamed(LeftToRight))) == TopToBottom
    ensures GetOrientation(TurnLeft(FromNamed(TopToBottom))) == RightToLeft
    ensures GetOrientation(TurnLeft(FromNamed(RightToLeft))) == BottomToTop
  {
  }

  /** As written, a right turn from bottom-to-top stores -90 degrees, which
      is not named: the turned widget is neither vertical nor inverted. */
  lemma TurnRightFromBottomIsOther()
    ensures TurnRight(FromNamed(BottomToTop)).angle == -90
    ensures GetOrientation(TurnRight(FromNamed(BottomToTop))) == Other
    ensures !IsVertical(TurnRight(FromNamed(BottomToTop)))
  {
  }

  /** The angle reduction the classification functions evidently expect:
      always in [0, 360). */
  function NormalizedAngle(newAngle: int): (o: Orientation)
    ensures 0 <= o.angle < 360
    ensures (o.angle - newAngle) % 360 == 0
  {
    Orientation(newAngle % 360)
  }

  /** `turnRight` with the normalised reduction. */
  function TurnRightNormalized(o: Orientation): (t: Orientation)
    ensures 0 <= t.angle < 360
    ensures (t.angle - o.angle + 90) % 360 == 0
  {
    NormalizedAngle(o.angle - 90)
  }

  /** `turnLeft` with the normalised reduction. */
  function TurnLeftNormalized(o: Orientation): (t: Orientation)
    ensures 0 <= t.angle < 360
    ensures (t.angle - o.angle - 90) % 360 == 0
  {
    NormalizedAngle(o.angle + 90)
  }

  /** With the normalised reduction, right turns walk the named directions clockwise. */
  lemma TurnRightNormalizedNamed()
    ensures GetOrientation(TurnRightNormalized(FromNamed(BottomToTop))) == RightToLeft
    ensures GetOrientation(TurnRightNormalized(FromNamed(RightToLeft))) == TopToBottom
    ensures GetOrientation(TurnRightNormalized(FromNamed(TopToBottom))) == LeftToRight
    ensures GetOrientation(TurnRightNormalized(FromNamed(LeftToRight))) == BottomToTop
  {
    assert TurnRightNormalized(FromNamed(BottomToTop)) == NormalizedAngle(-90);
    assert -90 % 360 == 270;
    assert TurnRightNormalized(FromNamed(RightToLeft)) == NormalizedAngle(180);
    assert TurnRightNormalized(FromNamed(TopToBottom)) == NormalizedAngle(90);
    assert TurnRightNormalized(FromNamed(LeftToRight)) == NormalizedAngle(0);
  }

  /** With the normalised reduction, a left turn undoes a right turn on every stored angle. */
  lemma {:induction false} TurnLeftUndoesTurnRight(o: Orientation)
    requires 0 <= o.angle < 360
    ensures TurnLeftNormalized(TurnRightNormalized(o)) == o
  {
    var t := TurnRightNormalized(o);
    if o.angle >= 90 {
      assert t.angle == o.angle - 90;
    } else {
      assert t.angle == o.angle + 270;
    }
  }
}
