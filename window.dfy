/** The visible-window arithmetic of both engine generations: which sample
    indices the virtualising holder keeps, and which of those it attaches. */
module Window {
  import opened Geometry

  /** Math.Ceiling(a / b) for a non-negative numerator and a positive divisor. */
  function CeilDiv(a: int, b: int): (q: int)
    requires a >= 0 && b >= 1
    ensures q >= 0
    ensures (q - 1) * b < a <= q * b
  {
    var q := (a + b - 1) / b;
    var r := (a + b - 1) % b;
    assert a + b - 1 == q * b + r && 0 <= r < b;
    assert (q - 1) * b == q * b - b;
    q
  }

  /** x-coordinate of the point canvas: the pan plus the fixed left margin. */
  function GraphPosX(left: int): int
  {
    left + DisplayOffsetX
  }

  /** GetStartPointIndex: 0 while the canvas origin is on screen, otherwise
      ceil(-p / d) - 1, the last sample still left of the screen edge. */
  function StartPointIndex(left: int, d: int): (s: int)
    requires d >= 1
    ensures s >= 0
  {
    var p := GraphPosX(left);
    if p < 0 then CeilDiv(-p, d) - 1 else 0
  }

  /** GetEndPointIndex: -1 once the canvas origin is right of the viewport,
      otherwise floor((width - p) / d) + 1, the first sample past the right edge. */
  function EndPointIndex(left: int, d: int, width: int): (e: int)
    requires d >= 1
    ensures e >= -1
  {
    var range := width - GraphPosX(left);
    if range < 0 then -1 else range / d + 1
  }

  /** Sample `i` is drawn at screen x = p + i * d. */
  function ScreenX(left: int, d: int, i: int): int
  {
    GraphPosX(left) + i * d
  }

  lemma StartPointIndexMeaning(left: int, d: int)
    requires d >= 1
    ensures GraphPosX(left) >= 0 ==> StartPointIndex(left, d) == 0
    ensures GraphPosX(left) < 0 ==>
      ScreenX(left, d, StartPointIndex(left, d)) < 0 <= ScreenX(left, d, StartPointIndex(left, d) + 1)
  {
    var p := GraphPosX(left);
    if p < 0 {
      var s := StartPointIndex(left, d);
      assert s + 1 == CeilDiv(-p, d);
      assert (s + 1) * d == s * d + d;
    }
  }

  lemma EndPointIndexMeaning(left: int, d: int, width: int)
    requires d >= 1
    ensures width < GraphPosX(left) ==> EndPointIndex(left, d, width) == -1
    ensures width >= GraphPosX(left) ==>
      ScreenX(left, d, EndPointIndex(left, d, width) - 1) <= width < ScreenX(left, d, EndPointIndex(left, d, width))
  {
    var p := GraphPosX(left);
    var range := width - p;
    if range >= 0 {
      var e := EndPointIndex(left, d, width);
      var q := range / d;
      assert range == q * d + range % d;
      assert e * d == q * d + d;
    }
  }

  /** The kept window [start, end] always has this shape: start is a valid
      index, the window is not inverted by more than one, and a window that
      is empty or a single sample starts at 0. */
  ghost predicate WindowShape(s: int, e: int)
  {
    s >= 0 && s <= e + 1 && (e <= s ==> s == 0)
  }

  lemma WindowShapeOfIndices(left: int, d: int, width: int)
    requires d >= 1 && width >= 0
    ensures WindowShape(StartPointIndex(left, d), EndPointIndex(left, d, width))
  {
    var p := GraphPosX(left);
    var s := StartPointIndex(left, d);
    var e := EndPointIndex(left, d, width);
    if p < 0 {
      var c := CeilDiv(-p, d);
      var range := width - p;
      var q := range / d;
      assert range == q * d + range % d && 0 <= range % d < d;
      assert (c - 1) * d < -p <= range;
      assert (c - 1) * d < q * d + d;
      if c - 1 > q {
        assert (c - 1) * d >= (q + 1) * d by { MulLe(q + 1, c - 1, d); }
        assert false;
      }
      assert e == q + 1 && s == c - 1;
    }
  }

  lemma MulLe(a: int, b: int, d: int)
    requires a <= b && d >= 0
    ensures a * d <= b * d
  {
    assert b * d - a * d == (b - a) * d;
  }

  /** Every sample that lands on screen lies in the kept window, and every
      sample strictly inside the window lands on screen: the window is the
      on-screen samples plus at most one margin sample on each side. */
  lemma WindowCoversScreen(left: int, d: int, width: int, i: int)
    requires d >= 1 && width >= 0 && i >= 0
    ensures 0 <= ScreenX(left, d, i) <= width ==>
      StartPointIndex(left, d) <= i <= EndPointIndex(left, d, width)
    ensures StartPointIndex(left, d) < i < EndPointIndex(left, d, width) ==>
      0 <= ScreenX(left, d, i) <= width
  {
    var s := StartPointIndex(left, d);
    var e := EndPointIndex(left, d, width);
    StartPointIndexMeaning(left, d);
    EndPointIndexMeaning(left, d, width);
    if 0 <= ScreenX(left, d, i) <= width {
      if i < s {
        MulLe(i, s, d);
        assert false;
      }
      if i > e {
        MulLe(e, i, d);
        assert false;
      }
    }
    if s < i < e {
      MulLe(s + 1, i, d);
      MulLe(i, e - 1, d);
    }
  }

  /** CheckIndexVisibilityByXDistance's stride: (int)(90 / d), plus one when 90 % d != 0. */
  function Stride(d: int): (x: int)
    requires d >= 1
    ensures x >= 1
  {
    assert MinimumBetweenTwoPoints / d == 0 ==> MinimumBetweenTwoPoints % d == MinimumBetweenTwoPoints;
    MinimumBetweenTwoPoints / d + (if MinimumBetweenTwoPoints % d != 0 then 1 else 0)
  }

  /** Attached iff the index is a multiple of the stride; divisibility does
      not depend on whether `%` truncates or floors, so this matches C#. */
  predicate IsShown(i: int, d: int)
    requires d >= 1
  {
    i % Stride(d) == 0
  }

  /** At most one count of steps of b brackets a from above. */
  lemma CeilUnique(a: int, b: int, x: int, y: int)
    requires b >= 1
    requires (x - 1) * b < a <= x * b && (y - 1) * b < a <= y * b
    ensures x == y
  {
    if x < y {
      MulLe(x, y - 1, b);
    } else if y < x {
      MulLe(y, x - 1, b);
    }
  }

  /** The stride is the least number of steps of d that spans 90 pixels. */
  lemma StrideIsCeiling(d: int)
    requires d >= 1
    ensures Stride(d) == CeilDiv(MinimumBetweenTwoPoints, d)
    ensures Stride(d) >= 1
    ensures (Stride(d) - 1) * d < MinimumBetweenTwoPoints <= Stride(d) * d
  {
    var q := 90 / d;
    var r := 90 % d;
    var p := q * d;
    assert 90 == p + r && 0 <= r < d;
    assert (q - 1) * d == p - d;
    assert (q + 1) * d == p + d;
    var x := Stride(d);
    assert x == if r != 0 then q + 1 else q;
    assert (x - 1) * d < 90 <= x * d;
    CeilUnique(90, d, x, CeilDiv(90, d));
  }

  lemma AllShownWhenSpacingAtLeastMinimum(d: int, i: int)
    requires d >= MinimumBetweenTwoPoints
    ensures IsShown(i, d)
  {
    StrideIsCeiling(d);
    assert Stride(d) == 1;
  }

  lemma DefaultSpacingShowsEvenIndices(i: int)
    ensures IsShown(i, XPointDistanceDef) <==> i % 2 == 0
  {
    assert Stride(XPointDistanceDef) == 2;
  }

  /** Two distinct non-negative multiples of x are at least x apart. */
  lemma MultiplesApart(i: int, j: int, x: int)
    requires x >= 1 && 0 <= i < j && i % x == 0 && j % x == 0
    ensures j - i >= x
  {
    var a := i / x;
    var b := j / x;
    assert i == a * x && j == b * x;
    if b <= a {
      MulLe(b, a, x);
      assert false;
    }
    MulLe(a + 1, b, x);
    assert (a + 1) * x == a * x + x;
  }

  /** Two attached samples are always at least 90 pixels apart. */
  lemma ShownSamplesKeepMinimumDistance(i: int, j: int, d: int)
    requires d >= 1 && 0 <= i < j
    requires IsShown(i, d) && IsShown(j, d)
    ensures (j - i) * d >= MinimumBetweenTwoPoints
  {
    var x := Stride(d);
    StrideIsCeiling(d);
    MultiplesApart(i, j, x);
    MulLe(x, j - i, d);
  }

  /** Widening the spacing never increases the stride. */
  lemma StrideAntitone(d1: int, d2: int)
    requires 1 <= d1 <= d2
    ensures Stride(d2) <= Stride(d1)
  {
    StrideIsCeiling(d1);
    StrideIsCeiling(d2);
    var x1 := Stride(d1);
    var x2 := Stride(d2);
    MulLe(d1, d2, x1);
    assert x1 * d1 <= x1 * d2;
    if x2 > x1 {
      MulLe(x1, x2 - 1, d2);
      assert false;
    }
  }

  /** The earlier generation: the first sample on screen, no margin. */
  function LegacyStartPointIndex(left: int, d: int): (s: int)
    requires d >= 1
    ensures s >= 0
  {
    var p := GraphPosX(left);
    if p < 0 then CeilDiv(-p, d) else 0
  }

  /** The earlier generation: the last sample on screen, no margin. */
  function LegacyEndPointIndex(left: int, d: int, width: int): (e: int)
    requires d >= 1
    ensures e >= -1
  {
    var range := width - GraphPosX(left);
    if range < 0 then -1 else range / d
  }

  /** The two generations differ by exactly the one-sample margins. */
  lemma LegacyWindowIsNewWindowWithoutMargins(left: int, d: int, width: int)
    requires d >= 1
    ensures GraphPosX(left) < 0 ==> LegacyStartPointIndex(left, d) == StartPointIndex(left, d) + 1
    ensures GraphPosX(left) >= 0 ==> LegacyStartPointIndex(left, d) == StartPointIndex(left, d)
    ensures width >= GraphPosX(left) ==> LegacyEndPointIndex(left, d, width) == EndPointIndex(left, d, width) - 1
    ensures width < GraphPosX(left) ==> LegacyEndPointIndex(left, d, width) == EndPointIndex(left, d, width)
  {
  }

  /** The legacy window is exactly the on-screen samples. */
  lemma LegacyWindowIsScreen(left: int, d: int, width: int, i: int)
    requires d >= 1 && i >= 0
    ensures LegacyStartPointIndex(left, d) <= i <= LegacyEndPointIndex(left, d, width)
        <==> 0 <= ScreenX(left, d, i) <= width
  {
    StartPointIndexMeaning(left, d);
    EndPointIndexMeaning(left, d, width);
    var s := LegacyStartPointIndex(left, d);
    var e := LegacyEndPointIndex(left, d, width);
    var p := GraphPosX(left);
    if s <= i <= e {
      if p < 0 { MulLe(s, i, d); }
      MulLe(i, e, d);
    }
    if 0 <= ScreenX(left, d, i) <= width {
      if i < s { MulLe(i, s - 1, d); assert false; }
      if i > e { MulLe(e + 1, i, d); assert false; }
    }
  }
}
