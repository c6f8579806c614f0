/** Values shared by every part of the chart: samples, canvas positions and
    the pure coordinate mappers of GraphHolder (both engine generations). */
module Geometry {

  datatype Option<T> = None | Some(value: T)

  /** A canvas position (the host's Vector2; single-precision floats are modelled as reals). */
  datatype Vec = Vec(x: real, y: real)

  /** One sample: the integer Y value and the ToString() image of its optional X value. */
  datatype PointValue = PointValue(yValue: int, xValue: Option<string>)

  /** Text of an X label: the sample's X value, or the index when the sample has none. */
  datatype LabelText = XText(text: string) | IndexText(index: int)

  const DisplayOffsetX: int := 80
  const DisplayOffsetY: int := 30
  const XPointDistanceMin: int := 20
  const XPointDistanceDef: int := 50
  const MinimumBetweenTwoPoints: int := 90

  /** X pixel of sample `i` inside the point canvas: the pan is not part of it. */
  function XPosForPoint(i: int, d: int): real
  {
    (i * d) as real
  }

  lemma XPosForPointStrictlyIncreasing(i: int, j: int, d: int)
    requires d >= 1 && i < j
    ensures XPosForPoint(i, d) < XPosForPoint(j, d)
    ensures XPosForPoint(j, d) - XPosForPoint(i, d) == ((j - i) * d) as real
  {
    assert j * d - i * d == (j - i) * d;
    assert (j - i) * d >= 1 * d by { MulMonotone(j - i, d); }
  }

  lemma MulMonotone(k: int, d: int)
    requires k >= 1 && d >= 1
    ensures k * d >= d
  {
  }

  /** Y pixel of a value: the value as a fraction of yMax, scaled to the graph height. */
  function YPosForValue(v: int, yMax: real, graphHeight: real): real
    requires yMax != 0.0
  {
    v as real / yMax * graphHeight
  }

  /** Halving yMax doubles every Y pixel (and, generally, scaling yMax by 1/c scales pixels by c). */
  lemma YPosScalesInverselyWithYMax(v: int, yMax: real, c: real, graphHeight: real)
    requires yMax != 0.0 && c != 0.0
    ensures YPosForValue(v, yMax / c, graphHeight) == c * YPosForValue(v, yMax, graphHeight)
  {
    calc {
      YPosForValue(v, yMax / c, graphHeight);
      v as real / (yMax / c) * graphHeight;
      { assert v as real / (yMax / c) == c * (v as real / yMax); }
      c * (v as real / yMax) * graphHeight;
    }
  }

  lemma HalvingYMaxDoublesYPos(v: int, yMax: real, graphHeight: real)
    requires yMax != 0.0
    ensures YPosForValue(v, yMax / 2.0, graphHeight) == 2.0 * YPosForValue(v, yMax, graphHeight)
  {
    YPosScalesInverselyWithYMax(v, yMax, 2.0, graphHeight);
  }

  /** Value under a mouse height: the point canvas sits at `top + 30`, so this undoes YPosForValue. */
  function YValueAtMouse(mouseY: real, top: int, yMax: real, graphHeight: real): real
    requires graphHeight != 0.0
  {
    (-(DisplayOffsetY as real) + mouseY - top as real) * (yMax / graphHeight)
  }

  lemma YValueAtMouseInvertsYPos(v: int, top: int, yMax: real, graphHeight: real)
    requires yMax != 0.0 && graphHeight != 0.0
    ensures YValueAtMouse(YPosForValue(v, yMax, graphHeight) + DisplayOffsetY as real + top as real,
                          top, yMax, graphHeight) == v as real
  {
    var y := YPosForValue(v, yMax, graphHeight);
    assert -(DisplayOffsetY as real) + (y + DisplayOffsetY as real + top as real) - top as real == y;
    calc {
      y * (yMax / graphHeight);
      v as real / yMax * graphHeight * (yMax / graphHeight);
      { assert graphHeight * (yMax / graphHeight) == yMax; }
      v as real / yMax * yMax;
      v as real;
    }
  }

  /** Position given to the point-and-line canvas and to the X-label canvas: the pan lives here. */
  function PointCanvasPosition(left: int, top: int): Vec
  {
    Vec((left + DisplayOffsetX) as real, (top + DisplayOffsetY) as real)
  }

  function LabelXCanvasPosition(left: int): Vec
  {
    Vec((left + DisplayOffsetX) as real, (DisplayOffsetY - 10) as real)
  }

  /** The X-label canvas follows the horizontal pan exactly as the point
      canvas does, and stays 10 pixels above it whatever the vertical pan
      was, so a label at pixel x sits under the point at pixel x. */
  lemma LabelCanvasFollowsPointCanvas(left: int, top: int)
    ensures LabelXCanvasPosition(left).x == PointCanvasPosition(left, top).x
    ensures LabelXCanvasPosition(left).y == PointCanvasPosition(left, 0).y - 10.0
  {
  }

  /** Screen X of sample `i` once its canvas is placed: pixel plus canvas offset. */
  lemma ScreenXIsPixelPlusPan(i: int, d: int, left: int, top: int)
    ensures PointCanvasPosition(left, top).x + XPosForPoint(i, d) == (left + DisplayOffsetX + i * d) as real
  {
  }

  /** GetReversePosForPoint: the host's Y axis points down, so a vertex is stored as (x, H - y). */
  function ReversePos(p: Vec, canvasHeight: real): Vec
  {
    Vec(p.x, canvasHeight - p.y)
  }

  lemma ReversePosInvolutive(p: Vec, canvasHeight: real)
    ensures ReversePos(ReversePos(p, canvasHeight), canvasHeight) == p
  {
  }

  lemma ReversePosInjective(p: Vec, q: Vec, canvasHeight: real)
    ensures ReversePos(p, canvasHeight) == ReversePos(q, canvasHeight) <==> p == q
  {
  }

  /** Text a new X label receives: XValue?.ToString() ?? pointIndex.ToString(). */
  function LabelTextOf(v: PointValue, pointIndex: int): LabelText
  {
    match v.xValue
    case Some(s) => XText(s)
    case None => IndexText(pointIndex)
  }

  /** A label's text depends on the slot it is drawn for exactly when its
      sample has no X value: such labels name their slot, and no two slots
      share one. */
  lemma LabelTextNamesSlotOnlyWithoutX(v: PointValue, i: int, j: int)
    ensures LabelTextOf(v, i) == LabelTextOf(v, j) <==> v.xValue.Some? || i == j
  {
  }

  /** Pixel of sample `i` in the earlier engine generation, offsets baked into the point. */
  function LegacyPointPos(i: int, d: int, v: int, yMax: real, graphHeight: real): Vec
    requires yMax != 0.0
  {
    Vec((i * d + DisplayOffsetX) as real, v as real / yMax * graphHeight + DisplayOffsetY as real)
  }

  /** The earlier generation's GetYValueAtMouse: the vertical pan enters
      with the opposite sign to the current generation's. */
  function LegacyYValueAtMouse(mouseY: real, top: int, yMax: real, graphHeight: real): real
    requires graphHeight != 0.0
  {
    (-(DisplayOffsetY as real) + mouseY + top as real) * (yMax / graphHeight)
  }

  /** The earlier mapper reads back the value of a point drawn at
      YPosForValue + 30 - top. */
  lemma {:induction false} LegacyYValueAtMouseInvertsYPos(v: int, top: int, yMax: real, graphHeight: real)
    requires yMax != 0.0 && graphHeight != 0.0
    ensures LegacyYValueAtMouse(YPosForValue(v, yMax, graphHeight) + DisplayOffsetY as real - top as real,
                                top, yMax, graphHeight) == v as real
  {
    YValueAtMouseInvertsYPos(v, -top, yMax, graphHeight);
  }

  lemma LegacyPointPosIsShiftedPixel(i: int, d: int, v: int, yMax: real, graphHeight: real)
    requires yMax != 0.0
    ensures LegacyPointPos(i, d, v, yMax, graphHeight)
         == Vec(XPosForPoint(i, d) + DisplayOffsetX as real, YPosForValue(v, yMax, graphHeight) + DisplayOffsetY as real)
  {
  }
}
