/** onMeasure's size negotiation: the clock asks for its dial's intrinsic
    size, shrunk by one uniform factor when a constrained axis offers less
    than the dial needs. The model stops at the desired size, before the
    host toolkit resolves it against the constraint. */
module Measure {
  import opened Geometry

  /** The mode part of a measure constraint. */
  datatype Mode = Unspecified | Exactly | AtMost

  /** A desired width and height. */
  datatype Dimension = Dimension(width: int, height: int)

  /** hScale or vScale: 1, or size / dial when the axis is constrained and
      the offered size is below the dial's. */
  function AxisScale(mode: Mode, size: nat, dial: pos): real
  {
    if mode != Unspecified && size < dial then size as real / dial as real else 1.0
  }

  /** The uniform factor applied to both axes. */
  function MeasureScale(widthMode: Mode, widthSize: nat, heightMode: Mode, heightSize: nat, dial: Size): real
  {
    MinReal(AxisScale(widthMode, widthSize, dial.width), AxisScale(heightMode, heightSize, dial.height))
  }

  /** The size the view asks for: the dial scaled by the uniform factor,
      each side truncated to an int. */
  function DesiredSize(widthMode: Mode, widthSize: nat, heightMode: Mode, heightSize: nat, dial: Size): Dimension
  {
    var scale := MeasureScale(widthMode, widthSize, heightMode, heightSize, dial);
    Dimension(ScaledSide(dial.width, scale), ScaledSide(dial.height, scale))
  }

  /** One side of the dial multiplied by the factor and cast to an int. */
  function ScaledSide(side: pos, scale: real): int
  {
    Trunc(side as real * scale)
  }

  /** An axis shrinks exactly when it is constrained below the dial. */
  predicate Shrinks(mode: Mode, size: nat, dial: pos)
  {
    mode != Unspecified && size < dial
  }

  /** Each axis scale lies in [0, 1], and below 1 exactly when that axis shrinks. */
  lemma AxisScaleRange(mode: Mode, size: nat, dial: pos)
    ensures 0.0 <= AxisScale(mode, size, dial) <= 1.0
    ensures AxisScale(mode, size, dial) < 1.0 <==> Shrinks(mode, size, dial)
    ensures Shrinks(mode, size, dial) ==> dial as real * AxisScale(mode, size, dial) == size as real
  {
  }

  /** The uniform factor is in [0, 1]; it is 1 exactly when neither axis
      shrinks, and it never asks more of an axis than that axis offers. */
  lemma {:induction false} ScaleInUnitRange(widthMode: Mode, widthSize: nat, heightMode: Mode, heightSize: nat, dial: Size)
    ensures var s := MeasureScale(widthMode, widthSize, heightMode, heightSize, dial);
      && 0.0 <= s <= 1.0
      && (s == 1.0 <==> !Shrinks(widthMode, widthSize, dial.width) && !Shrinks(heightMode, heightSize, dial.height))
      && (Shrinks(widthMode, widthSize, dial.width) ==> dial.width as real * s <= widthSize as real)
      && (Shrinks(heightMode, heightSize, dial.height) ==> dial.height as real * s <= heightSize as real)
  {
    var hs := AxisScale(widthMode, widthSize, dial.width);
    var vs := AxisScale(heightMode, heightSize, dial.height);
    AxisScaleRange(widthMode, widthSize, dial.width);
    AxisScaleRange(heightMode, heightSize, dial.height);
    var s := MinReal(hs, vs);
    MulMonotone(s, hs, dial.width as real);
    MulMonotone(s, vs, dial.height as real);
  }

  /** Multiplying by a non-negative factor keeps an inequality. */
  lemma MulMonotone(a: real, b: real, c: real)
    requires a <= b && 0.0 <= c
    ensures c * a <= c * b
  {
  }

  /** The desired size is never larger than the dial, and never negative. */
  lemma {:induction false} DesiredWithinDial(widthMode: Mode, widthSize: nat, heightMode: Mode, heightSize: nat, dial: Size)
    ensures var d := DesiredSize(widthMode, widthSize, heightMode, heightSize, dial);
      0 <= d.width <= dial.width && 0 <= d.height <= dial.height
  {
    var s := MeasureScale(widthMode, widthSize, heightMode, heightSize, dial);
    assert 0.0 <= s <= 1.0 by {
      ScaleInUnitRange(widthMode, widthSize, heightMode, heightSize, dial);
    }
    ScaledSideWithin(dial.width, s);
    ScaledSideWithin(dial.height, s);
  }

  /** One side of the dial, scaled by a factor in [0, 1] and truncated. */
  lemma ScaledSideWithin(side: pos, s: real)
    requires 0.0 <= s <= 1.0
    ensures 0 <= ScaledSide(side, s) <= side
  {
    var x := side as real;
    MulMonotone(s, 1.0, x);
    MulMonotone(0.0, s, x);
    assert 0.0 <= x * s <= x;
  }

  /** On a constrained axis the desired size never exceeds the offered size. */
  lemma {:induction false} DesiredWithinConstraint(widthMode: Mode, widthSize: nat, heightMode: Mode, heightSize: nat, dial: Size)
    ensures var d := DesiredSize(widthMode, widthSize, heightMode, heightSize, dial);
      && (widthMode != Unspecified ==> d.width <= widthSize)
      && (heightMode != Unspecified ==> d.height <= heightSize)
  {
    ScaleInUnitRange(widthMode, widthSize, heightMode, heightSize, dial);
    DesiredWithinDial(widthMode, widthSize, heightMode, heightSize, dial);
  }

  /** The view asks for the full dial exactly when no axis shrinks. */
  lemma {:induction false} FullSizeIffNothingShrinks(widthMode: Mode, widthSize: nat, heightMode: Mode, heightSize: nat, dial: Size)
    ensures DesiredSize(widthMode, widthSize, heightMode, heightSize, dial) == Dimension(dial.width, dial.height)
        <==> !Shrinks(widthMode, widthSize, dial.width) && !Shrinks(heightMode, heightSize, dial.height)
  {
    var s := MeasureScale(widthMode, widthSize, heightMode, heightSize, dial);
    ScaleInUnitRange(widthMode, widthSize, heightMode, heightSize, dial);
    if s < 1.0 {
      assert dial.width as real * s < dial.width as real by {
        MulStrict(s, dial.width as real);
      }
    }
  }

  /** A factor below one strictly shrinks a positive value. */
  lemma MulStrict(s: real, c: real)
    requires s < 1.0 && 0.0 < c
    ensures c * s < c
  {
  }

  /** Both axes use the same factor, so the desired size keeps the dial's
      aspect ratio up to the truncation of each side: the cross products
      width * dialHeight and height * dialWidth differ by less than one
      side of the dial. */
  lemma {:induction false} AspectPreserved(widthMode: Mode, widthSize: nat, heightMode: Mode, heightSize: nat, dial: Size)
    ensures var d := DesiredSize(widthMode, widthSize, heightMode, heightSize, dial);
      -(dial.height as int) < d.width * dial.height - d.height * dial.width < dial.width
  {
    var s := MeasureScale(widthMode, widthSize, heightMode, heightSize, dial);
    assert 0.0 <= s by {
      ScaleInUnitRange(widthMode, widthSize, heightMode, heightSize, dial);
    }
    ScaledPairAspect(dial, s);
  }

  /** Both sides of the dial scaled by one non-negative factor and truncated
      keep the dial's aspect ratio up to the truncation. */
  lemma ScaledPairAspect(dial: Size, s: real)
    requires 0.0 <= s
    ensures -(dial.height as int) < ScaledSide(dial.width, s) * dial.height - ScaledSide(dial.height, s) * dial.width < dial.width
  {
    var W, H := dial.width as real, dial.height as real;
    assert 0.0 <= W * s && 0.0 <= H * s by {
      MulMonotone(0.0, s, W);
      MulMonotone(0.0, s, H);
    }
    var x, y := ScaledSide(dial.width, s), ScaledSide(dial.height, s);
    TruncatedPair(W, H, s, x as real, y as real);
    CastMul(x, dial.height);
    CastMul(y, dial.width);
  }

  /** Two sides truncated from one factor: x and y are W*s and H*s rounded down. */
  lemma TruncatedPair(W: real, H: real, s: real, x: real, y: real)
    requires 0.0 < W && 0.0 < H
    requires W * s - 1.0 < x <= W * s
    requires H * s - 1.0 < y <= H * s
    ensures -H < x * H - y * W < W
  {
    var u, v := W * s, H * s;
    assert H * u == W * v;
    CrossDifference(W, H, u, v, x, y);
    RoundingErrors(W, H, u - x, v - y);
  }

  /** The cross difference written through the two rounding errors. */
  lemma CrossDifference(W: real, H: real, u: real, v: real, x: real, y: real)
    requires H * u == W * v
    ensures x * H - y * W == W * (v - y) - H * (u - x)
  {
  }

  /** Each rounding error is in [0, 1), so each weighted error is less than its weight. */
  lemma RoundingErrors(W: real, H: real, e1: real, e2: real)
    requires 0.0 < W && 0.0 < H && 0.0 <= e1 < 1.0 && 0.0 <= e2 < 1.0
    ensures -H < W * e2 - H * e1 < W
  {
    assert 0.0 <= H * e1 < H * 1.0;
    assert 0.0 <= W * e2 < W * 1.0;
  }

  /** Converting a product to a real multiplies the converted factors. */
  lemma CastMul(u: int, v: int)
    ensures (u * v) as real == u as real * v as real
  {
  }

}
