// Small numeric helpers of the driver: clamping to [0, 1], wrapping a value
// into a range with the remainder operator, the byte conversion of a
// captured texel, and the row flip of a captured image.

module Helpers {
  import opened JsMath

  /** clamp01: the value limited to [0, 1]. */
  function Clamp01(x: real): (r: real)
    ensures 0.0 <= r <= 1.0
    ensures 0.0 <= x <= 1.0 ==> r == x
    ensures x < 0.0 ==> r == 0.0
    ensures x > 1.0 ==> r == 1.0
  {
    Min(Max(x, 0.0), 1.0)
  }

  /**
   * wrap: min when the range is empty, otherwise (value - min) % range + min.
   * Because `%` keeps the sign of its left operand, only values at or above
   * min land in [min, max); values below min stay below it.
   */
  function Wrap(value: real, min: real, max: real): (r: real)
    ensures max - min == 0.0 ==> r == min
    ensures min < max && min <= value ==> min <= r < max
    ensures min < max && value < min ==> min - (max - min) < r <= min
    ensures min < max && min <= value < max ==> r == value
  {
    var range := max - min;
    if range == 0.0 then min
    else
      RemOfSmall(value - min, range);
      Rem(value - min, range) + min
  }

  /** The remainder of a non-negative value below the divisor is the value itself. */
  lemma RemOfSmall(a: real, b: real)
    requires b != 0.0
    ensures 0.0 <= a < b ==> Rem(a, b) == a
  {
    if 0.0 <= a < b {
      assert Abs(a) == a && Abs(b) == b;
      assert a / b < 1.0 by {
        assert a / b * b == a;
        if a / b >= 1.0 {
          ScaleLe(b, 1.0, a / b);
        }
      }
      assert (a / b).Floor == 0;
    }
  }

  /** A value below the range is not wrapped into it: wrap(-0.5, 0, 1) is -0.5. */
  lemma WrapBelowRange()
    ensures Wrap(-0.5, 0.0, 1.0) == -0.5
  {
    assert Rem(-0.5, 1.0) == -0.5 by {
      assert Abs(-0.5) / Abs(1.0) == 0.5;
      assert (0.5).Floor == 0;
    }
  }

  /**
   * A captured channel as stored in the Uint8Array: the clamped value times
   * 255, truncated to an integer.
   */
  function ToByte(x: real): (b: int)
    ensures 0 <= b <= 255
    ensures x <= 0.0 ==> b == 0
    ensures x >= 1.0 ==> b == 255
  {
    (Clamp01(x) * 255.0).Floor
  }

  /**
   * The index map of normalizeTexture: output element k (row-major RGBA, rows
   * of `width * 4` elements) is read from the same column and channel of row
   * `height - 1 - row`, which turns the bottom-up framebuffer rows top-down.
   */
  function FlipIndex(width: int, height: int, k: int): (r: int)
    requires width > 0 && height > 0 && 0 <= k < width * height * 4
    ensures 0 <= r < width * height * 4
    ensures r % (width * 4) == k % (width * 4)
    ensures r / (width * 4) == height - 1 - k / (width * 4)
  {
    var stride := width * 4;
    var row := k / stride;
    var rest := k % stride;
    RowBound(k, stride, height);
    var r := (height - 1 - row) * stride + rest;
    RowLayout(height - 1 - row, stride, rest, height);
    r
  }

  lemma RowBound(k: int, stride: int, height: int)
    requires stride > 0 && height > 0 && 0 <= k < stride * height
    ensures 0 <= k / stride < height
  {
    if k / stride >= height {
      MulMonotone(height, k / stride, stride);
      assert false;
    }
  }

  /** Row `row` and offset `rest` of a row-major layout: the element index, its row and offset are recovered. */
  lemma RowLayout(row: int, stride: int, rest: int, height: int)
    requires 0 <= row < height && 0 <= rest < stride
    ensures 0 <= row * stride + rest < height * stride
    ensures (row * stride + rest) / stride == row && (row * stride + rest) % stride == rest
  {
    MulMonotone(row, height - 1, stride);
    assert (height - 1) * stride == height * stride - stride;
    var x := row * stride + rest;
    var q := x / stride;
    var m := x % stride;
    assert x == q * stride + m;
    if q < row {
      MulMonotone(q + 1, row, stride);
      assert false;
    } else if q > row {
      MulMonotone(row + 1, q, stride);
      assert false;
    }
  }

  /** Flipping the rows twice gives back the original index, so the map is a bijection of the image. */
  lemma FlipInvolution(width: int, height: int, k: int)
    requires width > 0 && height > 0 && 0 <= k < width * height * 4
    ensures FlipIndex(width, height, FlipIndex(width, height, k)) == k
  {
    var stride := width * 4;
    var f := FlipIndex(width, height, k);
    var ff := FlipIndex(width, height, f);
    assert ff / stride == k / stride && ff % stride == k % stride;
    assert k == (k / stride) * stride + k % stride;
    assert ff == (ff / stride) * stride + ff % stride;
  }
}
