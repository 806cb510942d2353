// Texture sizes: the simulation, dye, bloom and sunrays resolutions derived
// from the drawing-buffer aspect ratio, and the bloom mip chain obtained by
// repeated right shifts of the bloom resolution.

module Resolution {
  import opened JsMath

  datatype Size = Size(width: int, height: int)

  /** x * a >= x for a non-negative x and a factor a >= 1. */
  lemma ScaleUp(x: real, a: real)
    requires 0.0 <= x && 1.0 <= a
    ensures x <= x * a
  {
    assert x * a - x == x * (a - 1.0);
  }

  lemma ScaleLess(a: real, b: real, h: real)
    requires a < b && 0.0 < h
    ensures a * h < b * h
  {
    assert b * h - a * h == (b - a) * h;
  }

  /** For positive w < h, the reciprocal of w / h is h / w. */
  lemma Reciprocal(w: real, h: real)
    requires 0.0 < w && 0.0 < h
    ensures 1.0 / (w / h) == h / w
  {
    assert (w / h) * (h / w) == 1.0;
  }

  lemma AspectCases(w: real, h: real)
    requires 0.0 < w && 0.0 < h
    ensures w > h ==> w / h > 1.0
    ensures w < h ==> w / h < 1.0
    ensures w == h ==> w / h == 1.0
  {
    assert w == (w / h) * h;
    if w < h && w / h >= 1.0 {
      ScaleUp(h, w / h);
      assert false;
    }
    if w == h && w / h != 1.0 {
      if w / h < 1.0 {
        ScaleLess(w / h, 1.0, h);
      } else {
        ScaleLess(1.0, w / h, h);
      }
      assert false;
    }
  }

  /**
   * getResolution: the short side of the result is the requested resolution
   * and the long side is the resolution scaled by the drawing buffer's
   * long-to-short ratio, rounded to the nearest integer; the result has the
   * drawing buffer's orientation (a square buffer counts as portrait).
   */
  function GetResolution(resolution: int, drawWidth: int, drawHeight: int): (r: Size)
    requires drawWidth > 0 && drawHeight > 0
    ensures drawWidth > drawHeight ==>
              r.height == resolution
              && r.width as real - 0.5 <= resolution as real * (drawWidth as real / drawHeight as real) < r.width as real + 0.5
    ensures drawWidth <= drawHeight ==>
              r.width == resolution
              && r.height as real - 0.5 <= resolution as real * (drawHeight as real / drawWidth as real) < r.height as real + 0.5
    ensures 0 <= resolution ==> resolution <= r.width && resolution <= r.height
    ensures drawWidth == drawHeight ==> r.width == resolution && r.height == resolution
  {
    var w := drawWidth as real;
    var h := drawHeight as real;
    var aspectRatio := w / h;
    AspectCases(w, h);
    var ratio := if aspectRatio < 1.0 then 1.0 / aspectRatio else aspectRatio;
    assert aspectRatio < 1.0 ==> ratio == h / w by {
      if aspectRatio < 1.0 {
        Reciprocal(w, h);
      }
    }
    assert 1.0 <= ratio;
    assert drawWidth > drawHeight ==> ratio == w / h;
    assert 0 <= resolution ==> resolution as real <= resolution as real * ratio by {
      if 0 <= resolution {
        ScaleUp(resolution as real, ratio);
      }
    }
    var min := Round(resolution as real);
    var max := Round(resolution as real * ratio);
    if drawWidth > drawHeight then Size(max, min) else Size(min, max)
  }

  /** The size of bloom level i along one axis: the dimension shifted right by i + 1. */
  function LevelDim(dim: int, i: nat): int {
    ShiftRight(dim, i + 1)
  }

  /** Level i is created only when both of its dimensions are at least 2. */
  predicate LevelFits(res: Size, i: nat) {
    LevelDim(res.width, i) >= 2 && LevelDim(res.height, i) >= 2
  }

  function Level(res: Size, i: nat): Size {
    Size(LevelDim(res.width, i), LevelDim(res.height, i))
  }

  /** The levels initBloomFramebuffers creates from level i on. */
  function LevelsFrom(res: Size, iterations: int, i: nat): (levels: seq<Size>)
    ensures |levels| <= if iterations - i < 0 then 0 else iterations - i
    ensures forall k :: 0 <= k < |levels| ==> levels[k] == Level(res, i + k) && LevelFits(res, i + k)
    ensures forall j :: i <= j < i + |levels| ==> LevelFits(res, j)
    ensures i + |levels| < iterations ==> !LevelFits(res, i + |levels|)
    decreases if iterations - i < 0 then 0 else iterations - i
  {
    if i < iterations && LevelFits(res, i) then
      [Level(res, i)] + LevelsFrom(res, iterations, i + 1)
    else
      []
  }

  /**
   * The bloom mip chain: level i is res shifted right by i + 1 in both
   * dimensions, at most `iterations` levels are made, and the chain stops at
   * the first level with a dimension below 2.
   */
  function BloomLevels(res: Size, iterations: int): (levels: seq<Size>)
    ensures |levels| <= if iterations < 0 then 0 else iterations
    ensures forall k :: 0 <= k < |levels| ==>
              levels[k] == Level(res, k) && levels[k].width >= 2 && levels[k].height >= 2
    ensures forall k :: 0 <= k < |levels| ==> LevelFits(res, k)
    ensures |levels| < iterations ==> !LevelFits(res, |levels|)
  {
    LevelsFrom(res, iterations, 0)
  }

  /** The levels are exactly the fitting prefix: every level before a non-fitting one fits. */
  lemma {:induction false} BloomLevelsPrefix(res: Size, iterations: int, k: nat)
    requires k < iterations
    requires forall j :: 0 <= j <= k ==> LevelFits(res, j)
    ensures k < |BloomLevels(res, iterations)|
  {
  }

  lemma {:induction false} Pow2Add(a: nat, b: nat)
    ensures Pow2(a + b) == Pow2(a) * Pow2(b)
    decreases a
  {
    if a > 0 {
      Pow2Add(a - 1, b);
    }
  }

  lemma Pow2Of31()
    ensures Pow2(31) == TWO_31
  {
    assert Pow2(8) == 256;
    Pow2Add(8, 8);
    Pow2Add(16, 8);
    assert Pow2(7) == 128;
    Pow2Add(24, 7);
  }

  lemma Pow2Values()
    ensures Pow2(1) == 2 && Pow2(2) == 4 && Pow2(3) == 8 && Pow2(4) == 16
    ensures Pow2(5) == 32 && Pow2(6) == 64 && Pow2(7) == 128 && Pow2(8) == 256
  {
  }

  lemma {:induction false} Pow2Succ(k: nat)
    ensures Pow2(k + 1) == 2 * Pow2(k)
  {
  }

  lemma DivDiv(x: int, a: int, b: int)
    requires 0 <= x && 0 < a && 0 < b
    ensures x / a / b == x / (a * b)
  {
    var q := x / a;
    var r := x % a;
    var q2 := q / b;
    var r2 := q % b;
    assert x == q * a + r && 0 <= r < a;
    assert q == q2 * b + r2 && 0 <= r2 < b;
    assert x == q2 * (a * b) + (r2 * a + r) by {
      assert q * a == (q2 * b + r2) * a;
      assert (q2 * b + r2) * a == q2 * (a * b) + r2 * a;
    }
    assert 0 <= r2 * a + r < a * b by {
      assert r2 * a <= (b - 1) * a by {
        MulMonotone(r2, b - 1, a);
      }
      assert (b - 1) * a == a * b - a;
    }
    DivUnique(x, a * b, q2, r2 * a + r);
  }

  lemma DivUnique(x: int, d: int, q: int, r: int)
    requires 0 < d && x == q * d + r && 0 <= r < d
    ensures x / d == q
  {
    var q0 := x / d;
    var r0 := x % d;
    assert x == q0 * d + r0;
    if q0 < q {
      MulMonotone(q0 + 1, q, d);
      assert false;
    } else if q0 > q {
      MulMonotone(q + 1, q0, d);
      assert false;
    }
  }

  /** For a non-negative 32-bit dimension, each level halves the previous one (rounding down). */
  lemma {:induction false} LevelHalves(dim: int, i: nat)
    requires 0 <= dim < TWO_31 && i + 2 < 32
    ensures LevelDim(dim, i + 1) == LevelDim(dim, i) / 2
  {
    Pow2Succ(i + 1);
    DivDiv(dim, Pow2(i + 1), 2);
  }

  /**
   * Without the dimension check the shift count would wrap: `x >> 32` is `x`
   * itself, so level 31 of a chain would be as large as the base resolution.
   */
  lemma ShiftCountWraps(dim: int)
    requires 0 <= dim < TWO_31
    ensures LevelDim(dim, 31) == dim
  {
  }

  /**
   * For any 32-bit resolution the chain stops before the shift count can
   * wrap: level 30 is `x >> 31`, which is 0, so there are never more than 30
   * levels, whatever `iterations` is.
   */
  lemma {:induction false} BloomLevelsBounded(res: Size, iterations: int)
    requires 0 <= res.width < TWO_31 && 0 <= res.height < TWO_31
    ensures |BloomLevels(res, iterations)| <= 30
  {
    LevelDimVanishes(res.width);
    assert !LevelFits(res, 30);
  }

  /** `x >> 31` of a non-negative 32-bit value is 0. */
  lemma LevelDimVanishes(dim: int)
    requires 0 <= dim < TWO_31
    ensures LevelDim(dim, 30) == 0
  {
    Pow2Of31();
  }

  /** On a 1920x1080 buffer the default bloom resolution 256 gives a 455x256 base. */
  lemma BloomBaseExample()
    ensures GetResolution(256, 1920, 1080) == Size(455, 256)
  {
    assert 256.0 * (1920.0 / 1080.0) + 0.5 == 8201.0 / 18.0;
  }

  /** The halvings of 455x256: each level is the base shifted right by one more bit. */
  lemma BloomChainLevels()
    ensures Level(Size(455, 256), 0) == Size(227, 128) && Level(Size(455, 256), 1) == Size(113, 64)
    ensures Level(Size(455, 256), 2) == Size(56, 32) && Level(Size(455, 256), 3) == Size(28, 16)
    ensures Level(Size(455, 256), 4) == Size(14, 8) && Level(Size(455, 256), 5) == Size(7, 4)
    ensures Level(Size(455, 256), 6) == Size(3, 2) && Level(Size(455, 256), 7) == Size(1, 1)
  {
    Pow2Values();
  }

  /** ... and the 455x256 base gives seven bloom levels of eight allowed: 256 >> 8 is 1. */
  lemma BloomChainExample(res: Size, iterations: int)
    requires res == Size(455, 256) && iterations == 8
    ensures BloomLevels(res, iterations)
         == [Size(227, 128), Size(113, 64), Size(56, 32), Size(28, 16), Size(14, 8), Size(7, 4), Size(3, 2)]
  {
    var levels := BloomLevels(res, iterations);
    BloomChainLevels();
    assert !LevelFits(res, 7);
    assert LevelFits(res, 0) && LevelFits(res, 1) && LevelFits(res, 2) && LevelFits(res, 3);
    assert LevelFits(res, 4) && LevelFits(res, 5) && LevelFits(res, 6);
    assert |levels| != 8;
    assert |levels| != 0 && |levels| != 1 && |levels| != 2 && |levels| != 3;
    assert |levels| != 4 && |levels| != 5 && |levels| != 6;
    assert |levels| == 7;
    assert levels[0] == Level(res, 0) && levels[1] == Level(res, 1) && levels[2] == Level(res, 2);
    assert levels[3] == Level(res, 3) && levels[4] == Level(res, 4) && levels[5] == Level(res, 5);
    assert levels[6] == Level(res, 6);
    var chain := [Size(227, 128), Size(113, 64), Size(56, 32), Size(28, 16), Size(14, 8), Size(7, 4), Size(3, 2)];
    assert forall k :: 0 <= k < 7 ==> levels[k] == chain[k];
  }
}
