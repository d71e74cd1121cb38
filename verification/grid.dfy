/** The 3x3 screen-region lookup of `processDetectedObject`: a box centre is
    turned into a column and a row index and then into a two-letter region
    name from `BLOCK_NAMES`. */
module Grid {
  import opened Wrappers

  const BlockSize: int := 3

  /** `BLOCK_NAMES`: row r holds the names whose second letter is the r-th of
      T, M, B; column c holds the names whose first letter is the c-th of L, M, R. */
  const BlockNames: seq<seq<string>> := [
    ["LT", "MT", "RT"],
    ["LM", "MM", "RM"],
    ["LB", "MB", "RB"]
  ]

  /** Java's `int` division, which rounds toward zero. */
  function TruncDiv(a: int, b: int): (q: int)
    requires b > 0
    ensures a >= 0 ==> q * b <= a < q * b + b
    ensures a < 0 ==> q * b - b < a <= q * b
  {
    if a >= 0 then a / b else -((-a) / b)
  }

  /** Width (or height) of one grid band: `frameWidth / BLOCK_SIZE`. */
  function CellSize(frameDim: int): int {
    TruncDiv(frameDim, BlockSize)
  }

  /** `(int)Math.floor(c / cell)` with the float division of the Java code,
      reduced to whether the result can index `BLOCK_NAMES`: `None` is the
      array-index exception. A zero band makes the quotient NaN when `c` is
      zero (the cast gives 0) and an infinity otherwise (the cast saturates,
      which is out of range either way). */
  function CellIndex(c: real, cell: int): (r: Option<int>)
    ensures r.Some? ==> 0 <= r.value < BlockSize
    ensures cell > 0 ==> (r.Some? <==> 0.0 <= c < (BlockSize * cell) as real)
    ensures cell > 0 && r.Some? ==>
      (r.value * cell) as real <= c < ((r.value + 1) * cell) as real
  {
    if cell == 0 then
      (if c == 0.0 then Some(0) else None)
    else
      var i := (c / cell as real).Floor;
      FloorBand(c, cell);
      BandRange(c, cell, i);
      if 0 <= i < BlockSize then Some(i) else None
  }

  /** For a positive band width, the floor of `c / cell` names the band that contains `c`. */
  lemma FloorBand(c: real, cell: int)
    requires cell != 0
    ensures cell > 0 ==>
      ((c / cell as real).Floor * cell) as real <= c < (((c / cell as real).Floor + 1) * cell) as real
  {
    if cell > 0 {
      var q := c / cell as real;
      var f := q.Floor;
      assert f as real <= q < f as real + 1.0;
      assert q * cell as real == c;
      MulMonotone(f as real, q, cell as real);
      MulStrict(q, f as real + 1.0, cell as real);
      assert (f * cell) as real == f as real * cell as real;
      assert ((f + 1) * cell) as real == (f as real + 1.0) * cell as real;
      calc {
        c;
      ==
        q * cell as real;
      <
        (f as real + 1.0) * cell as real;
      }
    }
  }

  /** A band index is in 0..2 exactly when the coordinate lies in the first three bands. */
  lemma BandRange(c: real, cell: int, f: int)
    ensures cell > 0 && (f * cell) as real <= c < ((f + 1) * cell) as real ==>
      (0 <= f < BlockSize <==> 0.0 <= c < (BlockSize * cell) as real)
  {
    if cell > 0 {
      if f >= BlockSize {
        IntMulMonotone(BlockSize, f, cell);
      } else if f < 0 {
        IntMulMonotone(f + 1, 0, cell);
      } else {
        IntMulMonotone(0, f, cell);
        IntMulMonotone(f + 1, BlockSize, cell);
      }
    }
  }

  lemma IntMulMonotone(a: int, b: int, k: int)
    requires a <= b && k > 0
    ensures a * k <= b * k
  {
  }

  lemma MulMonotone(a: real, b: real, k: real)
    requires a <= b && k > 0.0
    ensures a * k <= b * k
  {
  }

  lemma MulStrict(a: real, b: real, k: real)
    requires a < b && k > 0.0
    ensures a * k < b * k
  {
  }

  /** The region name for a centre `(cx, cy)` in a frame of the given size,
      read as `BLOCK_NAMES[xIndex][BLOCK_SIZE - yIndex - 1]`; `None` when the
      lookup would throw. */
  function Position(cx: real, cy: real, frameWidth: int, frameHeight: int): (r: Option<string>)
    ensures r.Some? <==>
      CellIndex(cx, CellSize(frameWidth)).Some? && CellIndex(cy, CellSize(frameHeight)).Some?
    ensures r.Some? ==>
      var x := CellIndex(cx, CellSize(frameWidth)).value;
      var y := CellIndex(cy, CellSize(frameHeight)).value;
      r.value == ["LMR"[BlockSize - 1 - y], "TMB"[x]]
  {
    match (CellIndex(cx, CellSize(frameWidth)), CellIndex(cy, CellSize(frameHeight)))
    case (Some(x), Some(y)) => Some(BlockNames[x][BlockSize - y - 1])
    case _ => None
  }

  /** The centre of a frame `d` units across falls in the middle band exactly
      when the remainder of `d / 3` is smaller than the band width. */
  lemma CentreBand(d: int)
    requires d >= 0
    ensures CellIndex(d as real / 2.0, CellSize(d)) == Some(1) <==> d % 3 < d / 3
  {
    var q := CellSize(d);
    var c := d as real / 2.0;
    assert q == d / 3;
    if q == 0 {
      assert d % 3 == d;
    } else {
      assert d == 3 * q + d % 3;
      var r := CellIndex(c, q);
      if d % 3 < q {
        assert (q as real) <= c < (2 * q) as real;
        assert r.Some?;
        assert (r.value * q) as real <= c < ((r.value + 1) * q) as real;
        if r.value == 0 {
          assert false;
        } else if r.value == 2 {
          assert false;
        }
      } else {
        assert c >= (2 * q) as real;
      }
    }
  }

  /** Any frame at least 9 by 9 has its exact centre in region "MM". */
  lemma CentreIsMM(frameWidth: int, frameHeight: int)
    requires frameWidth >= 9 && frameHeight >= 9
    ensures Position(frameWidth as real / 2.0, frameHeight as real / 2.0, frameWidth, frameHeight) == Some("MM")
  {
    CentreBand(frameWidth);
    CentreBand(frameHeight);
  }

  /** Smaller frames need not: the centre of an 8 by 8 frame lands in "LB". */
  lemma SmallFrameCentre()
    ensures Position(4.0, 4.0, 8, 8) == Some("LB")
  {
    assert CellSize(8) == 2;
    assert CellIndex(4.0, 2) == Some(2) by {
      assert (4.0 / 2 as real).Floor == 2;
    }
  }
}
