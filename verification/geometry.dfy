/** Cutting a field screenshot into its 6×6 cells and each cell into the
    centre region whose colour is sampled. All boxes are in the image
    library's crop order (left, upper, right, lower), half-open on the right
    and lower sides. */
module Geometry {

  /** Cells per row and per column of a game field. */
  const CellNumber: nat := 6

  datatype Box = Box(left: int, upper: int, right: int, lower: int)

  /** Whether pixel (x, y) lies in the box. */
  predicate Contains(b: Box, x: int, y: int)
  {
    b.left <= x < b.right && b.upper <= y < b.lower
  }

  /** Width of one cell: leftover columns are dropped. */
  function CellWidth(width: nat): (cw: nat)
    ensures CellNumber * cw <= width < CellNumber * (cw + 1)
  {
    width / CellNumber
  }

  /** Height of one cell: leftover rows are dropped. */
  function CellHeight(height: nat): (ch: nat)
    ensures CellNumber * ch <= height < CellNumber * (ch + 1)
  {
    height / CellNumber
  }

  /** The box of the cell in row h and column w of an image of the given size. */
  function CellBox(width: nat, height: nat, h: nat, w: nat): (b: Box)
    ensures 0 <= b.left && 0 <= b.upper
    ensures b.right - b.left == CellWidth(width) && b.lower - b.upper == CellHeight(height)
  {
    var cw, ch := CellWidth(width), CellHeight(height);
    Box(cw * w, ch * h, cw * (w + 1), ch * (h + 1))
  }

  /** The centre crop relative to a cw × ch cell, with the offsets in the
      order the source passes them: (offset_y, offset_x, cw - offset_x,
      ch - offset_y), where offset_x = cw div 4 and offset_y = ch div 4. */
  function CenterBox(cw: nat, ch: nat): (b: Box)
    ensures 0 <= b.left && b.right <= cw && 0 <= b.upper && b.lower <= ch
    ensures b.right - b.left == cw - cw / 4 - ch / 4
    ensures b.lower - b.upper == ch - ch / 4 - cw / 4
  {
    var offsetX, offsetY := cw / 4, ch / 4;
    Box(offsetY, offsetX, cw - offsetX, ch - offsetY)
  }

  // ---------------------------------------------------------------------
  // Arithmetic helpers
  // ---------------------------------------------------------------------

  lemma {:induction false} MulMonotone(c: nat, a: nat, b: nat)
    requires a <= b
    ensures c * a <= c * b
  {
  }

  /** Integer division by c picks out the unique k with c*k <= x < c*(k+1). */
  lemma {:induction false} DivCharacterisation(x: int, c: nat, k: nat)
    requires c > 0
    ensures (c * k <= x < c * (k + 1)) <==> (0 <= x && x / c == k)
  {
    var q, r := x / c, x % c;
    assert x == c * q + r && 0 <= r < c;
    assert c * (k + 1) == c * k + c;
    assert c * (q + 1) == c * q + c;
    if c * k <= x < c * (k + 1) {
      if q < k {
        MulMonotone(c, q + 1, k);
      } else if q > k {
        MulMonotone(c, k + 1, q);
      }
    }
  }

  // ---------------------------------------------------------------------
  // Cells
  // ---------------------------------------------------------------------

  /** Six cell widths fit in the image and leave fewer than six columns over
      (and likewise for heights). */
  lemma {:induction false} CellSizeBounds(width: nat, height: nat)
    ensures CellNumber * CellWidth(width) <= width < CellNumber * CellWidth(width) + CellNumber
    ensures CellNumber * CellHeight(height) <= height < CellNumber * CellHeight(height) + CellNumber
  {
  }

  /** Each of the 36 cell boxes lies inside the image and measures exactly
      cw × ch. */
  lemma {:induction false} CellBoxInImage(width: nat, height: nat, h: nat, w: nat)
    requires h < CellNumber && w < CellNumber
    ensures var b := CellBox(width, height, h, w);
      0 <= b.left <= b.right <= width && 0 <= b.upper <= b.lower <= height &&
      b.right - b.left == CellWidth(width) && b.lower - b.upper == CellHeight(height)
  {
    var cw, ch := CellWidth(width), CellHeight(height);
    MulMonotone(cw, w + 1, CellNumber);
    MulMonotone(ch, h + 1, CellNumber);
    assert cw * (w + 1) == cw * w + cw;
    assert ch * (h + 1) == ch * h + ch;
    CellSizeBounds(width, height);
  }

  /** A pixel lies in cell (h, w) exactly when it is in the covered area
      [0, 6cw) × [0, 6ch) and h, w are its row and column there. */
  lemma {:induction false} CellContainsIff(width: nat, height: nat, h: nat, w: nat, x: int, y: int)
    requires h < CellNumber && w < CellNumber
    ensures Contains(CellBox(width, height, h, w), x, y) <==>
      (0 <= x < CellNumber * CellWidth(width) && 0 <= y < CellNumber * CellHeight(height) &&
       x / CellWidth(width) == w && y / CellHeight(height) == h)
  {
    var cw, ch := CellWidth(width), CellHeight(height);
    if cw > 0 && ch > 0 {
      DivCharacterisation(x, cw, w);
      DivCharacterisation(y, ch, h);
      if 0 <= x < CellNumber * cw && x / cw == w {
        MulMonotone(cw, w + 1, CellNumber);
      }
      if 0 <= y < CellNumber * ch && y / ch == h {
        MulMonotone(ch, h + 1, CellNumber);
      }
      if Contains(CellBox(width, height, h, w), x, y) {
        MulMonotone(cw, w + 1, CellNumber);
        MulMonotone(ch, h + 1, CellNumber);
      }
    }
  }

  /** Two different cells never share a pixel. */
  lemma {:induction false} CellsDisjoint(width: nat, height: nat, h1: nat, w1: nat, h2: nat, w2: nat, x: int, y: int)
    requires h1 < CellNumber && w1 < CellNumber && h2 < CellNumber && w2 < CellNumber
    requires Contains(CellBox(width, height, h1, w1), x, y)
    requires Contains(CellBox(width, height, h2, w2), x, y)
    ensures h1 == h2 && w1 == w2
  {
    CellContainsIff(width, height, h1, w1, x, y);
    CellContainsIff(width, height, h2, w2, x, y);
  }

  /** A coordinate inside six cells of size c falls in one of them. */
  lemma {:induction false} CoordinateInRange(x: int, c: nat)
    requires 0 <= x < CellNumber * c
    ensures c > 0 && x / c < CellNumber
  {
    if x / c >= CellNumber {
      DivCharacterisation(x, c, x / c);
      MulMonotone(c, CellNumber, x / c);
    }
  }

  /** A pixel of the covered area lies in the cell its coordinates name. */
  lemma {:induction false} PixelInItsCell(width: nat, height: nat, x: int, y: int)
    requires 0 <= x < CellNumber * CellWidth(width) && 0 <= y < CellNumber * CellHeight(height)
    ensures CellWidth(width) > 0 && CellHeight(height) > 0
    ensures y / CellHeight(height) < CellNumber && x / CellWidth(width) < CellNumber
    ensures Contains(CellBox(width, height, y / CellHeight(height), x / CellWidth(width)), x, y)
  {
    CoordinateInRange(x, CellWidth(width));
    CoordinateInRange(y, CellHeight(height));
    CellContainsIff(width, height, y / CellHeight(height), x / CellWidth(width), x, y);
  }

  /** Every pixel of [0, 6cw) × [0, 6ch) lies in some cell; pixels outside
      that area (the leftover columns and rows) lie in none. */
  lemma {:induction false} CellsCover(width: nat, height: nat, x: int, y: int)
    ensures (0 <= x < CellNumber * CellWidth(width) && 0 <= y < CellNumber * CellHeight(height)) <==>
      (exists h: nat, w: nat :: h < CellNumber && w < CellNumber && Contains(CellBox(width, height, h, w), x, y))
  {
    if 0 <= x < CellNumber * CellWidth(width) && 0 <= y < CellNumber * CellHeight(height) {
      PixelInItsCell(width, height, x, y);
      var h: nat, w: nat := y / CellHeight(height), x / CellWidth(width);
      assert h < CellNumber && w < CellNumber && Contains(CellBox(width, height, h, w), x, y);
    }
    if exists h: nat, w: nat :: h < CellNumber && w < CellNumber && Contains(CellBox(width, height, h, w), x, y) {
      var h: nat, w: nat :| h < CellNumber && w < CellNumber && Contains(CellBox(width, height, h, w), x, y);
      CellContainsIff(width, height, h, w, x, y);
    }
  }

  // ---------------------------------------------------------------------
  // Centre crop
  // ---------------------------------------------------------------------

  /** The centre crop never reaches past the cell's right or lower edge nor
      before its left or upper edge; its horizontal margins are ch div 4 on the
      left and cw div 4 on the right, its vertical ones cw div 4 above and
      ch div 4 below, so it is centred exactly when cw div 4 == ch div 4.
      Its left edge passes its right edge when ch div 4 exceeds the width the
      right margin leaves, and likewise vertically: a crop the image library
      refuses. */
  lemma {:induction false} CenterBoxMargins(cw: nat, ch: nat)
    ensures var b := CenterBox(cw, ch);
      0 <= b.left && b.right <= cw && 0 <= b.upper && b.lower <= ch &&
      b.left == ch / 4 && cw - b.right == cw / 4 &&
      b.upper == cw / 4 && ch - b.lower == ch / 4 &&
      ((b.left == cw - b.right && b.upper == ch - b.lower) <==> cw / 4 == ch / 4) &&
      (b.left <= b.right <==> ch / 4 <= cw - cw / 4) &&
      (b.upper <= b.lower <==> cw / 4 <= ch - ch / 4)
  {
  }

  /** For a cell much taller than wide the swapped offsets invert the crop:
      a 4 × 20 cell gives a box whose left edge lies right of its right edge. */
  lemma InvertedCenterBox()
    ensures CenterBox(4, 20) == Box(5, 1, 3, 15)
    ensures CenterBox(4, 20).left > CenterBox(4, 20).right
  {
  }

  /** For a square cell the centre crop lies inside the cell, is centred, and
      each side keeps c - 2*(c div 4) pixels: at least half of the cell. */
  lemma {:induction false} CenterBoxOfSquareCell(c: nat)
    ensures var b := CenterBox(c, c);
      0 <= b.left <= b.right <= c && 0 <= b.upper <= b.lower <= c &&
      b.right - b.left == c - 2 * (c / 4) && b.lower - b.upper == c - 2 * (c / 4) &&
      b.left == c - b.right && b.upper == c - b.lower &&
      2 * (b.right - b.left) >= c
  {
  }
}
