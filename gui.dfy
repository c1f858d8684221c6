/**
 * The GUI of the two 45-degree-rotated LED matrices (src/component/comp_gui.hpp):
 * 5x7 digits drawn through the rotation into the 16x32 composite display,
 * the clock, timer, humidity and temperature screens, and the hourglass
 * view of the two sand grids. Every screen is specified by a pure function
 * of its inputs that yields the new framebuffer; lemmas characterise those
 * framebuffers pixel by pixel.
 */
module Gui {
  import opened Common
  import opened Led
  import SandModel
  import CycleValues

  datatype Orientation = Landscape | Portrait

  datatype Region = Screen0Landscape | Screen1Landscape | Screen0Portrait | Screen1Portrait

  /** static_cast<int>(region). */
  function RegionIndex(region: Region): (k: nat)
    ensures k < 4
  {
    match region
    case Screen0Landscape => 0
    case Screen1Landscape => 1
    case Screen0Portrait => 2
    case Screen1Portrait => 3
  }

  /** REGION_OFFSETS: the logical origin of a two-digit number in each region. */
  const REGION_OFFSETS: seq<(int, int)> := [(-2, 1), (3, -3), (0, 1), (0, 1)]

  /** FONT: the 5x7 bitmaps of the digits 0 to 9, top row first. */
  const FONT: seq<seq<string>> := [
    ["01110", "10001", "10011", "10101", "11001", "10001", "01110"],
    ["00100", "01100", "00100", "00100", "00100", "00100", "01110"],
    ["01110", "10001", "00001", "00010", "00100", "01000", "11111"],
    ["01110", "10001", "00001", "00110", "00001", "10001", "01110"],
    ["00010", "00110", "01010", "10010", "11111", "00010", "00010"],
    ["11111", "10000", "11110", "00001", "00001", "10001", "01110"],
    ["00110", "01000", "10000", "11110", "10001", "10001", "01110"],
    ["11111", "00001", "00010", "00100", "01000", "01000", "01000"],
    ["01110", "10001", "10001", "01110", "10001", "10001", "01110"],
    ["01110", "10001", "10001", "01111", "00001", "00010", "01100"]]

  /** A 5x7 bitmap: seven rows of five characters. */
  predicate Shaped(glyph: seq<string>)
  {
    |glyph| == 7 && forall r :: 0 <= r < 7 ==> |glyph[r]| == 5
  }

  /** A glyph of FONT: seven rows of five characters, each '0' or '1'. */
  predicate IsGlyph(glyph: seq<string>)
  {
    Shaped(glyph) && forall r, c :: 0 <= r < 7 && 0 <= c < 5 ==> glyph[r][c] == '0' || glyph[r][c] == '1'
  }

  /** Every one of the ten glyphs is a well-formed 5x7 bitmap. */
  lemma FontWellFormed(d: nat)
    requires d < 10
    ensures |FONT| == 10 && IsGlyph(FONT[d])
  {
  }

  /** Whether logical cell (dx, dy) of a glyph is lit; the bitmap's top row is dy = 6. */
  predicate Lit(glyph: seq<string>, dx: int, dy: int)
  {
    0 <= dx < 5 && 0 <= dy < 7 && 6 - dy < |glyph| && dx < |glyph[6 - dy]| && glyph[6 - dy][dx] == '1'
  }

  /** The row and column offsets PlotRotated45 adds for a region in an orientation. */
  function Offset(o: Orientation, region: Region): (int, int)
  {
    if o != Landscape then (0, if region == Screen0Portrait then 8 else if region == Screen1Portrait then 24 else 0)
    else (if region == Screen0Landscape then 8 else 0, if region == Screen1Landscape then 16 else 0)
  }

  /** The 45-degree transform of PlotRotated45: logical (lx, ly) to matrix (row, col). */
  function Rotate(o: Orientation, region: Region, lx: int, ly: int): (int, int)
  {
    var (dr, dc) := Offset(o, region);
    if o != Landscape then (lx + ly + dr, -lx + ly + dc) else (lx - ly + dr, lx + ly + dc)
  }

  /**
   * The inverse transform: the logical point that lands on matrix (row, col),
   * if any. Only positions whose coordinates have the right parity are reached.
   */
  function Unrotate(o: Orientation, region: Region, row: int, col: int): Option<(int, int)>
  {
    var (dr, dc) := Offset(o, region);
    var r, c := row - dr, col - dc;
    if (r + c) % 2 != 0 then None
    else if o != Landscape then Some(((r - c) / 2, (r + c) / 2))
    else Some(((r + c) / 2, (c - r) / 2))
  }

  /** Rotate and Unrotate are inverse: the transform is injective. */
  lemma RotateInverse(o: Orientation, region: Region, lx: int, ly: int, row: int, col: int)
    ensures Rotate(o, region, lx, ly) == (row, col) <==> Unrotate(o, region, row, col) == Some((lx, ly))
  {
    var (dr, dc) := Offset(o, region);
    var r, c := row - dr, col - dc;
    if Rotate(o, region, lx, ly) == (row, col) {
      if o != Landscape {
        assert r + c == 2 * ly && r - c == 2 * lx;
      } else {
        assert r + c == 2 * lx && c - r == 2 * ly;
      }
    }
    if Unrotate(o, region, row, col) == Some((lx, ly)) {
      assert (r + c) % 2 == 0;
      var h := (r + c) / 2;
      assert r + c == 2 * h;
      if o != Landscape {
        assert r - c == 2 * (h - c);
      } else {
        assert c - r == 2 * (h - r);
      }
    }
  }

  /** The logical glyph cell, relative to (leftX, topY), that lands on matrix (row, col). */
  function CellOf(o: Orientation, region: Region, leftX: int, topY: int, row: int, col: int): Option<(int, int)>
  {
    match Unrotate(o, region, row, col)
    case None => None
    case Some(p) => Some((p.0 - leftX, p.1 - topY))
  }

  /** Whether a glyph drawn at (leftX, topY) lights matrix (row, col): the reference for DrawDigit. */
  predicate Covers(o: Orientation, region: Region, leftX: int, topY: int, glyph: seq<string>, row: int, col: int)
  {
    var cell := CellOf(o, region, leftX, topY, row, col);
    cell.Some? && Lit(glyph, cell.value.0, cell.value.1)
  }

  /** The framebuffer after PlotRotated45: pixels off the 16x32 matrix are dropped. */
  function PlotValue(f: seq<seq<bv8>>, o: Orientation, region: Region, lx: int, ly: int, on: bool): (g: seq<seq<bv8>>)
    requires IsFrame(f, |f|)
    ensures IsFrame(g, |f|)
  {
    var (row, col) := Rotate(o, region, lx, ly);
    if 0 <= row < 16 && 0 <= col < 32 then DrawMatrixValue(f, row, col, on) else f
  }

  /** PlotRotated45 changes exactly the matrix pixel its transform lands on, if that is on the display. */
  lemma PlotEffect(f: seq<seq<bv8>>, o: Orientation, region: Region, lx: int, ly: int, on: bool, row: nat, col: nat)
    requires IsFrame(f, 8) && row < 16 && col < 32
    ensures MatrixPixel(PlotValue(f, o, region, lx, ly, on), row, col)
      == if Rotate(o, region, lx, ly) == (row, col) then on else MatrixPixel(f, row, col)
  {
    var (r, c) := Rotate(o, region, lx, ly);
    if 0 <= r < 16 && 0 <= c < 32 {
      DrawMatrixEffect(f, r, c, on, row, col);
    }
  }

  /**
   * The framebuffer after the cells of one glyph row that lie left of
   * logical x = lx are plotted; the row sits at logical y = ly from x = leftX
   * on, and cell x is lit when row[x - leftX] is '1'.
   */
  function RowValue(f: seq<seq<bv8>>, o: Orientation, region: Region, leftX: int, ly: int, row: string, lx: int): (g: seq<seq<bv8>>)
    requires IsFrame(f, |f|) && |row| == 5 && leftX <= lx <= leftX + 5
    ensures IsFrame(g, |f|)
    decreases lx - leftX
  {
    if lx == leftX then f
    else
      var g := RowValue(f, o, region, leftX, ly, row, lx - 1);
      if row[lx - 1 - leftX] == '1' then PlotValue(g, o, region, lx - 1, ly, true) else g
  }

  /** The glyph row drawn at logical y = ly when the bottom row sits at topY (the bitmap lists the top row first). */
  function GlyphRow(glyph: seq<string>, topY: int, ly: int): (row: string)
    requires Shaped(glyph) && topY <= ly < topY + 7
    ensures |row| == 5
  {
    glyph[6 - (ly - topY)]
  }

  /** The framebuffer after the glyph rows below logical y = ly are plotted, bottom row first. */
  function DigitRows(f: seq<seq<bv8>>, o: Orientation, region: Region, leftX: int, topY: int, glyph: seq<string>, ly: int): (g: seq<seq<bv8>>)
    requires IsFrame(f, |f|) && Shaped(glyph) && topY <= ly <= topY + 7
    ensures IsFrame(g, |f|)
    decreases ly - topY
  {
    if ly == topY then f
    else RowValue(DigitRows(f, o, region, leftX, topY, glyph, ly - 1), o, region, leftX, ly - 1, GlyphRow(glyph, topY, ly - 1), leftX + 5)
  }

  /** The framebuffer after DrawDigit. */
  function DigitValue(f: seq<seq<bv8>>, o: Orientation, region: Region, leftX: int, topY: int, glyph: seq<string>): (g: seq<seq<bv8>>)
    requires IsFrame(f, |f|) && Shaped(glyph)
    ensures IsFrame(g, |f|)
  {
    DigitRows(f, o, region, leftX, topY, glyph, topY + 7)
  }

  /** The cell CellOf finds for a matrix position is the one whose transform lands there. */
  lemma CellOfRotate(o: Orientation, region: Region, leftX: int, topY: int, dx: int, dy: int, row: int, col: int)
    ensures CellOf(o, region, leftX, topY, row, col) == Some((dx, dy)) <==> Rotate(o, region, leftX + dx, topY + dy) == (row, col)
  {
    RotateInverse(o, region, leftX + dx, topY + dy, row, col);
  }

  /** Plotting cell lx - 1 of a row adds the matrix pixel it lands on, if that cell is lit. */
  lemma RowStep(f: seq<seq<bv8>>, o: Orientation, region: Region, leftX: int, ly: int, row: string, lx: int, r: nat, c: nat)
    requires IsFrame(f, 8) && |row| == 5 && leftX < lx <= leftX + 5 && r < 16 && c < 32
    ensures MatrixPixel(RowValue(f, o, region, leftX, ly, row, lx), r, c)
      == (MatrixPixel(RowValue(f, o, region, leftX, ly, row, lx - 1), r, c)
          || (Rotate(o, region, lx - 1, ly) == (r, c) && row[lx - 1 - leftX] == '1'))
  {
    if row[lx - 1 - leftX] == '1' {
      PlotEffect(RowValue(f, o, region, leftX, ly, row, lx - 1), o, region, lx - 1, ly, true, r, c);
    }
  }

  /** Whether logical point p is a lit cell of a glyph row at y = ly, left of x = lx. */
  predicate InRow(row: string, leftX: int, ly: int, lx: int, p: Option<(int, int)>)
    requires |row| == 5
  {
    p.Some? && p.value.1 == ly && leftX <= p.value.0 < lx && p.value.0 < leftX + 5 && row[p.value.0 - leftX] == '1'
  }

  /** Whether logical point p is a lit cell of the glyph rows below y = ly. */
  predicate InRows(glyph: seq<string>, leftX: int, topY: int, ly: int, p: Option<(int, int)>)
  {
    p.Some? && p.value.1 < ly && Lit(glyph, p.value.0 - leftX, p.value.1 - topY)
  }

  /** Part of a row drawn: lit pixels are the old ones plus those of the row's lit cells left of lx. */
  lemma {:induction false} RowPixels(f: seq<seq<bv8>>, o: Orientation, region: Region, leftX: int, ly: int, row: string, lx: int, r: nat, c: nat)
    requires IsFrame(f, 8) && |row| == 5 && leftX <= lx <= leftX + 5 && r < 16 && c < 32
    ensures MatrixPixel(RowValue(f, o, region, leftX, ly, row, lx), r, c)
      == (MatrixPixel(f, r, c) || InRow(row, leftX, ly, lx, Unrotate(o, region, r, c)))
    decreases lx - leftX
  {
    if lx > leftX {
      RowPixels(f, o, region, leftX, ly, row, lx - 1, r, c);
      RowStep(f, o, region, leftX, ly, row, lx, r, c);
      RotateInverse(o, region, lx - 1, ly, r, c);
      InRowStep(row, leftX, ly, lx, Unrotate(o, region, r, c));
    }
  }

  lemma InRowStep(row: string, leftX: int, ly: int, lx: int, p: Option<(int, int)>)
    requires |row| == 5 && leftX < lx <= leftX + 5
    ensures InRow(row, leftX, ly, lx, p) == (InRow(row, leftX, ly, lx - 1, p) || (p == Some((lx - 1, ly)) && row[lx - 1 - leftX] == '1'))
  {
  }

  /** The rows below ly drawn: lit pixels are the old ones plus those of the lit cells of those rows. */
  lemma {:induction false} RowsPixels(f: seq<seq<bv8>>, o: Orientation, region: Region, leftX: int, topY: int, glyph: seq<string>, ly: int, r: nat, c: nat)
    requires IsFrame(f, 8) && Shaped(glyph) && topY <= ly <= topY + 7 && r < 16 && c < 32
    ensures MatrixPixel(DigitRows(f, o, region, leftX, topY, glyph, ly), r, c)
      == (MatrixPixel(f, r, c) || InRows(glyph, leftX, topY, ly, Unrotate(o, region, r, c)))
    decreases ly - topY
  {
    if ly > topY {
      RowsPixels(f, o, region, leftX, topY, glyph, ly - 1, r, c);
      RowPixels(DigitRows(f, o, region, leftX, topY, glyph, ly - 1), o, region, leftX, ly - 1, GlyphRow(glyph, topY, ly - 1), leftX + 5, r, c);
    }
  }

  /**
   * DrawDigit only turns pixels on, and it lights exactly the matrix pixels
   * whose logical cell is lit in the glyph.
   */
  lemma DigitPixels(f: seq<seq<bv8>>, o: Orientation, region: Region, leftX: int, topY: int, glyph: seq<string>, row: nat, col: nat)
    requires IsFrame(f, 8) && Shaped(glyph) && row < 16 && col < 32
    ensures MatrixPixel(DigitValue(f, o, region, leftX, topY, glyph), row, col)
      == (MatrixPixel(f, row, col) || Covers(o, region, leftX, topY, glyph, row, col))
  {
    RowsPixels(f, o, region, leftX, topY, glyph, topY + 7, row, col);
    CoversInRows(o, region, leftX, topY, glyph, row, col);
  }

  lemma CoversInRows(o: Orientation, region: Region, leftX: int, topY: int, glyph: seq<string>, row: int, col: int)
    ensures Covers(o, region, leftX, topY, glyph, row, col) == InRows(glyph, leftX, topY, topY + 7, Unrotate(o, region, row, col))
  {
  }

  /** The two digits Draw shows for a value: its tens and ones, so values from 100 up lose their hundreds. */
  function Digits(value: nat): (d: (nat, nat))
    ensures d.0 < 10 && d.1 < 10
    ensures d.0 * 10 + d.1 == value % 100
  {
    ((value / 10) % 10, value % 10)
  }

  /** The glyph of the value's tens digit. */
  function TensGlyph(value: nat): (g: seq<string>)
    ensures IsGlyph(g)
  {
    FontWellFormed(Digits(value).0);
    FONT[Digits(value).0]
  }

  /** The glyph of the value's ones digit. */
  function OnesGlyph(value: nat): (g: seq<string>)
    ensures IsGlyph(g)
  {
    FontWellFormed(Digits(value).1);
    FONT[Digits(value).1]
  }

  /** The logical column where a region's number starts. */
  function OriginX(region: Region): int
  {
    REGION_OFFSETS[RegionIndex(region)].0
  }

  /** The logical row where a region's number starts. */
  function OriginY(region: Region): int
  {
    REGION_OFFSETS[RegionIndex(region)].1
  }

  /** The framebuffer after Draw(region, value). */
  function DrawValue(f: seq<seq<bv8>>, o: Orientation, region: Region, value: nat): (g: seq<seq<bv8>>)
    requires IsFrame(f, |f|)
    ensures IsFrame(g, |f|)
  {
    PairValue(f, o, region, OriginX(region), OriginY(region), TensGlyph(value), OnesGlyph(value))
  }

  /** Whether Draw(region, value) lights matrix (row, col): a pixel of its tens glyph or of its ones glyph. */
  predicate Shows(o: Orientation, region: Region, value: nat, row: int, col: int)
  {
    || Covers(o, region, OriginX(region), OriginY(region), TensGlyph(value), row, col)
    || Covers(o, region, OriginX(region) + 5, OriginY(region), OnesGlyph(value), row, col)
  }

  /** Two glyphs side by side, the second five columns right of the first. */
  function PairValue(f: seq<seq<bv8>>, o: Orientation, region: Region, baseX: int, baseY: int, tens: seq<string>, ones: seq<string>): (g: seq<seq<bv8>>)
    requires IsFrame(f, |f|) && Shaped(tens) && Shaped(ones)
    ensures IsFrame(g, |f|)
  {
    DigitValue(DigitValue(f, o, region, baseX, baseY, tens), o, region, baseX + 5, baseY, ones)
  }

  /** Two glyphs side by side: the pixels lit are the old ones and those either glyph covers. */
  lemma PairPixels(f: seq<seq<bv8>>, o: Orientation, region: Region, baseX: int, baseY: int, tens: seq<string>, ones: seq<string>, row: nat, col: nat)
    requires IsFrame(f, 8) && Shaped(tens) && Shaped(ones) && row < 16 && col < 32
    ensures MatrixPixel(PairValue(f, o, region, baseX, baseY, tens, ones), row, col)
      == (MatrixPixel(f, row, col) || Covers(o, region, baseX, baseY, tens, row, col) || Covers(o, region, baseX + 5, baseY, ones, row, col))
  {
    DigitPixels(f, o, region, baseX, baseY, tens, row, col);
    DigitPixels(DigitValue(f, o, region, baseX, baseY, tens), o, region, baseX + 5, baseY, ones, row, col);
  }

  /** Draw lights the old pixels plus those of the tens glyph at the region's origin and the ones glyph five to its right. */
  lemma DrawPixels(f: seq<seq<bv8>>, o: Orientation, region: Region, value: nat, row: nat, col: nat)
    requires IsFrame(f, 8) && row < 16 && col < 32
    ensures MatrixPixel(DrawValue(f, o, region, value), row, col) == (MatrixPixel(f, row, col) || Shows(o, region, value, row, col))
  {
    PairPixels(f, o, region, OriginX(region), OriginY(region), TensGlyph(value), OnesGlyph(value), row, col);
  }

  /** A chip pixel is the matrix pixel MatrixOrigin places it at. */
  lemma ChipPixel(f: seq<seq<bv8>>, chip: nat, r: nat, k: nat)
    requires IsFrame(f, 8) && chip < 8 && r < 8 && k < 8
    ensures MatrixOrigin(chip, r, k).0 < 16 && MatrixOrigin(chip, r, k).1 < 32
    ensures Pixel(f, chip, r, k) == MatrixPixel(f, MatrixOrigin(chip, r, k).0, MatrixOrigin(chip, r, k).1)
  {
    MatrixBackward(chip, r, k);
  }

  /** The framebuffer after the first l pixels of row k of one 8x8 block of a 16x16 bitmap are copied to a chip. */
  function BlockRow(f: seq<seq<bv8>>, bits: seq<seq<bool>>, chip: nat, i: nat, j: nat, k: nat, l: nat): (g: seq<seq<bv8>>)
    requires IsFrame(f, |f|) && SandModel.IsGrid(bits) && i < 2 && j < 2 && k < 8 && l <= 8
    ensures IsFrame(g, |f|)
  {
    if l == 0 then f
    else DrawPixelValue(BlockRow(f, bits, chip, i, j, k, l - 1), chip, k, l - 1, bits[k + i * 8][l - 1 + j * 8])
  }

  /** The framebuffer after the first k rows of block (i, j) are copied to a chip. */
  function Block(f: seq<seq<bv8>>, bits: seq<seq<bool>>, chip: nat, i: nat, j: nat, k: nat): (g: seq<seq<bv8>>)
    requires IsFrame(f, |f|) && SandModel.IsGrid(bits) && i < 2 && j < 2 && k <= 8
    ensures IsFrame(g, |f|)
  {
    if k == 0 then f
    else BlockRow(Block(f, bits, chip, i, j, k - 1), bits, chip, i, j, k - 1, 8)
  }

  /** The block (i, j) of a 16x16 bitmap drawn on chip base + b: block b in row-major order, b = 2i + j. */
  function BlockOf(b: nat): (ij: (nat, nat))
    requires b < 4
    ensures ij.0 < 2 && ij.1 < 2 && 2 * ij.0 + ij.1 == b
  {
    if b == 0 then (0, 0) else if b == 1 then (0, 1) else if b == 2 then (1, 0) else (1, 1)
  }

  /** The framebuffer after the first b of the four blocks are copied to chips base to base + b - 1. */
  function Blit(f: seq<seq<bv8>>, bits: seq<seq<bool>>, base: nat, b: nat): (g: seq<seq<bv8>>)
    requires IsFrame(f, |f|) && SandModel.IsGrid(bits) && b <= 4
    ensures IsFrame(g, |f|)
  {
    if b == 0 then f
    else Block(Blit(f, bits, base, b - 1), bits, base + b - 1, BlockOf(b - 1).0, BlockOf(b - 1).1, 8)
  }

  lemma {:induction false} BlockRowPixels(f: seq<seq<bv8>>, bits: seq<seq<bool>>, chip: nat, i: nat, j: nat, k: nat, l: nat, c: nat, r: nat, q: nat)
    requires IsFrame(f, |f|) && SandModel.IsGrid(bits) && i < 2 && j < 2 && k < 8 && l <= 8
    requires chip < |f| && c < |f| && r < 8 && q < 8
    ensures Pixel(BlockRow(f, bits, chip, i, j, k, l), c, r, q)
      == if c == chip && r == k && q < l then bits[k + i * 8][q + j * 8] else Pixel(f, c, r, q)
  {
    if l > 0 {
      BlockRowPixels(f, bits, chip, i, j, k, l - 1, c, r, q);
      DrawPixelEffect(BlockRow(f, bits, chip, i, j, k, l - 1), chip, k, l - 1, bits[k + i * 8][l - 1 + j * 8], c, r, q);
    }
  }

  lemma {:induction false} BlockPixels(f: seq<seq<bv8>>, bits: seq<seq<bool>>, chip: nat, i: nat, j: nat, k: nat, c: nat, r: nat, q: nat)
    requires IsFrame(f, |f|) && SandModel.IsGrid(bits) && i < 2 && j < 2 && k <= 8
    requires chip < |f| && c < |f| && r < 8 && q < 8
    ensures Pixel(Block(f, bits, chip, i, j, k), c, r, q)
      == if c == chip && r < k then bits[r + i * 8][q + j * 8] else Pixel(f, c, r, q)
  {
    if k > 0 {
      BlockPixels(f, bits, chip, i, j, k - 1, c, r, q);
      BlockRowPixels(Block(f, bits, chip, i, j, k - 1), bits, chip, i, j, k - 1, 8, c, r, q);
    }
  }

  /** Copying block b - 1 changes exactly chip base + b - 1. */
  lemma BlitStep(f: seq<seq<bv8>>, bits: seq<seq<bool>>, base: nat, b: nat, c: nat, r: nat, q: nat)
    requires IsFrame(f, |f|) && SandModel.IsGrid(bits) && 0 < b <= 4 && base + 4 <= |f|
    requires c < |f| && r < 8 && q < 8
    ensures Pixel(Blit(f, bits, base, b), c, r, q)
      == if c == base + b - 1 then bits[r + BlockOf(b - 1).0 * 8][q + BlockOf(b - 1).1 * 8] else Pixel(Blit(f, bits, base, b - 1), c, r, q)
  {
    BlockPixels(Blit(f, bits, base, b - 1), bits, base + b - 1, BlockOf(b - 1).0, BlockOf(b - 1).1, 8, c, r, q);
  }

  /**
   * After the first b blocks: pixel (r, q) of chip base + 2i + j shows bitmap
   * cell (r + 8i, q + 8j); every other chip is as it was.
   */
  lemma {:induction false} BlitPixels(f: seq<seq<bv8>>, bits: seq<seq<bool>>, base: nat, b: nat, c: nat, r: nat, q: nat)
    requires IsFrame(f, |f|) && SandModel.IsGrid(bits) && b <= 4 && base + 4 <= |f|
    requires c < |f| && r < 8 && q < 8
    ensures Pixel(Blit(f, bits, base, b), c, r, q)
      == if base <= c < base + b then bits[r + BlockOf(c - base).0 * 8][q + BlockOf(c - base).1 * 8] else Pixel(f, c, r, q)
  {
    if b > 0 {
      BlitStep(f, bits, base, b, c, r, q);
      if c != base + b - 1 {
        BlitPixels(f, bits, base, b - 1, c, r, q);
      }
    }
  }

  /** Sixteen rows of sixteen characters. */
  predicate IconShaped(rows: seq<string>)
  {
    |rows| == 16 && forall y :: 0 <= y < 16 ==> |rows[y]| == 16
  }

  /** A 16x16 icon given as rows of '0' and '1'. */
  function Bitmap(rows: seq<string>): (bits: seq<seq<bool>>)
    requires IconShaped(rows)
    ensures SandModel.IsGrid(bits)
    ensures forall y, x :: 0 <= y < 16 && 0 <= x < 16 ==> bits[y][x] == (rows[y][x] == '1')
  {
    seq(16, y requires 0 <= y < 16 => seq(16, x requires 0 <= x < 16 => rows[y][x] == '1'))
  }

  /** The droplet icon of RenderHumidity. */
  const HUMIDITY_ROWS: seq<string> := [
    "0110000000000000",
    "1001000000000000",
    "1001000000000000",
    "0110100010110000",
    "0001101000001000",
    "0000000000000000",
    "0000100000000100",
    "0000000000000000",
    "0001000000000000",
    "0000000000000010",
    "0001000000000010",
    "0001000000000010",
    "0000100000000010",
    "0000001000000010",
    "0000000000111110",
    "0000000000000000"]

  /** The thermometer icon of RenderTemperature. */
  const TEMPERATURE_ROWS: seq<string> := [
    "0011100000000000",
    "0100010000001000",
    "1001001000001000",
    "1011101000110010",
    "1001001001000010",
    "0100010001001100",
    "0011101100010000",
    "0000001110010000",
    "0000000111000000",
    "0000100010100000",
    "0000100001010000",
    "0011001000101000",
    "0100001000010100",
    "0100110000001010",
    "0001000000000110",
    "0001000000000000"]

  lemma IconsShaped()
    ensures IconShaped(HUMIDITY_ROWS) && IconShaped(TEMPERATURE_ROWS)
  {
  }

  /** RenderHumidity's screen. */
  function HumidityFrame(humidity: nat): (f: seq<seq<bv8>>)
  {
    IconsShaped();
    IconFrame(HUMIDITY_ROWS, humidity)
  }

  /** RenderTemperature's screen. */
  function TemperatureFrame(temperature: nat): (f: seq<seq<bv8>>)
  {
    IconsShaped();
    IconFrame(TEMPERATURE_ROWS, temperature)
  }

  /** The framebuffer after DrawPixel(chip, row, col, true) for each listed pixel in turn. */
  function Dots(f: seq<seq<bv8>>, pts: seq<(nat, nat, nat)>): (g: seq<seq<bv8>>)
    requires IsFrame(f, |f|)
    ensures IsFrame(g, |f|)
  {
    if |pts| == 0 then f
    else
      var (c, r, k) := pts[|pts| - 1];
      DrawPixelValue(Dots(f, pts[..|pts| - 1]), c, r, k, true)
  }

  lemma DotsSnoc(f: seq<seq<bv8>>, pts: seq<(nat, nat, nat)>, i: nat)
    requires IsFrame(f, |f|) && i < |pts|
    ensures Dots(f, pts[..i + 1]) == DrawPixelValue(Dots(f, pts[..i]), pts[i].0, pts[i].1, pts[i].2, true)
  {
    assert pts[..i + 1][..i] == pts[..i];
  }

  /** The listed pixels are lit in addition to the old ones, and nothing else changes. */
  lemma {:induction false} DotsPixels(f: seq<seq<bv8>>, pts: seq<(nat, nat, nat)>, c: nat, r: nat, k: nat)
    requires IsFrame(f, |f|) && c < |f| && r < 8 && k < 8
    ensures Pixel(Dots(f, pts), c, r, k) == (Pixel(f, c, r, k) || (c, r, k) in pts)
  {
    if |pts| > 0 {
      var init, last := pts[..|pts| - 1], pts[|pts| - 1];
      DotsPixels(f, init, c, r, k);
      DrawPixelEffect(Dots(f, init), last.0, last.1, last.2, true, c, r, k);
      assert pts == init + [last];
    }
  }

  /** Whether a listed chip pixel sits at matrix (row, col). */
  predicate ListedAt(pts: seq<(nat, nat, nat)>, row: nat, col: nat)
    requires row < 16 && col < 32
  {
    MatrixForward(row, col);
    (MatrixChip(row, col), row % 8, col % 8) in pts
  }

  /** The colon of the landscape clock: one pixel of chip 3 in each screen half. */
  const LANDSCAPE_COLON: seq<(nat, nat, nat)> := [(3, 7, 4), (3, 4, 7)]

  /** The colon of the portrait clock, on chips 4 and 0. */
  const PORTRAIT_COLON: seq<(nat, nat, nat)> := [
    (4, 2, 0), (4, 3, 1), (4, 4, 2), (4, 2, 2), (4, 0, 2), (4, 1, 3), (4, 2, 4),
    (0, 4, 0), (0, 4, 1), (0, 4, 2), (0, 3, 2), (0, 2, 2), (0, 2, 3), (0, 2, 4), (0, 1, 4), (0, 0, 4)]

  /** The portrait timer's separator in odd seconds, on chip 4. */
  const PORTRAIT_ODD: seq<(nat, nat, nat)> := [
    (4, 4, 0), (4, 4, 1), (4, 4, 2), (4, 3, 2), (4, 2, 2), (4, 2, 3), (4, 2, 4), (4, 1, 4), (4, 0, 4)]

  /** The portrait timer's separator in even seconds, on chip 0. */
  const PORTRAIT_EVEN: seq<(nat, nat, nat)> := [(0, 0, 0), (0, 1, 0), (0, 1, 1), (0, 1, 2), (0, 2, 2)]

  /** A cleared screen with the given pixels and two numbers: the shape of every clock screen. */
  function TwoNumbers(pts: seq<(nat, nat, nat)>, o: Orientation, r0: Region, v0: nat, r1: Region, v1: nat): (f: seq<seq<bv8>>)
    ensures IsFrame(f, 8)
  {
    DrawValue(DrawValue(Dots(Blank(8), pts), o, r0, v0), o, r1, v1)
  }

  /** Such a screen lights exactly the listed pixels and those of both numbers. */
  lemma TwoNumbersPixels(pts: seq<(nat, nat, nat)>, o: Orientation, r0: Region, v0: nat, r1: Region, v1: nat, row: nat, col: nat)
    requires row < 16 && col < 32
    ensures MatrixPixel(TwoNumbers(pts, o, r0, v0, r1, v1), row, col)
      == (ListedAt(pts, row, col) || Shows(o, r0, v0, row, col) || Shows(o, r1, v1, row, col))
  {
    var g := Dots(Blank(8), pts);
    MatrixForward(row, col);
    DotsPixels(Blank(8), pts, MatrixChip(row, col), row % 8, col % 8);
    BlankDark(8, MatrixChip(row, col), row % 8, col % 8);
    DrawPixels(g, o, r0, v0, row, col);
    DrawPixels(DrawValue(g, o, r0, v0), o, r1, v1, row, col);
  }

  /** RenderTimeLandscape: the hour on the left half, the minute on the right, a steady colon. */
  function TimeLandscapeFrame(hour: byte, minute: byte): (f: seq<seq<bv8>>)
    ensures IsFrame(f, 8)
  {
    TwoNumbers(LANDSCAPE_COLON, Landscape, Screen0Landscape, hour, Screen1Landscape, minute)
  }

  /** RenderTimeLandscapeMS: minutes and seconds, with the colon shown in odd seconds only. */
  function TimeLandscapeMSFrame(minutes: byte, seconds: byte): (f: seq<seq<bv8>>)
    ensures IsFrame(f, 8)
  {
    TwoNumbers(if seconds % 2 == 1 then LANDSCAPE_COLON else [], Landscape, Screen0Landscape, minutes, Screen1Landscape, seconds)
  }

  /** RenderTimePortrait: the minute on the lower screen, the hour on the upper one, and the colon. */
  function TimePortraitFrame(hour: byte, minute: byte): (f: seq<seq<bv8>>)
    ensures IsFrame(f, 8)
  {
    TwoNumbers(PORTRAIT_COLON, Portrait, Screen0Portrait, minute, Screen1Portrait, hour)
  }

  /** RenderTimePortraitMS: seconds below, minutes above, and a separator that alternates each second. */
  function TimePortraitMSFrame(minutes: byte, seconds: byte): (f: seq<seq<bv8>>)
    ensures IsFrame(f, 8)
  {
    TwoNumbers(if seconds % 2 == 1 then PORTRAIT_ODD else PORTRAIT_EVEN, Portrait, Screen0Portrait, seconds, Screen1Portrait, minutes)
  }

  /** No landscape digit reaches the two colon positions: they have the wrong parity for the transform. */
  lemma LandscapeColonFree(region: Region, leftX: int, topY: int, glyph: seq<string>)
    requires region == Screen0Landscape || region == Screen1Landscape
    ensures !Covers(Landscape, region, leftX, topY, glyph, 15, 12)
    ensures !Covers(Landscape, region, leftX, topY, glyph, 12, 15)
  {
  }

  /** The colon pixels are the matrix positions (15, 12) and (12, 15). */
  lemma LandscapeColonAt(row: nat, col: nat)
    requires row < 16 && col < 32
    ensures ListedAt(LANDSCAPE_COLON, row, col) <==> (row, col) == (15, 12) || (row, col) == (12, 15)
  {
    MatrixForward(row, col);
    var t := (MatrixChip(row, col), row % 8, col % 8);
    if t == (3, 7, 4) {
      assert (row, col) == MatrixOrigin(3, 7, 4) == (15, 12);
    } else if t == (3, 4, 7) {
      assert (row, col) == MatrixOrigin(3, 4, 7) == (12, 15);
    }
    MatrixBackward(3, 7, 4);
    MatrixBackward(3, 4, 7);
  }

  /**
   * The landscape timer's colon blinks: both colon pixels are lit exactly in
   * odd seconds, whatever the numbers shown; the clock's colon is always lit.
   */
  lemma LandscapeColonBlinks(minutes: byte, seconds: byte, hour: byte, minute: byte)
    ensures MatrixPixel(TimeLandscapeMSFrame(minutes, seconds), 15, 12) == (seconds % 2 == 1)
    ensures MatrixPixel(TimeLandscapeMSFrame(minutes, seconds), 12, 15) == (seconds % 2 == 1)
    ensures MatrixPixel(TimeLandscapeFrame(hour, minute), 15, 12) && MatrixPixel(TimeLandscapeFrame(hour, minute), 12, 15)
  {
    var colon: seq<(nat, nat, nat)> := if seconds % 2 == 1 then LANDSCAPE_COLON else [];
    forall v: nat, region | region == Screen0Landscape || region == Screen1Landscape
      ensures !Shows(Landscape, region, v, 15, 12) && !Shows(Landscape, region, v, 12, 15)
    {
      LandscapeColonFree(region, OriginX(region), OriginY(region), TensGlyph(v));
      LandscapeColonFree(region, OriginX(region) + 5, OriginY(region), OnesGlyph(v));
    }
    TwoNumbersPixels(colon, Landscape, Screen0Landscape, minutes, Screen1Landscape, seconds, 15, 12);
    TwoNumbersPixels(colon, Landscape, Screen0Landscape, minutes, Screen1Landscape, seconds, 12, 15);
    TwoNumbersPixels(LANDSCAPE_COLON, Landscape, Screen0Landscape, hour, Screen1Landscape, minute, 15, 12);
    TwoNumbersPixels(LANDSCAPE_COLON, Landscape, Screen0Landscape, hour, Screen1Landscape, minute, 12, 15);
    LandscapeColonAt(15, 12);
    LandscapeColonAt(12, 15);
    MatrixForward(15, 12);
    MatrixForward(12, 15);
  }

  /** Each listed pixel is lit on such a screen: the numbers only add pixels. */
  lemma ListedLit(pts: seq<(nat, nat, nat)>, o: Orientation, r0: Region, v0: nat, r1: Region, v1: nat, c: nat, r: nat, k: nat)
    requires (c, r, k) in pts && c < 8 && r < 8 && k < 8
    ensures Pixel(TwoNumbers(pts, o, r0, v0, r1, v1), c, r, k)
  {
    var (row, col) := MatrixOrigin(c, r, k);
    ChipPixel(TwoNumbers(pts, o, r0, v0, r1, v1), c, r, k);
    MatrixBackward(c, r, k);
    TwoNumbersPixels(pts, o, r0, v0, r1, v1, row, col);
  }

  /** The portrait clock's colon is always lit, whatever the time. */
  lemma PortraitColonLit(hour: byte, minute: byte, c: nat, r: nat, k: nat)
    requires (c, r, k) in PORTRAIT_COLON && c < 8 && r < 8 && k < 8
    ensures Pixel(TimePortraitFrame(hour, minute), c, r, k)
  {
    ListedLit(PORTRAIT_COLON, Portrait, Screen0Portrait, minute, Screen1Portrait, hour, c, r, k);
  }

  /** The portrait timer's separator shows the odd pattern in odd seconds and the even one otherwise. */
  lemma PortraitSeparatorLit(minutes: byte, seconds: byte, c: nat, r: nat, k: nat)
    requires c < 8 && r < 8 && k < 8
    ensures seconds % 2 == 1 && (c, r, k) in PORTRAIT_ODD ==> Pixel(TimePortraitMSFrame(minutes, seconds), c, r, k)
    ensures seconds % 2 != 1 && (c, r, k) in PORTRAIT_EVEN ==> Pixel(TimePortraitMSFrame(minutes, seconds), c, r, k)
  {
    var pts := if seconds % 2 == 1 then PORTRAIT_ODD else PORTRAIT_EVEN;
    if (c, r, k) in pts {
      ListedLit(pts, Portrait, Screen0Portrait, seconds, Screen1Portrait, minutes, c, r, k);
    }
  }

  /** RenderHumidity and RenderTemperature: the icon on chips 4 to 7, the value on the lower screen. */
  function IconFrame(rows: seq<string>, value: nat): (f: seq<seq<bv8>>)
    requires IconShaped(rows)
    ensures IsFrame(f, 8)
  {
    DrawValue(Blit(Blank(8), Bitmap(rows), 4, 4), Portrait, Screen0Portrait, value)
  }

  /** A digit drawn on the lower portrait screen right of the origin stays left of matrix column 16. */
  lemma LowerScreenColumns(leftX: int, glyph: seq<string>, row: int, col: int)
    requires 0 <= leftX && col >= 16
    ensures !Covers(Portrait, Screen0Portrait, leftX, 1, glyph, row, col)
  {
    match CellOf(Portrait, Screen0Portrait, leftX, 1, row, col)
    case None =>
    case Some((dx, dy)) =>
      CellOfRotate(Portrait, Screen0Portrait, leftX, 1, dx, dy, row, col);
  }

  /** Draw in chip terms: a chip pixel is lit afterwards iff it was, or the number covers its matrix position. */
  lemma DrawChipPixel(f: seq<seq<bv8>>, o: Orientation, region: Region, value: nat, c: nat, r: nat, k: nat)
    requires IsFrame(f, 8) && c < 8 && r < 8 && k < 8
    ensures Pixel(DrawValue(f, o, region, value), c, r, k)
      == (Pixel(f, c, r, k) || Shows(o, region, value, MatrixOrigin(c, r, k).0, MatrixOrigin(c, r, k).1))
  {
    var (row, col) := MatrixOrigin(c, r, k);
    ChipPixel(DrawValue(f, o, region, value), c, r, k);
    ChipPixel(f, c, r, k);
    DrawPixels(f, o, region, value, row, col);
  }

  /** The icon alone: chips 4 to 7 hold its four blocks, chips 0 to 3 are dark. */
  lemma IconBlocks(rows: seq<string>, c: nat, r: nat, k: nat)
    requires IconShaped(rows) && c < 8 && r < 8 && k < 8
    ensures Pixel(Blit(Blank(8), Bitmap(rows), 4, 4), c, r, k)
      == (4 <= c && rows[r + BlockOf(c - 4).0 * 8][k + BlockOf(c - 4).1 * 8] == '1')
  {
    BlitPixels(Blank(8), Bitmap(rows), 4, 4, c, r, k);
    BlankDark(8, c, r, k);
  }

  /** The icon's chips: the digits, drawn right of the origin of the lower portrait screen, stay off them. */
  lemma IconUpperChips(rows: seq<string>, value: nat, c: nat, r: nat, k: nat)
    requires IconShaped(rows) && 4 <= c < 8 && r < 8 && k < 8
    ensures Pixel(IconFrame(rows, value), c, r, k) == (rows[r + BlockOf(c - 4).0 * 8][k + BlockOf(c - 4).1 * 8] == '1')
  {
    IconBlocks(rows, c, r, k);
    DrawChipPixel(Blit(Blank(8), Bitmap(rows), 4, 4), Portrait, Screen0Portrait, value, c, r, k);
    var (row, col) := MatrixOrigin(c, r, k);
    assert col >= 16;
    LowerScreenColumns(0, TensGlyph(value), row, col);
    LowerScreenColumns(5, OnesGlyph(value), row, col);
  }

  /** The digit chips: dark under the icon, so lit exactly where the value's digits are. */
  lemma IconLowerChips(rows: seq<string>, value: nat, c: nat, r: nat, k: nat)
    requires IconShaped(rows) && c < 4 && r < 8 && k < 8
    ensures Pixel(IconFrame(rows, value), c, r, k) == Shows(Portrait, Screen0Portrait, value, MatrixOrigin(c, r, k).0, MatrixOrigin(c, r, k).1)
  {
    IconBlocks(rows, c, r, k);
    DrawChipPixel(Blit(Blank(8), Bitmap(rows), 4, 4), Portrait, Screen0Portrait, value, c, r, k);
  }

  /**
   * On the icon screens chips 4 to 7 show the icon untouched, 8x8 block by
   * block, and chips 0 to 3 show exactly the value's digits.
   */
  lemma IconPixels(rows: seq<string>, value: nat, c: nat, r: nat, k: nat)
    requires IconShaped(rows) && c < 8 && r < 8 && k < 8
    ensures 4 <= c ==> Pixel(IconFrame(rows, value), c, r, k) == (rows[r + BlockOf(c - 4).0 * 8][k + BlockOf(c - 4).1 * 8] == '1')
    ensures c < 4 ==>
      (Pixel(IconFrame(rows, value), c, r, k) == Shows(Portrait, Screen0Portrait, value, MatrixOrigin(c, r, k).0, MatrixOrigin(c, r, k).1))
  {
    if 4 <= c {
      IconUpperChips(rows, value, c, r, k);
    } else {
      IconLowerChips(rows, value, c, r, k);
    }
  }

  /** The screen of RenderHourglass: the upper grid on chips 4 to 7, the lower grid on chips 0 to 3. */
  function HourglassFrame(up: seq<seq<bool>>, down: seq<seq<bool>>): (f: seq<seq<bv8>>)
    requires SandModel.IsGrid(up) && SandModel.IsGrid(down)
    ensures IsFrame(f, 8)
  {
    Blit(Blit(Blank(8), up, 4, 4), down, 0, 4)
  }

  /** Every chip pixel of the hourglass shows one grid cell: block 2i + j of each grid on its own chip. */
  lemma HourglassPixels(up: seq<seq<bool>>, down: seq<seq<bool>>, c: nat, r: nat, k: nat)
    requires SandModel.IsGrid(up) && SandModel.IsGrid(down) && c < 8 && r < 8 && k < 8
    ensures Pixel(HourglassFrame(up, down), c, r, k)
      == if 4 <= c then up[r + BlockOf(c - 4).0 * 8][k + BlockOf(c - 4).1 * 8]
         else down[r + BlockOf(c).0 * 8][k + BlockOf(c).1 * 8]
  {
    BlitPixels(Blank(8), up, 4, 4, c, r, k);
    BlitPixels(Blit(Blank(8), up, 4, 4), down, 0, 4, c, r, k);
    BlankDark(8, c, r, k);
  }

  /** Conversely, every grid cell is shown by exactly one chip pixel. */
  lemma HourglassCells(up: seq<seq<bool>>, down: seq<seq<bool>>, y: nat, x: nat)
    requires SandModel.IsGrid(up) && SandModel.IsGrid(down) && y < 16 && x < 16
    ensures Pixel(HourglassFrame(up, down), 4 + 2 * (y / 8) + x / 8, y % 8, x % 8) == up[y][x]
    ensures Pixel(HourglassFrame(up, down), 2 * (y / 8) + x / 8, y % 8, x % 8) == down[y][x]
  {
    var i, j := y / 8, x / 8;
    assert y == y % 8 + i * 8 && x == x % 8 + j * 8;
    assert BlockOf(2 * i + j) == (i, j);
    HourglassPixels(up, down, 4 + 2 * i + j, y % 8, x % 8);
    HourglassPixels(up, down, 2 * i + j, y % 8, x % 8);
  }

  /** The intensity frame SetLight sends to the eight chips: the level limited to 15. */
  function LightCommand(light: bv8): seq<bv8>
  {
    TxFrame(Fill(8, REG_INTENSITY), Fill(8, if light > 0x0F then 0x0F else light))
  }

  /**
   * CompGui: draws on an eight-chip MAX7219 chain and owns the two sand
   * grids of the hourglass. The animation thread's state (sand_enable_,
   * reset_, gravity_deg_) is kept as fields; the thread itself is not part
   * of this model.
   */
  class CompGui {
    const display: Max7219
    var orientation: Orientation
    var sandEnable: bool
    var reset: bool
    const gridUp: SandModel.SandGrid
    const gridDown: SandModel.SandGrid
    var gravityDeg: real

    ghost predicate Valid()
      reads this, gridUp, gridDown
    {
      && display.n == 8 && display.Valid()
      && gridUp.Valid() && gridDown.Valid() && gridUp.grid != gridDown.grid
    }

    /** The constructor keeps the display and orientation; both grids start empty and the sand is off. */
    constructor (display: Max7219, ori: Orientation)
      requires display.n == 8 && display.Valid()
      ensures Valid() && this.display == display && orientation == ori
      ensures !sandEnable && !reset && gravityDeg == 0.0
      ensures fresh(gridUp) && fresh(gridDown) && fresh(gridUp.grid) && fresh(gridDown.grid)
      ensures gridUp.Model() == SandModel.EmptyGrid() && gridDown.Model() == SandModel.EmptyGrid()
    {
      this.display := display;
      orientation := ori;
      sandEnable := false;
      reset := false;
      gravityDeg := 0.0;
      gridUp := new SandModel.SandGrid();
      gridDown := new SandModel.SandGrid();
    }

    method SetOrientation(ori: Orientation)
      modifies this`orientation
      ensures orientation == ori
    {
      orientation := ori;
    }

    method SandEnable()
      modifies this`sandEnable
      ensures sandEnable
    {
      sandEnable := true;
    }

    method SandDisable()
      modifies this`sandEnable
      ensures !sandEnable
    {
      sandEnable := false;
    }

    /** Reset: asks the animation thread to refill the hourglass. */
    method Reset()
      modifies this`reset
      ensures reset
    {
      reset := true;
    }

    method Clear()
      requires Valid()
      modifies display.fb
      ensures display.Frame() == Blank(8)
    {
      display.Clear();
    }

    /** SetLight: brightness 0 to 15, forwarded to the driver. */
    method SetLight(light: bv8)
      requires Valid()
      modifies display`sent
      ensures display.sent == old(display.sent) + [LightCommand(light)]
    {
      display.SetIntensity(light);
    }

    /** PlotRotated45: one logical pixel through the region's transform; off-matrix pixels are dropped. */
    method PlotRotated45(lx: int, ly: int, region: Region, on: bool)
      requires Valid()
      modifies display.fb
      ensures display.Frame() == PlotValue(old(display.Frame()), orientation, region, lx, ly, on)
    {
      var row, col := 0, 0;
      if orientation != Landscape {
        row := lx + ly;
        col := -lx + ly;
        if region == Screen0Portrait {
          col := col + 8;
        } else if region == Screen1Portrait {
          col := col + 24;
        }
      } else {
        row := lx - ly;
        col := lx + ly;
        if region == Screen0Landscape {
          row := row + 8;
        } else if region == Screen1Landscape {
          col := col + 16;
        }
      }
      assert (row, col) == Rotate(orientation, region, lx, ly);
      if row >= 0 && row < 16 && col >= 0 && col < 32 {
        display.DrawPixelMatrix2(row, col, on);
      }
    }

    /** DrawDigit: plots every lit cell of a 5x7 glyph, bottom row first; rows and cells are counted by their logical coordinates. */
    method DrawDigit(leftX: int, topY: int, glyph: seq<string>, region: Region)
      requires Valid() && Shaped(glyph)
      modifies display.fb
      ensures display.Frame() == DigitValue(old(display.Frame()), orientation, region, leftX, topY, glyph)
    {
      ghost var f := display.Frame();
      var ly := topY;
      while ly < topY + 7
        invariant topY <= ly <= topY + 7
        invariant display.Frame() == DigitRows(f, orientation, region, leftX, topY, glyph, ly)
      {
        DrawDigitRow(leftX, ly, GlyphRow(glyph, topY, ly), region);
        ly := ly + 1;
      }
    }

    /** DrawDigit's inner loop: the five cells of one glyph row at logical y = ly, left to right. */
    method DrawDigitRow(leftX: int, ly: int, row: string, region: Region)
      requires Valid() && |row| == 5
      modifies display.fb
      ensures display.Frame() == RowValue(old(display.Frame()), orientation, region, leftX, ly, row, leftX + 5)
    {
      ghost var base := display.Frame();
      var lx := leftX;
      while lx < leftX + 5
        invariant leftX <= lx <= leftX + 5
        invariant display.Frame() == RowValue(base, orientation, region, leftX, ly, row, lx)
      {
        if row[lx - leftX] == '1' {
          PlotRotated45(lx, ly, region, true);
        }
        lx := lx + 1;
      }
    }

    /** Draw: the value's tens and ones digits; negative values are outside the font table. */
    method Draw(region: Region, value: int)
      requires Valid() && 0 <= value
      modifies display.fb
      ensures display.Frame() == DrawValue(old(display.Frame()), orientation, region, value)
    {
      var tens := (value / 10) % 10;
      var ones := value % 10;
      var (baseX, baseY) := REGION_OFFSETS[RegionIndex(region)];
      FontWellFormed(tens);
      FontWellFormed(ones);
      assert FONT[tens] == TensGlyph(value) && FONT[ones] == OnesGlyph(value);
      DrawDigit(baseX, baseY, FONT[tens], region);
      DrawDigit(baseX + 5, baseY, FONT[ones], region);
    }

    /** The source's fixed DrawPixel calls, one per listed pixel, all switched on. */
    method DrawDots(pts: seq<(nat, nat, nat)>)
      requires Valid()
      modifies display.fb
      ensures display.Frame() == Dots(old(display.Frame()), pts)
    {
      ghost var f := display.Frame();
      for i := 0 to |pts|
        invariant display.Frame() == Dots(f, pts[..i])
      {
        DotsSnoc(f, pts, i);
        display.DrawPixel(pts[i].0, pts[i].1, pts[i].2, true);
      }
      assert pts[..|pts|] == pts;
    }

    /** Clears the screen and draws two numbers after the fixed pixels: the common part of the clock screens. */
    method RenderTwo(o: Orientation, pts: seq<(nat, nat, nat)>, r0: Region, v0: byte, r1: Region, v1: byte)
      requires Valid()
      modifies display.fb, this`orientation
      ensures orientation == o
      ensures display.Frame() == TwoNumbers(pts, o, r0, v0, r1, v1)
    {
      Clear();
      SetOrientation(o);
      DrawDots(pts);
      Draw(r0, v0);
      Draw(r1, v1);
    }

    method RenderTimeLandscape(hour: byte, minute: byte)
      requires Valid()
      modifies display.fb, this`orientation
      ensures orientation == Landscape
      ensures display.Frame() == TimeLandscapeFrame(hour, minute)
    {
      RenderTwo(Landscape, LANDSCAPE_COLON, Screen0Landscape, hour, Screen1Landscape, minute);
    }

    method RenderTimeLandscapeMS(minutes: byte, seconds: byte)
      requires Valid()
      modifies display.fb, this`orientation
      ensures orientation == Landscape
      ensures display.Frame() == TimeLandscapeMSFrame(minutes, seconds)
    {
      var colon: seq<(nat, nat, nat)> := [];
      if seconds % 2 == 1 {
        colon := LANDSCAPE_COLON;
      }
      RenderTwo(Landscape, colon, Screen0Landscape, minutes, Screen1Landscape, seconds);
    }

    method RenderTimePortrait(hour: byte, minute: byte)
      requires Valid()
      modifies display.fb, this`orientation
      ensures orientation == Portrait
      ensures display.Frame() == TimePortraitFrame(hour, minute)
    {
      RenderTwo(Portrait, PORTRAIT_COLON, Screen0Portrait, minute, Screen1Portrait, hour);
    }

    method RenderTimePortraitMS(minutes: byte, seconds: byte)
      requires Valid()
      modifies display.fb, this`orientation
      ensures orientation == Portrait
      ensures display.Frame() == TimePortraitMSFrame(minutes, seconds)
    {
      var separator := PORTRAIT_EVEN;
      if seconds % 2 == 1 {
        separator := PORTRAIT_ODD;
      }
      RenderTwo(Portrait, separator, Screen0Portrait, seconds, Screen1Portrait, minutes);
    }

    /** Row k of block (i, j) of a bitmap, pixel by pixel, onto a chip. */
    method DrawBlockRow(bits: seq<seq<bool>>, chip: nat, i: nat, j: nat, k: nat)
      requires Valid() && SandModel.IsGrid(bits) && i < 2 && j < 2 && k < 8
      modifies display.fb
      ensures display.Frame() == BlockRow(old(display.Frame()), bits, chip, i, j, k, 8)
    {
      ghost var f := display.Frame();
      for l := 0 to 8
        invariant display.Frame() == BlockRow(f, bits, chip, i, j, k, l)
      {
        display.DrawPixel(chip, k, l, bits[k + i * 8][l + j * 8]);
      }
    }

    /** Block (i, j) of a 16x16 bitmap onto one chip. */
    method DrawBlock(bits: seq<seq<bool>>, chip: nat, i: nat, j: nat)
      requires Valid() && SandModel.IsGrid(bits) && i < 2 && j < 2
      modifies display.fb
      ensures display.Frame() == Block(old(display.Frame()), bits, chip, i, j, 8)
    {
      ghost var f := display.Frame();
      for k := 0 to 8
        invariant display.Frame() == Block(f, bits, chip, i, j, k)
      {
        DrawBlockRow(bits, chip, i, j, k);
      }
    }

    /** The four blocks of a 16x16 bitmap onto chips base + 2i + j. */
    method DrawBitmap(bits: seq<seq<bool>>, base: nat)
      requires Valid() && SandModel.IsGrid(bits)
      modifies display.fb
      ensures display.Frame() == Blit(old(display.Frame()), bits, base, 4)
    {
      ghost var f := display.Frame();
      for i := 0 to 2
        invariant display.Frame() == Blit(f, bits, base, 2 * i)
      {
        for j := 0 to 2
          invariant display.Frame() == Blit(f, bits, base, 2 * i + j)
        {
          assert BlockOf(2 * i + j) == (i, j);
          DrawBlock(bits, base + 2 * i + j, i, j);
        }
      }
    }

    /** The icon screens: the icon on the upper chips, then the value on the lower screen. */
    method RenderIcon(rows: seq<string>, value: byte)
      requires Valid() && IconShaped(rows)
      modifies display.fb, this`orientation
      ensures orientation == Portrait
      ensures display.Frame() == IconFrame(rows, value)
    {
      Clear();
      SetOrientation(Portrait);
      DrawBitmap(Bitmap(rows), 4);
      Draw(Screen0Portrait, value);
    }

    method RenderHumidity(humidity: byte)
      requires Valid()
      modifies display.fb, this`orientation
      ensures orientation == Portrait
      ensures display.Frame() == HumidityFrame(humidity)
    {
      IconsShaped();
      RenderIcon(HUMIDITY_ROWS, humidity);
    }

    method RenderTemperature(temperature: byte)
      requires Valid()
      modifies display.fb, this`orientation
      ensures orientation == Portrait
      ensures display.Frame() == TemperatureFrame(temperature)
    {
      IconsShaped();
      RenderIcon(TEMPERATURE_ROWS, temperature);
    }

    /** Row k of block (i, j) of a sand grid onto a chip, read cell by cell from the grid. */
    method DrawGridRow(g: SandModel.SandGrid, chip: nat, i: nat, j: nat, k: nat)
      requires Valid() && g.Valid() && i < 2 && j < 2 && k < 8
      modifies display.fb
      ensures display.Frame() == BlockRow(old(display.Frame()), g.Model(), chip, i, j, k, 8)
    {
      ghost var f, m := display.Frame(), g.Model();
      for l := 0 to 8
        invariant g.Model() == m
        invariant display.Frame() == BlockRow(f, m, chip, i, j, k, l)
      {
        display.DrawPixel(chip, k, l, g.grid[k + i * 8, l + j * 8]);
      }
    }

    /** Block (i, j) of a sand grid onto one chip. */
    method DrawGridBlock(g: SandModel.SandGrid, chip: nat, i: nat, j: nat)
      requires Valid() && g.Valid() && i < 2 && j < 2
      modifies display.fb
      ensures display.Frame() == Block(old(display.Frame()), g.Model(), chip, i, j, 8)
    {
      ghost var f := display.Frame();
      for k := 0 to 8
        invariant display.Frame() == Block(f, g.Model(), chip, i, j, k)
      {
        DrawGridRow(g, chip, i, j, k);
      }
    }

    /** The four blocks of a sand grid onto chips base + 2i + j. */
    method DrawGrid(g: SandModel.SandGrid, base: nat)
      requires Valid() && g.Valid()
      modifies display.fb
      ensures display.Frame() == Blit(old(display.Frame()), g.Model(), base, 4)
    {
      ghost var f, m := display.Frame(), g.Model();
      for i := 0 to 2
        invariant g.Model() == m
        invariant display.Frame() == Blit(f, m, base, 2 * i)
      {
        for j := 0 to 2
          invariant g.Model() == m
          invariant display.Frame() == Blit(f, m, base, 2 * i + j)
        {
          assert BlockOf(2 * i + j) == (i, j);
          DrawGridBlock(g, base + 2 * i + j, i, j);
        }
      }
    }

    /** RenderHourglass: the upper grid on chips 4 to 7, the lower on chips 0 to 3; the orientation is left alone. */
    method RenderHourglass(up: SandModel.SandGrid, down: SandModel.SandGrid)
      requires Valid() && up.Valid() && down.Valid()
      modifies display.fb
      ensures display.Frame() == HourglassFrame(up.Model(), down.Model())
    {
      Clear();
      DrawGrid(up, 4);
      DrawGrid(down, 0);
    }
  }
}
