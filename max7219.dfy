/**
 * The MAX7219 LED-matrix driver (src/device/max7219.hpp) for `n` daisy-chained
 * chips: an 8-byte framebuffer per chip, pixel writes, the mapping of the
 * 16x32 composite matrix onto eight chips, and the SPI frames that carry
 * register writes down the chain. The SPI bus is modelled by the sequence of
 * frames sent; chip-select toggling, delays, the ioctl and the mutex are not
 * modelled.
 */
module Led {

  /** Register addresses of the MAX7219 register address map (datasheet Table 2). */
  const REG_NOOP: bv8 := 0x00
  const REG_DIGIT0: bv8 := 0x01
  const REG_DIGIT7: bv8 := 0x08
  const REG_DECODE_MODE: bv8 := 0x09
  const REG_INTENSITY: bv8 := 0x0A
  const REG_SCAN_LIMIT: bv8 := 0x0B
  const REG_SHUTDOWN: bv8 := 0x0C
  const REG_DISPLAY_TEST: bv8 := 0x0F

  /** A framebuffer value: one 8-byte row array per chip. */
  predicate IsFrame(f: seq<seq<bv8>>, n: nat)
  {
    |f| == n && forall i :: 0 <= i < n ==> |f[i]| == 8
  }

  /** 1 << col, by table. */
  function Mask(col: nat): bv8
    requires col < 8
  {
    [0x01, 0x02, 0x04, 0x08, 0x10, 0x20, 0x40, 0x80][col]
  }

  predicate BitOf(b: bv8, col: nat)
    requires col < 8
  {
    b & Mask(col) != 0
  }

  /** `b |= 1 << col` when on, `b &= ~(1 << col)` otherwise. */
  function SetBit(b: bv8, col: nat, on: bool): bv8
    requires col < 8
  {
    if on then b | Mask(col) else b & !Mask(col)
  }

  /** Distinct masks do not overlap, so `|` and `& ~` touch only their own bit. */
  lemma MaskBits(b: bv8, col: nat, k: nat)
    requires col < 8 && k < 8
    ensures (b | Mask(col)) & Mask(k) == (if k == col then Mask(k) else b & Mask(k))
    ensures (b & !Mask(col)) & Mask(k) == (if k == col then 0 else b & Mask(k))
  {
    if k != col {
      assert Mask(col) & Mask(k) == 0 by {
        assert col == 0 || col == 1 || col == 2 || col == 3 || col == 4 || col == 5 || col == 6 || col == 7;
      }
    }
  }

  /** Setting or clearing one bit leaves the other seven as they were. */
  lemma SetBitEffect(b: bv8, col: nat, on: bool, k: nat)
    requires col < 8 && k < 8
    ensures BitOf(SetBit(b, col, on), k) == if k == col then on else BitOf(b, k)
  {
    MaskBits(b, col, k);
  }

  /** Logical pixel (row, col) of a chip: bit col of framebuffer byte 7 - row. */
  predicate Pixel(f: seq<seq<bv8>>, chip: nat, row: nat, col: nat)
    requires IsFrame(f, |f|) && chip < |f| && row < 8 && col < 8
  {
    BitOf(f[chip][7 - row], col)
  }

  /** The framebuffer after DrawPixel(chip, row, col, on). */
  function DrawPixelValue(f: seq<seq<bv8>>, chip: nat, row: nat, col: nat, on: bool): (g: seq<seq<bv8>>)
    requires IsFrame(f, |f|)
    ensures IsFrame(g, |f|)
  {
    if chip >= |f| || row >= 8 || col >= 8 then f
    else f[chip := f[chip][7 - row := SetBit(f[chip][7 - row], col, on)]]
  }

  /**
   * DrawPixel changes the addressed pixel to `on` when chip, row and column
   * are in range, and no other pixel at all.
   */
  lemma DrawPixelEffect(f: seq<seq<bv8>>, chip: nat, row: nat, col: nat, on: bool, c: nat, r: nat, k: nat)
    requires IsFrame(f, |f|) && c < |f| && r < 8 && k < 8
    ensures Pixel(DrawPixelValue(f, chip, row, col, on), c, r, k)
      == if (c, r, k) == (chip, row, col) then on else Pixel(f, c, r, k)
  {
    if chip < |f| && row < 8 && col < 8 {
      if c == chip && r == row {
        SetBitEffect(f[chip][7 - row], col, on, k);
      }
    }
  }

  /** The all-dark framebuffer. */
  function Blank(n: nat): (f: seq<seq<bv8>>)
    ensures IsFrame(f, n)
  {
    seq(n, _ => seq(8, _ => 0 as bv8))
  }

  /** Every pixel of the blank framebuffer is dark. */
  lemma BlankDark(n: nat, c: nat, r: nat, k: nat)
    requires c < n && r < 8 && k < 8
    ensures !Pixel(Blank(n), c, r, k)
  {
    assert Blank(n)[c][7 - r] == 0;
  }

  /** CHIP_INDEX_MAP: the serpentine wiring swaps chips 1 and 2 of every group of four. */
  const CHIP_INDEX_MAP: seq<nat> := [0, 2, 1, 3]

  /** The chip DrawPixelMatrix2 addresses for (row, col) of the 16x32 matrix. */
  function MatrixChip(row: nat, col: nat): nat
  {
    var ci := row / 8 + (col / 8) * 2;
    CHIP_INDEX_MAP[ci % 4] + (ci - ci % 4)
  }

  /** The chip each of the eight 8x8 blocks is wired to, block index row / 8 + (col / 8) * 2. */
  const CHIP_SLOT: seq<nat> := [0, 2, 1, 3, 4, 6, 5, 7]

  /** Where a chip pixel sits on the 16x32 matrix: the inverse of the chip mapping. */
  function MatrixOrigin(chip: nat, r: nat, k: nat): (nat, nat)
    requires chip < 8 && r < 8 && k < 8
  {
    var ci := CHIP_SLOT[chip];
    ((ci % 2) * 8 + r, (ci / 2) * 8 + k)
  }

  /** On the 16x32 matrix the index map amounts to the CHIP_SLOT table. */
  lemma SlotIndex(row: nat, col: nat)
    requires row < 16 && col < 32
    ensures row / 8 + (col / 8) * 2 < 8
    ensures MatrixChip(row, col) == CHIP_SLOT[row / 8 + (col / 8) * 2]
  {
    var ci := row / 8 + (col / 8) * 2;
    assert ci % 4 == if ci < 4 then ci else ci - 4;
  }

  /** CHIP_SLOT swaps chips in pairs, so it is its own inverse. */
  lemma SlotInvolution(ci: nat)
    requires ci < 8
    ensures CHIP_SLOT[ci] < 8 && CHIP_SLOT[CHIP_SLOT[ci]] == ci
    ensures ci % 2 + (ci / 2) * 2 == ci
  {
  }

  lemma Split(x: nat, a: nat, r: nat)
    requires r < 8 && x == a * 8 + r
    ensures x / 8 == a && x % 8 == r
  {
  }

  /** Every pixel of the 16x32 matrix lands on one of the eight chips, and MatrixOrigin finds it again. */
  lemma MatrixForward(row: nat, col: nat)
    requires row < 16 && col < 32
    ensures MatrixChip(row, col) < 8
    ensures MatrixOrigin(MatrixChip(row, col), row % 8, col % 8) == (row, col)
  {
    SlotIndex(row, col);
    var a, b := row / 8, col / 8;
    var ci := a + b * 2;
    SlotInvolution(ci);
    assert ci % 2 == a && ci / 2 == b;
  }

  /** Every pixel of every one of the eight chips is addressed by exactly the matrix position MatrixOrigin gives. */
  lemma MatrixBackward(chip: nat, r: nat, k: nat)
    requires chip < 8 && r < 8 && k < 8
    ensures var (row', col') := MatrixOrigin(chip, r, k);
      row' < 16 && col' < 32 && MatrixChip(row', col') == chip && row' % 8 == r && col' % 8 == k
  {
    var ci := CHIP_SLOT[chip];
    SlotInvolution(chip);
    SlotInvolution(ci);
    var row', col' := (ci % 2) * 8 + r, (ci / 2) * 8 + k;
    Split(row', ci % 2, r);
    Split(col', ci / 2, k);
    SlotIndex(row', col');
  }

  /** The framebuffer after DrawPixelMatrix2(row, col, on). */
  function DrawMatrixValue(f: seq<seq<bv8>>, row: nat, col: nat, on: bool): (g: seq<seq<bv8>>)
    requires IsFrame(f, |f|)
    ensures IsFrame(g, |f|)
  {
    if row >= 16 || col >= 32 then f
    else DrawPixelValue(f, MatrixChip(row, col), row % 8, col % 8, on)
  }

  /** A composite pixel: the chip pixel the 16x32 position maps to, dark when that chip does not exist. */
  predicate MatrixPixel(f: seq<seq<bv8>>, row: nat, col: nat)
    requires IsFrame(f, |f|) && row < 16 && col < 32
  {
    MatrixChip(row, col) < |f| && Pixel(f, MatrixChip(row, col), row % 8, col % 8)
  }

  /** DrawPixelMatrix2 changes exactly the addressed composite pixel, on a chain of eight chips. */
  lemma DrawMatrixEffect(f: seq<seq<bv8>>, row: nat, col: nat, on: bool, row': nat, col': nat)
    requires IsFrame(f, 8) && row' < 16 && col' < 32
    ensures MatrixPixel(DrawMatrixValue(f, row, col, on), row', col')
      == if (row', col') == (row, col) then on else MatrixPixel(f, row', col')
  {
    MatrixForward(row', col');
    if row < 16 && col < 32 {
      MatrixForward(row, col);
      DrawPixelEffect(f, MatrixChip(row, col), row % 8, col % 8, on, MatrixChip(row', col'), row' % 8, col' % 8);
    }
  }

  /**
   * The SPI frame of WriteCommandRaw: one (register, data) pair per chip,
   * the last chip's pair first, since the first bytes shifted in travel
   * furthest down the chain.
   */
  function TxFrame(regs: seq<bv8>, data: seq<bv8>): (t: seq<bv8>)
    requires |regs| == |data|
    ensures |t| == 2 * |regs|
  {
    if |regs| == 0 then []
    else
      var m := |regs| - 1;
      [regs[m], data[m]] + TxFrame(regs[..m], data[..m])
  }

  /** Byte 2i of the frame is chip N-1-i's register, byte 2i+1 its data. */
  lemma {:induction false} TxFrameSlots(regs: seq<bv8>, data: seq<bv8>)
    requires |regs| == |data|
    ensures forall j :: 0 <= j < 2 * |regs| ==>
      TxFrame(regs, data)[j] == if j % 2 == 0 then regs[|regs| - 1 - j / 2] else data[|regs| - 1 - j / 2]
  {
    if |regs| > 0 {
      var m := |regs| - 1;
      TxFrameSlots(regs[..m], data[..m]);
      assert forall j :: 2 <= j < 2 * |regs| ==> (j - 2) / 2 == j / 2 - 1 && (j - 2) % 2 == j % 2;
    }
  }

  /** A frame whose every chip receives the same register and data. */
  function Fill(n: nat, v: bv8): (s: seq<bv8>)
    ensures |s| == n
  {
    seq(n, _ => v)
  }

  /** The frame WriteToChip(index, addr, value) sends: NOOP to every chip but `index`. */
  function ChipFrame(n: nat, index: nat, addr: bv8, value: bv8): seq<bv8>
    requires index < n
  {
    TxFrame(Fill(n, REG_NOOP)[index := addr], Fill(n, 0)[index := value])
  }

  /** Only the slot of chip `index` carries the write; every other slot is NOOP with data 0. */
  lemma ChipFrameSlots(n: nat, index: nat, addr: bv8, value: bv8, i: nat)
    requires index < n && i < n
    ensures |ChipFrame(n, index, addr, value)| == 2 * n
    ensures ChipFrame(n, index, addr, value)[2 * i] == if n - 1 - i == index then addr else REG_NOOP
    ensures ChipFrame(n, index, addr, value)[2 * i + 1] == if n - 1 - i == index then value else 0
  {
    TxFrameSlots(Fill(n, REG_NOOP)[index := addr], Fill(n, 0)[index := value]);
    assert (2 * i) / 2 == i && (2 * i) % 2 == 0;
    assert (2 * i + 1) / 2 == i && (2 * i + 1) % 2 == 1;
  }

  /** Column `row` of the framebuffer: chip i's byte for that row. */
  function Column(f: seq<seq<bv8>>, row: nat): (d: seq<bv8>)
    requires IsFrame(f, |f|) && row < 8
    ensures |d| == |f| && forall i :: 0 <= i < |f| ==> d[i] == f[i][row]
  {
    seq(|f|, i requires 0 <= i < |f| => f[i][row])
  }

  /** The eight frames of Refresh: rows 0 to 7, each to register DIGIT0 + row of every chip. */
  function RefreshFrames(f: seq<seq<bv8>>): (fs: seq<seq<bv8>>)
    requires IsFrame(f, |f|)
    ensures |fs| == 8
  {
    seq(8, r requires 0 <= r < 8 => TxFrame(Fill(|f|, REG_DIGIT0 + r as bv8), Column(f, r)))
  }

  /** In Refresh's frame for row r, slot i addresses DIGIT0 + r of chip n - 1 - i with that chip's byte. */
  lemma RefreshSlots(f: seq<seq<bv8>>, r: nat, i: nat)
    requires IsFrame(f, |f|) && r < 8 && i < |f|
    ensures |RefreshFrames(f)[r]| == 2 * |f|
    ensures RefreshFrames(f)[r][2 * i] == REG_DIGIT0 + r as bv8
    ensures RefreshFrames(f)[r][2 * i + 1] == f[|f| - 1 - i][r]
  {
    TxFrameSlots(Fill(|f|, REG_DIGIT0 + r as bv8), Column(f, r));
    assert (2 * i) / 2 == i && (2 * i) % 2 == 0;
    assert (2 * i + 1) / 2 == i && (2 * i + 1) % 2 == 1;
  }

  lemma AppendAssoc<T>(a: seq<T>, b: seq<T>, c: seq<T>)
    ensures a + b + c == a + (b + c)
  {
  }

  /** The six register writes Initialize sends to one chip. */
  function InitChipFrames(n: nat, i: nat): seq<seq<bv8>>
    requires i < n
  {
    [ChipFrame(n, i, REG_SHUTDOWN, 0x00), ChipFrame(n, i, REG_DISPLAY_TEST, 0x00),
     ChipFrame(n, i, REG_DECODE_MODE, 0x00), ChipFrame(n, i, REG_SCAN_LIMIT, 0x07),
     ChipFrame(n, i, REG_INTENSITY, 0x03), ChipFrame(n, i, REG_SHUTDOWN, 0x01)]
  }

  /** The register writes of Initialize for its first k chips. */
  function InitFrames(n: nat, k: nat): (fs: seq<seq<bv8>>)
    requires k <= n
    ensures |fs| == 6 * k
  {
    if k == 0 then [] else InitFrames(n, k - 1) + InitChipFrames(n, k - 1)
  }

  /** Chip i's shutdown-exit write is the last of its six, after its intensity is set. */
  lemma InitFramesOrder(n: nat, k: nat, i: nat)
    requires i < k <= n
    ensures InitFrames(n, k)[6 * i] == ChipFrame(n, i, REG_SHUTDOWN, 0x00)
    ensures InitFrames(n, k)[6 * i + 4] == ChipFrame(n, i, REG_INTENSITY, 0x03)
    ensures InitFrames(n, k)[6 * i + 5] == ChipFrame(n, i, REG_SHUTDOWN, 0x01)
  {
    if i < k - 1 {
      InitFramesOrder(n, k - 1, i);
    }
  }

  class Max7219 {
    /** N: the number of chips in the chain. */
    const n: nat
    /** framebuffer_: row bytes per chip. */
    const fb: array2<bv8>
    /** The SPI frames sent so far, oldest first. */
    var sent: seq<seq<bv8>>

    ghost predicate Valid()
    {
      fb.Length0 == n && fb.Length1 == 8
    }

    /** The framebuffer as a value. */
    ghost function Frame(): (f: seq<seq<bv8>>)
      reads fb
      requires Valid()
      ensures IsFrame(f, n)
    {
      seq(n, c requires 0 <= c < n reads fb => seq(8, r requires 0 <= r < 8 reads fb => fb[c, r]))
    }

    /** Each byte of the framebuffer value is the array's. */
    lemma FrameCells()
      requires Valid()
      ensures forall c, r :: 0 <= c < n && 0 <= r < 8 ==> Frame()[c][r] == fb[c, r]
    {
    }

    /** The constructor clears the framebuffer. */
    constructor (chips: nat)
      ensures n == chips && Valid() && fresh(fb)
      ensures Frame() == Blank(chips) && sent == []
    {
      n := chips;
      fb := new bv8[chips, 8]((c, r) => 0);
      sent := [];
      new;
      FrameCells();
      FrameExt(Frame(), Blank(chips));
    }

    static lemma FrameExt(f: seq<seq<bv8>>, g: seq<seq<bv8>>)
      requires IsFrame(f, |f|) && IsFrame(g, |f|)
      requires forall c, r :: 0 <= c < |f| && 0 <= r < 8 ==> f[c][r] == g[c][r]
      ensures f == g
    {
      forall c | 0 <= c < |f|
        ensures f[c] == g[c]
      {
      }
    }

    /** Clear: every framebuffer byte becomes 0. */
    method Clear()
      requires Valid()
      modifies fb
      ensures Frame() == Blank(n)
    {
      var c := 0;
      while c < n
        invariant 0 <= c <= n
        invariant forall c', r :: 0 <= c' < c && 0 <= r < 8 ==> fb[c', r] == 0
      {
        var r := 0;
        while r < 8
          invariant 0 <= r <= 8
          invariant forall c', r' :: 0 <= c' < c && 0 <= r' < 8 ==> fb[c', r'] == 0
          invariant forall r' :: 0 <= r' < r ==> fb[c, r'] == 0
        {
          fb[c, r] := 0;
          r := r + 1;
        }
        c := c + 1;
      }
      FrameCells();
      FrameExt(Frame(), Blank(n));
    }

    /** The bit update of DrawPixel on one framebuffer byte. */
    static method UpdateBit(b: bv8, col: nat, on: bool) returns (b': bv8)
      requires col < 8
      ensures b' == SetBit(b, col, on)
      ensures BitOf(b', col) == on
      ensures forall k :: 0 <= k < 8 && k != col ==> BitOf(b', k) == BitOf(b, k)
    {
      if on {
        b' := b | Mask(col);
      } else {
        b' := b & !Mask(col);
      }
      forall k | 0 <= k < 8
        ensures BitOf(b', k) == if k == col then on else BitOf(b, k)
      {
        SetBitEffect(b, col, on, k);
      }
    }

    /** DrawPixel: sets or clears one pixel; out-of-range addresses are ignored. */
    method DrawPixel(chip: nat, row: nat, col: nat, on: bool)
      requires Valid()
      modifies fb
      ensures Frame() == DrawPixelValue(old(Frame()), chip, row, col, on)
    {
      ghost var f := Frame();
      if chip >= n || row >= 8 || col >= 8 {
        return;
      }
      var b := UpdateBit(fb[chip, 7 - row], col, on);
      fb[chip, 7 - row] := b;
      FrameCells();
      FrameExt(Frame(), f[chip := f[chip][7 - row := b]]);
    }

    /** DrawPixelMatrix2: one pixel of the 16x32 composite matrix. */
    method DrawPixelMatrix2(row: nat, col: nat, on: bool)
      requires Valid()
      modifies fb
      ensures Frame() == DrawMatrixValue(old(Frame()), row, col, on)
    {
      if row >= 16 || col >= 32 {
        return;
      }
      var chip := row / 8 + (col / 8) * 2;
      chip := CHIP_INDEX_MAP[chip % 4] + (chip - chip % 4);
      assert chip == MatrixChip(row, col);
      DrawPixel(chip, row % 8, col % 8, on);
    }

    /** WriteCommandRaw: assembles the 2N-byte frame pair by pair and sends it. */
    method WriteCommandRaw(regs: seq<bv8>, data: seq<bv8>)
      requires |regs| == n && |data| == n
      modifies this`sent
      ensures sent == old(sent) + [TxFrame(regs, data)]
    {
      var tx := new bv8[2 * n];
      var i := 0;
      while i < n
        invariant 0 <= i <= n
        invariant sent == old(sent)
        invariant forall j :: 0 <= j < 2 * i ==>
          tx[j] == if j % 2 == 0 then regs[n - 1 - j / 2] else data[n - 1 - j / 2]
      {
        var hw := n - 1 - i;
        tx[i * 2] := regs[hw];
        tx[i * 2 + 1] := data[hw];
        assert (i * 2) / 2 == i && (i * 2 + 1) / 2 == i && (i * 2) % 2 == 0 && (i * 2 + 1) % 2 == 1;
        i := i + 1;
      }
      TxFrameSlots(regs, data);
      assert tx[..] == TxFrame(regs, data);
      sent := sent + [tx[..]];
    }

    /** WriteToChip: one register write to chip `index`, NOOP to all others; nothing when index >= N. */
    method WriteToChip(index: nat, addr: bv8, value: bv8)
      modifies this`sent
      ensures sent == old(sent) + if index < n then [ChipFrame(n, index, addr, value)] else []
    {
      var regs := Fill(n, REG_NOOP);
      var dataAll := Fill(n, 0);
      if index >= n {
        return;
      }
      regs := regs[index := addr];
      dataAll := dataAll[index := value];
      WriteCommandRaw(regs, dataAll);
    }

    /** WriteCommand: one register address for every chip, with per-chip data. */
    method WriteCommand(addr: bv8, data: seq<bv8>)
      requires |data| == n
      modifies this`sent
      ensures sent == old(sent) + [TxFrame(Fill(n, addr), data)]
    {
      WriteCommandRaw(Fill(n, addr), data);
    }

    /** WriteAll: the same register and value to every chip. */
    method WriteAll(addr: bv8, value: bv8)
      modifies this`sent
      ensures sent == old(sent) + [TxFrame(Fill(n, addr), Fill(n, value))]
    {
      WriteCommand(addr, Fill(n, value));
    }

    /** SetIntensity: brightness limited to 15, sent to every chip. */
    method SetIntensity(value: bv8)
      modifies this`sent
      ensures sent == old(sent) + [TxFrame(Fill(n, REG_INTENSITY), Fill(n, if value > 0x0F then 0x0F else value))]
    {
      var v := value;
      if v > 0x0F {
        v := 0x0F;
      }
      WriteAll(REG_INTENSITY, v);
    }

    /** Refresh: for each row, one frame addressing that digit register of every chip. */
    method Refresh()
      requires Valid()
      modifies this`sent
      ensures sent == old(sent) + RefreshFrames(Frame())
    {
      ghost var frames := RefreshFrames(Frame());
      var row := 0;
      while row < 8
        invariant 0 <= row <= 8
        invariant sent == old(sent) + frames[..row]
      {
        var data := new bv8[n];
        var i := 0;
        while i < n
          invariant 0 <= i <= n
          invariant sent == old(sent) + frames[..row]
          invariant forall j :: 0 <= j < i ==> data[j] == fb[j, row]
        {
          data[i] := fb[i, row];
          i := i + 1;
        }
        assert data[..] == Column(Frame(), row);
        WriteCommandRaw(Fill(n, REG_DIGIT0 + row as bv8), data[..]);
        assert frames[..row + 1] == frames[..row] + [frames[row]];
        row := row + 1;
      }
      assert frames[..8] == frames;
    }

    /** The six configuration writes of Initialize for chip i: leave shutdown last, at intensity 3. */
    method InitializeChip(i: nat)
      requires i < n
      modifies this`sent
      ensures sent == old(sent) + InitChipFrames(n, i)
    {
      WriteToChip(i, REG_SHUTDOWN, 0x00);
      WriteToChip(i, REG_DISPLAY_TEST, 0x00);
      WriteToChip(i, REG_DECODE_MODE, 0x00);
      WriteToChip(i, REG_SCAN_LIMIT, 0x07);
      WriteToChip(i, REG_INTENSITY, 0x03);
      WriteToChip(i, REG_SHUTDOWN, 0x01);
    }

    /** Initialize: the six configuration writes to each chip, then a blank frame. */
    method Initialize()
      requires Valid()
      modifies this`sent, fb
      ensures Frame() == Blank(n)
      ensures sent == old(sent) + InitFrames(n, n) + RefreshFrames(Blank(n))
    {
      InitializeChips();
      Clear();
      ghost var configured := sent;
      Refresh();
      assert sent == configured + RefreshFrames(Blank(n));
    }

    /** Initialize's loop: chip after chip, the six configuration writes. */
    method InitializeChips()
      modifies this`sent
      ensures sent == old(sent) + InitFrames(n, n)
    {
      var i := 0;
      while i < n
        invariant 0 <= i <= n
        invariant sent == old(sent) + InitFrames(n, i)
      {
        InitializeChip(i);
        AppendAssoc(old(sent), InitFrames(n, i), InitChipFrames(n, i));
        i := i + 1;
      }
    }

    /** SetLight: the same as SetIntensity. */
    method SetLight(light: bv8)
      modifies this`sent
      ensures sent == old(sent) + [TxFrame(Fill(n, REG_INTENSITY), Fill(n, if light > 0x0F then 0x0F else light))]
    {
      SetIntensity(light);
    }
  }
}
