/**
 * Model of the SSD1306 OLED driver: a page-addressed framebuffer with one bit
 * per pixel (eight vertically stacked rows per byte) and the I2C protocol that
 * initialises the controller and flushes the framebuffer to it.
 *
 * Every I2C transaction the driver issues is recorded, in order, in the ghost
 * log `i2cLog` of the display object. A command transaction is the pair
 * `[0x00, opcode]`; a data transaction is `0x40` followed by the payload.
 */
module Ssd1306Driver {

  type Byte = bv8

  /** The range of the C `uint8_t` fields of a render area. */
  type Uint8 = x: int | 0 <= x < 256

  /** The panel sizes the driver's size tag can name. */
  datatype Size = W128xH32 | W64xH32 | W128xH64

  /** WHITE sets a pixel, BLACK clears it, INVERSE flips it. */
  datatype Color = White | Black | Inverse

  datatype Dims = Dims(width: nat, height: nat)

  // Control bytes that open every I2C transaction.
  const ControlCommand: Byte := 0x00
  const ControlData: Byte := 0x40

  // Controller opcodes, as in the SSD1306 command table.
  const CmdMemoryMode: Byte := 0x20
  const CmdColumnAddr: Byte := 0x21
  const CmdPageAddr: Byte := 0x22
  const CmdDeactivateScroll: Byte := 0x2E
  const CmdSetStartLine: Byte := 0x40
  const CmdSetContrast: Byte := 0x81
  const CmdChargePump: Byte := 0x8D
  const CmdSegRemap: Byte := 0xA0
  const CmdDisplayAllOnResume: Byte := 0xA4
  const CmdNormalDisplay: Byte := 0xA6
  const CmdInvertDisplay: Byte := 0xA7
  const CmdSetMultiplex: Byte := 0xA8
  const CmdDisplayOff: Byte := 0xAE
  const CmdDisplayOn: Byte := 0xAF
  const CmdComScanInc: Byte := 0xC0
  const CmdSetDisplayOffset: Byte := 0xD3
  const CmdSetDisplayClockDiv: Byte := 0xD5
  const CmdSetPrecharge: Byte := 0xD9
  const CmdSetComPins: Byte := 0xDA
  const CmdSetVcomDetect: Byte := 0xDB

  /** The constructor's size resolution: 64x32, 128x64, and 128x32 for every other tag. */
  function Resolve(s: Size): (d: Dims)
    ensures 0 < d.width <= 128 && 0 < d.height <= 64 && d.height % 8 == 0
    ensures s == W64xH32 ==> d == Dims(64, 32)
    ensures s == W128xH64 ==> d == Dims(128, 64)
    ensures s != W64xH32 && s != W128xH64 ==> d == Dims(128, 32)
  {
    if s == W64xH32 then Dims(64, 32)
    else if s == W128xH64 then Dims(128, 64)
    else Dims(128, 32)
  }

  /** One command transaction. */
  function Command(op: Byte): seq<Byte> { [ControlCommand, op] }

  /** One data transaction carrying `payload`. */
  function DataMessage(payload: seq<Byte>): seq<Byte> { [ControlData] + payload }

  /** `log` followed by the transactions the constructor sends, in order, for a panel `height` rows high. */
  function AfterInit(log: seq<seq<Byte>>, height: nat): seq<seq<Byte>>
    requires 1 <= height <= 256
  {
    log
    + [Command(CmdDisplayOff)]
    + [Command(CmdMemoryMode)] + [Command(0x00)]
    + [Command(CmdSetStartLine)]
    + [Command(CmdSegRemap | 0x01)]
    + [Command(CmdSetMultiplex)] + [Command((height - 1) as Byte)]
    + [Command(CmdComScanInc | 0x08)]
    + [Command(CmdSetDisplayOffset)] + [Command(0x00)]
    + [Command(CmdSetComPins)] + [Command(0x02)]
    + [Command(CmdSetDisplayClockDiv)] + [Command(0x80)]
    + [Command(CmdSetPrecharge)] + [Command(0xF1)]
    + [Command(CmdSetVcomDetect)] + [Command(0x40)]
    + [Command(CmdSetContrast)] + [Command(0xFF)]
    + [Command(CmdDisplayAllOnResume)]
    + [Command(CmdNormalDisplay)]
    + [Command(CmdChargePump)] + [Command(0x14)]
    + [Command(CmdDeactivateScroll)]
    + [Command(CmdDisplayOn)]
  }

  /* ---------------------------------------------------------------------
   * Render areas
   * ------------------------------------------------------------------- */

  /** Number of bytes in the window of columns sc..ec and pages sp..ep. */
  function AreaLength(sc: int, ec: int, sp: int, ep: int): int
  {
    (ec - sc + 1) * (ep - sp + 1)
  }

  /** Position of column c, page p in the window flattened page by page (horizontal addressing). */
  function AreaOffset(sc: int, ec: int, sp: int, c: int, p: int): int
  {
    (p - sp) * (ec - sc + 1) + (c - sc)
  }

  /** Every cell of a well-formed window lands inside the first AreaLength bytes. */
  lemma AreaOffsetInRange(sc: int, ec: int, sp: int, ep: int, c: int, p: int)
    requires sc <= c <= ec && sp <= p <= ep
    ensures 0 <= AreaOffset(sc, ec, sp, c, p) < AreaLength(sc, ec, sp, ep)
  {
    var cols, dp, dc := ec - sc + 1, p - sp, c - sc;
    assert dp * cols + dc < (dp + 1) * cols;
    MulMonotone(dp + 1, ep - sp + 1, cols);
  }

  /** Distinct cells of a window land on distinct offsets. */
  lemma AreaOffsetInjective(sc: int, ec: int, sp: int, ep: int, c1: int, p1: int, c2: int, p2: int)
    requires sc <= c1 <= ec && sp <= p1 <= ep
    requires sc <= c2 <= ec && sp <= p2 <= ep
    requires AreaOffset(sc, ec, sp, c1, p1) == AreaOffset(sc, ec, sp, c2, p2)
    ensures c1 == c2 && p1 == p2
  {
    RowMajorInjective(ec - sc + 1, p1 - sp, c1 - sc, p2 - sp, c2 - sc);
  }

  /** Every offset below the window's byte count is the offset of a cell: column sc + o % cols, page sp + o / cols. */
  lemma AreaOffsetOnto(sc: int, ec: int, sp: int, ep: int, o: int)
    requires sc <= ec && sp <= ep
    requires 0 <= o < AreaLength(sc, ec, sp, ep)
    ensures var cols := ec - sc + 1;
            && sc <= sc + o % cols <= ec && sp <= sp + o / cols <= ep
            && AreaOffset(sc, ec, sp, sc + o % cols, sp + o / cols) == o
  {
    var cols, rows := ec - sc + 1, ep - sp + 1;
    var q, r := o / cols, o % cols;
    assert o == q * cols + r;
    if q >= rows {
      MulMonotone(rows, q, cols);
      assert false;
    }
  }

  /** A render area: a rectangular window of columns and pages and its byte count. */
  class RenderArea {
    var startCol: Uint8
    var endCol: Uint8
    var startPage: Uint8
    var endPage: Uint8
    var buflen: int

    /** Storage for an area; the owner assigns its bounds. */
    constructor ()
      ensures startCol == 0 && endCol == 0 && startPage == 0 && endPage == 0 && buflen == 0
    {
      startCol, endCol, startPage, endPage, buflen := 0, 0, 0, 0, 0;
    }
  }

  /* ---------------------------------------------------------------------
   * Framebuffer addressing
   * ------------------------------------------------------------------- */

  /** Byte holding pixel (x, y): page y/8, column x. */
  function PixelIndex(width: nat, x: nat, y: nat): nat
  {
    (y / 8) * width + x
  }

  /** Bit k of byte b, least significant bit first. */
  predicate BitOf(b: Byte, k: Byte)
    requires k < 8
  {
    (b >> k) & 1 == 1
  }

  /** The value a pixel takes when drawn in `color` over the value `was`. */
  function Painted(color: Color, was: bool): bool
  {
    match color
    case White => true
    case Black => false
    case Inverse => !was
  }

  /** Every in-bounds pixel addresses a byte inside the buffer. */
  lemma PixelIndexInBounds(width: nat, height: nat, x: nat, y: nat)
    requires height % 8 == 0
    requires x < width && y < height
    ensures PixelIndex(width, x, y) < width * (height / 8)
  {
    var page := y / 8;
    assert page < height / 8;
    assert page * width + x < (page + 1) * width;
    MulMonotone(page + 1, height / 8, width);
  }

  /** Two pixels that share a byte and a bit are the same pixel. */
  lemma PixelAddrInjective(width: nat, x1: nat, y1: nat, x2: nat, y2: nat)
    requires x1 < width && x2 < width
    requires PixelIndex(width, x1, y1) == PixelIndex(width, x2, y2)
    requires y1 % 8 == y2 % 8
    ensures x1 == x2 && y1 == y2
  {
    RowMajorInjective(width, y1 / 8, x1, y2 / 8, x2);
  }

  /** Bit of pixel row y inside its page byte: y mod 8. */
  function BitIndex(y: nat): (k: Byte)
    ensures k < 8
  {
    (y % 8) as Byte
  }

  /** Pixel (x, y) of a framebuffer. */
  predicate Pixel(buf: seq<Byte>, width: nat, x: nat, y: nat)
    requires PixelIndex(width, x, y) < |buf|
  {
    BitOf(buf[PixelIndex(width, x, y)], BitIndex(y))
  }

  /** The byte b with bit k drawn in `color`: OR, AND-NOT or XOR with the mask 1 << k. */
  function ApplyColor(b: Byte, k: Byte, color: Color): Byte
    requires k < 8
  {
    match color
    case White => b | ((1 as Byte) << k)
    case Black => b & !((1 as Byte) << k)
    case Inverse => b ^ ((1 as Byte) << k)
  }

  /** Bit j of ApplyColor(b, k, color), for one j. */
  lemma ApplyColorBit(b: Byte, k: Byte, color: Color, j: Byte)
    requires k < 8 && j < 8
    ensures BitOf(ApplyColor(b, k, color), j) == if j == k then Painted(color, BitOf(b, k)) else BitOf(b, j)
  {
    match color
    case White => WhiteBit(b, k, j);
    case Black => BlackBit(b, k, j);
    case Inverse => InverseBit(b, k, j);
  }

  /** Drawing in white sets bit k and no other. */
  lemma WhiteBit(b: Byte, k: Byte, j: Byte)
    requires k < 8 && j < 8
    ensures BitOf(ApplyColor(b, k, White), j) == (j == k || BitOf(b, j))
  {
  }

  /** Drawing in black clears bit k and no other. */
  lemma BlackBit(b: Byte, k: Byte, j: Byte)
    requires k < 8 && j < 8
    ensures BitOf(ApplyColor(b, k, Black), j) == (j != k && BitOf(b, j))
  {
  }

  /** Drawing in inverse flips bit k and no other. */
  lemma InverseBit(b: Byte, k: Byte, j: Byte)
    requires k < 8 && j < 8
    ensures BitOf(ApplyColor(b, k, Inverse), j) == (if j == k then !BitOf(b, j) else BitOf(b, j))
  {
  }

  /** Drawing bit k in `color` gives it the painted value and keeps the other seven bits. */
  lemma ApplyColorBits(b: Byte, k: Byte, color: Color)
    requires k < 8
    ensures BitOf(ApplyColor(b, k, color), k) == Painted(color, BitOf(b, k))
    ensures forall j: Byte :: j < 8 && j != k ==> BitOf(ApplyColor(b, k, color), j) == BitOf(b, j)
  {
    ApplyColorBit(b, k, color, k);
    forall j: Byte | j < 8 && j != k
      ensures BitOf(ApplyColor(b, k, color), j) == BitOf(b, j)
    {
      ApplyColorBit(b, k, color, j);
    }
  }

  /** The framebuffer after drawing pixel (x, y) in `color`. */
  function Drawn(buf: seq<Byte>, width: nat, x: nat, y: nat, color: Color): (r: seq<Byte>)
    requires PixelIndex(width, x, y) < |buf|
    ensures |r| == |buf|
    ensures forall i :: 0 <= i < |buf| && i != PixelIndex(width, x, y) ==> r[i] == buf[i]
    ensures Pixel(r, width, x, y) == Painted(color, Pixel(buf, width, x, y))
    ensures forall j: Byte :: j < 8 && j != BitIndex(y) ==>
              BitOf(r[PixelIndex(width, x, y)], j) == BitOf(buf[PixelIndex(width, x, y)], j)
  {
    var i := PixelIndex(width, x, y);
    ApplyColorBits(buf[i], BitIndex(y), color);
    buf[i := ApplyColor(buf[i], BitIndex(y), color)]
  }

  /** Drawing one pixel changes that pixel as its colour says and leaves every other pixel alone. */
  lemma DrawnPixels(buf: seq<Byte>, width: nat, x: nat, y: nat, color: Color, x': nat, y': nat)
    requires x < width && x' < width
    requires PixelIndex(width, x, y) < |buf| && PixelIndex(width, x', y') < |buf|
    ensures Pixel(Drawn(buf, width, x, y, color), width, x', y') ==
              if x' == x && y' == y then Painted(color, Pixel(buf, width, x, y))
              else Pixel(buf, width, x', y')
  {
    if PixelIndex(width, x', y') == PixelIndex(width, x, y) && y' % 8 == y % 8 {
      PixelAddrInjective(width, x, y, x', y');
    }
  }

  /** Drawing the same pixel twice in INVERSE restores the framebuffer exactly. */
  lemma InverseTwice(buf: seq<Byte>, width: nat, x: nat, y: nat)
    requires PixelIndex(width, x, y) < |buf|
    ensures Drawn(Drawn(buf, width, x, y, Inverse), width, x, y, Inverse) == buf
  {
    var i := PixelIndex(width, x, y);
    var m := (1 as Byte) << BitIndex(y);
    assert (buf[i] ^ m) ^ m == buf[i];
  }

  /** The framebuffer after `clear(color)`: all ones, all zeros, or unchanged for INVERSE. */
  function Cleared(buf: seq<Byte>, color: Color): seq<Byte>
  {
    match color
    case White => seq(|buf|, _ => 0xFF)
    case Black => seq(|buf|, _ => 0x00)
    case Inverse => buf
  }

  /** After clear(WHITE) every pixel is set, after clear(BLACK) none is, clear(INVERSE) changes none. */
  lemma ClearedPixels(buf: seq<Byte>, width: nat, color: Color, x: nat, y: nat)
    requires PixelIndex(width, x, y) < |buf|
    ensures color == White ==> Pixel(Cleared(buf, color), width, x, y)
    ensures color == Black ==> !Pixel(Cleared(buf, color), width, x, y)
    ensures color == Inverse ==> Pixel(Cleared(buf, color), width, x, y) == Pixel(buf, width, x, y)
  {
    var k := BitIndex(y);
    assert (0xFF as Byte >> k) & 1 == 1;
    assert (0x00 as Byte >> k) & 1 == 0;
  }

  /** clear(BLACK) followed by one WHITE pixel leaves exactly that pixel set. */
  lemma ClearThenDraw(buf: seq<Byte>, width: nat, x: nat, y: nat, x': nat, y': nat)
    requires x < width && x' < width
    requires PixelIndex(width, x, y) < |buf| && PixelIndex(width, x', y') < |buf|
    ensures Pixel(Drawn(Cleared(buf, Black), width, x, y, White), width, x', y') <==> (x' == x && y' == y)
  {
    DrawnPixels(Cleared(buf, Black), width, x, y, White, x', y');
    ClearedPixels(buf, width, Black, x', y');
  }

  /* ---------------------------------------------------------------------
   * Arithmetic helpers
   * ------------------------------------------------------------------- */

  lemma MulMonotone(a: int, b: int, c: nat)
    requires a <= b
    ensures a * c <= b * c
  {
  }

  /** Row-major positions with columns below `cols` determine row and column. */
  lemma RowMajorInjective(cols: int, r1: int, c1: int, r2: int, c2: int)
    requires 0 <= c1 < cols && 0 <= c2 < cols && 0 <= r1 && 0 <= r2
    requires r1 * cols + c1 == r2 * cols + c2
    ensures r1 == r2 && c1 == c2
  {
    if r1 < r2 {
      MulMonotone(r1 + 1, r2, cols);
      assert false;
    } else if r2 < r1 {
      MulMonotone(r2 + 1, r1, cols);
      assert false;
    }
  }

  /* ---------------------------------------------------------------------
   * The display object
   * ------------------------------------------------------------------- */

  class Ssd1306 {
    const devAddr: bv16
    const size: Size
    const width: nat
    const height: nat
    const bufferlen: nat
    const buffer: array<Byte>
    const frameArea: RenderArea
    /** The I2C transactions sent to `devAddr`, oldest first. */
    ghost var i2cLog: seq<seq<Byte>>

    /** Dimensions resolved from the size tag, buffer sized to them, render area spanning the frame. */
    ghost predicate Valid()
      reads frameArea
    {
      && Resolve(size) == Dims(width, height)
      && bufferlen == width * (height / 8)
      && buffer.Length == bufferlen
      && frameArea.startCol == 0 && frameArea.endCol == width - 1
      && frameArea.startPage == 0 && frameArea.endPage == height / 8 - 1
      && frameArea.buflen == AreaLength(frameArea.startCol, frameArea.endCol,
                                        frameArea.startPage, frameArea.endPage)
    }

    /** Resolves the size, allocates the buffer, sends the initialisation sequence, sets the full-frame area. */
    constructor (devAddr: bv16, size: Size)
      ensures Valid() && fresh(buffer) && fresh(frameArea)
      ensures this.devAddr == devAddr && this.size == size
      ensures i2cLog == AfterInit([], height)
      ensures frameArea.buflen == bufferlen
    {
      this.devAddr := devAddr;
      this.size := size;
      var d := Resolve(size);
      width := d.width;
      height := d.height;
      bufferlen := d.width * (d.height / 8);
      buffer := new Byte[d.width * (d.height / 8)];
      frameArea := new RenderArea();
      i2cLog := [];
      new;
      SendInitCommands();
      SetFullFrame();
    }

    /** Sets the render area to the whole frame and its byte count. */
    method SetFullFrame()
      requires Resolve(size) == Dims(width, height) && bufferlen == width * (height / 8)
      modifies frameArea
      ensures frameArea.startCol == 0 && frameArea.endCol == width - 1
      ensures frameArea.startPage == 0 && frameArea.endPage == height / 8 - 1
      ensures frameArea.buflen == AreaLength(0, width - 1, 0, height / 8 - 1) == bufferlen
    {
      frameArea.startCol, frameArea.endCol := 0, width - 1;
      frameArea.startPage, frameArea.endPage := 0, height / 8 - 1;
      frameArea.buflen := 0;
      CalculateRenderAreaBuffLen(frameArea);
      FullFrameLength(width, height);
    }

    /** The controller initialisation sequence sent by the constructor. */
    method SendInitCommands()
      requires 1 <= height <= 256
      modifies this`i2cLog
      ensures i2cLog == AfterInit(old(i2cLog), height)
    {
      DisplayOn(0);
      SendCommand(CmdMemoryMode);
      SendCommand(0x00);
      SendCommand(CmdSetStartLine);
      SendCommand(CmdSegRemap | 0x01);
      SendCommand(CmdSetMultiplex);
      SendCommand((height - 1) as Byte);
      SendCommand(CmdComScanInc | 0x08);
      SendCommand(CmdSetDisplayOffset);
      SendCommand(0x00);
      SendCommand(CmdSetComPins);
      SendCommand(0x02);
      SendCommand(CmdSetDisplayClockDiv);
      SendCommand(0x80);
      SendCommand(CmdSetPrecharge);
      SendCommand(0xF1);
      SendCommand(CmdSetVcomDetect);
      SendCommand(0x40);
      SetContrast(0xFF);
      SendCommand(CmdDisplayAllOnResume);
      SendCommand(CmdNormalDisplay);
      SendCommand(CmdChargePump);
      SendCommand(0x14);
      SendCommand(CmdDeactivateScroll);
      DisplayOn(1);
    }

    /** Sends one command transaction. */
    method SendCommand(op: Byte)
      modifies this`i2cLog
      ensures i2cLog == old(i2cLog) + [Command(op)]
    {
      i2cLog := i2cLog + [Command(op)];
    }

    /** Inverted display for a non-zero argument, normal display for zero. */
    method InvertColors(invert: Byte)
      modifies this`i2cLog
      ensures i2cLog == old(i2cLog) + [Command(if invert != 0 then 0xA7 else 0xA6)]
    {
      SendCommand(if invert != 0 then CmdInvertDisplay else CmdNormalDisplay);
    }

    /** Segment remap and COM scan direction; any argument above 1 counts as 1. */
    method RotateDisplay(rotate: Byte)
      modifies this`i2cLog
      ensures i2cLog == old(i2cLog) + [Command(if rotate == 0 then 0xA0 else 0xA1)]
                                    + [Command(if rotate == 0 then 0xC0 else 0xC8)]
    {
      var r := rotate;
      if r > 1 { r := 1; }
      SendCommand(0xA0 | (0x01 & r));
      SendCommand(0xC0 | (0x08 & (r << 3)));
    }

    /** Display on for a non-zero argument, off for zero. */
    method DisplayOn(on: Byte)
      modifies this`i2cLog
      ensures i2cLog == old(i2cLog) + [Command(if on != 0 then 0xAF else 0xAE)]
    {
      SendCommand(if on != 0 then CmdDisplayOn else CmdDisplayOff);
    }

    /** The contrast opcode followed by the contrast value. */
    method SetContrast(contrast: Byte)
      modifies this`i2cLog
      ensures i2cLog == old(i2cLog) + [Command(0x81)] + [Command(contrast)]
    {
      SendCommand(CmdSetContrast);
      SendCommand(contrast);
    }

    /** Sets, clears or flips the bit of pixel (x, y) in the buffer; nothing is sent. */
    method DrawPixel(x: int, y: int, color: Color)
      requires Valid()
      requires 0 <= x < width && 0 <= y < height
      modifies buffer
      ensures buffer[..] == Drawn(old(buffer[..]), width, x, y, color)
    {
      PixelIndexInBounds(width, height, x, y);
      var bytesPerRow := width;
      var byteIdx := (y / 8) * bytesPerRow + x;
      assert byteIdx == PixelIndex(width, x, y);
      var b := buffer[byteIdx];
      b := ApplyColor(b, BitIndex(y), color);
      buffer[byteIdx] := b;
    }

    /** Fills the whole buffer with `v`. */
    method Fill(v: Byte)
      requires Valid()
      modifies buffer
      ensures buffer[..] == seq(bufferlen, _ => v)
    {
      for i := 0 to bufferlen
        invariant forall j :: 0 <= j < i ==> buffer[j] == v
      {
        buffer[i] := v;
      }
    }

    /** WHITE fills the buffer with 0xFF, BLACK with 0x00; INVERSE matches no case and changes nothing. */
    method Clear(color: Color)
      requires Valid()
      modifies buffer
      ensures buffer[..] == Cleared(old(buffer[..]), color)
    {
      match color
      case White =>
        Fill(0xFF);
      case Black =>
        Fill(0x00);
      case Inverse =>
    }

    /** Sends one data transaction: 0x40 followed by the first `len` bytes of `data`. */
    method SendData(data: array<Byte>, len: nat)
      requires len <= data.Length
      modifies this`i2cLog
      ensures i2cLog == old(i2cLog) + [DataMessage(data[..len])]
    {
      i2cLog := i2cLog + [DataMessage(data[..len])];
    }

    /**
     * Column range and page range of the render area as six command transactions,
     * then `bufferlen` bytes of `data` (of the own buffer when `data` is null).
     */
    method Display(data: array?<Byte>)
      requires Valid()
      requires data != null ==> data.Length >= bufferlen
      modifies this`i2cLog
      ensures var payload := if data == null then buffer[..] else data[..bufferlen];
              i2cLog == old(i2cLog) + [Command(0x21)] + [Command(frameArea.startCol as Byte)]
                                    + [Command(frameArea.endCol as Byte)] + [Command(0x22)]
                                    + [Command(frameArea.startPage as Byte)] + [Command(frameArea.endPage as Byte)]
                                    + [DataMessage(payload)]
      ensures frameArea.startCol == 0 && frameArea.endCol == width - 1
      ensures frameArea.startPage == 0 && frameArea.endPage == height / 8 - 1
      ensures |i2cLog[|i2cLog| - 1]| == bufferlen + 1 && i2cLog[|i2cLog| - 1][0] == 0x40
    {
      var src := if data == null then buffer else data;
      assert src[..bufferlen] == if data == null then buffer[..] else data[..bufferlen];
      SendCommand(CmdColumnAddr);
      SendCommand(frameArea.startCol as Byte);
      SendCommand(frameArea.endCol as Byte);
      SendCommand(CmdPageAddr);
      SendCommand(frameArea.startPage as Byte);
      SendCommand(frameArea.endPage as Byte);
      SendData(src, bufferlen);
    }

    /** Stores in `area.buflen` the byte count of its window. */
    method CalculateRenderAreaBuffLen(area: RenderArea)
      modifies area`buflen
      ensures area.buflen == AreaLength(area.startCol, area.endCol, area.startPage, area.endPage)
    {
      area.buflen := (area.endCol - area.startCol + 1) * (area.endPage - area.startPage + 1);
    }

    /** The height as reported to callers; it agrees with the constructor's resolution. */
    function GetHeight(): (h: nat)
      ensures h == Resolve(size).height
    {
      if size == W128xH64 then 64 else 32
    }

    /** The width as reported to callers; it agrees with the constructor's resolution. */
    function GetWidth(): (w: nat)
      ensures w == Resolve(size).width
    {
      if size == W64xH32 then 64 else 128
    }
  }

  /** The constructor's full-frame render area holds exactly the buffer's byte count. */
  lemma FullFrameLength(width: nat, height: nat)
    requires 0 < width && 8 <= height
    ensures AreaLength(0, width - 1, 0, height / 8 - 1) == width * (height / 8)
  {
  }
}
