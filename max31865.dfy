/**
 * Model of the MAX31865 RTD-to-digital converter driver: configuration by
 * read-modify-write of the 8-bit configuration register, 16-bit fault
 * thresholds stored as pairs of byte registers, and the one-shot conversion
 * sequence that yields a 15-bit resistance code.
 *
 * The chip is modelled by its register file, a function from register to byte,
 * where an address byte selects a register by its low seven bits (`Key`). Every SPI
 * transaction and every delay the driver issues is recorded, in order, in the ghost
 * trace of the driver object.
 */
module Max31865Driver {

  type Byte = bv8
  type Word = bv16

  // Register addresses (MAX31865 register map).
  const ConfigReg: Byte := 0x00
  const RtdMsbReg: Byte := 0x01
  const RtdLsbReg: Byte := 0x02
  const HFaultMsbReg: Byte := 0x03
  const HFaultLsbReg: Byte := 0x04
  const LFaultMsbReg: Byte := 0x05
  const LFaultLsbReg: Byte := 0x06
  const FaultStatReg: Byte := 0x07

  // Bits of the configuration register.
  const ConfigBias: Byte := 0x80
  const ConfigModeAuto: Byte := 0x40
  const Config1Shot: Byte := 0x20
  const Config3Wire: Byte := 0x10
  const ConfigFaultStat: Byte := 0x02
  const ConfigFilt50Hz: Byte := 0x01

  /** Bits clearFault clears: the 1-shot bit and the two fault-detection-cycle bits. */
  const FaultClearMask: Byte := 0x2C

  /** RTD wiring; only the 3-wire choice has a bit of its own. */
  datatype Wires = TwoWire | ThreeWire | FourWire

  /** What the driver does on the bus, and its delays. */
  datatype Event =
    | Read(addr: Byte, len: nat)   // address byte out, then `len` bytes in
    | Write(frame: seq<Byte>)      // bytes out only
    | Sleep(ms: nat)

  /* ---------------------------------------------------------------------
   * Register access encoding
   * ------------------------------------------------------------------- */

  /** The byte sent to read at `addr`: bit 7 clear, the 7-bit address kept. */
  function ReadAddress(addr: Byte): (a: Byte)
    ensures a & 0x80 == 0 && a & 0x7F == addr & 0x7F
  {
    addr & 0x7F
  }

  /** The byte sent to write at `addr`: bit 7 set, the 7-bit address kept. */
  function WriteAddress(addr: Byte): (a: Byte)
    ensures a & 0x80 == 0x80 && a & 0x7F == addr & 0x7F
  {
    addr | 0x80
  }

  /** Two bytes read MSB first, as one 16-bit value. */
  function Combine16(msb: Byte, lsb: Byte): (r: Word)
    ensures r >> 8 == msb as Word && r & 0xFF == lsb as Word
  {
    ((msb as Word) << 8) | (lsb as Word)
  }

  /** The combined value, as a number, is the first byte times 256 plus the second, below 65536. */
  lemma Combine16Value(msb: Byte, lsb: Byte)
    ensures Combine16(msb, lsb) as int == msb as int * 256 + lsb as int
    ensures Combine16(msb, lsb) as int < 0x10000
  {
    WordValue(Combine16(msb, lsb), msb, lsb);
  }

  /** A 16-bit value whose high byte is `hi` and low byte `lo` is the number hi * 256 + lo. */
  lemma WordValue(x: Word, hi: Byte, lo: Byte)
    requires x >> 8 == hi as Word && x & 0xFF == lo as Word
    ensures x as int == hi as int * 256 + lo as int
  {
    ByteDigits(x);
    Widen(hi);
    Widen(lo);
  }

  lemma ByteDigits(x: Word)
    ensures x as int == (x >> 8) as int * 256 + (x & 0xFF) as int
  {
  }

  lemma Widen(b: Byte)
    ensures (b as Word) as int == b as int
  {
  }

  function LowByte(v: Word): Byte { (v & 0xFF) as Byte }

  function HighByte(v: Word): Byte { (v >> 8) as Byte }

  /** Splitting a 16-bit value into its two bytes and recombining them gives it back. */
  lemma SplitCombine(v: Word)
    ensures Combine16(HighByte(v), LowByte(v)) == v
  {
  }

  /** The conversion result without its fault bit: a 15-bit code. */
  function RtdCode(raw: Word): (r: Word)
    ensures r < 0x8000
    ensures r << 1 == raw & 0xFFFE
  {
    raw >> 1
  }

  /* ---------------------------------------------------------------------
   * Configuration register values
   * ------------------------------------------------------------------- */

  /** t with the bits of `mask` set when `on` and cleared otherwise; every other bit kept. */
  function Assign(t: Byte, mask: Byte, on: bool): (r: Byte)
    ensures r & mask == (if on then mask else 0)
    ensures r & !mask == t & !mask
  {
    if on then t | mask else t & !mask
  }

  /** The configuration value setWires writes over `t`. */
  function WiresConfig(t: Byte, wires: Wires): (r: Byte)
    ensures (r & Config3Wire != 0) <==> wires == ThreeWire
    ensures r & !Config3Wire == t & !Config3Wire
  {
    if wires == ThreeWire then t | Config3Wire else t & !Config3Wire
  }

  /** The configuration value clearFault writes over `t`. */
  function ClearFaultValue(t: Byte): (r: Byte)
    ensures r & FaultClearMask == 0
    ensures r & ConfigFaultStat == ConfigFaultStat
    ensures r & !(FaultClearMask | ConfigFaultStat) == t & !(FaultClearMask | ConfigFaultStat)
  {
    (t & !FaultClearMask) | ConfigFaultStat
  }

  /** The two- and four-wire settings give the same configuration register. */
  lemma TwoAndFourWireAlias(t: Byte)
    ensures WiresConfig(t, TwoWire) == WiresConfig(t, FourWire)
    ensures WiresConfig(t, TwoWire) & Config3Wire == 0
  {
  }

  /** The named configuration bits are distinct single bits, and clearFault's mask touches none but 1-shot. */
  lemma ConfigBitsDistinct()
    ensures var bits := [ConfigBias, ConfigModeAuto, Config1Shot, Config3Wire, ConfigFaultStat, ConfigFilt50Hz];
            forall i, j :: 0 <= i < j < |bits| ==> bits[i] & bits[j] == 0
    ensures FaultClearMask & (ConfigBias | ConfigModeAuto | Config3Wire | ConfigFaultStat | ConfigFilt50Hz) == 0
    ensures FaultClearMask & Config1Shot == Config1Shot
  {
  }

  /** Configuration value after the one-shot sequence of readRTD, starting from `t`. */
  function RtdSequenceConfig(t: Byte): Byte
  {
    var c1 := ClearFaultValue(t);
    var c2 := Assign(c1, ConfigBias, true);
    var c3 := c2 | Config1Shot;
    Assign(c3, ConfigBias, false)
  }

  /** readRTD leaves bias off and the fault-detection-cycle bits clear, and keeps wiring, mode and filter. */
  lemma RtdSequenceConfigBits(t: Byte)
    ensures RtdSequenceConfig(t) & ConfigBias == 0
    ensures RtdSequenceConfig(t) & 0x0C == 0
    ensures RtdSequenceConfig(t) & (ConfigModeAuto | Config3Wire | ConfigFilt50Hz)
         == t & (ConfigModeAuto | Config3Wire | ConfigFilt50Hz)
  {
  }

  /** Configuration value begin(wires) leaves, starting from `t`. */
  function BeginConfig(t: Byte, wires: Wires): Byte
  {
    var c1 := WiresConfig(t, wires);
    var c2 := Assign(c1, ConfigBias, false);
    var c3 := Assign(c2, ConfigModeAuto, false);
    ClearFaultValue(c3)
  }

  /** After begin: bias off, auto-convert off, 3-wire bit as asked, fault-clear bit set, filter kept. */
  lemma BeginConfigBits(t: Byte, wires: Wires)
    ensures BeginConfig(t, wires) & ConfigBias == 0
    ensures BeginConfig(t, wires) & ConfigModeAuto == 0
    ensures (BeginConfig(t, wires) & Config3Wire != 0) <==> wires == ThreeWire
    ensures BeginConfig(t, wires) & ConfigFaultStat == ConfigFaultStat
    ensures BeginConfig(t, wires) & FaultClearMask == 0
    ensures BeginConfig(t, wires) & ConfigFilt50Hz == t & ConfigFilt50Hz
  {
    var c1 := WiresConfig(t, wires);
    var c2 := Assign(c1, ConfigBias, false);
    var c3 := Assign(c2, ConfigModeAuto, false);
    assert c3 & Config3Wire == c1 & Config3Wire;
  }

  /* ---------------------------------------------------------------------
   * The chip: register file and bus trace
   * ------------------------------------------------------------------- */

  /** A register of the chip, by its 7-bit address. */
  datatype Reg = Reg(addr: Byte)

  /** The register an address byte selects: the chip decodes its low seven bits. */
  function Key(a: Byte): (k: Reg)
    ensures k.addr < 0x80 && k.addr == a & 0x7F
  {
    Reg(a & 0x7F)
  }

  /** The read and the write form of an address select the same register, and distinct 7-bit addresses distinct registers. */
  lemma ReadWriteSameRegister(a: Byte, b: Byte)
    ensures Key(ReadAddress(a)) == Key(WriteAddress(a)) == Key(a)
    ensures Key(a) == Key(b) <==> a & 0x7F == b & 0x7F
  {
  }

  /** Every register holds a byte. */
  type Registers = Reg -> Byte

  /** The chip's registers and everything the driver has done on the bus so far. */
  datatype Chip = Chip(regs: Registers, trace: seq<Event>)

  /** The register file after the chip stores `data` in register `k`. */
  function Stored(regs: Registers, k: Reg, data: Byte): Registers
  {
    r => if r == k then data else regs(r)
  }

  /** `c` with `e` appended to its trace; the registers are untouched. */
  function Logged(c: Chip, e: Event): Chip
  {
    c.(trace := c.trace + [e])
  }

  /** The effect of writeRegister8(addr, data): one two-byte frame, one register stored. */
  function Written(c: Chip, addr: Byte, data: Byte): Chip
  {
    Chip(Stored(c.regs, Key(addr), data), c.trace + [Write([WriteAddress(addr), data])])
  }

  /** The configuration register. */
  function Config(c: Chip): Byte
  {
    c.regs(Key(ConfigReg))
  }

  /** A read-modify-write of the configuration register that writes `v`. */
  function ConfigRmw(c: Chip, v: Byte): Chip
  {
    Written(Logged(c, Read(ReadAddress(ConfigReg), 1)), ConfigReg, v)
  }

  // The effect of each setter, on the chip.

  function FaultCleared(c: Chip): Chip { ConfigRmw(c, ClearFaultValue(Config(c))) }

  function BiasSet(c: Chip, b: bool): Chip { ConfigRmw(c, Assign(Config(c), ConfigBias, b)) }

  function AutoConvertSet(c: Chip, b: bool): Chip { ConfigRmw(c, Assign(Config(c), ConfigModeAuto, b)) }

  function FilterSet(c: Chip, b: bool): Chip { ConfigRmw(c, Assign(Config(c), ConfigFilt50Hz, b)) }

  function WiresSet(c: Chip, wires: Wires): Chip { ConfigRmw(c, WiresConfig(Config(c), wires)) }

  function OneShotStarted(c: Chip): Chip { ConfigRmw(c, Config(c) | Config1Shot) }

  /** The effect of setThresholds(lower, upper): four writes, lower threshold first, LSB before MSB. */
  function ThresholdsSet(c: Chip, lower: Word, upper: Word): Chip
  {
    Written(Written(Written(Written(c, LFaultLsbReg, LowByte(lower)), LFaultMsbReg, HighByte(lower)),
                    HFaultLsbReg, LowByte(upper)),
            HFaultMsbReg, HighByte(upper))
  }

  /** The lower threshold as read back: 16 bits, MSB first, from the lower-MSB register on. */
  function LowerThreshold(regs: Registers): Word
  {
    Combine16(regs(Key(LFaultMsbReg)), regs(Key(ReadAddress(LFaultMsbReg) + 1)))
  }

  /** The upper threshold as read back: 16 bits, MSB first, from the upper-MSB register on. */
  function UpperThreshold(regs: Registers): Word
  {
    Combine16(regs(Key(HFaultMsbReg)), regs(Key(ReadAddress(HFaultMsbReg) + 1)))
  }

  /** The chip when readRTD reads the result: faults cleared, bias on, 10 ms, 1-shot, 65 ms. */
  function RtdConverted(c: Chip): Chip
  {
    Logged(OneShotStarted(Logged(BiasSet(FaultCleared(c), true), Sleep(10))), Sleep(65))
  }

  /** The effect of readRTD: the conversion, the 16-bit read of the result, bias off. */
  function RtdSequence(c: Chip): Chip
  {
    BiasSet(Logged(RtdConverted(c), Read(ReadAddress(RtdMsbReg), 2)), false)
  }

  /** What readRTD returns: the result registers as read after the conversion, fault bit dropped. */
  function RtdResult(c: Chip): Word
  {
    var regs := RtdConverted(c).regs;
    RtdCode(Combine16(regs(Key(RtdMsbReg)), regs(Key(ReadAddress(RtdMsbReg) + 1))))
  }

  /** The effect of begin(wires). */
  function BeginSequence(c: Chip, wires: Wires): Chip
  {
    FaultCleared(ThresholdsSet(AutoConvertSet(BiasSet(WiresSet(c, wires), false), false), 0, 0xFFFF))
  }

  /* ---------------------------------------------------------------------
   * Properties of the chip-level effects
   * ------------------------------------------------------------------- */

  /** A read-modify-write of the configuration register reads it, writes `v` to it and changes nothing else. */
  lemma ConfigRmwEffect(c: Chip, v: Byte)
    ensures Config(ConfigRmw(c, v)) == v
    ensures forall k :: k != Key(ConfigReg) ==> ConfigRmw(c, v).regs(k) == c.regs(k)
    ensures ConfigRmw(c, v).trace == c.trace + [Read(0x00, 1), Write([0x80, v])]
  {
  }

  /** enableBias, autoConvert and enable50Hz each set or clear their own bit and keep every other bit. */
  lemma SetterBits(c: Chip, b: bool)
    ensures Config(BiasSet(c, b)) & ConfigBias == (if b then ConfigBias else 0)
    ensures Config(BiasSet(c, b)) & !ConfigBias == Config(c) & !ConfigBias
    ensures Config(AutoConvertSet(c, b)) & ConfigModeAuto == (if b then ConfigModeAuto else 0)
    ensures Config(AutoConvertSet(c, b)) & !ConfigModeAuto == Config(c) & !ConfigModeAuto
    ensures Config(FilterSet(c, b)) & ConfigFilt50Hz == (if b then ConfigFilt50Hz else 0)
    ensures Config(FilterSet(c, b)) & !ConfigFilt50Hz == Config(c) & !ConfigFilt50Hz
  {
    ConfigRmwEffect(c, Assign(Config(c), ConfigBias, b));
    ConfigRmwEffect(c, Assign(Config(c), ConfigModeAuto, b));
    ConfigRmwEffect(c, Assign(Config(c), ConfigFilt50Hz, b));
  }

  /** The 3-wire bit follows the wiring, and two and four wires leave the same chip state. */
  lemma WiresSetEffect(c: Chip, wires: Wires)
    ensures (Config(WiresSet(c, wires)) & Config3Wire != 0) <==> wires == ThreeWire
    ensures Config(WiresSet(c, wires)) & !Config3Wire == Config(c) & !Config3Wire
    ensures WiresSet(c, TwoWire) == WiresSet(c, FourWire)
  {
    ConfigRmwEffect(c, WiresConfig(Config(c), wires));
    TwoAndFourWireAlias(Config(c));
  }

  /** clearFault clears 0x2C, sets the fault-clear bit and keeps the other bits. */
  lemma FaultClearedBits(c: Chip)
    ensures Config(FaultCleared(c)) & FaultClearMask == 0
    ensures Config(FaultCleared(c)) & ConfigFaultStat == ConfigFaultStat
    ensures Config(FaultCleared(c)) & !(FaultClearMask | ConfigFaultStat) == Config(c) & !(FaultClearMask | ConfigFaultStat)
  {
    ConfigRmwEffect(c, ClearFaultValue(Config(c)));
  }

  /** Thresholds written by setThresholds read back as exactly the values written. */
  lemma ThresholdsRoundTrip(c: Chip, lower: Word, upper: Word)
    ensures LowerThreshold(ThresholdsSet(c, lower, upper).regs) == lower
    ensures UpperThreshold(ThresholdsSet(c, lower, upper).regs) == upper
    ensures forall k :: k !in {Key(LFaultLsbReg), Key(LFaultMsbReg), Key(HFaultLsbReg), Key(HFaultMsbReg)} ==>
              ThresholdsSet(c, lower, upper).regs(k) == c.regs(k)
  {
    var m := ThresholdsSet(c, lower, upper).regs;
    assert ReadAddress(LFaultMsbReg) + 1 == LFaultLsbReg && ReadAddress(HFaultMsbReg) + 1 == HFaultLsbReg;
    assert m(Key(LFaultMsbReg)) == HighByte(lower) && m(Key(LFaultLsbReg)) == LowByte(lower);
    assert m(Key(HFaultMsbReg)) == HighByte(upper) && m(Key(HFaultLsbReg)) == LowByte(upper);
    SplitCombine(lower);
    SplitCombine(upper);
  }

  /** readRTD returns the result register pair shifted right by one: the fault bit dropped, below 0x8000. */
  lemma RtdResultValue(c: Chip)
    ensures RtdResult(c) == RtdCode(Combine16(c.regs(Key(RtdMsbReg)), c.regs(Key(RtdLsbReg))))
    ensures RtdResult(c) < 0x8000
  {
    var c1 := FaultCleared(c);
    var c2 := Logged(BiasSet(c1, true), Sleep(10));
    ConfigRmwEffect(c, ClearFaultValue(Config(c)));
    ConfigRmwEffect(c1, Assign(Config(c1), ConfigBias, true));
    ConfigRmwEffect(c2, Config(c2) | Config1Shot);
    assert Key(ReadAddress(RtdMsbReg) + 1) == Key(RtdLsbReg);
  }

  /** readRTD changes only the configuration register, and leaves it with bias off. */
  lemma RtdSequenceRegisters(c: Chip)
    ensures Config(RtdSequence(c)) == RtdSequenceConfig(Config(c))
    ensures Config(RtdSequence(c)) & ConfigBias == 0
    ensures forall k :: k != Key(ConfigReg) ==> RtdSequence(c).regs(k) == c.regs(k)
  {
    var c1 := FaultCleared(c);
    var c2 := Logged(BiasSet(c1, true), Sleep(10));
    var c4 := Logged(RtdConverted(c), Read(ReadAddress(RtdMsbReg), 2));
    ConfigRmwEffect(c, ClearFaultValue(Config(c)));
    ConfigRmwEffect(c1, Assign(Config(c1), ConfigBias, true));
    ConfigRmwEffect(c2, Config(c2) | Config1Shot);
    ConfigRmwEffect(c4, Assign(Config(c4), ConfigBias, false));
    RtdSequenceConfigBits(Config(c));
  }

  /** readRTD issues exactly this sequence of transfers and delays. */
  lemma RtdSequenceTrace(c: Chip)
    ensures var c1 := ClearFaultValue(Config(c));
            var c2 := Assign(c1, ConfigBias, true);
            var c3 := c2 | Config1Shot;
            RtdSequence(c).trace
            == c.trace + [Read(0x00, 1)] + [Write([0x80, c1])] + [Read(0x00, 1)] + [Write([0x80, c2])]
                       + [Sleep(10)] + [Read(0x00, 1)] + [Write([0x80, c3])] + [Sleep(65)]
                       + [Read(RtdMsbReg, 2)] + [Read(0x00, 1)] + [Write([0x80, RtdSequenceConfig(Config(c))])]
  {
    var c1 := FaultCleared(c);
    var c2 := Logged(BiasSet(c1, true), Sleep(10));
    var c4 := Logged(RtdConverted(c), Read(ReadAddress(RtdMsbReg), 2));
    ConfigRmwEffect(c, ClearFaultValue(Config(c)));
    ConfigRmwEffect(c1, Assign(Config(c1), ConfigBias, true));
    ConfigRmwEffect(c2, Config(c2) | Config1Shot);
    ConfigRmwEffect(c4, Assign(Config(c4), ConfigBias, false));
  }

  /**
   * begin(wires) leaves bias and auto-convert off, the 3-wire bit as asked, the thresholds at
   * (0, 0xFFFF), and ends with a configuration write that carries the fault-clear bit.
   */
  lemma BeginSequenceEffect(c: Chip, wires: Wires)
    ensures Config(BeginSequence(c, wires)) == BeginConfig(Config(c), wires)
    ensures Config(BeginSequence(c, wires)) & ConfigBias == 0
    ensures Config(BeginSequence(c, wires)) & ConfigModeAuto == 0
    ensures (Config(BeginSequence(c, wires)) & Config3Wire != 0) <==> wires == ThreeWire
    ensures LowerThreshold(BeginSequence(c, wires).regs) == 0
    ensures UpperThreshold(BeginSequence(c, wires).regs) == 0xFFFF
    ensures var tr := BeginSequence(c, wires).trace;
            |tr| > 0 && tr[|tr| - 1] == Write([0x80, Config(BeginSequence(c, wires))])
    ensures Config(BeginSequence(c, wires)) & ConfigFaultStat == ConfigFaultStat
  {
    var c1 := WiresSet(c, wires);
    var c2 := BiasSet(c1, false);
    var c3 := AutoConvertSet(c2, false);
    var c4 := ThresholdsSet(c3, 0, 0xFFFF);
    ConfigRmwEffect(c, WiresConfig(Config(c), wires));
    ConfigRmwEffect(c1, Assign(Config(c1), ConfigBias, false));
    ConfigRmwEffect(c2, Assign(Config(c2), ConfigModeAuto, false));
    ThresholdsRoundTrip(c3, 0, 0xFFFF);
    assert Config(c4) == Config(c3);
    ConfigRmwEffect(c4, ClearFaultValue(Config(c4)));
    assert LowerThreshold(BeginSequence(c, wires).regs) == LowerThreshold(c4.regs);
    assert UpperThreshold(BeginSequence(c, wires).regs) == UpperThreshold(c4.regs);
    BeginConfigBits(Config(c), wires);
  }

  /* ---------------------------------------------------------------------
   * Register reads on the wire
   * ------------------------------------------------------------------- */

  /** The `n` bytes the chip shifts out once a read address byte for `a` has gone in: registers `a`, `a + 1`, ... */
  function ShiftedOut(regs: Registers, a: Byte, n: nat): (rx: seq<Byte>)
    ensures |rx| == n
    ensures n > 0 ==> rx[0] == regs(Key(a))
    ensures n > 1 ==> rx[1] == regs(Key(a + 1))
    decreases n
  {
    if n == 0 then [] else [regs(Key(a))] + ShiftedOut(regs, a + 1, n - 1)
  }

  /**
   * The `n` bytes received by a single full-duplex transfer of `n` bytes that begins with the
   * address byte `a`: while the address goes out the chip drives no data (`idle` is whatever the
   * line then reads), so only the first `n - 1` registers arrive.
   */
  function DuplexReceived(regs: Registers, a: Byte, idle: Byte, n: nat): seq<Byte>
    requires n > 0
  {
    ([idle] + ShiftedOut(regs, a, n))[..n]
  }

  /** readRegister8 as written: a one-byte full-duplex transfer. */
  function DuplexRead8(regs: Registers, addr: Byte, idle: Byte): Byte
  {
    DuplexReceived(regs, ReadAddress(addr), idle, 1)[0]
  }

  /** readRegister16 as written: a two-byte full-duplex transfer, first byte received as the MSB. */
  function DuplexRead16(regs: Registers, addr: Byte, idle: Byte): Word
  {
    var rx := DuplexReceived(regs, ReadAddress(addr), idle, 2);
    Combine16(rx[0], rx[1])
  }

  /** Two byte pairs combine to the same 16-bit value exactly when they are equal. */
  lemma Combine16Injective(m1: Byte, l1: Byte, m2: Byte, l2: Byte)
    ensures Combine16(m1, l1) == Combine16(m2, l2) <==> m1 == m2 && l1 == l2
  {
    if Combine16(m1, l1) == Combine16(m2, l2) {
      assert m1 as Word == m2 as Word && l1 as Word == l2 as Word;
    }
  }

  /** As written, an 8-bit read returns the idle line, which is the register only when the two happen to agree. */
  lemma DuplexRead8Shifted(regs: Registers, addr: Byte, idle: Byte)
    ensures DuplexRead8(regs, addr, idle) == idle
    ensures DuplexRead8(regs, addr, idle) == regs(Key(addr)) <==> regs(Key(addr)) == idle
  {
    assert DuplexReceived(regs, ReadAddress(addr), idle, 1) == [idle];
  }

  /**
   * As written, a 16-bit read returns the idle line as MSB and the MSB register as LSB; it is the
   * register pair only when both registers happen to equal the idle line.
   */
  lemma DuplexRead16Shifted(regs: Registers, addr: Byte, idle: Byte)
    ensures DuplexRead16(regs, addr, idle) == Combine16(idle, regs(Key(addr)))
    ensures DuplexRead16(regs, addr, idle) == Combine16(regs(Key(addr)), regs(Key(ReadAddress(addr) + 1)))
            <==> regs(Key(addr)) == idle && regs(Key(ReadAddress(addr) + 1)) == idle
  {
    var a := ReadAddress(addr);
    assert Key(a) == Key(addr);
    assert DuplexReceived(regs, a, idle, 2) == [idle, regs(Key(a))];
    Combine16Injective(idle, regs(Key(addr)), regs(Key(addr)), regs(Key(a + 1)));
  }

  /** A chip whose configuration register holds 0x5A, read with the line idling high, shows the discrepancy. */
  lemma DuplexReadExample()
    ensures var regs: Registers := r => 0x5A;
            DuplexRead8(regs, ConfigReg, 0xFF) == 0xFF != regs(Key(ConfigReg))
  {
    var regs: Registers := r => 0x5A;
    DuplexRead8Shifted(regs, ConfigReg, 0xFF);
  }

  /** Sending the address byte first and then reading, as the corrected reads do, returns the registers addressed. */
  lemma WriteThenReadRegisters(regs: Registers, addr: Byte)
    ensures ShiftedOut(regs, ReadAddress(addr), 1) == [regs(Key(addr))]
    ensures Combine16(ShiftedOut(regs, ReadAddress(addr), 2)[0], ShiftedOut(regs, ReadAddress(addr), 2)[1])
            == Combine16(regs(Key(addr)), regs(Key(ReadAddress(addr) + 1)))
  {
    assert Key(ReadAddress(addr)) == Key(addr);
  }

  /* ---------------------------------------------------------------------
   * The driver object
   * ------------------------------------------------------------------- */

  class Max31865 {
    /** The chip's registers. */
    var regs: Registers
    /** Bus transactions and delays, oldest first. */
    ghost var trace: seq<Event>

    /** The driver object over a chip whose registers hold `chip`; nothing is sent. */
    constructor (chip: Registers)
      ensures Chip(regs, trace) == Chip(chip, [])
    {
      regs := chip;
      trace := [];
    }

    /** One register: the address byte with bit 7 cleared goes out, then one byte comes in. */
    method ReadRegister8(addr: Byte) returns (r: Byte)
      modifies this`trace
      ensures r == regs(Key(addr))
      ensures Chip(regs, trace) == Logged(Chip(old(regs), old(trace)), Read(ReadAddress(addr), 1))
    {
      var a := addr & 0x7F;
      trace := trace + [Read(a, 1)];
      var rx := ShiftedOut(regs, a, 1);
      r := rx[0];
    }

    /** Two consecutive registers, read MSB first after the address byte, as one 16-bit value. */
    method ReadRegister16(addr: Byte) returns (r: Word)
      modifies this`trace
      ensures r == Combine16(regs(Key(addr)), regs(Key(ReadAddress(addr) + 1)))
      ensures Chip(regs, trace) == Logged(Chip(old(regs), old(trace)), Read(ReadAddress(addr), 2))
    {
      var a := addr & 0x7F;
      trace := trace + [Read(a, 2)];
      var rx := ShiftedOut(regs, a, 2);
      r := Combine16(rx[0], rx[1]);
    }

    /** Sends exactly the two bytes {addr | 0x80, data}; the chip stores `data` in the register addressed. */
    method WriteRegister8(addr: Byte, data: Byte)
      modifies this
      ensures Chip(regs, trace) == Written(Chip(old(regs), old(trace)), addr, data)
    {
      var a := addr | 0x80;
      trace := trace + [Write([a, data])];
      regs := Stored(regs, Key(a), data);
    }

    /** The raw fault-status register. */
    method ReadFault() returns (f: Byte)
      modifies this`trace
      ensures f == regs(Key(FaultStatReg))
      ensures Chip(regs, trace) == Logged(Chip(old(regs), old(trace)), Read(FaultStatReg, 1))
    {
      f := ReadRegister8(FaultStatReg);
    }

    method ClearFault()
      modifies this
      ensures Chip(regs, trace) == FaultCleared(Chip(old(regs), old(trace)))
    {
      var t := ReadRegister8(ConfigReg);
      t := t & !FaultClearMask;
      t := t | ConfigFaultStat;
      WriteRegister8(ConfigReg, t);
    }

    method EnableBias(b: bool)
      modifies this
      ensures Chip(regs, trace) == BiasSet(Chip(old(regs), old(trace)), b)
    {
      var t := ReadRegister8(ConfigReg);
      t := Assign(t, ConfigBias, b);
      WriteRegister8(ConfigReg, t);
    }

    method AutoConvert(b: bool)
      modifies this
      ensures Chip(regs, trace) == AutoConvertSet(Chip(old(regs), old(trace)), b)
    {
      var t := ReadRegister8(ConfigReg);
      t := Assign(t, ConfigModeAuto, b);
      WriteRegister8(ConfigReg, t);
    }

    method Enable50Hz(b: bool)
      modifies this
      ensures Chip(regs, trace) == FilterSet(Chip(old(regs), old(trace)), b)
    {
      var t := ReadRegister8(ConfigReg);
      t := Assign(t, ConfigFilt50Hz, b);
      WriteRegister8(ConfigReg, t);
    }

    method SetWires(wires: Wires)
      modifies this
      ensures Chip(regs, trace) == WiresSet(Chip(old(regs), old(trace)), wires)
    {
      var t := ReadRegister8(ConfigReg);
      t := WiresConfig(t, wires);
      WriteRegister8(ConfigReg, t);
    }

    method SetThresholds(lower: Word, upper: Word)
      modifies this
      ensures Chip(regs, trace) == ThresholdsSet(Chip(old(regs), old(trace)), lower, upper)
    {
      WriteRegister8(LFaultLsbReg, (lower & 0xFF) as Byte);
      WriteRegister8(LFaultMsbReg, (lower >> 8) as Byte);
      WriteRegister8(HFaultLsbReg, (upper & 0xFF) as Byte);
      WriteRegister8(HFaultMsbReg, (upper >> 8) as Byte);
    }

    /** The raw lower threshold, read as 16 bits from the lower-MSB register. */
    method GetLowerThreshold() returns (v: Word)
      modifies this`trace
      ensures v == LowerThreshold(regs)
      ensures Chip(regs, trace) == Logged(Chip(old(regs), old(trace)), Read(LFaultMsbReg, 2))
    {
      v := ReadRegister16(LFaultMsbReg);
    }

    /** The raw upper threshold, read as 16 bits from the upper-MSB register. */
    method GetUpperThreshold() returns (v: Word)
      modifies this`trace
      ensures v == UpperThreshold(regs)
      ensures Chip(regs, trace) == Logged(Chip(old(regs), old(trace)), Read(HFaultMsbReg, 2))
    {
      v := ReadRegister16(HFaultMsbReg);
    }

    /** One-shot conversion; the result register without its fault bit. */
    method ReadRtd() returns (rtd: Word)
      modifies this
      ensures Chip(regs, trace) == RtdSequence(Chip(old(regs), old(trace)))
      ensures rtd == RtdResult(Chip(old(regs), old(trace)))
    {
      ClearFault();
      EnableBias(true);
      trace := trace + [Sleep(10)];
      var t := ReadRegister8(ConfigReg);
      t := t | Config1Shot;
      WriteRegister8(ConfigReg, t);
      trace := trace + [Sleep(65)];
      var r := ReadRegister16(RtdMsbReg);
      EnableBias(false);
      rtd := RtdCode(r);
    }

    method Begin(wires: Wires) returns (ok: bool)
      modifies this
      ensures ok
      ensures Chip(regs, trace) == BeginSequence(Chip(old(regs), old(trace)), wires)
    {
      SetWires(wires);
      EnableBias(false);
      AutoConvert(false);
      SetThresholds(0, 0xFFFF);
      ClearFault();
      ok := true;
    }
  }
}
