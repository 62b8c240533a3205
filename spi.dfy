/**
 * The SPI driver of spi.c: SPI_init programs CR1 and CR2 of every channel the
 * configuration table names, SPI_transfer sends a buffer word by word and
 * SPI_receive fills a buffer with the words clocked in.
 *
 * The bit masks `SPI_CR1_*` and `SPI_CR2_SSOE` come from the vendor header,
 * which is not part of this model: an SpiLayout gives the position of each of
 * them, and a valid layout only promises that every mask is a single bit of
 * a 16-bit register and that the CR1 masks are pairwise distinct.
 *
 * What the status-register polling loops wait for, and what the data
 * register holds when it is read, are hardware behaviour: each completed
 * wait is an event on the bus trace, and the words read by SPI_receive are
 * a parameter.
 */
module Spi {
  import opened Registers
  import opened SpiConfig

  /** A 16-bit control register. */
  type Half = w: Bits | |w| == 16 witness seq(16, i => false)

  /** A data-register word (`uint16_t`). */
  type Word = bv16

  /** The CR1 bits SPI_init programs. */
  datatype Cr1Bit = Cpha | Cpol | Mstr | Br0 | Br1 | Br2 | Spe | LsbFirst | Ssi | Ssm | RxOnly | Dff

  /** The bit position of every mask the driver uses. */
  datatype SpiLayout = SpiLayout(
    cpha: nat, cpol: nat, mstr: nat, br0: nat, br1: nat, br2: nat, spe: nat,
    lsbFirst: nat, ssi: nat, ssm: nat, rxOnly: nat, dff: nat, ssoe: nat)
  {
    function Pos(f: Cr1Bit): nat {
      match f
      case Cpha => cpha
      case Cpol => cpol
      case Mstr => mstr
      case Br0 => br0
      case Br1 => br1
      case Br2 => br2
      case Spe => spe
      case LsbFirst => lsbFirst
      case Ssi => ssi
      case Ssm => ssm
      case RxOnly => rxOnly
      case Dff => dff
    }

    /** The positions of all CR1 masks. */
    function Cr1Masks(): set<nat> {
      {cpha, cpol, mstr, br0, br1, br2, spe, lsbFirst, ssi, ssm, rxOnly, dff}
    }

    /** Every mask is a bit of a 16-bit register. */
    predicate InRange() {
      (forall f :: Pos(f) < 16) && ssoe < 16
    }

    /** Single bits of a 16-bit register; each CR1 mask differs from all later ones. */
    predicate Valid() {
      && InRange()
      && cpha !in {cpol, mstr, br0, br1, br2, spe, lsbFirst, ssi, ssm, rxOnly, dff}
      && cpol !in {mstr, br0, br1, br2, spe, lsbFirst, ssi, ssm, rxOnly, dff}
      && mstr !in {br0, br1, br2, spe, lsbFirst, ssi, ssm, rxOnly, dff}
      && br0 !in {br1, br2, spe, lsbFirst, ssi, ssm, rxOnly, dff}
      && br1 !in {br2, spe, lsbFirst, ssi, ssm, rxOnly, dff}
      && br2 !in {spe, lsbFirst, ssi, ssm, rxOnly, dff}
      && spe !in {lsbFirst, ssi, ssm, rxOnly, dff}
      && lsbFirst !in {ssi, ssm, rxOnly, dff}
      && ssi !in {ssm, rxOnly, dff}
      && ssm !in {rxOnly, dff}
      && rxOnly != dff
    }
  }

  /** The positions of the STM32F4 reference manual (RM0090, section 28.5). */
  const Stm32Layout := SpiLayout(0, 1, 2, 3, 4, 5, 6, 7, 8, 9, 10, 11, 2)

  lemma Stm32LayoutValid()
    ensures Stm32Layout.Valid()
  {
  }

  /** The two control registers of one channel. */
  datatype SpiRegisters = SpiRegisters(cr1: Half, cr2: Half)

  // What each branch chain of SPI_init writes into CR1 or CR2.

  /** CPHA takes bit 0 of the mode's index, CPOL bit 1. */
  function ModeAssign(l: SpiLayout, mode: Code): Assignment {
    map[l.Pos(Cpha) := Bit(mode, 0), l.Pos(Cpol) := Bit(mode, 1)]
  }

  function HierarchyAssign(l: SpiLayout, hierarchy: Code): Assignment {
    map[l.Pos(Mstr) := hierarchy == Master]
  }

  /** BR0, BR1 and BR2 take bits 0, 1 and 2 of the divider's index. */
  function BaudRateAssign(l: SpiLayout, baudRate: Code): Assignment {
    map[l.Pos(Br0) := Bit(baudRate, 0), l.Pos(Br1) := Bit(baudRate, 1), l.Pos(Br2) := Bit(baudRate, 2)]
  }

  function SlaveSelectCr1Assign(l: SpiLayout, slaveSelect: Code): Assignment {
    if slaveSelect == SoftwareNss then map[l.Pos(Ssm) := true, l.Pos(Ssi) := true]
    else map[l.Pos(Ssm) := false]
  }

  function SlaveSelectCr2Assign(l: SpiLayout, slaveSelect: Code): Assignment {
    if slaveSelect == SoftwareNss then map[]
    else map[l.ssoe := slaveSelect == HardwareNssEnabled]
  }

  function FrameFormatAssign(l: SpiLayout, frameFormat: Code): Assignment {
    map[l.Pos(LsbFirst) := frameFormat == Lsb]
  }

  function TransferTypeAssign(l: SpiLayout, typeTransfer: Code): Assignment {
    map[l.Pos(RxOnly) := typeTransfer == ReceiveMode]
  }

  function DataSizeAssign(l: SpiLayout, dataSize: Code): Assignment {
    map[l.Pos(Dff) := dataSize == Bits16]
  }

  function EnableAssign(l: SpiLayout): Assignment {
    map[l.Pos(Spe) := true]
  }

  // The same effects, one single-bit write at a time, as the driver performs them.

  function ModeBits(l: SpiLayout, w: Half, mode: Code): Half
    requires l.InRange()
  {
    Put(Put(w, l.Pos(Cpha), Bit(mode, 0)), l.Pos(Cpol), Bit(mode, 1))
  }

  function HierarchyBits(l: SpiLayout, w: Half, hierarchy: Code): Half
    requires l.InRange()
  {
    Put(w, l.Pos(Mstr), hierarchy == Master)
  }

  function BaudRateBits(l: SpiLayout, w: Half, baudRate: Code): Half
    requires l.InRange()
  {
    Put(Put(Put(w, l.Pos(Br0), Bit(baudRate, 0)), l.Pos(Br1), Bit(baudRate, 1)), l.Pos(Br2), Bit(baudRate, 2))
  }

  function SlaveSelectCr1Bits(l: SpiLayout, w: Half, slaveSelect: Code): Half
    requires l.InRange()
  {
    if slaveSelect == SoftwareNss then Put(Put(w, l.Pos(Ssm), true), l.Pos(Ssi), true)
    else Put(w, l.Pos(Ssm), false)
  }

  function SlaveSelectCr2Bits(l: SpiLayout, w: Half, slaveSelect: Code): Half
    requires l.InRange()
  {
    if slaveSelect == SoftwareNss then w
    else Put(w, l.ssoe, slaveSelect == HardwareNssEnabled)
  }

  function FrameFormatBits(l: SpiLayout, w: Half, frameFormat: Code): Half
    requires l.InRange()
  {
    Put(w, l.Pos(LsbFirst), frameFormat == Lsb)
  }

  function TransferTypeBits(l: SpiLayout, w: Half, typeTransfer: Code): Half
    requires l.InRange()
  {
    Put(w, l.Pos(RxOnly), typeTransfer == ReceiveMode)
  }

  function DataSizeBits(l: SpiLayout, w: Half, dataSize: Code): Half
    requires l.InRange()
  {
    Put(w, l.Pos(Dff), dataSize == Bits16)
  }

  /** CR1 after one table entry: every chain in program order, then SPE. */
  function Cr1After(l: SpiLayout, w: Half, c: SpiConfig): Half
    requires l.InRange()
  {
    var w1 := ModeBits(l, w, c.mode);
    var w2 := HierarchyBits(l, w1, c.hierarchy);
    var w3 := BaudRateBits(l, w2, c.baudRate);
    var w4 := SlaveSelectCr1Bits(l, w3, c.slaveSelect);
    var w5 := FrameFormatBits(l, w4, c.frameFormat);
    var w6 := TransferTypeBits(l, w5, c.typeTransfer);
    var w7 := DataSizeBits(l, w6, c.dataSize);
    Put(w7, l.Pos(Spe), true)
  }

  /** The channel's registers after one table entry. */
  function ConfigureChannel(l: SpiLayout, r: SpiRegisters, c: SpiConfig): SpiRegisters
    requires l.InRange()
  {
    SpiRegisters(Cr1After(l, r.cr1, c), SlaveSelectCr2Bits(l, r.cr2, c.slaveSelect))
  }

  /** The registers of all channels after the table `cfgs`, entry by entry. */
  function InitSpec(l: SpiLayout, rs: seq<SpiRegisters>, cfgs: seq<SpiConfig>): (r: seq<SpiRegisters>)
    requires l.InRange() && |rs| == PortsNumber && forall c | c in cfgs :: WellFormed(c)
    ensures |r| == PortsNumber
    decreases |cfgs|
  {
    if cfgs == [] then rs
    else
      var prev := InitSpec(l, rs, cfgs[..|cfgs| - 1]);
      var c := cfgs[|cfgs| - 1];
      assert c in cfgs && WellFormed(c);
      prev[c.channel := ConfigureChannel(l, prev[c.channel], c)]
  }

  // The branch chains of SPI_init, one set or clear at a time.

  /** Clock phase and polarity. */
  method ProgramMode(l: SpiLayout, cr1: Half, mode: Code) returns (r: Half)
    requires l.Valid() && mode < MaxMode
    ensures r == ModeBits(l, cr1, mode)
  {
    var cpha, cpol := l.Pos(Cpha), l.Pos(Cpol);
    if mode == Mode0 {
      r := ClearBit(cr1, cpha);
      r := ClearBit(r, cpol);
    } else if mode == Mode1 {
      r := SetBit(cr1, cpha);
      r := ClearBit(r, cpol);
    } else if mode == Mode2 {
      r := ClearBit(cr1, cpha);
      r := SetBit(r, cpol);
    } else if mode == Mode3 {
      r := SetBit(cr1, cpha);
      r := SetBit(r, cpol);
    } else {
      assert false;
    }
  }

  /** Master or slave. */
  method ProgramHierarchy(l: SpiLayout, cr1: Half, hierarchy: Code) returns (r: Half)
    requires l.Valid() && hierarchy < MaxHierarchy
    ensures r == HierarchyBits(l, cr1, hierarchy)
  {
    var mstr := l.Pos(Mstr);
    if hierarchy == Master {
      r := SetBit(cr1, mstr);
    } else if hierarchy == Slave {
      r := ClearBit(cr1, mstr);
    } else {
      assert false;
    }
  }

  /** The clock divider: the three BR bits. */
  method ProgramBaudRate(l: SpiLayout, cr1: Half, baudRate: Code) returns (r: Half)
    requires l.Valid() && baudRate < MaxFpclk
    ensures r == BaudRateBits(l, cr1, baudRate)
  {
    var br0, br1, br2 := l.Pos(Br0), l.Pos(Br1), l.Pos(Br2);
    if baudRate == Fpclk2 {
      r := ClearBit(cr1, br0);
      r := ClearBit(r, br1);
      r := ClearBit(r, br2);
    } else if baudRate == Fpclk4 {
      r := SetBit(cr1, br0);
      r := ClearBit(r, br1);
      r := ClearBit(r, br2);
    } else if baudRate == Fpclk8 {
      r := ClearBit(cr1, br0);
      r := SetBit(r, br1);
      r := ClearBit(r, br2);
    } else if baudRate == Fpclk16 {
      r := SetBit(cr1, br0);
      r := SetBit(r, br1);
      r := ClearBit(r, br2);
    } else if baudRate == Fpclk32 {
      r := ClearBit(cr1, br0);
      r := ClearBit(r, br1);
      r := SetBit(r, br2);
    } else if baudRate == Fpclk64 {
      r := SetBit(cr1, br0);
      r := ClearBit(r, br1);
      r := SetBit(r, br2);
    } else if baudRate == Fpclk128 {
      r := ClearBit(cr1, br0);
      r := SetBit(r, br1);
      r := SetBit(r, br2);
    } else if baudRate == Fpclk256 {
      r := SetBit(cr1, br0);
      r := SetBit(r, br1);
      r := SetBit(r, br2);
    } else {
      assert false;
    }
  }

  /** NSS management: SSM and SSI in CR1, SSOE in CR2. */
  method ProgramSlaveSelect(l: SpiLayout, cr1: Half, cr2: Half, slaveSelect: Code) returns (r1: Half, r2: Half)
    requires l.Valid() && slaveSelect < MaxNss
    ensures r1 == SlaveSelectCr1Bits(l, cr1, slaveSelect)
    ensures r2 == SlaveSelectCr2Bits(l, cr2, slaveSelect)
  {
    var ssm, ssi := l.Pos(Ssm), l.Pos(Ssi);
    if slaveSelect == SoftwareNss {
      r1 := SetBit(cr1, ssm);
      r1 := SetBit(r1, ssi);
      r2 := cr2;
    } else if slaveSelect == HardwareNssEnabled {
      r1 := ClearBit(cr1, ssm);
      r2 := SetBit(cr2, l.ssoe);
    } else if slaveSelect == HardwareNssDisabled {
      r1 := ClearBit(cr1, ssm);
      r2 := ClearBit(cr2, l.ssoe);
    } else {
      assert false;
    }
  }

  /** Bit order on the wire. */
  method ProgramFrameFormat(l: SpiLayout, cr1: Half, frameFormat: Code) returns (r: Half)
    requires l.Valid() && frameFormat < MaxFrameFormat
    ensures r == FrameFormatBits(l, cr1, frameFormat)
  {
    var lsbFirst := l.Pos(LsbFirst);
    if frameFormat == Msb {
      r := ClearBit(cr1, lsbFirst);
    } else if frameFormat == Lsb {
      r := SetBit(cr1, lsbFirst);
    } else {
      assert false;
    }
  }

  /** Receive-only or full duplex. */
  method ProgramTransferType(l: SpiLayout, cr1: Half, typeTransfer: Code) returns (r: Half)
    requires l.Valid() && typeTransfer < MaxTypeTransfer
    ensures r == TransferTypeBits(l, cr1, typeTransfer)
  {
    var rxOnly := l.Pos(RxOnly);
    if typeTransfer == ReceiveMode {
      r := SetBit(cr1, rxOnly);
    } else if typeTransfer == FullDuplex {
      r := ClearBit(cr1, rxOnly);
    } else {
      assert false;
    }
  }

  /** 8-bit or 16-bit frames. */
  method ProgramDataSize(l: SpiLayout, cr1: Half, dataSize: Code) returns (r: Half)
    requires l.Valid() && dataSize < MaxDataSize
    ensures r == DataSizeBits(l, cr1, dataSize)
  {
    var dff := l.Pos(Dff);
    if dataSize == Bits8 {
      r := ClearBit(cr1, dff);
    } else if dataSize == Bits16 {
      r := SetBit(cr1, dff);
    } else {
      assert false;
    }
  }

  /** One iteration of SPI_init's loop: every chain in turn, then SPE. */
  method ConfigureEntry(l: SpiLayout, regs: SpiRegisters, c: SpiConfig) returns (r: SpiRegisters)
    requires l.Valid() && WellFormed(c)
    ensures r == ConfigureChannel(l, regs, c)
  {
    var cr1 := ProgramMode(l, regs.cr1, c.mode);
    cr1 := ProgramHierarchy(l, cr1, c.hierarchy);
    cr1 := ProgramBaudRate(l, cr1, c.baudRate);
    var cr2;
    cr1, cr2 := ProgramSlaveSelect(l, cr1, regs.cr2, c.slaveSelect);
    cr1 := ProgramFrameFormat(l, cr1, c.frameFormat);
    cr1 := ProgramTransferType(l, cr1, c.typeTransfer);
    cr1 := ProgramDataSize(l, cr1, c.dataSize);
    var spe := l.Pos(Spe);
    cr1 := SetBit(cr1, spe);
    r := SpiRegisters(cr1, cr2);
  }

  // What one table entry leaves in the channel's registers.

  /** CPHA is set for modes 1 and 3, CPOL for modes 2 and 3. */
  lemma ModeEncoding(l: SpiLayout, regs: SpiRegisters, c: SpiConfig)
    requires l.Valid() && WellFormed(c)
    ensures var r := ConfigureChannel(l, regs, c).cr1;
      && (r[l.Pos(Cpha)] <==> c.mode == Mode1 || c.mode == Mode3)
      && (r[l.Pos(Cpol)] <==> c.mode == Mode2 || c.mode == Mode3)
  {
  }

  /** MSTR is set exactly for a master. */
  lemma HierarchyEncoding(l: SpiLayout, regs: SpiRegisters, c: SpiConfig)
    requires l.Valid() && WellFormed(c)
    ensures ConfigureChannel(l, regs, c).cr1[l.Pos(Mstr)] <==> c.hierarchy == Master
  {
  }

  /** BR2 BR1 BR0 read as a binary number give the divider's index, fPCLK/2 being 0. */
  lemma BaudRateEncoding(l: SpiLayout, regs: SpiRegisters, c: SpiConfig)
    requires l.Valid() && WellFormed(c)
    ensures var r := ConfigureChannel(l, regs, c).cr1;
      (if r[l.Pos(Br0)] then 1 else 0) + 2 * (if r[l.Pos(Br1)] then 1 else 0) + 4 * (if r[l.Pos(Br2)] then 1 else 0)
      == c.baudRate as int
  {
  }

  /** Software NSS sets SSM and SSI and leaves CR2 alone. */
  lemma SoftwareSlaveSelect(l: SpiLayout, regs: SpiRegisters, c: SpiConfig)
    requires l.Valid() && WellFormed(c) && c.slaveSelect == SoftwareNss
    ensures var r := ConfigureChannel(l, regs, c);
      r.cr1[l.Pos(Ssm)] && r.cr1[l.Pos(Ssi)] && r.cr2 == regs.cr2
  {
  }

  /** Hardware NSS clears SSM, leaves SSI alone, and sets SSOE exactly when the NSS output is enabled. */
  lemma HardwareSlaveSelect(l: SpiLayout, regs: SpiRegisters, c: SpiConfig)
    requires l.Valid() && WellFormed(c) && c.slaveSelect != SoftwareNss
    ensures var r := ConfigureChannel(l, regs, c);
      && !r.cr1[l.Pos(Ssm)]
      && r.cr1[l.Pos(Ssi)] == regs.cr1[l.Pos(Ssi)]
      && (r.cr2[l.ssoe] <==> c.slaveSelect == HardwareNssEnabled)
  {
  }

  /** LSBFIRST, RXONLY and DFF follow their settings, and SPE is always left set. */
  lemma FlagEncoding(l: SpiLayout, regs: SpiRegisters, c: SpiConfig)
    requires l.Valid() && WellFormed(c)
    ensures var r := ConfigureChannel(l, regs, c).cr1;
      && (r[l.Pos(LsbFirst)] <==> c.frameFormat == Lsb)
      && (r[l.Pos(RxOnly)] <==> c.typeTransfer == ReceiveMode)
      && (r[l.Pos(Dff)] <==> c.dataSize == Bits16)
      && r[l.Pos(Spe)]
  {
  }

  /** No CR1 bit outside the programmed masks changes. */
  lemma OtherCr1BitsUnchanged(l: SpiLayout, regs: SpiRegisters, c: SpiConfig, k: nat)
    requires l.Valid() && WellFormed(c) && k < 16 && k !in l.Cr1Masks()
    ensures ConfigureChannel(l, regs, c).cr1[k] == regs.cr1[k]
  {
  }

  /** SSOE is the only CR2 bit an entry may change. */
  lemma OtherCr2BitsUnchanged(l: SpiLayout, regs: SpiRegisters, c: SpiConfig, k: nat)
    requires l.Valid() && WellFormed(c) && k < 16 && k != l.ssoe
    ensures ConfigureChannel(l, regs, c).cr2[k] == regs.cr2[k]
  {
  }

  // The same effects as assignments, so that whole tables can be composed.

  /** Everything one entry writes into CR1, later chains winning. */
  function Cr1Writes(l: SpiLayout, c: SpiConfig): Assignment {
    ModeAssign(l, c.mode) + HierarchyAssign(l, c.hierarchy) + BaudRateAssign(l, c.baudRate)
    + SlaveSelectCr1Assign(l, c.slaveSelect) + FrameFormatAssign(l, c.frameFormat)
    + TransferTypeAssign(l, c.typeTransfer) + DataSizeAssign(l, c.dataSize) + EnableAssign(l)
  }

  /** Everything one entry writes into CR2. */
  function Cr2Writes(l: SpiLayout, c: SpiConfig): Assignment {
    SlaveSelectCr2Assign(l, c.slaveSelect)
  }

  /** Each chain's single-bit writes are its assignment. */
  lemma ChainsAgree(l: SpiLayout, w: Half, c: SpiConfig)
    requires l.InRange()
    ensures ModeBits(l, w, c.mode) == Apply(w, ModeAssign(l, c.mode))
    ensures HierarchyBits(l, w, c.hierarchy) == Apply(w, HierarchyAssign(l, c.hierarchy))
    ensures BaudRateBits(l, w, c.baudRate) == Apply(w, BaudRateAssign(l, c.baudRate))
    ensures SlaveSelectCr1Bits(l, w, c.slaveSelect) == Apply(w, SlaveSelectCr1Assign(l, c.slaveSelect))
    ensures SlaveSelectCr2Bits(l, w, c.slaveSelect) == Apply(w, SlaveSelectCr2Assign(l, c.slaveSelect))
    ensures FrameFormatBits(l, w, c.frameFormat) == Apply(w, FrameFormatAssign(l, c.frameFormat))
    ensures TransferTypeBits(l, w, c.typeTransfer) == Apply(w, TransferTypeAssign(l, c.typeTransfer))
    ensures DataSizeBits(l, w, c.dataSize) == Apply(w, DataSizeAssign(l, c.dataSize))
    ensures Put(w, l.Pos(Spe), true) == Apply(w, EnableAssign(l))
  {
    ApplyNothing(w);
    var m := Bit(c.mode, 0);
    ApplyPut(w, map[], l.Pos(Cpha), m);
    ApplyPut(w, map[l.Pos(Cpha) := m], l.Pos(Cpol), Bit(c.mode, 1));
    ApplyPut(w, map[], l.Pos(Mstr), c.hierarchy == Master);
    var b0, b1 := Bit(c.baudRate, 0), Bit(c.baudRate, 1);
    ApplyPut(w, map[], l.Pos(Br0), b0);
    ApplyPut(w, map[l.Pos(Br0) := b0], l.Pos(Br1), b1);
    ApplyPut(w, map[l.Pos(Br0) := b0, l.Pos(Br1) := b1], l.Pos(Br2), Bit(c.baudRate, 2));
    ApplyPut(w, map[], l.Pos(Ssm), c.slaveSelect == SoftwareNss);
    ApplyPut(w, map[l.Pos(Ssm) := true], l.Pos(Ssi), true);
    ApplyPut(w, map[], l.ssoe, c.slaveSelect == HardwareNssEnabled);
    ApplyPut(w, map[], l.Pos(LsbFirst), c.frameFormat == Lsb);
    ApplyPut(w, map[], l.Pos(RxOnly), c.typeTransfer == ReceiveMode);
    ApplyPut(w, map[], l.Pos(Dff), c.dataSize == Bits16);
    ApplyPut(w, map[], l.Pos(Spe), true);
  }

  /** Programming an entry applies its two assignments. */
  lemma WritesAgree(l: SpiLayout, r: SpiRegisters, c: SpiConfig)
    requires l.InRange()
    ensures ConfigureChannel(l, r, c) == SpiRegisters(Apply(r.cr1, Cr1Writes(l, c)), Apply(r.cr2, Cr2Writes(l, c)))
  {
    var w0 := r.cr1;
    var w1 := ModeBits(l, w0, c.mode);
    var w2 := HierarchyBits(l, w1, c.hierarchy);
    var w3 := BaudRateBits(l, w2, c.baudRate);
    var w4 := SlaveSelectCr1Bits(l, w3, c.slaveSelect);
    var w5 := FrameFormatBits(l, w4, c.frameFormat);
    var w6 := TransferTypeBits(l, w5, c.typeTransfer);
    var w7 := DataSizeBits(l, w6, c.dataSize);
    ChainsAgree(l, w0, c);
    ChainsAgree(l, w1, c);
    ChainsAgree(l, w2, c);
    ChainsAgree(l, w3, c);
    ChainsAgree(l, w4, c);
    ChainsAgree(l, w5, c);
    ChainsAgree(l, w6, c);
    ChainsAgree(l, w7, c);
    ChainsAgree(l, r.cr2, c);
    var a1 := ModeAssign(l, c.mode);
    var a2 := a1 + HierarchyAssign(l, c.hierarchy);
    var a3 := a2 + BaudRateAssign(l, c.baudRate);
    var a4 := a3 + SlaveSelectCr1Assign(l, c.slaveSelect);
    var a5 := a4 + FrameFormatAssign(l, c.frameFormat);
    var a6 := a5 + TransferTypeAssign(l, c.typeTransfer);
    var a7 := a6 + DataSizeAssign(l, c.dataSize);
    ApplyThen(w0, a1, HierarchyAssign(l, c.hierarchy));
    ApplyThen(w0, a2, BaudRateAssign(l, c.baudRate));
    ApplyThen(w0, a3, SlaveSelectCr1Assign(l, c.slaveSelect));
    ApplyThen(w0, a4, FrameFormatAssign(l, c.frameFormat));
    ApplyThen(w0, a5, TransferTypeAssign(l, c.typeTransfer));
    ApplyThen(w0, a6, DataSizeAssign(l, c.dataSize));
    ApplyThen(w0, a7, EnableAssign(l));
  }

  /** Everything the entries of `cfgs` naming channel `ch` write into its CR1, later entries winning. */
  function Cr1ChannelWrites(l: SpiLayout, cfgs: seq<SpiConfig>, ch: nat): Assignment
    decreases |cfgs|
  {
    if cfgs == [] then map[]
    else
      var prev := Cr1ChannelWrites(l, cfgs[..|cfgs| - 1], ch);
      var c := cfgs[|cfgs| - 1];
      if c.channel == ch then prev + Cr1Writes(l, c) else prev
  }

  /** Everything the entries of `cfgs` naming channel `ch` write into its CR2. */
  function Cr2ChannelWrites(l: SpiLayout, cfgs: seq<SpiConfig>, ch: nat): Assignment
    decreases |cfgs|
  {
    if cfgs == [] then map[]
    else
      var prev := Cr2ChannelWrites(l, cfgs[..|cfgs| - 1], ch);
      var c := cfgs[|cfgs| - 1];
      if c.channel == ch then prev + Cr2Writes(l, c) else prev
  }

  /** Each channel ends up as its own registers under the assignments of its own entries. */
  lemma {:induction false} InitByChannel(l: SpiLayout, rs: seq<SpiRegisters>, cfgs: seq<SpiConfig>, ch: nat)
    requires l.InRange() && |rs| == PortsNumber && (forall c | c in cfgs :: WellFormed(c)) && ch < PortsNumber
    ensures InitSpec(l, rs, cfgs)[ch]
         == SpiRegisters(Apply(rs[ch].cr1, Cr1ChannelWrites(l, cfgs, ch)), Apply(rs[ch].cr2, Cr2ChannelWrites(l, cfgs, ch)))
    decreases |cfgs|
  {
    if cfgs == [] {
      ApplyNothing(rs[ch].cr1);
      ApplyNothing(rs[ch].cr2);
    } else {
      var init := cfgs[..|cfgs| - 1];
      var c := cfgs[|cfgs| - 1];
      assert forall d | d in init :: d in cfgs;
      InitByChannel(l, rs, init, ch);
      if c.channel == ch {
        var prev := InitSpec(l, rs, init)[ch];
        WritesAgree(l, prev, c);
        ApplyThen(rs[ch].cr1, Cr1ChannelWrites(l, init, ch), Cr1Writes(l, c));
        ApplyThen(rs[ch].cr2, Cr2ChannelWrites(l, init, ch), Cr2Writes(l, c));
      }
    }
  }

  /** A channel no entry names keeps its registers. */
  lemma {:induction false} InitUntouchedChannel(l: SpiLayout, rs: seq<SpiRegisters>, cfgs: seq<SpiConfig>, ch: nat)
    requires l.InRange() && |rs| == PortsNumber && (forall c | c in cfgs :: WellFormed(c)) && ch < PortsNumber
    requires forall c | c in cfgs :: c.channel != ch
    ensures InitSpec(l, rs, cfgs)[ch] == rs[ch]
    decreases |cfgs|
  {
    if cfgs != [] {
      var init := cfgs[..|cfgs| - 1];
      assert forall d | d in init :: d in cfgs;
      assert cfgs[|cfgs| - 1] in cfgs;
      InitUntouchedChannel(l, rs, init, ch);
    }
  }

  /** Running SPI_init a second time with the same table changes nothing. */
  lemma InitIdempotent(l: SpiLayout, rs: seq<SpiRegisters>, cfgs: seq<SpiConfig>)
    requires l.InRange() && |rs| == PortsNumber && forall c | c in cfgs :: WellFormed(c)
    ensures InitSpec(l, InitSpec(l, rs, cfgs), cfgs) == InitSpec(l, rs, cfgs)
  {
    var once := InitSpec(l, rs, cfgs);
    var twice := InitSpec(l, once, cfgs);
    forall ch | 0 <= ch < PortsNumber
      ensures twice[ch] == once[ch]
    {
      InitByChannel(l, rs, cfgs, ch);
      InitByChannel(l, once, cfgs, ch);
      ApplyIdempotent(rs[ch].cr1, Cr1ChannelWrites(l, cfgs, ch));
      ApplyIdempotent(rs[ch].cr2, Cr2ChannelWrites(l, cfgs, ch));
    }
  }

  /** The shipped table leaves SPI1 a mode 3 master at fPCLK/4, MSB first, 8-bit, with the NSS output driven. */
  lemma ShippedTable(rs: seq<SpiRegisters>)
    requires |rs| == PortsNumber
    ensures var r := InitSpec(Stm32Layout, rs, Table);
      && r[1..] == rs[1..]
      && r[0].cr1[0] && r[0].cr1[1] && r[0].cr1[2]
      && r[0].cr1[3] && !r[0].cr1[4] && !r[0].cr1[5]
      && r[0].cr1[6] && !r[0].cr1[7] && !r[0].cr1[9] && !r[0].cr1[10] && !r[0].cr1[11]
      && r[0].cr1[8] == rs[0].cr1[8]
      && r[0].cr2[2]
  {
    var l, c := Stm32Layout, Table[0];
    Stm32LayoutValid();
    assert InitSpec(l, rs, Table) == rs[0 := ConfigureChannel(l, rs[0], c)] by {
      assert Table[..0] == [];
    }
    ModeEncoding(l, rs[0], c);
    HierarchyEncoding(l, rs[0], c);
    BaudRateEncoding(l, rs[0], c);
    HardwareSlaveSelect(l, rs[0], c);
    FlagEncoding(l, rs[0], c);
  }

  // The bus, as the driver sees it.

  /** One completed step of the driver on the bus of a channel. */
  datatype SpiEvent =
    | TxeSeen(channel: nat)             // a polling loop saw TXE set
    | NotBusySeen(channel: nat)         // a polling loop saw BSY clear
    | RxneSeen(channel: nat)            // a polling loop saw RXNE set
    | DataWrite(channel: nat, word: Word)
    | DataRead(channel: nat)
    | StatusRead(channel: nat)

  /** The loop of SPI_transfer: wait for TXE, then write the next word. */
  function SendTrace(channel: nat, words: seq<Word>): seq<SpiEvent>
    decreases |words|
  {
    if words == [] then []
    else SendTrace(channel, words[..|words| - 1]) + [TxeSeen(channel), DataWrite(channel, words[|words| - 1])]
  }

  /** SPI_transfer: the words, then wait for TXE and for BSY to clear, then read DR and SR. */
  function TransferTrace(channel: nat, words: seq<Word>): seq<SpiEvent> {
    SendTrace(channel, words) + [TxeSeen(channel), NotBusySeen(channel), DataRead(channel), StatusRead(channel)]
  }

  /** SPI_receive: for each word, write a dummy 0, wait for RXNE, read DR. */
  function ReceiveTrace(channel: nat, n: nat): seq<SpiEvent>
    decreases n
  {
    if n == 0 then []
    else ReceiveTrace(channel, n - 1) + [DataWrite(channel, 0), RxneSeen(channel), DataRead(channel)]
  }

  /** The words written to DR, in order. */
  function WrittenWords(t: seq<SpiEvent>): seq<Word>
    decreases |t|
  {
    if t == [] then []
    else WrittenWords(t[..|t| - 1]) + (if t[|t| - 1].DataWrite? then [t[|t| - 1].word] else [])
  }

  lemma {:induction false} WrittenWordsAppend(a: seq<SpiEvent>, b: seq<SpiEvent>)
    ensures WrittenWords(a + b) == WrittenWords(a) + WrittenWords(b)
    decreases |b|
  {
    if b == [] {
      assert a + b == a;
    } else {
      assert (a + b)[..|a + b| - 1] == a + b[..|b| - 1];
      WrittenWordsAppend(a, b[..|b| - 1]);
    }
  }

  /** Word `k` is written in the step after a TXE wait, every second event from the start. */
  lemma {:induction false} SendTraceShape(channel: nat, words: seq<Word>)
    ensures var t := SendTrace(channel, words);
      && |t| == 2 * |words|
      && forall k | 0 <= k < |t| :: t[k] == if k % 2 == 0 then TxeSeen(channel) else DataWrite(channel, words[k / 2])
    decreases |words|
  {
    if words != [] {
      var init := words[..|words| - 1];
      SendTraceShape(channel, init);
      var t := SendTrace(channel, words);
      forall k | 0 <= k < |t|
        ensures t[k] == if k % 2 == 0 then TxeSeen(channel) else DataWrite(channel, words[k / 2])
      {
        if k < 2 * |init| {
          assert words[k / 2] == init[k / 2];
        } else if k == 2 * |init| {
          assert k % 2 == 0;
        } else {
          assert k % 2 == 1 && k / 2 == |init|;
        }
      }
    }
  }

  /**
   * SPI_transfer writes exactly the buffer to DR, word by word in index order,
   * each write right after a TXE wait, and ends with the TXE wait, the BSY
   * wait, a read of DR and a read of SR.
   */
  lemma TransferShape(channel: nat, words: seq<Word>)
    ensures var t := TransferTrace(channel, words);
      && |t| == 2 * |words| + 4
      && (forall k | 0 <= k < |words| :: t[2 * k] == TxeSeen(channel) && t[2 * k + 1] == DataWrite(channel, words[k]))
      && t[2 * |words|..] == [TxeSeen(channel), NotBusySeen(channel), DataRead(channel), StatusRead(channel)]
  {
    SendTraceShape(channel, words);
    var t := TransferTrace(channel, words);
    forall k | 0 <= k < |words|
      ensures t[2 * k] == TxeSeen(channel) && t[2 * k + 1] == DataWrite(channel, words[k])
    {
      assert (2 * k + 1) / 2 == k;
    }
  }

  /** A trace without DR writes writes no words. */
  lemma {:induction false} NoWrittenWords(t: seq<SpiEvent>)
    requires forall k | 0 <= k < |t| :: !t[k].DataWrite?
    ensures WrittenWords(t) == []
    decreases |t|
  {
    if t != [] {
      NoWrittenWords(t[..|t| - 1]);
    }
  }

  lemma OneWrittenWord(channel: nat, w: Word, e: SpiEvent)
    requires !e.DataWrite?
    ensures WrittenWords([e, DataWrite(channel, w)]) == [w]
    ensures WrittenWords([DataWrite(channel, w), e]) == [w]
  {
    NoWrittenWords([e]);
    NoWrittenWords([DataWrite(channel, w), e][..1][..0]);
    assert [e, DataWrite(channel, w)][..1] == [e];
  }

  /** The words SPI_transfer writes are the buffer. */
  lemma {:induction false} TransferWritesBuffer(channel: nat, words: seq<Word>)
    ensures WrittenWords(TransferTrace(channel, words)) == words
  {
    var tail := [TxeSeen(channel), NotBusySeen(channel), DataRead(channel), StatusRead(channel)];
    WrittenWordsAppend(SendTrace(channel, words), tail);
    NoWrittenWords(tail);
    SendWritesWords(channel, words);
  }

  lemma {:induction false} SendWritesWords(channel: nat, words: seq<Word>)
    ensures WrittenWords(SendTrace(channel, words)) == words
    decreases |words|
  {
    if words != [] {
      var init := words[..|words| - 1];
      var w := words[|words| - 1];
      var step := [TxeSeen(channel), DataWrite(channel, w)];
      assert SendTrace(channel, words) == SendTrace(channel, init) + step;
      assert WrittenWords(SendTrace(channel, init)) == init by {
        SendWritesWords(channel, init);
      }
      assert WrittenWords(SendTrace(channel, init) + step) == WrittenWords(SendTrace(channel, init)) + WrittenWords(step) by {
        WrittenWordsAppend(SendTrace(channel, init), step);
      }
      assert WrittenWords(step) == [w] by {
        OneWrittenWord(channel, w, TxeSeen(channel));
      }
      assert words == init + [w];
    }
  }

  /**
   * SPI_receive writes a 0 to DR, waits for RXNE and reads DR, once per word
   * and in that order.
   */
  lemma {:induction false} ReceiveShape(channel: nat, n: nat)
    ensures var t := ReceiveTrace(channel, n);
      && |t| == 3 * n
      && forall k | 0 <= k < |t| ::
           t[k] == if k % 3 == 0 then DataWrite(channel, 0) else if k % 3 == 1 then RxneSeen(channel) else DataRead(channel)
    decreases n
  {
    if n > 0 {
      ReceiveShape(channel, n - 1);
      var t := ReceiveTrace(channel, n);
      forall k | 3 * (n - 1) <= k < |t|
        ensures t[k] == if k % 3 == 0 then DataWrite(channel, 0) else if k % 3 == 1 then RxneSeen(channel) else DataRead(channel)
      {
        assert k - 3 * (n - 1) == k % 3;
      }
    }
  }

  /** SPI_receive writes nothing to DR but the dummy zeros. */
  lemma {:induction false} ReceiveWritesZeros(channel: nat, n: nat)
    ensures WrittenWords(ReceiveTrace(channel, n)) == seq(n, _ => 0)
    decreases n
  {
    if n > 0 {
      var step := [DataWrite(channel, 0), RxneSeen(channel), DataRead(channel)];
      ReceiveWritesZeros(channel, n - 1);
      WrittenWordsAppend(ReceiveTrace(channel, n - 1), step);
      WrittenWordsAppend([DataWrite(channel, 0), RxneSeen(channel)], [DataRead(channel)]);
      OneWrittenWord(channel, 0, RxneSeen(channel));
      NoWrittenWords([DataRead(channel)]);
      assert step == [DataWrite(channel, 0), RxneSeen(channel)] + [DataRead(channel)];
    }
  }

  /** Every event of a transfer or a reception is on the caller's channel. */
  lemma {:induction false} TracesStayOnChannel(channel: nat, words: seq<Word>, n: nat)
    ensures forall e | e in TransferTrace(channel, words) :: e.channel == channel
    ensures forall e | e in ReceiveTrace(channel, n) :: e.channel == channel
  {
    SendTraceShape(channel, words);
    ReceiveShape(channel, n);
  }

  /** The SPI peripherals: the control registers of every channel and the bus. */
  class SpiDriver {
    const layout: SpiLayout
    /** CR1 and CR2 of SPI1 to SPI4 (`controlRegister1`, `controlRegister2`). */
    const regs: array<SpiRegisters>
    /** Everything the driver has done on the buses, oldest first. */
    var bus: seq<SpiEvent>

    predicate Valid()
      reads this
    {
      layout.Valid() && regs.Length == PortsNumber
    }

    constructor (l: SpiLayout, initial: seq<SpiRegisters>)
      requires l.Valid() && |initial| == PortsNumber
      ensures Valid() && layout == l && regs[..] == initial && bus == [] && fresh(regs)
    {
      layout := l;
      regs := new SpiRegisters[PortsNumber](i requires 0 <= i < PortsNumber => initial[i]);
      bus := [];
    }

    /** SPI_init: program every entry of the table into its channel's registers. */
    method Init(cfgs: seq<SpiConfig>)
      requires Valid() && forall c | c in cfgs :: WellFormed(c)
      modifies regs
      ensures regs[..] == InitSpec(layout, old(regs[..]), cfgs)
    {
      var i: nat := 0;
      while i < |cfgs|
        invariant i <= |cfgs|
        invariant regs[..] == InitSpec(layout, old(regs[..]), cfgs[..i])
      {
        var c := cfgs[i];
        assert c in cfgs;
        var r := ConfigureEntry(layout, regs[c.channel], c);
        regs[c.channel] := r;
        assert cfgs[..i + 1][..i] == cfgs[..i];
        i := i + 1;
      }
      assert cfgs[..i] == cfgs;
    }

    /** SPI_transfer: send `data[..size]` on `channel`. */
    method Transfer(channel: nat, data: array<Word>, size: nat)
      requires Valid() && channel < MaxChannel && 0 < size <= data.Length && size < 0x1_0000
      modifies this
      ensures bus == old(bus) + TransferTrace(channel, data[..size])
    {
      var i: nat := 0;
      while i < size
        invariant i <= size
        invariant bus == old(bus) + SendTrace(channel, data[..i])
      {
        bus := bus + [TxeSeen(channel)];
        bus := bus + [DataWrite(channel, data[i])];
        assert data[..i + 1][..i] == data[..i];
        i := i + 1;
      }
      bus := bus + [TxeSeen(channel)];
      bus := bus + [NotBusySeen(channel)];
      bus := bus + [DataRead(channel)];
      bus := bus + [StatusRead(channel)];
    }

    /**
     * SPI_receive: fill `data[..size]` from `channel`. The words DR yields at
     * its successive reads are `incoming`.
     */
    method Receive(channel: nat, data: array<Word>, size: nat, incoming: seq<Word>)
      requires Valid() && channel < MaxChannel && 0 < size <= data.Length && size < 0x1_0000
      requires |incoming| == size
      modifies this, data
      ensures data[..size] == incoming && data[size..] == old(data[size..])
      ensures bus == old(bus) + ReceiveTrace(channel, size)
    {
      var i: nat := 0;
      while i < size
        invariant i <= size
        invariant data[..i] == incoming[..i] && data[size..] == old(data[size..])
        invariant bus == old(bus) + ReceiveTrace(channel, i)
      {
        bus := bus + [DataWrite(channel, 0)];
        bus := bus + [RxneSeen(channel)];
        bus := bus + [DataRead(channel)];
        data[i] := incoming[i];
        i := i + 1;
      }
    }
  }
}
