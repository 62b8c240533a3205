/**
 * The ADXL345 protocol layer of adxl345.c: register writes framed for the
 * sensor's SPI interface and bracketed by chip-select writes, and the
 * three-write start-up sequence.
 *
 * The layer is modelled against two abstract operations, a pin write
 * (`DIO_pinWrite`) and a transfer of a byte buffer on a channel
 * (`SPI_transfer`); each call appends one event to the link's trace.
 */
module Adxl345 {
  import opened Registers
  import opened DioConfig

  type Byte = bv8

  /** Register addresses of the ADXL345 */
  const PowerCtlReg: Byte := 0x2D
  const DataFormatReg: Byte := 0x31

  /** Register values and frame flags */
  const Reset: Byte := 0x00
  const FourG: Byte := 0x01
  const SetMeasure: Byte := 0x08
  const MultiByteEn: Byte := 0x40
  const ReadOperation: Byte := 0x80

  /** The sensor's chip-select line: PA4 in every write. */
  const CsPort: nat := PortA
  const CsPin: nat := Pa4

  /** What the layer asks of the drivers below it. */
  datatype LinkEvent =
    | PinWrite(port: nat, pin: nat, level: Code)
    | Transfer(channel: nat, bytes: seq<Byte>)

  /** The two bytes ADXL345_write sends: the address with the multi-byte flag, then the value. */
  function Frame(address: Byte, value: Byte): seq<Byte> {
    [address | MultiByteEn, value]
  }

  /** A write frame carries its register address in the low six bits, the multi-byte flag set and the read flag clear. */
  lemma FrameLayout(address: Byte, value: Byte)
    requires address < 0x40
    ensures var f := Frame(address, value);
      && |f| == 2
      && f[0] & 0x3F == address
      && f[0] & MultiByteEn == MultiByteEn
      && f[0] & ReadOperation == 0
      && f[1] == value
  {
  }

  /** Distinct register addresses give distinct frames, so the sensor can tell the writes apart. */
  lemma FrameInjective(a: Byte, v: Byte, b: Byte, w: Byte)
    requires a < 0x40 && b < 0x40 && Frame(a, v) == Frame(b, w)
    ensures a == b && v == w
  {
    FrameLayout(a, v);
    FrameLayout(b, w);
  }

  /** One register write as the code issues it: PA4 HIGH, the frame, PA4 LOW. */
  function WriteTraceAsWritten(channel: nat, address: Byte, value: Byte): seq<LinkEvent> {
    [PinWrite(CsPort, CsPin, High), Transfer(channel, Frame(address, value)), PinWrite(CsPort, CsPin, Low)]
  }

  /** One register write with an active-low chip select: PA4 LOW, the frame, PA4 HIGH. */
  function WriteTrace(channel: nat, address: Byte, value: Byte): seq<LinkEvent> {
    [PinWrite(CsPort, CsPin, Low), Transfer(channel, Frame(address, value)), PinWrite(CsPort, CsPin, High)]
  }

  /** ADXL345_init as the code issues it: the data format (range of 4 g), then the power control register cleared, then measurement on, each write with PA4 HIGH around the frame. */
  function InitTraceAsWritten(channel: nat): seq<LinkEvent> {
    WriteTraceAsWritten(channel, DataFormatReg, FourG)
    + WriteTraceAsWritten(channel, PowerCtlReg, Reset)
    + WriteTraceAsWritten(channel, PowerCtlReg, SetMeasure)
  }

  /** ADXL345_init with an active-low chip select: the same three writes, each with PA4 LOW around the frame. */
  function InitTrace(channel: nat): seq<LinkEvent> {
    WriteTrace(channel, DataFormatReg, FourG)
    + WriteTrace(channel, PowerCtlReg, Reset)
    + WriteTrace(channel, PowerCtlReg, SetMeasure)
  }

  /** The frames a trace hands to the SPI driver, in order. */
  function Frames(t: seq<LinkEvent>): seq<seq<Byte>> {
    if t == [] then []
    else Frames(t[..|t| - 1]) + (if t[|t| - 1].Transfer? then [t[|t| - 1].bytes] else [])
  }

  /** The level the trace leaves on the chip-select line, starting from `initial`. */
  function CsLevel(t: seq<LinkEvent>, initial: Code): Code {
    if t == [] then initial
    else
      var e := t[|t| - 1];
      if e.PinWrite? && e.port == CsPort && e.pin == CsPin then e.level else CsLevel(t[..|t| - 1], initial)
  }

  /** Every transfer is preceded by the chip select driven to `active` and followed by it driven to `idle`. */
  predicate Bracketed(t: seq<LinkEvent>, active: Code, idle: Code) {
    forall i | 0 <= i < |t| && t[i].Transfer? ::
      0 < i < |t| - 1 && t[i - 1] == PinWrite(CsPort, CsPin, active) && t[i + 1] == PinWrite(CsPort, CsPin, idle)
  }

  /** Frames of a concatenation are the frames of each part. */
  lemma {:induction false} FramesAppend(a: seq<LinkEvent>, b: seq<LinkEvent>)
    ensures Frames(a + b) == Frames(a) + Frames(b)
    decreases |b|
  {
    if b == [] {
      assert a + b == a;
    } else {
      var init := b[..|b| - 1];
      assert (a + b)[..|a + b| - 1] == a + init;
      FramesAppend(a, init);
    }
  }

  /** A write hands exactly one frame, `[address | 0x40, value]`, to the SPI driver. */
  lemma WriteSendsOneFrame(channel: nat, address: Byte, value: Byte)
    ensures Frames(WriteTrace(channel, address, value)) == [Frame(address, value)]
    ensures Frames(WriteTraceAsWritten(channel, address, value)) == [Frame(address, value)]
  {
    var t := WriteTrace(channel, address, value);
    assert Frames(t[..1]) == [] by { assert t[..1][..0] == []; }
    assert Frames(t[..2]) == [Frame(address, value)] by { assert t[..2][..1] == t[..1]; }
    assert t[..2] == t[..|t| - 1];
    var u := WriteTraceAsWritten(channel, address, value);
    assert Frames(u[..1]) == [] by { assert u[..1][..0] == []; }
    assert Frames(u[..2]) == [Frame(address, value)] by { assert u[..2][..1] == u[..1]; }
    assert u[..2] == u[..|u| - 1];
  }

  /** Start-up sends exactly three frames, in the order data format, power control reset, measure. */
  lemma InitFrames(channel: nat)
    ensures Frames(InitTraceAsWritten(channel))
         == [Frame(DataFormatReg, FourG), Frame(PowerCtlReg, Reset), Frame(PowerCtlReg, SetMeasure)]
    ensures Frames(InitTrace(channel))
         == [Frame(DataFormatReg, FourG), Frame(PowerCtlReg, Reset), Frame(PowerCtlReg, SetMeasure)]
  {
    WriteSendsOneFrame(channel, DataFormatReg, FourG);
    WriteSendsOneFrame(channel, PowerCtlReg, Reset);
    WriteSendsOneFrame(channel, PowerCtlReg, SetMeasure);
    var u1 := WriteTraceAsWritten(channel, DataFormatReg, FourG);
    var u2 := WriteTraceAsWritten(channel, PowerCtlReg, Reset);
    var u3 := WriteTraceAsWritten(channel, PowerCtlReg, SetMeasure);
    FramesAppend(u1 + u2, u3);
    FramesAppend(u1, u2);
    var w1 := WriteTrace(channel, DataFormatReg, FourG);
    var w2 := WriteTrace(channel, PowerCtlReg, Reset);
    var w3 := WriteTrace(channel, PowerCtlReg, SetMeasure);
    FramesAppend(w1 + w2, w3);
    FramesAppend(w1, w2);
  }

  /** Every transfer of start-up goes to the caller's channel, and every pin write to PA4. */
  lemma InitStaysOnChannel(channel: nat)
    ensures forall e | e in InitTraceAsWritten(channel) :: if e.Transfer? then e.channel == channel else e.port == CsPort && e.pin == CsPin
    ensures forall e | e in InitTrace(channel) :: if e.Transfer? then e.channel == channel else e.port == CsPort && e.pin == CsPin
  {
  }

  /** As written, every transfer of start-up is preceded by PA4 driven HIGH and followed by PA4 driven LOW. */
  lemma InitAsWrittenBracketed(channel: nat)
    ensures Bracketed(InitTraceAsWritten(channel), High, Low)
    ensures !Bracketed(InitTraceAsWritten(channel), Low, High)
  {
    var t := InitTraceAsWritten(channel);
    assert |t| == 9;
    forall i | 0 <= i < |t| && t[i].Transfer?
      ensures 0 < i < |t| - 1 && t[i - 1] == PinWrite(CsPort, CsPin, High) && t[i + 1] == PinWrite(CsPort, CsPin, Low)
    {
      assert i == 1 || i == 4 || i == 7;
    }
    assert t[1].Transfer? && t[0] != PinWrite(CsPort, CsPin, Low);
  }

  /** With the corrected polarity every transfer of start-up happens with PA4 LOW and is followed by PA4 HIGH. */
  lemma InitBracketed(channel: nat)
    ensures Bracketed(InitTrace(channel), Low, High)
  {
    var t := InitTrace(channel);
    assert |t| == 9;
    forall i | 0 <= i < |t| && t[i].Transfer?
      ensures 0 < i < |t| - 1 && t[i - 1] == PinWrite(CsPort, CsPin, Low) && t[i + 1] == PinWrite(CsPort, CsPin, High)
    {
      assert i == 1 || i == 4 || i == 7;
    }
  }

  /** As written, the frame goes out while PA4 is HIGH, which deselects an active-low slave, and the line is left LOW (selected). */
  lemma WriteAsWrittenDeselects(channel: nat, address: Byte, value: Byte, initial: Code)
    ensures var t := WriteTraceAsWritten(channel, address, value);
      && t[1].Transfer? && CsLevel(t[..1], initial) == High && CsLevel(t, initial) == Low
  {
    var t := WriteTraceAsWritten(channel, address, value);
    assert t[..1][..0] == [];
    assert t[..2] == t[..1] + [t[1]];
  }

  /** Corrected, the frame goes out while PA4 is LOW, and the line is left HIGH (deselected). */
  lemma WriteSelectsDevice(channel: nat, address: Byte, value: Byte, initial: Code)
    ensures var t := WriteTrace(channel, address, value);
      && t[1].Transfer? && CsLevel(t[..1], initial) == Low && CsLevel(t, initial) == High
      && Bracketed(t, Low, High)
  {
    var t := WriteTrace(channel, address, value);
    assert t[..1][..0] == [];
    assert t[..2] == t[..1] + [t[1]];
  }

  /** The link to the sensor: everything the layer asked of the drivers, oldest first. */
  class SensorLink {
    var trace: seq<LinkEvent>

    constructor ()
      ensures trace == []
    {
      trace := [];
    }

    /**
     * ADXL345_write as written. The `port` and `pin` arguments are ignored:
     * the chip select is always PA4.
     */
    method WriteAsWritten(channel: nat, port: nat, pin: nat, address: Byte, value: Byte)
      modifies this
      ensures trace == old(trace) + WriteTraceAsWritten(channel, address, value)
    {
      var data := new Byte[2];
      data[0] := address | MultiByteEn;
      data[1] := value;
      assert data[..] == Frame(address, value);
      trace := trace + [PinWrite(PortA, Pa4, High)];
      trace := trace + [Transfer(channel, data[..])];
      trace := trace + [PinWrite(PortA, Pa4, Low)];
    }

    /** ADXL345_write with the chip select driven LOW for the transfer, as the sensor needs. */
    method Write(channel: nat, port: nat, pin: nat, address: Byte, value: Byte)
      modifies this
      ensures trace == old(trace) + WriteTrace(channel, address, value)
    {
      var data := new Byte[2];
      data[0] := address | MultiByteEn;
      data[1] := value;
      assert data[..] == Frame(address, value);
      trace := trace + [PinWrite(PortA, Pa4, Low)];
      trace := trace + [Transfer(channel, data[..])];
      trace := trace + [PinWrite(PortA, Pa4, High)];
    }

    /** ADXL345_init as written: three register writes in a fixed order, each through WriteAsWritten. */
    method InitAsWritten(channel: nat, port: nat, pin: nat)
      modifies this
      ensures trace == old(trace) + InitTraceAsWritten(channel)
    {
      WriteAsWritten(channel, port, pin, DataFormatReg, FourG);
      WriteAsWritten(channel, port, pin, PowerCtlReg, Reset);
      WriteAsWritten(channel, port, pin, PowerCtlReg, SetMeasure);
    }

    /** ADXL345_init with the corrected chip-select polarity: the same writes, each through Write. */
    method Init(channel: nat, port: nat, pin: nat)
      modifies this
      ensures trace == old(trace) + InitTrace(channel)
    {
      Write(channel, port, pin, DataFormatReg, FourG);
      Write(channel, port, pin, PowerCtlReg, Reset);
      Write(channel, port, pin, PowerCtlReg, SetMeasure);
    }
  }
}
