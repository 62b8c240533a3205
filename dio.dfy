/**
 * The GPIO driver of dio.c: DIO_init programs the mode, output type, speed,
 * pull resistor and alternate function fields of every pin the configuration
 * table names; DIO_pinWrite, DIO_pinToggle and DIO_pinRead work on a single
 * bit of a port's output or input data register.
 *
 * A pin's field in a register is the run of bits `width * pin` to
 * `width * pin + width - 1`: one bit per pin in OTYPER, two in MODER, OSPEEDR
 * and PUPDR, four in the alternate function registers (AFRL holds pins 0 to
 * 7, AFRH pins 8 to 15).
 */
module Dio {
  import opened Registers
  import opened DioConfig

  /** A 32-bit GPIO register. */
  type Word32 = w: Bits | |w| == 32 witness seq(32, i => false)

  /** The registers of one GPIO port. */
  datatype PortRegisters = PortRegisters(
    moder: Word32,
    otyper: Word32,
    ospeedr: Word32,
    pupdr: Word32,
    idr: Word32,
    odr: Word32,
    afrLow: Word32,
    afrHigh: Word32)

  // The effect of one table entry.

  /**
   * The alternate function as dio.c writes it: always into AFR[0] (AFRL), at
   * bit `4 * pin`. For pins 8 to 15 every mask `k << (4 * pin)` is shifted
   * out of the 32-bit register, so no bit is written.
   */
  function AfrAsWritten(p: PortRegisters, pin: nat, altFunction: Code): PortRegisters {
    p.(afrLow := Apply(p.afrLow, FieldAssign(4 * pin, 4, altFunction)))
  }

  /** The alternate function written into the register that holds the pin: AFRL for pins 0 to 7, AFRH for 8 to 15. */
  function AfrSelected(p: PortRegisters, pin: nat, altFunction: Code): PortRegisters
    requires pin < MaxPin
  {
    if pin < 8 then p.(afrLow := Apply(p.afrLow, FieldAssign(4 * pin, 4, altFunction)))
    else p.(afrHigh := Apply(p.afrHigh, FieldAssign(4 * (pin - 8), 4, altFunction)))
  }

  /** The port's registers after the table entry `c`. */
  function ConfigurePin(p: PortRegisters, c: DioConfig): PortRegisters
    requires c.pin < MaxPin
  {
    var q := p.(
      moder := Apply(p.moder, FieldAssign(2 * c.pin, 2, c.mode)),
      otyper := Apply(p.otyper, FieldAssign(c.pin, 1, c.otype)),
      ospeedr := Apply(p.ospeedr, FieldAssign(2 * c.pin, 2, c.speed)),
      pupdr := Apply(p.pupdr, FieldAssign(2 * c.pin, 2, c.resistor)));
    AfrSelected(q, c.pin, c.altFunction)
  }

  /** The registers of all ports after the table `cfgs`, entry by entry. */
  function InitSpec(rs: seq<PortRegisters>, cfgs: seq<DioConfig>): (r: seq<PortRegisters>)
    requires |rs| == PortsNumber && forall c | c in cfgs :: WellFormed(c)
    ensures |r| == PortsNumber
    decreases |cfgs|
  {
    if cfgs == [] then rs
    else
      var prev := InitSpec(rs, cfgs[..|cfgs| - 1]);
      var c := cfgs[|cfgs| - 1];
      assert c in cfgs && WellFormed(c);
      prev[c.port := ConfigurePin(prev[c.port], c)]
  }

  /** A pin's settings, each field read as the code it holds. */
  datatype PinSetup = PinSetup(mode: Code, otype: Code, speed: Code, resistor: Code, altFunction: Code)

  /** The settings the registers of `p` hold for `pin`. */
  function Setup(p: PortRegisters, pin: nat): PinSetup
    requires pin < MaxPin
  {
    PinSetup(
      FieldValue(p.moder, 2 * pin, 2),
      FieldValue(p.otyper, pin, 1),
      FieldValue(p.ospeedr, 2 * pin, 2),
      FieldValue(p.pupdr, 2 * pin, 2),
      if pin < 8 then FieldValue(p.afrLow, 4 * pin, 4) else FieldValue(p.afrHigh, 4 * (pin - 8), 4))
  }

  /** The settings a table entry asks for. */
  function Requested(c: DioConfig): PinSetup {
    PinSetup(c.mode, c.otype, c.speed, c.resistor, c.altFunction)
  }

  // The branch chains of DIO_init, one set or clear at a time.

  /** MODER: INPUT 00, OUTPUT 01, FUNCTION 10, ANALOG 11 at bits 2·pin+1, 2·pin. */
  method ProgramMode(w: Word32, pin: nat, mode: Code) returns (r: Word32)
    requires pin < MaxPin && mode < MaxMode
    ensures r == Apply(w, FieldAssign(2 * pin, 2, mode))
  {
    var lo, hi := 2 * pin, 2 * pin + 1;
    if mode == Input {
      r := ClearBit(w, lo);
      r := ClearBit(r, hi);
    } else if mode == Output {
      r := SetBit(w, lo);
      r := ClearBit(r, hi);
    } else if mode == Function {
      r := ClearBit(w, lo);
      r := SetBit(r, hi);
    } else if mode == Analog {
      r := SetBit(w, lo);
      r := SetBit(r, hi);
    } else {
      assert false;
    }
    Field2Put(w, lo, mode);
  }

  /** OTYPER: bit `pin` clear for push-pull, set for open drain. */
  method ProgramType(w: Word32, pin: nat, otype: Code) returns (r: Word32)
    requires pin < MaxPin && otype < MaxType
    ensures r == Apply(w, FieldAssign(pin, 1, otype))
  {
    if otype == PushPull {
      r := ClearBit(w, pin);
    } else if otype == OpenDrain {
      r := SetBit(w, pin);
    } else {
      assert false;
    }
    Field1Put(w, pin, otype);
  }

  /** OSPEEDR: low 00, medium 01, high 10, very high 11. */
  method ProgramSpeed(w: Word32, pin: nat, speed: Code) returns (r: Word32)
    requires pin < MaxPin && speed < MaxSpeed
    ensures r == Apply(w, FieldAssign(2 * pin, 2, speed))
  {
    var lo, hi := 2 * pin, 2 * pin + 1;
    if speed == LowSpeed {
      r := ClearBit(w, lo);
      r := ClearBit(r, hi);
    } else if speed == MediumSpeed {
      r := SetBit(w, lo);
      r := ClearBit(r, hi);
    } else if speed == HighSpeed {
      r := ClearBit(w, lo);
      r := SetBit(r, hi);
    } else if speed == VeryHighSpeed {
      r := SetBit(w, lo);
      r := SetBit(r, hi);
    } else {
      assert false;
    }
    Field2Put(w, lo, speed);
  }

  /** PUPDR: no resistor 00, pull-up 01, pull-down 10. */
  method ProgramResistor(w: Word32, pin: nat, resistor: Code) returns (r: Word32)
    requires pin < MaxPin && resistor < MaxResistor
    ensures r == Apply(w, FieldAssign(2 * pin, 2, resistor))
  {
    var lo, hi := 2 * pin, 2 * pin + 1;
    if resistor == NoResistor {
      r := ClearBit(w, lo);
      r := ClearBit(r, hi);
    } else if resistor == PullUp {
      r := SetBit(w, lo);
      r := ClearBit(r, hi);
    } else if resistor == PullDown {
      r := ClearBit(w, lo);
      r := SetBit(r, hi);
    } else {
      assert false;
    }
    Field2Put(w, lo, resistor);
  }

  /** The sixteen AFx branches: the four bits from `pos` up receive x in binary, low bit first. */
  method ProgramFunctionField(w: Word32, pos: nat, altFunction: Code) returns (r: Word32)
    requires pos + 4 <= 32 && altFunction < MaxFunction
    ensures r == Put(Put(Put(Put(w, pos, Bit(altFunction, 0)), pos + 1, Bit(altFunction, 1)), pos + 2, Bit(altFunction, 2)), pos + 3, Bit(altFunction, 3))
  {
    if altFunction == 0 {
      r := ClearBit(w, pos);
      r := ClearBit(r, pos + 1);
      r := ClearBit(r, pos + 2);
      r := ClearBit(r, pos + 3);
    } else if altFunction == 1 {
      r := SetBit(w, pos);
      r := ClearBit(r, pos + 1);
      r := ClearBit(r, pos + 2);
      r := ClearBit(r, pos + 3);
    } else if altFunction == 2 {
      r := ClearBit(w, pos);
      r := SetBit(r, pos + 1);
      r := ClearBit(r, pos + 2);
      r := ClearBit(r, pos + 3);
    } else if altFunction == 3 {
      r := SetBit(w, pos);
      r := SetBit(r, pos + 1);
      r := ClearBit(r, pos + 2);
      r := ClearBit(r, pos + 3);
    } else if altFunction == 4 {
      r := ClearBit(w, pos);
      r := ClearBit(r, pos + 1);
      r := SetBit(r, pos + 2);
      r := ClearBit(r, pos + 3);
    } else if altFunction == 5 {
      r := SetBit(w, pos);
      r := ClearBit(r, pos + 1);
      r := SetBit(r, pos + 2);
      r := ClearBit(r, pos + 3);
    } else if altFunction == 6 {
      r := ClearBit(w, pos);
      r := SetBit(r, pos + 1);
      r := SetBit(r, pos + 2);
      r := ClearBit(r, pos + 3);
    } else if altFunction == 7 {
      r := SetBit(w, pos);
      r := SetBit(r, pos + 1);
      r := SetBit(r, pos + 2);
      r := ClearBit(r, pos + 3);
    } else if altFunction == 8 {
      r := ClearBit(w, pos);
      r := ClearBit(r, pos + 1);
      r := ClearBit(r, pos + 2);
      r := SetBit(r, pos + 3);
    } else if altFunction == 9 {
      r := SetBit(w, pos);
      r := ClearBit(r, pos + 1);
      r := ClearBit(r, pos + 2);
      r := SetBit(r, pos + 3);
    } else if altFunction == 10 {
      r := ClearBit(w, pos);
      r := SetBit(r, pos + 1);
      r := ClearBit(r, pos + 2);
      r := SetBit(r, pos + 3);
    } else if altFunction == 11 {
      r := SetBit(w, pos);
      r := SetBit(r, pos + 1);
      r := ClearBit(r, pos + 2);
      r := SetBit(r, pos + 3);
    } else if altFunction == 12 {
      r := ClearBit(w, pos);
      r := ClearBit(r, pos + 1);
      r := SetBit(r, pos + 2);
      r := SetBit(r, pos + 3);
    } else if altFunction == 13 {
      r := SetBit(w, pos);
      r := ClearBit(r, pos + 1);
      r := SetBit(r, pos + 2);
      r := SetBit(r, pos + 3);
    } else if altFunction == 14 {
      r := ClearBit(w, pos);
      r := SetBit(r, pos + 1);
      r := SetBit(r, pos + 2);
      r := SetBit(r, pos + 3);
    } else if altFunction == 15 {
      r := SetBit(w, pos);
      r := SetBit(r, pos + 1);
      r := SetBit(r, pos + 2);
      r := SetBit(r, pos + 3);
    } else {
      assert false;
    }
  }

  /** The alternate function programmed into the register that holds the pin. */
  method ProgramFunction(p: PortRegisters, pin: nat, altFunction: Code) returns (r: PortRegisters)
    requires pin < MaxPin && altFunction < MaxFunction
    ensures r == AfrSelected(p, pin, altFunction)
  {
    if pin < 8 {
      var afr := ProgramFunctionField(p.afrLow, 4 * pin, altFunction);
      Field4Put(p.afrLow, 4 * pin, altFunction);
      r := p.(afrLow := afr);
    } else {
      var afr := ProgramFunctionField(p.afrHigh, 4 * (pin - 8), altFunction);
      Field4Put(p.afrHigh, 4 * (pin - 8), altFunction);
      r := p.(afrHigh := afr);
    }
  }

  /** One iteration of DIO_init's loop, on the registers of the entry's port. */
  method ConfigureEntry(p: PortRegisters, c: DioConfig) returns (r: PortRegisters)
    requires WellFormed(c)
    ensures r == ConfigurePin(p, c)
  {
    var moder := ProgramMode(p.moder, c.pin, c.mode);
    var otyper := ProgramType(p.otyper, c.pin, c.otype);
    var ospeedr := ProgramSpeed(p.ospeedr, c.pin, c.speed);
    var pupdr := ProgramResistor(p.pupdr, c.pin, c.resistor);
    r := p.(moder := moder, otyper := otyper, ospeedr := ospeedr, pupdr := pupdr);
    r := ProgramFunction(r, c.pin, c.altFunction);
  }

  // What one table entry leaves in the port's registers.

  /** Every field of the entry's pin reads back the code the entry asks for. */
  lemma ConfigureReadBack(p: PortRegisters, c: DioConfig)
    requires WellFormed(c)
    ensures Setup(ConfigurePin(p, c), c.pin) == Requested(c)
  {
    ConfigureFields(p, c);
    FieldReadBack(p.moder, 2 * c.pin, 2, c.mode);
    FieldReadBack(p.otyper, c.pin, 1, c.otype);
    FieldReadBack(p.ospeedr, 2 * c.pin, 2, c.speed);
    FieldReadBack(p.pupdr, 2 * c.pin, 2, c.resistor);
    if c.pin < 8 {
      FieldReadBack(p.afrLow, 4 * c.pin, 4, c.altFunction);
    } else {
      FieldReadBack(p.afrHigh, 4 * (c.pin - 8), 4, c.altFunction);
    }
  }

  /** The settings of every other pin of the port stay as they were. */
  lemma ConfigureFields(p: PortRegisters, c: DioConfig)
    requires c.pin < MaxPin
    ensures var r := ConfigurePin(p, c);
      && r.moder == Apply(p.moder, FieldAssign(2 * c.pin, 2, c.mode))
      && r.otyper == Apply(p.otyper, FieldAssign(c.pin, 1, c.otype))
      && r.ospeedr == Apply(p.ospeedr, FieldAssign(2 * c.pin, 2, c.speed))
      && r.pupdr == Apply(p.pupdr, FieldAssign(2 * c.pin, 2, c.resistor))
      && (c.pin < 8 ==> r.afrLow == Apply(p.afrLow, FieldAssign(4 * c.pin, 4, c.altFunction)) && r.afrHigh == p.afrHigh)
      && (8 <= c.pin ==> r.afrHigh == Apply(p.afrHigh, FieldAssign(4 * (c.pin - 8), 4, c.altFunction)) && r.afrLow == p.afrLow)
      && r.idr == p.idr && r.odr == p.odr
  {
  }

  lemma ConfigureOtherPin(p: PortRegisters, c: DioConfig, pin: nat)
    requires WellFormed(c) && pin < MaxPin && pin != c.pin
    ensures Setup(ConfigurePin(p, c), pin) == Setup(p, pin)
  {
    ConfigureFields(p, c);
    FieldApart(p.moder, 2 * c.pin, 2, c.mode, 2 * pin);
    FieldApart(p.otyper, c.pin, 1, c.otype, pin);
    FieldApart(p.ospeedr, 2 * c.pin, 2, c.speed, 2 * pin);
    FieldApart(p.pupdr, 2 * c.pin, 2, c.resistor, 2 * pin);
    if pin < 8 {
      if c.pin < 8 {
        FieldApart(p.afrLow, 4 * c.pin, 4, c.altFunction, 4 * pin);
      }
    } else if 8 <= c.pin {
      FieldApart(p.afrHigh, 4 * (c.pin - 8), 4, c.altFunction, 4 * (pin - 8));
    }
  }

  /**
   * Bit by bit: an entry changes only the bits of its own pin's fields, and
   * never the input or output data registers.
   */
  lemma ConfigureFrame(p: PortRegisters, c: DioConfig)
    requires WellFormed(c)
    ensures var r := ConfigurePin(p, c);
      && (forall k | 0 <= k < 32 && k != 2 * c.pin && k != 2 * c.pin + 1 ::
            r.moder[k] == p.moder[k] && r.ospeedr[k] == p.ospeedr[k] && r.pupdr[k] == p.pupdr[k])
      && (forall k | 0 <= k < 32 && k != c.pin :: r.otyper[k] == p.otyper[k])
      && (c.pin < 8 ==>
            r.afrHigh == p.afrHigh && forall k | 0 <= k < 32 && !(4 * c.pin <= k < 4 * c.pin + 4) :: r.afrLow[k] == p.afrLow[k])
      && (8 <= c.pin ==>
            r.afrLow == p.afrLow && forall k | 0 <= k < 32 && !(4 * (c.pin - 8) <= k < 4 * (c.pin - 8) + 4) :: r.afrHigh[k] == p.afrHigh[k])
      && r.idr == p.idr && r.odr == p.odr
  {
    ConfigureFields(p, c);
  }

  // The whole table.

  /** A table entry with no later entry for the same pin of the same port has the last word on that pin. */
  lemma {:induction false} InitReadBack(rs: seq<PortRegisters>, cfgs: seq<DioConfig>, k: nat)
    requires |rs| == PortsNumber && (forall c | c in cfgs :: WellFormed(c)) && k < |cfgs|
    requires forall j | k < j < |cfgs| :: cfgs[j].port != cfgs[k].port || cfgs[j].pin != cfgs[k].pin
    ensures cfgs[k] in cfgs && WellFormed(cfgs[k])
    ensures Setup(InitSpec(rs, cfgs)[cfgs[k].port], cfgs[k].pin) == Requested(cfgs[k])
    decreases |cfgs|
  {
    var init := cfgs[..|cfgs| - 1];
    var c := cfgs[|cfgs| - 1];
    assert c in cfgs && cfgs[k] in cfgs;
    assert forall d | d in init :: d in cfgs;
    var prev := InitSpec(rs, init);
    var port, pin := cfgs[k].port, cfgs[k].pin;
    assert InitSpec(rs, cfgs) == prev[c.port := ConfigurePin(prev[c.port], c)];
    if k == |cfgs| - 1 {
      ConfigureReadBack(prev[c.port], c);
    } else {
      assert Setup(prev[port], pin) == Requested(cfgs[k]) by {
        InitReadBack(rs, init, k);
      }
      if c.port == port {
        ConfigureOtherPin(prev[port], c, pin);
      }
    }
  }

  /** A pin no entry names keeps its settings. */
  lemma {:induction false} InitUnnamedPin(rs: seq<PortRegisters>, cfgs: seq<DioConfig>, port: nat, pin: nat)
    requires |rs| == PortsNumber && (forall c | c in cfgs :: WellFormed(c)) && port < PortsNumber && pin < MaxPin
    requires forall c | c in cfgs :: c.port != port || c.pin != pin
    ensures Setup(InitSpec(rs, cfgs)[port], pin) == Setup(rs[port], pin)
    decreases |cfgs|
  {
    if cfgs != [] {
      var init := cfgs[..|cfgs| - 1];
      var c := cfgs[|cfgs| - 1];
      assert c in cfgs;
      assert forall d | d in init :: d in cfgs;
      InitUnnamedPin(rs, init, port, pin);
      if c.port == port {
        ConfigureOtherPin(InitSpec(rs, init)[port], c, pin);
      }
    }
  }

  /** A port no entry names keeps all its registers. */
  lemma {:induction false} InitUntouchedPort(rs: seq<PortRegisters>, cfgs: seq<DioConfig>, port: nat)
    requires |rs| == PortsNumber && (forall c | c in cfgs :: WellFormed(c)) && port < PortsNumber
    requires forall c | c in cfgs :: c.port != port
    ensures InitSpec(rs, cfgs)[port] == rs[port]
    decreases |cfgs|
  {
    if cfgs != [] {
      var init := cfgs[..|cfgs| - 1];
      assert cfgs[|cfgs| - 1] in cfgs;
      assert forall d | d in init :: d in cfgs;
      InitUntouchedPort(rs, init, port);
    }
  }

  /** DIO_init never changes an input or output data register. */
  lemma {:induction false} InitKeepsData(rs: seq<PortRegisters>, cfgs: seq<DioConfig>, port: nat)
    requires |rs| == PortsNumber && (forall c | c in cfgs :: WellFormed(c)) && port < PortsNumber
    ensures InitSpec(rs, cfgs)[port].idr == rs[port].idr
    ensures InitSpec(rs, cfgs)[port].odr == rs[port].odr
    decreases |cfgs|
  {
    if cfgs != [] {
      var init := cfgs[..|cfgs| - 1];
      var c := cfgs[|cfgs| - 1];
      assert c in cfgs;
      assert forall d | d in init :: d in cfgs;
      InitKeepsData(rs, init, port);
      if c.port == port {
        ConfigureFrame(InitSpec(rs, init)[port], c);
      }
    }
  }

  /** A table of four entries for consecutive pins of port A from PA4 up sets each of those pins. */
  lemma {:induction false} FourPinsOfPortA(rs: seq<PortRegisters>, cfgs: seq<DioConfig>)
    requires |rs| == PortsNumber && (forall c | c in cfgs :: WellFormed(c)) && |cfgs| == 4
    requires forall k | 0 <= k < 4 :: cfgs[k].port == PortA && cfgs[k].pin == Pa4 + k
    ensures var r := InitSpec(rs, cfgs);
      && Setup(r[PortA], Pa4) == Requested(cfgs[0])
      && Setup(r[PortA], Pa5) == Requested(cfgs[1])
      && Setup(r[PortA], Pa6) == Requested(cfgs[2])
      && Setup(r[PortA], Pa7) == Requested(cfgs[3])
  {
    var r := InitSpec(rs, cfgs);
    assert Setup(r[PortA], Pa4) == Requested(cfgs[0]) by { InitReadBack(rs, cfgs, 0); }
    assert Setup(r[PortA], Pa5) == Requested(cfgs[1]) by { InitReadBack(rs, cfgs, 1); }
    assert Setup(r[PortA], Pa6) == Requested(cfgs[2]) by { InitReadBack(rs, cfgs, 2); }
    assert Setup(r[PortA], Pa7) == Requested(cfgs[3]) by { InitReadBack(rs, cfgs, 3); }
  }

  /** A table whose entries all name port A leaves the other ports alone. */
  lemma PortAOnly(rs: seq<PortRegisters>, cfgs: seq<DioConfig>)
    requires |rs| == PortsNumber && (forall c | c in cfgs :: WellFormed(c))
    requires forall k | 0 <= k < |cfgs| :: cfgs[k].port == PortA
    ensures forall port | PortA < port < PortsNumber :: InitSpec(rs, cfgs)[port] == rs[port]
  {
    forall c | c in cfgs
      ensures c.port == PortA
    {
      var k :| 0 <= k < |cfgs| && cfgs[k] == c;
    }
    forall port | PortA < port < PortsNumber
      ensures InitSpec(rs, cfgs)[port] == rs[port]
    {
      InitUntouchedPort(rs, cfgs, port);
    }
  }

  /** The shipped table makes PA4 a push-pull output and PA5 to PA7 alternate function 5, and leaves the other ports alone. */
  lemma ShippedTable(rs: seq<PortRegisters>)
    requires |rs| == PortsNumber
    ensures var r := InitSpec(rs, Table);
      && Setup(r[PortA], Pa4) == PinSetup(Output, PushPull, LowSpeed, NoResistor, Af5)
      && Setup(r[PortA], Pa5) == PinSetup(Function, PushPull, LowSpeed, NoResistor, Af5)
      && Setup(r[PortA], Pa6) == PinSetup(Function, PushPull, LowSpeed, NoResistor, Af5)
      && Setup(r[PortA], Pa7) == PinSetup(Function, PushPull, LowSpeed, NoResistor, Af5)
      && forall port | PortA < port < PortsNumber :: r[port] == rs[port]
  {
    TableWellFormed();
    FourPinsOfPortA(rs, Table);
    PortAOnly(rs, Table);
  }

  // The alternate function registers as dio.c addresses them.

  /** Pins 8 to 15 get no alternate function at all: both AFR registers stay as they were. */
  lemma AfrAsWrittenIgnoresHighPins(p: PortRegisters, pin: nat, altFunction: Code)
    requires 8 <= pin < MaxPin
    ensures AfrAsWritten(p, pin, altFunction) == p
  {
  }

  /** PA9 set to AF7 (USART1) on a port whose AFR registers are clear still reads AF0. */
  lemma AfrAsWrittenCounterexample(p: PortRegisters)
    requires p.afrLow == seq(32, i => false) && p.afrHigh == seq(32, i => false)
    ensures Setup(AfrAsWritten(p, 9, 7), 9).altFunction == Af0
  {
    AfrAsWrittenIgnoresHighPins(p, 9, 7);
  }

  /** For pins 0 to 7 the code as written and the corrected register choice agree. */
  lemma AfrAgreesOnLowPins(p: PortRegisters, pin: nat, altFunction: Code)
    requires pin < 8
    ensures AfrAsWritten(p, pin, altFunction) == AfrSelected(p, pin, altFunction)
  {
  }

  // Single pins.

  /** DIO_pinWrite's effect on a port: ODR bit `pin` becomes 1 for HIGH and 0 for LOW. */
  function WritePin(p: PortRegisters, pin: nat, state: Code): PortRegisters
    requires pin < MaxPin && state < PinStateMax
  {
    p.(odr := if state == High then SetBit(p.odr, pin) else ClearBit(p.odr, pin))
  }

  /** DIO_pinToggle's effect on a port: ODR bit `pin` is inverted. */
  function TogglePin(p: PortRegisters, pin: nat): PortRegisters
    requires pin < MaxPin
  {
    p.(odr := FlipBit(p.odr, pin))
  }

  /** After a write the pin drives the written level; nothing else of the port changes. */
  lemma WriteLevel(p: PortRegisters, pin: nat, state: Code)
    requires pin < MaxPin && state < PinStateMax
    ensures var r := WritePin(p, pin, state);
      && (r.odr[pin] <==> state == High)
      && (forall k | 0 <= k < 32 && k != pin :: r.odr[k] == p.odr[k])
      && r.(odr := p.odr) == p
  {
  }

  /** Toggling flips the pin's output bit and nothing else. */
  lemma ToggleFlips(p: PortRegisters, pin: nat)
    requires pin < MaxPin
    ensures var r := TogglePin(p, pin);
      && r.odr[pin] == !p.odr[pin]
      && (forall k | 0 <= k < 32 && k != pin :: r.odr[k] == p.odr[k])
      && r.(odr := p.odr) == p
  {
  }

  /** Toggling twice restores the port. */
  lemma ToggleTwice(p: PortRegisters, pin: nat)
    requires pin < MaxPin
    ensures TogglePin(TogglePin(p, pin), pin) == p
  {
  }

  /** Toggling a pin after writing it leaves the opposite level. */
  lemma ToggleAfterWrite(p: PortRegisters, pin: nat, state: Code)
    requires pin < MaxPin && state < PinStateMax
    ensures TogglePin(WritePin(p, pin, state), pin) == WritePin(p, pin, if state == High then Low else High)
  {
  }

  /** The GPIO ports: the registers of ports A, B, C, D and H. */
  class GpioPorts {
    /** The registers reached through `moderRegister`, ..., `afrRegister`. */
    const ports: array<PortRegisters>

    predicate Valid()
      reads this
    {
      ports.Length == PortsNumber
    }

    constructor (initial: seq<PortRegisters>)
      requires |initial| == PortsNumber
      ensures Valid() && ports[..] == initial && fresh(ports)
    {
      ports := new PortRegisters[PortsNumber](i requires 0 <= i < PortsNumber => initial[i]);
    }

    /** DIO_init: program every entry of the table into its port's registers. */
    method Init(cfgs: seq<DioConfig>)
      requires Valid() && forall c | c in cfgs :: WellFormed(c)
      modifies ports
      ensures ports[..] == InitSpec(old(ports[..]), cfgs)
    {
      var i: nat := 0;
      while i < |cfgs|
        invariant i <= |cfgs|
        invariant ports[..] == InitSpec(old(ports[..]), cfgs[..i])
      {
        var c := cfgs[i];
        assert c in cfgs;
        var r := ConfigureEntry(ports[c.port], c);
        ports[c.port] := r;
        assert cfgs[..i + 1][..i] == cfgs[..i];
        i := i + 1;
      }
      assert cfgs[..i] == cfgs;
    }

    /** DIO_pinRead: HIGH exactly when IDR bit `pin` is set. Only bits 0 to 15 are read. */
    function PinRead(port: nat, pin: nat): (s: Code)
      requires Valid() && port < MaxPort && pin < MaxPin
      reads this, ports
      ensures s < PinStateMax
      ensures s == High <==> ports[port].idr[pin]
    {
      if ports[port].idr[pin] then High else Low
    }

    /** DIO_pinWrite: drive the pin HIGH or LOW. */
    method PinWrite(port: nat, pin: nat, state: Code)
      requires Valid() && port < MaxPort && pin < MaxPin && state < PinStateMax
      modifies ports
      ensures ports[..] == old(ports[..])[port := WritePin(old(ports[port]), pin, state)]
    {
      var p := ports[port];
      if state == High {
        ports[port] := p.(odr := SetBit(p.odr, pin));
      } else if state == Low {
        ports[port] := p.(odr := ClearBit(p.odr, pin));
      } else {
        assert false;
      }
    }

    /** DIO_pinToggle: invert the pin's output. */
    method PinToggle(port: nat, pin: nat)
      requires Valid() && port < MaxPort && pin < MaxPin
      modifies ports
      ensures ports[..] == old(ports[..])[port := TogglePin(old(ports[port]), pin)]
    {
      var p := ports[port];
      ports[port] := p.(odr := FlipBit(p.odr, pin));
    }
  }
}
