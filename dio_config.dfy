/**
 * The GPIO configuration table: the enumerations of dio_cfg.h, one record per
 * table row, and the table shipped in dio_cfg.c.
 */
module DioConfig {
  import opened Registers

  /** Number of GPIO ports the register tables cover (`NUMBER_OF_PORTS`). */
  const PortsNumber: nat := 5

  /** DioPinState_t */
  const Low: Code := 0
  const High: Code := 1
  const PinStateMax: Code := 2

  /** DioPort_t */
  const PortA: nat := 0
  const PortB: nat := 1
  const PortC: nat := 2
  const PortD: nat := 3
  const PortH: nat := 4
  const MaxPort: nat := 5

  /** DioPin_t: a pin enumerator is the pin's bit number within its port. */
  const Pa4: nat := 4
  const Pa5: nat := 5
  const Pa6: nat := 6
  const Pa7: nat := 7
  const MaxPin: nat := 16

  /** DioMode_t */
  const Input: Code := 0
  const Output: Code := 1
  const Function: Code := 2
  const Analog: Code := 3
  const MaxMode: Code := 4

  /** DioType_t */
  const PushPull: Code := 0
  const OpenDrain: Code := 1
  const MaxType: Code := 2

  /** DioSpeed_t */
  const LowSpeed: Code := 0
  const MediumSpeed: Code := 1
  const HighSpeed: Code := 2
  const VeryHighSpeed: Code := 3
  const MaxSpeed: Code := 4

  /** DioResistor_t */
  const NoResistor: Code := 0
  const PullUp: Code := 1
  const PullDown: Code := 2
  const MaxResistor: Code := 3

  /** DioFunction_t: AF0 to AF15 are 0 to 15. */
  const Af0: Code := 0
  const Af5: Code := 5
  const MaxFunction: Code := 16

  /** DioConfig_t: one row of the configuration table */
  datatype DioConfig = DioConfig(
    port: nat,
    pin: nat,
    mode: Code,
    otype: Code,
    speed: Code,
    resistor: Code,
    altFunction: Code)

  /** Every field is one of its enumeration's values, as DIO_init asserts. */
  predicate WellFormed(c: DioConfig) {
    && c.port < MaxPort
    && c.pin < MaxPin
    && c.mode < MaxMode
    && c.otype < MaxType
    && c.speed < MaxSpeed
    && c.resistor < MaxResistor
    && c.altFunction < MaxFunction
  }

  /** The table of dio_cfg.c: PA4 drives the accelerometer's chip select, PA5 to PA7 are SPI1 (AF5). */
  const Table: seq<DioConfig> := [
    DioConfig(PortA, Pa4, Output, PushPull, LowSpeed, NoResistor, Af5),
    DioConfig(PortA, Pa5, Function, PushPull, LowSpeed, NoResistor, Af5),
    DioConfig(PortA, Pa6, Function, PushPull, LowSpeed, NoResistor, Af5),
    DioConfig(PortA, Pa7, Function, PushPull, LowSpeed, NoResistor, Af5)
  ]

  /** Every port the table may name has its own entry in the register tables. */
  lemma PortsInRange(c: DioConfig)
    requires WellFormed(c)
    ensures c.port < PortsNumber
  {
  }

  lemma TableWellFormed()
    ensures forall c | c in Table :: WellFormed(c)
  {
  }
}
