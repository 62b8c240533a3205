/**
 * The SPI configuration table: the enumerations of spi_cfg.h, one record per
 * table row, and the table shipped in spi_cfg.c.
 */
module SpiConfig {
  import opened Registers

  /** Number of SPI peripherals the register tables cover (`SPI_PORTS_NUMBER`). */
  const PortsNumber: nat := 4

  /** SpiChannel_t */
  const Channel1: nat := 0
  const MaxChannel: nat := 4

  /** SpiMode_t: clock phase and polarity */
  const Mode0: Code := 0
  const Mode1: Code := 1
  const Mode2: Code := 2
  const Mode3: Code := 3
  const MaxMode: Code := 4

  /** SpiHierarchy_t */
  const Slave: Code := 0
  const Master: Code := 1
  const MaxHierarchy: Code := 2

  /** SpiBaudRate_t: the peripheral clock divided by 2, 4, ..., 256 */
  const Fpclk2: Code := 0
  const Fpclk4: Code := 1
  const Fpclk8: Code := 2
  const Fpclk16: Code := 3
  const Fpclk32: Code := 4
  const Fpclk64: Code := 5
  const Fpclk128: Code := 6
  const Fpclk256: Code := 7
  const MaxFpclk: Code := 8

  /** SpiSlaveSelect_t: NSS pin management */
  const SoftwareNss: Code := 0
  const HardwareNssEnabled: Code := 1
  const HardwareNssDisabled: Code := 2
  const MaxNss: Code := 3

  /** SpiFrameFormat_t */
  const Msb: Code := 0
  const Lsb: Code := 1
  const MaxFrameFormat: Code := 2

  /** SpiTypeTransfer_t */
  const FullDuplex: Code := 0
  const ReceiveMode: Code := 1
  const MaxTypeTransfer: Code := 2

  /** SpiDataSize_t */
  const Bits8: Code := 0
  const Bits16: Code := 1
  const MaxDataSize: Code := 2

  /** SpiConfig_t: one row of the configuration table */
  datatype SpiConfig = SpiConfig(
    channel: nat,
    mode: Code,
    hierarchy: Code,
    baudRate: Code,
    slaveSelect: Code,
    frameFormat: Code,
    typeTransfer: Code,
    dataSize: Code)

  /** Every field is one of its enumeration's values, as SPI_init asserts. */
  predicate WellFormed(c: SpiConfig) {
    && c.channel < MaxChannel
    && c.mode < MaxMode
    && c.hierarchy < MaxHierarchy
    && c.baudRate < MaxFpclk
    && c.slaveSelect < MaxNss
    && c.frameFormat < MaxFrameFormat
    && c.typeTransfer < MaxTypeTransfer
    && c.dataSize < MaxDataSize
  }

  /** The table of spi_cfg.c: SPI1 as a mode 3 master at fPCLK/4 with hardware NSS output. */
  const Table: seq<SpiConfig> := [
    SpiConfig(Channel1, Mode3, Master, Fpclk4, HardwareNssEnabled, Msb, FullDuplex, Bits8)
  ]

  /** Every channel the table may name has its own entry in the register tables. */
  lemma ChannelsInRange(c: SpiConfig)
    requires WellFormed(c)
    ensures c.channel < PortsNumber
  {
  }

  lemma TableWellFormed()
    ensures forall c | c in Table :: WellFormed(c)
  {
  }
}
