# ADXL345 accelerometer drivers for the STM32F4, in Dafny

This project models the three register-level drivers of an ADXL345 accelerometer on an STM32F4 microcontroller and proves their properties.

- **SPI driver** (`spi.c`):
  - `SPI_init` programs CR1 and CR2 of every SPI channel named in the configuration table.
  - `SPI_transfer` writes a buffer to the data register word by word, then waits for the bus and clears the overrun flag.
  - `SPI_receive` clocks in one word per dummy write.
- **GPIO driver** (`dio.c`):
  - `DIO_init` programs the mode, output type, speed, pull resistor and alternate-function fields of every pin in the table.
  - `DIO_pinWrite`, `DIO_pinToggle` and `DIO_pinRead` each work on one bit of a port's output or input data register.
- **ADXL345 protocol layer** (`adxl345.c`):
  - `ADXL345_write` frames a register write as `[address | 0x40, value]` and brackets it with chip-select writes.
  - `ADXL345_init` issues three such writes in a fixed order.

Modules:

- `Registers`: a register is the sequence of its bits, bit 0 first. It also defines the C operations `|=`, `&= ~` and `^=` on a single bit, and assignments of bit fields with their read-back.
- `SpiConfig` and `DioConfig`: the enumerations of `spi_cfg.h` and `dio_cfg.h`, one record per table row, and the shipped tables.
- `Spi`:
  - The branch chains of `SPI_init`, each proved against a specification of what it writes.
  - The whole-table specification `InitSpec`, with per-channel, idempotence and shipped-table lemmas.
  - The `SpiDriver` class with `Init`, `Transfer` and `Receive`. `Transfer` and `Receive` are proved against traces of bus events.
- `Dio`:
  - The branch chains of `DIO_init`, each proved against a field assignment.
  - Read-back and frame lemmas for one entry and for whole tables.
  - The single-pin operations.
  - The `GpioPorts` class.
- `Adxl345`: the protocol layer, modelled against an abstract pin write and an abstract byte-buffer transfer that append to a trace.
- `CLoops`: the behaviour of the `uint8_t` loop counters.

Modelling choices:

- A C `assert` on an argument becomes a precondition.
- An `else { assert(x < MAX); }` branch that no valid code reaches becomes `assert false`.
- The CR1/CR2 bit masks come from the vendor header. They are abstract positions (`SpiLayout`) that are only required to be distinct bits of a 16-bit register. The shipped-table lemma uses the positions of RM0090, section 28.5.
- Busy-wait loops become events on the bus trace ("TXE seen", "BSY clear seen", "RXNE seen").
- The words `SPI_receive` reads from the data register are a parameter.

## Model

| member | source | states |
|---|---|---|
| SpiConfig.ChannelsInRange | adxl345_code/src/spi.c:106-112 | a well-formed entry's channel indexes the four-entry register tables in bounds |
| SpiConfig.TableWellFormed | adxl345_code/src/spi_cfg.c:35-36 | the shipped SPI table passes every assertion of `SPI_init` |
| Spi.ProgramMode | adxl345_code/src/spi.c:116-139 | the four mode branches write CPHA with bit 0 and CPOL with bit 1 of the mode's index |
| Spi.ProgramHierarchy | adxl345_code/src/spi.c:142-153 | MSTR is written set for a master and clear for a slave |
| Spi.ProgramBaudRate | adxl345_code/src/spi.c:156-207 | the eight baud-rate branches write BR0, BR1 and BR2 with bits 0, 1 and 2 of the divider's index |
| Spi.ProgramSlaveSelect | adxl345_code/src/spi.c:210-228 | software NSS sets SSM and SSI and leaves CR2 alone; hardware NSS clears SSM and writes SSOE set exactly when the NSS output is enabled |
| Spi.ProgramFrameFormat | adxl345_code/src/spi.c:231-242 | LSBFIRST is written set for LSB-first and clear for MSB-first |
| Spi.ProgramTransferType | adxl345_code/src/spi.c:245-256 | RXONLY is written set for receive-only and clear for full duplex |
| Spi.ProgramDataSize | adxl345_code/src/spi.c:259-270 | DFF is written set for 16-bit frames and clear for 8-bit frames |
| Spi.ConfigureEntry | adxl345_code/src/spi.c:114-273 | one loop iteration runs every chain in source order and then sets SPE, giving the channel's registers `ConfigureChannel` specifies |
| Spi.ModeEncoding | adxl345_code/src/spi.c:116-135 | after an entry, CPHA is set iff the mode is 1 or 3 and CPOL is set iff the mode is 2 or 3 |
| Spi.HierarchyEncoding | adxl345_code/src/spi.c:142-149 | after an entry, MSTR is set iff the entry is a master |
| Spi.BaudRateEncoding | adxl345_code/src/spi.c:156-203 | after an entry, BR2 BR1 BR0 read as a binary number equal the divider's index (fPCLK/2 is 000, fPCLK/256 is 111) |
| Spi.SoftwareSlaveSelect | adxl345_code/src/spi.c:210-214 | software NSS leaves SSM and SSI set and CR2 unchanged |
| Spi.HardwareSlaveSelect | adxl345_code/src/spi.c:215-224 | hardware NSS leaves SSM clear, does not touch SSI, and leaves SSOE set iff the NSS output is enabled |
| Spi.FlagEncoding | adxl345_code/src/spi.c:231-273 | LSBFIRST iff LSB-first, RXONLY iff receive-only, DFF iff 16-bit, and SPE always set after an entry |
| Spi.OtherCr1BitsUnchanged | adxl345_code/src/spi.c:114-273 | a CR1 bit outside the programmed masks keeps its value |
| Spi.OtherCr2BitsUnchanged | adxl345_code/src/spi.c:210-224 | no CR2 bit other than SSOE changes |
| Spi.InitByChannel | adxl345_code/src/spi.c:106-273 | after the whole table, each channel's registers are its initial registers under the writes of its own entries, in table order |
| Spi.InitUntouchedChannel | adxl345_code/src/spi.c:106-273 | a channel that no entry names keeps both registers |
| Spi.InitIdempotent | adxl345_code/src/spi.c:114-273 | running `SPI_init` a second time with the same table leaves every register as the first run left it |
| Spi.ShippedTable | adxl345_code/src/spi_cfg.c:35-36 | the shipped table leaves SPI1 a mode 3 master at fPCLK/4, MSB-first, full duplex, 8-bit, with SSOE set, SPE set and SSI untouched, and leaves SPI2 to SPI4 unchanged |
| Spi.SendTraceShape | adxl345_code/src/spi.c:330-338 | the transmit loop alternates a TXE wait and a DR write, and word k of the buffer is the k-th word written |
| Spi.TransferShape | adxl345_code/src/spi.c:330-355 | `SPI_transfer` is one TXE wait and one DR write per buffer word in index order, then a TXE wait, a BSY wait, a DR read and an SR read |
| Spi.SendWritesWords | adxl345_code/src/spi.c:330-338 | the words the transmit loop writes to DR are exactly the buffer |
| Spi.TransferWritesBuffer | adxl345_code/src/spi.c:330-355 | `SPI_transfer` writes exactly the buffer to DR, once each and in order, and writes nothing else |
| Spi.ReceiveShape | adxl345_code/src/spi.c:410-421 | `SPI_receive` is, for each word, a dummy DR write, an RXNE wait and a DR read, in that order |
| Spi.ReceiveWritesZeros | adxl345_code/src/spi.c:412-413 | the only words `SPI_receive` writes to DR are `size` zeros |
| Spi.TracesStayOnChannel | adxl345_code/src/spi.c:321-422 | every bus event of a transfer or a reception is on the caller's channel |
| Spi.SpiDriver.constructor | adxl345_code/src/spi.c:32-43 | the driver starts from the given CR1/CR2 values of the four channels and an empty bus trace |
| Spi.SpiDriver.Init | adxl345_code/src/spi.c:103-276 | the loop leaves the register table as `InitSpec` specifies for the whole configuration table |
| Spi.SpiDriver.Transfer | adxl345_code/src/spi.c:321-356 | the bus trace grows by exactly the transfer trace of `data[0..size-1]`, and the buffer is not modified |
| Spi.SpiDriver.Receive | adxl345_code/src/spi.c:401-422 | `data[0..size-1]` receives the words read from DR in order, the rest of the buffer is unchanged, and the bus trace grows by the reception trace |
| DioConfig.PortsInRange | adxl345_code/src/dio.c:142-143 | a well-formed entry's port indexes the five-entry register tables in bounds |
| DioConfig.TableWellFormed | adxl345_code/src/dio_cfg.c:46-49 | the shipped GPIO table passes every assertion of `DIO_init` |
| Dio.ProgramMode | adxl345_code/src/dio.c:150-174 | the MODER branches write the 2-bit field at bit 2·pin with the mode's index (INPUT 00, OUTPUT 01, FUNCTION 10, ANALOG 11) |
| Dio.ProgramType | adxl345_code/src/dio.c:180-191 | OTYPER bit `pin` is written with the output type (push-pull 0, open drain 1) |
| Dio.ProgramSpeed | adxl345_code/src/dio.c:198-221 | the OSPEEDR branches write the 2-bit field at bit 2·pin with the speed's index |
| Dio.ProgramResistor | adxl345_code/src/dio.c:229-247 | the PUPDR branches write the 2-bit field at bit 2·pin with the resistor's index |
| Dio.ProgramFunctionField | adxl345_code/src/dio.c:254-368 | the sixteen AFx branches write bits pos to pos+3 with bits 0 to 3 of x |
| Dio.ProgramFunction | adxl345_code/src/dio.c:254-368 | the alternate function is written into AFRL for pins 0 to 7 and into AFRH for pins 8 to 15 (corrected register choice) |
| Dio.ConfigureEntry | adxl345_code/src/dio.c:136-369 | one loop iteration gives the port's registers `ConfigurePin` specifies (corrected AFR choice for pins 8–15) |
| Dio.ConfigureReadBack | adxl345_code/src/dio.c:150-368 | after an entry, the entry's pin reads back the entry's mode, type, speed, resistor and alternate function |
| Dio.ConfigureOtherPin | adxl345_code/src/dio.c:150-368 | every other pin of the port keeps all five settings |
| Dio.ConfigureFrame | adxl345_code/src/dio.c:150-368 | only the bits of the entry's own fields change; IDR and ODR never change |
| Dio.InitReadBack | adxl345_code/src/dio.c:136-369 | after the whole table, a pin reads back the settings of the last entry that names it (corrected AFR choice for pins 8–15) |
| Dio.InitUnnamedPin | adxl345_code/src/dio.c:136-369 | a pin no entry names keeps its settings |
| Dio.InitUntouchedPort | adxl345_code/src/dio.c:136-369 | a port no entry names keeps all its registers |
| Dio.InitKeepsData | adxl345_code/src/dio.c:136-369 | `DIO_init` changes no input or output data register |
| Dio.FourPinsOfPortA | adxl345_code/src/dio.c:136-369 | four entries for PA4 to PA7 leave each of those pins with its own entry's settings |
| Dio.PortAOnly | adxl345_code/src/dio.c:136-369 | a table that names only port A leaves ports B, C, D and H unchanged |
| Dio.ShippedTable | adxl345_code/src/dio_cfg.c:46-49 | the shipped table makes PA4 a push-pull low-speed output and PA5 to PA7 alternate function 5, and leaves the other ports alone |
| Dio.AfrAsWrittenIgnoresHighPins | adxl345_code/src/dio.c:77-85 | as written, an alternate function for a pin from 8 to 15 changes neither AFR register |
| Dio.AfrAsWrittenCounterexample | adxl345_code/src/dio.c:254-368 | as written, PA9 configured as AF7 on clear registers still reads AF0 |
| Dio.AfrAgreesOnLowPins | adxl345_code/src/dio.c:254-368 | for pins 0 to 7 the code as written and the corrected register choice agree |
| Dio.WriteLevel | adxl345_code/src/dio.c:491-505 | after a write, ODR bit `pin` is set iff the state is HIGH, and no other bit or register of the port changes |
| Dio.ToggleFlips | adxl345_code/src/dio.c:559 | a toggle inverts ODR bit `pin` and changes nothing else |
| Dio.ToggleTwice | adxl345_code/src/dio.c:559 | toggling twice restores the port |
| Dio.ToggleAfterWrite | adxl345_code/src/dio.c:491-505 | toggling after writing a level leaves the opposite level written |
| Dio.GpioPorts.constructor | adxl345_code/src/dio.c:32-85 | the driver starts from the given registers of ports A, B, C, D and H |
| Dio.GpioPorts.Init | adxl345_code/src/dio.c:133-372 | the loop leaves the port table as `InitSpec` specifies for the whole configuration table (corrected AFR choice for pins 8–15) |
| Dio.GpioPorts.PinRead | adxl345_code/src/dio.c:416-431 | the result is a pin state, HIGH exactly when IDR bit `pin` is set; nothing changes |
| Dio.GpioPorts.PinWrite | adxl345_code/src/dio.c:485-506 | only the addressed port changes, as `WritePin` specifies |
| Dio.GpioPorts.PinToggle | adxl345_code/src/dio.c:550-560 | only the addressed port changes, as `TogglePin` specifies |
| Registers.FieldReadBack | adxl345_code/src/dio.c:150-174 | a bit field assigned a code that fits in its width reads back that code |
| Registers.FieldApart | adxl345_code/src/dio.c:150-174 | assigning one pin's field leaves every field that does not overlap it unchanged |
| Registers.ApplyIdempotent | adxl345_code/src/spi.c:114-273 | applying the same set of bit writes twice equals applying it once |
| Adxl345.FrameLayout | adxl345_code/src/adxl345.c:119-121 | for an address below 0x40, frame byte 0 holds the address in its low six bits with 0x40 set and the read bit 0x80 clear, and byte 1 is the value |
| Adxl345.FrameInjective | adxl345_code/src/adxl345.c:119-121 | different (address, value) pairs give different frames |
| Adxl345.FramesAppend | adxl345_code/src/adxl345.c:72-76 | the frames of consecutive writes are the frames of each write, in order |
| Adxl345.WriteSendsOneFrame | adxl345_code/src/adxl345.c:117-125 | one register write hands exactly one frame, `[address \| 0x40, value]`, to one transfer |
| Adxl345.InitFrames | adxl345_code/src/adxl345.c:72-76 | start-up sends exactly three frames, in this order: (0x31, 0x01), (0x2D, 0x00), (0x2D, 0x08), with the chip-select polarity as written and as corrected |
| Adxl345.InitStaysOnChannel | adxl345_code/src/adxl345.c:69-77 | with either polarity, every transfer of start-up goes to the caller's channel and every pin write goes to PA4, whatever the port and pin arguments |
| Adxl345.InitAsWrittenBracketed | adxl345_code/src/adxl345.c:69-77 | as written, every start-up transfer has PA4 driven HIGH right before it and LOW right after it, and so is not bracketed LOW/HIGH |
| Adxl345.InitBracketed | adxl345_code/src/adxl345.c:69-77 | (corrected polarity) every start-up transfer has PA4 driven LOW right before it and HIGH right after it |
| Adxl345.WriteAsWrittenDeselects | adxl345_code/src/adxl345.c:122-127 | as written, the frame goes out with PA4 HIGH and the line is left LOW |
| Adxl345.WriteSelectsDevice | adxl345_code/src/adxl345.c:122-127 | corrected, the frame goes out with PA4 LOW, the line is left HIGH, and the transfer is bracketed LOW/HIGH |
| Adxl345.SensorLink.constructor | adxl345_code/src/adxl345.c:123-127 | the link starts with an empty trace of the pin writes and transfers the layer issues |
| Adxl345.SensorLink.WriteAsWritten | adxl345_code/src/adxl345.c:114-128 | the trace grows by a PA4 HIGH write, one transfer of the frame, and a PA4 LOW write; the port and pin arguments play no part |
| Adxl345.SensorLink.Write | adxl345_code/src/adxl345.c:114-128 | the same write with the chip select driven LOW for the transfer and HIGH after it |
| Adxl345.SensorLink.InitAsWritten | adxl345_code/src/adxl345.c:69-77 | as written, the trace grows by the three register writes of start-up, in order, on the caller's channel, each with PA4 HIGH around its frame |
| Adxl345.SensorLink.Init | adxl345_code/src/adxl345.c:69-77 | (corrected polarity) the trace grows by the same three register writes, each with PA4 LOW around its frame |
| CLoops.IndexWraps | adxl345_code/src/spi.c:410 | after k increments the `uint8_t` index is k mod 256 |
| CLoops.SmallBoundExits | adxl345_code/src/spi.c:410 | for a bound below 256 the guard first fails after exactly `n` iterations |
| CLoops.LargeBoundNeverExits | adxl345_code/src/spi.c:410 | for a bound of 256 or more the guard `i < n` holds at every iteration |
| CLoops.IndexRepeats | adxl345_code/src/spi.c:410 | the index after k + 256 increments equals the index after k, so iterations repeat |

## Left out

- Raw register access is not modelled. `SPI_registerWrite`/`SPI_registerRead` and `DIO_registerWrite`/`DIO_registerRead` cast integers to pointers and have no contract beyond "memory at an address".
- Hardware timing is not modelled. The TXE, BSY and RXNE polling loops are events on the trace, each standing for a wait that ended. A wait that never ends (no timeout), the shift register and overrun behaviour are not modelled.
- `Spi.SpiDriver.Receive`: the values the data register yields are the parameter `incoming`, not derived from the bus.
- `Spi.SpiDriver.Transfer`: the values of the final dummy DR and SR reads are discarded, as in the source. The trace records only that they happened.
- Intermediate register states are not modelled. Each chain's single-bit writes are modelled in source order, but the hardware could observe the register between two of them; the model says nothing about that.
- The vendor bit positions are not part of this model. `Spi.SpiLayout` leaves them abstract, and only `Spi.ShippedTable` uses the RM0090 positions. The GPIO field positions follow the code's own shifts.
- `ADXL345_read` is declared but has no body in `adxl345.c`. Its framing is not modelled.
- `main.c` is not part of this model: clock enables, the polling loop and the floating-point scale factor.
- The unused global `char data` of `adxl345.c` is not modelled.
- `adxl345.c` calls `SPI_transfer(Channel, data, 2)` and `DIO_pinWrite(DIO_PA, DIO_PA4, level)`, which do not match the headers' signatures. The protocol layer is therefore modelled against an abstract pin write and an abstract transfer of bytes. It is not connected to `Dio.GpioPorts.PinWrite` or `Spi.SpiDriver.Transfer`, whose buffer holds 16-bit words.
- Null pointers are not modelled, because Dafny arrays are never null. The checks `data != NULL` and `TransferConfig != NULL` therefore have no counterpart. The third assert of `SPI_receive` (spi.c:408) tests the descriptor, not `data`, so that function would not reject a null buffer.
- `DIO_pinRead` copies IDR into a `uint16_t`. Since `pin < 16` the truncation never affects the result, and the model reads the bit directly.
- `ADXL345_write` takes `value` as a `char`. The model takes it as the byte that is stored in `data[1]`.
- The configuration tables are passed as Dafny sequences rather than as a pointer and a `configSize`.
- `Spi.SpiDriver.Init`, `Dio.GpioPorts.Init` and `Spi.SpiDriver.Receive` count with an unbounded index, which is the corrected behaviour. The 8-bit counter of the source is modelled separately in `CLoops` (see Findings).
- Neither the source nor the model checks that a pin exists on its port (for example, port D has only PD2). Any pin below 16 is accepted.
- The Doxygen output `spi__cfg_8h.js` is documentation and is not modelled.

## Findings

| source | as written | input that shows it | evidently intended | confidence | as-written member | corrected member |
|---|---|---|---|---|---|---|
| adxl345_code/src/dio.c:77-85 | `afrRegister` points only at `AFR[0]` (AFRL), and the function field is written at bit `4*pin`; for pins 8 to 15 the masks are shifted out of the 32-bit register (undefined in C; no bit is written on Cortex-M) | entry `{DIO_PA, DIO_PA9, …, DIO_AF7}` leaves PA9 at AF0 | pins 8 to 15 use AFRH (`AFR[1]`) at bit `4*(pin-8)` | not executed; high | Dio.AfrAsWrittenIgnoresHighPins | Dio.ConfigureReadBack |
| adxl345_code/src/adxl345.c:123-127 | chip select driven HIGH before the transfer and LOW after it, in every `ADXL345_write` and so in all three writes of `ADXL345_init` (as-written start-up: `Adxl345.SensorLink.InitAsWritten`, `Adxl345.InitAsWrittenBracketed`; corrected: `Adxl345.SensorLink.Init`, `Adxl345.InitBracketed`) | any `ADXL345_write`: the frame is sent while PA4 is HIGH, which deselects the ADXL345, whose chip select is active low | LOW before the transfer and HIGH after it, as the code's own comments say | not executed; high | Adxl345.WriteAsWrittenDeselects | Adxl345.WriteSelectsDevice |
| adxl345_code/src/spi.c:410 | `uint8_t i` counts up to the `uint16_t` size | `size = 256`: `i` wraps from 255 to 0 and the loop never ends, overwriting `data[0..255]` | the index is as wide as `size` | not executed; high | CLoops.LargeBoundNeverExits | Spi.SpiDriver.Receive |
| adxl345_code/src/spi.c:106 | `uint8_t i` counts up to the `size_t` table size | a table of 256 entries: the loop never ends | the index is as wide as `configSize` | not executed; medium (tables that large are unlikely) | CLoops.LargeBoundNeverExits | Spi.SpiDriver.Init |
| adxl345_code/src/dio.c:136 | `uint8_t i` counts up to the `size_t` table size | a table of 256 entries: the loop never ends | the index is as wide as `configSize` | not executed; medium (tables that large are unlikely) | CLoops.LargeBoundNeverExits | Dio.GpioPorts.Init |
