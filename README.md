# ICM-42688-P register driver, modelled in Dafny

This project models the CircuitPython driver for the TDK ICM-42688-P six-axis inertial
measurement unit. The sensor is reached over a shared SPI bus with its own chip-select line.
The driver has three layers, and each one is modelled:

- **Register transport.** Every register transaction follows the same steps:
  1. Lock the bus.
  2. Reassert 1 MHz, SPI mode 0 (phase 0, polarity 0).
  3. Drive chip-select low.
  4. Clock out an address byte and then any data. Bit 7 of the address byte is set for a read and clear for a write.
  5. Drive chip-select high.
  6. Unlock the bus. The unlock sits in a `finally` that covers steps 3-5 but not step 2.
- **Initialisation and configuration.**
  1. Select bank 0.
  2. Soft-reset the device.
  3. Check the WHO_AM_I identity byte (0x47). On a mismatch, stop and report the observed byte.
  4. Turn on the temperature sensor and both motion sensors in low-noise mode.
  5. Write the default accelerometer and gyroscope configuration.
- **Measurement decoding.**
  - Burst reads return big-endian 16-bit two's-complement values.
  - Motion readings are scaled as `raw / 32768 * full_scale`.
  - Temperature is `raw / 132.48 + 25` degrees Celsius.

The bus, the chip-select pin and the sensor are replaced by `Spi.SimulatedBus`. This class
holds the lock, the bus settings, the chip-select level and the sensor's 128-register bank.
It also appends every action to a trace of `Event`s:
- Lock, Configure, Select, Deselect, Tx, Rx, Fault and Unlock.
- The simulated sensor applies two-byte write commands to its register file.
- A one-byte read-flagged command sets its read pointer. Burst reads advance the pointer modulo 128.
- A fixed `failing` flag stands for a broken bus: while it is set, every transfer fails.

The driver, `Driver.ICM42688P`, is a class over that bus, with the two recorded full scales.
Each method's contract gives the new trace, the register file and the result exactly.
Errors are the `Result` cases `TransportFault`, `ValueOutOfRange` and `IdentityMismatch`:
- `TransportFault` stands for an exception from the bus.
- `ValueOutOfRange` stands for the `ValueError` that `bytearray` raises for a value outside 0..255.
- `IdentityMismatch` stands for the `RuntimeError` that `initialize` raises, and carries the observed byte.

Modules:
- `Bits` — Python's `|` on non-negative integers.
- `Registers` — register addresses, bit fields and the address-byte convention.
- `Measurement` — int16 decoding, encoding and the unit conversions, over exact reals.
- `Spi` — events, transaction frames, the device's view of a trace and the simulated bus.
- `Driver` — the expected traces of `initialize` and the `ICM42688P` class.

Three behaviours of the code are easy to misread, and the model keeps each as the code has it:
- **Stored full scale.** The recorded full scale does not follow `scale`: the code always stores 16.0 and 2000.0, whatever `scale` it is given (`ICM42688P.py:114`, `ICM42688P.py:119`). The contracts of `ConfigureAccelerometer` and `ConfigureGyroscope` state the fixed values.
- **Chip-select after a failure.** Chip-select goes back high inside the `try`, so a failed transfer leaves it low. `Spi.FailurePaths` states exactly this.
- **Configuration arguments.** The code writes `scale | odr` without checking either field. Only a result above 255 fails, when `bytearray` refuses it.

## Model

| member | source | states |
|---|---|---|
| Bits.Or | ICM42688P.py:115 | `a | b` is at least each operand and at most their sum |
| Bits.OrBelow | ICM42688P.py:115 | `a | b` stays below `2^k` exactly when both operands do |
| Bits.OrIsByte | ICM42688P.py:57 | `scale | odr` is accepted by `bytearray` exactly when both fields are bytes |
| Bits.OrHighBit | ICM42688P.py:67 | setting bit k of a number below `2^(k+1)` adds `2^k` to its low k bits |
| Registers.PowerAllOn | ICM42688P.py:104 | `TEMP_ON | GYRO_MODE_LN | ACCEL_MODE_LN` is 0x0F |
| Registers.WriteAddress | ICM42688P.py:57 | `reg & 0x7F` has the read flag clear and names register `reg mod 128` |
| Registers.ReadAddress | ICM42688P.py:67 | the read address has the read flag set and names register `reg mod 128` |
| Registers.ReadAddressIsOr | ICM42688P.py:80 | the read address equals Python's `reg | 0x80` |
| Measurement.DecodeInt16 | ICM42688P.py:125 | the decoded value is a 16-bit signed integer congruent to `hi*256+lo` mod 65536, and is negative exactly when the top bit of `hi` is set |
| Measurement.DecodeEncode | ICM42688P.py:125 | encoding any int16 value and decoding the bytes gives the value back |
| Measurement.EncodeDecode | ICM42688P.py:125 | decoding any byte pair and encoding the result gives the pair back |
| Measurement.DecodeAxes | ICM42688P.py:124-127 | the three axes decoded from a six-byte burst are 16-bit values |
| Measurement.AxesRoundTrip | ICM42688P.py:125-127 | the X, Y, Z of any sample are recovered from its six-byte image |
| Measurement.BurstRoundTrip | ICM42688P.py:139-141 | every six-byte burst is the image of the sample decoded from it |
| Measurement.ToPhysicalRange | ICM42688P.py:130-132 | `raw/32768*scale` lies in [-scale, scale); -32768 gives -scale; 32767 gives scale - scale/32768 |
| Measurement.ToPhysicalInverse | ICM42688P.py:144-146 | the raw reading is recovered from the physical value and the scale |
| Measurement.ToPhysicalMonotone | ICM42688P.py:130 | a larger reading gives a larger value when the scale is positive |
| Measurement.ScaleAxes | ICM42688P.py:130-132 | with a positive scale, every axis of a converted 16-bit sample lies in [-scale, scale); an axis reading -32768 converts to exactly -scale |
| Measurement.CelsiusCalibration | ICM42688P.py:154 | a zero reading is 25 degrees, and the conversion is strictly increasing |
| Measurement.CelsiusInverse | ICM42688P.py:154 | the raw temperature reading is recovered from the temperature |
| Spi.WriteFraming | ICM42688P.py:52-60 | a write frame has one chip-select window inside the lock and receives nothing; it sends exactly two bytes: a write-flagged address naming `reg mod 128`, then the value |
| Spi.ReadFraming | ICM42688P.py:75-86 | a read frame has one chip-select window inside the lock; it sends exactly `reg | 0x80` and receives exactly the answer |
| Spi.FailurePaths | ICM42688P.py:54-60 | every frame whose transfer fails, or whose value is refused, still has the lock first and the unlock last with no others; a write fails exactly when chip-select is never restored; a read fails exactly when the bus faults |
| Spi.WriteFrameCommands | ICM42688P.py:57 | the device sees a successful write frame as one write of the value to `reg mod 128`, and a failed one as nothing |
| Spi.ReadFrameCommands | ICM42688P.py:67 | the device sees a successful read frame as one read of `reg mod 128`, and a failed one as nothing |
| Spi.SimulatedBus.Lock | ICM42688P.py:44-45 | the lock is taken and recorded, and nothing else changes |
| Spi.SimulatedBus.Configure | ICM42688P.py:46 | the bus settings are replaced and recorded while the lock is held |
| Spi.SimulatedBus.Unlock | ICM42688P.py:50 | the lock is released and recorded |
| Spi.SimulatedBus.SetChipSelect | ICM42688P.py:56 | the chip-select level is set and recorded |
| Spi.SimulatedBus.Write | ICM42688P.py:57 | the transfer fails exactly when the bus is failing; a selected device applies a two-byte write command or takes a one-byte read address as its pointer |
| Spi.SimulatedBus.ReadInto | ICM42688P.py:69 | the buffer is filled in place with the burst from the read pointer, which advances modulo 128; if deselected, the buffer gets the idle level |
| Driver.ICM42688P.constructor | ICM42688P.py:34-40 | chip-select is driven high, and the full scales are 16 g and 2000 dps |
| Driver.ICM42688P.SpiLock | ICM42688P.py:42-46 | the lock is acquired, and then 1 MHz mode 0 is set |
| Driver.ICM42688P.SpiUnlock | ICM42688P.py:48-50 | the lock is released |
| Driver.ICM42688P.WriteRegister | ICM42688P.py:52-60 | the trace grows by exactly the write frame; the register is updated only on success; the result is ValueOutOfRange, TransportFault or success; chip-select is high exactly on success |
| Driver.ICM42688P.ReadMultipleRegisters | ICM42688P.py:75-86 | unless the bus fails, the result is the `length`-byte burst from `reg`; the trace grows by exactly the read frame; the registers are unchanged |
| Driver.ICM42688P.ReadRegister | ICM42688P.py:62-73 | unless the bus fails, the result is the register's byte; the trace grows by exactly a one-byte read frame |
| Driver.ICM42688P.ConfigureAccelerometer | ICM42688P.py:112-115 | `scale | odr` is written to ACCEL_CONFIG0; the recorded accelerometer scale is 16 whatever `scale` is |
| Driver.ICM42688P.ConfigureGyroscope | ICM42688P.py:117-120 | `scale | odr` is written to GYRO_CONFIG0; the recorded gyroscope scale is 2000 whatever `scale` is |
| Driver.ICM42688P.ResetDevice | ICM42688P.py:90-93 | bank select and then reset are written; a fault stops at the first write |
| Driver.ICM42688P.EnableSensors | ICM42688P.py:101-110 | power 0x0F is written, and then both configuration registers get 0x06; both scales are set |
| Driver.ICM42688P.Initialize | ICM42688P.py:88-110 | the outcome, trace and register file equal the `initialize` specification functions; the scales are set only on success |
| Driver.ICM42688P.ReadAccelerometer | ICM42688P.py:122-134 | unless the bus fails, the result is the six-byte burst from ACCEL_DATA_X1, decoded as X, Y, Z and scaled by the recorded accelerometer scale; the trace grows by exactly that read frame; chip-select is high exactly on success |
| Driver.ICM42688P.ReadGyroscope | ICM42688P.py:136-148 | unless the bus fails, the result is the six-byte burst from GYRO_DATA_X1, decoded as X, Y, Z and scaled by the recorded gyroscope scale; the trace grows by exactly that read frame; chip-select is high exactly on success |
| Driver.ICM42688P.ReadTemperature | ICM42688P.py:150-155 | unless the bus fails, the result is the two-byte reading from TEMP_DATA1, decoded and converted to degrees Celsius; the trace grows by exactly that read frame; chip-select is high exactly on success |
| Driver.InitCommands | ICM42688P.py:88-110 | the device receives bank select, reset and the identity read; the power and configuration writes come only when the identity matches; nothing is received on a bus fault |
| Driver.HeadCommands | ICM42688P.py:90-96 | reset and identification deliver two writes and then the WHO_AM_I read |
| Driver.ResetCommands | ICM42688P.py:91-92 | the reset phase delivers REG_BANK_SEL=0x00 and then DEVICE_CONFIG=0x01 |
| Driver.IdentifyCommands | ICM42688P.py:96 | the identity phase delivers one read of WHO_AM_I |
| Driver.ConfigureCommands | ICM42688P.py:102-110 | the enable phase delivers PWR_MGMT0=0x0F, ACCEL_CONFIG0=0x06, GYRO_CONFIG0=0x06 in this order |
| Driver.InitIdempotent | ICM42688P.py:88-120 | a second `initialize` sees the same identity, reports the same outcome, sends the same trace and leaves the same registers |

## Left out

- Hardware objects (`board`, `busio`, `digitalio`): they are replaced by `Spi.SimulatedBus`. That class is a plain 128-register file with no device timing and no reset side effects beyond the written bytes.
- The `try_lock` busy-wait: it is one atomic Lock event. Contention with other bus users is not modelled, so the bus is always free when the driver asks.
- `time.sleep` after reset and after power-on: timing is not modelled, and no event is recorded.
- Bus configuration never fails in the model. In the source, `configure` is called in `_spi_lock`, before the `try` of each transaction (`ICM42688P.py:46`). An exception from it escapes with the bus still locked, and `Spi.FailurePaths` does not cover that path.
- The `print` after a successful identity check: it is console output only.
- The unused constants `SPI_TIMEOUT`, `ACCEL_DATA_X0` and `GYRO_DATA_X0`.
- Floating point: the conversions are over exact reals, and 132.48 is the exact decimal. IEEE rounding is not modelled.
- Transport faults are permanent: a failing bus fails every transfer. So `Initialize` can only fail at its first write, and intermittent faults are not modelled.
- `ResetDevice` and `EnableSensors` split `initialize` at the identity check to keep each proof small. They are not separate methods of the source.
- Driver.ICM42688P.ConfigureAccelerometer: `scale` and `odr` are natural numbers; Python's `|` on negative integers is not modelled.
- Driver.ICM42688P.ConfigureGyroscope: `scale` and `odr` are natural numbers; Python's `|` on negative integers is not modelled.
- The application loops in `example.py` and `example_rp2040.py`: they only poll the driver and print.
