/**
 * The ICM-42688-P driver: register transactions over the shared bus, the
 * reset/identify/configure sequence, and the measurement reads.
 */
module Driver {
  import opened Bits
  import opened Registers
  import opened Measurement
  import opened Spi

  /** Full scale the driver records for the accelerometer, in g. */
  const ACCEL_FULL_SCALE: real := 16.0
  /** Full scale the driver records for the gyroscope, in degrees per second. */
  const GYRO_FULL_SCALE: real := 2000.0

  // ---------------------------------------------------------------------------
  // What `initialize` does, as functions of the identity byte the device holds

  /** Bank select, then soft reset. */
  function ResetTrace(): seq<Event> {
    WriteFrame(REG_BANK_SEL, 0x00, false) + WriteFrame(DEVICE_CONFIG, 0x01, false)
  }

  /** The identity read, answered with `who`. */
  function IdentifyTrace(who: byte): seq<Event> {
    ReadFrame(WHO_AM_I, [who], false)
  }

  /** Power on, then the default accelerometer and gyroscope configuration. */
  function ConfigureTrace(): seq<Event> {
    WriteFrame(PWR_MGMT0, PowerAllOn(), false) +
    WriteFrame(ACCEL_CONFIG0, Or(AFS_16G, AODR_1KHZ), false) +
    WriteFrame(GYRO_CONFIG0, Or(GFS_2000DPS, GODR_1KHZ), false)
  }

  /** The events of `initialize` when the device answers `who` to the identity read. */
  function InitTrace(who: byte, failing: bool): seq<Event> {
    if failing then WriteFrame(REG_BANK_SEL, 0x00, true)
    else ResetTrace() + IdentifyTrace(who) + (if who != WHO_AM_I_EXPECTED then [] else ConfigureTrace())
  }

  /** What `initialize` reports: a bus fault, the observed identity byte on a mismatch, or success. */
  function InitOutcome(who: byte, failing: bool): Result<()> {
    if failing then Err(TransportFault)
    else if who != WHO_AM_I_EXPECTED then Err(IdentityMismatch(who))
    else Ok(())
  }

  /** The device's register file after `initialize`. */
  function InitRegisters(registers: seq<byte>, failing: bool): seq<byte>
    requires |registers| == REGISTER_COUNT
  {
    if failing then registers
    else
      var reset := registers[REG_BANK_SEL := 0x00][DEVICE_CONFIG := 0x01];
      if registers[WHO_AM_I] != WHO_AM_I_EXPECTED then reset
      else reset[PWR_MGMT0 := 0x0F][ACCEL_CONFIG0 := 0x06][GYRO_CONFIG0 := 0x06]
  }

  /**
   * The identity check gates the configuration: the device receives bank select, reset and the
   * identity read, and the power and sensor configuration writes only when the identity matches.
   * A bus fault stops the sequence before the device receives anything.
   */
  lemma InitCommands(who: byte, failing: bool)
    ensures Commands(InitTrace(who, failing)) ==
      if failing then []
      else
        [WriteCommand(0x76, 0x00), WriteCommand(0x11, 0x01), ReadCommand(0x75)] +
        (if who == 0x47 then [WriteCommand(0x4E, 0x0F), WriteCommand(0x50, 0x06), WriteCommand(0x4F, 0x06)]
         else [])
  {
    if failing {
      WriteFrameCommands(REG_BANK_SEL, 0x00, true);
    } else if who == WHO_AM_I_EXPECTED {
      HeadCommands(who);
      ConfigureCommands();
      FlatMapAppend(ResetTrace() + IdentifyTrace(who), ConfigureTrace(), CommandOf);
    } else {
      HeadCommands(who);
      assert InitTrace(who, failing) == ResetTrace() + IdentifyTrace(who) + [];
      assert ResetTrace() + IdentifyTrace(who) + [] == ResetTrace() + IdentifyTrace(who);
    }
  }

  /** Reset and identification together: two writes, then the identity read. */
  lemma HeadCommands(who: byte)
    ensures Commands(ResetTrace() + IdentifyTrace(who)) ==
      [WriteCommand(0x76, 0x00), WriteCommand(0x11, 0x01), ReadCommand(0x75)]
  {
    ResetCommands();
    IdentifyCommands(who);
    FlatMapAppend(ResetTrace(), IdentifyTrace(who), CommandOf);
  }

  /** The reset phase delivers the bank select and then the soft reset. */
  lemma ResetCommands()
    ensures Commands(ResetTrace()) == [WriteCommand(0x76, 0x00), WriteCommand(0x11, 0x01)]
  {
    var bank := WriteFrame(REG_BANK_SEL, 0x00, false);
    var reset := WriteFrame(DEVICE_CONFIG, 0x01, false);
    WriteFrameCommands(REG_BANK_SEL, 0x00, false);
    WriteFrameCommands(DEVICE_CONFIG, 0x01, false);
    assert Commands(bank) == [WriteCommand(0x76, 0x00)];
    assert Commands(reset) == [WriteCommand(0x11, 0x01)];
    FlatMapAppend(bank, reset, CommandOf);
    assert ResetTrace() == bank + reset;
  }

  /** The identity read delivers one read of WHO_AM_I, whatever the device answers. */
  lemma IdentifyCommands(who: byte)
    ensures Commands(IdentifyTrace(who)) == [ReadCommand(0x75)]
  {
    ReadFrameCommands(WHO_AM_I, [who], false);
  }

  /** The enable phase delivers the power setting and then both default configurations. */
  lemma ConfigureCommands()
    ensures Commands(ConfigureTrace()) == [WriteCommand(0x4E, 0x0F), WriteCommand(0x50, 0x06), WriteCommand(0x4F, 0x06)]
  {
    var power := WriteFrame(PWR_MGMT0, PowerAllOn(), false);
    var accel := WriteFrame(ACCEL_CONFIG0, Or(AFS_16G, AODR_1KHZ), false);
    var gyro := WriteFrame(GYRO_CONFIG0, Or(GFS_2000DPS, GODR_1KHZ), false);
    WriteFrameCommands(PWR_MGMT0, PowerAllOn(), false);
    WriteFrameCommands(ACCEL_CONFIG0, Or(AFS_16G, AODR_1KHZ), false);
    WriteFrameCommands(GYRO_CONFIG0, Or(GFS_2000DPS, GODR_1KHZ), false);
    assert Commands(power) == [WriteCommand(0x4E, 0x0F)];
    assert Commands(accel) == [WriteCommand(0x50, 0x06)];
    assert Commands(gyro) == [WriteCommand(0x4F, 0x06)];
    FlatMapAppend(power, accel, CommandOf);
    FlatMapAppend(power + accel, gyro, CommandOf);
    assert ConfigureTrace() == power + accel + gyro;
  }

  /**
   * Initializing twice is initializing once: the sequence never writes WHO_AM_I, so a second call
   * reads the same identity, reports the same outcome, sends the same events and leaves the same
   * register file.
   */
  lemma InitIdempotent(registers: seq<byte>, failing: bool)
    requires |registers| == REGISTER_COUNT
    ensures var once := InitRegisters(registers, failing);
      once[WHO_AM_I] == registers[WHO_AM_I] &&
      InitRegisters(once, failing) == once &&
      InitOutcome(once[WHO_AM_I], failing) == InitOutcome(registers[WHO_AM_I], failing) &&
      InitTrace(once[WHO_AM_I], failing) == InitTrace(registers[WHO_AM_I], failing)
  {
  }

  // Regrouping a trace extended frame by frame into the trace followed by the whole sequence.

  lemma AppendTwo<T>(s: seq<T>, a: seq<T>, b: seq<T>)
    ensures s + a + b == s + (a + b)
  {
  }

  lemma AppendThree<T>(s: seq<T>, a: seq<T>, b: seq<T>, c: seq<T>)
    ensures s + a + b + c == s + (a + b + c)
  {
  }

  lemma AppendFour<T>(s: seq<T>, a: seq<T>, b: seq<T>, c: seq<T>, d: seq<T>)
    ensures s + a + b + c + d == s + (a + b + c + d)
  {
  }

  /** The driver's handle on one sensor: the borrowed bus and the full scales used by the conversions. */
  class ICM42688P {
    const bus: SimulatedBus
    var accelScale: real
    var gyroScale: real

    /** The bus is consistent and free between transactions. */
    ghost predicate Valid()
      reads this, bus
    {
      bus.Valid() && !bus.locked
    }

    /** Takes the chip-select pin as an output driven high, and records the default full scales. */
    constructor (bus: SimulatedBus)
      requires bus.Valid() && !bus.locked
      modifies bus
      ensures Valid() && this.bus == bus
      ensures accelScale == ACCEL_FULL_SCALE && gyroScale == GYRO_FULL_SCALE
      ensures bus.chipSelectHigh && bus.trace == old(bus.trace) + [Deselect]
      ensures bus.registers == old(bus.registers)
    {
      this.bus := bus;
      accelScale := ACCEL_FULL_SCALE;
      gyroScale := GYRO_FULL_SCALE;
      new;
      bus.SetChipSelect(true);
    }

    /** Acquires the bus (the source spins on `try_lock`) and reasserts 1 MHz, mode 0. */
    method SpiLock()
      requires Valid()
      modifies bus
      ensures bus.Valid() && bus.locked && bus.settings == DRIVER_SETTINGS
      ensures bus.trace == old(bus.trace) + Acquire()
      ensures bus.chipSelectHigh == old(bus.chipSelectHigh)
      ensures bus.registers == old(bus.registers) && bus.pointer == old(bus.pointer)
    {
      bus.Lock();
      bus.Configure(DRIVER_SETTINGS);
    }

    method SpiUnlock()
      requires bus.Valid() && bus.locked
      modifies bus
      ensures Valid() && bus.trace == old(bus.trace) + [Unlock]
      ensures bus.chipSelectHigh == old(bus.chipSelectHigh) && bus.settings == old(bus.settings)
      ensures bus.registers == old(bus.registers) && bus.pointer == old(bus.pointer)
    {
      bus.Unlock();
    }

    /**
     * Writes `value` to register `reg`. A value outside 0..255 is refused when the two-byte
     * buffer is built, after chip-select has gone low; the lock is released on every path.
     */
    method WriteRegister(reg: byte, value: int) returns (r: Result<()>)
      requires Valid()
      modifies bus
      ensures Valid()
      ensures r == WriteOutcome(value, bus.failing)
      ensures bus.trace == old(bus.trace) + WriteFrame(reg, value, bus.failing)
      ensures bus.registers == if r.Ok? then old(bus.registers)[reg % 128 := value] else old(bus.registers)
      ensures bus.chipSelectHigh <==> r.Ok?
      ensures bus.pointer == old(bus.pointer) && bus.settings == DRIVER_SETTINGS
    {
      ghost var start := bus.trace;
      SpiLock();
      bus.SetChipSelect(false);
      ghost var selected := bus.trace;
      ghost var body: seq<Event>;
      if !IsByte(value) {
        r := Err(ValueOutOfRange(value));
        body := [];
      } else {
        var ok := bus.Write([WriteAddress(reg), value]);
        if ok {
          bus.SetChipSelect(true);
          r := Ok(());
          body := [Tx([WriteAddress(reg), value]), Deselect];
        } else {
          r := Err(TransportFault);
          body := [Fault];
        }
      }
      assert bus.trace == selected + body;
      SpiUnlock();
      AppendFour(start, Acquire(), [Select], body, [Unlock]);
    }

    /** Reads `length` bytes starting at register `reg` in one chip-select window. */
    method ReadMultipleRegisters(reg: byte, length: nat) returns (r: Result<seq<byte>>)
      requires Valid()
      modifies bus
      ensures Valid()
      ensures r == if bus.failing then Err(TransportFault) else Ok(Burst(old(bus.registers), reg % 128, length))
      ensures r.Ok? ==> |r.value| == length
      ensures bus.trace == old(bus.trace) + ReadFrame(reg, if r.Ok? then r.value else [], bus.failing)
      ensures bus.registers == old(bus.registers)
      ensures bus.chipSelectHigh <==> r.Ok?
      ensures bus.settings == DRIVER_SETTINGS
    {
      ghost var start := bus.trace;
      SpiLock();
      bus.SetChipSelect(false);
      ghost var selected := bus.trace;
      ghost var body: seq<Event>;
      var ok := bus.Write([ReadAddress(reg)]);
      if !ok {
        r := Err(TransportFault);
        body := [Fault];
      } else {
        var result := new byte[length];
        ok := bus.ReadInto(result);
        assert ok;
        r := Ok(result[..]);
        assert bus.trace == selected + [Tx([ReadAddress(reg)]), Rx(r.value)];
        bus.SetChipSelect(true);
        body := [Tx([ReadAddress(reg)]), Rx(r.value), Deselect];
      }
      assert bus.trace == selected + body;
      SpiUnlock();
      AppendFour(start, Acquire(), [Select], body, [Unlock]);
    }

    /** Reads the single register `reg`. */
    method ReadRegister(reg: byte) returns (r: Result<byte>)
      requires Valid()
      modifies bus
      ensures Valid()
      ensures r == if bus.failing then Err(TransportFault) else Ok(old(bus.registers)[reg % 128])
      ensures bus.trace == old(bus.trace) + ReadFrame(reg, if r.Ok? then [r.value] else [], bus.failing)
      ensures bus.registers == old(bus.registers)
      ensures bus.chipSelectHigh <==> r.Ok?
      ensures bus.settings == DRIVER_SETTINGS
    {
      var data := ReadMultipleRegisters(reg, 1);
      if data.Err? {
        r := Err(data.error);
      } else {
        r := Ok(data.value[0]);
        assert data.value == [r.value];
      }
    }

    /**
     * Writes `scale | odr` to ACCEL_CONFIG0. The recorded full scale is 16 g whatever `scale` says.
     */
    method ConfigureAccelerometer(scale: nat := AFS_16G, odr: nat := AODR_1KHZ) returns (r: Result<()>)
      requires Valid()
      modifies this, bus
      ensures Valid()
      ensures accelScale == ACCEL_FULL_SCALE && gyroScale == old(gyroScale)
      ensures r == WriteOutcome(Or(scale, odr), bus.failing)
      ensures bus.trace == old(bus.trace) + WriteFrame(ACCEL_CONFIG0, Or(scale, odr), bus.failing)
      ensures bus.registers == if r.Ok? then old(bus.registers)[ACCEL_CONFIG0 := Or(scale, odr)] else old(bus.registers)
      ensures bus.chipSelectHigh <==> r.Ok?
    {
      accelScale := ACCEL_FULL_SCALE;
      r := WriteRegister(ACCEL_CONFIG0, Or(scale, odr));
    }

    /**
     * Writes `scale | odr` to GYRO_CONFIG0. The recorded full scale is 2000 degrees per second
     * whatever `scale` says.
     */
    method ConfigureGyroscope(scale: nat := GFS_2000DPS, odr: nat := GODR_1KHZ) returns (r: Result<()>)
      requires Valid()
      modifies this, bus
      ensures Valid()
      ensures gyroScale == GYRO_FULL_SCALE && accelScale == old(accelScale)
      ensures r == WriteOutcome(Or(scale, odr), bus.failing)
      ensures bus.trace == old(bus.trace) + WriteFrame(GYRO_CONFIG0, Or(scale, odr), bus.failing)
      ensures bus.registers == if r.Ok? then old(bus.registers)[GYRO_CONFIG0 := Or(scale, odr)] else old(bus.registers)
      ensures bus.chipSelectHigh <==> r.Ok?
    {
      gyroScale := GYRO_FULL_SCALE;
      r := WriteRegister(GYRO_CONFIG0, Or(scale, odr));
    }

    /** Selects register bank 0, then issues the soft reset. */
    method ResetDevice() returns (r: Result<()>)
      requires Valid()
      modifies bus
      ensures Valid()
      ensures r == if bus.failing then Err(TransportFault) else Ok(())
      ensures bus.trace == old(bus.trace) + (if bus.failing then WriteFrame(REG_BANK_SEL, 0x00, true) else ResetTrace())
      ensures bus.registers ==
        if bus.failing then old(bus.registers) else old(bus.registers)[REG_BANK_SEL := 0x00][DEVICE_CONFIG := 0x01]
      ensures bus.chipSelectHigh <==> r.Ok?
    {
      ghost var start := bus.trace;
      r := WriteRegister(REG_BANK_SEL, 0x00);
      if r.Err? {
        return;
      }
      r := WriteRegister(DEVICE_CONFIG, 0x01);
      AppendTwo(start, WriteFrame(REG_BANK_SEL, 0x00, bus.failing), WriteFrame(DEVICE_CONFIG, 0x01, bus.failing));
    }

    /** Turns on the temperature sensor and both sensors in low-noise mode, then configures them with their defaults. */
    method EnableSensors() returns (r: Result<()>)
      requires Valid() && !bus.failing
      modifies this, bus
      ensures Valid() && r == Ok(())
      ensures bus.trace == old(bus.trace) + ConfigureTrace()
      ensures bus.registers == old(bus.registers)[PWR_MGMT0 := 0x0F][ACCEL_CONFIG0 := 0x06][GYRO_CONFIG0 := 0x06]
      ensures accelScale == ACCEL_FULL_SCALE && gyroScale == GYRO_FULL_SCALE
      ensures bus.chipSelectHigh
    {
      ghost var start := bus.trace;
      r := WriteRegister(PWR_MGMT0, PowerAllOn());
      ghost var power := WriteFrame(PWR_MGMT0, PowerAllOn(), bus.failing);
      r := ConfigureAccelerometer();
      ghost var accel := WriteFrame(ACCEL_CONFIG0, Or(AFS_16G, AODR_1KHZ), bus.failing);
      r := ConfigureGyroscope();
      ghost var gyro := WriteFrame(GYRO_CONFIG0, Or(GFS_2000DPS, GODR_1KHZ), bus.failing);
      AppendThree(start, power, accel, gyro);
    }

    /**
     * Selects bank 0, resets the device, checks its identity, powers the sensors and configures
     * both with their defaults. The fault the bus simulates is permanent, so only the first
     * transaction of the sequence can fail.
     */
    method Initialize() returns (r: Result<()>)
      requires Valid()
      modifies this, bus
      ensures Valid()
      ensures r == InitOutcome(old(bus.registers)[WHO_AM_I], bus.failing)
      ensures bus.trace == old(bus.trace) + InitTrace(old(bus.registers)[WHO_AM_I], bus.failing)
      ensures bus.registers == InitRegisters(old(bus.registers), bus.failing)
      ensures r.Ok? ==> accelScale == ACCEL_FULL_SCALE && gyroScale == GYRO_FULL_SCALE
      ensures r.Err? ==> accelScale == old(accelScale) && gyroScale == old(gyroScale)
      ensures bus.chipSelectHigh <==> !bus.failing
    {
      ghost var start := bus.trace;
      ghost var registers := bus.registers;
      r := ResetDevice();
      if r.Err? {
        return;
      }
      var who := ReadRegister(WHO_AM_I);
      assert who == Ok(registers[WHO_AM_I]);
      if who.value != WHO_AM_I_EXPECTED {
        r := Err(IdentityMismatch(who.value));
        AppendThree(start, ResetTrace(), IdentifyTrace(who.value), []);
      } else {
        r := EnableSensors();
        AppendThree(start, ResetTrace(), IdentifyTrace(who.value), ConfigureTrace());
      }
    }

    /** Reads the three accelerometer axes and converts them to g with the recorded full scale. */
    method ReadAccelerometer() returns (r: Result<Vector3>)
      requires Valid()
      modifies bus
      ensures Valid()
      ensures r == if bus.failing then Err(TransportFault)
        else Ok(ScaleAxes(DecodeAxes(Burst(old(bus.registers), ACCEL_DATA_X1, 6)), accelScale))
      ensures bus.trace == old(bus.trace) + ReadFrame(ACCEL_DATA_X1, Burst(old(bus.registers), ACCEL_DATA_X1, 6), bus.failing)
      ensures bus.registers == old(bus.registers)
      ensures bus.chipSelectHigh <==> r.Ok?
      ensures bus.settings == DRIVER_SETTINGS
    {
      var data := ReadMultipleRegisters(ACCEL_DATA_X1, 6);
      if data.Err? {
        return Err(data.error);
      }
      r := Ok(ScaleAxes(DecodeAxes(data.value), accelScale));
    }

    /** Reads the three gyroscope axes and converts them to degrees per second with the recorded full scale. */
    method ReadGyroscope() returns (r: Result<Vector3>)
      requires Valid()
      modifies bus
      ensures Valid()
      ensures r == if bus.failing then Err(TransportFault)
        else Ok(ScaleAxes(DecodeAxes(Burst(old(bus.registers), GYRO_DATA_X1, 6)), gyroScale))
      ensures bus.trace == old(bus.trace) + ReadFrame(GYRO_DATA_X1, Burst(old(bus.registers), GYRO_DATA_X1, 6), bus.failing)
      ensures bus.registers == old(bus.registers)
      ensures bus.chipSelectHigh <==> r.Ok?
      ensures bus.settings == DRIVER_SETTINGS
    {
      var data := ReadMultipleRegisters(GYRO_DATA_X1, 6);
      if data.Err? {
        return Err(data.error);
      }
      r := Ok(ScaleAxes(DecodeAxes(data.value), gyroScale));
    }

    /** Reads the die temperature and converts it to degrees Celsius. */
    method ReadTemperature() returns (r: Result<real>)
      requires Valid()
      modifies bus
      ensures Valid()
      ensures r == if bus.failing then Err(TransportFault)
        else var data := Burst(old(bus.registers), TEMP_DATA1, 2); Ok(Celsius(DecodeInt16(data[0], data[1])))
      ensures bus.trace == old(bus.trace) + ReadFrame(TEMP_DATA1, Burst(old(bus.registers), TEMP_DATA1, 2), bus.failing)
      ensures bus.registers == old(bus.registers)
      ensures bus.chipSelectHigh <==> r.Ok?
      ensures bus.settings == DRIVER_SETTINGS
    {
      var data := ReadMultipleRegisters(TEMP_DATA1, 2);
      if data.Err? {
        return Err(data.error);
      }
      r := Ok(Celsius(DecodeInt16(data.value[0], data.value[1])));
    }
  }
}
