/** The ICM-42688-P register map, the bit fields the driver writes, and the address-byte convention. */
module Registers {
  import opened Bits

  // Register addresses (bank 0)
  const DEVICE_CONFIG: byte := 0x11
  const PWR_MGMT0: byte := 0x4E
  const WHO_AM_I: byte := 0x75
  const ACCEL_DATA_X1: byte := 0x1F
  const GYRO_DATA_X1: byte := 0x25
  const REG_BANK_SEL: byte := 0x76
  const TEMP_DATA1: byte := 0x1D
  const ACCEL_CONFIG0: byte := 0x50
  const GYRO_CONFIG0: byte := 0x4F

  /** The identity byte the device reports in WHO_AM_I. */
  const WHO_AM_I_EXPECTED: byte := 0x47

  // PWR_MGMT0 fields
  const PWR_TEMP_ON: nat := 0      // 0 << 5
  const PWR_TEMP_OFF: nat := 32    // 1 << 5
  const PWR_GYRO_MODE_LN: nat := 12  // 3 << 2
  const PWR_ACCEL_MODE_LN: nat := 3  // 3 << 0

  // ACCEL_CONFIG0 / GYRO_CONFIG0 fields
  const GFS_2000DPS: nat := 0  // 0x00 << 5
  const AFS_16G: nat := 0      // 0x00 << 5
  const GODR_1KHZ: nat := 0x06
  const AODR_1KHZ: nat := 0x06

  /** The power setting `initialize` writes: temperature sensor on, gyroscope and accelerometer in low-noise mode. */
  function PowerAllOn(): (v: nat)
    ensures v == 0x0F
  {
    Or(Or(PWR_TEMP_ON, PWR_GYRO_MODE_LN), PWR_ACCEL_MODE_LN)
  }

  /** The address byte of a register write, `reg & 0x7F`: the read flag (bit 7) cleared. */
  function WriteAddress(reg: byte): (a: byte)
    ensures !IsReadFlagged(a) && TargetRegister(a) == reg % 128
  {
    reg % 128
  }

  /** The address byte of a register read, `reg | 0x80`: the read flag (bit 7) set. */
  function ReadAddress(reg: byte): (a: byte)
    ensures IsReadFlagged(a) && TargetRegister(a) == reg % 128
  {
    0x80 + reg % 128
  }

  /** The read address is exactly Python's `reg | 0x80`. */
  lemma ReadAddressIsOr(reg: byte)
    ensures ReadAddress(reg) == Or(reg, 0x80)
  {
    OrHighBit(reg, 7);
  }

  /** How the device reads an address byte: bit 7 says read, the low seven bits name the register. */
  predicate IsReadFlagged(a: byte) {
    a >= 128
  }

  function TargetRegister(a: byte): nat {
    a % 128
  }
}
