/** The pure byte manipulation of the LPS25 pressure sensor driver
    (pkg/lps25/device.go): single-bit tests and updates on register values,
    the read-modify closures that Enable, Disable, Reset and SetDataRate hand
    to the register patcher, and the assembly of the 24-bit raw pressure.
    The I2C transfers around them are not part of this model. */
module Lps25 {

  type Byte = bv8

  /** Go's uint8 used as a number (register addresses, bit positions). */
  type Uint8 = x: int | 0 <= x < 256

  const DefaultI2CAddress: Uint8 := 0x5D

  const ControlRegister1: Uint8 := 0x20
  const EnabledBit: Uint8 := 7
  const ODR0Bit: Uint8 := 4
  const ODR1Bit: Uint8 := 5
  const ODR2Bit: Uint8 := 6

  const ControlRegister2: Uint8 := 0x21
  const SwResetBit: Uint8 := 2

  const PressureOutXLRegister: Uint8 := 0x28

  /** Go's `1 << pos` evaluated as a byte: from position 8 on, the one is
      shifted out and the mask is empty. */
  function Mask(pos: Uint8): Byte
  {
    if pos < 8 then 1 << pos else 0
  }

  /** hasBit: is bit `pos` of `b` set? No bit at position 8 or above is. */
  function HasBit(b: Byte, pos: Uint8): (r: bool)
    ensures pos >= 8 ==> !r
  {
    b & Mask(pos) != 0
  }

  /** Two bytes with the same eight bits are the same byte. */
  lemma {:induction false} SameBits(a: Byte, b: Byte)
    requires forall q: Uint8 :: q < 8 ==> HasBit(a, q) == HasBit(b, q)
    ensures a == b
  {
    assert HasBit(a, 0) == HasBit(b, 0);
    assert HasBit(a, 1) == HasBit(b, 1);
    assert HasBit(a, 2) == HasBit(b, 2);
    assert HasBit(a, 3) == HasBit(b, 3);
    assert HasBit(a, 4) == HasBit(b, 4);
    assert HasBit(a, 5) == HasBit(b, 5);
    assert HasBit(a, 6) == HasBit(b, 6);
    assert HasBit(a, 7) == HasBit(b, 7);
  }

  /** clearBit: bit `pos` becomes 0, every other bit is kept; a position of 8
      or more leaves the byte as it is. */
  function ClearBit(b: Byte, pos: Uint8): (r: Byte)
    ensures forall q: Uint8 :: HasBit(r, q) == (q != pos && HasBit(b, q))
    ensures pos >= 8 ==> r == b
  {
    b & (0xFF - Mask(pos))
  }

  /** setBit: bit `pos` becomes 1, every other bit is kept; a position of 8
      or more leaves the byte as it is. */
  function SetBit(b: Byte, pos: Uint8): (r: Byte)
    ensures forall q: Uint8 :: q < 8 ==> HasBit(r, q) == (q == pos || HasBit(b, q))
    ensures pos >= 8 ==> r == b
  {
    b | Mask(pos)
  }

  /** setBitTo: any non-zero `high` sets the bit, zero clears it. */
  function SetBitTo(b: Byte, pos: Uint8, high: Uint8): (r: Byte)
    ensures forall q: Uint8 :: q < 8 ==> HasBit(r, q) == if q == pos then high != 0 else HasBit(b, q)
    ensures pos >= 8 ==> r == b
  {
    if high == 0 then ClearBit(b, pos) else SetBit(b, pos)
  }

  /** The read-modify closure of patchRegisterBit: bit `bit` of the register
      becomes `patch` of its old value, every other bit is kept. */
  function PatchBit(b: Byte, bit: Uint8, patch: bool -> bool): (r: Byte)
    ensures bit < 8 ==> HasBit(r, bit) == patch(HasBit(b, bit))
    ensures forall q: Uint8 :: q < 8 && q != bit ==> HasBit(r, q) == HasBit(b, q)
    ensures bit >= 8 ==> r == b
  {
    if patch(HasBit(b, bit)) then SetBit(b, bit) else ClearBit(b, bit)
  }

  /** What patchRegister writes back: the register, and the value the
      closure made of what was read from it. */
  datatype RegisterWrite = RegisterWrite(register: Uint8, value: Byte)

  /** Enable: control register 1 is written back with the enabled bit on and
      the rest of the register kept. */
  function Enable(ctrl1: Byte): (w: RegisterWrite)
    ensures w.register == ControlRegister1
    ensures HasBit(w.value, EnabledBit)
    ensures w.value == ctrl1 | 0x80
  {
    RegisterWrite(ControlRegister1, PatchBit(ctrl1, EnabledBit, _ => true))
  }

  /** Disable: control register 1 is written back with the enabled bit off
      and the rest of the register kept. */
  function Disable(ctrl1: Byte): (w: RegisterWrite)
    ensures w.register == ControlRegister1
    ensures !HasBit(w.value, EnabledBit)
    ensures w.value == ctrl1 & 0x7F
  {
    RegisterWrite(ControlRegister1, PatchBit(ctrl1, EnabledBit, _ => false))
  }

  /** Reset: control register 2 is written back with the software-reset bit
      on and the rest of the register kept. */
  function Reset(ctrl2: Byte): (w: RegisterWrite)
    ensures w.register == ControlRegister2
    ensures HasBit(w.value, SwResetBit)
    ensures w.value == ctrl2 | 0x04
  {
    RegisterWrite(ControlRegister2, PatchBit(ctrl2, SwResetBit, _ => true))
  }

  /** Go's `type DataRate int`: any integer, of which five are named. */
  type DataRate = int

  const DataRateOneShot: DataRate := 0
  const DataRate1Hz: DataRate := 1
  const DataRate7Hz: DataRate := 2
  const DataRate12_5Hz: DataRate := 3
  const DataRate25Hz: DataRate := 4

  /** The switch of SetDataRate: the three output-data-rate bits for `rate`.
      A rate outside the five named ones matches no case and keeps the zero
      values, the same bits as one-shot mode. */
  function OdrBits(rate: DataRate): (Uint8, Uint8, Uint8)
  {
    if rate == DataRateOneShot then (0, 0, 0)
    else if rate == DataRate1Hz then (1, 0, 0)
    else if rate == DataRate7Hz then (0, 1, 0)
    else if rate == DataRate12_5Hz then (1, 1, 0)
    else if rate == DataRate25Hz then (0, 0, 1)
    else (0, 0, 0)
  }

  /** The read-modify closure of SetDataRate: bits 4, 5 and 6 of control
      register 1 follow the rate table, every other bit is kept. */
  function DataRatePatch(ctrl1: Byte, rate: DataRate): (r: Byte)
    ensures HasBit(r, ODR0Bit) <==> rate == DataRate1Hz || rate == DataRate12_5Hz
    ensures HasBit(r, ODR1Bit) <==> rate == DataRate7Hz || rate == DataRate12_5Hz
    ensures HasBit(r, ODR2Bit) <==> rate == DataRate25Hz
    ensures forall q: Uint8 :: q < 8 && q != ODR0Bit && q != ODR1Bit && q != ODR2Bit ==> HasBit(r, q) == HasBit(ctrl1, q)
  {
    var (ord0, ord1, ord2) := OdrBits(rate);
    var b := SetBitTo(ctrl1, ODR0Bit, ord0);
    var b := SetBitTo(b, ODR1Bit, ord1);
    var b := SetBitTo(b, ODR2Bit, ord2);
    b
  }

  /** The three rate bits hold the number of the rate in binary: the patch
      keeps the other bits of the register and writes the named rate, or
      zero for any other value, into bits 4 to 6. */
  lemma {:induction false} DataRateIsRateNumber(ctrl1: Byte, rate: DataRate)
    ensures DataRatePatch(ctrl1, rate)
         == (ctrl1 & 0x8F) | (if DataRateOneShot <= rate <= DataRate25Hz then (rate as bv8) << 4 else 0)
  {
    if rate == DataRateOneShot {
    } else if rate == DataRate1Hz {
    } else if rate == DataRate7Hz {
    } else if rate == DataRate12_5Hz {
    } else if rate == DataRate25Hz {
    }
  }

  /** SetDataRate: control register 1 is written back with the number of
      the rate in bits 4 to 6 (zero for an unnamed rate) and the rest of the
      register kept. */
  function SetDataRate(ctrl1: Byte, rate: DataRate): (w: RegisterWrite)
    ensures w.register == ControlRegister1
    ensures w.value == (ctrl1 & 0x8F) | (if DataRateOneShot <= rate <= DataRate25Hz then (rate as bv8) << 4 else 0)
  {
    DataRateIsRateNumber(ctrl1, rate);
    RegisterWrite(ControlRegister1, DataRatePatch(ctrl1, rate))
  }

  /** The register byte Pressure sends before reading: PRESS_OUT_XL with the
      top bit set, which makes the sensor step through the three output
      registers on its own. */
  function PressureReadCommand(): (r: Byte)
    ensures r & 0x7F == PressureOutXLRegister as Byte
    ensures HasBit(r, 7)
  {
    (PressureOutXLRegister as Byte) | 0x80
  }

  /** The raw pressure of Pressure: three bytes read from PRESS_OUT_XL
      onwards, least significant first, joined into a 24-bit number. */
  function RawPressure(data: seq<Byte>): (raw: bv32)
    requires |data| >= 3
    ensures raw < 0x100_0000
    ensures raw & 0xFF == data[0] as bv32
    ensures (raw >> 8) & 0xFF == data[1] as bv32
    ensures raw >> 16 == data[2] as bv32
  {
    ((data[2] as bv32) << 16) | ((data[1] as bv32) << 8) | (data[0] as bv32)
  }

  /** The three register bytes of a 24-bit raw pressure, least significant
      first. */
  function PressureBytes(raw: bv32): (data: seq<Byte>)
    requires raw < 0x100_0000
    ensures |data| == 3
  {
    [(raw & 0xFF) as bv8, ((raw >> 8) & 0xFF) as bv8, (raw >> 16) as bv8]
  }

  /** Assembling the raw pressure loses none of the three bytes read. */
  lemma RawPressureRoundTrip(data: seq<Byte>)
    requires |data| >= 3
    ensures PressureBytes(RawPressure(data)) == data[..3]
  {
  }

  /** Every 24-bit raw value is the assembly of its own bytes. */
  lemma PressureBytesRoundTrip(raw: bv32)
    requires raw < 0x100_0000
    ensures RawPressure(PressureBytes(raw)) == raw
  {
  }

  /** Pressure in hectopascal: the raw value over 4096. The float32
      conversion of the source is exact here, because every integer below
      2^24 is a float32 and dividing by a power of two only moves the
      exponent. */
  function PressureHPa(data: seq<Byte>): (hpa: real)
    requires |data| >= 3
    ensures 0.0 <= hpa < 4096.0
    ensures hpa * 4096.0 == RawPressure(data) as int as real
  {
    var raw := RawPressure(data) as int;
    assert 0 <= raw < 0x100_0000;
    raw as real / 4096.0
  }

  /** The sensor as far as the pure code sees it: its bus address. */
  datatype Sensor = Sensor(address: Uint8)

  /** NewSensor: address 0 selects the default address, any other address is
      kept, so a sensor never talks to address 0. */
  function NewSensor(address: Uint8): (s: Sensor)
    ensures s.address != 0
    ensures address != 0 ==> s.address == address
    ensures address == 0 ==> s.address == DefaultI2CAddress
  {
    Sensor(if address == 0 then DefaultI2CAddress else address)
  }
}
