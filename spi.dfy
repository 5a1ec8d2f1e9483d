/**
 * The SPI bus, the sensor's chip-select line and the sensor's register file, simulated.
 * Every action on them is appended to a trace, so the framing of each register
 * transaction can be stated and checked.
 */
module Spi {
  import opened Bits
  import opened Registers

  /** Clock rate, clock phase and clock polarity of the bus. */
  datatype Settings = Settings(baudrate: int, phase: int, polarity: int)

  /** The driver's bus settings: 1 MHz, SPI mode 0. */
  const DRIVER_SETTINGS := Settings(1000000, 0, 0)

  /** What the bus, the chip-select line and the device observe. */
  datatype Event =
    | Lock                      // exclusive use of the bus acquired
    | Configure(settings: Settings)
    | Select                    // chip-select driven low
    | Deselect                  // chip-select driven high
    | Tx(bytes: seq<byte>)      // bytes clocked out to the device
    | Rx(bytes: seq<byte>)      // bytes clocked in from the device
    | Fault                     // a transfer failed at the physical layer
    | Unlock                    // exclusive use released

  /** The outcome of a register operation: a value, or the error the source raises. */
  datatype Error =
    | TransportFault                  // the bus reported a failed transfer
    | ValueOutOfRange(value: int)     // `bytearray` refused a byte outside 0..255
    | IdentityMismatch(observed: byte) // WHO_AM_I did not hold the expected identity

  datatype Result<T> = Ok(value: T) | Err(error: Error)

  // ---------------------------------------------------------------------------
  // Trace bookkeeping

  /** Whether the last Lock in the trace has not yet been followed by an Unlock. */
  predicate Holding(t: seq<Event>) {
    if t == [] then false
    else if t[|t| - 1] == Lock then true
    else if t[|t| - 1] == Unlock then false
    else Holding(t[..|t| - 1])
  }

  /** Lock and Unlock alternate, starting with Lock: each acquisition is released before the next. */
  predicate LockDiscipline(t: seq<Event>) {
    if t == [] then true
    else
      var last, before := t[|t| - 1], t[..|t| - 1];
      LockDiscipline(before) &&
      (last == Lock ==> !Holding(before)) &&
      (last == Unlock ==> Holding(before))
  }

  /** The level of the chip-select line after the trace: high unless the last select event drove it low. */
  predicate LineHigh(t: seq<Event>) {
    if t == [] then true
    else if t[|t| - 1] == Select then false
    else if t[|t| - 1] == Deselect then true
    else LineHigh(t[..|t| - 1])
  }

  // ---------------------------------------------------------------------------
  // The transactions the driver performs, as event sequences

  /** Acquiring the bus: take the lock, then reassert the driver's settings. */
  function Acquire(): seq<Event> {
    [Lock, Configure(DRIVER_SETTINGS)]
  }

  /** A register write: `[reg & 0x7F, value]` inside one chip-select window. */
  function WriteFrame(reg: byte, value: int, failing: bool): seq<Event> {
    Acquire() + [Select] +
    (if !IsByte(value) then []
     else if failing then [Fault]
     else [Tx([WriteAddress(reg), value]), Deselect]) +
    [Unlock]
  }

  /** The result a register write reports. */
  function WriteOutcome(value: int, failing: bool): Result<()> {
    if !IsByte(value) then Err(ValueOutOfRange(value))
    else if failing then Err(TransportFault)
    else Ok(())
  }

  /** A register read: `reg | 0x80` out, then the answer in, inside one chip-select window. */
  function ReadFrame(reg: byte, data: seq<byte>, failing: bool): seq<Event> {
    Acquire() + [Select] +
    (if failing then [Fault] else [Tx([ReadAddress(reg)]), Rx(data), Deselect]) +
    [Unlock]
  }

  /** Lock first, the driver's settings second, Unlock last, and no other Lock or Unlock. */
  predicate Bracketed(f: seq<Event>) {
    |f| >= 3 && f[0] == Lock && f[1] == Configure(DRIVER_SETTINGS) && f[|f| - 1] == Unlock &&
    forall i :: 0 < i < |f| - 1 ==> f[i] != Lock && f[i] != Unlock
  }

  /** Bracketed, and inside the lock one chip-select window holding all the transfers. */
  predicate SelectWindow(f: seq<Event>) {
    Bracketed(f) && |f| >= 5 && f[2] == Select && f[|f| - 2] == Deselect &&
    forall i :: 2 < i < |f| - 2 ==> f[i].Tx? || f[i].Rx?
  }

  /** The concatenation of what `g` extracts from each event of a trace, in order. */
  function FlatMap<T>(t: seq<Event>, g: Event -> seq<T>): seq<T> {
    if t == [] then [] else g(t[0]) + FlatMap(t[1..], g)
  }

  lemma {:induction false} FlatMapAppend<T>(a: seq<Event>, b: seq<Event>, g: Event -> seq<T>)
    ensures FlatMap(a + b, g) == FlatMap(a, g) + FlatMap(b, g)
  {
    if a != [] {
      assert (a + b)[0] == a[0];
      assert (a + b)[1..] == a[1..] + b;
      FlatMapAppend(a[1..], b, g);
      calc {
        FlatMap(a + b, g);
        g(a[0]) + FlatMap(a[1..] + b, g);
        g(a[0]) + (FlatMap(a[1..], g) + FlatMap(b, g));
        (g(a[0]) + FlatMap(a[1..], g)) + FlatMap(b, g);
      }
    } else {
      assert a + b == b;
    }
  }

  lemma FlatMapOne<T>(e: Event, g: Event -> seq<T>)
    ensures FlatMap([e], g) == g(e)
  {
    assert [e][1..] == [];
  }

  function SentBy(e: Event): seq<byte> {
    if e.Tx? then e.bytes else []
  }

  function ReceivedBy(e: Event): seq<byte> {
    if e.Rx? then e.bytes else []
  }

  /** Every byte clocked out in a trace, in order. */
  function Sent(t: seq<Event>): seq<byte> {
    FlatMap(t, SentBy)
  }

  /** Every byte clocked in in a trace, in order. */
  function Received(t: seq<Event>): seq<byte> {
    FlatMap(t, ReceivedBy)
  }

  /** What `g` extracts from a one-transfer frame: nothing comes from the events around the transfer. */
  lemma FlatMapFrame<T>(mid: seq<Event>, g: Event -> seq<T>)
    requires g(Lock) == [] && g(Configure(DRIVER_SETTINGS)) == [] && g(Select) == [] && g(Unlock) == []
    ensures FlatMap(Acquire() + [Select] + mid + [Unlock], g) == FlatMap(mid, g)
  {
    FlatMapAppend(Acquire() + [Select] + mid, [Unlock], g);
    FlatMapAppend(Acquire() + [Select], mid, g);
    FlatMapAppend(Acquire(), [Select], g);
    FlatMapAppend([Lock], [Configure(DRIVER_SETTINGS)], g);
    assert Acquire() == [Lock] + [Configure(DRIVER_SETTINGS)];
    FlatMapOne(Lock, g);
    FlatMapOne(Configure(DRIVER_SETTINGS), g);
    FlatMapOne(Select, g);
    FlatMapOne(Unlock, g);
  }

  /** What `g` extracts from three events. */
  lemma FlatMapThree<T>(e0: Event, e1: Event, e2: Event, g: Event -> seq<T>)
    ensures FlatMap([e0, e1, e2], g) == g(e0) + g(e1) + g(e2)
  {
    FlatMapAppend([e0], [e1, e2], g);
    FlatMapAppend([e1], [e2], g);
    assert [e0, e1, e2] == [e0] + [e1, e2];
    assert [e1, e2] == [e1] + [e2];
    FlatMapOne(e0, g);
    FlatMapOne(e1, g);
    FlatMapOne(e2, g);
  }

  /** A successful write sends exactly two bytes: a write-flagged address naming `reg`, then the value. */
  lemma WriteFraming(reg: byte, value: byte)
    ensures var f := WriteFrame(reg, value, false);
      SelectWindow(f) && Received(f) == [] &&
      |Sent(f)| == 2 && !IsReadFlagged(Sent(f)[0]) && TargetRegister(Sent(f)[0]) == reg % 128 &&
      Sent(f)[1] == value
  {
    var mid := [Tx([WriteAddress(reg), value]), Deselect];
    FlatMapFrame(mid, SentBy);
    FlatMapFrame(mid, ReceivedBy);
    FlatMapAppend([Tx([WriteAddress(reg), value])], [Deselect], SentBy);
    FlatMapAppend([Tx([WriteAddress(reg), value])], [Deselect], ReceivedBy);
    assert mid == [Tx([WriteAddress(reg), value])] + [Deselect];
    FlatMapOne(Tx([WriteAddress(reg), value]), SentBy);
    FlatMapOne(Tx([WriteAddress(reg), value]), ReceivedBy);
    FlatMapOne(Deselect, SentBy);
    FlatMapOne(Deselect, ReceivedBy);
  }

  /** A successful read sends one read-flagged address naming `reg` and receives exactly the answer. */
  lemma ReadFraming(reg: byte, data: seq<byte>)
    ensures var f := ReadFrame(reg, data, false);
      SelectWindow(f) && Sent(f) == [ReadAddress(reg)] && Received(f) == data &&
      IsReadFlagged(ReadAddress(reg)) && TargetRegister(ReadAddress(reg)) == reg % 128
  {
    var mid := [Tx([ReadAddress(reg)]), Rx(data), Deselect];
    FlatMapFrame(mid, SentBy);
    FlatMapFrame(mid, ReceivedBy);
    FlatMapThree(Tx([ReadAddress(reg)]), Rx(data), Deselect, SentBy);
    FlatMapThree(Tx([ReadAddress(reg)]), Rx(data), Deselect, ReceivedBy);
  }

  /**
   * Every transaction, failed or not, takes and releases the lock exactly once (the release
   * sits in a `finally`); one that fails leaves chip-select low (its restore sits in the `try`).
   */
  lemma FailurePaths(reg: byte, value: int, data: seq<byte>, failing: bool)
    ensures Bracketed(WriteFrame(reg, value, failing)) && Bracketed(ReadFrame(reg, data, failing))
    ensures WriteOutcome(value, failing).Err? <==> Deselect !in WriteFrame(reg, value, failing)
    ensures failing <==> Deselect !in ReadFrame(reg, data, failing)
    ensures LineHigh(WriteFrame(reg, value, failing)) <==> WriteOutcome(value, failing).Ok?
  {
    var w := WriteFrame(reg, value, failing);
    var body := w[..|w| - 1];
    assert w[|w| - 1] == Unlock;
    assert LineHigh(w) == LineHigh(body);
    var open := Acquire() + [Select];
    assert !LineHigh(open) by {
      assert open[|open| - 1] == Select;
    }
    if WriteOutcome(value, failing).Ok? {
      assert body[|body| - 1] == Deselect;
    } else if IsByte(value) {
      assert body == open + [Fault];
      assert body[|body| - 1] == Fault && body[..|body| - 1] == open;
    } else {
      assert body == open;
    }
  }

  // ---------------------------------------------------------------------------
  // The device's view of the bytes it receives

  /** A command as the device decodes it from one transfer. */
  datatype Command = WriteCommand(register: nat, value: byte) | ReadCommand(register: nat)

  /** The command one event carries: a two-byte write or a one-byte read address. */
  function CommandOf(e: Event): seq<Command> {
    if e.Tx? && |e.bytes| == 2 && !IsReadFlagged(e.bytes[0]) then [WriteCommand(TargetRegister(e.bytes[0]), e.bytes[1])]
    else if e.Tx? && |e.bytes| == 1 && IsReadFlagged(e.bytes[0]) then [ReadCommand(TargetRegister(e.bytes[0]))]
    else []
  }

  /** The commands a trace delivers to the device, in order. */
  function Commands(t: seq<Event>): seq<Command> {
    FlatMap(t, CommandOf)
  }

  /** The device sees a successful write frame as one write of `value` to `reg`, and a failed one as nothing. */
  lemma WriteFrameCommands(reg: byte, value: int, failing: bool)
    ensures Commands(WriteFrame(reg, value, failing)) ==
      if WriteOutcome(value, failing).Ok? then [WriteCommand(reg % 128, value)] else []
  {
    var mid := if !IsByte(value) then [] else if failing then [Fault] else [Tx([WriteAddress(reg), value as byte]), Deselect];
    assert WriteFrame(reg, value, failing) == Acquire() + [Select] + mid + [Unlock];
    FlatMapFrame(mid, CommandOf);
    if WriteOutcome(value, failing).Ok? {
      FlatMapAppend([Tx([WriteAddress(reg), value])], [Deselect], CommandOf);
      assert mid == [Tx([WriteAddress(reg), value])] + [Deselect];
      FlatMapOne(Tx([WriteAddress(reg), value]), CommandOf);
      FlatMapOne(Deselect, CommandOf);
    } else if IsByte(value) {
      FlatMapOne(Fault, CommandOf);
    }
  }

  /** The device sees a successful read frame as one read of `reg`, and a failed one as nothing. */
  lemma ReadFrameCommands(reg: byte, data: seq<byte>, failing: bool)
    ensures Commands(ReadFrame(reg, data, failing)) == if failing then [] else [ReadCommand(reg % 128)]
  {
    var mid := if failing then [Fault] else [Tx([ReadAddress(reg)]), Rx(data), Deselect];
    FlatMapFrame(mid, CommandOf);
    if failing {
      FlatMapOne(Fault, CommandOf);
    } else {
      FlatMapThree(Tx([ReadAddress(reg)]), Rx(data), Deselect, CommandOf);
    }
  }

  // ---------------------------------------------------------------------------
  // The simulated hardware

  /** Registers in one bank: the seven address bits select among them. */
  const REGISTER_COUNT: nat := 128

  /** What a burst read of `n` bytes starting at `start` returns: the device advances its pointer after each byte. */
  function Burst(registers: seq<byte>, start: nat, n: nat): (data: seq<byte>)
    requires |registers| == REGISTER_COUNT
  {
    seq(n, i requires 0 <= i < n => registers[(start + i) % REGISTER_COUNT])
  }

  /** What the MISO line carries while the device is not selected: the idle level, all ones. */
  function Idle(n: nat): seq<byte> {
    seq(n, i => 0xFF)
  }

  /**
   * The shared bus with the sensor's chip-select line and the sensor itself behind it.
   * `failing` stands for a physical fault: while it is set, every transfer fails.
   */
  class SimulatedBus {
    var locked: bool
    var settings: Settings
    var chipSelectHigh: bool
    const failing: bool
    var registers: seq<byte>
    var pointer: nat
    var trace: seq<Event>

    ghost predicate Valid()
      reads this
    {
      |registers| == REGISTER_COUNT && pointer < REGISTER_COUNT &&
      LockDiscipline(trace) && locked == Holding(trace) && chipSelectHigh == LineHigh(trace)
    }

    constructor (registers: seq<byte>, failing: bool, settings: Settings)
      requires |registers| == REGISTER_COUNT
      ensures Valid() && !locked && chipSelectHigh && trace == []
      ensures this.registers == registers && this.failing == failing && this.settings == settings
    {
      this.registers := registers;
      this.failing := failing;
      this.settings := settings;
      locked, chipSelectHigh, pointer, trace := false, true, 0, [];
    }

    /** Takes exclusive use of the bus; the source spins on `try_lock` until it succeeds. */
    method Lock()
      requires Valid() && !locked
      modifies this
      ensures Valid() && locked && trace == old(trace) + [Event.Lock]
      ensures settings == old(settings) && chipSelectHigh == old(chipSelectHigh)
      ensures registers == old(registers) && pointer == old(pointer)
    {
      locked := true;
      trace := trace + [Event.Lock];
    }

    method Unlock()
      requires Valid() && locked
      modifies this
      ensures Valid() && !locked && trace == old(trace) + [Event.Unlock]
      ensures settings == old(settings) && chipSelectHigh == old(chipSelectHigh)
      ensures registers == old(registers) && pointer == old(pointer)
    {
      locked := false;
      trace := trace + [Event.Unlock];
    }

    method Configure(s: Settings)
      requires Valid() && locked
      modifies this
      ensures Valid() && locked && settings == s && trace == old(trace) + [Event.Configure(s)]
      ensures chipSelectHigh == old(chipSelectHigh)
      ensures registers == old(registers) && pointer == old(pointer)
    {
      settings := s;
      trace := trace + [Event.Configure(s)];
    }

    /** Drives the chip-select line; `false` selects the device. */
    method SetChipSelect(high: bool)
      requires Valid()
      modifies this
      ensures Valid() && chipSelectHigh == high
      ensures trace == old(trace) + [if high then Deselect else Select]
      ensures locked == old(locked) && settings == old(settings)
      ensures registers == old(registers) && pointer == old(pointer)
    {
      chipSelectHigh := high;
      trace := trace + [if high then Deselect else Select];
    }

    /**
     * Clocks `bytes` out. A selected device takes a two-byte command with the read flag clear as
     * a register write, and a one-byte command with the read flag set as the start of a read.
     */
    method Write(bytes: seq<byte>) returns (ok: bool)
      requires Valid() && locked
      modifies this
      ensures Valid() && locked && ok == !failing
      ensures trace == old(trace) + [if ok then Tx(bytes) else Fault]
      ensures chipSelectHigh == old(chipSelectHigh) && settings == old(settings)
      ensures registers ==
        if ok && !chipSelectHigh && |bytes| == 2 && !IsReadFlagged(bytes[0])
        then old(registers)[TargetRegister(bytes[0]) := bytes[1]]
        else old(registers)
      ensures pointer ==
        if ok && !chipSelectHigh && |bytes| == 1 && IsReadFlagged(bytes[0])
        then TargetRegister(bytes[0])
        else old(pointer)
    {
      if failing {
        trace := trace + [Fault];
        return false;
      }
      trace := trace + [Tx(bytes)];
      if !chipSelectHigh && |bytes| == 2 && !IsReadFlagged(bytes[0]) {
        registers := registers[TargetRegister(bytes[0]) := bytes[1]];
      } else if !chipSelectHigh && |bytes| == 1 && IsReadFlagged(bytes[0]) {
        pointer := TargetRegister(bytes[0]);
      }
      ok := true;
    }

    /**
     * Clocks `buf.Length` bytes in, filling `buf` in place. A selected device answers from its
     * register pointer, advancing it after every byte.
     */
    method ReadInto(buf: array<byte>) returns (ok: bool)
      requires Valid() && locked
      modifies this, buf
      ensures Valid() && locked && ok == !failing
      ensures chipSelectHigh == old(chipSelectHigh) && settings == old(settings)
      ensures registers == old(registers)
      ensures ok ==> buf[..] == (if chipSelectHigh then Idle(buf.Length) else Burst(registers, old(pointer), buf.Length))
      ensures !ok ==> buf[..] == old(buf[..])
      ensures trace == old(trace) + [if ok then Rx(buf[..]) else Fault]
      ensures pointer == if ok && !chipSelectHigh then (old(pointer) + buf.Length) % REGISTER_COUNT else old(pointer)
    {
      if failing {
        trace := trace + [Fault];
        return false;
      }
      var i := 0;
      while i < buf.Length
        invariant 0 <= i <= buf.Length && pointer < REGISTER_COUNT && |registers| == REGISTER_COUNT
        invariant chipSelectHigh ==> pointer == old(pointer) && buf[..i] == Idle(i)
        invariant !chipSelectHigh ==>
          pointer == (old(pointer) + i) % REGISTER_COUNT && buf[..i] == Burst(registers, old(pointer), i)
        invariant trace == old(trace) && registers == old(registers) && |registers| == REGISTER_COUNT
        invariant locked == old(locked) && settings == old(settings) && chipSelectHigh == old(chipSelectHigh)
      {
        if chipSelectHigh {
          buf[i] := 0xFF;
        } else {
          buf[i] := registers[pointer];
          pointer := (pointer + 1) % REGISTER_COUNT;
        }
        i := i + 1;
      }
      trace := trace + [Rx(buf[..])];
      ok := true;
    }
  }
}
