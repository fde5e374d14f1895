/**
 * The PMW3360 optical sensor driver: the register table, the two-byte write
 * frame, the busy-polled byte primitives, the register read, motion sampling
 * and the power-up sequence.
 *
 * The serial bus is a scripted peripheral: each `send`, `read` and blocking
 * frame write takes its answer from a queue, and the bus keeps a ghost
 * timeline of the bytes shifted out and in and of the busy-wait delays between
 * them.  Every driver method is proved against a pure specification function
 * over a snapshot (`Hw`) of the bus and the indicator pin; the properties of
 * the wire protocol are lemmas about those functions.
 */
module Pmw3360 {
  import opened Common

  // ---------------------------------------------------------------------------
  // Timing constants (core clock cycles, computed for the constants' 8 MHz)
  // ---------------------------------------------------------------------------

  const CLOCK_MHZ: nat := 8
  /** Power-up settle time after the reset write. */
  const CYCLES_50MS: nat := CLOCK_MHZ * 1000 * 50
  /** t_SRAD: wait between sending a register address and clocking its value. */
  const CYCLES_160US: nat := CLOCK_MHZ * 160

  lemma DelayConstants()
    ensures CYCLES_50MS == 400000 && CYCLES_160US == 1280
    ensures CYCLES_50MS < 0x1_0000_0000 && CYCLES_160US < 0x1_0000_0000
  {
  }

  // ---------------------------------------------------------------------------
  // Register table
  // ---------------------------------------------------------------------------

  datatype Register =
    | ProductId | RevisionId | Motion | DeltaXL | DeltaXH | DeltaYL | DeltaYH
    | SQUAL | RawDataSum | MaximumRawData | MinimumRawData | ShutterLower
    | ShutterUpper | Control | Config1 | Config2 | AngleTune | FrameCapture
    | SromEnable | RunDownshift | Rest1RateLower | Rest1RateUpper
    | Rest1Downshift | Rest2RateLower | Rest2RateUpper | Rest2Downshift
    | Rest3RateLower | Rest3RateUpper | Observation | DataOutLower
    | DataOutUpper | RawDataDump | SromId | MinSqRun | RawDataThreshold
    | Config5 | PowerUpReset | Shutdown | InverseProductId | LiftCutoffTune3
    | AngleSnap | LiftCutoffTune1 | MotionBurst | LiftCutoffTuneTimeout
    | LiftCutoffTuneMinLength | SromLoadBurst | LiftConfig | RawDataBurst
    | LiftCutoffTune2

  /** The one-byte address of a register.  Every address leaves bit 7 free
      for the write flag, and 0x0e belongs to no register. */
  function Address(r: Register): (a: Byte)
    ensures a <= 0x65
    ensures a < 0x80
    ensures a != 0x0e
  {
    match r
    case ProductId => 0x00
    case RevisionId => 0x01
    case Motion => 0x02
    case DeltaXL => 0x03
    case DeltaXH => 0x04
    case DeltaYL => 0x05
    case DeltaYH => 0x06
    case SQUAL => 0x07
    case RawDataSum => 0x08
    case MaximumRawData => 0x09
    case MinimumRawData => 0x0a
    case ShutterLower => 0x0b
    case ShutterUpper => 0x0c
    case Control => 0x0d
    case Config1 => 0x0f
    case Config2 => 0x10
    case AngleTune => 0x11
    case FrameCapture => 0x12
    case SromEnable => 0x13
    case RunDownshift => 0x14
    case Rest1RateLower => 0x15
    case Rest1RateUpper => 0x16
    case Rest1Downshift => 0x17
    case Rest2RateLower => 0x18
    case Rest2RateUpper => 0x19
    case Rest2Downshift => 0x1a
    case Rest3RateLower => 0x1b
    case Rest3RateUpper => 0x1c
    case Observation => 0x24
    case DataOutLower => 0x25
    case DataOutUpper => 0x26
    case RawDataDump => 0x29
    case SromId => 0x2a
    case MinSqRun => 0x2b
    case RawDataThreshold => 0x2c
    case Config5 => 0x2f
    case PowerUpReset => 0x3a
    case Shutdown => 0x3b
    case InverseProductId => 0x3f
    case LiftCutoffTune3 => 0x41
    case AngleSnap => 0x42
    case LiftCutoffTune1 => 0x4a
    case MotionBurst => 0x50
    case LiftCutoffTuneTimeout => 0x58
    case LiftCutoffTuneMinLength => 0x5a
    case SromLoadBurst => 0x62
    case LiftConfig => 0x63
    case RawDataBurst => 0x64
    case LiftCutoffTune2 => 0x65
  }

  /** The register the sensor selects for an address byte (bit 7 clear), or
      None for an address the table does not use: the inverse of Address. */
  function RegisterAt(a: Byte): Option<Register>
  {
    match a
    case 0x00 => Some(ProductId)
    case 0x01 => Some(RevisionId)
    case 0x02 => Some(Motion)
    case 0x03 => Some(DeltaXL)
    case 0x04 => Some(DeltaXH)
    case 0x05 => Some(DeltaYL)
    case 0x06 => Some(DeltaYH)
    case 0x07 => Some(SQUAL)
    case 0x08 => Some(RawDataSum)
    case 0x09 => Some(MaximumRawData)
    case 0x0a => Some(MinimumRawData)
    case 0x0b => Some(ShutterLower)
    case 0x0c => Some(ShutterUpper)
    case 0x0d => Some(Control)
    case 0x0f => Some(Config1)
    case 0x10 => Some(Config2)
    case 0x11 => Some(AngleTune)
    case 0x12 => Some(FrameCapture)
    case 0x13 => Some(SromEnable)
    case 0x14 => Some(RunDownshift)
    case 0x15 => Some(Rest1RateLower)
    case 0x16 => Some(Rest1RateUpper)
    case 0x17 => Some(Rest1Downshift)
    case 0x18 => Some(Rest2RateLower)
    case 0x19 => Some(Rest2RateUpper)
    case 0x1a => Some(Rest2Downshift)
    case 0x1b => Some(Rest3RateLower)
    case 0x1c => Some(Rest3RateUpper)
    case 0x24 => Some(Observation)
    case 0x25 => Some(DataOutLower)
    case 0x26 => Some(DataOutUpper)
    case 0x29 => Some(RawDataDump)
    case 0x2a => Some(SromId)
    case 0x2b => Some(MinSqRun)
    case 0x2c => Some(RawDataThreshold)
    case 0x2f => Some(Config5)
    case 0x3a => Some(PowerUpReset)
    case 0x3b => Some(Shutdown)
    case 0x3f => Some(InverseProductId)
    case 0x41 => Some(LiftCutoffTune3)
    case 0x42 => Some(AngleSnap)
    case 0x4a => Some(LiftCutoffTune1)
    case 0x50 => Some(MotionBurst)
    case 0x58 => Some(LiftCutoffTuneTimeout)
    case 0x5a => Some(LiftCutoffTuneMinLength)
    case 0x62 => Some(SromLoadBurst)
    case 0x63 => Some(LiftConfig)
    case 0x64 => Some(RawDataBurst)
    case 0x65 => Some(LiftCutoffTune2)
    case _ => None
  }

  lemma AddressRoundTrip(r: Register)
    ensures RegisterAt(Address(r)) == Some(r)
  {
  }

  lemma UnusedAddresses()
    ensures RegisterAt(0x0e) == None && RegisterAt(0x1d) == None && RegisterAt(0x66) == None
  {
  }

  /** Distinct registers have distinct addresses. */
  lemma AddressInjective(r1: Register, r2: Register)
    ensures Address(r1) == Address(r2) ==> r1 == r2
  {
    AddressRoundTrip(r1);
    AddressRoundTrip(r2);
  }

  /** The first byte of a write frame, `0x80 | addr`: the write flag in bit 7
      over the address in the low seven bits. */
  function WriteHeader(r: Register): (h: Byte)
    ensures h >= 0x80
    ensures h % 0x80 == Address(r)
    ensures RegisterAt(h % 0x80) == Some(r)
  {
    AddressRoundTrip(r);
    SetBit7(Address(r))
  }

  /** `0x80 | a` for an address byte. */
  function SetBit7(a: Byte): (h: Byte)
    requires a < 0x80
    ensures h == a + 0x80
  {
    ((a as bv8) | 0x80) as int
  }

  /** `motion & 0x80 != 0`: the MOT bit of the Motion register. */
  function MotionPending(motion: Byte): (p: bool)
    ensures p <==> motion >= 0x80
  {
    (motion as bv8) & 0x80 != 0
  }

  /** `((hi as u16) << 8 | lo as u16) as i16`: the two's-complement value of a
      little-endian byte pair, pinned down by its range and its residue.  The
      shift and the or of two bytes that do not overlap are written as
      `hi * 256 + lo`. */
  function ToSigned16(lo: Byte, hi: Byte): (v: I16)
    ensures v % 0x1_0000 == hi * 256 + lo
  {
    var u := hi * 256 + lo;
    if u < 0x8000 then u else u - 0x1_0000
  }

  lemma ToSigned16Examples()
    ensures ToSigned16(0xff, 0xff) == -1
    ensures ToSigned16(0xff, 0x7f) == 32767
    ensures ToSigned16(0x00, 0x80) == -32768
    ensures ToSigned16(0x05, 0x00) == 5
  {
  }

  /** A pair of bytes is the encoding of exactly one `i16`. */
  lemma ToSigned16Injective(lo1: Byte, hi1: Byte, lo2: Byte, hi2: Byte)
    ensures ToSigned16(lo1, hi1) == ToSigned16(lo2, hi2) ==> lo1 == lo2 && hi1 == hi2
  {
    if ToSigned16(lo1, hi1) == ToSigned16(lo2, hi2) {
      assert hi1 * 256 + lo1 == hi2 * 256 + lo2;
    }
  }

  // ---------------------------------------------------------------------------
  // The bus, as the driver sees it
  // ---------------------------------------------------------------------------

  /** The errors of the STM32 SPI peripheral. */
  datatype SpiError = Overrun | ModeFault | Crc

  /** The answer to one non-blocking `send` or `read`. */
  datatype Poll<T> = Ready(value: T) | WouldBlock | Failed(error: SpiError)

  /** What happens on the wire, in order. */
  datatype Event = Sent(data: Byte) | Received(data: Byte) | Delay(cycles: nat)

  /** How a driver operation ends: with a value, with the panic the source
      raises on a bus error, or never (the bus stopped answering and the
      source spins forever; the model stops there). */
  datatype Outcome<T> = Done(value: T) | Fatal(error: SpiError) | Stalled

  /** The unfinished outcome of one step, carried over to the caller's type. */
  function Abort<T, U>(o: Outcome<T>): (a: Outcome<U>)
    requires !o.Done?
    ensures a.Fatal? <==> o.Fatal?
    ensures a.Fatal? ==> a.error == o.error
    ensures a.Stalled? <==> o.Stalled?
  {
    if o.Fatal? then Fatal(o.error) else Stalled
  }

  /** A snapshot of the bus and the indicator pin: the answers still to come
      for `send`, `read` and the blocking frame write, the timeline so far and
      the pin level (true = high). */
  datatype Hw = Hw(sendReplies: seq<Poll<()>>, readReplies: seq<Poll<Byte>>,
                   writeReplies: seq<Option<SpiError>>, timeline: seq<Event>, high: bool)

  /** The outcome of an operation together with the hardware afterwards. */
  datatype Step<T> = Step(out: Outcome<T>, hw: Hw)

  /** A motion sample. */
  datatype Delta = Delta(dx: I16, dy: I16)

  /** The byte an event put on MOSI, if any. */
  function SentOf(e: Event): seq<Byte>
  {
    if e.Sent? then [e.data] else []
  }

  /** The byte an event took from MISO, if any. */
  function ReceivedOf(e: Event): seq<Byte>
  {
    if e.Received? then [e.data] else []
  }

  /** The bytes shifted out, in order. */
  function SentBytes(t: seq<Event>): (s: seq<Byte>)
    ensures |s| <= |t|
  {
    if t == [] then [] else SentOf(t[0]) + SentBytes(t[1..])
  }

  /** The bytes shifted in, in order. */
  function ReceivedBytes(t: seq<Event>): (s: seq<Byte>)
    ensures |s| <= |t|
  {
    if t == [] then [] else ReceivedOf(t[0]) + ReceivedBytes(t[1..])
  }

  /** Every byte shifted out comes from a `Sent` event of the timeline. */
  lemma {:induction false} SentBytesFromTimeline(t: seq<Event>)
    ensures forall b | b in SentBytes(t) :: Sent(b) in t
  {
    if t != [] {
      SentBytesFromTimeline(t[1..]);
      assert forall e | e in t[1..] :: e in t;
    }
  }

  /** Every byte shifted in comes from a `Received` event of the timeline. */
  lemma {:induction false} ReceivedBytesFromTimeline(t: seq<Event>)
    ensures forall b | b in ReceivedBytes(t) :: Received(b) in t
  {
    if t != [] {
      ReceivedBytesFromTimeline(t[1..]);
      assert forall e | e in t[1..] :: e in t;
    }
  }

  lemma {:induction false} ReceivedBytesAppend(a: seq<Event>, b: seq<Event>)
    ensures ReceivedBytes(a + b) == ReceivedBytes(a) + ReceivedBytes(b)
  {
    if a == [] {
      assert a + b == b;
    } else {
      assert (a + b)[0] == a[0] && (a + b)[1..] == a[1..] + b;
      calc {
        ReceivedBytes(a + b);
        ReceivedOf(a[0]) + ReceivedBytes(a[1..] + b);
        { ReceivedBytesAppend(a[1..], b); }
        ReceivedOf(a[0]) + (ReceivedBytes(a[1..]) + ReceivedBytes(b));
        (ReceivedOf(a[0]) + ReceivedBytes(a[1..])) + ReceivedBytes(b);
      }
    }
  }

  lemma {:induction false} SentBytesAppend(a: seq<Event>, b: seq<Event>)
    ensures SentBytes(a + b) == SentBytes(a) + SentBytes(b)
  {
    if a == [] {
      assert a + b == b;
    } else {
      assert (a + b)[0] == a[0] && (a + b)[1..] == a[1..] + b;
      calc {
        SentBytes(a + b);
        SentOf(a[0]) + SentBytes(a[1..] + b);
        { SentBytesAppend(a[1..], b); }
        SentOf(a[0]) + (SentBytes(a[1..]) + SentBytes(b));
        (SentOf(a[0]) + SentBytes(a[1..])) + SentBytes(b);
      }
    }
  }

  /** The wire image of `write(reg, value)`. */
  function WriteFrame(reg: Register, value: Byte): seq<Event>
  {
    [Sent(WriteHeader(reg)), Sent(value)]
  }

  /** The wire image of `read(reg)`: the address, the discarded echo, the
      t_SRAD wait, the dummy zero and the register's value. */
  function ReadFrame(reg: Register, echo: Byte, value: Byte): seq<Event>
  {
    [Sent(Address(reg)), Received(echo), Delay(CYCLES_160US), Sent(0), Received(value)]
  }

  lemma ReadFrameBytes(reg: Register, echo: Byte, value: Byte)
    ensures SentBytes(ReadFrame(reg, echo, value)) == [Address(reg), 0]
    ensures ReceivedBytes(ReadFrame(reg, echo, value)) == [echo, value]
  {
    var f := ReadFrame(reg, echo, value);
    var t1 := [Received(echo), Delay(CYCLES_160US), Sent(0), Received(value)];
    var t2 := [Delay(CYCLES_160US), Sent(0), Received(value)];
    var t3 := [Sent(0), Received(value)];
    var t4 := [Received(value)];
    assert f[1..] == t1 && t1[1..] == t2 && t2[1..] == t3 && t3[1..] == t4 && t4[1..] == [];
    assert ReceivedBytes(t4) == [value] && SentBytes(t4) == [];
    assert ReceivedBytes(t3) == [value] && SentBytes(t3) == [0];
    assert ReceivedBytes(t2) == [value] && SentBytes(t2) == [0];
    assert ReceivedBytes(t1) == [echo, value] && SentBytes(t1) == [0];
  }

  lemma WriteFrameBytes(reg: Register, v: Byte)
    ensures SentBytes(WriteFrame(reg, v)) == [WriteHeader(reg), v]
    ensures ReceivedBytes(WriteFrame(reg, v)) == []
  {
    var w := WriteFrame(reg, v);
    assert w[1..] == [Sent(v)] && [Sent(v)][1..] == [];
    assert SentBytes([Sent(v)]) == [v] && ReceivedBytes([Sent(v)]) == [];
  }

  /** The bytes a run of register reads sends: each address followed by the
      dummy zero. */
  function ReadCommands(regs: seq<Register>): seq<Byte>
  {
    if regs == [] then [] else [Address(regs[0]), 0] + ReadCommands(regs[1..])
  }

  /** The read frames of a list of registers, given the bytes received
      (echo, value, echo, value, ...). */
  function ReadFrames(regs: seq<Register>, rx: seq<Byte>): seq<Event>
    requires |rx| == 2 * |regs|
    decreases |regs|
  {
    if regs == [] then [] else ReadFrame(regs[0], rx[0], rx[1]) + ReadFrames(regs[1..], rx[2..])
  }

  lemma {:induction false} ReadFramesBytes(regs: seq<Register>, rx: seq<Byte>)
    requires |rx| == 2 * |regs|
    ensures SentBytes(ReadFrames(regs, rx)) == ReadCommands(regs)
    ensures ReceivedBytes(ReadFrames(regs, rx)) == rx
    decreases |regs|
  {
    if regs != [] {
      ReadFramesBytes(regs[1..], rx[2..]);
      ReadFrameBytes(regs[0], rx[0], rx[1]);
      SentBytesAppend(ReadFrame(regs[0], rx[0], rx[1]), ReadFrames(regs[1..], rx[2..]));
      ReceivedBytesAppend(ReadFrame(regs[0], rx[0], rx[1]), ReadFrames(regs[1..], rx[2..]));
      assert rx == [rx[0], rx[1]] + rx[2..];
    }
  }

  // ---------------------------------------------------------------------------
  // Specification functions
  // ---------------------------------------------------------------------------

  /** `write_byte`: try `send` until it is not WouldBlock; each WouldBlock drives
      the indicator low, the first Ok drives it high. */
  function WriteByteSpec(h: Hw, b: Byte): (s: Step<()>)
    ensures s.hw.readReplies == h.readReplies && s.hw.writeReplies == h.writeReplies
    ensures s.hw.timeline == h.timeline + (if s.out.Done? then [Sent(b)] else [])
    ensures s.out.Done? ==> s.hw.high
    ensures |s.hw.sendReplies| <= |h.sendReplies|
    decreases |h.sendReplies|
  {
    if h.sendReplies == [] then Step(Stalled, h)
    else match h.sendReplies[0]
      case Ready(_) =>
        Step(Done(()), h.(sendReplies := h.sendReplies[1..], timeline := h.timeline + [Sent(b)], high := true))
      case WouldBlock => WriteByteSpec(h.(sendReplies := h.sendReplies[1..], high := false), b)
      case Failed(e) => Step(Fatal(e), h.(sendReplies := h.sendReplies[1..]))
  }

  /** `read_byte`: try `read` until it is not WouldBlock; the first Ok drives
      the indicator high and yields the byte. */
  function ReadByteSpec(h: Hw): (s: Step<Byte>)
    ensures s.hw.sendReplies == h.sendReplies && s.hw.writeReplies == h.writeReplies
    ensures s.hw.timeline == h.timeline + (if s.out.Done? then [Received(s.out.value)] else [])
    ensures s.out.Done? ==> s.hw.high
    ensures h.high ==> s.hw.high
    decreases |h.readReplies|
  {
    if h.readReplies == [] then Step(Stalled, h)
    else match h.readReplies[0]
      case Ready(v) =>
        Step(Done(v), h.(readReplies := h.readReplies[1..], timeline := h.timeline + [Received(v)], high := true))
      case WouldBlock => ReadByteSpec(h.(readReplies := h.readReplies[1..]))
      case Failed(e) => Step(Fatal(e), h.(readReplies := h.readReplies[1..]))
  }

  /** The HAL's blocking `write` of a whole frame, with `unwrap`. */
  function WriteFrameSpec(h: Hw, frame: seq<Byte>): (s: Step<()>)
    ensures s.hw.sendReplies == h.sendReplies && s.hw.readReplies == h.readReplies && s.hw.high == h.high
    ensures s.hw.timeline == h.timeline + (if s.out.Done? then SentEach(frame) else [])
  {
    if h.writeReplies == [] then Step(Stalled, h)
    else if h.writeReplies[0].None? then
      Step(Done(()), h.(writeReplies := h.writeReplies[1..], timeline := h.timeline + SentEach(frame)))
    else Step(Fatal(h.writeReplies[0].value), h.(writeReplies := h.writeReplies[1..]))
  }

  function SentEach(frame: seq<Byte>): (t: seq<Event>)
    ensures SentBytes(t) == frame
    ensures forall e | e in t :: e.Sent?
  {
    if frame == [] then [] else
      assert ([Sent(frame[0])] + SentEach(frame[1..]))[1..] == SentEach(frame[1..]);
      [Sent(frame[0])] + SentEach(frame[1..])
  }

  /** `write(reg, value)`. */
  function WriteSpec(h: Hw, reg: Register, value: Byte): (s: Step<()>)
    ensures s.hw.timeline == h.timeline + (if s.out.Done? then WriteFrame(reg, value) else [])
  {
    assert [WriteHeader(reg), value][1..] == [value] && [value][1..] == [];
    assert SentEach([value]) == [Sent(value)];
    assert SentEach([WriteHeader(reg), value]) == WriteFrame(reg, value);
    WriteFrameSpec(h, [WriteHeader(reg), value])
  }

  /** `read(reg)`. */
  function ReadSpec(h: Hw, reg: Register): (s: Step<Byte>)
    ensures h.timeline <= s.hw.timeline
    ensures s.out.Done? ==>
      |s.hw.timeline| == |h.timeline| + 5 && s.hw.timeline[|h.timeline| + 1].Received? &&
      s.hw.timeline == h.timeline + ReadFrame(reg, s.hw.timeline[|h.timeline| + 1].data, s.out.value)
  {
    var s1 := WriteByteSpec(h, Address(reg));
    if !s1.out.Done? then Step(Abort(s1.out), s1.hw) else
    var s2 := ReadByteSpec(s1.hw);
    if !s2.out.Done? then s2 else
    var s3 := WriteByteSpec(s2.hw.(timeline := s2.hw.timeline + [Delay(CYCLES_160US)]), 0);
    if !s3.out.Done? then Step(Abort(s3.out), s3.hw) else
    ReadByteSpec(s3.hw)
  }

  /** `read(reg)` for each register in turn, collecting the values. */
  function ReadEachSpec(h: Hw, regs: seq<Register>): (s: Step<seq<Byte>>)
    ensures s.out.Done? ==> |s.out.value| == |regs|
    ensures h.timeline <= s.hw.timeline
    decreases |regs|
  {
    if regs == [] then Step(Done([]), h) else
    var first := ReadSpec(h, regs[0]);
    if !first.out.Done? then Step(Abort(first.out), first.hw) else
    var rest := ReadEachSpec(first.hw, regs[1..]);
    if !rest.out.Done? then rest else Step(Done([first.out.value] + rest.out.value), rest.hw)
  }

  const DELTA_REGISTERS: seq<Register> := [DeltaXL, DeltaXH, DeltaYL, DeltaYH]

  /** `read_dx_dy`: the Motion register, then the four deltas only when its
      MOT bit (bit 7) is set. */
  function ReadDxDySpec(h: Hw): (s: Step<Delta>)
    ensures h.timeline <= s.hw.timeline
  {
    var m := ReadSpec(h, Motion);
    if !m.out.Done? then Step(Abort(m.out), m.hw)
    else if !MotionPending(m.out.value) then Step(Done(Delta(0, 0)), m.hw)
    else
      var d := ReadEachSpec(m.hw, DELTA_REGISTERS);
      if !d.out.Done? then Step(Abort(d.out), d.hw) else
      var v := d.out.value;
      Step(Done(Delta(ToSigned16(v[0], v[1]), ToSigned16(v[2], v[3]))), d.hw)
  }

  const DRAINED_REGISTERS: seq<Register> := [Motion, DeltaXL, DeltaXH, DeltaYL, DeltaYH]

  /** `power_up`: reset, settle, drain Motion and the deltas, clear Motion. */
  function PowerUpSpec(h: Hw): (s: Step<()>)
    ensures h.timeline <= s.hw.timeline
  {
    var reset := WriteSpec(h, PowerUpReset, 0x5a);
    if !reset.out.Done? then reset else
    var settled := reset.hw.(timeline := reset.hw.timeline + [Delay(CYCLES_50MS)]);
    var drained := ReadEachSpec(settled, DRAINED_REGISTERS);
    if !drained.out.Done? then Step(Abort(drained.out), drained.hw) else
    WriteSpec(drained.hw, Motion, 0x00)
  }

  // ---------------------------------------------------------------------------
  // Properties of the byte primitives
  // ---------------------------------------------------------------------------

  /** The number of WouldBlock answers at the head of a reply queue. */
  function Spin<T>(replies: seq<Poll<T>>): (k: nat)
    ensures k <= |replies|
    ensures forall i | 0 <= i < k :: replies[i].WouldBlock?
    ensures k < |replies| ==> !replies[k].WouldBlock?
  {
    if replies == [] || !replies[0].WouldBlock? then 0 else 1 + Spin(replies[1..])
  }

  /** `write_byte` retries exactly the WouldBlock answers: its outcome is
      decided by the first other answer, which it consumes, and the pin is low
      afterwards when it retried and did not succeed. */
  lemma {:induction false} WriteByteFirstAnswer(h: Hw, b: Byte)
    ensures var s := WriteByteSpec(h, b); var k := Spin(h.sendReplies);
      if k == |h.sendReplies| then
        s.out == Stalled && s.hw.sendReplies == [] && s.hw.high == (if k == 0 then h.high else false)
      else
        s.hw.sendReplies == h.sendReplies[k + 1..] &&
        (h.sendReplies[k].Ready? ==> s.out == Done(()) && s.hw.high) &&
        (h.sendReplies[k].Failed? ==>
           s.out == Fatal(h.sendReplies[k].error) && s.hw.high == (if k == 0 then h.high else false))
    decreases |h.sendReplies|
  {
    if h.sendReplies != [] && h.sendReplies[0].WouldBlock? {
      var h' := h.(sendReplies := h.sendReplies[1..], high := false);
      WriteByteFirstAnswer(h', b);
      assert Spin(h.sendReplies) == 1 + Spin(h'.sendReplies);
      if Spin(h'.sendReplies) < |h'.sendReplies| {
        assert h.sendReplies[Spin(h.sendReplies) + 1..] == h'.sendReplies[Spin(h'.sendReplies) + 1..];
      }
    }
  }

  /** `read_byte` retries exactly the WouldBlock answers, never touching the pin
      while it waits. */
  lemma {:induction false} ReadByteFirstAnswer(h: Hw)
    ensures var s := ReadByteSpec(h); var k := Spin(h.readReplies);
      if k == |h.readReplies| then s.out == Stalled && s.hw.readReplies == [] && s.hw.high == h.high
      else
        s.hw.readReplies == h.readReplies[k + 1..] &&
        (h.readReplies[k].Ready? ==> s.out == Done(h.readReplies[k].value) && s.hw.high) &&
        (h.readReplies[k].Failed? ==> s.out == Fatal(h.readReplies[k].error) && s.hw.high == h.high)
    decreases |h.readReplies|
  {
    if h.readReplies != [] && h.readReplies[0].WouldBlock? {
      var h' := h.(readReplies := h.readReplies[1..]);
      ReadByteFirstAnswer(h');
      assert Spin(h.readReplies) == 1 + Spin(h'.readReplies);
      if Spin(h'.readReplies) < |h'.readReplies| {
        assert h.readReplies[Spin(h.readReplies) + 1..] == h'.readReplies[Spin(h'.readReplies) + 1..];
      }
    }
  }

  // ---------------------------------------------------------------------------
  // Properties of the register transactions
  // ---------------------------------------------------------------------------

  /** `write(reg, value)` puts exactly `[0x80 | addr, value]` on the wire. */
  lemma WriteFraming(h: Hw, reg: Register, value: Byte)
    ensures var s := WriteSpec(h, reg, value);
      s.out.Done? ==> s.hw.timeline == h.timeline + WriteFrame(reg, value)
    ensures var s := WriteSpec(h, reg, value);
      !s.out.Done? ==> s.hw.timeline == h.timeline
  {
  }

  /** `read(reg)`: address with bit 7 clear, echo discarded, wait, dummy zero,
      and the value returned is the second byte received. */
  lemma ReadFraming(h: Hw, reg: Register)
    ensures var s := ReadSpec(h, reg);
      s.out.Done? ==> exists echo: Byte :: s.hw.timeline == h.timeline + ReadFrame(reg, echo, s.out.value)
    ensures h.timeline <= ReadSpec(h, reg).hw.timeline
  {
    var s := ReadSpec(h, reg);
    if s.out.Done? {
      var s1 := WriteByteSpec(h, Address(reg));
      var s2 := ReadByteSpec(s1.hw);
      var echo := s2.out.value;
      assert s.hw.timeline == h.timeline + ReadFrame(reg, echo, s.out.value);
    }
  }

  /** On a bus that answers every poll at once, `read(reg)` consumes two send
      and two read answers and returns the second byte, leaving the pin high. */
  lemma ReadOnReadyBus(h: Hw, reg: Register, echo: Byte, value: Byte)
    requires |h.sendReplies| >= 2 && h.sendReplies[0].Ready? && h.sendReplies[1].Ready?
    requires |h.readReplies| >= 2 && h.readReplies[0] == Ready(echo) && h.readReplies[1] == Ready(value)
    ensures ReadSpec(h, reg) ==
      Step(Done(value), h.(sendReplies := h.sendReplies[2..], readReplies := h.readReplies[2..],
                           timeline := h.timeline + ReadFrame(reg, echo, value), high := true))
  {
    assert h.sendReplies[1..][1..] == h.sendReplies[2..];
    assert h.readReplies[1..][1..] == h.readReplies[2..];
  }

  lemma ReadIndicatorHigh(h: Hw, reg: Register)
    ensures ReadSpec(h, reg).out.Done? ==> ReadSpec(h, reg).hw.high
  {
  }

  /** The register values among the bytes received by a run of reads: every
      second byte, the echoes being discarded. */
  function Values(rx: seq<Byte>): (v: seq<Byte>)
    ensures |v| == |rx| / 2
  {
    if |rx| < 2 then [] else [rx[1]] + Values(rx[2..])
  }

  /** Value i is the second byte of the i-th received pair. */
  lemma {:induction false} ValuesAreSecondBytes(rx: seq<Byte>)
    ensures forall i | 0 <= i < |Values(rx)| :: Values(rx)[i] == rx[2 * i + 1]
    decreases |rx|
  {
    if |rx| >= 2 {
      ValuesAreSecondBytes(rx[2..]);
      forall i | 0 <= i < |Values(rx)|
        ensures Values(rx)[i] == rx[2 * i + 1]
      {
        if i > 0 {
          assert Values(rx)[i] == Values(rx[2..])[i - 1];
        }
      }
    }
  }

  /** The timeline of `ReadEachSpec`: one read frame per register, in order,
      filled with the bytes received. */
  lemma {:induction false} ReadEachFraming(h: Hw, regs: seq<Register>)
    ensures var s := ReadEachSpec(h, regs); var d := s.hw.timeline[|h.timeline|..]; var rx := ReceivedBytes(d);
      s.out.Done? ==> |rx| == 2 * |regs| && d == ReadFrames(regs, rx) && s.out.value == Values(rx)
    decreases |regs|
  {
    var s := ReadEachSpec(h, regs);
    if regs == [] {
      assert s.hw.timeline[|h.timeline|..] == [];
    } else {
      var first := ReadSpec(h, regs[0]);
      if first.out.Done? {
        ReadEachFraming(first.hw, regs[1..]);
        var rest := ReadEachSpec(first.hw, regs[1..]);
        if rest.out.Done? {
          assert s == Step(Done([first.out.value] + rest.out.value), rest.hw);
          FramesCons(h.timeline, regs, first.hw.timeline, rest.hw.timeline, first.out.value, rest.out.value);
        }
      }
    }
  }

  /** The sequence bookkeeping of `ReadEachFraming`: one read frame in front
      of the frames of the remaining registers. */
  lemma FramesCons(t: seq<Event>, regs: seq<Register>, mid: seq<Event>, end: seq<Event>, value: Byte, rest: seq<Byte>)
    requires regs != []
    requires |mid| == |t| + 5 && mid[|t| + 1].Received?
    requires mid == t + ReadFrame(regs[0], mid[|t| + 1].data, value)
    requires mid <= end
    requires var dr := end[|mid|..]; var rx := ReceivedBytes(dr);
      |rx| == 2 * |regs[1..]| && dr == ReadFrames(regs[1..], rx) && rest == Values(rx)
    ensures var d := end[|t|..]; var rx := ReceivedBytes(d);
      |rx| == 2 * |regs| && d == ReadFrames(regs, rx) && [value] + rest == Values(rx)
  {
    var f := ReadFrame(regs[0], mid[|t| + 1].data, value);
    var dr := end[|mid|..];
    var d := end[|t|..];
    assert d == f + dr;
    ReceivedBytesAppend(f, dr);
    ReadFrameBytes(regs[0], mid[|t| + 1].data, value);
    var rx := ReceivedBytes(d);
    assert rx[2..] == ReceivedBytes(dr);
  }

  /** `read_dx_dy` on the wire.  With MOT clear only the Motion register is
      read and the sample is (0, 0); with MOT set DeltaXL, DeltaXH, DeltaYL and
      DeltaYH follow in that order and the sample is their two's-complement
      reading. */
  lemma ReadDxDyFraming(h: Hw)
    ensures var s := ReadDxDySpec(h); var d := s.hw.timeline[|h.timeline|..]; var rx := ReceivedBytes(d);
      s.out.Done? ==>
        |rx| >= 2 &&
        if !MotionPending(rx[1]) then
          d == ReadFrame(Motion, rx[0], rx[1]) && s.out.value == Delta(0, 0)
        else
          |rx| == 10 &&
          d == ReadFrames([Motion] + DELTA_REGISTERS, rx) &&
          s.out.value == Delta(ToSigned16(rx[3], rx[5]), ToSigned16(rx[7], rx[9]))
  {
    var m := ReadSpec(h, Motion);
    if m.out.Done? {
      if MotionPending(m.out.value) {
        var e := ReadEachSpec(m.hw, DELTA_REGISTERS);
        if e.out.Done? {
          ReadDxDyMotionSet(h, m.hw, m.out.value, e.hw, e.out.value);
        }
      } else {
        ReadDxDyMotionClear(h);
      }
    }
  }

  lemma ReadDxDyMotionClear(h: Hw)
    requires ReadSpec(h, Motion).out.Done? && !MotionPending(ReadSpec(h, Motion).out.value)
    ensures var s := ReadDxDySpec(h); var d := s.hw.timeline[|h.timeline|..]; var rx := ReceivedBytes(d);
      s.out.Done? && |rx| == 2 && !MotionPending(rx[1]) &&
      d == ReadFrame(Motion, rx[0], rx[1]) && s.out.value == Delta(0, 0)
  {
    var s := ReadDxDySpec(h);
    var m := ReadSpec(h, Motion);
    var t := h.timeline;
    var echo := m.hw.timeline[|t| + 1].data;
    var f := ReadFrame(Motion, echo, m.out.value);
    assert m.hw.timeline == t + f;
    assert s == Step(Done(Delta(0, 0)), m.hw);
    ReadFrameBytes(Motion, echo, m.out.value);
    assert s.hw.timeline[|t|..] == f;
  }

  lemma ReadDxDyMotionSet(h: Hw, mh: Hw, motion: Byte, eh: Hw, v: seq<Byte>)
    requires ReadSpec(h, Motion) == Step(Done(motion), mh) && MotionPending(motion)
    requires ReadEachSpec(mh, DELTA_REGISTERS) == Step(Done(v), eh)
    ensures var s := ReadDxDySpec(h); var d := s.hw.timeline[|h.timeline|..]; var rx := ReceivedBytes(d);
      s.out.Done? && |rx| == 10 && MotionPending(rx[1]) &&
      d == ReadFrames([Motion] + DELTA_REGISTERS, rx) &&
      s.out.value == Delta(ToSigned16(rx[3], rx[5]), ToSigned16(rx[7], rx[9]))
  {
    var t := h.timeline;
    var echo := mh.timeline[|t| + 1].data;
    assert mh.timeline == t + ReadFrame(Motion, echo, motion);
    assert ReadDxDySpec(h) == Step(Done(Delta(ToSigned16(v[0], v[1]), ToSigned16(v[2], v[3]))), eh);
    ReadEachFraming(mh, DELTA_REGISTERS);
    var de := eh.timeline[|mh.timeline|..];
    MotionThenDeltas(t, echo, motion, de, v);
    assert eh.timeline == t + ReadFrame(Motion, echo, motion) + de;
  }

  /** The MOT-set case of `ReadDxDyFraming`, on the timeline pieces alone. */
  lemma MotionThenDeltas(t: seq<Event>, echo: Byte, motion: Byte, de: seq<Event>, v: seq<Byte>)
    requires var rxe := ReceivedBytes(de); |rxe| == 8 && de == ReadFrames(DELTA_REGISTERS, rxe) && v == Values(rxe)
    ensures var d := (t + ReadFrame(Motion, echo, motion) + de)[|t|..]; var rx := ReceivedBytes(d);
      |rx| == 10 && rx[1] == motion &&
      d == ReadFrames([Motion] + DELTA_REGISTERS, rx) &&
      v == [rx[3], rx[5], rx[7], rx[9]]
  {
    var f := ReadFrame(Motion, echo, motion);
    var d := (t + f + de)[|t|..];
    assert d == f + de;
    ReceivedBytesAppend(f, de);
    ReadFrameBytes(Motion, echo, motion);
    var rx := ReceivedBytes(d);
    var rxe := ReceivedBytes(de);
    assert rx[2..] == rxe;
    ValuesOfFour(rxe);
    assert ([Motion] + DELTA_REGISTERS)[1..] == DELTA_REGISTERS;
  }

  lemma ValuesOfFour(rx: seq<Byte>)
    requires |rx| == 8
    ensures Values(rx) == [rx[1], rx[3], rx[5], rx[7]]
  {
    assert rx[2..][2..] == rx[4..] && rx[4..][2..] == rx[6..] && rx[6..][2..] == rx[8..];
    assert Values(rx[6..]) == [rx[7]];
    assert Values(rx[4..]) == [rx[5], rx[7]];
  }

  /** `MOT` clear: the sample is (0, 0) and nothing but the Motion read happened. */
  lemma NoMotionReadsOnlyMotion(h: Hw)
    requires ReadSpec(h, Motion).out.Done? && !MotionPending(ReadSpec(h, Motion).out.value)
    ensures ReadDxDySpec(h) == Step(Done(Delta(0, 0)), ReadSpec(h, Motion).hw)
  {
  }

  /** `power_up` on the wire: the reset write, the 50 ms wait, the five drain
      reads in order, and the write that clears Motion. */
  lemma PowerUpFraming(h: Hw)
    ensures var s := PowerUpSpec(h); var d := s.hw.timeline[|h.timeline|..]; var rx := ReceivedBytes(d);
      s.out.Done? ==>
        |rx| == 10 &&
        d == WriteFrame(PowerUpReset, 0x5a) + [Delay(CYCLES_50MS)] +
             ReadFrames(DRAINED_REGISTERS, rx) + WriteFrame(Motion, 0x00)
  {
    var reset := WriteSpec(h, PowerUpReset, 0x5a);
    if reset.out.Done? {
      var settled := reset.hw.(timeline := reset.hw.timeline + [Delay(CYCLES_50MS)]);
      if ReadEachSpec(settled, DRAINED_REGISTERS).out.Done? {
        PowerUpDrained(h, reset.hw, ReadEachSpec(settled, DRAINED_REGISTERS).hw);
      }
    }
  }

  /** `PowerUpFraming` once the reset write and the drain reads have finished. */
  lemma PowerUpDrained(h: Hw, reset: Hw, drained: Hw)
    requires WriteSpec(h, PowerUpReset, 0x5a) == Step(Done(()), reset)
    requires var settled := reset.(timeline := reset.timeline + [Delay(CYCLES_50MS)]);
      ReadEachSpec(settled, DRAINED_REGISTERS).out.Done? && ReadEachSpec(settled, DRAINED_REGISTERS).hw == drained
    ensures var s := PowerUpSpec(h); var d := s.hw.timeline[|h.timeline|..]; var rx := ReceivedBytes(d);
      s.out.Done? ==>
        |rx| == 10 &&
        d == WriteFrame(PowerUpReset, 0x5a) + [Delay(CYCLES_50MS)] +
             ReadFrames(DRAINED_REGISTERS, rx) + WriteFrame(Motion, 0x00)
  {
    var s := PowerUpSpec(h);
    var settled := reset.(timeline := reset.timeline + [Delay(CYCLES_50MS)]);
    ReadEachFraming(settled, DRAINED_REGISTERS);
    assert s == WriteSpec(drained, Motion, 0x00);
    WriteFraming(drained, Motion, 0x00);
    WriteFraming(h, PowerUpReset, 0x5a);
    if s.out.Done? {
      PowerUpTimeline(h.timeline, reset.timeline, drained.timeline, s.hw.timeline);
    }
  }

  /** The sequence bookkeeping of `PowerUpFraming`: the timeline after the
      reset write, after the drain reads and at the end. */
  lemma PowerUpTimeline(t: seq<Event>, reset: seq<Event>, drained: seq<Event>, final: seq<Event>)
    requires reset == t + WriteFrame(PowerUpReset, 0x5a)
    requires reset + [Delay(CYCLES_50MS)] <= drained
    requires var dd := drained[|reset| + 1..]; var rxd := ReceivedBytes(dd);
      |rxd| == 10 && dd == ReadFrames(DRAINED_REGISTERS, rxd)
    requires final == drained + WriteFrame(Motion, 0x00)
    ensures var d := final[|t|..]; var rx := ReceivedBytes(d);
      |rx| == 10 &&
      d == WriteFrame(PowerUpReset, 0x5a) + [Delay(CYCLES_50MS)] + ReadFrames(DRAINED_REGISTERS, rx) + WriteFrame(Motion, 0x00)
  {
    var dd := drained[|reset| + 1..];
    assert drained == reset + [Delay(CYCLES_50MS)] + dd;
    assert final[|t|..] == WriteFrame(PowerUpReset, 0x5a) + [Delay(CYCLES_50MS)] + dd + WriteFrame(Motion, 0x00);
    PowerUpReceived(dd);
  }

  /** Only the drain reads of `power_up` take bytes from MISO. */
  lemma PowerUpReceived(dd: seq<Event>)
    ensures ReceivedBytes(WriteFrame(PowerUpReset, 0x5a) + [Delay(CYCLES_50MS)] + dd + WriteFrame(Motion, 0x00)) == ReceivedBytes(dd)
  {
    var w1, w2 := WriteFrame(PowerUpReset, 0x5a), WriteFrame(Motion, 0x00);
    WriteFrameBytes(PowerUpReset, 0x5a);
    WriteFrameBytes(Motion, 0x00);
    ReceivedBytesAppend(w1, [Delay(CYCLES_50MS)]);
    ReceivedBytesAppend(w1 + [Delay(CYCLES_50MS)], dd);
    ReceivedBytesAppend(w1 + [Delay(CYCLES_50MS)] + dd, w2);
    assert ReceivedBytes([Delay(CYCLES_50MS)]) == [];
  }

  /** The bytes `power_up` sends, in order. */
  lemma PowerUpSentBytes(h: Hw)
    ensures var s := PowerUpSpec(h);
      s.out.Done? ==>
        SentBytes(s.hw.timeline[|h.timeline|..]) == [0xba, 0x5a, 0x02, 0x00, 0x03, 0x00, 0x04, 0x00, 0x05, 0x00, 0x06, 0x00, 0x82, 0x00]
  {
    var s := PowerUpSpec(h);
    PowerUpFraming(h);
    if s.out.Done? {
      var d := s.hw.timeline[|h.timeline|..];
      PowerUpFrameBytes(d, ReceivedBytes(d));
      PowerUpCommandBytes();
    }
  }

  lemma PowerUpCommandBytes()
    ensures [WriteHeader(PowerUpReset), 0x5a] + ReadCommands(DRAINED_REGISTERS) + [WriteHeader(Motion), 0x00] ==
            [0xba, 0x5a, 0x02, 0x00, 0x03, 0x00, 0x04, 0x00, 0x05, 0x00, 0x06, 0x00, 0x82, 0x00]
  {
    DrainedCommands();
    HeaderBytes();
  }

  lemma PowerUpFrameBytes(d: seq<Event>, rx: seq<Byte>)
    requires |rx| == 10
    requires d == WriteFrame(PowerUpReset, 0x5a) + [Delay(CYCLES_50MS)] + ReadFrames(DRAINED_REGISTERS, rx) + WriteFrame(Motion, 0x00)
    ensures SentBytes(d) == [WriteHeader(PowerUpReset), 0x5a] + ReadCommands(DRAINED_REGISTERS) + [WriteHeader(Motion), 0x00]
  {
    var w1, w2 := WriteFrame(PowerUpReset, 0x5a), WriteFrame(Motion, 0x00);
    var b := ReadFrames(DRAINED_REGISTERS, rx);
    WriteFrameBytes(PowerUpReset, 0x5a);
    WriteFrameBytes(Motion, 0x00);
    ReadFramesBytes(DRAINED_REGISTERS, rx);
    SentBytesAppend(w1, [Delay(CYCLES_50MS)]);
    SentBytesAppend(w1 + [Delay(CYCLES_50MS)], b);
    SentBytesAppend(w1 + [Delay(CYCLES_50MS)] + b, w2);
    assert SentBytes([Delay(CYCLES_50MS)]) == [];
  }

  /** The write headers of the two registers `power_up` writes. */
  lemma HeaderBytes()
    ensures WriteHeader(PowerUpReset) == 0xba && WriteHeader(Motion) == 0x82
  {
    assert Address(PowerUpReset) == 0x3a && Address(Motion) == 0x02;
  }

  /** The addresses the five drain reads send, each followed by the dummy zero. */
  lemma DrainedCommands()
    ensures ReadCommands(DRAINED_REGISTERS) == [0x02, 0x00, 0x03, 0x00, 0x04, 0x00, 0x05, 0x00, 0x06, 0x00]
  {
    var r := DRAINED_REGISTERS;
    assert r[1..] == [DeltaXL, DeltaXH, DeltaYL, DeltaYH] && r[1..][1..] == [DeltaXH, DeltaYL, DeltaYH];
    assert r[1..][1..][1..] == [DeltaYL, DeltaYH] && r[1..][1..][1..][1..] == [DeltaYH];
    assert [DeltaYH][1..] == [];
    assert ReadCommands([DeltaYH]) == [0x06, 0x00];
    assert ReadCommands([DeltaYL, DeltaYH]) == [0x05, 0x00, 0x06, 0x00];
    assert ReadCommands([DeltaXH, DeltaYL, DeltaYH]) == [0x04, 0x00, 0x05, 0x00, 0x06, 0x00];
    assert ReadCommands([DeltaXL, DeltaXH, DeltaYL, DeltaYH]) == [0x03, 0x00, 0x04, 0x00, 0x05, 0x00, 0x06, 0x00];
  }

  // ---------------------------------------------------------------------------
  // The hardware objects
  // ---------------------------------------------------------------------------

  /** The SPI1 peripheral: scripted answers and the ghost timeline. */
  class Spi {
    var sendReplies: seq<Poll<()>>
    var readReplies: seq<Poll<Byte>>
    var writeReplies: seq<Option<SpiError>>
    ghost var timeline: seq<Event>

    constructor (sendReplies: seq<Poll<()>>, readReplies: seq<Poll<Byte>>, writeReplies: seq<Option<SpiError>>)
      ensures this.sendReplies == sendReplies && this.readReplies == readReplies && this.writeReplies == writeReplies
      ensures timeline == []
    {
      this.sendReplies, this.readReplies, this.writeReplies := sendReplies, readReplies, writeReplies;
      timeline := [];
    }

    /** One non-blocking `send` attempt.  An empty queue stands for a bus that
        never answers again; the driver checks for it before polling. */
    method Send(b: Byte) returns (p: Poll<()>)
      requires sendReplies != []
      modifies this
      ensures p == old(sendReplies[0]) && sendReplies == old(sendReplies[1..])
      ensures timeline == old(timeline) + (if p.Ready? then [Sent(b)] else [])
      ensures readReplies == old(readReplies) && writeReplies == old(writeReplies)
    {
      p := sendReplies[0];
      sendReplies := sendReplies[1..];
      if p.Ready? {
        timeline := timeline + [Sent(b)];
      }
    }

    /** One non-blocking `read` attempt. */
    method Read() returns (p: Poll<Byte>)
      requires readReplies != []
      modifies this
      ensures p == old(readReplies[0]) && readReplies == old(readReplies[1..])
      ensures timeline == old(timeline) + (if p.Ready? then [Received(p.value)] else [])
      ensures sendReplies == old(sendReplies) && writeReplies == old(writeReplies)
    {
      p := readReplies[0];
      readReplies := readReplies[1..];
      if p.Ready? {
        timeline := timeline + [Received(p.value)];
      }
    }

    /** The blocking frame write followed by `unwrap`.  The write does not
        read the indicator pin, so the snapshot handed to `WriteFrameSpec`
        carries a placeholder level, which the specification leaves as it is. */
    method Write(frame: seq<Byte>) returns (r: Outcome<()>)
      modifies this
      ensures var s := WriteFrameSpec(Hw(old(sendReplies), old(readReplies), old(writeReplies), old(timeline), false), frame);
        r == s.out && sendReplies == s.hw.sendReplies && readReplies == s.hw.readReplies && writeReplies == s.hw.writeReplies &&
        timeline == s.hw.timeline
    {
      if writeReplies == [] {
        return Stalled;
      }
      var answer := writeReplies[0];
      writeReplies := writeReplies[1..];
      if answer.None? {
        timeline := timeline + SentEach(frame);
        r := Done(());
      } else {
        r := Fatal(answer.value);
      }
    }
  }

  /** The PC13 indicator output. */
  class Pin {
    var high: bool

    constructor (high: bool)
      ensures this.high == high
    {
      this.high := high;
    }

    method SetHigh()
      modifies this
      ensures high
    {
      high := true;
    }

    method SetLow()
      modifies this
      ensures !high
    {
      high := false;
    }
  }

  ghost function Snapshot(spi: Spi, pin: Pin): Hw
    reads spi, pin
  {
    Hw(spi.sendReplies, spi.readReplies, spi.writeReplies, spi.timeline, pin.high)
  }

  /** The driver: a bus handle and the indicator pin, borrowed for its lifetime. */
  class Pmw3360 {
    const spi: Spi
    const indicator: Pin

    constructor (spi: Spi, indicator: Pin)
      ensures this.spi == spi && this.indicator == indicator
    {
      this.spi := spi;
      this.indicator := indicator;
    }

    ghost function State(): Hw
      reads spi, indicator
    {
      Snapshot(spi, indicator)
    }

    method Write(reg: Register, value: Byte) returns (r: Outcome<()>)
      modifies spi
      ensures Step(r, State()) == WriteSpec(old(State()), reg, value)
    {
      r := spi.Write([WriteHeader(reg), value]);
    }

    method WriteByte(b: Byte) returns (r: Outcome<()>)
      modifies spi, indicator
      ensures Step(r, State()) == WriteByteSpec(old(State()), b)
    {
      while true
        invariant WriteByteSpec(State(), b) == WriteByteSpec(old(State()), b)
        decreases |spi.sendReplies|
      {
        if spi.sendReplies == [] {
          return Stalled;
        }
        ghost var before := State();
        var p := spi.Send(b);
        match p
        case Ready(_) =>
          indicator.SetHigh();
          return Done(());
        case WouldBlock =>
          indicator.SetLow();
          assert State() == before.(sendReplies := before.sendReplies[1..], high := false);
        case Failed(e) =>
          return Fatal(e);
      }
    }

    method ReadByte() returns (r: Outcome<Byte>)
      modifies spi, indicator
      ensures Step(r, State()) == ReadByteSpec(old(State()))
    {
      while true
        invariant ReadByteSpec(State()) == ReadByteSpec(old(State()))
        decreases |spi.readReplies|
      {
        if spi.readReplies == [] {
          return Stalled;
        }
        ghost var before := State();
        var p := spi.Read();
        match p
        case Ready(v) =>
          indicator.SetHigh();
          return Done(v);
        case WouldBlock =>
          assert State() == before.(readReplies := before.readReplies[1..]);
        case Failed(e) =>
          return Fatal(e);
      }
    }

    method Read(reg: Register) returns (r: Outcome<Byte>)
      modifies spi, indicator
      ensures Step(r, State()) == ReadSpec(old(State()), reg)
    {
      var sent := WriteByte(Address(reg));
      if !sent.Done? {
        return Abort(sent);
      }
      // the byte shifted in while the address went out is discarded
      var echo := ReadByte();
      if !echo.Done? {
        return echo;
      }
      spi.timeline := spi.timeline + [Delay(CYCLES_160US)];
      sent := WriteByte(0);
      if !sent.Done? {
        return Abort(sent);
      }
      r := ReadByte();
    }

    /** The source's runs of `read` calls (the four deltas in `read_dx_dy`,
        the five drain reads in `power_up`), one register after the other. */
    method ReadEach(regs: seq<Register>) returns (r: Outcome<seq<Byte>>)
      modifies spi, indicator
      ensures Step(r, State()) == ReadEachSpec(old(State()), regs)
      decreases |regs|
    {
      if regs == [] {
        return Done([]);
      }
      var first := Read(regs[0]);
      if !first.Done? {
        return Abort(first);
      }
      var rest := ReadEach(regs[1..]);
      if !rest.Done? {
        return rest;
      }
      r := Done([first.value] + rest.value);
    }

    method ReadDxDy() returns (r: Outcome<Delta>)
      modifies spi, indicator
      ensures Step(r, State()) == ReadDxDySpec(old(State()))
    {
      var motion := Read(Motion);
      if !motion.Done? {
        return Abort(motion);
      }
      if !MotionPending(motion.value) {
        return Done(Delta(0, 0));
      }
      // DeltaXL, DeltaXH, DeltaYL, DeltaYH
      var v := ReadEach(DELTA_REGISTERS);
      if !v.Done? {
        return Abort(v);
      }
      var dx := ToSigned16(v.value[0], v.value[1]);
      var dy := ToSigned16(v.value[2], v.value[3]);
      r := Done(Delta(dx, dy));
    }

    method PowerUp() returns (r: Outcome<()>)
      modifies spi, indicator
      ensures Step(r, State()) == PowerUpSpec(old(State()))
    {
      r := Write(PowerUpReset, 0x5a);
      if !r.Done? {
        return;
      }
      spi.timeline := spi.timeline + [Delay(CYCLES_50MS)];
      // Motion, DeltaXL, DeltaXH, DeltaYL, DeltaYH; the values are discarded
      var drained := ReadEach(DRAINED_REGISTERS);
      if !drained.Done? {
        return Abort(drained);
      }
      // SROM download and register setup are not performed.
      r := Write(Motion, 0x00);
    }
  }
}
