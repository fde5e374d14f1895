/**
 * The firmware's application tasks (src/main.rs): the start-up sequence and
 * one firing of the periodic `read_loop` task, which reschedules itself,
 * samples the sensor and hands a 3-byte boot-mouse report to the HID
 * endpoint.  Each firing is proved against `FiringSpec`, a pure function of
 * the hardware before it and the bus's answer to the endpoint write.
 */
module Firmware {
  import opened Common
  import P = Pmw3360
  import H = Hid

  // ---------------------------------------------------------------------------
  // Time
  // ---------------------------------------------------------------------------

  const CLOCK: nat := 8
  /** 8000 cycles: one millisecond at the constants' 8 MHz. */
  const READ_PERIOD: nat := CLOCK * 1000

  /** A reading of the 32-bit cycle counter that drives the task schedule. */
  type Instant = x: int | 0 <= x < 0x1_0000_0000

  /** The cycles from `a` forward to `b` on the wrapping counter. */
  function Elapsed(a: Instant, b: Instant): (n: nat)
    ensures n < 0x1_0000_0000
    ensures a <= b ==> n == b - a
  {
    (b - a) % 0x1_0000_0000
  }

  /** `now + READ_PERIOD.cycles()`: the counter wraps. */
  function Deadline(now: Instant): (t: Instant)
    ensures Elapsed(now, t) == READ_PERIOD
    ensures now + READ_PERIOD < 0x1_0000_0000 ==> t == now + READ_PERIOD
  {
    (now + READ_PERIOD) % 0x1_0000_0000
  }

  /** Two firings at different instants never ask for the same deadline. */
  lemma DeadlineInjective(a: Instant, b: Instant)
    requires Deadline(a) == Deadline(b)
    ensures a == b
  {
    assert Elapsed(a, Deadline(a)) == Elapsed(b, Deadline(b));
  }

  /** At the top of the counter the deadline wraps round to the bottom. */
  lemma DeadlineWraps()
    ensures Deadline(0xffff_ffff) == READ_PERIOD - 1
  {
  }

  // ---------------------------------------------------------------------------
  // The report
  // ---------------------------------------------------------------------------

  /** The three-byte report: buttons, then `dx as u8` and `dy as u8`, which
      keep the low eight bits of each delta. */
  function Report(dx: I16, dy: I16): (r: seq<Byte>)
    ensures |r| == 3 && r[0] == 0
    ensures (r[1] - dx) % 256 == 0 && (r[2] - dy) % 256 == 0
  {
    [0, dx % 256, dy % 256]
  }

  /** How the host reads an X or Y byte: as a two's-complement 8-bit value, the
      report descriptor's signed relative field. */
  function AsSigned8(b: Byte): (v: int)
    ensures -128 <= v < 128
    ensures (v - b) % 256 == 0
  {
    if b < 128 then b else b - 256
  }

  /** Deltas within the descriptor's logical range -127..127 reach the host
      unchanged. */
  lemma ReportRoundTrip(dx: I16, dy: I16)
    requires -127 <= dx <= 127 && -127 <= dy <= 127
    ensures AsSigned8(Report(dx, dy)[1]) == dx && AsSigned8(Report(dx, dy)[2]) == dy
  {
  }

  /** Larger deltas wrap: the host sees the remainder of the delta modulo 256
      recentred on zero, so a fast move to the right can read as one to the
      left. */
  lemma ReportWraps()
    ensures AsSigned8(Report(200, 0)[1]) == -56
    ensures AsSigned8(Report(0, -129)[2]) == 127
    ensures Report(-1, 0x7fff)[1..] == [0xff, 0xff]
  {
  }

  /** The report of a measured sample: the sample's own deltas. */
  function SampleReport(d: P.Delta): (r: seq<Byte>)
    ensures |r| == 3 && r[0] == 0
    ensures -127 <= d.dx <= 127 && -127 <= d.dy <= 127 ==> AsSigned8(r[1]) == d.dx && AsSigned8(r[2]) == d.dy
  {
    Report(d.dx, d.dy)
  }

  /** The report `read_loop` builds as written: `let dx = 1;` shadows the
      measured dx before the buffer is filled, so the X byte is always 1. */
  function AsWrittenReport(d: P.Delta): (r: seq<Byte>)
    ensures r == [0, 1, d.dy % 256]
  {
    Report(1, d.dy)
  }

  /** As written, the measured horizontal movement never reaches the host:
      two samples with the same dy give the same report. */
  lemma AsWrittenReportIgnoresDx(d1: P.Delta, d2: P.Delta)
    requires d1.dy == d2.dy
    ensures AsWrittenReport(d1) == AsWrittenReport(d2)
  {
  }

  /** A sample of 5 to the right and 2 down: the report as written says 1 to
      the right, the sample's own report says 5. */
  lemma AsWrittenReportLosesDx()
    ensures AsWrittenReport(P.Delta(5, 2)) == [0, 1, 2]
    ensures SampleReport(P.Delta(5, 2)) == [0, 5, 2]
    ensures AsWrittenReport(P.Delta(5, 2)) != SampleReport(P.Delta(5, 2))
  {
  }

  // ---------------------------------------------------------------------------
  // One firing
  // ---------------------------------------------------------------------------

  /** Why a firing panics. */
  datatype Cause = SensorFault(spiError: P.SpiError) | Overflow | Undocumented(usbError: H.UsbError)

  /** How a firing ends: normally, in a panic, or never (the sensor stopped
      answering and the driver spins). */
  datatype Firing = Completed | Panicked(cause: Cause) | Hung

  /** The `match` on the endpoint write: Ok and WouldBlock end the firing (a
      report the bus is too busy for is dropped, not retried); BufferOverflow
      and every other error panic. */
  function Classify(w: H.Result<nat>): (f: Firing)
    ensures !f.Hung?
    ensures f.Completed? <==> w.Ok? || w.error == H.WouldBlock
    ensures f == Panicked(Overflow) <==> w == H.Err(H.BufferOverflow)
    ensures f.Panicked? && f.cause.Undocumented? ==> w == H.Err(f.cause.usbError)
    ensures w.Err? && w.error != H.WouldBlock && w.error != H.BufferOverflow ==> f == Panicked(Undocumented(w.error))
  {
    if w.Ok? then Completed
    else if w.error == H.WouldBlock then Completed
    else if w.error == H.BufferOverflow then Panicked(Overflow)
    else Panicked(Undocumented(w.error))
  }

  /** The end of a firing, the hardware afterwards and the packet the
      endpoint took, if any. */
  datatype FiringStep = FiringStep(firing: Firing, hw: P.Hw, packet: Option<seq<Byte>>)

  /** What a firing does once the sensor has been sampled. */
  function AfterSample(m: P.Step<P.Delta>, answer: H.EndpointAnswer): (s: FiringStep)
    ensures s.hw == m.hw
  {
    match m.out
    case Fatal(e) => FiringStep(Panicked(SensorFault(e)), m.hw, None)
    case Stalled => FiringStep(Hung, m.hw, None)
    case Done(d) =>
      var report := AsWrittenReport(d);
      var w := H.EndpointWrite(8, report, answer);
      FiringStep(Classify(w), m.hw, if w.Ok? then Some(report) else None)
  }

  /** One firing of `read_loop` from hardware state `h`. */
  function FiringSpec(h: P.Hw, answer: H.EndpointAnswer): (s: FiringStep)
    ensures s.hw == P.ReadDxDySpec(h).hw && h.timeline <= s.hw.timeline
    ensures s.packet.Some? ==> |s.packet.value| == 3 && s.packet.value[0] == 0 && s.packet.value[1] == 1
    ensures s.packet.Some? ==> answer.Queued? && s.firing.Completed?
  {
    AfterSample(P.ReadDxDySpec(h), answer)
  }

  /** The report always fits the 8-byte endpoint, so the BufferOverflow panic
      happens only when the bus itself reports an overflow. */
  lemma OverflowOnlyFromBus(m: P.Step<P.Delta>, answer: H.EndpointAnswer)
    ensures AfterSample(m, answer).firing == Panicked(Overflow) <==>
      m.out.Done? && answer == H.Failed(H.BufferOverflow)
  {
    if m.out.Done? {
      assert |AsWrittenReport(m.out.value)| <= 8;
    }
  }

  /** How a firing ends, in terms of the sample and the bus's answer. */
  lemma FiringOutcomes(m: P.Step<P.Delta>, answer: H.EndpointAnswer)
    ensures var f := AfterSample(m, answer).firing;
      (f.Completed? <==> m.out.Done? && (!answer.Failed? || answer.error == H.WouldBlock)) &&
      (f.Hung? <==> m.out.Stalled?) &&
      (f.Panicked? && f.cause.SensorFault? <==> m.out.Fatal?) &&
      (m.out.Fatal? ==> f.cause.spiError == m.out.error) &&
      (f.Panicked? && f.cause.Undocumented? <==> m.out.Done? && answer.Failed? && answer.error !in {H.WouldBlock, H.BufferOverflow})
  {
    if m.out.Done? {
      assert |AsWrittenReport(m.out.value)| <= 8;
    }
  }

  /** The endpoint takes a packet exactly when the sample succeeded and the
      bus queued it, and the packet is the report with X fixed at 1. */
  lemma FiringPacket(m: P.Step<P.Delta>, answer: H.EndpointAnswer)
    ensures var s := AfterSample(m, answer);
      (s.packet.Some? <==> m.out.Done? && answer.Queued?) &&
      (s.packet.Some? ==> s.packet.value == [0, 1, m.out.value.dy % 256])
  {
    if m.out.Done? {
      assert |AsWrittenReport(m.out.value)| <= 8;
    }
  }

  // ---------------------------------------------------------------------------
  // The tasks
  // ---------------------------------------------------------------------------

  /** The RTIC timer queue of `read_loop` firings, earliest request first. */
  class TaskQueue {
    var scheduled: seq<Instant>

    constructor ()
      ensures scheduled == []
    {
      scheduled := [];
    }

    /** `schedule.read_loop(at)`; its result is discarded. */
    method Schedule(at: Instant)
      modifies this
      ensures scheduled == old(scheduled) + [at]
    {
      scheduled := scheduled + [at];
    }
  }

  /** `read_loop`: reschedule from the firing time before anything else,
      sample the sensor, build the report and write it once.  `now` is the
      value of `Instant::now()` and `answer` what the bus does with the
      packet. */
  method ReadLoop(now: Instant, queue: TaskQueue, spi: P.Spi, indicator: P.Pin, hid: H.HidClass,
                  answer: H.EndpointAnswer) returns (f: Firing)
    modifies queue, spi, indicator, hid
    ensures queue.scheduled == old(queue.scheduled) + [Deadline(now)]
    ensures var s := FiringSpec(old(P.Snapshot(spi, indicator)), answer);
      f == s.firing && P.Snapshot(spi, indicator) == s.hw &&
      hid.sent == old(hid.sent) + (if s.packet.Some? then [s.packet.value] else [])
  {
    queue.Schedule(Deadline(now));
    var pmw := new P.Pmw3360(spi, indicator);
    ghost var h := pmw.State();
    var m := pmw.ReadDxDy();
    ghost var step := P.Step(m, pmw.State());
    assert step == P.ReadDxDySpec(h);
    match m
    case Fatal(e) =>
      f := Panicked(SensorFault(e));
    case Stalled =>
      f := Hung;
    case Done(d) =>
      var dx: I16 := 1;
      var report := Report(dx, d.dy);
      var w := hid.Write(report, answer);
      f := Classify(w);
  }

  /** The end of `init` as far as the sensor is concerned: `power_up` runs on
      the freshly configured bus (a bus error there panics), and only then is
      the first firing scheduled, one period after the start instant. */
  method Boot(start: Instant, queue: TaskQueue, spi: P.Spi, indicator: P.Pin) returns (r: P.Outcome<()>)
    modifies queue, spi, indicator
    ensures var s := P.PowerUpSpec(old(P.Snapshot(spi, indicator)));
      r == s.out && P.Snapshot(spi, indicator) == s.hw
    ensures queue.scheduled == old(queue.scheduled) + (if r.Done? then [Deadline(start)] else [])
  {
    var pmw := new P.Pmw3360(spi, indicator);
    r := pmw.PowerUp();
    if r.Done? {
      queue.Schedule(Deadline(start));
    }
  }
}
