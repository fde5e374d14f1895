# A verified model of a PMW3360 USB mouse firmware

This project models the logic of a small Rust firmware for an STM32F1 USB
mouse. The firmware has three parts, and so does the model:

- `pmw3360.dfy` (module `Pmw3360`) is the driver for the PMW3360 optical
  sensor on SPI1:
  - the register table;
  - the two-byte write frame `[0x80 | address, value]`;
  - the busy-polled `write_byte`/`read_byte` primitives and the indicator
    pin they drive;
  - the four-byte register read;
  - motion sampling (`read_dx_dy`);
  - the `power_up` sequence.
- `hid.dfy` (module `Hid`) is the HID class:
  - the report descriptor, the HID class descriptor and the payload written
    into the configuration descriptor;
  - the decision `control_in`/`control_out` make for every control request;
  - the interrupt IN endpoint write;
  - `get_configuration_descriptors`.
- `firmware.dfy` (module `Firmware`) covers the application:
  - one firing of the periodic `read_loop` task: it reschedules itself one
    `READ_PERIOD` after the firing time, samples the sensor, builds the
    3-byte boot-mouse report and writes it once;
  - the classification of the write result;
  - the start-up order (`power_up` first, then the first firing is scheduled).
- `common.dfy` (module `Common`) holds the byte and integer types.

Bytes are integers in 0..255. The source's `u16` and `i16` are integer ranges
too. Every wrap-around is written out: the `as u8` truncation of the deltas,
the two's-complement `as i16` and the 32-bit cycle counter.

The SPI bus is a class with three scripted reply queues:
- one for `send` (non-blocking, may answer WouldBlock);
- one for `read`;
- one for the HAL's blocking frame write.

It also keeps a ghost timeline of the bytes sent and received and of the
busy-wait delays between them. Each driver method is proved against a pure
specification function over a snapshot `Hw` of the bus and the indicator pin:
`ensures Step(r, State()) == ReadSpec(old(State()), reg)`. The wire-protocol
properties are lemmas about those functions.

The source panics on a bus error; the model returns `Fatal(error)`. An
exhausted reply queue stands for a bus that never answers again: the source
spins forever there, and the model returns `Stalled`.

`read_loop` is a method over the bus, the pin, the HID class and the task
queue. It is proved against `Firmware.FiringSpec`. The time of the firing and
the bus's answer to the endpoint write are parameters.

The report descriptor array in `src/hid.rs` is 50 bytes long, so its length
field is `[0x32, 0x00]`.

## Model

| member | source | states |
|---|---|---|
| Pmw3360.DelayConstants | src/pmw3360.rs:13-15 | The 50 ms settle delay is 400000 cycles and t_SRAD is 1280 cycles, both within u32. |
| Pmw3360.Address | src/pmw3360.rs:77-128 | Every register address is at most 0x65, so bit 7 is clear. No register has address 0x0e. |
| Pmw3360.AddressRoundTrip | src/pmw3360.rs:77-128 | The reverse lookup of a register's address gives back that register. |
| Pmw3360.AddressInjective | src/pmw3360.rs:77-128 | Distinct registers have distinct addresses. |
| Pmw3360.UnusedAddresses | src/pmw3360.rs:77-128 | Addresses 0x0e, 0x1d and 0x66 belong to no register. |
| Pmw3360.WriteHeader | src/pmw3360.rs:141 | The first byte of a write frame has bit 7 set. Its low 7 bits are the register's address and identify the register. |
| Pmw3360.SetBit7 | src/pmw3360.rs:141 | `0x80 \| a` is `a + 0x80` for any address with bit 7 clear. |
| Pmw3360.MotionPending | src/pmw3360.rs:196 | `motion & 0x80 != 0` holds exactly when the Motion byte is at least 0x80. |
| Pmw3360.ToSigned16 | src/pmw3360.rs:203-204 | The result lies in the i16 range and equals `hi*256 + lo` modulo 2^16. |
| Pmw3360.ToSigned16Examples | src/pmw3360.rs:203-204 | (0xff,0xff) gives -1, (0xff,0x7f) gives 32767, (0x00,0x80) gives -32768 and (0x05,0x00) gives 5. |
| Pmw3360.ToSigned16Injective | src/pmw3360.rs:203-204 | Distinct byte pairs give distinct deltas: no measurement is lost in the conversion. |
| Pmw3360.Abort | src/pmw3360.rs:181-190 | An unfinished step passes its panic, with the same error, or its stall on to the caller. |
| Pmw3360.SentBytes | src/pmw3360.rs:140-190 | There are no more bytes shifted out than events on the timeline. |
| Pmw3360.ReceivedBytes | src/pmw3360.rs:164-190 | There are no more bytes shifted in than events on the timeline. |
| Pmw3360.SentBytesFromTimeline | src/pmw3360.rs:140-190 | Every byte shifted out comes from a `Sent` event of the timeline. |
| Pmw3360.ReceivedBytesFromTimeline | src/pmw3360.rs:164-190 | Every byte shifted in comes from a `Received` event of the timeline. |
| Pmw3360.SentBytesAppend | src/pmw3360.rs:140-190 | The bytes sent over two stretches of the timeline are those of the first stretch followed by those of the second. |
| Pmw3360.ReceivedBytesAppend | src/pmw3360.rs:164-190 | The same holds for received bytes. |
| Pmw3360.ReadFrameBytes | src/pmw3360.rs:181-190 | A read frame sends `[address, 0]` and receives `[echo, value]`. |
| Pmw3360.WriteFrameBytes | src/pmw3360.rs:140-143 | A write frame sends `[0x80 \| address, value]` and receives nothing. |
| Pmw3360.ReadFramesBytes | src/pmw3360.rs:181-190 | A run of read frames sends each register's address followed by 0, and receives exactly the bytes it was given. |
| Pmw3360.WriteByteSpec | src/pmw3360.rs:145-162 | `write_byte` does not touch the read or frame queues. The timeline gains `Sent(b)` exactly when it succeeds, and on success the indicator is high. |
| Pmw3360.ReadByteSpec | src/pmw3360.rs:164-179 | `read_byte` does not touch the send or frame queues. The timeline gains `Received(v)` exactly when it returns v. On success the indicator is high, and it never drives the indicator low. |
| Pmw3360.WriteFrameSpec | src/pmw3360.rs:142 | The blocking write followed by `unwrap` leaves the polled queues and the pin alone. It appends the frame's bytes only when it succeeds. |
| Pmw3360.SentEach | src/pmw3360.rs:142 | The events of a blocking frame write carry exactly the frame's bytes, and every one of them is a `Sent` event. |
| Pmw3360.WriteSpec | src/pmw3360.rs:140-143 | A successful `write` appends exactly the write frame. A failed one appends nothing. |
| Pmw3360.ReadSpec | src/pmw3360.rs:181-190 | A successful `read` appends exactly one read frame: address, echo, delay, dummy 0, value. It returns the second received byte. |
| Pmw3360.ReadEachSpec | src/pmw3360.rs:197-200 | A successful run of reads returns one value per register. The timeline only grows. |
| Pmw3360.ReadDxDySpec | src/pmw3360.rs:192-210 | Sampling only extends the timeline. |
| Pmw3360.PowerUpSpec | src/pmw3360.rs:212-225 | Power-up only extends the timeline. |
| Pmw3360.Spin | src/pmw3360.rs:146-161 | This is the number of WouldBlock answers before the first other answer. |
| Pmw3360.WriteByteFirstAnswer | src/pmw3360.rs:145-162 | `write_byte` retries only on WouldBlock and consumes the answers up to the first other one. On Ok it returns with the indicator high. On an error it panics with that error, and the indicator is low if any WouldBlock came first. With no other answer it stalls. |
| Pmw3360.ReadByteFirstAnswer | src/pmw3360.rs:164-179 | `read_byte` retries only on WouldBlock and returns the first Ok value with the indicator high. It panics on any other error and leaves the pin unchanged on its retries. |
| Pmw3360.WriteFraming | src/pmw3360.rs:140-143 | On success the timeline grows by exactly the write frame, and it is unchanged otherwise. |
| Pmw3360.ReadFraming | src/pmw3360.rs:181-190 | On success the timeline grows by a read frame of the register with some echo, carrying the returned value. |
| Pmw3360.ReadOnReadyBus | src/pmw3360.rs:181-190 | On a bus whose next two sends and reads succeed, `read` consumes exactly those four answers. It returns the second byte read and leaves the indicator high. |
| Pmw3360.ReadIndicatorHigh | src/pmw3360.rs:181-190 | After a successful read the indicator is high. |
| Pmw3360.Values | src/pmw3360.rs:184-189 | There is one value for each pair of received bytes. |
| Pmw3360.ValuesAreSecondBytes | src/pmw3360.rs:184-189 | Value i is the second byte of the i-th received pair: the echo is discarded and the byte clocked by the dummy 0 is kept. |
| Pmw3360.ReadEachFraming | src/pmw3360.rs:197-200 | A successful run of reads receives two bytes per register and lays down one read frame per register, in order. It returns the second byte of each frame. |
| Pmw3360.ReadDxDyFraming | src/pmw3360.rs:192-210 | Motion bit 7 clear: only the Motion register is read and (0, 0) is returned. Bit 7 set: Motion, DeltaXL, DeltaXH, DeltaYL and DeltaYH are read in that order, and dx and dy are rebuilt from (DeltaXL, DeltaXH) and (DeltaYL, DeltaYH). |
| Pmw3360.ReadDxDyMotionClear | src/pmw3360.rs:207-209 | With Motion bit 7 clear the timeline holds one read frame of Motion and the sample is (0, 0). |
| Pmw3360.ReadDxDyMotionSet | src/pmw3360.rs:196-206 | With Motion bit 7 set the timeline holds five read frames, Motion then the four deltas. The sample is rebuilt from the received bytes. |
| Pmw3360.NoMotionReadsOnlyMotion | src/pmw3360.rs:194-196 | With Motion bit 7 clear, sampling is exactly one read of Motion returning (0, 0). |
| Pmw3360.PowerUpFraming | src/pmw3360.rs:212-225 | Power-up lays down: the reset write of 0x5a, a 50 ms delay, reads of Motion and the four deltas, and the write of 0 to Motion. Nothing else is laid down. |
| Pmw3360.PowerUpSentBytes | src/pmw3360.rs:212-225 | A successful power-up shifts out exactly `ba 5a 02 00 03 00 04 00 05 00 06 00 82 00`. |
| Pmw3360.PowerUpCommandBytes | src/pmw3360.rs:213-224 | The commands of the power-up sequence are those 14 bytes. |
| Pmw3360.HeaderBytes | src/pmw3360.rs:213 | The write headers of PowerUpReset and Motion are 0xba and 0x82. |
| Pmw3360.DrainedCommands | src/pmw3360.rs:215-219 | The drain reads send 02 00 03 00 04 00 05 00 06 00. |
| Pmw3360.Spi.Send | src/pmw3360.rs:147 | One `send` attempt takes the next answer. Only an Ok puts the byte on the wire. |
| Pmw3360.Spi.Read | src/pmw3360.rs:166 | One `read` attempt takes the next answer. Only an Ok takes a byte off the wire. |
| Pmw3360.Spi.Write | src/pmw3360.rs:142 | The blocking frame write with `unwrap` behaves as `WriteFrameSpec`. |
| Pmw3360.Pin.SetHigh | src/pmw3360.rs:149 | Drives the indicator high. |
| Pmw3360.Pin.SetLow | src/pmw3360.rs:153 | Drives the indicator low. |
| Pmw3360.Pmw3360.constructor | src/pmw3360.rs:133-138 | The driver borrows the given bus and indicator pin. |
| Pmw3360.Pmw3360.Write | src/pmw3360.rs:140-143 | `write` behaves as `WriteSpec`. |
| Pmw3360.Pmw3360.WriteByte | src/pmw3360.rs:145-162 | The polling loop behaves as `WriteByteSpec`. |
| Pmw3360.Pmw3360.ReadByte | src/pmw3360.rs:164-179 | The polling loop behaves as `ReadByteSpec`. |
| Pmw3360.Pmw3360.Read | src/pmw3360.rs:181-190 | `read` behaves as `ReadSpec`. |
| Pmw3360.Pmw3360.ReadEach | src/pmw3360.rs:197-200 | A run of `read` calls behaves as `ReadEachSpec`. |
| Pmw3360.Pmw3360.ReadDxDy | src/pmw3360.rs:192-210 | `read_dx_dy` behaves as `ReadDxDySpec`. |
| Pmw3360.Pmw3360.PowerUp | src/pmw3360.rs:212-225 | `power_up` behaves as `PowerUpSpec`. |
| Hid.LengthField | src/hid.rs:96-97 | `(len as u8, (len >> 8) as u8)` are two bytes with `lo + 256*hi == len`. |
| Hid.LengthFieldInjective | src/hid.rs:96-97 | The length field determines the length. |
| Hid.ReportDescriptorLength | src/hid.rs:29-56 | The report descriptor is 50 bytes and its length field is `[0x32, 0x00]`. |
| Hid.ClassDescriptorPayload | src/hid.rs:88-98 | The payload is 7 bytes. bNumDescriptors is 1, the subordinate type is 0x22, and the length bytes give the report descriptor's length. |
| Hid.ClassDescriptor | src/hid.rs:118-128 | The HID descriptor is 9 bytes and its first byte is its own length. It is `[0x09, 0x21]` followed by exactly the configuration payload. |
| Hid.DescriptorType | src/hid.rs:112 | The descriptor type is the high byte of wValue. |
| Hid.ClassIn | src/hid.rs:144-160 | A class request is accepted exactly when it is in scope (Class, Interface, this interface) and is GET_REPORT, and then with 8 zero bytes. It is rejected exactly when it is in scope with any other code. |
| Hid.ControlIn | src/hid.rs:106-161 | Accept holds exactly for a Standard GET_DESCRIPTOR to an Interface of type 0x21 or 0x22, or for an in-scope GET_REPORT. Reject holds exactly for an in-scope request with any other code. Accepted data is the HID descriptor, the report descriptor or 8 zero bytes. |
| Hid.ControlOut | src/hid.rs:163-174 | `control_out` never accepts. It rejects exactly the in-scope class requests. |
| Hid.StandardDescriptors | src/hid.rs:109-136 | GET_DESCRIPTOR(0x21) answers with the HID descriptor and GET_DESCRIPTOR(0x22) with the report descriptor, verbatim. Neither the interface index nor the descriptor index changes the answer. |
| Hid.OtherStandardIgnored | src/hid.rs:137-149 | Every other Standard request, including GET_DESCRIPTOR of another type, is neither accepted nor rejected. |
| Hid.ClassRequestsIn | src/hid.rs:151-160 | In scope, GET_REPORT gets 8 zero bytes. GET_IDLE, GET_PROTOCOL and every other code are rejected. |
| Hid.ClassRequestsOut | src/hid.rs:166-173 | In scope, every host-to-device class request is rejected, SET_REPORT, SET_IDLE and SET_PROTOCOL included. |
| Hid.OutOfScopeIgnored | src/hid.rs:144-149 | A non-standard request that is not Class, not to an Interface, or not to this interface is ignored by both handlers. |
| Hid.LengthNotConsulted | src/hid.rs:106-174 | Neither handler looks at wLength. |
| Hid.EndpointWrite | src/hid.rs:73-75 | A packet longer than the endpoint is refused with BufferOverflow. Otherwise the write succeeds exactly when the bus queues it, returning the packet length; a busy bus gives WouldBlock and a failing bus its error. |
| Hid.HidClass.Write | src/hid.rs:73-75 | `write` returns `EndpointWrite` for the 8-byte endpoint. The endpoint takes the packet exactly when the write succeeds. |
| Hid.HidClass.constructor | src/hid.rs:66-71 | The class keeps the interface and endpoint it was allocated. It has sent nothing yet. |
| Hid.Size | src/hid.rs:79-104 | Every descriptor takes at least its two header bytes. |
| Hid.TotalSize | src/hid.rs:79-104 | A non-empty list of descriptors takes at least two bytes. |
| Hid.TotalSizeAppend | src/hid.rs:79-104 | Sizes add up over concatenation. |
| Hid.PrefixSizeBound | src/hid.rs:79-104 | A prefix takes no more bytes than the whole list. |
| Hid.Fitting | src/hid.rs:79-104 | This is the longest prefix that fits the free room: it fits, and one more entry would not. |
| Hid.ConfigEntries | src/hid.rs:80-101 | The class writes three entries, which take 25 bytes in all. |
| Hid.FittingThree | src/hid.rs:80-101 | How many of the three entries fit, in terms of their sizes. |
| Hid.ConfigFits | src/hid.rs:79-104 | With 25 bytes free all three entries fit. |
| Hid.DescriptorWriter.Put | src/hid.rs:85 | An entry that fits is appended and its size counted. One that does not fit fails with BufferOverflow and changes nothing. |
| Hid.HidClass.GetConfigurationDescriptors | src/hid.rs:79-104 | Entries are written in order up to the first that does not fit (`?`). The result is Ok exactly when all three fit, and BufferOverflow otherwise. |
| Firmware.Deadline | src/main.rs:137-139 | The next firing is exactly READ_PERIOD cycles after `now` on the wrapping 32-bit counter, and is `now + 8000` when that does not wrap. |
| Firmware.Elapsed | src/main.rs:137-139 | The forward distance on the wrapping counter is below 2^32, and is `b - a` when `a <= b`. |
| Firmware.DeadlineInjective | src/main.rs:137-139 | Two firings at different instants never ask for the same deadline. |
| Firmware.DeadlineWraps | src/main.rs:34-35 | A firing at 0xffffffff asks for 7999: the addition wraps. |
| Firmware.Report | src/main.rs:149-152 | The report is 3 bytes with buttons 0. Bytes 1 and 2 agree with dx and dy modulo 256 (`as u8`). |
| Firmware.AsSigned8 | src/hid.rs:49-53 | The host's signed 8-bit reading of a byte lies in -128..127 and agrees with the byte modulo 256. |
| Firmware.ReportRoundTrip | src/main.rs:149-152 | Deltas within the descriptor's logical range -127..127 reach the host unchanged. |
| Firmware.ReportWraps | src/main.rs:151 | Deltas outside that range wrap: 200 reads as -56 and -129 as 127. A delta of -1 or 0x7fff is sent as 0xff. |
| Firmware.SampleReport | src/main.rs:146-152 | The report of a sample carries the sample's own dx and dy whenever they are within -127..127. |
| Firmware.AsWrittenReport | src/main.rs:146-152 | As written, the report is `[0, 1, dy % 256]`. |
| Firmware.AsWrittenReportIgnoresDx | src/main.rs:146-147 | As written, two samples with the same dy give the same report, whatever their dx. |
| Firmware.AsWrittenReportLosesDx | src/main.rs:147 | The sample (5, 2) is reported as `[0, 1, 2]` instead of `[0, 5, 2]`. |
| Firmware.Classify | src/main.rs:154-159 | Ok and WouldBlock end the firing normally, so a busy bus drops the report. BufferOverflow panics as overflow, and every other error panics as undocumented, carrying that error. |
| Firmware.AfterSample | src/main.rs:146-159 | After sampling, the firing leaves the bus as the sample left it. |
| Firmware.FiringSpec | src/main.rs:136-160 | A firing leaves the bus as sampling left it, so the timeline only grows. A packet is sent only when the bus queued it and the firing completes. Any packet sent is 3 bytes, with buttons 0 and X byte 1. |
| Firmware.OverflowOnlyFromBus | src/main.rs:154-156 | The 3-byte report always passes the endpoint's 8-byte check. The BufferOverflow panic happens only if the bus itself reports an overflow. |
| Firmware.FiringOutcomes | src/main.rs:146-159 | The firing completes exactly when the sample succeeds and the write is queued or would block. It hangs exactly when the sensor stops answering. It panics with the sensor's error exactly when the sample fails, and as undocumented exactly when the bus fails with another error. |
| Firmware.FiringPacket | src/main.rs:149-154 | The endpoint takes a packet exactly when the sample succeeded and the bus queued it. The packet is `[0, 1, dy % 256]`. |
| Firmware.TaskQueue.Schedule | src/main.rs:137-139 | A schedule request is appended to the timer queue. |
| Firmware.ReadLoop | src/main.rs:136-160 | One firing first schedules the next at `Deadline(now)`, whatever follows. It then ends as `FiringSpec`, leaving the bus and the endpoint as `FiringSpec` says. |
| Firmware.Boot | src/main.rs:100-125 | `power_up` runs first and behaves as `PowerUpSpec`. The first firing is scheduled at `Deadline(start)` only after it succeeds. |

## Left out

- The HAL's blocking `spi.write(&data)` is a bus primitive with its own reply queue. Its byte-level polling is HAL code.
- The delay and period constants are cycle counts computed for an 8 MHz clock (`src/pmw3360.rs:13-15`, `src/main.rs:34-35`), while `init` configures a 48 MHz system clock (`src/main.rs:73`). The model records cycle counts only and does not convert them to time, so it does not capture that at 48 MHz `CYCLES_160US` lasts about 27 µs and `READ_PERIOD` about 167 µs.
- `Stalled`: the source spins forever on a bus that never answers. The model stops and returns `Stalled` when a reply queue runs out.
- Busy-wait delays (`cortex_m::asm::delay`) appear only as `Delay(cycles)` events on the ghost timeline. Semihosting `hprintln` is left out.
- `src/reset.rs` (arm the watchdog, then loop forever) is not part of this model.
- Hardware bring-up in `init`: clocks, GPIO modes, the SPI mode and speed, the USB pull-up toggling, the bus allocator and the device builder. These are all foreign HAL calls.
- RTIC scheduling, dispatch and priority-ceiling locking (`hid.lock`), and the `usb_rx`/`usb_tx` tasks, are not modelled. `hid.lock(|h| h.write(..))` is a plain call.
- `usb_poll` and `usb_dev.poll` are not modelled: the usb-device state machine is library code.
- The result of `schedule.read_loop` is discarded by the source. The model's timer queue always takes the request and does not model a full queue.
- `Instant::now()` is the parameter `now`. The bus's answer to the endpoint packet is the parameter `answer`.
- `accept_with`/`reject` are modelled as the decision Accept/Reject/Ignore. The library's truncation of the data to wLength is not modelled. Nor are handshake errors, which the source swallows with `.ok()`.
- `DescriptorWriter::interface`, `write` and `endpoint` are modelled only by the size each entry takes and the BufferOverflow they return when it does not fit. The bytes the library lays out are not modelled.
- `HIDClass::new`: the allocation of the interface number and endpoint address is not modelled. The constructor takes both as parameters.
- The HID report descriptor is modelled as its 50 bytes, not as parsed items. The item-level meaning (three buttons, 5 bits padding, signed relative 8-bit X and Y) informs `Firmware.AsSigned8` but is not derived from the bytes.
- `Pmw3360.Pmw3360.ReadEach`: the source writes out each `read` call of `read_dx_dy` and `power_up`. The model runs through the same registers in the same order with a recursive method.
- `Pmw3360.Pmw3360.PowerUp`: the values of the drain reads are discarded, as in the source. SROM download and register setup are not performed, as in the source.

## Findings

| source | as written | input that shows it | evidently intended | confidence | as-written member | corrected member |
|---|---|---|---|---|---|---|
| src/main.rs:147 | `let dx = 1;` shadows the measured dx before the report is built, so the X byte is always 1 | a sample of dx = 5, dy = 2 is reported as `[0, 1, 2]` | the report carries the measured dx: `[0, 5, 2]` | not executed | Firmware.AsWrittenReportLosesDx | Firmware.SampleReport |

`Firmware.ReadLoop` follows the source as written. It sends `AsWrittenReport`,
and `Firmware.AsWrittenReportIgnoresDx` shows that the measured horizontal
movement never reaches the host. The corrected report `Firmware.SampleReport`
sends the sample's own deltas. `Firmware.ReportRoundTrip` proves that
`SampleReport` delivers every sample within the descriptor's range unchanged.
