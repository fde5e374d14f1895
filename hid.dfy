/**
 * The HID class of the mouse: its descriptors, its answers to control
 * requests on endpoint 0 and its interrupt IN endpoint.
 *
 * Descriptor layouts and class request codes follow the USB Device Class
 * Definition for HID 1.11 (HID descriptor: section 6.2.1; report descriptor
 * items: section 6.2.2; class requests: section 7.2; boot subclass and mouse
 * protocol: sections 4.2 and 4.3).  The standard GET_DESCRIPTOR request is
 * section 9.4.3 of USB 2.0.  The usb-device library around the class (the
 * control pipe, the descriptor writer, the endpoint) is represented only by
 * the results it hands back.
 */
module Hid {
  import opened Common

  // ---------------------------------------------------------------------------
  // Codes
  // ---------------------------------------------------------------------------

  const USB_CLASS_HID: Byte := 0x03
  const USB_SUBCLASS_NONE: Byte := 0x00
  const USB_SUBCLASS_BOOT: Byte := 0x01
  const USB_INTERFACE_NONE: Byte := 0x00
  const USB_INTERFACE_MOUSE: Byte := 0x02

  // class requests (HID 1.11 section 7.2)
  const REQ_GET_REPORT: Byte := 0x01
  const REQ_GET_IDLE: Byte := 0x02
  const REQ_GET_PROTOCOL: Byte := 0x03
  const REQ_SET_REPORT: Byte := 0x09
  const REQ_SET_IDLE: Byte := 0x0a
  const REQ_SET_PROTOCOL: Byte := 0x0b

  /** The standard GET_DESCRIPTOR request code (USB 2.0 table 9-4). */
  const GET_DESCRIPTOR: Byte := 0x06

  /** Descriptor types of the HID class (HID 1.11 section 7.1). */
  const HID_DESCRIPTOR_TYPE: Byte := 0x21
  const REPORT_DESCRIPTOR_TYPE: Byte := 0x22

  /** The report descriptor: a three-button mouse with 8-bit relative X and Y. */
  const REPORT_DESCR: seq<Byte> := [
    0x05, 0x01, 0x09, 0x02, 0xa1, 0x01, 0x09, 0x01, 0xa1, 0x00,
    0x05, 0x09, 0x19, 0x01, 0x29, 0x03, 0x15, 0x00, 0x25, 0x01,
    0x95, 0x03, 0x75, 0x01, 0x81, 0x02, 0x95, 0x01, 0x75, 0x05,
    0x81, 0x03, 0x05, 0x01, 0x09, 0x30, 0x09, 0x31, 0x15, 0x81,
    0x25, 0x7f, 0x75, 0x08, 0x95, 0x02, 0x81, 0x06, 0xc0, 0xc0]

  // ---------------------------------------------------------------------------
  // Descriptor bytes
  // ---------------------------------------------------------------------------

  /** A 16-bit length as the two bytes `len as u8` and `(len >> 8) as u8`
      (little-endian, as every multi-byte USB field). */
  function LengthField(len: U16): (b: seq<Byte>)
    ensures |b| == 2 && b[0] as int + 256 * b[1] as int == len
  {
    [len % 256, len / 256]
  }

  /** Two lengths with the same length field are the same length. */
  lemma LengthFieldInjective(a: U16, b: U16)
    requires LengthField(a) == LengthField(b)
    ensures a == b
  {
    assert LengthField(a)[0] as int + 256 * LengthField(a)[1] as int == a;
  }

  lemma ReportDescriptorLength()
    ensures |REPORT_DESCR| == 50
    ensures LengthField(|REPORT_DESCR|) == [0x32, 0x00]
  {
  }

  /** The body written under type 0x21 into the configuration descriptor:
      bcdHID 1.01, country code 0, one class descriptor, of type report, with
      the report descriptor's length. */
  function ClassDescriptorPayload(): (p: seq<Byte>)
    ensures |p| == 7
    ensures p[3] == 1 && p[4] == REPORT_DESCRIPTOR_TYPE && p[5] as int + 256 * p[6] as int == |REPORT_DESCR|
  {
    [0x01, 0x01, 0x00, 0x01, 0x22] + LengthField(|REPORT_DESCR|)
  }

  /** The HID descriptor `control_in` answers with, written out in full
      (bLength, bDescriptorType, then the same fields). */
  function ClassDescriptor(): (d: seq<Byte>)
    ensures |d| == 9 && d[0] == |d| && d[1] == HID_DESCRIPTOR_TYPE
    ensures d[2..] == ClassDescriptorPayload()
  {
    [0x09, 0x21, 0x01, 0x01, 0x00, 0x01, 0x22] + LengthField(|REPORT_DESCR|)
  }

  // ---------------------------------------------------------------------------
  // Control requests
  // ---------------------------------------------------------------------------

  datatype RequestType = Standard | Class | Vendor | ReservedType
  datatype Recipient = Device | Interface | Endpoint | Other | ReservedRecipient

  /** A SETUP packet, decoded. */
  datatype Request = Request(requestType: RequestType, recipient: Recipient, request: Byte,
                             value: U16, index: U16, length: U16)

  /** What a control handler does with a transfer: accept it with data,
      reject it (STALL), or leave it to the other handlers. */
  datatype Response = Accept(data: seq<Byte>) | Reject | Ignore

  /** The descriptor type in the high byte of wValue (and the index in the
      low byte, which this class never looks at). */
  function DescriptorType(req: Request): (t: Byte)
    ensures t * 256 <= req.value < (t + 1) * 256
  {
    req.value / 256
  }

  /** A class request addressed to this class's interface. */
  predicate InClassScope(reportIf: Byte, req: Request)
  {
    req.requestType == Class && req.recipient == Interface && req.index == reportIf
  }

  predicate IsInterfaceGetDescriptor(req: Request)
  {
    req.requestType == Standard && req.recipient == Interface && req.request == GET_DESCRIPTOR
  }

  /** The 8 zero bytes sent as the answer to GET_REPORT. */
  const EMPTY_REPORT: seq<Byte> := [0, 0, 0, 0, 0, 0, 0, 0]

  /** The class-request half of `control_in`. */
  function ClassIn(reportIf: Byte, req: Request): (r: Response)
    ensures r.Accept? <==> InClassScope(reportIf, req) && req.request == REQ_GET_REPORT
    ensures r.Reject? <==> InClassScope(reportIf, req) && req.request != REQ_GET_REPORT
    ensures r.Accept? ==> r.data == EMPTY_REPORT
  {
    if !InClassScope(reportIf, req) then Ignore
    else if req.request == REQ_GET_REPORT then Accept(EMPTY_REPORT)
    else Reject
  }

  /** `control_in`.  A standard request is answered only when it is an
      interface GET_DESCRIPTOR for the HID or the report descriptor; an
      interface GET_DESCRIPTOR for another type falls through to the class
      check (and is then ignored, not being a class request). */
  function ControlIn(reportIf: Byte, req: Request): (r: Response)
    ensures r.Accept? <==>
      (IsInterfaceGetDescriptor(req) && DescriptorType(req) in {HID_DESCRIPTOR_TYPE, REPORT_DESCRIPTOR_TYPE}) ||
      (InClassScope(reportIf, req) && req.request == REQ_GET_REPORT)
    ensures r.Reject? <==> InClassScope(reportIf, req) && req.request != REQ_GET_REPORT
    ensures r.Accept? ==> r.data in {ClassDescriptor(), REPORT_DESCR, EMPTY_REPORT}
  {
    if req.requestType == Standard then
      if req.recipient == Interface && req.request == GET_DESCRIPTOR then
        var dtype := DescriptorType(req);
        if dtype == HID_DESCRIPTOR_TYPE then Accept(ClassDescriptor())
        else if dtype == REPORT_DESCRIPTOR_TYPE then Accept(REPORT_DESCR)
        else ClassIn(reportIf, req)
      else Ignore
    else ClassIn(reportIf, req)
  }

  /** `control_out`: every class request to this interface is rejected, all
      else is left alone; nothing is ever accepted. */
  function ControlOut(reportIf: Byte, req: Request): (r: Response)
    ensures !r.Accept?
    ensures r.Reject? <==> InClassScope(reportIf, req)
  {
    if !InClassScope(reportIf, req) then Ignore else Reject
  }

  /** GET_DESCRIPTOR(HID) to an interface returns the 9-byte HID descriptor and
      GET_DESCRIPTOR(Report) the report descriptor verbatim, whatever the
      interface number in wIndex and whatever the descriptor index. */
  lemma StandardDescriptors(reportIf: Byte, req: Request, i: U16, v: Byte)
    requires IsInterfaceGetDescriptor(req)
    ensures DescriptorType(req) == HID_DESCRIPTOR_TYPE ==> ControlIn(reportIf, req) == Accept(ClassDescriptor())
    ensures DescriptorType(req) == REPORT_DESCRIPTOR_TYPE ==> ControlIn(reportIf, req) == Accept(REPORT_DESCR)
    ensures DescriptorType(req) in {HID_DESCRIPTOR_TYPE, REPORT_DESCRIPTOR_TYPE} ==>
      ControlIn(reportIf, req.(index := i, value := DescriptorType(req) * 256 + v)) == ControlIn(reportIf, req)
  {
  }

  /** Any other standard request, including GET_DESCRIPTOR for another
      descriptor type, is neither accepted nor rejected. */
  lemma OtherStandardIgnored(reportIf: Byte, req: Request)
    requires req.requestType == Standard
    requires !(IsInterfaceGetDescriptor(req) && DescriptorType(req) in {HID_DESCRIPTOR_TYPE, REPORT_DESCRIPTOR_TYPE})
    ensures ControlIn(reportIf, req) == Ignore
  {
  }

  /** In scope, GET_REPORT gets 8 zero bytes and every other code
      (GET_IDLE, GET_PROTOCOL, ...) is rejected. */
  lemma ClassRequestsIn(reportIf: Byte, req: Request)
    requires InClassScope(reportIf, req)
    ensures req.request == REQ_GET_REPORT ==> ControlIn(reportIf, req) == Accept(EMPTY_REPORT)
    ensures req.request != REQ_GET_REPORT ==> ControlIn(reportIf, req) == Reject
    ensures ControlIn(reportIf, req.(request := REQ_GET_IDLE)) == Reject
    ensures ControlIn(reportIf, req.(request := REQ_GET_PROTOCOL)) == Reject
  {
  }

  /** In scope, every host-to-device class request is rejected,
      SET_REPORT, SET_IDLE and SET_PROTOCOL included. */
  lemma ClassRequestsOut(reportIf: Byte, req: Request)
    requires InClassScope(reportIf, req)
    ensures ControlOut(reportIf, req) == Reject
    ensures ControlOut(reportIf, req.(request := REQ_SET_REPORT)) == Reject
    ensures ControlOut(reportIf, req.(request := REQ_SET_IDLE)) == Reject
    ensures ControlOut(reportIf, req.(request := REQ_SET_PROTOCOL)) == Reject
  {
  }

  /** A non-standard request that misses any one of type Class, recipient
      Interface and wIndex == the interface number is ignored by both
      handlers. */
  lemma OutOfScopeIgnored(reportIf: Byte, req: Request)
    requires req.requestType != Standard
    requires req.requestType != Class || req.recipient != Interface || req.index != reportIf
    ensures ControlIn(reportIf, req) == Ignore && ControlOut(reportIf, req) == Ignore
  {
  }

  /** The answer never depends on wLength (the library's `accept_with`
      truncates to it). */
  lemma LengthNotConsulted(reportIf: Byte, req: Request, n: U16)
    ensures ControlIn(reportIf, req.(length := n)) == ControlIn(reportIf, req)
    ensures ControlOut(reportIf, req.(length := n)) == ControlOut(reportIf, req)
  {
  }

  // ---------------------------------------------------------------------------
  // The class object
  // ---------------------------------------------------------------------------

  /** usb-device's error type. */
  datatype UsbError = WouldBlock | ParseError | BufferOverflow | EndpointOverflow
                    | EndpointMemoryOverflow | InvalidEndpoint | Unsupported | InvalidState

  datatype Result<T> = Ok(value: T) | Err(error: UsbError)

  /** What the bus does with one packet offered to the IN endpoint. */
  datatype EndpointAnswer = Queued | Busy | Failed(error: UsbError)

  /** `EndpointIn::write` on an interrupt endpoint of the given size: a packet
      longer than the endpoint is refused with BufferOverflow (the library's
      documented rule); otherwise the bus's answer decides, and a packet taken
      whole is reported with its length. */
  function EndpointWrite(maxPacketSize: nat, data: seq<Byte>, answer: EndpointAnswer): (r: Result<nat>)
    ensures |data| > maxPacketSize ==> r == Err(BufferOverflow)
    ensures |data| <= maxPacketSize ==> (r.Ok? <==> answer.Queued?) && (r.Ok? ==> r.value == |data|)
    ensures |data| <= maxPacketSize && answer.Busy? ==> r == Err(WouldBlock)
    ensures |data| <= maxPacketSize && answer.Failed? ==> r == Err(answer.error)
  {
    if |data| > maxPacketSize then Err(BufferOverflow)
    else match answer
      case Queued => Ok(|data|)
      case Busy => Err(WouldBlock)
      case Failed(e) => Err(e)
  }

  /** The entries `get_configuration_descriptors` writes. */
  datatype Descriptor =
    | InterfaceDescriptor(number: Byte, interfaceClass: Byte, subclass: Byte, protocol: Byte)
    | ClassSpecific(descriptorType: Byte, body: seq<Byte>)
    | EndpointDescriptor(address: Byte, maxPacketSize: nat, interval: nat)

  /** Bytes a descriptor takes in the configuration descriptor: 9 for an
      interface, 7 for an endpoint, two header bytes plus the body otherwise. */
  function Size(d: Descriptor): (n: nat)
    ensures n >= 2
  {
    match d
    case InterfaceDescriptor(_, _, _, _) => 9
    case ClassSpecific(_, body) => 2 + |body|
    case EndpointDescriptor(_, _, _) => 7
  }

  function TotalSize(ds: seq<Descriptor>): (n: nat)
    ensures ds != [] ==> n >= 2
  {
    if ds == [] then 0 else Size(ds[0]) + TotalSize(ds[1..])
  }

  /** The number of leading descriptors that fit in `room` bytes. */
  function Fitting(ds: seq<Descriptor>, room: nat): (k: nat)
    ensures k <= |ds|
    ensures TotalSize(ds[..k]) <= room
    ensures k < |ds| ==> TotalSize(ds[..k + 1]) > room
  {
    if ds == [] || Size(ds[0]) > room then
      assert ds[..0] == [];
      0
    else
      var k := 1 + Fitting(ds[1..], room - Size(ds[0]));
      assert ds[..k][1..] == ds[1..][..k - 1];
      assert k < |ds| ==> ds[..k + 1][1..] == ds[1..][..k];
      k
  }

  /** The configuration-descriptor buffer the library lends to
      `get_configuration_descriptors`. */
  class DescriptorWriter {
    var written: seq<Descriptor>
    var used: nat
    const capacity: nat

    ghost predicate Valid()
      reads this
    {
      used == TotalSize(written) && used <= capacity
    }

    constructor (capacity: nat)
      ensures Valid() && written == [] && this.capacity == capacity
    {
      written := [];
      used := 0;
      this.capacity := capacity;
    }

    /** Appends one descriptor, or fails with BufferOverflow when it does not
        fit, leaving the buffer as it was. */
    method Put(d: Descriptor) returns (r: Result<()>)
      requires Valid()
      modifies this
      ensures Valid()
      ensures old(used) + Size(d) <= capacity ==> r == Ok(()) && written == old(written) + [d] && used == old(used) + Size(d)
      ensures old(used) + Size(d) > capacity ==> r == Err(BufferOverflow) && written == old(written) && used == old(used)
    {
      if used + Size(d) > capacity {
        return Err(BufferOverflow);
      }
      TotalSizeAppend(written, [d]);
      assert TotalSize([d]) == Size(d);
      written := written + [d];
      used := used + Size(d);
      r := Ok(());
    }
  }

  lemma {:induction false} TotalSizeAppend(a: seq<Descriptor>, b: seq<Descriptor>)
    ensures TotalSize(a + b) == TotalSize(a) + TotalSize(b)
  {
    if a == [] {
      assert a + b == b;
    } else {
      assert (a + b)[1..] == a[1..] + b;
      TotalSizeAppend(a[1..], b);
    }
  }

  /** The interface, the HID descriptor payload and the interrupt endpoint,
      in the order the class writes them. */
  function ConfigEntries(reportIf: Byte, epAddress: Byte): (ds: seq<Descriptor>)
    ensures |ds| == 3 && TotalSize(ds) == 25
  {
    var e := EndpointDescriptor(epAddress, 8, 10);
    var c := ClassSpecific(HID_DESCRIPTOR_TYPE, ClassDescriptorPayload());
    var ds := [InterfaceDescriptor(reportIf, USB_CLASS_HID, USB_SUBCLASS_BOOT, USB_INTERFACE_MOUSE), c, e];
    assert ds[1..] == [c, e] && [c, e][1..] == [e] && [e][1..] == [];
    assert TotalSize([e]) == 7;
    assert TotalSize([c, e]) == 16;
    ds
  }

  /** How many of three descriptors fit, in terms of their sizes. */
  lemma FittingThree(ds: seq<Descriptor>, room: nat)
    requires |ds| == 3
    ensures Fitting(ds, room) ==
      if Size(ds[0]) > room then 0
      else if Size(ds[0]) + Size(ds[1]) > room then 1
      else if Size(ds[0]) + Size(ds[1]) + Size(ds[2]) > room then 2
      else 3
  {
    assert ds[1..][0] == ds[1] && ds[1..][1..][0] == ds[2] && ds[1..][1..][1..] == [];
  }

  /** The HID interface and its interrupt IN endpoint. */
  class HidClass {
    /** The interface number allocated to the class. */
    const reportIf: Byte
    /** The address of the interrupt IN endpoint. */
    const epAddress: Byte
    /** The endpoint's size and polling interval, as `alloc.interrupt(8, 10)` asks. */
    const maxPacketSize: nat := 8
    const interval: nat := 10
    /** The packets the endpoint has taken, oldest first. */
    ghost var sent: seq<seq<Byte>>

    /** `HIDClass::new`: the interface and endpoint numbers are what the
        allocator handed out; the endpoint is interrupt, 8 bytes, 10 ms. */
    constructor (reportIf: Byte, epAddress: Byte)
      ensures this.reportIf == reportIf && this.epAddress == epAddress
      ensures sent == []
    {
      this.reportIf := reportIf;
      this.epAddress := epAddress;
      sent := [];
    }

    /** `write`: hands the packet to the endpoint; the endpoint takes it
        exactly when the write succeeds. */
    method Write(data: seq<Byte>, answer: EndpointAnswer) returns (r: Result<nat>)
      modifies this
      ensures r == EndpointWrite(maxPacketSize, data, answer)
      ensures sent == old(sent) + (if r.Ok? then [data] else [])
    {
      if |data| > maxPacketSize {
        return Err(BufferOverflow);
      }
      match answer
      case Queued =>
        sent := sent + [data];
        r := Ok(|data|);
      case Busy =>
        r := Err(WouldBlock);
      case Failed(e) =>
        r := Err(e);
    }

    /** `get_configuration_descriptors`: the three entries in order, stopping
        at the first that does not fit (the `?` operator). */
    method GetConfigurationDescriptors(w: DescriptorWriter) returns (r: Result<()>)
      requires w.Valid()
      modifies w
      ensures w.Valid()
      ensures var ds := ConfigEntries(reportIf, epAddress); var k := Fitting(ds, w.capacity - old(w.used));
        w.written == old(w.written) + ds[..k] && (r.Ok? <==> k == 3) && (r.Err? ==> r.error == BufferOverflow)
    {
      var ds := ConfigEntries(reportIf, epAddress);
      ghost var start := w.written;
      FittingThree(ds, w.capacity - w.used);
      r := w.Put(ds[0]);
      if r.Err? {
        assert ds[..0] == [];
        return;
      }
      r := w.Put(ds[1]);
      if r.Err? {
        assert ds[..1] == [ds[0]];
        return;
      }
      r := w.Put(ds[2]);
      if r.Err? {
        assert w.written == start + [ds[0]] + [ds[1]] == start + ds[..2];
        return;
      }
      assert ds[..3] == ds;
    }
  }

  /** With at least 25 bytes free all three entries are written. */
  lemma ConfigFits(reportIf: Byte, epAddress: Byte, room: nat)
    requires room >= 25
    ensures Fitting(ConfigEntries(reportIf, epAddress), room) == 3
  {
    var ds := ConfigEntries(reportIf, epAddress);
    assert ds[..3] == ds;
    var k := Fitting(ds, room);
    if k < 3 {
      PrefixSizeBound(ds, k + 1);
    }
  }

  /** A prefix takes no more room than the whole. */
  lemma {:induction false} PrefixSizeBound(ds: seq<Descriptor>, k: nat)
    requires k <= |ds|
    ensures TotalSize(ds[..k]) <= TotalSize(ds)
  {
    assert ds == ds[..k] + ds[k..];
    TotalSizeAppend(ds[..k], ds[k..]);
  }
}
