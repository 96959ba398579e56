/** Decoding one ETW event record of the USB driver stack into a URB transfer record:
    the provider filter, the field-name aliases of the untyped event data, the
    endpoint direction, the transfer buffer, the setup packet of control transfers
    and the per-event failure path. The event stream as a whole is decoded by
    `DecodeEvents`, which the parsing method of `Capture` is proved against. */
module UrbDecoder {
  import opened Text
  import opened UrbTables

  /** A value of the untyped event-data dictionary. */
  datatype FieldValue = IntVal(i: int) | StrVal(s: string) | BytesVal(b: seq<byte>)

  type EventData = map<string, FieldValue>

  /** What `parse_etw` does for one event: return the data, be absent (the event
      data is then empty), or raise. */
  datatype EtwParse = Parsed(data: EventData) | NoParseMethod | ParseRaises

  /** One event record as the trace-reading library delivers it. The timestamp is
      the ISO-8601 UTC rendering of the event time. */
  datatype EtlEvent = EtlEvent(providerName: string, timestamp: string, eventId: int,
                               processId: int, threadId: int, etw: EtwParse)

  /** `URBTransfer`. Fields that the decoder copies from the event data without
      looking at them keep the untyped value. */
  datatype UrbTransfer = UrbTransfer(
    timestamp: string,
    urbFunction: int, urbFunctionName: string,
    status: int, statusName: string,
    deviceId: string, vid: string, pid: string,
    endpointAddress: int, endpointDirection: string,
    transferBufferLength: FieldValue, actualLength: FieldValue,
    transferFlags: int,
    transferBuffer: seq<byte>,
    setupPacket: map<string, FieldValue>,
    interval: FieldValue, startFrame: FieldValue, numberOfPackets: FieldValue,
    errorCount: FieldValue, pipeHandle: FieldValue,
    usbdStatus: string, timeout: FieldValue,
    requestType: FieldValue, request: FieldValue, value: FieldValue,
    index: FieldValue, length: FieldValue,
    rawData: EventData,
    eventId: int, processId: int, threadId: int)

  /** The providers whose events are decoded. */
  const UsbProviders: seq<string> := [
    "Microsoft-Windows-USB-USBPORT",
    "Microsoft-Windows-USB-USBXHCI",
    "Microsoft-Windows-USB-UCX",
    "Microsoft-Windows-USB-USBHUB3",
    "Microsoft-Windows-USB-USBHUB"
  ]

  const MaxStoredBuffer: nat := 1024

  /** Some USB provider name is a substring of the event's provider name. */
  predicate IsUsbProvider(providerName: string) {
    exists p | p in UsbProviders :: Contains(providerName, p)
  }

  /** The provider filter only admits events whose provider name mentions the
      common `Microsoft-Windows-USB-` prefix. */
  lemma UsbProviderHasPrefix(providerName: string)
    requires IsUsbProvider(providerName)
    ensures Contains(providerName, "Microsoft-Windows-USB-")
  {
    var p :| p in UsbProviders && Contains(providerName, p);
    var prefix := "Microsoft-Windows-USB-";
    var k := Find(providerName, p);
    ProviderPrefix(p);
    OccursAtPrefix(providerName, p, prefix, k);
    ContainsIff(providerName, prefix);
  }

  lemma ProviderPrefix(p: string)
    requires p in UsbProviders
    ensures |p| >= 22 && p[..22] == "Microsoft-Windows-USB-"
  {
  }

  /** Where a string occurs, so does each of its prefixes. */
  lemma OccursAtPrefix(s: string, p: string, q: string, k: int)
    requires OccursAt(s, p, k) && |q| <= |p| && p[..|q|] == q
    ensures OccursAt(s, q, k)
  {
    assert s[k..k + |q|] == s[k..k + |p|][..|q|];
  }

  /** `d.get(key, default)`. */
  function Get(d: EventData, key: string, default: FieldValue): FieldValue {
    if key in d then d[key] else default
  }

  /** `d.get(primary, d.get(alias, default))`: the value read is one stored under
      one of the two names, and the default only when neither name is present. */
  function GetAlias(d: EventData, primary: string, alias: string, default: FieldValue): (r: FieldValue)
    ensures (primary in d && r == d[primary]) || (alias in d && r == d[alias])
            || (primary !in d && alias !in d && r == default)
  {
    Get(d, primary, Get(d, alias, default))
  }

  /** `_extract_vid_pid`: the four characters after the first `VID_` and after the
      first `PID_`, clipped at the end, or "" when the marker is missing. */
  function ExtractVidPid(deviceId: string): (r: (string, string))
    ensures |r.0| <= 4 && |r.1| <= 4
    ensures (forall k :: !OccursAt(deviceId, "VID_", k)) ==> r.0 == ""
    ensures (forall k :: !OccursAt(deviceId, "PID_", k)) ==> r.1 == ""
    ensures forall k :: OccursAt(deviceId, "VID_", k) && (forall j :: 0 <= j < k ==> !OccursAt(deviceId, "VID_", j))
              ==> r.0 == deviceId[k + 4..Min(k + 8, |deviceId|)]
    ensures forall k :: OccursAt(deviceId, "PID_", k) && (forall j :: 0 <= j < k ==> !OccursAt(deviceId, "PID_", j))
              ==> r.1 == deviceId[k + 4..Min(k + 8, |deviceId|)]
  {
    (FieldAfter(deviceId, "VID_", 4), FieldAfter(deviceId, "PID_", 4))
  }

  /** `"IN" if (endpoint & 0x80) else "OUT"` on a Python integer: bit 7 of the two's
      complement value, which is bit 7 of its residue modulo 256. */
  function EndpointDirection(endpoint: int): (r: string)
    ensures r == "IN" || r == "OUT"
  {
    if endpoint % 256 >= 128 then "IN" else "OUT"
  }

  /** For an endpoint address byte, the direction is the value of bit 7. */
  lemma EndpointDirectionBit(address: bv8)
    ensures EndpointDirection(address as int) == if address & 0x80 != 0 then "IN" else "OUT"
  {
  }

  /** The whole integer is reduced to its low byte, so the two's complement bit of a
      negative or wide value decides. */
  lemma EndpointDirectionLowByte(endpoint: int, k: int)
    ensures EndpointDirection(endpoint + 256 * k) == EndpointDirection(endpoint)
  {
    assert (endpoint + 256 * k) % 256 == endpoint % 256;
  }

  /** The buffer as stored before the 1 KiB cut: a string is hexadecimal with its
      spaces removed, and undecodable hexadecimal becomes empty; bytes are kept; an
      integer cannot be sliced, which fails the whole event (`None`). */
  function DecodeBuffer(v: FieldValue): (r: Option<seq<byte>>)
    ensures r.None? <==> v.IntVal?
    ensures v.BytesVal? ==> r == Some(v.b)
  {
    match v
    case IntVal(_) => None
    case BytesVal(b) => Some(b)
    case StrVal(s) =>
      match FromHex(RemoveChar(s, ' '))
      case Some(b) => Some(b)
      case None => Some([])
  }

  /** The setup packet of a control transfer; `wLength` falls back to the generic
      `Length` field. */
  function SetupPacket(d: EventData): map<string, FieldValue> {
    map[
      "bmRequestType" := GetAlias(d, "bmRequestType", "RequestType", IntVal(0)),
      "bRequest" := GetAlias(d, "bRequest", "Request", IntVal(0)),
      "wValue" := GetAlias(d, "wValue", "Value", IntVal(0)),
      "wIndex" := GetAlias(d, "wIndex", "Index", IntVal(0)),
      "wLength" := GetAlias(d, "wLength", "Length", IntVal(0))
    ]
  }

  const SetupKeys: set<string> := {"bmRequestType", "bRequest", "wValue", "wIndex", "wLength"}

  function SetupField(setup: map<string, FieldValue>, key: string): FieldValue {
    if key in setup then setup[key] else IntVal(0)
  }

  /** Every event-data value the decoder computes with has the type it needs; an
      event whose data breaks this raises inside the decoder. */
  predicate Decodable(d: EventData) {
    && GetAlias(d, "Function", "URBFunction", IntVal(0)).IntVal?
    && GetAlias(d, "Status", "USBDStatus", IntVal(0)).IntVal?
    && GetAlias(d, "DeviceId", "DeviceID", StrVal("")).StrVal?
    && GetAlias(d, "EndpointAddress", "Endpoint", IntVal(0)).IntVal?
    && !Get(d, "TransferBuffer", BytesVal([])).IntVal?
  }

  /** `_extract_urb_from_event`. */
  function ExtractUrb(e: EtlEvent, d: EventData): (r: Option<UrbTransfer>)
    ensures r.Some? <==> Decodable(d)
    ensures r.Some? ==> (r.value.rawData == d && r.value.timestamp == e.timestamp
              && r.value.eventId == e.eventId && r.value.processId == e.processId
              && r.value.threadId == e.threadId)
    ensures r.Some? ==> |r.value.transferBuffer| <= MaxStoredBuffer
    ensures r.Some? && r.value.urbFunction == ControlTransfer ==> r.value.setupPacket.Keys == SetupKeys
    ensures r.Some? && r.value.urbFunction != ControlTransfer ==>
              r.value.setupPacket == map[] && r.value.requestType == IntVal(0)
              && r.value.request == IntVal(0) && r.value.value == IntVal(0)
              && r.value.index == IntVal(0) && r.value.length == IntVal(0)
    ensures r.Some? ==> r.value.transferFlags == 0 && r.value.usbdStatus == ""
  {
    var code := GetAlias(d, "Function", "URBFunction", IntVal(0));
    var status := GetAlias(d, "Status", "USBDStatus", IntVal(0));
    var deviceId := GetAlias(d, "DeviceId", "DeviceID", StrVal(""));
    var endpoint := GetAlias(d, "EndpointAddress", "Endpoint", IntVal(0));
    var transferLength := GetAlias(d, "TransferBufferLength", "Length", IntVal(0));
    var actualLength := GetAlias(d, "ActualLength", "Actual", IntVal(0));
    var buffer := DecodeBuffer(Get(d, "TransferBuffer", BytesVal([])));
    if !code.IntVal? || !status.IntVal? || !deviceId.StrVal? || !endpoint.IntVal? || buffer.None? then
      None
    else
      var vidPid := ExtractVidPid(deviceId.s);
      var setup := if code.i == ControlTransfer then SetupPacket(d) else map[];
      var stored := buffer.value[..Min(|buffer.value|, MaxStoredBuffer)];
      Some(UrbTransfer(
        e.timestamp,
        code.i, FunctionName(code.i),
        status.i, StatusName(status.i),
        deviceId.s, vidPid.0, vidPid.1,
        endpoint.i, EndpointDirection(endpoint.i),
        transferLength, actualLength,
        0,
        stored,
        setup,
        Get(d, "Interval", IntVal(0)), Get(d, "StartFrame", IntVal(0)),
        Get(d, "NumberOfPackets", IntVal(0)), Get(d, "ErrorCount", IntVal(0)),
        Get(d, "PipeHandle", IntVal(0)),
        "", Get(d, "Timeout", IntVal(0)),
        SetupField(setup, "bmRequestType"), SetupField(setup, "bRequest"),
        SetupField(setup, "wValue"), SetupField(setup, "wIndex"), SetupField(setup, "wLength"),
        d,
        e.eventId, e.processId, e.threadId))
  }

  /** The names of a record are those of its codes, and its vendor and product are
      read from its device identifier. */
  lemma ExtractUrbNames(e: EtlEvent, d: EventData)
    requires Decodable(d)
    ensures var u := ExtractUrb(e, d).value;
      && u.urbFunctionName == FunctionName(u.urbFunction)
      && u.statusName == StatusName(u.status)
      && (u.vid, u.pid) == ExtractVidPid(u.deviceId)
      && u.endpointDirection == EndpointDirection(u.endpointAddress)
  {
  }

  /** Which event-data name each field comes from: the primary name when present,
      else the alternative, else the default. */
  lemma ExtractUrbAliases(e: EtlEvent, d: EventData)
    requires Decodable(d)
    ensures var u := ExtractUrb(e, d).value;
      && IntVal(u.urbFunction) == GetAlias(d, "Function", "URBFunction", IntVal(0))
      && IntVal(u.status) == GetAlias(d, "Status", "USBDStatus", IntVal(0))
      && StrVal(u.deviceId) == GetAlias(d, "DeviceId", "DeviceID", StrVal(""))
      && IntVal(u.endpointAddress) == GetAlias(d, "EndpointAddress", "Endpoint", IntVal(0))
      && u.transferBufferLength == GetAlias(d, "TransferBufferLength", "Length", IntVal(0))
      && u.actualLength == GetAlias(d, "ActualLength", "Actual", IntVal(0))
  {
  }

  /** A control transfer's request fields are the setup packet's, and `wLength`
      shares its fall-back `Length` with the transfer length. */
  lemma ControlTransferSetup(e: EtlEvent, d: EventData)
    requires Decodable(d)
    requires GetAlias(d, "Function", "URBFunction", IntVal(0)) == IntVal(ControlTransfer)
    ensures var u := ExtractUrb(e, d).value;
      && u.setupPacket == SetupPacket(d)
      && u.requestType == SetupPacket(d)["bmRequestType"]
      && u.request == SetupPacket(d)["bRequest"]
      && u.value == SetupPacket(d)["wValue"]
      && u.index == SetupPacket(d)["wIndex"]
      && u.length == SetupPacket(d)["wLength"]
      && ("wLength" !in d && "TransferBufferLength" !in d && "Length" in d ==>
            u.length == u.transferBufferLength == d["Length"])
  {
  }

  /** A buffer given as the hexadecimal text of some bytes decodes to those bytes,
      cut to the first 1024. */
  lemma ExtractUrbHexBuffer(e: EtlEvent, d: EventData, b: seq<byte>)
    requires Decodable(d)
    requires "TransferBuffer" in d && d["TransferBuffer"] == StrVal(BytesHex(b))
    ensures ExtractUrb(e, d).value.transferBuffer == b[..Min(|b|, MaxStoredBuffer)]
  {
    HexBufferDecodes(b);
    ExtractUrbBufferPrefix(e, d);
  }

  lemma HexBufferDecodes(b: seq<byte>)
    ensures DecodeBuffer(StrVal(BytesHex(b))) == Some(b)
  {
    var s := BytesHex(b);
    assert forall i :: 0 <= i < |s| ==> s[i] != ' ' by {
      forall i | 0 <= i < |s| ensures s[i] != ' ' {
        assert IsHexDigit(s[i]);
      }
    }
    RemoveAbsentChar(s, ' ');
    FromHexOfBytesHex(b);
  }

  /** Text is decoded after its spaces are removed: whatever `bytes.fromhex` makes
      of the text without spaces is the buffer. This is the step that
      `SpacedHexDecodes` and `ExtractUrbHexText` build on. */
  lemma HexTextDecodes(s: string, b: seq<byte>)
    requires FromHex(RemoveChar(s, ' ')) == Some(b)
    ensures DecodeBuffer(StrVal(s)) == Some(b)
  {
  }

  /** Text that is the hexadecimal of some bytes once its spaces are removed, such as
      `b.hex(' ')`, decodes to those bytes. */
  lemma SpacedHexDecodes(s: string, b: seq<byte>)
    requires RemoveChar(s, ' ') == BytesHex(b)
    ensures DecodeBuffer(StrVal(s)) == Some(b)
  {
    FromHexOfBytesHex(b);
  }

  /** An event whose buffer is hexadecimal text stores the bytes of that text without
      its spaces, cut to the first 1024. */
  lemma ExtractUrbHexText(e: EtlEvent, d: EventData, s: string, b: seq<byte>)
    requires Decodable(d)
    requires "TransferBuffer" in d && d["TransferBuffer"] == StrVal(s)
    requires FromHex(RemoveChar(s, ' ')) == Some(b)
    ensures ExtractUrb(e, d).value.transferBuffer == b[..Min(|b|, MaxStoredBuffer)]
  {
    HexTextDecodes(s, b);
    ExtractUrbBufferPrefix(e, d);
  }

  /** Example: spaced text with upper- and lower-case digits. */
  lemma SpacedMixedCaseHex()
    ensures DecodeBuffer(StrVal("DE ad 0F")) == Some([0xDE, 0xAD, 0x0F])
  {
    SpacesRemoved();
    MixedCaseDigits();
    HexTextDecodes("DE ad 0F", [0xDE, 0xAD, 0x0F]);
  }

  lemma SpacesRemoved()
    ensures RemoveChar("DE ad 0F", ' ') == "DEad0F"
  {
    assert RemoveChar(" 0F", ' ') == "0F";
    assert RemoveChar(" ad 0F", ' ') == "ad0F";
  }

  lemma MixedCaseDigits()
    ensures FromHex("DEad0F") == Some([0xDE, 0xAD, 0x0F])
  {
    var b0, b1: seq<byte> := [0x0F], [0xAD, 0x0F];
    HexPair("0F", []);
    assert [(16 * HexDigitValue('0') + HexDigitValue('F')) as byte] + [] == b0;
    assert "ad0F"[2..] == "0F";
    HexPair("ad0F", b0);
    assert [(16 * HexDigitValue('a') + HexDigitValue('d')) as byte] + b0 == b1;
    assert "DEad0F"[2..] == "ad0F";
    HexPair("DEad0F", b1);
    assert [(16 * HexDigitValue('D') + HexDigitValue('E')) as byte] + b1 == [0xDE, 0xAD, 0x0F];
  }

  /** One digit pair of `bytes.fromhex`. */
  lemma HexPair(s: string, rest: seq<byte>)
    requires |s| >= 2 && !IsAsciiSpace(s[0]) && IsHexDigit(s[0]) && IsHexDigit(s[1])
    requires FromHex(s[2..]) == Some(rest)
    ensures FromHex(s) == Some([(16 * HexDigitValue(s[0]) + HexDigitValue(s[1])) as byte] + rest)
  {
  }

  /** Malformed hexadecimal text does not fail the event: the buffer is empty. */
  lemma ExtractUrbBadHex(e: EtlEvent, d: EventData, s: string)
    requires Decodable(d)
    requires "TransferBuffer" in d && d["TransferBuffer"] == StrVal(s)
    requires FromHex(RemoveChar(s, ' ')).None?
    ensures ExtractUrb(e, d).value.transferBuffer == []
  {
  }

  /** The stored buffer is the start of the decoded buffer. */
  lemma ExtractUrbBufferPrefix(e: EtlEvent, d: EventData)
    requires Decodable(d)
    ensures var raw := DecodeBuffer(Get(d, "TransferBuffer", BytesVal([]))).value;
      var u := ExtractUrb(e, d).value;
      && u.transferBuffer <= raw
      && |u.transferBuffer| == Min(|raw|, MaxStoredBuffer)
  {
  }

  /** `on_event_record` for one event: the record it appends, if any. Events of
      other providers and events whose `parse_etw` raises add nothing; an event
      without `parse_etw` is decoded from empty data. */
  function EventUrb(e: EtlEvent): (r: Option<UrbTransfer>)
    ensures r.Some? ==> IsUsbProvider(e.providerName) && !e.etw.ParseRaises?
  {
    if !IsUsbProvider(e.providerName) then None
    else
      match e.etw
      case ParseRaises => None
      case NoParseMethod => ExtractUrb(e, map[])
      case Parsed(d) => ExtractUrb(e, d)
  }

  /** With empty event data every default applies: a record for function 0 with
      status 0, an empty device and an OUT endpoint 0. */
  lemma EmptyEventData(e: EtlEvent)
    requires IsUsbProvider(e.providerName) && e.etw == NoParseMethod
    ensures EventUrb(e).Some?
    ensures var u := EventUrb(e).value;
      && u.urbFunction == 0 && u.urbFunctionName == "URB_FUNCTION_SELECT_CONFIGURATION"
      && u.status == 0 && u.statusName == "USBD_STATUS_SUCCESS"
      && u.deviceId == "" && u.vid == "" && u.pid == ""
      && u.endpointAddress == 0 && u.endpointDirection == "OUT"
      && u.transferBuffer == [] && u.setupPacket == map[]
  {
    assert Decodable(map[]);
    SelectConfigurationName();
    SuccessStatusName();
  }

  function OptionSeq<T>(o: Option<T>): seq<T> {
    if o.Some? then [o.value] else []
  }

  /** The records the observer collects from an event stream, in event order. */
  function DecodeEvents(events: seq<EtlEvent>): seq<UrbTransfer> {
    if events == [] then []
    else DecodeEvents(events[..|events| - 1]) + OptionSeq(EventUrb(events[|events| - 1]))
  }

  /** Decoding one more event appends what it yields. */
  lemma DecodeEventsStep(events: seq<EtlEvent>, i: nat)
    requires i < |events|
    ensures DecodeEvents(events[..i + 1]) == DecodeEvents(events[..i]) + OptionSeq(EventUrb(events[i]))
  {
    assert events[..i + 1][..i] == events[..i];
  }

  /** Decoding a concatenated stream concatenates the results: records keep the
      order of their events, and one event's failure does not disturb the others. */
  lemma {:induction false} DecodeEventsAppend(a: seq<EtlEvent>, b: seq<EtlEvent>)
    ensures DecodeEvents(a + b) == DecodeEvents(a) + DecodeEvents(b)
    decreases |b|
  {
    if b == [] {
      assert a + b == a;
    } else {
      var b' := b[..|b| - 1];
      assert (a + b)[..|a + b| - 1] == a + b';
      assert (a + b)[|a + b| - 1] == b[|b| - 1];
      DecodeEventsAppend(a, b');
    }
  }

  /** A stream of events that each yield nothing yields nothing. */
  lemma {:induction false} DecodeEventsNone(events: seq<EtlEvent>)
    requires forall i :: 0 <= i < |events| ==> EventUrb(events[i]).None?
    ensures DecodeEvents(events) == []
    decreases |events|
  {
    if events != [] {
      DecodeEventsNone(events[..|events| - 1]);
    }
  }

  /** At most one record per event, each the decoding of some USB event. */
  lemma {:induction false} DecodeEventsOrigin(events: seq<EtlEvent>)
    ensures |DecodeEvents(events)| <= |events|
    ensures forall u :: u in DecodeEvents(events) ==>
              exists i :: 0 <= i < |events| && EventUrb(events[i]) == Some(u)
                && IsUsbProvider(events[i].providerName)
    decreases |events|
  {
    if events != [] {
      var init := events[..|events| - 1];
      DecodeEventsOrigin(init);
      forall u | u in DecodeEvents(events)
        ensures exists i :: 0 <= i < |events| && EventUrb(events[i]) == Some(u)
                  && IsUsbProvider(events[i].providerName)
      {
        if u in DecodeEvents(init) {
          var i :| 0 <= i < |init| && EventUrb(init[i]) == Some(u) && IsUsbProvider(init[i].providerName);
          assert events[i] == init[i];
        } else {
          assert EventUrb(events[|events| - 1]) == Some(u);
        }
      }
    }
  }

  /** The decoding of a control transfer read from an endpoint with the IN bit. */
  lemma ControlTransferScenario(e: EtlEvent, d: EventData)
    requires IsUsbProvider(e.providerName) && e.etw == Parsed(d)
    requires "Function" in d && d["Function"] == IntVal(8)
    requires "Status" in d && d["Status"] == IntVal(0)
    requires "EndpointAddress" in d && d["EndpointAddress"] == IntVal(0x80)
    requires "DeviceId" in d && d["DeviceId"].StrVal?
    requires "TransferBuffer" !in d
    ensures EventUrb(e).Some?
    ensures var u := EventUrb(e).value;
      && u.urbFunctionName == "URB_FUNCTION_CONTROL_TRANSFER"
      && u.statusName == "USBD_STATUS_SUCCESS"
      && u.endpointDirection == "IN"
      && u.setupPacket.Keys == SetupKeys
      && u.transferBuffer == []
  {
    assert Decodable(d);
    ExtractUrbNames(e, d);
    ExtractUrbAliases(e, d);
    var u := ExtractUrb(e, d).value;
    assert u.urbFunction == 8 && u.status == 0 && u.endpointAddress == 0x80;
    ControlTransferName();
    SuccessStatusName();
  }
}
