/**
 * The driver's local answer to GET_DESCRIPTOR(DEVICE, 0) in driver/vusb_urb.c, compared with the
 * general descriptor walk.
 */
module DriverFastPath {
  import opened Collections
  import opened Wire
  import opened Descriptors

  /** VUSB_SETUP_PACKET */
  datatype Setup = Setup(bmRequestType: byte, bRequest: byte, wValue: nat, wIndex: nat, wLength: nat)

  /** The fields of VUSB_URB_ENTRY that the request handling reads. */
  datatype Entry = Entry(control: bool, length: nat, buffer: array?<byte>, mdl: array?<byte>, setup: Setup)

  /** VusbUrbParse on the GET_DESCRIPTOR functions: the setup packet keeps sixteen bits of the length. */
  function ParseGetDescriptor(descType: byte, index: byte, languageId: nat, length: nat,
                              buffer: array?<byte>, mdl: array?<byte>): Entry
  {
    Entry(true, length, buffer, mdl,
          Setup(0x80, 0x06, (descType as nat) * 256 + index as nat, languageId, length % 0x1_0000))
  }

  /** VusbUrbGetBuffer: the direct buffer, or the mapped one. */
  function GetBuffer(e: Entry): array?<byte> {
    if e.buffer != null then e.buffer else e.mdl
  }

  datatype Status = Success | NotConnected

  /** What the handler returns and leaves in the buffer, when there is one. */
  datatype Outcome = Outcome(status: Status, handled: bool, bytes: Option<seq<byte>>)

  /** VusbProcessStandardRequest; the device is absent or has a descriptor blob. */
  function Processed(device: Option<seq<byte>>, e: Entry, bytes: Option<seq<byte>>): Outcome
    requires bytes.Some? ==> |bytes.value| >= e.length
  {
    if !e.control then Outcome(Success, false, bytes)
    else if device.None? then Outcome(NotConnected, false, bytes)
    else
      var n := Min(18, |device.value|);
      if e.setup.bmRequestType == 0x80 && e.setup.bRequest == 0x06 && n > 0
         && Low8(e.setup.wValue / 256) == DEVICE && Low8(e.setup.wValue) == 0 && e.length >= n && bytes.Some?
      then Outcome(Success, true, Some(device.value[..n] + bytes.value[n..]))
      else Outcome(Success, false, bytes)
  }

  /** The bytes behind a possibly null pointer. */
  ghost function Contents(buffer: array?<byte>): Option<seq<byte>>
    reads if buffer == null then {} else {buffer}
  {
    if buffer == null then None else Some(buffer[..])
  }

  method ProcessStandardRequest(device: Option<seq<byte>>, e: Entry) returns (status: Status, handled: bool)
    requires GetBuffer(e) != null ==> GetBuffer(e).Length >= e.length
    modifies if GetBuffer(e) == null then {} else {GetBuffer(e)}
    ensures Outcome(status, handled, Contents(GetBuffer(e)))
            == Processed(device, e, old(Contents(GetBuffer(e))))
  {
    handled := false;
    if !e.control {
      return Success, false;
    }
    if device.None? {
      return NotConnected, false;
    }
    if e.setup.bmRequestType == 0x80 && e.setup.bRequest == 0x06 {
      var descType, index := Low8(e.setup.wValue / 256), Low8(e.setup.wValue);
      if |device.value| > 0 {
        if descType == DEVICE && index == 0 {
          var descriptorLength := Min(18, |device.value|);
          if e.length >= descriptorLength {
            var buffer := GetBuffer(e);
            if buffer != null {
              forall k | 0 <= k < descriptorLength {
                buffer[k] := device.value[k];
              }
              assert buffer[..] == device.value[..descriptorLength] + old(buffer[..])[descriptorLength..];
              return Success, true;
            }
          }
        }
      }
    }
    status := Success;
  }

  // ---------- which requests are answered ----------

  /**
   * Answered locally is exactly the standard GET_DESCRIPTOR of type 1 and index 0, for a device with descriptors
   * and a buffer that takes min(18, their length) bytes: those bytes, and no others, are written. A missing
   * device is reported; nothing else fails, and an unanswered request leaves the buffer as it was.
   */
  lemma HandledIff(device: Option<seq<byte>>, e: Entry, bytes: Option<seq<byte>>)
    requires bytes.Some? ==> |bytes.value| >= e.length
    ensures var r := Processed(device, e, bytes);
            && (r.status == NotConnected <==> e.control && device == None)
            && (r.handled <==>
                  && e.control && device.Some? && device.value != []
                  && e.setup.bmRequestType == 0x80 && e.setup.bRequest == 6 && e.setup.wValue % 0x1_0000 == 0x0100
                  && (e.length >= 18 || e.length >= |device.value|) && bytes.Some?)
            && (!r.handled ==> r.bytes == bytes)
            && (r.handled ==>
                  var n := if |device.value| < 18 then |device.value| else 18;
                  && r.bytes.Some? && |r.bytes.value| == |bytes.value|
                  && r.bytes.value[..n] == device.value[..n] && r.bytes.value[n..] == bytes.value[n..])
  {
  }

  /** Of the parsed requests that is type 1 with index 0; the buffer is the direct one, or else the mapped one. */
  lemma ParsedHandledIff(device: seq<byte>, descType: byte, index: byte, languageId: nat, length: nat,
                         buffer: array?<byte>, mdl: array?<byte>, before: Option<seq<byte>>)
    requires before.Some? ==> |before.value| >= length
    ensures var e := ParseGetDescriptor(descType, index, languageId, length, buffer, mdl);
            && e.setup.wValue / 256 == descType && e.setup.wValue % 256 == index
            && e.setup.wIndex == languageId && e.setup.wLength == length % 0x1_0000
            && (buffer != null ==> GetBuffer(e) == buffer) && (buffer == null ==> GetBuffer(e) == mdl)
            && (Processed(Some(device), e, before).handled <==>
                descType == 1 && index == 0 && device != [] && (length >= 18 || length >= |device|) && before.Some?)
  {
    HandledIff(Some(device), ParseGetDescriptor(descType, index, languageId, length, buffer, mdl), before);
    hide Processed;
  }

  // ---------- the two answers ----------

  lemma {:induction false} FirstOfType(descs: seq<seq<byte>>, t: byte)
    requires AllWellFormed(descs)
    ensures OfType(descs, t) != [] ==> WellFormed(OfType(descs, t)[0]) && OfType(descs, t)[0][1] == t
    ensures descs != [] && descs[0][1] == t ==> OfType(descs, t) != [] && OfType(descs, t)[0] == descs[0]
  {
    if descs != [] {
      assert WellFormed(descs[0]);
      FirstOfType(descs[1..], t);
    }
  }

  /** The general walk's answer to the request in an entry. */
  function WalkAnswer(blob: seq<byte>, e: Entry): Answer {
    Walk(blob, 0, Low8(e.setup.wValue / 256), Low8(e.setup.wValue), e.setup.wLength)
  }

  /** The entry that VusbUrbParse fills in for GET_DESCRIPTOR(DEVICE, 0). */
  predicate AsksForDevice(e: Entry, languageId: nat) {
    e == ParseGetDescriptor(DEVICE, 0, languageId, e.length, e.buffer, e.mdl)
  }

  lemma WalkAnswerIs(descs: seq<seq<byte>>, e: Entry, languageId: nat)
    requires AllWellFormed(descs) && AsksForDevice(e, languageId)
    ensures WalkAnswer(Flatten(descs), e) == Nth(OfType(descs, DEVICE), 0, e.length % 0x1_0000)
  {
    WalkIsNth([], descs, DEVICE, 0, e.length % 0x1_0000);
    assert [] + Flatten(descs) == Flatten(descs);
  }

  /**
   * For every nonempty descriptor list and every buffer that holds the cached bytes, the handler answers the
   * parsed request and writes those bytes only. They are the walk's answer exactly when the list starts with
   * a device descriptor of which the walk copies as many bytes as the cache, at most 18, holds.
   */
  lemma HandlerAgreesIff(descs: seq<seq<byte>>, e: Entry, languageId: nat, before: seq<byte>)
    requires AllWellFormed(descs) && descs != [] && AsksForDevice(e, languageId)
    requires Min(18, |Flatten(descs)|) <= e.length <= |before|
    ensures var n, r := Min(18, |Flatten(descs)|), Processed(Some(Flatten(descs)), e, Some(before));
            && |descs[0]| >= 2 && r.status == Success && r.handled && r.bytes.Some? && |r.bytes.value| == |before|
            && r.bytes.value[n..] == before[n..]
            && (WalkAnswer(Flatten(descs), e) == Reply(r.bytes.value[..n]) <==>
                descs[0][1] == DEVICE && Min(|descs[0]|, e.length % 0x1_0000) == n)
  {
    var blob, w := Flatten(descs), e.length % 0x1_0000;
    var n, d := Min(18, |blob|), descs[0];
    assert WellFormed(d);
    assert blob[..|d|] == d;
    assert blob[1] == d[1];
    var r := Processed(Some(blob), e, Some(before));
    assert r.bytes == Some(blob[..n] + before[n..]);
    assert r.bytes.value[..n] == blob[..n];
    WalkAnswerIs(descs, e, languageId);
    FirstOfType(descs, DEVICE);
    var found := OfType(descs, DEVICE);
    if found != [] {
      var copied := found[0][..Min(|found[0]|, w)];
      if |copied| == n {
        assert copied[1] == DEVICE && blob[..n][1] == d[1];
        if found[0] == d {
          assert copied == blob[..n];
        }
      }
    }
  }

  /**
   * Behind an 18-byte device descriptor, for buffers of 18 bytes and more: the handler writes that
   * descriptor, and the walk agrees exactly when sixteen bits of the length still say at least 18.
   */
  lemma FastPathAgreesIff(descs: seq<seq<byte>>, e: Entry, languageId: nat, before: seq<byte>)
    requires AllWellFormed(descs) && descs != [] && |descs[0]| == 18 && descs[0][1] == DEVICE
    requires AsksForDevice(e, languageId) && 18 <= e.length <= |before|
    ensures var r := Processed(Some(Flatten(descs)), e, Some(before));
            && r.handled && r.bytes == Some(descs[0] + before[18..])
            && (WalkAnswer(Flatten(descs), e) == Reply(r.bytes.value[..18]) <==> e.length % 0x1_0000 >= 18)
  {
    assert Flatten(descs)[..18] == descs[0];
    HandlerAgreesIff(descs, e, languageId, before);
  }

  /** In the range of lengths one control transfer can ask for, the two always agree. */
  lemma FastPathAgrees(descs: seq<seq<byte>>, e: Entry, languageId: nat, before: seq<byte>)
    requires AllWellFormed(descs) && descs != [] && |descs[0]| == 18 && descs[0][1] == DEVICE
    requires AsksForDevice(e, languageId) && 18 <= e.length <= |before| && e.length < 0x1_0000
    ensures var r := Processed(Some(Flatten(descs)), e, Some(before));
            && r.handled && r.bytes.Some? && |r.bytes.value| == |before|
            && WalkAnswer(Flatten(descs), e) == Reply(r.bytes.value[..18]) == Reply(descs[0])
  {
    FastPathAgreesIff(descs, e, languageId, before);
    assert (descs[0] + before[18..])[..18] == descs[0];
  }
}
