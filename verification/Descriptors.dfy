/**
 * USB descriptors: the printer of UsbDeviceManager.kt and the GET_DESCRIPTOR offset walk of
 * userspace/vusb_userspace.c. Layouts follow sections 9.6.1, 9.6.3, 9.6.5 and 9.6.6 of the USB 2.0
 * specification.
 */
module Descriptors {
  import opened Collections
  import opened Wire

  const DEVICE: byte := 1
  const CONFIGURATION: byte := 2
  const INTERFACE: byte := 4
  const ENDPOINT: byte := 5

  // ---------- the tree and its descriptors ----------

  /** android.hardware.usb values: Kotlin Ints of any size; the printer cuts them to bytes. */
  datatype UsbEndpoint = UsbEndpoint(address: int, kind: int, maxPacketSize: int, interval: int)

  datatype UsbInterface = UsbInterface(
    id: int, alternate: int, interfaceClass: int, subClass: int, protocol: int, endpoints: seq<UsbEndpoint>)

  datatype UsbDevice = UsbDevice(
    vendorId: int, productId: int, deviceClass: int, subClass: int, protocol: int,
    configurationCount: int, interfaces: seq<UsbInterface>)

  /** buildDeviceDescriptor */
  function DeviceDescriptor(d: UsbDevice): (r: seq<byte>)
    ensures |r| == 18
  {
    [18, DEVICE, 0, 2, Low8(d.deviceClass), Low8(d.subClass), Low8(d.protocol), 64]
    + U16(d.vendorId) + U16(d.productId) + [0, 1, 1, 2, 3, Low8(d.configurationCount)]
  }

  function ConfigHeader(d: UsbDevice, total: int): (r: seq<byte>)
    ensures |r| == 9
  {
    [9, CONFIGURATION] + U16(total) + [Low8(|d.interfaces|), 1, 0, 0x80, 250]
  }

  function InterfaceDescriptor(i: UsbInterface): (r: seq<byte>)
    ensures |r| == 9
  {
    [9, INTERFACE, Low8(i.id), Low8(i.alternate), Low8(|i.endpoints|),
     Low8(i.interfaceClass), Low8(i.subClass), Low8(i.protocol), 0]
  }

  function EndpointDescriptor(e: UsbEndpoint): (r: seq<byte>)
    ensures |r| == 7
  {
    [7, ENDPOINT, Low8(e.address), Low8(e.kind)] + U16(e.maxPacketSize) + [Low8(e.interval)]
  }

  function EndpointList(es: seq<UsbEndpoint>): seq<seq<byte>> {
    if es == [] then [] else EndpointList(es[..|es| - 1]) + [EndpointDescriptor(es[|es| - 1])]
  }

  function InterfaceList(ifs: seq<UsbInterface>): seq<seq<byte>> {
    if ifs == [] then []
    else
      var i := ifs[|ifs| - 1];
      InterfaceList(ifs[..|ifs| - 1]) + ([InterfaceDescriptor(i)] + EndpointList(i.endpoints))
  }

  /** The length of the whole configuration, by counting nodes. */
  function TreeLength(ifs: seq<UsbInterface>): nat {
    if ifs == [] then 0 else TreeLength(ifs[..|ifs| - 1]) + 9 + 7 * |ifs[|ifs| - 1].endpoints|
  }

  /** The configuration in tree order: header, then each interface with its endpoints. */
  function ConfigTree(d: UsbDevice): seq<seq<byte>> {
    [ConfigHeader(d, 9 + TreeLength(d.interfaces))] + InterfaceList(d.interfaces)
  }

  /** buildConfigDescriptor, first pass: 9 bytes per interface and 7 per endpoint. */
  method ConfigLength(d: UsbDevice) returns (totalLength: nat)
    ensures totalLength == |Flatten(ConfigTree(d))|
  {
    totalLength := 9;
    var i := 0;
    while i < |d.interfaces|
      invariant i <= |d.interfaces| && totalLength == 9 + TreeLength(d.interfaces[..i])
    {
      totalLength := totalLength + 9;
      var j := 0;
      while j < |d.interfaces[i].endpoints|
        invariant j <= |d.interfaces[i].endpoints|
        invariant totalLength == 9 + TreeLength(d.interfaces[..i]) + 9 + 7 * j
      {
        totalLength := totalLength + 7;
        j := j + 1;
      }
      assert d.interfaces[..i + 1][..i] == d.interfaces[..i];
      i := i + 1;
    }
    assert d.interfaces[..i] == d.interfaces;
    ConfigTreeBytes(d);
  }

  /** The inner loop of the second pass. */
  method AppendEndpoints(es: seq<UsbEndpoint>, before: seq<byte>) returns (bytes: seq<byte>)
    ensures bytes == before + Flatten(EndpointList(es))
  {
    bytes := before;
    var j := 0;
    while j < |es|
      invariant j <= |es| && bytes == before + Flatten(EndpointList(es[..j]))
    {
      assert es[..j + 1][..j] == es[..j];
      FlattenSnoc(EndpointList(es[..j]), EndpointDescriptor(es[j]));
      bytes := bytes + EndpointDescriptor(es[j]);
      j := j + 1;
    }
    assert es[..j] == es;
  }

  /** The outer loop of the second pass. */
  method AppendInterfaces(ifs: seq<UsbInterface>, before: seq<byte>) returns (bytes: seq<byte>)
    ensures bytes == before + Flatten(InterfaceList(ifs))
  {
    bytes := before;
    var i := 0;
    while i < |ifs|
      invariant i <= |ifs| && bytes == before + Flatten(InterfaceList(ifs[..i]))
    {
      InterfaceStep(ifs, i);
      bytes := AppendEndpoints(ifs[i].endpoints, bytes + InterfaceDescriptor(ifs[i]));
      i := i + 1;
    }
    assert ifs[..i] == ifs;
  }

  /** buildConfigDescriptor: wTotalLength is the length of the output, in its sixteen bits. */
  method BuildConfigDescriptor(d: UsbDevice) returns (bytes: seq<byte>)
    ensures bytes == Flatten(ConfigTree(d))
    ensures |bytes| >= 9 && Get16(bytes, 2) == |bytes| % 0x1_0000
  {
    var totalLength := ConfigLength(d);
    ConfigTreeBytes(d);
    bytes := AppendInterfaces(d.interfaces, ConfigHeader(d, totalLength));
    assert ConfigTree(d)[1..] == InterfaceList(d.interfaces);
    assert bytes[2..4] == U16(totalLength);
    Read16(bytes, 2, totalLength);
  }

  lemma ConfigTreeBytes(d: UsbDevice)
    ensures |Flatten(ConfigTree(d))| == 9 + TreeLength(d.interfaces)
    ensures ConfigTree(d)[0] == ConfigHeader(d, |Flatten(ConfigTree(d))|)
  {
    assert ConfigTree(d)[1..] == InterfaceList(d.interfaces);
    TreeBytes(d.interfaces);
  }

  lemma FlattenSnoc<T>(parts: seq<seq<T>>, last: seq<T>)
    ensures Flatten(parts + [last]) == Flatten(parts) + last
  {
    FlattenConcat(parts, [last]);
    assert [last][1..] == [];
  }

  lemma InterfaceStep(ifs: seq<UsbInterface>, i: nat)
    requires i < |ifs|
    ensures Flatten(InterfaceList(ifs[..i + 1]))
            == Flatten(InterfaceList(ifs[..i])) + InterfaceDescriptor(ifs[i]) + Flatten(EndpointList(ifs[i].endpoints))
  {
    assert ifs[..i + 1][..i] == ifs[..i];
    var block := [InterfaceDescriptor(ifs[i])] + EndpointList(ifs[i].endpoints);
    FlattenConcat(InterfaceList(ifs[..i]), block);
    assert block[1..] == EndpointList(ifs[i].endpoints);
  }

  lemma {:induction false} EndpointBytes(es: seq<UsbEndpoint>)
    ensures |Flatten(EndpointList(es))| == 7 * |es|
  {
    if es != [] {
      EndpointBytes(es[..|es| - 1]);
      FlattenSnoc(EndpointList(es[..|es| - 1]), EndpointDescriptor(es[|es| - 1]));
    }
  }

  lemma {:induction false} TreeBytes(ifs: seq<UsbInterface>)
    ensures |Flatten(InterfaceList(ifs))| == TreeLength(ifs)
  {
    if ifs != [] {
      var n := |ifs| - 1;
      TreeBytes(ifs[..n]);
      InterfaceStep(ifs, n);
      assert ifs[..n + 1] == ifs;
      EndpointBytes(ifs[n].endpoints);
    }
  }

  // ---------- well-formed descriptor lists ----------

  /** bLength is the length and leaves room for bDescriptorType. */
  predicate WellFormed(desc: seq<byte>) {
    2 <= |desc| <= 255 && desc[0] == |desc|
  }

  predicate AllWellFormed(descs: seq<seq<byte>>) {
    forall i :: 0 <= i < |descs| ==> WellFormed(descs[i])
  }

  lemma {:induction false} EndpointsWellFormed(es: seq<UsbEndpoint>)
    ensures AllWellFormed(EndpointList(es))
  {
    if es != [] {
      EndpointsWellFormed(es[..|es| - 1]);
    }
  }

  lemma {:induction false} TreeWellFormed(ifs: seq<UsbInterface>)
    ensures AllWellFormed(InterfaceList(ifs))
  {
    if ifs != [] {
      var i := ifs[|ifs| - 1];
      TreeWellFormed(ifs[..|ifs| - 1]);
      EndpointsWellFormed(i.endpoints);
    }
  }

  // ---------- GET_DESCRIPTOR ----------

  datatype Answer = Reply(bytes: seq<byte>) | NotFound | OutsideRead

  /** The descriptors of a type, in order: the reference for the walk. */
  function OfType(descs: seq<seq<byte>>, descType: byte): seq<seq<byte>>
    requires AllWellFormed(descs)
  {
    if descs == [] then []
    else
      assert WellFormed(descs[0]);
      assert forall i :: 0 <= i < |descs[1..]| ==> descs[1..][i] == descs[i + 1];
      (if descs[0][1] == descType then [descs[0]] else []) + OfType(descs[1..], descType)
  }

  function Nth(descs: seq<seq<byte>>, index: nat, wLength: nat): Answer {
    if index < |descs| then Reply(descs[index][..Min(|descs[index]|, wLength)]) else NotFound
  }

  /** The offset walk from a given offset, with every read outside the blob reported. */
  function Walk(blob: seq<byte>, offset: nat, descType: byte, index: nat, wLength: nat): Answer
    decreases |blob| - offset
  {
    if offset >= |blob| then NotFound
    else if offset + 1 >= |blob| then OutsideRead
    else
      var len := blob[offset] as nat;
      if len == 0 then NotFound
      else if blob[offset + 1] == descType && index == 0 then
        var copyLen := Min(len, wLength);
        if offset + copyLen > |blob| then OutsideRead else Reply(blob[offset..offset + copyLen])
      else Walk(blob, offset + len, descType, if blob[offset + 1] == descType then index - 1 else index, wLength)
  }

  /** HandleStandardRequest, case GET_DESCRIPTOR; wValue carries the type and the index. */
  method GetDescriptor(blob: seq<byte>, wValue: nat, wLength: nat) returns (r: Answer)
    requires wValue < 0x1_0000 && wLength < 0x1_0000
    ensures r == Walk(blob, 0, Low8(wValue / 256), Low8(wValue), wLength)
  {
    var descType := Low8(wValue / 256);
    var descIndex: nat := Low8(wValue);
    var offset := 0;
    while offset < |blob|
      invariant Walk(blob, offset, descType, descIndex, wLength) == Walk(blob, 0, descType, Low8(wValue), wLength)
      decreases |blob| - offset
    {
      if offset + 1 >= |blob| {
        return OutsideRead;
      }
      var len: nat, kind := blob[offset], blob[offset + 1];
      if len == 0 {
        break;
      }
      if kind == descType {
        if descIndex == 0 {
          var copyLen := len;
          if copyLen > wLength {
            copyLen := wLength;
          }
          if offset + copyLen > |blob| {
            return OutsideRead;
          }
          return Reply(blob[offset..offset + copyLen]);
        }
        descIndex := descIndex - 1;
      }
      offset := offset + len;
    }
    return NotFound;
  }

  /** The walk refines "filter by type, take the index-th, cut to wLength"; it stays inside the blob. */
  lemma {:induction false} WalkIsNth(before: seq<byte>, descs: seq<seq<byte>>, descType: byte, index: nat, wLength: nat)
    requires AllWellFormed(descs)
    ensures Walk(before + Flatten(descs), |before|, descType, index, wLength) == Nth(OfType(descs, descType), index, wLength)
    decreases |descs|
  {
    var blob := before + Flatten(descs);
    if descs == [] {
      assert blob == before;
    } else {
      var d, rest := descs[0], descs[1..];
      assert WellFormed(d) && AllWellFormed(rest);
      Associative(before, d, Flatten(rest));
      assert Flatten(descs) == d + Flatten(rest);
      hide Flatten;
      assert blob[|before|] == d[0] && blob[|before| + 1] == d[1];
      var hit := d[1] == descType;
      if hit && index == 0 {
        var n := Min(|d|, wLength);
        assert blob[|before|..|before| + n] == d[..n];
      } else {
        var next := if hit then index - 1 else index;
        assert Walk(blob, |before|, descType, index, wLength) == Walk(blob, |before + d|, descType, next, wLength);
        assert Nth(OfType(descs, descType), index, wLength) == Nth(OfType(rest, descType), next, wLength);
        hide Walk, OfType, Nth;
        WalkIsNth(before + d, rest, descType, next, wLength);
      }
    }
  }

  // ---------- blobs that are not descriptor lists ----------

  /** The type bytes of the sound descriptors from an offset on: nonzero length, ending inside the blob. */
  function Passed(blob: seq<byte>, offset: nat): seq<byte>
    decreases |blob| - offset
  {
    if offset + 1 >= |blob| || blob[offset] == 0 || offset + blob[offset] as nat > |blob| then []
    else [blob[offset + 1]] + Passed(blob, offset + blob[offset] as nat)
  }

  /** Where they stop. */
  function StopAt(blob: seq<byte>, offset: nat): (r: nat)
    requires offset <= |blob|
    ensures offset <= r <= |blob|
    ensures r + 1 < |blob| && blob[r] != 0 ==> r + blob[r] as nat > |blob|
    decreases |blob| - offset
  {
    if offset + 1 >= |blob| || blob[offset] == 0 || offset + blob[offset] as nat > |blob| then offset
    else StopAt(blob, offset + blob[offset] as nat)
  }

  function Count(types: seq<byte>, t: byte): (n: nat)
    ensures n <= |types|
  {
    if types == [] then 0 else (if types[0] == t then 1 else 0) + Count(types[1..], t)
  }

  /**
   * Exactly which requests make the walk read outside: no sound descriptor answers them, and the walk ends
   * at a length byte without a type byte, or at the very descriptor asked for with more to copy than is left.
   */
  lemma {:induction false} OutsideReadIff(blob: seq<byte>, offset: nat, t: byte, index: nat, wLength: nat)
    requires offset <= |blob|
    ensures var stop, n := StopAt(blob, offset), Count(Passed(blob, offset), t);
            Walk(blob, offset, t, index, wLength) == OutsideRead <==>
            n <= index &&
            (stop + 1 == |blob| ||
             (stop + 1 < |blob| && blob[stop] != 0 && blob[stop + 1] == t && n == index
              && stop + Min(blob[stop], wLength) > |blob|))
    decreases |blob| - offset
  {
    if offset + 1 >= |blob| || blob[offset] == 0 {
    } else if offset + blob[offset] as nat > |blob| {
      assert Walk(blob, offset + blob[offset] as nat, t, index, wLength) == NotFound;
    } else {
      var next, hit := offset + blob[offset] as nat, blob[offset + 1] == t;
      PassedOne(blob, offset, t);
      assert StopAt(blob, offset) == StopAt(blob, next);
      if !(hit && index == 0) {
        assert Walk(blob, offset, t, index, wLength) == Walk(blob, next, t, if hit then index - 1 else index, wLength);
        hide Walk, StopAt, Passed, Count;
        OutsideReadIff(blob, next, t, if hit then index - 1 else index, wLength);
      }
    }
  }

  lemma PassedOne(blob: seq<byte>, offset: nat, t: byte)
    requires offset + 1 < |blob| && blob[offset] != 0 && offset + blob[offset] as nat <= |blob|
    ensures Count(Passed(blob, offset), t)
            == (if blob[offset + 1] == t then 1 else 0) + Count(Passed(blob, offset + blob[offset] as nat), t)
  {
    var rest := Passed(blob, offset + blob[offset] as nat);
    assert ([blob[offset + 1]] + rest)[1..] == rest;
  }

  /**
   * What a caller can check before storing a blob: the lengths lead to its end or to a zero length with a
   * byte behind it; or so many sound descriptors come first that an index of one byte cannot get past
   * them, 256 of the broken descriptor's type, or 256 of every type when a length byte stands alone.
   */
  predicate SafeBlob(blob: seq<byte>) {
    var stop, types := StopAt(blob, 0), Passed(blob, 0);
    if stop == |blob| then true
    else if stop + 1 == |blob| then forall t: byte :: Count(types, t) >= 256
    else blob[stop] == 0 || Count(types, blob[stop + 1]) >= 256
  }

  /** No GET_DESCRIPTOR request, one byte of type and index and two of length, reads outside iff the blob is safe. */
  lemma WalkStaysInsideIff(blob: seq<byte>)
    ensures (forall t: byte, index: byte, wLength: nat | wLength < 0x1_0000 ::
               Walk(blob, 0, t, index, wLength) != OutsideRead)
            <==> SafeBlob(blob)
  {
    var stop, types := StopAt(blob, 0), Passed(blob, 0);
    if SafeBlob(blob) {
      forall t: byte, index: byte, wLength: nat | wLength < 0x1_0000
        ensures Walk(blob, 0, t, index, wLength) != OutsideRead
      {
        OutsideReadIff(blob, 0, t, index, wLength);
      }
    } else {
      var t := FewPassed(blob);
      OutsideReadIff(blob, 0, t, Count(types, t), 255);
      var index: byte := Count(types, t);
      assert Walk(blob, 0, t, index, 255) == OutsideRead;
    }
  }

  /** In an unsafe blob, the type of a request that reads outside. */
  lemma FewPassed(blob: seq<byte>) returns (t: byte)
    requires !SafeBlob(blob)
    ensures Count(Passed(blob, 0), t) < 256
    ensures var stop := StopAt(blob, 0);
            stop + 1 == |blob| || (stop + 1 < |blob| && blob[stop] != 0 && blob[stop + 1] == t)
  {
    var stop := StopAt(blob, 0);
    if stop + 1 == |blob| {
      t :| Count(Passed(blob, 0), t) < 256;
    } else {
      t := blob[stop + 1];
    }
  }

  /** The index byte matters: 256 sound descriptors of a type shield a broken one behind them. */
  lemma {:induction false} ShieldedBlobIsSafe(sound: seq<seq<byte>>)
    requires |sound| >= 256 && forall i :: 0 <= i < |sound| ==> sound[i] == [2, ENDPOINT]
    ensures SafeBlob(Flatten(sound) + [9, ENDPOINT])
  {
    Shield([], sound, [9, ENDPOINT]);
    assert [] + Flatten(sound) + [9, ENDPOINT] == Flatten(sound) + [9, ENDPOINT];
  }

  lemma {:induction false} Shield(before: seq<byte>, sound: seq<seq<byte>>, tail: seq<byte>)
    requires forall i :: 0 <= i < |sound| ==> sound[i] == [2, ENDPOINT]
    requires tail == [9, ENDPOINT]
    ensures var blob := before + Flatten(sound) + tail;
            && Count(Passed(blob, |before|), ENDPOINT) == |sound|
            && StopAt(blob, |before|) == |before| + 2 * |sound| == |blob| - 2
    decreases |sound|
  {
    var blob := before + Flatten(sound) + tail;
    if sound == [] {
      assert blob == before + tail;
    } else {
      assert blob == (before + sound[0]) + Flatten(sound[1..]) + tail;
      assert blob[|before|] == 2 && blob[|before| + 1] == ENDPOINT;
      Shield(before + sound[0], sound[1..], tail);
      var rest := Passed(blob, |before| + 2);
      assert ([blob[|before| + 1]] + rest)[1..] == rest;
    }
  }
}
