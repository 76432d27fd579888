/**
 * From the device on the phone to the GET_DESCRIPTOR answer on the server: print the descriptors,
 * encode and frame the attach request, receive it, attach, and ask.
 */
module EndToEnd {
  import opened Collections
  import opened Wire
  import opened Descriptors
  import opened Userspace
  import opened UserspaceCore
  import opened UserspaceRuns
  import opened UserspaceTable
  import Codec = AttachCodec
  import opened Framing

  /** Everything the server stores, in tree order. */
  function AllDescriptors(d: UsbDevice): seq<seq<byte>> {
    [DeviceDescriptor(d)] + ConfigTree(d)
  }

  // ---------- what each type selects ----------

  function InterfacesOf(ifs: seq<UsbInterface>): seq<seq<byte>> {
    if ifs == [] then [] else InterfacesOf(ifs[..|ifs| - 1]) + [InterfaceDescriptor(ifs[|ifs| - 1])]
  }

  function EndpointsOf(ifs: seq<UsbInterface>): seq<seq<byte>> {
    if ifs == [] then [] else EndpointsOf(ifs[..|ifs| - 1]) + EndpointList(ifs[|ifs| - 1].endpoints)
  }

  /** The descriptors of a type that a tree consists of, by node kind. */
  function Selected(d: UsbDevice, t: byte): seq<seq<byte>> {
    if t == DEVICE then [DeviceDescriptor(d)]
    else if t == CONFIGURATION then [ConfigTree(d)[0]]
    else if t == INTERFACE then InterfacesOf(d.interfaces)
    else if t == ENDPOINT then EndpointsOf(d.interfaces)
    else []
  }

  lemma {:induction false} OfTypeConcat(a: seq<seq<byte>>, b: seq<seq<byte>>, t: byte)
    requires AllWellFormed(a) && AllWellFormed(b)
    ensures AllWellFormed(a + b) && OfType(a + b, t) == OfType(a, t) + OfType(b, t)
    decreases |a|
  {
    if a == [] {
      assert a + b == b;
    } else {
      var rest := a[1..];
      assert AllWellFormed(rest);
      OfTypeConcat(rest, b, t);
      OfTypeStep(a[0], rest, t);
      OfTypeStep(a[0], rest + b, t);
      hide OfType, AllWellFormed;
      assert a == [a[0]] + rest;
      Associative([a[0]], rest, b);
      Associative(if a[0][1] == t then [a[0]] else [], OfType(rest, t), OfType(b, t));
    }
  }

  lemma OfTypeStep(desc: seq<byte>, rest: seq<seq<byte>>, t: byte)
    requires WellFormed(desc) && AllWellFormed(rest)
    ensures AllWellFormed([desc] + rest)
    ensures OfType([desc] + rest, t) == (if desc[1] == t then [desc] else []) + OfType(rest, t)
  {
    var all := [desc] + rest;
    assert all[1..] == rest && all[0] == desc;
    assert forall i :: 1 <= i < |all| ==> all[i] == rest[i - 1];
  }

  lemma OfTypeOne(desc: seq<byte>, t: byte)
    requires WellFormed(desc)
    ensures AllWellFormed([desc]) && OfType([desc], t) == if desc[1] == t then [desc] else []
  {
    assert [desc][1..] == [];
  }

  lemma {:induction false} EndpointsByType(es: seq<UsbEndpoint>, t: byte)
    ensures AllWellFormed(EndpointList(es))
    ensures OfType(EndpointList(es), t) == if t == ENDPOINT then EndpointList(es) else []
  {
    EndpointsWellFormed(es);
    if es != [] {
      var n := |es| - 1;
      EndpointsByType(es[..n], t);
      OfTypeOne(EndpointDescriptor(es[n]), t);
      OfTypeConcat(EndpointList(es[..n]), [EndpointDescriptor(es[n])], t);
    }
  }

  function Block(i: UsbInterface): seq<seq<byte>> { [InterfaceDescriptor(i)] + EndpointList(i.endpoints) }

  lemma BlockByType(i: UsbInterface, t: byte)
    ensures AllWellFormed(Block(i))
    ensures OfType(Block(i), t) ==
            if t == INTERFACE then [InterfaceDescriptor(i)] else if t == ENDPOINT then EndpointList(i.endpoints) else []
  {
    EndpointsByType(i.endpoints, t);
    OfTypeOne(InterfaceDescriptor(i), t);
    OfTypeConcat([InterfaceDescriptor(i)], EndpointList(i.endpoints), t);
    hide OfType;
  }

  lemma {:induction false} TreeByType(ifs: seq<UsbInterface>, t: byte)
    ensures AllWellFormed(InterfaceList(ifs))
    ensures OfType(InterfaceList(ifs), t)
            == if t == INTERFACE then InterfacesOf(ifs) else if t == ENDPOINT then EndpointsOf(ifs) else []
  {
    if ifs != [] {
      hide OfType, AllWellFormed, EndpointList, InterfaceDescriptor;
      var n := |ifs| - 1;
      TreeByType(ifs[..n], t);
      BlockByType(ifs[n], t);
      OfTypeConcat(InterfaceList(ifs[..n]), Block(ifs[n]), t);
      assert InterfaceList(ifs) == InterfaceList(ifs[..n]) + Block(ifs[n]);
    }
  }

  lemma ConfigByType(d: UsbDevice, t: byte)
    ensures AllWellFormed(ConfigTree(d)) && AllWellFormed(InterfaceList(d.interfaces))
    ensures OfType(ConfigTree(d), t)
            == (if t == CONFIGURATION then [ConfigTree(d)[0]] else []) + OfType(InterfaceList(d.interfaces), t)
  {
    var cfg, rest := ConfigTree(d)[0], InterfaceList(d.interfaces);
    TreeWellFormed(d.interfaces);
    OfTypeOne(cfg, t);
    assert ConfigTree(d) == [cfg] + rest;
    hide OfType, AllWellFormed, InterfaceList, ConfigTree;
    OfTypeConcat([cfg], rest, t);
  }

  lemma ByType(d: UsbDevice, t: byte)
    ensures AllWellFormed(AllDescriptors(d)) && OfType(AllDescriptors(d), t) == Selected(d, t)
  {
    var dev := DeviceDescriptor(d);
    OfTypeOne(dev, t);
    assert dev[1] == DEVICE;
    hide OfType, AllWellFormed, InterfaceList, ConfigTree, DeviceDescriptor, InterfacesOf, EndpointsOf;
    ConfigByType(d, t);
    TreeByType(d.interfaces, t);
    OfTypeConcat([dev], ConfigTree(d), t);
    var mine, cfg, rest := OfType([dev], t), OfType(ConfigTree(d), t), OfType(InterfaceList(d.interfaces), t);
    assert mine + [] == mine && [] + cfg == cfg && [] + rest == rest;
  }

  // ---------- what the bytes say, by position ----------

  /** The layout of section 9.6.1 of the USB 2.0 specification, with the constants of the printer. */
  predicate ShowsDevice(r: seq<byte>, d: UsbDevice) {
    && |r| == 18 && r[0] == 18 && r[1] == 1 && r[2] == 0x00 && r[3] == 0x02
    && r[4] == d.deviceClass % 256 && r[5] == d.subClass % 256 && r[6] == d.protocol % 256 && r[7] == 64
    && Get16(r, 8) == d.vendorId % 0x1_0000 && Get16(r, 10) == d.productId % 0x1_0000
    && r[12] == 0x00 && r[13] == 0x01 && r[14] == 1 && r[15] == 2 && r[16] == 3
    && r[17] == d.configurationCount % 256
  }

  /** Section 9.6.3 of the USB 2.0 specification: the length of the whole configuration, and how many interfaces it has. */
  predicate ShowsConfiguration(r: seq<byte>, d: UsbDevice) {
    && |r| == 9 && r[0] == 9 && r[1] == 2
    && Get16(r, 2) == (9 + 9 * |d.interfaces| + 7 * |AllEndpoints(d.interfaces)|) % 0x1_0000
    && r[4] == |d.interfaces| % 256 && r[5] == 1 && r[6] == 0 && r[7] == 0x80 && r[8] == 250
  }

  /** Section 9.6.5 of the USB 2.0 specification. */
  predicate ShowsInterface(r: seq<byte>, i: UsbInterface) {
    && |r| == 9 && r[0] == 9 && r[1] == 4 && r[2] == i.id % 256 && r[3] == i.alternate % 256
    && r[4] == |i.endpoints| % 256 && r[5] == i.interfaceClass % 256 && r[6] == i.subClass % 256
    && r[7] == i.protocol % 256 && r[8] == 0
  }

  /** Section 9.6.6 of the USB 2.0 specification. */
  predicate ShowsEndpoint(r: seq<byte>, e: UsbEndpoint) {
    && |r| == 7 && r[0] == 7 && r[1] == 5 && r[2] == e.address % 256 && r[3] == e.kind % 256
    && Get16(r, 4) == e.maxPacketSize % 0x1_0000 && r[6] == e.interval % 256
  }

  /** The endpoints of a tree, interface by interface. */
  function AllEndpoints(ifs: seq<UsbInterface>): seq<UsbEndpoint> {
    if ifs == [] then [] else AllEndpoints(ifs[..|ifs| - 1]) + ifs[|ifs| - 1].endpoints
  }

  /** How many descriptors of a type a device has. */
  function NodeCount(d: UsbDevice, t: byte): nat {
    if t == 1 || t == 2 then 1
    else if t == 4 then |d.interfaces|
    else if t == 5 then |AllEndpoints(d.interfaces)|
    else 0
  }

  /** The bytes describe the k-th node of the type. */
  predicate Shows(r: seq<byte>, d: UsbDevice, t: byte, k: nat)
    requires k < NodeCount(d, t)
  {
    if t == 1 then ShowsDevice(r, d)
    else if t == 2 then ShowsConfiguration(r, d)
    else if t == 4 then ShowsInterface(r, d.interfaces[k])
    else ShowsEndpoint(r, AllEndpoints(d.interfaces)[k])
  }

  lemma DeviceShows(d: UsbDevice)
    ensures ShowsDevice(DeviceDescriptor(d), d)
  {
    var r := DeviceDescriptor(d);
    assert r[8..10] == U16(d.vendorId) && r[10..12] == U16(d.productId);
    Read16(r, 8, d.vendorId);
    Read16(r, 10, d.productId);
  }

  lemma {:induction false} TreeCounts(ifs: seq<UsbInterface>)
    ensures TreeLength(ifs) == 9 * |ifs| + 7 * |AllEndpoints(ifs)|
  {
    if ifs != [] {
      TreeCounts(ifs[..|ifs| - 1]);
    }
  }

  lemma ConfigurationShows(d: UsbDevice)
    ensures ShowsConfiguration(ConfigTree(d)[0], d)
  {
    TreeCounts(d.interfaces);
    var r, total := ConfigTree(d)[0], 9 + TreeLength(d.interfaces);
    assert r[2..4] == U16(total);
    Read16(r, 2, total);
  }

  lemma EndpointShows(e: UsbEndpoint)
    ensures ShowsEndpoint(EndpointDescriptor(e), e)
  {
    var r := EndpointDescriptor(e);
    assert r[4..6] == U16(e.maxPacketSize);
    Read16(r, 4, e.maxPacketSize);
  }

  lemma {:induction false} InterfacesShow(ifs: seq<UsbInterface>)
    ensures |InterfacesOf(ifs)| == |ifs|
    ensures forall k :: 0 <= k < |ifs| ==> ShowsInterface(InterfacesOf(ifs)[k], ifs[k])
  {
    if ifs != [] {
      InterfacesShow(ifs[..|ifs| - 1]);
    }
  }

  lemma {:induction false} EndpointListShows(es: seq<UsbEndpoint>)
    ensures |EndpointList(es)| == |es|
    ensures forall k :: 0 <= k < |es| ==> ShowsEndpoint(EndpointList(es)[k], es[k])
  {
    if es != [] {
      EndpointListShows(es[..|es| - 1]);
      EndpointShows(es[|es| - 1]);
      hide ShowsEndpoint, EndpointDescriptor;
    }
  }

  lemma {:induction false} EndpointsShow(ifs: seq<UsbInterface>)
    ensures |EndpointsOf(ifs)| == |AllEndpoints(ifs)|
    ensures forall k :: 0 <= k < |EndpointsOf(ifs)| ==> ShowsEndpoint(EndpointsOf(ifs)[k], AllEndpoints(ifs)[k])
  {
    if ifs != [] {
      hide ShowsEndpoint, EndpointDescriptor, EndpointList;
      EndpointsShow(ifs[..|ifs| - 1]);
      EndpointListShows(ifs[|ifs| - 1].endpoints);
    }
  }

  /** Read by position, the k-th selected descriptor of a type describes the k-th node of that type in tree order. */
  lemma SelectedShows(d: UsbDevice, t: byte)
    ensures |Selected(d, t)| == NodeCount(d, t)
    ensures forall k :: 0 <= k < NodeCount(d, t) ==> Shows(Selected(d, t)[k], d, t, k)
  {
    hide ShowsDevice, ShowsConfiguration, ShowsInterface, ShowsEndpoint, InterfacesOf, EndpointsOf, AllEndpoints,
      DeviceDescriptor, ConfigTree;
    DeviceShows(d);
    ConfigurationShows(d);
    InterfacesShow(d.interfaces);
    EndpointsShow(d.interfaces);
  }

  // ---------- the theorem ----------

  /** The client's record carries the printed descriptors. */
  predicate Carries(i: Codec.ClientInfo, d: UsbDevice) {
    i.deviceDescriptor == DeviceDescriptor(d) && i.configDescriptor == Flatten(ConfigTree(d))
  }

  lemma CarriedBytes(i: Codec.ClientInfo, d: UsbDevice)
    requires Carries(i, d)
    ensures Codec.Descriptors(i) == Flatten(AllDescriptors(d))
  {
    assert AllDescriptors(d)[1..] == ConfigTree(d);
  }

  /** The attach handler stores exactly the descriptors that were printed, for the client that sent them. */
  lemma AttachStores(s: Server, h: Handle, i: Codec.ClientInfo, beyond: seq<byte>)
    requires Table(s) && s.nextDeviceId + 1 < WORD && Live(s, h) && FreeSlot(s.devices) < |s.devices|
    requires |Codec.Payload(i)| <= MAX_PAYLOAD
    ensures PayloadReadable(Codec.Payload(i), beyond)
    ensures var r := Attach(s, h, Codec.Payload(i), beyond);
            var id := s.nextDeviceId + 1;
            && r.reply == Created(id)
            && var slot := Lookup(r.s.devices, id);
               && slot < |r.s.devices|
               && r.s.devices[slot] == NewDevice(id, h, i.id % WORD, Codec.CInfo(i), Codec.Descriptors(i))
  {
    var payload := Codec.Payload(i);
    Codec.CReaderRecovers(i);
    var end := INFO_SIZE + 4 + |Codec.Descriptors(i)|;
    assert (payload + beyond)[INFO_SIZE + 4..end] == payload[INFO_SIZE + 4..];
    AttachShape(s, h, Codec.CInfo(i), Codec.Descriptors(i));
    var r := Attach(s, h, payload, beyond);
    LookupIs(r.s.devices, s.nextDeviceId + 1, FreeSlot(s.devices));
  }

  /**
   * End to end: for every device tree whose attach request fits in one packet, what the server
   * receives is that request, and after attaching it GET_DESCRIPTOR(t, k) answers with exactly the
   * k-th descriptor of that type in tree order, cut to wLength, or fails when there are not that many.
   */
  lemma DescriptorsArrive(s: Server, h: Handle, d: UsbDevice, i: Codec.ClientInfo, sequence: nat,
                          later: seq<byte>, beyond: seq<byte>, t: byte, k: byte, wLength: nat)
    requires Table(s) && s.nextDeviceId + 1 < WORD && Live(s, h) && FreeSlot(s.devices) < |s.devices|
    requires Carries(i, d) && |Codec.Payload(i)| <= MAX_PAYLOAD && sequence < WORD && wLength < 0x1_0000
    ensures var sent := Frame(CMD_DEVICE_ATTACH, sequence, Codec.Payload(i));
            var received := Receive(EncodeFrame(sent) + later).frames;
            && |received| > 0 && received[0] == sent && PayloadReadable(received[0].payload, beyond)
            && var r := Attach(s, h, received[0].payload, beyond);
               && r.reply.Created?
               && var slot := Lookup(r.s.devices, r.reply.id);
                  && slot < |r.s.devices|
                  && Walk(r.s.devices[slot].descriptors, 0, t, k, wLength) == Nth(Selected(d, t), k, wLength)
  {
    hide Attach, Receive, EncodeFrame, Walk, OfType, Selected, Flatten, Lookup, AllDescriptors, Codec.Payload,
      Codec.Descriptors;
    FirstFrame(Frame(CMD_DEVICE_ATTACH, sequence, Codec.Payload(i)), later);
    AttachStores(s, h, i, beyond);
    CarriedBytes(i, d);
    ByType(d, t);
    WalkIsNth([], AllDescriptors(d), t, k, wLength);
    assert [] + Flatten(AllDescriptors(d)) == Flatten(AllDescriptors(d));
  }

  /** The first wLength bytes, or all, of a descriptor that describes the k-th node; NotFound without such a node. */
  ghost predicate Describes(answer: Answer, d: UsbDevice, t: byte, k: nat, wLength: nat) {
    if k < NodeCount(d, t) then
      exists full: seq<byte> :: Shows(full, d, t, k) && answer == Reply(if |full| <= wLength then full else full[..wLength])
    else answer == NotFound
  }

  /**
   * What the host sees, without the printer: byte by byte, GET_DESCRIPTOR(t, k) on the attached device
   * describes the k-th node of type t of the device on the phone.
   */
  lemma HostSees(s: Server, h: Handle, d: UsbDevice, i: Codec.ClientInfo, beyond: seq<byte>, t: byte, k: byte, wLength: nat)
    requires Table(s) && s.nextDeviceId + 1 < WORD && Live(s, h) && FreeSlot(s.devices) < |s.devices|
    requires Carries(i, d) && |Codec.Payload(i)| <= MAX_PAYLOAD && wLength < 0x1_0000
    ensures PayloadReadable(Codec.Payload(i), beyond)
    ensures var r := Attach(s, h, Codec.Payload(i), beyond);
            && r.reply.Created?
            && var slot := Lookup(r.s.devices, r.reply.id);
               && slot < |r.s.devices|
               && Describes(Walk(r.s.devices[slot].descriptors, 0, t, k, wLength), d, t, k, wLength)
  {
    hide Receive, EncodeFrame, Attach, Walk, Lookup, Carries, Table, Live;
    DescriptorsArrive(s, h, d, i, 0, [], beyond, t, k, wLength);
    FirstFrame(Frame(CMD_DEVICE_ATTACH, 0, Codec.Payload(i)), []);
    hide *;
    SelectedDescribes(d, t, k, wLength);
  }

  lemma SelectedDescribes(d: UsbDevice, t: byte, k: nat, wLength: nat)
    ensures Describes(Nth(Selected(d, t), k, wLength), d, t, k, wLength)
  {
    SelectedShows(d, t);
    hide Shows, Selected, NodeCount;
    if k < NodeCount(d, t) {
      var full := Selected(d, t)[k];
      assert Shows(full, d, t, k);
      assert full[..|full|] == full;
    }
  }
}
