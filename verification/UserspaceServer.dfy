/**
 * userspace/vusb_userspace.c in its own form: a fixed array of device structs with heap-linked
 * pending lists, a fixed array of client pointers with id arrays, and counters, all updated in
 * place. Every method is proved to take the step of the state machine in module Userspace.
 */
module UserspaceServer {
  import opened Collections
  import opened Wire
  import opened Pending
  import opened Userspace
  import opened Framing
  import opened UserspaceCore
  import opened UserspaceRuns
  import opened UserspaceTransfers

  datatype Completion = Completion(device: Device, record: Option<Urb>)

  /** One device after a completion, and the finished record: the first pending one with the id, if any. */
  function CompletedOn(d: Device, urbId: nat, status: nat, data: Option<seq<byte>>, length: nat): (r: Completion)
    requires data.Some? ==> |data.value| >= length
    ensures r.record.Some? <==> HasId(d.pending, urbId)
    ensures r.record.Some? ==>
              r.record.value.id == urbId && r.record.value.data.completed && r.record.value.data.status == status
  {
    var k := Position(d.pending, urbId);
    if k == |d.pending| then Completion(d, None)
    else
      Completion(CompleteOn(d, urbId, length),
                 Some(Entry(urbId, CompleteTransfer(d.pending[k].data, status, data, length))))
  }

  lemma CompletedIs(d: Device, urbId: nat, status: nat, data: Option<seq<byte>>, length: nat)
    requires data.Some? ==> |data.value| >= length
    ensures var k := Position(d.pending, urbId);
            CompletedOn(d, urbId, status, data, length) ==
            if k == |d.pending| then Completion(d, None)
            else
              var t := d.pending[k].data;
              Completion(
                d.(pending := Remove(d.pending, k), pendingCount := d.pendingCount - 1, completed := d.completed + 1,
                   bytesIn := d.bytesIn + (if t.direction.In? then length else 0),
                   bytesOut := d.bytesOut + (if t.direction.In? then 0 else length)),
                Some(Entry(urbId, CompleteTransfer(t, status, data, length))))
  {
  }

  /** The record behind a possibly null pointer. */
  ghost function Record(urb: Node?<Transfer>): Option<Urb>
    reads if urb == null then {} else {urb}
  {
    if urb == null then None else Some(urb.entry)
  }

  /** VUSB_US_DEVICE */
  class DeviceSlot {
    var active: bool
    var id: nat
    var remoteId: nat
    var owner: Handle
    var info: DeviceInfo
    var descriptors: seq<byte>
    const urbs: PendingList<Transfer>
    var nextUrbId: nat
    var bytesIn: nat
    var bytesOut: nat
    var submitted: nat
    var completed: nat

    ghost predicate Valid()
      reads this, urbs, urbs.spine
    {
      urbs.Valid()
    }

    ghost function View(): Device
      reads this, urbs
    {
      Device(active, id, remoteId, owner, info, descriptors, urbs.contents, urbs.count, nextUrbId,
             bytesIn, bytesOut, submitted, completed)
    }

    constructor ()
      ensures Valid() && View() == EMPTY_SLOT && fresh(urbs) && urbs.spine == []
    {
      active, id, remoteId, owner, info, descriptors := false, 0, 0, 0, NO_INFO, [];
      nextUrbId, bytesIn, bytesOut, submitted, completed := 0, 0, 0, 0, 0;
      urbs := new PendingList<Transfer>();
    }

    /** InitializeDevice and the assignments after it. */
    method Initialize(newId: nat, newInfo: DeviceInfo, newDescriptors: seq<byte>)
      requires Valid()
      modifies this, urbs
      ensures Valid() && View() == Fresh(newId, newInfo, newDescriptors) && urbs.spine == []
    {
      urbs.Clear();
      remoteId, owner, nextUrbId := 0, 0, 0;
      bytesIn, bytesOut, submitted, completed := 0, 0, 0, 0;
      active, id := true, newId;
      info, descriptors := newInfo.(id := newId), newDescriptors;
    }

    /** CleanupDevice */
    method CleanUp()
      requires Valid()
      modifies this, urbs
      ensures Valid() && View() == Cleanup(old(View())) && urbs.spine == []
    {
      urbs.Clear();
      descriptors := [];
      active := false;
    }

    /** The assignments of the attach handler. */
    method SetOwner(handle: Handle, remote: nat)
      requires Valid()
      modifies `owner, `remoteId
      ensures Valid() && View() == Owned(old(View()), handle, remote) && urbs.spine == old(urbs.spine)
    {
      owner, remoteId := handle, remote;
    }

    /** The locked part of VusbUsSubmitUrb; the caller's record is not on a list yet. */
    method Submit(n: Node<Transfer>)
      requires Valid() && n.list == null
      modifies this, urbs, n
      ensures Valid() && View() == SubmitTo(old(View()), old(n.entry.data))
      ensures urbs.spine == [n] + old(urbs.spine) && n.entry == View().pending[0]
      ensures n.entry.id == NextWord(old(nextUrbId)) && Waiting(old(n.entry.data), n.entry.data)
    {
      nextUrbId := NextWord(nextUrbId);
      n.entry := Entry(nextUrbId, n.entry.data.(completed := false));
      urbs.Prepend(n);
      submitted := submitted + 1;
    }

    /** The locked part of VusbUsCompleteUrb: find the link, fill in the record, count, unlink. */
    method Complete(urbId: nat, status: nat, data: Option<seq<byte>>, length: nat) returns (urb: Node?<Transfer>)
      requires Valid() && (data.Some? ==> |data.value| >= length)
      modifies this, urbs, urbs.spine
      ensures Valid()
      ensures Completion(View(), Record(urb)) == CompletedOn(old(View()), urbId, status, data, length)
      ensures forall n :: n in urbs.spine ==> n in old(urbs.spine)
    {
      hide CompletedOn, CompleteTransfer, Remove, Position;
      CompletedIs(View(), urbId, status, data, length);
      urb := urbs.Finish(urbId, t => CompleteTransfer(t, status, data, length));
      if urb == null {
        return;
      }
      if urb.entry.data.direction.In? {
        bytesIn := bytesIn + length;
      } else {
        bytesOut := bytesOut + length;
      }
      completed := completed + 1;
    }
  }

  /** VUSB_US_CLIENT: the address stands for the pointer that OwnerClient fields hold. */
  class ClientRecord {
    const handle: Handle
    const session: nat
    const deviceIds: array<nat>
    var deviceCount: nat

    ghost predicate Valid()
      reads this
    {
      deviceIds.Length == MAX_DEVICES && deviceCount <= MAX_DEVICES
    }

    ghost function View(): Client
      requires Valid()
      reads this, deviceIds
    {
      Client(handle, session, deviceIds[..deviceCount])
    }

    constructor (handle: Handle, session: nat)
      ensures Valid() && fresh(deviceIds) && View() == Client(handle, session, [])
    {
      this.handle, this.session, deviceCount := handle, session, 0;
      deviceIds := new nat[MAX_DEVICES];
    }

    method TrackDevice(id: nat)
      requires Valid()
      modifies this, deviceIds
      ensures Valid() && View() == Track(old(View()), id)
    {
      if deviceCount < MAX_DEVICES {
        deviceIds[deviceCount] := id;
        deviceCount := deviceCount + 1;
      }
    }

    method UntrackDevice(id: nat)
      requires Valid()
      modifies this, deviceIds
      ensures Valid() && View() == Untrack(old(View()), id)
    {
      ghost var ids := deviceIds[..deviceCount];
      var i := 0;
      while i < deviceCount
        invariant i <= deviceCount && deviceCount == old(deviceCount)
        invariant deviceIds[..] == old(deviceIds[..]) && ids == deviceIds[..deviceCount]
        invariant forall j :: 0 <= j < i ==> ids[j] != id
      {
        if deviceIds[i] == id {
          deviceCount := deviceCount - 1;
          deviceIds[i] := deviceIds[deviceCount];
          UntrackAt(old(View()), id, i);
          assert deviceIds[..deviceCount] == SwapRemove(ids, i);
          return;
        }
        i := i + 1;
      }
      UntrackAt(old(View()), id, i);
    }
  }

  lemma UntrackAt(c: Client, id: nat, k: nat)
    requires k <= |c.devices| && (k < |c.devices| ==> c.devices[k] == id)
    requires forall j :: 0 <= j < k ==> c.devices[j] != id
    ensures Untrack(c, id) == if k == |c.devices| then c else c.(devices := SwapRemove(c.devices, k))
  {
  }

  /** A slot object is in order and stands for this device. */
  ghost predicate SlotIs(d: DeviceSlot, v: Device)
    reads d, d.urbs, d.urbs.spine
  {
    d.Valid() && d.View() == v
  }

  method AllocateSlots() returns (slots: seq<DeviceSlot>)
    ensures |slots| == MAX_DEVICES && fresh(slots)
    ensures forall i :: 0 <= i < |slots| ==> fresh(slots[i].urbs) && SlotIs(slots[i], EMPTY_SLOT)
    ensures forall i, j :: 0 <= i < j < |slots| ==> slots[i] != slots[j] && slots[i].urbs != slots[j].urbs
  {
    slots := [];
    while |slots| < MAX_DEVICES
      invariant |slots| <= MAX_DEVICES && fresh(slots)
      invariant forall i :: 0 <= i < |slots| ==>
        fresh(slots[i].urbs) && SlotIs(slots[i], EMPTY_SLOT) && slots[i].urbs.spine == []
      invariant forall i, j :: 0 <= i < j < |slots| ==> slots[i] != slots[j] && slots[i].urbs != slots[j].urbs
    {
      var slot := new DeviceSlot();
      slots := slots + [slot];
    }
  }

  /**
   * VUSB_US_CONTEXT. The device structs lie inline in their array, so the slot objects never change places;
   * `table` and `records` are the values that the slots and the client pointers lead to.
   */
  class Context {
    const devices: seq<DeviceSlot>
    const clients: array<ClientRecord?>
    var nextDeviceId: nat
    var clientCount: int
    var nextSessionId: nat
    var totalUrbs: nat
    var totalBytes: nat
    ghost var table: seq<Device>
    ghost var records: seq<Option<Client>>

    ghost function Lists(): set<PendingList<Transfer>> { set d | d in devices :: d.urbs }

    ghost function Nodes(): set<Node<Transfer>>
      reads Lists()
    {
      set l, n | l in Lists() && n in l.spine :: n
    }

    ghost predicate Apart() {
      && |devices| == MAX_DEVICES
      && forall i, j :: 0 <= i < j < |devices| ==> devices[i] != devices[j] && devices[i].urbs != devices[j].urbs
    }

    ghost predicate SlotsOk()
      reads `table, devices, Lists(), Nodes()
    {
      Apart() && |table| == |devices| && forall i :: 0 <= i < |devices| ==>
        assert devices[i].urbs in Lists() && forall n :: n in devices[i].urbs.spine ==> n in Nodes();
        SlotIs(devices[i], table[i])
    }

    ghost predicate ClientsOk()
      reads `records, clients, clients[..], set j | 0 <= j < clients.Length && clients[j] != null :: clients[j].deviceIds
    {
      && clients.Length == |records| == MAX_CLIENTS
      && (forall j :: 0 <= j < clients.Length ==>
            if clients[j] == null then records[j] == None
            else clients[j].Valid() && records[j] == Some(clients[j].View()))
      && (forall i, j :: 0 <= i < j < clients.Length && clients[i] != null && clients[j] != null ==>
            && clients[i] != clients[j] && clients[i].deviceIds != clients[j].deviceIds
            && clients[i].handle != clients[j].handle)
    }

    ghost function Model(): Server
      reads this
    {
      Server(table, nextDeviceId, records, clientCount, nextSessionId, totalUrbs, totalBytes)
    }

    ghost predicate Valid()
      reads this, devices, Lists(), Nodes()
      reads clients, clients[..], set j | 0 <= j < clients.Length && clients[j] != null :: clients[j].deviceIds
    {
      SlotsOk() && ClientsOk()
    }

    /** VusbUsInit */
    constructor ()
      ensures Valid() && Model() == Initial() && fresh(devices) && fresh(Lists()) && fresh(clients)
    {
      var slots := AllocateSlots();
      devices := slots;
      clients := new ClientRecord?[MAX_CLIENTS](_ => null);
      nextDeviceId, clientCount, nextSessionId, totalUrbs, totalBytes := 0, 0, 0, 0, 0;
      table := seq(MAX_DEVICES, _ => EMPTY_SLOT);
      records := seq(MAX_CLIENTS, _ => None);
    }

    method FindFreeDeviceSlot() returns (i: nat)
      requires SlotsOk()
      ensures i == FreeSlot(table) && i <= |devices| == |table|
    {
      i := 0;
      while i < |devices|
        invariant i <= |devices|
        invariant forall j :: 0 <= j < i ==> table[j].active
      {
        assert SlotIs(devices[i], table[i]);
        if !devices[i].active {
          break;
        }
        i := i + 1;
      }
      FirstIndexIs(table, (d: Device) => !d.active, i);
    }

    method GetDevice(id: nat) returns (i: nat)
      requires SlotsOk()
      ensures i == Lookup(table, id) && i <= |devices| == |table|
    {
      i := 0;
      while i < |devices|
        invariant i <= |devices|
        invariant forall j :: 0 <= j < i ==> !(table[j].active && table[j].id == id)
      {
        assert SlotIs(devices[i], table[i]);
        if devices[i].active && devices[i].id == id {
          break;
        }
        i := i + 1;
      }
      FirstIndexIs(table, (d: Device) => d.active && d.id == id, i);
    }

    /** The locked part, on the slot's list. */
    method SubmitAt(i: nat, n: Node<Transfer>)
      requires SlotsOk() && i < |devices| && n.list == null
      modifies `table, devices[i], devices[i].urbs, n
      ensures SlotsOk()
      ensures table == old(table)[i := SubmitTo(old(table)[i], old(n.entry.data))] && n.entry.id == table[i].nextUrbId
      ensures Waiting(old(n.entry.data), n.entry.data)
    {
      assert SlotIs(devices[i], table[i]);
      devices[i].Submit(n);
      table := table[i := devices[i].View()];
      forall j | 0 <= j < |devices| && j != i
        ensures SlotIs(devices[j], table[j])
      {
        assert old(SlotIs(devices[j], table[j]));
      }
    }

    method SubmitUrb(id: nat, n: Node<Transfer>) returns (ok: bool)
      requires SlotsOk() && n.list == null
      modifies `table, `totalUrbs, devices, Lists(), n
      ensures SlotsOk()
      ensures Submit(old(Model()), id, old(n.entry.data))
              == Result(Model(), if ok then Queued(id, n.entry.id) else Failed(STATUS_ERROR))
      ensures if ok then Waiting(old(n.entry.data), n.entry.data) else n.entry == old(n.entry)
    {
      hide Submit, SubmitTo, SlotIs, Waiting;
      ghost var was, t := Model(), n.entry.data;
      var i := GetDevice(id);
      ok := i < |devices|;
      if ok {
        SubmitAt(i, n);
        totalUrbs := totalUrbs + 1;
      }
      SubmitIs(was, id, t, Model(), ok, n.entry.id);
    }

    lemma SubmitIs(s: Server, id: nat, t: Transfer, s': Server, ok: bool, urbId: nat)
      requires var i := Lookup(s.devices, id);
               && ok == (i < |s.devices|)
               && (ok ==> urbId == SubmitTo(s.devices[i], t).nextUrbId)
               && s' == if ok then s.(devices := s.devices[i := SubmitTo(s.devices[i], t)], totalUrbs := s.totalUrbs + 1) else s
      ensures Submit(s, id, t) == Result(s', if ok then Queued(id, urbId) else Failed(STATUS_ERROR))
    {
    }

    method InitializeAt(i: nat, id: nat, info: DeviceInfo, descriptors: seq<byte>)
      requires SlotsOk() && i < |devices|
      modifies `table, devices[i], devices[i].urbs
      ensures SlotsOk() && table == old(table)[i := Fresh(id, info, descriptors)]
      ensures Nodes() <= old(Nodes())
    {
      assert SlotIs(devices[i], table[i]);
      devices[i].Initialize(id, info, descriptors);
      table := table[i := devices[i].View()];
      forall j | 0 <= j < |devices| && j != i
        ensures SlotIs(devices[j], table[j])
      {
        assert old(SlotIs(devices[j], table[j]));
      }
    }

    method CleanUpAt(i: nat)
      requires SlotsOk() && i < |devices|
      modifies `table, devices[i], devices[i].urbs
      ensures SlotsOk() && table == old(table)[i := Cleanup(old(table)[i])]
      ensures Nodes() <= old(Nodes())
    {
      assert SlotIs(devices[i], table[i]);
      devices[i].CleanUp();
      table := table[i := devices[i].View()];
      forall j | 0 <= j < |devices| && j != i
        ensures SlotIs(devices[j], table[j])
      {
        assert old(SlotIs(devices[j], table[j]));
      }
    }

    method SetOwnerAt(i: nat, handle: Handle, remote: nat)
      requires SlotsOk() && i < |devices|
      modifies `table, devices[i]
      ensures SlotsOk() && table == old(table)[i := Owned(old(table)[i], handle, remote)]
    {
      assert SlotIs(devices[i], table[i]);
      devices[i].SetOwner(handle, remote);
      table := table[i := devices[i].View()];
      forall j | 0 <= j < |devices| && j != i
        ensures SlotIs(devices[j], table[j])
      {
        assert old(SlotIs(devices[j], table[j]));
      }
    }

    lemma SpinesInNodes()
      ensures forall i :: 0 <= i < |devices| ==> devices[i].urbs in Lists()
      ensures forall i, n :: 0 <= i < |devices| && n in devices[i].urbs.spine ==> n in Nodes()
    {
    }

    /** The locked part of VusbUsCompleteUrb, on the slot's list. */
    method CompleteAt(i: nat, urbId: nat, status: nat, data: Option<seq<byte>>, length: nat) returns (urb: Node?<Transfer>)
      requires SlotsOk() && i < |devices| && (data.Some? ==> |data.value| >= length)
      modifies `table, devices[i], devices[i].urbs, devices[i].urbs.spine
      ensures SlotsOk()
      ensures table == old(table)[i := CompletedOn(old(table)[i], urbId, status, data, length).device]
      ensures Record(urb) == CompletedOn(old(table)[i], urbId, status, data, length).record
    {
      hide CompletedOn;
      assert SlotIs(devices[i], table[i]);
      urb := devices[i].Complete(urbId, status, data, length);
      table := table[i := devices[i].View()];
      forall j | 0 <= j < |devices| && j != i
        ensures SlotIs(devices[j], table[j])
      {
        assert old(SlotIs(devices[j], table[j]));
      }
    }

    method CreateDevice(info: DeviceInfo, descriptors: seq<byte>) returns (ok: bool, id: nat)
      requires SlotsOk()
      modifies `table, `nextDeviceId, devices, Lists()
      ensures SlotsOk()
      ensures Create(old(Model()), info, descriptors)
              == Result(Model(), if ok then Created(id) else Failed(STATUS_ERROR))
    {
      var i := FindFreeDeviceSlot();
      if i == |devices| {
        return false, 0;
      }
      nextDeviceId := NextWord(nextDeviceId);
      InitializeAt(i, nextDeviceId, info, descriptors);
      ok, id := true, nextDeviceId;
    }

    method DestroyDevice(id: nat) returns (ok: bool)
      requires SlotsOk()
      modifies `table, devices, Lists()
      ensures SlotsOk()
      ensures Destroy(old(Model()), id) == Result(Model(), if ok then Done else Failed(STATUS_ERROR))
    {
      var i := GetDevice(id);
      if i == |devices| {
        return false;
      }
      CleanUpAt(i);
      ok := true;
    }

    method CompleteUrb(id: nat, urbId: nat, status: nat, data: Option<seq<byte>>, length: nat)
      returns (urb: Node?<Transfer>)
      requires SlotsOk() && (data.Some? ==> |data.value| >= length)
      modifies `table, `totalBytes, devices, Lists(), Nodes()
      ensures SlotsOk()
      ensures Complete(old(Model()), id, urbId, status, data, length)
              == Result(Model(), if urb != null then Finished(id, urb.entry) else Failed(STATUS_ERROR))
    {
      hide Complete, CompletedOn, SlotIs;
      SpinesInNodes();
      ghost var was := Model();
      var i := GetDevice(id);
      if i < |devices| {
        urb := CompleteAt(i, urbId, status, data, length);
        if urb != null {
          totalBytes := totalBytes + length;
        }
      } else {
        urb := null;
      }
      CompleteIs(was, id, urbId, status, data, length, Model(), Record(urb));
    }

    /** VusbUsCancelUrb: a completion with status CANCELED that moves no bytes. */
    method CancelUrb(id: nat, urbId: nat) returns (urb: Node?<Transfer>)
      requires SlotsOk()
      modifies `table, `totalBytes, devices, Lists(), Nodes()
      ensures SlotsOk()
      ensures Complete(old(Model()), id, urbId, STATUS_CANCELED, None, 0)
              == Result(Model(), if urb != null then Finished(id, urb.entry) else Failed(STATUS_ERROR))
      ensures urb != null ==> urb.entry.id == urbId && urb.entry.data.completed && urb.entry.data.status == 5
      ensures totalBytes == old(totalBytes)
    {
      urb := CompleteUrb(id, urbId, STATUS_CANCELED, None, 0);
    }

    /** The search of HandleUrbComplete. */
    method FindRemote(remoteId: nat) returns (i: nat)
      requires SlotsOk()
      ensures i == LookupRemote(table, remoteId) && i <= |devices| == |table|
      ensures i < |table| ==> devices[i].id == table[i].id
    {
      i := 0;
      while i < |devices|
        invariant i <= |devices|
        invariant forall j :: 0 <= j < i ==> !(table[j].active && table[j].remoteId == remoteId)
      {
        assert SlotIs(devices[i], table[i]);
        if devices[i].active && devices[i].remoteId == remoteId {
          break;
        }
        i := i + 1;
      }
      FirstIndexIs(table, (d: Device) => d.active && d.remoteId == remoteId, i);
    }

    /** HandleUrbComplete on a received payload. */
    method HandleUrbComplete(payload: seq<byte>, beyond: seq<byte>)
      requires SlotsOk() && CompletionReadable(payload, beyond)
      modifies `table, `totalBytes, devices, Lists(), Nodes()
      ensures SlotsOk() && Model() == CompletePayload(old(Model()), payload, beyond).s
    {
      hide Complete, Get32, ActualLength, SlotIs;
      if |payload| < COMPLETE_SIZE {
        return;
      }
      var length := ActualLength(payload);
      var bytes := (payload + beyond)[COMPLETE_SIZE..COMPLETE_SIZE + length];
      var i := FindRemote(Get32(payload, 0));
      if i < |devices| {
        var data := if length > 0 then Some(bytes) else None;
        var urb := CompleteUrb(devices[i].id, Get32(payload, 4), Get32(payload, 8), data, length);
      }
    }

    lemma CompleteIs(s: Server, id: nat, urbId: nat, status: nat, data: Option<seq<byte>>, length: nat,
                     s': Server, done: Option<Urb>)
      requires data.Some? ==> |data.value| >= length
      requires var i := Lookup(s.devices, id);
               if i < |s.devices| then
                 var c := CompletedOn(s.devices[i], urbId, status, data, length);
                 && done == c.record
                 && s' == s.(devices := s.devices[i := c.device], totalBytes := s.totalBytes + if done.Some? then length else 0)
               else
                 done == None && s' == s
      ensures Complete(s, id, urbId, status, data, length)
              == Result(s', if done.Some? then Finished(id, done.value) else Failed(STATUS_ERROR))
    {
    }

    /** The record of a connected client, found under its own address. */
    ghost predicate Connected(client: ClientRecord)
      reads `records, clients
    {
      && ClientSlot(records, client.handle) < |records| == clients.Length
      && clients[ClientSlot(records, client.handle)] == client
    }

    /** The accept loop from the allocation of the record on. */
    method AcceptClient(address: Handle, threadStarted: bool) returns (client: ClientRecord?)
      requires ClientsOk() && address != 0 && ClientSlot(records, address) == |records|
      modifies `records, `clientCount, `nextSessionId, clients
      ensures ClientsOk() && Accept(old(Model()), address, threadStarted)
                             == Result(Model(), if client == null then Failed(STATUS_ERROR) else Accepted)
    {
      hide Accept, FreeClientSlot;
      ghost var was := Model();
      nextSessionId := NextWord(nextSessionId);
      var record := new ClientRecord(address, nextSessionId);
      var i := 0;
      while i < clients.Length
        invariant i <= clients.Length
        invariant forall j :: 0 <= j < i ==> clients[j] != null
      {
        if clients[i] == null {
          break;
        }
        i := i + 1;
      }
      FreeClientIs(records, i);
      client := null;
      if i < clients.Length && threadStarted {
        clients[i] := record;
        clientCount := clientCount + 1;
        records := records[i := Some(record.View())];
        client := record;
      }
      AcceptIs(was, address, threadStarted, Model(), i, client != null);
    }

    lemma AcceptIs(s: Server, h: Handle, threadStarted: bool, s': Server, i: nat, accepted: bool)
      requires i == FreeClientSlot(s.clients) && accepted == (i < |s.clients| && threadStarted)
      requires s'.devices == s.devices && s'.nextDeviceId == s.nextDeviceId && s'.nextSessionId == NextWord(s.nextSessionId)
      requires s'.totalUrbs == s.totalUrbs && s'.totalBytes == s.totalBytes
      requires s'.clientCount == s.clientCount + (if accepted then 1 else 0)
      requires s'.clients == if accepted then s.clients[i := Some(Client(h, s'.nextSessionId, []))] else s.clients
      ensures Accept(s, h, threadStarted) == Result(s', if accepted then Accepted else Failed(STATUS_ERROR))
    {
    }

    lemma FreeClientIs(rs: seq<Option<Client>>, i: nat)
      requires i <= |rs| && (i < |rs| ==> rs[i].None?) && forall j :: 0 <= j < i ==> rs[j].Some?
      ensures FreeClientSlot(rs) == i
    {
    }

    /** Track the id in the client's array. */
    method TrackIn(client: ClientRecord, id: nat)
      requires ClientsOk() && Connected(client)
      modifies `records, client, client.deviceIds
      ensures ClientsOk()
      ensures var j := ClientSlot(old(records), client.handle);
              old(records)[j].Some? && records == old(records)[j := Some(Track(old(records)[j].value, id))]
    {
      client.TrackDevice(id);
      records := records[ClientSlot(records, client.handle) := Some(client.View())];
    }

    method UntrackIn(client: ClientRecord, id: nat)
      requires ClientsOk() && Connected(client)
      modifies `records, client, client.deviceIds
      ensures ClientsOk()
      ensures var j := ClientSlot(old(records), client.handle);
              old(records)[j].Some? && records == old(records)[j := Some(Untrack(old(records)[j].value, id))]
    {
      client.UntrackDevice(id);
      records := records[ClientSlot(records, client.handle) := Some(client.View())];
    }

    /** The device table's part of an attach: the new device belongs to the client. */
    method CreateOwned(handle: Handle, info: DeviceInfo, descriptors: seq<byte>) returns (ok: bool, id: nat)
      requires SlotsOk()
      modifies `table, `nextDeviceId, devices, Lists()
      ensures SlotsOk()
      ensures var r := Create(old(Model()), info, descriptors);
              && r.reply == (if ok then Created(id) else Failed(STATUS_ERROR)) && nextDeviceId == r.s.nextDeviceId
              && table == if ok then WithOwner(r.s.devices, id, handle, info.id) else r.s.devices
    {
      hide Create;
      ok, id := CreateDevice(info, descriptors);
      if ok {
        var i := GetDevice(id);
        if i < |devices| {
          SetOwnerAt(i, handle, info.id);
        }
      }
    }

    /** HandleDeviceAttach, on a payload of sufficient length. */
    method AttachTracked(client: ClientRecord, info: DeviceInfo, descriptors: seq<byte>) returns (ok: bool, id: nat)
      requires Valid() && Connected(client)
      modifies `table, `nextDeviceId, `records, devices, Lists(), client, client.deviceIds
      ensures Valid() && AttachDevice(old(Model()), client.handle, info, descriptors)
                         == Result(Model(), if ok then Created(id) else Failed(STATUS_ERROR))
    {
      hide Create, WithOwner, Track, AttachDevice, ClientSlot, SlotIs;
      ghost var was := Model();
      ok, id := CreateOwned(client.handle, info, descriptors);
      assert ClientsOk() && Connected(client);
      if ok {
        TrackIn(client, id);
      }
      AttachIs(was, client.handle, info, descriptors, Model(), ok, id);
    }

    function WithOwner(devs: seq<Device>, id: nat, handle: Handle, remote: nat): seq<Device> {
      var i := Lookup(devs, id);
      if i < |devs| then devs[i := Owned(devs[i], handle, remote)] else devs
    }

    lemma AttachIs(s: Server, h: Handle, info: DeviceInfo, descriptors: seq<byte>, s': Server, ok: bool, id: nat)
      requires Live(s, h)
      requires var r := Create(s, info, descriptors);
               && r.reply == (if ok then Created(id) else Failed(STATUS_ERROR)) && s'.nextDeviceId == r.s.nextDeviceId
               && s'.devices == if ok then WithOwner(r.s.devices, id, h, info.id) else r.s.devices
      requires var j := ClientSlot(s.clients, h);
               s'.clients == if ok then s.clients[j := Some(Track(s.clients[j].value, id))] else s.clients
      requires s'.clientCount == s.clientCount && s'.nextSessionId == s.nextSessionId
      requires s'.totalUrbs == s.totalUrbs && s'.totalBytes == s.totalBytes
      ensures AttachDevice(s, h, info, descriptors) == Result(s', if ok then Created(id) else Failed(STATUS_ERROR))
    {
    }

    method HandleDeviceAttach(client: ClientRecord, payload: seq<byte>, beyond: seq<byte>) returns (status: nat, id: nat)
      requires Valid() && Connected(client) && PayloadReadable(payload, beyond)
      modifies `table, `nextDeviceId, `records, devices, Lists(), client, client.deviceIds
      ensures Valid() && Attach(old(Model()), client.handle, payload, beyond)
                         == Result(Model(), if status == 0 then Created(id) else Failed(status))
    {
      hide AttachDevice, DecodeInfo, Get32, Create;
      if |payload| < INFO_SIZE + 4 {
        return STATUS_INVALID_PARAM, 0;
      }
      var end := INFO_SIZE + 4 + Get32(payload, INFO_SIZE);
      var ok;
      ok, id := AttachTracked(client, DecodeInfo(payload), (payload + beyond)[INFO_SIZE + 4..end]);
      status := if ok then 0 else STATUS_ERROR;
    }

    /** The device table's part of a detach: only the owner may destroy. */
    method DestroyOwned(handle: Handle, id: nat) returns (owned: bool)
      requires SlotsOk()
      modifies `table, devices, Lists()
      ensures SlotsOk()
      ensures var i := Lookup(old(table), id);
              && owned == (i < |old(table)| && old(table)[i].owner == handle)
              && table == if owned then Destroy(old(Model()), id).s.devices else old(table)
    {
      hide Destroy;
      var i := GetDevice(id);
      owned := false;
      if i < |devices| {
        assert SlotIs(devices[i], table[i]);
        if devices[i].owner == handle {
          owned := true;
          var ok := DestroyDevice(id);
        }
      }
    }

    method HandleDeviceDetach(client: ClientRecord, id: nat)
      requires Valid() && Connected(client)
      modifies `table, `records, devices, Lists(), client, client.deviceIds
      ensures Valid() && Model() == Detach(old(Model()), client.handle, id).s
    {
      hide Detach, Destroy, Untrack, ClientSlot, Lookup, SlotIs;
      ghost var was := Model();
      var owned := DestroyOwned(client.handle, id);
      assert ClientsOk() && Connected(client);
      if owned {
        UntrackIn(client, id);
      }
      DetachIs(was, client.handle, id, Model(), owned);
    }

    lemma DetachIs(s: Server, h: Handle, id: nat, s': Server, owned: bool)
      requires Live(s, h)
      requires var i := Lookup(s.devices, id); owned == (i < |s.devices| && s.devices[i].owner == h)
      requires s'.devices == if owned then Destroy(s, id).s.devices else s.devices
      requires var j := ClientSlot(s.clients, h);
               s'.clients == if owned then s.clients[j := Some(Untrack(s.clients[j].value, id))] else s.clients
      requires s'.nextDeviceId == s.nextDeviceId && s'.clientCount == s.clientCount && s'.nextSessionId == s.nextSessionId
      requires s'.totalUrbs == s.totalUrbs && s'.totalBytes == s.totalBytes
      ensures s' == Detach(s, h, id).s
    {
    }

    method CleanUpIfMatching(j: nat, id: nat)
      requires SlotsOk() && j < |devices|
      modifies `table, devices, Lists()
      ensures SlotsOk()
      ensures var d := old(table)[j];
              table == old(table)[j := if d.active && d.id == id then Cleanup(d) else d]
    {
      hide Cleanup;
      assert SlotIs(devices[j], table[j]);
      if devices[j].active && devices[j].id == id {
        CleanUpAt(j);
      }
    }

    /** The inner loop of the clean-up: every active slot with the id. */
    method CleanupId(id: nat)
      requires SlotsOk()
      modifies `table, devices, Lists()
      ensures SlotsOk() && table == CleanupMatching(old(table), id)
    {
      hide CleanupMatching, Cleanup, SlotIs;
      var j := 0;
      while j < |devices|
        invariant j <= |devices| && SlotsOk()
        invariant forall k :: 0 <= k < j ==> table[k] == CleanupMatching(old(table), id)[k]
        invariant forall k :: j <= k < |devices| ==> table[k] == old(table)[k]
      {
        CleanUpIfMatching(j, id);
        j := j + 1;
      }
    }

    method CleanupClientDevices(client: ClientRecord)
      requires SlotsOk() && client.Valid()
      modifies `table, devices, Lists()
      ensures SlotsOk() && table == CleanupTracked(old(table), client.deviceIds[..client.deviceCount])
    {
      hide CleanupMatching, SlotIs;
      ghost var ids := client.deviceIds[..client.deviceCount];
      var i := 0;
      while i < client.deviceCount
        invariant i <= client.deviceCount && SlotsOk()
        invariant table == CleanupTracked(old(table), ids[..i])
      {
        CleanupId(client.deviceIds[i]);
        assert ids[..i + 1][..i] == ids[..i];
        i := i + 1;
      }
      assert ids[..i] == ids;
    }

    /** The same, in terms of the client table. */
    method ReleaseDevices(client: ClientRecord)
      requires Valid() && Connected(client)
      modifies `table, devices, Lists()
      ensures Valid() && Connected(client)
      ensures var record := records[ClientSlot(records, client.handle)];
              record.Some? && table == CleanupTracked(old(table), record.value.devices)
    {
      hide CleanupTracked, ClientSlot, SlotIs;
      assert records[ClientSlot(records, client.handle)] == Some(client.View());
      CleanupClientDevices(client);
    }

    method RemoveClient(client: ClientRecord)
      requires ClientsOk() && Connected(client)
      modifies `records, `clientCount, clients
      ensures ClientsOk() && clientCount == old(clientCount) - 1
      ensures records == old(records)[ClientSlot(old(records), client.handle) := None]
    {
      ghost var slot := ClientSlot(records, client.handle);
      var i := 0;
      while clients[i] != client
        invariant 0 <= i <= slot
        decreases slot - i
      {
        i := i + 1;
      }
      clients[i] := null;
      clientCount := clientCount - 1;
      records := records[i := None];
    }

    /** The end of ClientThread. */
    method ClientExit(client: ClientRecord)
      requires Valid() && Connected(client)
      modifies `table, `records, `clientCount, devices, Lists(), clients
      ensures Valid() && Model() == Exit(old(Model()), client.handle).s
    {
      hide CleanupTracked, Exit, ClientSlot, SlotIs;
      ghost var was := Model();
      ReleaseDevices(client);
      RemoveClient(client);
      ExitIs(was, client.handle, Model());
    }

    lemma ExitIs(s: Server, h: Handle, s': Server)
      requires Live(s, h)
      requires s'.devices == CleanupTracked(s.devices, s.clients[ClientSlot(s.clients, h)].value.devices)
      requires s'.clients == s.clients[ClientSlot(s.clients, h) := None] && s'.clientCount == s.clientCount - 1
      requires s'.nextDeviceId == s.nextDeviceId && s'.nextSessionId == s.nextSessionId
      requires s'.totalUrbs == s.totalUrbs && s'.totalBytes == s.totalBytes
      ensures s' == Exit(s, h).s
    {
    }

    /** VusbUsGetStats: whatever the devices' pending lists add up to, the report balances. */
    method GetStats() returns (active: int, submittedUrbs: int, completedUrbs: int, pendingUrbs: int, bytesIn: int, bytesOut: int)
      requires SlotsOk()
      ensures active == Sum(table, LiveOne) && submittedUrbs == Sum(table, LiveUrbs)
      ensures completedUrbs == Sum(table, LiveCompleted) && pendingUrbs == Sum(table, LivePending)
      ensures bytesIn == Sum(table, LiveIn) && bytesOut == Sum(table, LiveOut)
      ensures Table(Model()) ==> submittedUrbs == completedUrbs + pendingUrbs
    {
      active, submittedUrbs, completedUrbs, pendingUrbs, bytesIn, bytesOut := 0, 0, 0, 0, 0, 0;
      var i := 0;
      while i < |devices|
        invariant i <= |devices|
        invariant active == Sum(table[..i], LiveOne) && submittedUrbs == Sum(table[..i], LiveUrbs)
        invariant completedUrbs == Sum(table[..i], LiveCompleted) && pendingUrbs == Sum(table[..i], LivePending)
        invariant bytesIn == Sum(table[..i], LiveIn) && bytesOut == Sum(table[..i], LiveOut)
      {
        var d := devices[i];
        assert SlotIs(d, table[i]);
        AddDevice(table[..i], table[i]);
        assert table[..i + 1] == table[..i] + [table[i]];
        if d.active {
          active := active + 1;
          submittedUrbs := submittedUrbs + d.submitted;
          completedUrbs := completedUrbs + d.completed;
          bytesIn := bytesIn + d.bytesIn;
          bytesOut := bytesOut + d.bytesOut;
          pendingUrbs := pendingUrbs + d.urbs.count;
        }
        i := i + 1;
      }
      assert table[..i] == table;
      if Table(Model()) {
        SumsBalance(table);
      }
    }

    /** The copy loop of HandleDeviceList: the active records, in slot order. */
    method CompactInfos() returns (infos: seq<byte>, count: nat)
      requires SlotsOk() && AllFit(ActiveInfos(table))
      ensures infos == EncodeInfos(ActiveInfos(table)) && count == |ActiveInfos(table)|
    {
      hide EncodeInfo, InfoFits;
      infos, count := [], 0;
      var i := 0;
      while i < |devices|
        invariant i <= |devices| && count == |ActiveInfos(table[..i])|
        invariant AllFit(ActiveInfos(table[..i])) && infos == EncodeInfos(ActiveInfos(table[..i]))
      {
        ghost var before := ActiveInfos(table[..i]);
        assert SlotIs(devices[i], table[i]);
        InfosGrow(table, i);
        if devices[i].active {
          assert (before + [table[i].info])[..|before|] == before;
          assert ActiveInfos(table)[|before|] == table[i].info;
          infos := infos + EncodeInfo(devices[i].info);
          count := count + 1;
        } else {
          assert before + [] == before;
        }
        i := i + 1;
      }
      assert table[..i] == table;
    }

    /** HandleDeviceList: compact the active records, then fill in the response header. */
    method HandleDeviceList(sequence: nat) returns (reply: seq<byte>)
      requires SlotsOk() && sequence < WORD && Table(Model())
      ensures AllFit(ActiveInfos(table)) && reply == EncodeFrame(ListFrame(ActiveInfos(table), sequence))
      ensures GoodFrame(ListFrame(ActiveInfos(table), sequence))
    {
      InfosFit(table);
      hide AllFit, EncodeHeader, EncodeInfos, SlotIs;
      ActiveInfosBound(table);
      var infos, count := CompactInfos();
      var payloadLen := 4 * 2 + count * INFO_SIZE;
      reply := EncodeHeader(InitHeader(CMD_DEVICE_LIST, payloadLen, sequence)) + (U32(0) + U32(count) + infos);
    }
  }

  /** What one device adds to each reported total. */
  lemma AddDevice(devs: seq<Device>, d: Device)
    ensures Sum(devs + [d], LiveOne) == Sum(devs, LiveOne) + (if d.active then 1 else 0)
    ensures Sum(devs + [d], LiveUrbs) == Sum(devs, LiveUrbs) + (if d.active then d.submitted else 0)
    ensures Sum(devs + [d], LiveCompleted) == Sum(devs, LiveCompleted) + (if d.active then d.completed else 0)
    ensures Sum(devs + [d], LivePending) == Sum(devs, LivePending) + (if d.active then d.pendingCount else 0)
    ensures Sum(devs + [d], LiveIn) == Sum(devs, LiveIn) + (if d.active then d.bytesIn else 0)
    ensures Sum(devs + [d], LiveOut) == Sum(devs, LiveOut) + (if d.active then d.bytesOut else 0)
  {
    SumAppend(devs, d, LiveOne);
    SumAppend(devs, d, LiveUrbs);
    SumAppend(devs, d, LiveCompleted);
    SumAppend(devs, d, LivePending);
    SumAppend(devs, d, LiveIn);
    SumAppend(devs, d, LiveOut);
  }

  lemma {:induction false} InfosFit(devs: seq<Device>)
    requires forall i :: 0 <= i < |devs| && devs[i].active ==> InfoFits(devs[i].info)
    ensures AllFit(ActiveInfos(devs))
  {
    if devs != [] {
      InfosFit(devs[..|devs| - 1]);
    }
  }

  /** In every reachable state the device list is one frame that a receive loop accepts as sent. */
  lemma ListIsAlwaysOneFrame(ops: seq<Op>, sequence: nat, later: seq<byte>)
    requires IsRun(Start(), ops) && |ops| < WORD && sequence < WORD
    ensures var infos := ActiveInfos(Run(Start(), ops).s.devices);
            && AllFit(infos) && GoodFrame(ListFrame(infos, sequence))
            && var received := Receive(EncodeFrame(ListFrame(infos, sequence)) + later).frames;
               |received| > 0 && received[0] == ListFrame(infos, sequence)
  {
    hide Run, IsRun, Start, Within, Receive, EncodeFrame, Fates, Totals;
    RunKeepsCore(ops);
    var devs := Run(Start(), ops).s.devices;
    InfosFit(devs);
    ActiveInfosBound(devs);
    FirstFrame(ListFrame(ActiveInfos(devs), sequence), later);
  }
}
