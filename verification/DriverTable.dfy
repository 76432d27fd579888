/** The driver's virtual-device slots: driver/vusb_device.c and the device list of driver/vusb_ioctl.c. */
module DriverTable {
  import opened Collections
  import opened Wire

  const MAX_DEVICES := 16
  const STATE_ATTACHED := 1
  const STATE_DEFAULT := 3

  datatype VirtualDevice = VirtualDevice(id: nat, port: nat, state: nat, info: DeviceInfo, descriptors: seq<byte>)

  type Slot = Option<VirtualDevice>

  datatype Status = Success | TooManyNodes | InvalidParameter | NotConnected

  /** Devices[] and DeviceCount. */
  datatype Table = Table(slots: seq<Slot>, count: int)

  function Occupied(s: Slot): int { if s.Some? then 1 else 0 }

  /** The count is the number of occupied slots, and slot i holds id and port i + 1. */
  predicate Consistent(t: Table) {
    && |t.slots| == MAX_DEVICES && t.count == Sum(t.slots, Occupied)
    && forall i :: 0 <= i < |t.slots| && t.slots[i].Some? ==> t.slots[i].value.id == t.slots[i].value.port == i + 1
  }

  // ---------- operations as functions of the table ----------

  function FreeSlot(slots: seq<Slot>): nat { FirstIndex(slots, (s: Slot) => s.None?) }

  function Created(i: nat, info: DeviceInfo, descriptors: seq<byte>): VirtualDevice {
    VirtualDevice(i + 1, i + 1, STATE_ATTACHED, info, descriptors)
  }

  function Create(t: Table, info: DeviceInfo, descriptors: seq<byte>): (Table, Status, nat) {
    var i := FreeSlot(t.slots);
    if t.count >= MAX_DEVICES || i == |t.slots| then (t, TooManyNodes, 0)
    else (Table(t.slots[i := Some(Created(i, info, descriptors))], t.count + 1), Success, i + 1)
  }

  function Destroy(t: Table, id: nat): (Table, Status)
    requires |t.slots| == MAX_DEVICES
  {
    if id == 0 || id > MAX_DEVICES then (t, InvalidParameter)
    else if t.slots[id - 1].None? then (t, NotConnected)
    else (Table(t.slots[id - 1 := None], t.count - 1), Success)
  }

  function Reset(t: Table, id: nat): (Table, Status)
    requires |t.slots| == MAX_DEVICES
  {
    if id == 0 || id > MAX_DEVICES || t.slots[id - 1].None? then (t, NotConnected)
    else (t.(slots := t.slots[id - 1 := Some(t.slots[id - 1].value.(state := STATE_DEFAULT))]), Success)
  }

  function Listed(slots: seq<Slot>): seq<VirtualDevice> {
    if slots == [] then []
    else
      Listed(slots[..|slots| - 1]) + (if slots[|slots| - 1].Some? then [slots[|slots| - 1].value] else [])
  }

  // ---------- counting ----------

  lemma {:induction false} CountBounds(slots: seq<Slot>)
    ensures 0 <= Sum(slots, Occupied) <= |slots|
    ensures Sum(slots, Occupied) == |slots| <==> FreeSlot(slots) == |slots|
  {
    if slots != [] {
      CountBounds(slots[1..]);
      if slots[0].Some? {
        FreeShift(slots);
      }
    }
  }

  lemma FreeShift(slots: seq<Slot>)
    requires |slots| > 0 && slots[0].Some?
    ensures FreeSlot(slots) == 1 + FreeSlot(slots[1..])
  {
    FirstIndexIs(slots, (s: Slot) => s.None?, 1 + FreeSlot(slots[1..]));
    var k := FreeSlot(slots[1..]);
    assert forall j :: 1 <= j < 1 + k ==> slots[j] == slots[1..][j - 1];
    assert FreeSlot(slots) == 1 + k;
  }

  /** Below the limit a free slot exists: the "no slot found" branch cannot be taken. */
  lemma RoomBelowLimit(t: Table)
    requires Consistent(t)
    ensures 0 <= t.count <= MAX_DEVICES
    ensures t.count < MAX_DEVICES <==> FreeSlot(t.slots) < |t.slots|
  {
    CountBounds(t.slots);
  }

  // ---------- what every operation keeps ----------

  lemma CreateKeeps(t: Table, info: DeviceInfo, descriptors: seq<byte>)
    requires Consistent(t)
    ensures var (t', status, id) := Create(t, info, descriptors);
            && Consistent(t') && (status.Success? <==> t.count < MAX_DEVICES) && (id != 0 <==> t.count < MAX_DEVICES)
            && (status.Success? ==> t.slots[id - 1].None? && t'.slots == t.slots[id - 1 := t'.slots[id - 1]])
            && (!status.Success? ==> t' == t)
  {
    RoomBelowLimit(t);
    var i := FreeSlot(t.slots);
    if i < |t.slots| {
      SumUpdate(t.slots, i, Some(Created(i, info, descriptors)), Occupied);
    }
  }

  lemma DestroyKeeps(t: Table, id: nat)
    requires Consistent(t)
    ensures Consistent(Destroy(t, id).0)
  {
    if 0 < id <= MAX_DEVICES && t.slots[id - 1].Some? {
      SumUpdate(t.slots, id - 1, None, Occupied);
    }
  }

  lemma ResetKeeps(t: Table, id: nat)
    requires Consistent(t)
    ensures Consistent(Reset(t, id).0)
  {
    if 0 < id <= MAX_DEVICES && t.slots[id - 1].Some? {
      SumUpdate(t.slots, id - 1, Reset(t, id).0.slots[id - 1], Occupied);
    }
  }

  datatype Op = Plugin(info: DeviceInfo, descriptors: seq<byte>) | Unplug(id: nat) | ResetDevice(id: nat)

  function Step(t: Table, op: Op): (r: Table)
    requires |t.slots| == MAX_DEVICES
    ensures |r.slots| == MAX_DEVICES
  {
    match op
    case Plugin(info, descriptors) => Create(t, info, descriptors).0
    case Unplug(id) => Destroy(t, id).0
    case ResetDevice(id) => Reset(t, id).0
  }

  function Run(t: Table, ops: seq<Op>): (r: Table)
    requires |t.slots| == MAX_DEVICES
    ensures |r.slots| == MAX_DEVICES
    decreases |ops|
  {
    if ops == [] then t else Run(Step(t, ops[0]), ops[1..])
  }

  function Empty(): Table { Table(seq(MAX_DEVICES, _ => None), 0) }

  lemma {:induction false} RunKeeps(t: Table, ops: seq<Op>)
    requires Consistent(t)
    ensures Consistent(Run(t, ops))
    decreases |ops|
  {
    if ops != [] {
      match ops[0] {
        case Plugin(info, descriptors) => CreateKeeps(t, info, descriptors);
        case Unplug(id) => DestroyKeeps(t, id);
        case ResetDevice(id) => ResetKeeps(t, id);
      }
      RunKeeps(Step(t, ops[0]), ops[1..]);
    }
  }

  lemma {:induction false} NothingOccupied(slots: seq<Slot>)
    requires forall i :: 0 <= i < |slots| ==> slots[i].None?
    ensures Sum(slots, Occupied) == 0
  {
    if slots != [] {
      assert forall i :: 0 <= i < |slots[1..]| ==> slots[1..][i] == slots[i + 1];
      NothingOccupied(slots[1..]);
    }
  }

  /** The device list of any slots: ids strictly ascending, one entry per occupied slot. */
  lemma {:induction false} ListAscends(slots: seq<Slot>)
    requires forall i :: 0 <= i < |slots| && slots[i].Some? ==> slots[i].value.id == i + 1
    ensures |Listed(slots)| == Sum(slots, Occupied)
    ensures forall i, j :: 0 <= i < j < |Listed(slots)| ==> Listed(slots)[i].id < Listed(slots)[j].id
    ensures forall k :: 0 <= k < |Listed(slots)| ==>
      var d := Listed(slots)[k]; 1 <= d.id <= |slots| && slots[d.id - 1] == Some(d)
  {
    if slots != [] {
      var n := |slots| - 1;
      ListAscends(slots[..n]);
      assert slots == slots[..n] + [slots[n]];
      SumAppend(slots[..n], slots[n], Occupied);
    }
  }

  /** In every reachable table the count is the number of occupied slots and ids are slot numbers. */
  lemma EveryRunIsConsistent(ops: seq<Op>)
    ensures Consistent(Run(Empty(), ops))
  {
    EmptyIsConsistent();
    hide Run, Empty;
    RunKeeps(Empty(), ops);
  }

  lemma EmptyIsConsistent()
    ensures Consistent(Empty())
  {
    NothingOccupied(Empty().slots);
  }

  /** The device list is the ascending compaction of the live slots, and its length is the count. */
  lemma ListIsCompaction(t: Table)
    requires Consistent(t)
    ensures |Listed(t.slots)| == t.count
    ensures forall i, j :: 0 <= i < j < |Listed(t.slots)| ==> Listed(t.slots)[i].id < Listed(t.slots)[j].id
    ensures forall d :: d in Listed(t.slots) <==> (1 <= d.id <= MAX_DEVICES && t.slots[d.id - 1] == Some(d))
  {
    ListAscends(t.slots);
    forall d: VirtualDevice | 1 <= d.id <= MAX_DEVICES && t.slots[d.id - 1] == Some(d)
      ensures d in Listed(t.slots)
    {
      ListHas(t.slots, d.id - 1);
    }
  }

  lemma {:induction false} ListHas(slots: seq<Slot>, i: nat)
    requires i < |slots| && slots[i].Some?
    ensures slots[i].value in Listed(slots)
  {
    if i < |slots| - 1 {
      ListHas(slots[..|slots| - 1], i);
    }
  }

  // ---------- which device an operation is about ----------

  /** The list names a device with the id. */
  predicate Plugged(t: Table, id: nat) { exists d :: d in Listed(t.slots) && d.id == id }

  lemma PluggedIff(t: Table, id: nat)
    requires Consistent(t)
    ensures Plugged(t, id) <==> 1 <= id <= 16 && t.slots[id - 1].Some?
  {
    ListIsCompaction(t);
    if 1 <= id <= 16 && t.slots[id - 1].Some? {
      assert t.slots[id - 1].value in Listed(t.slots);
    }
  }

  /** Unplugging takes exactly the device with the id off the list, and says why when there is none. */
  lemma DestroyRemoves(t: Table, id: nat)
    requires Consistent(t)
    ensures var (t', status) := Destroy(t, id);
            && (status == InvalidParameter <==> id == 0 || id > 16)
            && (status == Success <==> Plugged(t, id))
            && (status == NotConnected <==> 1 <= id <= 16 && !Plugged(t, id))
            && t' == Step(t, Unplug(id)) && (status != Success ==> t' == t) && Consistent(t')
            && forall d :: d in Listed(t'.slots) <==> d in Listed(t.slots) && d.id != id
  {
    PluggedIff(t, id);
    DestroyKeeps(t, id);
    ListIsCompaction(t);
    ListIsCompaction(Destroy(t, id).0);
    hide Listed, Sum;
  }

  /** Resetting puts exactly the device with the id into the default state. */
  lemma ResetSets(t: Table, id: nat)
    requires Consistent(t)
    ensures var (t', status) := Reset(t, id);
            && status == (if Plugged(t, id) then Success else NotConnected)
            && t' == Step(t, ResetDevice(id)) && (status != Success ==> t' == t) && t'.count == t.count
            && (forall d: VirtualDevice :: d.id != id ==> (d in Listed(t'.slots) <==> d in Listed(t.slots)))
            && forall d :: d in Listed(t.slots) && d.id == id ==> d.(state := 3) in Listed(t'.slots)
  {
    PluggedIff(t, id);
    ResetKeeps(t, id);
    ListIsCompaction(t);
    ListIsCompaction(Reset(t, id).0);
    hide Listed, Sum;
  }

  /** Plugging in adds the given record and descriptors, attached, under the lowest id that no device has. */
  lemma CreateAdds(t: Table, info: DeviceInfo, descriptors: seq<byte>)
    requires Consistent(t)
    ensures var (t', status, id) := Create(t, info, descriptors);
            && status == (if |Listed(t.slots)| < 16 then Success else TooManyNodes)
            && t' == Step(t, Plugin(info, descriptors)) && (status != Success ==> t' == t && id == 0)
            && (status == Success ==>
                  && 1 <= id <= 16 && !Plugged(t, id) && (forall lower :: 1 <= lower < id ==> Plugged(t, lower))
                  && forall d :: d in Listed(t'.slots) <==>
                       d in Listed(t.slots) || d == VirtualDevice(id, id, 1, info, descriptors))
  {
    var (t', status, id) := Create(t, info, descriptors);
    CreateKeeps(t, info, descriptors);
    ListIsCompaction(t);
    ListIsCompaction(t');
    hide Listed, Sum;
    if status == Success {
      PluggedIff(t, id);
      forall lower | 1 <= lower < id
        ensures Plugged(t, lower)
      {
        PluggedIff(t, lower);
      }
    }
  }

  // ---------- the driver's own form ----------

  /** VUSB_DEVICE_CONTEXT, device part. */
  class DeviceContext {
    const devices: array<Slot>
    var deviceCount: int

    ghost predicate Valid()
      reads this, devices
    {
      Consistent(Model())
    }

    ghost function Model(): Table
      reads this, devices
    {
      Table(devices[..], deviceCount)
    }

    constructor ()
      ensures Valid() && Model() == Empty() && fresh(devices)
    {
      devices := new Slot[MAX_DEVICES](_ => None);
      deviceCount := 0;
      new;
      assert devices[..] == Empty().slots;
      NothingOccupied(devices[..]);
    }

    /** VusbCreateVirtualDevice */
    method CreateVirtualDevice(info: DeviceInfo, descriptors: seq<byte>) returns (status: Status, id: nat)
      requires Valid()
      modifies this, devices
      ensures Valid() && (Model(), status, id) == Create(old(Model()), info, descriptors)
      ensures status == if old(deviceCount) < 16 then Success else TooManyNodes
      ensures status == Success ==> !Plugged(old(Model()), id)
      ensures status == Success ==> forall d :: d in Listed(devices[..]) <==>
                d in Listed(old(devices[..])) || d == VirtualDevice(id, id, 1, info, descriptors)
    {
      RoomBelowLimit(Model());
      CreateAdds(Model(), info, descriptors);
      CreateKeeps(Model(), info, descriptors);
      if deviceCount >= MAX_DEVICES {
        return TooManyNodes, 0;
      }
      id := 0;
      var slot := 0;
      while slot < MAX_DEVICES
        invariant slot <= FreeSlot(old(devices[..])) && id == 0
        invariant devices[..] == old(devices[..]) && deviceCount == old(deviceCount)
      {
        if devices[slot].None? {
          id := slot + 1;
          devices[slot] := Some(VirtualDevice(slot + 1, slot + 1, STATE_ATTACHED, info, descriptors));
          deviceCount := deviceCount + 1;
          break;
        }
        slot := slot + 1;
      }
      if id == 0 {
        assert false;
      }
      status := Success;
    }

    /** VusbDestroyVirtualDevice */
    method DestroyVirtualDevice(id: nat) returns (status: Status)
      requires Valid()
      modifies this, devices
      ensures Valid() && (Model(), status) == Destroy(old(Model()), id)
      ensures status == Success <==> Plugged(old(Model()), id)
      ensures forall d :: d in Listed(devices[..]) <==> d in Listed(old(devices[..])) && d.id != id
    {
      DestroyRemoves(Model(), id);
      hide Listed, Plugged;
      if id == 0 || id > MAX_DEVICES {
        return InvalidParameter;
      }
      var slot := id - 1;
      if devices[slot].None? {
        return NotConnected;
      }
      devices[slot] := None;
      deviceCount := deviceCount - 1;
      return Success;
    }

    /** VusbHandleResetDevice, the part under the lock. */
    method ResetVirtualDevice(id: nat) returns (status: Status)
      requires Valid()
      modifies devices
      ensures Valid() && (Model(), status) == Reset(old(Model()), id)
      ensures status == if Plugged(old(Model()), id) then Success else NotConnected
    {
      ResetKeeps(Model(), id);
      ResetSets(Model(), id);
      hide Listed, Plugged;
      if id == 0 || id > MAX_DEVICES || devices[id - 1].None? {
        return NotConnected;
      }
      devices[id - 1] := Some(devices[id - 1].value.(state := STATE_DEFAULT));
      status := Success;
    }

    /** VusbCleanupAllDevices reaches the empty table. */
    method CleanupAllDevices()
      requires Valid()
      modifies this, devices
      ensures Valid() && Model() == Empty()
    {
      var i := 1;
      while i <= MAX_DEVICES
        invariant 1 <= i <= MAX_DEVICES + 1 && Valid()
        invariant forall k :: 0 <= k < i - 1 ==> devices[k].None?
      {
        var status := DestroyVirtualDevice(i);
        i := i + 1;
      }
      NothingOccupied(devices[..]);
      assert devices[..] == Empty().slots;
    }

    /** VusbHandleGetDeviceList: the compaction loop. */
    method GetDeviceList() returns (list: seq<VirtualDevice>, count: nat)
      requires Valid()
      ensures list == Listed(devices[..]) && count == |list| == deviceCount
    {
      list, count := [], 0;
      var i := 0;
      while i < MAX_DEVICES && count < MAX_DEVICES
        invariant i <= MAX_DEVICES && count <= i && count == |list|
        invariant list == Listed(devices[..i])
      {
        assert devices[..i + 1][..i] == devices[..i];
        if devices[i].Some? {
          list := list + [devices[i].value];
          count := count + 1;
        }
        i := i + 1;
      }
      assert devices[..i] == devices[..];
      ListAscends(devices[..]);
    }
  }
}
