/** The sixteen-slot device table seen from outside: a finite map from device id to device. */
module UserspaceTable {
  import opened Collections
  import opened Wire
  import opened Pending
  import opened Userspace
  import opened UserspaceCore
  import opened UserspaceRuns

  predicate DistinctActive(devs: seq<Device>) {
    forall i, j :: 0 <= i < j < |devs| && devs[i].active && devs[j].active ==> devs[i].id != devs[j].id
  }

  function AsMap(devs: seq<Device>): map<nat, Device> {
    if devs == [] then map[]
    else if devs[0].active then AsMap(devs[1..])[devs[0].id := devs[0]]
    else AsMap(devs[1..])
  }

  lemma {:induction false} MapKeys(devs: seq<Device>, id: nat)
    ensures id in AsMap(devs) <==> HasActive(devs, id)
  {
    if devs != [] {
      MapKeys(devs[1..], id);
      if HasActive(devs[1..], id) {
        var i :| 0 <= i < |devs[1..]| && devs[1..][i].active && devs[1..][i].id == id;
        assert devs[i + 1].active;
      }
      if HasActive(devs, id) && !(devs[0].active && devs[0].id == id) {
        var i :| 0 <= i < |devs| && devs[i].active && devs[i].id == id;
        assert devs[1..][i - 1].active;
      }
    }
  }

  lemma {:induction false} MapValue(devs: seq<Device>, i: nat)
    requires DistinctActive(devs) && i < |devs| && devs[i].active
    ensures devs[i].id in AsMap(devs) && AsMap(devs)[devs[i].id] == devs[i]
  {
    if i > 0 {
      MapValue(devs[1..], i - 1);
    }
  }

  lemma {:induction false} MapSize(devs: seq<Device>)
    requires DistinctActive(devs)
    ensures |AsMap(devs)| == Sum(devs, LiveOne)
  {
    if devs != [] {
      var rest := devs[1..];
      assert forall i :: 0 <= i < |rest| ==> rest[i] == devs[i + 1];
      MapSize(rest);
      if devs[0].active {
        MapKeys(rest, devs[0].id);
        assert devs[0].id !in AsMap(rest);
        assert AsMap(devs).Keys == AsMap(rest).Keys + {devs[0].id};
      }
    }
  }

  /** A map that agrees with the active slots is the map of the table. */
  lemma MapIs(devs: seq<Device>, m: map<nat, Device>)
    requires DistinctActive(devs)
    requires forall i :: 0 <= i < |devs| && devs[i].active ==> devs[i].id in m && m[devs[i].id] == devs[i]
    requires forall id :: id in m ==> HasActive(devs, id)
    ensures AsMap(devs) == m
  {
    forall id: nat
      ensures id in AsMap(devs) <==> id in m
      ensures id in m ==> AsMap(devs)[id] == m[id]
    {
      MapKeys(devs, id);
      if HasActive(devs, id) {
        var i :| 0 <= i < |devs| && devs[i].active && devs[i].id == id;
        MapValue(devs, i);
      }
    }
  }

  lemma {:induction false} FreeMeansRoom(devs: seq<Device>, i: nat)
    requires i < |devs| && !devs[i].active
    ensures Sum(devs, LiveOne) < |devs|
  {
    if i == 0 {
      AtMostAll(devs[1..]);
    } else {
      FreeMeansRoom(devs[1..], i - 1);
    }
  }

  lemma {:induction false} AtMostAll(devs: seq<Device>)
    ensures 0 <= Sum(devs, LiveOne) <= |devs|
  {
    if devs != [] {
      AtMostAll(devs[1..]);
    }
  }

  lemma {:induction false} FullTable(devs: seq<Device>)
    requires forall i :: 0 <= i < |devs| ==> devs[i].active
    ensures Sum(devs, LiveOne) == |devs|
  {
    if devs != [] {
      assert forall i :: 0 <= i < |devs[1..]| ==> devs[1..][i] == devs[i + 1];
      FullTable(devs[1..]);
    }
  }

  /** Lookup finds exactly the keys of the map, and their values. */
  lemma LookupRefines(s: Server, id: nat)
    requires Table(s)
    ensures var i := Lookup(s.devices, id);
            && (i < |s.devices| <==> id in AsMap(s.devices))
            && (i < |s.devices| ==> s.devices[i] == AsMap(s.devices)[id])
  {
    var i := Lookup(s.devices, id);
    MapKeys(s.devices, id);
    if i < |s.devices| {
      MapValue(s.devices, i);
    }
  }

  /** The calls that take one step of the table each. */
  lemma CallSteps(s: Server, id: nat, t: Transfer, urbId: nat, status: nat, data: Option<seq<byte>>, length: nat)
    requires length < WORD && (data.Some? ==> |data.value| >= length)
    ensures Step(s, OpSubmit(id, t)) == Submit(s, id, t) && Step(s, OpDestroy(id)) == Destroy(s, id)
    ensures Step(s, OpComplete(id, urbId, status, data, length)) == Complete(s, id, urbId, status, data, length)
  {
    hide Submit, Destroy, Complete;
  }

  const NO_TRANSFER := Transfer(Out, None, 0, 0, false)

  lemma CreateStep(s: Server, info: DeviceInfo, descriptors: seq<byte>)
    requires InfoFits(info)
    ensures Step(s, OpCreate(info, descriptors)) == Create(s, info, descriptors)
  {
    hide Create;
  }

  /** A device that has seen no traffic, with the record that was sent but for the id, and the sent descriptors. */
  function NewDevice(id: nat, owner: Handle, remoteId: nat, info: DeviceInfo, descriptors: seq<byte>): Device {
    Device(true, id, remoteId, owner,
           DeviceInfo(id, info.vendorId, info.productId, info.deviceClass, info.subClass, info.protocol, info.speed,
                      info.numConfigurations, info.numInterfaces, info.reserved,
                      info.manufacturer, info.product, info.serial),
           descriptors, [], 0, 0, 0, 0, 0, 0)
  }

  /** Create fails exactly when sixteen devices are live; otherwise it adds one entry under a new id. */
  lemma CreateRefines(s: Server, info: DeviceInfo, descriptors: seq<byte>)
    requires Table(s) && s.nextDeviceId + 1 < WORD
    ensures var r := Create(s, info, descriptors);
            var id := s.nextDeviceId + 1;
            && (InfoFits(info) ==> Step(s, OpCreate(info, descriptors)) == r)
            && (r.reply.Created? <==> |AsMap(s.devices)| < 16)
            && (!r.reply.Created? ==> r == Result(s, Failed(STATUS_ERROR)))
            && (r.reply.Created? ==>
                  && r.reply.id == id && id !in AsMap(s.devices) && DistinctActive(r.s.devices)
                  && AsMap(r.s.devices) == AsMap(s.devices)[id := NewDevice(id, 0, 0, info, descriptors)])
  {
    hide Step;
    if InfoFits(info) {
      CreateStep(s, info, descriptors);
    }
    var r := Create(s, info, descriptors);
    var i := FreeSlot(s.devices);
    MapSize(s.devices);
    if i == |s.devices| {
      FullTable(s.devices);
    } else {
      FreeMeansRoom(s.devices, i);
      MapKeys(s.devices, s.nextDeviceId + 1);
      AsMapFill(s.devices, i, Fresh(s.nextDeviceId + 1, info, descriptors));
    }
  }

  lemma AsMapFill(devs: seq<Device>, i: nat, d: Device)
    requires DistinctActive(devs) && i < |devs| && d.active && DistinctActive(devs[i := d])
    requires devs[i].active ==> devs[i].id == d.id
    ensures AsMap(devs[i := d]) == AsMap(devs)[d.id := d]
  {
    var b := devs[i := d];
    forall k | 0 <= k < |b| && b[k].active
      ensures b[k].id in AsMap(devs)[d.id := d] && AsMap(devs)[d.id := d][b[k].id] == b[k]
    {
      if k != i {
        MapValue(devs, k);
        assert b[k].id != b[i].id;
      }
    }
    forall id | id in AsMap(devs)[d.id := d]
      ensures HasActive(b, id)
    {
      assert b[i].active;
      if id != d.id {
        MapKeys(devs, id);
        var k :| 0 <= k < |devs| && devs[k].active && devs[k].id == id;
        assert b[k].active && b[k].id == id;
      }
    }
    MapIs(b, AsMap(devs)[d.id := d]);
  }

  /** Destroy removes that entry only, and reports failure exactly when there was none. */
  lemma DestroyRefines(s: Server, id: nat)
    requires Table(s)
    ensures var r := Step(s, OpDestroy(id));
            && (r.reply.Done? <==> id in AsMap(s.devices))
            && DistinctActive(r.s.devices) && AsMap(r.s.devices) == AsMap(s.devices) - {id}
            && (!r.reply.Done? ==> r.s == s)
  {
    hide Step;
    CallSteps(s, id, NO_TRANSFER, 0, 0, None, 0);
    LookupRefines(s, id);
    var i := Lookup(s.devices, id);
    if i < |s.devices| {
      AsMapClean(s.devices, i);
    } else {
      assert AsMap(s.devices) - {id} == AsMap(s.devices);
    }
  }

  lemma AsMapClean(devs: seq<Device>, i: nat)
    requires DistinctActive(devs) && i < |devs| && devs[i].active
    ensures AsMap(devs[i := Cleanup(devs[i])]) == AsMap(devs) - {devs[i].id}
  {
    var b, m := devs[i := Cleanup(devs[i])], AsMap(devs) - {devs[i].id};
    forall k | 0 <= k < |b| && b[k].active
      ensures b[k].id in m && m[b[k].id] == b[k]
    {
      MapValue(devs, k);
      assert devs[k].id != devs[i].id;
    }
    forall id | id in m
      ensures HasActive(b, id)
    {
      MapKeys(devs, id);
      var k :| 0 <= k < |devs| && devs[k].active && devs[k].id == id;
      assert b[k].active && b[k].id == id;
    }
    MapIs(b, m);
  }

  /** Submitting changes only the addressed entry: a new head of its list, and three counters. */
  lemma SubmitRefines(s: Server, id: nat, t: Transfer)
    requires Table(s) && id in AsMap(s.devices) && AsMap(s.devices)[id].nextUrbId + 1 < WORD
    ensures var d, q := AsMap(s.devices)[id], Step(s, OpSubmit(id, t)).s.devices;
            && DistinctActive(q)
            && AsMap(q) == AsMap(s.devices)[id := d.(
                 nextUrbId := d.nextUrbId + 1, submitted := d.submitted + 1, pendingCount := d.pendingCount + 1,
                 pending := [Entry(d.nextUrbId + 1, t.(completed := false))] + d.pending)]
  {
    hide Step;
    CallSteps(s, id, t, 0, 0, None, 0);
    LookupRefines(s, id);
    var i := Lookup(s.devices, id);
    AsMapFill(s.devices, i, SubmitTo(s.devices[i], t));
  }

  /** Completing takes the one entry with the id out of the addressed device's list and books its bytes. */
  lemma CompleteRefines(s: Server, id: nat, j: nat, status: nat, data: Option<seq<byte>>, length: nat)
    requires Table(s) && id in AsMap(s.devices) && length < WORD && (data.Some? ==> |data.value| >= length)
    requires j < |AsMap(s.devices)[id].pending|
    ensures var d := AsMap(s.devices)[id];
            var e := d.pending[j];
            var c := Step(s, OpComplete(id, e.id, status, data, length)).s.devices;
            && DistinctActive(c)
            && AsMap(c) == AsMap(s.devices)[id := d.(
                 pending := Others(d.pending, e.id), pendingCount := d.pendingCount - 1, completed := d.completed + 1,
                 bytesIn := d.bytesIn + (if e.data.direction == In then length else 0),
                 bytesOut := d.bytesOut + (if e.data.direction == Out then length else 0))]
  {
    hide Step, Complete, UrbsOk;
    CallSteps(s, id, NO_TRANSFER, AsMap(s.devices)[id].pending[j].id, status, data, length);
    LookupRefines(s, id);
    var i := Lookup(s.devices, id);
    CompletedSlot(s, i, j, status, data, length);
    AsMapFill(s.devices, i, Complete(s, id, s.devices[i].pending[j].id, status, data, length).s.devices[i]);
  }

  lemma CompletedSlot(s: Server, i: nat, j: nat, status: nat, data: Option<seq<byte>>, length: nat)
    requires Table(s) && i < |s.devices| && s.devices[i].active && j < |s.devices[i].pending|
    requires data.Some? ==> |data.value| >= length
    ensures var d, e := s.devices[i], s.devices[i].pending[j];
            Complete(s, d.id, e.id, status, data, length).s.devices == s.devices[i := d.(
              pending := Others(d.pending, e.id), pendingCount := d.pendingCount - 1, completed := d.completed + 1,
              bytesIn := d.bytesIn + (if e.data.direction == In then length else 0),
              bytesOut := d.bytesOut + (if e.data.direction == Out then length else 0))]
  {
    var d := s.devices[i];
    LookupFinds(s, d.id, i);
    PositionIs(d.pending, d.pending[j].id, j);
    WithoutIsOthers(d.pending, d.pending[j].id);
    hide CompleteTransfer, Without, Others, Lookup;
  }

  /** A completion that finds no device or no entry changes nothing. */
  lemma CompletionMisses(s: Server, id: nat, urbId: nat, status: nat, data: Option<seq<byte>>, length: nat)
    requires Table(s) && length < WORD && (data.Some? ==> |data.value| >= length)
    ensures var r := Step(s, OpComplete(id, urbId, status, data, length));
            && (r.reply.Finished? <==> id in AsMap(s.devices) && HasId(AsMap(s.devices)[id].pending, urbId))
            && (!r.reply.Finished? ==> r == Result(s, Failed(STATUS_ERROR)))
  {
    hide Step;
    CallSteps(s, id, NO_TRANSFER, urbId, status, data, length);
    LookupRefines(s, id);
    hide CompleteOn, CompleteTransfer;
  }

  lemma {:induction false} DestroyedGrows(w: World, ops: seq<Op>, id: nat)
    requires IsRun(w, ops) && id in w.h.destroyed
    ensures id in Run(w, ops).h.destroyed
    decreases |ops|
  {
    if ops != [] {
      DestroyedGrows(Next(w, ops[0]), ops[1..], id);
    }
  }

  /** An id whose device was destroyed never names a device again in the run. */
  lemma IdsAreNotReused(ops: seq<Op>, more: seq<Op>, id: nat)
    requires IsRun(Start(), ops + more) && |ops + more| < WORD
    ensures IsRun(Start(), ops)
    ensures id in Run(Start(), ops).h.destroyed ==> !HasActive(Run(Start(), ops + more).s.devices, id)
  {
    hide Core, Within, Start, Run, IsRun, HasActive;
    RunSplit(Start(), ops, more);
    RunKeepsCore(ops + more);
    if id in Run(Start(), ops).h.destroyed {
      DestroyedGrows(Run(Start(), ops), more, id);
      GoneIsInactive(Run(Start(), ops + more), id);
    }
  }

  lemma GoneIsInactive(w: World, id: nat)
    requires Core(w) && id in w.h.destroyed
    ensures !HasActive(w.s.devices, id)
  {
  }
}
