/**
 * Device ownership in the userspace server: a client's tracking array is duplicate-free and is
 * exactly the set of active devices it owns, so its guard never drops a device and the end of
 * its thread releases everything it owns and nothing else.
 */
module UserspaceOwners {
  import opened Collections
  import opened Wire
  import opened Userspace
  import opened UserspaceCore
  import opened UserspaceRuns

  predicate Owns(devs: seq<Device>, h: Handle, id: nat) {
    exists i :: 0 <= i < |devs| && devs[i].active && devs[i].owner == h && devs[i].id == id
  }

  function Present(c: Option<Client>): int { if c.Some? then 1 else 0 }

  ghost predicate Tracks(devs: seq<Device>, c: Client) {
    NoDup(c.devices) && forall id: nat :: id in c.devices <==> Owns(devs, c.handle, id)
  }

  predicate Handles(s: Server) {
    && |s.clients| == MAX_CLIENTS && s.clientCount == Sum(s.clients, Present)
    && (forall j :: 0 <= j < |s.clients| && s.clients[j].Some? ==> s.clients[j].value.handle != 0)
    && (forall i, j :: 0 <= i < j < |s.clients| && s.clients[i].Some? && s.clients[j].Some? ==>
          s.clients[i].value.handle != s.clients[j].value.handle)
  }

  predicate OwnedByLive(s: Server) {
    forall i :: 0 <= i < |s.devices| && s.devices[i].active ==>
      s.devices[i].owner == 0 || Live(s, s.devices[i].owner)
  }

  ghost predicate AllTrack(devs: seq<Device>, clients: seq<Option<Client>>) {
    forall j :: 0 <= j < |clients| && clients[j].Some? ==> Tracks(devs, clients[j].value)
  }

  ghost predicate Owners(s: Server) {
    Handles(s) && OwnedByLive(s) && AllTrack(s.devices, s.clients)
  }

  // ---------- pigeonhole ----------

  function IdOf(d: Device): Option<nat> { if d.active then Some(d.id) else None }

  /** A client's array fits, and has room whenever the device table has. */
  lemma TrackedBound(devs: seq<Device>, c: Client)
    requires Tracks(devs, c)
    ensures |c.devices| <= |devs|
    ensures FreeSlot(devs) < |devs| ==> |c.devices| < |devs|
  {
    NoDupSize(c.devices);
    var ids := set x | x in c.devices;
    forall id | id in ids
      ensures exists i :: 0 <= i < |devs| && IdOf(devs[i]) == Some(id)
    {
      var i :| 0 <= i < |devs| && devs[i].active && devs[i].owner == c.handle && devs[i].id == id;
      assert IdOf(devs[i]) == Some(id);
    }
    Pigeonhole(devs, IdOf, ids);
    if FreeSlot(devs) < |devs| {
      assert IdOf(devs[FreeSlot(devs)]) == None;
    }
  }

  // ---------- frames ----------

  lemma SlotIs(s: Server, h: Handle, j: nat)
    requires Handles(s) && j < |s.clients| && s.clients[j].Some? && s.clients[j].value.handle == h
    ensures ClientSlot(s.clients, h) == j
  {
    var k := ClientSlot(s.clients, h);
    assert k <= j;
  }

  lemma LiveHas(s: Server, h: Handle)
    ensures Live(s, h) <==> exists j :: 0 <= j < |s.clients| && s.clients[j].Some? && s.clients[j].value.handle == h
  {
  }

  lemma SameOwns(a: seq<Device>, b: seq<Device>, h: Handle, id: nat)
    requires |a| == |b|
    requires forall i :: 0 <= i < |a| ==> a[i].active == b[i].active && a[i].id == b[i].id && a[i].owner == b[i].owner
    ensures Owns(a, h, id) <==> Owns(b, h, id)
  {
    if Owns(a, h, id) {
      var i :| 0 <= i < |a| && a[i].active && a[i].owner == h && a[i].id == id;
      assert b[i].active;
    }
    if Owns(b, h, id) {
      var i :| 0 <= i < |b| && b[i].active && b[i].owner == h && b[i].id == id;
      assert a[i].active;
    }
  }

  /** URB traffic does not move devices between owners. */
  lemma TrafficKeeps(s: Server, s': Server)
    requires Owners(s) && OnlyTraffic(s, s')
    ensures Owners(s')
  {
    forall j | 0 <= j < |s'.clients| && s'.clients[j].Some?
      ensures Tracks(s'.devices, s'.clients[j].value)
    {
      var c := s.clients[j].value;
      assert Tracks(s.devices, c);
      forall id: nat
        ensures id in c.devices <==> Owns(s'.devices, c.handle, id)
      {
        SameOwns(s.devices, s'.devices, c.handle, id);
      }
    }
  }

  /** Filling a free slot adds one owned id, for its owner only. */
  lemma OwnsAfterFill(devs: seq<Device>, i: nat, d: Device, h: Handle, id: nat)
    requires i < |devs| && !devs[i].active && d.active
    ensures Owns(devs[i := d], h, id) <==> Owns(devs, h, id) || (d.owner == h && d.id == id)
  {
    var b := devs[i := d];
    if Owns(devs, h, id) {
      var k :| 0 <= k < |devs| && devs[k].active && devs[k].owner == h && devs[k].id == id;
      assert b[k] == devs[k];
    }
    if d.owner == h && d.id == id {
      assert b[i].active;
    }
  }

  /** Cleaning a set of ids removes those ids and no other. */
  lemma OwnsAfterCleanup(s: Server, b: seq<Device>, gone: set<nat>, h: Handle, id: nat)
    requires Table(s) && |b| == |s.devices|
    requires forall i :: 0 <= i < |b| ==>
      b[i] == if s.devices[i].active && s.devices[i].id in gone then Cleanup(s.devices[i]) else s.devices[i]
    ensures Owns(b, h, id) <==> Owns(s.devices, h, id) && id !in gone
  {
    var a := s.devices;
    if Owns(a, h, id) && id !in gone {
      var i :| 0 <= i < |a| && a[i].active && a[i].owner == h && a[i].id == id;
      assert b[i] == a[i];
    }
    if Owns(b, h, id) {
      var i :| 0 <= i < |b| && b[i].active && b[i].owner == h && b[i].id == id;
      assert b[i] == a[i];
    }
  }

  // ---------- one lemma per kind of step ----------

  lemma AcceptKeepsOwners(s: Server, h: Handle, started: bool)
    requires Owners(s) && h != 0 && !Live(s, h)
    ensures Owners(Accept(s, h, started).s)
  {
    var s' := Accept(s, h, started).s;
    var i := FreeClientSlot(s.clients);
    if i < |s.clients| && started {
      SumUpdate(s.clients, i, s'.clients[i], Present);
      forall k | 0 <= k < |s.devices| && s.devices[k].active
        ensures s.devices[k].owner != h && (s.devices[k].owner == 0 || Live(s', s.devices[k].owner))
      {
        if s.devices[k].owner != 0 {
          var j := ClientSlot(s.clients, s.devices[k].owner);
          assert s'.clients[j] == s.clients[j];
        }
      }
      assert Tracks(s'.devices, s'.clients[i].value);
    } else {
      forall k | 0 <= k < |s.devices| && s.devices[k].active && s.devices[k].owner != 0
        ensures Live(s', s.devices[k].owner)
      {
        assert Live(s, s.devices[k].owner);
      }
    }
  }

  lemma LiveUpdate(s: Server, s': Server, j: nat, c: Client, h: Handle)
    requires j < |s.clients| && s.clients[j].Some? && s'.clients == s.clients[j := Some(c)]
    requires c.handle == s.clients[j].value.handle
    ensures Live(s', h) <==> Live(s, h)
  {
    LiveHas(s, h);
    LiveHas(s', h);
    if Live(s, h) {
      var k := ClientSlot(s.clients, h);
      assert s'.clients[k].Some? && s'.clients[k].value.handle == h;
    }
    if Live(s', h) {
      var k := ClientSlot(s'.clients, h);
      assert s.clients[k].Some? && s.clients[k].value.handle == h;
    }
  }

  /** A created device (owner 0) is in nobody's array; an attached one is in its client's, never dropped. */
  lemma FillKeepsOwners(s: Server, i: nat, d: Device, s': Server)
    requires Table(s) && Owners(s) && i < |s.devices| && !s.devices[i].active
    requires d.active && d.id == s.nextDeviceId + 1 && (d.owner == 0 || Live(s, d.owner))
    requires s'.devices == s.devices[i := d] && s'.clientCount == s.clientCount
    requires d.owner == 0 ==> s'.clients == s.clients
    requires d.owner != 0 ==>
      var j := ClientSlot(s.clients, d.owner);
      s'.clients == s.clients[j := Some(Track(s.clients[j].value, d.id))]
    ensures Owners(s')
  {
    var j0 := ClientSlot(s.clients, d.owner);
    if d.owner != 0 {
      SumUpdate(s.clients, j0, s'.clients[j0], Present);
      FillLive(s, d.owner, d.id, s');
    } else {
      assert forall h :: Live(s', h) <==> Live(s, h);
    }
    forall j | 0 <= j < |s'.clients| && s'.clients[j].Some?
      ensures Tracks(s'.devices, s'.clients[j].value)
    {
      FillTracks(s, i, d, s', j);
    }
  }

  lemma FillLive(s: Server, owner: Handle, id: nat, s': Server)
    requires Live(s, owner)
    requires var j := ClientSlot(s.clients, owner);
             s'.clients == s.clients[j := Some(Track(s.clients[j].value, id))]
    ensures forall h :: Live(s', h) <==> Live(s, h)
  {
    var j := ClientSlot(s.clients, owner);
    forall h
      ensures Live(s', h) <==> Live(s, h)
    {
      LiveUpdate(s, s', j, Track(s.clients[j].value, id), h);
    }
  }

  lemma FillTracks(s: Server, i: nat, d: Device, s': Server, j: nat)
    requires Table(s) && Owners(s) && i < |s.devices| && !s.devices[i].active
    requires d.active && d.id == s.nextDeviceId + 1 && (d.owner == 0 || Live(s, d.owner))
    requires s'.devices == s.devices[i := d] && j < |s.clients| && s.clients[j].Some?
    requires d.owner == 0 ==> s'.clients == s.clients
    requires d.owner != 0 ==>
      var j := ClientSlot(s.clients, d.owner);
      s'.clients == s.clients[j := Some(Track(s.clients[j].value, d.id))]
    ensures Tracks(s'.devices, s'.clients[j].value)
  {
    var c, c' := s.clients[j].value, s'.clients[j].value;
    assert Tracks(s.devices, c);
    assert !Owns(s.devices, c.handle, d.id);
    if c.handle == d.owner {
      SlotIs(s, d.owner, j);
      TrackedBound(s.devices, c);
      assert FreeSlot(s.devices) <= i;
      assert c'.devices == c.devices + [d.id];
    }
    forall id: nat
      ensures id in c'.devices <==> Owns(s'.devices, c'.handle, id)
    {
      OwnsAfterFill(s.devices, i, d, c.handle, id);
    }
  }

  lemma DetachKeepsOwners(s: Server, h: Handle, id: nat)
    requires Table(s) && Owners(s) && Live(s, h)
    ensures Owners(Detach(s, h, id).s)
  {
    var s' := Detach(s, h, id).s;
    var i, j := Lookup(s.devices, id), ClientSlot(s.clients, h);
    if i < |s.devices| && s.devices[i].owner == h {
      SumUpdate(s.clients, j, s'.clients[j], Present);
      forall k | 0 <= k < |s'.devices| && s'.devices[k].active
        ensures s'.devices[k].owner == 0 || Live(s', s'.devices[k].owner)
      {
        LiveUpdate(s, s', j, s'.clients[j].value, s.devices[k].owner);
      }
      forall k | 0 <= k < |s'.clients| && s'.clients[k].Some?
        ensures Tracks(s'.devices, s'.clients[k].value)
      {
        DetachTracks(s, h, id, k);
      }
    }
  }

  lemma DetachTracks(s: Server, h: Handle, id: nat, k: nat)
    requires Table(s) && Owners(s) && Live(s, h) && k < |s.clients| && s.clients[k].Some?
    requires Lookup(s.devices, id) < |s.devices| && s.devices[Lookup(s.devices, id)].owner == h
    ensures var s' := Detach(s, h, id).s; s'.clients[k].Some? && Tracks(s'.devices, s'.clients[k].value)
  {
    var s' := Detach(s, h, id).s;
    var i, j := Lookup(s.devices, id), ClientSlot(s.clients, h);
    var c, c' := s.clients[k].value, s'.clients[k].value;
    assert Tracks(s.devices, c);
    if k == j {
      assert Owns(s.devices, h, id);
      var p := FirstIndex(c.devices, (x: nat) => x == id);
      assert c.devices[p] == id;
      SwapRemoveExact(c.devices, p);
      assert c'.devices == Untrack(c, id).devices;
      UntrackIs(c, id);
    }
    forall x: nat
      ensures x in c'.devices <==> Owns(s'.devices, c'.handle, x)
    {
      OwnsAfterCleanup(s, s'.devices, {id}, c.handle, x);
      assert Owns(s.devices, h, id);
      assert k != j ==> !Owns(s.devices, c.handle, id);
    }
  }

  lemma UntrackIs(c: Client, id: nat)
    requires NoDup(c.devices) && id in c.devices
    ensures NoDup(Untrack(c, id).devices)
    ensures forall x :: x in Untrack(c, id).devices <==> x in c.devices && x != id
  {
    var k := FirstIndex(c.devices, (x: nat) => x == id);
    SwapRemoveExact(c.devices, k);
  }

  lemma DestroyKeepsOwners(s: Server, id: nat)
    requires Table(s) && Owners(s)
    requires Lookup(s.devices, id) < |s.devices| ==> s.devices[Lookup(s.devices, id)].owner == 0
    ensures Owners(Destroy(s, id).s)
  {
    var s' := Destroy(s, id).s;
    var i := Lookup(s.devices, id);
    if i < |s.devices| {
      assert forall h :: Live(s', h) <==> Live(s, h);
      forall j | 0 <= j < |s'.clients| && s'.clients[j].Some?
        ensures Tracks(s'.devices, s'.clients[j].value)
      {
        var c := s.clients[j].value;
        assert Tracks(s.devices, c);
        forall x: nat
          ensures x in c.devices <==> Owns(s'.devices, c.handle, x)
        {
          OwnsAfterCleanup(s, s'.devices, {id}, c.handle, x);
        }
      }
    }
  }

  lemma ExitKeepsOwners(s: Server, h: Handle)
    requires Table(s) && Owners(s) && Live(s, h)
    ensures Owners(Exit(s, h).s)
  {
    var s' := Exit(s, h).s;
    var j := ClientSlot(s.clients, h);
    SumUpdate(s.clients, j, None, Present);
    ExitReleases(s, h);
    forall k | 0 <= k < |s'.devices| && s'.devices[k].active
      ensures s'.devices[k].owner == 0 || Live(s', s'.devices[k].owner)
    {
      var o := s.devices[k].owner;
      if o != 0 {
        var m := ClientSlot(s.clients, o);
        assert s'.clients[m] == s.clients[m];
      }
    }
    forall k | 0 <= k < |s'.clients| && s'.clients[k].Some?
      ensures Tracks(s'.devices, s'.clients[k].value)
    {
      var c := s.clients[k].value;
      assert Tracks(s.devices, c);
      var gone := set x | x in s.clients[j].value.devices;
      forall x: nat
        ensures x in c.devices <==> Owns(s'.devices, c.handle, x)
      {
        forall i | 0 <= i < |s.devices|
          ensures s'.devices[i] ==
                  if s.devices[i].active && s.devices[i].id in gone then Cleanup(s.devices[i]) else s.devices[i]
        {
          CleanupTrackedSlots(s.devices, s.clients[j].value.devices, i);
        }
        OwnsAfterCleanup(s, s'.devices, gone, c.handle, x);
        assert c.handle != h;
        assert x in gone ==> Owns(s.devices, h, x) && !Owns(s.devices, c.handle, x);
      }
    }
  }

  lemma OneOwner(s: Server, h: Handle, h': Handle, id: nat)
    requires Table(s) && Owns(s.devices, h, id) && Owns(s.devices, h', id)
    ensures h == h'
  {
    var devs := s.devices;
    var i :| 0 <= i < |devs| && devs[i].active && devs[i].owner == h && devs[i].id == id;
    var k :| 0 <= k < |devs| && devs[k].active && devs[k].owner == h' && devs[k].id == id;
  }

  /** When a client's thread exits, exactly the devices it owns are cleaned up; no other slot changes. */
  lemma ExitReleases(s: Server, h: Handle)
    requires Table(s) && Owners(s) && Live(s, h)
    ensures var s' := Exit(s, h).s;
            forall i :: 0 <= i < |s.devices| ==>
              s'.devices[i] == if s.devices[i].active && s.devices[i].owner == h then Cleanup(s.devices[i]) else s.devices[i]
  {
    var c := s.clients[ClientSlot(s.clients, h)].value;
    assert Tracks(s.devices, c);
    forall i | 0 <= i < |s.devices|
      ensures Exit(s, h).s.devices[i] ==
              if s.devices[i].active && s.devices[i].owner == h then Cleanup(s.devices[i]) else s.devices[i]
    {
      CleanupTrackedSlots(s.devices, c.devices, i);
      var d := s.devices[i];
      if d.active {
        assert d.owner == h ==> Owns(s.devices, h, d.id);
        if d.id in c.devices {
          assert Owns(s.devices, d.owner, d.id);
          OneOwner(s, h, d.owner, d.id);
        }
      }
    }
  }

  // ---------- runs ----------

  /** The API call VusbUsDestroyDevice is used only on devices no client owns. */
  predicate Polite(s: Server, op: Op) {
    op.OpDestroy? && Lookup(s.devices, op.id) < |s.devices| ==> s.devices[Lookup(s.devices, op.id)].owner == 0
  }

  lemma CreateKeepsOwners(s: Server, info: DeviceInfo, descriptors: seq<byte>)
    requires Table(s) && Owners(s) && s.nextDeviceId + 1 < WORD
    ensures Owners(Create(s, info, descriptors).s)
  {
    hide Owners, Table;
    var i := FreeSlot(s.devices);
    if i < |s.devices| {
      FillKeepsOwners(s, i, Fresh(s.nextDeviceId + 1, info, descriptors), Create(s, info, descriptors).s);
    }
  }

  /** Clients are left alone, and no slot changes hands, id or activity. */
  predicate OnlyTraffic(s: Server, s': Server) {
    && s'.clients == s.clients && s'.clientCount == s.clientCount && |s'.devices| == |s.devices|
    && forall i :: 0 <= i < |s.devices| ==>
         var a, b := s.devices[i], s'.devices[i]; a.active == b.active && a.id == b.id && a.owner == b.owner
  }

  lemma SubmitIsTraffic(s: Server, id: nat, t: Transfer)
    ensures OnlyTraffic(s, Submit(s, id, t).s)
  {
  }

  lemma CompleteIsTraffic(s: Server, id: nat, urbId: nat, status: nat, data: Option<seq<byte>>, length: nat)
    requires data.Some? ==> |data.value| >= length
    ensures OnlyTraffic(s, Complete(s, id, urbId, status, data, length).s)
  {
  }

  lemma RemoteIsTraffic(s: Server, payload: seq<byte>, beyond: seq<byte>)
    requires CompletionReadable(payload, beyond)
    ensures OnlyTraffic(s, CompletePayload(s, payload, beyond).s)
  {
    if |payload| >= COMPLETE_SIZE {
      var bytes := (payload + beyond)[COMPLETE_SIZE..COMPLETE_SIZE + ActualLength(payload)];
      var i := LookupRemote(s.devices, Get32(payload, 0));
      hide Get32, ActualLength;
      if i < |s.devices| {
        CompleteIsTraffic(s, s.devices[i].id, Get32(payload, 4), Get32(payload, 8),
                          if bytes == [] then None else Some(bytes), |bytes|);
        hide Complete;
      }
    }
  }

  lemma UrbStepIsTraffic(s: Server, op: Op)
    requires Enabled(s, op) && (op.OpSubmit? || op.OpComplete? || op.OpCompleteRemote?)
    ensures OnlyTraffic(s, Step(s, op).s) && Step(s, op).s.nextDeviceId == s.nextDeviceId
  {
    assert Step(s, op).s.nextDeviceId == s.nextDeviceId by {
      hide Get32, CompleteOn, SubmitTo, ActualLength;
    }
    hide OnlyTraffic, Complete, Submit, CompletePayload;
    match op {
      case OpSubmit(id, t) => SubmitIsTraffic(s, id, t);
      case OpComplete(id, urbId, status, data, length) => CompleteIsTraffic(s, id, urbId, status, data, length);
      case OpCompleteRemote(payload, beyond) => RemoteIsTraffic(s, payload, beyond);
    }
  }

  lemma UrbStepKeepsOwners(s: Server, op: Op)
    requires Owners(s) && Enabled(s, op) && (op.OpSubmit? || op.OpComplete? || op.OpCompleteRemote?)
    ensures Owners(Step(s, op).s)
  {
    hide Owners, OnlyTraffic, Step;
    UrbStepIsTraffic(s, op);
    TrafficKeeps(s, Step(s, op).s);
  }

  lemma StepKeepsOwners(s: Server, op: Op)
    requires Table(s) && Owners(s) && s.nextDeviceId + 1 < WORD && Enabled(s, op) && Polite(s, op)
    ensures Owners(Step(s, op).s)
  {
    hide Owners, Table;
    match op {
      case OpAccept(h, started) => AcceptKeepsOwners(s, h, started);
      case OpCreate(info, descriptors) => CreateKeepsOwners(s, info, descriptors);
      case OpAttach(h, payload, beyond) => AttachKeepsOwners(s, h, payload, beyond);
      case OpDestroy(id) => DestroyKeepsOwners(s, id);
      case OpDetach(h, id) => DetachKeepsOwners(s, h, id);
      case OpExit(h) => ExitKeepsOwners(s, h);
      case _ => UrbStepKeepsOwners(s, op);
    }
  }

  lemma AttachKeepsOwners(s: Server, h: Handle, payload: seq<byte>, beyond: seq<byte>)
    requires Table(s) && Owners(s) && s.nextDeviceId + 1 < WORD && Live(s, h) && PayloadReadable(payload, beyond)
    ensures Owners(Attach(s, h, payload, beyond).s)
  {
    hide Owners, Table, DecodeInfo, Get32, AttachDevice;
    if |payload| >= INFO_SIZE + 4 {
      var end := INFO_SIZE + 4 + Get32(payload, INFO_SIZE);
      AttachDeviceKeepsOwners(s, h, DecodeInfo(payload), (payload + beyond)[INFO_SIZE + 4..end]);
    }
  }

  lemma AttachDeviceKeepsOwners(s: Server, h: Handle, info: DeviceInfo, descriptors: seq<byte>)
    requires Table(s) && Owners(s) && s.nextDeviceId + 1 < WORD && Live(s, h)
    ensures Owners(AttachDevice(s, h, info, descriptors).s)
  {
    assert h != 0;
    hide Owners, Table;
    if FreeSlot(s.devices) < |s.devices| {
      AttachShape(s, h, info, descriptors);
      hide AttachDevice;
      var d := Owned(Fresh(s.nextDeviceId + 1, info, descriptors), h, info.id);
      FillKeepsOwners(s, FreeSlot(s.devices), d, AttachDevice(s, h, info, descriptors).s);
    }
  }

  predicate PoliteRun(w: World, ops: seq<Op>)
    requires IsRun(w, ops)
    decreases |ops|
  {
    ops == [] || (Polite(w.s, ops[0]) && PoliteRun(Next(w, ops[0]), ops[1..]))
  }

  lemma {:induction false} OwnersFrom(w: World, ops: seq<Op>, n: nat)
    requires Core(w) && Within(w.s, n) && Owners(w.s) && IsRun(w, ops) && PoliteRun(w, ops) && n + |ops| < WORD
    ensures Owners(Run(w, ops).s)
    decreases |ops|
  {
    assert Table(w.s);
    hide Core, Owners;
    if ops != [] {
      StepKeepsCore(w, ops[0], n);
      StepKeepsOwners(w.s, ops[0]);
      OwnersFrom(Next(w, ops[0]), ops[1..], n + 1);
    }
  }

  /**
   * Each connected client's array is duplicate-free, fits its sixteen entries and is exactly the set of
   * active devices it owns; every owner is connected.
   */
  ghost predicate TrackingExact(s: Server) {
    && (forall j :: 0 <= j < |s.clients| && s.clients[j].Some? ==>
          var c := s.clients[j].value;
          && NoDup(c.devices) && |c.devices| <= MAX_DEVICES
          && forall id: nat :: id in c.devices <==> Owns(s.devices, c.handle, id))
    && forall i :: 0 <= i < |s.devices| && s.devices[i].active ==>
         s.devices[i].owner == 0 || Live(s, s.devices[i].owner)
  }

  lemma OwnersAreExact(s: Server)
    requires Table(s) && Owners(s)
    ensures TrackingExact(s)
  {
    forall j | 0 <= j < |s.clients| && s.clients[j].Some?
      ensures |s.clients[j].value.devices| <= MAX_DEVICES
    {
      TrackedBound(s.devices, s.clients[j].value);
    }
  }

  lemma StartIsOwned(s: Server)
    requires |s.clients| == MAX_CLIENTS && forall j :: 0 <= j < |s.clients| ==> s.clients[j].None?
    requires s.clientCount == 0 && forall i :: 0 <= i < |s.devices| ==> !s.devices[i].active
    ensures Owners(s)
  {
    NobodyPresent(s.clients);
  }

  lemma NobodyOwnsAtStart()
    ensures Owners(Start().s)
  {
    hide Owners;
    StartIsOwned(Initial());
  }

  /** In every state reached by fewer than 2^32 steps, tracking is exact. */
  lemma {:induction false} TrackingIsExact(ops: seq<Op>)
    requires IsRun(Start(), ops) && |ops| < WORD && PoliteRun(Start(), ops)
    ensures TrackingExact(Run(Start(), ops).s)
  {
    hide Core, Within, Owners, TrackingExact, Start, Run, IsRun, PoliteRun, Table;
    StartIsCore();
    NobodyOwnsAtStart();
    OwnersFrom(Start(), ops, 0);
    RunKeepsCore(ops);
    CoreHasTable(Run(Start(), ops));
    OwnersAreExact(Run(Start(), ops).s);
  }

  lemma {:induction false} NobodyPresent(clients: seq<Option<Client>>)
    requires forall j :: 0 <= j < |clients| ==> clients[j].None?
    ensures Sum(clients, Present) == 0
  {
    if clients != [] {
      assert forall j :: 0 <= j < |clients[1..]| ==> clients[1..][j] == clients[j + 1];
      NobodyPresent(clients[1..]);
    }
  }

  /** Exactly when a direct destroy keeps the tracking exact: the device has no owner. */
  lemma DestroyKeepsTrackingIff(s: Server, id: nat)
    requires Table(s) && Owners(s)
    ensures Owners(Destroy(s, id).s) <==>
            (Lookup(s.devices, id) == |s.devices| || s.devices[Lookup(s.devices, id)].owner == 0)
  {
    var i := Lookup(s.devices, id);
    if i == |s.devices| || s.devices[i].owner == 0 {
      DestroyKeepsOwners(s, id);
    } else {
      var s' := Destroy(s, id).s;
      var h := s.devices[i].owner;
      var j := ClientSlot(s.clients, h);
      var c := s.clients[j].value;
      assert Tracks(s.devices, c) && Owns(s.devices, h, id);
      OwnsAfterCleanup(s, s'.devices, {id}, h, id);
      assert !Tracks(s'.devices, s'.clients[j].value);
    }
  }
}
