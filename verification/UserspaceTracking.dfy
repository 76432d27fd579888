/**
 * What the userspace server's tracking arrays keep over every run, also when VusbUsDestroyDevice takes a
 * device away from its client: an exit never touches another client's device, and a device outlives its
 * client exactly when its attach met a full array.
 */
module UserspaceTracking {
  import opened Collections
  import opened Wire
  import opened Userspace
  import opened UserspaceCore
  import opened UserspaceRuns
  import opened UserspaceOwners

  // ---------- the invariant ----------

  /** The array is duplicate-free, fits, names issued ids only, and what it names, if active, belongs to its client. */
  predicate ArraySound(devs: seq<Device>, nextId: nat, c: Client) {
    && NoDup(c.devices) && |c.devices| <= MAX_DEVICES
    && (forall k :: 0 <= k < |c.devices| ==> c.devices[k] <= nextId)
    && forall i :: 0 <= i < |devs| && devs[i].active && devs[i].id in c.devices ==> devs[i].owner == c.handle
  }

  predicate Arrays(s: Server) {
    forall j :: 0 <= j < |s.clients| && s.clients[j].Some? ==> ArraySound(s.devices, s.nextDeviceId, s.clients[j].value)
  }

  predicate Sound(s: Server) { Handles(s) && Arrays(s) }

  /** Slots change at most to inactive or in their traffic. */
  predicate Fewer(a: seq<Device>, b: seq<Device>) {
    |a| == |b| && forall i :: 0 <= i < |b| && b[i].active ==> a[i].active && a[i].id == b[i].id && a[i].owner == b[i].owner
  }

  /** A client record may lose ids, and nothing else. */
  predicate Lost(c: Client, c': Client) {
    && c'.handle == c.handle && NoDup(c'.devices) && |c'.devices| <= |c.devices|
    && forall k :: 0 <= k < |c'.devices| ==> c'.devices[k] in c.devices
  }

  lemma ShrinkKeeps(devs: seq<Device>, devs': seq<Device>, nextId: nat, c: Client, c': Client)
    requires ArraySound(devs, nextId, c) && Fewer(devs, devs') && Lost(c, c')
    ensures ArraySound(devs', nextId, c')
  {
    forall i | 0 <= i < |devs'| && devs'[i].active && devs'[i].id in c'.devices
      ensures devs'[i].owner == c'.handle
    {
      var k :| 0 <= k < |c'.devices| && c'.devices[k] == devs'[i].id;
      assert devs[i].id in c.devices;
    }
  }

  lemma FillKeeps(devs: seq<Device>, i: nat, d: Device, nextId: nat, c: Client, c': Client)
    requires ArraySound(devs, nextId, c) && i < |devs| && d.id == nextId + 1
    requires forall m :: 0 <= m < |devs| && devs[m].active ==> devs[m].id <= nextId
    requires c' == c || (c' == Track(c, d.id) && d.owner == c.handle)
    ensures ArraySound(devs[i := d], nextId + 1, c')
  {
    assert d.id !in c.devices;
  }

  // ---------- every step keeps it ----------

  lemma UntrackLoses(c: Client, id: nat)
    requires NoDup(c.devices)
    ensures Lost(c, Untrack(c, id))
  {
    var k := FirstIndex(c.devices, (x: nat) => x == id);
    if k < |c.devices| {
      SwapRemoveExact(c.devices, k);
    }
  }

  /** Replacing one record by another of the same handle, or by none, keeps handles distinct and counted. */
  lemma HandlesKept(s: Server, s': Server, j: nat)
    requires Handles(s) && j < |s.clients| && s.clients[j].Some?
    requires |s'.clients| == |s.clients| && s'.clients == s.clients[j := s'.clients[j]]
    requires s'.clients[j].Some? ==> s'.clients[j].value.handle == s.clients[j].value.handle
    requires s'.clientCount == s.clientCount - (if s'.clients[j].Some? then 0 else 1)
    ensures Handles(s')
  {
    SumUpdate(s.clients, j, s'.clients[j], Present);
  }

  /** Traffic, clean-ups and lost ids. */
  lemma SoundShrink(s: Server, s': Server)
    requires Sound(s) && Handles(s') && Fewer(s.devices, s'.devices) && s'.nextDeviceId == s.nextDeviceId
    requires |s'.clients| == |s.clients|
    requires forall j :: 0 <= j < |s.clients| && s'.clients[j].Some? ==>
      s.clients[j].Some? && Lost(s.clients[j].value, s'.clients[j].value)
    ensures Sound(s')
  {
    forall j | 0 <= j < |s'.clients| && s'.clients[j].Some?
      ensures ArraySound(s'.devices, s'.nextDeviceId, s'.clients[j].value)
    {
      ShrinkKeeps(s.devices, s'.devices, s.nextDeviceId, s.clients[j].value, s'.clients[j].value);
    }
  }

  lemma AcceptSound(s: Server, h: Handle, started: bool)
    requires Sound(s) && h != 0 && !Live(s, h)
    ensures Sound(Accept(s, h, started).s)
  {
    var s' := Accept(s, h, started).s;
    var i := FreeClientSlot(s.clients);
    if i < |s.clients| && started {
      SumUpdate(s.clients, i, s'.clients[i], Present);
      assert ArraySound(s'.devices, s'.nextDeviceId, s'.clients[i].value);
    }
  }

  lemma DetachSound(s: Server, h: Handle, id: nat)
    requires Sound(s) && Live(s, h)
    ensures Sound(Detach(s, h, id).s)
  {
    var i, j := Lookup(s.devices, id), ClientSlot(s.clients, h);
    if i < |s.devices| && s.devices[i].owner == h {
      UntrackLoses(s.clients[j].value, id);
      HandlesKept(s, Detach(s, h, id).s, j);
      hide Handles, Untrack;
      SoundShrink(s, Detach(s, h, id).s);
    }
  }

  lemma ExitSound(s: Server, h: Handle)
    requires Sound(s) && Live(s, h)
    ensures Sound(Exit(s, h).s)
  {
    var j := ClientSlot(s.clients, h);
    HandlesKept(s, Exit(s, h).s, j);
    hide Handles;
    forall i | 0 <= i < |s.devices|
      ensures Exit(s, h).s.devices[i] == s.devices[i] || !Exit(s, h).s.devices[i].active
    {
      CleanupTrackedSlots(s.devices, s.clients[j].value.devices, i);
    }
    SoundShrink(s, Exit(s, h).s);
  }

  /** Clients are left alone, and slots change at most to inactive or in their traffic. */
  predicate QuietStep(s: Server, s': Server) {
    && Fewer(s.devices, s'.devices) && s'.nextDeviceId == s.nextDeviceId
    && s'.clients == s.clients && s'.clientCount == s.clientCount
  }

  lemma DestroyIsQuiet(s: Server, id: nat)
    ensures QuietStep(s, Destroy(s, id).s)
  {
  }

  lemma UrbStepIsQuiet(s: Server, s': Server)
    requires OnlyTraffic(s, s') && s'.nextDeviceId == s.nextDeviceId
    ensures QuietStep(s, s')
  {
  }

  lemma TrafficIsQuiet(s: Server, op: Op)
    requires Enabled(s, op) && (op.OpDestroy? || op.OpSubmit? || op.OpComplete? || op.OpCompleteRemote?)
    ensures QuietStep(s, Step(s, op).s)
  {
    hide QuietStep, Destroy, OnlyTraffic;
    if op.OpDestroy? {
      DestroyIsQuiet(s, op.id);
    } else {
      UrbStepIsTraffic(s, op);
      UrbStepIsQuiet(s, Step(s, op).s);
    }
  }

  lemma QuietSound(s: Server, s': Server)
    requires Sound(s) && QuietStep(s, s')
    ensures Sound(s')
  {
    SoundShrink(s, s');
  }

  /** A new device is named by no array, except its own client's when that one takes it. */
  lemma FillSound(s: Server, i: nat, d: Device, s': Server)
    requires Table(s) && Sound(s) && i < |s.devices| && d.id == s.nextDeviceId + 1 && (d.owner == 0 || Live(s, d.owner))
    requires s'.devices == s.devices[i := d] && s'.nextDeviceId == d.id && s'.clientCount == s.clientCount
    requires d.owner == 0 ==> s'.clients == s.clients
    requires d.owner != 0 ==>
      var j := ClientSlot(s.clients, d.owner);
      s'.clients == s.clients[j := Some(Track(s.clients[j].value, d.id))]
    ensures Sound(s')
  {
    if d.owner != 0 {
      HandlesKept(s, s', ClientSlot(s.clients, d.owner));
    }
    forall j | 0 <= j < |s'.clients| && s'.clients[j].Some?
      ensures ArraySound(s'.devices, s'.nextDeviceId, s'.clients[j].value)
    {
      hide ArraySound, Track;
      FillKeeps(s.devices, i, d, s.nextDeviceId, s.clients[j].value, s'.clients[j].value);
    }
  }

  lemma CreateSound(s: Server, info: DeviceInfo, descriptors: seq<byte>)
    requires Table(s) && Sound(s) && s.nextDeviceId + 1 < WORD
    ensures Sound(Create(s, info, descriptors).s)
  {
    hide Sound, Table;
    var i := FreeSlot(s.devices);
    if i < |s.devices| {
      FillSound(s, i, Fresh(s.nextDeviceId + 1, info, descriptors), Create(s, info, descriptors).s);
    }
  }

  lemma AttachDeviceSound(s: Server, h: Handle, info: DeviceInfo, descriptors: seq<byte>)
    requires Table(s) && Sound(s) && s.nextDeviceId + 1 < WORD && Live(s, h)
    ensures Sound(AttachDevice(s, h, info, descriptors).s)
  {
    assert h != 0;
    hide Sound, Table;
    if FreeSlot(s.devices) < |s.devices| {
      AttachShape(s, h, info, descriptors);
      hide AttachDevice;
      var d := Owned(Fresh(s.nextDeviceId + 1, info, descriptors), h, info.id);
      FillSound(s, FreeSlot(s.devices), d, AttachDevice(s, h, info, descriptors).s);
    }
  }

  lemma AttachSound(s: Server, h: Handle, payload: seq<byte>, beyond: seq<byte>)
    requires Table(s) && Sound(s) && s.nextDeviceId + 1 < WORD && Live(s, h) && PayloadReadable(payload, beyond)
    ensures Sound(Attach(s, h, payload, beyond).s)
  {
    hide Sound, Table, DecodeInfo, Get32, AttachDevice;
    if |payload| >= INFO_SIZE + 4 {
      var end := INFO_SIZE + 4 + Get32(payload, INFO_SIZE);
      AttachDeviceSound(s, h, DecodeInfo(payload), (payload + beyond)[INFO_SIZE + 4..end]);
    }
  }

  lemma StepSound(s: Server, op: Op)
    requires Table(s) && Sound(s) && s.nextDeviceId + 1 < WORD && Enabled(s, op)
    ensures Sound(Step(s, op).s)
  {
    hide Sound, Table;
    match op {
      case OpAccept(h, started) => AcceptSound(s, h, started);
      case OpCreate(info, descriptors) => CreateSound(s, info, descriptors);
      case OpAttach(h, payload, beyond) => AttachSound(s, h, payload, beyond);
      case OpDetach(h, id) => DetachSound(s, h, id);
      case OpExit(h) => ExitSound(s, h);
      case _ =>
        TrafficIsQuiet(s, op);
        QuietSound(s, Step(s, op).s);
    }
  }

  lemma {:induction false} SoundFrom(w: World, ops: seq<Op>, n: nat)
    requires Core(w) && Within(w.s, n) && Sound(w.s) && IsRun(w, ops) && n + |ops| < WORD
    ensures Sound(Run(w, ops).s)
    decreases |ops|
  {
    assert Table(w.s);
    hide Core, Sound;
    if ops != [] {
      StepKeepsCore(w, ops[0], n);
      StepSound(w.s, ops[0]);
      SoundFrom(Next(w, ops[0]), ops[1..], n + 1);
    }
  }

  lemma StartIsSound(s: Server)
    requires |s.clients| == MAX_CLIENTS && forall j :: 0 <= j < |s.clients| ==> s.clients[j].None?
    requires s.clientCount == 0
    ensures Sound(s)
  {
    NobodyPresent(s.clients);
  }

  lemma SoundAtStart()
    ensures Sound(Start().s)
  {
    hide Sound;
    StartIsSound(Initial());
  }

  /** Over every run of fewer than 2^32 steps, with direct destroys of any devices, the arrays are sound. */
  lemma {:induction false} RunSound(ops: seq<Op>)
    requires IsRun(Start(), ops) && |ops| < WORD
    ensures Sound(Run(Start(), ops).s) && Table(Run(Start(), ops).s)
  {
    hide Core, Within, Sound, Start, Run, IsRun, Table;
    SoundAtStart();
    StartIsCore();
    SoundFrom(Start(), ops, 0);
    RunKeepsCore(ops);
    CoreHasTable(Run(Start(), ops));
  }

  // ---------- what an exit does ----------

  /** Exactly the client's own devices that its array names are cleaned up; every other slot stays as it was. */
  lemma ExitCleansTracked(s: Server, h: Handle, i: nat)
    requires Sound(s) && Live(s, h) && i < |s.devices|
    ensures var d, c := s.devices[i], s.clients[ClientSlot(s.clients, h)].value;
            Exit(s, h).s.devices[i] == if d.active && d.owner == h && d.id in c.devices then Cleanup(d) else d
  {
    CleanupTrackedSlots(s.devices, s.clients[ClientSlot(s.clients, h)].value.devices, i);
  }

  /** Over every run at all: when a client's thread exits, no slot of another owner changes. */
  lemma ExitTouchesNoOther(ops: seq<Op>, h: Handle, i: nat)
    requires IsRun(Start(), ops) && |ops| < WORD
    ensures var s := Run(Start(), ops).s;
            Live(s, h) ==>
              |Exit(s, h).s.devices| == |s.devices| &&
              (i < |s.devices| && s.devices[i].owner != h ==> Exit(s, h).s.devices[i] == s.devices[i])
  {
    hide Run, IsRun, Start, Sound, Cleanup;
    RunSound(ops);
    var s := Run(Start(), ops).s;
    if Live(s, h) && i < |s.devices| {
      ExitCleansTracked(s, h, i);
    }
  }

  /** An exit leaves none of the client's devices active exactly when its array names all of them. */
  lemma {:induction false} ExitReleasesIff(ops: seq<Op>, h: Handle)
    requires IsRun(Start(), ops) && |ops| < WORD
    ensures var s := Run(Start(), ops).s;
            Live(s, h) ==>
              ((forall id: nat :: !Owns(Exit(s, h).s.devices, h, id)) <==> AllNamed(s, h))
  {
    hide Run, IsRun, Start, Sound, Table, Exit, AllNamed;
    RunSound(ops);
    if Live(Run(Start(), ops).s, h) {
      ExitReleasesIn(Run(Start(), ops).s, h);
    }
  }

  /** The client's array names every device it owns. */
  predicate AllNamed(s: Server, h: Handle)
    requires Live(s, h)
  {
    var c := s.clients[ClientSlot(s.clients, h)].value;
    forall i :: 0 <= i < |s.devices| && s.devices[i].active && s.devices[i].owner == h ==> s.devices[i].id in c.devices
  }

  lemma ExitReleasesIn(s: Server, h: Handle)
    requires Sound(s) && Live(s, h)
    ensures (forall id: nat :: !Owns(Exit(s, h).s.devices, h, id)) <==> AllNamed(s, h)
  {
    hide Sound;
    var s' := Exit(s, h).s;
    forall i | 0 <= i < |s.devices|
      ensures var d, c := s.devices[i], s.clients[ClientSlot(s.clients, h)].value;
              s'.devices[i] == if d.active && d.owner == h && d.id in c.devices then Cleanup(d) else d
    {
      ExitCleansTracked(s, h, i);
    }
    if i :| 0 <= i < |s.devices| && s'.devices[i].active && s'.devices[i].owner == h {
      assert Owns(s'.devices, h, s'.devices[i].id);
    }
  }

  /** Without direct destroys of owned devices it always releases all of them, and changes no other slot. */
  lemma {:induction false} PoliteExitReleases(ops: seq<Op>, h: Handle)
    requires IsRun(Start(), ops) && |ops| < WORD && PoliteRun(Start(), ops)
    ensures var s := Run(Start(), ops).s;
            Live(s, h) ==>
              |Exit(s, h).s.devices| == |s.devices| &&
              forall i :: 0 <= i < |s.devices| ==>
                Exit(s, h).s.devices[i]
                == if s.devices[i].active && s.devices[i].owner == h then Cleanup(s.devices[i]) else s.devices[i]
  {
    hide Run, IsRun, Start, PoliteRun, Owners, Core, Within, Table, Exit;
    StartIsCore();
    NobodyOwnsAtStart();
    OwnersFrom(Start(), ops, 0);
    RunSound(ops);
    if Live(Run(Start(), ops).s, h) {
      ExitReleases(Run(Start(), ops).s, h);
      SameSlots(Run(Start(), ops).s, h);
    }
  }

  lemma SameSlots(s: Server, h: Handle)
    requires Live(s, h)
    ensures |Exit(s, h).s.devices| == |s.devices|
  {
  }

  // ---------- the guard of the attach handler ----------

  /** The guard drops a new device exactly when the client's array is full; the device is the client's either way. */
  lemma AttachedIsTrackedIff(s: Server, h: Handle, payload: seq<byte>, beyond: seq<byte>)
    requires Table(s) && Sound(s) && s.nextDeviceId + 1 < WORD && Live(s, h) && PayloadReadable(payload, beyond)
    ensures var r, j := Attach(s, h, payload, beyond), ClientSlot(s.clients, h);
            var c := s.clients[j].value;
            r.reply.Created? ==>
              && r.reply.id == s.nextDeviceId + 1 && Owns(r.s.devices, h, r.reply.id)
              && r.s.clients[j] == Some(if |c.devices| == MAX_DEVICES then c else c.(devices := c.devices + [r.reply.id]))
              && r.reply.id !in c.devices
  {
    var r := Attach(s, h, payload, beyond);
    if r.reply.Created? {
      var end := INFO_SIZE + 4 + Get32(payload, INFO_SIZE);
      hide DecodeInfo, Get32, UrbsOk;
      AttachShape(s, h, DecodeInfo(payload), (payload + beyond)[INFO_SIZE + 4..end]);
      assert r.s.devices[FreeSlot(s.devices)].active;
      assert ArraySound(s.devices, s.nextDeviceId, s.clients[ClientSlot(s.clients, h)].value);
    }
  }

  // ---------- whether a device outlives its client ----------

  /** Client record j has handle h; while the device is active it is h's, and the record names it or not. */
  predicate Standing(s: Server, j: nat, h: Handle, id: nat, tracked: bool) {
    && j < |s.clients| && s.clients[j].Some? && s.clients[j].value.handle == h && id <= s.nextDeviceId
    && forall i :: 0 <= i < |s.devices| && s.devices[i].active && s.devices[i].id == id ==>
         s.devices[i].owner == h && (id in s.clients[j].value.devices <==> tracked)
  }

  lemma StandingShrinks(s: Server, s': Server, j: nat, h: Handle, id: nat, tracked: bool)
    requires Standing(s, j, h, id, tracked) && Fewer(s.devices, s'.devices) && s'.nextDeviceId == s.nextDeviceId
    requires |s'.clients| == |s.clients| && s'.clients[j] == s.clients[j]
    ensures Standing(s', j, h, id, tracked)
  {
  }

  lemma DetachStands(s: Server, j: nat, h: Handle, id: nat, tracked: bool, h': Handle, id': nat)
    requires Table(s) && Sound(s) && Standing(s, j, h, id, tracked) && Live(s, h')
    ensures Standing(Detach(s, h', id').s, j, h, id, tracked)
  {
    var s' := Detach(s, h', id').s;
    var i, k := Lookup(s.devices, id'), ClientSlot(s.clients, h');
    if i < |s.devices| && s.devices[i].owner == h' {
      if k != j {
        hide Table, Sound, Untrack;
        StandingShrinks(s, s', j, h, id, tracked);
      } else {
        UntrackOther(s.clients[j].value, id', id);
        hide Sound, Untrack;
        if id' == id {
          GoneAfterDestroy(s, id);
        }
      }
    }
  }

  lemma UntrackOther(c: Client, id: nat, other: nat)
    requires NoDup(c.devices)
    ensures Untrack(c, id).handle == c.handle
    ensures other != id ==> (other in Untrack(c, id).devices <==> other in c.devices)
  {
    var k := FirstIndex(c.devices, (x: nat) => x == id);
    if k < |c.devices| {
      SwapRemoveExact(c.devices, k);
    }
  }

  lemma GoneAfterDestroy(s: Server, id: nat)
    requires Table(s) && Lookup(s.devices, id) < |s.devices|
    ensures forall i :: 0 <= i < |s.devices| && Destroy(s, id).s.devices[i].active ==> s.devices[i].id != id
  {
  }

  lemma ExitStands(s: Server, j: nat, h: Handle, id: nat, tracked: bool, h': Handle)
    requires Sound(s) && Standing(s, j, h, id, tracked) && Live(s, h') && h' != h
    ensures Standing(Exit(s, h').s, j, h, id, tracked)
  {
    forall i | 0 <= i < |s.devices|
      ensures Exit(s, h').s.devices[i] == s.devices[i] || !Exit(s, h').s.devices[i].active
    {
      CleanupTrackedSlots(s.devices, s.clients[ClientSlot(s.clients, h')].value.devices, i);
    }
    hide Sound;
    StandingShrinks(s, Exit(s, h').s, j, h, id, tracked);
  }

  lemma FillStands(s: Server, i: nat, d: Device, s': Server, j: nat, h: Handle, id: nat, tracked: bool)
    requires Standing(s, j, h, id, tracked) && i < |s.devices| && d.id == s.nextDeviceId + 1
    requires s'.devices == s.devices[i := d] && s'.nextDeviceId == d.id && |s'.clients| == |s.clients|
    requires s'.clients[j] == s.clients[j] || s'.clients[j] == Some(Track(s.clients[j].value, d.id))
    ensures Standing(s', j, h, id, tracked)
  {
  }

  lemma AttachStands(s: Server, j: nat, h: Handle, id: nat, tracked: bool, h': Handle, payload: seq<byte>, beyond: seq<byte>)
    requires Table(s) && Standing(s, j, h, id, tracked) && s.nextDeviceId + 1 < WORD
    requires Live(s, h') && PayloadReadable(payload, beyond)
    ensures Standing(Attach(s, h', payload, beyond).s, j, h, id, tracked)
  {
    hide Table, Standing, DecodeInfo, Get32, Track;
    if |payload| >= INFO_SIZE + 4 && FreeSlot(s.devices) < |s.devices| {
      var info, end := DecodeInfo(payload), INFO_SIZE + 4 + Get32(payload, INFO_SIZE);
      var descriptors := (payload + beyond)[INFO_SIZE + 4..end];
      AttachShape(s, h', info, descriptors);
      hide AttachDevice;
      StandingIn(s, j, h, id, tracked);
      var d := Owned(Fresh(s.nextDeviceId + 1, info, descriptors), h', info.id);
      FillStands(s, FreeSlot(s.devices), d, Attach(s, h', payload, beyond).s, j, h, id, tracked);
    }
  }

  lemma StandingIn(s: Server, j: nat, h: Handle, id: nat, tracked: bool)
    requires Standing(s, j, h, id, tracked)
    ensures j < |s.clients| && s.clients[j].Some?
  {
  }

  /** Nothing but the client's own exit, or the end of the device, changes how the device stands. */
  lemma StepStands(s: Server, op: Op, j: nat, h: Handle, id: nat, tracked: bool)
    requires Table(s) && Sound(s) && s.nextDeviceId + 1 < WORD && Enabled(s, op) && op != OpExit(h)
    requires Standing(s, j, h, id, tracked)
    ensures Standing(Step(s, op).s, j, h, id, tracked)
  {
    hide Table, Sound, Standing, Fewer, Complete, Submit, Destroy, CompletePayload, QuietStep;
    StandingIn(s, j, h, id, tracked);
    match op {
      case OpAttach(h', payload, beyond) => AttachStands(s, j, h, id, tracked, h', payload, beyond);
      case OpDetach(h', id') => DetachStands(s, j, h, id, tracked, h', id');
      case OpExit(h') => ExitStands(s, j, h, id, tracked, h');
      case OpCreate(info, descriptors) => CreateStands(s, j, h, id, tracked, info, descriptors);
      case OpAccept(h', started) => AcceptStands(s, j, h, id, tracked, h', started);
      case _ =>
        TrafficIsQuiet(s, op);
        QuietStands(s, Step(s, op).s, j, h, id, tracked);
    }
  }

  lemma QuietStands(s: Server, s': Server, j: nat, h: Handle, id: nat, tracked: bool)
    requires Standing(s, j, h, id, tracked) && QuietStep(s, s')
    ensures Standing(s', j, h, id, tracked)
  {
    StandingShrinks(s, s', j, h, id, tracked);
  }

  lemma AcceptStands(s: Server, j: nat, h: Handle, id: nat, tracked: bool, h': Handle, started: bool)
    requires Standing(s, j, h, id, tracked)
    ensures Standing(Accept(s, h', started).s, j, h, id, tracked)
  {
    StandingShrinks(s, Accept(s, h', started).s, j, h, id, tracked);
  }

  lemma CreateStands(s: Server, j: nat, h: Handle, id: nat, tracked: bool, info: DeviceInfo, descriptors: seq<byte>)
    requires Standing(s, j, h, id, tracked) && s.nextDeviceId + 1 < WORD
    ensures Standing(Create(s, info, descriptors).s, j, h, id, tracked)
  {
    StandingIn(s, j, h, id, tracked);
    hide Standing;
    var i := FreeSlot(s.devices);
    if i < |s.devices| {
      FillStands(s, i, Fresh(s.nextDeviceId + 1, info, descriptors), Create(s, info, descriptors).s, j, h, id, tracked);
    }
  }

  predicate NoExit(ops: seq<Op>, h: Handle) { forall i :: 0 <= i < |ops| ==> ops[i] != OpExit(h) }

  lemma {:induction false} RunStands(w: World, ops: seq<Op>, n: nat, j: nat, h: Handle, id: nat, tracked: bool)
    requires Core(w) && Within(w.s, n) && Sound(w.s) && IsRun(w, ops) && n + |ops| < WORD && NoExit(ops, h)
    requires Standing(w.s, j, h, id, tracked)
    ensures Sound(Run(w, ops).s) && Standing(Run(w, ops).s, j, h, id, tracked)
    decreases |ops|
  {
    assert Table(w.s);
    hide Core, Sound, Standing;
    if ops != [] {
      StepKeepsCore(w, ops[0], n);
      StepSound(w.s, ops[0]);
      StepStands(w.s, ops[0], j, h, id, tracked);
      assert NoExit(ops[1..], h);
      RunStands(Next(w, ops[0]), ops[1..], n + 1, j, h, id, tracked);
    }
  }

  /** An exit leaves the device active exactly when the record does not name it. */
  lemma ExitDecides(s: Server, j: nat, h: Handle, id: nat, tracked: bool)
    requires Sound(s) && Standing(s, j, h, id, tracked)
    ensures Live(s, h)
    ensures HasActive(s.devices, id) ==> (HasActive(Exit(s, h).s.devices, id) <==> !tracked)
  {
    SlotIs(s, h, j);
    if i :| 0 <= i < |s.devices| && s.devices[i].active && s.devices[i].id == id {
      ExitCleansTracked(s, h, i);
      if HasActive(Exit(s, h).s.devices, id) {
        var k :| 0 <= k < |s.devices| && Exit(s, h).s.devices[k].active && Exit(s, h).s.devices[k].id == id;
        ExitCleansTracked(s, h, k);
      }
    }
  }

  /** After an attach, the new device stands as the guard decided. */
  lemma AttachDecides(s: Server, h: Handle, payload: seq<byte>, beyond: seq<byte>)
    requires Table(s) && Sound(s) && s.nextDeviceId + 1 < WORD && Live(s, h) && PayloadReadable(payload, beyond)
    ensures var r, j := Attach(s, h, payload, beyond), ClientSlot(s.clients, h);
            r.reply.Created? ==> Standing(r.s, j, h, r.reply.id, |s.clients[j].value.devices| < MAX_DEVICES)
  {
    if !Attach(s, h, payload, beyond).reply.Created? {
      return;
    }
    AttachedIsTrackedIff(s, h, payload, beyond);
    var end := INFO_SIZE + 4 + Get32(payload, INFO_SIZE);
    hide DecodeInfo, Get32, UrbsOk, Track;
    AttachShape(s, h, DecodeInfo(payload), (payload + beyond)[INFO_SIZE + 4..end]);
    hide AttachDevice;
    assert ArraySound(s.devices, s.nextDeviceId, s.clients[ClientSlot(s.clients, h)].value);
  }

  lemma Facts(w: World, n: nat, h: Handle)
    requires Core(w) && Within(w.s, n) && Sound(w.s) && Live(w.s, h)
    ensures Table(w.s) && w.s.nextDeviceId <= n
    ensures |w.s.clients[ClientSlot(w.s.clients, h)].value.devices| <= MAX_DEVICES
  {
    assert ArraySound(w.s.devices, w.s.nextDeviceId, w.s.clients[ClientSlot(w.s.clients, h)].value);
  }

  /** The client is there, and its attach on this payload creates a device. */
  predicate Attaches(s: Server, h: Handle, payload: seq<byte>, beyond: seq<byte>) {
    Live(s, h) && PayloadReadable(payload, beyond) && Attach(s, h, payload, beyond).reply.Created?
  }

  /** The attach as the next step of the run. */
  lemma AttachNext(w: World, h: Handle, payload: seq<byte>, beyond: seq<byte>)
    requires Enabled(w.s, OpAttach(h, payload, beyond))
    ensures Live(w.s, h) && PayloadReadable(payload, beyond)
    ensures ClientSlot(w.s.clients, h) < |w.s.clients| && w.s.clients[ClientSlot(w.s.clients, h)].Some?
    ensures Next(w, OpAttach(h, payload, beyond)).s == Attach(w.s, h, payload, beyond).s
  {
  }

  lemma {:induction false} OutlivesFrom(w: World, n: nat, h: Handle, payload: seq<byte>, beyond: seq<byte>, more: seq<Op>)
    requires Core(w) && Within(w.s, n) && Sound(w.s) && Enabled(w.s, OpAttach(h, payload, beyond))
    requires Attach(w.s, h, payload, beyond).reply.Created?
    requires IsRun(Next(w, OpAttach(h, payload, beyond)), more) && n + 1 + |more| < WORD && NoExit(more, h)
    ensures var id := Attach(w.s, h, payload, beyond).reply.id;
            var s' := Run(Next(w, OpAttach(h, payload, beyond)), more).s;
            && Live(s', h)
            && (HasActive(s'.devices, id) ==>
                  (HasActive(Exit(s', h).s.devices, id) <==>
                   |w.s.clients[ClientSlot(w.s.clients, h)].value.devices| == MAX_DEVICES))
  {
    hide *;
    AttachNext(w, h, payload, beyond);
    var op, j := OpAttach(h, payload, beyond), ClientSlot(w.s.clients, h);
    var id, tracked := Attach(w.s, h, payload, beyond).reply.id, |w.s.clients[j].value.devices| < MAX_DEVICES;
    Facts(w, n, h);
    StepKeepsCore(w, op, n);
    StepSound(w.s, op);
    AttachSound(w.s, h, payload, beyond);
    AttachDecides(w.s, h, payload, beyond);
    RunStands(Next(w, op), more, n + 1, j, h, id, tracked);
    ExitDecides(Run(Next(w, op), more).s, j, h, id, tracked);
  }

  /**
   * In any run, after any continuation in which the client stays: a device that was attached and is still
   * active outlives the client's exit if and only if its attach found the client's array full.
   */
  lemma {:induction false} OutlivesExitIff(ops: seq<Op>, h: Handle, payload: seq<byte>, beyond: seq<byte>, more: seq<Op>)
    requires IsRun(Start(), ops) && |ops| + 1 + |more| < WORD && NoExit(more, h)
    ensures var w, op := Run(Start(), ops), OpAttach(h, payload, beyond);
            Attaches(w.s, h, payload, beyond) && IsRun(Next(w, op), more) ==>
              var id, s' := Attach(w.s, h, payload, beyond).reply.id, Run(Next(w, op), more).s;
              && Live(s', h)
              && (HasActive(s'.devices, id) ==>
                    (HasActive(Exit(s', h).s.devices, id) <==>
                     |w.s.clients[ClientSlot(w.s.clients, h)].value.devices| == MAX_DEVICES))
  {
    hide Core, Within, Sound, Start, Run, IsRun, Table, Attach, PayloadReadable, Next, HasActive, NoExit, Exit;
    RunSound(ops);
    RunKeepsCore(ops);
    var w, op := Run(Start(), ops), OpAttach(h, payload, beyond);
    if Attaches(w.s, h, payload, beyond) && IsRun(Next(w, op), more) {
      OutlivesFrom(w, |ops|, h, payload, beyond, more);
    }
  }

  /** Without direct destroys of owned devices the array is never full when a device is created, so none is dropped. */
  lemma {:induction false} PoliteGuardNeverDrops(ops: seq<Op>, h: Handle, payload: seq<byte>, beyond: seq<byte>)
    requires IsRun(Start(), ops) && |ops| + 1 < WORD && PoliteRun(Start(), ops)
    ensures var s := Run(Start(), ops).s;
            Attaches(s, h, payload, beyond) ==> |s.clients[ClientSlot(s.clients, h)].value.devices| < MAX_DEVICES
  {
    hide Run, IsRun, Start, PoliteRun, Attach, Core, Within, PayloadReadable;
    RunSound(ops);
    TrackingIsExact(ops);
    if Attaches(Run(Start(), ops).s, h, payload, beyond) {
      RoomWhenExact(Run(Start(), ops).s, h, payload, beyond);
    }
  }

  lemma RoomWhenExact(s: Server, h: Handle, payload: seq<byte>, beyond: seq<byte>)
    requires TrackingExact(s) && |s.devices| == MAX_DEVICES && Live(s, h) && PayloadReadable(payload, beyond)
    ensures Attach(s, h, payload, beyond).reply.Created? ==>
              |s.clients[ClientSlot(s.clients, h)].value.devices| < MAX_DEVICES
  {
    if !Attach(s, h, payload, beyond).reply.Created? {
      return;
    }
    var c := s.clients[ClientSlot(s.clients, h)].value;
    assert FreeSlot(s.devices) < |s.devices| by {
      hide DecodeInfo, Get32, TrackingExact;
    }
    assert Tracks(s.devices, c);
    hide Attach, TrackingExact;
    TrackedBound(s.devices, c);
  }

  // ---------- a run that drops a device ----------

  function Upto(k: nat): seq<nat> { seq(k, i => i + 1) }

  /** One connection that attaches a device and has it destroyed through the API, k times. */
  function Churn(k: nat, payload: seq<byte>): seq<Op> {
    if k == 0 then [OpAccept(1, true)]
    else Churn(k - 1, payload) + [OpAttach(1, payload, [])] + [OpDestroy(k)]
  }

  /** No device is left, but the array names all of them. */
  predicate Churned(s: Server, k: nat) {
    && |s.devices| == MAX_DEVICES && (forall i :: 0 <= i < |s.devices| ==> !s.devices[i].active)
    && s.nextDeviceId == k && |s.clients| == MAX_CLIENTS && s.clients[0] == Some(Client(1, 1, Upto(k)))
    && forall j :: 1 <= j < |s.clients| ==> s.clients[j].None?
  }

  predicate EmptyPayload(payload: seq<byte>) { |payload| == INFO_SIZE + 4 && Get32(payload, INFO_SIZE) == 0 }

  lemma {:induction false} RunSnoc(w: World, ops: seq<Op>, op: Op)
    requires IsRun(w, ops) && Enabled(Run(w, ops).s, op)
    ensures IsRun(w, ops + [op]) && Run(w, ops + [op]) == Next(Run(w, ops), op)
    decreases |ops|
  {
    hide Enabled, Next;
    if ops == [] {
      assert ops + [op] == [op] && [op][1..] == [];
      assert IsRun(Next(w, op), []);
    } else {
      assert (ops + [op])[1..] == ops[1..] + [op];
      RunSnoc(Next(w, ops[0]), ops[1..], op);
    }
  }

  lemma NextIsStep(w: World, op: Op)
    requires Enabled(w.s, op)
    ensures Next(w, op).s == Step(w.s, op).s
  {
  }

  lemma ChurnedFacts(s: Server, k: nat)
    requires Churned(s, k)
    ensures Table(s) && ClientSlot(s.clients, 1) == 0 && Live(s, 1) && FreeSlot(s.devices) == 0
  {
  }

  /** What an attach does to such a state. */
  lemma ChurnAttach(s: Server, k: nat, payload: seq<byte>)
    requires Churned(s, k) && EmptyPayload(payload) && k <= MAX_DEVICES
    ensures Enabled(s, OpAttach(1, payload, []))
    ensures var s' := Step(s, OpAttach(1, payload, [])).s;
            && |s'.devices| == MAX_DEVICES && s'.devices[0].active && s'.devices[0].id == k + 1 && s'.devices[0].owner == 1
            && s'.devices[1..] == s.devices[1..] && s'.nextDeviceId == k + 1 && |s'.clients| == MAX_CLIENTS
            && s'.clients == s.clients[0 := Some(Client(1, 1, if k < MAX_DEVICES then Upto(k + 1) else Upto(k)))]
  {
    ChurnedFacts(s, k);
    var info := DecodeInfo(payload);
    assert (payload + [])[INFO_SIZE + 4..INFO_SIZE + 4] == [];
    hide AttachDevice, Table, DecodeInfo, ClientSlot, FreeSlot;
    AttachShape(s, 1, info, []);
    assert Upto(k) + [k + 1] == Upto(k + 1);
  }

  lemma ChurnDestroy(s: Server, s': Server, k: nat)
    requires Churned(s, k) && |s'.devices| == MAX_DEVICES && s'.devices[0].active && s'.devices[0].id == k + 1
    requires s'.devices[1..] == s.devices[1..] && s'.nextDeviceId == k + 1
    requires s'.clients == s.clients[0 := Some(Client(1, 1, Upto(k + 1)))]
    ensures Enabled(s', OpDestroy(k + 1)) && Churned(Step(s', OpDestroy(k + 1)).s, k + 1)
  {
    LookupIs(s'.devices, k + 1, 0);
    assert forall i :: 1 <= i < |s'.devices| ==> s'.devices[i] == s'.devices[1..][i - 1] == s.devices[i];
  }

  /** No device, no client, nothing issued. */
  predicate Empty(s: Server) {
    && |s.devices| == MAX_DEVICES && (forall i :: 0 <= i < |s.devices| ==> !s.devices[i].active) && s.nextDeviceId == 0
    && |s.clients| == MAX_CLIENTS && (forall j :: 0 <= j < |s.clients| ==> s.clients[j].None?) && s.nextSessionId == 0
  }

  lemma AcceptFirst(s: Server)
    requires Empty(s)
    ensures Enabled(s, OpAccept(1, true)) && Churned(Step(s, OpAccept(1, true)).s, 0)
  {
    assert FreeClientSlot(s.clients) == 0;
    assert Upto(0) == [];
  }

  lemma AtStart()
    ensures IsRun(Start(), []) && Run(Start(), []) == Start() && Empty(Start().s)
  {
  }

  lemma ChurnStart(payload: seq<byte>)
    ensures IsRun(Start(), Churn(0, payload)) && Churned(Run(Start(), Churn(0, payload)).s, 0)
  {
    hide *;
    var accept := OpAccept(1, true);
    AtStart();
    AcceptFirst(Start().s);
    NoChurn(payload);
    assert [] + [accept] == [accept];
    RunSnoc(Start(), [], accept);
    NextIsStep(Start(), accept);
  }

  lemma NoChurn(payload: seq<byte>)
    ensures Churn(0, payload) == [OpAccept(1, true)]
  {
  }

  lemma ChurnIs(k: nat, payload: seq<byte>)
    requires k > 0
    ensures Churn(k, payload) == Churn(k - 1, payload) + [OpAttach(1, payload, [])] + [OpDestroy(k)]
  {
  }

  lemma {:induction false} ChurnReaches(k: nat, payload: seq<byte>)
    requires k <= MAX_DEVICES && EmptyPayload(payload)
    ensures IsRun(Start(), Churn(k, payload)) && Churned(Run(Start(), Churn(k, payload)).s, k)
  {
    hide *;
    if k == 0 {
      ChurnStart(payload);
    } else {
      var attach, destroy, ops := OpAttach(1, payload, []), OpDestroy(k), Churn(k - 1, payload);
      ChurnIs(k, payload);
      ChurnReaches(k - 1, payload);
      var w := Run(Start(), ops);
      ChurnAttach(w.s, k - 1, payload);
      RunSnoc(Start(), ops, attach);
      NextIsStep(w, attach);
      ChurnDestroy(w.s, Next(w, attach).s, k - 1);
      NextIsStep(Next(w, attach), destroy);
      RunSnoc(Start(), ops + [attach], destroy);
    }
  }

  /** Destroying a client's device through the API leaves its id in the client's array. */
  lemma StaleEntry(payload: seq<byte>)
    requires EmptyPayload(payload)
    ensures var ops := [OpAccept(1, true), OpAttach(1, payload, []), OpDestroy(1)];
            && IsRun(Start(), ops)
            && var s := Run(Start(), ops).s;
               |s.clients| > 0 && s.clients[0] == Some(Client(1, 1, [1])) && !Owns(s.devices, 1, 1)
  {
    hide *;
    ChurnIs(1, payload);
    NoChurn(payload);
    var ops := [OpAccept(1, true), OpAttach(1, payload, []), OpDestroy(1)];
    assert [OpAccept(1, true)] + [OpAttach(1, payload, [])] + [OpDestroy(1)] == ops;
    OneOfSixteen();
    ChurnReaches(1, payload);
    OneStale(Run(Start(), ops).s);
  }

  lemma OneOfSixteen()
    ensures 1 <= MAX_DEVICES
  {
  }

  lemma OneStale(s: Server)
    requires Churned(s, 1)
    ensures |s.clients| > 0 && s.clients[0] == Some(Client(1, 1, [1])) && !Owns(s.devices, 1, 1)
  {
    assert Upto(1) == [1];
  }

  /** The end of a client whose full array names none of its devices. */
  lemma ChurnExit(s: Server, s': Server)
    requires Churned(s, MAX_DEVICES) && |s'.devices| == MAX_DEVICES && s'.devices[0].active && s'.devices[0].id == 17
    requires s'.devices[0].owner == 1 && s'.clients == s.clients[0 := Some(Client(1, 1, Upto(MAX_DEVICES)))]
    ensures Owns(s'.devices, 1, 17) && Enabled(s', OpExit(1))
    ensures var s'' := Step(s', OpExit(1)).s; Owns(s''.devices, 1, 17) && !Live(s'', 1)
  {
    var s'' := Step(s', OpExit(1)).s;
    assert ClientSlot(s'.clients, 1) == 0;
    assert 17 !in Upto(MAX_DEVICES);
    CleanupTrackedSlots(s'.devices, Upto(MAX_DEVICES), 0);
    assert s''.devices[0] == s'.devices[0];
    assert forall j :: 0 <= j < |s''.clients| ==> s''.clients[j].None?;
  }

  /**
   * After sixteen devices were attached and destroyed through the API, the guard drops the seventeenth; it
   * stays active when its client has gone, under the address of a freed record.
   */
  lemma DroppedDevice(payload: seq<byte>)
    requires EmptyPayload(payload)
    ensures var ops := Churn(MAX_DEVICES, payload) + [OpAttach(1, payload, [])];
            && IsRun(Start(), ops)
            && (var s := Run(Start(), ops).s;
                Owns(s.devices, 1, 17) && |s.clients| > 0 && s.clients[0] == Some(Client(1, 1, Upto(MAX_DEVICES))))
            && IsRun(Start(), ops + [OpExit(1)])
            && (var s := Run(Start(), ops + [OpExit(1)]).s; Owns(s.devices, 1, 17) && !Live(s, 1))
  {
    var attach, ops := OpAttach(1, payload, []), Churn(MAX_DEVICES, payload);
    hide *;
    ChurnReaches(MAX_DEVICES, payload);
    var w := Run(Start(), ops);
    ChurnAttach(w.s, MAX_DEVICES, payload);
    RunSnoc(Start(), ops, attach);
    NextIsStep(w, attach);
    ChurnExit(w.s, Next(w, attach).s);
    NextIsStep(Next(w, attach), OpExit(1));
    RunSnoc(Start(), ops + [attach], OpExit(1));
  }
}
