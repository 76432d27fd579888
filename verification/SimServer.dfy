/**
 * The server of server/vusb_server.c in simulation mode, with the device-to-client routing of
 * server/vusb_server_urb.c: a device table, and per-client tracking entries that are kept
 * separately from it.
 */
module SimServer {
  import opened Collections
  import opened Wire

  const MAX_DEVICES := 16

  type Handle = nat

  datatype SimDevice = SimDevice(active: bool, id: nat, info: DeviceInfo)

  /** VUSB_CLIENT_DEVICE */
  datatype Tracking = Tracking(active: bool, deviceId: nat, remoteId: nat)

  datatype Client = Client(handle: Handle, session: nat, connected: bool, devices: seq<Tracking>)

  /** The client table has Config.MaxClients slots. */
  datatype Server = Server(
    sim: seq<SimDevice>, nextId: nat, clients: seq<Option<Client>>, clientCount: int, nextSession: nat)

  const NO_TRACKING := Tracking(false, 0, 0)

  // ---------- searches ----------

  function SimFree(sim: seq<SimDevice>): nat { FirstIndex(sim, (d: SimDevice) => !d.active) }

  function SimLookup(sim: seq<SimDevice>, id: nat): nat {
    FirstIndex(sim, (d: SimDevice) => d.active && d.id == id)
  }

  function TrackFree(devs: seq<Tracking>): nat { FirstIndex(devs, (t: Tracking) => !t.active) }

  function TrackLookup(devs: seq<Tracking>, id: nat): nat {
    FirstIndex(devs, (t: Tracking) => t.active && t.deviceId == id)
  }

  function ClientSlot(clients: seq<Option<Client>>, h: Handle): nat {
    FirstIndex(clients, (c: Option<Client>) => c.Some? && c.value.handle == h)
  }

  function FreeClient(clients: seq<Option<Client>>): nat { FirstIndex(clients, (c: Option<Client>) => c.None?) }

  predicate Live(s: Server, h: Handle) { ClientSlot(s.clients, h) < |s.clients| }

  /** ServerUrbFindClientForDevice: the first connected client with an active entry for the id. */
  function FindClient(s: Server, id: nat): nat {
    FirstIndex(s.clients,
               (c: Option<Client>) => c.Some? && c.value.connected && TrackLookup(c.value.devices, id) < |c.value.devices|)
  }

  // ---------- operations ----------

  /** VusbServerPluginDevice, simulation branch; 0 when every slot is taken. */
  function Plugin(s: Server, info: DeviceInfo): (Server, nat) {
    var i := SimFree(s.sim);
    if i == |s.sim| then (s, 0)
    else
      var id := NextWord(s.nextId);
      (s.(sim := s.sim[i := SimDevice(true, id, info.(id := id))], nextId := id), id)
  }

  /** VusbServerUnplugDevice, simulation branch. */
  function Unplug(sim: seq<SimDevice>, id: nat): (r: seq<SimDevice>)
    ensures |r| == |sim|
  {
    var i := SimLookup(sim, id);
    if i == |sim| then sim else sim[i := sim[i].(active := false)]
  }

  function Track(c: Client, id: nat, remoteId: nat): Client {
    var k := TrackFree(c.devices);
    if k == |c.devices| then c else c.(devices := c.devices[k := Tracking(true, id, remoteId)])
  }

  function Untrack(c: Client, id: nat): Client {
    var k := TrackLookup(c.devices, id);
    if k == |c.devices| then c else c.(devices := c.devices[k := c.devices[k].(active := false)])
  }

  function Accept(s: Server, h: Handle): Server {
    var i := FreeClient(s.clients);
    if i == |s.clients| then s
    else
      var session := NextWord(s.nextSession);
      s.(clients := s.clients[i := Some(Client(h, session, true, seq(MAX_DEVICES, _ => NO_TRACKING)))],
         clientCount := s.clientCount + 1, nextSession := session)
  }

  /** VusbServerHandleDeviceAttach; the answer carries the id, 0 on failure. */
  function Attach(s: Server, h: Handle, info: DeviceInfo): (Server, nat)
    requires Live(s, h)
  {
    var (s1, id) := Plugin(s, info);
    var j := ClientSlot(s.clients, h);
    if id == 0 then (s1, id)
    else (s1.(clients := s.clients[j := Some(Track(s.clients[j].value, id, info.id))]), id)
  }

  /** VusbServerHandleDeviceDetach: the device goes away whoever owns it, the entry only if it is the caller's. */
  function Detach(s: Server, h: Handle, id: nat): Server
    requires Live(s, h)
  {
    var j := ClientSlot(s.clients, h);
    s.(sim := Unplug(s.sim, id), clients := s.clients[j := Some(Untrack(s.clients[j].value, id))])
  }

  function UnplugAll(sim: seq<SimDevice>, devs: seq<Tracking>): (r: seq<SimDevice>)
    ensures |r| == |sim|
  {
    if devs == [] then sim
    else
      var n := |devs| - 1;
      var r := UnplugAll(sim, devs[..n]);
      if devs[n].active then Unplug(r, devs[n].deviceId) else r
  }

  /** VusbServerDisconnectClient */
  function Disconnect(s: Server, h: Handle): Server
    requires Live(s, h)
  {
    var j := ClientSlot(s.clients, h);
    s.(clients := s.clients[j := None], clientCount := s.clientCount - 1,
       sim := UnplugAll(s.sim, s.clients[j].value.devices))
  }

  /** VUSB_CMD_DISCONNECT only clears the flag; the thread disconnects afterwards. */
  function Leave(s: Server, h: Handle): Server
    requires Live(s, h)
  {
    var j := ClientSlot(s.clients, h);
    s.(clients := s.clients[j := Some(s.clients[j].value.(connected := false))])
  }

  datatype Op =
    | OpAccept(h: Handle) | OpAttach(h: Handle, info: DeviceInfo) | OpDetach(h: Handle, id: nat)
    | OpLeave(h: Handle) | OpDisconnect(h: Handle)

  predicate Enabled(s: Server, op: Op) {
    if op.OpAccept? then op.h != 0 && !Live(s, op.h) else Live(s, op.h)
  }

  /** The ids each connection has been answered. */
  datatype World = World(s: Server, given: map<Handle, set<nat>>)

  function Given(given: map<Handle, set<nat>>, h: Handle): set<nat> { if h in given then given[h] else {} }

  function Next(w: World, op: Op): World
    requires Enabled(w.s, op)
  {
    match op
    case OpAccept(h) => World(Accept(w.s, h), w.given[h := {}])
    case OpAttach(h, info) =>
      var (s, id) := Attach(w.s, h, info);
      World(s, if id == 0 then w.given else w.given[h := Given(w.given, h) + {id}])
    case OpDetach(h, id) => World(Detach(w.s, h, id), w.given)
    case OpLeave(h) => World(Leave(w.s, h), w.given)
    case OpDisconnect(h) => World(Disconnect(w.s, h), w.given - {h})
  }

  predicate IsRun(w: World, ops: seq<Op>)
    decreases |ops|
  {
    ops == [] || (Enabled(w.s, ops[0]) && IsRun(Next(w, ops[0]), ops[1..]))
  }

  function Run(w: World, ops: seq<Op>): World
    requires IsRun(w, ops)
    decreases |ops|
  {
    if ops == [] then w else Run(Next(w, ops[0]), ops[1..])
  }

  const NO_INFO := DeviceInfo(0, 0, 0, 0, 0, 0, 0, 0, 0, [], [], [], [])

  function Start(maxClients: nat): World {
    World(Server(seq(MAX_DEVICES, _ => SimDevice(false, 0, NO_INFO)), 0, seq(maxClients, _ => None), 0, 0), map[])
  }

  // ---------- at most one entry per id ----------

  predicate Plugged(sim: seq<SimDevice>, id: nat) {
    exists i :: 0 <= i < |sim| && sim[i].active && sim[i].id == id
  }

  predicate Tracks(devs: seq<Tracking>, id: nat) {
    exists k :: 0 <= k < |devs| && devs[k].active && devs[k].deviceId == id
  }

  predicate Holds(clients: seq<Option<Client>>, j: nat, id: nat) {
    j < |clients| && clients[j].Some? && Tracks(clients[j].value.devices, id)
  }

  predicate SimOk(s: Server) {
    && |s.sim| == MAX_DEVICES
    && (forall i :: 0 <= i < |s.sim| && s.sim[i].active ==> 1 <= s.sim[i].id <= s.nextId)
    && (forall i, j :: 0 <= i < j < |s.sim| && s.sim[i].active && s.sim[j].active ==> s.sim[i].id != s.sim[j].id)
  }

  /** One client's entries: sixteen slots, distinct ids already issued. */
  predicate EntriesOk(devs: seq<Tracking>, nextId: nat) {
    && |devs| == MAX_DEVICES
    && (forall k :: 0 <= k < |devs| && devs[k].active ==> 1 <= devs[k].deviceId <= nextId)
    && (forall i, k :: 0 <= i < k < |devs| && devs[i].active && devs[k].active ==> devs[i].deviceId != devs[k].deviceId)
  }

  predicate HandlesOk(clients: seq<Option<Client>>) {
    forall i, j :: 0 <= i < j < |clients| && clients[i].Some? && clients[j].Some? ==>
      clients[i].value.handle != clients[j].value.handle
  }

  ghost predicate Unique(s: Server) {
    && SimOk(s) && HandlesOk(s.clients)
    && (forall j :: 0 <= j < |s.clients| && s.clients[j].Some? ==> EntriesOk(s.clients[j].value.devices, s.nextId))
    && (forall i: nat, j: nat, id: nat :: Holds(s.clients, i, id) && Holds(s.clients, j, id) ==> i == j)
  }

  lemma SlotIs(clients: seq<Option<Client>>, h: Handle, j: nat)
    requires HandlesOk(clients) && j < |clients| && clients[j].Some? && clients[j].value.handle == h
    ensures ClientSlot(clients, h) == j
  {
    var k := ClientSlot(clients, h);
    assert k <= j;
  }

  lemma TracksAfterTrack(c: Client, id: nat, remoteId: nat, x: nat)
    ensures var c' := Track(c, id, remoteId);
            Tracks(c'.devices, x) <==> Tracks(c.devices, x) || (x == id && TrackFree(c.devices) < |c.devices|)
  {
    var c' := Track(c, id, remoteId);
    var k := TrackFree(c.devices);
    if i :| 0 <= i < |c.devices| && c.devices[i].active && c.devices[i].deviceId == x {
      assert c'.devices[i] == c.devices[i];
    }
    if k < |c.devices| {
      assert c'.devices[k].active && c'.devices[k].deviceId == id;
    }
  }

  lemma TracksAfterUntrack(c: Client, nextId: nat, id: nat, x: nat)
    requires EntriesOk(c.devices, nextId)
    ensures Tracks(Untrack(c, id).devices, x) <==> Tracks(c.devices, x) && x != id
    ensures EntriesOk(Untrack(c, id).devices, nextId)
  {
    var c' := Untrack(c, id);
    if i :| 0 <= i < |c.devices| && c.devices[i].active && c.devices[i].deviceId == x && x != id {
      assert c'.devices[i] == c.devices[i];
    }
    if i :| 0 <= i < |c'.devices| && c'.devices[i].active && c'.devices[i].deviceId == x {
      assert c.devices[i] == c'.devices[i];
    }
  }

  lemma PluggedAfterUnplug(sim: seq<SimDevice>, id: nat, x: nat)
    requires forall i, j :: 0 <= i < j < |sim| && sim[i].active && sim[j].active ==> sim[i].id != sim[j].id
    ensures Plugged(Unplug(sim, id), x) <==> Plugged(sim, x) && x != id
    ensures forall i :: 0 <= i < |sim| ==>
      Unplug(sim, id)[i] == if sim[i].active && sim[i].id == id then sim[i].(active := false) else sim[i]
  {
    var r := Unplug(sim, id);
    if i :| 0 <= i < |sim| && sim[i].active && sim[i].id == x && x != id {
      assert r[i] == sim[i];
    }
    if i :| 0 <= i < |r| && r[i].active && r[i].id == x {
      assert sim[i] == r[i];
    }
  }

  /** Changing one client to hold no more than before, and a smaller device table, keep uniqueness. */
  lemma ShrinkUnique(s: Server, s': Server)
    requires Unique(s) && s'.nextId == s.nextId && |s'.clients| == |s.clients| && |s'.sim| == |s.sim|
    requires forall i :: 0 <= i < |s.sim| && s'.sim[i].active ==> s'.sim[i] == s.sim[i]
    requires HandlesOk(s'.clients)
    requires forall j :: 0 <= j < |s'.clients| && s'.clients[j].Some? ==> EntriesOk(s'.clients[j].value.devices, s.nextId)
    requires forall j: nat, id: nat :: Holds(s'.clients, j, id) ==> Holds(s.clients, j, id)
    ensures Unique(s')
  {
  }

  lemma AcceptUnique(s: Server, h: Handle)
    requires Unique(s) && !Live(s, h)
    ensures Unique(Accept(s, h))
  {
    var s' := Accept(s, h);
    var i := FreeClient(s.clients);
    if i < |s.clients| {
      assert forall j :: 0 <= j < |s.clients| && s.clients[j].Some? ==> s.clients[j].value.handle != h;
      assert forall id: nat :: !Tracks(s'.clients[i].value.devices, id);
      ShrinkUnique(s, s');
    }
  }

  lemma AttachUnique(s: Server, h: Handle, info: DeviceInfo)
    requires Unique(s) && Live(s, h) && s.nextId + 1 < WORD
    ensures Unique(Attach(s, h, info).0)
  {
    var (s', id) := Attach(s, h, info);
    var j := ClientSlot(s.clients, h);
    if SimFree(s.sim) < |s.sim| {
      var c := s.clients[j].value;
      forall i: nat, x: nat | Holds(s'.clients, i, x)
        ensures Holds(s.clients, i, x) || (i == j && x == id)
      {
        if i == j {
          TracksAfterTrack(c, id, info.id, x);
        }
      }
      NewIdHeldByNone(s, id);
      assert EntriesOk(s'.clients[j].value.devices, s'.nextId);
    }
  }

  lemma NewIdHeldByNone(s: Server, id: nat)
    requires Unique(s) && id > s.nextId
    ensures forall i: nat :: !Holds(s.clients, i, id)
  {
  }

  lemma DetachUnique(s: Server, h: Handle, id: nat)
    requires Unique(s) && Live(s, h)
    ensures Unique(Detach(s, h, id))
  {
    var s' := Detach(s, h, id);
    var j := ClientSlot(s.clients, h);
    var c := s.clients[j].value;
    PluggedAfterUnplug(s.sim, id, 0);
    TracksAfterUntrack(c, s.nextId, id, 0);
    forall i: nat, x: nat | Holds(s'.clients, i, x)
      ensures Holds(s.clients, i, x)
    {
      if i == j {
        TracksAfterUntrack(c, s.nextId, id, x);
      }
    }
    ShrinkUnique(s, s');
  }

  /** Disconnecting unplugs exactly the devices in the client's active entries. */
  lemma {:induction false} UnplugAllSlots(s: Server, devs: seq<Tracking>, i: nat)
    requires SimOk(s) && i < |s.sim|
    ensures UnplugAll(s.sim, devs)[i] ==
            if s.sim[i].active && Tracks(devs, s.sim[i].id) then s.sim[i].(active := false) else s.sim[i]
    decreases |devs|
  {
    if devs != [] {
      var n := |devs| - 1;
      var r := UnplugAll(s.sim, devs[..n]);
      forall k | 0 <= k < |s.sim|
        ensures r[k] == if s.sim[k].active && Tracks(devs[..n], s.sim[k].id) then s.sim[k].(active := false) else s.sim[k]
      {
        UnplugAllSlots(s, devs[..n], k);
      }
      if devs[n].active {
        PluggedAfterUnplug(r, devs[n].deviceId, 0);
      }
      TracksSplit(devs, s.sim[i].id);
    }
  }

  lemma TracksSplit(devs: seq<Tracking>, id: nat)
    requires |devs| > 0
    ensures var n := |devs| - 1;
            Tracks(devs, id) <==> Tracks(devs[..n], id) || (devs[n].active && devs[n].deviceId == id)
  {
    var n := |devs| - 1;
    if k :| 0 <= k < n && devs[..n][k].active && devs[..n][k].deviceId == id {
      assert devs[k].active;
    }
    if k :| 0 <= k < n && devs[k].active && devs[k].deviceId == id {
      assert devs[..n][k].active;
    }
  }

  lemma DisconnectUnique(s: Server, h: Handle)
    requires Unique(s) && Live(s, h)
    ensures Unique(Disconnect(s, h))
  {
    var s' := Disconnect(s, h);
    var j := ClientSlot(s.clients, h);
    forall i | 0 <= i < |s.sim|
      ensures s'.sim[i].active ==> s'.sim[i] == s.sim[i]
    {
      UnplugAllSlots(s, s.clients[j].value.devices, i);
    }
    ShrinkUnique(s, s');
  }

  lemma LeaveUnique(s: Server, h: Handle)
    requires Unique(s) && Live(s, h)
    ensures Unique(Leave(s, h))
  {
    ShrinkUnique(s, Leave(s, h));
  }

  lemma StepUnique(w: World, op: Op)
    requires Unique(w.s) && Enabled(w.s, op) && w.s.nextId + 1 < WORD
    ensures Unique(Next(w, op).s) && Next(w, op).s.nextId <= w.s.nextId + 1
  {
    hide Unique;
    match op {
      case OpAccept(h) => AcceptUnique(w.s, h);
      case OpAttach(h, info) => AttachUnique(w.s, h, info);
      case OpDetach(h, id) => DetachUnique(w.s, h, id);
      case OpLeave(h) => LeaveUnique(w.s, h);
      case OpDisconnect(h) => DisconnectUnique(w.s, h);
    }
  }

  lemma {:induction false} RunUnique(w: World, ops: seq<Op>)
    requires Unique(w.s) && IsRun(w, ops) && w.s.nextId + |ops| < WORD
    ensures Unique(Run(w, ops).s)
    decreases |ops|
  {
    hide Unique, Next, Enabled;
    if ops != [] {
      StepUnique(w, ops[0]);
      RunUnique(Next(w, ops[0]), ops[1..]);
    }
  }

  lemma StartUnique(maxClients: nat)
    ensures Unique(Start(maxClients).s) && Start(maxClients).s.nextId == 0
  {
  }

  /** The scan that routes a URB finds a client exactly when a connected one holds the id. */
  lemma RouteIs(s: Server, id: nat, j: nat)
    requires Unique(s) && Holds(s.clients, j, id) && s.clients[j].value.connected
    ensures FindClient(s, id) == j
  {
    var k := FindClient(s, id);
    var devs := s.clients[j].value.devices;
    var m :| 0 <= m < |devs| && devs[m].active && devs[m].deviceId == id;
    assert TrackLookup(devs, id) <= m;
    assert k <= j;
    assert Holds(s.clients, k, id);
  }

  /**
   * Over every run of fewer than 2^32 steps, at most one tracking entry among all clients holds a
   * given id, so routing does not depend on the order of the scan.
   */
  lemma RoutingIsUnambiguous(maxClients: nat, ops: seq<Op>, id: nat, j: nat)
    requires IsRun(Start(maxClients), ops) && |ops| < WORD
    ensures var s := Run(Start(maxClients), ops).s;
            && Unique(s)
            && (Holds(s.clients, j, id) && s.clients[j].value.connected ==> FindClient(s, id) == j)
            && (FindClient(s, id) < |s.clients| ==> Holds(s.clients, FindClient(s, id), id))
  {
    StartUnique(maxClients);
    RunUnique(Start(maxClients), ops);
    var s := Run(Start(maxClients), ops).s;
    hide Run, IsRun, Start, Unique;
    if Holds(s.clients, j, id) && s.clients[j].value.connected {
      RouteIs(s, id, j);
    }
  }

  // ---------- what each handler does ----------

  /** The record that was sent, under the new id. */
  function Renamed(info: DeviceInfo, id: nat): DeviceInfo {
    DeviceInfo(id, info.vendorId, info.productId, info.deviceClass, info.subClass, info.protocol, info.speed,
               info.numConfigurations, info.numInterfaces, info.reserved, info.manufacturer, info.product, info.serial)
  }

  /** A free entry now carries the id and the client's own name for the device; a full array is as it was. */
  predicate EntryAdded(before: seq<Tracking>, after: seq<Tracking>, id: nat, remoteId: nat) {
    if forall k :: 0 <= k < |before| ==> before[k].active then after == before
    else exists k :: 0 <= k < |before| && !before[k].active && after == before[k := Tracking(true, id, remoteId)]
  }

  /** An attach takes a free slot and a fresh id; without a free slot it answers 0 and changes nothing. */
  lemma AttachMeans(w: World, h: Handle, info: DeviceInfo)
    requires Enabled(w.s, OpAttach(h, info)) && w.s.nextId + 1 < WORD
    ensures var s, s', id := w.s, Next(w, OpAttach(h, info)).s, Attach(w.s, h, info).1;
            var j := ClientSlot(s.clients, h);
            if forall i :: 0 <= i < |s.sim| ==> s.sim[i].active then Next(w, OpAttach(h, info)) == w && id == 0
            else
              && id in Given(Next(w, OpAttach(h, info)).given, h) && id == s'.nextId == s.nextId + 1
              && s'.clientCount == s.clientCount && s'.nextSession == s.nextSession
              && (exists i :: 0 <= i < |s.sim| && !s.sim[i].active
                    && s'.sim == s.sim[i := SimDevice(true, id, Renamed(info, id))])
              && |s'.clients| == |s.clients| && s'.clients[j].Some?
              && (forall m :: 0 <= m < |s.clients| && m != j ==> s'.clients[m] == s.clients[m])
              && var c, c' := s.clients[j].value, s'.clients[j].value;
                 c' == c.(devices := c'.devices) && EntryAdded(c.devices, c'.devices, id, info.id)
  {
    var s, i := w.s, SimFree(w.s.sim);
    if i < |s.sim| {
      assert !s.sim[i].active;
      TrackAdds(s.clients[ClientSlot(s.clients, h)].value, s.nextId + 1, info.id);
      hide Track, EntryAdded;
    }
  }

  lemma TrackAdds(c: Client, id: nat, remoteId: nat)
    ensures var c' := Track(c, id, remoteId);
            c' == c.(devices := c'.devices) && EntryAdded(c.devices, c'.devices, id, remoteId)
  {
    var k := TrackFree(c.devices);
    if k < |c.devices| {
      assert !c.devices[k].active;
    }
  }

  /** A connection is accepted exactly when a place is free: connected, under the next session id, without entries. */
  lemma AcceptMeans(w: World, h: Handle)
    requires Enabled(w.s, OpAccept(h))
    ensures var s, s' := w.s, Next(w, OpAccept(h)).s;
            if forall j :: 0 <= j < |s.clients| ==> s.clients[j].Some? then s' == s
            else
              exists j :: 0 <= j < |s.clients| && s.clients[j].None? && s'.clients[j].Some?
                && var c := s'.clients[j].value;
                   && s' == s.(clients := s.clients[j := Some(c)], clientCount := s.clientCount + 1,
                               nextSession := NextWord(s.nextSession))
                   && c.handle == h && c.session == s'.nextSession && c.connected && |c.devices| == 16
                   && forall k :: 0 <= k < 16 ==> !c.devices[k].active
  {
    var j := FreeClient(w.s.clients);
    if j < |w.s.clients| {
      assert w.s.clients[j].None?;
    }
  }

  /** A detach unplugs the device with the id, whoever holds it, and takes the id from the caller's entries only. */
  lemma DetachMeans(w: World, h: Handle, id: nat)
    requires Unique(w.s) && Enabled(w.s, OpDetach(h, id))
    ensures var s, s', j := w.s, Next(w, OpDetach(h, id)).s, ClientSlot(w.s.clients, h);
            && s' == s.(sim := s'.sim, clients := s.clients[j := s'.clients[j]])
            && |s'.sim| == |s.sim|
            && (forall i :: 0 <= i < |s.sim| ==>
                  s'.sim[i] == if s.sim[i].active && s.sim[i].id == id then s.sim[i].(active := false) else s.sim[i])
            && s'.clients[j].Some? && s'.clients[j].value.connected == s.clients[j].value.connected
            && s'.clients[j].value.handle == h
            && forall x: nat :: Tracks(s'.clients[j].value.devices, x) <==> Tracks(s.clients[j].value.devices, x) && x != id
  {
    var s, j := w.s, ClientSlot(w.s.clients, h);
    PluggedAfterUnplug(s.sim, id, 0);
    forall x: nat
      ensures Tracks(Detach(s, h, id).clients[j].value.devices, x) <==> Tracks(s.clients[j].value.devices, x) && x != id
    {
      TracksAfterUntrack(s.clients[j].value, s.nextId, id, x);
    }
  }

  /** Saying goodbye only stops the routing to the client: its devices stay plugged in until it disconnects. */
  lemma LeaveMeans(w: World, h: Handle, id: nat)
    requires Unique(w.s) && Enabled(w.s, OpLeave(h))
    ensures var s, s', j := w.s, Next(w, OpLeave(h)).s, ClientSlot(w.s.clients, h);
            && s'.sim == s.sim && s'.clientCount == s.clientCount && Live(s', h)
            && FindClient(s', id) == if FindClient(s, id) == j then |s.clients| else FindClient(s, id)
  {
    var s, s', j := w.s, Next(w, OpLeave(h)).s, ClientSlot(w.s.clients, h);
    assert s'.clients[j].Some? && s'.clients[j].value.handle == h;
    var a, b := FindClient(s, id), FindClient(s', id);
    if a < |s.clients| {
      assert Holds(s.clients, a, id);
    }
    if b < |s.clients| {
      assert b != j && s'.clients[b] == s.clients[b] && Holds(s.clients, b, id);
    }
    assert a < |s.clients| && a != j ==> s'.clients[a] == s.clients[a];
  }

  /** Disconnecting takes the client off the table and unplugs exactly the devices in its active entries. */
  lemma DisconnectMeans(w: World, h: Handle)
    requires Unique(w.s) && Enabled(w.s, OpDisconnect(h))
    ensures var s, s', j := w.s, Next(w, OpDisconnect(h)).s, ClientSlot(w.s.clients, h);
            && s' == s.(sim := s'.sim, clients := s.clients[j := None], clientCount := s.clientCount - 1) && !Live(s', h)
            && |s'.sim| == |s.sim|
            && forall i :: 0 <= i < |s.sim| ==>
                 s'.sim[i] == if s.sim[i].active && Tracks(s.clients[j].value.devices, s.sim[i].id)
                              then s.sim[i].(active := false) else s.sim[i]
  {
    var s, s', j := w.s, Next(w, OpDisconnect(h)).s, ClientSlot(w.s.clients, h);
    forall i | 0 <= i < |s.sim|
      ensures s'.sim[i] == if s.sim[i].active && Tracks(s.clients[j].value.devices, s.sim[i].id)
                           then s.sim[i].(active := false) else s.sim[i]
    {
      UnplugAllSlots(s, s.clients[j].value.devices, i);
    }
    forall k | 0 <= k < |s'.clients| && s'.clients[k].Some?
      ensures s'.clients[k].value.handle != h
    {
      assert k != j && s.clients[k] == s'.clients[k];
    }
  }

  // ---------- devices and entries agree, if clients detach only their own ----------

  ghost predicate SomeoneHolds(clients: seq<Option<Client>>, id: nat) { exists j: nat :: Holds(clients, j, id) }

  /** A device is plugged in exactly when some client's entry names it. */
  ghost predicate Exact(s: Server) {
    forall id: nat :: Plugged(s.sim, id) <==> SomeoneHolds(s.clients, id)
  }

  /** What a connection was given covers its entries, and no id was given twice. */
  ghost predicate GivenOk(w: World) {
    && (forall j: nat, id: nat :: Holds(w.s.clients, j, id) ==> id in Given(w.given, w.s.clients[j].value.handle))
    && (forall h, id :: id in Given(w.given, h) ==> Live(w.s, h) && id <= w.s.nextId)
    && (forall h, h', id :: id in Given(w.given, h) && id in Given(w.given, h') ==> h == h')
  }

  predicate Own(w: World, op: Op) { op.OpDetach? ==> op.id in Given(w.given, op.h) }

  function IdOf(d: SimDevice): Option<nat> { if d.active then Some(d.id) else None }

  /** With a free device slot, a client's entries cannot all be taken: tracking never overflows. */
  lemma RoomToTrack(s: Server, j: nat)
    requires Unique(s) && Exact(s) && j < |s.clients| && s.clients[j].Some? && SimFree(s.sim) < |s.sim|
    ensures TrackFree(s.clients[j].value.devices) < MAX_DEVICES
  {
    var devs := s.clients[j].value.devices;
    if TrackFree(devs) == |devs| {
      var ids: seq<nat> := seq(MAX_DEVICES, k requires 0 <= k < |devs| => devs[k].deviceId);
      NoDupSize(ids);
      var names := set x | x in ids;
      assert |names| == |ids|;
      forall x | x in names
        ensures exists i :: 0 <= i < |s.sim| && IdOf(s.sim[i]) == Some(x)
      {
        var k :| 0 <= k < |ids| && ids[k] == x;
        assert devs[k].active && devs[k].deviceId == x;
        assert Holds(s.clients, j, x);
        assert Plugged(s.sim, x);
        var i :| 0 <= i < |s.sim| && s.sim[i].active && s.sim[i].id == x;
        assert IdOf(s.sim[i]) == Some(x);
      }
      Pigeonhole(s.sim, IdOf, names);
    }
  }

  lemma AcceptExact(s: Server, h: Handle)
    requires Unique(s) && Exact(s)
    ensures Exact(Accept(s, h))
  {
    var s' := Accept(s, h);
    var i := FreeClient(s.clients);
    if i < |s.clients| {
      assert forall id: nat :: !Tracks(s'.clients[i].value.devices, id);
      assert forall j: nat, id: nat :: Holds(s'.clients, j, id) <==> Holds(s.clients, j, id);
      SameHolders(s.clients, s'.clients);
    }
  }

  lemma SameHolders(a: seq<Option<Client>>, b: seq<Option<Client>>)
    requires forall j: nat, id: nat :: Holds(b, j, id) <==> Holds(a, j, id)
    ensures forall id: nat :: SomeoneHolds(a, id) <==> SomeoneHolds(b, id)
  {
    forall id: nat
      ensures SomeoneHolds(a, id) <==> SomeoneHolds(b, id)
    {
      if j: nat :| Holds(a, j, id) {
        assert Holds(b, j, id);
      }
      if j: nat :| Holds(b, j, id) {
        assert Holds(a, j, id);
      }
    }
  }

  lemma AttachHolds(s: Server, h: Handle, info: DeviceInfo, i: nat, x: nat)
    requires Unique(s) && Exact(s) && Live(s, h) && s.nextId + 1 < WORD && SimFree(s.sim) < |s.sim|
    ensures Holds(Attach(s, h, info).0.clients, i, x) <==>
            Holds(s.clients, i, x) || (i == ClientSlot(s.clients, h) && x == s.nextId + 1)
  {
    var j := ClientSlot(s.clients, h);
    RoomToTrack(s, j);
    if i == j {
      TracksAfterTrack(s.clients[j].value, s.nextId + 1, info.id, x);
    }
  }

  lemma AttachExact(s: Server, h: Handle, info: DeviceInfo)
    requires Unique(s) && Exact(s) && Live(s, h) && s.nextId + 1 < WORD
    ensures Exact(Attach(s, h, info).0)
  {
    var (s', id) := Attach(s, h, info);
    var f := SimFree(s.sim);
    if f < |s.sim| {
      forall x: nat
        ensures Plugged(s'.sim, x) <==> SomeoneHolds(s'.clients, x)
      {
        PluggedAfterFill(s.sim, f, s'.sim[f], x);
        HeldAfterAttach(s, h, info, x);
      }
    }
  }

  lemma HeldAfterAttach(s: Server, h: Handle, info: DeviceInfo, x: nat)
    requires Unique(s) && Exact(s) && Live(s, h) && s.nextId + 1 < WORD && SimFree(s.sim) < |s.sim|
    ensures SomeoneHolds(Attach(s, h, info).0.clients, x) <==> SomeoneHolds(s.clients, x) || x == s.nextId + 1
  {
    var s' := Attach(s, h, info).0;
    AttachHolds(s, h, info, ClientSlot(s.clients, h), x);
    if i: nat :| Holds(s'.clients, i, x) {
      AttachHolds(s, h, info, i, x);
    }
    if i: nat :| Holds(s.clients, i, x) {
      AttachHolds(s, h, info, i, x);
    }
  }

  lemma PluggedAfterFill(sim: seq<SimDevice>, f: nat, d: SimDevice, x: nat)
    requires f < |sim| && !sim[f].active && d.active
    ensures Plugged(sim[f := d], x) <==> Plugged(sim, x) || x == d.id
  {
    var r := sim[f := d];
    assert r[f].active;
    if i :| 0 <= i < |sim| && sim[i].active && sim[i].id == x {
      assert r[i] == sim[i];
    }
  }

  lemma DetachHolds(s: Server, h: Handle, id: nat, i: nat, x: nat)
    requires Unique(s) && Live(s, h)
    ensures Holds(Detach(s, h, id).clients, i, x) <==>
            Holds(s.clients, i, x) && !(i == ClientSlot(s.clients, h) && x == id)
  {
    var j := ClientSlot(s.clients, h);
    if i == j {
      TracksAfterUntrack(s.clients[j].value, s.nextId, id, x);
    }
  }

  /** Exactly when a detach keeps devices and entries in agreement: no other client holds the id. */
  lemma DetachExactIff(s: Server, h: Handle, id: nat)
    requires Unique(s) && Exact(s) && Live(s, h)
    ensures Exact(Detach(s, h, id)) <==> forall i: nat :: Holds(s.clients, i, id) ==> i == ClientSlot(s.clients, h)
  {
    var s', j := Detach(s, h, id), ClientSlot(s.clients, h);
    if i: nat :| Holds(s.clients, i, id) && i != j {
      DetachHolds(s, h, id, i, id);
      PluggedAfterUnplug(s.sim, id, id);
      assert SomeoneHolds(s'.clients, id) && !Plugged(s'.sim, id);
    } else {
      forall x: nat
        ensures Plugged(s'.sim, x) <==> SomeoneHolds(s'.clients, x)
      {
        PluggedAfterUnplug(s.sim, id, x);
        HeldAfterDetach(s, h, id, x);
      }
    }
  }

  lemma HeldAfterDetach(s: Server, h: Handle, id: nat, x: nat)
    requires Unique(s) && Live(s, h)
    requires forall i: nat :: Holds(s.clients, i, id) ==> i == ClientSlot(s.clients, h)
    ensures SomeoneHolds(Detach(s, h, id).clients, x) <==> SomeoneHolds(s.clients, x) && x != id
  {
    var s' := Detach(s, h, id);
    if i: nat :| Holds(s'.clients, i, x) {
      DetachHolds(s, h, id, i, x);
    }
    if i: nat :| Holds(s.clients, i, x) {
      DetachHolds(s, h, id, i, x);
    }
  }

  lemma DisconnectExact(s: Server, h: Handle)
    requires Unique(s) && Exact(s) && Live(s, h)
    ensures Exact(Disconnect(s, h))
  {
    var s', j := Disconnect(s, h), ClientSlot(s.clients, h);
    var devs := s.clients[j].value.devices;
    forall x: nat
      ensures Plugged(s'.sim, x) <==> SomeoneHolds(s'.clients, x)
    {
      forall i | 0 <= i < |s.sim|
        ensures s'.sim[i] ==
                if s.sim[i].active && Tracks(devs, s.sim[i].id) then s.sim[i].(active := false) else s.sim[i]
      {
        UnplugAllSlots(s, devs, i);
      }
      PluggedAfterAll(s.sim, s'.sim, devs, x);
      assert Holds(s.clients, j, x) <==> Tracks(devs, x);
      HeldAfterRemoval(s, j, x);
    }
  }

  lemma PluggedAfterAll(a: seq<SimDevice>, b: seq<SimDevice>, devs: seq<Tracking>, x: nat)
    requires |a| == |b|
    requires forall i :: 0 <= i < |a| ==> b[i] == if a[i].active && Tracks(devs, a[i].id) then a[i].(active := false) else a[i]
    ensures Plugged(b, x) <==> Plugged(a, x) && !Tracks(devs, x)
  {
    if i :| 0 <= i < |a| && a[i].active && a[i].id == x && !Tracks(devs, x) {
      assert b[i] == a[i];
    }
    if i :| 0 <= i < |b| && b[i].active && b[i].id == x {
      assert b[i] == a[i];
    }
  }

  lemma HeldAfterRemoval(s: Server, j: nat, x: nat)
    requires Unique(s) && j < |s.clients| && s.clients[j].Some?
    ensures SomeoneHolds(s.clients[j := None], x) <==> SomeoneHolds(s.clients, x) && !Holds(s.clients, j, x)
  {
    var b := s.clients[j := None];
    if i: nat :| Holds(s.clients, i, x) && !Holds(s.clients, j, x) {
      assert Holds(b, i, x);
    }
    if i: nat :| Holds(b, i, x) {
      assert Holds(s.clients, i, x) && i != j;
    }
  }

  lemma LeaveExact(s: Server, h: Handle)
    requires Exact(s) && Live(s, h)
    ensures Exact(Leave(s, h))
  {
    SameHolders(s.clients, Leave(s, h).clients);
  }

  /** An id that was given to the caller is in nobody else's entries. */
  lemma OwnIsNotOthers(w: World, h: Handle, id: nat, i: nat)
    requires Unique(w.s) && GivenOk(w) && Live(w.s, h) && id in Given(w.given, h) && Holds(w.s.clients, i, id)
    ensures i == ClientSlot(w.s.clients, h)
  {
    assert w.s.clients[i].value.handle == h;
    SlotIs(w.s.clients, h, i);
  }

  lemma StepExact(w: World, op: Op)
    requires Unique(w.s) && Exact(w.s) && GivenOk(w) && Enabled(w.s, op) && Own(w, op) && w.s.nextId + 1 < WORD
    ensures Exact(Next(w, op).s)
  {
    match op {
      case OpAccept(h) => AcceptExact(w.s, h);
      case OpAttach(h, info) => AttachExact(w.s, h, info);
      case OpDetach(h, id) =>
        forall i: nat | Holds(w.s.clients, i, id)
          ensures i == ClientSlot(w.s.clients, h)
        {
          OwnIsNotOthers(w, h, id, i);
        }
        DetachExactIff(w.s, h, id);
      case OpLeave(h) => LeaveExact(w.s, h);
      case OpDisconnect(h) => DisconnectExact(w.s, h);
    }
  }

  // ---------- what was given ----------

  lemma LiveAfter(s: Server, s': Server, j: nat, h: Handle)
    requires |s'.clients| == |s.clients| && j < |s.clients| && s.clients[j].Some?
    requires s'.clients[j].Some? && s'.clients[j].value.handle == s.clients[j].value.handle
    requires forall i :: 0 <= i < |s.clients| && i != j ==> s'.clients[i] == s.clients[i]
    ensures Live(s', h) <==> Live(s, h)
  {
    if Live(s, h) {
      var k := ClientSlot(s.clients, h);
      assert s'.clients[k].Some? && s'.clients[k].value.handle == h;
    }
    if Live(s', h) {
      var k := ClientSlot(s'.clients, h);
      assert s.clients[k].Some? && s.clients[k].value.handle == h;
    }
  }

  lemma GivenSame(w: World, s': Server)
    requires GivenOk(w) && s'.nextId == w.s.nextId && |s'.clients| == |w.s.clients|
    requires forall j: nat, id: nat :: Holds(s'.clients, j, id) ==>
      Holds(w.s.clients, j, id) && s'.clients[j].value.handle == w.s.clients[j].value.handle
    requires forall h :: Live(w.s, h) ==> Live(s', h)
    ensures GivenOk(World(s', w.given))
  {
  }

  lemma GivenAccept(w: World, h: Handle)
    requires Unique(w.s) && GivenOk(w) && h != 0 && !Live(w.s, h)
    ensures GivenOk(Next(w, OpAccept(h)))
  {
    var w' := Next(w, OpAccept(h));
    var i := FreeClient(w.s.clients);
    assert forall id :: id !in Given(w.given, h);
    forall h', id | id in Given(w'.given, h')
      ensures id in Given(w.given, h') && Live(w'.s, h')
    {
      assert id in Given(w.given, h');
      var k := ClientSlot(w.s.clients, h');
      assert w'.s.clients[k] == w.s.clients[k];
    }
    forall j: nat, id: nat | Holds(w'.s.clients, j, id)
      ensures Holds(w.s.clients, j, id) && w'.s.clients[j] == w.s.clients[j] && w.s.clients[j].value.handle != h
    {
      if i < |w.s.clients| {
        assert forall x: nat :: !Tracks(w'.s.clients[i].value.devices, x);
      }
    }
  }

  lemma GivenAttach(w: World, h: Handle, info: DeviceInfo)
    requires Unique(w.s) && Exact(w.s) && GivenOk(w) && Live(w.s, h) && w.s.nextId + 1 < WORD
    ensures GivenOk(Next(w, OpAttach(h, info)))
  {
    var w', j, n := Next(w, OpAttach(h, info)), ClientSlot(w.s.clients, h), w.s.nextId + 1;
    if SimFree(w.s.sim) < |w.s.sim| {
      forall h'
        ensures Live(w'.s, h') <==> Live(w.s, h')
      {
        LiveAfter(w.s, w'.s, j, h');
      }
      forall h', id
        ensures id in Given(w'.given, h') <==> id in Given(w.given, h') || (h' == h && id == n)
      {
      }
      AttachCovered(w, h, info);
    }
  }

  lemma AttachCovered(w: World, h: Handle, info: DeviceInfo)
    requires Unique(w.s) && Exact(w.s) && GivenOk(w) && Live(w.s, h) && w.s.nextId + 1 < WORD
    requires SimFree(w.s.sim) < |w.s.sim|
    ensures var w' := Next(w, OpAttach(h, info));
            forall j: nat, id: nat :: Holds(w'.s.clients, j, id) ==> id in Given(w'.given, w'.s.clients[j].value.handle)
  {
    var w', j := Next(w, OpAttach(h, info)), ClientSlot(w.s.clients, h);
    assert forall i: nat :: i < |w.s.clients| && i != j ==> w'.s.clients[i] == w.s.clients[i];
    forall i: nat, id: nat | Holds(w'.s.clients, i, id)
      ensures id in Given(w'.given, w'.s.clients[i].value.handle)
    {
      AttachHolds(w.s, h, info, i, id);
      assert w'.s.clients[i].value.handle == w.s.clients[i].value.handle;
      assert Holds(w.s.clients, i, id) ==> id in Given(w.given, w.s.clients[i].value.handle);
    }
  }

  lemma GivenDetach(w: World, h: Handle, id: nat)
    requires Unique(w.s) && GivenOk(w) && Live(w.s, h)
    ensures GivenOk(Next(w, OpDetach(h, id))) && GivenOk(Next(w, OpLeave(h)))
  {
    var s1, s2, j := Detach(w.s, h, id), Leave(w.s, h), ClientSlot(w.s.clients, h);
    forall h' | Live(w.s, h')
      ensures Live(s1, h') && Live(s2, h')
    {
      LiveAfter(w.s, s1, j, h');
      LiveAfter(w.s, s2, j, h');
    }
    forall i: nat, x: nat | Holds(s1.clients, i, x)
      ensures Holds(w.s.clients, i, x)
    {
      DetachHolds(w.s, h, id, i, x);
    }
    GivenSame(w, s1);
    GivenSame(w, s2);
  }

  lemma GivenDisconnect(w: World, h: Handle)
    requires Unique(w.s) && GivenOk(w) && Live(w.s, h)
    ensures GivenOk(Next(w, OpDisconnect(h)))
  {
    var w', j := Next(w, OpDisconnect(h)), ClientSlot(w.s.clients, h);
    forall h', id | id in Given(w'.given, h')
      ensures id in Given(w.given, h') && h' != h && Live(w'.s, h')
    {
      assert id in Given(w.given, h');
      var k := ClientSlot(w.s.clients, h');
      assert w'.s.clients[k] == w.s.clients[k];
    }
    forall i: nat, id: nat | Holds(w'.s.clients, i, id)
      ensures i != j && Holds(w.s.clients, i, id) && w.s.clients[i].value.handle != h
    {
    }
  }

  lemma StepGiven(w: World, op: Op)
    requires Unique(w.s) && Exact(w.s) && GivenOk(w) && Enabled(w.s, op) && w.s.nextId + 1 < WORD
    ensures GivenOk(Next(w, op))
  {
    hide GivenOk, Unique, Exact, Next;
    match op {
      case OpAccept(h) => GivenAccept(w, h);
      case OpAttach(h, info) => GivenAttach(w, h, info);
      case OpDetach(h, id) => GivenDetach(w, h, id);
      case OpLeave(h) => GivenDetach(w, h, 0);
      case OpDisconnect(h) => GivenDisconnect(w, h);
    }
  }

  predicate OwnRun(w: World, ops: seq<Op>)
    requires IsRun(w, ops)
    decreases |ops|
  {
    ops == [] || (Own(w, ops[0]) && OwnRun(Next(w, ops[0]), ops[1..]))
  }

  lemma {:induction false} RunExact(w: World, ops: seq<Op>)
    requires Unique(w.s) && Exact(w.s) && GivenOk(w) && IsRun(w, ops) && OwnRun(w, ops) && w.s.nextId + |ops| < WORD
    ensures Unique(Run(w, ops).s) && Exact(Run(w, ops).s)
    decreases |ops|
  {
    hide Unique, Exact, GivenOk, Next, Enabled;
    if ops != [] {
      StepUnique(w, ops[0]);
      StepExact(w, ops[0]);
      StepGiven(w, ops[0]);
      RunExact(Next(w, ops[0]), ops[1..]);
    }
  }

  /**
   * If clients detach only ids they were given, then after every run a device is plugged in exactly
   * when one of the present clients has an entry for it: no entry is lost to overflow and no device
   * outlives its client.
   */
  lemma NoDeviceOutlivesItsClient(maxClients: nat, ops: seq<Op>)
    requires IsRun(Start(maxClients), ops) && |ops| < WORD && OwnRun(Start(maxClients), ops)
    ensures Exact(Run(Start(maxClients), ops).s)
  {
    StartUnique(maxClients);
    assert Exact(Start(maxClients).s) && GivenOk(Start(maxClients));
    hide Run, IsRun, OwnRun, Start, Unique, Exact, GivenOk;
    RunExact(Start(maxClients), ops);
  }

  // ---------- a run that leaves a stale entry ----------

  lemma AcceptAt(s: Server, h: Handle, j: nat)
    requires j < |s.clients| && s.clients[j].None? && forall i :: 0 <= i < j ==> s.clients[i].Some?
    ensures Accept(s, h).sim == s.sim && Accept(s, h).nextId == s.nextId
    ensures var client := Client(h, NextWord(s.nextSession), true, seq(MAX_DEVICES, _ => NO_TRACKING));
            Accept(s, h).clients == s.clients[j := Some(client)]
  {
    assert FreeClient(s.clients) == j;
  }

  /** Two connections, before any device. */
  lemma TwoClients(maxClients: nat) returns (s1: Server, s2: Server)
    requires maxClients >= 2
    ensures var s0 := Start(maxClients).s;
            && !Live(s0, 1) && s1 == Accept(s0, 1) && !Live(s1, 2) && s2 == Accept(s1, 2)
    ensures |s2.clients| == maxClients && ClientSlot(s2.clients, 1) == 0 && ClientSlot(s2.clients, 2) == 1
    ensures s2.sim == Start(maxClients).s.sim && s2.nextId == 0
    ensures forall j :: 0 <= j < 2 ==> s2.clients[j].Some? && s2.clients[j].value.devices == seq(MAX_DEVICES, _ => NO_TRACKING)
    ensures forall j :: 2 <= j < |s2.clients| ==> s2.clients[j].None?
  {
    var s0 := Start(maxClients).s;
    s1, s2 := Accept(s0, 1), Accept(Accept(s0, 1), 2);
    AcceptAt(s0, 1, 0);
    AcceptAt(s1, 2, 1);
    assert forall j :: 2 <= j < maxClients ==> s2.clients[j].None?;
    assert s1.clients[0].value.handle == 1 && s2.clients[1].value.handle == 2;
  }

  /** Client 1 attaches a device, client 2 detaches it: the device is gone and client 1 still has its entry. */
  lemma ForeignDetach(s: Server, info: DeviceInfo)
    requires |s.clients| >= 2 && ClientSlot(s.clients, 1) == 0 && ClientSlot(s.clients, 2) == 1
    requires forall j :: 0 <= j < 2 ==> s.clients[j].Some? && s.clients[j].value.devices == seq(MAX_DEVICES, _ => NO_TRACKING)
    requires s.sim == seq(MAX_DEVICES, _ => SimDevice(false, 0, NO_INFO)) && s.nextId == 0
    ensures var s1 := Attach(s, 1, info).0;
            && Live(s1, 2)
            && var s2 := Detach(s1, 2, 1); Holds(s2.clients, 0, 1) && !Plugged(s2.sim, 1) && !Exact(s2)
  {
    var (s1, id) := Attach(s, 1, info);
    assert SimFree(s.sim) == 0 && id == 1;
    assert s1.clients == s.clients[0 := Some(Track(s.clients[0].value, 1, info.id))];
    assert TrackFree(s.clients[0].value.devices) == 0;
    assert s1.clients[0].value.devices[0] == Tracking(true, 1, info.id);
    assert ClientSlot(s1.clients, 2) == 1 by {
      assert s1.clients[0].value.handle == 1 && s1.clients[1].value.handle == 2;
    }
    var s2 := Detach(s1, 2, 1);
    assert s2.clients[0] == s1.clients[0];
    assert SimLookup(s1.sim, 1) == 0;
    assert forall i :: 0 <= i < |s2.sim| ==> !s2.sim[i].active;
    assert Tracks(s2.clients[0].value.devices, 1) by {
      assert s2.clients[0].value.devices[0] == Tracking(true, 1, info.id);
    }
    assert Holds(s2.clients, 0, 1);
    assert SomeoneHolds(s2.clients, 1);
  }

  /** So agreement does fail in a run: two connections, one attach, and a detach from the other connection. */
  lemma StaleEntry(maxClients: nat, info: DeviceInfo)
    requires maxClients >= 2
    ensures var ops := [OpAccept(1), OpAccept(2), OpAttach(1, info), OpDetach(2, 1)];
            && IsRun(Start(maxClients), ops)
            && var s := Run(Start(maxClients), ops).s; Holds(s.clients, 0, 1) && !Plugged(s.sim, 1) && !Exact(s)
  {
    var s1, s2 := TwoClients(maxClients);
    ForeignDetach(s2, info);
    RunOfFour(Start(maxClients), OpAccept(1), OpAccept(2), OpAttach(1, info), OpDetach(2, 1));
  }

  lemma RunOfFour(w: World, a: Op, b: Op, c: Op, d: Op)
    requires Enabled(w.s, a) && Enabled(Next(w, a).s, b) && Enabled(Next(Next(w, a), b).s, c)
    requires Enabled(Next(Next(Next(w, a), b), c).s, d)
    ensures IsRun(w, [a, b, c, d]) && Run(w, [a, b, c, d]) == Next(Next(Next(Next(w, a), b), c), d)
  {
    hide Next, Enabled;
    var w1, w2, w3 := Next(w, a), Next(Next(w, a), b), Next(Next(Next(w, a), b), c);
    assert [a, b, c, d][1..] == [b, c, d] && [b, c, d][1..] == [c, d] && [c, d][1..] == [d] && [d][1..] == [];
    assert IsRun(Next(w3, d), []);
    assert IsRun(w3, [d]) && Run(w3, [d]) == Next(w3, d);
    assert IsRun(w2, [c, d]) && Run(w2, [c, d]) == Next(w3, d);
    assert IsRun(w1, [b, c, d]) && Run(w1, [b, c, d]) == Next(w3, d);
  }

  // ---------- every plugged device is held, whoever detaches ----------

  /** No plugged device is without an entry. */
  ghost predicate Held(s: Server) { forall id: nat :: Plugged(s.sim, id) ==> SomeoneHolds(s.clients, id) }

  /** The attach finds no device slot, or its client has a free entry. */
  predicate HasRoom(s: Server, h: Handle)
    requires Live(s, h)
  {
    SimFree(s.sim) == |s.sim| || TrackFree(s.clients[ClientSlot(s.clients, h)].value.devices) < MAX_DEVICES
  }

  /** Exactly when an attach keeps every device held: no slot is free, or an entry is. */
  lemma AttachHeldIff(s: Server, h: Handle, info: DeviceInfo)
    requires Unique(s) && Held(s) && Live(s, h) && s.nextId + 1 < WORD
    ensures Held(Attach(s, h, info).0) <==> HasRoom(s, h)
  {
    var (s', id) := Attach(s, h, info);
    var j, f := ClientSlot(s.clients, h), SimFree(s.sim);
    if f < |s.sim| {
      forall x: nat
        ensures Plugged(s'.sim, x) <==> Plugged(s.sim, x) || x == id
        ensures SomeoneHolds(s'.clients, x) <==> SomeoneHolds(s.clients, x) || (x == id && HasRoom(s, h))
      {
        PluggedAfterFill(s.sim, f, s'.sim[f], x);
        HeldIfRoom(s, h, info, x);
      }
      NewIdHeldByNone(s, id);
      hide Unique, Holds, Attach;
      assert Plugged(s'.sim, id);
    }
  }

  lemma EntriesFit(s: Server, j: nat)
    requires Unique(s) && j < |s.clients| && s.clients[j].Some?
    ensures |s.clients[j].value.devices| == MAX_DEVICES
  {
  }

  lemma HeldIfRoom(s: Server, h: Handle, info: DeviceInfo, x: nat)
    requires Unique(s) && Live(s, h) && s.nextId + 1 < WORD && SimFree(s.sim) < |s.sim|
    ensures SomeoneHolds(Attach(s, h, info).0.clients, x) <==>
            SomeoneHolds(s.clients, x) || (x == s.nextId + 1 && HasRoom(s, h))
  {
    var s', j := Attach(s, h, info).0, ClientSlot(s.clients, h);
    var c := s.clients[j].value;
    EntriesFit(s, j);
    hide Unique, Tracks;
    TracksAfterTrack(c, s.nextId + 1, info.id, x);
    assert forall i: nat :: i < |s.clients| && i != j ==> s'.clients[i] == s.clients[i];
    if i: nat :| Holds(s'.clients, i, x) {
      assert Holds(s.clients, i, x) || (i == j && x == s.nextId + 1 && HasRoom(s, h));
    }
    if i: nat :| Holds(s.clients, i, x) {
      assert Holds(s'.clients, i, x);
    }
    if x == s.nextId + 1 && HasRoom(s, h) {
      assert Holds(s'.clients, j, x);
    }
  }

  lemma DetachHeld(s: Server, h: Handle, id: nat)
    requires Unique(s) && Held(s) && Live(s, h)
    ensures Held(Detach(s, h, id))
  {
    var s' := Detach(s, h, id);
    forall x: nat | Plugged(s'.sim, x)
      ensures SomeoneHolds(s'.clients, x)
    {
      PluggedAfterUnplug(s.sim, id, x);
      var i: nat :| Holds(s.clients, i, x);
      DetachHolds(s, h, id, i, x);
    }
  }

  lemma DisconnectHeld(s: Server, h: Handle)
    requires Unique(s) && Held(s) && Live(s, h)
    ensures Held(Disconnect(s, h))
  {
    var s', j := Disconnect(s, h), ClientSlot(s.clients, h);
    var devs := s.clients[j].value.devices;
    forall x: nat | Plugged(s'.sim, x)
      ensures SomeoneHolds(s'.clients, x)
    {
      forall i | 0 <= i < |s.sim|
        ensures s'.sim[i] ==
                if s.sim[i].active && Tracks(devs, s.sim[i].id) then s.sim[i].(active := false) else s.sim[i]
      {
        UnplugAllSlots(s, devs, i);
      }
      PluggedAfterAll(s.sim, s'.sim, devs, x);
      assert Holds(s.clients, j, x) <==> Tracks(devs, x);
      HeldAfterRemoval(s, j, x);
    }
  }

  lemma AcceptHeld(s: Server, h: Handle)
    requires Held(s)
    ensures Held(Accept(s, h))
  {
    var s', i := Accept(s, h), FreeClient(s.clients);
    forall x: nat | Plugged(s'.sim, x)
      ensures SomeoneHolds(s'.clients, x)
    {
      var j: nat :| Holds(s.clients, j, x);
      assert s'.clients[j] == s.clients[j] && Holds(s'.clients, j, x);
    }
  }

  lemma LeaveHeld(s: Server, h: Handle)
    requires Held(s) && Live(s, h)
    ensures Held(Leave(s, h))
  {
    SameHolders(s.clients, Leave(s, h).clients);
  }

  predicate Roomy(s: Server, op: Op)
    requires Enabled(s, op)
  {
    op.OpAttach? ==> HasRoom(s, op.h)
  }

  lemma StepHeld(w: World, op: Op)
    requires Unique(w.s) && Held(w.s) && Enabled(w.s, op) && w.s.nextId + 1 < WORD
    ensures Held(Next(w, op).s) <==> Roomy(w.s, op)
  {
    hide Unique, Held, HasRoom;
    match op {
      case OpAccept(h) => AcceptHeld(w.s, h);
      case OpAttach(h, info) => AttachHeldIff(w.s, h, info);
      case OpDetach(h, id) => DetachHeld(w.s, h, id);
      case OpLeave(h) => LeaveHeld(w.s, h);
      case OpDisconnect(h) => DisconnectHeld(w.s, h);
    }
  }

  predicate RoomyRun(w: World, ops: seq<Op>)
    requires IsRun(w, ops)
    decreases |ops|
  {
    ops == [] || (Roomy(w.s, ops[0]) && RoomyRun(Next(w, ops[0]), ops[1..]))
  }

  lemma {:induction false} RunHeld(w: World, ops: seq<Op>)
    requires Unique(w.s) && Held(w.s) && IsRun(w, ops) && RoomyRun(w, ops) && w.s.nextId + |ops| < WORD
    ensures Held(Run(w, ops).s)
    decreases |ops|
  {
    hide Unique, Held, Next, Enabled, Roomy;
    if ops != [] {
      StepUnique(w, ops[0]);
      StepHeld(w, ops[0]);
      RunHeld(Next(w, ops[0]), ops[1..]);
    }
  }

  /**
   * Whatever ids clients detach, every plugged device is held by some present client's entry, as long as
   * no attach gets a device slot while all sixteen entries of its client are active.
   */
  lemma EveryDeviceIsHeld(maxClients: nat, ops: seq<Op>)
    requires IsRun(Start(maxClients), ops) && |ops| < WORD && RoomyRun(Start(maxClients), ops)
    ensures Held(Run(Start(maxClients), ops).s)
  {
    StartUnique(maxClients);
    assert Held(Start(maxClients).s);
    hide Run, IsRun, RoomyRun, Start, Unique, Held;
    RunHeld(Start(maxClients), ops);
  }

  // ---------- a run that overflows ----------

  /** Client 1 attaches a device and client 2 detaches it, k times. */
  function Churn(k: nat, info: DeviceInfo): seq<Op> {
    if k == 0 then [OpAccept(1)] + [OpAccept(2)]
    else Churn(k - 1, info) + [OpAttach(1, info)] + [OpDetach(2, k)]
  }

  /** Client 1 has k stale entries; nothing is plugged in. */
  predicate Churned(s: Server, k: nat) {
    && |s.sim| == MAX_DEVICES && (forall i :: 0 <= i < |s.sim| ==> !s.sim[i].active) && s.nextId == k
    && |s.clients| >= 2 && s.clients[0].Some? && s.clients[1].Some?
    && s.clients[0].value.handle == 1 && s.clients[1].value.handle == 2
    && (forall j :: 2 <= j < |s.clients| ==> s.clients[j].None?)
    && |s.clients[0].value.devices| == |s.clients[1].value.devices| == MAX_DEVICES
    && (forall i :: 0 <= i < MAX_DEVICES ==>
          s.clients[0].value.devices[i].active == (i < k) && !s.clients[1].value.devices[i].active
          && (i < k ==> s.clients[0].value.devices[i].deviceId == i + 1))
  }

  lemma ChurnedFacts(s: Server, k: nat)
    requires Churned(s, k) && k <= MAX_DEVICES
    ensures Live(s, 1) && Live(s, 2) && ClientSlot(s.clients, 1) == 0 && ClientSlot(s.clients, 2) == 1
    ensures SimFree(s.sim) == 0 && TrackFree(s.clients[0].value.devices) == k
  {
    FirstIndexIs(s.clients[0].value.devices, (t: Tracking) => !t.active, k);
    FirstIndexIs(s.clients, (c: Option<Client>) => c.Some? && c.value.handle == 2, 1);
  }

  lemma ChurnStep(s: Server, k: nat, info: DeviceInfo)
    requires Churned(s, k) && k < MAX_DEVICES
    ensures Live(s, 1) && Live(Attach(s, 1, info).0, 2)
    ensures Churned(Detach(Attach(s, 1, info).0, 2, k + 1), k + 1)
  {
    ChurnedFacts(s, k);
    var s1 := Attach(s, 1, info).0;
    assert s1.clients == s.clients[0 := s1.clients[0]];
    assert s1.clients[0].value.devices == s.clients[0].value.devices[k := Tracking(true, k + 1, info.id)];
    FirstIndexIs(s1.clients, (c: Option<Client>) => c.Some? && c.value.handle == 2, 1);
    assert ClientSlot(s1.clients, 2) == 1;
    FirstIndexIs(s1.sim, (d: SimDevice) => d.active && d.id == k + 1, 0);
    assert SimLookup(s1.sim, k + 1) == 0;
    var s2 := Detach(s1, 2, k + 1);
    assert s2.clients[0] == s1.clients[0];
    assert TrackLookup(s1.clients[1].value.devices, k + 1) == MAX_DEVICES;
    assert s2.clients[1] == s1.clients[1];
  }

  lemma {:induction false} RunSnoc(w: World, ops: seq<Op>, op: Op)
    requires IsRun(w, ops) && Enabled(Run(w, ops).s, op)
    ensures IsRun(w, ops + [op]) && Run(w, ops + [op]) == Next(Run(w, ops), op)
    decreases |ops|
  {
    hide Enabled, Next;
    if ops == [] {
      assert ops + [op] == [op] && [op][1..] == [];
      assert IsRun(Next(w, op), []);
    } else {
      assert (ops + [op])[1..] == ops[1..] + [op];
      RunSnoc(Next(w, ops[0]), ops[1..], op);
    }
  }

  lemma ChurnStart(maxClients: nat, info: DeviceInfo)
    requires maxClients >= 2
    ensures IsRun(Start(maxClients), Churn(0, info)) && Churned(Run(Start(maxClients), Churn(0, info)).s, 0)
  {
    var s1, s2 := TwoClients(maxClients);
    assert Churned(s2, 0);
    hide Churned, Accept, Start;
    RunSnoc(Start(maxClients), [], OpAccept(1));
    assert [] + [OpAccept(1)] == [OpAccept(1)];
    RunSnoc(Start(maxClients), [OpAccept(1)], OpAccept(2));
  }

  lemma ChurnIs(k: nat, info: DeviceInfo)
    requires k > 0
    ensures Churn(k, info) == Churn(k - 1, info) + [OpAttach(1, info)] + [OpDetach(2, k)]
  {
  }

  lemma ChurnNext(w: World, k: nat, info: DeviceInfo)
    requires Churned(w.s, k) && k < MAX_DEVICES
    ensures Enabled(w.s, OpAttach(1, info)) && Enabled(Next(w, OpAttach(1, info)).s, OpDetach(2, k + 1))
    ensures Churned(Next(Next(w, OpAttach(1, info)), OpDetach(2, k + 1)).s, k + 1)
  {
    hide Churned, Attach, Detach;
    ChurnStep(w.s, k, info);
  }

  lemma {:induction false} ChurnReaches(maxClients: nat, k: nat, info: DeviceInfo)
    requires maxClients >= 2 && k <= MAX_DEVICES
    ensures IsRun(Start(maxClients), Churn(k, info)) && Churned(Run(Start(maxClients), Churn(k, info)).s, k)
  {
    hide *;
    if k == 0 {
      ChurnStart(maxClients, info);
    } else {
      var ops, attach, detach := Churn(k - 1, info), OpAttach(1, info), OpDetach(2, k);
      ChurnIs(k, info);
      ChurnReaches(maxClients, k - 1, info);
      var w := Run(Start(maxClients), ops);
      ChurnNext(w, k - 1, info);
      RunSnoc(Start(maxClients), ops, attach);
      RunSnoc(Start(maxClients), ops + [attach], detach);
    }
  }

  lemma ChurnOverflow(s: Server, info: DeviceInfo)
    requires Churned(s, MAX_DEVICES)
    ensures Live(s, 1)
    ensures var s' := Attach(s, 1, info).0; Plugged(s'.sim, 17) && !SomeoneHolds(s'.clients, 17)
  {
    ChurnedFacts(s, MAX_DEVICES);
    var s' := Attach(s, 1, info).0;
    assert s'.sim[0].active && s'.sim[0].id == 17;
    assert s'.clients == s.clients;
    assert forall j: nat :: !Holds(s.clients, j, 17);
  }

  /** So a device can be plugged in that no entry names: after sixteen foreign detaches, the next attach overflows. */
  lemma OverflowRun(maxClients: nat, info: DeviceInfo)
    requires maxClients >= 2
    ensures var ops := Churn(MAX_DEVICES, info) + [OpAttach(1, info)];
            && IsRun(Start(maxClients), ops)
            && var s := Run(Start(maxClients), ops).s; Plugged(s.sim, 17) && !SomeoneHolds(s.clients, 17) && !Held(s)
  {
    hide Run, IsRun, Churned, Churn, Start, Attach, Plugged, SomeoneHolds;
    ChurnReaches(maxClients, MAX_DEVICES, info);
    ChurnOverflow(Run(Start(maxClients), Churn(MAX_DEVICES, info)).s, info);
    RunSnoc(Start(maxClients), Churn(MAX_DEVICES, info), OpAttach(1, info));
  }

  // ---------- the server's own form ----------

  /** VUSB_SERVER_CONTEXT in simulation mode; a client record is the value its pointer leads to. */
  class ServerContext {
    const sim: array<SimDevice>
    const clients: array<Option<Client>>
    var nextId: nat
    var clientCount: int
    var nextSession: nat

    ghost function Model(): Server
      reads this, sim, clients
    {
      Server(sim[..], nextId, clients[..], clientCount, nextSession)
    }

    constructor (maxClients: nat)
      ensures Model() == Start(maxClients).s && fresh(sim) && fresh(clients)
    {
      sim := new SimDevice[MAX_DEVICES](_ => SimDevice(false, 0, NO_INFO));
      clients := new Option<Client>[maxClients](_ => None);
      nextId, clientCount, nextSession := 0, 0, 0;
    }

    method AcceptClient(h: Handle) returns (ok: bool)
      modifies this, clients
      ensures Model() == Accept(old(Model()), h) && (ok <==> FreeClient(old(clients[..])) < clients.Length)
    {
      var i := 0;
      while i < clients.Length
        invariant i <= clients.Length && Model() == old(Model())
        invariant forall j :: 0 <= j < i ==> clients[j].Some?
      {
        if clients[i].None? {
          assert FreeClient(clients[..]) == i;
          nextSession := NextWord(nextSession);
          clients[i] := Some(Client(h, nextSession, true, seq(MAX_DEVICES, _ => NO_TRACKING)));
          clientCount := clientCount + 1;
          return true;
        }
        i := i + 1;
      }
      assert FreeClient(clients[..]) == i;
      ok := false;
    }

    method PluginDevice(info: DeviceInfo) returns (id: nat)
      modifies this, sim
      ensures (Model(), id) == Plugin(old(Model()), info) && clients[..] == old(clients[..])
    {
      var i := 0;
      while i < sim.Length
        invariant i <= sim.Length && Model() == old(Model())
        invariant forall j :: 0 <= j < i ==> sim[j].active
      {
        if !sim[i].active {
          assert SimFree(sim[..]) == i;
          nextId := NextWord(nextId);
          sim[i] := SimDevice(true, nextId, info.(id := nextId));
          return nextId;
        }
        i := i + 1;
      }
      assert SimFree(sim[..]) == i;
      id := 0;
    }

    method UnplugDevice(id: nat) returns (ok: bool)
      modifies sim
      ensures sim[..] == Unplug(old(sim[..]), id) && (ok <==> Plugged(old(sim[..]), id))
    {
      var i := 0;
      while i < sim.Length
        invariant i <= sim.Length && sim[..] == old(sim[..])
        invariant forall j :: 0 <= j < i ==> !(sim[j].active && sim[j].id == id)
      {
        if sim[i].active && sim[i].id == id {
          assert SimLookup(sim[..], id) == i;
          sim[i] := sim[i].(active := false);
          return true;
        }
        i := i + 1;
      }
      assert SimLookup(sim[..], id) == i;
      ok := false;
    }

    method HandleDeviceAttach(h: Handle, info: DeviceInfo) returns (id: nat)
      requires Live(Model(), h)
      modifies this, sim, clients
      ensures (Model(), id) == Attach(old(Model()), h, info)
    {
      id := PluginDevice(info);
      if id > 0 {
        var c := CurrentClient(h);
        var devs := clients[c].value.devices;
        var k := 0;
        while k < |devs|
          invariant k <= |devs|
          invariant forall j :: 0 <= j < k ==> devs[j].active
        {
          if !devs[k].active {
            break;
          }
          k := k + 1;
        }
        assert TrackFree(devs) == k;
        if k < |devs| {
          clients[c] := Some(clients[c].value.(devices := devs[k := Tracking(true, id, info.id)]));
        }
        assert clients[..] == old(clients[..])[c := Some(Track(old(clients[c]).value, id, info.id))];
      }
    }

    /** The record of the thread's own client. */
    method CurrentClient(h: Handle) returns (j: nat)
      requires ClientSlot(clients[..], h) < clients.Length
      ensures j == ClientSlot(clients[..], h)
    {
      j := 0;
      while !(clients[j].Some? && clients[j].value.handle == h)
        invariant j <= ClientSlot(clients[..], h)
        decreases clients.Length - j
      {
        j := j + 1;
      }
    }

    method HandleDeviceDetach(h: Handle, id: nat)
      requires Live(Model(), h)
      modifies sim, clients
      ensures Model() == Detach(old(Model()), h, id)
    {
      var ok := UnplugDevice(id);
      var c := CurrentClient(h);
      var devs := clients[c].value.devices;
      var k := 0;
      while k < |devs|
        invariant k <= |devs|
        invariant forall j :: 0 <= j < k ==> !(devs[j].active && devs[j].deviceId == id)
      {
        if devs[k].active && devs[k].deviceId == id {
          break;
        }
        k := k + 1;
      }
      assert TrackLookup(devs, id) == k;
      if k < |devs| {
        clients[c] := Some(clients[c].value.(devices := devs[k := devs[k].(active := false)]));
      }
    }

    method DisconnectClient(h: Handle)
      requires Live(Model(), h)
      modifies this, sim, clients
      ensures Model() == Disconnect(old(Model()), h)
    {
      var c := CurrentClient(h);
      var devs := clients[c].value.devices;
      clients[c] := None;
      clientCount := clientCount - 1;
      var i := 0;
      while i < |devs|
        invariant i <= |devs| && sim[..] == UnplugAll(old(sim[..]), devs[..i])
        modifies sim
      {
        assert devs[..i + 1][..i] == devs[..i];
        if devs[i].active {
          var ok := UnplugDevice(devs[i].deviceId);
        }
        i := i + 1;
      }
      assert devs[..i] == devs;
    }

    /** ServerUrbFindClientForDevice: the nested scan. */
    method FindClientForDevice(id: nat) returns (j: nat)
      ensures j == FindClient(Model(), id)
    {
      j := 0;
      while j < clients.Length
        invariant j <= clients.Length && j <= FindClient(Model(), id)
      {
        if clients[j].Some? && clients[j].value.connected {
          var devs := clients[j].value.devices;
          var k := 0;
          while k < |devs|
            invariant k <= |devs|
            invariant forall m :: 0 <= m < k ==> !(devs[m].active && devs[m].deviceId == id)
          {
            if devs[k].active && devs[k].deviceId == id {
              assert TrackLookup(devs, id) == k;
              return j;
            }
            k := k + 1;
          }
          assert TrackLookup(devs, id) == |devs|;
        }
        j := j + 1;
      }
    }
  }
}
