/**
 * The userspace server of userspace/vusb_userspace.c as a state machine: every message handler
 * and API call is one step on the device table, the client table and the statistics.
 */
module Userspace {
  import opened Collections
  import opened Wire
  import opened Pending

  const MAX_DEVICES := 16
  const MAX_CLIENTS := 32
  const STATUS_ERROR := 2
  const STATUS_CANCELED := 5
  const STATUS_INVALID_PARAM := 7

  /** Address of a client record; 0 is NULL. Addresses of freed records may come back. */
  type Handle = nat

  datatype Direction = Out | In

  datatype Transfer = Transfer(direction: Direction, buffer: Option<seq<byte>>, status: nat,
                               actualLength: nat, completed: bool)

  type Urb = Entry<Transfer>

  datatype Device = Device(
    active: bool, id: nat, remoteId: nat, owner: Handle, info: DeviceInfo, descriptors: seq<byte>,
    pending: seq<Urb>, pendingCount: int, nextUrbId: nat,
    bytesIn: nat, bytesOut: nat, submitted: nat, completed: nat)

  datatype Client = Client(handle: Handle, session: nat, devices: seq<nat>)

  datatype Server = Server(
    devices: seq<Device>, nextDeviceId: nat,
    clients: seq<Option<Client>>, clientCount: int, nextSessionId: nat,
    totalUrbs: nat, totalBytes: nat)

  datatype Reply =
    | Failed(status: nat)
    | Done
    | Accepted
    | Created(id: nat)
    | Queued(device: nat, urbId: nat)
    | Finished(device: nat, urb: Urb)

  datatype Result = Result(s: Server, reply: Reply)

  // ---------- searches ----------

  /** FindFreeDeviceSlot */
  function FreeSlot(devs: seq<Device>): nat {
    FirstIndex(devs, (d: Device) => !d.active)
  }

  /** VusbUsGetDevice */
  function Lookup(devs: seq<Device>, id: nat): nat {
    FirstIndex(devs, (d: Device) => d.active && d.id == id)
  }

  function LookupRemote(devs: seq<Device>, remoteId: nat): nat {
    FirstIndex(devs, (d: Device) => d.active && d.remoteId == remoteId)
  }

  function ClientSlot(clients: seq<Option<Client>>, h: Handle): nat {
    FirstIndex(clients, (c: Option<Client>) => c.Some? && c.value.handle == h)
  }

  function FreeClientSlot(clients: seq<Option<Client>>): nat {
    FirstIndex(clients, (c: Option<Client>) => c.None?)
  }

  predicate Live(s: Server, h: Handle) {
    ClientSlot(s.clients, h) < |s.clients|
  }

  // ---------- device table ----------

  function Fresh(id: nat, info: DeviceInfo, descriptors: seq<byte>): Device {
    Device(true, id, 0, 0, info.(id := id), descriptors, [], 0, 0, 0, 0, 0, 0)
  }

  /** CleanupDevice */
  function Cleanup(d: Device): Device {
    d.(active := false, pending := [], pendingCount := 0, descriptors := [])
  }

  /** VusbUsCreateDevice */
  function Create(s: Server, info: DeviceInfo, descriptors: seq<byte>): Result {
    var i := FreeSlot(s.devices);
    if i == |s.devices| then Result(s, Failed(STATUS_ERROR))
    else
      var id := NextWord(s.nextDeviceId);
      Result(s.(devices := s.devices[i := Fresh(id, info, descriptors)], nextDeviceId := id), Created(id))
  }

  /** VusbUsDestroyDevice */
  function Destroy(s: Server, id: nat): Result {
    var i := Lookup(s.devices, id);
    if i == |s.devices| then Result(s, Failed(STATUS_ERROR))
    else Result(s.(devices := s.devices[i := Cleanup(s.devices[i])]), Done)
  }

  // ---------- URBs ----------

  function SubmitTo(d: Device, t: Transfer): Device {
    var u := NextWord(d.nextUrbId);
    d.(nextUrbId := u, pending := [Entry(u, t.(completed := false))] + d.pending,
       pendingCount := d.pendingCount + 1, submitted := d.submitted + 1)
  }

  /** VusbUsSubmitUrb */
  function Submit(s: Server, id: nat, t: Transfer): Result {
    var i := Lookup(s.devices, id);
    if i == |s.devices| then Result(s, Failed(STATUS_ERROR))
    else
      var d := SubmitTo(s.devices[i], t);
      Result(s.(devices := s.devices[i := d], totalUrbs := s.totalUrbs + 1), Queued(id, d.nextUrbId))
  }

  /** The bytes land in the buffer of an IN transfer, and only when they all fit. */
  function CompleteTransfer(t: Transfer, status: nat, data: Option<seq<byte>>, length: nat): (r: Transfer)
    requires data.Some? ==> |data.value| >= length
    ensures r.completed && r.status == status && r.actualLength == length && r.direction == t.direction
    ensures r.buffer.Some? <==> t.buffer.Some?
    ensures t.buffer.Some? ==> |r.buffer.value| == |t.buffer.value| && forall k :: 0 <= k < |t.buffer.value| ==>
      r.buffer.value[k] == (if data.Some? && t.direction.In? && k < length <= |t.buffer.value| then data.value[k]
                            else t.buffer.value[k])
  {
    var copied :=
      data.Some? && length > 0 && t.direction.In? && t.buffer.Some? && |t.buffer.value| >= length;
    t.(status := status, actualLength := length, completed := true,
       buffer := if copied then Some(data.value[..length] + t.buffer.value[length..]) else t.buffer)
  }

  function CompleteOn(d: Device, urbId: nat, length: nat): Device {
    var k := Position(d.pending, urbId);
    var incoming := k < |d.pending| && d.pending[k].data.direction.In?;
    d.(pending := Without(d.pending, urbId), pendingCount := d.pendingCount - 1,
       completed := d.completed + 1,
       bytesIn := d.bytesIn + (if incoming then length else 0),
       bytesOut := d.bytesOut + (if incoming then 0 else length))
  }

  /** VusbUsCompleteUrb; VusbUsCancelUrb is this with status CANCELED and no data. */
  function Complete(s: Server, id: nat, urbId: nat, status: nat, data: Option<seq<byte>>, length: nat): Result
    requires data.Some? ==> |data.value| >= length
  {
    var i := Lookup(s.devices, id);
    if i == |s.devices| then Result(s, Failed(STATUS_ERROR))
    else
      var d := s.devices[i];
      var k := Position(d.pending, urbId);
      if k == |d.pending| then Result(s, Failed(STATUS_ERROR))
      else
        Result(s.(devices := s.devices[i := CompleteOn(d, urbId, length)], totalBytes := s.totalBytes + length),
               Finished(id, Entry(urbId, CompleteTransfer(d.pending[k].data, status, data, length))))
  }

  // ---------- clients ----------

  /** The accept loop: take a client slot, or reject; a failed thread start gives the slot back. */
  function Accept(s: Server, h: Handle, threadStarted: bool): Result {
    var session := NextWord(s.nextSessionId);
    var s1 := s.(nextSessionId := session);
    var i := FreeClientSlot(s.clients);
    if i == |s.clients| || !threadStarted then Result(s1, Failed(STATUS_ERROR))
    else
      Result(s1.(clients := s.clients[i := Some(Client(h, session, []))], clientCount := s.clientCount + 1),
             Accepted)
  }

  /** HandleDeviceAttach on the received payload; `beyond` is the memory behind it. */
  function Attach(s: Server, h: Handle, payload: seq<byte>, beyond: seq<byte>): Result
    requires Live(s, h)
    requires PayloadReadable(payload, beyond)
  {
    if |payload| < INFO_SIZE + 4 then Result(s, Failed(STATUS_INVALID_PARAM))
    else
      var end := INFO_SIZE + 4 + Get32(payload, INFO_SIZE);
      AttachDevice(s, h, DecodeInfo(payload), (payload + beyond)[INFO_SIZE + 4..end])
  }

  function AttachDevice(s: Server, h: Handle, info: DeviceInfo, descriptors: seq<byte>): Result
    requires Live(s, h)
  {
    var r := Create(s, info, descriptors);
    if !r.reply.Created? then r
    else
      var i := Lookup(r.s.devices, r.reply.id);
      var j := ClientSlot(s.clients, h);
      Result(r.s.(devices := if i < |r.s.devices| then r.s.devices[i := Owned(r.s.devices[i], h, info.id)]
                             else r.s.devices,
                  clients := s.clients[j := Some(Track(s.clients[j].value, r.reply.id))]),
             r.reply)
  }

  function Owned(d: Device, h: Handle, remoteId: nat): Device {
    d.(owner := h, remoteId := remoteId)
  }

  predicate PayloadReadable(payload: seq<byte>, beyond: seq<byte>) {
    |payload| >= INFO_SIZE + 4 ==> INFO_SIZE + 4 + Get32(payload, INFO_SIZE) <= |payload| + |beyond|
  }

  /** The id goes behind the tracked ones, as long as the array has an entry left. */
  function Track(c: Client, id: nat): Client {
    if |c.devices| < MAX_DEVICES then c.(devices := c.devices + [id]) else c
  }

  function Untrack(c: Client, id: nat): Client {
    var k := FirstIndex(c.devices, (x: nat) => x == id);
    if k == |c.devices| then c else c.(devices := SwapRemove(c.devices, k))
  }

  /** HandleDeviceDetach: only the owner may destroy. */
  function Detach(s: Server, h: Handle, id: nat): Result
    requires Live(s, h)
  {
    var i := Lookup(s.devices, id);
    if i == |s.devices| || s.devices[i].owner != h then Result(s, Done)
    else
      var j := ClientSlot(s.clients, h);
      Result(Destroy(s, id).s.(clients := s.clients[j := Some(Untrack(s.clients[j].value, id))]), Done)
  }

  /** The fields of VUSB_URB_COMPLETE take twenty bytes behind the header; the data follows them. */
  const COMPLETE_SIZE := 20

  function ActualLength(payload: seq<byte>): (r: nat)
    requires |payload| >= COMPLETE_SIZE
    ensures r < WORD
  {
    Get32(payload, 12)
  }

  /** A nonzero ActualLength is believed: that many bytes are taken, also from behind the payload. */
  predicate CompletionReadable(payload: seq<byte>, beyond: seq<byte>) {
    |payload| >= COMPLETE_SIZE ==> COMPLETE_SIZE + ActualLength(payload) <= |payload| + |beyond|
  }

  /** HandleUrbComplete on the received payload; `beyond` is the memory behind it. */
  function CompletePayload(s: Server, payload: seq<byte>, beyond: seq<byte>): Result
    requires CompletionReadable(payload, beyond)
  {
    if |payload| < COMPLETE_SIZE then Result(s, Done)
    else
      CompleteRemote(s, Get32(payload, 0), Get32(payload, 4), Get32(payload, 8),
                     (payload + beyond)[COMPLETE_SIZE..COMPLETE_SIZE + ActualLength(payload)])
  }

  /** The rest of HandleUrbComplete: the first active device with the remote id. */
  function CompleteRemote(s: Server, remoteId: nat, urbId: nat, status: nat, data: seq<byte>): Result {
    var i := LookupRemote(s.devices, remoteId);
    if i == |s.devices| then Result(s, Done)
    else Complete(s, s.devices[i].id, urbId, status, if data == [] then None else Some(data), |data|)
  }

  /** The end of ClientThread: clean up every tracked device, leave the client table. */
  function Exit(s: Server, h: Handle): Result
    requires Live(s, h)
  {
    var j := ClientSlot(s.clients, h);
    Result(s.(devices := CleanupTracked(s.devices, s.clients[j].value.devices),
              clients := s.clients[j := None], clientCount := s.clientCount - 1),
           Done)
  }

  function CleanupMatching(devs: seq<Device>, id: nat): (r: seq<Device>)
    ensures |r| == |devs|
    ensures forall i :: 0 <= i < |devs| ==>
      r[i] == if devs[i].active && devs[i].id == id then Cleanup(devs[i]) else devs[i]
  {
    if devs == [] then []
    else
      [if devs[0].active && devs[0].id == id then Cleanup(devs[0]) else devs[0]] + CleanupMatching(devs[1..], id)
  }

  function CleanupTracked(devs: seq<Device>, ids: seq<nat>): (r: seq<Device>)
    ensures |r| == |devs|
    decreases |ids|
  {
    if ids == [] then devs else CleanupMatching(CleanupTracked(devs, ids[..|ids| - 1]), ids[|ids| - 1])
  }

  // ---------- runs ----------

  datatype Op =
    | OpAccept(h: Handle, threadStarted: bool)
    | OpAttach(h: Handle, payload: seq<byte>, beyond: seq<byte>)
    | OpDetach(h: Handle, id: nat)
    | OpCompleteRemote(payload: seq<byte>, beyond: seq<byte>)
    | OpExit(h: Handle)
    | OpCreate(info: DeviceInfo, descriptors: seq<byte>)
    | OpDestroy(id: nat)
    | OpSubmit(id: nat, t: Transfer)
    | OpComplete(id: nat, urbId: nat, status: nat, data: Option<seq<byte>>, length: nat)

  /**
   * What the environment guarantees: allocations are distinct from live records, a device record is a C
   * struct, and lengths are 32-bit.
   */
  predicate Enabled(s: Server, op: Op) {
    match op
    case OpAccept(h, _) => h != 0 && !Live(s, h)
    case OpAttach(h, payload, beyond) => Live(s, h) && PayloadReadable(payload, beyond)
    case OpDetach(h, _) => Live(s, h)
    case OpExit(h) => Live(s, h)
    case OpCreate(info, _) => InfoFits(info)
    case OpCompleteRemote(payload, beyond) => CompletionReadable(payload, beyond)
    case OpComplete(_, _, _, data, length) => length < WORD && (data.Some? ==> |data.value| >= length)
    case _ => true
  }

  function Step(s: Server, op: Op): Result
    requires Enabled(s, op)
  {
    match op
    case OpAccept(h, started) => Accept(s, h, started)
    case OpAttach(h, payload, beyond) => Attach(s, h, payload, beyond)
    case OpDetach(h, id) => Detach(s, h, id)
    case OpCompleteRemote(payload, beyond) => CompletePayload(s, payload, beyond)
    case OpExit(h) => Exit(s, h)
    case OpCreate(info, descriptors) => Create(s, info, descriptors)
    case OpDestroy(id) => Destroy(s, id)
    case OpSubmit(id, t) => Submit(s, id, t)
    case OpComplete(id, urbId, status, data, length) => Complete(s, id, urbId, status, data, length)
  }

  const NO_INFO := DeviceInfo(0, 0, 0, 0, 0, 0, 0, 0, 0, [], [], [], [])
  const EMPTY_SLOT := Device(false, 0, 0, 0, NO_INFO, [], [], 0, 0, 0, 0, 0, 0)

  /** VusbUsInit: everything zero. */
  function Initial(): Server {
    Server(seq(MAX_DEVICES, _ => EMPTY_SLOT), 0, seq(MAX_CLIENTS, _ => None), 0, 0, 0, 0)
  }

  /** Device id and URB id. */
  type Key = (nat, nat)

  /**
   * What an observer writes down. From calls and replies: every accepted submission, every reported
   * completion with the record last delivered for it and its bytes by direction. For every device that
   * goes away it also reads, from the device table, the traffic that device had counted.
   */
  datatype History = History(
    submitted: multiset<Key>, finished: multiset<Key>, outcome: map<Key, Transfer>,
    inBytes: nat, outBytes: nat,
    destroyed: multiset<nat>, deadUrbs: int, deadIn: int, deadOut: int)

  const NO_HISTORY := History(multiset{}, multiset{}, map[], 0, 0, multiset{}, 0, 0, 0)

  datatype World = World(s: Server, h: History)

  function LiveUrbs(d: Device): int { if d.active then d.submitted else 0 }

  function LiveIn(d: Device): int { if d.active then d.bytesIn else 0 }

  function LiveOut(d: Device): int { if d.active then d.bytesOut else 0 }

  function LiveOne(d: Device): int { if d.active then 1 else 0 }

  /** Ids of the devices active before and gone after. */
  function Retired(before: seq<Device>, after: seq<Device>): set<nat> {
    set i | 0 <= i < |before| && before[i].active && !(i < |after| && after[i].active) :: before[i].id
  }

  function RetiredSum(before: seq<Device>, after: seq<Device>, f: Device -> int): int
    requires |before| == |after|
  {
    if before == [] then 0
    else
      (if before[0].active && !after[0].active then f(before[0]) else 0) + RetiredSum(before[1..], after[1..], f)
  }

  /** Book the devices that went away. */
  function Bury(h: History, before: seq<Device>, after: seq<Device>): History
    requires |before| == |after|
  {
    h.(destroyed := h.destroyed + multiset(Retired(before, after)),
       deadUrbs := h.deadUrbs + RetiredSum(before, after, LiveUrbs),
       deadIn := h.deadIn + RetiredSum(before, after, LiveIn),
       deadOut := h.deadOut + RetiredSum(before, after, LiveOut))
  }

  /** Book a reported completion: the record on file for a key is the one delivered last. */
  function Finish(h: History, device: nat, urb: Urb): History {
    var k, t := (device, urb.id), urb.data;
    h.(finished := h.finished + multiset{k},
       inBytes := h.inBytes + (if t.direction.In? then t.actualLength else 0),
       outBytes := h.outBytes + (if t.direction.In? then 0 else t.actualLength),
       outcome := h.outcome[k := t])
  }

  function Observe(h: History, before: seq<Device>, after: seq<Device>, reply: Reply): History
    requires |before| == |after|
  {
    var base := Bury(h, before, after);
    match reply
    case Queued(d, u) => base.(submitted := h.submitted + multiset{(d, u)})
    case Finished(d, urb) => Finish(base, d, urb)
    case _ => base
  }

  function Next(w: World, op: Op): World
    requires Enabled(w.s, op)
  {
    var r := Step(w.s, op);
    World(r.s, Observe(w.h, w.s.devices, r.s.devices, r.reply))
  }

  /** A run is any list of steps, each enabled when its turn comes. */
  predicate IsRun(w: World, ops: seq<Op>)
    decreases |ops|
  {
    ops == [] || (Enabled(w.s, ops[0]) && IsRun(Next(w, ops[0]), ops[1..]))
  }

  function Run(w: World, ops: seq<Op>): World
    requires IsRun(w, ops)
    decreases |ops|
  {
    if ops == [] then w else Run(Next(w, ops[0]), ops[1..])
  }

  function Start(): World { World(Initial(), NO_HISTORY) }
}
