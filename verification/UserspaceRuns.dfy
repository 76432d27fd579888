/** The theorems about whole runs of the userspace server. */
module UserspaceRuns {
  import opened Collections
  import opened Wire
  import opened Pending
  import opened Userspace
  import opened UserspaceCore

  // ---------- every step keeps the core invariant ----------

  /** After Create, the attach handler finds its device in the slot that was free. */
  lemma AttachShape(s: Server, h: Handle, info: DeviceInfo, descriptors: seq<byte>)
    requires Table(s) && s.nextDeviceId + 1 < WORD && Live(s, h) && FreeSlot(s.devices) < |s.devices|
    ensures var i, j, id := FreeSlot(s.devices), ClientSlot(s.clients, h), s.nextDeviceId + 1;
            var d := Owned(Fresh(id, info, descriptors), h, info.id);
            AttachDevice(s, h, info, descriptors) ==
            Result(s.(devices := s.devices[i := d], nextDeviceId := id,
                      clients := s.clients[j := Some(Track(s.clients[j].value, id))]), Created(id))
  {
    hide Track, ClientSlot, Lookup, UrbsOk;
    var i, id := FreeSlot(s.devices), s.nextDeviceId + 1;
    var d := Fresh(id, info, descriptors);
    var devs := s.devices[i := d];
    LookupIs(devs, id, i);
    assert devs[i := Owned(d, h, info.id)] == s.devices[i := Owned(d, h, info.id)];
  }

  /** The double loop at the end of ClientThread cleans exactly the active devices that are tracked. */
  lemma {:induction false} CleanupTrackedSlots(devs: seq<Device>, ids: seq<nat>, i: nat)
    requires i < |devs|
    ensures CleanupTracked(devs, ids)[i] ==
            if devs[i].active && devs[i].id in ids then Cleanup(devs[i]) else devs[i]
    decreases |ids|
  {
    if ids != [] {
      var n := |ids| - 1;
      CleanupTrackedSlots(devs, ids[..n], i);
      assert ids == ids[..n] + [ids[n]];
    }
  }

  /** Whatever leaves the devices alone or only cleans some up. */
  lemma QuietKeeps(w: World, r: Result, n: nat)
    requires Core(w) && Within(w.s, n) && |r.s.devices| == |w.s.devices|
    requires forall i :: 0 <= i < |r.s.devices| ==>
      r.s.devices[i] == w.s.devices[i] || (w.s.devices[i].active && r.s.devices[i] == Cleanup(w.s.devices[i]))
    requires r.s.nextDeviceId == w.s.nextDeviceId
    requires r.s.totalUrbs == w.s.totalUrbs && r.s.totalBytes == w.s.totalBytes
    requires !r.reply.Queued? && !r.reply.Finished?
    ensures Core(World(r.s, Observe(w.h, w.s.devices, r.s.devices, r.reply))) && Within(r.s, n + 1)
  {
    hide Core, Observe;
    KeepsRetire(w, r.s, r.reply);
  }

  lemma CreateKeeps(w: World, info: DeviceInfo, descriptors: seq<byte>, n: nat)
    requires Core(w) && Within(w.s, n) && n + 1 < WORD && InfoFits(info)
    ensures var r := Create(w.s, info, descriptors);
            Core(World(r.s, Observe(w.h, w.s.devices, r.s.devices, r.reply))) && Within(r.s, n + 1)
  {
    hide Core, Observe;
    var r := Create(w.s, info, descriptors);
    var i := FreeSlot(w.s.devices);
    if i == |w.s.devices| {
      QuietKeeps(w, r, n);
    } else {
      KeepsCreate(w, i, r.s.devices[i], r.s, r.reply);
    }
  }

  lemma AttachKeeps(w: World, h: Handle, info: DeviceInfo, descriptors: seq<byte>, n: nat)
    requires Core(w) && Within(w.s, n) && n + 1 < WORD && InfoFits(info) && Live(w.s, h)
    ensures var r := AttachDevice(w.s, h, info, descriptors);
            Core(World(r.s, Observe(w.h, w.s.devices, r.s.devices, r.reply))) && Within(r.s, n + 1)
  {
    assert Table(w.s);
    hide Core, Observe;
    var r := AttachDevice(w.s, h, info, descriptors);
    var i := FreeSlot(w.s.devices);
    if i == |w.s.devices| {
      QuietKeeps(w, r, n);
    } else {
      AttachShape(w.s, h, info, descriptors);
      KeepsCreate(w, i, r.s.devices[i], r.s, r.reply);
    }
  }

  lemma ExitKeeps(w: World, h: Handle, n: nat)
    requires Core(w) && Within(w.s, n) && Live(w.s, h)
    ensures Core(Next(w, OpExit(h))) && Within(Next(w, OpExit(h)).s, n + 1)
  {
    hide Core, Observe;
    var r := Exit(w.s, h);
    var ids := w.s.clients[ClientSlot(w.s.clients, h)].value.devices;
    forall k | 0 <= k < |w.s.devices|
      ensures r.s.devices[k] == w.s.devices[k]
              || (w.s.devices[k].active && r.s.devices[k] == Cleanup(w.s.devices[k]))
    {
      CleanupTrackedSlots(w.s.devices, ids, k);
    }
    QuietKeeps(w, r, n);
  }

  lemma CompleteKeeps(w: World, id: nat, urbId: nat, status: nat, data: Option<seq<byte>>, length: nat, n: nat)
    requires Core(w) && Within(w.s, n) && n + 1 < WORD && length < WORD
    requires data.Some? ==> |data.value| >= length
    ensures var r := Complete(w.s, id, urbId, status, data, length);
            && Core(World(r.s, Observe(w.h, w.s.devices, r.s.devices, r.reply)))
            && Within(r.s, n + 1)
  {
    hide Core, Observe;
    var r := Complete(w.s, id, urbId, status, data, length);
    var i := Lookup(w.s.devices, id);
    if i < |w.s.devices| && Position(w.s.devices[i].pending, urbId) < |w.s.devices[i].pending| {
      KeepsComplete(w, i, urbId, length, r.reply.urb.data, r.s);
    } else {
      QuietKeeps(w, r, n);
    }
  }

  lemma SubmitKeeps(w: World, id: nat, t: Transfer, n: nat)
    requires Core(w) && Within(w.s, n) && n + 1 < WORD
    ensures var r := Submit(w.s, id, t);
            Core(World(r.s, Observe(w.h, w.s.devices, r.s.devices, r.reply))) && Within(r.s, n + 1)
  {
    hide Core, Observe;
    var r := Submit(w.s, id, t);
    var i := Lookup(w.s.devices, id);
    if i == |w.s.devices| {
      QuietKeeps(w, r, n);
    } else {
      KeepsSubmit(w, i, t, r.s);
    }
  }

  lemma DetachKeeps(w: World, h: Handle, id: nat, n: nat)
    requires Core(w) && Within(w.s, n) && Live(w.s, h)
    ensures Core(Next(w, OpDetach(h, id))) && Within(Next(w, OpDetach(h, id)).s, n + 1)
  {
    hide Core, Observe;
    QuietKeeps(w, Detach(w.s, h, id), n);
  }

  lemma PayloadKeeps(w: World, h: Handle, payload: seq<byte>, beyond: seq<byte>, n: nat)
    requires Core(w) && Within(w.s, n) && n + 1 < WORD && Live(w.s, h) && PayloadReadable(payload, beyond)
    ensures var r := Attach(w.s, h, payload, beyond);
            Core(World(r.s, Observe(w.h, w.s.devices, r.s.devices, r.reply))) && Within(r.s, n + 1)
  {
    hide Core, Observe;
    if |payload| < INFO_SIZE + 4 {
      QuietKeeps(w, Attach(w.s, h, payload, beyond), n);
    } else {
      var end := INFO_SIZE + 4 + Get32(payload, INFO_SIZE);
      AttachKeeps(w, h, DecodeInfo(payload), (payload + beyond)[INFO_SIZE + 4..end], n);
    }
  }

  lemma RemoteKeeps(w: World, remoteId: nat, urbId: nat, status: nat, bytes: seq<byte>, n: nat)
    requires Core(w) && Within(w.s, n) && n + 1 < WORD && |bytes| < WORD
    ensures var r := CompleteRemote(w.s, remoteId, urbId, status, bytes);
            Core(World(r.s, Observe(w.h, w.s.devices, r.s.devices, r.reply))) && Within(r.s, n + 1)
  {
    hide Core, Observe;
    var i := LookupRemote(w.s.devices, remoteId);
    if i == |w.s.devices| {
      QuietKeeps(w, Result(w.s, Done), n);
    } else {
      CompleteKeeps(w, w.s.devices[i].id, urbId, status, if bytes == [] then None else Some(bytes), |bytes|, n);
    }
  }

  lemma CompletionKeeps(w: World, payload: seq<byte>, beyond: seq<byte>, n: nat)
    requires Core(w) && Within(w.s, n) && n + 1 < WORD && CompletionReadable(payload, beyond)
    ensures var r := CompletePayload(w.s, payload, beyond);
            Core(World(r.s, Observe(w.h, w.s.devices, r.s.devices, r.reply))) && Within(r.s, n + 1)
  {
    hide Core, Observe;
    if |payload| < COMPLETE_SIZE {
      QuietKeeps(w, Result(w.s, Done), n);
    } else {
      RemoteKeeps(w, Get32(payload, 0), Get32(payload, 4), Get32(payload, 8),
                  (payload + beyond)[COMPLETE_SIZE..COMPLETE_SIZE + ActualLength(payload)], n);
    }
  }

  lemma StepKeepsCore(w: World, op: Op, n: nat)
    requires Core(w) && Within(w.s, n) && n + 1 < WORD && Enabled(w.s, op)
    ensures Core(Next(w, op)) && Within(Next(w, op).s, n + 1)
  {
    hide Core, Observe;
    match op {
      case OpAccept(h, started) => QuietKeeps(w, Accept(w.s, h, started), n);
      case OpCreate(info, descriptors) => CreateKeeps(w, info, descriptors, n);
      case OpAttach(h, payload, beyond) => PayloadKeeps(w, h, payload, beyond, n);
      case OpDestroy(id) => QuietKeeps(w, Destroy(w.s, id), n);
      case OpDetach(h, id) => DetachKeeps(w, h, id, n);
      case OpExit(h) => ExitKeeps(w, h, n);
      case OpSubmit(id, t) => SubmitKeeps(w, id, t, n);
      case OpComplete(id, urbId, status, data, length) => CompleteKeeps(w, id, urbId, status, data, length, n);
      case OpCompleteRemote(payload, beyond) => CompletionKeeps(w, payload, beyond, n);
    }
  }

  lemma {:induction false} ZeroSum(devs: seq<Device>, f: Device -> int)
    requires forall i :: 0 <= i < |devs| ==> f(devs[i]) == 0
    ensures Sum(devs, f) == 0
  {
    if devs != [] {
      assert f(devs[0]) == 0;
      assert forall i :: 0 <= i < |devs[1..]| ==> devs[1..][i] == devs[i + 1];
      ZeroSum(devs[1..], f);
    }
  }

  lemma EmptyIsCore(s: Server)
    requires |s.devices| == MAX_DEVICES && forall i :: 0 <= i < |s.devices| ==> !s.devices[i].active
    requires s.totalUrbs == s.totalBytes == s.nextDeviceId == 0
    ensures Core(World(s, NO_HISTORY)) && Within(s, 0)
  {
    ZeroSum(s.devices, LiveUrbs);
    ZeroSum(s.devices, LiveIn);
    ZeroSum(s.devices, LiveOut);
  }

  lemma StartIsCore()
    ensures Core(Start()) && Within(Start().s, 0)
  {
    hide Core, Within;
    EmptyIsCore(Initial());
  }

  lemma {:induction false} RunFrom(w: World, ops: seq<Op>, n: nat)
    requires Core(w) && Within(w.s, n) && IsRun(w, ops) && n + |ops| < WORD
    ensures Core(Run(w, ops)) && Within(Run(w, ops).s, n + |ops|)
    decreases |ops|
  {
    if ops != [] {
      StepKeepsCore(w, ops[0], n);
      RunFrom(Next(w, ops[0]), ops[1..], n + 1);
    }
  }

  // ---------- the theorems ----------

  /** Every run of fewer than 2^32 steps, with any slot reuse, keeps the core invariant. */
  lemma {:induction false} RunKeepsCore(ops: seq<Op>)
    requires IsRun(Start(), ops) && |ops| < WORD
    ensures Core(Run(Start(), ops)) && Within(Run(Start(), ops).s, |ops|)
  {
    hide Core, Within, Start, Run, IsRun;
    StartIsCore();
    RunFrom(Start(), ops, 0);
  }

  /** Pending, finished, or dropped with its device: exactly one of them, and each at most once. */
  ghost predicate HasOneFate(w: World, k: Key) {
    var pending, finished := IsPending(w.s.devices, k), k in w.h.finished;
    var dropped := k in w.h.submitted && k !in w.h.finished && k.0 in w.h.destroyed;
    && w.h.submitted[k] <= 1 && w.h.finished[k] <= 1
    && (k in w.h.submitted <==> pending || finished || dropped)
    && !(pending && finished) && !(pending && dropped) && !(finished && dropped)
  }

  lemma CoreGivesOneFate(w: World, k: Key)
    requires Core(w)
    ensures HasOneFate(w, k)
  {
    var devs := w.s.devices;
    if k in w.h.submitted && k !in w.h.finished && k.0 !in w.h.destroyed {
      var i :| 0 <= i < |devs| && devs[i].active && devs[i].id == k.0;
      assert Agrees(devs[i], w.h.submitted, w.h.finished);
    }
    if IsPending(devs, k) {
      var i :| 0 <= i < |devs| && devs[i].active && devs[i].id == k.0 && HasId(devs[i].pending, k.1);
      assert Agrees(devs[i], w.h.submitted, w.h.finished);
    }
  }

  /** Every accepted URB of every run has exactly one fate. */
  lemma {:induction false} OneFate(ops: seq<Op>, k: Key)
    requires IsRun(Start(), ops) && |ops| < WORD
    ensures HasOneFate(Run(Start(), ops), k)
  {
    hide HasOneFate, Core, Within, Start, Run, IsRun;
    RunKeepsCore(ops);
    CoreGivesOneFate(Run(Start(), ops), k);
  }

  /** The server reports a completion only for a URB that was pending until then. */
  lemma ReportedWasPending(s: Server, op: Op)
    requires Enabled(s, op) && Step(s, op).reply.Finished?
    ensures IsPending(s.devices, (Step(s, op).reply.device, Step(s, op).reply.urb.id))
  {
    var r := Step(s, op).reply;
    var i := if op.OpComplete? then Lookup(s.devices, op.id) else Lookup(s.devices, r.device);
    assert s.devices[i].active && s.devices[i].id == r.device && HasId(s.devices[i].pending, r.urb.id);
  }

  /** So one step of a server in its invariant delivers no second record for a finished URB. */
  lemma StepKeepsOutcome(w: World, op: Op, k: Key)
    requires Core(w) && Enabled(w.s, op) && k in w.h.outcome
    ensures k in Next(w, op).h.outcome && Next(w, op).h.outcome[k] == w.h.outcome[k]
  {
    hide Core, Step, Enabled, IsPending, RetiredSum, Retired;
    var reply := Step(w.s, op).reply;
    if reply.Finished? {
      var other: Key := (reply.device, reply.urb.id);
      ReportedWasPending(w.s, op);
      PendingHasNoOutcome(w, other);
    }
  }

  lemma PendingHasNoOutcome(w: World, k: Key)
    requires Core(w) && IsPending(w.s.devices, k)
    ensures k !in w.h.outcome
  {
    hide Core;
    var devs := w.s.devices;
    var i :| 0 <= i < |devs| && devs[i].active && devs[i].id == k.0 && HasId(devs[i].pending, k.1);
    NotFinishedYet(w, i, k);
  }

  lemma {:induction false} OutcomeFrom(w: World, ops: seq<Op>, k: Key, n: nat)
    requires Core(w) && Within(w.s, n) && IsRun(w, ops) && n + |ops| < WORD && k in w.h.outcome
    ensures k in Run(w, ops).h.outcome && Run(w, ops).h.outcome[k] == w.h.outcome[k]
    decreases |ops|
  {
    hide Core, Within, Next;
    if ops != [] {
      StepKeepsCore(w, ops[0], n);
      StepKeepsOutcome(w, ops[0], k);
      OutcomeFrom(Next(w, ops[0]), ops[1..], k, n + 1);
    }
  }

  lemma {:induction false} RunSplit(w: World, ops: seq<Op>, more: seq<Op>)
    ensures IsRun(w, ops + more) ==>
              IsRun(w, ops) && IsRun(Run(w, ops), more) && Run(w, ops + more) == Run(Run(w, ops), more)
    decreases |ops|
  {
    hide Enabled, Next;
    if ops == [] {
      assert ops + more == more;
    } else if IsRun(w, ops + more) {
      assert (ops + more)[1..] == ops[1..] + more;
      RunSplit(Next(w, ops[0]), ops[1..], more);
    }
  }

  /**
   * The record delivered for a URB at some point of a run is still the one on file at any later point:
   * the server never delivers a second one, although the file would take it.
   */
  lemma {:induction false} OutcomeStays(ops: seq<Op>, more: seq<Op>, k: Key)
    requires IsRun(Start(), ops + more) && |ops + more| < WORD
    ensures IsRun(Start(), ops)
    ensures var early, late := Run(Start(), ops).h.outcome, Run(Start(), ops + more).h.outcome;
            k in early ==> k in late && late[k] == early[k]
  {
    hide Core, Within, Start, Run, IsRun;
    RunSplit(Start(), ops, more);
    RunKeepsCore(ops);
    if k in Run(Start(), ops).h.outcome {
      OutcomeFrom(Run(Start(), ops), more, k, |ops|);
    }
  }

  /** A finished URB cannot be completed or cancelled again: -1, and nothing changes. */
  lemma SecondCompletionFails(w: World, k: Key, status: nat, data: Option<seq<byte>>, length: nat)
    requires Core(w) && k in w.h.finished && (data.Some? ==> |data.value| >= length)
    ensures Complete(w.s, k.0, k.1, status, data, length) == Result(w.s, Failed(STATUS_ERROR))
  {
    var i := Lookup(w.s.devices, k.0);
    if i < |w.s.devices| {
      assert Agrees(w.s.devices[i], w.h.submitted, w.h.finished);
      assert (w.s.devices[i].id, k.1) == k;
      assert !HasId(w.s.devices[i].pending, k.1);
    }
  }

  lemma CompleteShape(s: Server, i: nat, k: Key, status: nat, data: Option<seq<byte>>, length: nat)
    requires Table(s) && i < |s.devices| && s.devices[i].active && s.devices[i].id == k.0
    requires HasId(s.devices[i].pending, k.1) && (data.Some? ==> |data.value| >= length)
    ensures var r := Complete(s, k.0, k.1, status, data, length);
            && r.s.devices == s.devices[i := CompleteOn(s.devices[i], k.1, length)]
            && r.reply.Finished? && r.reply.device == k.0 && r.reply.urb.id == k.1
            && r.reply.urb.data.completed && r.reply.urb.data.status == status
            && r.reply.urb.data.actualLength == length
  {
    LookupFinds(s, k.0, i);
  }

  /** A pending URB can be completed; the status and length given then are the ones on record. */
  lemma CompletionDelivers(w: World, k: Key, status: nat, data: Option<seq<byte>>, length: nat)
    requires Core(w) && IsPending(w.s.devices, k)
    requires length < WORD && (data.Some? ==> |data.value| >= length)
    ensures var w' := Next(w, OpComplete(k.0, k.1, status, data, length));
            && k in w'.h.outcome && w'.h.outcome[k].completed
            && w'.h.outcome[k].status == status && w'.h.outcome[k].actualLength == length
            && w'.h.finished == w.h.finished + multiset{k} && !IsPending(w'.s.devices, k)
            && forall other: Key :: other != k ==> (IsPending(w'.s.devices, other) <==> IsPending(w.s.devices, other))
  {
    hide Core, Observe, Complete, CompleteOn, Table, UrbsOk, Agrees;
    var devs := w.s.devices;
    var i :| 0 <= i < |devs| && devs[i].active && devs[i].id == k.0 && HasId(devs[i].pending, k.1);
    NotFinishedYet(w, i, k);
    CompleteShape(w.s, i, k, status, data, length);
    var r := Complete(w.s, k.0, k.1, status, data, length);
    SlotFacts(w, i);
    CompletedDevice(devs[i], k.1, length);
    ObserveKept(w.h, devs, r.s.devices, r.reply);
    PendingElsewhere(w.s, r.s, i, k);
  }

  lemma CompletedDevice(d: Device, urbId: nat, length: nat)
    requires UrbsOk(d) && HasId(d.pending, urbId)
    ensures var d' := CompleteOn(d, urbId, length);
            && SameDevice(d, d')
            && forall u: nat :: HasId(d'.pending, u) <==> HasId(d.pending, u) && u != urbId
  {
    WithoutDecreasing(d.pending, urbId);
  }

  lemma NotFinishedYet(w: World, i: nat, k: Key)
    requires Core(w) && i < |w.s.devices| && w.s.devices[i].active && w.s.devices[i].id == k.0
    requires HasId(w.s.devices[i].pending, k.1)
    ensures k !in w.h.finished && k !in w.h.outcome && Table(w.s)
  {
    assert Agrees(w.s.devices[i], w.h.submitted, w.h.finished);
    assert (w.s.devices[i].id, k.1) == k;
  }

  lemma PendingElsewhere(s: Server, s': Server, i: nat, k: Key)
    requires Table(s) && i < |s.devices| && s.devices[i].active && s.devices[i].id == k.0
    requires |s'.devices| == |s.devices| && s'.devices == s.devices[i := s'.devices[i]]
    requires s'.devices[i].active && s'.devices[i].id == k.0
    requires forall u: nat :: HasId(s'.devices[i].pending, u) <==> HasId(s.devices[i].pending, u) && u != k.1
    ensures !IsPending(s'.devices, k)
    ensures forall other: Key :: other != k ==> (IsPending(s'.devices, other) <==> IsPending(s.devices, other))
  {
    var a, b := s.devices, s'.devices;
    forall other: Key | other != k
      ensures IsPending(b, other) <==> IsPending(a, other)
    {
      if IsPending(a, other) {
        var j :| 0 <= j < |a| && a[j].active && a[j].id == other.0 && HasId(a[j].pending, other.1);
        assert HasId(b[j].pending, other.1);
      }
      if IsPending(b, other) {
        var j :| 0 <= j < |b| && b[j].active && b[j].id == other.0 && HasId(b[j].pending, other.1);
        assert HasId(a[j].pending, other.1);
      }
    }
  }

  /** Live devices: submitted = completed + pending, in total and one by one. */
  function LiveCompleted(d: Device): int { if d.active then d.completed else 0 }

  function LivePending(d: Device): int { if d.active then d.pendingCount else 0 }

  lemma {:induction false} SumsBalance(devs: seq<Device>)
    requires forall i :: 0 <= i < |devs| && devs[i].active ==> UrbsOk(devs[i])
    ensures Sum(devs, LiveUrbs) == Sum(devs, LiveCompleted) + Sum(devs, LivePending)
  {
    if devs != [] {
      assert forall i :: 0 <= i < |devs[1..]| ==> devs[1..][i] == devs[i + 1];
      SumsBalance(devs[1..]);
    }
  }

  /**
   * Submitted = completed + pending, device by device and in total; the server's totals count the
   * observed traffic, split into live and destroyed devices and by direction; no counter has wrapped.
   */
  ghost predicate Conserved(w: World) {
    && Sum(w.s.devices, LiveUrbs) == Sum(w.s.devices, LiveCompleted) + Sum(w.s.devices, LivePending)
    && w.s.totalUrbs == |w.h.submitted| == Sum(w.s.devices, LiveUrbs) + w.h.deadUrbs < WORD
    && w.s.totalBytes == w.h.inBytes + w.h.outBytes < WORD * WORD
    && w.h.inBytes == Sum(w.s.devices, LiveIn) + w.h.deadIn
    && w.h.outBytes == Sum(w.s.devices, LiveOut) + w.h.deadOut
    && forall i :: 0 <= i < |w.s.devices| && w.s.devices[i].active ==>
         var d := w.s.devices[i];
         d.pendingCount == |d.pending| && d.submitted == d.completed + d.pendingCount && Decreasing(d.pending)
  }

  lemma CoreConserves(w: World, n: nat)
    requires Core(w) && Within(w.s, n) && n < WORD
    ensures Conserved(w)
  {
    SumsBalance(w.s.devices);
    hide Sum;
  }

  /** Conservation over whole runs with slot reuse. */
  lemma {:induction false} Conservation(ops: seq<Op>)
    requires IsRun(Start(), ops) && |ops| < WORD
    ensures Conserved(Run(Start(), ops))
  {
    hide Conserved, Core, Within, Start, Run, IsRun;
    RunKeepsCore(ops);
    CoreConserves(Run(Start(), ops), |ops|);
  }
}
