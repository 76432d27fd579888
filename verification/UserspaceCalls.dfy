/**
 * The attach, detach, accept and exit handlers of the userspace server as a caller sees them: which answer
 * they give when, and what they do to the device map and to the clients.
 */
module UserspaceCalls {
  import opened Collections
  import opened Wire
  import opened Pending
  import opened Userspace
  import opened UserspaceCore
  import opened UserspaceRuns
  import opened UserspaceOwners
  import opened UserspaceTracking
  import opened UserspaceTable
  import opened UserspaceTransfers

  // ---------- attach ----------

  /** The device that an attach request describes: record at 0, descriptor length at 208, descriptors from 212 on. */
  function Described(id: nat, h: Handle, payload: seq<byte>, beyond: seq<byte>): (d: Device)
    requires |payload| >= 212 && 212 + Get32(payload, 208) <= |payload + beyond|
    ensures d.active && d.id == id && d.remoteId == Get32(payload, 0)
  {
    NewDevice(id, h, Get32(payload, 0), DecodeInfo(payload), (payload + beyond)[212..212 + Get32(payload, 208)])
  }

  lemma AttachFills(s: Server, h: Handle, payload: seq<byte>, beyond: seq<byte>)
    requires Table(s) && s.nextDeviceId + 1 < WORD && Live(s, h) && PayloadReadable(payload, beyond)
    requires |payload| >= 212 && FreeSlot(s.devices) < |s.devices|
    ensures var i, id, r := FreeSlot(s.devices), s.nextDeviceId + 1, Attach(s, h, payload, beyond);
            && r.reply == Created(id) && r.s.devices == s.devices[i := Described(id, h, payload, beyond)]
  {
    hide DecodeInfo, Get32, Table, FreeSlot, AttachDevice, NewDevice, Fresh, Owned;
    var info, end := DecodeInfo(payload), 212 + Get32(payload, 208);
    var descriptors := (payload + beyond)[212..end];
    AttachShape(s, h, info, descriptors);
    OwnedIsNew(s.nextDeviceId + 1, h, info, descriptors);
    SentId(payload);
  }

  lemma OwnedIsNew(id: nat, h: Handle, info: DeviceInfo, descriptors: seq<byte>)
    ensures Owned(Fresh(id, info, descriptors), h, info.id) == NewDevice(id, h, info.id, info, descriptors)
  {
  }

  lemma SentId(payload: seq<byte>)
    requires |payload| >= 208
    ensures DecodeInfo(payload).id == Get32(payload, 0)
  {
    hide Get32;
  }

  lemma AttachFails(s: Server, h: Handle, payload: seq<byte>, beyond: seq<byte>)
    requires Live(s, h) && PayloadReadable(payload, beyond)
    ensures |payload| < 212 ==> Attach(s, h, payload, beyond) == Result(s, Failed(7))
    ensures |payload| >= 212 && FreeSlot(s.devices) == |s.devices| ==> Attach(s, h, payload, beyond) == Result(s, Failed(2))
  {
    hide DecodeInfo, Get32, FreeSlot;
  }

  /** Attach refuses a short payload, fails when sixteen devices are live, and otherwise adds the described device. */
  lemma AttachRefines(s: Server, h: Handle, payload: seq<byte>, beyond: seq<byte>)
    requires Table(s) && s.nextDeviceId + 1 < WORD && Enabled(s, OpAttach(h, payload, beyond))
    ensures var r, id := Step(s, OpAttach(h, payload, beyond)), s.nextDeviceId + 1;
            && (|payload| < 212 ==> r == Result(s, Failed(7)))
            && (|payload| >= 212 && |AsMap(s.devices)| >= 16 ==> r == Result(s, Failed(2)))
            && (|payload| >= 212 && |AsMap(s.devices)| < 16 ==>
                  && r.reply == Created(id) && id !in AsMap(s.devices) && DistinctActive(r.s.devices)
                  && AsMap(r.s.devices) == AsMap(s.devices)[id := Described(id, h, payload, beyond)])
  {
    hide Attach, Described;
    AttachFails(s, h, payload, beyond);
    RoomIffFree(s);
    if |payload| >= 212 && FreeSlot(s.devices) < |s.devices| {
      AttachFills(s, h, payload, beyond);
      MapKeys(s.devices, s.nextDeviceId + 1);
      AddedToMap(s, FreeSlot(s.devices), h, payload, beyond);
    }
  }

  lemma RoomIffFree(s: Server)
    requires Table(s)
    ensures |AsMap(s.devices)| < 16 <==> FreeSlot(s.devices) < |s.devices|
  {
    MapSize(s.devices);
    if FreeSlot(s.devices) == |s.devices| {
      FullTable(s.devices);
    } else {
      FreeMeansRoom(s.devices, FreeSlot(s.devices));
    }
  }

  lemma AddedToMap(s: Server, i: nat, h: Handle, payload: seq<byte>, beyond: seq<byte>)
    requires Table(s) && i < |s.devices| && !s.devices[i].active && |payload| >= 212 && PayloadReadable(payload, beyond)
    ensures var d := Described(s.nextDeviceId + 1, h, payload, beyond);
            && DistinctActive(s.devices[i := d]) && AsMap(s.devices[i := d]) == AsMap(s.devices)[d.id := d]
  {
    var d := Described(s.nextDeviceId + 1, h, payload, beyond);
    hide DecodeInfo, Get32, UrbsOk, AsMap;
    AsMapFill(s.devices, i, d);
  }

  /**
   * The device is filed under the DeviceId of the sent record, the payload's first word; messages with that
   * DeviceId reach it exactly when no active device in an earlier slot has the same one.
   */
  lemma AttachReachesIff(s: Server, h: Handle, payload: seq<byte>, beyond: seq<byte>)
    requires Table(s) && s.nextDeviceId + 1 < WORD && Enabled(s, OpAttach(h, payload, beyond))
    ensures var r := Step(s, OpAttach(h, payload, beyond));
            r.reply.Created? ==>
              && |payload| >= 212
              && var i, remoteId := Lookup(r.s.devices, r.reply.id), Get32(payload, 0);
                 && i < |r.s.devices| && r.s.devices[i].remoteId == remoteId
                 && (FirstRemote(r.s.devices, remoteId, i) <==>
                     forall j :: 0 <= j < i ==> !(s.devices[j].active && s.devices[j].remoteId == remoteId))
  {
    var r, i := Step(s, OpAttach(h, payload, beyond)), FreeSlot(s.devices);
    hide Attach, FreeSlot, Get32, DecodeInfo, UrbsOk;
    AttachFails(s, h, payload, beyond);
    if |payload| >= 212 && i < |s.devices| {
      AttachFills(s, h, payload, beyond);
      LookupIs(r.s.devices, s.nextDeviceId + 1, i);
      assert forall j :: 0 <= j < i ==> r.s.devices[j] == s.devices[j];
    }
  }

  // ---------- detach ----------

  /**
   * Detaching one's own device removes that entry from the map and that id from one's array; detaching any
   * other id changes nothing.
   */
  lemma DetachRefines(s: Server, h: Handle, id: nat)
    requires Table(s) && Sound(s) && Enabled(s, OpDetach(h, id))
    ensures var r, j := Step(s, OpDetach(h, id)), ClientSlot(s.clients, h);
            && r.reply == Done
            && (!Owns(s.devices, h, id) ==> r.s == s)
            && (Owns(s.devices, h, id) ==>
                  && AsMap(r.s.devices) == AsMap(s.devices) - {id} && DistinctActive(r.s.devices)
                  && |r.s.clients| == |s.clients| && r.s.clients[j].Some?
                  && (forall k :: 0 <= k < |s.clients| && k != j ==> r.s.clients[k] == s.clients[k])
                  && var c, c' := s.clients[j].value, r.s.clients[j].value;
                     && c'.handle == h && c'.session == c.session
                     && forall x :: x in c'.devices <==> x in c.devices && x != id)
  {
    hide Untrack, AsMap, UrbsOk, Sound;
    DetachSteps(s, h, id);
    if Owns(s.devices, h, id) {
      var m :| 0 <= m < |s.devices| && s.devices[m].active && s.devices[m].owner == h && s.devices[m].id == id;
      LookupFinds(s, id, m);
      hide Step, Detach, Table, Lookup;
      NoDupOf(s, ClientSlot(s.clients, h));
      DestroyRefines(s, id);
      UntrackRemoves(s.clients[ClientSlot(s.clients, h)].value, id);
    } else {
      var i := Lookup(s.devices, id);
      assert i < |s.devices| ==> s.devices[i].owner != h;
    }
  }

  lemma NoDupOf(s: Server, j: nat)
    requires Sound(s) && j < |s.clients| && s.clients[j].Some?
    ensures NoDup(s.clients[j].value.devices)
  {
  }

  lemma DetachSteps(s: Server, h: Handle, id: nat)
    requires Live(s, h)
    ensures Step(s, OpDetach(h, id)) == Detach(s, h, id)
    ensures var i, j := Lookup(s.devices, id), ClientSlot(s.clients, h);
            Detach(s, h, id) ==
            if i == |s.devices| || s.devices[i].owner != h then Result(s, Done)
            else Result(Step(s, OpDestroy(id)).s.(clients := s.clients[j := Some(Untrack(s.clients[j].value, id))]), Done)
  {
    hide Destroy, Untrack, Lookup;
  }

  lemma UntrackRemoves(c: Client, id: nat)
    requires NoDup(c.devices)
    ensures Untrack(c, id).handle == c.handle && Untrack(c, id).session == c.session
    ensures forall x :: x in Untrack(c, id).devices <==> x in c.devices && x != id
  {
    if id in c.devices {
      UntrackIs(c, id);
    }
  }

  // ---------- accept and exit ----------

  /**
   * A connection is accepted when one of the 32 places is free and its thread starts; it uses up a session id
   * in any case, and enters with that id and no devices.
   */
  lemma AcceptRefines(s: Server, h: Handle, started: bool)
    requires Handles(s) && Enabled(s, OpAccept(h, started))
    ensures var r, session := Step(s, OpAccept(h, started)), NextWord(s.nextSessionId);
            && (r.reply == Accepted <==> s.clientCount < 32 && started)
            && (r.reply != Accepted ==> r == Result(s.(nextSessionId := session), Failed(2)))
            && (r.reply == Accepted ==>
                  exists j :: 0 <= j < 32 && s.clients[j].None?
                    && r.s == s.(clients := s.clients[j := Some(Client(h, session, []))],
                                 clientCount := s.clientCount + 1, nextSessionId := session))
  {
    var j := FreeClientSlot(s.clients);
    PlacesLeft(s.clients);
    if j < |s.clients| && started {
      assert s.clients[j].None?;
    }
  }

  lemma {:induction false} PlacesLeft(clients: seq<Option<Client>>)
    ensures 0 <= Sum(clients, Present) <= |clients|
    ensures Sum(clients, Present) < |clients| <==> FreeClientSlot(clients) < |clients|
  {
    if clients != [] {
      PlacesLeft(clients[1..]);
      assert FreeClientSlot(clients) == if clients[0].None? then 0 else 1 + FreeClientSlot(clients[1..]);
    }
  }

  /** After an exit the client is gone, every other client's record is as it was, and the count is one less. */
  lemma ExitRemoves(s: Server, h: Handle)
    requires Handles(s) && Enabled(s, OpExit(h))
    ensures var s' := Step(s, OpExit(h)).s;
            && !Live(s', h) && s'.clientCount == s.clientCount - 1 && |s'.clients| == |s.clients|
            && (forall j :: 0 <= j < |s.clients| ==>
                  s'.clients[j] == if s.clients[j].Some? && s.clients[j].value.handle == h then None else s.clients[j])
            && s'.nextDeviceId == s.nextDeviceId && s'.nextSessionId == s.nextSessionId
            && s'.totalUrbs == s.totalUrbs && s'.totalBytes == s.totalBytes
  {
    hide CleanupTracked;
  }

  // ---------- session ids ----------

  /** Connected clients carry different session ids, all of them issued. */
  predicate Sessions(s: Server) {
    && (forall j :: 0 <= j < |s.clients| && s.clients[j].Some? ==> 1 <= s.clients[j].value.session <= s.nextSessionId)
    && (forall i, j :: 0 <= i < j < |s.clients| && s.clients[i].Some? && s.clients[j].Some? ==>
          s.clients[i].value.session != s.clients[j].value.session)
  }

  /** Clients at most leave or change their arrays. */
  predicate SameSessions(s: Server, s': Server) {
    && s'.nextSessionId == s.nextSessionId && |s'.clients| == |s.clients|
    && forall j :: 0 <= j < |s.clients| && s'.clients[j].Some? ==>
         s.clients[j].Some? && s'.clients[j].value.session == s.clients[j].value.session
  }

  lemma AttachSessions(s: Server, h: Handle, payload: seq<byte>, beyond: seq<byte>)
    requires Live(s, h) && PayloadReadable(payload, beyond)
    ensures SameSessions(s, Attach(s, h, payload, beyond).s)
  {
    hide DecodeInfo, Get32, FreeSlot, Lookup;
  }

  lemma UrbSessions(s: Server, op: Op)
    requires Enabled(s, op) && (op.OpSubmit? || op.OpComplete? || op.OpCompleteRemote?)
    ensures SameSessions(s, Step(s, op).s)
  {
    hide Get32, CompleteOn, SubmitTo, ActualLength, CompleteTransfer, Lookup, LookupRemote;
  }

  lemma QuietSessions(s: Server, op: Op)
    requires Enabled(s, op) && (op.OpCreate? || op.OpDestroy? || op.OpDetach? || op.OpExit?)
    ensures SameSessions(s, Step(s, op).s)
  {
    hide FreeSlot, Lookup, CleanupTracked, Cleanup, FirstIndex;
  }

  lemma AcceptSessions(s: Server, h: Handle, started: bool)
    requires Sessions(s) && s.nextSessionId + 1 < WORD
    ensures var s' := Accept(s, h, started).s; Sessions(s') && s'.nextSessionId == s.nextSessionId + 1
  {
  }

  lemma KeptSessions(s: Server, s': Server)
    requires Sessions(s) && SameSessions(s, s')
    ensures Sessions(s')
  {
  }

  lemma StepSessions(s: Server, op: Op)
    requires Sessions(s) && Enabled(s, op) && s.nextSessionId + 1 < WORD
    ensures Sessions(Step(s, op).s) && Step(s, op).s.nextSessionId <= s.nextSessionId + 1
  {
    hide Sessions, Accept, Attach, Create, Destroy, Submit, Complete, CompletePayload, Detach, Exit;
    match op {
      case OpAccept(h, started) => AcceptSessions(s, h, started);
      case OpAttach(h, payload, beyond) =>
        AttachSessions(s, h, payload, beyond);
        KeptSessions(s, Step(s, op).s);
      case OpSubmit(_, _) | OpComplete(_, _, _, _, _) | OpCompleteRemote(_, _) =>
        UrbSessions(s, op);
        KeptSessions(s, Step(s, op).s);
      case _ =>
        QuietSessions(s, op);
        KeptSessions(s, Step(s, op).s);
    }
  }

  lemma {:induction false} SessionsFrom(w: World, ops: seq<Op>)
    requires Sessions(w.s) && IsRun(w, ops) && w.s.nextSessionId + |ops| < WORD
    ensures Sessions(Run(w, ops).s)
    decreases |ops|
  {
    hide Sessions, Enabled, Step, Observe;
    if ops != [] {
      StepSessions(w.s, ops[0]);
      SessionsFrom(Next(w, ops[0]), ops[1..]);
    }
  }

  /** Over every run of fewer than 2^32 steps, no two connected clients share a session id. */
  lemma SessionsAreDistinct(ops: seq<Op>)
    requires IsRun(Start(), ops) && |ops| < WORD
    ensures Sessions(Run(Start(), ops).s)
  {
    hide Sessions, Run, IsRun, Start;
    AtStart();
    SessionsFrom(Start(), ops);
  }

  lemma AtStart()
    ensures Sessions(Start().s) && Start().s.nextSessionId == 0 && Vacant(Start().s.devices)
  {
  }

  // ---------- nothing is left behind ----------

  /** A slot that is not active holds no URB and no descriptors. */
  predicate Vacant(devs: seq<Device>) {
    forall i :: 0 <= i < |devs| && !devs[i].active ==>
      devs[i].pending == [] && devs[i].pendingCount == 0 && devs[i].descriptors == []
  }

  lemma ExitVacant(s: Server, h: Handle)
    requires Vacant(s.devices) && Live(s, h)
    ensures Vacant(Exit(s, h).s.devices)
  {
    forall i | 0 <= i < |s.devices|
      ensures Exit(s, h).s.devices[i] == s.devices[i] || Exit(s, h).s.devices[i] == Cleanup(s.devices[i])
    {
      CleanupTrackedSlots(s.devices, s.clients[ClientSlot(s.clients, h)].value.devices, i);
    }
  }

  lemma AttachVacant(s: Server, h: Handle, payload: seq<byte>, beyond: seq<byte>)
    requires Vacant(s.devices) && Live(s, h) && PayloadReadable(payload, beyond)
    ensures Vacant(Attach(s, h, payload, beyond).s.devices)
  {
    if |payload| >= INFO_SIZE + 4 {
      var info, end := DecodeInfo(payload), INFO_SIZE + 4 + Get32(payload, INFO_SIZE);
      hide DecodeInfo, Get32;
      AttachDeviceVacant(s, h, info, (payload + beyond)[INFO_SIZE + 4..end]);
    }
  }

  lemma AttachDeviceVacant(s: Server, h: Handle, info: DeviceInfo, descriptors: seq<byte>)
    requires Vacant(s.devices) && Live(s, h)
    ensures Vacant(AttachDevice(s, h, info, descriptors).s.devices)
  {
    var c := Create(s, info, descriptors).s.devices;
    assert Vacant(c);
    hide Create, Vacant, ClientSlot;
    var id := Create(s, info, descriptors).reply;
    if id.Created? && Lookup(c, id.id) < |c| {
      UpdateVacant(c, Lookup(c, id.id), Owned(c[Lookup(c, id.id)], h, info.id));
    }
  }

  lemma UpdateVacant(devs: seq<Device>, i: nat, d: Device)
    requires Vacant(devs) && i < |devs| && d.active
    ensures Vacant(devs[i := d])
  {
  }

  lemma SubmitVacant(s: Server, id: nat, t: Transfer)
    requires Vacant(s.devices)
    ensures Vacant(Submit(s, id, t).s.devices)
  {
    var i := Lookup(s.devices, id);
    if i < |s.devices| {
      UpdateVacant(s.devices, i, SubmitTo(s.devices[i], t));
    }
  }

  lemma CompleteVacant(s: Server, id: nat, urbId: nat, status: nat, data: Option<seq<byte>>, length: nat)
    requires Vacant(s.devices) && (data.Some? ==> |data.value| >= length)
    ensures Vacant(Complete(s, id, urbId, status, data, length).s.devices)
  {
    var i := Lookup(s.devices, id);
    if i < |s.devices| {
      UpdateVacant(s.devices, i, CompleteOn(s.devices[i], urbId, length));
    }
  }

  lemma RemoteVacant(s: Server, payload: seq<byte>, beyond: seq<byte>)
    requires Vacant(s.devices) && CompletionReadable(payload, beyond)
    ensures Vacant(CompletePayload(s, payload, beyond).s.devices)
  {
    hide Vacant, Complete, Get32, ActualLength;
    if |payload| >= COMPLETE_SIZE && LookupRemote(s.devices, Get32(payload, 0)) < |s.devices| {
      var data := (payload + beyond)[COMPLETE_SIZE..COMPLETE_SIZE + ActualLength(payload)];
      CompleteVacant(s, s.devices[LookupRemote(s.devices, Get32(payload, 0))].id, Get32(payload, 4), Get32(payload, 8),
                     if data == [] then None else Some(data), |data|);
    }
  }

  lemma CleanVacant(s: Server, op: Op)
    requires Vacant(s.devices) && Enabled(s, op) && (op.OpAccept? || op.OpCreate? || op.OpDestroy? || op.OpDetach?)
    ensures Vacant(Step(s, op).s.devices)
  {
  }

  lemma StepVacant(s: Server, op: Op)
    requires Vacant(s.devices) && Enabled(s, op)
    ensures Vacant(Step(s, op).s.devices)
  {
    hide Vacant, Accept, Attach, Create, Destroy, Submit, Complete, CompletePayload, Detach, Exit;
    match op {
      case OpAttach(h, payload, beyond) => AttachVacant(s, h, payload, beyond);
      case OpExit(h) => ExitVacant(s, h);
      case OpSubmit(id, t) => SubmitVacant(s, id, t);
      case OpComplete(id, urbId, status, data, length) => CompleteVacant(s, id, urbId, status, data, length);
      case OpCompleteRemote(payload, beyond) => RemoteVacant(s, payload, beyond);
      case _ => CleanVacant(s, op);
    }
  }

  lemma {:induction false} VacantFrom(w: World, ops: seq<Op>)
    requires Vacant(w.s.devices) && IsRun(w, ops)
    ensures Vacant(Run(w, ops).s.devices)
    decreases |ops|
  {
    hide Vacant, Enabled, Step, Observe;
    if ops != [] {
      StepVacant(w.s, ops[0]);
      VacantFrom(Next(w, ops[0]), ops[1..]);
    }
  }

  /** Over every run, a device that goes away, however it does, leaves no URB and no descriptors in its slot. */
  lemma NothingIsLeft(ops: seq<Op>)
    requires IsRun(Start(), ops)
    ensures Vacant(Run(Start(), ops).s.devices)
  {
    hide Vacant, Run, IsRun, Start;
    AtStart();
    VacantFrom(Start(), ops);
  }
}
