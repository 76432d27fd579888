/**
 * What happens to a transfer's contents in the userspace server: what a submission puts on the list, what
 * a completion makes of it, which device a remote completion reaches, and that over whole runs every
 * record delivered is the transfer that was submitted, filled in by the call that completed it.
 */
module UserspaceTransfers {
  import opened Collections
  import opened Wire
  import opened Pending
  import opened Userspace
  import opened UserspaceCore
  import opened UserspaceRuns

  // ---------- one submission ----------

  /** The caller's record, waiting: nothing but the completion flag differs. */
  predicate Waiting(t: Transfer, e: Transfer) {
    && e.direction == t.direction && e.buffer == t.buffer && e.status == t.status
    && e.actualLength == t.actualLength && !e.completed
  }

  /** A submission heads the list of the one device with the id; without such a device it fails and changes nothing. */
  lemma SubmitQueues(s: Server, id: nat, t: Transfer)
    requires Table(s) && forall i :: 0 <= i < |s.devices| && s.devices[i].active ==> s.devices[i].nextUrbId + 1 < WORD
    ensures var r := Step(s, OpSubmit(id, t));
            && (!HasActive(s.devices, id) ==> r == Result(s, Failed(STATUS_ERROR)))
            && (HasActive(s.devices, id) ==> r.reply.Queued? && r.reply.device == id && |r.s.devices| == |s.devices|)
            && forall i :: 0 <= i < |s.devices| && r.reply.Queued? ==>
                 var d, d' := s.devices[i], r.s.devices[i];
                 if d.active && d.id == id then
                   && |d'.pending| == |d.pending| + 1 && d'.pending[1..] == d.pending
                   && d'.pending[0].id == r.reply.urbId == d.nextUrbId + 1 && Waiting(t, d'.pending[0].data)
                   && d' == d.(nextUrbId := r.reply.urbId, pending := d'.pending,
                               pendingCount := d.pendingCount + 1, submitted := d.submitted + 1)
                 else d' == d
  {
    hide UrbsOk;
    var i := Lookup(s.devices, id);
    if i < |s.devices| {
      assert HasActive(s.devices, id);
      var d' := SubmitTo(s.devices[i], t);
      assert d'.pending[1..] == s.devices[i].pending;
    }
  }

  // ---------- one completion ----------

  /**
   * The record delivered for a transfer: its direction, the given status and length, and in the buffer of an
   * IN transfer the given bytes, when they fit.
   */
  predicate Filled(t: Transfer, r: Transfer, status: nat, data: Option<seq<byte>>, length: nat) {
    && (data.Some? ==> |data.value| >= length)
    && r.completed && r.status == status && r.actualLength == length && r.direction == t.direction
    && r.buffer.Some? == t.buffer.Some?
    && (t.buffer.Some? ==>
          if t.direction == In && data.Some? && length <= |t.buffer.value|
          then r.buffer.value == data.value[..length] + t.buffer.value[length..]
          else r.buffer == t.buffer)
  }

  lemma CompleteFills(t: Transfer, status: nat, data: Option<seq<byte>>, length: nat)
    requires data.Some? ==> |data.value| >= length
    ensures Filled(t, CompleteTransfer(t, status, data, length), status, data, length)
  {
    var r := CompleteTransfer(t, status, data, length);
    if t.buffer.Some? {
      var bytes := r.buffer.value;
      if t.direction == In && data.Some? && length <= |t.buffer.value| {
        assert bytes == data.value[..length] + t.buffer.value[length..];
      } else {
        assert bytes == t.buffer.value;
      }
    }
  }

  /** Completing what waits under a key delivers that entry's transfer, and moves that key only. */
  lemma CompletionFills(w: World, i: nat, j: nat, status: nat, data: Option<seq<byte>>, length: nat)
    requires Core(w) && i < |w.s.devices| && w.s.devices[i].active && j < |w.s.devices[i].pending|
    requires length < WORD && (data.Some? ==> |data.value| >= length)
    ensures var k, t := (w.s.devices[i].id, w.s.devices[i].pending[j].id), w.s.devices[i].pending[j].data;
            var w' := Next(w, OpComplete(k.0, k.1, status, data, length));
            && k in w'.h.outcome && Filled(t, w'.h.outcome[k], status, data, length)
            && w'.h.finished == w.h.finished + multiset{k} && !IsPending(w'.s.devices, k)
            && forall other: Key :: other != k ==> (IsPending(w'.s.devices, other) <==> IsPending(w.s.devices, other))
  {
    var d, e := w.s.devices[i], w.s.devices[i].pending[j];
    var op := OpComplete(d.id, e.id, status, data, length);
    CallCompletes(w.s, i, j, status, data, length);
    hide Next, Core, Step, Enabled, Completes;
    assert HasId(d.pending, e.id) && IsPending(w.s.devices, (d.id, e.id));
    hide *;
    CompletionDelivers(w, (d.id, e.id), status, data, length);
    CompletedWorld(w, op, i, j, Answer(status, data, length));
    CompleteFills(e.data, status, data, length);
  }

  lemma CallCompletes(s: Server, i: nat, j: nat, status: nat, data: Option<seq<byte>>, length: nat)
    requires i < |s.devices| && s.devices[i].active && j < |s.devices[i].pending|
    requires length < WORD && (data.Some? ==> |data.value| >= length)
    ensures var op := OpComplete(s.devices[i].id, s.devices[i].pending[j].id, status, data, length);
            Enabled(s, op) && Completes(s, op, i, j, Answer(status, data, length))
  {
    hide Complete;
  }

  /** The file takes a reported record, and changes at nothing else. */
  lemma NextRecord(w: World, op: Op)
    requires Enabled(w.s, op)
    ensures Next(w, op).s == Step(w.s, op).s
    ensures var reply := Step(w.s, op).reply;
            Next(w, op).h.outcome ==
            if reply.Finished? then w.h.outcome[(reply.device, reply.urb.id) := reply.urb.data] else w.h.outcome
    ensures var reply := Step(w.s, op).reply;
            Next(w, op).h.submitted ==
            if reply.Queued? then w.h.submitted + multiset{(reply.device, reply.urbId)} else w.h.submitted
  {
    hide Step, Enabled, RetiredSum, Retired;
  }

  lemma CompletionRecord(w: World, i: nat, j: nat, status: nat, data: Option<seq<byte>>, length: nat)
    requires Core(w) && i < |w.s.devices| && w.s.devices[i].active && j < |w.s.devices[i].pending|
    requires length < WORD && (data.Some? ==> |data.value| >= length)
    ensures var d, e := w.s.devices[i], w.s.devices[i].pending[j];
            var r := Complete(w.s, d.id, e.id, status, data, length);
            r.reply == Finished(d.id, Entry(e.id, CompleteTransfer(e.data, status, data, length)))
  {
    var d := w.s.devices[i];
    LookupFinds(w.s, d.id, i);
    PositionIs(d.pending, d.pending[j].id, j);
    hide CompleteTransfer, CompleteOn;
  }

  // ---------- the ledger of a run ----------

  /** What a completing call was given. */
  datatype Answer = Answer(status: nat, data: Option<seq<byte>>, length: nat)

  /** Every accepted submission with its transfer, and every reported completion with what it was given. */
  datatype Ledger = Ledger(asked: map<Key, Transfer>, answered: map<Key, Answer>)

  /** VUSB_URB_COMPLETE: the status at 8, the length at 12, and from 20 on as many bytes as the length says. */
  function AnswerOf(op: Op): Answer {
    match op
    case OpComplete(_, _, status, data, length) => Answer(status, data, length)
    case OpCompleteRemote(payload, beyond) =>
      var all := payload + beyond;
      if |payload| < 20 || |all| < 20 + Get32(payload, 12) then Answer(0, None, 0)
      else
        var n := Get32(payload, 12);
        Answer(Get32(payload, 8), if n == 0 then None else Some(all[20..20 + n]), n)
    case _ => Answer(0, None, 0)
  }

  function Book(l: Ledger, s: Server, op: Op): Ledger
    requires Enabled(s, op)
  {
    match Step(s, op).reply
    case Queued(device, urbId) =>
      if op.OpSubmit? then l.(asked := l.asked[(device, urbId) := op.t]) else l
    case Finished(device, urb) => l.(answered := l.answered[(device, urb.id) := AnswerOf(op)])
    case _ => l
  }

  function LedgerOf(w: World, ops: seq<Op>, l: Ledger): Ledger
    requires IsRun(w, ops)
    decreases |ops|
  {
    if ops == [] then l else LedgerOf(Next(w, ops[0]), ops[1..], Book(l, w.s, ops[0]))
  }

  const NO_LEDGER := Ledger(map[], map[])

  /** Whatever waits on a list is the transfer submitted under its key. */
  ghost predicate Listed(devs: seq<Device>, asked: map<Key, Transfer>) {
    forall i, j :: 0 <= i < |devs| && devs[i].active && 0 <= j < |devs[i].pending| ==>
      EntryListed(devs[i].id, devs[i].pending[j], asked)
  }

  predicate EntryListed(device: nat, e: Urb, asked: map<Key, Transfer>) {
    (device, e.id) in asked && Waiting(asked[(device, e.id)], e.data)
  }

  /** A delivered record is the submitted transfer, filled in as its completion said. */
  predicate Delivered(l: Ledger, k: Key, r: Transfer) {
    && k in l.asked && k in l.answered
    && Filled(l.asked[k], r, l.answered[k].status, l.answered[k].data, l.answered[k].length)
  }

  ghost predicate Booked(w: World, l: Ledger) {
    && Listed(w.s.devices, l.asked)
    && (forall k: Key :: k in l.asked <==> k in w.h.submitted)
    && (forall k: Key :: k in l.answered <==> k in w.h.outcome)
    && forall k: Key :: k in w.h.outcome ==> Delivered(l, k, w.h.outcome[k])
  }

  // ---------- steps that leave the lists alone ----------

  /** Every list that is not empty was there before, on the same device. */
  predicate OldLists(a: seq<Device>, b: seq<Device>) {
    forall i :: 0 <= i < |b| && b[i].active && b[i].pending != [] ==>
      i < |a| && a[i].active && a[i].id == b[i].id && a[i].pending == b[i].pending
  }

  predicate Quiet(reply: Reply) { !reply.Queued? && !reply.Finished? }

  lemma CreateIsQuiet(s: Server, info: DeviceInfo, descriptors: seq<byte>)
    ensures var r := Create(s, info, descriptors); OldLists(s.devices, r.s.devices) && Quiet(r.reply)
  {
  }

  lemma AttachIsQuiet(s: Server, h: Handle, payload: seq<byte>, beyond: seq<byte>)
    requires Live(s, h) && PayloadReadable(payload, beyond)
    ensures var r := Attach(s, h, payload, beyond); OldLists(s.devices, r.s.devices) && Quiet(r.reply)
  {
    if |payload| >= INFO_SIZE + 4 {
      var info, end := DecodeInfo(payload), INFO_SIZE + 4 + Get32(payload, INFO_SIZE);
      hide DecodeInfo, Get32;
      AttachDeviceIsQuiet(s, h, info, (payload + beyond)[INFO_SIZE + 4..end]);
    }
  }

  lemma AttachDeviceIsQuiet(s: Server, h: Handle, info: DeviceInfo, descriptors: seq<byte>)
    requires Live(s, h)
    ensures var r := AttachDevice(s, h, info, descriptors); OldLists(s.devices, r.s.devices) && Quiet(r.reply)
  {
    CreateIsQuiet(s, info, descriptors);
    hide Create, OldLists, ClientSlot;
    var c := Create(s, info, descriptors);
    if c.reply.Created? {
      var i := Lookup(c.s.devices, c.reply.id);
      if i < |c.s.devices| {
        OwnedIsQuiet(s.devices, c.s.devices, i, h, info.id);
      }
    }
  }

  lemma OwnedIsQuiet(a: seq<Device>, b: seq<Device>, i: nat, h: Handle, remoteId: nat)
    requires OldLists(a, b) && i < |b|
    ensures OldLists(a, b[i := Owned(b[i], h, remoteId)])
  {
  }

  lemma ExitIsQuiet(s: Server, h: Handle)
    requires Live(s, h)
    ensures var r := Exit(s, h); OldLists(s.devices, r.s.devices) && Quiet(r.reply)
  {
    forall i | 0 <= i < |s.devices|
      ensures var d, d' := s.devices[i], Exit(s, h).s.devices[i]; d' == d || d' == Cleanup(d)
    {
      CleanupTrackedSlots(s.devices, s.clients[ClientSlot(s.clients, h)].value.devices, i);
    }
  }

  lemma QuietStep(s: Server, op: Op)
    requires Enabled(s, op) && !op.OpSubmit? && !op.OpComplete? && !op.OpCompleteRemote?
    ensures OldLists(s.devices, Step(s, op).s.devices) && Quiet(Step(s, op).reply)
  {
    match op {
      case OpCreate(info, descriptors) => CreateIsQuiet(s, info, descriptors);
      case OpAttach(h, payload, beyond) => hide Attach; AttachIsQuiet(s, h, payload, beyond);
      case OpExit(h) => hide Exit; ExitIsQuiet(s, h);
      case _ =>
    }
  }

  lemma QuietBooks(w: World, op: Op, l: Ledger)
    requires Booked(w, l) && Enabled(w.s, op)
    requires OldLists(w.s.devices, Step(w.s, op).s.devices) && Quiet(Step(w.s, op).reply)
    ensures Booked(Next(w, op), Book(l, w.s, op))
  {
    NextRecord(w, op);
    hide Step, Observe, EntryListed, Delivered, Enabled;
    var b := Next(w, op).s.devices;
    forall i, j | 0 <= i < |b| && b[i].active && 0 <= j < |b[i].pending|
      ensures EntryListed(b[i].id, b[i].pending[j], l.asked)
    {
      assert b[i].pending != [];
    }
  }

  // ---------- submissions ----------

  lemma SubmitShape(w: World, id: nat, t: Transfer, i: nat)
    requires Core(w) && i < |w.s.devices| && w.s.devices[i].active && w.s.devices[i].id == id
    requires w.s.devices[i].nextUrbId + 1 < WORD
    ensures var d := w.s.devices[i];
            var r := Submit(w.s, id, t);
            && r.reply == Queued(id, d.nextUrbId + 1) && r.s.devices == w.s.devices[i := SubmitTo(d, t)]
            && (id, d.nextUrbId + 1) !in w.h.submitted && (id, d.nextUrbId + 1) !in w.h.outcome
  {
    LookupFinds(w.s, id, i);
    SlotFacts(w, i);
    SubmitDevice(w.s.devices[i], t, w.h.submitted, w.h.finished);
  }

  /** A new key under an entry's device cannot be the entry's own. */
  lemma ListedAfterSubmit(s: Server, i: nat, t: Transfer, asked: map<Key, Transfer>)
    requires Table(s) && Listed(s.devices, asked) && i < |s.devices| && s.devices[i].active
    requires s.devices[i].nextUrbId + 1 < WORD
    ensures var d := s.devices[i];
            Listed(s.devices[i := SubmitTo(d, t)], asked[(d.id, d.nextUrbId + 1) := t])
  {
    var d := s.devices[i];
    var a, b, k := s.devices, s.devices[i := SubmitTo(d, t)], (d.id, d.nextUrbId + 1);
    forall m, j | 0 <= m < |b| && b[m].active && 0 <= j < |b[m].pending|
      ensures EntryListed(b[m].id, b[m].pending[j], asked[k := t])
    {
      if m != i {
        assert EntryListed(a[m].id, a[m].pending[j], asked);
        assert a[m].id != d.id;
      } else if j > 0 {
        assert b[i].pending[j] == d.pending[j - 1];
        assert EntryListed(d.id, d.pending[j - 1], asked);
      }
    }
  }

  lemma SubmitMisses(s: Server, id: nat, t: Transfer)
    requires Lookup(s.devices, id) == |s.devices|
    ensures OldLists(s.devices, Step(s, OpSubmit(id, t)).s.devices) && Quiet(Step(s, OpSubmit(id, t)).reply)
  {
    hide Lookup;
  }

  lemma SubmittedWorld(w: World, id: nat, t: Transfer, l: Ledger, i: nat)
    requires Core(w) && i < |w.s.devices| && w.s.devices[i].active && w.s.devices[i].id == id
    requires w.s.devices[i].nextUrbId + 1 < WORD
    ensures var d, op := w.s.devices[i], OpSubmit(id, t);
            var k, w' := (id, d.nextUrbId + 1), Next(w, op);
            && k !in w.h.outcome && w'.h.outcome == w.h.outcome && w'.h.submitted == w.h.submitted + multiset{k}
            && w'.s.devices == w.s.devices[i := SubmitTo(d, t)] && Book(l, w.s, op) == l.(asked := l.asked[k := t])
  {
    hide Core, Observe, Submit, SubmitTo, Next, NextWord;
    SubmitShape(w, id, t, i);
    NextRecord(w, OpSubmit(id, t));
  }

  lemma SubmitBooks(w: World, id: nat, t: Transfer, l: Ledger, n: nat)
    requires Core(w) && Within(w.s, n) && n + 1 < WORD && Booked(w, l)
    ensures Booked(Next(w, OpSubmit(id, t)), Book(l, w.s, OpSubmit(id, t)))
  {
    hide Core, Booked, Next, Book, Step, SubmitTo;
    var op, i := OpSubmit(id, t), Lookup(w.s.devices, id);
    if i == |w.s.devices| {
      SubmitMisses(w.s, id, t);
      QuietBooks(w, op, l);
    } else {
      assert w.s.devices[i].nextUrbId <= n;
      hide *;
      CoreHasTable(w);
      BookedLists(w, l);
      SubmittedWorld(w, id, t, l, i);
      ListedAfterSubmit(w.s, i, t, l.asked);
      AskedOne(w, Next(w, op), l, (id, w.s.devices[i].nextUrbId + 1), t);
    }
  }

  lemma BookedLists(w: World, l: Ledger)
    requires Booked(w, l)
    ensures Listed(w.s.devices, l.asked)
  {
  }

  lemma AskedOne(w: World, w': World, l: Ledger, k: Key, t: Transfer)
    requires Booked(w, l) && k !in w.h.outcome && w'.h.outcome == w.h.outcome
    requires w'.h.submitted == w.h.submitted + multiset{k} && Listed(w'.s.devices, l.asked[k := t])
    ensures Booked(w', l.(asked := l.asked[k := t]))
  {
    hide Listed, Filled;
  }

  lemma AnsweredOne(w: World, w': World, l: Ledger, k: Key, r: Transfer, a: Answer)
    requires Booked(w, l) && w'.h.outcome == w.h.outcome[k := r] && w'.h.submitted == w.h.submitted
    requires Listed(w'.s.devices, l.asked) && k in l.asked && Filled(l.asked[k], r, a.status, a.data, a.length)
    ensures Booked(w', l.(answered := l.answered[k := a]))
  {
    hide Listed, Filled;
  }

  // ---------- completions ----------

  lemma FillsTransfer(t: Transfer, e: Transfer, r: Transfer, a: Answer)
    requires Waiting(t, e) && Filled(e, r, a.status, a.data, a.length)
    ensures Filled(t, r, a.status, a.data, a.length)
  {
  }

  lemma ListedAfterComplete(devs: seq<Device>, i: nat, urbId: nat, length: nat, asked: map<Key, Transfer>)
    requires Listed(devs, asked) && i < |devs| && devs[i].active && UrbsOk(devs[i]) && HasId(devs[i].pending, urbId)
    ensures Listed(devs[i := CompleteOn(devs[i], urbId, length)], asked)
  {
    var d := devs[i];
    var b := devs[i := CompleteOn(d, urbId, length)];
    WithoutDecreasing(d.pending, urbId);
    forall m, j | 0 <= m < |b| && b[m].active && 0 <= j < |b[m].pending|
      ensures EntryListed(b[m].id, b[m].pending[j], asked)
    {
      if m == i {
        assert b[i].pending[j] in d.pending;
        var p :| 0 <= p < |d.pending| && d.pending[p] == b[i].pending[j];
        assert EntryListed(d.id, d.pending[p], asked);
      } else {
        assert EntryListed(devs[m].id, devs[m].pending[j], asked);
      }
    }
  }

  lemma BookAnswer(l: Ledger, s: Server, op: Op)
    requires Enabled(s, op) && Step(s, op).reply.Finished?
    ensures var reply := Step(s, op).reply;
            Book(l, s, op) == l.(answered := l.answered[(reply.device, reply.urb.id) := AnswerOf(op)])
  {
    hide Step, Enabled, AnswerOf;
  }

  /** The call completes entry j of slot i with this answer. */
  predicate Completes(s: Server, op: Op, i: nat, j: nat, a: Answer)
    requires Enabled(s, op)
  {
    && i < |s.devices| && s.devices[i].active && j < |s.devices[i].pending|
    && a.length < WORD && (a.data.Some? ==> |a.data.value| >= a.length)
    && Step(s, op) == Complete(s, s.devices[i].id, s.devices[i].pending[j].id, a.status, a.data, a.length)
  }

  lemma CompletedWorld(w: World, op: Op, i: nat, j: nat, a: Answer)
    requires Core(w) && Enabled(w.s, op) && Completes(w.s, op, i, j, a)
    ensures var d, e := w.s.devices[i], w.s.devices[i].pending[j];
            var k, r := (d.id, e.id), CompleteTransfer(e.data, a.status, a.data, a.length);
            var w' := Next(w, op);
            && Step(w.s, op).reply == Finished(d.id, Entry(e.id, r))
            && w'.h.outcome == w.h.outcome[k := r] && w'.h.submitted == w.h.submitted
            && w'.s.devices == w.s.devices[i := CompleteOn(d, e.id, a.length)]
  {
    hide Core, Table, Complete, CompleteTransfer, CompleteOn, Step, Enabled, Next;
    var d, e := w.s.devices[i], w.s.devices[i].pending[j];
    assert HasId(d.pending, e.id);
    CoreHasTable(w);
    hide *;
    NextRecord(w, op);
    CompletionRecord(w, i, j, a.status, a.data, a.length);
    CompleteShape(w.s, i, (d.id, e.id), a.status, a.data, a.length);
  }

  lemma CompleteBooks(w: World, op: Op, l: Ledger, i: nat, j: nat)
    requires Core(w) && Booked(w, l) && Enabled(w.s, op) && Completes(w.s, op, i, j, AnswerOf(op))
    ensures Booked(Next(w, op), Book(l, w.s, op))
  {
    var a, d := AnswerOf(op), w.s.devices[i];
    var e := d.pending[j];
    var k := (d.id, e.id);
    assert HasId(d.pending, e.id);
    assert Listed(w.s.devices, l.asked) && EntryListed(d.id, e, l.asked);
    CompletedWorld(w, op, i, j, a);
    SlotFacts(w, i);
    BookAnswer(l, w.s, op);
    hide *;
    CompleteFills(e.data, a.status, a.data, a.length);
    FillsTransfer(l.asked[k], e.data, CompleteTransfer(e.data, a.status, a.data, a.length), a);
    ListedAfterComplete(w.s.devices, i, e.id, a.length, l.asked);
    AnsweredOne(w, Next(w, op), l, k, CompleteTransfer(e.data, a.status, a.data, a.length), a);
  }

  lemma CompleteCallBooks(w: World, id: nat, urbId: nat, status: nat, data: Option<seq<byte>>, length: nat, l: Ledger)
    requires Core(w) && Booked(w, l) && length < WORD && (data.Some? ==> |data.value| >= length)
    ensures var op := OpComplete(id, urbId, status, data, length); Booked(Next(w, op), Book(l, w.s, op))
  {
    var op, i := OpComplete(id, urbId, status, data, length), Lookup(w.s.devices, id);
    hide Core, Booked, Next, Book;
    if i < |w.s.devices| && Position(w.s.devices[i].pending, urbId) < |w.s.devices[i].pending| {
      CompleteBooks(w, op, l, i, Position(w.s.devices[i].pending, urbId));
    } else {
      QuietBooks(w, op, l);
    }
  }

  lemma RemoteCall(s: Server, payload: seq<byte>, beyond: seq<byte>)
    requires CompletionReadable(payload, beyond) && |payload| >= 20
    ensures var op, i := OpCompleteRemote(payload, beyond), LookupRemote(s.devices, Get32(payload, 0));
            var a := AnswerOf(op);
            && a.length < WORD && (a.data.Some? ==> |a.data.value| == a.length)
            && Step(s, op) == if i == |s.devices| then Result(s, Done)
                              else Complete(s, s.devices[i].id, Get32(payload, 4), a.status, a.data, a.length)
  {
    hide Get32, LookupRemote, Complete;
  }

  lemma RemoteBooks(w: World, payload: seq<byte>, beyond: seq<byte>, l: Ledger)
    requires Core(w) && Booked(w, l) && CompletionReadable(payload, beyond)
    ensures var op := OpCompleteRemote(payload, beyond); Booked(Next(w, op), Book(l, w.s, op))
  {
    var op := OpCompleteRemote(payload, beyond);
    hide Core, Booked, Next, Book, Get32, AnswerOf;
    if |payload| < 20 {
      QuietBooks(w, op, l);
    } else {
      hide Step, Table;
      CoreHasTable(w);
      RemoteCall(w.s, payload, beyond);
      var i, urbId := LookupRemote(w.s.devices, Get32(payload, 0)), Get32(payload, 4);
      if i < |w.s.devices| {
        LookupFinds(w.s, w.s.devices[i].id, i);
        if Position(w.s.devices[i].pending, urbId) < |w.s.devices[i].pending| {
          CompleteBooks(w, op, l, i, Position(w.s.devices[i].pending, urbId));
          return;
        }
      }
      QuietBooks(w, op, l);
    }
  }

  // ---------- whole runs ----------

  lemma StepBooks(w: World, op: Op, l: Ledger, n: nat)
    requires Core(w) && Within(w.s, n) && n + 1 < WORD && Enabled(w.s, op) && Booked(w, l)
    ensures Booked(Next(w, op), Book(l, w.s, op))
  {
    hide Core, Booked, Next, Book, Within, Step;
    match op {
      case OpSubmit(id, t) => SubmitBooks(w, id, t, l, n);
      case OpComplete(id, urbId, status, data, length) => CompleteCallBooks(w, id, urbId, status, data, length, l);
      case OpCompleteRemote(payload, beyond) => RemoteBooks(w, payload, beyond, l);
      case _ =>
        QuietStep(w.s, op);
        QuietBooks(w, op, l);
    }
  }

  lemma {:induction false} BooksFrom(w: World, ops: seq<Op>, l: Ledger, n: nat)
    requires Core(w) && Within(w.s, n) && IsRun(w, ops) && n + |ops| < WORD && Booked(w, l)
    ensures Booked(Run(w, ops), LedgerOf(w, ops, l))
    decreases |ops|
  {
    hide Core, Booked, Next, Book, Within;
    if ops != [] {
      StepKeepsCore(w, ops[0], n);
      StepBooks(w, ops[0], l, n);
      BooksFrom(Next(w, ops[0]), ops[1..], Book(l, w.s, ops[0]), n + 1);
    }
  }

  lemma NothingBooked(s: Server)
    requires forall i :: 0 <= i < |s.devices| ==> !s.devices[i].active
    ensures Booked(World(s, NO_HISTORY), NO_LEDGER)
  {
  }

  /**
   * Over every run of fewer than 2^32 steps: whatever waits on a device's list is the transfer that was
   * submitted under its key, and every delivered record is that transfer with the status, the length and,
   * for an IN transfer that they fit, the bytes of the call that completed it.
   */
  lemma {:induction false} TransfersAreKept(ops: seq<Op>)
    requires IsRun(Start(), ops) && |ops| < WORD
    ensures Booked(Run(Start(), ops), LedgerOf(Start(), ops, NO_LEDGER))
  {
    hide Core, Within, Booked, Run, IsRun, LedgerOf;
    StartIsCore();
    NothingBooked(Initial());
    hide Start;
    BooksFrom(Start(), ops, NO_LEDGER, 0);
  }

  // ---------- remote completions ----------

  /** VUSB_URB_COMPLETE behind its header, as the protocol lays it out, with its data. */
  function CompleteMessage(remoteId: nat, urbId: nat, status: nat, errors: nat, data: seq<byte>): (r: seq<byte>)
    ensures |r| == 20 + |data|
  {
    U32(remoteId) + U32(urbId) + U32(status) + U32(|data|) + U32(errors) + data
  }

  lemma MessageFields(remoteId: nat, urbId: nat, status: nat, errors: nat, data: seq<byte>, beyond: seq<byte>)
    requires remoteId < WORD && urbId < WORD && status < WORD && |data| < WORD
    ensures var p := CompleteMessage(remoteId, urbId, status, errors, data);
            && Get32(p, 0) == remoteId && Get32(p, 4) == urbId && Get32(p, 8) == status && Get32(p, 12) == |data|
            && (p + beyond)[20..20 + |data|] == data
  {
    hide U32, Get32;
    var p := CompleteMessage(remoteId, urbId, status, errors, data);
    assert p[0..4] == U32(remoteId) && p[4..8] == U32(urbId) && p[8..12] == U32(status) && p[12..16] == U32(|data|);
    Read32(p, 0, remoteId);
    Read32(p, 4, urbId);
    Read32(p, 8, status);
    Read32(p, 12, |data|);
  }

  /** i is the first active slot that was attached under the remote id. */
  predicate FirstRemote(devs: seq<Device>, remoteId: nat, i: nat) {
    && i < |devs| && devs[i].active && devs[i].remoteId == remoteId
    && forall j :: 0 <= j < i ==> !(devs[j].active && devs[j].remoteId == remoteId)
  }

  lemma FirstRemoteIs(devs: seq<Device>, remoteId: nat, i: nat)
    requires FirstRemote(devs, remoteId, i)
    ensures LookupRemote(devs, remoteId) == i
  {
  }

  lemma RemoteStep(s: Server, i: nat, remoteId: nat, urbId: nat, status: nat, errors: nat,
                   data: seq<byte>, beyond: seq<byte>)
    requires FirstRemote(s.devices, remoteId, i)
    requires remoteId < WORD && urbId < WORD && status < WORD && |data| < WORD
    ensures var p := CompleteMessage(remoteId, urbId, status, errors, data);
            var call := OpComplete(s.devices[i].id, urbId, status, if data == [] then None else Some(data), |data|);
            && Enabled(s, OpCompleteRemote(p, beyond)) && Enabled(s, call)
            && Step(s, OpCompleteRemote(p, beyond)) == Step(s, call)
  {
    FirstRemoteIs(s.devices, remoteId, i);
    MessageFields(remoteId, urbId, status, errors, data, beyond);
    hide Complete, Get32, CompleteMessage, LookupRemote;
  }

  lemma SameNext(w: World, a: Op, b: Op)
    requires Enabled(w.s, a) && Enabled(w.s, b) && Step(w.s, a) == Step(w.s, b)
    ensures Next(w, a) == Next(w, b)
  {
    hide Step, Enabled, Observe;
  }

  /**
   * A URB_COMPLETE message acts on the first active device attached under its DeviceId: if its UrbId waits
   * there, that key alone is finished, and the record is that transfer with the message's status, length and data.
   */
  lemma RemoteCompletionDelivers(w: World, i: nat, j: nat, remoteId: nat, urbId: nat, status: nat, errors: nat,
                                 data: seq<byte>, beyond: seq<byte>)
    requires Core(w) && FirstRemote(w.s.devices, remoteId, i)
    requires j < |w.s.devices[i].pending| && w.s.devices[i].pending[j].id == urbId
    requires remoteId < WORD && urbId < WORD && status < WORD && |data| < WORD
    ensures var p, k := CompleteMessage(remoteId, urbId, status, errors, data), (w.s.devices[i].id, urbId);
            && Enabled(w.s, OpCompleteRemote(p, beyond))
            && var w' := Next(w, OpCompleteRemote(p, beyond));
               && k in w'.h.outcome
               && Filled(w.s.devices[i].pending[j].data, w'.h.outcome[k], status,
                         if data == [] then None else Some(data), |data|)
               && w'.h.finished == w.h.finished + multiset{k} && !IsPending(w'.s.devices, k)
               && forall other: Key :: other != k ==> (IsPending(w'.s.devices, other) <==> IsPending(w.s.devices, other))
  {
    assert w.s.devices[i].active;
    hide Core, Next, Step, Enabled, CompleteMessage, Filled, FirstRemote, IsPending;
    var given := if data == [] then None else Some(data);
    RemoteStep(w.s, i, remoteId, urbId, status, errors, data, beyond);
    CompletionFills(w, i, j, status, given, |data|);
    SameNext(w, OpCompleteRemote(CompleteMessage(remoteId, urbId, status, errors, data), beyond),
             OpComplete(w.s.devices[i].id, urbId, status, given, |data|));
  }

  /** In every other case the message changes nothing. */
  lemma RemoteCompletionMisses(s: Server, remoteId: nat, urbId: nat, status: nat, errors: nat,
                               data: seq<byte>, beyond: seq<byte>)
    requires remoteId < WORD && urbId < WORD && status < WORD && |data| < WORD
    requires Table(s) && forall i: nat :: FirstRemote(s.devices, remoteId, i) ==> !HasId(s.devices[i].pending, urbId)
    ensures var p := CompleteMessage(remoteId, urbId, status, errors, data);
            Enabled(s, OpCompleteRemote(p, beyond)) && Step(s, OpCompleteRemote(p, beyond)).s == s
  {
    var i := LookupRemote(s.devices, remoteId);
    if i < |s.devices| {
      assert FirstRemote(s.devices, remoteId, i);
      hide Step, Enabled, Table, CompleteMessage, FirstRemote, HasId;
      RemoteStep(s, i, remoteId, urbId, status, errors, data, beyond);
      AbsentMisses(s, i, urbId, status, if data == [] then None else Some(data), |data|);
    } else {
      MessageFields(remoteId, urbId, status, errors, data, beyond);
      hide Get32, CompleteMessage, Complete, LookupRemote;
    }
  }

  lemma AbsentMisses(s: Server, i: nat, urbId: nat, status: nat, data: Option<seq<byte>>, length: nat)
    requires Table(s) && i < |s.devices| && s.devices[i].active && !HasId(s.devices[i].pending, urbId)
    requires length < WORD && (data.Some? ==> |data.value| >= length)
    ensures Step(s, OpComplete(s.devices[i].id, urbId, status, data, length)).s == s
  {
    LookupFinds(s, s.devices[i].id, i);
    hide Table, Lookup, CompleteOn, CompleteTransfer;
  }

  lemma ShortMessageMisses(s: Server, payload: seq<byte>, beyond: seq<byte>)
    requires Enabled(s, OpCompleteRemote(payload, beyond)) && |payload| < 20
    ensures Step(s, OpCompleteRemote(payload, beyond)) == Result(s, Done)
  {
  }
}
