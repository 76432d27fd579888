/**
 * The driver's URB queue: VusbQueueUrb, VusbDequeueUrb, VusbFindUrb, VusbCompleteUrb and
 * VusbCancelUrb of driver/vusb_device.c with the request handlers of driver/vusb_ioctl.c.
 */
module DriverQueue {
  import opened Collections

  const PENDING_URB_SIZE := 36

  datatype Urb = Urb(id: nat, deviceId: nat, incoming: bool, bufferLength: nat)

  /** PendingUrbList, PendingUrbCount, NextUrbId and Statistics. */
  datatype Queue = Queue(
    waiting: seq<Urb>, pendingCount: int, nextUrbId: nat,
    submitted: nat, completed: nat, canceled: nat, errors: nat, bytesIn: nat, bytesOut: nat)

  datatype Reply =
    | Queued | NonePending | Requeued | Delivered(urb: Urb) | NotFound
    | Completed(urb: Urb, success: bool, length: nat) | Canceled(urb: Urb)

  function Position(xs: seq<Urb>, id: nat): nat { FirstIndex(xs, (u: Urb) => u.id == id) }

  /** VusbQueueUrb: at the tail, and counted as a submission. */
  function Enqueue(q: Queue, u: Urb): Queue {
    q.(waiting := q.waiting + [u], pendingCount := q.pendingCount + 1, submitted := q.submitted + 1)
  }

  /** VusbUrbCreate then VusbQueueUrb. */
  function Submit(q: Queue, deviceId: nat, incoming: bool, bufferLength: nat): Queue {
    var id := NextWord(q.nextUrbId);
    Enqueue(q.(nextUrbId := id), Urb(id, deviceId, incoming, bufferLength))
  }

  function Dequeue(q: Queue): Queue
    requires q.waiting != []
  {
    q.(waiting := q.waiting[1..], pendingCount := q.pendingCount - 1)
  }

  function RequiredSize(u: Urb): nat { PENDING_URB_SIZE + if u.incoming then 0 else u.bufferLength }

  /** VusbHandleGetPendingUrb: deliver the oldest, or put it back at the tail when it cannot be handed over. */
  function GetPending(q: Queue, outputLength: nat, mapped: bool): (Queue, Reply) {
    if q.waiting == [] then (q, NonePending)
    else if outputLength < RequiredSize(q.waiting[0]) || !mapped then
      (Enqueue(Dequeue(q), q.waiting[0]), Requeued)
    else (Dequeue(q), Delivered(q.waiting[0]))
  }

  /** VusbCompleteUrb on an entry taken off the list. */
  function Account(q: Queue, u: Urb, success: bool, length: nat): Queue {
    if !success then q.(errors := q.errors + 1)
    else if u.incoming then q.(completed := q.completed + 1, bytesIn := q.bytesIn + length)
    else q.(completed := q.completed + 1, bytesOut := q.bytesOut + length)
  }

  function Take(q: Queue, k: nat): Queue
    requires k < |q.waiting|
  {
    q.(waiting := Remove(q.waiting, k), pendingCount := q.pendingCount - 1)
  }

  /** VusbHandleCompleteUrb */
  function Complete(q: Queue, id: nat, success: bool, length: nat): (Queue, Reply) {
    var k := Position(q.waiting, id);
    if k == |q.waiting| then (q, NotFound)
    else (Account(Take(q, k), q.waiting[k], success, length), Completed(q.waiting[k], success, length))
  }

  /** VusbCancelUrb */
  function Cancel(q: Queue, id: nat): (Queue, Reply) {
    var k := Position(q.waiting, id);
    if k == |q.waiting| then (q, NotFound)
    else (Account(Take(q, k), q.waiting[k], false, 0).(canceled := q.canceled + 1), Canceled(q.waiting[k]))
  }

  datatype Op =
    | OpSubmit(deviceId: nat, incoming: bool, bufferLength: nat)
    | OpGetPending(outputLength: nat, mapped: bool)
    | OpComplete(id: nat, success: bool, length: nat)
    | OpCancel(id: nat)

  function Step(q: Queue, op: Op): (Queue, Reply) {
    match op
    case OpSubmit(deviceId, incoming, bufferLength) => (Submit(q, deviceId, incoming, bufferLength), Queued)
    case OpGetPending(outputLength, mapped) => GetPending(q, outputLength, mapped)
    case OpComplete(id, success, length) => Complete(q, id, success, length)
    case OpCancel(id) => Cancel(q, id)
  }

  /** What the requests and their answers show: who was handed over and finished, how, and how much was moved. */
  datatype World = World(
    q: Queue, delivered: seq<nat>, finished: seq<nat>, dequeues: nat,
    successes: nat, failures: nat, cancels: nat, inBytes: nat, outBytes: nat)

  function Next(w: World, op: Op): World {
    var (q, reply) := Step(w.q, op);
    match reply
    case Delivered(u) => w.(q := q, delivered := w.delivered + [u.id], dequeues := w.dequeues + 1)
    case Requeued => w.(q := q, dequeues := w.dequeues + 1)
    case Canceled(u) => w.(q := q, finished := w.finished + [u.id], cancels := w.cancels + 1)
    case Completed(u, ok, length) =>
      if !ok then w.(q := q, finished := w.finished + [u.id], failures := w.failures + 1)
      else
        w.(q := q, finished := w.finished + [u.id], successes := w.successes + 1,
           inBytes := w.inBytes + (if u.incoming then length else 0),
           outBytes := w.outBytes + (if u.incoming then 0 else length))
    case _ => w.(q := q)
  }

  function Run(w: World, ops: seq<Op>): World
    decreases |ops|
  {
    if ops == [] then w else Run(Next(w, ops[0]), ops[1..])
  }

  const START := World(Queue([], 0, 0, 0, 0, 0, 0, 0, 0), [], [], 0, 0, 0, 0, 0, 0)

  function Ids(xs: seq<Urb>): (r: seq<nat>)
    ensures |r| == |xs| && forall i :: 0 <= i < |xs| ==> r[i] == xs[i].id
  {
    if xs == [] then [] else [xs[0].id] + Ids(xs[1..])
  }

  // ---------- invariants ----------

  /** The counters balance: every counted submission is still pending, was dequeued, or ended. */
  predicate Balanced(w: World) {
    && w.q.pendingCount == |w.q.waiting|
    && w.q.submitted == w.q.pendingCount + w.dequeues + w.q.completed + w.q.errors
    && w.q.completed == w.successes && w.q.canceled == w.cancels && w.q.errors == w.failures + w.cancels
    && w.q.bytesIn == w.inBytes && w.q.bytesOut == w.outBytes
    && |w.finished| == w.q.completed + w.q.errors
  }

  predicate Waits(w: World, id: nat) { exists i :: 0 <= i < |w.q.waiting| && w.q.waiting[i].id == id }

  /** Every issued id is in exactly one of waiting, delivered and finished, and there only once. */
  ghost predicate OnePlace(w: World) {
    && (forall i, j :: 0 <= i < j < |w.q.waiting| ==> w.q.waiting[i].id != w.q.waiting[j].id)
    && NoDup(w.delivered) && NoDup(w.finished)
    && (forall id: nat :: 1 <= id <= w.q.nextUrbId <==> Waits(w, id) || id in w.delivered || id in w.finished)
    && (forall id: nat :: !(Waits(w, id) && id in w.delivered) && !(Waits(w, id) && id in w.finished)
                          && !(id in w.delivered && id in w.finished))
  }

  lemma TakenLeaves(xs: seq<Urb>, k: nat, id: nat)
    requires k < |xs| && forall i, j :: 0 <= i < j < |xs| ==> xs[i].id != xs[j].id
    ensures (exists i :: 0 <= i < |xs| - 1 && Remove(xs, k)[i].id == id) <==>
            (exists i :: 0 <= i < |xs| && xs[i].id == id) && id != xs[k].id
  {
    var r := Remove(xs, k);
    if i :| 0 <= i < |xs| && xs[i].id == id && id != xs[k].id {
      assert r[if i < k then i else i - 1].id == id;
    }
    if i :| 0 <= i < |r| && r[i].id == id {
      assert xs[if i < k then i else i + 1].id == id;
    }
  }

  lemma SubmitPlaces(w: World, deviceId: nat, incoming: bool, bufferLength: nat)
    requires OnePlace(w) && w.q.nextUrbId + 1 < WORD
    ensures OnePlace(w.(q := Submit(w.q, deviceId, incoming, bufferLength)))
  {
    var w' := w.(q := Submit(w.q, deviceId, incoming, bufferLength));
    var n := |w.q.waiting|;
    forall id: nat
      ensures Waits(w', id) <==> Waits(w, id) || id == w.q.nextUrbId + 1
    {
      assert w'.q.waiting[n].id == w.q.nextUrbId + 1;
      if i :| 0 <= i < n && w.q.waiting[i].id == id {
        assert w'.q.waiting[i].id == id;
      }
    }
    assert forall i :: 0 <= i < n ==> Waits(w, w.q.waiting[i].id);
  }

  /** Taking one entry off the list and writing its id down elsewhere. */
  lemma TakePlaces(w: World, k: nat, w': World)
    requires OnePlace(w) && k < |w.q.waiting| && w'.q.waiting == Remove(w.q.waiting, k)
    requires w'.q.nextUrbId == w.q.nextUrbId
    requires (w'.delivered == w.delivered + [w.q.waiting[k].id] && w'.finished == w.finished)
          || (w'.finished == w.finished + [w.q.waiting[k].id] && w'.delivered == w.delivered)
    ensures OnePlace(w')
  {
    var u := w.q.waiting[k].id;
    assert Waits(w, u);
    forall id: nat
      ensures Waits(w', id) <==> Waits(w, id) && id != u
    {
      TakenLeaves(w.q.waiting, k, id);
    }
  }

  lemma RequeuePlaces(w: World, w': World)
    requires OnePlace(w) && w.q.waiting != [] && w'.q.waiting == w.q.waiting[1..] + [w.q.waiting[0]]
    requires w'.q.nextUrbId == w.q.nextUrbId && w'.delivered == w.delivered && w'.finished == w.finished
    ensures OnePlace(w')
  {
    var n := |w.q.waiting| - 1;
    forall id: nat
      ensures Waits(w', id) <==> Waits(w, id)
    {
      if i :| 0 <= i <= n && w.q.waiting[i].id == id {
        assert w'.q.waiting[if i == 0 then n else i - 1].id == id;
      }
      if i :| 0 <= i <= n && w'.q.waiting[i].id == id {
        assert w.q.waiting[if i == n then 0 else i + 1].id == id;
      }
    }
  }

  lemma CompleteBalances(w: World, id: nat, success: bool, length: nat)
    requires Balanced(w)
    ensures Balanced(Next(w, OpComplete(id, success, length)))
  {
    hide Position;
  }

  lemma CancelBalances(w: World, id: nat)
    requires Balanced(w)
    ensures Balanced(Next(w, OpCancel(id)))
  {
    hide Position;
  }

  lemma HandOverBalances(w: World, outputLength: nat, mapped: bool)
    requires Balanced(w)
    ensures Balanced(Next(w, OpGetPending(outputLength, mapped)))
  {
    hide RequiredSize;
  }

  lemma StepBalances(w: World, op: Op)
    requires Balanced(w)
    ensures Balanced(Next(w, op))
  {
    match op {
      case OpSubmit(_, _, _) =>
      case OpGetPending(outputLength, mapped) => HandOverBalances(w, outputLength, mapped);
      case OpComplete(id, success, length) => CompleteBalances(w, id, success, length);
      case OpCancel(id) => CancelBalances(w, id);
    }
  }

  lemma FinishPlaces(w: World, id: nat, success: bool, length: nat)
    requires OnePlace(w)
    ensures OnePlace(Next(w, OpComplete(id, success, length))) && OnePlace(Next(w, OpCancel(id)))
  {
    hide OnePlace;
    var k := Position(w.q.waiting, id);
    if k < |w.q.waiting| {
      TakePlaces(w, k, Next(w, OpComplete(id, success, length)));
      TakePlaces(w, k, Next(w, OpCancel(id)));
    } else {
      assert Next(w, OpComplete(id, success, length)) == w == Next(w, OpCancel(id));
    }
  }

  lemma GetPlaces(w: World, outputLength: nat, mapped: bool)
    requires OnePlace(w)
    ensures OnePlace(Next(w, OpGetPending(outputLength, mapped)))
  {
    hide OnePlace;
    var w' := Next(w, OpGetPending(outputLength, mapped));
    if w.q.waiting == [] {
      assert w' == w;
    } else if GetPending(w.q, outputLength, mapped).1.Requeued? {
      RequeuePlaces(w, w');
    } else {
      assert Remove(w.q.waiting, 0) == w.q.waiting[1..];
      TakePlaces(w, 0, w');
    }
  }

  lemma StepKeeps(w: World, op: Op)
    requires Balanced(w) && OnePlace(w) && w.q.nextUrbId + 1 < WORD
    ensures Balanced(Next(w, op)) && OnePlace(Next(w, op))
    ensures w.q.nextUrbId <= Next(w, op).q.nextUrbId <= w.q.nextUrbId + 1
  {
    StepBalances(w, op);
    hide OnePlace, Balanced;
    match op {
      case OpSubmit(deviceId, incoming, bufferLength) => SubmitPlaces(w, deviceId, incoming, bufferLength);
      case OpGetPending(outputLength, mapped) => GetPlaces(w, outputLength, mapped);
      case OpComplete(id, success, length) => FinishPlaces(w, id, success, length);
      case OpCancel(id) => FinishPlaces(w, id, false, 0);
    }
  }

  lemma {:induction false} RunFrom(w: World, ops: seq<Op>)
    requires Balanced(w) && OnePlace(w) && w.q.nextUrbId + |ops| < WORD
    ensures Balanced(Run(w, ops)) && OnePlace(Run(w, ops))
    decreases |ops|
  {
    hide Balanced, OnePlace, Next;
    if ops != [] {
      StepKeeps(w, ops[0]);
      RunFrom(Next(w, ops[0]), ops[1..]);
    }
  }

  /**
   * Over every run of fewer than 2^32 requests: each URB is in exactly one place, PendingUrbCount is
   * the list length, and TotalUrbsSubmitted = PendingUrbCount + dequeues + TotalUrbsCompleted + TotalErrors.
   */
  lemma {:induction false} EveryRunBalances(ops: seq<Op>)
    requires |ops| < WORD
    ensures Balanced(Run(START, ops)) && OnePlace(Run(START, ops))
  {
    StartIsGood();
    hide Balanced, OnePlace, Run;
    RunFrom(START, ops);
  }

  lemma StartIsGood()
    ensures Balanced(START) && OnePlace(START) && InOrder(START) && Known(START) && START.q.nextUrbId == 0
  {
  }

  /** A delivered URB is on no list any more: completing or cancelling it finds nothing and changes nothing. */
  lemma DeliveredIsOutOfReach(w: World, id: nat, success: bool, length: nat)
    requires OnePlace(w) && id in w.delivered
    ensures Complete(w.q, id, success, length) == (w.q, NotFound) && Cancel(w.q, id) == (w.q, NotFound)
    ensures id !in w.finished && !Waits(w, id)
  {
    assert !Waits(w, id);
  }

  lemma {:induction false} DeliveredFrom(w: World, ops: seq<Op>, id: nat)
    requires Balanced(w) && OnePlace(w) && w.q.nextUrbId + |ops| < WORD && id in w.delivered
    ensures id in Run(w, ops).delivered
    decreases |ops|
  {
    hide Balanced, OnePlace;
    if ops != [] {
      StepKeeps(w, ops[0]);
      hide Step;
      DeliveredFrom(Next(w, ops[0]), ops[1..], id);
    }
  }

  lemma {:induction false} RunSplit(w: World, ops: seq<Op>, more: seq<Op>)
    ensures Run(w, ops + more) == Run(Run(w, ops), more)
    decreases |ops|
  {
    if ops == [] {
      assert ops + more == more;
    } else {
      assert (ops + more)[1..] == ops[1..] + more;
      RunSplit(Next(w, ops[0]), ops[1..], more);
    }
  }

  lemma {:induction false} FewIds(w: World, ops: seq<Op>)
    requires w.q.nextUrbId + |ops| < WORD
    ensures Run(w, ops).q.nextUrbId <= w.q.nextUrbId + |ops|
    decreases |ops|
  {
    if ops != [] {
      assert Next(w, ops[0]).q.nextUrbId <= w.q.nextUrbId + 1;
      FewIds(Next(w, ops[0]), ops[1..]);
    }
  }

  /**
   * Once delivered, for ever delivered: whatever requests follow, the URB waits nowhere, is never
   * finished, and a completion or cancellation of it at any later point finds nothing.
   */
  lemma {:induction false} DeliveredIsNeverFinished(ops: seq<Op>, more: seq<Op>, id: nat, success: bool, length: nat)
    requires |ops + more| < WORD && id in Run(START, ops).delivered
    ensures var w := Run(START, ops + more);
            && id in w.delivered && id !in w.finished && !Waits(w, id)
            && Complete(w.q, id, success, length) == (w.q, NotFound) && Cancel(w.q, id) == (w.q, NotFound)
  {
    EveryRunBalances(ops);
    EveryRunBalances(ops + more);
    RunSplit(START, ops, more);
    FewIds(START, ops);
    hide Run, Balanced, OnePlace, Complete, Cancel;
    DeliveredFrom(Run(START, ops), more, id);
    DeliveredIsOutOfReach(Run(START, ops + more), id, success, length);
  }

  // ---------- what the requests do ----------

  /**
   * A waiting URB is handed over exactly when the buffer is there and takes the 36 bytes of the header and, for
   * an OUT URB, its data; otherwise it goes back, as the last and as another submission.
   */
  lemma HandOverIff(q: Queue, outputLength: nat, mapped: bool)
    ensures var (q', reply) := Step(q, OpGetPending(outputLength, mapped));
            && (q.waiting == [] ==> q' == q && reply == NonePending)
            && (q.waiting != [] ==>
                  var u := q.waiting[0];
                  if mapped && outputLength >= 36 + (if u.incoming then 0 else u.bufferLength) then
                    && reply == Delivered(u)
                    && q' == q.(waiting := q.waiting[1..], pendingCount := q.pendingCount - 1)
                  else
                    && reply == Requeued
                    && q' == q.(waiting := q.waiting[1..] + [u], submitted := q.submitted + 1))
  {
  }

  /** One entry is taken out; the others stay in order. */
  predicate TakenOut(xs: seq<Urb>, ys: seq<Urb>, u: Urb) {
    exists k :: 0 <= k < |xs| && xs[k] == u && ys == xs[..k] + xs[k + 1..]
  }

  /** Completing takes the waiting URB with that id off the list and counts it and the bytes it moved, or finds nothing. */
  lemma CompletionTakes(w: World, id: nat, success: bool, length: nat)
    ensures var (q', reply) := Step(w.q, OpComplete(id, success, length));
            && (!Waits(w, id) ==> q' == w.q && reply == NotFound)
            && (Waits(w, id) ==>
                  && reply.Completed? && reply.urb.id == id && reply.success == success && reply.length == length
                  && TakenOut(w.q.waiting, q'.waiting, reply.urb)
                  && q' == w.q.(
                       waiting := q'.waiting, pendingCount := w.q.pendingCount - 1,
                       completed := w.q.completed + (if success then 1 else 0),
                       errors := w.q.errors + (if success then 0 else 1),
                       bytesIn := w.q.bytesIn + (if success && reply.urb.incoming then length else 0),
                       bytesOut := w.q.bytesOut + (if success && !reply.urb.incoming then length else 0)))
  {
    var k := Position(w.q.waiting, id);
    assert k < |w.q.waiting| ==> Remove(w.q.waiting, k) == w.q.waiting[..k] + w.q.waiting[k + 1..];
  }

  /** Cancelling takes the waiting URB with that id off the list and counts a cancellation and an error, or finds nothing. */
  lemma CancellationTakes(w: World, id: nat)
    ensures var (q', reply) := Step(w.q, OpCancel(id));
            && (!Waits(w, id) ==> q' == w.q && reply == NotFound)
            && (Waits(w, id) ==>
                  && reply.Canceled? && reply.urb.id == id && TakenOut(w.q.waiting, q'.waiting, reply.urb)
                  && q' == w.q.(waiting := q'.waiting, pendingCount := w.q.pendingCount - 1,
                                canceled := w.q.canceled + 1, errors := w.q.errors + 1))
  {
    var k := Position(w.q.waiting, id);
    assert k < |w.q.waiting| ==> Remove(w.q.waiting, k) == w.q.waiting[..k] + w.q.waiting[k + 1..];
  }

  /** The submissions among the requests. */
  function Submissions(ops: seq<Op>): seq<Op> {
    if ops == [] then []
    else Submissions(ops[..|ops| - 1]) + (if ops[|ops| - 1].OpSubmit? then [ops[|ops| - 1]] else [])
  }

  /** The URB carries the device, direction and length of the submission that its id counts. */
  predicate AsSubmitted(u: Urb, submissions: seq<Op>) {
    1 <= u.id <= |submissions| && submissions[u.id - 1] == OpSubmit(u.deviceId, u.incoming, u.bufferLength)
  }

  predicate Faithful(q: Queue, submissions: seq<Op>) {
    q.nextUrbId == |submissions| && forall i :: 0 <= i < |q.waiting| ==> AsSubmitted(q.waiting[i], submissions)
  }

  lemma StepFaithful(q: Queue, op: Op, submissions: seq<Op>)
    requires Faithful(q, submissions) && q.nextUrbId + 1 < WORD
    ensures Faithful(Step(q, op).0, submissions + if op.OpSubmit? then [op] else [])
    ensures var reply := Step(q, op).1;
            reply.Delivered? || reply.Completed? || reply.Canceled? ==> AsSubmitted(reply.urb, submissions)
  {
    var (q', reply) := Step(q, op);
    var more := submissions + if op.OpSubmit? then [op] else [];
    forall i | 0 <= i < |q'.waiting|
      ensures AsSubmitted(q'.waiting[i], more)
    {
      if op.OpSubmit? && i == |q.waiting| {
        assert more[|submissions|] == op;
      } else {
        OldEntry(q, op, i);
        var j :| 0 <= j < |q.waiting| && q.waiting[j] == q'.waiting[i];
        assert AsSubmitted(q.waiting[j], submissions);
      }
    }
  }

  lemma OldEntry(q: Queue, op: Op, i: nat)
    requires i < |Step(q, op).0.waiting| && (op.OpSubmit? ==> i < |q.waiting|)
    ensures exists j :: 0 <= j < |q.waiting| && q.waiting[j] == Step(q, op).0.waiting[i]
  {
    var e := Step(q, op).0.waiting[i];
    match op {
      case OpSubmit(_, _, _) => assert q.waiting[i] == e;
      case OpGetPending(_, _) =>
        if |Step(q, op).0.waiting| == |q.waiting| {
          assert e in q.waiting;
        } else {
          assert q.waiting[i + 1] == e;
        }
      case OpComplete(id, _, _) =>
        var k := Position(q.waiting, id);
        assert q.waiting[if i < k then i else i + 1] == e;
      case OpCancel(id) =>
        var k := Position(q.waiting, id);
        assert q.waiting[if i < k then i else i + 1] == e;
    }
  }

  lemma {:induction false} RunSnoc(w: World, ops: seq<Op>)
    requires ops != []
    ensures Run(w, ops) == Next(Run(w, ops[..|ops| - 1]), ops[|ops| - 1])
  {
    var n := |ops| - 1;
    RunSplit(w, ops[..n], [ops[n]]);
    assert ops == ops[..n] + [ops[n]] && [ops[n]][1..] == [];
  }

  lemma {:induction false} RunFaithful(ops: seq<Op>)
    requires |ops| < WORD
    ensures Faithful(Run(START, ops).q, Submissions(ops)) && |Submissions(ops)| <= |ops|
  {
    if ops != [] {
      var n := |ops| - 1;
      RunFaithful(ops[..n]);
      RunSnoc(START, ops);
      hide Run, Step, Faithful, Submissions;
      NextUrb(Run(START, ops[..n]).q, Submissions(ops[..n]));
      StepFaithful(Run(START, ops[..n]).q, ops[n], Submissions(ops[..n]));
      SubmissionsSnoc(ops);
    }
  }

  lemma NextUrb(q: Queue, submissions: seq<Op>)
    requires Faithful(q, submissions)
    ensures q.nextUrbId == |submissions|
  {
  }

  lemma SubmissionsSnoc(ops: seq<Op>)
    requires ops != []
    ensures Submissions(ops)
            == Submissions(ops[..|ops| - 1]) + if ops[|ops| - 1].OpSubmit? then [ops[|ops| - 1]] else []
  {
  }

  /**
   * Over every run of fewer than 2^32 requests: whatever is handed over, completed or cancelled carries the
   * device id, direction and length of the submission that got its id.
   */
  lemma ReturnedAsSubmitted(ops: seq<Op>, op: Op)
    requires |ops| + 1 < WORD
    ensures var reply := Step(Run(START, ops).q, op).1;
            reply.Delivered? || reply.Completed? || reply.Canceled? ==> AsSubmitted(reply.urb, Submissions(ops))
  {
    hide Run, Step, Faithful, Submissions;
    RunFaithful(ops);
    NextUrb(Run(START, ops).q, Submissions(ops));
    StepFaithful(Run(START, ops).q, op, Submissions(ops));
  }

  // ---------- delivery order ----------

  predicate Increasing(xs: seq<nat>) { forall i, j :: 0 <= i < j < |xs| ==> xs[i] < xs[j] }

  /** Delivered, then still waiting. */
  function Line(delivered: seq<nat>, waiting: seq<Urb>): (r: seq<nat>)
    ensures |r| == |delivered| + |waiting|
    ensures forall i :: 0 <= i < |delivered| ==> r[i] == delivered[i]
    ensures forall i :: 0 <= i < |waiting| ==> r[|delivered| + i] == waiting[i].id
  {
    delivered + Ids(waiting)
  }

  function LineOf(w: World): seq<nat> { Line(w.delivered, w.q.waiting) }

  /** Delivery and waiting follow the order of submission. */
  predicate InOrder(w: World) { Increasing(LineOf(w)) }

  predicate Known(w: World) { forall i :: 0 <= i < |LineOf(w)| ==> LineOf(w)[i] <= w.q.nextUrbId }

  lemma StepInOrder(w: World, op: Op)
    requires InOrder(w) && Known(w) && w.q.nextUrbId + 1 < WORD
    requires Step(w.q, op).1.Requeued? ==> |w.q.waiting| == 1
    ensures InOrder(Next(w, op)) && Known(Next(w, op)) && Next(w, op).q.nextUrbId <= w.q.nextUrbId + 1
  {
    hide InOrder, Known;
    var w' := Next(w, op);
    match op {
      case OpSubmit(_, _, _) => SubmitInOrder(w, w', w'.q.waiting[|w.q.waiting|]);
      case OpGetPending(_, _) =>
        assert |w.q.waiting| == 1 ==> w.q.waiting[1..] + [w.q.waiting[0]] == w.q.waiting;
        HandOverInOrder(w, w');
      case OpComplete(id, success, length) => FinishInOrder(w, id, success, length);
      case OpCancel(id) => FinishInOrder(w, id, false, 0);
    }
  }

  lemma FinishInOrder(w: World, id: nat, success: bool, length: nat)
    requires InOrder(w) && Known(w)
    ensures var w' := Next(w, OpComplete(id, success, length)); InOrder(w') && Known(w')
    ensures var w' := Next(w, OpCancel(id)); InOrder(w') && Known(w')
  {
    hide InOrder, Known, Remove;
    RemovalInOrder(w, Next(w, OpComplete(id, success, length)), Position(w.q.waiting, id));
    RemovalInOrder(w, Next(w, OpCancel(id)), Position(w.q.waiting, id));
  }

  lemma SubmitInOrder(w: World, w': World, u: Urb)
    requires InOrder(w) && Known(w) && w'.delivered == w.delivered && w'.q.waiting == w.q.waiting + [u]
    requires u.id == w'.q.nextUrbId == w.q.nextUrbId + 1
    ensures InOrder(w') && Known(w')
  {
    assert LineOf(w') == LineOf(w) + [u.id];
  }

  lemma HandOverInOrder(w: World, w': World)
    requires InOrder(w) && Known(w) && w'.q.nextUrbId == w.q.nextUrbId
    requires
      || (w'.delivered == w.delivered && w'.q.waiting == w.q.waiting)
      || (w.q.waiting != [] && w'.delivered == w.delivered + [w.q.waiting[0].id] && w'.q.waiting == w.q.waiting[1..])
    ensures InOrder(w') && Known(w')
  {
    SameLine(w, w');
  }

  lemma SameLine(w: World, w': World)
    requires
      || (w'.delivered == w.delivered && w'.q.waiting == w.q.waiting)
      || (w.q.waiting != [] && w'.delivered == w.delivered + [w.q.waiting[0].id] && w'.q.waiting == w.q.waiting[1..])
    ensures LineOf(w') == LineOf(w)
  {
    if w'.delivered != w.delivered {
      Deliver(w.delivered, w.q.waiting);
    }
  }

  lemma Deliver(delivered: seq<nat>, waiting: seq<Urb>)
    requires waiting != []
    ensures Line(delivered + [waiting[0].id], waiting[1..]) == Line(delivered, waiting)
  {
    var rest := Ids(waiting[1..]);
    assert Ids(waiting) == [waiting[0].id] + rest;
    assert delivered + [waiting[0].id] + rest == delivered + ([waiting[0].id] + rest);
  }

  lemma DropOne(a: seq<nat>, b: seq<nat>, c: nat, bound: nat)
    requires Increasing(a) && c < |a| && |b| == |a| - 1
    requires forall i :: 0 <= i < c ==> b[i] == a[i]
    requires forall i :: c <= i < |b| ==> b[i] == a[i + 1]
    requires forall i :: 0 <= i < |a| ==> a[i] <= bound
    ensures Increasing(b) && forall i :: 0 <= i < |b| ==> b[i] <= bound
  {
    forall i, j | 0 <= i < j < |b|
      ensures b[i] < b[j]
    {
      var i', j' := if i < c then i else i + 1, if j < c then j else j + 1;
      assert a[i'] < a[j'];
    }
    forall i | 0 <= i < |b|
      ensures b[i] <= bound
    {
      assert b[i] == a[if i < c then i else i + 1];
    }
  }

  lemma ShiftedLine(w: World, w': World, k: nat)
    requires k < |w.q.waiting| && w'.delivered == w.delivered && w'.q.waiting == Remove(w.q.waiting, k)
    ensures forall i :: 0 <= i < |w.delivered| + k ==> LineOf(w')[i] == LineOf(w)[i]
    ensures forall i :: |w.delivered| + k <= i < |LineOf(w')| ==> LineOf(w')[i] == LineOf(w)[i + 1]
  {
    var n := |w.delivered|;
    forall i | n <= i < |LineOf(w')|
      ensures LineOf(w')[i] == LineOf(w)[if i < n + k then i else i + 1]
    {
      assert LineOf(w')[n + (i - n)] == w'.q.waiting[i - n].id;
      if i >= n + k {
        assert LineOf(w)[n + (i + 1 - n)] == w.q.waiting[i + 1 - n].id;
      } else {
        assert LineOf(w)[n + (i - n)] == w.q.waiting[i - n].id;
      }
    }
  }

  lemma RemovalInOrder(w: World, w': World, k: nat)
    requires InOrder(w) && Known(w) && w'.delivered == w.delivered && w'.q.nextUrbId == w.q.nextUrbId
    requires k <= |w.q.waiting|
    requires w'.q.waiting == if k < |w.q.waiting| then Remove(w.q.waiting, k) else w.q.waiting
    ensures InOrder(w') && Known(w')
  {
    var a, b, c := LineOf(w), LineOf(w'), |w.delivered| + k;
    if k < |w.q.waiting| {
      ShiftedLine(w, w', k);
      DropOne(a, b, c, w.q.nextUrbId);
    } else {
      assert a == b;
    }
  }

  /** A URB is put back only when nothing else waits. */
  predicate NoOvertaking(w: World, ops: seq<Op>)
    decreases |ops|
  {
    ops == [] || ((Step(w.q, ops[0]).1.Requeued? ==> |w.q.waiting| == 1) && NoOvertaking(Next(w, ops[0]), ops[1..]))
  }

  lemma {:induction false} RunInOrder(w: World, ops: seq<Op>)
    requires InOrder(w) && Known(w) && w.q.nextUrbId + |ops| < WORD && NoOvertaking(w, ops)
    ensures InOrder(Run(w, ops)) && Known(Run(w, ops))
    decreases |ops|
  {
    hide InOrder, Known, Next, Step;
    if ops != [] {
      StepInOrder(w, ops[0]);
      RunInOrder(Next(w, ops[0]), ops[1..]);
    }
  }

  /** Delivered ids increase, every waiting URB is younger, and a missing id was finished while it waited. */
  ghost predicate Fifo(w: World) {
    && Increasing(w.delivered)
    && (forall d, i :: d in w.delivered && 0 <= i < |w.q.waiting| ==> d < w.q.waiting[i].id)
    && forall id: nat :: 1 <= id <= w.q.nextUrbId && id !in w.delivered && !Waits(w, id) ==> id in w.finished
  }

  lemma OrderMeans(w: World)
    requires InOrder(w) && OnePlace(w)
    ensures Fifo(w)
  {
    var line, n := LineOf(w), |w.delivered|;
    assert Increasing(line);
    forall d, i | d in w.delivered && 0 <= i < |w.q.waiting|
      ensures d < w.q.waiting[i].id
    {
      var k :| 0 <= k < n && w.delivered[k] == d;
      assert line[k] == d && line[n + i] == w.q.waiting[i].id;
    }
  }

  /** Without overtaking, delivery follows submission, minus what was finished while waiting. */
  lemma {:induction false} DeliveryIsFifo(ops: seq<Op>)
    requires |ops| < WORD && NoOvertaking(START, ops)
    ensures Fifo(Run(START, ops))
  {
    StartIsGood();
    hide Run, InOrder, Known, Balanced, OnePlace, Fifo, NoOvertaking;
    RunInOrder(START, ops);
    EveryRunBalances(ops);
    OrderMeans(Run(START, ops));
  }

  /** Putting a URB back keeps the order exactly when it was the only one waiting. */
  lemma RequeueKeepsOrderIff(w: World, outputLength: nat, mapped: bool)
    requires InOrder(w) && GetPending(w.q, outputLength, mapped).1.Requeued?
    ensures InOrder(Next(w, OpGetPending(outputLength, mapped))) <==> |w.q.waiting| == 1
  {
    var w' := Next(w, OpGetPending(outputLength, mapped));
    assert w'.delivered == w.delivered && w'.q.waiting == w.q.waiting[1..] + [w.q.waiting[0]];
    hide Next, GetPending;
    RotatedInOrderIff(w, w');
  }

  lemma RotatedInOrderIff(w: World, w': World)
    requires InOrder(w) && w.q.waiting != []
    requires w'.delivered == w.delivered && w'.q.waiting == w.q.waiting[1..] + [w.q.waiting[0]]
    ensures InOrder(w') <==> |w.q.waiting| == 1
  {
    var line, line', n := LineOf(w), LineOf(w'), |w.delivered|;
    if |w.q.waiting| == 1 {
      assert w'.q.waiting == w.q.waiting;
    } else {
      assert line[n] == w.q.waiting[0].id && line[n + 1] == w.q.waiting[1].id;
      assert line'[n] == w.q.waiting[1].id && line'[|line'| - 1] == w.q.waiting[0].id;
    }
  }

  /** A run that overtakes: the first of two URBs does not fit its request, and the second is delivered before it. */
  lemma RequeueOvertakes(deviceId: nat, bufferLength: nat)
    ensures var submit := OpSubmit(deviceId, true, bufferLength);
            var w := Run(START, [submit, submit, OpGetPending(0, true), OpGetPending(PENDING_URB_SIZE, true)]);
            w.delivered == [2] && Waits(w, 1) && !Fifo(w)
  {
    var submit := OpSubmit(deviceId, true, bufferLength);
    var first, second := Urb(1, deviceId, true, bufferLength), Urb(2, deviceId, true, bufferLength);
    var w1 := Next(START, submit);
    assert w1.q.waiting == [first];
    var w2 := Next(w1, submit);
    assert w2.q.waiting == [first, second];
    var w3 := Next(w2, OpGetPending(0, true));
    assert w3.q.waiting == [second, first];
    var w4 := Next(w3, OpGetPending(PENDING_URB_SIZE, true));
    assert w4.q.waiting == [first] && w4.delivered == [2];
    RunOfFour(START, submit, submit, OpGetPending(0, true), OpGetPending(PENDING_URB_SIZE, true));
    assert w4.q.waiting[0].id == 1 && 2 in w4.delivered;
  }

  lemma RunOfFour(w: World, a: Op, b: Op, c: Op, d: Op)
    ensures Run(w, [a, b, c, d]) == Next(Next(Next(Next(w, a), b), c), d)
  {
    hide Next;
    assert [a, b, c, d][1..] == [b, c, d] && [b, c, d][1..] == [c, d] && [c, d][1..] == [d] && [d][1..] == [];
    assert Run(Next(Next(w, a), b), [c, d]) == Run(Next(Next(Next(w, a), b), c), [d]);
    assert Run(Next(w, a), [b, c, d]) == Run(Next(Next(w, a), b), [c, d]);
  }

  // ---------- the driver's own form ----------

  /** VUSB_DEVICE_CONTEXT, URB part. */
  class UrbContext {
    var waiting: seq<Urb>
    var pendingCount: int
    var nextUrbId: nat
    var submitted: nat
    var completed: nat
    var canceled: nat
    var errors: nat
    var bytesIn: nat
    var bytesOut: nat

    ghost function Model(): Queue
      reads this
    {
      Queue(waiting, pendingCount, nextUrbId, submitted, completed, canceled, errors, bytesIn, bytesOut)
    }

    /** PendingUrbCount is the list's length, and the list's ids are distinct and were issued. */
    ghost predicate Valid()
      reads this
    {
      && pendingCount == |waiting|
      && (forall i :: 0 <= i < |waiting| ==> 1 <= waiting[i].id <= nextUrbId)
      && forall i, j :: 0 <= i < j < |waiting| ==> waiting[i].id != waiting[j].id
    }

    ghost predicate OnList(id: nat)
      reads this
    {
      exists i :: 0 <= i < |waiting| && waiting[i].id == id
    }

    constructor ()
      ensures Model() == START.q && Valid()
    {
      waiting, pendingCount, nextUrbId, submitted, completed := [], 0, 0, 0, 0;
      canceled, errors, bytesIn, bytesOut := 0, 0, 0, 0;
    }

    method QueueUrb(u: Urb)
      modifies this
      ensures Model() == Enqueue(old(Model()), u) && OnList(u.id)
      ensures old(Valid()) && 1 <= u.id <= old(nextUrbId) && !old(OnList(u.id)) ==> Valid()
    {
      waiting := waiting + [u];
      pendingCount := pendingCount + 1;
      submitted := submitted + 1;
      assert waiting[|waiting| - 1] == u;
    }

    /** Until ids wrap, the new URB's id is on no list. */
    method CreateAndQueue(deviceId: nat, incoming: bool, bufferLength: nat)
      modifies this
      ensures Model() == Submit(old(Model()), deviceId, incoming, bufferLength) && OnList(nextUrbId)
      ensures old(Valid()) && old(nextUrbId) + 1 < WORD ==> Valid() && !old(OnList(nextUrbId + 1))
    {
      nextUrbId := NextWord(nextUrbId);
      QueueUrb(Urb(nextUrbId, deviceId, incoming, bufferLength));
    }

    method DequeueUrb() returns (u: Option<Urb>)
      modifies this
      ensures u.None? <==> old(waiting) == []
      ensures u.None? ==> Model() == old(Model())
      ensures u.Some? ==> u.value == old(waiting)[0] && Model() == Dequeue(old(Model()))
      ensures old(Valid()) ==> Valid() && (u.Some? ==> !OnList(u.value.id))
    {
      if waiting == [] {
        return None;
      }
      u := Some(waiting[0]);
      waiting := waiting[1..];
      pendingCount := pendingCount - 1;
    }

    /** VusbFindUrb: search the list and unlink the first match. */
    method FindUrb(id: nat) returns (u: Option<Urb>)
      modifies this
      ensures var k := Position(old(waiting), id);
              if k == |old(waiting)| then u == None && Model() == old(Model())
              else u == Some(old(waiting)[k]) && Model() == Take(old(Model()), k)
      ensures u.Some? <==> old(OnList(id))
      ensures old(Valid()) ==> Valid() && !OnList(id)
    {
      var k := 0;
      while k < |waiting|
        invariant k <= |waiting| && Model() == old(Model())
        invariant forall j :: 0 <= j < k ==> waiting[j].id != id
      {
        if waiting[k].id == id {
          assert Position(waiting, id) == k;
          u := Some(waiting[k]);
          waiting := Remove(waiting, k);
          pendingCount := pendingCount - 1;
          return;
        }
        k := k + 1;
      }
      u := None;
    }

    method CompleteUrb(u: Urb, success: bool, length: nat)
      modifies this`completed, this`errors, this`bytesIn, this`bytesOut
      ensures Model() == Account(old(Model()), u, success, length)
      ensures completed + errors == old(completed + errors) + 1
      ensures bytesIn + bytesOut == old(bytesIn + bytesOut) + if success then length else 0
    {
      if success {
        completed := completed + 1;
        if u.incoming {
          bytesIn := bytesIn + length;
        } else {
          bytesOut := bytesOut + length;
        }
      } else {
        errors := errors + 1;
      }
    }

    method HandleGetPendingUrb(outputLength: nat, mapped: bool) returns (reply: Reply)
      modifies this
      ensures (Model(), reply) == GetPending(old(Model()), outputLength, mapped)
      ensures old(waiting) == [] ==> reply == NonePending
      ensures old(waiting) != [] ==>
                var u := old(waiting)[0];
                reply == if mapped && outputLength >= 36 + (if u.incoming then 0 else u.bufferLength)
                         then Delivered(u) else Requeued
      ensures old(Valid()) ==> Valid() && (reply.Delivered? ==> !OnList(reply.urb.id))
      ensures reply.Requeued? ==> waiting != [] && waiting[|waiting| - 1] == old(waiting)[0] && |waiting| == |old(waiting)|
    {
      var u := DequeueUrb();
      if u.None? {
        return NonePending;
      }
      var requiredSize := PENDING_URB_SIZE;
      if !u.value.incoming {
        requiredSize := requiredSize + u.value.bufferLength;
      }
      if outputLength < requiredSize {
        QueueUrb(u.value);
        return Requeued;
      }
      if !mapped {
        QueueUrb(u.value);
        return Requeued;
      }
      return Delivered(u.value);
    }

    method HandleCompleteUrb(id: nat, success: bool, length: nat) returns (reply: Reply)
      modifies this
      ensures (Model(), reply) == Complete(old(Model()), id, success, length)
      ensures reply == NotFound <==> !old(OnList(id))
      ensures old(Valid()) ==> Valid() && !OnList(id)
    {
      var u := FindUrb(id);
      if u.None? {
        return NotFound;
      }
      CompleteUrb(u.value, success, length);
      return Completed(u.value, success, length);
    }

    method CancelUrb(id: nat) returns (reply: Reply)
      modifies this
      ensures (Model(), reply) == Cancel(old(Model()), id)
      ensures reply == NotFound <==> !old(OnList(id))
      ensures old(Valid()) ==> Valid() && !OnList(id)
    {
      var u := FindUrb(id);
      if u.None? {
        return NotFound;
      }
      canceled := canceled + 1;
      CompleteUrb(u.value, false, 0);
      return Canceled(u.value);
    }
  }
}
