/**
 * What every run of the userspace server keeps: the device table is a finite map, pending lists
 * hold strictly decreasing ids, every URB has one fate, and the statistics are conserved.
 */
module UserspaceCore {
  import opened Collections
  import opened Wire
  import opened Pending
  import opened Userspace

  // ---------- invariants ----------

  predicate UrbsOk(d: Device) {
    && d.pendingCount == |d.pending|
    && Decreasing(d.pending)
    && (forall i :: 0 <= i < |d.pending| ==> 1 <= d.pending[i].id <= d.nextUrbId && !d.pending[i].data.completed)
    && d.submitted == d.completed + |d.pending|
  }

  /** Active ids are distinct and were issued, records fit their 208 bytes; each pending list is consistent with its counters. */
  predicate Table(s: Server) {
    && |s.devices| == MAX_DEVICES
    && (forall i :: 0 <= i < |s.devices| && s.devices[i].active ==>
          && UrbsOk(s.devices[i]) && 1 <= s.devices[i].id <= s.nextDeviceId
          && s.devices[i].info.id == s.devices[i].id && InfoFits(s.devices[i].info))
    && (forall i, j :: 0 <= i < j < |s.devices| && s.devices[i].active && s.devices[j].active ==>
          s.devices[i].id != s.devices[j].id)
  }

  predicate HasActive(devs: seq<Device>, id: nat) {
    exists i :: 0 <= i < |devs| && devs[i].active && devs[i].id == id
  }

  predicate IsPending(devs: seq<Device>, k: Key) {
    exists i :: 0 <= i < |devs| && devs[i].active && devs[i].id == k.0 && HasId(devs[i].pending, k.1)
  }

  /** An active device's list holds exactly the submissions to it that are not finished. */
  ghost predicate Agrees(d: Device, sub: multiset<Key>, fin: multiset<Key>) {
    forall u: nat ::
      && (HasId(d.pending, u) <==> (d.id, u) in sub && (d.id, u) !in fin)
      && ((d.id, u) in sub ==> u <= d.nextUrbId)
  }

  /** Every key is submitted at most once, and finished at most as often, with one outcome. */
  ghost predicate Once(h: History) {
    && (forall k: Key :: h.submitted[k] <= 1 && h.finished[k] <= h.submitted[k])
    && (forall k: Key :: k in h.outcome <==> k in h.finished)
    && (forall k: Key :: k in h.outcome ==> h.outcome[k].completed)
  }

  /** Devices are destroyed at most once and never come back. */
  ghost predicate Gone(s: Server, destroyed: multiset<nat>) {
    && (forall id: nat :: destroyed[id] <= 1 && (id in destroyed ==> id <= s.nextDeviceId))
    && (forall i :: 0 <= i < |s.devices| && s.devices[i].active ==> s.devices[i].id !in destroyed)
  }

  ghost predicate Known(devs: seq<Device>, h: History) {
    forall k: Key :: k in h.submitted ==> k.0 in h.destroyed || HasActive(devs, k.0)
  }

  ghost predicate AllAgree(devs: seq<Device>, sub: multiset<Key>, fin: multiset<Key>) {
    forall i :: 0 <= i < |devs| && devs[i].active ==> Agrees(devs[i], sub, fin)
  }

  /** History and state agree on who was submitted, finished and destroyed. */
  ghost predicate Fates(w: World) {
    && Once(w.h) && Gone(w.s, w.h.destroyed) && Known(w.s.devices, w.h)
    && AllAgree(w.s.devices, w.h.submitted, w.h.finished)
  }

  /**
   * The running totals count what was observed, and are the live devices' counters plus those of the
   * devices that went away, direction by direction.
   */
  ghost predicate Totals(w: World) {
    && w.s.totalUrbs == |w.h.submitted| == Sum(w.s.devices, LiveUrbs) + w.h.deadUrbs
    && w.h.inBytes == Sum(w.s.devices, LiveIn) + w.h.deadIn
    && w.h.outBytes == Sum(w.s.devices, LiveOut) + w.h.deadOut
    && w.s.totalBytes == w.h.inBytes + w.h.outBytes
  }

  ghost predicate Core(w: World) {
    Table(w.s) && Fates(w) && Totals(w)
  }

  lemma CoreHasTable(w: World)
    requires Core(w)
    ensures Table(w.s)
  {
  }

  /** After n steps no 32-bit counter has passed n, and no byte total n times the largest length. */
  ghost predicate Within(s: Server, n: nat) {
    && s.nextDeviceId <= n
    && (forall i :: 0 <= i < |s.devices| && s.devices[i].active ==> s.devices[i].nextUrbId <= n)
    && s.totalUrbs <= n && s.totalBytes <= n * (WORD - 1)
  }

  // ---------- lookups ----------

  lemma LookupIs(devs: seq<Device>, id: nat, i: nat)
    requires i < |devs| && devs[i].active && devs[i].id == id
    requires forall j :: 0 <= j < i ==> !(devs[j].active && devs[j].id == id)
    ensures Lookup(devs, id) == i
  {
  }

  lemma LookupFinds(s: Server, id: nat, i: nat)
    requires Table(s) && i < |s.devices| && s.devices[i].active && s.devices[i].id == id
    ensures Lookup(s.devices, id) == i
  {
    var k := Lookup(s.devices, id);
    assert k <= i;
  }

  // ---------- sums ----------

  lemma {:induction false} NothingRetired(a: seq<Device>, b: seq<Device>, f: Device -> int)
    requires |a| == |b| && forall i :: 0 <= i < |a| && a[i].active ==> b[i].active
    ensures RetiredSum(a, b, f) == 0
  {
    if a != [] {
      assert forall i :: 0 <= i < |a[1..]| ==> a[1..][i] == a[i + 1] && b[1..][i] == b[i + 1];
      NothingRetired(a[1..], b[1..], f);
    }
  }

  /** Removing devices moves their share from the live sum to the retired sum. */
  lemma {:induction false} RetiringMoves(a: seq<Device>, b: seq<Device>, f: Device -> int)
    requires |a| == |b| && forall d: Device :: !d.active ==> f(d) == 0
    requires forall i :: 0 <= i < |a| ==> b[i] == a[i] || (a[i].active && !b[i].active)
    ensures Sum(a, f) == Sum(b, f) + RetiredSum(a, b, f)
  {
    if a != [] {
      assert forall i :: 0 <= i < |a[1..]| ==> a[1..][i] == a[i + 1] && b[1..][i] == b[i + 1];
      RetiringMoves(a[1..], b[1..], f);
    }
  }

  // ---------- what the observer adds ----------

  lemma ObserveKept(h: History, a: seq<Device>, b: seq<Device>, reply: Reply)
    requires |a| == |b| && forall i :: 0 <= i < |a| && a[i].active ==> b[i].active
    ensures reply.Queued? ==>
              Observe(h, a, b, reply) == h.(submitted := h.submitted + multiset{(reply.device, reply.urbId)})
    ensures reply.Finished? ==>
              Observe(h, a, b, reply) == Finish(h, reply.device, reply.urb)
    ensures !reply.Queued? && !reply.Finished? ==> Observe(h, a, b, reply) == h
  {
    NothingRetired(a, b, LiveUrbs);
    NothingRetired(a, b, LiveIn);
    NothingRetired(a, b, LiveOut);
    assert Retired(a, b) == {};
  }

  lemma AgreesElsewhere(d: Device, sub: multiset<Key>, fin: multiset<Key>, k: Key)
    requires Agrees(d, sub, fin) && k.0 != d.id
    ensures Agrees(d, sub + multiset{k}, fin) && Agrees(d, sub, fin + multiset{k})
  {
  }

  lemma ActiveKept(a: seq<Device>, b: seq<Device>, id: nat)
    requires |a| == |b| && HasActive(a, id)
    requires forall i :: 0 <= i < |a| && a[i].active ==> b[i].active && b[i].id == a[i].id
    ensures HasActive(b, id)
  {
    var i :| 0 <= i < |a| && a[i].active && a[i].id == id;
    assert b[i].active;
  }

  lemma KnownKept(a: seq<Device>, b: seq<Device>, h: History)
    requires Known(a, h) && |a| == |b|
    requires forall i :: 0 <= i < |a| && a[i].active ==> b[i].active && b[i].id == a[i].id
    ensures Known(b, h)
  {
    forall k: Key | k in h.submitted && HasActive(a, k.0)
      ensures HasActive(b, k.0)
    {
      ActiveKept(a, b, k.0);
    }
  }

  // ---------- the four shapes of a step ----------

  /** A new device has a never-used id, so no old key can refer to it. */
  lemma KeepsCreate(w: World, i: nat, d: Device, s': Server, reply: Reply)
    requires Core(w) && i < |w.s.devices| && !w.s.devices[i].active
    requires d.active && d.id == d.info.id == w.s.nextDeviceId + 1 && d.pending == [] && d.pendingCount == 0
    requires InfoFits(d.info)
    requires d.nextUrbId == d.bytesIn == d.bytesOut == d.submitted == d.completed == 0
    requires s'.devices == w.s.devices[i := d] && s'.nextDeviceId == d.id
    requires s'.totalUrbs == w.s.totalUrbs && s'.totalBytes == w.s.totalBytes
    requires !reply.Queued? && !reply.Finished?
    ensures Core(World(s', Observe(w.h, w.s.devices, s'.devices, reply)))
  {
    hide Table, Once, Gone, Known, AllAgree, Totals, Agrees, UrbsOk, Observe;
    ObserveKept(w.h, w.s.devices, s'.devices, reply);
    KnownKept(w.s.devices, s'.devices, w.h);
    CreateTotals(w, i, d, s');
    FreshUrbsOk(d);
    CreateTable(w.s, i, d, s', w.h.destroyed);
    CreateAgrees(w, i, d);
  }

  lemma FreshUrbsOk(d: Device)
    requires d.pending == [] && d.pendingCount == 0 && d.submitted == d.completed == 0
    ensures UrbsOk(d)
  {
  }

  lemma CreateTotals(w: World, i: nat, d: Device, s': Server)
    requires Totals(w) && i < |w.s.devices| && !w.s.devices[i].active
    requires d.bytesIn == d.bytesOut == d.submitted == 0 && s'.devices == w.s.devices[i := d]
    requires s'.totalUrbs == w.s.totalUrbs && s'.totalBytes == w.s.totalBytes
    ensures Totals(World(s', w.h))
  {
    TotalsUpdate(w.s.devices, i, d);
  }

  lemma CreateTable(s: Server, i: nat, d: Device, s': Server, destroyed: multiset<nat>)
    requires Table(s) && Gone(s, destroyed) && i < |s.devices| && d.active
    requires d.id == d.info.id == s.nextDeviceId + 1 && UrbsOk(d) && InfoFits(d.info)
    requires s'.devices == s.devices[i := d] && s'.nextDeviceId == d.id
    ensures Table(s') && Gone(s', destroyed)
  {
  }

  lemma CreateAgrees(w: World, i: nat, d: Device)
    requires Table(w.s) && Fates(w) && i < |w.s.devices| && d.id == w.s.nextDeviceId + 1 && d.pending == []
    ensures AllAgree(w.s.devices[i := d], w.h.submitted, w.h.finished)
  {
    forall u: nat
      ensures (d.id, u) !in w.h.submitted && !HasId(d.pending, u)
    {
      var k: Key := (d.id, u);
      assert !HasActive(w.s.devices, k.0);
    }
    assert Agrees(d, w.h.submitted, w.h.finished);
  }

  /** Cleanup only deactivates; what goes away is what the observer books as dead. */
  lemma KeepsRetire(w: World, s': Server, reply: Reply)
    requires Core(w) && |s'.devices| == |w.s.devices| && s'.nextDeviceId == w.s.nextDeviceId
    requires forall i :: 0 <= i < |s'.devices| ==>
      s'.devices[i] == w.s.devices[i] || (w.s.devices[i].active && s'.devices[i] == Cleanup(w.s.devices[i]))
    requires s'.totalUrbs == w.s.totalUrbs && s'.totalBytes == w.s.totalBytes
    requires !reply.Queued? && !reply.Finished?
    ensures Core(World(s', Observe(w.h, w.s.devices, s'.devices, reply)))
  {
    hide Table, Once, Gone, Known, AllAgree, Totals, Bury;
    RetireTotals(w, s');
    RetireGone(w, s');
    RetireKnown(w.s.devices, s'.devices, w.h);
    RetireTable(w, s');
    RetireOnce(w.h, w.s.devices, s'.devices);
  }

  lemma RetireOnce(h: History, a: seq<Device>, b: seq<Device>)
    requires Once(h) && |a| == |b|
    ensures Once(Bury(h, a, b)) && Bury(h, a, b).submitted == h.submitted && Bury(h, a, b).finished == h.finished
  {
  }

  lemma RetireTable(w: World, s': Server)
    requires Table(w.s) && AllAgree(w.s.devices, w.h.submitted, w.h.finished)
    requires |s'.devices| == |w.s.devices| && s'.nextDeviceId == w.s.nextDeviceId
    requires forall i :: 0 <= i < |s'.devices| && s'.devices[i].active ==> s'.devices[i] == w.s.devices[i]
    ensures Table(s') && AllAgree(s'.devices, w.h.submitted, w.h.finished)
  {
  }

  lemma RetireTotals(w: World, s': Server)
    requires Totals(w) && |s'.devices| == |w.s.devices|
    requires forall i :: 0 <= i < |s'.devices| ==>
      s'.devices[i] == w.s.devices[i] || (w.s.devices[i].active && !s'.devices[i].active)
    requires s'.totalUrbs == w.s.totalUrbs && s'.totalBytes == w.s.totalBytes
    ensures Totals(World(s', Bury(w.h, w.s.devices, s'.devices)))
  {
    hide Sum, RetiredSum;
    var a, b := w.s.devices, s'.devices;
    RetiringMoves(a, b, LiveUrbs);
    RetiringMoves(a, b, LiveIn);
    RetiringMoves(a, b, LiveOut);
  }

  lemma RetireGone(w: World, s': Server)
    requires Table(w.s) && Gone(w.s, w.h.destroyed)
    requires |s'.devices| == |w.s.devices| && s'.nextDeviceId == w.s.nextDeviceId
    requires forall i :: 0 <= i < |s'.devices| ==>
      s'.devices[i] == w.s.devices[i] || (w.s.devices[i].active && !s'.devices[i].active)
    ensures Gone(s', Bury(w.h, w.s.devices, s'.devices).destroyed)
  {
    hide RetiredSum, UrbsOk;
  }

  lemma RetireKnown(a: seq<Device>, b: seq<Device>, h: History)
    requires Known(a, h) && |a| == |b|
    requires forall i :: 0 <= i < |b| ==> b[i] == a[i] || (a[i].active && !b[i].active)
    ensures Known(b, Bury(h, a, b))
  {
    hide RetiredSum;
    forall k: Key | k in h.submitted && k.0 !in h.destroyed && k.0 !in Retired(a, b)
      ensures HasActive(b, k.0)
    {
      var j :| 0 <= j < |a| && a[j].active && a[j].id == k.0;
      assert b[j].active;
    }
  }

  /** Updating one active device in place keeps the table and what is known about ids. */
  lemma KeepsUpdate(w: World, i: nat, d: Device, h: History)
    requires Table(w.s) && Fates(w) && i < |w.s.devices| && w.s.devices[i].active
    requires d.active && d.id == w.s.devices[i].id && d.info == w.s.devices[i].info && UrbsOk(d)
    requires h.destroyed == w.h.destroyed
    requires forall k: Key :: k in h.submitted ==> k in w.h.submitted || k.0 == d.id
    ensures Table(w.s.(devices := w.s.devices[i := d]))
    ensures Gone(w.s.(devices := w.s.devices[i := d]), h.destroyed)
    ensures Known(w.s.devices[i := d], h)
  {
    var a, b := w.s.devices, w.s.devices[i := d];
    ActiveKept(a, b, d.id);
    forall k: Key | k in h.submitted && k.0 !in h.destroyed
      ensures HasActive(b, k.0)
    {
      if k in w.h.submitted {
        ActiveKept(a, b, k.0);
      }
    }
  }

  lemma AgreeUpdate(devs: seq<Device>, i: nat, d: Device, sub: multiset<Key>, fin: multiset<Key>, k: Key)
    requires AllAgree(devs, sub, fin) && i < |devs| && devs[i].active && devs[i].id == k.0
    requires forall j :: 0 <= j < |devs| && j != i && devs[j].active ==> devs[j].id != k.0
    ensures Agrees(d, sub + multiset{k}, fin) ==> AllAgree(devs[i := d], sub + multiset{k}, fin)
    ensures Agrees(d, sub, fin + multiset{k}) ==> AllAgree(devs[i := d], sub, fin + multiset{k})
  {
    forall j | 0 <= j < |devs| && devs[j].active && j != i
      ensures Agrees(devs[j], sub + multiset{k}, fin) && Agrees(devs[j], sub, fin + multiset{k})
    {
      AgreesElsewhere(devs[j], sub, fin, k);
    }
  }

  predicate SameDevice(d: Device, d': Device) { d'.active == d.active && d'.id == d.id && d'.info == d.info }

  /** What the invariant says about one active slot. */
  lemma SlotFacts(w: World, i: nat)
    requires Core(w) && i < |w.s.devices| && w.s.devices[i].active
    ensures UrbsOk(w.s.devices[i]) && Agrees(w.s.devices[i], w.h.submitted, w.h.finished)
    ensures forall k: Key :: w.h.finished[k] <= w.h.submitted[k]
    ensures forall j :: 0 <= j < |w.s.devices| && j != i && w.s.devices[j].active ==> w.s.devices[j].id != w.s.devices[i].id
  {
  }

  /** The new URB id is larger than every id the device has issued. */
  lemma SubmitDevice(d: Device, t: Transfer, sub: multiset<Key>, fin: multiset<Key>)
    requires UrbsOk(d) && Agrees(d, sub, fin) && d.nextUrbId + 1 < WORD
    requires forall k: Key :: fin[k] <= sub[k]
    ensures UrbsOk(SubmitTo(d, t)) && SameDevice(d, SubmitTo(d, t))
    ensures (d.id, d.nextUrbId + 1) !in sub
    ensures Agrees(SubmitTo(d, t), sub + multiset{(d.id, d.nextUrbId + 1)}, fin)
  {
    var d' := SubmitTo(d, t);
    var n := d.nextUrbId + 1;
    assert d'.pending[0].id == n;
    assert forall j :: 0 <= j < |d.pending| ==> d'.pending[j + 1] == d.pending[j];
    assert forall j :: 1 <= j < |d'.pending| ==> d'.pending[j] == d.pending[j - 1];
    forall u: nat
      ensures HasId(d'.pending, u) <==> u == n || HasId(d.pending, u)
    {
      if HasId(d.pending, u) {
        var j :| 0 <= j < |d.pending| && d.pending[j].id == u;
        assert d'.pending[j + 1].id == u;
      }
    }
    var k: Key := (d.id, n);
    assert k !in sub;
    assert k !in fin;
  }

  lemma KeepsSubmit(w: World, i: nat, t: Transfer, s': Server)
    requires Core(w) && i < |w.s.devices| && w.s.devices[i].active && w.s.devices[i].nextUrbId + 1 < WORD
    requires s' == w.s.(devices := w.s.devices[i := SubmitTo(w.s.devices[i], t)], totalUrbs := w.s.totalUrbs + 1)
    ensures Core(World(s', Observe(w.h, w.s.devices, s'.devices,
                                   Queued(w.s.devices[i].id, w.s.devices[i].nextUrbId + 1))))
  {
    hide Table, Once, Gone, Known, AllAgree, Totals, Agrees, UrbsOk, Observe, SubmitTo;
    var a := w.s.devices;
    var d, d' := a[i], SubmitTo(a[i], t);
    var k: Key := (d.id, d.nextUrbId + 1);
    var h := w.h.(submitted := w.h.submitted + multiset{k});
    SlotFacts(w, i);
    SubmitDevice(d, t, w.h.submitted, w.h.finished);
    ObserveKept(w.h, a, a[i := d'], Queued(k.0, k.1));
    AgreeUpdate(a, i, d', w.h.submitted, w.h.finished, k);
    KeepsUpdate(w, i, d', h);
    OnceSubmit(w.h, k);
    SubmitTotals(w, i, t, k);
    TableIgnoresTotals(w.s.(devices := a[i := d']), s', h.destroyed);
  }

  lemma TableIgnoresTotals(s: Server, s': Server, destroyed: multiset<nat>)
    requires Table(s) && Gone(s, destroyed) && s'.devices == s.devices && s'.nextDeviceId == s.nextDeviceId
    ensures Table(s') && Gone(s', destroyed)
  {
  }

  lemma SubmitTotals(w: World, i: nat, t: Transfer, k: Key)
    requires Totals(w) && i < |w.s.devices| && w.s.devices[i].active
    ensures Totals(World(w.s.(devices := w.s.devices[i := SubmitTo(w.s.devices[i], t)], totalUrbs := w.s.totalUrbs + 1),
                         w.h.(submitted := w.h.submitted + multiset{k})))
  {
    TotalsUpdate(w.s.devices, i, SubmitTo(w.s.devices[i], t));
  }

  lemma OnceSubmit(h: History, k: Key)
    requires Once(h) && k !in h.submitted
    ensures Once(h.(submitted := h.submitted + multiset{k}))
  {
  }

  lemma TotalsUpdate(a: seq<Device>, i: nat, d: Device)
    requires i < |a|
    ensures Sum(a[i := d], LiveUrbs) == Sum(a, LiveUrbs) - LiveUrbs(a[i]) + LiveUrbs(d)
    ensures Sum(a[i := d], LiveIn) == Sum(a, LiveIn) - LiveIn(a[i]) + LiveIn(d)
    ensures Sum(a[i := d], LiveOut) == Sum(a, LiveOut) - LiveOut(a[i]) + LiveOut(d)
  {
    SumUpdate(a, i, d, LiveUrbs);
    SumUpdate(a, i, d, LiveIn);
    SumUpdate(a, i, d, LiveOut);
  }

  lemma CompleteDevice(d: Device, urbId: nat, length: nat, sub: multiset<Key>, fin: multiset<Key>)
    requires UrbsOk(d) && Agrees(d, sub, fin) && HasId(d.pending, urbId)
    ensures UrbsOk(CompleteOn(d, urbId, length)) && SameDevice(d, CompleteOn(d, urbId, length))
    ensures (d.id, urbId) in sub && (d.id, urbId) !in fin
    ensures Agrees(CompleteOn(d, urbId, length), sub, fin + multiset{(d.id, urbId)})
  {
    WithoutDecreasing(d.pending, urbId);
    var d' := CompleteOn(d, urbId, length);
    forall j | 0 <= j < |d'.pending|
      ensures 1 <= d'.pending[j].id <= d'.nextUrbId && !d'.pending[j].data.completed
    {
      assert d'.pending[j] in d.pending;
    }
  }

  lemma KeepsComplete(w: World, i: nat, urbId: nat, length: nat, t: Transfer, s': Server)
    requires Core(w) && i < |w.s.devices| && w.s.devices[i].active && HasId(w.s.devices[i].pending, urbId)
    requires t.completed && t.actualLength == length
    requires t.direction == w.s.devices[i].pending[Position(w.s.devices[i].pending, urbId)].data.direction
    requires s' == w.s.(devices := w.s.devices[i := CompleteOn(w.s.devices[i], urbId, length)],
                        totalBytes := w.s.totalBytes + length)
    ensures Core(World(s', Observe(w.h, w.s.devices, s'.devices, Finished(w.s.devices[i].id, Entry(urbId, t)))))
  {
    hide Table, Once, Gone, Known, AllAgree, Totals, Agrees, UrbsOk, Observe, CompleteOn;
    var a := w.s.devices;
    var d, d' := a[i], CompleteOn(a[i], urbId, length);
    var k: Key := (d.id, urbId);
    var h := Finish(w.h, d.id, Entry(urbId, t));
    SlotFacts(w, i);
    CompleteDevice(d, urbId, length, w.h.submitted, w.h.finished);
    ObserveKept(w.h, a, a[i := d'], Finished(d.id, Entry(urbId, t)));
    AgreeUpdate(a, i, d', w.h.submitted, w.h.finished, k);
    KeepsUpdate(w, i, d', h);
    OnceFinish(w.h, d.id, Entry(urbId, t));
    CompleteTotals(w, i, urbId, length, t);
    TableIgnoresTotals(w.s.(devices := a[i := d']), s', h.destroyed);
  }

  lemma OnceFinish(h: History, device: nat, urb: Urb)
    requires Once(h) && (device, urb.id) in h.submitted && (device, urb.id) !in h.finished && urb.data.completed
    ensures Once(Finish(h, device, urb))
  {
  }

  lemma CompleteTotals(w: World, i: nat, urbId: nat, length: nat, t: Transfer)
    requires Totals(w) && i < |w.s.devices| && w.s.devices[i].active && HasId(w.s.devices[i].pending, urbId)
    requires t.actualLength == length
    requires t.direction == w.s.devices[i].pending[Position(w.s.devices[i].pending, urbId)].data.direction
    ensures Totals(World(w.s.(devices := w.s.devices[i := CompleteOn(w.s.devices[i], urbId, length)],
                              totalBytes := w.s.totalBytes + length),
                         Finish(w.h, w.s.devices[i].id, Entry(urbId, t))))
  {
    TotalsUpdate(w.s.devices, i, CompleteOn(w.s.devices[i], urbId, length));
  }
}
