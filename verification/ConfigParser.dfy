/** The descriptor-tree parse loop of client/vusb_capture.c, ReadConfigDescriptor. */
module ConfigParser {
  import opened Collections
  import opened Wire
  import opened Descriptors

  const MAX_INTERFACES := 8
  const MAX_ENDPOINTS := 32

  datatype EndpointInfo = EndpointInfo(address: byte, attributes: byte, maxPacketSize: nat, interval: byte)

  datatype InterfaceInfo = InterfaceInfo(
    number: byte, alternate: byte, interfaceClass: byte, subClass: byte, protocol: byte, numEndpoints: byte,
    endpoints: seq<EndpointInfo>)

  /** The Interfaces array with currentInterface and currentEndpoint. */
  datatype Parse = Parse(interfaces: seq<InterfaceInfo>, current: int, endpoint: nat)

  predicate Fits(interfaces: seq<InterfaceInfo>) {
    |interfaces| == MAX_INTERFACES && forall n :: 0 <= n < |interfaces| ==> |interfaces[n].endpoints| == MAX_ENDPOINTS
  }

  predicate Ready(p: Parse) {
    Fits(p.interfaces) && -1 <= p.current < MAX_INTERFACES && p.endpoint <= MAX_ENDPOINTS
  }

  // ---------- one descriptor ----------

  function InterfaceAt(b: seq<byte>, at: nat, endpoints: seq<EndpointInfo>): InterfaceInfo
    requires at + 8 <= |b|
  {
    InterfaceInfo(b[at + 2], b[at + 3], b[at + 5], b[at + 6], b[at + 7], b[at + 4], endpoints)
  }

  function EndpointAt(b: seq<byte>, at: nat): EndpointInfo
    requires at + 7 <= |b|
  {
    EndpointInfo(b[at + 2], b[at + 3], Get16(b, at + 4), b[at + 6])
  }

  function PutEndpoint(p: Parse, e: EndpointInfo): (r: Parse)
    requires Ready(p)
    ensures Ready(r)
  {
    if !Open(p) then p
    else
      var i := p.interfaces[p.current];
      Parse(p.interfaces[p.current := i.(endpoints := i.endpoints[p.endpoint := e])], p.current, p.endpoint + 1)
  }

  predicate IsInterface(b: seq<byte>, at: nat)
    requires at + 2 <= |b|
  {
    b[at + 1] == INTERFACE && b[at] >= 9
  }

  predicate IsEndpoint(b: seq<byte>, at: nat)
    requires at + 2 <= |b|
  {
    b[at + 1] == ENDPOINT && b[at] >= 7
  }

  /** An endpoint descriptor would be filed: there is a current interface, and room in its array. */
  predicate Open(p: Parse) { p.current >= 0 && p.endpoint < MAX_ENDPOINTS }

  /**
   * The bytes that are read at an offset lie inside the buffer: of an interface its number, and the other
   * fields, iInterface not among them, when the number is accepted; of an endpoint all, when it is filed.
   */
  predicate Readable(p: Parse, b: seq<byte>, at: nat) {
    && at + 2 <= |b|
    && (IsInterface(b, at) ==> at + 3 <= |b| && (b[at + 2] < MAX_INTERFACES ==> at + 8 <= |b|))
    && (IsEndpoint(b, at) && Open(p) ==> at + 7 <= |b|)
  }

  function Feed(p: Parse, b: seq<byte>, at: nat): (r: Parse)
    requires Ready(p) && Readable(p, b, at)
    ensures Ready(r)
  {
    if IsInterface(b, at) then
      if b[at + 2] < MAX_INTERFACES then
        var n: nat := b[at + 2];
        Parse(p.interfaces[n := InterfaceAt(b, at, p.interfaces[n].endpoints)], n, 0)
      else p
    else if IsEndpoint(b, at) && Open(p) then PutEndpoint(p, EndpointAt(b, at))
    else p
  }

  /** The loop from an offset on; None when it would read outside the buffer. */
  function ParseFrom(b: seq<byte>, at: nat, p: Parse): (r: Option<Parse>)
    requires Ready(p)
    ensures r.Some? ==> Ready(r.value)
    decreases |b| - at
  {
    if at >= |b| then Some(p)
    else if at + 1 >= |b| then None
    else if b[at] == 0 then Some(p)
    else if !Readable(p, b, at) then None
    else ParseFrom(b, at + b[at] as nat, Feed(p, b, at))
  }

  // ---------- arbitrary bytes ----------

  /** The sound descriptor that starts here, if any, lies inside the buffer. */
  predicate SoundAt(b: seq<byte>, at: nat) { at + 1 < |b| && b[at] != 0 && at + b[at] as nat <= |b| }

  /** The offsets of the sound descriptors from an offset on. */
  function Offsets(b: seq<byte>, at: nat): seq<nat>
    decreases |b| - at
  {
    if !SoundAt(b, at) then [] else [at] + Offsets(b, at + b[at] as nat)
  }

  /** The state in which the loop leaves the last of them. */
  function StateAfter(b: seq<byte>, at: nat, p: Parse): (r: Parse)
    requires Ready(p)
    ensures Ready(r)
    decreases |b| - at
  {
    if !SoundAt(b, at) then p else StateAfter(b, at + b[at] as nat, Feed(p, b, at))
  }

  /** The loop reads outside exactly where the sound descriptors stop, and in the state they leave. */
  lemma {:induction false} OutsideAtStop(b: seq<byte>, at: nat, p: Parse)
    requires Ready(p) && at <= |b|
    ensures var stop := StopAt(b, at);
            ParseFrom(b, at, p).None? <==>
            stop + 1 == |b| || (stop + 1 < |b| && b[stop] != 0 && !Readable(StateAfter(b, at, p), b, stop))
    decreases |b| - at
  {
    if SoundAt(b, at) {
      OutsideAtStop(b, at + b[at] as nat, Feed(p, b, at));
    } else if at + 1 < |b| && b[at] != 0 && Readable(p, b, at) {
      assert ParseFrom(b, at + b[at] as nat, Feed(p, b, at)).Some?;
    }
  }

  /** An interface descriptor whose number the array has an entry for. */
  predicate Accepted(b: seq<byte>, at: nat) { at + 3 <= |b| && IsInterface(b, at) && b[at + 2] < MAX_INTERFACES }

  function EndpointCount(b: seq<byte>, offsets: seq<nat>): nat {
    if offsets == [] then 0
    else (if offsets[0] + 2 <= |b| && IsEndpoint(b, offsets[0]) then 1 else 0) + EndpointCount(b, offsets[1..])
  }

  predicate NoneAccepted(b: seq<byte>, offsets: seq<nat>) { forall k :: 0 <= k < |offsets| ==> !Accepted(b, offsets[k]) }

  /** The j-th descriptor is the last accepted interface, and fewer than 32 endpoints follow it. */
  predicate LastAccepted(b: seq<byte>, offsets: seq<nat>, j: nat) {
    && j < |offsets| && Accepted(b, offsets[j]) && NoneAccepted(b, offsets[j + 1..])
    && EndpointCount(b, offsets[j + 1..]) < MAX_ENDPOINTS
  }

  predicate Awaits(b: seq<byte>, offsets: seq<nat>) { exists j: nat :: j < |offsets| && LastAccepted(b, offsets, j) }

  lemma LastShift(b: seq<byte>, at: nat, rest: seq<nat>, j: nat)
    ensures LastAccepted(b, [at] + rest, j + 1) <==> LastAccepted(b, rest, j)
  {
    if j < |rest| {
      assert ([at] + rest)[j + 1 + 1..] == rest[j + 1..];
    }
  }

  lemma AwaitsStep(b: seq<byte>, at: nat, rest: seq<nat>)
    ensures Awaits(b, [at] + rest) <==>
            Awaits(b, rest) || (Accepted(b, at) && NoneAccepted(b, rest) && EndpointCount(b, rest) < MAX_ENDPOINTS)
  {
    var all := [at] + rest;
    assert all[0] == at && all[1..] == rest;
    assert LastAccepted(b, all, 0) <==>
           Accepted(b, at) && NoneAccepted(b, rest) && EndpointCount(b, rest) < MAX_ENDPOINTS;
    hide LastAccepted, NoneAccepted, Accepted;
    if j: nat :| j < |rest| && LastAccepted(b, rest, j) {
      LastShift(b, at, rest, j);
      assert LastAccepted(b, all, j + 1);
    }
    if j: nat :| j < |all| && LastAccepted(b, all, j) {
      if j > 0 {
        LastShift(b, at, rest, j - 1);
      }
    }
  }

  lemma NoneStep(b: seq<byte>, at: nat, rest: seq<nat>)
    ensures NoneAccepted(b, [at] + rest) <==> !Accepted(b, at) && NoneAccepted(b, rest)
  {
    var all := [at] + rest;
    assert all[0] == at;
    assert forall k :: 0 <= k < |rest| ==> all[k + 1] == rest[k];
  }

  lemma CountStep(b: seq<byte>, at: nat, rest: seq<nat>)
    ensures EndpointCount(b, [at] + rest)
            == (if at + 2 <= |b| && IsEndpoint(b, at) then 1 else 0) + EndpointCount(b, rest)
  {
    assert ([at] + rest)[1..] == rest;
  }

  /** What one descriptor does to the cursor. */
  lemma FeedCursor(p: Parse, b: seq<byte>, at: nat)
    requires Ready(p) && SoundAt(b, at)
    ensures Readable(p, b, at)
    ensures var r := Feed(p, b, at);
            if Accepted(b, at) then r.current >= 0 && r.endpoint == 0
            else r.current == p.current && r.endpoint == if IsEndpoint(b, at) && Open(p) then p.endpoint + 1 else p.endpoint
  {
  }

  /** Whether an endpoint would be filed there can be read off the descriptors passed. */
  lemma {:induction false} OpenIffAwaits(b: seq<byte>, at: nat, p: Parse)
    requires Ready(p)
    ensures var offsets := Offsets(b, at);
            Open(StateAfter(b, at, p)) <==>
            Awaits(b, offsets)
            || (NoneAccepted(b, offsets) && p.current >= 0 && p.endpoint + EndpointCount(b, offsets) < MAX_ENDPOINTS)
    decreases |b| - at
  {
    if SoundAt(b, at) {
      var next, rest := at + b[at] as nat, Offsets(b, at + b[at] as nat);
      FeedCursor(p, b, at);
      hide Awaits, NoneAccepted, Feed, Accepted, Readable, EndpointCount;
      OpenIffAwaits(b, next, Feed(p, b, at));
      AwaitsStep(b, at, rest);
      NoneStep(b, at, rest);
      CountStep(b, at, rest);
    } else {
      assert EndpointCount(b, []) == 0;
    }
  }

  /** What a caller can check on the bytes: they end in a lone length byte, or inside a field that is read. */
  predicate Overread(b: seq<byte>) {
    |b| > 9 &&
    var stop := StopAt(b, 9);
    || stop + 1 == |b|
    || (stop + 1 < |b| && b[stop] != 0 &&
        ((IsInterface(b, stop) && (stop + 2 == |b| || (b[stop + 2] < MAX_INTERFACES && stop + 8 > |b|)))
         || (IsEndpoint(b, stop) && stop + 7 > |b| && Awaits(b, Offsets(b, 9)))))
  }

  /** On any bytes a device may return, exactly when the loop reads outside them. */
  lemma OverreadIff(b: seq<byte>, interfaces: seq<InterfaceInfo>)
    requires Fits(interfaces)
    ensures ParseFrom(b, 9, Parse(interfaces, -1, 0)).None? <==> Overread(b)
  {
    if |b| > 9 {
      hide Awaits;
      OutsideAtStop(b, 9, Parse(interfaces, -1, 0));
      OpenIffAwaits(b, 9, Parse(interfaces, -1, 0));
    }
  }

  /** ReadConfigDescriptor on the header and the wTotalLength bytes the device returned. */
  method ReadConfigDescriptor(header: seq<byte>, full: seq<byte>, interfaces: array<InterfaceInfo>)
    returns (inside: bool, numInterfaces: byte)
    requires |header| == 9 && |full| == Get16(header, 2) && Fits(interfaces[..])
    modifies interfaces
    ensures numInterfaces == header[4]
    ensures var r := ParseFrom(full, 9, Parse(old(interfaces[..]), -1, 0));
            inside == r.Some? && (inside ==> interfaces[..] == r.value.interfaces)
    ensures inside <==> !Overread(full)
  {
    OverreadIff(full, interfaces[..]);
    hide Overread;
    numInterfaces := header[4];
    var ptr, end := 9, |full|;
    var currentInterface, currentEndpoint := -1, 0;
    ghost var goal := ParseFrom(full, 9, Parse(interfaces[..], -1, 0));
    while ptr < end
      invariant Ready(Parse(interfaces[..], currentInterface, currentEndpoint))
      invariant ParseFrom(full, ptr, Parse(interfaces[..], currentInterface, currentEndpoint)) == goal
      decreases end - ptr
    {
      if ptr + 1 >= end {
        return false, numInterfaces;
      }
      var length: nat, kind := full[ptr], full[ptr + 1];
      if length == 0 {
        break;
      }
      ghost var now := Parse(interfaces[..], currentInterface, currentEndpoint);
      ghost var next := if Readable(now, full, ptr) then Feed(now, full, ptr) else now;
      if kind == INTERFACE && length >= 9 {
        if ptr + 2 >= end {
          return false, numInterfaces;
        }
        if full[ptr + 2] < MAX_INTERFACES {
          if ptr + 7 >= end {
            return false, numInterfaces;
          }
          currentInterface := full[ptr + 2];
          interfaces[currentInterface] := InterfaceAt(full, ptr, interfaces[currentInterface].endpoints);
          currentEndpoint := 0;
        }
      } else if kind == ENDPOINT && length >= 7 {
        if currentInterface >= 0 && currentEndpoint < MAX_ENDPOINTS {
          if ptr + 6 >= end {
            return false, numInterfaces;
          }
          var i := interfaces[currentInterface];
          interfaces[currentInterface] := i.(endpoints := i.endpoints[currentEndpoint := EndpointAt(full, ptr)]);
          currentEndpoint := currentEndpoint + 1;
        }
      }
      assert Parse(interfaces[..], currentInterface, currentEndpoint) == next;
      ptr := ptr + length;
    }
    return true, numInterfaces;
  }

  // ---------- the loop over a well-formed list ----------

  function FeedAll(p: Parse, descs: seq<seq<byte>>): (r: Parse)
    requires Ready(p) && AllWellFormed(descs)
    ensures Ready(r)
    decreases |descs|
  {
    if descs == [] then p
    else
      assert WellFormed(descs[0]);
      assert forall i :: 0 <= i < |descs[1..]| ==> descs[1..][i] == descs[i + 1];
      FeedAll(Feed(p, descs[0], 0), descs[1..])
  }

  lemma FeedShift(p: Parse, before: seq<byte>, d: seq<byte>, rest: seq<byte>)
    requires Ready(p) && WellFormed(d)
    ensures Readable(p, d, 0) && Readable(p, before + d + rest, |before|)
    ensures Feed(p, before + d + rest, |before|) == Feed(p, d, 0)
  {
    var b, at := before + d + rest, |before|;
    assert forall k :: 0 <= k < |d| ==> b[at + k] == d[k];
    assert b[at] == d[0] && b[at + 1] == d[1];
  }

  /** On concatenated descriptors the byte loop visits them one by one and stays inside. */
  lemma {:induction false} LoopFeedsAll(before: seq<byte>, descs: seq<seq<byte>>, p: Parse)
    requires Ready(p) && AllWellFormed(descs)
    ensures ParseFrom(before + Flatten(descs), |before|, p) == Some(FeedAll(p, descs))
    decreases |descs|
  {
    if descs == [] {
      assert before + Flatten(descs) == before;
    } else {
      var d, rest := descs[0], Flatten(descs[1..]);
      assert WellFormed(d);
      var b := before + Flatten(descs);
      assert b == before + d + rest == (before + d) + rest;
      assert b[|before|] == d[0];
      FeedShift(p, before, d, rest);
      LoopFeedsAll(before + d, descs[1..], Feed(p, d, 0));
    }
  }

  lemma {:induction false} FeedConcat(p: Parse, a: seq<seq<byte>>, b: seq<seq<byte>>)
    requires Ready(p) && AllWellFormed(a) && AllWellFormed(b)
    ensures AllWellFormed(a + b) && FeedAll(p, a + b) == FeedAll(FeedAll(p, a), b)
    decreases |a|
  {
    if a == [] {
      assert a + b == b;
    } else {
      assert (a + b)[1..] == a[1..] + b;
      assert WellFormed(a[0]);
      FeedConcat(Feed(p, a[0], 0), a[1..], b);
    }
  }

  // ---------- what any descriptors leave, by their bytes ----------

  /** An interface descriptor, at least nine bytes long, with a number below 8. */
  predicate Opening(d: seq<byte>) { |d| >= 9 && d[1] == 4 && d[2] < 8 }

  /** The endpoint descriptors: type 5 and at least seven bytes long; audio endpoints have nine. */
  function EndpointsIn(descs: seq<seq<byte>>): (r: seq<seq<byte>>)
    ensures forall k :: 0 <= k < |r| ==> |r[k]| >= 7
  {
    if descs == [] then []
    else (if |descs[0]| >= 7 && descs[0][1] == 5 then [descs[0]] else []) + EndpointsIn(descs[1..])
  }

  predicate NoneOpens(descs: seq<seq<byte>>) { forall q :: 0 <= q < |descs| ==> !Opening(descs[q]) }

  /** No interface numbered n among them. */
  predicate NoneNumbered(descs: seq<seq<byte>>, n: nat) {
    forall q :: 0 <= q < |descs| && Opening(descs[q]) ==> descs[q][2] != n
  }

  predicate ShowsEndpoint(e: EndpointInfo, d: seq<byte>)
    requires |d| >= 7
  {
    && e.address == d[2] && e.attributes == d[3]
    && e.maxPacketSize == d[4] as int + 256 * d[5] as int && e.interval == d[6]
  }

  predicate ShowsInterface(i: InterfaceInfo, d: seq<byte>)
    requires |d| >= 9
  {
    && i.number == d[2] && i.alternate == d[3] && i.numEndpoints == d[4]
    && i.interfaceClass == d[5] && i.subClass == d[6] && i.protocol == d[7]
  }

  /** Apart from its endpoints, an entry is another. */
  predicate SameFields(a: InterfaceInfo, b: InterfaceInfo) { a.(endpoints := []) == b.(endpoints := []) }

  lemma OneFed(p: Parse, d: seq<byte>)
    requires Ready(p) && WellFormed(d)
    ensures var r := Feed(p, d, 0);
            && (Opening(d) ==>
                  && r.current == d[2] && r.endpoint == 0 && ShowsInterface(r.interfaces[d[2]], d)
                  && forall n :: 0 <= n < MAX_INTERFACES && n != d[2] ==> r.interfaces[n] == p.interfaces[n])
            && (!Opening(d) && !(|d| >= 7 && d[1] == 5) ==> r == p)
            && (|d| >= 7 && d[1] == 5 ==>
                  && r.current == p.current
                  && (!(p.current >= 0 && p.endpoint < 32) ==> r == p)
                  && (p.current >= 0 && p.endpoint < 32 ==>
                        && r.endpoint == p.endpoint + 1 && SameFields(r.interfaces[p.current], p.interfaces[p.current])
                        && ShowsEndpoint(r.interfaces[p.current].endpoints[p.endpoint], d)
                        && (forall k :: 0 <= k < 32 && k != p.endpoint ==>
                              r.interfaces[p.current].endpoints[k] == p.interfaces[p.current].endpoints[k])
                        && forall n :: 0 <= n < MAX_INTERFACES && n != p.current ==> r.interfaces[n] == p.interfaces[n]))
  {
  }

  /** Until the next interface opens, endpoints are filed one behind the other, at most 32 of them. */
  lemma {:induction false} FilledUp(p: Parse, descs: seq<seq<byte>>)
    requires Ready(p) && AllWellFormed(descs) && NoneOpens(descs) && p.current >= 0
    ensures var r, es := FeedAll(p, descs), EndpointsIn(descs);
            && r.current == p.current && r.endpoint == Min(p.endpoint + |es|, 32)
            && SameFields(r.interfaces[p.current], p.interfaces[p.current])
            && (forall k :: 0 <= k < p.endpoint ==>
                  r.interfaces[p.current].endpoints[k] == p.interfaces[p.current].endpoints[k])
            && forall k :: p.endpoint <= k < r.endpoint ==>
                 ShowsEndpoint(r.interfaces[p.current].endpoints[k], es[k - p.endpoint])
    decreases |descs|
  {
    if descs != [] {
      var d, rest := descs[0], descs[1..];
      assert WellFormed(d) && AllWellFormed(rest) && !Opening(d) && NoneOpens(rest);
      var next := Feed(p, d, 0);
      OneFed(p, d);
      assert FeedAll(p, descs) == FeedAll(next, rest);
      hide Feed, FeedAll, ShowsEndpoint, SameFields;
      FilledUp(next, rest);
      hide *;
    }
  }

  /** Entry n is left alone by descriptors of other interfaces. */
  lemma {:induction false} LeftAlone(p: Parse, descs: seq<seq<byte>>, n: nat)
    requires Ready(p) && AllWellFormed(descs) && NoneNumbered(descs, n) && n < MAX_INTERFACES
    requires p.current != n || descs == [] || Opening(descs[0])
    ensures FeedAll(p, descs).interfaces[n] == p.interfaces[n]
    decreases |descs|
  {
    if descs != [] {
      var d, rest := descs[0], descs[1..];
      assert WellFormed(d) && AllWellFormed(rest) && NoneNumbered(rest, n);
      OneFed(p, d);
      assert FeedAll(p, descs) == FeedAll(Feed(p, d, 0), rest);
      hide Feed, FeedAll;
      LeftAlone(Feed(p, d, 0), rest, n);
    }
  }

  /**
   * On any well-formed descriptors behind the header, printed or not: the loop stays inside, and the entry of
   * the last interface numbered n, at j, has that descriptor's fields and the first 32 of the endpoint
   * descriptors that follow it before the next interface, at m, read by position.
   */
  lemma DescriptorsGive(header: seq<byte>, descs: seq<seq<byte>>, interfaces: seq<InterfaceInfo>, j: nat, m: nat)
    requires |header| == 9 && Fits(interfaces) && AllWellFormed(descs) && j < m <= |descs| && Opening(descs[j])
    requires NoneOpens(descs[j + 1..m]) && (m < |descs| ==> Opening(descs[m])) && NoneNumbered(descs[m..], descs[j][2])
    ensures var r := ParseFrom(header + Flatten(descs), 9, Parse(interfaces, -1, 0));
            && r.Some?
            && var entry, es := r.value.interfaces[descs[j][2]], EndpointsIn(descs[j + 1..m]);
               && ShowsInterface(entry, descs[j]) && |entry.endpoints| == 32
               && forall k :: 0 <= k < |es| && k < 32 ==> ShowsEndpoint(entry.endpoints[k], es[k])
  {
    var p0 := Parse(interfaces, -1, 0);
    var a, d, b, c := descs[..j], descs[j], descs[j + 1..m], descs[m..];
    assert descs == a + ([d] + (b + c)) && WellFormed(d);
    LoopFeedsAll(header, descs, p0);
    hide ParseFrom, Flatten, FeedAll, Feed, WellFormed, Opening, NoneOpens, NoneNumbered, ShowsEndpoint, ShowsInterface;
    FedInParts(p0, a, d, b, c);
    EntryIs(FeedAll(p0, a), d, b, c);
  }

  lemma FedInParts(p: Parse, a: seq<seq<byte>>, d: seq<byte>, b: seq<seq<byte>>, c: seq<seq<byte>>)
    requires Ready(p) && AllWellFormed(a) && WellFormed(d) && AllWellFormed(b) && AllWellFormed(c)
    ensures AllWellFormed(a + ([d] + (b + c)))
    ensures FeedAll(p, a + ([d] + (b + c))) == FeedAll(FeedAll(Feed(FeedAll(p, a), d, 0), b), c)
  {
    var p1 := FeedAll(p, a);
    assert ([d] + (b + c))[1..] == b + c && AllWellFormed(b + c) && AllWellFormed([d] + (b + c));
    assert FeedAll(p1, [d] + (b + c)) == FeedAll(Feed(p1, d, 0), b + c);
    hide Feed, FeedAll;
    FeedConcat(p, a, [d] + (b + c));
    FeedConcat(Feed(p1, d, 0), b, c);
  }

  lemma EntryIs(p: Parse, d: seq<byte>, b: seq<seq<byte>>, c: seq<seq<byte>>)
    requires Ready(p) && WellFormed(d) && AllWellFormed(b) && AllWellFormed(c) && Opening(d)
    requires NoneOpens(b) && (c != [] ==> Opening(c[0])) && NoneNumbered(c, d[2])
    ensures var entry, es := FeedAll(FeedAll(Feed(p, d, 0), b), c).interfaces[d[2]], EndpointsIn(b);
            && ShowsInterface(entry, d) && |entry.endpoints| == 32
            && forall k :: 0 <= k < |es| && k < 32 ==> ShowsEndpoint(entry.endpoints[k], es[k])
  {
    hide Feed, FeedAll, ShowsEndpoint, ShowsInterface, NoneOpens, NoneNumbered, AllWellFormed, WellFormed, EndpointsIn;
    var p2 := Feed(p, d, 0);
    OneFed(p, d);
    FilledUp(p2, b);
    LeftAlone(FeedAll(p2, b), c, d[2]);
    hide SameFields;
    SameShows(FeedAll(p2, b).interfaces[d[2]], p2.interfaces[d[2]], d);
  }

  lemma SameShows(a: InterfaceInfo, b: InterfaceInfo, d: seq<byte>)
    requires SameFields(a, b) && |d| >= 9 && ShowsInterface(b, d)
    ensures ShowsInterface(a, d)
  {
  }

  /** And without an interface numbered n, entry n is as it was. */
  lemma AbsentLeavesEntry(header: seq<byte>, descs: seq<seq<byte>>, interfaces: seq<InterfaceInfo>, n: nat)
    requires |header| == 9 && Fits(interfaces) && AllWellFormed(descs) && NoneNumbered(descs, n) && n < 8
    ensures var r := ParseFrom(header + Flatten(descs), 9, Parse(interfaces, -1, 0));
            r.Some? && r.value.interfaces[n] == interfaces[n]
  {
    LoopFeedsAll(header, descs, Parse(interfaces, -1, 0));
    LeftAlone(Parse(interfaces, -1, 0), descs, n);
  }

  // ---------- what one interface of the tree leaves ----------

  function EndpointOf(e: UsbEndpoint): EndpointInfo {
    EndpointInfo(Low8(e.address), Low8(e.kind), e.maxPacketSize % 0x1_0000, Low8(e.interval))
  }

  lemma EndpointFeeds(p: Parse, e: UsbEndpoint)
    requires Ready(p)
    ensures WellFormed(EndpointDescriptor(e))
    ensures Feed(p, EndpointDescriptor(e), 0) == PutEndpoint(p, EndpointOf(e))
  {
    var d := EndpointDescriptor(e);
    assert d[4..6] == U16(e.maxPacketSize);
    Read16(d, 4, e.maxPacketSize);
  }

  function PutAll(p: Parse, es: seq<UsbEndpoint>): (r: Parse)
    requires Ready(p)
    ensures Ready(r)
  {
    if es == [] then p else PutEndpoint(PutAll(p, es[..|es| - 1]), EndpointOf(es[|es| - 1]))
  }

  lemma {:induction false} EndpointsFeed(p: Parse, es: seq<UsbEndpoint>)
    requires Ready(p)
    ensures AllWellFormed(EndpointList(es)) && FeedAll(p, EndpointList(es)) == PutAll(p, es)
  {
    if es != [] {
      var n := |es| - 1;
      EndpointsFeed(p, es[..n]);
      EndpointFeeds(PutAll(p, es[..n]), es[n]);
      var last := [EndpointDescriptor(es[n])];
      FeedConcat(p, EndpointList(es[..n]), last);
      assert last[1..] == [];
      assert FeedAll(PutAll(p, es[..n]), last) == Feed(PutAll(p, es[..n]), last[0], 0);
    }
  }

  /** The tree-level meaning of one interface: its own slot, or an extension of the current one. */
  function PutInterface(p: Parse, i: UsbInterface): (r: Parse)
    requires Ready(p)
    ensures Ready(r)
  {
    var n: nat := Low8(i.id);
    var start :=
      if n < MAX_INTERFACES then
        var info := InterfaceInfo(Low8(i.id), Low8(i.alternate), Low8(i.interfaceClass), Low8(i.subClass),
                                  Low8(i.protocol), Low8(|i.endpoints|), p.interfaces[n].endpoints);
        Parse(p.interfaces[n := info], n, 0)
      else p;
    PutAll(start, i.endpoints)
  }

  function PutTree(p: Parse, ifs: seq<UsbInterface>): (r: Parse)
    requires Ready(p)
    ensures Ready(r)
  {
    if ifs == [] then p else PutInterface(PutTree(p, ifs[..|ifs| - 1]), ifs[|ifs| - 1])
  }

  lemma InterfaceFeeds(p: Parse, i: UsbInterface)
    requires Ready(p)
    ensures AllWellFormed([InterfaceDescriptor(i)] + EndpointList(i.endpoints))
    ensures FeedAll(p, [InterfaceDescriptor(i)] + EndpointList(i.endpoints)) == PutInterface(p, i)
  {
    var block := [InterfaceDescriptor(i)] + EndpointList(i.endpoints);
    var start := Feed(p, InterfaceDescriptor(i), 0);
    EndpointsFeed(start, i.endpoints);
    assert block[1..] == EndpointList(i.endpoints);
    assert FeedAll(p, block) == FeedAll(start, EndpointList(i.endpoints));
  }

  lemma {:induction false} TreeFeeds(p: Parse, ifs: seq<UsbInterface>)
    requires Ready(p)
    ensures AllWellFormed(InterfaceList(ifs)) && FeedAll(p, InterfaceList(ifs)) == PutTree(p, ifs)
  {
    if ifs != [] {
      var n := |ifs| - 1;
      TreeFeeds(p, ifs[..n]);
      var block := [InterfaceDescriptor(ifs[n])] + EndpointList(ifs[n].endpoints);
      InterfaceFeeds(PutTree(p, ifs[..n]), ifs[n]);
      FeedConcat(p, InterfaceList(ifs[..n]), block);
    }
  }

  /** For every tree at all, parsing the printed bytes stays inside and computes the tree fold. */
  lemma ParsePrinted(d: UsbDevice, interfaces: seq<InterfaceInfo>)
    requires Fits(interfaces)
    ensures ParseFrom(Flatten(ConfigTree(d)), 9, Parse(interfaces, -1, 0))
            == Some(PutTree(Parse(interfaces, -1, 0), d.interfaces))
  {
    var header := ConfigTree(d)[0];
    assert ConfigTree(d)[1..] == InterfaceList(d.interfaces);
    TreeFeeds(Parse(interfaces, -1, 0), d.interfaces);
    LoopFeedsAll(header, InterfaceList(d.interfaces), Parse(interfaces, -1, 0));
  }

  // ---------- last interface wins ----------

  function NumberOf(i: UsbInterface): byte { Low8(i.id) }

  /** How many of an interface's endpoints the array can take. */
  function Kept(i: UsbInterface): nat { Min(|i.endpoints|, MAX_ENDPOINTS) }

  /** The entry holds the interface: its fields, its endpoint count and its endpoints in order. */
  predicate Holds(info: InterfaceInfo, i: UsbInterface) {
    && info.number == NumberOf(i) && info.alternate == Low8(i.alternate)
    && info.interfaceClass == Low8(i.interfaceClass) && info.subClass == Low8(i.subClass)
    && info.protocol == Low8(i.protocol) && info.numEndpoints == Low8(|i.endpoints|)
    && |info.endpoints| == MAX_ENDPOINTS
    && forall k :: 0 <= k < Kept(i) ==> info.endpoints[k] == EndpointOf(i.endpoints[k])
  }

  /** Endpoints go to the current entry from the current position on; everything else stays. */
  lemma {:induction false} PutAllFills(p: Parse, es: seq<UsbEndpoint>)
    requires Ready(p) && p.current >= 0
    ensures var r := PutAll(p, es);
            && r.current == p.current && r.endpoint == Min(p.endpoint + |es|, MAX_ENDPOINTS)
            && (forall n :: 0 <= n < MAX_INTERFACES && n != p.current ==> r.interfaces[n] == p.interfaces[n])
            && r.interfaces[p.current].(endpoints := []) == p.interfaces[p.current].(endpoints := [])
            && (forall k :: 0 <= k < p.endpoint ==>
                  r.interfaces[p.current].endpoints[k] == p.interfaces[p.current].endpoints[k])
            && forall k :: p.endpoint <= k < r.endpoint ==>
                 r.interfaces[p.current].endpoints[k] == EndpointOf(es[k - p.endpoint])
  {
    if es != [] {
      PutAllFills(p, es[..|es| - 1]);
    }
  }

  lemma {:induction false} PutAllNowhere(p: Parse, es: seq<UsbEndpoint>)
    requires Ready(p) && p.current < 0
    ensures PutAll(p, es) == p
  {
    if es != [] {
      PutAllNowhere(p, es[..|es| - 1]);
    }
  }

  lemma PutInterfaceHolds(p: Parse, i: UsbInterface)
    requires Ready(p) && NumberOf(i) < MAX_INTERFACES
    ensures var r, n := PutInterface(p, i), NumberOf(i) as nat;
            && Holds(r.interfaces[n], i) && r.current == n && r.endpoint == Kept(i)
            && forall m :: 0 <= m < MAX_INTERFACES && m != n ==> r.interfaces[m] == p.interfaces[m]
  {
    var n: nat := NumberOf(i);
    var info := InterfaceInfo(NumberOf(i), Low8(i.alternate), Low8(i.interfaceClass), Low8(i.subClass),
                              Low8(i.protocol), Low8(|i.endpoints|), p.interfaces[n].endpoints);
    PutAllFills(Parse(p.interfaces[n := info], n, 0), i.endpoints);
  }

  /** An interface numbered 8 or more is skipped, but its endpoints follow those of the current entry. */
  lemma StrayKeeps(p: Parse, stray: UsbInterface, i: UsbInterface, n: nat)
    requires Ready(p) && NumberOf(stray) >= MAX_INTERFACES && n < MAX_INTERFACES
    requires Holds(p.interfaces[n], i) && (p.current == n ==> p.endpoint >= Kept(i))
    ensures Holds(PutInterface(p, stray).interfaces[n], i)
  {
    if p.current >= 0 {
      PutAllFills(p, stray.endpoints);
    } else {
      PutAllNowhere(p, stray.endpoints);
    }
  }

  /** j is the last interface with number n. */
  predicate IsLast(ifs: seq<UsbInterface>, n: int, j: int) {
    0 <= j < |ifs| && NumberOf(ifs[j]) == n && forall k :: j < k < |ifs| ==> NumberOf(ifs[k]) != n
  }

  /** The cursor is past the endpoints of the last interface with the current number. */
  ghost predicate CursorOk(p: Parse, ifs: seq<UsbInterface>) {
    p.current >= 0 ==>
      && (exists j :: IsLast(ifs, p.current, j))
      && forall j :: IsLast(ifs, p.current, j) ==> p.endpoint >= Kept(ifs[j])
  }

  ghost predicate Leaves(before: InterfaceInfo, after: InterfaceInfo, ifs: seq<UsbInterface>, n: int) {
    && (forall j :: IsLast(ifs, n, j) ==> Holds(after, ifs[j]))
    && ((forall j :: 0 <= j < |ifs| ==> NumberOf(ifs[j]) != n) ==> after == before)
  }

  lemma LastOfPrefix(ifs: seq<UsbInterface>, n: int, j: int)
    requires |ifs| > 0
    ensures IsLast(ifs, n, j) && j < |ifs| - 1 ==> IsLast(ifs[..|ifs| - 1], n, j)
    ensures NumberOf(ifs[|ifs| - 1]) != n ==> (IsLast(ifs, n, j) <==> IsLast(ifs[..|ifs| - 1], n, j))
  {
  }

  lemma LastOwn(before: InterfaceInfo, ifs: seq<UsbInterface>, p: Parse, n: nat)
    requires n < MAX_INTERFACES && Ready(p) && |ifs| > 0
    requires NumberOf(ifs[|ifs| - 1]) < MAX_INTERFACES
    requires Leaves(before, p.interfaces[n], ifs[..|ifs| - 1], n)
    ensures var r := PutInterface(p, ifs[|ifs| - 1]);
            Leaves(before, r.interfaces[n], ifs, n) && CursorOk(r, ifs)
  {
    var m := |ifs| - 1;
    var r := PutInterface(p, ifs[m]);
    hide PutInterface, Holds, Ready;
    PutInterfaceHolds(p, ifs[m]);
    var own: int := NumberOf(ifs[m]);
    assert IsLast(ifs, own, m);
    assert forall j :: IsLast(ifs, own, j) ==> j == m;
    forall j | IsLast(ifs, n, j)
      ensures Holds(r.interfaces[n], ifs[j])
    {
      LastOfPrefix(ifs, n, j);
    }
    assert CursorOk(r, ifs);
    hide IsLast;
    if forall j :: 0 <= j < |ifs| ==> NumberOf(ifs[j]) != n {
      assert NumberOf(ifs[m]) != n;
    }
  }

  lemma LastStray(before: InterfaceInfo, ifs: seq<UsbInterface>, p: Parse, n: nat)
    requires n < MAX_INTERFACES && Ready(p) && |ifs| > 0
    requires NumberOf(ifs[|ifs| - 1]) >= MAX_INTERFACES
    requires Leaves(before, p.interfaces[n], ifs[..|ifs| - 1], n) && CursorOk(p, ifs[..|ifs| - 1])
    ensures Leaves(before, PutInterface(p, ifs[|ifs| - 1]).interfaces[n], ifs, n)
  {
    var m := |ifs| - 1;
    var init, i := ifs[..m], ifs[m];
    var r := PutInterface(p, i);
    forall j | IsLast(ifs, n, j)
      ensures Holds(r.interfaces[n], ifs[j])
    {
      LastOfPrefix(ifs, n, j);
      StrayKeeps(p, i, ifs[j], n);
    }
    if forall j :: 0 <= j < |ifs| ==> NumberOf(ifs[j]) != n {
      if p.current >= 0 {
        PutAllFills(p, i.endpoints);
      } else {
        PutAllNowhere(p, i.endpoints);
      }
    }
  }

  lemma StrayCursor(ifs: seq<UsbInterface>, p: Parse)
    requires Ready(p) && |ifs| > 0 && NumberOf(ifs[|ifs| - 1]) >= MAX_INTERFACES && CursorOk(p, ifs[..|ifs| - 1])
    ensures CursorOk(PutInterface(p, ifs[|ifs| - 1]), ifs)
  {
    var m := |ifs| - 1;
    if p.current >= 0 {
      PutAllFills(p, ifs[m].endpoints);
      var j :| IsLast(ifs[..m], p.current, j);
      LastOfPrefix(ifs, p.current, j);
      assert IsLast(ifs, p.current, j);
    } else {
      PutAllNowhere(p, ifs[m].endpoints);
    }
  }

  lemma {:induction false} LastWins(interfaces: seq<InterfaceInfo>, ifs: seq<UsbInterface>, n: nat)
    requires Fits(interfaces) && n < MAX_INTERFACES
    ensures var r := PutTree(Parse(interfaces, -1, 0), ifs);
            Leaves(interfaces[n], r.interfaces[n], ifs, n) && CursorOk(r, ifs)
  {
    if ifs != [] {
      hide Leaves, CursorOk, PutInterface;
      var m := |ifs| - 1;
      var p := PutTree(Parse(interfaces, -1, 0), ifs[..m]);
      LastWins(interfaces, ifs[..m], n);
      if NumberOf(ifs[m]) < MAX_INTERFACES {
        LastOwn(interfaces[n], ifs, p, n);
      } else {
        LastStray(interfaces[n], ifs, p, n);
        StrayCursor(ifs, p);
      }
    }
  }

  /**
   * Parsing inverts printing, for every device whose configuration fits in sixteen bits of length:
   * wTotalLength is the length, the loop stays inside, and entry n is left holding the last
   * interface numbered n, or what was there before when there is none.
   */
  lemma ParseInvertsPrint(d: UsbDevice, interfaces: seq<InterfaceInfo>)
    requires Fits(interfaces) && |Flatten(ConfigTree(d))| < 0x1_0000
    ensures var bytes := Flatten(ConfigTree(d));
            && |bytes| >= 9 && Get16(bytes[..9], 2) == |bytes|
            && var r := ParseFrom(bytes, 9, Parse(interfaces, -1, 0));
               && r.Some? && Fits(r.value.interfaces)
               && forall n :: 0 <= n < MAX_INTERFACES ==> Leaves(interfaces[n], r.value.interfaces[n], d.interfaces, n)
  {
    var bytes := Flatten(ConfigTree(d));
    ConfigTreeBytes(d);
    assert bytes[..9] == ConfigTree(d)[0];
    assert bytes[..9][2..4] == U16(|bytes|);
    Read16(bytes[..9], 2, |bytes|);
    ParsePrinted(d, interfaces);
    hide Leaves, CursorOk, PutTree, ParseFrom;
    forall n | 0 <= n < MAX_INTERFACES
      ensures Leaves(interfaces[n], PutTree(Parse(interfaces, -1, 0), d.interfaces).interfaces[n], d.interfaces, n)
    {
      LastWins(interfaces, d.interfaces, n);
    }
  }
}
