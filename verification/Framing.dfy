/**
 * Wire framing: the 16-byte header of protocol/vusb_protocol.h, the receive loop of ClientThread in
 * userspace/vusb_userspace.c over a byte stream, and the device-list reply with the client that
 * reads it in client/vusb_client.c.
 */
module Framing {
  import opened Collections
  import opened Wire
  import opened Userspace

  const MAGIC := 0x56555342
  const VERSION := 0x0100
  const CMD_DISCONNECT := 0x0002
  const CMD_DEVICE_ATTACH := 0x0010
  const CMD_DEVICE_LIST := 0x0012
  const MAX_PAYLOAD := MAX_PACKET - HEADER_SIZE

  datatype Header = Header(magic: nat, version: nat, command: nat, length: nat, sequence: nat)

  predicate HeaderFits(h: Header) {
    h.magic < WORD && h.version < 0x1_0000 && h.command < 0x1_0000 && h.length < WORD && h.sequence < WORD
  }

  /** VusbInitHeader */
  function InitHeader(command: nat, length: nat, sequence: nat): Header {
    Header(MAGIC, VERSION, command, length, sequence)
  }

  /** VusbValidateHeader */
  predicate ValidHeader(h: Header) {
    h.magic == MAGIC && h.version == VERSION
  }

  function EncodeHeader(h: Header): (b: seq<byte>)
    ensures |b| == HEADER_SIZE
  {
    U32(h.magic) + U16(h.version) + U16(h.command) + U32(h.length) + U32(h.sequence)
  }

  function DecodeHeader(b: seq<byte>): (h: Header)
    requires |b| >= HEADER_SIZE
    ensures HeaderFits(h)
  {
    Header(Get32(b, 0), Get16(b, 4), Get16(b, 6), Get32(b, 8), Get32(b, 12))
  }

  /** The header codec is the identity on every header, whatever follows. */
  lemma HeaderRoundTrip(h: Header, rest: seq<byte>)
    requires HeaderFits(h)
    ensures DecodeHeader(EncodeHeader(h) + rest) == h
  {
    hide U16, U32, Get16, Get32;
    var b := EncodeHeader(h) + rest;
    assert b[0..4] == U32(h.magic);
    assert b[4..6] == U16(h.version);
    assert b[6..8] == U16(h.command);
    assert b[8..12] == U32(h.length);
    assert b[12..16] == U32(h.sequence);
    Read32(b, 0, h.magic);
    Read16(b, 4, h.version);
    Read16(b, 6, h.command);
    Read32(b, 8, h.length);
    Read32(b, 12, h.sequence);
  }

  /** The header on the wire: "BSUV", 00 01, then command, length and sequence, least significant byte first. */
  lemma HeaderBytes(command: nat, length: nat, sequence: nat)
    requires command < 0x1_0000 && length < WORD && sequence < WORD
    ensures var b := EncodeHeader(InitHeader(command, length, sequence));
            && b[0] == 0x42 && b[1] == 0x53 && b[2] == 0x55 && b[3] == 0x56 && b[4] == 0x00 && b[5] == 0x01
            && b[6] == command % 256 && b[7] == command / 256
            && b[8] == length % 256 && b[9] == length / 256 % 256
            && b[10] == length / 0x1_0000 % 256 && b[11] == length / 0x100_0000
            && b[12] == sequence % 256 && b[13] == sequence / 256 % 256
            && b[14] == sequence / 0x1_0000 % 256 && b[15] == sequence / 0x100_0000
  {
    var b := EncodeHeader(InitHeader(command, length, sequence));
    HalfBytes(command);
    WordBytes(length);
    WordBytes(sequence);
    assert U32(MAGIC) == [0x42, 0x53, 0x55, 0x56] && U16(VERSION) == [0x00, 0x01];
    hide U16, U32;
    assert b[0..4] == U32(MAGIC) && b[4..6] == U16(VERSION) && b[6..8] == U16(command);
    assert b[8..12] == U32(length) && b[12..16] == U32(sequence);
    hide EncodeHeader;
    assert b[0] == b[0..4][0] && b[1] == b[0..4][1] && b[2] == b[0..4][2] && b[3] == b[0..4][3];
    assert b[4] == b[4..6][0] && b[5] == b[4..6][1] && b[6] == b[6..8][0] && b[7] == b[6..8][1];
    assert b[8] == b[8..12][0] && b[9] == b[8..12][1] && b[10] == b[8..12][2] && b[11] == b[8..12][3];
    assert b[12] == b[12..16][0] && b[13] == b[12..16][1] && b[14] == b[12..16][2] && b[15] == b[12..16][3];
  }

  lemma WordBytes(n: nat)
    requires n < WORD
    ensures U32(n) == [n % 256, n / 256 % 256, n / 0x1_0000 % 256, n / 0x100_0000]
  {
  }

  lemma HalfBytes(n: nat)
    requires n < 0x1_0000
    ensures U16(n) == [n % 256, n / 256]
  {
  }

  /** Which sixteen bytes are accepted, and what is read from them. */
  lemma AcceptedBytes(b: seq<byte>)
    requires |b| >= 16
    ensures ValidHeader(DecodeHeader(b)) <==>
            b[0] == 0x42 && b[1] == 0x53 && b[2] == 0x55 && b[3] == 0x56 && b[4] == 0x00 && b[5] == 0x01
    ensures DecodeHeader(b).command == b[6] as int + 256 * b[7] as int
    ensures DecodeHeader(b).length
            == b[8] as int + 256 * b[9] as int + 0x1_0000 * b[10] as int + 0x100_0000 * b[11] as int
    ensures DecodeHeader(b).sequence
            == b[12] as int + 256 * b[13] as int + 0x1_0000 * b[14] as int + 0x100_0000 * b[15] as int
  {
  }

  lemma DecodePrefix(b: seq<byte>)
    requires |b| >= HEADER_SIZE
    ensures DecodeHeader(b[..HEADER_SIZE]) == DecodeHeader(b)
  {
  }

  // ---------- the receive loop ----------

  datatype Frame = Frame(command: nat, sequence: nat, payload: seq<byte>)

  predicate GoodFrame(f: Frame) {
    f.command < 0x1_0000 && f.sequence < WORD && |f.payload| <= MAX_PAYLOAD
  }

  function EncodeFrame(f: Frame): seq<byte> {
    EncodeHeader(InitHeader(f.command, |f.payload|, f.sequence)) + f.payload
  }

  function EncodeAll(fs: seq<Frame>): seq<byte> {
    if fs == [] then [] else EncodeFrame(fs[0]) + EncodeAll(fs[1..])
  }

  datatype Stop = Closed | BadHeader | TooLarge | Disconnected | NotRunning

  datatype Received = Received(frames: seq<Frame>, stop: Stop)

  /** What the loop has processed when it stops, for a peer that sends these bytes and closes. */
  function Receive(stream: seq<byte>): Received
    decreases |stream|
  {
    if |stream| < HEADER_SIZE then Received([], Closed)
    else
      var h := DecodeHeader(stream);
      if !ValidHeader(h) then Received([], BadHeader)
      else if h.length > MAX_PAYLOAD then Received([], TooLarge)
      else if |stream| < HEADER_SIZE + h.length then Received([], Closed)
      else
        var f := Frame(h.command, h.sequence, stream[HEADER_SIZE..HEADER_SIZE + h.length]);
        Extended(f, Receive(stream[HEADER_SIZE + h.length..]))
  }

  /** A frame and what is received behind it: nothing, after a DISCONNECT. */
  function Extended(f: Frame, r: Received): Received {
    if f.command == CMD_DISCONNECT then Received([f], Disconnected) else Received([f] + r.frames, r.stop)
  }

  /** How often the loop test is passed until the loop stops of itself. */
  function Turns(r: Received): nat { |r.frames| + if r.stop == Disconnected then 0 else 1 }

  /** What is left of it when the server's Running flag is seen set only so many times. */
  function WhileRunning(r: Received, turns: nat): Received {
    if turns >= Turns(r) then r else Received(r.frames[..Min(turns, |r.frames|)], NotRunning)
  }

  /** Stopped early means cut to that many frames; all are processed exactly when there are turns enough to meet the end. */
  lemma RunningFor(r: Received, turns: nat)
    requires r.stop != NotRunning
    ensures var w := WhileRunning(r, turns);
            && (w == r <==> turns > |r.frames| || (turns == |r.frames| && r.stop == Disconnected))
            && (w != r ==> turns <= |r.frames| && w == Received(r.frames[..turns], NotRunning))
  {
  }

  /** One turn of the loop: recv the header, validate it, recv the payload; None when the thread gives up. */
  method ReceiveFrame(stream: seq<byte>, at: nat) returns (f: Option<Frame>, stop: Stop, next: nat)
    requires at <= |stream|
    ensures f.None? ==> Receive(stream[at..]) == Received([], stop) && stop != Disconnected
    ensures f.Some? ==> at < next <= |stream|
    ensures f.Some? ==> Receive(stream[at..]) == Extended(f.value, Receive(stream[next..]))
  {
    hide DecodeHeader, ValidHeader;
    ghost var rest := stream[at..];
    f, stop, next := None, Closed, at;
    if |stream| - at < HEADER_SIZE {
      return;
    }
    var header := DecodeHeader(stream[at..at + HEADER_SIZE]);
    DecodePrefix(rest);
    assert stream[at..at + HEADER_SIZE] == rest[..HEADER_SIZE];
    if !ValidHeader(header) {
      stop := BadHeader;
      return;
    }
    if header.length > 0 {
      if header.length > MAX_PACKET - HEADER_SIZE {
        stop := TooLarge;
        return;
      }
      if |stream| - at - HEADER_SIZE < header.length {
        return;
      }
    }
    next := at + HEADER_SIZE + header.length;
    f := Some(Frame(header.command, header.sequence, stream[at + HEADER_SIZE..next]));
    assert f.value.payload == rest[HEADER_SIZE..HEADER_SIZE + header.length];
    assert stream[next..] == rest[HEADER_SIZE + header.length..];
  }

  /**
   * ClientThread: process frame after frame until Connected is cleared or the server stops running; the
   * loop test sees it running `turns` times.
   */
  method ClientThread(stream: seq<byte>, turns: nat) returns (frames: seq<Frame>, stop: Stop)
    ensures Received(frames, stop) == WhileRunning(Receive(stream), turns)
  {
    hide Receive, WhileRunning;
    frames, stop := [], NotRunning;
    var at, connected := 0, true;
    assert stream[0..] == stream;
    while connected && |frames| < turns
      invariant at <= |stream| && |frames| <= turns
      invariant connected ==> stop == NotRunning
      invariant connected ==>
        Receive(stream) == Received(frames + Receive(stream[at..]).frames, Receive(stream[at..]).stop)
      invariant !connected ==> Receive(stream) == Received(frames, stop) && stop == Disconnected
      decreases connected, |stream| - at
    {
      var f, why, next := ReceiveFrame(stream, at);
      if f.None? {
        assert frames + [] == frames;
        RanToItsEnd(Receive(stream), turns);
        return frames, why;
      }
      frames := frames + [f.value];
      if f.value.command == CMD_DISCONNECT {
        connected, stop := false, Disconnected;
      }
      at := next;
    }
    if connected {
      CutOff(frames, stream[at..], turns);
    } else {
      RanToItsEnd(Receive(stream), turns);
    }
  }

  lemma RanToItsEnd(r: Received, turns: nat)
    requires |r.frames| < turns || (|r.frames| == turns && r.stop == Disconnected)
    ensures WhileRunning(r, turns) == r
  {
  }

  lemma CutOff(frames: seq<Frame>, rest: seq<byte>, turns: nat)
    requires |frames| == turns
    ensures WhileRunning(Received(frames + Receive(rest).frames, Receive(rest).stop), turns)
            == Received(frames, NotRunning)
  {
    assert Receive(rest).stop == Disconnected ==> Receive(rest).frames != [];
    assert (frames + Receive(rest).frames)[..turns] == frames;
  }

  lemma FirstFrame(f: Frame, rest: seq<byte>)
    requires GoodFrame(f)
    ensures Receive(EncodeFrame(f) + rest) ==
            if f.command == CMD_DISCONNECT then Received([f], Disconnected)
            else Received([f] + Receive(rest).frames, Receive(rest).stop)
  {
    var h := InitHeader(f.command, |f.payload|, f.sequence);
    var stream := EncodeFrame(f) + rest;
    assert stream == EncodeHeader(h) + (f.payload + rest);
    HeaderRoundTrip(h, f.payload + rest);
    assert stream[HEADER_SIZE..HEADER_SIZE + |f.payload|] == f.payload;
    assert stream[HEADER_SIZE + |f.payload|..] == rest;
  }

  predicate NoDisconnect(fs: seq<Frame>) {
    forall i :: 0 <= i < |fs| ==> fs[i].command != CMD_DISCONNECT
  }

  predicate AllGood(fs: seq<Frame>) {
    forall i :: 0 <= i < |fs| ==> GoodFrame(fs[i])
  }

  /** Frames come out as they went in, and then the loop continues with what follows them. */
  lemma {:induction false} ReceiveAll(fs: seq<Frame>, rest: seq<byte>)
    requires AllGood(fs) && NoDisconnect(fs)
    ensures Receive(EncodeAll(fs) + rest) == Received(fs + Receive(rest).frames, Receive(rest).stop)
    decreases |fs|
  {
    hide Receive, EncodeFrame, GoodFrame;
    if fs == [] {
      assert EncodeAll(fs) + rest == rest;
    } else {
      var tail := EncodeAll(fs[1..]) + rest;
      assert EncodeAll(fs) + rest == EncodeFrame(fs[0]) + tail;
      FirstFrame(fs[0], tail);
      ReceiveAll(fs[1..], rest);
    }
  }

  /** On a bad header, exactly the frames before it have been processed. */
  lemma BadHeaderStops(fs: seq<Frame>, bad: seq<byte>)
    requires AllGood(fs) && NoDisconnect(fs) && |bad| >= HEADER_SIZE && !ValidHeader(DecodeHeader(bad))
    ensures Receive(EncodeAll(fs) + bad) == Received(fs, BadHeader)
  {
    ReceiveAll(fs, bad);
  }

  /** The bytes that open a frame: magic and version. */
  predicate Opens(b: seq<byte>) { b[..Min(6, |b|)] == [0x42, 0x53, 0x55, 0x56, 0x00, 0x01] }

  /** The length that a header announces. */
  function Announced(b: seq<byte>): nat
    requires |b| >= 12
  {
    b[8] as int + 256 * b[9] as int + 0x1_0000 * b[10] as int + 0x100_0000 * b[11] as int
  }

  /**
   * Why the loop stops behind good frames, read off the bytes there: wrong magic or version; a length above
   * 65520; or the peer closed before sixteen bytes, or before the payload was complete.
   */
  lemma StopsFor(fs: seq<Frame>, b: seq<byte>)
    requires AllGood(fs) && NoDisconnect(fs)
    ensures var r := Receive(EncodeAll(fs) + b);
            && (|b| < 16 ==> r == Received(fs, Closed))
            && (|b| >= 16 && !Opens(b) ==> r == Received(fs, BadHeader))
            && (|b| >= 16 && Opens(b) && Announced(b) > 65520 ==> r == Received(fs, TooLarge))
            && (|b| >= 16 && Opens(b) && |b| < 16 + Announced(b) <= 16 + 65520 ==> r == Received(fs, Closed))
            && (|b| >= 16 && Opens(b) && Announced(b) <= 65520 && 16 + Announced(b) <= |b| ==>
                  |r.frames| > |fs| && r.frames[..|fs|] == fs
                  && r.frames[|fs|] == Frame(b[6] as int + 256 * b[7] as int,
                                             b[12] as int + 256 * b[13] as int
                                             + 0x1_0000 * b[14] as int + 0x100_0000 * b[15] as int,
                                             b[16..16 + Announced(b)]))
  {
    hide *;
    ReceiveAll(fs, b);
    FirstTurn(b);
    Behind(fs, Receive(b));
  }

  lemma Behind(fs: seq<Frame>, r: Received)
    ensures r.frames == [] ==> fs + r.frames == fs
    ensures r.frames != [] ==>
              |fs + r.frames| > |fs| && (fs + r.frames)[..|fs|] == fs && (fs + r.frames)[|fs|] == r.frames[0]
  {
  }

  lemma FirstTurn(b: seq<byte>)
    ensures var r := Receive(b);
            && (|b| < 16 ==> r == Received([], Closed))
            && (|b| >= 16 && !Opens(b) ==> r == Received([], BadHeader))
            && (|b| >= 16 && Opens(b) && Announced(b) > 65520 ==> r == Received([], TooLarge))
            && (|b| >= 16 && Opens(b) && |b| < 16 + Announced(b) <= 16 + 65520 ==> r == Received([], Closed))
            && (|b| >= 16 && Opens(b) && Announced(b) <= 65520 && 16 + Announced(b) <= |b| ==>
                  |r.frames| > 0
                  && r.frames[0] == Frame(b[6] as int + 256 * b[7] as int,
                                          b[12] as int + 256 * b[13] as int
                                          + 0x1_0000 * b[14] as int + 0x100_0000 * b[15] as int,
                                          b[16..16 + Announced(b)]))
  {
    if |b| >= 16 {
      AcceptedBytes(b);
      OpensIff(b);
    }
    hide DecodeHeader, ValidHeader, Opens;
  }

  lemma OpensIff(b: seq<byte>)
    requires |b| >= 16
    ensures Opens(b) <==> b[0] == 0x42 && b[1] == 0x53 && b[2] == 0x55 && b[3] == 0x56 && b[4] == 0x00 && b[5] == 0x01
  {
    if b[0] == 0x42 && b[1] == 0x53 && b[2] == 0x55 && b[3] == 0x56 && b[4] == 0x00 && b[5] == 0x01 {
      assert b[..6] == [0x42, 0x53, 0x55, 0x56, 0x00, 0x01];
    }
    assert b[..6][0] == b[0] && b[..6][1] == b[1] && b[..6][2] == b[2] && b[..6][3] == b[3];
    assert b[..6][4] == b[4] && b[..6][5] == b[5];
  }

  /** After a DISCONNECT frame nothing more is read, whatever bytes follow. */
  lemma DisconnectStops(fs: seq<Frame>, last: Frame, rest: seq<byte>)
    requires AllGood(fs) && NoDisconnect(fs) && GoodFrame(last) && last.command == CMD_DISCONNECT
    ensures Receive(EncodeAll(fs) + (EncodeFrame(last) + rest)) == Received(fs + [last], Disconnected)
  {
    ReceiveAll(fs, EncodeFrame(last) + rest);
    FirstFrame(last, rest);
  }

  lemma {:induction false} EncodeConcat(a: seq<Frame>, b: seq<Frame>)
    ensures EncodeAll(a + b) == EncodeAll(a) + EncodeAll(b)
  {
    if a == [] {
      assert a + b == b;
    } else {
      EncodeStep(a[0], a[1..]);
      EncodeStep(a[0], a[1..] + b);
      hide EncodeAll, EncodeFrame;
      assert a == [a[0]] + a[1..];
      Associative([a[0]], a[1..], b);
      EncodeConcat(a[1..], b);
      Associative(EncodeFrame(a[0]), EncodeAll(a[1..]), EncodeAll(b));
    }
  }

  lemma EncodeStep(f: Frame, fs: seq<Frame>)
    ensures EncodeAll([f] + fs) == EncodeFrame(f) + EncodeAll(fs)
  {
    assert ([f] + fs)[1..] == fs;
  }

  lemma {:induction false} UpToDisconnect(fs: seq<Frame>, k: nat)
    requires AllGood(fs) && k < |fs| && fs[k].command == CMD_DISCONNECT && NoDisconnect(fs[..k])
    ensures Receive(EncodeAll(fs)) == Received(fs[..k + 1], Disconnected)
  {
    hide Receive, EncodeFrame, GoodFrame;
    var before, rest := fs[..k], EncodeAll(fs[k + 1..]);
    assert fs == before + fs[k..];
    EncodeConcat(before, fs[k..]);
    assert fs[k..][1..] == fs[k + 1..];
    DisconnectStops(before, fs[k], rest);
    assert before + [fs[k]] == fs[..k + 1];
  }

  /**
   * The loop yields exactly the list that was sent if and only if no DISCONNECT comes before the
   * last frame.
   */
  lemma {:induction false} ReceivesExactlyIff(fs: seq<Frame>)
    requires AllGood(fs)
    ensures Receive(EncodeAll(fs)).frames == fs <==> fs == [] || NoDisconnect(fs[..|fs| - 1])
  {
    hide Receive, GoodFrame, EncodeAll, AllGood;
    var k := FirstIndex(fs, (f: Frame) => f.command == CMD_DISCONNECT);
    if k == |fs| {
      QuietListArrives(fs);
    } else {
      UpToDisconnect(fs, k);
      assert |fs[..k + 1]| == k + 1;
      assert k == |fs| - 1 ==> fs[..k + 1] == fs;
      assert k < |fs| - 1 ==> fs[..|fs| - 1][k].command == CMD_DISCONNECT;
    }
  }

  lemma QuietListArrives(fs: seq<Frame>)
    requires AllGood(fs) && NoDisconnect(fs)
    ensures Receive(EncodeAll(fs)) == Received(fs, Closed)
  {
    hide GoodFrame, EncodeAll, AllGood, NoDisconnect;
    ReceiveAll(fs, []);
    assert EncodeAll(fs) + [] == EncodeAll(fs);
    NothingToReceive();
    assert fs + [] == fs;
  }

  lemma NothingToReceive()
    ensures Receive([]) == Received([], Closed)
  {
  }

  // ---------- the device list ----------

  function ActiveInfos(devs: seq<Device>): seq<DeviceInfo> {
    if devs == [] then []
    else
      ActiveInfos(devs[..|devs| - 1])
      + (if devs[|devs| - 1].active then [devs[|devs| - 1].info] else [])
  }

  predicate AllFit(infos: seq<DeviceInfo>) {
    forall i :: 0 <= i < |infos| ==> InfoFits(infos[i])
  }

  function EncodeInfos(infos: seq<DeviceInfo>): (r: seq<byte>)
    requires AllFit(infos)
    ensures |r| == INFO_SIZE * |infos|
  {
    if infos == [] then [] else EncodeInfos(infos[..|infos| - 1]) + EncodeInfo(infos[|infos| - 1])
  }

  /** The reply as a frame: status, count, then the records. */
  function ListFrame(infos: seq<DeviceInfo>, sequence: nat): Frame
    requires AllFit(infos)
  {
    Frame(CMD_DEVICE_LIST, sequence, U32(0) + U32(|infos|) + EncodeInfos(infos))
  }

  /** Record k of the list belongs to the active slot behind exactly k others. */
  lemma {:induction false} ListedInOrder(devs: seq<Device>, i: nat)
    requires i < |devs| && devs[i].active
    ensures var k := |ActiveInfos(devs[..i])|;
            k < |ActiveInfos(devs)| && ActiveInfos(devs)[k] == devs[i].info
    decreases |devs| - i
  {
    InfosGrow(devs, i);
    assert ActiveInfos(devs[..i + 1])[|ActiveInfos(devs[..i])|] == devs[i].info;
  }

  /** The list has one record for each active slot. */
  lemma {:induction false} OnePerActive(devs: seq<Device>)
    ensures |ActiveInfos(devs)| == Sum(devs, (d: Device) => if d.active then 1 else 0)
  {
    if devs != [] {
      var n := |devs| - 1;
      OnePerActive(devs[..n]);
      SumAppend(devs[..n], devs[n], (d: Device) => if d.active then 1 else 0);
      assert devs == devs[..n] + [devs[n]];
    }
  }

  lemma {:induction false} ActiveInfosBound(devs: seq<Device>)
    ensures |ActiveInfos(devs)| <= |devs|
  {
    if devs != [] {
      ActiveInfosBound(devs[..|devs| - 1]);
    }
  }

  lemma {:induction false} InfosGrow(devs: seq<Device>, i: nat)
    requires i < |devs|
    ensures ActiveInfos(devs[..i + 1]) ==
            ActiveInfos(devs[..i]) + (if devs[i].active then [devs[i].info] else [])
    ensures ActiveInfos(devs[..i + 1]) <= ActiveInfos(devs)
    decreases |devs| - i
  {
    assert devs[..i + 1][..i] == devs[..i];
    if i + 1 < |devs| {
      InfosGrow(devs, i + 1);
    } else {
      assert devs[..i + 1] == devs;
    }
  }

  /** How many whole records follow the 24-byte response, of those it announces. */
  function WholeRecords(stream: seq<byte>): nat
    requires |stream| >= 24
  {
    Min(Get32(stream, 20), (|stream| - 24) / INFO_SIZE)
  }

  /**
   * VusbClientListDevices: a 24-byte response, then DeviceCount reads of one record each; a read that meets
   * the end of the stream takes what is left and shows nothing, and the loop goes on.
   */
  method ClientListDevices(stream: seq<byte>) returns (ok: bool, infos: seq<DeviceInfo>, at: nat)
    ensures ok <==> |stream| >= 24
    ensures ok ==> at == Min(24 + INFO_SIZE * Get32(stream, 20), |stream|) && |infos| == WholeRecords(stream)
    ensures ok ==> forall k :: 0 <= k < |infos| ==> infos[k] == DecodeInfo(stream[24 + INFO_SIZE * k..])
  {
    infos, at := [], 0;
    if |stream| < 24 {
      return false, [], |stream|;
    }
    var count := Get32(stream, 20);
    at := 24;
    var i := 0;
    while i < count
      invariant i <= count && |infos| == Min(i, (|stream| - 24) / INFO_SIZE)
      invariant at == Min(24 + INFO_SIZE * i, |stream|)
      invariant forall k :: 0 <= k < |infos| ==> infos[k] == DecodeInfo(stream[24 + INFO_SIZE * k..])
    {
      if |stream| - at >= INFO_SIZE {
        infos := infos + [DecodeInfo(stream[at..])];
        at := at + INFO_SIZE;
      } else {
        at := |stream|;
      }
      i := i + 1;
    }
    ok := true;
  }

  lemma {:induction false} InfoBlock(infos: seq<DeviceInfo>, before: seq<byte>, rest: seq<byte>, k: nat)
    requires AllFit(infos) && k < |infos|
    ensures |before| + INFO_SIZE * k + INFO_SIZE <= |before + EncodeInfos(infos) + rest|
    ensures DecodeInfo((before + EncodeInfos(infos) + rest)[|before| + INFO_SIZE * k..]) == infos[k]
    decreases |infos|
  {
    var n := |infos| - 1;
    var init, last := infos[..n], EncodeInfo(infos[n]);
    assert EncodeInfos(infos) == EncodeInfos(init) + last;
    hide EncodeInfos, EncodeInfo, DecodeInfo;
    Associative(before, EncodeInfos(init), last);
    Associative(before + EncodeInfos(init), last, rest);
    if k == n {
      var front := before + EncodeInfos(init);
      assert (front + (last + rest))[|front|..] == last + rest;
      DecodeEncodeInfo(infos[n], rest);
    } else {
      InfoBlock(init, before, last + rest, k);
    }
  }

  /** The head of the reply: a DEVICE_LIST header with the request's sequence number, then status SUCCESS and the count. */
  lemma ListHead(infos: seq<DeviceInfo>, sequence: nat, rest: seq<byte>)
    requires AllFit(infos) && |infos| <= 16 && sequence < WORD
    ensures var stream := EncodeFrame(ListFrame(infos, sequence)) + rest;
            && |stream| >= 24 && DecodeHeader(stream) == Header(0x56555342, 0x0100, 0x0012, 8 + 208 * |infos|, sequence)
            && Get32(stream, 16) == 0 && Get32(stream, 20) == |infos|
  {
    hide EncodeInfos, EncodeHeader, DecodeHeader, Get32, U32, AllFit;
    var f := ListFrame(infos, sequence);
    var h := InitHeader(CMD_DEVICE_LIST, |f.payload|, sequence);
    var stream := EncodeFrame(f) + rest;
    assert stream == EncodeHeader(h) + (f.payload + rest);
    HeaderRoundTrip(h, f.payload + rest);
    assert stream[16..20] == U32(0) && stream[20..24] == U32(|infos|);
    Read32(stream, 16, 0);
    Read32(stream, 20, |infos|);
  }

  /** Reading 24 + 208 * DeviceCount bytes of a reply ends on the next frame boundary with the server's list. */
  lemma ListRoundTrip(infos: seq<DeviceInfo>, sequence: nat, rest: seq<byte>)
    requires AllFit(infos) && |infos| < WORD
    ensures var stream := EncodeFrame(ListFrame(infos, sequence)) + rest;
            && |stream| >= 24 && Get32(stream, 20) == |infos| == WholeRecords(stream)
            && |EncodeFrame(ListFrame(infos, sequence))| == 24 + INFO_SIZE * |infos|
            && stream[24 + INFO_SIZE * |infos|..] == rest
            && forall k :: 0 <= k < |infos| ==> DecodeInfo(stream[24 + INFO_SIZE * k..]) == infos[k]
  {
    hide EncodeInfo, DecodeInfo, EncodeInfos, EncodeHeader, Get32, U32;
    var f := ListFrame(infos, sequence);
    var before := EncodeHeader(InitHeader(CMD_DEVICE_LIST, |f.payload|, sequence)) + U32(0) + U32(|infos|);
    var stream := EncodeFrame(f) + rest;
    assert stream == before + EncodeInfos(infos) + rest;
    assert stream[20..24] == U32(|infos|);
    Read32(stream, 20, |infos|);
    forall k | 0 <= k < |infos|
      ensures DecodeInfo(stream[24 + INFO_SIZE * k..]) == infos[k]
    {
      InfoBlock(infos, before, rest, k);
    }
  }
}
