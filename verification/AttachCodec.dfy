/**
 * The DEVICE_ATTACH payload: written by VusbProtocol.kt through a ByteBuffer cursor, by
 * VusbProtocol.swift and VusbNetworkClient.swift by appending, read by C through pointer casts and
 * by VusbProtocol.swift with an advancing offset. Strings are their UTF-8 bytes.
 */
module AttachCodec {
  import opened Collections
  import opened Wire

  /** DeviceInfo of VusbProtocol.kt and VusbDeviceInfo of VusbProtocol.swift. */
  datatype ClientInfo = ClientInfo(
    id: int, vendorId: int, productId: int,
    deviceClass: byte, subClass: byte, protocol: byte, speed: byte,
    numConfigurations: byte, numInterfaces: byte,
    manufacturer: seq<byte>, product: seq<byte>, serial: seq<byte>,
    deviceDescriptor: seq<byte>, configDescriptor: seq<byte>)

  /** A string in its 64-byte field: at most 63 bytes of it, the rest zero. */
  function Field(s: seq<byte>): (r: seq<byte>)
    ensures |r| == 64 && r[63] == 0
  {
    var n := Min(|s|, 63);
    s[..n] + seq(64 - n, _ => 0)
  }

  /** The C structure that a client's record stands for. */
  function CInfo(i: ClientInfo): (r: DeviceInfo)
    ensures InfoFits(r)
  {
    DeviceInfo(i.id % WORD, i.vendorId % 0x1_0000, i.productId % 0x1_0000,
               i.deviceClass, i.subClass, i.protocol, i.speed, i.numConfigurations, i.numInterfaces, [0, 0],
               Field(i.manufacturer), Field(i.product), Field(i.serial))
  }

  function Descriptors(i: ClientInfo): seq<byte> { i.deviceDescriptor + i.configDescriptor }

  /** VUSB_DEVICE_ATTACH_REQUEST after its header, as vusb_protocol.h lays it out. */
  function Payload(i: ClientInfo): (r: seq<byte>)
    ensures |r| == INFO_SIZE + 4 + |Descriptors(i)|
  {
    EncodeInfo(CInfo(i)) + U32(|Descriptors(i)|) + Descriptors(i)
  }

  lemma LowBits(n: int)
    ensures U32(n % WORD) == U32(n) && U16(n % 0x1_0000) == U16(n)
  {
    hide U16, U32;
    LowWord(n);
    LowHalf(n);
  }

  lemma LowWord(n: int)
    ensures U32(n % WORD) == U32(n)
  {
    var m, q := n % WORD, n / WORD;
    hide Low8;
    Shifts(m, 0x100_0000 * q, 0x1_0000 * q, 256 * q);
    Multiple(m, 0x100_0000 * q);
    Multiple(m / 256, 0x1_0000 * q);
    Multiple(m / 0x1_0000, 256 * q);
    Multiple(m / 0x100_0000, q);
  }

  lemma LowHalf(n: int)
    ensures U16(n % 0x1_0000) == U16(n)
  {
    var h, k := n % 0x1_0000, n / 0x1_0000;
    hide Low8;
    Shifts(h, 256 * k, 0, 0);
    Multiple(h, 256 * k);
    Multiple(h / 256, k);
  }

  lemma Shifts(m: int, x: int, y: int, z: int)
    ensures (m + 256 * x) / 256 == m / 256 + x
    ensures (m + 0x1_0000 * y) / 0x1_0000 == m / 0x1_0000 + y
    ensures (m + 0x100_0000 * z) / 0x100_0000 == m / 0x100_0000 + z
  {
  }

  lemma Multiple(a: int, q: int)
    ensures Low8(a + 256 * q) == Low8(a)
  {
  }

  // ---------- Kotlin ----------

  /** java.nio.ByteBuffer in little-endian order: an array and a cursor. */
  class ByteBuffer {
    const data: array<byte>
    var position: nat

    ghost predicate Valid()
      reads this
    {
      position <= data.Length
    }

    ghost function Written(): seq<byte>
      requires Valid()
      reads this, data
    {
      data[..position]
    }

    constructor (capacity: nat)
      ensures Valid() && fresh(data) && data.Length == capacity && Written() == []
    {
      data := new byte[capacity](_ => 0);
      position := 0;
    }

    method Put(bytes: seq<byte>)
      requires Valid() && position + |bytes| <= data.Length
      modifies this, data
      ensures Valid() && Written() == old(Written()) + bytes
    {
      var at := position;
      forall i | 0 <= i < |bytes| {
        data[at + i] := bytes[i];
      }
      position := at + |bytes|;
      assert data[..position] == data[..at] + data[at..position];
    }
  }

  /** fixedString: a zeroed array with the leading bytes copied in. */
  method FixedString(s: seq<byte>) returns (r: seq<byte>)
    ensures r == Field(s)
  {
    var result := new byte[64](_ => 0);
    var copyLen := Min(|s|, 63);
    var i := 0;
    while i < copyLen
      invariant i <= copyLen && result[..i] == s[..i]
      invariant forall k :: i <= k < 64 ==> result[k] == 0
    {
      result[i] := s[i];
      i := i + 1;
    }
    assert result[..] == result[..i] + result[i..];
    r := result[..];
  }

  /** The 208 info bytes of DeviceInfo.toByteArray. */
  method PutInfo(buffer: ByteBuffer, i: ClientInfo)
    requires buffer.Valid() && buffer.position + INFO_SIZE <= buffer.data.Length
    modifies buffer, buffer.data
    ensures buffer.Valid() && buffer.Written() == old(buffer.Written()) + EncodeInfo(CInfo(i))
  {
    LowBits(i.id);
    LowBits(i.vendorId);
    LowBits(i.productId);
    buffer.Put(U32(i.id));
    buffer.Put(U16(i.vendorId) + U16(i.productId));
    buffer.Put([i.deviceClass, i.subClass, i.protocol, i.speed] + [i.numConfigurations, i.numInterfaces]);
    buffer.Put([0, 0]);
    var manufacturer := FixedString(i.manufacturer);
    var product := FixedString(i.product);
    var serial := FixedString(i.serial);
    buffer.Put(manufacturer);
    buffer.Put(product);
    buffer.Put(serial);
    InfoPieces(CInfo(i), i, old(buffer.Written()));
    assert buffer.Written() == old(buffer.Written()) + EncodeInfo(CInfo(i));
  }

  lemma InfoPieces(c: DeviceInfo, i: ClientInfo, before: seq<byte>)
    requires c == CInfo(i)
    ensures before + EncodeInfo(c)
            == before + U32(i.id) + (U16(i.vendorId) + U16(i.productId))
               + ([i.deviceClass, i.subClass, i.protocol, i.speed] + [i.numConfigurations, i.numInterfaces])
               + [0, 0] + Field(i.manufacturer) + Field(i.product) + Field(i.serial)
  {
    LowBits(i.id);
    LowBits(i.vendorId);
    LowBits(i.productId);
    assert [i.deviceClass, i.subClass, i.protocol, i.speed] + [i.numConfigurations, i.numInterfaces]
        == [i.deviceClass, i.subClass, i.protocol, i.speed, i.numConfigurations, i.numInterfaces];
  }

  /** DeviceInfo.toByteArray */
  method KotlinToByteArray(i: ClientInfo) returns (payload: seq<byte>)
    ensures payload == Payload(i)
  {
    hide EncodeInfo, CInfo, U32;
    var descriptors := i.deviceDescriptor + i.configDescriptor;
    var buffer := new ByteBuffer(208 + 4 + |descriptors|);
    PutInfo(buffer, i);
    buffer.Put(U32(|descriptors|));
    buffer.Put(descriptors);
    payload := buffer.data[..];
    assert payload == buffer.Written();
  }

  // ---------- Swift ----------

  /** The Swift types: a 32-bit id, 16-bit vendor and product, an enumerated speed. */
  predicate SwiftTyped(i: ClientInfo) {
    && -0x8000_0000 <= i.id < 0x8000_0000 && 0 <= i.vendorId < 0x1_0000 && 0 <= i.productId < 0x1_0000
    && i.speed <= 5
  }

  /** VusbDeviceInfo.toData */
  method SwiftToData(i: ClientInfo) returns (data: seq<byte>)
    requires SwiftTyped(i)
    ensures data == EncodeInfo(CInfo(i))
  {
    var manufacturer := FixedString(i.manufacturer);
    var product := FixedString(i.product);
    var serial := FixedString(i.serial);
    data := [];
    data := data + U32(i.id);
    data := data + (U16(i.vendorId) + U16(i.productId));
    data := data + ([i.deviceClass, i.subClass, i.protocol, i.speed] + [i.numConfigurations, i.numInterfaces]);
    data := data + [0, 0];
    data := data + manufacturer + product + serial;
    InfoPieces(CInfo(i), i, []);
    assert [] + EncodeInfo(CInfo(i)) == EncodeInfo(CInfo(i));
  }

  /** attachDevice of VusbNetworkClient.swift. */
  method SwiftAttachPayload(i: ClientInfo) returns (payload: seq<byte>)
    requires SwiftTyped(i)
    ensures payload == Payload(i)
  {
    payload := SwiftToData(i);
    var descriptors := [];
    descriptors := descriptors + i.deviceDescriptor;
    descriptors := descriptors + i.configDescriptor;
    payload := payload + U32(|descriptors|);
    payload := payload + descriptors;
  }

  /** The bytes before the first NUL: what readFixedString returns. */
  function CutAtNul(s: seq<byte>): (r: seq<byte>)
    ensures r <= s && 0 !in r && (|r| < |s| ==> s[|r|] == 0)
  {
    var k := FirstIndex(s, (b: byte) => b == 0);
    s[..k]
  }

  /** Those facts determine the cut. */
  lemma CutIs(s: seq<byte>, r: seq<byte>)
    requires r <= s && 0 !in r && (|r| < |s| ==> s[|r|] == 0)
    ensures CutAtNul(s) == r
  {
    assert |CutAtNul(s)| == |r|;
  }

  /** Which byte strings are UTF-8, left to the platform. */
  type Encoding = seq<byte> -> bool

  /** String(data:encoding:) on the bytes before the first NUL; bytes that are not UTF-8 give the empty string. */
  function Shown(s: seq<byte>, utf8: Encoding): seq<byte> {
    if utf8(CutAtNul(s)) then CutAtNul(s) else []
  }

  /** What a Swift client sees of a C record. */
  function SwiftView(c: DeviceInfo, utf8: Encoding): ClientInfo
    requires InfoFits(c)
  {
    ClientInfo(if c.id < 0x8000_0000 then c.id else c.id - WORD, c.vendorId, c.productId,
               c.deviceClass, c.subClass, c.protocol, if c.speed <= 5 then c.speed else 0,
               c.numConfigurations, c.numInterfaces,
               Shown(c.manufacturer, utf8), Shown(c.product, utf8), Shown(c.serial, utf8), [], [])
  }

  /** readFixedString: the next field and the offset behind it. */
  method ReadFixedString(data: seq<byte>, offset: nat, length: nat, utf8: Encoding) returns (s: seq<byte>, next: nat)
    requires offset + length <= |data|
    ensures s == Shown(data[offset..offset + length], utf8) && next == offset + length
  {
    var stringData := data[offset..offset + length];
    next := offset + length;
    var k := 0;
    while k < |stringData| && stringData[k] != 0
      invariant k <= |stringData| && 0 !in stringData[..k]
    {
      k := k + 1;
    }
    CutIs(stringData, stringData[..k]);
    s := if utf8(stringData[..k]) then stringData[..k] else [];
  }

  /** VusbDeviceInfo.fromData */
  method SwiftFromData(data: seq<byte>, utf8: Encoding) returns (r: Option<ClientInfo>)
    ensures r == if |data| < INFO_SIZE then None else Some(SwiftView(DecodeInfo(data), utf8))
  {
    hide Shown, CutAtNul, Get32, Get16;
    if |data| < 208 {
      return None;
    }
    var offset := 0;
    var raw := Get32(data, offset);
    var id := if raw < 0x8000_0000 then raw else raw - WORD;
    offset := offset + 4;
    var vendorId := Get16(data, offset);
    offset := offset + 2;
    var productId := Get16(data, offset);
    offset := offset + 2;
    var deviceClass, subClass, protocol := data[offset], data[offset + 1], data[offset + 2];
    offset := offset + 3;
    var speed := if data[offset] <= 5 then data[offset] else 0;
    offset := offset + 1;
    var numConfigurations, numInterfaces := data[offset], data[offset + 1];
    offset := offset + 2 + 2;
    var manufacturer, product, serial;
    manufacturer, offset := ReadFixedString(data, offset, 64, utf8);
    product, offset := ReadFixedString(data, offset, 64, utf8);
    serial, offset := ReadFixedString(data, offset, 64, utf8);
    r := Some(ClientInfo(id, vendorId, productId, deviceClass, subClass, protocol, speed,
                         numConfigurations, numInterfaces, manufacturer, product, serial, [], []));
  }

  // ---------- round trips ----------

  /** A field read back is the string cut at 63 bytes and at its first NUL. */
  lemma FieldRoundTrip(s: seq<byte>)
    ensures CutAtNul(Field(s)) == CutAtNul(s[..Min(|s|, 63)])
  {
    var n := Min(|s|, 63);
    var c := CutAtNul(s[..n]);
    CutIs(Field(s), c);
  }

  /** The C reader at offsets 0, 208 and 212 recovers every field and the descriptors. */
  lemma CReaderRecovers(i: ClientInfo)
    requires |Descriptors(i)| < WORD
    ensures DecodeInfo(Payload(i)) == CInfo(i)
    ensures Get32(Payload(i), INFO_SIZE) == |Descriptors(i)|
    ensures Payload(i)[INFO_SIZE + 4..] == Descriptors(i)
  {
    hide EncodeInfo, DecodeInfo, U32, Get32, CInfo;
    var p, rest := Payload(i), U32(|Descriptors(i)|) + Descriptors(i);
    DecodeEncodeInfo(CInfo(i), rest);
    assert p == EncodeInfo(CInfo(i)) + rest;
    assert p[INFO_SIZE..INFO_SIZE + 4] == U32(|Descriptors(i)|);
    Read32(p, INFO_SIZE, |Descriptors(i)|);
  }

  /** Byte k of a string's field: the string's, for its first 63 bytes, and 0 behind them. */
  predicate Carries(field: seq<byte>, s: seq<byte>) {
    |field| == 64 && forall k :: 0 <= k < 64 ==> field[k] == if k < |s| && k < 63 then s[k] else 0
  }

  lemma FieldCarries(s: seq<byte>)
    ensures Carries(Field(s), s)
  {
  }

  /** The payload at its C offsets: every field of the device, its descriptors' length, and both descriptors in order. */
  lemma PayloadBytes(i: ClientInfo)
    ensures var p := Payload(i);
            && Get32(p, 0) == i.id % WORD && Get16(p, 4) == i.vendorId % 0x1_0000 && Get16(p, 6) == i.productId % 0x1_0000
            && p[8] == i.deviceClass && p[9] == i.subClass && p[10] == i.protocol && p[11] == i.speed
            && p[12] == i.numConfigurations && p[13] == i.numInterfaces && p[14] == 0 && p[15] == 0
            && Carries(p[16..80], i.manufacturer) && Carries(p[80..144], i.product) && Carries(p[144..208], i.serial)
            && Get32(p, 208) == (|i.deviceDescriptor| + |i.configDescriptor|) % WORD
            && p[212..] == i.deviceDescriptor + i.configDescriptor
  {
    hide U16, U32, Get16, Get32, Field, Carries;
    var p, rest := Payload(i), U32(|Descriptors(i)|) + Descriptors(i);
    FieldCarries(i.manufacturer);
    FieldCarries(i.product);
    FieldCarries(i.serial);
    DecodeEncodeInfo(CInfo(i), rest);
    assert p == EncodeInfo(CInfo(i)) + rest;
    assert p[208..212] == U32(|Descriptors(i)|);
    Read32(p, 208, |Descriptors(i)|);
    hide EncodeInfo;
    assert DecodeInfo(p) == CInfo(i);
    assert p[14] == p[14..16][0] && p[15] == p[14..16][1];
  }

  /** What a Swift client shows of a field: the bytes before its first NUL, or nothing when they are not UTF-8. */
  ghost predicate ShowsField(shown: seq<byte>, field: seq<byte>, utf8: Encoding) {
    exists cut: seq<byte> :: cut <= field && 0 !in cut && (|cut| < |field| ==> field[|cut|] == 0)
      && shown == if utf8(cut) then cut else []
  }

  lemma FieldShown(field: seq<byte>, utf8: Encoding)
    ensures ShowsField(Shown(field, utf8), field, utf8)
  {
    var cut := CutAtNul(field);
    assert cut <= field;
  }

  /** A Swift client's view of any record: a signed id, an unknown speed as 0, and the strings as far as they are text. */
  lemma SwiftShows(c: DeviceInfo, utf8: Encoding)
    requires InfoFits(c)
    ensures var v := SwiftView(c, utf8);
            && -0x8000_0000 <= v.id < 0x8000_0000 && v.id % WORD == c.id
            && v.vendorId == c.vendorId && v.productId == c.productId
            && v.deviceClass == c.deviceClass && v.subClass == c.subClass && v.protocol == c.protocol
            && v.speed == (if c.speed in {0, 1, 2, 3, 4, 5} then c.speed else 0)
            && v.numConfigurations == c.numConfigurations && v.numInterfaces == c.numInterfaces
            && ShowsField(v.manufacturer, c.manufacturer, utf8) && ShowsField(v.product, c.product, utf8)
            && ShowsField(v.serial, c.serial, utf8)
  {
    FieldShown(c.manufacturer, utf8);
    FieldShown(c.product, utf8);
    FieldShown(c.serial, utf8);
    hide ShowsField, Shown;
  }

  /**
   * fromData after toData is the identity up to cutting each string at 63 bytes and at its first NUL,
   * where a cut through a character leaves nothing of the string; descriptors travel separately.
   */
  lemma SwiftRoundTrip(i: ClientInfo, utf8: Encoding)
    requires SwiftTyped(i)
    ensures SwiftView(DecodeInfo(EncodeInfo(CInfo(i))), utf8) ==
            i.(manufacturer := Shown(i.manufacturer[..Min(|i.manufacturer|, 63)], utf8),
               product := Shown(i.product[..Min(|i.product|, 63)], utf8),
               serial := Shown(i.serial[..Min(|i.serial|, 63)], utf8),
               deviceDescriptor := [], configDescriptor := [])
  {
    hide CutAtNul, Field, EncodeInfo, DecodeInfo;
    DecodeEncodeInfo(CInfo(i), []);
    assert EncodeInfo(CInfo(i)) + [] == EncodeInfo(CInfo(i));
    FieldRoundTrip(i.manufacturer);
    FieldRoundTrip(i.product);
    FieldRoundTrip(i.serial);
  }

  /** Exactly which strings survive: at most 63 bytes, no NUL, and UTF-8, as every Swift string is. */
  lemma StringSurvivesIff(s: seq<byte>, utf8: Encoding)
    requires utf8(s)
    ensures Shown(s[..Min(|s|, 63)], utf8) == s <==> |s| <= 63 && 0 !in s
  {
    if |s| <= 63 && 0 !in s {
      assert s[..|s|] == s;
      CutIs(s, s);
    }
  }
}
