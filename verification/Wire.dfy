/**
 * Little-endian integers and the packed structs of protocol/vusb_protocol.h as byte sequences.
 */
module Wire {
  import opened Collections

  type byte = x: int | 0 <= x < 256

  const HEADER_SIZE := 16
  const INFO_SIZE := 208
  const MAX_PACKET := 65536

  /** The low eight bits of an integer of any sign: a C cast or Kotlin `toByte`. */
  function Low8(n: int): byte { n % 256 }

  function U16(n: int): (r: seq<byte>)
    ensures |r| == 2
  {
    [Low8(n), Low8(n / 256)]
  }

  function U32(n: int): (r: seq<byte>)
    ensures |r| == 4
  {
    [Low8(n), Low8(n / 256), Low8(n / 0x1_0000), Low8(n / 0x100_0000)]
  }

  function Get16(b: seq<byte>, at: nat): (r: nat)
    requires at + 2 <= |b|
    ensures r < 0x1_0000
  {
    b[at] as int + 256 * (b[at + 1] as int)
  }

  function Get32(b: seq<byte>, at: nat): (r: nat)
    requires at + 4 <= |b|
    ensures r < WORD
  {
    b[at] as int + 256 * (b[at + 1] as int) + 0x1_0000 * (b[at + 2] as int) + 0x100_0000 * (b[at + 3] as int)
  }

  /** Reading back a written 16-bit value keeps it modulo 2^16. */
  lemma Read16(b: seq<byte>, at: nat, n: int)
    requires at + 2 <= |b| && b[at..at + 2] == U16(n)
    ensures Get16(b, at) == n % 0x1_0000
  {
    assert b[at] == b[at..at + 2][0] && b[at + 1] == b[at..at + 2][1];
  }

  lemma Read32(b: seq<byte>, at: nat, n: int)
    requires at + 4 <= |b| && b[at..at + 4] == U32(n)
    ensures Get32(b, at) == n % WORD
  {
    var w := b[at..at + 4];
    assert b[at] == w[0] && b[at + 1] == w[1] && b[at + 2] == w[2] && b[at + 3] == w[3];
    Split32(n);
  }

  lemma Split32(n: int)
    ensures n % WORD == n % 256 + 256 * (n / 256 % 256) + 0x1_0000 * (n / 0x1_0000 % 256)
                        + 0x100_0000 * (n / 0x100_0000 % 256)
  {
    assert n / 0x1_0000 == n / 256 / 256;
    assert n / 0x100_0000 == n / 256 / 256 / 256;
  }

  lemma FourDigits(w: byte, x: byte, y: byte, z: byte)
    ensures var n := w as int + 256 * (x as int) + 0x1_0000 * (y as int) + 0x100_0000 * (z as int);
            Low8(n) == w && Low8(n / 256) == x && Low8(n / 0x1_0000) == y && Low8(n / 0x100_0000) == z
  {
    var n := w as int + 256 * (x as int) + 0x1_0000 * (y as int) + 0x100_0000 * (z as int);
    assert n / 256 == x as int + 256 * (y as int) + 0x1_0000 * (z as int);
    assert n / 0x1_0000 == y as int + 256 * (z as int);
    assert n / 0x100_0000 == z as int;
  }

  /** Writing back what was read restores the bytes. */
  lemma Write32(b: seq<byte>, at: nat)
    requires at + 4 <= |b|
    ensures U32(Get32(b, at)) == b[at..at + 4]
  {
    hide Low8;
    FourDigits(b[at], b[at + 1], b[at + 2], b[at + 3]);
    assert b[at..at + 4] == [b[at], b[at + 1], b[at + 2], b[at + 3]];
  }

  /** VUSB_DEVICE_INFO as the C side holds it: 64-byte string fields, two reserved bytes. */
  datatype DeviceInfo = DeviceInfo(
    id: nat, vendorId: nat, productId: nat,
    deviceClass: byte, subClass: byte, protocol: byte, speed: byte,
    numConfigurations: byte, numInterfaces: byte, reserved: seq<byte>,
    manufacturer: seq<byte>, product: seq<byte>, serial: seq<byte>)

  predicate InfoFits(i: DeviceInfo) {
    && i.id < WORD && i.vendorId < 0x1_0000 && i.productId < 0x1_0000
    && |i.reserved| == 2 && |i.manufacturer| == 64 && |i.product| == 64 && |i.serial| == 64
  }

  function EncodeInfo(i: DeviceInfo): (b: seq<byte>)
    requires InfoFits(i)
    ensures |b| == INFO_SIZE
  {
    U32(i.id) + U16(i.vendorId) + U16(i.productId)
    + [i.deviceClass, i.subClass, i.protocol, i.speed, i.numConfigurations, i.numInterfaces]
    + i.reserved + i.manufacturer + i.product + i.serial
  }

  /** The struct that a pointer cast at the start of `b` exposes. */
  function DecodeInfo(b: seq<byte>): (i: DeviceInfo)
    requires |b| >= INFO_SIZE
    ensures InfoFits(i)
  {
    DeviceInfo(Get32(b, 0), Get16(b, 4), Get16(b, 6), b[8], b[9], b[10], b[11], b[12], b[13],
               b[14..16], b[16..80], b[80..144], b[144..208])
  }

  /** The 208-byte layout is a bijection: the C reader recovers every field, whatever follows. */
  lemma DecodeEncodeInfo(i: DeviceInfo, rest: seq<byte>)
    requires InfoFits(i)
    ensures DecodeInfo(EncodeInfo(i) + rest) == i
  {
    hide U16, U32, Get16, Get32;
    var b := EncodeInfo(i) + rest;
    assert b[0..4] == U32(i.id);
    assert b[4..6] == U16(i.vendorId);
    assert b[6..8] == U16(i.productId);
    Read32(b, 0, i.id);
    Read16(b, 4, i.vendorId);
    Read16(b, 6, i.productId);
    assert b[8..14] == [i.deviceClass, i.subClass, i.protocol, i.speed, i.numConfigurations, i.numInterfaces];
    assert forall k :: 8 <= k < 14 ==> b[k] == b[8..14][k - 8];
    assert b[14..16] == i.reserved;
    assert b[16..80] == i.manufacturer;
    assert b[80..144] == i.product;
    assert b[144..208] == i.serial;
  }

  lemma Write16(b: seq<byte>, at: nat)
    requires at + 2 <= |b|
    ensures U16(Get16(b, at)) == b[at..at + 2]
  {
    var x: int := b[at + 1];
    assert Get16(b, at) / 256 == x;
  }

  lemma EncodeDecodeInfo(b: seq<byte>)
    requires |b| >= INFO_SIZE
    ensures EncodeInfo(DecodeInfo(b)) == b[..INFO_SIZE]
  {
    hide U16, U32, Get16, Get32;
    var i := DecodeInfo(b);
    Write32(b, 0);
    Write16(b, 4);
    Write16(b, 6);
    assert b[8..14] == [i.deviceClass, i.subClass, i.protocol, i.speed, i.numConfigurations, i.numInterfaces];
    assert b[..208] == b[0..4] + b[4..6] + b[6..8] + b[8..14] + b[14..16] + b[16..80] + b[80..144] + b[144..208];
  }

  /** The record at its C offsets, byte by byte. */
  lemma InfoBytes(i: DeviceInfo)
    requires InfoFits(i)
    ensures var b := EncodeInfo(i);
            && b[0] == i.id % 256 && b[1] == i.id / 256 % 256 && b[2] == i.id / 0x1_0000 % 256 && b[3] == i.id / 0x100_0000
            && b[4] == i.vendorId % 256 && b[5] == i.vendorId / 256
            && b[6] == i.productId % 256 && b[7] == i.productId / 256
            && b[8] == i.deviceClass && b[9] == i.subClass && b[10] == i.protocol && b[11] == i.speed
            && b[12] == i.numConfigurations && b[13] == i.numInterfaces
            && b[14..16] == i.reserved && b[16..80] == i.manufacturer && b[80..144] == i.product && b[144..208] == i.serial
  {
    var b := EncodeInfo(i);
    assert b[0..4] == U32(i.id) && b[4..6] == U16(i.vendorId) && b[6..8] == U16(i.productId);
    assert b[8..14] == [i.deviceClass, i.subClass, i.protocol, i.speed, i.numConfigurations, i.numInterfaces];
    assert b[0] == b[0..4][0] && b[1] == b[0..4][1] && b[2] == b[0..4][2] && b[3] == b[0..4][3];
    assert b[4] == b[4..6][0] && b[5] == b[4..6][1] && b[6] == b[6..8][0] && b[7] == b[6..8][1];
    assert forall k :: 8 <= k < 14 ==> b[k] == b[8..14][k - 8];
    hide EncodeInfo;
  }
}
