/** The endpoint data buffers of userspace/vusb_userspace.c: VusbUsEpWrite and VusbUsEpRead. */
module EndpointBuffer {
  import opened Collections
  import opened Wire

  const URB_BUFFER_SIZE := 65536

  /** VUSB_US_ENDPOINT */
  class Endpoint {
    var buffer: array?<byte>
    var bufferSize: nat
    var dataLength: nat
    var dataOffset: nat

    ghost predicate Valid()
      reads this
    {
      && dataOffset <= dataLength <= bufferSize
      && (buffer != null ==> buffer.Length == bufferSize == URB_BUFFER_SIZE)
      && (buffer == null ==> dataLength == 0)
      && (dataLength > 0 ==> dataOffset < dataLength)
    }

    /** The bytes written and not read yet. */
    ghost function Unread(): seq<byte>
      requires Valid()
      reads this, buffer
    {
      if buffer == null then [] else buffer[dataOffset..dataLength]
    }

    constructor ()
      ensures Valid() && Unread() == []
    {
      buffer, bufferSize, dataLength, dataOffset := null, 0, 0, 0;
    }

    /** A write replaces whatever was unread; it is refused, without effect on the data, when too long. */
    method EpWrite(data: array<byte>, length: nat, mallocOk: bool) returns (r: int)
      requires Valid() && length <= data.Length && data != buffer
      modifies this, buffer
      ensures Valid()
      ensures r == -1 <==> length > 65536 || (old(buffer) == null && !mallocOk)
      ensures r != -1 ==> r == length && Unread() == old(data[..length])
      ensures r == -1 ==> Unread() == old(Unread())
      ensures old(buffer) != null ==> buffer == old(buffer)
      ensures old(buffer) == null && buffer != null ==> fresh(buffer)
    {
      if buffer == null {
        if mallocOk {
          buffer := new byte[URB_BUFFER_SIZE];
        }
        bufferSize := URB_BUFFER_SIZE;
      }
      if buffer == null || length > bufferSize {
        return -1;
      }
      var dst := buffer;
      forall i | 0 <= i < length {
        dst[i] := data[i];
      }
      dataLength, dataOffset := length, 0;
      assert dst[..length] == old(data[..length]);
      return length;
    }

    /** A read hands out the next bytes, at most maxLength of them. */
    method EpRead(out: array<byte>, maxLength: nat) returns (n: nat)
      requires Valid() && maxLength <= out.Length && out != buffer
      modifies this, out
      ensures Valid() && buffer == old(buffer)
      ensures n == Min(|old(Unread())|, maxLength)
      ensures out[..n] == old(Unread())[..n] && out[n..] == old(out[n..])
      ensures Unread() == old(Unread())[n..]
    {
      if buffer == null || dataLength == 0 {
        return 0;
      }
      ghost var unread := Unread();
      var available := dataLength - dataOffset;
      n := if available < maxLength then available else maxLength;
      var src, from := buffer, dataOffset;
      assert forall i :: 0 <= i < |unread| ==> unread[i] == src[from + i];
      forall i | 0 <= i < n {
        out[i] := src[from + i];
      }
      assert forall i :: 0 <= i < n ==> out[i] == unread[i];
      assert out[..n] == unread[..n];
      assert src[from + n..dataLength] == unread[n..];
      dataOffset := dataOffset + n;
      if dataOffset >= dataLength {
        assert unread[n..] == [];
        dataLength, dataOffset := 0, 0;
      }
    }
  }

  // ---------- any sequence of reads ----------

  /** What successive reads of the given sizes return, starting from the unread bytes. */
  function Reads(unread: seq<byte>, sizes: seq<nat>): seq<seq<byte>>
    decreases |sizes|
  {
    if sizes == [] then []
    else
      var n := Min(|unread|, sizes[0]);
      [unread[..n]] + Reads(unread[n..], sizes[1..])
  }

  function Remaining(unread: seq<byte>, sizes: seq<nat>): seq<byte>
    decreases |sizes|
  {
    if sizes == [] then unread else Remaining(unread[Min(|unread|, sizes[0])..], sizes[1..])
  }

  function Total(sizes: seq<nat>): nat {
    if sizes == [] then 0 else sizes[0] + Total(sizes[1..])
  }

  /** Together the reads return a prefix of the data: nothing lost, repeated or reordered. */
  lemma {:induction false} ReadsArePrefix(data: seq<byte>, sizes: seq<nat>)
    ensures var n := Min(|data|, Total(sizes));
            Flatten(Reads(data, sizes)) == data[..n] && Remaining(data, sizes) == data[n..]
    decreases |sizes|
  {
    if sizes != [] {
      var m, later := Min(|data|, sizes[0]), sizes[1..];
      var rest := data[m..];
      var k := Min(|rest|, Total(later));
      assert Min(|data|, Total(sizes)) == m + k;
      ReadsStep(data, sizes);
      hide Reads, Flatten, Remaining, Total, Min;
      ReadsArePrefix(rest, later);
      Slices(data, m, k);
    }
  }

  lemma Slices(data: seq<byte>, m: nat, k: nat)
    requires m + k <= |data|
    ensures data[..m] + data[m..][..k] == data[..m + k] && data[m..][k..] == data[m + k..]
  {
  }

  lemma ReadsStep(data: seq<byte>, sizes: seq<nat>)
    requires sizes != []
    ensures var m := Min(|data|, sizes[0]);
            && Flatten(Reads(data, sizes)) == data[..m] + Flatten(Reads(data[m..], sizes[1..]))
            && Remaining(data, sizes) == Remaining(data[m..], sizes[1..])
  {
    var m := Min(|data|, sizes[0]);
    var rest := Reads(data[m..], sizes[1..]);
    assert ([data[..m]] + rest)[1..] == rest;
  }

  /** Once the sizes add up to the length, everything has been read and further reads return nothing. */
  lemma ReadsExhaust(data: seq<byte>, sizes: seq<nat>, more: nat)
    requires Total(sizes) >= |data|
    ensures Flatten(Reads(data, sizes)) == data
    ensures Reads(Remaining(data, sizes), [more]) == [[]]
  {
    ReadsArePrefix(data, sizes);
  }

  /** A caller that keeps reading sees exactly that sequence. */
  method ReadMany(ep: Endpoint, sizes: seq<nat>, out: array<byte>) returns (parts: seq<seq<byte>>)
    requires ep.Valid() && out != ep.buffer && forall i :: 0 <= i < |sizes| ==> sizes[i] <= out.Length
    modifies ep, out
    ensures ep.Valid() && parts == Reads(old(ep.Unread()), sizes) && ep.Unread() == Remaining(old(ep.Unread()), sizes)
    decreases |sizes|
  {
    if sizes == [] {
      return [];
    }
    var n := ep.EpRead(out, sizes[0]);
    var first := out[..n];
    var rest := ReadMany(ep, sizes[1..], out);
    return [first] + rest;
  }
}
