/** The input as the parsers see it: a byte sequence behind a counting
    stream whose count is the number of bytes delivered so far, read through
    a little-endian data stream. */
module ByteStream {
  import opened Wrappers
  import opened JavaInt

  /** 256 to the power n. */
  function Pow256(n: nat): (r: nat)
    ensures r > 0
  {
    if n == 0 then 1 else 0x100 * Pow256(n - 1)
  }

  /** The unsigned little-endian value of a byte sequence. */
  function LittleEndian(s: seq<UInt8>): (r: nat)
    ensures r < Pow256(|s|)
  {
    if s == [] then 0 else s[0] + 0x100 * LittleEndian(s[1..])
  }

  /** The little-endian value of two and of four bytes. */
  function LittleEndian16(s: seq<UInt8>): UInt16
    requires |s| == 2
  {
    assert Pow256(2) == 0x1_0000;
    LittleEndian(s)
  }

  function LittleEndian32(s: seq<UInt8>): UInt32
    requires |s| == 4
  {
    assert Pow256(4) == 0x1_0000_0000;
    LittleEndian(s)
  }

  /** The `width` little-endian bytes of `n`, least significant first. */
  function LittleEndianBytes(n: nat, width: nat): (r: seq<UInt8>)
    ensures |r| == width
  {
    if width == 0 then [] else [n % 0x100] + LittleEndianBytes(n / 0x100, width - 1)
  }

  /** Encoding a value that fits in `width` bytes and decoding it again
      gives the value back. */
  lemma {:induction false} LittleEndianRoundTrip(n: nat, width: nat)
    requires n < Pow256(width)
    ensures LittleEndian(LittleEndianBytes(n, width)) == n
  {
    if width > 0 {
      var s := LittleEndianBytes(n, width);
      assert s[1..] == LittleEndianBytes(n / 0x100, width - 1);
      assert n / 0x100 < Pow256(width - 1);
      LittleEndianRoundTrip(n / 0x100, width - 1);
    }
  }

  /** Decoding a sequence and encoding the value again gives the sequence
      back. */
  lemma {:induction false} LittleEndianBytesRoundTrip(s: seq<UInt8>)
    ensures LittleEndianBytes(LittleEndian(s), |s|) == s
  {
    if s != [] {
      var n := LittleEndian(s);
      assert n % 0x100 == s[0] && n / 0x100 == LittleEndian(s[1..]);
      LittleEndianBytesRoundTrip(s[1..]);
    }
  }

  class Stream {
    /** The whole input. */
    const data: seq<UInt8>
    /** CountingInputStream.getByteCount(): bytes delivered so far. */
    var count: nat

    ghost predicate Valid()
      reads this
    {
      count <= |data|
    }

    /** A fresh stream over `input`, nothing read yet. */
    constructor (input: seq<UInt8>)
      ensures Valid() && data == input && count == 0
    {
      data := input;
      count := 0;
    }

    /** `readUnsignedByte()` of the swapped stream is the underlying
        `read()`: the next byte, or -1 at the end of the input.  It does
        not throw there. */
    method ReadUnsignedByte() returns (r: int)
      requires Valid()
      modifies this
      ensures Valid()
      ensures old(count) < |data| ==> r == data[old(count)] as int && count == old(count) + 1
      ensures old(count) == |data| ==> r == -1 && count == old(count)
    {
      if count < |data| {
        r := data[count];
        count := count + 1;
      } else {
        r := -1;
      }
    }

    /** `n` bytes read one at a time, as the little-endian readers and
        `readFully` do: these turn the -1 of the end of the input into an
        EOFException, so a short read fails, after it has consumed every
        remaining byte. */
    method ReadBytes(n: nat) returns (r: Option<seq<UInt8>>)
      requires Valid()
      modifies this
      ensures Valid()
      ensures old(count) + n <= |data| ==>
        r == Some(data[old(count)..old(count) + n]) && count == old(count) + n
      ensures old(count) + n > |data| ==> r == None && count == |data|
    {
      var bytes: seq<UInt8> := [];
      while |bytes| < n
        invariant Valid()
        invariant count == old(count) + |bytes| && |bytes| <= n
        invariant bytes == data[old(count)..count]
        decreases n - |bytes|
      {
        var b := ReadUnsignedByte();
        if b == -1 {
          return None;
        }
        bytes := bytes + [b as UInt8];
      }
      return Some(bytes);
    }

    /** `readInt()`: four bytes, least significant first, as a Java int. */
    method ReadInt() returns (r: Option<Int32>)
      requires Valid()
      modifies this
      ensures Valid()
      ensures old(count) + 4 <= |data| ==>
        r.Some? && ToUnsigned(r.value) == LittleEndian32(data[old(count)..old(count) + 4])
        && count == old(count) + 4
      ensures old(count) + 4 > |data| ==> r == None && count == |data|
    {
      var bytes := ReadBytes(4);
      if bytes.None? {
        return None;
      }
      return Some(ToSigned(LittleEndian32(bytes.value)));
    }

    /** `readUnsignedShort()`: two bytes, least significant first. */
    method ReadUnsignedShort() returns (r: Option<UInt16>)
      requires Valid()
      modifies this
      ensures Valid()
      ensures old(count) + 2 <= |data| ==>
        r == Some(LittleEndian16(data[old(count)..old(count) + 2])) && count == old(count) + 2
      ensures old(count) + 2 > |data| ==> r == None && count == |data|
    {
      var bytes := ReadBytes(2);
      if bytes.None? {
        return None;
      }
      return Some(LittleEndian16(bytes.value));
    }

    /** `skip(n)`: advances over at most `n` bytes, never past the end, and
        never fails. */
    method Skip(n: nat) returns (skipped: nat)
      requires Valid()
      modifies this
      ensures Valid()
      ensures skipped == if old(count) + n <= |data| then n else |data| - old(count)
      ensures count == old(count) + skipped
    {
      skipped := if count + n <= |data| then n else |data| - count;
      count := count + skipped;
    }
  }
}
