/**
 * The byte-addressable memory of a call frame. Reading or writing past the
 * current end grows it with zero bytes up to the next 32-byte boundary; an
 * access of length zero never grows it.
 */
module Memory {
  import opened Bytes

  datatype Memory = Memory(data: seq<Byte>)

  /** The smallest multiple of 32 that is at least n. */
  function RoundUp32(n: nat): (r: nat)
    ensures r % 32 == 0 && n <= r < n + 32
  {
    if n % 32 == 0 then n else n + (32 - n % 32)
  }

  /** The memory grown, if needed, so that its first `end` bytes exist. */
  function Expand(m: Memory, end: nat): (r: Memory)
    ensures |r.data| >= end && |r.data| >= |m.data|
    ensures r.data[..|m.data|] == m.data
    ensures forall i :: |m.data| <= i < |r.data| ==> r.data[i] == 0
    ensures |m.data| < end ==> |r.data| == RoundUp32(end)
    ensures end <= |m.data| ==> r == m
  {
    if end <= |m.data| then m else Memory(m.data + Zeros(RoundUp32(end) - |m.data|))
  }

  /** The byte at position i, reading beyond the end as zero. */
  function ByteAt(m: Memory, i: nat): Byte
  {
    if i < |m.data| then m.data[i] else 0
  }

  /** memory.read(offset, length): the bytes of the region and the grown memory. */
  function Read(m: Memory, offset: nat, length: nat): (r: (seq<Byte>, Memory))
    ensures |r.0| == length
    ensures forall i :: 0 <= i < length ==> r.0[i] == ByteAt(m, offset + i)
    ensures r.1 == if length == 0 then m else Expand(m, offset + length)
  {
    if length == 0 then ([], m)
    else
      var grown := Expand(m, offset + length);
      (grown.data[offset..offset + length], grown)
  }

  /** memory.write(offset, bytes): the memory with the region overwritten. */
  function Write(m: Memory, offset: nat, bytes: seq<Byte>): (r: Memory)
    ensures |r.data| == if bytes == [] then |m.data| else |Expand(m, offset + |bytes|).data|
    ensures forall i :: 0 <= i < |r.data| ==>
              r.data[i] == if offset <= i < offset + |bytes| then bytes[i - offset] else ByteAt(m, i)
  {
    if bytes == [] then m
    else
      var grown := Expand(m, offset + |bytes|);
      Memory(grown.data[..offset] + bytes + grown.data[offset + |bytes|..])
  }

  /** Reading back the first k bytes of a region just written yields those bytes. */
  lemma ReadAfterWrite(m: Memory, offset: nat, bytes: seq<Byte>, k: nat)
    requires k <= |bytes|
    ensures Read(Write(m, offset, bytes), offset, k).0 == bytes[..k]
  {
    var w := Write(m, offset, bytes);
    var r := Read(w, offset, k).0;
    forall i | 0 <= i < k
      ensures r[i] == bytes[i]
    {
      assert offset + i < |w.data|;
    }
  }

  /** Reading a region twice without a write in between yields the same bytes. */
  lemma ReadIdempotent(m: Memory, offset: nat, length: nat)
    ensures Read(Read(m, offset, length).1, offset, length).0 == Read(m, offset, length).0
  {
    var m1 := Read(m, offset, length).1;
    var again, first := Read(m1, offset, length).0, Read(m, offset, length).0;
    forall i | 0 <= i < length
      ensures again[i] == first[i]
    {
    }
  }

  /**
   * A memory whose length is a multiple of 32 keeps that property through
   * reads and writes; when an access reaches past the end, the new length is
   * the smallest multiple of 32 covering it.
   */
  lemma AccessKeepsAlignment(m: Memory, offset: nat, bytes: seq<Byte>, length: nat)
    requires |m.data| % 32 == 0
    ensures |Write(m, offset, bytes).data| % 32 == 0
    ensures |Read(m, offset, length).1.data| % 32 == 0
    ensures bytes != [] && |m.data| < offset + |bytes| ==>
              |Write(m, offset, bytes).data| == RoundUp32(offset + |bytes|)
  {
  }
}
