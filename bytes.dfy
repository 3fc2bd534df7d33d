/** Bytes, words and the integer conversions the interpreter relies on. */
module Bytes {

  /** An 8-bit unsigned value. */
  type Byte = b: int | 0 <= b < 256

  /** A stack word: the bytes it carries, most significant first. */
  datatype Word = Word(data: seq<Byte>)

  /** n zero bytes. */
  function Zeros(n: nat): (z: seq<Byte>)
    ensures |z| == n
    ensures forall i :: 0 <= i < n ==> z[i] == 0
  {
    seq(n, _ => 0)
  }

  /** Byte.trimAndPadRight: keep the first `length` bytes, zero-pad on the right. */
  function TrimAndPadRight(bytes: seq<Byte>, length: nat): (r: seq<Byte>)
    ensures |r| == length
    ensures forall i :: 0 <= i < length ==> r[i] == if i < |bytes| then bytes[i] else 0
  {
    if |bytes| >= length then bytes[..length] else bytes + Zeros(length - |bytes|)
  }

  /** Byte.trimAndPadLeft: keep the first `length` bytes, zero-pad on the left. */
  function TrimAndPadLeft(bytes: seq<Byte>, length: nat): (r: seq<Byte>)
    ensures |r| == length
    ensures |bytes| <= length ==> r[length - |bytes|..] == bytes
    ensures |bytes| <= length ==> forall i :: 0 <= i < length - |bytes| ==> r[i] == 0
    ensures |bytes| >= length ==> r == bytes[..length]
  {
    if |bytes| >= length then bytes[..length] else Zeros(length - |bytes|) + bytes
  }

  /** The unsigned big-endian value of a byte list (Word.toBigInt). */
  function BigEndian(bytes: seq<Byte>): nat
  {
    if bytes == [] then 0 else BigEndian(bytes[..|bytes| - 1]) * 256 + bytes[|bytes| - 1]
  }

  function WordValue(w: Word): nat
  {
    BigEndian(w.data)
  }

  const TwoTo32: int := 0x1_0000_0000
  const TwoTo31: int := 0x8000_0000

  /**
   * BigInteger.toInt(): the low 32 bits of v read as a two's-complement
   * signed integer.
   */
  function ToInt32(v: int): (r: int)
    ensures -TwoTo31 <= r < TwoTo31
    ensures (v - r) % TwoTo32 == 0
    ensures -TwoTo31 <= v < TwoTo31 ==> r == v
  {
    var low := v % TwoTo32;
    if low < TwoTo31 then low else low - TwoTo32
  }
}
