/** Byte buffers: `ArrayBuffer`/`Uint8Array` contents and the operations on them the core uses. */
module Bytes {

  /** One element of a `Uint8Array`. */
  type byte = x: int | 0 <= x < 256

  function Min(a: int, b: int): int { if a <= b then a else b }

  /** `buf.slice(0, n)`: the first `n` bytes, or all of them when the buffer is shorter. */
  function SliceTo(buf: seq<byte>, n: nat): (r: seq<byte>)
    ensures |r| == Min(n, |buf|)
    ensures r <= buf
  {
    if n <= |buf| then buf[..n] else buf
  }

  /** `buf.slice(n)`: everything from offset `n` on, empty when the buffer is shorter. */
  function SliceFrom(buf: seq<byte>, n: nat): (r: seq<byte>)
    ensures |r| == |buf| - Min(n, |buf|)
    ensures forall i | 0 <= i < |r| :: r[i] == buf[n + i]
  {
    if n <= |buf| then buf[n..] else []
  }

  /** Slicing a concatenation at the length of its first part gives back both parts. */
  lemma SliceConcat(a: seq<byte>, b: seq<byte>)
    ensures SliceTo(a + b, |a|) == a && SliceFrom(a + b, |a|) == b
  {
    assert (a + b)[..|a|] == a;
    assert (a + b)[|a|..] == b;
  }

  /** `target.set(source, offset)` (TypedArray.prototype.set): copies `source` into
      `target` starting at `offset` and leaves every other element as it was. */
  method TypedArraySet(target: array<byte>, source: seq<byte>, offset: nat)
    requires offset + |source| <= target.Length
    modifies target
    ensures target[..] == old(target[..offset]) + source + old(target[offset + |source|..])
  {
    var i := 0;
    while i < |source|
      invariant 0 <= i <= |source|
      invariant forall k | 0 <= k < offset :: target[k] == old(target[k])
      invariant forall k | 0 <= k < i :: target[offset + k] == source[k]
      invariant forall k | offset + i <= k < target.Length :: target[k] == old(target[k])
    {
      target[offset + i] := source[i];
      i := i + 1;
    }
    assert target[..] == old(target[..offset]) + source + old(target[offset + |source|..]);
  }
}
