/** Bytes, 32-bit words and 512-byte blocks, with the little-endian word view that
    indirect blocks and inode records are read through. */
module Bytes {

  const BSIZE := 512
  const IPTRS := 128

  type byte = x: int | 0 <= x < 0x100
  type uint32 = x: int | 0 <= x < 0x1_0000_0000
  type Block = b: seq<byte> | |b| == BSIZE witness seq(BSIZE, _ => 0)

  function Zero(): (b: Block)
    ensures forall k :: 0 <= k < BSIZE ==> b[k] == 0
  {
    seq(BSIZE, _ => 0)
  }

  /** C's unsigned addition. */
  function Add32(x: uint32, y: uint32): uint32 {
    (x + y) % 0x1_0000_0000
  }

  function Min(x: int, y: int): int {
    if x < y then x else y
  }

  function Max(x: int, y: int): int {
    if x < y then y else x
  }

  /** The word stored little-endian at byte offset `o`. */
  function WordAt(b: seq<byte>, o: nat): uint32
    requires o + 4 <= |b|
  {
    b[o] as int + 0x100 * b[o + 1] as int + 0x1_0000 * b[o + 2] as int + 0x100_0000 * b[o + 3] as int
  }

  function WordBytes(w: uint32): (r: seq<byte>)
    ensures |r| == 4
  {
    [w % 0x100, w / 0x100 % 0x100, w / 0x100 / 0x100 % 0x100, w / 0x100 / 0x100 / 0x100]
  }

  lemma WordBytesAt(w: uint32)
    ensures WordAt(WordBytes(w), 0) == w
  {
  }

  /** `memcpy(b + o, s, |s|)`. */
  function Patch(b: seq<byte>, o: nat, s: seq<byte>): (r: seq<byte>)
    requires o + |s| <= |b|
    ensures |r| == |b|
    ensures forall k :: 0 <= k < |b| ==> r[k] == if o <= k < o + |s| then s[k - o] else b[k]
  {
    b[..o] + s + b[o + |s|..]
  }

  /** `((uint*)buf)[i]`. */
  function Word(b: Block, i: nat): uint32
    requires i < IPTRS
  {
    WordAt(b, 4 * i)
  }

  /** `((uint*)buf)[i] = w`. */
  function SetWord(b: Block, i: nat, w: uint32): Block
    requires i < IPTRS
  {
    Patch(b, 4 * i, WordBytes(w))
  }

  lemma WordOfSetWord(b: Block, i: nat, w: uint32, j: nat)
    requires i < IPTRS && j < IPTRS
    ensures Word(SetWord(b, i, w), j) == if i == j then w else Word(b, j)
  {
    if i == j {
      assert forall k {:trigger WordBytes(w)[k]} :: 0 <= k < 4 ==> SetWord(b, i, w)[4 * i + k] == WordBytes(w)[k];
      WordBytesAt(w);
    }
  }

  lemma WordAtBytes(b: seq<byte>, o: nat)
    requires o + 4 <= |b|
    ensures WordBytes(WordAt(b, o)) == [b[o], b[o + 1], b[o + 2], b[o + 3]]
  {
    var x3 := b[o + 3] as int;
    var x2 := b[o + 2] as int + 0x100 * x3;
    var x1 := b[o + 1] as int + 0x100 * x2;
    assert WordAt(b, o) == b[o] as int + 0x100 * x1;
    assert WordAt(b, o) / 0x100 == x1 && x1 / 0x100 == x2 && x2 / 0x100 == x3;
  }

  lemma SetWordSame(b: Block, i: nat)
    requires i < IPTRS
    ensures SetWord(b, i, Word(b, i)) == b
  {
    WordAtBytes(b, 4 * i);
  }
}
