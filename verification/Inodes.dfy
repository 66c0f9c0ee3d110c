/** Inode records: 32 words, four records to a block. */
module Inodes {
  import opened Bytes
  import opened BlockTree

  const INODE_SIZE := 128
  const INODES_PER_BLOCK := 4
  const INODE_START := 3
  const INODE_BLOCKS := 32
  const NINODES := 128

  const T_DIR := 1
  const T_FILE := 2

  type uint16 = x: int | 0 <= x < 0x1_0000
  type Reserved = r: seq<uint32> | |r| == 7 witness seq(7, _ => 0)

  datatype Inode = Inode(inum: uint32, kind: uint16, nlink: uint16, size: uint32, blocks: uint32,
                         uid: uint32, gid: uint32, mode: uint32, atime: uint32, mtime: uint32, ctime: uint32,
                         flags: uint32, addrs: Addrs, reserved: Reserved)

  /** The 32 words of a record; word 24 holds the in-memory reference count. */
  function Words(ino: Inode, refs: uint32): (ws: seq<uint32>)
    ensures |ws| == 32
  {
    [ino.inum, ino.kind + 0x1_0000 * ino.nlink as int, ino.size, ino.blocks, ino.uid, ino.gid, ino.mode,
     ino.atime, ino.mtime, ino.ctime, ino.flags] + ino.addrs + [refs] + ino.reserved
  }

  function Bytes32(ws: seq<uint32>): (b: seq<byte>)
    ensures |b| == 4 * |ws|
  {
    if ws == [] then [] else WordBytes(ws[0]) + Bytes32(ws[1..])
  }

  lemma {:induction false} WordOfBytes32(ws: seq<uint32>, i: nat)
    requires i < |ws|
    ensures WordAt(Bytes32(ws), 4 * i) == ws[i]
  {
    var b := Bytes32(ws[1..]);
    if i == 0 {
      WordBytesAt(ws[0]);
    } else {
      WordOfBytes32(ws[1..], i - 1);
      assert Bytes32(ws)[4..] == b;
      assert Bytes32(ws)[4 * i..4 * i + 4] == b[4 * (i - 1)..4 * (i - 1) + 4];
    }
  }

  function Encode(ino: Inode, refs: uint32): (b: seq<byte>)
    ensures |b| == INODE_SIZE
  {
    Bytes32(Words(ino, refs))
  }

  function Decode(b: seq<byte>): (ino: Inode)
    requires |b| == INODE_SIZE
  {
    Inode(WordAt(b, 0), WordAt(b, 4) % 0x1_0000, WordAt(b, 4) / 0x1_0000, WordAt(b, 8), WordAt(b, 12),
          WordAt(b, 16), WordAt(b, 20), WordAt(b, 24), WordAt(b, 28), WordAt(b, 32), WordAt(b, 36),
          WordAt(b, 40), seq(NADDRS, i requires 0 <= i < NADDRS => WordAt(b, 44 + 4 * i)),
          seq(7, i requires 0 <= i < 7 => WordAt(b, 100 + 4 * i)))
  }

  lemma EncodedWord(ino: Inode, refs: uint32, i: nat)
    requires i < 32
    ensures WordAt(Encode(ino, refs), 4 * i) == Words(ino, refs)[i]
  {
    WordOfBytes32(Words(ino, refs), i);
  }

  lemma EncodedArrays(ino: Inode, refs: uint32)
    ensures Decode(Encode(ino, refs)).addrs == ino.addrs
    ensures Decode(Encode(ino, refs)).reserved == ino.reserved
  {
    var d := Decode(Encode(ino, refs));
    forall i | 0 <= i < NADDRS ensures d.addrs[i] == ino.addrs[i] {
      EncodedWord(ino, refs, 11 + i);
    }
    forall i | 0 <= i < 7 ensures d.reserved[i] == ino.reserved[i] {
      EncodedWord(ino, refs, 25 + i);
    }
  }

  /** A record reads back as written, whatever count was in the overlaid word. */
  lemma DecodeEncode(ino: Inode, refs: uint32)
    ensures Decode(Encode(ino, refs)) == ino
  {
    hide Encode, WordAt;
    EncodedArrays(ino, refs);
    EncodedWord(ino, refs, 0);
    EncodedWord(ino, refs, 1);
    EncodedWord(ino, refs, 2);
    EncodedWord(ino, refs, 3);
    EncodedWord(ino, refs, 4);
    EncodedWord(ino, refs, 5);
    EncodedWord(ino, refs, 6);
    EncodedWord(ino, refs, 7);
    EncodedWord(ino, refs, 8);
    EncodedWord(ino, refs, 9);
    EncodedWord(ino, refs, 10);
  }

  // ---------------------------------------------------------------- the inode area

  function InodeBlock(n: nat): nat {
    INODE_START + n / INODES_PER_BLOCK
  }

  function Record(b: Block, i: nat): (r: seq<byte>)
    requires i < INODES_PER_BLOCK
    ensures |r| == INODE_SIZE
  {
    b[INODE_SIZE * i..INODE_SIZE * i + INODE_SIZE]
  }

  lemma RecordOfPatch(b: Block, i: nat, e: seq<byte>, j: nat)
    requires i < INODES_PER_BLOCK && j < INODES_PER_BLOCK && |e| == INODE_SIZE
    ensures Record(Patch(b, INODE_SIZE * i, e), j) == if i == j then e else Record(b, j)
  {
  }

  /** The inode that loading record `n` produces: the stored number is overwritten. */
  function DiskInode(v: seq<Block>, n: nat): (ino: Inode)
    requires n < NINODES && INODE_START + INODE_BLOCKS <= |v|
    ensures ino.inum == n
  {
    Decode(Record(v[InodeBlock(n)], n % INODES_PER_BLOCK)).(inum := n)
  }

  lemma DiskInodeIs(v: seq<Block>, n: nat)
    requires n < NINODES && INODE_START + INODE_BLOCKS <= |v|
    ensures DiskInode(v, n) == Decode(Record(v[InodeBlock(n)], n % INODES_PER_BLOCK)).(inum := n)
  {
  }

  /** The device after record `n` has been stored. */
  function Stored(v: seq<Block>, n: nat, ino: Inode, refs: uint32): (v': seq<Block>)
    requires n < NINODES && INODE_START + INODE_BLOCKS <= |v|
    ensures |v'| == |v|
  {
    v[InodeBlock(n) := Patch(v[InodeBlock(n)], INODE_SIZE * (n % INODES_PER_BLOCK), Encode(ino, refs))]
  }

  /** Storing one record is read back by a load, and leaves the other three records of
      its block and every other inode alone. */
  lemma StoredInode(v: seq<Block>, n: nat, ino: Inode, refs: uint32, m: nat)
    requires n < NINODES && m < NINODES && INODE_START + INODE_BLOCKS <= |v|
    requires ino.inum == n
    ensures DiskInode(Stored(v, n, ino, refs), m) == if m == n then ino else DiskInode(v, m)
  {
    if InodeBlock(m) == InodeBlock(n) {
      RecordOfPatch(v[InodeBlock(n)], n % INODES_PER_BLOCK, Encode(ino, refs), m % INODES_PER_BLOCK);
      DecodeEncode(ino, refs);
    }
  }
}
