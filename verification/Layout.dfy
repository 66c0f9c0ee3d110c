/** Where things are on the device, byte by byte: inode records, the superblock, directory records, the bits of
    the bitmaps and the pointers of a file. */
module Layout {
  import opened Bytes
  import opened BlockTree
  import opened Bitmap
  import opened Inodes
  import opened Files
  import opened World
  import opened Formatting
  import D = Directory

  /** Four bytes, the first of which weighs least. */
  ghost function Little(b: seq<byte>, o: nat): int
    requires o + 4 <= |b|
  {
    b[o] as int + 256 * (b[o + 1] as int + 256 * (b[o + 2] as int + 256 * b[o + 3] as int))
  }

  lemma WordLittle(b: seq<byte>, o: nat)
    requires o + 4 <= |b|
    ensures WordAt(b, o) == Little(b, o)
  {
  }

  /** Writing a word puts it there, in that order, and changes no other byte. */
  lemma WordStored(b: Block, i: nat, w: uint32)
    requires i < 128
    ensures Little(SetWord(b, i, w), 4 * i) == w
    ensures forall k :: 0 <= k < 512 && !(4 * i <= k < 4 * i + 4) ==> SetWord(b, i, w)[k] == b[k]
  {
    WordOfSetWord(b, i, w, i);
    WordLittle(SetWord(b, i, w), 4 * i);
  }

  // ---------------------------------------------------------------- inodes

  /** The 128 bytes of a record. */
  ghost predicate IsRecord(r: seq<byte>, x: Inode, refs: uint32) {
    && |r| == 128
    && Little(r, 0) == x.inum
    && r[4] as int + 256 * r[5] as int == x.kind && r[6] as int + 256 * r[7] as int == x.nlink
    && Little(r, 8) == x.size && Little(r, 12) == x.blocks
    && Little(r, 16) == x.uid && Little(r, 20) == x.gid && Little(r, 24) == x.mode
    && Little(r, 28) == x.atime && Little(r, 32) == x.mtime && Little(r, 36) == x.ctime
    && Little(r, 40) == x.flags
    && (forall i :: 0 <= i < 13 ==> Little(r, 44 + 4 * i) == x.addrs[i])
    && Little(r, 96) == refs
    && (forall i :: 0 <= i < 7 ==> Little(r, 100 + 4 * i) == x.reserved[i])
  }

  lemma HalfWords(r: seq<byte>, lo: nat, hi: nat)
    requires |r| >= 8 && Little(r, 4) == lo + 0x1_0000 * hi && lo < 0x1_0000
    ensures r[4] as int + 256 * r[5] as int == lo && r[6] as int + 256 * r[7] as int == hi
  {
  }

  lemma RecordWord(x: Inode, refs: uint32, i: nat)
    requires i < 32
    ensures Little(Encode(x, refs), 4 * i) == Words(x, refs)[i]
  {
    EncodedWord(x, refs, i);
    WordLittle(Encode(x, refs), 4 * i);
  }

  lemma InodeBytes(x: Inode, refs: uint32)
    ensures IsRecord(Encode(x, refs), x, refs)
  {
    hide Encode, Little, Words;
    var r := Encode(x, refs);
    RecordWords(x, refs);
    HalfWords(r, x.kind, x.nlink);
    forall i | 0 <= i < 13 ensures Little(r, 44 + 4 * i) == x.addrs[i] {
      RecordWord(x, refs, 11 + i);
      AddrWord(x, refs, i);
    }
    forall i | 0 <= i < 7 ensures Little(r, 100 + 4 * i) == x.reserved[i] {
      RecordWord(x, refs, 25 + i);
      ReservedWord(x, refs, i);
    }
  }

  lemma AddrWord(x: Inode, refs: uint32, i: nat)
    requires i < 13
    ensures Words(x, refs)[11 + i] == x.addrs[i] && 4 * (11 + i) == 44 + 4 * i
  {
  }

  lemma ReservedWord(x: Inode, refs: uint32, i: nat)
    requires i < 7
    ensures Words(x, refs)[25 + i] == x.reserved[i] && 4 * (25 + i) == 100 + 4 * i
  {
  }

  lemma RecordWords(x: Inode, refs: uint32)
    ensures var r := Encode(x, refs);
      && Little(r, 0) == x.inum && Little(r, 4) == x.kind + 0x1_0000 * x.nlink as int && Little(r, 8) == x.size
      && Little(r, 12) == x.blocks && Little(r, 16) == x.uid && Little(r, 20) == x.gid && Little(r, 24) == x.mode
      && Little(r, 28) == x.atime && Little(r, 32) == x.mtime && Little(r, 36) == x.ctime && Little(r, 40) == x.flags
      && Little(r, 96) == refs
  {
    hide Encode, Little;
    RecordWord(x, refs, 0);
    RecordWord(x, refs, 1);
    RecordWord(x, refs, 2);
    RecordWord(x, refs, 3);
    RecordWord(x, refs, 4);
    RecordWord(x, refs, 5);
    RecordWord(x, refs, 6);
    RecordWord(x, refs, 7);
    RecordWord(x, refs, 8);
    RecordWord(x, refs, 9);
    RecordWord(x, refs, 10);
    RecordWord(x, refs, 24);
  }

  /** Record `n` is the `n % 4`-th of block `3 + n / 4`, and storing an inode puts its bytes there and changes
      no other byte of the device. */
  lemma InodePlace(v: seq<Block>, n: nat, x: Inode, refs: uint32, b: nat, i: nat)
    requires n < 128 && 35 <= |v| && b < |v| && i < 512
    ensures |Stored(v, n, x, refs)| == |v| && IsRecord(Stored(v, n, x, refs)[3 + n / 4][128 * (n % 4)..128 * (n % 4) + 128], x, refs)
    ensures !(b == 3 + n / 4 && 128 * (n % 4) <= i < 128 * (n % 4) + 128) ==> Stored(v, n, x, refs)[b][i] == v[b][i]
  {
    hide IsRecord, Encode;
    InodeBytes(x, refs);
    assert Stored(v, n, x, refs)[3 + n / 4][128 * (n % 4)..128 * (n % 4) + 128] == Encode(x, refs);
  }

  /** An inode is loaded from there, with its own number. */
  lemma InodeLoaded(v: seq<Block>, n: nat, x: Inode, refs: uint32)
    requires n < 128 && 35 <= |v| && x.inum == n && IsRecord(v[3 + n / 4][128 * (n % 4)..128 * (n % 4) + 128], x, refs)
    ensures DiskInode(v, n) == x
  {
    hide Little;
    var r := v[3 + n / 4][128 * (n % 4)..128 * (n % 4) + 128];
    assert r == Record(v[InodeBlock(n)], n % INODES_PER_BLOCK);
    RecordRead(r, x, refs);
  }

  lemma RecordRead(r: seq<byte>, x: Inode, refs: uint32)
    requires IsRecord(r, x, refs)
    ensures Decode(r) == x
  {
    hide WordAt;
    forall o: nat | o + 4 <= 128 ensures WordAt(r, o) == Little(r, o) { WordLittle(r, o); }
    KindLinks(r, x.kind, x.nlink);
    assert Decode(r).addrs == x.addrs && Decode(r).reserved == x.reserved;
  }

  lemma KindLinks(r: seq<byte>, lo: uint16, hi: uint16)
    requires |r| >= 8 && r[4] as int + 256 * r[5] as int == lo && r[6] as int + 256 * r[7] as int == hi
    ensures WordAt(r, 4) % 0x1_0000 == lo && WordAt(r, 4) / 0x1_0000 == hi
  {
  }

  // ---------------------------------------------------------------- the superblock

  /** Block 0 begins with ten words. */
  lemma SuperblockBytes(nblocks: uint32, garbage: Block)
    requires 35 <= nblocks
    ensures var b := Patch(garbage, 0, Bytes32(SbWords(SbInit(nblocks))));
      && Little(b, 0) == 0x20041216 && Little(b, 4) == nblocks && Little(b, 8) == nblocks - 35 && Little(b, 12) == 32
      && Little(b, 16) == 1 && Little(b, 20) == 1 && Little(b, 24) == 2 && Little(b, 28) == 3 && Little(b, 32) == 1
      && Little(b, 36) == 35 && b[40..] == garbage[40..]
  {
    hide Little, WordAt, Bytes32;
    var s := SbInit(nblocks);
    var b := Patch(garbage, 0, Bytes32(SbWords(s)));
    SbRoundTrip(s, garbage);
    forall o: nat | o + 4 <= 512 ensures WordAt(b, o) == Little(b, o) { WordLittle(b, o); }
  }

  // ---------------------------------------------------------------- directories

  /** The 36 bytes of a directory record: type, two unused bytes, inode number, and a name ended by a NUL. */
  ghost predicate IsEntry(r: seq<byte>, e: D.Entry) {
    && |r| == 36
    && r[0] as int + 256 * r[1] as int == e.kind && Little(r, 4) == e.inum
    && |e.name| <= 26 && r[8..8 + |e.name|] == e.name && D.NoNul(e.name)
    && (|e.name| < 26 ==> r[8 + |e.name|] == 0)
  }

  lemma {:induction false} CStringIs(s: seq<byte>)
    ensures var n := D.CString(s); n == s[..|n|] && D.NoNul(n) && (|n| < |s| ==> s[|n|] == 0)
  {
    if s != [] && s[0] != 0 { CStringIs(s[1..]); }
  }

  /** A record is read as what its bytes say, and is the `i`-th of its directory if it starts at byte 36 * i. */
  lemma EntryBytes(c: seq<byte>, i: nat)
    requires 36 * i + 36 <= |c|
    ensures |D.Entries(c)| == |c| / 36 && i < |D.Entries(c)| && IsEntry(c[36 * i..36 * i + 36], D.Entries(c)[i])
  {
    hide WordAt, Little;
    var r := c[36 * i..36 * i + 36];
    WordLittle(r, 4);
    CStringIs(r[8..34]);
    var name := D.CString(r[8..34]);
    assert r[8..34][..|name|] == r[8..8 + |name|];
    if |name| < 26 { assert r[8..34][|name|] == r[8 + |name|]; }
  }

  /** The record that an addition writes: the name cut to 25 bytes, and zeros behind it. */
  lemma EntryWritten(name: seq<byte>, kind: uint16, inum: uint32)
    requires D.NoNul(name)
    ensures var r, n := D.EncodeEntry(name, kind, inum), if |name| <= 25 then name else name[..25];
      && IsEntry(r, D.Entry(kind, inum, n)) && r[2] == 0 && r[3] == 0
      && forall k :: 8 + |n| <= k < 36 ==> r[k] == 0
  {
    hide WordAt, Little, WordBytes;
    var r := D.EncodeEntry(name, kind, inum);
    D.EncodedNumber(name, kind, inum);
    WordLittle(r, 4);
  }

  // ---------------------------------------------------------------- bitmaps

  /** What bit `k` of a byte weighs. */
  ghost function Weight(k: nat): (w: nat)
    ensures w > 0
  {
    match k
    case 0 => 1
    case 1 => 2
    case 2 => 4
    case 3 => 8
    case 4 => 16
    case 5 => 32
    case 6 => 64
    case _ => 128
  }

  lemma Halved(x: nat, k: nat)
    requires 0 < k < 8
    ensures x / 2 / Weight(k - 1) == x / Weight(k)
  {
    match k
    case 1 => assert x / 2 / 1 == x / 2;
    case 2 => assert x / 2 / 2 == x / 4;
    case 3 => assert x / 2 / 4 == x / 8;
    case 4 => assert x / 2 / 8 == x / 16;
    case 5 => assert x / 2 / 16 == x / 32;
    case 6 => assert x / 2 / 32 == x / 64;
    case 7 => assert x / 2 / 64 == x / 128;
  }

  lemma {:induction false} BitIs(x: nat, k: nat)
    requires k < 8
    ensures Bit(x, k) <==> x / Weight(k) % 2 == 1
  {
    hide Weight;
    if k == 0 {
      NoWeight(x);
    } else {
      BitIs(x / 2, k - 1);
      Halved(x, k);
    }
  }

  lemma NoWeight(x: nat)
    ensures x / Weight(0) == x
  {
  }

  /** Bit `i` of a bitmap is bit `i % 8`, counted from the least significant, of byte `i / 8`. */
  lemma MapBitPlace(b: Block, i: nat)
    requires i < 4096
    ensures MapBit(b, i) <==> b[i / 8] as int / Weight(i % 8) % 2 == 1
  {
    BitIs(b[i / 8], i % 8);
  }

  // ---------------------------------------------------------------- the pointers of a file

  /** Word `j` of block `p` as a pointer: 0 if there is no such block. */
  ghost function Pointer(v: seq<Block>, p: nat, j: nat): int
    requires j < 128
  {
    if p == 0 || |v| <= p then 0 else Little(v[p], 4 * j)
  }

  /** The block of logical block `b`: ten direct pointers, two blocks of 128 pointers, one block of 128 blocks of
      128 pointers. */
  lemma LookupPlace(v: seq<Block>, a: Addrs, b: nat)
    ensures Lookup(v, a, b) ==
            if b < 10 then a[b]
            else if b < 138 then Pointer(v, a[10], b - 10)
            else if b < 266 then Pointer(v, a[11], b - 138)
            else if b < 16650 then Pointer(v, Pointer(v, a[12], (b - 266) / 128), (b - 266) % 128)
            else 0
  {
    hide Little, WordAt;
    forall p: nat, j: nat | p < |v| && j < 128 ensures Word(v[p], j) == Little(v[p], 4 * j) { WordLittle(v[p], 4 * j); }
    assert At(v, a, Top(10)) == a[10] && At(v, a, Top(11)) == a[11] && At(v, a, Top(12)) == a[12];
    if 266 <= b < 16650 {
      var i, j := (b - 266) / 128, (b - 266) % 128;
      assert LeafOf(b) == Sub(Sub(Top(12), i), j);
      assert At(v, a, Sub(Top(12), i)) == Pointer(v, a[12], i);
    }
  }
  /** Byte `o` of a file is byte `o % 512` of the block of logical block `o / 512`, and 0 where there is none. */
  lemma FileByte(v: seq<Block>, x: Inode, o: nat)
    requires o < x.size
    ensures var p := Lookup(v, x.addrs, o / 512);
      |Contents(v, x)| == x.size && Contents(v, x)[o] == if p == 0 || |v| <= p then 0 else v[p][o % 512]
  {
    hide Lookup;
  }
}
