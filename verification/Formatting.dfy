/** Formatting the device: an empty file system with a root directory. */
module Formatting {
  import opened Bytes
  import opened BlockTree
  import opened Bitmap
  import opened Inodes
  import opened Growth
  import opened Files
  import opened InodeCache
  import opened World
  import opened FileSystem
  import opened Cache
  import opened Invariant
  import opened Numbering

  /** The words of the superblock as `cmd_f` copies them into block 0. */
  function SbWords(s: Superblock): (ws: seq<uint32>)
    ensures |ws| == 10
  {
    [s.magic, s.size, s.ndataBlocks, s.ninodeBlocks, s.ndataBlocksBitmapBlocks, s.ninodeBlocksBitmapBlocks,
     s.bmapstart, s.inodeStart, s.inodeBitmapStart, s.blockStart]
  }

  /** What `fs_mount` reads back. */
  function ReadSb(b: Block): Superblock {
    Superblock(WordAt(b, 0), WordAt(b, 4), WordAt(b, 8), WordAt(b, 12), WordAt(b, 16), WordAt(b, 20), WordAt(b, 24),
               WordAt(b, 28), WordAt(b, 32), WordAt(b, 36))
  }

  /** The superblock is read back as written, whatever the rest of its block holds. */
  lemma SbRoundTrip(s: Superblock, garbage: Block)
    ensures ReadSb(Patch(garbage, 0, Bytes32(SbWords(s)))) == s
  {
    var ws := SbWords(s);
    var b := Patch(garbage, 0, Bytes32(ws));
    assert b[..40] == Bytes32(ws);
    forall i | 0 <= i < 10 ensures WordAt(b, 4 * i) == ws[i] {
      WordOfBytes32(ws, i);
      assert WordAt(b, 4 * i) == WordAt(b[..40], 4 * i);
    }
    assert WordAt(b, 4 * 0) == ws[0] && WordAt(b, 4 * 1) == ws[1] && WordAt(b, 4 * 2) == ws[2] && WordAt(b, 4 * 3) == ws[3];
    assert WordAt(b, 4 * 4) == ws[4] && WordAt(b, 4 * 5) == ws[5] && WordAt(b, 4 * 6) == ws[6] && WordAt(b, 4 * 7) == ws[7];
    assert WordAt(b, 4 * 8) == ws[8] && WordAt(b, 4 * 9) == ws[9];
  }

  lemma {:induction false} NoBits(k: nat)
    ensures !Bit(0, k)
  {
    if k > 0 { NoBits(k - 1); }
  }

  lemma ZeroUnmarked(i: nat)
    requires i < BITS
    ensures !MapBit(Zero(), i)
  {
    NoBits(i % 8);
  }

  /** A record of zeros has no blocks, no bytes and no type. */
  lemma ZeroRecord(v: seq<Block>, n: nat)
    requires n < NINODES && BLOCK_START <= |v| && v[InodeBlock(n)] == Zero()
    ensures NoBlocks(DiskInode(v, n)) && DiskInode(v, n).size == 0 && DiskInode(v, n).kind == 0
  {
    var r := Record(v[InodeBlock(n)], n % INODES_PER_BLOCK);
    assert forall k :: 0 <= k < INODE_SIZE ==> r[k] == 0;
    forall o: nat | o + 4 <= INODE_SIZE ensures WordAt(r, o) == 0 { }
  }

  function DiskTable(v: seq<Block>): (t: seq<Inode>)
    requires BLOCK_START <= |v|
    ensures |t| == NINODES && forall n :: 0 <= n < NINODES ==> t[n] == DiskInode(v, n)
  {
    seq(NINODES, n requires 0 <= n < NINODES => DiskInode(v, n))
  }

  ghost predicate Blanked(v: seq<Block>) {
    BLOCK_START <= |v| && forall b :: 1 <= b < BLOCK_START ==> v[b] == Zero()
  }

  lemma BlankTrees(v: seq<Block>, t: seq<Inode>)
    requires Blanked(v) && forall n :: 0 <= n < |t| ==> NoBlocks(t[n])
    ensures TreesOk(v, t, map[])
  {
    forall i, s | 0 <= i < |t| ensures At(v, Trees(t)[i], s) == 0 {
      assert NoBlocks(t[i]);
      NoSlot(v, t[i].addrs, s);
    }
    forall i | 0 <= i < BITS ensures !MapBit(v[2], i) { ZeroUnmarked(i); }
  }

  /** Zeroed metadata and an empty inode cache make an empty file system in order. */
  lemma BlankOrdered(ss: seq<CacheSlot>, v: seq<Block>)
    requires Blanked(v) && forall i :: 0 <= i < |ss| ==> ss[i].ino.inum == EMPTY
    ensures var w := World(ss, DiskTable(v), seq(NINODES, _ => 0), v, map[]);
      Ordered(w) && (forall n :: 0 <= n < BITS ==> !MapBit(v[1], n)) && forall n :: 0 <= n < NINODES ==> w.t[n].kind == 0
  {
    hide DiskInode, TreesOk, Solid, LinksOk, MapBit;
    var t := DiskTable(v);
    forall n | 0 <= n < NINODES ensures NoBlocks(t[n]) && t[n].size == 0 && t[n].kind == 0 && t[n].inum == n {
      ZeroRecord(v, n);
    }
    BlankTrees(v, t);
    forall n | 0 <= n < NINODES ensures Solid(v, t[n]) { EmptyInode(v, t[n]); }
    forall n | 0 <= n < BITS ensures !MapBit(v[1], n) { ZeroUnmarked(n); }
  }

  /** The device before any inode exists: what `cmd_f` leaves after clearing the metadata. */
  ghost predicate Blank(w: World) {
    && Ordered(w) && w.owner == map[] && |w.ss| == NCACHE
    && (forall n :: 0 <= n < |w.refs| ==> w.refs[n] == 0)
    && (forall i :: 0 <= i < |w.ss| ==> w.ss[i].ino.inum == EMPTY)
    && (1 < |w.v| && forall n :: 0 <= n < BITS ==> !MapBit(w.v[1], n))
    && (forall n :: 0 <= n < |w.t| ==> w.t[n].kind == 0)
  }

  method ZeroBlocks(fs: FileSystem, first: nat, count: nat)
    requires fs.DeviceOk() && 1 <= first && first + count <= BLOCK_START
    modifies fs.dev, fs.dev.arr, fs.dev.disk.data
    ensures fs.DeviceOk() && |fs.dev.contents| == |old(fs.dev.contents)|
    ensures forall b :: 0 <= b < |fs.dev.contents| ==>
              fs.dev.contents[b] == if first <= b < first + count then Zero() else old(fs.dev.contents)[b]
  {
    hide Inv;
    var i := 0;
    while i < count
      invariant 0 <= i <= count && fs.DeviceOk() && |fs.dev.contents| == |old(fs.dev.contents)|
      invariant forall b :: 0 <= b < |fs.dev.contents| ==>
                  fs.dev.contents[b] == if first <= b < first + i then Zero() else old(fs.dev.contents)[b]
    {
      fs.WriteBlock(first + i, Zero());
      i := i + 1;
    }
  }

  method InitInodeCache(slots: array<CacheSlot>)
    requires slots.Length == NCACHE
    modifies slots
    ensures forall i :: 0 <= i < NCACHE ==> slots[i] == old(slots[i]).(ino := old(slots[i]).ino.(inum := EMPTY))
  {
    var i := 0;
    while i < NCACHE
      invariant 0 <= i <= NCACHE
      invariant forall j :: 0 <= j < i ==> slots[j] == old(slots[j]).(ino := old(slots[j]).ino.(inum := EMPTY))
      invariant forall j :: i <= j < NCACHE ==> slots[j] == old(slots[j])
    {
      slots[i] := slots[i].(ino := slots[i].ino.(inum := EMPTY));
      i := i + 1;
    }
  }

  /** `cmd_f` up to and including `init_inode_cache`; `garbage` is what the buffer for the
      superblock happened to hold. */
  method Clear(fs: FileSystem, ncyl: nat, nsec: nat, garbage: Block)
    requires fs.dev.Valid() && fs.slots.Length == NCACHE
    requires ncyl * nsec == |fs.dev.contents| && BLOCK_START <= ncyl * nsec < 0x8000_0000
    modifies fs, fs.slots, fs.dev, fs.dev.arr, fs.dev.disk.data
    ensures fs.Valid() && Blank(fs.Now()) && |fs.dev.contents| == |old(fs.dev.contents)|
    ensures ReadSb(fs.dev.contents[0]) == fs.sb == SbInit(ncyl * nsec)
  {
    hide Inv, Ordered, SoundWorld, ReadSb, SbWords, Patch;
    fs.sb := SbInit(ncyl * nsec);
    SbRoundTrip(fs.sb, garbage);
    fs.WriteBlock(0, Patch(garbage, 0, Bytes32(SbWords(fs.sb))));
    ZeroBlocks(fs, fs.sb.inodeBitmapStart, fs.sb.ninodeBlocksBitmapBlocks);
    ZeroBlocks(fs, fs.sb.bmapstart, fs.sb.ndataBlocksBitmapBlocks);
    ZeroBlocks(fs, fs.sb.inodeStart, fs.sb.ninodeBlocks);
    InitInodeCache(fs.slots);
    fs.table, fs.refs, fs.owner := DiskTable(fs.dev.contents), seq(NINODES, _ => 0), map[];
    BlankOrdered(fs.slots[..], fs.dev.contents);
    OrderedSound(fs.Now());
  }
}
