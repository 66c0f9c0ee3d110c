/** Allocating inode numbers. */
module Numbering {
  import opened Bytes
  import opened Results
  import opened BlockTree
  import opened Bitmap
  import opened Inodes
  import opened Growth
  import opened Files
  import opened InodeCache
  import opened World
  import opened FileSystem
  import opened Cache
  import opened Commands
  import opened DirOps
  import opened Invariant
  import D = Directory

  function SetBit(b: Block, n: nat): (b': Block)
    requires n < BITS && !MapBit(b, n)
    ensures forall j :: 0 <= j < BITS ==> (MapBit(b', j) <==> j == n || MapBit(b, j))
  {
    ByteOfSet(b[n / 8], n % 8);
    var b' := b[n / 8 := b[n / 8] + Shift(n % 8)];
    MapBitSet(b, n, b');
    b'
  }

  function NoAddrs(): (a: Addrs)
    ensures forall i :: 0 <= i < NADDRS ==> a[i] == 0
  {
    seq(NADDRS, _ => 0)
  }

  /** The inode `ialloc` writes to disk. */
  function NewInode(n: uint32, kind: uint16, now: uint32): Inode {
    Inode(n, kind, 1, 0, 0, 0, 0, if kind == T_DIR then 0x1ED else 0x1A4, now, now, now, 0, NoAddrs(), seq(7, _ => 0))
  }

  /** A new inode: one link, no owner, no bytes and no blocks; a directory may be read and searched by all, and a file
      read by all and written by its owner. */
  ghost predicate NewFields(x: Inode, n: nat, kind: uint16, now: uint32) {
    && x.inum == n && x.kind == kind && x.nlink == 1 && x.size == 0 && x.blocks == 0 && x.uid == 0 && x.gid == 0
    && x.mode == (if kind == 1 then 0x1ED else 0x1A4) && x.atime == now && x.mtime == now && x.ctime == now && x.flags == 0
    && (forall i :: 0 <= i < 13 ==> x.addrs[i] == 0) && (forall i :: 0 <= i < 7 ==> x.reserved[i] == 0)
  }

  lemma NewInodeFields(n: uint32, kind: uint16, now: uint32)
    ensures NewFields(NewInode(n, kind, now), n, kind, now)
  {
  }

  /** The state once number `n` has been marked and its record written. */
  function WithNumber(w: World, n: nat, x: Inode): World
    requires n < NINODES == |w.t| && BLOCK_START <= |w.v| && !MapBit(w.v[1], n)
  {
    w.(v := Stored(w.v[1 := SetBit(w.v[1], n)], n, x, 0), t := w.t[n := x])
  }

  lemma NumberedTable(ss: seq<CacheSlot>, t: seq<Inode>, refs: seq<nat>, v: seq<Block>, n: nat, x: Inode, b: Block)
    requires TableOk(ss, t, refs, v) && n < NINODES && refs[n] == 0 && x.inum == n
    ensures TableOk(ss, t[n := x], refs, Stored(v[1 := b], n, x, 0))
  {
    hide Stored, DiskInode, Held, SlotOk;
    var v1 := v[1 := b];
    TableFrame(ss, t, refs, v, v1);
    forall m | 0 <= m < NINODES && refs[m] == 0 ensures t[n := x][m] == DiskInode(Stored(v1, n, x, 0), m) {
      OnDisk(ss, t, refs, v1, m);
      StoredInode(v1, n, x, 0, m);
    }
    forall k | 0 <= k < |ss| ensures SlotOk(ss[k], t[n := x], refs) {
      assert SlotOk(ss[k], t, refs);
      NumberedSlot(ss[k], t, refs, n, x);
    }
  }

  lemma OnDisk(ss: seq<CacheSlot>, t: seq<Inode>, refs: seq<nat>, v: seq<Block>, m: nat)
    requires TableOk(ss, t, refs, v) && m < NINODES && refs[m] == 0
    ensures t[m] == DiskInode(v, m)
  {
    hide SlotOk, Held, DiskInode;
  }

  lemma NumberedSlot(s: CacheSlot, t: seq<Inode>, refs: seq<nat>, n: nat, x: Inode)
    requires |t| == |refs| == NINODES && SlotOk(s, t, refs) && n < NINODES && refs[n] == 0
    ensures SlotOk(s, t[n := x], refs)
  {
  }

  lemma NumberedTrees(v: seq<Block>, t: seq<Inode>, owner: map<nat, Key>, n: nat, x: Inode, b: Block)
    requires TreesOk(v, t, owner) && n < |t| && n < NINODES && NoBlocks(t[n]) && NoBlocks(x)
    ensures TreesOk(Stored(v[1 := b], n, x, 0), t[n := x], owner)
    ensures forall j :: 0 <= j < |t| ==> SameTree(v, t[j].addrs, Stored(v[1 := b], n, x, 0))
    ensures forall p :: BLOCK_START <= p < |v| ==> Stored(v[1 := b], n, x, 0)[p] == v[p]
  {
    var v1 := v[1 := b];
    OwnedFrame(v, v1, Trees(t), owner);
    assert x.addrs == t[n].addrs;
    assert Trees(t[n := x]) == Trees(t);
    forall j, u | 0 <= j < |t| && Good(u) ensures At(v1, t[j].addrs, u) == At(v, t[j].addrs, u) {
      assert At(v1, Trees(t)[j], u) == At(v, Trees(t)[j], u);
    }
    StoredTrees(v1, t, owner, n, x, 0);
    StoredTrees(v1, t[n := x], owner, n, x, 0);
    hide Stored, Owned, Marked, At;
    forall j | 0 <= j < |t| ensures SameTree(v, t[j].addrs, Stored(v1, n, x, 0)) {
      TreeTrans(v, t[j].addrs, v1, Stored(v1, n, x, 0));
    }
  }

  lemma WithNumberSound(w: World, n: nat, x: Inode)
    requires SoundWorld(w) && n < NINODES == |w.t| && |w.refs| == NINODES && BLOCK_START <= |w.v| && !MapBit(w.v[1], n)
    requires w.refs[n] == 0 && NoBlocks(w.t[n]) && NoBlocks(x) && x.inum == n
    ensures SoundWorld(WithNumber(w, n, x))
    ensures forall j :: 0 <= j < |w.t| && j != n ==> SameFile(w.v, w.t[j].addrs, WithNumber(w, n, x).v)
  {
    hide SetBit, Owned, TableOk, Stored, Marked, SameTree;
    NumberedTable(w.ss, w.t, w.refs, w.v, n, x, SetBit(w.v[1], n));
    NumberedTrees(w.v, w.t, w.owner, n, x, SetBit(w.v[1], n));
    forall j | 0 <= j < |w.t| && j != n ensures SameFile(w.v, w.t[j].addrs, WithNumber(w, n, x).v) {
      DataAbove(w.v, w.t, w.owner, j, WithNumber(w, n, x).v);
    }
  }

  lemma WithNumberBitmap(w: World, n: nat, x: Inode)
    requires n < NINODES == |w.t| && BLOCK_START <= |w.v| && !MapBit(w.v[1], n)
    ensures var w' := WithNumber(w, n, x);
      |w'.v| == |w.v| && forall m: nat :: Numbered(w', m) <==> m == n || Numbered(w, m)
  {
    hide MapBit;
    assert WithNumber(w, n, x).v[1] == SetBit(w.v[1], n);
  }

  lemma EmptyInode(v: seq<Block>, x: Inode)
    requires NoBlocks(x) && x.size == 0
    ensures Solid(v, x) && Contents(v, x) == []
  {
    forall b: nat ensures Lookup(v, x.addrs, b) == 0 {
      if b < MAXBLOCKS { NoSlot(v, x.addrs, LeafOf(b)); }
    }
  }

  lemma {:induction false} NoSlot(v: seq<Block>, a: Addrs, s: Slot)
    requires forall i :: 0 <= i < NADDRS ==> a[i] == 0
    ensures At(v, a, s) == 0
  {
    if s.Sub? { NoSlot(v, a, s.parent); }
  }

  /** Numbering a new inode keeps everything in order. */
  lemma WithNumberOrdered(w: World, n: nat, x: Inode)
    requires Ordered(w) && n < NINODES == |w.t| && BLOCK_START <= |w.v| && !MapBit(w.v[1], n)
    requires NoBlocks(x) && x.inum == n && x.size == 0
    ensures Ordered(WithNumber(w, n, x)) && w.refs[n] == 0
    ensures RootOk(w) && (n == 0 ==> x.kind == T_DIR) ==> RootOk(WithNumber(w, n, x))
    ensures n == 0 && x.kind == T_DIR ==> RootOk(WithNumber(w, n, x))
  {
    hide SoundWorld, Solid, LinksOk, Numbered, WithNumber, SetBit, Contents;
    var w' := WithNumber(w, n, x);
    NotNumbered(w, n);
    WithNumberSound(w, n, x);
    WithNumberBitmap(w, n, x);
    WithNumberFields(w, n, x);
    forall m | 0 <= m < |w'.t| ensures FileOk(w', m) {
      if m == n {
        EmptyInode(w'.v, x);
        assert Records(w', n) == [];
        NoLinks(w');
      } else {
        assert FileOk(w, m);
        OldFile(w, w', m);
        if w.t[m].kind == T_DIR { MoreLinks(w, w', Records(w, m)); }
      }
    }
  }

  lemma NotNumbered(w: World, n: nat)
    requires 1 < |w.v| && n < BITS && !MapBit(w.v[1], n)
    ensures !Numbered(w, n)
  {
  }

  lemma WithNumberFields(w: World, n: nat, x: Inode)
    requires n < NINODES == |w.t| && BLOCK_START <= |w.v| && !MapBit(w.v[1], n)
    ensures var w' := WithNumber(w, n, x);
      w'.t == w.t[n := x] && w'.refs == w.refs && w'.ss == w.ss && w'.owner == w.owner
  {
  }

  lemma NoLinks(w: World)
    ensures LinksOk(w, [])
  {
  }

  lemma MoreLinks(w: World, w': World, es: seq<D.Entry>)
    requires LinksOk(w, es) && forall m: nat :: Numbered(w, m) ==> Numbered(w', m)
    requires forall m: nat :: m < |w.t| && Numbered(w, m) ==> m < |w'.t| && w'.t[m].kind == w.t[m].kind
    ensures LinksOk(w', es)
  {
    hide Numbered;
    forall i | 0 <= i < |es| ensures LinkOk(w', es[i]) {
      assert LinkOk(w, es[i]);
    }
  }

  lemma OldFile(w: World, w': World, m: nat)
    requires m < |w.t| && m < |w'.t| && w'.t[m] == w.t[m] && SameFile(w.v, w.t[m].addrs, w'.v)
    ensures Records(w', m) == Records(w, m) && (Solid(w'.v, w'.t[m]) <==> Solid(w.v, w.t[m]))
  {
    hide SameFile, Solid, Contents;
    SameFileContents(w.v, w.t[m], w'.v);
  }

  // ---------------------------------------------------------------- ialloc

  /** The first clear bit of the inode bitmap, or 4096 if there is none. */
  predicate FirstFree(b: Block, n: nat) {
    n <= BITS && (n < BITS ==> !MapBit(b, n)) && forall i :: 0 <= i < n ==> MapBit(b, i)
  }

  /** Number `n` can be given out on a device of `size` blocks. */
  predicate Grants(n: nat, size: nat) {
    n < NINODES && n < size
  }

  /** Number `n` passes the range check of `ialloc`, which is against the number of blocks, although
      the inode area has no place for its record. */
  predicate Spills(n: nat, size: nat) {
    NINODES <= n < BITS && n < size
  }

  /** The next number to be given out does so. */
  ghost predicate Spilling(v: seq<Block>) {
    1 < |v| && exists n: nat :: FirstFree(v[1], n) && Spills(n, |v|)
  }

  /** The next number can be given out. */
  ghost predicate Granting(v: seq<Block>) {
    1 < |v| && exists n: nat :: FirstFree(v[1], n) && Grants(n, |v|)
  }

  /** One look at the bitmap tells which. */
  lemma NextNumber(v: seq<Block>, n: nat)
    requires 1 < |v| && FirstFree(v[1], n)
    ensures Spilling(v) <==> Spills(n, |v|)
    ensures Granting(v) <==> Grants(n, |v|)
  {
    hide FirstFree;
    forall m: nat | FirstFree(v[1], m) ensures m == n { OneFirst(v[1], m, n); }
  }

  lemma OneFirst(b: Block, m: nat, n: nat)
    requires FirstFree(b, m) && FirstFree(b, n)
    ensures m == n
  {
    hide MapBit;
  }

  /** `ialloc` has marked number `n` and written its record behind the inode area, to the data block that
      is where its place would be, before `iget` refuses the number. */
  ghost predicate Spilt(w: World, w': World, n: nat, x: Inode) {
    && BLOCK_START <= |w.v| && Spills(n, |w.v|) && FirstFree(w.v[1], n) && InodeBlock(n) < |w.v|
    && w' == w.(v := w.v[1 := SetBit(w.v[1], n)][InodeBlock(n) := OverRecord(w.v[InodeBlock(n)], n, x)])
  }

  /** The block with the record of number `n` written to it. */
  function OverRecord(b: Block, n: nat, x: Inode): Block {
    Patch(b, INODE_SIZE * (n % INODES_PER_BLOCK), Encode(x, 0))
  }

  /** `ialloc` takes the first free number, unless the device has no more blocks than that: the
      number is marked and a new record written, and the inode is acquired. A number that the
      inode area has no place for is spilt. */
  ghost predicate INumbered(w: World, w': World, kind: uint16, now: uint32, n: nat, r: Option<nat>)
    requires |w.t| == NINODES && BLOCK_START <= |w.v|
  {
    && FirstFree(w.v[1], n)
    && if Grants(n, |w.v|) then Acquired(WithNumber(w, n, NewInode(n, kind, now)), w', n, r)
       else r == None && if Spills(n, |w.v|) then Spilt(w, w', n, NewInode(n, kind, now)) else w' == w
  }

  /** `ialloc`. `spilt` is what the source does not report. */
  method IAlloc(fs: FileSystem, kind: uint16, now: uint32) returns (r: Option<nat>, spilt: bool, ghost n: nat)
    requires fs.Valid() && |fs.table| == NINODES && Ordered(fs.Now())
    modifies fs, fs.slots, fs.dev, fs.dev.arr, fs.dev.disk.data
    ensures fs.DeviceOk() && fs.sb == old(fs.sb) && |fs.dev.contents| == |old(fs.dev.contents)|
    ensures spilt <==> Spills(n, |fs.dev.contents|)
    ensures !spilt ==> fs.Valid() && (r.Some? ==> fs.IsInode(r.value))
    ensures INumbered(old(fs.Now()), fs.Now(), kind, now, n, r)
    ensures r.Some? ==> !spilt && n < 128 && n < |fs.dev.contents| && NewFields(fs.slots[r.value].ino, n, kind, now)
    ensures spilt <==> 128 <= n < 4096 && n < |fs.dev.contents|
    ensures n >= 4096 || n >= |fs.dev.contents| ==> fs.Now() == old(fs.Now())
    ensures Ticked(old(fs.table), fs.table, now)
  {
    hide Inv, SoundWorld, Ordered, Acquired, MapBit, Stored, SetBit, Spilt, Encode, NewFields;
    ghost var w := fs.Now();
    var bitmap := fs.ReadBlock(fs.sb.inodeBitmapStart, Zero());
    var inum, next := fs.FindClear(bitmap, BITS);
    n := inum;
    if inum == BITS || inum >= fs.sb.size {
      return None, false, n;
    }
    fs.WriteBlock(fs.sb.inodeBitmapStart, next);
    SetBitIs(bitmap, inum, next);
    var x := NewInode(inum, kind, now);
    fs.StoreRecord(x, 0);
    if inum >= NINODES {
      SpiltIs(w, fs.Now(), inum, x);
      return None, true, n;
    }
    fs.table := fs.table[inum := x];
    assert fs.Now() == WithNumber(w, inum, x);
    WithNumberOrdered(w, inum, x);
    OrderedSound(fs.Now());
    r := fs.IGet(inum);
    spilt := false;
    AcquiredSize(WithNumber(w, inum, x), fs.Now(), inum, r);
    if r.Some? {
      AcquiredInode(WithNumber(w, inum, x), fs.Now(), inum, r.value);
      NewInodeFields(inum, kind, now);
    }
  }

  lemma AcquiredInode(w: World, w': World, n: uint32, k: nat)
    requires Acquired(w, w', n, Some(k))
    ensures n < |w.t| && k < |w'.ss| && w'.ss[k].ino == w.t[n]
  {
    hide Held;
  }

  lemma SpiltIs(w: World, w': World, n: nat, x: Inode)
    requires BLOCK_START <= |w.v| && Spills(n, |w.v|) && FirstFree(w.v[1], n) && InodeBlock(n) < |w.v|
    requires w' == w.(v := w.v[1 := SetBit(w.v[1], n)][InodeBlock(n) := OverRecord(w.v[InodeBlock(n)], n, x)])
    ensures Spilt(w, w', n, x)
  {
    hide MapBit, SetBit, OverRecord;
  }

  lemma AcquiredSize(w: World, w': World, n: uint32, r: Option<nat>)
    requires Acquired(w, w', n, r)
    ensures |w'.v| == |w.v|
  {
    hide Held;
  }

  lemma OrderedSound(w: World)
    requires Ordered(w)
    ensures SoundWorld(w)
  {
    hide NumbersOk, FilesOk;
  }

  lemma SetBitIs(b: Block, n: nat, next: Block)
    requires n < BITS && !MapBit(b, n) && 0 <= b[n / 8] + Shift(n % 8) < 0x100 && next == b[n / 8 := b[n / 8] + Shift(n % 8)]
    ensures next == SetBit(b, n)
  {
  }
}
