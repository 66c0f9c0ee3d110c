/** The root directory of a freshly formatted device. */
module RootDir {
  import opened Bytes
  import opened Results
  import opened BlockTree
  import opened Bitmap
  import opened Inodes
  import opened Growth
  import opened Files
  import opened InodeCache
  import opened World
  import opened Writes
  import opened BlockZero
  import opened FileSystem
  import opened Cache
  import opened Commands
  import opened DirOps
  import opened Walking
  import opened Invariant
  import opened Numbering
  import opened Formatting
  import opened Namespace
  import D = Directory

  /** The first block of a file without blocks takes exactly one block. */
  lemma FirstBlock(w: World, k: nat)
    requires k < |w.ss| && NoBlocks(w.ss[k].ino)
    ensures Need(w, k, 0, D.ENTRY_SIZE) == 1
  {
    var x := Lacking(w, k, 0, D.ENTRY_SIZE);
    assert Ceil(D.ENTRY_SIZE) == 1;
    forall s ensures s in x <==> s == Top(0) {
      if s in x {
        var b: nat :| 0 <= b < 1 && s in Path(LeafOf(b));
        assert LeafOf(0) == Top(0);
      }
      if s == Top(0) {
        assert Path(LeafOf(0)) == {Top(0)};
        assert Top(0) in RangeSlots(0, 1);
      }
    }
    assert x == {Top(0)};
  }

  /** Records within the first block of a file run into no pointer block. */
  lemma FirstKeeps(w: World, k: nat, es: seq<D.Entry>)
    requires k < |w.ss| && |es| <= 1
    ensures !AddOverruns(w, k, es)
  {
    hide Missing, Capacity;
    if Overruns(w, k, D.ENTRY_SIZE * |es|, D.ENTRY_SIZE) {
      var off, a := D.ENTRY_SIZE * |es|, w.ss[k].ino.addrs;
      var b: nat :| off / BSIZE <= b < Ceil(off + D.ENTRY_SIZE) && b < MAXBLOCKS && Short(w.v, a, |w.owner|, off / BSIZE, b);
      assert b == 0;
      FirstSlots(w.v, a);
    }
  }

  lemma FirstSlots(v: seq<Block>, a: Addrs)
    ensures |Missing(v, a, 0, 1)| <= 1
  {
    forall s | s in RangeSlots(0, 1) ensures s == Top(0) {
      var b: nat :| 0 <= b < 1 && s in Path(LeafOf(b));
    }
    SubsetSize(Missing(v, a, 0, 1), {Top(0)});
  }

  /** The metadata of a directory that formatting makes: user 1 may do anything in it, others read and search it. */
  ghost predicate BaseDir(x: Inode, links: nat) {
    x.kind == 1 && x.mode == 0x1ED && x.uid == 1 && x.gid == 0 && x.nlink == links && x.flags == 0
  }

  lemma BaseKept(w: World, w': World, d: nat, links: nat)
    requires MetaKept(w, w', d) && BaseDir(w.t[d], links)
    ensures BaseDir(w'.t[d], links)
  {
  }

  /** What formatting leaves: a root that holds `.` if the device has any data block. */
  ghost predicate Formatted(w: World, k: nat) {
    && FsOk(w) && k < |w.ss| && w.ss[k].ino.inum == ROOT_INUM
    && |w.refs| == NINODES && (forall n :: 0 <= n < NINODES ==> w.refs[n] == if n == ROOT_INUM then 1 else 0)
    && 0 < |w.t| && Records(w, ROOT_INUM) == (if |w.v| > 35 then [D.Entry(1, 0, [0x2E])] else [])
    && OnlyRoot(w) && NumbersBelow(w, 1) && BaseDir(w.t[ROOT_INUM], 1)
  }

  /** The inode numbers taken are those below `k`. */
  ghost predicate NumbersBelow(w: World, k: nat) {
    forall n: nat :: Numbered(w, n) <==> n < k
  }

  lemma RootNumbers(w: World, w1: World, w2: World)
    requires Blank(w) && NewNumber(w, w1, 0) && SameNumbers(w1, w2)
    ensures NumbersBelow(w2, 1)
  {
    hide Ordered, MapBit, SameNumbers;
    SameNumbered(w1, w2);
    forall n: nat ensures !Numbered(w, n) { }
  }

  lemma CreatedNumber(w: World, w1: World, k: nat, n: nat, x: Inode)
    requires Fresh(w, w1, k, n, x)
    ensures NewNumber(w, w1, n)
  {
    hide Ordered, WalkedBut, NewNumber, KeptSlots;
  }

  /** No inode but the root is a directory. */
  ghost predicate OnlyRoot(w: World) {
    forall n :: 0 < n < |w.t| ==> w.t[n].kind != T_DIR
  }

  lemma OnlyRootStays(w: World, w1: World, w2: World)
    requires Blank(w) && WalkedBut(w, w1, 0) && OthersSame(w1, w2, 0)
    ensures OnlyRoot(w2)
  {
    hide Ordered, SameFile, MapBit;
  }

  lemma OnlyRootWalked(w: World, w': World)
    requires OnlyRoot(w) && Walked(w, w')
    ensures OnlyRoot(w')
  {
    hide SameFile;
  }

  lemma CreatedBut(w: World, w1: World, k: nat, n: nat, x: Inode)
    requires Fresh(w, w1, k, n, x)
    ensures WalkedBut(w, w1, n)
  {
    hide Ordered, WalkedBut, NewNumber, KeptSlots;
  }

  lemma RewrittenOthers(w: World, w': World, n: nat, es: seq<D.Entry>)
    requires Rewritten(w, w', n, es)
    ensures OthersSame(w, w', n)
  {
    hide SoundWorld, OthersSame, Solid, Records;
  }

  lemma BlankParts(w: World)
    requires Blank(w)
    ensures Ordered(w) && w.owner == map[] && |w.ss| == NCACHE && |w.t| == |w.refs| == NINODES && BLOCK_START <= |w.v|
    ensures Held(w.ss, EMPTY) && forall n :: 0 <= n < NINODES ==> w.refs[n] == 0
    ensures forall n: nat :: FirstFree(w.v[1], n) ==> n == 0
    ensures SoundWorld(w)
  {
    hide Ordered, MapBit, SoundWorld;
    OrderedSize(w);
    OrderedSound(w);
    assert w.ss[0].ino.inum == EMPTY;
    assert !MapBit(w.v[1], 0);
    forall n: nat | FirstFree(w.v[1], n) ensures n == 0 { }
  }

  lemma RootCreated(w: World, w1: World, now: uint32, n: nat, r: Option<nat>)
    requires Blank(w) && SoundWorld(w1) && |w.t| == NINODES && BLOCK_START <= |w.v| && INumbered(w, w1, T_DIR, now, n, r)
    ensures n == 0 && r.Some? && Fresh(w, w1, r.value, 0, NewInode(0, T_DIR, now)) && RootOk(w1)
  {
    hide Blank, Ordered, SoundWorld, Fresh, MapBit, Acquired, WithNumber, Held, RootOk;
    BlankParts(w);
    AllocCreated(w, w1, T_DIR, now, n, r);
    AllocFails(w, w1, T_DIR, now, n, r);
  }

  /** `.` has been added to the new root. */
  lemma DotAdded(w: World, w1: World, w2: World, k: nat, x: Inode)
    requires Blank(w) && Fresh(w, w1, k, 0, x) && RootOk(w1) && x.size == 0 && BaseDir(x, 1) && k < |w1.ss| && 0 < |w1.t|
    requires Rewritten(w1, w2, 0, if AddHasRoom(w1, k, Records(w1, 0)) then D.Added(Records(w1, 0), D.DOT, T_DIR, 0) else Records(w1, 0))
    ensures Formatted(w2, k)
  {
    hide Blank, Ordered, SoundWorld, WalkedBut, Solid, Edited, LinksOk, Changed, Numbered, NewNumber, Capacity, D.Entries, OnlyRoot, NumbersBelow;
    CreatedBut(w, w1, k, 0, x);
    RewrittenOthers(w1, w2, 0, if AddHasRoom(w1, k, Records(w1, 0)) then D.Added(Records(w1, 0), D.DOT, T_DIR, 0) else Records(w1, 0));
    BlankParts(w);
    OrderedSize(w1);
    EmptyInode(w1.v, x);
    assert Records(w1, 0) == [];
    DotRoom(w, w1, k, x);
    EditedChanged(w1, w2, 0);
    ChangedTable(w1, w2, 0);
    SameNumbered(w1, w2);
    SameLinks(w1, w2);
    ChangedSlots(w1, w2, 0);
    DotLinks(w1);
    ChangedFsOk(w1, w2, 0);
    EditedLength(w1, w2, 0);
    CreatedLength(w, w1, 0);
    OnlyRootStays(w, w1, w2);
    CreatedNumber(w, w1, k, 0, x);
    MetaEdited(w1, w2, 0);
    BaseKept(w1, w2, 0, 1);
    RootNumbers(w, w1, w2);
  }

  lemma CreatedLength(w: World, w1: World, n: nat)
    requires WalkedBut(w, w1, n)
    ensures |w1.v| == |w.v|
  {
    hide SameFile;
  }

  lemma EditedLength(w: World, w': World, n: nat)
    requires Edited(w, w', n)
    ensures |w'.v| == |w.v|
  {
    hide SoundWorld, OthersSame;
  }

  lemma DotRoom(w: World, w1: World, k: nat, x: Inode)
    requires Fresh(w, w1, k, 0, x) && w.owner == map[] && |w.v| >= BLOCK_START
    ensures k < |w1.ss|
    ensures AddHasRoom(w1, k, []) <==> |w.v| > BLOCK_START
    ensures D.Added([], D.DOT, T_DIR, 0) == [D.Entry(T_DIR, 0, D.DOT)]
  {
    hide Ordered, WalkedBut, NewNumber, Need;
    FirstBlock(w1, k);
    CreatedLength(w, w1, 0);
  }

  lemma DotLinks(w: World)
    requires RootOk(w)
    ensures LinksOk(w, [D.Entry(T_DIR, 0, D.DOT)]) && LinksOk(w, []) && Numbered(w, 0)
  {
    hide Numbered;
  }

  lemma IUpdated(w: World, k: nat)
    requires Formatted(w, k)
    ensures BLOCK_START <= |w.v| && Formatted(StoredWorld(w, k), k)
  {
    hide FsOk, Ordered, SoundWorld, Walked, D.Entries, Stored, Numbered, Contents;
    FsOkOrdered(w);
    StoredWorldSound(w, k);
    var w' := StoredWorld(w, k);
    StoredWalked(w, k);
    WalkedFsOk(w, w');
    WalkedFile(w, w', 0);
    WalkedNumbers(w, w');
    SameNumbered(w, w');
    MetaWalked(w, w', 0);
    BaseKept(w, w', 0, 1);
    OnlyRootWalked(w, w');
  }

  lemma StoredWalked(w: World, k: nat)
    requires SoundWorld(w) && k < |w.ss| && w.ss[k].ino.inum < NINODES
    ensures BLOCK_START <= |w.v| && Walked(w, StoredWorld(w, k)) && |StoredWorld(w, k).v| == |w.v|
  {
    hide SoundWorld, SameFile, Stored;
    SoundSlot(w, k);
    StoredWorldSound(w, k);
    StoredLength(w.v, w.ss[k].ino, w.ss[k].refs % 0x1_0000_0000);
    StoredSuper(w.v, w.ss[k].ino, w.ss[k].refs % 0x1_0000_0000);
  }

  /** `cmd_f` from the allocation of the root on, without the home directory. */
  method MakeRoot(fs: FileSystem, now: uint32) returns (root: Option<nat>)
    requires fs.Valid() && |fs.table| == NINODES && Blank(fs.Now())
    modifies fs, fs.slots, fs.dev, fs.dev.arr, fs.dev.disk.data
    ensures fs.Valid() && fs.sb == old(fs.sb)
    ensures root.Some? && fs.IsInode(root.value) && Formatted(fs.Now(), root.value)
    ensures 0 < |fs.table| && Timed(fs.table[0], now)
    ensures Super(old(fs.dev.contents), fs.dev.contents, false)
  {
    hide Inv, SoundWorld, Ordered, Blank, INumbered, Fresh, Stored, Rewritten, Formatted, DirOk, FsOk, Records, AddHasRoom, Held,
      AddOverruns, FirstFree, Stamped, Ticked, RecordAdded, NewFields;
    ghost var w, n := fs.Now(), 0;
    BlankParts(w);
    var spilt;
    root, spilt, n := IAlloc(fs, T_DIR, now);
    ghost var w1 := fs.Now();
    INumber(w, w1, T_DIR, now, n, root);
    RootCreated(w, w1, now, n, root);
    if root.None? {
      return;
    }
    var k := root.value;
    var x := fs.slots[k].ino;
    CreatedInode(w, w1, k, 0, NewInode(0, T_DIR, now));
    var y := x.(mode := 0x1ED, uid := 1, gid := 0, nlink := 1, atime := now, mtime := now, ctime := now);
    CreatedSet(w, w1, k, 0, x, y);
    fs.SetInode(k, y);
    fs.IUpdate(k);
    ghost var w2 := fs.Now();
    CreatedOrdered(w, w2, k, 0, y);
    CreatedInode(w, w2, k, 0, y);
    CreatedSuper(w, w2, k, 0, y);
    OrderedDir(w2, k);
    NoRecords(w2, 0);
    FirstKeeps(w2, k, []);
    var ok := DirAdd(fs, k, D.DOT, T_DIR, fs.slots[k].ino.inum, now);
    TimedStays(y, fs.slots[k].ino, now);
    DotAdded(w, w2, fs.Now(), k, y);
    FormattedSlot(fs.Now(), k);
    SoundSlot(fs.Now(), k);
    IUpdated(fs.Now(), k);
    StoredSuper(fs.dev.contents, fs.slots[k].ino, fs.slots[k].refs % 0x1_0000_0000);
    fs.IUpdate(k);
  }

  lemma CreatedSuper(w: World, w1: World, k: nat, n: nat, x: Inode)
    requires Fresh(w, w1, k, n, x)
    ensures SameSuper(w.v, w1.v) && n < |w1.t| && w1.t[n] == x
  {
    hide Ordered, WalkedBut, NewNumber, KeptSlots;
  }

  lemma FormattedSlot(w: World, k: nat)
    requires Formatted(w, k)
    ensures k < |w.ss| && w.ss[k].ino.inum == ROOT_INUM
  {
    hide FsOk, Records;
  }
}
