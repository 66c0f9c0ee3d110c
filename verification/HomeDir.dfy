/** `/home`, which formatting makes in the root. */
module HomeDir {
  import opened Bytes
  import opened Results
  import opened BlockTree
  import opened Bitmap
  import opened Inodes
  import opened Growth
  import opened Files
  import opened InodeCache
  import opened World
  import opened FileSystem
  import opened Cache
  import opened Commands
  import opened Editing
  import opened DirOps
  import opened Walking
  import opened Session
  import opened Invariant
  import opened Numbering
  import opened Namespace
  import opened Formatting
  import opened RootDir
  import opened MakeDir
  import opened Removal
  import opened Shell
  import D = Directory

  const HOME: seq<byte> := [0x68, 0x6F, 0x6D, 0x65]
  const HOME_INUM: uint32 := 1

  /** What formatting leaves of `/home`: inode 1 is a directory that the root names if there was room for
      its record, and that has `.` and `..` exactly if there still was a free block, in `mid`. */
  ghost predicate HomeMade(w: World, mid: World, w': World, root: nat) {
    && FsOk(w') && root < |w.ss| && root < |w'.ss| && w'.ss[root].ino.inum == ROOT_INUM && w'.refs == w.refs
    && |w.t| == |w'.t| == NINODES && w'.t[HOME_INUM].kind == T_DIR && NumbersBelow(w', 2)
    && Records(w', ROOT_INUM) == (if AddHasRoom(w, root, Records(w, ROOT_INUM))
                                  then D.Added(Records(w, ROOT_INUM), HOME, T_DIR, HOME_INUM) else Records(w, ROOT_INUM))
    && (|w.v| > 35 ==> Records(w', ROOT_INUM) == [D.Entry(1, 0, [0x2E]), D.Entry(1, 1, [0x68, 0x6F, 0x6D, 0x65])])
    && Records(w', HOME_INUM) == Dots(mid, HOME_INUM, ROOT_INUM)
    && (forall n :: 1 < n < |w'.t| ==> w'.t[n].kind != T_DIR)
    && BaseDir(w'.t[0], 1) && BaseDir(w'.t[1], 2)
  }

  /** The root is acquired once more. */
  lemma RootAgain(w: World, w1: World, root: nat, r: Option<nat>)
    requires Formatted(w, root) && |w.ss| == NCACHE && Acquired(w, w1, ROOT_INUM, r) && SoundWorld(w1)
    ensures r == Some(root) && FsOk(w1) && Walked(w, w1) && KeptSlots(w, w1) && w1.owner == w.owner
    ensures w1.refs == More(w.refs, ROOT_INUM) && root < |w1.ss| && w1.ss[root].ino.inum == ROOT_INUM && Held(w1.ss, EMPTY)
    ensures NumbersBelow(w1, 1)
  {
    hide Ordered, SoundWorld, Records, Walked, KeptSlots, InUse, OnlyRoot, Numbered, Acquired;
    FsOkOrdered(w);
    RootHeld(w, w1, root, r);
    KeptRefl(w);
    WalkedRefl(w);
    AcquiredKept(w, w, w1, ROOT_INUM, root);
    AcquiredOwner(w, w1, ROOT_INUM, r);
    WalkedFsOk(w, w1);
    WalkedNumbers(w, w1);
    SameNumbered(w, w1);
    FsOkOrdered(w1);
    OneUsed(w1.refs);
    AcquiredSlots(w, w1, ROOT_INUM, r);
    SlotLeft(w1);
  }

  lemma RootHeld(w: World, w1: World, root: nat, r: Option<nat>)
    requires SoundWorld(w) && root < |w.ss| && w.ss[root].ino.inum == ROOT_INUM && Acquired(w, w1, ROOT_INUM, r)
    requires SoundWorld(w1)
    ensures r == Some(root)
  {
    hide SoundWorld;
    TableNumber(w, ROOT_INUM);
    assert Held(w.ss, ROOT_INUM);
    assert w1.ss[r.value].ino.inum == ROOT_INUM == w1.ss[root].ino.inum;
    UsedSlot(w1, root);
  }

  lemma OneUsed(refs: seq<nat>)
    requires |refs| == NINODES && forall n :: 0 < n < NINODES ==> refs[n] == 0
    ensures |InUse(refs)| < NCACHE
  {
    SubsetSize(InUse(refs), {0});
  }

  lemma HomeNumber(w1: World, w2: World, now: uint32, n: nat, r: Option<nat>)
    requires FsOk(w1) && |w1.t| == NINODES && BLOCK_START <= |w1.v| && NumbersBelow(w1, 1) && Held(w1.ss, EMPTY) && SoundWorld(w2)
    requires INumbered(w1, w2, T_DIR, now, n, r)
    ensures n == 1 && r.Some? && Fresh(w1, w2, r.value, 1, NewInode(1, T_DIR, now)) && RootOk(w2)
  {
    hide Ordered, SoundWorld, Fresh, Acquired, WithNumber, Held, MapBit;
    SecondNumber(w1, n);
    AllocCreated(w1, w2, T_DIR, now, n, r);
    AllocFails(w1, w2, T_DIR, now, n, r);
  }

  lemma SecondNumber(w: World, n: nat)
    requires NumbersBelow(w, 1) && 1 < |w.v| && FirstFree(w.v[1], n)
    ensures n == 1
  {
    hide MapBit;
    assert Numbered(w, 0) && !Numbered(w, 1) && !Numbered(w, n);
  }

  /** The second record of the root goes into its block. */
  lemma HomeRoom(w: World, root: nat)
    requires Formatted(w, root) && |w.v| > BLOCK_START
    ensures AddHasRoom(w, root, Records(w, ROOT_INUM))
    ensures D.Added(Records(w, ROOT_INUM), HOME, T_DIR, HOME_INUM) == [Dot(ROOT_INUM), D.Entry(T_DIR, HOME_INUM, HOME)]
  {
    hide SoundWorld, NumbersOk, Solid, D.Entries, OnlyRoot, NumbersBelow, Numbered, CanWrite, LinksOk;
    FsOkOrdered(w);
    SoundSlot(w, root);
    OrderedDir(w, root);
    FileOkAt(w, ROOT_INUM);
    SizeOf(w, ROOT_INUM);
    DotDotTaken(w, root, ROOT_INUM, ROOT_INUM);
    assert D.FreeSlot([Dot(ROOT_INUM)]) == 1;
  }

  /** A directory that is numbered has been given other records. */
  lemma DirGrown(w: World, w': World, n: nat, es: seq<D.Entry>, d: nat)
    requires FsOk(w) && n < |w.t| && d < |w.t| && d != n && w.t[n].kind == T_DIR && Numbered(w, n)
    requires Rewritten(w, w', n, es) && LinksOk(w, es)
    ensures FsOk(w') && w'.refs == w.refs && |w'.ss| == |w.ss| && |w'.t| == |w.t| && SameKinds(w, w') && SameNumbers(w, w')
    ensures Records(w', n) == es && Records(w', d) == Records(w, d) && Solid(w'.v, w'.t[n]) && w'.t[n].size == D.ENTRY_SIZE * |es|
    ensures forall i :: 0 <= i < |w.ss| ==> w'.ss[i].ino.inum == w.ss[i].ino.inum
  {
    hide FsOk, SoundWorld, Solid, Records, Edited, LinksOk, Changed, Numbered, SameNumbers;
    FsOkOrdered(w);
    EditedChanged(w, w', n);
    ChangedTable(w, w', n);
    SameNumbered(w, w');
    SameLinks(w, w');
    ChangedFsOk(w, w', n);
    ChangedSlots(w, w', n);
    OtherFile(w, w', n, d);
    SizeOf(w', n);
    EntryCount(w', n);
  }

  lemma EntryCount(w: World, n: nat)
    requires n < |w.t| && w.t[n].size % D.ENTRY_SIZE == 0
    ensures w.t[n].size == D.ENTRY_SIZE * |Records(w, n)|
  {
    SizeOf(w, n);
  }

  lemma DotRoomAt(w: World, k: nat)
    requires k < |w.ss| && NoBlocks(w.ss[k].ino)
    ensures AddHasRoom(w, k, []) <==> |w.owner| < Capacity(|w.v|)
    ensures D.Added([], D.DOT, T_DIR, HOME_INUM) == [Dot(HOME_INUM)]
  {
    hide Need, Capacity;
    FirstBlock(w, k);
  }

  lemma HomeLinks(w: World, es: seq<D.Entry>)
    requires RootOk(w) && Numbered(w, HOME_INUM) && w.t[HOME_INUM].kind == T_DIR
    requires forall i :: 0 <= i < |es| ==> es[i] == Dot(HOME_INUM) || es[i] == DotDot(ROOT_INUM)
    ensures LinksOk(w, es)
  {
    hide Numbered;
  }

  /** The record in the root has been added. */
  lemma HomeLinked(w1: World, w3: World, w4: World, k: nat, y: Inode, root: nat)
    requires FsOk(w1) && Fresh(w1, w3, k, HOME_INUM, y) && RootOk(w3) && y.kind == T_DIR && y.size == 0 && NumbersBelow(w1, 1)
    requires root < |w1.ss| && |w1.t| == NINODES
    requires Rewritten(w3, w4, ROOT_INUM, if AddHasRoom(w1, root, Records(w1, ROOT_INUM))
                                          then D.Added(Records(w1, ROOT_INUM), HOME, T_DIR, HOME_INUM) else Records(w1, ROOT_INUM))
    ensures FsOk(w4) && KeptSlots(w1, w4) && w4.refs == More(w1.refs, HOME_INUM) && NumbersBelow(w4, 2) && |w4.t| == NINODES
    ensures k < |w4.ss| && w4.ss[k].ino.inum == HOME_INUM && w4.ss[k].ino == w4.t[HOME_INUM] == y && Records(w4, HOME_INUM) == []
    ensures Records(w4, ROOT_INUM) == if AddHasRoom(w1, root, Records(w1, ROOT_INUM))
                                      then D.Added(Records(w1, ROOT_INUM), HOME, T_DIR, HOME_INUM) else Records(w1, ROOT_INUM)
    ensures WalkedBut2(w1, w4, HOME_INUM, ROOT_INUM) && MetaKept(w1, w4, ROOT_INUM)
  {
    hide Ordered, Numbered, WalkedBut, WalkedBut2, Records, Rewritten, SoundWorld, AddHasRoom, D.Added, KeptSlots, MetaKept;
    var room := AddHasRoom(w1, root, Records(w1, ROOT_INUM));
    FreshRefs(w1, w3, k, y);
    AddedLinked(w1, w3, w4, k, HOME_INUM, y, ROOT_INUM, HOME, T_DIR, room);
    FsOkOrdered(w4);
    SoundSlot(w4, k);
    NoRecords(w4, HOME_INUM);
  }

  lemma FreshRefs(w: World, w1: World, k: nat, y: Inode)
    requires Fresh(w, w1, k, HOME_INUM, y)
    ensures HOME_INUM < |w.refs| && w1.refs == More(w.refs, HOME_INUM)
  {
    hide Ordered, WalkedBut, NewNumber, KeptSlots;
  }

  lemma OnlyTwo(w: World, w1: World, w4: World)
    requires OnlyRoot(w) && Walked(w, w1) && WalkedBut2(w1, w4, HOME_INUM, ROOT_INUM)
    ensures forall n :: 1 < n < |w4.t| ==> w4.t[n].kind != T_DIR
  {
    hide SameFile;
  }

  /** Giving both references back. */
  lemma BothBack(w: World, w6: World, k: nat, root: nat)
    requires FsOk(w6) && |w.refs| == NINODES && w6.refs == More(More(w.refs, ROOT_INUM), HOME_INUM) && w.refs[ROOT_INUM] > 0
    requires k < |w6.ss| && w6.ss[k].ino.inum == HOME_INUM && root < |w6.ss| && w6.ss[root].ino.inum == ROOT_INUM
    ensures |w6.refs| == NINODES && BLOCK_START <= |w6.v| && w6.ss[k].refs > 0
    ensures var w7 := Released(w6, k);
      && SoundWorld(w7) && |w7.refs| == NINODES && BLOCK_START <= |w7.v| && root < |w7.ss| && w7.ss[root].ino.inum == ROOT_INUM && w7.ss[root].refs > 0
      && var w8 := Released(w7, root);
         && FsOk(w8) && Walked(w6, w8) && w8.refs == w.refs && root < |w8.ss| && w8.ss[root].ino.inum == ROOT_INUM
  {
    hide FsOk, SoundWorld, Walked, Released;
    FsOkOrdered(w6);
    ReleasedFields(w6, k);
    ReleasedOk(w6, k);
    var w7 := Released(w6, k);
    FsOkOrdered(w7);
    ReleasedFields(w7, root);
    ReleasedOk(w7, root);
    WalkedTrans(w6, w7, Released(w7, root));
    assert Less(Less(w6.refs, HOME_INUM), ROOT_INUM) == w.refs;
  }

  lemma RootDirReady(w1: World, w3: World, root: nat, k: nat, y: Inode)
    requires FsOk(w1) && Fresh(w1, w3, k, HOME_INUM, y) && y.inum == HOME_INUM
    requires root < |w1.ss| && w1.ss[root].ino.inum == ROOT_INUM && |w1.t| == NINODES
    ensures root < |w3.ss| && w3.ss[root].ino.inum == ROOT_INUM && DirOk(w3.v, w3.ss[root].ino) && w3.ss[root].ino.kind == T_DIR
    ensures k < |w3.ss| && w3.ss[k].ino.inum == HOME_INUM && |w3.t| == NINODES && Records(w3, ROOT_INUM) == Records(w1, ROOT_INUM)
    ensures AddHasRoom(w3, root, Records(w1, ROOT_INUM)) <==> AddHasRoom(w1, root, Records(w1, ROOT_INUM))
    ensures 0 < |w1.v| && Super(w1.v, w3.v, false)
  {
    hide Ordered, SoundWorld, Fresh, DirOk, AddHasRoom, AddOverruns, Records, Super, Numbered;
    OrderedDir(w1, root);
    MkDir(w1, w3, root, k, ROOT_INUM, y);
  }

  /** So far block 0 is as it was. */
  lemma RootKeeps(w: World, w1: World, w3: World, w4: World, root: nat)
    requires Formatted(w, root) && Walked(w, w1) && Super(w1.v, w3.v, false) && 0 < |w1.v| && root < |w3.ss| && |w3.t| == NINODES
    requires |w1.t| == NINODES && Records(w3, ROOT_INUM) == Records(w1, ROOT_INUM)
    requires Super(w3.v, w4.v, AddOverruns(w3, root, Records(w3, ROOT_INUM)))
    ensures Super(w.v, w4.v, false)
  {
    hide FsOk, Walked, AddOverruns, D.Entries, Contents, OnlyRoot, NumbersBelow;
    WalkedSuper(w, w1);
    WalkedFile(w, w1, ROOT_INUM);
    FirstKeeps(w3, root, Records(w3, ROOT_INUM));
  }

  /** What `.` and `..` may change: the records of inode 1. */
  ghost predicate Dotted(w4: World, w6: World) {
    && FsOk(w6) && w6.refs == w4.refs && |w6.ss| == |w4.ss| && |w4.t| == |w6.t| == NINODES && SameKinds(w4, w6) && SameNumbers(w4, w6)
    && (forall i :: 0 <= i < |w4.ss| ==> w6.ss[i].ino.inum == w4.ss[i].ino.inum)
    && Records(w6, ROOT_INUM) == Records(w4, ROOT_INUM)
    && Records(w6, HOME_INUM) == Dots(w4, HOME_INUM, ROOT_INUM)
    && w6.t[ROOT_INUM] == w4.t[ROOT_INUM] && MetaKept(w4, w6, HOME_INUM)
  }

  lemma HomeNumbered(w: World)
    requires NumbersBelow(w, 2)
    ensures Numbered(w, HOME_INUM)
  {
    hide Numbered;
  }

  lemma DottedIntro(w4: World, w5: World, w6: World)
    requires FsOk(w6) && w5.refs == w4.refs && w6.refs == w5.refs && |w6.ss| == |w5.ss| == |w4.ss| && |w4.t| == |w5.t| == |w6.t| == NINODES
    requires SameKinds(w4, w5) && SameKinds(w5, w6) && SameNumbers(w4, w5) && SameNumbers(w5, w6)
    requires forall i :: 0 <= i < |w4.ss| ==> w5.ss[i].ino.inum == w4.ss[i].ino.inum && w6.ss[i].ino.inum == w5.ss[i].ino.inum
    requires Records(w5, ROOT_INUM) == Records(w4, ROOT_INUM) == Records(w6, ROOT_INUM)
    requires Records(w6, HOME_INUM) == Dots(w4, HOME_INUM, ROOT_INUM)
    requires MetaKept(w4, w5, HOME_INUM) && MetaKept(w5, w6, HOME_INUM)
    requires w5.t[ROOT_INUM] == w4.t[ROOT_INUM] && w6.t[ROOT_INUM] == w5.t[ROOT_INUM]
    ensures Dotted(w4, w6)
  {
    hide FsOk, Records, Dots;
  }

  lemma RewrittenMeta(w: World, w': World, n: nat, es: seq<D.Entry>, d: nat)
    requires Rewritten(w, w', n, es) && d < |w.t| && d != n
    ensures MetaKept(w, w', n) && d < |w'.t| && w'.t[d] == w.t[d]
  {
    hide SoundWorld, SameFile, Solid, Records;
  }

  /** `.` and `..` in the new directory. */
  method HomeDots(fs: FileSystem, k: nat, now: uint32)
    requires fs.Valid() && fs.IsInode(k) && |fs.table| == NINODES && FsOk(fs.Now()) && NumbersBelow(fs.Now(), 2)
    requires fs.slots[k].ino.inum == HOME_INUM && NoBlocks(fs.slots[k].ino) && fs.slots[k].ino.kind == T_DIR
    requires fs.table[HOME_INUM].kind == T_DIR && Records(fs.Now(), HOME_INUM) == []
    modifies fs, fs.slots, fs.dev, fs.dev.arr, fs.dev.disk.data
    ensures fs.Valid() && fs.sb == old(fs.sb) && Dotted(old(fs.Now()), fs.Now())
    ensures Super(old(fs.dev.contents), fs.dev.contents, false)
    ensures HOME_INUM < |fs.table| && Stamped(old(fs.slots[k].ino), fs.table[HOME_INUM], now)
  {
    hide Inv, SoundWorld, FsOk, Rewritten, DirOk, Records, AddHasRoom, AddOverruns, Super, NumbersBelow, RootOk, D.Added, Numbered, Solid,
      LinksOk, Dotted, Capacity, SameKinds, SameNumbers, Stamped, MetaKept, Ticked, RecordAdded;
    ghost var w4, y := fs.Now(), fs.slots[k].ino;
    FsOkOrdered(w4);
    OrderedDir(w4, k);
    HomeNumbered(w4);
    DotRoomAt(w4, k);
    ghost var es1 := if |w4.owner| < Capacity(|w4.v|) then [Dot(HOME_INUM)] else [];
    HomeLinks(w4, es1);
    FirstKeeps(w4, k, []);
    var ok := DirAdd(fs, k, D.DOT, T_DIR, fs.slots[k].ino.inum, now);
    ghost var w5, y1 := fs.Now(), fs.slots[k].ino;
    RewrittenMeta(w4, w5, HOME_INUM, es1, ROOT_INUM);
    DirGrown(w4, w5, HOME_INUM, es1, ROOT_INUM);
    FsOkOrdered(w5);
    OrderedDir(w5, k);
    DirStays(w4, w5);
    DotDotAdded(es1, HOME_INUM, ROOT_INUM);
    if es1 != [] { DotDotTaken(w5, k, HOME_INUM, ROOT_INUM); }
    ghost var es2 := if AddHasRoom(w5, k, es1) then es1 + [DotDot(ROOT_INUM)] else es1;
    HomeLinks(w5, es2);
    FirstKeeps(w5, k, es1);
    ok := DirAdd(fs, k, D.DOTDOT, T_DIR, ROOT_INUM, now);
    StampedTrans(y, y1, fs.slots[k].ino, now);
    RewrittenMeta(w5, fs.Now(), HOME_INUM, es2, ROOT_INUM);
    SoundSlot(fs.Now(), k);
    DirGrown(w5, fs.Now(), HOME_INUM, es2, ROOT_INUM);
    DottedIntro(w4, w5, fs.Now());
    SuperTrans(w4.v, w5.v, fs.dev.contents, false, false);
  }

  lemma DirStays(w: World, w': World)
    requires SameKinds(w, w') && SameNumbers(w, w') && Numbered(w, HOME_INUM) && HOME_INUM < |w.t| && w.t[HOME_INUM].kind == T_DIR
    ensures HOME_INUM < |w'.t| && w'.t[HOME_INUM].kind == T_DIR && Numbered(w', HOME_INUM)
  {
    hide Numbered;
    SameNumbered(w, w');
  }

  lemma DottedParts(w4: World, w6: World)
    requires Dotted(w4, w6)
    ensures |w4.t| == |w6.t| == NINODES && w6.t[ROOT_INUM] == w4.t[ROOT_INUM]
    ensures FsOk(w6) && w6.refs == w4.refs && |w6.ss| == |w4.ss|
    ensures forall i :: 0 <= i < |w4.ss| ==> w6.ss[i].ino.inum == w4.ss[i].ino.inum
  {
    hide FsOk, Records, Capacity;
  }

  lemma HomeDone(w: World, w1: World, w4: World, w6: World, w8: World, root: nat)
    requires Formatted(w, root) && FsOk(w1) && Walked(w, w1) && KeptSlots(w, w1) && w1.owner == w.owner && NumbersBelow(w4, 2)
    requires WalkedBut2(w1, w4, HOME_INUM, ROOT_INUM) && |w4.t| == NINODES && w4.t[HOME_INUM].kind == T_DIR && Dotted(w4, w6)
    requires |w1.t| == NINODES && root < |w1.ss|
    requires Records(w4, ROOT_INUM) == if AddHasRoom(w1, root, Records(w1, ROOT_INUM))
                                       then D.Added(Records(w1, ROOT_INUM), HOME, T_DIR, HOME_INUM) else Records(w1, ROOT_INUM)
    requires FsOk(w8) && Walked(w6, w8) && w8.refs == w.refs && root < |w8.ss| && w8.ss[root].ino.inum == ROOT_INUM
    requires MetaKept(w1, w4, ROOT_INUM) && BaseDir(w4.t[HOME_INUM], 2)
    ensures HomeMade(w, w4, w8, root)
  {
    hide FsOk, Walked, KeptSlots, WalkedBut2, Records, AddHasRoom, D.Added, Capacity, NumbersBelow, OnlyRoot, SameNumbers, Dots, MetaKept,
      BaseDir;
    FsOkOrdered(w);
    BaseStays(w, w1, w4, w6, w8);
    FsOkOrdered(w8);
    MissedRoom(w, w1, root, ROOT_INUM);
    if |w.v| > BLOCK_START { HomeRoom(w, root); }
    OnlyTwo(w, w1, w4);
    WalkedKinds(w6, w8);
    WalkedFile(w6, w8, ROOT_INUM);
    WalkedFile(w6, w8, HOME_INUM);
    NumbersStay(w4, w6, w8);
  }

  /** The metadata of both directories stays as it was set. */
  lemma BaseStays(w: World, w1: World, w4: World, w6: World, w8: World)
    requires |w.t| == NINODES && Walked(w, w1) && MetaKept(w1, w4, ROOT_INUM) && Dotted(w4, w6) && Walked(w6, w8)
    requires BaseDir(w.t[ROOT_INUM], 1) && BaseDir(w4.t[HOME_INUM], 2)
    ensures |w8.t| == NINODES && BaseDir(w8.t[0], 1) && BaseDir(w8.t[1], 2)
  {
    hide FsOk, Walked, Records, Dots, SameKinds, SameNumbers, MetaKept, BaseDir;
    WalkedTable(w6, w8);
    MetaWalked(w, w1, ROOT_INUM);
    BaseKept(w, w1, ROOT_INUM, 1);
    BaseKept(w1, w4, ROOT_INUM, 1);
    BaseKept(w4, w6, HOME_INUM, 2);
    MetaWalked(w6, w8, ROOT_INUM);
    MetaWalked(w6, w8, HOME_INUM);
    BaseKept(w6, w8, ROOT_INUM, 1);
    BaseKept(w6, w8, HOME_INUM, 2);
    WalkedKinds(w6, w8);
  }

  lemma NumbersStay(w4: World, w6: World, w8: World)
    requires NumbersBelow(w4, 2) && SameNumbers(w4, w6) && Walked(w6, w8)
    ensures NumbersBelow(w8, 2)
  {
    hide Numbered, Walked, SameNumbers;
    WalkedNumbers(w6, w8);
    SameNumbered(w4, w6);
    SameNumbered(w6, w8);
  }

  /** The slots of the root and of `/home` do not move. */
  lemma HomeEnd(w: World, w1: World, w4: World, w6: World, k: nat, root: nat)
    requires Formatted(w, root) && |w1.refs| == NINODES && w1.refs == More(w.refs, ROOT_INUM) && root < |w1.ss|
    requires w1.ss[root].ino.inum == ROOT_INUM && KeptSlots(w1, w4) && w4.refs == More(w1.refs, HOME_INUM)
    requires k < |w4.ss| && w4.ss[k].ino.inum == HOME_INUM && Dotted(w4, w6)
    ensures FsOk(w6) && w6.refs == More(More(w.refs, ROOT_INUM), HOME_INUM) && w.refs[ROOT_INUM] > 0
    ensures k < |w6.ss| && w6.ss[k].ino.inum == HOME_INUM && root < |w6.ss| && w6.ss[root].ino.inum == ROOT_INUM && |w.refs| == NINODES
  {
    hide FsOk, Records, Dotted;
    DottedParts(w4, w6);
  }

  /** The part of `cmd_f` that makes `/home`. */
  method MakeHome(fs: FileSystem, root: nat, now: uint32) returns (ok: bool, ghost mid: World)
    requires fs.Valid() && |fs.table| == NINODES && Formatted(fs.Now(), root)
    modifies fs, fs.slots, fs.dev, fs.dev.arr, fs.dev.disk.data
    ensures fs.Valid() && fs.sb == old(fs.sb) && ok && HomeMade(old(fs.Now()), mid, fs.Now(), root)
    ensures Super(old(fs.dev.contents), fs.dev.contents, false)
    ensures 1 < |old(fs.table)| && 1 < |fs.table| && Stamped(old(fs.table)[0], fs.table[0], now) && Timed(fs.table[1], now)
  {
    hide Inv, SoundWorld, FsOk, Ordered, INumbered, Fresh, Stored, Rewritten, Formatted, DirOk, Records, AddHasRoom, Held,
      AddOverruns, Acquired, Walked, WalkedBut2, KeptSlots, Released, Super, SameSuper, NumbersBelow, RootOk, D.Added, Numbered, Solid,
      LinksOk, HomeMade, Dots, Dotted, Stamped, MetaKept, BaseDir, Ticked, RecordAdded;
    ghost var w := fs.Now();
    FormattedTable(w, root);
    FormattedSlot(w, root);
    var r := fs.IGet(ROOT_INUM);
    ghost var w1 := fs.Now();
    RootAgain(w, w1, root, r);
    FsOkOrdered(w1);
    var tmp;
    ghost var y;
    tmp, y := NewHome(fs, now);
    if tmp.None? {
      return false, w;
    }
    var k := tmp.value;
    ghost var w3 := fs.Now();
    RootDirReady(w1, w3, root, k, y);
    SoundSlot(w3, root);
    ok := DirAdd(fs, root, HOME, T_DIR, fs.slots[k].ino.inum, now);
    mid := fs.Now();
    RootKeeps(w, w1, w3, mid, root);
    HomeLinked(w1, w3, mid, k, y, root);
    SoundSlot(mid, root);
    HomeDots(fs, k, now);
    TimedStays(y, fs.table[HOME_INUM], now);
    ghost var w6 := fs.Now();
    DottedParts(mid, w6);
    HomeEnd(w, w1, mid, w6, k, root);
    BothBack(w, w6, k, root);
    SuperTrans(w.v, mid.v, w6.v, false, false);
    fs.IPut(k);
    fs.IPut(root);
    HomeDone(w, w1, mid, w6, fs.Now(), root);
    WalkedSuper(w6, fs.Now());
    SuperThen(w.v, w6.v, fs.dev.contents);
  }

  /** `ialloc` for `/home`, and its metadata. */
  method NewHome(fs: FileSystem, now: uint32) returns (k: Option<nat>, ghost y: Inode)
    requires fs.Valid() && |fs.table| == NINODES && BLOCK_START <= |fs.dev.contents| && FsOk(fs.Now()) && NumbersBelow(fs.Now(), 1)
    requires Held(fs.Now().ss, EMPTY)
    modifies fs, fs.slots, fs.dev, fs.dev.arr, fs.dev.disk.data
    ensures fs.Valid() && fs.sb == old(fs.sb) && |fs.table| == NINODES && fs.table[0] == old(fs.table)[0]
    ensures k.Some? && fs.IsInode(k.value) && y == fs.slots[k.value].ino
    ensures Fresh(old(fs.Now()), fs.Now(), k.value, HOME_INUM, y) && RootOk(fs.Now())
    ensures y.inum == HOME_INUM && y.kind == T_DIR && y.size == 0 && NoBlocks(y) && BaseDir(y, 2) && Timed(y, now)
  {
    hide Inv, SoundWorld, FsOk, Ordered, INumbered, Fresh, NumbersBelow, RootOk, Held, BaseDir, FirstFree, NewFields, Ticked;
    ghost var w1 := fs.Now();
    FsOkOrdered(w1);
    var spilt;
    ghost var n;
    k, spilt, n := IAlloc(fs, T_DIR, now);
    ghost var w2 := fs.Now();
    INumber(w1, w2, T_DIR, now, n, k);
    SecondNumber(w1, n);
    HomeNumber(w1, w2, now, n, k);
    NumberedOther(w1, w2, now, n, k, 0);
    y := HomeInode(fs, k.value, w1, now);
  }

  lemma NumberedOther(w: World, w': World, now: uint32, n: nat, r: Option<nat>, m: nat)
    requires |w.t| == NINODES && BLOCK_START <= |w.v| && INumbered(w, w', T_DIR, now, n, r) && m < NINODES && m != n
    ensures |w'.t| == NINODES && w'.t[m] == w.t[m]
  {
    hide MapBit, Stored, SetBit, Held;
  }

  lemma SuperThen(v: seq<Block>, v1: seq<Block>, v2: seq<Block>)
    requires Super(v, v1, false) && SameSuper(v1, v2)
    ensures Super(v, v2, false)
  {
  }

  /** The metadata of the new directory. */
  method HomeInode(fs: FileSystem, k: nat, ghost w1: World, now: uint32) returns (ghost y: Inode)
    requires fs.Valid() && fs.IsInode(k) && Fresh(w1, fs.Now(), k, HOME_INUM, NewInode(HOME_INUM, T_DIR, now))
    requires RootOk(fs.Now()) && |fs.table| == NINODES
    modifies fs, fs.slots, fs.dev, fs.dev.arr, fs.dev.disk.data
    ensures fs.Valid() && fs.IsInode(k) && fs.sb == old(fs.sb) && |fs.table| == NINODES
    ensures Fresh(w1, fs.Now(), k, HOME_INUM, y) && RootOk(fs.Now()) && y == fs.slots[k].ino
    ensures y.inum == HOME_INUM && y.kind == T_DIR && y.size == 0 && NoBlocks(y) && BaseDir(y, 2) && Timed(y, now)
    ensures fs.table[0] == old(fs.table)[0]
  {
    hide Inv, SoundWorld, Fresh, Stored, RootOk;
    ghost var w2 := fs.Now();
    CreatedInode(w1, w2, k, HOME_INUM, NewInode(HOME_INUM, T_DIR, now));
    var x := fs.slots[k].ino;
    var z := x.(mode := 0x1ED, uid := 1, gid := 0, nlink := 2, atime := now, mtime := now, ctime := now);
    y := z;
    CreatedSet(w1, w2, k, HOME_INUM, x, z);
    fs.SetInode(k, z);
    fs.IUpdate(k);
    CreatedInode(w1, fs.Now(), k, HOME_INUM, z);
    FreshTable(w1, fs.Now(), k, z);
  }

  lemma FreshTable(w: World, w1: World, k: nat, y: Inode)
    requires Fresh(w, w1, k, HOME_INUM, y)
    ensures |w1.t| == NINODES && NoBlocks(y)
  {
    hide FilesOk, NumbersOk, WalkedBut, NewNumber, KeptSlots, TreesOk;
  }

  /** The device as formatting leaves it, with a session in the root. */
  ghost predicate RootFormatted(w: World, root: nat) {
    exists w0, mid :: Formatted(w0, root) && HomeMade(w0, mid, w, root)
  }

  lemma FormattedTable(w: World, k: nat)
    requires Formatted(w, k)
    ensures |w.t| == NINODES
  {
    hide FsOk, Records, OnlyRoot, NumbersBelow;
    FsOkOrdered(w);
  }

  lemma HomeTable(w: World, mid: World, w': World, root: nat)
    requires HomeMade(w, mid, w', root)
    ensures |w'.t| == NINODES && FsOk(w') && BaseDir(w'.t[0], 1) && BaseDir(w'.t[1], 2)
  {
    hide FsOk, Records, AddHasRoom, D.Added, Dots, NumbersBelow, Capacity;
  }

  /** `cmd_f`: an empty file system with a root and `/home`, whose superblock can be read back. */
  method Format(fs: FileSystem, ncyl: nat, nsec: nat, garbage: Block, now: uint32) returns (ok: bool, root: nat)
    requires fs.dev.Valid() && fs.slots.Length == NCACHE
    requires ncyl * nsec == |fs.dev.contents| && BLOCK_START <= ncyl * nsec < 0x8000_0000
    modifies fs, fs.slots, fs.dev, fs.dev.arr, fs.dev.disk.data
    ensures fs.Valid() && ok && fs.IsInode(root) && RootFormatted(fs.Now(), root) && FsOk(fs.Now()) && |fs.table| == NINODES
    ensures |fs.dev.contents| == |old(fs.dev.contents)| && ReadSb(fs.dev.contents[0]) == fs.sb == SbInit(ncyl * nsec)
    ensures BaseDir(fs.table[0], 1) && Timed(fs.table[0], now) && BaseDir(fs.table[1], 2) && Timed(fs.table[1], now)
  {
    hide Inv, SoundWorld, FsOk, Blank, Formatted, HomeMade, ReadSb, Stamped, Timed, BaseDir;
    Clear(fs, ncyl, nsec, garbage);
    BlankParts(fs.Now());
    var r := MakeRoot(fs, now);
    root := r.value;
    ghost var w0, mid, x := fs.Now(), fs.Now(), fs.table[0];
    FormattedTable(w0, root);
    ok, mid := MakeHome(fs, root, now);
    TimedStays(x, fs.table[0], now);
    HomeTable(w0, mid, fs.Now(), root);
    HomeSlot(w0, mid, fs.Now(), root);
  }

  lemma HomeSlot(w: World, mid: World, w': World, root: nat)
    requires HomeMade(w, mid, w', root)
    ensures root < |w'.ss| && w'.ss[root].ino.inum == ROOT_INUM
  {
    hide FsOk, Records, AddHasRoom, D.Added, Dots, NumbersBelow, Capacity;
  }
}
