/** `mkdir`. */
module MakeDir {
  import opened Bytes
  import opened Results
  import opened BlockTree
  import opened Bitmap
  import opened Inodes
  import opened Growth
  import opened Files
  import opened InodeCache
  import opened World
  import opened Writes
  import opened BlockZero
  import opened FileSystem
  import opened Cache
  import opened Commands
  import opened Editing
  import opened DirOps
  import opened Walking
  import opened Invariant
  import opened Numbering
  import opened Namespace
  import opened RootDir
  import D = Directory

  function Dot(n: uint32): D.Entry {
    D.Entry(T_DIR, n, D.DOT)
  }

  function DotDot(n: uint32): D.Entry {
    D.Entry(T_DIR, n, D.DOTDOT)
  }

  /** Setting fields of the new inode in the cache only. */
  lemma FieldsSet(w: World, w1: World, k: nat, n: nat, x: Inode, y: Inode)
    requires Fresh(w, w1, k, n, x) && x.size == 0 == y.size
    requires y.inum == x.inum && y.addrs == x.addrs && y.kind == x.kind
    ensures k < |w1.ss| && |w1.t| == NINODES
    ensures Fresh(w, WithInode(w1, k, y), k, n, y) && (RootOk(w1) ==> RootOk(WithInode(w1, k, y)))
    ensures SoundWorld(WithInode(w1, k, y))
  {
    hide SoundWorld, NumbersOk, FilesOk, Numbered, WalkedBut, Stored, SameFile, Solid;
    OrderedSize(w1);
    SoundSlot(w1, k);
    var w2 := WithInode(w1, k, y);
    WithInodeSound(w1, k, y);
    FieldsChanged(w1, w2, k, n);
    SameNumbered(w1, w2);
    NewIsNumbered(w, w1, n);
    EmptyInode(w2.v, y);
    assert Records(w2, n) == [];
    NoLinks(w2);
    ChangedOrdered(w1, w2, n);
    ChangedWalked(w1, w2, n);
    WalkedButTrans(w, w1, w2, n);
  }

  lemma FieldsChanged(w: World, w': World, k: nat, n: nat)
    requires SoundWorld(w') && k < |w.ss| && n < |w.t| == |w'.t| && w.ss[k].ino.inum == n
    requires w' == WithInode(w, k, w'.t[n]) && w'.t[n].inum == n && w'.t[n].kind == w.t[n].kind
    ensures Changed(w, w', n)
  {
    hide SoundWorld, SameFile;
    forall m | 0 <= m < |w.t| ensures SameFile(w.v, w.t[m].addrs, w.v) { SameFileRefl(w.v, w.t[m].addrs); }
  }

  /** A record has been added to the new directory itself. */
  lemma SelfAdded(w: World, w1: World, w2: World, k: nat, n: nat, x: Inode, es: seq<D.Entry>)
    requires Created(w, w1, k, n, x) && RootOk(w1) && x.kind == T_DIR && Rewritten(w1, w2, n, es) && LinksOk(w1, es)
    requires Super(w1.v, w2.v, false)
    ensures n < |w2.t| && Created(w, w2, k, n, w2.t[n]) && RootOk(w2) && w2.t[n].kind == T_DIR && Records(w2, n) == es
    ensures w2.t[n].nlink == x.nlink && w2.t[n].mode == x.mode && w2.t[n].uid == x.uid && w2.t[n].gid == x.gid && SoundWorld(w2)
    ensures Solid(w2.v, w2.t[n]) && w2.t[n].size == D.ENTRY_SIZE * |es|
  {
    hide SoundWorld, NumbersOk, FilesOk, Numbered, WalkedBut, SameFile, Solid, LinksOk, D.Entries, Edited, Contents, NewNumber;
    EditedChanged(w1, w2, n);
    ChangedTable(w1, w2, n);
    SameNumbered(w1, w2);
    SameLinks(w1, w2);
    NewIsNumbered(w, w1, n);
    ChangedOrdered(w1, w2, n);
    OrderedSize(w2);
    ChangedWalked(w1, w2, n);
    WalkedButTrans(w, w1, w2, n);
    ChangedSlots(w1, w2, n);
    SoundSlot(w2, k);
    EditedMeta(w1, w2, n);
    NewerNumber(w, w1, w2, n);
    SizeOf(w2, n);
  }

  lemma EditedMeta(w: World, w': World, n: nat)
    requires Edited(w, w', n) && n < |w'.t|
    ensures n < |w.t| && w'.t[n].nlink == w.t[n].nlink && w'.t[n].mode == w.t[n].mode && w'.t[n].uid == w.t[n].uid
    ensures w'.t[n].gid == w.t[n].gid
  {
    hide SoundWorld, OthersSame;
  }

  /** The new directory holds one reference's worth of a slot and is a sound place to add to. */
  lemma SelfReady(w: World, w1: World, k: nat, n: nat, x: Inode)
    requires Created(w, w1, k, n, x)
    ensures k < |w1.ss| && w1.ss[k].ino == x && x.inum == n < NINODES && |w1.t| == NINODES && w1.t[n] == x
    ensures DirOk(w1.v, w1.ss[k].ino) && SoundWorld(w1) && Ordered(w1)
  {
    hide SoundWorld, NumbersOk, FilesOk, Numbered, WalkedBut, DirOk, NewNumber;
    OrderedSize(w1);
    OrderedSound(w1);
    OrderedDir(w1, k);
  }

  lemma SelfLinks(w: World, w1: World, k: nat, n: nat, x: Inode, d: nat, es: seq<D.Entry>)
    requires Created(w, w1, k, n, x) && x.kind == T_DIR && d < |w.t| && w.t[d].kind == T_DIR && Numbered(w, d) && d < NINODES
    requires forall i :: 0 <= i < |es| ==> es[i] == Dot(n) || es[i] == DotDot(d)
    ensures LinksOk(w1, es)
  {
    hide SoundWorld, Ordered, Numbered, WalkedBut, Records, DirOk, SameFile, KeptSlots, D.Skipped;
    NewApart(w, w1, n, d);
    CreatedKind(w, w1, n, d);
  }

  /** The first record takes a block. */
  lemma DotTaken(w: World, w1: World, k: nat, n: nat, x: Inode)
    requires Fresh(w, w1, k, n, x)
    ensures k < |w1.ss|
    ensures AddHasRoom(w1, k, []) <==> |w.owner| < Capacity(|w.v|)
    ensures |w.owner| <= Capacity(|w.v|) ==> UsedByAdd(w1, k, []) == |w.owner| + DotBlock(w)
    ensures D.Added([], D.DOT, T_DIR, n) == [Dot(n)]
  {
    hide Ordered, WalkedBut, NewNumber, Need, Capacity;
    FirstBlock(w1, k);
    CreatedLength(w, w1, n);
  }

  /** The second record goes into the same block. */
  lemma DotDotTaken(w: World, k: nat, n: nat, d: nat)
    requires SoundWorld(w) && k < |w.ss| && Solid(w.v, w.ss[k].ino) && w.ss[k].ino.size == D.ENTRY_SIZE && n < NINODES && d < NINODES
    ensures AddHasRoom(w, k, [Dot(n)]) && UsedByAdd(w, k, [Dot(n)]) == |w.owner|
    ensures D.Added([Dot(n)], D.DOTDOT, T_DIR, d) == [Dot(n), DotDot(d)]
  {
    hide SoundWorld, Lookup, Capacity;
    SoundBound(w);
    var x := Lacking(w, k, D.ENTRY_SIZE, D.ENTRY_SIZE);
    assert Lookup(w.v, w.ss[k].ino.addrs, 0) != 0;
    assert Ceil(D.ENTRY_SIZE + D.ENTRY_SIZE) == 1;
    forall s ensures s !in x {
      if s in x {
        var b: nat :| 0 <= b < 1 && s in Path(LeafOf(b));
        FirstMapped(w.v, w.ss[k].ino.addrs, s);
      }
    }
    assert x == {};
    assert D.FreeSlot([Dot(n)]) == 1;
  }

  lemma FirstMapped(v: seq<Block>, a: Addrs, s: Slot)
    requires Lookup(v, a, 0) != 0 && s in Path(LeafOf(0))
    ensures At(v, a, s) != 0
  {
  }

  lemma DotDotAdded(es: seq<D.Entry>, n: nat, d: nat)
    requires n < NINODES && d < NINODES && (es == [] || es == [Dot(n)])
    ensures D.Added(es, D.DOTDOT, T_DIR, d) == es + [DotDot(d)]
  {
    if es != [] { assert D.FreeSlot(es) == 1; }
  }

  /** Storing the new inode's record. */
  lemma StoredCreated(w: World, w1: World, k: nat, n: nat, x: Inode)
    requires Created(w, w1, k, n, x) && RootOk(w1)
    ensures k < |w1.ss| && w1.ss[k].ino.inum < NINODES && BLOCK_START <= |w1.v|
    ensures var w2 := StoredWorld(w1, k);
      Created(w, w2, k, n, x) && RootOk(w2) && n < |w1.t| && Records(w2, n) == Records(w1, n)
  {
    hide SoundWorld, NumbersOk, FilesOk, Numbered, WalkedBut, Walked, SameFile, Stored, D.Entries;
    OrderedSize(w1);
    OrderedSound(w1);
    StoredWalked(w1, k);
    StoredWorldSound(w1, k);
    WalkedSuper(w1, StoredWorld(w1, k));
    var w2 := StoredWorld(w1, k);
    WalkedOrdered(w1, w2);
    WalkedRoot(w1, w2);
    WalkedWalkedBut(w1, w2, n);
    WalkedButTrans(w, w1, w2, n);
    WalkedNumbers(w1, w2);
    SameNumbered(w1, w2);
    WalkedFile(w1, w2, n);
  }

  /** The block that the first two records of a new directory take, if there is one. */
  ghost function DotBlock(w: World): nat {
    if |w.owner| < Capacity(|w.v|) then 1 else 0
  }

  /** Those records: none without it. */
  ghost function Dots(w: World, n: uint32, d: uint32): seq<D.Entry> {
    if |w.owner| < Capacity(|w.v|) then [Dot(n), DotDot(d)] else []
  }

  /** A new directory has been made, but not yet given a name: its records are `.` and `..`
      exactly if the disk had a block for them. */
  ghost predicate DirMade(w: World, w': World, k: nat, n: nat, d: nat, uid: uint32, mode: uint32)
  {
    && n < |w'.t| && Created(w, w', k, n, w'.t[n]) && RootOk(w') && n < NINODES && d < NINODES
    && w'.t[n].kind == T_DIR && w'.t[n].nlink == 2 && w'.t[n].mode == mode && w'.t[n].uid == uid && w'.t[n].gid == 0
    && Records(w', n) == Dots(w, n, d) && |w'.owner| == |w.owner| + DotBlock(w)
  }

  /** `.` and `..`. */
  method AddDots(fs: FileSystem, k: nat, d: uint32, now: uint32, ghost w: World, ghost n: nat, ghost y: Inode)
    requires fs.Valid() && fs.IsInode(k) && |fs.table| == NINODES && Fresh(w, fs.Now(), k, n, y) && RootOk(fs.Now())
    requires y.kind == T_DIR && y.nlink == 2 && y.size == 0 && y.gid == 0 && Timed(y, now)
    requires d < |w.t| && d < NINODES && w.t[d].kind == T_DIR && Numbered(w, d) && SoundWorld(w)
    modifies fs, fs.slots, fs.dev, fs.dev.arr, fs.dev.disk.data
    ensures fs.Valid() && fs.sb == old(fs.sb) && fs.IsInode(k)
    ensures DirMade(w, fs.Now(), k, n, d, y.uid, y.mode) && n < |fs.table| && Timed(fs.table[n], now)
    ensures Ticked(old(fs.table), fs.table, now)
  {
    hide Inv, SoundWorld, Fresh, Created, Rewritten, DirOk, Records, AddHasRoom, Numbered, Solid, LinksOk, Capacity, RootOk, D.Added,
      AddOverruns, Super, UsedByAdd, Stamped, Timed, Ticked, RecordAdded;
    ghost var w3 := fs.Now();
    SoundBound(w);
    FreshCreated(w, w3, k, n, y);
    SelfReady(w, w3, k, n, y);
    NewEmpty(w3, n, y);
    DotTaken(w, w3, k, n, y);
    ghost var es1 := if |w.owner| < Capacity(|w.v|) then [Dot(n)] else [];
    SelfLinks(w, w3, k, n, y, d, es1);
    FirstKeeps(w3, k, []);
    var ok := DirAdd(fs, k, D.DOT, T_DIR, fs.slots[k].ino.inum, now);
    ghost var w4, y1 := fs.Now(), fs.slots[k].ino;
    TimedStays(y, y1, now);
    SelfAdded(w, w3, w4, k, n, y, es1);
    SelfReady(w, w4, k, n, w4.t[n]);
    DotDotAdded(es1, n, d);
    if es1 != [] { DotDotTaken(w4, k, n, d); }
    ghost var es2 := if AddHasRoom(w4, k, es1) then es1 + [DotDot(d)] else es1;
    SelfLength(w, w4, k, n, w4.t[n]);
    if es1 == [] { FullStays(w4, k, es1); }
    SelfLinks(w, w4, k, n, w4.t[n], d, es2);
    FirstKeeps(w4, k, es1);
    ok := DirAdd(fs, k, D.DOTDOT, T_DIR, d, now);
    ghost var w5 := fs.Now();
    TimedStays(y1, fs.slots[k].ino, now);
    TickedTrans(w3.t, w4.t, w5.t, now);
    SelfAdded(w, w4, w5, k, n, w4.t[n], es2);
    StoredCreated(w, w5, k, n, w5.t[n]);
    fs.IUpdate(k);
    DirMadeIntro(w, w5, fs.Now(), k, n, d, es2);
    SelfReady(w, fs.Now(), k, n, w5.t[n]);
  }

  lemma SelfLength(w: World, w1: World, k: nat, n: nat, x: Inode)
    requires Created(w, w1, k, n, x)
    ensures |w1.v| == |w.v|
  {
    hide Ordered, NewNumber, SameFile;
  }

  /** On a full device adding a record takes no block. */
  lemma FullStays(w: World, k: nat, es: seq<D.Entry>)
    requires k < |w.ss| && SoundWorld(w) && |w.owner| == Capacity(|w.v|)
    ensures UsedByAdd(w, k, es) == |w.owner|
  {
    hide SoundWorld, Need, Capacity;
  }

  lemma DirMadeIntro(w: World, w5: World, w6: World, k: nat, n: nat, d: nat, es2: seq<D.Entry>)
    requires n < |w5.t| && n < NINODES && d < NINODES && n < |w6.t| && w6.t[n] == w5.t[n] && w6.owner == w5.owner
    requires Created(w, w6, k, n, w5.t[n]) && RootOk(w6) && w5.t[n].kind == T_DIR && w5.t[n].nlink == 2 && w5.t[n].gid == 0
    requires Records(w6, n) == es2 == Dots(w, n, d) && |w5.owner| == |w.owner| + DotBlock(w)
    ensures DirMade(w, w6, k, n, d, w5.t[n].uid, w5.t[n].mode)
  {
    hide Created, RootOk, Records, Capacity;
  }

  lemma FreshCreated(w: World, w1: World, k: nat, n: nat, x: Inode)
    requires Fresh(w, w1, k, n, x)
    ensures Created(w, w1, k, n, x) && n < |w1.t|
  {
    hide Created;
    CreatedHere(w, w1, k, n, x);
  }

  lemma CreatedHere(w: World, w1: World, k: nat, n: nat, x: Inode)
    requires Created(w, w1, k, n, x)
    ensures n < |w1.t| && w1.t[n] == x
  {
    hide Ordered, WalkedBut, NewNumber;
  }

  lemma NewEmpty(w: World, n: nat, x: Inode)
    requires n < |w.t| && w.t[n] == x && x.size == 0
    ensures Records(w, n) == []
  {
  }

  // ---------------------------------------------------------------- the command

  /** There is room in `c` for one record more, beside what the new directory itself takes. */
  ghost predicate RoomBeside(w: World, c: nat, es: seq<D.Entry>)
    requires c < |w.ss|
  {
    var off := D.ENTRY_SIZE * |es|;
    || D.FreeSlot(es) < |es|
    || (off + D.ENTRY_SIZE <= MAXSIZE && |w.owner| + DotBlock(w) + Need(w, c, off, D.ENTRY_SIZE) <= Capacity(|w.v|))
  }

  ghost predicate OverrunsBeside(w: World, c: nat, es: seq<D.Entry>)
    requires c < |w.ss|
  {
    D.FreeSlot(es) == |es| && Overrun(w.v, w.ss[c].ino.addrs, |w.owner| + DotBlock(w), D.ENTRY_SIZE * |es|, D.ENTRY_SIZE)
  }

  /** What `cmd_mkdir` in directory `d` has done. It succeeds exactly if the name is not taken and there
      are a number and a slot for the inode; then the new directory has its two records if there
      was a block for them, and `d` has one record more if there was room beside that. If the name
      is taken and its inode can be acquired, the reference that the lookup took is lost, and in
      no other case. The superblock is lost exactly when `d` runs out of blocks at a pointer block. */
  ghost predicate MadeDir(w: World, w': World, c: nat, d: nat, name: seq<byte>, n: nat, uid: uint32, mode: uint32, ok: bool)
    requires c < |w.ss| && d < |w.t| && |w.t| == NINODES && d < NINODES
  {
    var es, taken := Records(w, d), Obtainable(w, d, name, T_DIR);
    && FsOk(w') && KeptSlots(w, w') && n <= BITS && d < |w'.t| && w'.t[d].kind == w.t[d].kind
    && (ok <==> Creatable(w, d, name, T_DIR))
    && w'.refs == RefsAfter(w, d, name, T_DIR)
    && (!taken ==> 1 < |w.v| && FirstFree(w.v[1], n))
    && (ok ==> Grants(n, |w.v|) && n < |w'.t|
               && Linked(w, w', n, w'.t[n], d, if RoomBeside(w, c, es) then D.Added(es, name, T_DIR, n) else es)
               && w'.t[n].kind == 1 && w'.t[n].nlink == 2 && w'.t[n].mode == mode && w'.t[n].uid == uid && w'.t[n].gid == 0
               && Records(w', n) == Dots(w, n, d)
               && Super(w.v, w'.v, OverrunsBeside(w, c, es)))
    && (!ok ==> WalkedBut(w, w', n) && Bare(w, w', n, !taken && Granting(w.v)) && SameSuper(w.v, w'.v) && w'.owner == w.owner)
  }

  /** `ialloc` and the metadata of a new directory, set in the cache. */
  method NewDir(fs: FileSystem, uid: uint32, mode: uint32, now: uint32, ghost w: World)
    returns (dp: Option<nat>, spilt: bool, ghost n: nat, ghost y: Inode)
    requires fs.Valid() && |fs.table| == NINODES && FsOk(fs.Now()) && Untouched(w, fs.Now())
    requires FsOk(w) && 1 < |w.v|
    modifies fs, fs.slots, fs.dev, fs.dev.arr, fs.dev.disk.data
    ensures fs.DeviceOk() && fs.sb == old(fs.sb) && n <= BITS && FirstFree(w.v[1], n) && !Numbered(w, n)
    ensures spilt <==> Spills(n, |w.v|)
    ensures spilt ==> dp.None? && Overflowed(w, fs.Now(), n, T_DIR, now)
    ensures !spilt ==>
              && fs.Valid() && FsOk(fs.Now()) && RootOk(fs.Now())
              && (dp.Some? ==> fs.IsInode(dp.value) && Fresh(w, fs.Now(), dp.value, n, y) && Grants(n, |w.v|))
              && (dp.Some? ==> y.kind == T_DIR && y.nlink == 2 && y.size == 0 && y.uid == uid && y.mode == mode && y.gid == 0 && Timed(y, now))
              && (dp.None? ==> WalkedBut(w, fs.Now(), n) && KeptSlots(w, fs.Now()) && fs.refs == w.refs)
              && (dp.None? ==> Bare(w, fs.Now(), n, Grants(n, |w.v|)) && SameSuper(w.v, fs.dev.contents) && fs.owner == w.owner)
              && (dp.Some? <==> Held(old(fs.slots[..]), EMPTY) && Grants(n, |w.v|))
    ensures Ticked(old(fs.table), fs.table, now)
  {
    hide Inv, SoundWorld, Ordered, INumbered, Fresh, Walked, WalkedBut, Untouched, MapBit, Held, KeptSlots, Numbered,
      Bare, FirstFree, Spilt, Overflowed, Ticked, NewFields;
    ghost var w1 := fs.Now();
    UntouchedParts(w, w1);
    dp, spilt, n := IAlloc(fs, T_DIR, now);
    ghost var w2 := fs.Now();
    INumber(w1, w2, T_DIR, now, n, dp);
    StillFree(w, w1, n);
    y := NewInode(n, T_DIR, now);
    if spilt {
      OverflowedIntro(w, w1, w2, T_DIR, now, n, dp);
    } else {
      NewNotRoot(w, n);
      AllocCreated(w1, w2, T_DIR, now, n, dp);
      AllocFails(w1, w2, T_DIR, now, n, dp);
    }
    if dp.None? {
      if !spilt {
        UntouchedFailed(w, w1, w2, n);
        FsOkIntro(w2);
      }
      return;
    }
    var x := fs.slots[dp.value].ino;
    CreatedInode(w1, w2, dp.value, n, NewInode(n, T_DIR, now));
    UntouchedCreated(w, w1, w2, dp.value, n, x);
    var z := x.(mode := mode, uid := uid, gid := 0, nlink := 2, atime := now, mtime := now, ctime := now);
    y := z;
    FieldsSet(w, w2, dp.value, n, x, z);
    fs.SetInode(dp.value, z);
    TickedSet(w1.t, w2.t, n, z, now);
    CreatedOrdered(w, fs.Now(), dp.value, n, z);
    FsOkIntro(fs.Now());
  }

  lemma DirExists(w: World, w': World, c: nat, d: nat, name: seq<byte>, uid: uint32, mode: uint32)
    requires c < |w.ss| && d < |w.t| && |w.t| == NINODES && FsOk(w') && KeptSlots(w, w') && Walked(w, w')
    requires Obtainable(w, d, name, T_DIR) && w'.owner == w.owner
    requires D.Lookup(Records(w, d), name, T_DIR).value < |w.refs|
    requires w'.refs == More(w.refs, D.Lookup(Records(w, d), name, T_DIR).value)
    ensures MadeDir(w, w', c, d, name, 0, uid, mode, false)
  {
    hide FsOk, KeptSlots, Walked, WalkedBut, Records, InUse, Linked, D.Lookup, RoomBeside, OverrunsBeside, FirstFree;
    WalkedSuper(w, w');
    WalkedKinds(w, w');
    WalkedWalkedBut(w, w', 0);
  }

  lemma DirNone(w: World, w1: World, w2: World, c: nat, d: nat, name: seq<byte>, n: nat, uid: uint32, mode: uint32)
    requires c < |w.ss| && d < |w.t| && |w.t| == NINODES && FsOk(w2) && KeptSlots(w, w2) && WalkedBut(w, w2, n) && n <= BITS
    requires w2.refs == w.refs && w2.owner == w.owner && SoundWorld(w) && SoundWorld(w1) && |w.ss| == |w1.ss| == NCACHE && w1.refs == w.refs
    requires !Held(w1.ss, EMPTY) || !Grants(n, |w.v|)
    requires 1 < |w.v| && FirstFree(w.v[1], n) && d < NINODES
    requires Numbered(w, d) && !Numbered(w, n) && !Obtainable(w, d, name, T_DIR)
    requires Bare(w, w2, n, Grants(n, |w.v|)) && SameSuper(w.v, w2.v)
    ensures MadeDir(w, w2, c, d, name, n, uid, mode, false)
  {
    hide FsOk, KeptSlots, WalkedBut, Records, InUse, Linked, D.Lookup, SoundWorld, Held, Numbered, Bare, SameSuper, RoomBeside,
      OverrunsBeside, FirstFree, Granting, Obtainable, Grants;
    OtherKind(w, w2, n, d);
    NextNumber(w.v, n);
    SlotsAgain(w, w1);
  }

  lemma DirReady(w: World, w2: World, c: nat, k: nat, n: nat, d: nat, uid: uint32, mode: uint32)
    requires Ordered(w) && DirMade(w, w2, k, n, d, uid, mode) && c < |w.ss| && w.ss[c].ino.inum == d && Numbered(w, d)
    requires d < |w.t| && w.t[d] == w.ss[c].ino && DirOk(w.v, w.ss[c].ino)
    ensures c < |w2.ss| && w2.ss[c].ino.inum == d && DirOk(w2.v, w2.ss[c].ino) && w2.ss[c].ino.kind == w.t[d].kind
    ensures k < |w2.ss| && w2.ss[k].ino.inum == n && |w2.t| == NINODES && d != n && d < |w2.t| && Records(w2, d) == Records(w, d)
    ensures SoundWorld(w2) && Super(w.v, w2.v, false)
    ensures AddHasRoom(w2, c, Records(w, d)) <==> RoomBeside(w, c, Records(w, d))
    ensures AddOverruns(w2, c, Records(w, d)) <==> OverrunsBeside(w, c, Records(w, d))
  {
    hide Ordered, WalkedBut, DirOk, Numbered, Records, SoundWorld, RootOk, Capacity, Dots, DotBlock, AddHasRoom, AddOverruns, RoomBeside,
      OverrunsBeside;
    OrderedSize(w);
    OrderedSound(w2);
    OrderedSize(w2);
    NewApart(w, w2, n, d);
    CreatedKind(w, w2, n, d);
    SoundSlot(w2, c);
    BesideRoom(w, w2, c, Records(w, d));
  }

  lemma BesideRoom(w: World, w2: World, c: nat, es: seq<D.Entry>)
    requires c < |w.ss| && c < |w2.ss| && w2.ss[c].ino.addrs == w.ss[c].ino.addrs && |w2.v| == |w.v|
    requires SameFile(w.v, w.ss[c].ino.addrs, w2.v) && |w2.owner| == |w.owner| + DotBlock(w)
    ensures AddHasRoom(w2, c, es) <==> RoomBeside(w, c, es)
    ensures AddOverruns(w2, c, es) <==> OverrunsBeside(w, c, es)
  {
    hide SameTree, Need, Capacity, Overrun, Data, DotBlock;
    var off := D.ENTRY_SIZE * |es|;
    FreeSlotBound(es);
    SameOverrun(w.v, w.ss[c].ino.addrs, w2.v, |w2.owner|, off, D.ENTRY_SIZE);
    if off + D.ENTRY_SIZE <= MAXSIZE {
      PeekedNeed(w, w2, c, off, D.ENTRY_SIZE);
    }
  }

  lemma FreeSlotBound(es: seq<D.Entry>)
    ensures D.FreeSlot(es) <= |es|
  {
  }

  lemma DirAdded(w: World, w2: World, w3: World, c: nat, k: nat, n: nat, d: nat, name: seq<byte>, uid: uint32, mode: uint32)
    requires FsOk(w) && DirMade(w, w2, k, n, d, uid, mode) && c < |w.ss| && |w.t| == NINODES && d < |w.t|
    requires w.t[d].kind == T_DIR && Numbered(w, d) && !Obtainable(w, d, name, T_DIR) && Held(w.ss, EMPTY)
    requires Rewritten(w2, w3, d, if RoomBeside(w, c, Records(w, d)) then D.Added(Records(w, d), name, T_DIR, n) else Records(w, d))
    requires Super(w.v, w2.v, false) && Super(w2.v, w3.v, OverrunsBeside(w, c, Records(w, d)))
    requires 1 < |w.v| && FirstFree(w.v[1], n) && Grants(n, |w.v|)
    ensures k < |w3.ss| && w3.ss[k].ino.inum == n < NINODES && BLOCK_START <= |w3.v| && w3.ss[k].refs > 0
    ensures |w3.refs| == NINODES && MadeDir(w, Released(w3, k), c, d, name, n, uid, mode, true)
    ensures n < |w2.t| && n < |Released(w3, k).t| && Released(w3, k).t[n] == w2.t[n]
  {
    hide FsOk, Ordered, WalkedBut, Numbered, Records, Released, Linked, RoomBeside, Rewritten, D.Added, SoundWorld, InUse, D.Lookup,
      Created, Capacity, RootOk, OverrunsBeside, Super, Dots, DotBlock, FirstFree, Granting, Grants, Held, MetaKept;
    NextNumber(w.v, n);
    var room, x := RoomBeside(w, c, Records(w, d)), w2.t[n];
    var es := if room then D.Added(Records(w, d), name, T_DIR, n) else Records(w, d);
    AddedLinked(w, w2, w3, k, n, x, d, name, T_DIR, room);
    CreatedRefs(w, w2, k, n, x);
    LinkedReleased(w, w3, k, n, x, d, es);
    LinkedFsOk(w, Released(w3, k), n, x, d, es);
    LinkedInode(w, Released(w3, k), n, x, d, es);
    RewrittenOther(w2, w3, d, es, n);
    ReleasedRecords(w3, k, n);
    ReleasedSuper(w, w2, w3, k, OverrunsBeside(w, c, Records(w, d)));
    CreatedApart(w, w2, k, n, x, d);
  }

  lemma CreatedApart(w: World, w1: World, k: nat, n: nat, x: Inode, d: nat)
    requires Created(w, w1, k, n, x) && Numbered(w, d)
    ensures n != d
  {
    hide Ordered, WalkedBut, Numbered, KeptSlots;
  }

  lemma CreatedRefs(w: World, w1: World, k: nat, n: nat, x: Inode)
    requires Created(w, w1, k, n, x)
    ensures n < |w.refs| && w1.refs == More(w.refs, n) && n < NINODES
  {
    hide Ordered, WalkedBut, NewNumber, KeptSlots;
  }

  lemma LinkedInode(w: World, w': World, n: nat, x: Inode, d: nat, es: seq<D.Entry>)
    requires Linked(w, w', n, x, d, es)
    ensures n < |w'.t| && w'.t[n] == x
  {
    hide FsOk, WalkedBut2, NewNumber, KeptSlots, Records;
  }

  lemma RewrittenOther(w: World, w': World, d: nat, es: seq<D.Entry>, n: nat)
    requires Rewritten(w, w', d, es) && n < |w.t|
    ensures n < |w'.t| && (n != d ==> Records(w', n) == Records(w, n)) && SoundWorld(w')
  {
    hide SoundWorld, OthersSame, Solid, Records, SameFile;
    EditedChanged(w, w', d);
    ChangedTable(w, w', d);
    if n != d { OtherFile(w, w', d, n); }
  }

  lemma ReleasedRecords(w: World, k: nat, n: nat)
    requires SoundWorld(w) && k < |w.ss| && w.ss[k].ino.inum < NINODES && n < |w.t|
    ensures |w.refs| == NINODES && BLOCK_START <= |w.v| && w.ss[k].refs > 0
    ensures n < |Released(w, k).t| && Records(Released(w, k), n) == Records(w, n)
  {
    hide SoundWorld, Walked, Released, Records;
    ReleasedWalked(w, k);
    WalkedFile(w, Released(w, k), n);
    SoundSizes(w);
  }

  /** `cmd_mkdir`. `spilt` says that its inode number has no place in the inode area. */
  method Mkdir(fs: FileSystem, cwd: nat, name: seq<byte>, uid: uint32, mode: uint32, now: uint32)
    returns (ok: bool, spilt: bool, ghost n: nat)
    requires fs.Valid() && fs.IsInode(cwd) && |fs.table| == NINODES && FsOk(fs.Now()) && D.NoNul(name)
    requires fs.slots[cwd].ino.kind == T_DIR
    modifies fs, fs.slots, fs.dev, fs.dev.arr, fs.dev.disk.data
    ensures fs.DeviceOk() && fs.sb == old(fs.sb) && old(fs.slots[cwd].ino.inum) < |old(fs.table)| && n <= BITS
    ensures spilt <==> !Obtainable(old(fs.Now()), old(fs.slots[cwd].ino.inum), name, T_DIR) && Spilling(old(fs.dev.contents))
    ensures spilt ==> !ok && Overflowed(old(fs.Now()), fs.Now(), n, T_DIR, now)
    ensures !spilt ==>
              && fs.Valid() && fs.IsInode(cwd) && fs.slots[cwd].ino.inum == old(fs.slots[cwd].ino.inum)
              && MadeDir(old(fs.Now()), fs.Now(), cwd, old(fs.slots[cwd].ino.inum), name, n, uid, mode, ok)
    ensures ok ==> n < |fs.table| && Timed(fs.table[n], now)
    ensures Ticked(old(fs.table), fs.table, now)
  {
    hide Inv, SoundWorld, Ordered, FsOk, LookedUp, Fresh, Untouched, Linked, Walked, WalkedBut, MadeDir, Records, Rewritten,
      InUse, Held, Released, DirOk, AddHasRoom, Numbered, KeptSlots, DirMade, Capacity, RootOk, AddOverruns, Super, Bare,
      Obtainable, Overflowed, Spilling, FirstFree, Granting, Grants, RoomBeside, OverrunsBeside, UsedByAdd, Timed, Stamped, Ticked, RecordAdded;
    ghost var w, d, mid := fs.Now(), fs.slots[cwd].ino.inum, fs.Now();
    FsOkOrdered(w);
    OrderedDir(w, cwd);
    n, spilt := 0, false;
    var r;
    r, mid := DirLookup(fs, cwd, name, T_DIR, now);
    if r.Some? {
      LookupHit(w, mid, fs.Now(), d, name, T_DIR, r.value);
      HitObtainable(w, d, name, T_DIR);
      CwdStays(w, fs.Now(), cwd);
      DirExists(w, fs.Now(), cwd, d, name, uid, mode);
      return false, false, 0;
    }
    ghost var w1 := fs.Now();
    LookupFailed(w, mid, w1, d, name, T_DIR);
    UntouchedParts(w, w1);
    CwdStays(w, w1, cwd);
    FsOkIntro(w1);
    SlotsAgain(w, w1);
    var dp;
    ghost var y;
    dp, spilt, n, y := NewDir(fs, uid, mode, now, w);
    ghost var w2 := fs.Now();
    TickedTrans(w.t, w1.t, w2.t, now);
    NextNumber(w.v, n);
    if dp.None? {
      if !spilt {
        CwdStays(w, w2, cwd);
        DirNone(w, w1, w2, cwd, d, name, n, uid, mode);
      }
      return false, spilt, n;
    }
    FsOkOrdered(w2);
    FreshSlot(w, w2, dp.value, n, y, cwd);
    AddDots(fs, dp.value, fs.slots[cwd].ino.inum, now, w, n, y);
    ghost var w3 := fs.Now();
    DirReady(w, w3, cwd, dp.value, n, d, uid, mode);
    ok := DirAdd(fs, cwd, name, T_DIR, fs.slots[dp.value].ino.inum, now);
    TickedTrans(w.t, w2.t, w3.t, now);
    TickedTrans(w.t, w3.t, fs.table, now);
    DirAdded(w, w3, fs.Now(), cwd, dp.value, n, d, name, uid, mode);
    fs.IPut(dp.value);
    MadeDirKept(w, fs.Now(), cwd, d, name, n, uid, mode, ok);
    CwdStays(w, fs.Now(), cwd);
  }

  lemma FreshSlot(w: World, w1: World, k: nat, n: nat, y: Inode, c: nat)
    requires Fresh(w, w1, k, n, y) && c < |w.ss| && w.ss[c].ino.inum < NINODES
    ensures c < |w1.ss| && w1.ss[c].ino.inum == w.ss[c].ino.inum
  {
    hide Ordered, WalkedBut, NewNumber;
  }

  lemma MadeDirKept(w: World, w': World, c: nat, d: nat, name: seq<byte>, n: nat, uid: uint32, mode: uint32, ok: bool)
    requires c < |w.ss| && d < |w.t| && |w.t| == NINODES && d < NINODES && MadeDir(w, w', c, d, name, n, uid, mode, ok)
    ensures KeptSlots(w, w') && FsOk(w') && d < |w'.t| && w'.t[d].kind == w.t[d].kind
  {
    hide FsOk, KeptSlots, WalkedBut, Records, InUse, Linked, D.Lookup, RoomBeside, D.Added, Capacity;
  }
}
