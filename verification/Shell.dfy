/** The commands on a named file: look the name up, work on the inode, give it back. */
module Shell {
  import opened Bytes
  import opened Results
  import opened BlockTree
  import opened Bitmap
  import opened Inodes
  import opened Growth
  import opened Files
  import opened InodeCache
  import opened World
  import opened Writes
  import opened BlockZero
  import opened TwoWrites
  import opened FileSystem
  import opened Cache
  import opened Commands
  import opened Editing
  import opened DirOps
  import opened Walking
  import opened Session
  import opened Invariant
  import opened Numbering
  import opened Namespace
  import opened Removal
  import D = Directory

  /** The inode that `name` leads to in directory `d`. */
  function FileNamed(w: World, d: nat, name: seq<byte>): Option<uint32>
    requires d < |w.t|
  {
    if w.t[d].kind != T_DIR then None else D.Lookup(Records(w, d), name, T_FILE)
  }

  /** How many blocks a write of `n` bytes at `off` of file `m` lacks. */
  ghost function Lacks(w: World, m: nat, off: nat, n: nat): nat
    requires m < |w.t|
  {
    |Missing(w.v, w.t[m].addrs, off / BSIZE, Ceil(off + n))|
  }

  /** The disk has room to write `n` bytes at `off` of file `m`. */
  ghost predicate HasRoom(w: World, m: nat, off: nat, n: nat)
    requires m < |w.t|
  {
    off + n <= MAXSIZE && |w.owner| + Lacks(w, m, off, n) <= Capacity(|w.v|)
  }

  /** Writing `n` bytes at `off` of file `m` has taken exactly the blocks that it lacked, if there was room. */
  ghost predicate TookRoom(w: World, w': World, m: nat, off: nat, n: nat)
    requires m < |w.t|
  {
    n > 0 && HasRoom(w, m, off, n) ==> |w'.owner| == |w.owner| + Lacks(w, m, off, n)
  }

  lemma TakesRoom(w: World, w1: World, w2: World, k: nat, m: nat, off: nat, n: nat)
    requires FsOk(w) && HeldFile(w, w1, k, m) && w1.owner == w.owner && k < |w1.ss| && Takes(w1, w2, k, off, n)
    ensures m < |w.t| && TookRoom(w, w2, m, off, n)
  {
    hide FsOk, HeldFile, Need, Lacks, Capacity, SameFile, Solid, Contents, SoundWorld;
    HeldTable(w, w1, k, m);
    SameCan(w, w1, k, m, off, n);
    if off + n <= MAXSIZE { SameLacks(w, w1, k, m, off, n); }
  }

  /** The walk holds file `m`, which is as it was, in slot `k`. */
  lemma HeldTable(w: World, w1: World, k: nat, m: nat)
    requires FsOk(w) && HeldFile(w, w1, k, m)
    ensures m < |w.t| == |w1.t| == NINODES && k < |w1.ss| && w1.ss[k].ino == w1.t[m] && w1.ss[k].ino.inum == m
    ensures w1.t[m] == w.t[m].(atime := w1.t[m].atime) && SameFile(w.v, w.t[m].addrs, w1.v) && |w1.v| == |w.v|
    ensures Solid(w1.v, w1.ss[k].ino) && Solid(w.v, w.t[m]) && File(w1, m) == File(w, m) && SoundWorld(w1)
  {
    hide FsOk, SoundWorld, Ordered, Solid, SameFile, KeptSlots, Contents;
    FsOkOrdered(w);
    FsOkOrdered(w1);
    SoundSlot(w1, k);
    WalkedAt(w, w1, m);
    FileOkAt(w, m);
    FileOkAt(w1, m);
    SameFileContents(w.v, w.t[m], w1.v);
    SameContents(w1.v, w1.t[m], w.t[m]);
  }

  lemma WalkedAt(w: World, w1: World, m: nat)
    requires Walked(w, w1) && m < |w.t|
    ensures m < |w1.t| == |w.t| && w1.t[m] == w.t[m].(atime := w1.t[m].atime) && SameFile(w.v, w.t[m].addrs, w1.v)
    ensures |w1.v| == |w.v|
  {
    hide SameFile;
  }

  lemma SameLacks(w: World, w1: World, k: nat, m: nat, off: nat, n: nat)
    requires m < |w.t| && k < |w1.ss| && w1.ss[k].ino.addrs == w.t[m].addrs && SameFile(w.v, w.t[m].addrs, w1.v)
    requires off + n <= MAXSIZE
    ensures Need(w1, k, off, n) == Lacks(w, m, off, n)
  {
    hide Missing, SameTree;
    MissingSame(w.v, w.t[m].addrs, w1.v, off / BSIZE, Ceil(off + n));
  }

  lemma SameCan(w: World, w1: World, k: nat, m: nat, off: nat, n: nat)
    requires FsOk(w) && HeldFile(w, w1, k, m) && w1.owner == w.owner
    ensures m < |w.t| && k < |w1.ss| && (CanWrite(w1, k, off, n) <==> HasRoom(w, m, off, n))
  {
    hide FsOk, HeldFile, Need, Lacks, Capacity, SameFile, Solid, Contents, SoundWorld;
    HeldTable(w, w1, k, m);
    if off + n <= MAXSIZE {
      SameLacks(w, w1, k, m, off, n);
    }
  }

  /** A write of `n` bytes at `off` of file `m` runs out of blocks at a pointer block. */
  ghost predicate FileOverruns(w: World, m: nat, off: nat, n: nat)
    requires m < |w.t|
  {
    Overrun(w.v, w.t[m].addrs, |w.owner|, off, n)
  }

  lemma SameOverruns(w: World, w1: World, k: nat, m: nat, off: nat, n: nat)
    requires FsOk(w) && HeldFile(w, w1, k, m) && w1.owner == w.owner
    ensures m < |w.t| && k < |w1.ss| && (Overruns(w1, k, off, n) <==> FileOverruns(w, m, off, n))
  {
    hide FsOk, HeldFile, Overrun, SameTree, Data, Solid, Contents, SoundWorld;
    HeldTable(w, w1, k, m);
    SameOverrun(w.v, w.t[m].addrs, w1.v, |w.owner|, off, n);
  }

  /** File `m` has been worked on; nothing else has changed and no reference is kept. */
  ghost predicate Handled(w: World, w': World, m: nat) {
    && KeptSlots(w, w') && WalkedBut(w, w', m) && w'.refs == w.refs
    && m < |w.t| && m < |w'.t| && w'.t[m].kind == w.t[m].kind && MetaKept(w, w', m) && SameNumbers(w, w')
  }

  ghost predicate Worked(w: World, w': World, m: nat) {
    FsOk(w') && Handled(w, w', m)
  }

  lemma WorkDone(w: World, w1: World, w2: World, k: nat, m: nat)
    requires FsOk(w) && HeldFile(w, w1, k, m) && m < |w.t| && w.t[m].kind == T_FILE && Numbered(w, m)
    requires Edited(w1, w2, m) && m < |w2.t|
    ensures SoundWorld(w2) && k < |w2.ss| && w2.ss[k].ino.inum == m && |w2.refs| == NINODES && BLOCK_START <= |w2.v| && w2.ss[k].refs > 0
    ensures Handled(w, Released(w2, k), m) && File(Released(w2, k), m) == File(w2, m)
    ensures FsOk(Released(w2, k)) <==> Solid(w2.v, w2.t[m])
  {
    hide FsOk, SoundWorld, Ordered, Solid, SameFile, KeptSlots, Contents, Edited, Changed, Walked, WalkedBut, Released, Numbered, MetaKept,
      SameNumbers;
    FsOkOrdered(w);
    FsOkOrdered(w1);
    HeldTable(w, w1, k, m);
    WorkMeta(w, w1, w2, m);
    EditedChanged(w1, w2, m);
    ChangedTable(w1, w2, m);
    SoundSizes(w2);
    ChangedSlots(w1, w2, m);
    KeptTrans(w, w1, w2);
    ReleaseKeeps(w, w2, k, m);
    ReleasedFields(w2, k);
    ReleasedWalked(w2, k);
    assert Less(More(w.refs, m), m) == w.refs;
    WalkedWalkedBut(w, w1, m);
    ChangedWalked(w1, w2, m);
    WalkedButTrans(w, w1, w2, m);
    WalkedWalkedBut(w2, Released(w2, k), m);
    WalkedButTrans(w, w2, Released(w2, k), m);
    WalkedBytes(w2, Released(w2, k), m);
    WalkedFile(w2, Released(w2, k), m);
    MetaWalked(w2, Released(w2, k), m);
    MetaTrans(w, w2, Released(w2, k), m);
    WalkedNumbers(w2, Released(w2, k));
    SameNumbersTrans(w, w2, Released(w2, k));
    if Solid(w2.v, w2.t[m]) {
      WalkedNumbers(w, w1);
      SameNumbered(w, w1);
      ChangedFsOk(w1, w2, m);
      ReleasedOk(w2, k);
    } else if FsOk(Released(w2, k)) {
      SolidFile(Released(w2, k), m);
    }
  }

  lemma WorkMeta(w: World, w1: World, w2: World, m: nat)
    requires Walked(w, w1) && Edited(w1, w2, m) && m < |w.t|
    ensures MetaKept(w, w2, m) && SameNumbers(w, w2)
  {
    hide Walked, Edited, MetaKept, SameNumbers;
    WalkedNumbers(w, w1);
    EditedNumbers(w1, w2, m);
    SameNumbersTrans(w, w1, w2);
    MetaWalked(w, w1, m);
    MetaEdited(w1, w2, m);
    MetaTrans(w, w1, w2, m);
  }

  lemma EditedNumbers(w: World, w': World, n: nat)
    requires Edited(w, w', n)
    ensures SameNumbers(w, w')
  {
    hide SoundWorld, OthersSame;
  }

  lemma SolidFile(w: World, m: nat)
    requires FsOk(w) && m < |w.t|
    ensures Solid(w.v, w.t[m])
  {
    hide Ordered, Solid, RootOk;
    FileOkAt(w, m);
  }

  /** What work on the held inode has done to block 0 is what the command has done to it. */
  lemma WorkSuper(w: World, w1: World, w2: World, k: nat, m: nat, wiped: bool)
    requires FsOk(w) && HeldFile(w, w1, k, m) && Super(w1.v, w2.v, wiped) && SoundWorld(w2) && k < |w2.ss| && w2.ss[k].ino.inum < NINODES
    ensures |w2.refs| == NINODES && BLOCK_START <= |w2.v| && w2.ss[k].refs > 0
    ensures Super(w.v, Released(w2, k).v, wiped)
  {
    hide FsOk, SoundWorld, Walked, Released;
    FsOkOrdered(w);
    WalkedSuper(w, w1);
    ReleasedSuper(w1, w1, w2, k, wiped);
  }

  lemma WalkedBytes(w: World, w': World, m: nat)
    requires Walked(w, w') && m < |w.t|
    ensures m < |w'.t| && File(w', m) == File(w, m)
  {
    hide SameFile, Contents;
    SameFileContents(w.v, w.t[m], w'.v);
    WalkedContents(w, w', m);
  }

  /** A command that failed to find its file. */
  ghost predicate NotFound(w: World, w': World, d: nat, name: seq<byte>)
    requires d < |w.t|
  {
    FsOk(w') && KeptSlots(w, w') && Walked(w, w') && w'.refs == w.refs && w'.owner == w.owner && !Findable(w, d, name)
  }

  lemma MissingFile(w: World, mid: World, w1: World, d: nat, name: seq<byte>)
    requires FsOk(w) && SoundWorld(w1) && LookedUp(w, mid, w1, d, name, T_FILE, None) && |w.ss| == NCACHE
    ensures NotFound(w, w1, d, name)
  {
    hide Obtainable, SoundWorld, Ordered, Walked, KeptSlots, InUse, D.Lookup, Records, Numbered, RootOk;
    FsOkOrdered(w);
    LookupFailed(w, mid, w1, d, name, T_FILE);
    UntouchedTable(w, w1);
    UntouchedOwner(w, w1);
    FsOkIntro(w1);
    LookedUpDir(w, mid, w1, d, name);
  }

  lemma UntouchedOwner(w: World, w1: World)
    requires Untouched(w, w1)
    ensures w1.owner == w.owner
  {
    hide Ordered, Walked, KeptSlots;
  }

  lemma LookedUpDir(w: World, mid: World, w1: World, d: nat, name: seq<byte>)
    requires LookedUp(w, mid, w1, d, name, T_FILE, None)
    ensures d < |w.t|
  {
    hide Peeked, Acquired, Records;
  }

  // ---------------------------------------------------------------- the commands

  /** `name` leads from directory `d` to file `m`, which is now held in slot `k`. */
  ghost predicate Opened(w: World, w1: World, d: nat, name: seq<byte>, k: nat, m: nat)
    requires d < |w.t|
  {
    && HeldFile(w, w1, k, m) && FileNamed(w, d, name) == Some(m) && w1.owner == w.owner
    && m < |w.t| && w.t[m].kind == T_FILE && Numbered(w, m)
  }

  lemma OpenedParts(w: World, w1: World, d: nat, name: seq<byte>, k: nat, m: nat)
    requires d < |w.t| && Opened(w, w1, d, name, k, m)
    ensures HeldFile(w, w1, k, m) && FileNamed(w, d, name) == Some(m) && w1.owner == w.owner
    ensures m < |w.t| && w.t[m].kind == T_FILE && Numbered(w, m) && m < NINODES
  {
    hide FsOk, Walked, KeptSlots, FileNamed, Numbered;
  }

  /** Looking the file up succeeds. */
  ghost predicate Findable(w: World, d: nat, name: seq<byte>)
    requires d < |w.t|
  {
    Obtainable(w, d, name, T_FILE)
  }

  /** `dir_lookup` of a file in the working directory. */
  method Open(fs: FileSystem, cwd: nat, name: seq<byte>, now: uint32) returns (r: Option<nat>, ghost m: nat)
    requires fs.Valid() && fs.IsInode(cwd) && |fs.table| == NINODES && FsOk(fs.Now())
    modifies fs, fs.slots, fs.dev, fs.dev.arr, fs.dev.disk.data
    ensures fs.Valid() && fs.sb == old(fs.sb) && old(fs.slots[cwd].ino.inum) < |old(fs.table)|
    ensures r.None? ==> NotFound(old(fs.Now()), fs.Now(), old(fs.slots[cwd].ino.inum), name)
    ensures r.Some? ==> fs.IsInode(r.value) && Opened(old(fs.Now()), fs.Now(), old(fs.slots[cwd].ino.inum), name, r.value, m)
    ensures r.Some? <==> Findable(old(fs.Now()), old(fs.slots[cwd].ino.inum), name)
    ensures r.None? ==> |fs.table| == |old(fs.table)| && !Findable(fs.Now(), old(fs.slots[cwd].ino.inum), name)
    ensures r.Some? ==> m < |old(fs.table)| && m < |fs.table| && fs.slots[r.value].ino == fs.table[m] == old(fs.table)[m]
    ensures Ticked(old(fs.table), fs.table, now)
  {
    hide Ticked, Inv, SoundWorld, Ordered, FsOk, LookedUp, NotFound, Walked, Records, DirOk, Numbered, KeptSlots, D.Lookup, RootOk, Held;
    ghost var w, d, mid := fs.Now(), fs.slots[cwd].ino.inum, fs.Now();
    FsOkOrdered(w);
    OrderedDir(w, cwd);
    r, mid := DirLookup(fs, cwd, name, T_FILE, now);
    m := 0;
    if r.Some? {
      LookupHit(w, mid, fs.Now(), d, name, T_FILE, r.value);
      m := D.Lookup(Records(w, d), name, T_FILE).value;
      NamedApart(w, d, name);
      LookedUpSame(w, mid, fs.Now(), d, name, r.value);
      SoundSlot(fs.Now(), r.value);
    } else {
      MissingFile(w, mid, fs.Now(), d, name);
      LookupFailed(w, mid, fs.Now(), d, name, T_FILE);
      MissedAgain(w, mid, fs.Now(), d, name);
    }
  }

  /** The inode of the file is as it was. */
  lemma LookedUpSame(w: World, mid: World, w1: World, d: nat, name: seq<byte>, k: nat)
    requires LookedUp(w, mid, w1, d, name, T_FILE, Some(k))
    ensures d < |w.t| && D.Lookup(Records(w, d), name, T_FILE).Some?
    ensures var m := D.Lookup(Records(w, d), name, T_FILE).value;
      m != d ==> m < |w.t| && m < |w1.t| && w1.t[m] == w.t[m]
  {
    hide SoundWorld, SameFile, Held, Records, D.Lookup;
  }

  /** A lookup that has failed fails again. */
  lemma MissedAgain(w: World, mid: World, w1: World, d: nat, name: seq<byte>)
    requires FsOk(w) && SoundWorld(w1) && LookedUp(w, mid, w1, d, name, T_FILE, None)
    ensures d < |w1.t| == |w.t| && !Findable(w1, d, name)
  {
    hide SoundWorld, Ordered, Walked, KeptSlots, InUse, D.Lookup, Records, Numbered, RootOk, Held, LookedUp;
    FsOkOrdered(w);
    LookedUpDir(w, mid, w1, d, name);
    LookupFailed(w, mid, w1, d, name, T_FILE);
    UntouchedTable(w, w1);
    WalkedFile(w, w1, d);
    WalkedKinds(w, w1);
    if w.t[d].kind == T_DIR && FileNamed(w, d, name).Some? {
      LookupNumbered(w, d, name, T_FILE);
      StillNotHeld(w, w1, FileNamed(w, d, name).value);
    }
  }

  lemma StillNotHeld(w: World, w1: World, m: nat)
    requires SoundWorld(w) && SoundWorld(w1) && w1.refs == w.refs && m < NINODES && !Held(w.ss, m)
    ensures !Held(w1.ss, m)
  {
    hide TreesOk;
    assert w.refs[m] == 0;
    forall k | 0 <= k < |w1.ss| ensures w1.ss[k].ino.inum != m {
      assert SlotOk(w1.ss[k], w1.t, w1.refs);
    }
  }

  /** A file is not the directory it is found in. */
  lemma NamedApart(w: World, d: nat, name: seq<byte>)
    requires FsOk(w) && d < |w.t| && w.t[d].kind == T_DIR && FileNamed(w, d, name).Some?
    ensures FileNamed(w, d, name).value != d
  {
    hide FsOk, D.Lookup, Records;
    FileApart(w, d, name);
  }

  lemma WalkedDir(w: World, w': World, d: nat)
    requires Walked(w, w') && d < |w.t|
    ensures d < |w'.t| && w'.t[d].kind == w.t[d].kind
  {
    WalkedKinds(w, w');
    hide Walked;
  }

  lemma StillThere(w: World, w1: World, c: nat, d: nat, name: seq<byte>)
    requires d < |w.t| && NotFound(w, w1, d, name) && c < |w.ss| && w.ss[c].ino.inum < NINODES
    ensures c < |w1.ss| && w1.ss[c].ino.inum == w.ss[c].ino.inum && FsOk(w1)
    ensures d < |w1.t| && w1.t[d].kind == w.t[d].kind
  {
    hide FsOk, Walked, InUse, FileNamed;
    WalkedDir(w, w1, d);
  }

  lemma StillHere(w: World, w1: World, c: nat, m: nat)
    requires Handled(w, w1, m) && c < |w.ss| && w.ss[c].ino.inum < NINODES
    ensures c < |w1.ss| && w1.ss[c].ino.inum == w.ss[c].ino.inum
  {
    hide FsOk, WalkedBut;
  }

  /** Each time of the file that `name` leads to is as before or `now`. */
  ghost predicate StampedFile(w: World, w': World, d: nat, name: seq<byte>, now: uint32)
    requires d < |w.t|
  {
    var r := FileNamed(w, d, name);
    r.Some? && r.value < |w.t| && r.value < |w'.t| && Stamped(w.t[r.value], w'.t[r.value], now)
  }

  /** A whole file has been read. */
  ghost predicate Catted(w: World, w': World, d: nat, name: seq<byte>, data: seq<byte>)
    requires d < |w.t|
  {
    var r := FileNamed(w, d, name);
    && r.Some? && r.value < |w.t| && r.value < |w'.t|
    && Worked(w, w', r.value) && data == File(w, r.value) == File(w', r.value) && SameSuper(w.v, w'.v)
  }

  /** `cmd_cat`: the whole file. */
  method Cat(fs: FileSystem, cwd: nat, name: seq<byte>, now: uint32) returns (data: Option<seq<byte>>)
    requires fs.Valid() && fs.IsInode(cwd) && |fs.table| == NINODES && FsOk(fs.Now())
    modifies fs, fs.slots, fs.dev, fs.dev.arr, fs.dev.disk.data
    ensures fs.Valid() && fs.sb == old(fs.sb) && old(fs.slots[cwd].ino.inum) < |old(fs.table)|
    ensures fs.IsInode(cwd) && fs.slots[cwd].ino.inum == old(fs.slots[cwd].ino.inum)
    ensures data.Some? <==> Findable(old(fs.Now()), old(fs.slots[cwd].ino.inum), name)
    ensures data.None? ==> NotFound(old(fs.Now()), fs.Now(), old(fs.slots[cwd].ino.inum), name)
    ensures data.Some? ==> Catted(old(fs.Now()), fs.Now(), old(fs.slots[cwd].ino.inum), name, data.value)
    ensures data.Some? ==> StampedFile(old(fs.Now()), fs.Now(), old(fs.slots[cwd].ino.inum), name, now)
    ensures Ticked(old(fs.table), fs.table, now)
  {
    hide Ticked, Stamped, Inv, SoundWorld, FsOk, Opened, NotFound, Peeked, Handled, FileNamed, HeldFile, Solid, Edited, Contents, Numbered, Findable;
    ghost var w, d := fs.Now(), fs.slots[cwd].ino.inum;
    var r;
    ghost var m;
    r, m := Open(fs, cwd, name, now);
    if r.None? {
      StillThere(w, fs.Now(), cwd, d, name);
      return None;
    }
    ghost var w1 := fs.Now();
    OpenedParts(w, w1, d, name, r.value, m);
    HeldTable(w, w1, r.value, m);
    var bytes := CatFile(fs, r.value, now);
    ghost var w2 := fs.Now();
    TickedTrans(w.t, w1.t, w2.t, now);
    PeekedEdited(w1, w2, m);
    SameInum(w1, w2, r.value, m);
    SoundSlot(w2, r.value);
    PeekedFile(w1, w2, m);
    PeekedSuper(w1, w2, m);
    WorkDone(w, w1, w2, r.value, m);
    WorkSuper(w, w1, w2, r.value, m, false);
    fs.IPut(r.value);
    StillHere(w, fs.Now(), cwd, m);
    return Some(bytes);
  }

  /** `data` has been inserted at `pos`, or at the end if that is nearer: exactly when the
      result is not too large and the disk has the blocks that it lacks. The superblock is lost
      exactly when one of the two writes runs out of blocks at a pointer block. */
  ghost predicate InsertedInto(w: World, w': World, d: nat, name: seq<byte>, pos: nat, data: seq<byte>)
    requires d < |w.t|
  {
    var r := FileNamed(w, d, name);
    && r.Some? && r.value < |w.t| && r.value < |w'.t| && Worked(w, w', r.value)
    && var c := File(w, r.value);
       var p := Min(pos, |c|);
       && (if |data| == 0 then File(w', r.value) == c
           else File(w', r.value) == Inserted(c, p, data) <==> HasRoom(w, r.value, p, |c| + |data| - p))
       && |data| < 0x1_0000_0000 && (|data| > 0 ==> TookRoom(w, w', r.value, p, |c| + |data| - p))
       && File(w', r.value) == InsertLeft(c, p, data, HasRoom(w, r.value, p, |data|), HasRoom(w, r.value, p, |c| + |data| - p))
       && Super(w.v, w'.v, InsertedOver(w, r.value, p, |data|))
  }

  /** One of the two writes that insert `len` bytes at `p` of file `m` runs out at a pointer block. */
  ghost predicate InsertedOver(w: World, m: nat, p: nat, len: nat)
    requires m < |w.t| && p <= |File(w, m)|
  {
    InsertOverrun(w.v, w.t[m].addrs, |w.owner|, p, len, |File(w, m)| - p)
  }

  lemma HeldInsert(w: World, w1: World, k: nat, m: nat, p: nat, len: nat)
    requires FsOk(w) && HeldFile(w, w1, k, m) && w1.owner == w.owner && m < |w.t| && p <= |File(w, m)|
    ensures k < |w1.ss| && p <= w1.ss[k].ino.size && (InsertOverruns(w1, k, p, len) <==> InsertedOver(w, m, p, len))
  {
    hide FsOk, HeldFile, InsertOverrun, SameFile, Data, Solid, Contents, SoundWorld;
    HeldTable(w, w1, k, m);
    SizeOf(w, m);
    SameInserting(w.v, w.t[m].addrs, w1.v, |w.owner|, p, len, |File(w, m)| - p);
  }

  /** Giving the inode back takes no block. */
  lemma ReleasedCount(w: World, w2: World, k: nat, m: nat, off: nat, n: nat)
    requires SoundWorld(w2) && k < |w2.ss| && w2.ss[k].ino.inum < NINODES && m < |w.t|
    ensures |w2.refs| == NINODES && BLOCK_START <= |w2.v| && w2.ss[k].refs > 0
    ensures TookRoom(w, Released(w2, k), m, off, n) <==> TookRoom(w, w2, m, off, n)
  {
    hide SoundWorld, HasRoom, Lacks;
    SoundSlot(w2, k);
    ReleasedTable(w2, k);
  }

  /** `cmd_i`. */
  method Insert(fs: FileSystem, cwd: nat, name: seq<byte>, pos: uint32, data: seq<byte>, now: uint32) returns (ok: bool)
    requires fs.Valid() && fs.IsInode(cwd) && |fs.table| == NINODES && FsOk(fs.Now()) && |data| < 0x1_0000_0000
    modifies fs, fs.slots, fs.dev, fs.dev.arr, fs.dev.disk.data
    ensures fs.Valid() && fs.sb == old(fs.sb) && old(fs.slots[cwd].ino.inum) < |old(fs.table)|
    ensures fs.IsInode(cwd) && fs.slots[cwd].ino.inum == old(fs.slots[cwd].ino.inum)
    ensures ok <==> Findable(old(fs.Now()), old(fs.slots[cwd].ino.inum), name)
    ensures !ok ==> NotFound(old(fs.Now()), fs.Now(), old(fs.slots[cwd].ino.inum), name)
    ensures ok ==> InsertedInto(old(fs.Now()), fs.Now(), old(fs.slots[cwd].ino.inum), name, pos, data)
    ensures ok ==> StampedFile(old(fs.Now()), fs.Now(), old(fs.slots[cwd].ino.inum), name, now)
    ensures Ticked(old(fs.table), fs.table, now)
  {
    hide Ticked, Inv, SoundWorld, FsOk, Opened, NotFound, Handled, FileNamed, HeldFile, Solid, Edited, Contents, Numbered, Fits, HasRoom, Findable,
      InsertOverruns, InsertedOver, Super, InsertLeft, CanWrite, Inserted, Stamped, Takes, TookRoom;
    ghost var w, d := fs.Now(), fs.slots[cwd].ino.inum;
    var r;
    ghost var m;
    r, m := Open(fs, cwd, name, now);
    if r.None? {
      StillThere(w, fs.Now(), cwd, d, name);
      return false;
    }
    ghost var w1 := fs.Now();
    OpenedParts(w, w1, d, name, r.value, m);
    HeldTable(w, w1, r.value, m);
    SizeOf(w, m);
    ghost var p := Min(pos, |File(w, m)|);
    FitsRoom(w, w1, r.value, m, p, |data|);
    SameCan(w, w1, r.value, m, p, |data|);
    HeldInsert(w, w1, r.value, m, p, |data|);
    InsertAt(fs, r.value, pos, data, now);
    if |data| > 0 { TakesRoom(w, w1, fs.Now(), r.value, m, p, |File(w, m)| + |data| - p); }
    ReleasedCount(w, fs.Now(), r.value, m, p, |File(w, m)| + |data| - p);
    TickedTrans(w.t, w1.t, fs.table, now);
    SameInum(w1, fs.Now(), r.value, m);
    SoundSlot(fs.Now(), r.value);
    WorkDone(w, w1, fs.Now(), r.value, m);
    WorkSuper(w, w1, fs.Now(), r.value, m, InsertOverruns(w1, r.value, p, |data|));
    fs.IPut(r.value);
    StillHere(w, fs.Now(), cwd, m);
    return true;
  }

  lemma FitsRoom(w: World, w1: World, k: nat, m: nat, p: nat, len: nat)
    requires FsOk(w) && HeldFile(w, w1, k, m) && w1.owner == w.owner && m < |w.t| && p <= |File(w, m)|
    ensures k < |w1.ss| && w1.ss[k].ino.size == |File(w, m)|
    ensures Fits(w1, k, p, len) <==> HasRoom(w, m, p, |File(w, m)| + len - p)
  {
    hide FsOk, HeldFile, Need, Lacks, Capacity, SameFile, Solid, SoundWorld, Contents;
    HeldTable(w, w1, k, m);
    SizeOf(w, m);
    SameCan(w, w1, k, m, p, |File(w, m)| + len - p);
  }

  /** The cut of `cmd_d` has been made: the file has the new size, and it has no hole, and
      everything is in order, exactly if the tail could be written, which is `whole`. Without a
      wrap that is the deletion. The superblock is lost exactly when writing the tail runs
      out of blocks at a pointer block. */
  ghost predicate DeletedFrom(w: World, w': World, d: nat, name: seq<byte>, pos: uint32, len: uint32, whole: bool)
    requires d < |w.t|
  {
    var r := FileNamed(w, d, name);
    && r.Some? && Handled(w, w', r.value) && pos <= |File(w, r.value)|
    && var m, c := r.value, File(w, r.value);
       var left := |c| - TailPos(pos, len, |c|);
       && (whole <==> pos + len < 0x1_0000_0000 || HasRoom(w, m, pos, left))
       && (FsOk(w') <==> whole)
       && |File(w', m)| == pos + left
       && (whole ==> File(w', m) == c[..pos] + c[TailPos(pos, len, |c|)..])
       && (!whole ==> |c| <= |File(w', m)| && File(w', m)[..|c|] == CutShort(c, pos, c[TailPos(pos, len, |c|)..]))
       && (pos + len < 0x1_0000_0000 ==> File(w', m) == Deleted(c, pos, len))
       && Super(w.v, w'.v, FileOverruns(w, m, pos, left))
  }

  /** The file is there, and the position is not beyond its end. */
  ghost predicate Cuttable(w: World, d: nat, name: seq<byte>, pos: nat)
    requires d < |w.t|
  {
    && Findable(w, d, name) && FileNamed(w, d, name).Some? && FileNamed(w, d, name).value < |w.t|
    && pos <= |File(w, FileNamed(w, d, name).value)|
  }

  ghost predicate BeyondEnd(w: World, w': World, d: nat, name: seq<byte>, pos: nat)
    requires d < |w.t|
  {
    var r := FileNamed(w, d, name);
    r.Some? && r.value < |w.t| && Worked(w, w', r.value) && pos > |File(w, r.value)| && SameSuper(w.v, w'.v)
    && File(w', r.value) == File(w, r.value)
  }

  lemma CutHeld(w: World, w1: World, k: nat, m: nat, pos: uint32, len: uint32)
    requires FsOk(w) && HeldFile(w, w1, k, m) && w1.owner == w.owner && m < |w.t| && pos <= |File(w, m)|
    ensures k < |w1.ss| && pos <= w1.ss[k].ino.size == |File(w, m)|
    ensures var left := |File(w, m)| - TailPos(pos, len, |File(w, m)|);
      && (CutFits(w1, k, pos, len) <==> pos + len < 0x1_0000_0000 || HasRoom(w, m, pos, left))
      && (Overruns(w1, k, pos, left) <==> FileOverruns(w, m, pos, left))
  {
    hide FsOk, HeldFile, Overrun, Solid, Contents, SoundWorld, CanWrite, HasRoom, SameFile;
    HeldTable(w, w1, k, m);
    SizeOf(w, m);
    SameCan(w, w1, k, m, pos, |File(w, m)| - TailPos(pos, len, |File(w, m)|));
    SameOverruns(w, w1, k, m, pos, |File(w, m)| - TailPos(pos, len, |File(w, m)|));
  }

  /** The parts of a cut that the command's contract is made of. */
  lemma CutParts(w1: World, w2: World, k: nat, m: nat, pos: uint32, len: uint32)
    requires k < |w1.ss| && w1.ss[k].ino.inum == m < |w1.t| && w1.ss[k].ino == w1.t[m] && pos <= w1.ss[k].ino.size
    requires CutOut(w1, w2, k, pos, len)
    ensures var size := w1.ss[k].ino.size;
      var left := size - TailPos(pos, len, size);
      && Edited(w1, w2, m) && m < |w2.t| && (Solid(w2.v, w2.t[m]) <==> CutFits(w1, k, pos, len))
      && |File(w2, m)| == pos + left && |File(w1, m)| == size
      && (CutFits(w1, k, pos, len) ==> File(w2, m) == File(w1, m)[..pos] + File(w1, m)[TailPos(pos, len, size)..])
      && (!CutFits(w1, k, pos, len) ==>
            size <= |File(w2, m)| && File(w2, m)[..size] == CutShort(File(w1, m), pos, File(w1, m)[TailPos(pos, len, size)..]))
      && Super(w1.v, w2.v, Overruns(w1, k, pos, left))
  {
    hide Solid, Edited, Contents, CutFits, Overruns, Super, CutShort;
    SizeOf(w1, m);
    SizeOf(w2, m);
  }

  lemma CutDone(w: World, w1: World, w2: World, k: nat, m: nat, d: nat, name: seq<byte>, pos: uint32, len: uint32, whole: bool)
    requires FsOk(w) && d < |w.t| && Opened(w, w1, d, name, k, m) && m < |w.t| && pos <= |File(w, m)|
    requires k < |w1.ss| && w1.ss[k].ino.inum == m < |w1.t| && w1.ss[k].ino == w1.t[m] && pos <= w1.ss[k].ino.size
    requires CutOut(w1, w2, k, pos, len) && (whole <==> CutFits(w1, k, pos, len))
    ensures k < |w2.ss| && w2.ss[k].ino.inum == m < NINODES && |w2.refs| == NINODES && BLOCK_START <= |w2.v| && w2.ss[k].refs > 0
    ensures DeletedFrom(w, Released(w2, k), d, name, pos, len, whole) && Handled(w, Released(w2, k), m)
  {
    hide FsOk, Opened, Handled, FileNamed, HeldFile, Solid, Edited, Contents, HasRoom, CutOut, CutFits, Overruns, FileOverruns, Super,
      SoundWorld, Released, Numbered, CutShort;
    OpenedParts(w, w1, d, name, k, m);
    HeldTable(w, w1, k, m);
    CutHeld(w, w1, k, m, pos, len);
    CutParts(w1, w2, k, m, pos, len);
    WorkDone(w, w1, w2, k, m);
    WorkSuper(w, w1, w2, k, m, Overruns(w1, k, pos, |File(w, m)| - TailPos(pos, len, |File(w, m)|)));
    DeleteWraps(File(w, m), pos, len);
  }

  lemma NothingCut(w: World, w1: World, k: nat, m: nat, d: nat, name: seq<byte>, pos: nat)
    requires FsOk(w) && d < |w.t| && Opened(w, w1, d, name, k, m) && m < |w.t| && pos > |File(w, m)|
    ensures k < |w1.ss| && w1.ss[k].ino.inum == m < NINODES && |w1.refs| == NINODES && BLOCK_START <= |w1.v| && w1.ss[k].refs > 0
    ensures BeyondEnd(w, Released(w1, k), d, name, pos) && Handled(w, Released(w1, k), m)
  {
    hide FsOk, Opened, Handled, FileNamed, HeldFile, Solid, Edited, Contents, Super, SoundWorld, Released, SameSuper, Numbered;
    OpenedParts(w, w1, d, name, k, m);
    HeldTable(w, w1, k, m);
    EditedRefl(w1, m);
    WorkDone(w, w1, w1, k, m);
    NoSuper(w1);
    WorkSuper(w, w1, w1, k, m, false);
    SuperSame(w.v, Released(w1, k).v);
  }

  /** `cmd_d`: it fails only on a missing file or a position beyond the end. `whole` tells
      whether all of the tail was written, which the source does not look at. */
  method Delete(fs: FileSystem, cwd: nat, name: seq<byte>, pos: uint32, len: uint32, now: uint32) returns (ok: bool, whole: bool)
    requires fs.Valid() && fs.IsInode(cwd) && |fs.table| == NINODES && FsOk(fs.Now())
    modifies fs, fs.slots, fs.dev, fs.dev.arr, fs.dev.disk.data
    ensures fs.Valid() && fs.sb == old(fs.sb) && old(fs.slots[cwd].ino.inum) < |old(fs.table)|
    ensures fs.IsInode(cwd) && fs.slots[cwd].ino.inum == old(fs.slots[cwd].ino.inum)
    ensures ok <==> Cuttable(old(fs.Now()), old(fs.slots[cwd].ino.inum), name, pos)
    ensures !ok ==> whole && if Findable(old(fs.Now()), old(fs.slots[cwd].ino.inum), name)
                             then BeyondEnd(old(fs.Now()), fs.Now(), old(fs.slots[cwd].ino.inum), name, pos)
                             else NotFound(old(fs.Now()), fs.Now(), old(fs.slots[cwd].ino.inum), name)
    ensures ok ==> DeletedFrom(old(fs.Now()), fs.Now(), old(fs.slots[cwd].ino.inum), name, pos, len, whole)
    ensures ok ==> StampedFile(old(fs.Now()), fs.Now(), old(fs.slots[cwd].ino.inum), name, now)
    ensures Ticked(old(fs.table), fs.table, now)
  {
    hide Ticked, Stamped, Inv, SoundWorld, FsOk, Opened, NotFound, Handled, FileNamed, HeldFile, Solid, Edited, Contents, Numbered, CanWrite, HasRoom,
      Findable, CutOut, CutFits, Overruns, Overrun, Super, SameSuper, DeletedFrom, BeyondEnd, Released;
    ghost var w, d := fs.Now(), fs.slots[cwd].ino.inum;
    var r;
    ghost var m;
    r, m := Open(fs, cwd, name, now);
    if r.None? {
      StillThere(w, fs.Now(), cwd, d, name);
      return false, true;
    }
    ghost var w1 := fs.Now();
    OpenedParts(w, w1, d, name, r.value, m);
    HeldTable(w, w1, r.value, m);
    SizeOf(w, m);
    ok, whole := DeleteAt(fs, r.value, pos, len, now);
    ghost var w2 := fs.Now();
    TickedTrans(w.t, w1.t, w2.t, now);
    if ok {
      CutParts(w1, w2, r.value, m, pos, len);
      SameInum(w1, w2, r.value, m);
      SoundSlot(w2, r.value);
      CutDone(w, w1, w2, r.value, m, d, name, pos, len, whole);
    } else {
      NothingCut(w, w1, r.value, m, d, name, pos);
    }
    fs.IPut(r.value);
    StillHere(w, fs.Now(), cwd, m);
  }

  lemma NoSuper(w: World)
    requires SoundWorld(w)
    ensures Super(w.v, w.v, false)
  {
    hide SoundWorld;
    SoundDevice(w);
  }

  lemma SuperSame(v: seq<Block>, v': seq<Block>)
    requires Super(v, v', false)
    ensures SameSuper(v, v')
  {
  }

  /** The file holds `data`, or nothing if the disk had no room for it, as for data larger than any
      file can be; no other file has changed. The superblock is lost exactly when writing the
      data runs out of blocks at a pointer block. */
  ghost predicate WrittenTo(w: World, w': World, d: nat, name: seq<byte>, data: seq<byte>)
    requires d < |w.t|
  {
    var r := FileNamed(w, d, name);
    && r.Some? && r.value < |w.t| && r.value < |w'.t| && Worked(w, w', r.value)
    && File(w', r.value) == (if |data| > 0 && HasRoom(w, r.value, 0, |data|) then data else [])
    && TookRoom(w, w', r.value, 0, |data|)
    && Super(w.v, w'.v, FileOverruns(w, r.value, 0, |data|))
  }

  /** The part of `cmd_w` after the file has been found. */
  method Replace(fs: FileSystem, k: nat, data: seq<byte>, now: uint32, ghost w: World, ghost d: nat, ghost name: seq<byte>, ghost m: nat)
    returns (ok: bool)
    requires fs.Valid() && fs.IsInode(k) && FsOk(w) && d < |w.t| && Opened(w, fs.Now(), d, name, k, m) && |data| < 0x1_0000_0000
    modifies fs, fs.slots, fs.dev, fs.dev.arr, fs.dev.disk.data
    ensures fs.Valid() && fs.sb == old(fs.sb)
    ensures ok <==> |data| <= MAXSIZE
    ensures WrittenTo(w, fs.Now(), d, name, data)
    ensures m < |fs.table| && Stamped(old(fs.slots[k].ino), fs.table[m], now)
    ensures Ticked(old(fs.table), fs.table, now)
  {
    hide Ticked, Inv, SoundWorld, FsOk, Opened, Handled, FileNamed, HeldFile, Solid, Edited, Contents, Numbered, CanWrite, HasRoom, Overruns,
      FileOverruns, Super, Stamped, Recounted, Takes, TookRoom;
    ghost var w1 := fs.Now();
    OpenedParts(w, w1, d, name, k, m);
    HeldTable(w, w1, k, m);
    SameCan(w, w1, k, m, 0, |data|);
    SameOverruns(w, w1, k, m, 0, |data|);
    ok := Overwrite(fs, k, data, now);
    TakesRoom(w, w1, fs.Now(), k, m, 0, |data|);
    ReleasedCount(w, fs.Now(), k, m, 0, |data|);
    SameInum(w1, fs.Now(), k, m);
    SoundSlot(fs.Now(), k);
    WorkDone(w, w1, fs.Now(), k, m);
    WorkSuper(w, w1, fs.Now(), k, m, Overruns(w1, k, 0, |data|));
    fs.IPut(k);
  }

  lemma SameInum(w: World, w': World, k: nat, m: nat)
    requires Edited(w, w', m) && k < |w.ss| && w.ss[k].ino.inum == m
    ensures k < |w'.ss| && w'.ss[k].ino.inum == m
  {
    hide SoundWorld, OthersSame;
  }

  /** A file created under this name is found again: the name fits, and the directory has room. */
  ghost predicate Keeps(w: World, c: nat, d: nat, name: seq<byte>)
    requires c < |w.ss| && d < |w.t|
  {
    |name| < D.MAXNAME && AddHasRoom(w, c, Records(w, d))
  }

  /** What a file that `cmd_w` creates belongs to: its owner may read and write it, everybody else read it. */
  ghost predicate NewOwned(x: Inode, uid: uint32) {
    x.kind == 2 && x.mode == 0x1A4 && x.uid == uid && x.gid == 0 && x.nlink == 1 && x.flags == 0
  }

  /** The inode `n` of a file that has been created, in `base`, and written to, if it was found again. */
  ghost predicate NewlyOwned(base: World, w': World, n: nat, uid: uint32, now: uint32, found: bool) {
    && n < |base.t| && NewOwned(base.t[n], uid) && Timed(base.t[n], now)
    && n < |w'.t| && NewOwned(w'.t[n], uid) && (found ==> Timed(w'.t[n], now))
  }

  lemma OwnedStays(base: World, w': World, n: nat, uid: uint32, now: uint32, found: bool)
    requires MetaKept(base, w', n) && NewOwned(base.t[n], uid) && Timed(base.t[n], now) && (found ==> Timed(w'.t[n], now))
    ensures NewlyOwned(base, w', n, uid, now, found)
  {
  }

  lemma MadeOwned(w: World, base: World, c: nat, d: nat, name: seq<byte>, n: nat, uid: uint32, now: uint32)
    requires c < |w.ss| && d < |w.t| && |w.t| == NINODES && n <= BITS && Made(w, base, c, d, name, FileInode(n, uid, 0x1A4, now), true)
    ensures n < |base.t| && NewOwned(base.t[n], uid) && Timed(base.t[n], now)
  {
    hide Made;
    MadeInode(w, base, c, d, name, FileInode(n, uid, 0x1A4, now));
  }

  /** What `cmd_w` has done. It reports success exactly if the data is not larger than any file can be
      and the file is there, or can be created and found again. A file that is there is written to.
      One that cannot be created leaves what the failed creation leaves. One that can, which leads
      to `base`, is written to if it is found again. */
  ghost predicate WriteDone(w: World, base: World, w': World, c: nat, d: nat, name: seq<byte>, data: seq<byte>,
                            n: nat, uid: uint32, now: uint32, ok: bool)
    requires c < |w.ss| && d < |w.t| && |w.t| == NINODES
  {
    && n <= BITS
    && (ok <==> |data| <= MAXSIZE && (Findable(w, d, name) || (Creatable(w, d, name, T_FILE) && Keeps(w, c, d, name))))
    && (Findable(w, d, name) ==> WrittenTo(w, w', d, name, data))
    && (!Findable(w, d, name) ==>
          if Creatable(w, d, name, T_FILE) then
            && Made(w, base, c, d, name, FileInode(n, uid, 0x1A4, now), true) && d < |base.t|
            && NewlyOwned(base, w', n, uid, now, Keeps(w, c, d, name))
            && if Keeps(w, c, d, name) then WrittenTo(base, w', d, name, data) else NotFound(base, w', d, name)
          else Made(w, w', c, d, name, FileInode(n, uid, 0x1A4, now), false))
  }

  /** `cmd_w`: the file is created if it is not there. `spilt` says that its inode number has no place
      in the inode area. */
  method Write(fs: FileSystem, cwd: nat, name: seq<byte>, data: seq<byte>, uid: uint32, now: uint32)
    returns (ok: bool, spilt: bool, ghost base: World, ghost n: nat)
    requires fs.Valid() && fs.IsInode(cwd) && |fs.table| == NINODES && FsOk(fs.Now()) && D.NoNul(name)
    requires |data| < 0x1_0000_0000
    modifies fs, fs.slots, fs.dev, fs.dev.arr, fs.dev.disk.data
    ensures fs.DeviceOk() && fs.sb == old(fs.sb) && n <= BITS
    ensures old(fs.slots[cwd].ino.inum) < |old(fs.table)|
    ensures spilt <==> !Findable(old(fs.Now()), old(fs.slots[cwd].ino.inum), name) && Spilling(old(fs.dev.contents))
    ensures spilt ==> !ok && Overflowed(old(fs.Now()), fs.Now(), n, T_FILE, now)
    ensures !spilt ==>
              && fs.Valid() && FsOk(fs.Now())
              && fs.IsInode(cwd) && fs.slots[cwd].ino.inum == old(fs.slots[cwd].ino.inum) < |fs.table|
              && (old(fs.slots[cwd].ino.kind) == T_DIR ==> fs.table[old(fs.slots[cwd].ino.inum)].kind == T_DIR)
              && WriteDone(old(fs.Now()), base, fs.Now(), cwd, old(fs.slots[cwd].ino.inum), name, data, n, uid, now, ok)
    ensures Ticked(old(fs.table), fs.table, now)
  {
    hide Ticked, Inv, SoundWorld, FsOk, Opened, NotFound, Made, WrittenTo, Spilling, Worked, KeptSlots, Findable, Overflowed, Creatable, Keeps,
      InUse, Held, Granting, WriteDone, Stamped, FileFields, FileInode, FileNamed, NewOwned, Timed, HeldFile;
    ghost var w, d, m := fs.Now(), fs.slots[cwd].ino.inum, 0;
    FsOkOrdered(w);
    SoundSlot(w, cwd);
    base, n, spilt := w, 0, false;
    var r;
    r, m := Open(fs, cwd, name, now);
    if r.None? {
      ghost var missed := fs.Now();
      MissedOk(w, missed, cwd, d, name);
      StillThere(w, missed, cwd, d, name);
      FindableIs(missed, d, name);
      ok, spilt, n := Mk(fs, cwd, name, uid, 0x1A4, now);
      base := fs.Now();
      TickedTrans(w.t, missed.t, base.t, now);
      if spilt {
        MissedSpilt(w, missed, base, d, name, n, now);
      } else {
        MissedMade(w, missed, base, cwd, d, name, FileInode(n, uid, 0x1A4, now), ok);
        MadeKept(w, base, cwd, d, name, FileInode(n, uid, 0x1A4, now), ok);
        FsOkOrdered(base);
      }
      if !ok {
        if !spilt { WriteFailed(w, base, cwd, d, name, data, n, uid, now); }
        return;
      }
      FoundAgain(w, base, cwd, d, name, FileInode(n, uid, 0x1A4, now));
      MadeOwned(w, base, cwd, d, name, n, uid, now);
      r, m := Open(fs, cwd, name, now);
      TickedTrans(w.t, base.t, fs.table, now);
      if r.None? {
        NotFoundOk(base, fs.Now(), d, name);
        StillThere(base, fs.Now(), cwd, d, name);
        WriteLost(w, base, fs.Now(), cwd, d, name, data, n, uid, now);
        return false, false, base, n;
      }
    }
    ghost var found, x := base == w && Findable(w, d, name), fs.slots[r.value].ino;
    OpenedParts(base, fs.Now(), d, name, r.value, m);
    ghost var t := fs.table;
    ok := Replace(fs, r.value, data, now, base, d, name, m);
    TickedTrans(w.t, t, fs.table, now);
    if !found { TimedStays(x, fs.table[m], now); }
    WrittenOk(base, fs.Now(), d, name, data);
    WrittenDir(base, fs.Now(), d, name, data);
    CwdStays(base, fs.Now(), cwd);
    WriteWritten(w, base, fs.Now(), cwd, d, name, data, n, uid, now, found);
  }

  lemma WriteFailed(w: World, w': World, c: nat, d: nat, name: seq<byte>, data: seq<byte>, n: nat, uid: uint32, now: uint32)
    requires c < |w.ss| && d < |w.t| && |w.t| == NINODES && n <= BITS && !Findable(w, d, name)
    requires Made(w, w', c, d, name, FileInode(n, uid, 0x1A4, now), false)
    ensures WriteDone(w, w', w', c, d, name, data, n, uid, now, false)
  {
    hide FsOk, KeptSlots, WalkedBut, Linked, Bare, Records, AddHasRoom, D.Added, WrittenTo, Creatable, Findable, FirstFree, Keeps;
  }

  lemma WriteLost(w: World, base: World, w': World, c: nat, d: nat, name: seq<byte>, data: seq<byte>, n: nat, uid: uint32, now: uint32)
    requires c < |w.ss| && d < |w.t| && |w.t| == NINODES && n <= BITS && !Findable(w, d, name) && !Keeps(w, c, d, name)
    requires Made(w, base, c, d, name, FileInode(n, uid, 0x1A4, now), true) && d < |base.t| && NotFound(base, w', d, name)
    ensures WriteDone(w, base, w', c, d, name, data, n, uid, now, false)
  {
    MadeOwned(w, base, c, d, name, n, uid, now);
    NotFoundWalked(base, w', d, name);
    MetaWalked(base, w', n);
    OwnedStays(base, w', n, uid, now, false);
    hide FsOk, KeptSlots, WalkedBut, Linked, Bare, Records, AddHasRoom, D.Added, WrittenTo, Creatable, Findable, FirstFree, Keeps, NotFound;
  }

  lemma WriteWritten(w: World, base: World, w': World, c: nat, d: nat, name: seq<byte>, data: seq<byte>, n: nat, uid: uint32, now: uint32,
                     found: bool)
    requires c < |w.ss| && d < |w.t| && |w.t| == NINODES && n <= BITS && d < |base.t| && WrittenTo(base, w', d, name, data)
    requires if found then base == w && Findable(w, d, name)
             else
               && !Findable(w, d, name) && Keeps(w, c, d, name) && Made(w, base, c, d, name, FileInode(n, uid, 0x1A4, now), true)
               && FileNamed(base, d, name) == Some(n) && n < |w'.t| && Timed(w'.t[n], now)
    ensures WriteDone(w, base, w', c, d, name, data, n, uid, now, |data| <= MAXSIZE)
  {
    if !found {
      MadeOwned(w, base, c, d, name, n, uid, now);
      WrittenMeta(base, w', d, name, data, n);
      OwnedStays(base, w', n, uid, now, true);
    }
    hide FsOk, KeptSlots, WalkedBut, Linked, Bare, Records, AddHasRoom, D.Added, WrittenTo, Creatable, Findable, FirstFree, Keeps;
  }

  lemma NotFoundWalked(w: World, w': World, d: nat, name: seq<byte>)
    requires d < |w.t| && NotFound(w, w', d, name)
    ensures Walked(w, w')
  {
    hide FsOk, KeptSlots, Walked, Findable;
  }

  lemma WrittenMeta(w: World, w': World, d: nat, name: seq<byte>, data: seq<byte>, m: nat)
    requires d < |w.t| && WrittenTo(w, w', d, name, data) && FileNamed(w, d, name) == Some(m)
    ensures MetaKept(w, w', m)
  {
    hide FsOk, KeptSlots, WalkedBut, FileNamed, HasRoom, Contents, FileOverruns, Super, MetaKept;
  }

  lemma FindableIs(w: World, d: nat, name: seq<byte>)
    requires d < |w.t|
    ensures Findable(w, d, name) <==> Obtainable(w, d, name, T_FILE)
  {
    hide Obtainable;
  }

  // ---------------------------------------------------------------- a creation after a failed lookup

  lemma MissedParts(w: World, w1: World, d: nat, name: seq<byte>)
    requires FsOk(w) && d < |w.t| && NotFound(w, w1, d, name)
    ensures FsOk(w1) && Walked(w, w1) && KeptSlots(w, w1) && w1.refs == w.refs && w1.owner == w.owner && !Obtainable(w, d, name, T_FILE)
    ensures Untouched(w, w1) && SameSuper(w.v, w1.v) && |w1.v| == |w.v| && (|w.v| > 1 ==> w1.v[1] == w.v[1])
    ensures d < |w1.t| == |w.t| == NINODES && Records(w1, d) == Records(w, d) && w1.t[d].kind == w.t[d].kind
  {
    hide FsOk, SameFile, Obtainable, Records, Ordered;
    FsOkOrdered(w);
    FsOkOrdered(w1);
    WalkedFile(w, w1, d);
    WalkedKinds(w, w1);
  }

  lemma MissedSpilt(w: World, w1: World, w2: World, d: nat, name: seq<byte>, n: nat, now: uint32)
    requires FsOk(w) && d < |w.t| && NotFound(w, w1, d, name) && Overflowed(w1, w2, n, T_FILE, now)
    ensures Overflowed(w, w2, n, T_FILE, now)
    ensures Spilling(w1.v) <==> Spilling(w.v)
  {
    hide FsOk, NotFound, Spilt, Untouched, FirstFree;
    MissedParts(w, w1, d, name);
    var w0 :| FsOk(w0) && Untouched(w1, w0) && Spilt(w0, w2, n, NewInode(n, T_FILE, now));
    UntouchedTrans(w, w1, w0);
  }

  lemma UntouchedTrans(w: World, w1: World, w2: World)
    requires Untouched(w, w1) && Untouched(w1, w2)
    ensures Untouched(w, w2)
  {
    hide Ordered, Walked;
    WalkedTrans(w, w1, w2);
  }

  /** The state after the lookup offers a creation what the state before it does. */
  lemma MissedOffers(w: World, w1: World, c: nat, d: nat, name: seq<byte>)
    requires FsOk(w) && d < |w.t| && NotFound(w, w1, d, name) && c < |w.ss| == NCACHE && w.ss[c].ino.inum == d < NINODES
    ensures c < |w1.ss| && d < |w1.t| && !Obtainable(w, d, name, T_FILE) && !Obtainable(w1, d, name, T_FILE)
    ensures Creatable(w1, d, name, T_FILE) <==> Creatable(w, d, name, T_FILE)
    ensures Granting(w1.v) <==> Granting(w.v)
    ensures AddHasRoom(w1, c, Records(w, d)) <==> AddHasRoom(w, c, Records(w, d))
    ensures AddOverruns(w1, c, Records(w, d)) <==> AddOverruns(w, c, Records(w, d))
    ensures UsedByAdd(w1, c, Records(w, d)) == UsedByAdd(w, c, Records(w, d))
  {
    hide FsOk, NotFound, SoundWorld, Walked, Records, Held, D.Lookup, FirstFree, AddHasRoom, AddOverruns, UsedByAdd, Ordered, Untouched,
      SameSuper;
    FsOkOrdered(w);
    MissedParts(w, w1, d, name);
    FsOkOrdered(w1);
    KeptLength(w, w1);
    SlotsAgain(w, w1);
    MissedRoom(w, w1, c, d);
    if w.t[d].kind == T_DIR && D.Lookup(Records(w, d), name, T_FILE).Some? {
      LookupNumbered(w, d, name, T_FILE);
      StillNotHeld(w, w1, D.Lookup(Records(w, d), name, T_FILE).value);
    }
  }

  /** A creation after a lookup that failed is one from the state before it. */
  lemma MissedMade(w: World, w1: World, w2: World, c: nat, d: nat, name: seq<byte>, x: Inode, ok: bool)
    requires FsOk(w) && d < |w.t| && NotFound(w, w1, d, name) && c < |w.ss| == NCACHE && w.ss[c].ino.inum == d < NINODES == |w.t|
    requires c < |w1.ss| && d < |w1.t| == NINODES && Made(w1, w2, c, d, name, x, ok)
    ensures Made(w, w2, c, d, name, x, ok)
    ensures Spilling(w1.v) <==> Spilling(w.v)
  {
    hide FsOk, NotFound, SoundWorld, Walked, Records, FirstFree, AddHasRoom, AddOverruns, UsedByAdd, Obtainable, Creatable, Granting,
      WalkedBut, Linked, Super, SameSuper, Bare, D.Added, Untouched;
    MissedParts(w, w1, d, name);
    MissedOffers(w, w1, c, d, name);
    var es := Records(w, d);
    if ok {
      MissedLinked(w, w1, w2, x.inum, x, d, if AddHasRoom(w, c, es) then D.Added(es, name, T_FILE, x.inum) else es);
      SuperAfter(w.v, w1.v, w2.v, AddOverruns(w, c, es));
    } else {
      MadeKept(w1, w2, c, d, name, x, false);
      UntouchedFailed(w, w1, w2, x.inum);
    }
    MissedKept(w, w1, w2, c, d, name, x, ok);
    SameSpilling(w.v, w1.v);
  }

  lemma SameSpilling(v: seq<Block>, v': seq<Block>)
    requires |v'| == |v| && (|v| > 1 ==> v'[1] == v[1])
    ensures Spilling(v') <==> Spilling(v)
  {
    hide FirstFree;
  }

  lemma MissedKept(w: World, w1: World, w2: World, c: nat, d: nat, name: seq<byte>, x: Inode, ok: bool)
    requires KeptSlots(w, w1) && c < |w1.ss| && d < |w1.t| && |w1.t| == NINODES && Made(w1, w2, c, d, name, x, ok)
    ensures KeptSlots(w, w2)
  {
    hide KeptSlots;
    MadeKept(w1, w2, c, d, name, x, ok);
    KeptTwice(w, w1, w2);
  }

  lemma KeptTwice(w: World, w1: World, w2: World)
    requires KeptSlots(w, w1) && KeptSlots(w1, w2)
    ensures KeptSlots(w, w2)
  {
  }

  lemma SuperAfter(v: seq<Block>, v1: seq<Block>, v2: seq<Block>, wiped: bool)
    requires SameSuper(v, v1) && Super(v1, v2, wiped)
    ensures Super(v, v2, wiped)
  {
  }

  lemma MissedLinked(w: World, w1: World, w2: World, n: nat, x: Inode, d: nat, es: seq<D.Entry>)
    requires Walked(w, w1) && KeptSlots(w, w1) && Linked(w1, w2, n, x, d, es)
    ensures Linked(w, w2, n, x, d, es)
  {
    hide FsOk, Records, SameFile, Numbered, MetaKept;
    MetaWalked(w, w1, d);
    MetaTrans(w, w1, w2, d);
    WalkedNumbers(w, w1);
    SameNumbered(w, w1);
    forall m | 0 <= m < |w.t| && m != n && m != d ensures SameFile(w.v, w.t[m].addrs, w2.v) {
      SameFileTrans(w.v, w.t[m].addrs, w1.v, w2.v);
    }
  }

  lemma MissedOk(w: World, w1: World, c: nat, d: nat, name: seq<byte>)
    requires FsOk(w) && d < |w.t| && NotFound(w, w1, d, name) && c < |w.ss| && w.ss[c].ino.inum == d < NINODES
    ensures FsOk(w1) && c < |w1.ss| && w1.ss[c].ino.inum == d && d < |w1.t| == NINODES
    ensures |w1.v| == |w.v| && (|w.v| > 1 ==> w1.v[1] == w.v[1])
  {
    hide FsOk, SameFile, InUse, FileNamed;
    FsOkOrdered(w);
  }

  lemma NotFoundOk(w: World, w1: World, d: nat, name: seq<byte>)
    requires d < |w.t| && NotFound(w, w1, d, name)
    ensures FsOk(w1)
  {
    hide FsOk, Walked, KeptSlots, InUse, FileNamed;
  }

  lemma WrittenDir(w: World, w1: World, d: nat, name: seq<byte>, data: seq<byte>)
    requires FsOk(w) && d < |w.t| && WrittenTo(w, w1, d, name, data)
    ensures d < |w1.t| && (w.t[d].kind == T_DIR ==> w1.t[d].kind == T_DIR)
  {
    hide FsOk, WalkedBut, KeptSlots, FileNamed, HasRoom, Contents, FileOverruns;
    SameTable(w, w1, FileNamed(w, d, name).value);
    if w.t[d].kind == T_DIR {
      NamedApart(w, d, name);
      OtherKind(w, w1, FileNamed(w, d, name).value, d);
    }
  }

  lemma SameTable(w: World, w1: World, m: nat)
    requires WalkedBut(w, w1, m)
    ensures |w1.t| == |w.t|
  {
    hide SameFile;
  }

  lemma WrittenOk(w: World, w1: World, d: nat, name: seq<byte>, data: seq<byte>)
    requires d < |w.t| && WrittenTo(w, w1, d, name, data)
    ensures FsOk(w1) && KeptSlots(w, w1)
  {
    hide FsOk, WalkedBut, KeptSlots, FileNamed, HasRoom, Contents, FileOverruns;
  }

  // ---------------------------------------------------------------- a new file

  /** A failed lookup leaves the directory with the room it had. */
  lemma MissedRoom(w: World, w1: World, c: nat, d: nat)
    requires FsOk(w) && FsOk(w1) && Walked(w, w1) && KeptSlots(w, w1) && w1.owner == w.owner
    requires c < |w.ss| && w.ss[c].ino.inum == d < NINODES && d < |w.t|
    ensures c < |w1.ss| && d < |w1.t| && Records(w1, d) == Records(w, d) && w1.t[d].kind == w.t[d].kind
    ensures AddHasRoom(w1, c, Records(w, d)) <==> AddHasRoom(w, c, Records(w, d))
    ensures AddOverruns(w1, c, Records(w, d)) <==> AddOverruns(w, c, Records(w, d))
    ensures UsedByAdd(w1, c, Records(w, d)) == UsedByAdd(w, c, Records(w, d))
  {
    hide FsOk, Walked, SoundWorld, SameFile, Need, Capacity, D.Entries, Contents, Overruns;
    FsOkOrdered(w);
    FsOkOrdered(w1);
    SoundSlot(w, c);
    SoundSlot(w1, c);
    WalkedAt(w, w1, d);
    WalkedFile(w, w1, d);
    var off := D.ENTRY_SIZE * |Records(w, d)|;
    PeekedOverruns(w, w1, c, off, D.ENTRY_SIZE);
    if off + D.ENTRY_SIZE <= MAXSIZE {
      PeekedNeed(w, w1, c, off, D.ENTRY_SIZE);
    }
  }

  /** The name is found again after the creation exactly if it fits and there was room, and then leads
      to the new file. */
  lemma FoundAgain(w: World, base: World, c: nat, d: nat, name: seq<byte>, x: Inode)
    requires FsOk(w) && c < |w.ss| == NCACHE && d < |w.t| && |w.t| == NINODES && Made(w, base, c, d, name, x, true)
    ensures d < |base.t|
    ensures Findable(base, d, name) <==> Keeps(w, c, d, name)
    ensures Keeps(w, c, d, name) ==> FileNamed(base, d, name) == Some(x.inum)
  {
    hide FsOk, KeptSlots, D.Lookup, D.Added, AddHasRoom, Records, SoundWorld, Made, Held, InUse, Creatable;
    MadeParts(w, base, c, d, name, x);
    FsOkOrdered(w);
    FsOkOrdered(base);
    KeptLength(w, base);
    SlotsAgain(w, base);
    D.AddedIsFound(Records(w, d), name, T_FILE, x.inum);
  }

  lemma MadeParts(w: World, base: World, c: nat, d: nat, name: seq<byte>, x: Inode)
    requires FsOk(w) && c < |w.ss| && d < |w.t| && |w.t| == NINODES && Made(w, base, c, d, name, x, true)
    ensures x.inum != 0 && Grants(x.inum, |w.v|) && D.Lookup(Records(w, d), name, T_FILE) == None && w.t[d].kind == T_DIR
    ensures d < |base.t| && base.t[d].kind == T_DIR && base.refs == w.refs && KeptSlots(w, base) && FsOk(base) && Held(w.ss, EMPTY)
    ensures Records(base, d) ==
            if AddHasRoom(w, c, Records(w, d)) then D.Added(Records(w, d), name, T_FILE, x.inum) else Records(w, d)
    ensures x.inum < |base.t| && base.t[x.inum] == x && |base.owner| == UsedByAdd(w, c, Records(w, d)) && |base.v| == |w.v|
  {
    hide Ordered, KeptSlots, WalkedBut2, Held, D.Lookup, D.Added, AddHasRoom, Records, AddOverruns, FirstFree, Numbered, UsedByAdd, Granting;
    NewNotRoot(w, x.inum);
  }

  lemma KeptLength(w: World, w': World)
    requires KeptSlots(w, w')
    ensures |w'.ss| == |w.ss|
  {
  }

  /** A file that has just been created has no block, so whether there is room to write to it, and
      whether that runs out at a pointer block, can be told before. */
  lemma NewFileRoom(w: World, base: World, c: nat, d: nat, name: seq<byte>, x: Inode, n: nat)
    requires FsOk(w) && c < |w.ss| && d < |w.t| && |w.t| == NINODES && Made(w, base, c, d, name, x, true) && x.addrs == NoAddrs()
    ensures x.inum < |base.t|
    ensures FileOverruns(base, x.inum, 0, n) <==> Overrun(w.v, NoAddrs(), UsedByAdd(w, c, Records(w, d)), 0, n)
    ensures HasRoom(base, x.inum, 0, n)
            <==> n <= MAXSIZE && UsedByAdd(w, c, Records(w, d)) + |Missing(w.v, NoAddrs(), 0, Ceil(n))| <= Capacity(|w.v|)
  {
    hide FsOk, Made, Records, UsedByAdd, Missing, Capacity, Overrun, D.Lookup, Held, AddHasRoom, D.Added, KeptSlots, NoAddrs;
    MadeParts(w, base, c, d, name, x);
    NoTree(base.v, w.v);
    SameOverrun(w.v, NoAddrs(), base.v, |base.owner|, 0, n);
    if n <= MAXSIZE { MissingSame(w.v, NoAddrs(), base.v, 0, Ceil(n)); }
  }

  lemma NoTree(v: seq<Block>, v': seq<Block>)
    ensures SameTree(v', NoAddrs(), v)
  {
    forall s: Slot ensures At(v, NoAddrs(), s) == 0 == At(v', NoAddrs(), s) {
      NoSlot(v, NoAddrs(), s);
      NoSlot(v', NoAddrs(), s);
    }
  }
}
