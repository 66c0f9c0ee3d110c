/** What being in order means between commands, and what the commands on names do to lookups. */
module Between {
  import opened Bytes
  import opened Results
  import opened BlockTree
  import opened Bitmap
  import opened Inodes
  import opened Growth
  import opened InodeCache
  import opened World
  import opened DirOps
  import opened Walking
  import opened Session
  import opened Invariant
  import opened Numbering
  import opened Namespace
  import opened MakeDir
  import opened Removal
  import D = Directory

  // ---------------------------------------------------------------- what being in order means

  /** The number of bits set in the data bitmap is the total size of all block trees. */
  lemma BitmapConserved(w: World)
    requires FsOk(w)
    ensures 2 < |w.v| && |SetBits(w.v[2])| == |w.owner| == |TreeSlots(w.v, Trees(w.t))|
  {
    hide NumbersOk, FilesOk, RootOk, TableOk;
    BitsCountTrees(w.v, w.v[2], Trees(w.t), w.owner);
  }

  /** No block hangs in two places, whether of one inode or of two; every block that hangs
      anywhere lies in the data region and is marked. */
  lemma TreesApart(w: World, i: nat, s: Slot, j: nat, u: Slot)
    requires FsOk(w) && i < |w.t| && j < |w.t| && Good(s) && Good(u)
    requires At(w.v, w.t[i].addrs, s) != 0 && At(w.v, w.t[j].addrs, u) != 0
    ensures At(w.v, w.t[i].addrs, s) == At(w.v, w.t[j].addrs, u) ==> i == j && s == u
    ensures var p := At(w.v, w.t[i].addrs, s);
      BLOCK_START <= p < |w.v| && p < BLOCK_START + BITS && MapBit(w.v[2], p - BLOCK_START)
  {
    hide NumbersOk, FilesOk, RootOk, TableOk, At, MapBit;
    PointerOwned(w.v, w.t, w.owner, i, s);
    PointerOwned(w.v, w.t, w.owner, j, u);
    var p := At(w.v, w.t[i].addrs, s);
    assert BLOCK_START + (p - BLOCK_START) == p;
  }

  /** An inode is cached in at most one slot, with as many references as are outstanding;
      one that is not cached is on the device as it was last. */
  lemma OneSlotEach(w: World, n: nat)
    requires FsOk(w) && n < NINODES
    ensures |w.t| == |w.refs| == NINODES && BLOCK_START <= |w.v|
    ensures forall j, k :: 0 <= j < |w.ss| && 0 <= k < |w.ss| && w.ss[j].ino.inum == n == w.ss[k].ino.inum ==> j == k
    ensures forall k :: 0 <= k < |w.ss| && w.ss[k].ino.inum == n ==> w.ss[k] == CacheSlot(w.t[n], w.refs[n])
    ensures w.refs[n] > 0 <==> Held(w.ss, n)
    ensures w.refs[n] == 0 ==> DiskInode(w.v, n) == w.t[n]
  {
    hide NumbersOk, FilesOk, RootOk, TreesOk, DiskInode;
    forall k | 0 <= k < |w.ss| && w.ss[k].ino.inum == n ensures w.refs[n] > 0 && w.ss[k] == CacheSlot(w.t[n], w.refs[n]) {
      assert SlotOk(w.ss[k], w.t, w.refs);
    }
  }

  /** A file created under a name of at most 25 bytes is found under that name and type, every
      other lookup in the directory is as before, and keys stay unique. */
  lemma MadeLookup(w: World, w': World, c: nat, d: nat, name: seq<byte>, x: Inode, n: seq<byte>, k: uint16)
    requires c < |w.ss| && d < |w.t| && |w.t| == NINODES && Made(w, w', c, d, name, x, true)
    requires AddHasRoom(w, c, Records(w, d)) && |name| < D.MAXNAME && x.inum != 0
    ensures d < |w'.t|
    ensures D.Lookup(Records(w', d), n, k) == if n == name && k == T_FILE then Some(x.inum) else D.Lookup(Records(w, d), n, k)
    ensures D.UniqueKeys(Records(w, d)) ==> D.UniqueKeys(Records(w', d))
  {
    hide FsOk, KeptSlots, WalkedBut, WalkedBut2, NewNumber, Held, D.Lookup, D.Added, AddHasRoom, D.UniqueKeys, D.Entries, Granting, FirstFree, UsedByAdd;
    D.LookupAfterAdd(Records(w, d), name, T_FILE, x.inum, n, k);
    if D.UniqueKeys(Records(w, d)) {
      D.AddKeepsUnique(Records(w, d), name, T_FILE, x.inum);
    }
  }

  /** The same for a new directory, under its name and the directory type. */
  lemma MadeDirLookup(w: World, w': World, c: nat, d: nat, name: seq<byte>, m: nat, uid: uint32, mode: uint32,
                      n: seq<byte>, k: uint16)
    requires c < |w.ss| && d < |w.t| && |w.t| == NINODES && d < NINODES && MadeDir(w, w', c, d, name, m, uid, mode, true)
    requires RoomBeside(w, c, Records(w, d)) && |name| < D.MAXNAME
    ensures d < |w'.t|
    ensures D.Lookup(Records(w', d), n, k) == if n == name && k == T_DIR then Some(m) else D.Lookup(Records(w, d), n, k)
    ensures D.UniqueKeys(Records(w, d)) ==> D.UniqueKeys(Records(w', d))
  {
    hide FsOk, KeptSlots, WalkedBut, WalkedBut2, NewNumber, Held, D.Lookup, D.Added, RoomBeside, D.UniqueKeys, D.Entries, Capacity, Granting, FirstFree, Dots;
    D.LookupAfterAdd(Records(w, d), name, T_DIR, m, n, k);
    if D.UniqueKeys(Records(w, d)) {
      D.AddKeepsUnique(Records(w, d), name, T_DIR, m);
    }
  }

  /** From the new directory `..` leads back to the one it was made in, if a block was free for its records, and
      nowhere if none was. */
  lemma MadeDirUp(w: World, w': World, c: nat, d: nat, name: seq<byte>, m: nat, uid: uint32, mode: uint32)
    requires c < |w.ss| && d < |w.t| && |w.t| == NINODES && d < NINODES && MadeDir(w, w', c, d, name, m, uid, mode, true)
    requires w.t[d].kind == T_DIR
    ensures |w'.t| == NINODES && m < NINODES
    ensures Target(w', m, [0x2E, 0x2E]) == if |w.owner| < Capacity(|w.v|) then Some(d) else None
    ensures Child(w', m, [0x2E]) == if |w.owner| < Capacity(|w.v|) then Some(m) else None
  {
    hide FsOk, KeptSlots, WalkedBut, WalkedBut2, NewNumber, MetaKept, Held, D.Added, RoomBeside, OverrunsBeside, D.Entries, Capacity, Granting,
      FirstFree, Super, Creatable, RefsAfter, Bare, SameSuper, Names, Tokens;
    MadeDirSize(w, w', c, d, name, m, uid, mode);
    TokensPlain([0x2E, 0x2E]);
    OneName([0x2E, 0x2E]);
    FoundLast(w', m, [0x2E, 0x2E]);
    DotsLookup(w, m, d);
  }

  lemma OneName(name: seq<byte>)
    requires name != [] && name[|name| - 1] != 0x2F && Tokens(name) == [name]
    ensures Names(name) == [name]
  {
  }

  lemma DotsLookup(w: World, m: uint32, d: uint32)
    ensures var es := Dots(w, m, d);
      && D.Lookup(es, [0x2E, 0x2E], T_DIR) == (if |w.owner| < Capacity(|w.v|) then Some(d) else None)
      && D.Lookup(es, [0x2E], T_DIR) == (if |w.owner| < Capacity(|w.v|) then Some(m) else None)
  {
    hide Capacity;
    if |w.owner| < Capacity(|w.v|) {
      D.LookupIs(Dots(w, m, d), [0x2E, 0x2E], T_DIR, 1);
      D.LookupIs(Dots(w, m, d), [0x2E], T_DIR, 0);
    }
  }

  lemma MadeDirSize(w: World, w': World, c: nat, d: nat, name: seq<byte>, m: nat, uid: uint32, mode: uint32)
    requires c < |w.ss| && d < |w.t| && |w.t| == NINODES && d < NINODES && MadeDir(w, w', c, d, name, m, uid, mode, true)
    ensures |w'.t| == NINODES && m < NINODES
  {
    hide FsOk, KeptSlots, WalkedBut, NewNumber, MetaKept, Held, D.Added, RoomBeside, OverrunsBeside, D.Entries, Capacity, Granting,
      FirstFree, Super, Creatable, RefsAfter, Bare, SameSuper, Dots, Records;
  }

  /** A removed name is not found any more, and every other lookup is as before. */
  lemma RemovedLookup(w: World, w': World, d: nat, name: seq<byte>, n: seq<byte>, k: uint16)
    requires d < |w.t| && Removed(w, w', d, name, true)
    requires D.UniqueKeys(Records(w, d)) && D.Lookup(Records(w, d), name, T_FILE) != Some(0)
    ensures d < |w'.t| && D.UniqueKeys(Records(w', d))
    ensures D.Lookup(Records(w', d), n, k) ==
            if D.Cut(n, D.MAXNAME) == D.Cut(name, D.MAXNAME) && k == T_FILE then None else D.Lookup(Records(w, d), n, k)
  {
    hide FsOk, KeptSlots, Walked, WalkedBut2, Obtainable, D.Lookup, D.Victim, D.UniqueKeys, D.Entries;
    D.LookupAfterRemove(Records(w, d), name, T_FILE, n, k);
  }

  // ---------------------------------------------------------------- cd keeps everything in order

  lemma TargetNumbered(w: World, n: nat, path: seq<byte>)
    requires FsOk(w) && |w.t| == NINODES && n < NINODES && Numbered(w, n) && Target(w, n, path).Some?
    ensures Numbered(w, Target(w, n, path).value)
  {
    hide Ordered, Numbered, Resolve, Names, SoundWorld;
    if path != [0x2F] { ResolveNumbered(w, StartOf(n, path), Names(path)); }
  }

  lemma CdFsOk(w: World, w': World, n: nat, path: seq<byte>, ok: bool, cwd': Option<nat>)
    requires FsOk(w) && |w.t| == |w.refs| == NINODES && n < NINODES && w.refs[n] > 0
    requires MovedTo(w, w', n, path, ok, cwd')
    ensures FsOk(w')
  {
    hide FsOk, SoundWorld, Walked, Held, InUse, Target, Numbered;
    FsOkOrdered(w);
    UsedNumbered(w, n);
    if cwd'.Some? && ok {
      TargetNumbered(w, n, path);
    }
    WalkedFsOk(w, w');
  }
}
