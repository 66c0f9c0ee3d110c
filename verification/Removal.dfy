/** `rm`. */
module Removal {
  import opened Bytes
  import opened Results
  import opened BlockTree
  import opened Inodes
  import opened Files
  import opened InodeCache
  import opened World
  import opened Writes
  import opened FileSystem
  import opened Cache
  import opened Commands
  import opened DirOps
  import opened Walking
  import opened Session
  import opened Invariant
  import opened Numbering
  import opened Namespace
  import D = Directory

  /** `ip->nlink--` on 16 bits. */
  function Unlinked(x: Inode): (y: Inode)
    ensures y.inum == x.inum && y.addrs == x.addrs && y.size == x.size && y.kind == x.kind
  {
    x.(nlink := (x.nlink + 0xFFFF) % 0x1_0000)
  }

  lemma UnlinkedChanged(w: World, k: nat)
    requires SoundWorld(w) && k < |w.ss| && w.ss[k].ino.inum < NINODES
    ensures |w.t| == NINODES
    ensures var w' := WithInode(w, k, Unlinked(w.ss[k].ino)); SoundWorld(w') && Changed(w, w', w.ss[k].ino.inum)
  {
    hide SoundWorld, SameFile;
    SoundSlot(w, k);
    WithInodeSound(w, k, Unlinked(w.ss[k].ino));
    forall m | 0 <= m < |w.t| ensures SameFile(w.v, w.t[m].addrs, w.v) { SameFileRefl(w.v, w.t[m].addrs); }
  }

  lemma UnlinkedOrdered(w: World, k: nat)
    requires Ordered(w) && k < |w.ss| && w.ss[k].ino.inum < NINODES
    ensures |w.t| == NINODES
    ensures var w' := WithInode(w, k, Unlinked(w.ss[k].ino)); Ordered(w') && (RootOk(w) ==> RootOk(w'))
  {
    hide SoundWorld, FilesOk, NumbersOk, Solid, LinksOk, Numbered, Changed;
    OrderedSound(w);
    OrderedDir(w, k);
    UnlinkedChanged(w, k);
    var n, w' := w.ss[k].ino.inum, WithInode(w, k, Unlinked(w.ss[k].ino));
    ChangedTable(w, w', n);
    SameNumbered(w, w');
    SameLinks(w, w');
    FileOkAt(w, n);
    SameBytesFile(w, w', n);
    ChangedOrdered(w, w', n);
  }

  lemma FileOkAt(w: World, n: nat)
    requires Ordered(w) && n < |w.t|
    ensures FileOk(w, n)
  {
    hide SoundWorld, NumbersOk, FileOk;
  }

  lemma SameBytesFile(w: World, w': World, n: nat)
    requires n < |w.t| && n < |w'.t| && w'.v == w.v && w'.t[n].addrs == w.t[n].addrs && w'.t[n].size == w.t[n].size
    ensures Records(w', n) == Records(w, n) && (Solid(w'.v, w'.t[n]) <==> Solid(w.v, w.t[n]))
  {
    hide Data, Lookup, D.Entries;
    assert File(w', n) == File(w, n);
  }

  /** Inode `m` has one link fewer, of 16 bits; all else of it but its access time, and its file, are as before. */
  ghost predicate Dropped(w: World, w': World, m: nat) {
    && m < |w.t| && m < |w'.t| && SameFile(w.v, w.t[m].addrs, w'.v)
    && w'.t[m] == w.t[m].(nlink := (w.t[m].nlink + 0xFFFF) % 0x1_0000, atime := w'.t[m].atime)
  }

  lemma ClearedFile(w: World, w1: World, w2: World, m: nat, d: nat)
    requires Walked(w, w1) && Edited(w1, w2, d) && m < |w.t| && d < |w.t| && m != d
    ensures m < |w2.t| && w2.t[m] == w.t[m].(atime := w2.t[m].atime) && SameFile(w.v, w.t[m].addrs, w2.v) && MetaKept(w, w2, d)
  {
    hide SoundWorld, SameFile, MetaKept;
    MetaWalked(w, w1, d);
    MetaEdited(w1, w2, d);
    MetaTrans(w, w1, w2, d);
    SameFileTrans(w.v, w.t[m].addrs, w1.v, w2.v);
  }

  lemma UnlinkedDropped(w: World, w2: World, w3: World, w4: World, k: nat, m: nat, d: nat)
    requires m < |w.t| && d < |w.t| && m < |w2.t| && d < |w2.t| && m != d && k < |w2.ss| && w2.ss[k].ino == w2.t[m] && w2.ss[k].ino.inum == m
    requires w2.t[m] == w.t[m].(atime := w2.t[m].atime) && SameFile(w.v, w.t[m].addrs, w2.v) && MetaKept(w, w2, d)
    requires w3 == WithInode(w2, k, Unlinked(w2.ss[k].ino)) && w4.t == w3.t && Walked(w3, w4)
    ensures Dropped(w, w4, m) && MetaKept(w, w4, d)
  {
    hide SameFile;
    assert w3.v == w2.v && w3.t[m].addrs == w.t[m].addrs && SameFile(w3.v, w3.t[m].addrs, w4.v);
    SameFileTrans(w.v, w.t[m].addrs, w2.v, w4.v);
  }

  /** What `cmd_rm` in directory `d` has done. It succeeds exactly if the name can be looked up and one of its
      records has an inode number other than 0: the name is gone, its inode has one link fewer,
      nothing is freed and no reference is kept or lost. */
  ghost predicate Removed(w: World, w': World, d: nat, name: seq<byte>, ok: bool)
    requires d < |w.t|
  {
    var es := Records(w, d);
    var found, i := D.Lookup(es, name, T_FILE), D.Victim(es, name, T_FILE);
    && FsOk(w') && KeptSlots(w, w') && w'.refs == w.refs && |w'.t| == |w.t| && SameSuper(w.v, w'.v)
    && SameNumbers(w, w') && |w'.owner| == |w.owner|
    && (ok ==> w.t[d].kind == T_DIR && i < |es| && found.Some? && found.value < |w.t|
               && WalkedBut2(w, w', found.value, d) && w'.t[d].kind == T_DIR && Records(w', d) == es[i := D.CLEARED]
               && Dropped(w, w', found.value) && MetaKept(w, w', d))
    && (!ok ==> Walked(w, w'))
    && (ok <==> Obtainable(w, d, name, T_FILE) && i < |es|)
  }

  lemma RmMissing(w: World, w1: World, d: nat, name: seq<byte>)
    requires FsOk(w) && Untouched(w, w1) && RootOk(w1) && d < |w.t|
    requires !Obtainable(w, d, name, T_FILE)
    ensures Removed(w, w1, d, name, false)
  {
    hide Ordered, Walked, KeptSlots, Records, WalkedBut2, D.Lookup, Obtainable;
    UntouchedTable(w, w1);
    UntouchedKeeps(w, w1);
    WalkedSuper(w, w1);
  }

  lemma UntouchedKeeps(w: World, w1: World)
    requires Untouched(w, w1)
    ensures SameNumbers(w, w1) && w1.owner == w.owner
  {
    hide Ordered, KeptSlots, SameFile;
  }

  lemma SameNumbersTrans(w: World, w1: World, w2: World)
    requires SameNumbers(w, w1) && SameNumbers(w1, w2)
    ensures SameNumbers(w, w2)
  {
  }

  lemma RewrittenNumbers(w: World, w1: World, n: nat, es: seq<D.Entry>)
    requires Rewritten(w, w1, n, es)
    ensures SameNumbers(w, w1)
  {
    hide SoundWorld, OthersSame, Solid, Records;
  }

  lemma UntouchedTable(w: World, w1: World)
    requires Untouched(w, w1)
    ensures |w1.t| == |w.t| && Walked(w, w1) && KeptSlots(w, w1) && w1.refs == w.refs && Ordered(w1)
  {
    hide Ordered, SameFile;
  }

  /** The looked-up inode `m` is held in slot `k`; the directory is as it was. */
  ghost predicate HeldFile(w: World, w1: World, k: nat, m: nat) {
    && FsOk(w1) && Walked(w, w1) && KeptSlots(w, w1) && m < |w.refs| && m < NINODES && w1.refs == More(w.refs, m)
    && k < |w1.ss| && w1.ss[k].ino.inum == m
  }

  lemma RmNothing(w: World, w1: World, w2: World, k: nat, m: nat, d: nat, name: seq<byte>)
    requires FsOk(w) && HeldFile(w, w1, k, m) && d < |w.t| && d < |w1.t|
    requires D.Victim(Records(w, d), name, T_FILE) >= |Records(w, d)| || w.t[d].kind != T_DIR
    requires (Peeked(w1, w2, d) || w2 == w1) && |w2.owner| == |w.owner|
    ensures k < |w2.ss| && w2.ss[k].ino.inum == m && BLOCK_START <= |w2.v| && w2.ss[k].refs > 0 && |w2.refs| == NINODES
    ensures SoundWorld(w2) && Removed(w, Released(w2, k), d, name, false)
  {
    hide FsOk, Walked, KeptSlots, Records, WalkedBut2, Held, D.Lookup, D.Victim, Peeked, SoundWorld, Released, Numbered;
    FsOkOrdered(w);
    FsOkOrdered(w1);
    if w2 != w1 {
      PeekedWalked(w1, w2, d);
      PeekedSizes(w1, w2, d);
      WalkedTrans(w, w1, w2);
      WalkedFsOk(w1, w2);
    }
    FsOkOrdered(w2);
    KeptTrans(w, w1, w2);
    ReleaseKept(w, w2, k, m);
    assert Less(More(w.refs, m), m) == w.refs;
    ReleasedOk(w2, k);
    ReleasedTable(w2, k);
    WalkedNumbers(w, Released(w2, k));
    WalkedTable(w, Released(w2, k));
    WalkedSuper(w, Released(w2, k));
  }

  lemma KeptTrans(w: World, w1: World, w2: World)
    requires KeptSlots(w, w1) && |w2.ss| == |w1.ss|
    requires forall i :: 0 <= i < |w1.ss| ==> w2.ss[i].ino.inum == w1.ss[i].ino.inum
    ensures KeptSlots(w, w2)
  {
  }

  lemma WalkedTable(w: World, w1: World)
    requires Walked(w, w1)
    ensures |w1.t| == |w.t|
  {
    hide SameFile;
  }

  lemma ReleasedOk(w: World, k: nat)
    requires FsOk(w) && k < |w.ss| && w.ss[k].ino.inum < NINODES
    ensures |w.refs| == NINODES && BLOCK_START <= |w.v| && w.ss[k].refs > 0 && FsOk(Released(w, k)) && Walked(w, Released(w, k))
  {
    hide FsOk, Walked, SoundWorld, Released, Numbered;
    FsOkOrdered(w);
    ReleasedFields(w, k);
    ReleasedWalked(w, k);
    WalkedFsOk(w, Released(w, k));
  }

  /** The record has been cleared. */
  lemma ClearedOk(w: World, w1: World, w2: World, k: nat, m: nat, d: nat, i: nat)
    requires FsOk(w) && HeldFile(w, w1, k, m) && d < |w.t| && w.t[d].kind == T_DIR && i < |Records(w, d)| && Numbered(w, d)
    requires m != d && d < |w1.t| && Rewritten(w1, w2, d, Records(w, d)[i := D.CLEARED]) && Super(w1.v, w2.v, false)
    ensures FsOk(w2) && KeptSlots(w, w2) && WalkedBut2(w, w2, m, d) && w2.refs == More(w.refs, m) && |w2.t| == |w.t| == NINODES
    ensures k < |w2.ss| && w2.ss[k].ino.inum == m && d < |w2.t| && w2.t[d].kind == T_DIR
    ensures Records(w2, d) == Records(w, d)[i := D.CLEARED]
    ensures w2.t[m] == w.t[m].(atime := w2.t[m].atime) && SameFile(w.v, w.t[m].addrs, w2.v) && MetaKept(w, w2, d) && SameSuper(w.v, w2.v)
    ensures SameNumbers(w, w2)
  {
    hide SameNumbers, FsOk, Walked, SoundWorld, Ordered, Numbered, Solid, Records, Edited, LinksOk, D.Entries, Changed, KeptSlots, MetaKept, SameFile;
    FsOkOrdered(w);
    FsOkOrdered(w1);
    OrderedFile(w, d);
    WalkedSuper(w, w1);
    WalkedNumbers(w, w1);
    WalkedNumbers(w, w1);
    RewrittenNumbers(w1, w2, d, Records(w, d)[i := D.CLEARED]);
    SameNumbersTrans(w, w1, w2);
    WalkedKinds(w, w1);
    SameNumbered(w, w1);
    SameLinks(w, w1);
    ClearedLinks(w, Records(w, d), i);
    EditedChanged(w1, w2, d);
    ClearedFile(w, w1, w2, m, d);
    ChangedTable(w1, w2, d);
    SameNumbered(w1, w2);
    SameLinks(w1, w2);
    WalkedFile(w, w1, d);
    ChangedFsOk(w1, w2, d);
    WalkedChanged(w, w1, w2, m, d);
    ChangedSlots(w1, w2, d);
    KeptTrans(w, w1, w2);
  }

  lemma ClearedLinks(w: World, es: seq<D.Entry>, i: nat)
    requires LinksOk(w, es) && i < |es|
    ensures LinksOk(w, es[i := D.CLEARED])
  {
    hide Numbered;
  }

  lemma WalkedChanged(w: World, w1: World, w2: World, m: nat, d: nat)
    requires Walked(w, w1) && Changed(w1, w2, d)
    ensures WalkedBut2(w, w2, m, d)
  {
    hide SameFile, SoundWorld;
    forall j | 0 <= j < |w.t| && j != m && j != d ensures SameFile(w.v, w.t[j].addrs, w2.v) {
      SameFileTrans(w.v, w.t[j].addrs, w1.v, w2.v);
    }
  }

  /** Dropping the link and the reference. */
  lemma RmDone(w: World, w2: World, k: nat, m: nat, d: nat, name: seq<byte>)
    requires FsOk(w) && d < |w.t| && w.t[d].kind == T_DIR && D.Lookup(Records(w, d), name, T_FILE) == Some(m)
    requires D.Victim(Records(w, d), name, T_FILE) < |Records(w, d)| && m < |w.refs| && m < |w.t| && Obtainable(w, d, name, T_FILE)
    requires FsOk(w2) && KeptSlots(w, w2) && WalkedBut2(w, w2, m, d) && w2.refs == More(w.refs, m) && |w2.t| == |w.t| == NINODES
    requires k < |w2.ss| && w2.ss[k].ino.inum == m && w2.t[d].kind == T_DIR
    requires w2.t[m] == w.t[m].(atime := w2.t[m].atime) && SameFile(w.v, w.t[m].addrs, w2.v) && MetaKept(w, w2, d) && m != d
    requires Records(w2, d) == Records(w, d)[D.Victim(Records(w, d), name, T_FILE) := D.CLEARED] && SameSuper(w.v, w2.v)
    requires SameNumbers(w, w2) && |w2.owner| == |w.owner|
    ensures var w3 := WithInode(w2, k, Unlinked(w2.ss[k].ino));
      && SoundWorld(w3) && k < |w3.ss| && w3.ss[k].ino.inum == m && |w3.refs| == NINODES && BLOCK_START <= |w3.v| && w3.ss[k].refs > 0
      && Removed(w, Released(w3, k), d, name, true)
    ensures w2.ss[k].ino == w2.t[m]
  {
    hide FsOk, Ordered, Walked, SoundWorld, Numbered, SameFile, D.Entries, Obtainable, D.Lookup, D.Victim, Released, KeptSlots, WalkedBut2, Dropped, MetaKept, Unlinked;
    var w3 := WithInode(w2, k, Unlinked(w2.ss[k].ino));
    FsOkOrdered(w);
    FsOkOrdered(w2);
    UnlinkedOrdered(w2, k);
    FsOkIntro(w3);
    FsOkOrdered(w3);
    OrderedDir(w2, k);
    KeptTrans(w, w2, w3);
    ReleasedFields(w3, k);
    ReleaseKeeps(w, w3, k, m);
    ReleasedOk(w3, k);
    ReleasedTable(w3, k);
    assert Less(More(w.refs, m), m) == w.refs;
    UnlinkedBut(w, w2, w3, m, d);
    WalkedBut2Trans(w, w3, Released(w3, k), m, d);
    WalkedSuper(w3, Released(w3, k));
    UnlinkedDropped(w, w2, w3, Released(w3, k), k, m, d);
    WalkedNumbers(w3, Released(w3, k));
    SameBytesFile(w2, w3, d);
    WalkedFile(w3, Released(w3, k), d);
  }

  lemma UnlinkedBut(w: World, w2: World, w3: World, m: nat, d: nat)
    requires WalkedBut2(w, w2, m, d) && m < |w2.t| == |w3.t| && w3.v == w2.v && w3.t == w2.t[m := w3.t[m]]
    ensures WalkedBut2(w, w3, m, d)
  {
    hide SameFile;
  }

  /** `cmd_rm`. The call of `iremove` returns at once, because the reference is still held. */
  method Rm(fs: FileSystem, cwd: nat, name: seq<byte>, now: uint32) returns (ok: bool)
    requires fs.Valid() && fs.IsInode(cwd) && |fs.table| == NINODES && FsOk(fs.Now())
    modifies fs, fs.slots, fs.dev, fs.dev.arr, fs.dev.disk.data
    ensures fs.Valid() && fs.sb == old(fs.sb) && fs.IsInode(cwd) && fs.slots[cwd].ino.inum == old(fs.slots[cwd].ino.inum)
    ensures old(fs.slots[cwd].ino.inum) < |old(fs.table)|
    ensures Removed(old(fs.Now()), fs.Now(), old(fs.slots[cwd].ino.inum), name, ok)
    ensures Ticked(old(fs.table), fs.table, now)
  {
    hide Inv, SoundWorld, Ordered, FsOk, LookedUp, Untouched, Walked, WalkedBut2, Removed, Records, Rewritten, Peeked,
      Obtainable, Held, Released, DirOk, Numbered, KeptSlots, D.Lookup, D.Victim, Unlinked, Ticked, SameNumbers;
    ghost var w, d, mid := fs.Now(), fs.slots[cwd].ino.inum, fs.Now();
    FsOkOrdered(w);
    OrderedDir(w, cwd);
    var r;
    r, mid := DirLookup(fs, cwd, name, T_FILE, now);
    ghost var w1 := fs.Now();
    if r.None? {
      LookupFailed(w, mid, w1, d, name, T_FILE);
      RmMissing(w, w1, d, name);
      RemovedKept(w, w1, d, name, false);
      CwdStays(w, w1, cwd);
      return false;
    }
    LookupHit(w, mid, w1, d, name, T_FILE, r.value);
    HitObtainable(w, d, name, T_FILE);
    ghost var m := D.Lookup(Records(w, d), name, T_FILE).value;
    FileApart(w, d, name);
    HeldDirFile(w, w1, cwd, r.value, m, d);
    ok := DirRemove(fs, cwd, name, T_FILE, now);
    ghost var w2 := fs.Now();
    TickedTrans(w.t, w1.t, w2.t, now);
    if !ok {
      RmNothing(w, w1, w2, r.value, m, d, name);
      fs.IPut(r.value);
    } else {
      ClearedOk(w, w1, w2, r.value, m, d, D.Victim(Records(w, d), name, T_FILE));
      RmDone(w, w2, r.value, m, d, name);
      UnlinkedTicked(w.t, w2.t, m, now);
      fs.SetInode(r.value, Unlinked(fs.slots[r.value].ino));
      fs.IPut(r.value);
    }
    RemovedKept(w, fs.Now(), d, name, ok);
    CwdStays(w, fs.Now(), cwd);
  }

  lemma UnlinkedTicked(t: seq<Inode>, t1: seq<Inode>, m: nat, now: uint32)
    requires Ticked(t, t1, now) && m < |t1|
    ensures Ticked(t, t1[m := Unlinked(t1[m])], now)
  {
  }

  lemma RemovedKept(w: World, w': World, d: nat, name: seq<byte>, ok: bool)
    requires d < |w.t| && Removed(w, w', d, name, ok)
    ensures KeptSlots(w, w') && FsOk(w') && d < |w'.t| && w'.t[d].kind == w.t[d].kind
  {
    hide FsOk, KeptSlots, Walked, WalkedBut2, Records, D.Lookup, D.Victim, Obtainable;
    if !ok { WalkedKinds(w, w'); }
  }

  /** A file is not the directory it is found in. */
  lemma FileApart(w: World, d: nat, name: seq<byte>)
    requires FsOk(w) && d < |w.t| && w.t[d].kind == T_DIR && D.Lookup(Records(w, d), name, T_FILE).Some?
    ensures D.Lookup(Records(w, d), name, T_FILE).value != d
  {
    hide Ordered, Numbered, D.Lookup, Records;
    LookupNumbered(w, d, name, T_FILE);
  }

  lemma HeldDirFile(w: World, w1: World, c: nat, k: nat, m: nat, d: nat)
    requires FsOk(w) && HeldFile(w, w1, k, m) && c < |w.ss| && w.ss[c].ino.inum == d < NINODES && d < |w.t|
    ensures c < |w1.ss| && w1.ss[c].ino.inum == d && |w1.t| == NINODES && DirOk(w1.v, w1.ss[c].ino)
    ensures d < |w1.t| && Records(w1, d) == Records(w, d) && w1.t[d].kind == w.t[d].kind
  {
    hide FsOk, Walked, DirOk, SoundWorld, Ordered, Records;
    FsOkOrdered(w);
    FsOkOrdered(w1);
    OrderedDir(w1, c);
    WalkedFile(w, w1, d);
  }
}
