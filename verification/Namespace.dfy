/** Creating and removing files by name. */
module Namespace {
  import opened Bytes
  import opened Results
  import opened BlockTree
  import opened Bitmap
  import opened Inodes
  import opened Growth
  import opened Files
  import opened InodeCache
  import opened World
  import opened Writes
  import opened BlockZero
  import opened FileSystem
  import opened Cache
  import opened Commands
  import opened Editing
  import opened DirOps
  import opened Walking
  import opened Session
  import opened Invariant
  import opened Numbering
  import D = Directory

  // ---------------------------------------------------------------- a new inode

  /** Every inode but `n` and every file but its own is the same, but for access times. */
  ghost predicate WalkedBut(w: World, w': World, n: nat) {
    && |w'.t| == |w.t| && |w'.ss| == |w.ss| && |w'.refs| == |w.refs| && |w'.v| == |w.v|
    && forall m :: 0 <= m < |w.t| && m != n ==>
         SameFile(w.v, w.t[m].addrs, w'.v) && w'.t[m] == w.t[m].(atime := w'.t[m].atime)
  }

  lemma WalkedButTrans(w: World, w1: World, w2: World, n: nat)
    requires WalkedBut(w, w1, n) && WalkedBut(w1, w2, n)
    ensures WalkedBut(w, w2, n)
  {
    hide SameFile;
    forall m | 0 <= m < |w.t| && m != n ensures SameFile(w.v, w.t[m].addrs, w2.v) {
      SameFileTrans(w.v, w.t[m].addrs, w1.v, w2.v);
    }
  }

  lemma WalkedWalkedBut(w: World, w': World, n: nat)
    requires Walked(w, w')
    ensures WalkedBut(w, w', n)
  {
    hide SameFile;
  }

  /** Inode `n` is new since `w`, is `x`, and is held once, in slot `k`; no other inode has
      changed but for accesses. */
  ghost predicate Created(w: World, w': World, k: nat, n: nat, x: Inode) {
    && Ordered(w') && WalkedBut(w, w', n) && KeptSlots(w, w')
    && n < NINODES && n < |w.refs| && n < |w'.t| && w'.refs == More(w.refs, n) && w'.t[n] == x
    && k < |w'.ss| && w'.ss[k].ino == x && x.inum == n
    && NewNumber(w, w', n) && SameSuper(w.v, w'.v)
  }

  /** If number `n` has been used up, it is all that has, and its inode has no records; otherwise
      everything is as it was. */
  ghost predicate Bare(w: World, w': World, n: nat, used: bool) {
    if used then NewNumber(w, w', n) && n < |w'.t| && Records(w', n) == [] else Walked(w, w')
  }

  /** So far no block has been allocated. */
  ghost predicate Fresh(w: World, w': World, k: nat, n: nat, x: Inode) {
    Created(w, w', k, n, x) && w'.owner == w.owner && NoBlocks(x)
  }

  ghost predicate NewNumber(w: World, w': World, n: nat) {
    !Numbered(w, n) && forall m: nat :: Numbered(w', m) <==> m == n || Numbered(w, m)
  }

  /** The state after an unsuccessful creation, or before one. */
  ghost predicate Untouched(w: World, w': World) {
    Ordered(w') && Walked(w, w') && KeptSlots(w, w') && w'.owner == w.owner && w'.refs == w.refs
  }

  lemma WithNumberWalked(w: World, n: nat, x: Inode)
    requires Ordered(w) && n < NINODES == |w.t| && BLOCK_START <= |w.v| && !MapBit(w.v[1], n)
    requires NoBlocks(x) && x.inum == n && x.size == 0
    ensures WalkedBut(w, WithNumber(w, n, x), n) && NewNumber(w, WithNumber(w, n, x), n) && w.refs[n] == 0
    ensures SameSuper(w.v, WithNumber(w, n, x).v)
  {
    NumberSuper(w, n, x);
    WithNumberOrdered(w, n, x);
    WithNumberNew(w, n, x);
    WithNumberSound1(w, n, x);
    hide SoundWorld, SameFile, WithNumber, SetBit, MapBit;
    WithNumberFields(w, n, x);
  }

  lemma NumberSuper(w: World, n: nat, x: Inode)
    requires n < NINODES == |w.t| && BLOCK_START <= |w.v| && !MapBit(w.v[1], n)
    ensures SameSuper(w.v, WithNumber(w, n, x).v)
  {
    hide SetBit, MapBit;
  }

  lemma WithNumberNew(w: World, n: nat, x: Inode)
    requires n < NINODES == |w.t| && BLOCK_START <= |w.v| && !MapBit(w.v[1], n)
    ensures NewNumber(w, WithNumber(w, n, x), n) && |WithNumber(w, n, x).v| == |w.v|
  {
    hide MapBit, WithNumber;
    NotNumbered(w, n);
    WithNumberBitmap(w, n, x);
  }

  lemma WithNumberSound1(w: World, n: nat, x: Inode)
    requires Ordered(w) && n < NINODES == |w.t| && BLOCK_START <= |w.v| && !MapBit(w.v[1], n)
    requires NoBlocks(x) && x.inum == n
    ensures forall j :: 0 <= j < |w.t| && j != n ==> SameFile(w.v, w.t[j].addrs, WithNumber(w, n, x).v)
  {
    hide SoundWorld, FilesOk, MapBit, WithNumber, SameFile;
    NotNumbered(w, n);
    OrderedSound(w);
    OrderedSize(w);
    WithNumberSound(w, n, x);
  }

  /** After `ialloc`. */
  lemma AllocCreated(w: World, w': World, kind: uint16, now: uint32, n: nat, r: Option<nat>)
    requires Ordered(w) && |w.t| == NINODES && BLOCK_START <= |w.v| && SoundWorld(w')
    requires INumbered(w, w', kind, now, n, r) && !Spills(n, |w.v|)
    ensures r.Some? ==> Fresh(w, w', r.value, n, NewInode(n, kind, now))
    ensures r.None? ==> Ordered(w') && WalkedBut(w, w', n) && KeptSlots(w, w') && w'.refs == w.refs && !Numbered(w, n)
    ensures r.None? ==> Bare(w, w', n, Grants(n, |w.v|)) && SameSuper(w.v, w'.v) && w'.owner == w.owner
    ensures r.Some? ==> Grants(n, |w.v|)
    ensures RootOk(w) && n != 0 ==> RootOk(w')
    ensures n == 0 && kind == T_DIR && n < |w.v| ==> RootOk(w')
  {
    hide SoundWorld, Ordered, MapBit, WithNumber, WalkedBut, SameFile, KeptSlots, Acquired, NewNumber, Held, Walked, Records;
    var x := NewInode(n, kind, now);
    FreeNumber(w, n);
    KeptRefl(w);
    OrderedSize(w);
    if Grants(n, |w.v|) {
      var mid := WithNumber(w, n, x);
      WithNumberWalked(w, n, x);
      WithNumberOrdered(w, n, x);
      WithNumberFields(w, n, x);
      AcquiredCreated(w, mid, w', n, x, r);
      NoRecords(mid, n);
    } else {
      WalkedRefl(w);
      WalkedWalkedBut(w, w, n);
    }
  }

  lemma FreeNumber(w: World, n: nat)
    requires 1 < |w.v| && FirstFree(w.v[1], n)
    ensures !Numbered(w, n) && (n < BITS ==> !MapBit(w.v[1], n))
  {
    hide MapBit;
  }

  lemma AcquiredCreated(w: World, mid: World, w': World, n: nat, x: Inode, r: Option<nat>)
    requires Ordered(mid) && SoundWorld(w') && n < NINODES == |w.t| && n < |w.refs| && Acquired(mid, w', n, r)
    requires WalkedBut(w, mid, n) && NewNumber(w, mid, n) && mid.ss == w.ss && mid.refs == w.refs && mid.owner == w.owner
    requires mid.t == w.t[n := x] && x.inum == n && NoBlocks(x) && SameSuper(w.v, mid.v)
    ensures r.Some? ==> Fresh(w, w', r.value, n, x)
    ensures r.None? ==> w' == mid
    ensures RootOk(mid) ==> RootOk(w')
    ensures KeptSlots(w, w')
  {
    hide SoundWorld, SameFile, Held, Numbered, FilesOk, NumbersOk;
    AcquiredWalked(mid, w', n, r);
    WalkedWalkedBut(mid, w', n);
    WalkedButTrans(w, mid, w', n);
    SameBitmap(mid, w', n, r);
    if r.Some? {
      NewIsNumbered(w, mid, n);
      WalkedOrdered(mid, w');
    }
  }

  lemma NoRecords(w: World, n: nat)
    requires n < |w.t| && w.t[n].size == 0
    ensures Records(w, n) == []
  {
  }

  lemma NewIsNumbered(w: World, w': World, n: nat)
    requires NewNumber(w, w', n)
    ensures Numbered(w', n)
  {
    hide Numbered;
  }

  lemma SameBitmap(w: World, w': World, n: uint32, r: Option<nat>)
    requires Acquired(w, w', n, r)
    ensures w'.v == w.v && forall m: nat :: Numbered(w', m) <==> Numbered(w, m)
  {
    hide Held, MapBit;
  }

  // ---------------------------------------------------------------- looking the name up first

  /** The name leads to an inode that is cached, or can be: looking it up succeeds. */
  ghost predicate Obtainable(w: World, d: nat, name: seq<byte>, kind: uint16)
    requires d < |w.t|
  {
    && w.t[d].kind == T_DIR && D.Lookup(Records(w, d), name, kind).Some?
    && (Held(w.ss, D.Lookup(Records(w, d), name, kind).value) || Held(w.ss, EMPTY))
  }

  /** The name is not taken, and there are a number and a slot for a new inode. */
  ghost predicate Creatable(w: World, d: nat, name: seq<byte>, kind: uint16)
    requires d < |w.t|
  {
    && w.t[d].kind == T_DIR && D.Lookup(Records(w, d), name, kind) == None
    && Held(w.ss, EMPTY) && Granting(w.v)
  }

  /** The references after looking a name up and not giving the inode back. */
  ghost function RefsAfter(w: World, d: nat, name: seq<byte>, kind: uint16): (refs: seq<nat>)
    requires d < |w.t|
    ensures |refs| == |w.refs|
  {
    if Obtainable(w, d, name, kind) && D.Lookup(Records(w, d), name, kind).value < |w.refs| then
      More(w.refs, D.Lookup(Records(w, d), name, kind).value)
    else w.refs
  }

  /** The name was not found, or its inode could not be acquired. */
  lemma LookupFailed(w: World, mid: World, w': World, n: nat, name: seq<byte>, kind: uint16)
    requires Ordered(w) && SoundWorld(w') && LookedUp(w, mid, w', n, name, kind, None)
    ensures Untouched(w, w') && (RootOk(w) ==> RootOk(w'))
    ensures w.t[n].kind == T_DIR && |w.ss| == NCACHE && |InUse(w.refs)| < NCACHE ==> D.Lookup(Records(w, n), name, kind) == None
    ensures w.t[n].kind == T_DIR && D.Lookup(Records(w, n), name, kind).Some? ==>
              !Held(w'.ss, EMPTY) && !Held(w.ss, EMPTY) && !Held(w.ss, D.Lookup(Records(w, n), name, kind).value)
    ensures !Obtainable(w, n, name, kind)
  {
    hide SoundWorld, Ordered, Walked, Numbered, Peeked, Acquired, D.Lookup, Records, Untouched, InUse, Held, RootOk;
    OrderedSound(w);
    OrderedSize(w);
    UntouchedRefl(w);
    if w.t[n].kind == T_DIR {
      UntouchedPeeked(w, mid, n);
      var found := D.Lookup(Records(w, n), name, kind);
      if found.Some? {
        LookupNumbered(w, n, name, kind);
        NoneAcquired(mid, w', found.value);
        PeekedHeld(w, mid, n, EMPTY);
        PeekedHeld(w, mid, n, found.value);
        if |w.ss| == NCACHE && |InUse(w.refs)| < NCACHE {
          PeekedRefs(w, mid, n);
          SlotLeft(mid);
        }
      }
    }
  }

  lemma PeekedHeld(w: World, w': World, n: nat, m: int)
    requires Peeked(w, w', n)
    ensures Held(w'.ss, m) <==> Held(w.ss, m)
  {
    hide SoundWorld, SameFile, OthersSame;
    forall i | 0 <= i < |w.ss| ensures w'.ss[i].ino.inum == w.ss[i].ino.inum { }
  }

  lemma PeekedRefs(w: World, w': World, n: nat)
    requires Peeked(w, w', n)
    ensures w'.refs == w.refs && |w'.ss| == |w.ss| && SoundWorld(w')
  {
    hide SoundWorld, SameFile, OthersSame;
  }

  lemma UntouchedRefl(w: World)
    requires Ordered(w)
    ensures Untouched(w, w)
  {
    hide Ordered, Walked;
    WalkedRefl(w);
    KeptRefl(w);
  }

  lemma UntouchedPeeked(w: World, w': World, n: nat)
    requires Ordered(w) && Peeked(w, w', n)
    ensures Untouched(w, w') && (RootOk(w) ==> RootOk(w'))
  {
    hide SoundWorld, Walked, NumbersOk, FilesOk, Numbered;
    PeekedWalked(w, w', n);
    PeekedSizes(w, w', n);
    PeekedOwner(w, w', n);
    WalkedOrdered(w, w');
    WalkedRoot(w, w');
  }

  lemma PeekedOwner(w: World, w': World, n: nat)
    requires Peeked(w, w', n)
    ensures w'.owner == w.owner
  {
    hide SoundWorld, SameFile, OthersSame;
  }

  lemma WalkedRoot(w: World, w': World)
    requires Walked(w, w')
    ensures RootOk(w) ==> RootOk(w')
  {
    hide Numbered, SameFile;
    WalkedNumbers(w, w');
    SameNumbered(w, w');
  }

  /** The name was found and its inode acquired: the one reference more is never given back. */
  lemma LookupHit(w: World, mid: World, w': World, n: nat, name: seq<byte>, kind: uint16, k: nat)
    requires FsOk(w) && SoundWorld(w') && LookedUp(w, mid, w', n, name, kind, Some(k))
    ensures FsOk(w') && Walked(w, w') && KeptSlots(w, w') && w.t[n].kind == T_DIR && w'.owner == w.owner
    ensures var found := D.Lookup(Records(w, n), name, kind);
      found.Some? && found.value < |w.refs| && w'.refs == More(w.refs, found.value)
      && k < |w'.ss| && w'.ss[k].ino.inum == found.value < NINODES
      && found.value < |w.t| && w.t[found.value].kind == kind && Numbered(w, found.value)
      && (Held(w.ss, found.value) || Held(w.ss, EMPTY))
  {
    hide SoundWorld, Ordered, Walked, Numbered, Peeked, Acquired, D.Lookup, Records, KeptSlots, Held;
    OrderedSize(w);
    LookupNumbered(w, n, name, kind);
    var m := D.Lookup(Records(w, n), name, kind).value;
    PeekedWalked(w, mid, n);
    PeekedKept(w, mid, n);
    PeekedOwner(w, mid, n);
    AcquiredKept(w, mid, w', m, k);
    AcquiredOwner(mid, w', m, Some(k));
    RootFound1(mid, w', m, Some(k));
    PeekedHeld(w, mid, n, EMPTY);
    PeekedHeld(w, mid, n, m);
    WalkedFsOk(w, w');
  }

  lemma AcquiredOwner(w: World, w': World, inum: uint32, r: Option<nat>)
    requires Acquired(w, w', inum, r)
    ensures w'.owner == w.owner
  {
    hide Held;
  }

  lemma PeekedKept(w: World, w': World, n: nat)
    requires Peeked(w, w', n)
    ensures KeptSlots(w, w')
  {
    hide SoundWorld, SameFile, OthersSame;
  }

  // ---------------------------------------------------------------- creating

  lemma UntouchedCreated(w: World, w1: World, w2: World, k: nat, n: nat, x: Inode)
    requires Untouched(w, w1) && Fresh(w1, w2, k, n, x)
    ensures Fresh(w, w2, k, n, x)
  {
    hide Ordered, Numbered, WalkedBut, Walked;
    WalkedWalkedBut(w, w1, n);
    WalkedButTrans(w, w1, w2, n);
    WalkedSuper(w, w1);
    WalkedNumbers(w, w1);
    SameNumbered(w, w1);
  }

  /** Setting the fields of the new inode and storing it. */
  lemma CreatedSet(w: World, w1: World, k: nat, n: nat, x: Inode, y: Inode)
    requires Fresh(w, w1, k, n, x) && x.size == 0 == y.size
    requires y.inum == x.inum && y.addrs == x.addrs && y.kind == x.kind
    ensures k < |w1.ss| && |w1.t| == NINODES && BLOCK_START <= |w1.v|
    ensures Fresh(w, StoredWorld(WithInode(w1, k, y), k), k, n, y)
    ensures RootOk(w1) ==> RootOk(StoredWorld(WithInode(w1, k, y), k))
  {
    hide SoundWorld, NumbersOk, FilesOk, Numbered, WalkedBut, Stored, SameFile, OthersSame, Solid;
    OrderedSize(w1);
    TouchedOthers(w1, k, y);
    StoredSuper(w1.v, y, w1.ss[k].refs % 0x1_0000_0000);
    var w2 := StoredWorld(WithInode(w1, k, y), k);
    TouchedWalked(w1, w2, n);
    WalkedButTrans(w, w1, w2, n);
    StoredLength(w1.v, y, w1.ss[k].refs % 0x1_0000_0000);
    SameNumbered(w1, w2);
    NewIsNumbered(w, w1, n);
    EmptyInode(w2.v, y);
    assert Records(w2, n) == [];
    NoLinks(w2);
    ChangedOrdered(w1, w2, n);
  }

  lemma TouchedWalked(w: World, w': World, n: nat)
    requires OthersSame(w, w', n) && |w'.ss| == |w.ss| && |w'.refs| == |w.refs| && |w'.v| == |w.v|
    ensures WalkedBut(w, w', n)
  {
    hide SameFile;
  }

  // ---------------------------------------------------------------- linking

  /** Nothing but inodes `n` and `d` and their files has changed, except for access times. */
  ghost predicate WalkedBut2(w: World, w': World, n: nat, d: nat) {
    && |w'.t| == |w.t|
    && forall m :: 0 <= m < |w.t| && m != n && m != d ==>
         SameFile(w.v, w.t[m].addrs, w'.v) && w'.t[m] == w.t[m].(atime := w'.t[m].atime)
  }

  /** Inode `n` is new since `w` and is `x`; directory `d` now has the records `es`; every other
      file and directory is as it was. */
  ghost predicate Linked(w: World, w': World, n: nat, x: Inode, d: nat, es: seq<D.Entry>) {
    && FsOk(w') && KeptSlots(w, w') && WalkedBut2(w, w', n, d) && NewNumber(w, w', n) && MetaKept(w, w', d)
    && n < |w'.t| && d < |w'.t| && w'.t[n] == x && w'.t[d].kind == T_DIR && Records(w', d) == es
  }

  /** Owner, group, mode, type, links and flags of inode `d` are the same. */
  ghost predicate MetaKept(w: World, w': World, d: nat) {
    d < |w.t| && d < |w'.t| && SameMeta(w.t[d], w'.t[d])
  }

  lemma MetaTrans(w: World, w1: World, w2: World, d: nat)
    requires MetaKept(w, w1, d) && MetaKept(w1, w2, d)
    ensures MetaKept(w, w2, d)
  {
  }

  lemma MetaWalked(w: World, w': World, d: nat)
    requires Walked(w, w') && d < |w.t|
    ensures MetaKept(w, w', d)
  {
    hide SameFile;
  }

  lemma MetaBut(w: World, w': World, n: nat, d: nat)
    requires WalkedBut(w, w', n) && d < |w.t| && d != n
    ensures MetaKept(w, w', d)
  {
    hide SameFile;
  }

  lemma MetaEdited(w: World, w': World, d: nat)
    requires Edited(w, w', d)
    ensures MetaKept(w, w', d)
  {
    hide SoundWorld, SameFile;
  }

  lemma AddedLinks(w: World, w': World, es: seq<D.Entry>, name: seq<byte>, kind: uint16, n: nat)
    requires LinksOk(w, es) && NewNumber(w, w', n) && n < NINODES && n < |w'.t| && w'.t[n].kind == kind
    requires WalkedBut(w, w', n)
    ensures LinksOk(w', es) && LinksOk(w', D.Added(es, name, kind, n))
  {
    hide Numbered, WalkedBut;
    NewApartAll(w, w', n);
    MoreLinks(w, w', es);
    var es' := D.Added(es, name, kind, n);
    forall i | 0 <= i < |es'| ensures LinkOk(w', es'[i]) {
      if i < |es| { assert LinkOk(w', es[i]); }
    }
  }

  lemma NewApartAll(w: World, w': World, n: nat)
    requires WalkedBut(w, w', n) && NewNumber(w, w', n)
    ensures forall m: nat :: m < |w.t| && Numbered(w, m) ==> m < |w'.t| && w'.t[m].kind == w.t[m].kind
  {
    hide Numbered, SameFile;
  }

  /** The record of the new inode has been added to directory `d`. */
  lemma AddedLinked(w: World, w1: World, w2: World, k: nat, n: nat, x: Inode, d: nat, name: seq<byte>, kind: uint16, room: bool)
    requires FsOk(w) && Created(w, w1, k, n, x) && RootOk(w1) && d < |w.t| && w.t[d].kind == T_DIR && Numbered(w, d)
    requires x.kind == kind
    requires Rewritten(w1, w2, d, if room then D.Added(Records(w, d), name, kind, n) else Records(w, d))
    ensures Linked(w, w2, n, x, d, if room then D.Added(Records(w, d), name, kind, n) else Records(w, d))
    ensures w2.refs == w1.refs && k < |w2.ss| && w2.ss[k].ino.inum == n && SoundWorld(w2)
  {
    hide SoundWorld, Ordered, Numbered, WalkedBut, Solid, D.Added, Records, Edited, LinksOk, D.Entries, NewNumber, MetaKept;
    var es := if room then D.Added(Records(w, d), name, kind, n) else Records(w, d);
    NewApart(w, w1, n, d);
    OrderedSize(w);
    OrderedFile(w, d);
    AddedLinks(w, w1, Records(w, d), name, kind, n);
    MetaBut(w, w1, n, d);
    MetaEdited(w1, w2, d);
    MetaTrans(w, w1, w2, d);
    EditedChanged(w1, w2, d);
    ChangedTable(w1, w2, d);
    SameNumbered(w1, w2);
    SameLinks(w1, w2);
    CreatedKind(w, w1, n, d);
    ChangedOrdered(w1, w2, d);
    ChangedBut(w, w1, w2, n, d);
    ChangedSlots(w1, w2, d);
    OrderedSize(w2);
    NewerNumber(w, w1, w2, n);
    RootStays(w1, w2, d);
    OrderedSound(w2);
  }

  lemma ChangedWalked(w: World, w': World, m: nat)
    requires Changed(w, w', m)
    ensures WalkedBut(w, w', m)
  {
    hide SoundWorld, SameFile;
  }

  lemma RootStays(w: World, w': World, d: nat)
    requires Changed(w, w', d) && RootOk(w) && |w'.t| == NINODES
    ensures RootOk(w')
  {
    hide Numbered;
    ChangedTable(w, w', d);
    SameNumbered(w, w');
  }

  lemma NewerNumber(w: World, w1: World, w2: World, n: nat)
    requires NewNumber(w, w1, n) && forall m: nat :: Numbered(w2, m) <==> Numbered(w1, m)
    ensures NewNumber(w, w2, n)
  {
    hide Numbered;
  }

  lemma NewApart(w: World, w1: World, n: nat, d: nat)
    requires NewNumber(w, w1, n) && Numbered(w, d)
    ensures n != d && Numbered(w1, d) && Numbered(w1, n)
  {
    hide Numbered;
  }

  lemma OrderedFile(w: World, d: nat)
    requires Ordered(w) && d < |w.t| && w.t[d].kind == T_DIR
    ensures LinksOk(w, Records(w, d)) && DirOk(w.v, w.t[d])
  {
    hide SoundWorld, NumbersOk, Solid, LinksOk;
    assert FileOk(w, d);
  }

  lemma CreatedKind(w: World, w1: World, n: nat, d: nat)
    requires WalkedBut(w, w1, n) && d < |w.t| && d != n
    ensures d < |w1.t| && w1.t[d].kind == w.t[d].kind && Records(w1, d) == Records(w, d)
    ensures w1.t[d].addrs == w.t[d].addrs && SameFile(w.v, w.t[d].addrs, w1.v) && |w1.v| == |w.v|
    ensures DirOk(w1.v, w1.t[d]) <==> DirOk(w.v, w.t[d])
  {
    hide SameFile, D.Entries;
    SameFileContents(w.v, w.t[d], w1.v);
    SameContents(w1.v, w1.t[d], w.t[d]);
  }

  lemma SameContents(v: seq<Block>, x: Inode, y: Inode)
    requires x == y.(atime := x.atime)
    ensures Contents(v, x) == Contents(v, y) && (Solid(v, x) <==> Solid(v, y))
  {
    hide Data, Lookup;
  }

  lemma ChangedBut(w: World, w1: World, w2: World, n: nat, d: nat)
    requires WalkedBut(w, w1, n) && Changed(w1, w2, d) && n < |w1.t| && n != d
    ensures WalkedBut2(w, w2, n, d) && w2.t[n] == w1.t[n]
  {
    hide SameFile, SoundWorld;
    forall m | 0 <= m < |w.t| && m != n && m != d ensures SameFile(w.v, w.t[m].addrs, w2.v) {
      SameFileTrans(w.v, w.t[m].addrs, w1.v, w2.v);
    }
  }

  lemma ChangedSlots(w: World, w': World, d: nat)
    requires Changed(w, w', d)
    ensures |w'.ss| == |w.ss| && w'.refs == w.refs && SoundWorld(w')
    ensures forall i :: 0 <= i < |w.ss| ==> w'.ss[i].ino.inum == w.ss[i].ino.inum
  {
    hide SoundWorld, SameFile, OthersSame;
  }

  /** Giving the new inode back. */
  lemma LinkedReleased(w: World, w1: World, k: nat, n: nat, x: Inode, d: nat, es: seq<D.Entry>)
    requires FsOk(w) && Linked(w, w1, n, x, d, es) && n < |w.refs| && w1.refs == More(w.refs, n)
    requires k < |w1.ss| && w1.ss[k].ino.inum == n < NINODES
    ensures BLOCK_START <= |w1.v| && w1.ss[k].refs > 0 && |w1.refs| == NINODES
    ensures Linked(w, Released(w1, k), n, x, d, es) && Released(w1, k).refs == w.refs
  {
    hide SoundWorld, Numbered, Ordered, SameFile, D.Entries, Released, Walked, NewNumber, KeptSlots, WalkedBut2, MetaKept;
    OrderedSize(w);
    OrderedSize(w1);
    OrderedSound(w);
    OrderedSound(w1);
    ReleasedFields(w1, k);
    ReleasedWalked(w1, k);
    ReleaseKeeps(w, w1, k, n);
    assert Less(More(w.refs, n), n) == w.refs;
    WalkedFsOk(w1, Released(w1, k));
    WalkedNumbers(w1, Released(w1, k));
    SameNumbered(w1, Released(w1, k));
    NewerNumber(w, w1, Released(w1, k), n);
    WalkedFile(w1, Released(w1, k), d);
    WalkedBut2Trans(w, w1, Released(w1, k), n, d);
    MetaWalked(w1, Released(w1, k), d);
    MetaTrans(w, w1, Released(w1, k), d);
    ReleasedTable(w1, k);
  }

  lemma ReleasedTable(w: World, k: nat)
    requires k < |w.ss| && w.ss[k].ino.inum < |w.refs| && w.ss[k].ino.inum < NINODES && BLOCK_START <= |w.v| && w.ss[k].refs > 0
    ensures Released(w, k).t == w.t && Released(w, k).owner == w.owner
  {
  }

  lemma ReleaseKeeps(w: World, w1: World, c: nat, m: nat)
    requires SoundWorld(w) && SoundWorld(w1) && KeptSlots(w, w1)
    requires c < |w1.ss| && w1.ss[c].ino.inum == m < NINODES && m < |w.refs| && m < |w1.refs| && w1.refs[m] > w.refs[m]
    ensures BLOCK_START <= |w1.v| && w1.ss[c].refs > 0 && KeptSlots(w, Released(w1, c))
  {
    hide SoundWorld, Released;
    ReleasedFields(w1, c);
    if w.ss[c].ino.inum != EMPTY {
      InUsePositive(w, c);
    }
  }

  lemma WalkedBut2Trans(w: World, w1: World, w2: World, n: nat, d: nat)
    requires WalkedBut2(w, w1, n, d) && Walked(w1, w2)
    ensures WalkedBut2(w, w2, n, d)
  {
    hide SameFile;
    forall m | 0 <= m < |w.t| && m != n && m != d ensures SameFile(w.v, w.t[m].addrs, w2.v) {
      SameFileTrans(w.v, w.t[m].addrs, w1.v, w2.v);
    }
  }

  /** There is as much room for the record as there was before the inode was created. */
  lemma SameRoom(w: World, w1: World, c: nat, d: nat, n: nat, es: seq<D.Entry>)
    requires WalkedBut(w, w1, n) && w1.owner == w.owner && SoundWorld(w) && SoundWorld(w1) && d != n
    requires c < |w.ss| && c < |w1.ss| && w.ss[c].ino.inum == w1.ss[c].ino.inum == d < NINODES && d < |w.t|
    ensures AddHasRoom(w1, c, es) <==> AddHasRoom(w, c, es)
    ensures AddOverruns(w1, c, es) <==> AddOverruns(w, c, es)
    ensures UsedByAdd(w1, c, es) == UsedByAdd(w, c, es)
  {
    hide SoundWorld, SameFile, Need, Capacity, Overruns;
    SoundSlot(w, c);
    SoundSlot(w1, c);
    CreatedKind(w, w1, n, d);
    var off := D.ENTRY_SIZE * |es|;
    PeekedOverruns(w, w1, c, off, D.ENTRY_SIZE);
    if off + D.ENTRY_SIZE <= MAXSIZE {
      PeekedNeed(w, w1, c, off, D.ENTRY_SIZE);
    }
  }

  // ---------------------------------------------------------------- mk

  /** Without an empty slot no inode is created. */
  lemma AllocFails(w: World, w': World, kind: uint16, now: uint32, n: nat, r: Option<nat>)
    requires Ordered(w) && |w.t| == NINODES && BLOCK_START <= |w.v| && INumbered(w, w', kind, now, n, r)
    ensures !Held(w.ss, EMPTY) ==> r == None
    ensures Held(w.ss, EMPTY) && Grants(n, |w.v|) ==> r.Some?
  {
    hide SoundWorld, FilesOk, WithNumber, MapBit, Numbered;
    if Grants(n, |w.v|) {
      var mid := WithNumber(w, n, NewInode(n, kind, now));
      WithNumberFields(w, n, NewInode(n, kind, now));
      NotNumbered(w, n);
      NotHeld(w, n);
      if r.Some? {
        RootFound1(mid, w', n, r);
      } else {
        NoneAcquired(mid, w', n);
      }
    }
  }

  lemma RootFound1(w: World, w': World, n: uint32, r: Option<nat>)
    requires Acquired(w, w', n, r) && r.Some?
    ensures Held(w.ss, n) || Held(w.ss, EMPTY)
  {
  }

  lemma NotHeld(w: World, n: nat)
    requires Ordered(w) && n < NINODES && !Numbered(w, n)
    ensures !Held(w.ss, n)
  {
    hide TreesOk, FilesOk, Numbered;
    forall k | 0 <= k < |w.ss| ensures w.ss[k].ino.inum != n {
      assert SlotOk(w.ss[k], w.t, w.refs);
    }
  }

  /** A new file: its owner and mode are those asked for, group 0, one link, no bytes and no blocks. */
  ghost predicate FileFields(x: Inode, n: nat, uid: uint32, mode: uint32, now: uint32) {
    && x.inum == n && x.kind == 2 && x.mode == mode && x.uid == uid && x.gid == 0 && x.nlink == 1
    && x.atime == now && x.mtime == now && x.ctime == now
    && x.size == 0 && x.blocks == 0 && x.flags == 0 && forall i :: 0 <= i < 13 ==> x.addrs[i] == 0
  }

  /** The inode `cmd_mk` gives a new file. */
  function FileInode(n: uint32, uid: uint32, mode: uint32, now: uint32): (x: Inode)
    ensures x.inum == n && x.kind == T_FILE && x.size == 0
    ensures FileFields(x, n, uid, mode, now)
  {
    NewInode(n, T_FILE, now).(mode := mode, uid := uid)
  }

  /** What `cmd_mk` in directory `d` has done. It succeeds exactly if the name is not taken and there are
      a number, the first free one, and a slot for the inode; then the directory has one record
      more, if it had room. If the name is taken and its inode can be acquired, the reference that
      the lookup took is lost, and in no other case. An inode number is used up whenever one can be
      given out and no inode was acquired. The superblock is lost exactly when the directory runs
      out of blocks at a pointer block. */
  ghost predicate Made(w: World, w': World, c: nat, d: nat, name: seq<byte>, x: Inode, ok: bool)
    requires c < |w.ss| && d < |w.t| && |w.t| == NINODES
  {
    var es, taken := Records(w, d), Obtainable(w, d, name, T_FILE);
    && FsOk(w') && KeptSlots(w, w') && d < |w'.t| && w'.t[d].kind == w.t[d].kind
    && (ok <==> Creatable(w, d, name, T_FILE))
    && w'.refs == RefsAfter(w, d, name, T_FILE)
    && (!taken ==> 1 < |w.v| && FirstFree(w.v[1], x.inum))
    && (ok ==> Grants(x.inum, |w.v|) && |w'.owner| == UsedByAdd(w, c, es)
               && Linked(w, w', x.inum, x, d, if AddHasRoom(w, c, es) then D.Added(es, name, T_FILE, x.inum) else es)
               && Super(w.v, w'.v, AddOverruns(w, c, es)))
    && (!ok ==> WalkedBut(w, w', x.inum) && Bare(w, w', x.inum, !taken && Granting(w.v)) && SameSuper(w.v, w'.v) && w'.owner == w.owner)
  }

  lemma UntouchedParts(w: World, w1: World)
    requires Untouched(w, w1)
    ensures Ordered(w1) && |w1.t| == NINODES && BLOCK_START <= |w1.v| && w1.refs == w.refs && SoundWorld(w1)
    ensures |w.v| == |w1.v| && (|w.v| > 1 ==> w1.v[1] == w.v[1]) && KeptSlots(w, w1) && SameSuper(w.v, w1.v)
    ensures w1.owner == w.owner
  {
    hide SoundWorld, FilesOk, NumbersOk, SameFile;
    OrderedSize(w1);
  }

  lemma UntouchedFailed(w: World, w1: World, w2: World, n: nat)
    requires Untouched(w, w1) && WalkedBut(w1, w2, n) && KeptSlots(w1, w2) && SameSuper(w1.v, w2.v)
    ensures WalkedBut(w, w2, n) && KeptSlots(w, w2) && SameSuper(w.v, w2.v)
    ensures forall used: bool :: Bare(w1, w2, n, used) ==> Bare(w, w2, n, used)
  {
    hide Ordered, Walked, WalkedBut, Records;
    WalkedWalkedBut(w, w1, n);
    WalkedButTrans(w, w1, w2, n);
    WalkedSuper(w, w1);
    WalkedNumbers(w, w1);
    SameNumbered(w, w1);
    if Walked(w1, w2) { WalkedTrans(w, w1, w2); }
  }

  lemma WalkedSuper(w: World, w': World)
    requires Walked(w, w')
    ensures SameSuper(w.v, w'.v)
  {
    hide SameFile;
  }

  lemma NewNotRoot(w: World, n: nat)
    requires RootOk(w) && !Numbered(w, n)
    ensures n != 0
  {
    hide Numbered;
  }

  /** Number `n` has been spilt after a lookup that failed; that has changed access times alone. */
  ghost predicate Overflowed(w: World, w': World, n: nat, kind: uint16, now: uint32) {
    n <= BITS && exists w1 :: FsOk(w1) && Untouched(w, w1) && Spilt(w1, w', n, NewInode(n, kind, now))
  }

  /** `ialloc` and the metadata of a new file. */
  method NewFile(fs: FileSystem, uid: uint32, mode: uint32, now: uint32, ghost w: World)
    returns (ip: Option<nat>, spilt: bool, ghost n: nat)
    requires fs.Valid() && |fs.table| == NINODES && FsOk(fs.Now()) && Untouched(w, fs.Now())
    requires FsOk(w) && 1 < |w.v|
    modifies fs, fs.slots, fs.dev, fs.dev.arr, fs.dev.disk.data
    ensures fs.DeviceOk() && fs.sb == old(fs.sb) && n <= BITS && FirstFree(w.v[1], n) && !Numbered(w, n)
    ensures spilt <==> Spills(n, |w.v|)
    ensures spilt ==> ip.None? && Overflowed(w, fs.Now(), n, T_FILE, now)
    ensures !spilt ==>
              && fs.Valid() && FsOk(fs.Now()) && RootOk(fs.Now())
              && (ip.Some? ==> fs.IsInode(ip.value) && Fresh(w, fs.Now(), ip.value, n, FileInode(n, uid, mode, now)) && Grants(n, |w.v|))
              && (ip.None? ==> WalkedBut(w, fs.Now(), n) && KeptSlots(w, fs.Now()) && fs.refs == w.refs)
              && (ip.None? ==> Bare(w, fs.Now(), n, Grants(n, |w.v|)) && SameSuper(w.v, fs.dev.contents) && fs.owner == w.owner)
              && (ip.Some? <==> Held(old(fs.slots[..]), EMPTY) && Grants(n, |w.v|))
    ensures Ticked(old(fs.table), fs.table, now)
  {
    hide Inv, SoundWorld, Ordered, INumbered, Fresh, Walked, WalkedBut, Untouched, MapBit, Held, Stored, KeptSlots, Numbered,
      Bare, FirstFree, Spilt, Overflowed, Ticked, NewFields;
    ghost var w1 := fs.Now();
    UntouchedParts(w, w1);
    ip, spilt, n := IAlloc(fs, T_FILE, now);
    ghost var w2 := fs.Now();
    INumber(w1, w2, T_FILE, now, n, ip);
    StillFree(w, w1, n);
    if spilt {
      OverflowedIntro(w, w1, w2, T_FILE, now, n, ip);
    } else {
      NewNotRoot(w, n);
      AllocCreated(w1, w2, T_FILE, now, n, ip);
      AllocFails(w1, w2, T_FILE, now, n, ip);
    }
    if ip.None? {
      if !spilt {
        UntouchedFailed(w, w1, w2, n);
        FsOkIntro(w2);
      }
      return;
    }
    var x := fs.slots[ip.value].ino;
    CreatedInode(w1, w2, ip.value, n, NewInode(n, T_FILE, now));
    UntouchedCreated(w, w1, w2, ip.value, n, x);
    var y := x.(mode := mode, uid := uid, gid := 0, nlink := 1, atime := now, mtime := now, ctime := now);
    CreatedSet(w, w2, ip.value, n, x, y);
    fs.SetInode(ip.value, y);
    fs.IUpdate(ip.value);
    TickedSet(w1.t, w2.t, n, y, now);
    CreatedOrdered(w, fs.Now(), ip.value, n, y);
    FsOkIntro(fs.Now());
  }

  lemma TickedSet(t: seq<Inode>, t1: seq<Inode>, n: nat, y: Inode, now: uint32)
    requires Ticked(t, t1, now) && n < |t1| && Timed(y, now)
    ensures Ticked(t, t1[n := y], now)
  {
  }

  lemma OverflowedIntro(w: World, w1: World, w2: World, kind: uint16, now: uint32, n: nat, r: Option<nat>)
    requires FsOk(w1) && Untouched(w, w1) && |w1.t| == NINODES && BLOCK_START <= |w1.v|
    requires INumbered(w1, w2, kind, now, n, r) && Spills(n, |w1.v|)
    ensures r == None && Overflowed(w, w2, n, kind, now)
  {
    hide FsOk, Untouched, MapBit, Spilt, Acquired;
  }

  lemma INumber(w: World, w': World, kind: uint16, now: uint32, n: nat, r: Option<nat>)
    requires |w.t| == NINODES && BLOCK_START <= |w.v| && INumbered(w, w', kind, now, n, r)
    ensures n <= BITS && !Numbered(w, n) && FirstFree(w.v[1], n)
  {
    hide MapBit, WithNumber, Acquired, Spilt;
    FreeNumber(w, n);
  }

  lemma StillFree(w: World, w1: World, n: nat)
    requires |w1.v| == |w.v| && 1 < |w.v| && w1.v[1] == w.v[1] && FirstFree(w1.v[1], n)
    ensures !Numbered(w, n) && FirstFree(w.v[1], n)
  {
    hide MapBit;
  }

  lemma CreatedInode(w: World, w1: World, k: nat, n: nat, x: Inode)
    requires Fresh(w, w1, k, n, x)
    ensures k < |w1.ss| && w1.ss[k].ino == x && x.inum == n
  {
    hide Ordered, WalkedBut, NewNumber;
  }

  lemma CreatedOrdered(w: World, w1: World, k: nat, n: nat, x: Inode)
    requires Fresh(w, w1, k, n, x)
    ensures Ordered(w1) && SoundWorld(w1)
  {
    hide FilesOk, NumbersOk, SoundWorld, WalkedBut, NewNumber;
  }

  lemma MkNone(w: World, w1: World, w2: World, c: nat, d: nat, name: seq<byte>, x: Inode)
    requires c < |w.ss| && d < |w.t| && |w.t| == NINODES && FsOk(w2) && KeptSlots(w, w2) && WalkedBut(w, w2, x.inum)
    requires w2.refs == w.refs && w2.owner == w.owner && SoundWorld(w) && SoundWorld(w1) && |w.ss| == |w1.ss| == NCACHE && w1.refs == w.refs
    requires !Held(w1.ss, EMPTY) || !Grants(x.inum, |w.v|)
    requires Numbered(w, d) && !Numbered(w, x.inum) && !Obtainable(w, d, name, T_FILE)
    requires Bare(w, w2, x.inum, Grants(x.inum, |w.v|)) && SameSuper(w.v, w2.v) && 1 < |w.v| && FirstFree(w.v[1], x.inum)
    ensures Made(w, w2, c, d, name, x, false)
  {
    hide FsOk, KeptSlots, WalkedBut, Records, InUse, Linked, D.Lookup, SoundWorld, Held, Numbered, Bare, SameSuper, FirstFree, AddOverruns,
      Granting, Obtainable, Grants;
    OtherKind(w, w2, x.inum, d);
    NextNumber(w.v, x.inum);
    EmptySlot(w);
    EmptySlot(w1);
  }

  lemma OtherKind(w: World, w': World, n: nat, d: nat)
    requires WalkedBut(w, w', n) && d < |w.t| && d != n
    ensures d < |w'.t| && w'.t[d].kind == w.t[d].kind
  {
    hide SameFile;
  }

  lemma MkDir(w: World, w2: World, c: nat, k: nat, d: nat, x: Inode)
    requires Ordered(w) && Fresh(w, w2, k, x.inum, x) && c < |w.ss| && w.ss[c].ino.inum == d < NINODES && Numbered(w, d)
    requires d < |w.t| && w.t[d] == w.ss[c].ino && DirOk(w.v, w.ss[c].ino)
    ensures c < |w2.ss| && w2.ss[c].ino.inum == d && DirOk(w2.v, w2.ss[c].ino) && w2.ss[c].ino.kind == w.t[d].kind
    ensures k < |w2.ss| && w2.ss[k].ino.inum == x.inum && |w2.t| == NINODES && d != x.inum
    ensures d < |w2.t| && Records(w2, d) == Records(w, d) && SoundWorld(w2) && SoundWorld(w)
    ensures AddHasRoom(w2, c, Records(w, d)) <==> AddHasRoom(w, c, Records(w, d))
    ensures AddOverruns(w2, c, Records(w, d)) <==> AddOverruns(w, c, Records(w, d))
    ensures UsedByAdd(w2, c, Records(w, d)) == UsedByAdd(w, c, Records(w, d))
    ensures 0 < |w.v| && Super(w.v, w2.v, false)
  {
    hide Ordered, WalkedBut, DirOk, Numbered, Records, SoundWorld, AddHasRoom, AddOverruns, UsedByAdd;
    OrderedSound(w);
    OrderedSound(w2);
    OrderedSize(w2);
    NewApart(w, w2, x.inum, d);
    CreatedKind(w, w2, x.inum, d);
    SoundSlot(w2, c);
    SameRoom(w, w2, c, d, x.inum, Records(w, d));
    OrderedSize(w);
  }

  lemma MkAdded(w: World, w2: World, w3: World, c: nat, k: nat, d: nat, name: seq<byte>, x: Inode)
    requires FsOk(w) && Fresh(w, w2, k, x.inum, x) && RootOk(w2) && c < |w.ss| && |w.t| == NINODES && d < |w.t|
    requires w.t[d].kind == T_DIR && Numbered(w, d) && !Obtainable(w, d, name, T_FILE) && Held(w.ss, EMPTY) && x.kind == T_FILE
    requires |w3.owner| == UsedByAdd(w, c, Records(w, d))
    requires Rewritten(w2, w3, d, if AddHasRoom(w, c, Records(w, d)) then D.Added(Records(w, d), name, T_FILE, x.inum)
                                  else Records(w, d))
    requires Super(w.v, w2.v, false) && Super(w2.v, w3.v, AddOverruns(w, c, Records(w, d))) && Grants(x.inum, |w.v|)
    requires 1 < |w.v| && FirstFree(w.v[1], x.inum)
    ensures k < |w3.ss| && w3.ss[k].ino.inum == x.inum < NINODES && BLOCK_START <= |w3.v| && w3.ss[k].refs > 0
    ensures |w3.refs| == NINODES && Made(w, Released(w3, k), c, d, name, x, true)
  {
    hide FsOk, Ordered, WalkedBut, Numbered, Records, Released, Linked, AddHasRoom, Rewritten, D.Added, SoundWorld, InUse, D.Lookup,
      AddOverruns, FirstFree, Super, UsedByAdd, Granting, Grants, Held, MetaKept;
    NextNumber(w.v, x.inum);
    var room := AddHasRoom(w, c, Records(w, d));
    AddedLinked(w, w2, w3, k, x.inum, x, d, name, T_FILE, room);
    LinkedReleased(w, w3, k, x.inum, x, d, if room then D.Added(Records(w, d), name, T_FILE, x.inum) else Records(w, d));
    LinkedFsOk(w, Released(w3, k), x.inum, x, d, if room then D.Added(Records(w, d), name, T_FILE, x.inum) else Records(w, d));
    ReleasedSuper(w, w2, w3, k, AddOverruns(w, c, Records(w, d)));
    ReleasedTable(w3, k);
    GrantsPlace(x.inum, |w.v|);
  }

  lemma GrantsPlace(n: nat, size: nat)
    requires Grants(n, size)
    ensures n < NINODES
  {
  }

  /** Giving an inode back leaves block 0 as the steps before left it. */
  lemma ReleasedSuper(w: World, w2: World, w3: World, k: nat, wiped: bool)
    requires Super(w.v, w2.v, false) && Super(w2.v, w3.v, wiped) && SoundWorld(w3) && k < |w3.ss| && w3.ss[k].ino.inum < NINODES
    ensures |w3.refs| == NINODES && BLOCK_START <= |w3.v| && w3.ss[k].refs > 0 && Super(w.v, Released(w3, k).v, wiped)
  {
    hide SoundWorld, Released, Walked;
    ReleasedWalked(w3, k);
    WalkedSuper(w3, Released(w3, k));
  }

  lemma LinkedFsOk(w: World, w': World, n: nat, x: Inode, d: nat, es: seq<D.Entry>)
    requires Linked(w, w', n, x, d, es)
    ensures FsOk(w') && KeptSlots(w, w') && d < |w'.t| && w'.t[d].kind == T_DIR && MetaKept(w, w', d)
  {
    hide FsOk, WalkedBut2, NewNumber, MetaKept;
  }

  lemma MkNoDir(w: World, w2: World, c: nat, k: nat, d: nat, name: seq<byte>, x: Inode)
    requires FsOk(w) && Fresh(w, w2, k, x.inum, x) && RootOk(w2) && c < |w.ss| && |w.t| == NINODES && d < |w.t|
    requires w.t[d].kind != T_DIR && Numbered(w, d) && x.size == 0 && 1 < |w.v| && FirstFree(w.v[1], x.inum) && Grants(x.inum, |w.v|)
    ensures k < |w2.ss| && w2.ss[k].ino.inum == x.inum < NINODES && BLOCK_START <= |w2.v| && w2.ss[k].refs > 0
    ensures |w2.refs| == NINODES && Made(w, Released(w2, k), c, d, name, x, false)
  {
    hide FsOk, Ordered, WalkedBut, Walked, Numbered, Records, Released, Linked, AddHasRoom, SoundWorld, InUse, D.Lookup, AddOverruns, FirstFree,
      NewNumber, Granting;
    NextNumber(w.v, x.inum);
    FsOkOrdered(w);
    OrderedSound(w2);
    OrderedSize(w2);
    ReleasedFields(w2, k);
    ReleasedWalked(w2, k);
    ReleaseKeeps(w, w2, k, x.inum);
    FsOkIntro(w2);
    WalkedFsOk(w2, Released(w2, k));
    WalkedWalkedBut(w2, Released(w2, k), x.inum);
    WalkedButTrans(w, w2, Released(w2, k), x.inum);
    NewApart(w, w2, x.inum, d);
    OtherKind(w, Released(w2, k), x.inum, d);
    WalkedSuper(w2, Released(w2, k));
    ReleasedTable(w2, k);
    NoRecords(Released(w2, k), x.inum);
    WalkedNumbers(w2, Released(w2, k));
    SameNumbered(w2, Released(w2, k));
    NewerNumber(w, w2, Released(w2, k), x.inum);
    assert Less(More(w.refs, x.inum), x.inum) == w.refs;
  }

  /** `cmd_mk`. `spilt` says that its inode number has no place in the inode area. */
  method Mk(fs: FileSystem, cwd: nat, name: seq<byte>, uid: uint32, mode: uint32, now: uint32)
    returns (ok: bool, spilt: bool, ghost n: nat)
    requires fs.Valid() && fs.IsInode(cwd) && |fs.table| == NINODES && FsOk(fs.Now()) && D.NoNul(name)
    modifies fs, fs.slots, fs.dev, fs.dev.arr, fs.dev.disk.data
    ensures fs.DeviceOk() && fs.sb == old(fs.sb) && n <= BITS
    ensures spilt <==> !Obtainable(old(fs.Now()), old(fs.slots[cwd].ino.inum), name, T_FILE) && Spilling(old(fs.dev.contents))
    ensures spilt ==> !ok && Overflowed(old(fs.Now()), fs.Now(), n, T_FILE, now)
    ensures !spilt ==>
              && fs.Valid() && fs.IsInode(cwd) && fs.slots[cwd].ino.inum == old(fs.slots[cwd].ino.inum)
              && Made(old(fs.Now()), fs.Now(), cwd, old(fs.slots[cwd].ino.inum), name, FileInode(n, uid, mode, now), ok)
    ensures ok ==> n < |fs.table| && FileFields(fs.table[n], n, uid, mode, now)
    ensures Ticked(old(fs.table), fs.table, now)
  {
    hide Inv, SoundWorld, Ordered, FsOk, LookedUp, Fresh, Untouched, Linked, Walked, WalkedBut, Made, Records, Rewritten,
      InUse, Held, Released, DirOk, AddHasRoom, Numbered, FileInode, FileFields, KeptSlots, AddOverruns, FirstFree, Super, Bare,
      Obtainable, Overflowed, Spilling, Granting, UsedByAdd, Grants, Ticked, RecordAdded, Stamped;
    ghost var w, d, mid := fs.Now(), fs.slots[cwd].ino.inum, fs.Now();
    FsOkOrdered(w);
    OrderedDir(w, cwd);
    var r;
    r, mid := DirLookup(fs, cwd, name, T_FILE, now);
    n, spilt := 0, false;
    if r.Some? {
      LookupHit(w, mid, fs.Now(), d, name, T_FILE, r.value);
      HitObtainable(w, d, name, T_FILE);
      CwdStays(w, fs.Now(), cwd);
      MkExists(w, fs.Now(), cwd, d, name, FileInode(0, uid, mode, now));
      return false, false, 0;
    }
    ghost var w1 := fs.Now();
    LookupFailed(w, mid, w1, d, name, T_FILE);
    UntouchedParts(w, w1);
    FsOkIntro(w1);
    SlotsAgain(w, w1);
    var ip;
    ip, spilt, n := NewFile(fs, uid, mode, now, w);
    TickedTrans(w.t, w1.t, fs.table, now);
    ghost var w2, x := fs.Now(), FileInode(n, uid, mode, now);
    NextNumber(w.v, n);
    if ip.None? {
      if !spilt {
        CwdStays(w, w2, cwd);
        MkNone(w, w1, w2, cwd, d, name, x);
      }
      return false, spilt, n;
    }
    MkDir(w, w2, cwd, ip.value, d, x);
    ok := DirAdd(fs, cwd, name, T_FILE, fs.slots[ip.value].ino.inum, now);
    ghost var w3 := fs.Now();
    TickedTrans(w.t, w2.t, w3.t, now);
    if ok {
      MkAdded(w, w2, w3, cwd, ip.value, d, name, x);
    } else {
      MkNoDir(w, w2, cwd, ip.value, d, name, x);
    }
    fs.IPut(ip.value);
    MadeKept(w, fs.Now(), cwd, d, name, x, ok);
    if ok { MadeInode(w, fs.Now(), cwd, d, name, x); }
    CwdStays(w, fs.Now(), cwd);
  }

  lemma MadeInode(w: World, w': World, c: nat, d: nat, name: seq<byte>, x: Inode)
    requires c < |w.ss| && d < |w.t| && |w.t| == NINODES && Made(w, w', c, d, name, x, true)
    ensures x.inum < |w'.t| && w'.t[x.inum] == x
  {
    hide FsOk, KeptSlots, WalkedBut, WalkedBut2, Records, D.Added, AddHasRoom, Obtainable, Creatable, Super, NewNumber, FirstFree;
  }

  /** A lookup that fails leaves an empty slot if there was one. */
  lemma SlotsAgain(w: World, w1: World)
    requires SoundWorld(w) && SoundWorld(w1) && |w.ss| == |w1.ss| == NCACHE && w1.refs == w.refs
    ensures Held(w1.ss, EMPTY) <==> Held(w.ss, EMPTY)
  {
    hide SoundWorld, Held, InUse;
    EmptySlot(w);
    EmptySlot(w1);
  }

  lemma HitObtainable(w: World, d: nat, name: seq<byte>, kind: uint16)
    requires d < |w.t| && w.t[d].kind == T_DIR && D.Lookup(Records(w, d), name, kind).Some?
    requires Held(w.ss, D.Lookup(Records(w, d), name, kind).value) || Held(w.ss, EMPTY)
    ensures Obtainable(w, d, name, kind)
  {
  }

  lemma MadeKept(w: World, w': World, c: nat, d: nat, name: seq<byte>, x: Inode, ok: bool)
    requires c < |w.ss| && d < |w.t| && |w.t| == NINODES && Made(w, w', c, d, name, x, ok)
    ensures KeptSlots(w, w') && FsOk(w') && d < |w'.t| && w'.t[d].kind == w.t[d].kind
  {
    hide FsOk, KeptSlots, WalkedBut, Records, InUse, Linked, D.Lookup, AddHasRoom, D.Added;
  }

  lemma FsOkOrdered(w: World)
    requires FsOk(w)
    ensures Ordered(w) && RootOk(w) && SoundWorld(w) && |w.t| == |w.refs| == NINODES && BLOCK_START <= |w.v|
  {
    hide Ordered, SoundWorld;
    OrderedSize(w);
    OrderedSound(w);
  }

  lemma FsOkIntro(w: World)
    requires Ordered(w) && RootOk(w)
    ensures FsOk(w)
  {
  }

  lemma OrderedDir(w: World, c: nat)
    requires Ordered(w) && c < |w.ss| && w.ss[c].ino.inum < NINODES
    ensures w.ss[c].ino.inum < |w.t| && w.t[w.ss[c].ino.inum] == w.ss[c].ino && DirOk(w.v, w.ss[c].ino)
    ensures Numbered(w, w.ss[c].ino.inum)
  {
    hide SoundWorld, NumbersOk, Solid, LinksOk, Numbered;
    OrderedSound(w);
    SoundSlot(w, c);
    assert FileOk(w, w.ss[c].ino.inum);
    UsedNumbered(w, w.ss[c].ino.inum);
  }

  lemma CwdStays(w: World, w': World, c: nat)
    requires KeptSlots(w, w') && c < |w.ss| && w.ss[c].ino.inum < NINODES
    ensures c < |w'.ss| && w'.ss[c].ino.inum == w.ss[c].ino.inum
  {
  }

  lemma MkExists(w: World, w': World, c: nat, d: nat, name: seq<byte>, x: Inode)
    requires c < |w.ss| && d < |w.t| && |w.t| == NINODES && FsOk(w') && KeptSlots(w, w') && Walked(w, w')
    requires Obtainable(w, d, name, T_FILE) && w'.owner == w.owner
    requires D.Lookup(Records(w, d), name, T_FILE).value < |w.refs|
    requires w'.refs == More(w.refs, D.Lookup(Records(w, d), name, T_FILE).value)
    ensures Made(w, w', c, d, name, x, false)
  {
    hide FsOk, KeptSlots, Walked, WalkedBut, Records, InUse, Linked, D.Lookup, FirstFree, AddOverruns;
    WalkedSuper(w, w');
    WalkedKinds(w, w');
    WalkedWalkedBut(w, w', x.inum);
  }
}
