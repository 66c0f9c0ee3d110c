/** What holds of a formatted file system between any two commands. */
module Invariant {
  import opened Bytes
  import opened BlockTree
  import opened Bitmap
  import opened Inodes
  import opened Growth
  import opened Files
  import opened World
  import opened Writes
  import opened Commands
  import opened DirOps
  import opened Walking
  import D = Directory

  predicate NoBlocks(ino: Inode) {
    forall i :: 0 <= i < NADDRS ==> ino.addrs[i] == 0
  }

  /** Inode number `n` is marked in the inode bitmap. */
  predicate Numbered(w: World, n: nat) {
    1 < |w.v| && n < BITS && MapBit(w.v[1], n)
  }

  /** A free inode number has no blocks and no references. */
  ghost predicate NumbersOk(w: World) {
    |w.refs| == |w.t| && forall n :: 0 <= n < |w.t| && !Numbered(w, n) ==> NoBlocks(w.t[n]) && w.refs[n] == 0
  }

  /** A name leads to an inode that exists and is of the type recorded with the name. */
  predicate LinkOk(w: World, e: D.Entry) {
    D.Skipped(e) || (e.inum < NINODES && Numbered(w, e.inum) && e.inum < |w.t| && w.t[e.inum].kind == e.kind)
  }

  ghost predicate LinksOk(w: World, es: seq<D.Entry>) {
    forall i :: 0 <= i < |es| ==> LinkOk(w, es[i])
  }

  /** File `n` has no holes; if it is a directory it consists of whole records whose names
      lead to inodes that exist. */
  ghost predicate FileOk(w: World, n: nat)
    requires n < |w.t|
  {
    && Solid(w.v, w.t[n])
    && (w.t[n].kind == T_DIR ==> w.t[n].size % D.ENTRY_SIZE == 0 && LinksOk(w, Records(w, n)))
  }

  ghost predicate RootOk(w: World) {
    |w.t| == NINODES && w.t[0].kind == T_DIR && Numbered(w, 0)
  }

  ghost predicate FilesOk(w: World) {
    forall n :: 0 <= n < |w.t| ==> FileOk(w, n)
  }

  ghost predicate Ordered(w: World) {
    SoundWorld(w) && NumbersOk(w) && FilesOk(w)
  }

  lemma OrderedDirs(w: World)
    requires Ordered(w)
    ensures DirsOk(w)
  {
    hide SoundWorld, NumbersOk, Solid, LinksOk;
    forall n | 0 <= n < |w.t| ensures DirOk(w.v, w.t[n]) {
      assert FileOk(w, n);
    }
  }

  lemma SameNumbered(w: World, w': World)
    requires SameNumbers(w, w')
    ensures forall n: nat :: Numbered(w', n) <==> Numbered(w, n)
  {
    hide MapBit, SameNumbers;
    forall n: nat ensures Numbered(w', n) <==> Numbered(w, n) { NumberedSame(w, w', n); }
  }

  ghost predicate SameKinds(w: World, w': World) {
    |w'.t| == |w.t| && forall n :: 0 <= n < |w.t| ==> w'.t[n].kind == w.t[n].kind
  }

  lemma SameLinks(w: World, w': World)
    requires SameNumbers(w, w') && SameKinds(w, w')
    ensures forall es :: LinksOk(w', es) <==> LinksOk(w, es)
  {
    hide MapBit, SameNumbers, Numbered;
    SameNumbered(w, w');
    forall es ensures LinksOk(w', es) <==> LinksOk(w, es) {
      forall e ensures LinkOk(w', e) <==> LinkOk(w, e) { }
    }
  }

  lemma WalkedKinds(w: World, w': World)
    requires Walked(w, w')
    ensures SameKinds(w, w')
  {
    hide SameFile;
  }

  lemma NumberedSame(w: World, w': World, n: nat)
    requires SameNumbers(w, w')
    ensures Numbered(w', n) <==> Numbered(w, n)
  {
    hide MapBit;
  }

  /** Walking, and taking references to numbered inodes only, keeps everything in order. */
  lemma WalkedOrdered(w: World, w': World)
    requires Ordered(w) && Walked(w, w') && SoundWorld(w')
    requires forall n :: 0 <= n < |w'.refs| && w'.refs[n] > 0 ==> (n < |w.refs| && w.refs[n] > 0) || Numbered(w, n)
    ensures Ordered(w')
  {
    hide SoundWorld, Solid, Numbered, LinksOk, SameFile, Records;
    WalkedNumbers(w, w');
    WalkedKinds(w, w');
    SameNumbered(w, w');
    SameLinks(w, w');
    forall n | 0 <= n < |w'.t| ensures FileOk(w', n) {
      assert FileOk(w, n);
      WalkedFile(w, w', n);
    }
  }

  lemma WalkedNumbers(w: World, w': World)
    requires Walked(w, w')
    ensures SameNumbers(w, w')
  {
    hide SameFile;
  }

  lemma WalkedFile(w: World, w': World, n: nat)
    requires Walked(w, w') && n < |w.t|
    ensures n < |w'.t| && Records(w', n) == Records(w, n) && w'.t[n].kind == w.t[n].kind && w'.t[n].size == w.t[n].size
    ensures Solid(w'.v, w'.t[n]) <==> Solid(w.v, w.t[n])
  {
    hide SameFile, Solid, Contents;
    SameFileContents(w.v, w.t[n], w'.v);
    WalkedContents(w, w', n);
  }

  /** Only inode `n`, which stays of the same type, and its file may have changed. */
  ghost predicate Changed(w: World, w': World, n: nat) {
    && SoundWorld(w') && SameHandles(w, w') && SameNumbers(w, w') && OthersSame(w, w', n)
    && n < |w.t| && w'.t[n].kind == w.t[n].kind
  }

  lemma EditedChanged(w: World, w': World, n: nat)
    requires Edited(w, w', n)
    ensures Changed(w, w', n) && |w'.t| == |w.t|
  {
    hide SoundWorld, SameFile;
  }

  /** Changing one inode that is numbered keeps everything in order if its own file is. */
  lemma ChangedOrdered(w: World, w': World, n: nat)
    requires Ordered(w) && Changed(w, w', n) && n < |w'.t| && Numbered(w, n) && FileOk(w', n)
    ensures Ordered(w')
  {
    hide SoundWorld, Solid, Numbered, LinksOk, SameFile, Records, MapBit;
    SameNumbered(w, w');
    ChangedTable(w, w', n);
    SameLinks(w, w');
    forall m | 0 <= m < |w'.t| ensures FileOk(w', m) {
      if m != n {
        assert FileOk(w, m);
        OtherFile(w, w', n, m);
      }
    }
  }

  lemma ChangedTable(w: World, w': World, n: nat)
    requires Changed(w, w', n)
    ensures |w'.t| == |w.t| && w'.refs == w.refs && SoundWorld(w') && SameNumbers(w, w') && n < |w.t|
    ensures w'.t[n].kind == w.t[n].kind && SameKinds(w, w')
    ensures forall m :: 0 <= m < |w.t| && m != n ==> w'.t[m] == w.t[m]
  {
    hide SoundWorld, SameFile;
  }

  lemma OtherFile(w: World, w': World, n: nat, m: nat)
    requires Changed(w, w', n) && m < |w.t| && m != n
    ensures m < |w'.t| && w'.t[m] == w.t[m] && Records(w', m) == Records(w, m)
    ensures Solid(w'.v, w'.t[m]) <==> Solid(w.v, w.t[m])
  {
    hide SoundWorld, SameFile, Solid, Contents;
    SameFileContents(w.v, w.t[m], w'.v);
  }

  /** An inode in use is numbered. */
  lemma UsedNumbered(w: World, n: nat)
    requires Ordered(w) && n < |w.refs| && w.refs[n] > 0
    ensures Numbered(w, n)
  {
    hide SoundWorld, FilesOk;
  }

  /** A name found in a directory leads to a numbered inode. */
  lemma LookupNumbered(w: World, n: nat, name: seq<byte>, kind: uint16)
    requires Ordered(w) && n < |w.t| && w.t[n].kind == T_DIR
    ensures var r := D.Lookup(Records(w, n), name, kind);
      r.Some? ==> r.value < NINODES && Numbered(w, r.value) && w.t[r.value].kind == kind
  {
    hide SoundWorld, NumbersOk, Solid, D.Lookup, Records, Numbered;
    assert FileOk(w, n);
    if D.Lookup(Records(w, n), name, kind).Some? {
      LookupLink(w, Records(w, n), name, kind);
    }
  }

  lemma {:induction false} LookupLink(w: World, es: seq<D.Entry>, name: seq<byte>, kind: uint16)
    requires LinksOk(w, es) && D.Lookup(es, name, kind).Some?
    ensures var m := D.Lookup(es, name, kind).value; m < NINODES && Numbered(w, m) && m < |w.t| && w.t[m].kind == kind
  {
    hide Numbered;
    if D.Matches(es[0], name, kind) {
      assert LinkOk(w, es[0]);
    } else {
      assert forall i :: 0 <= i < |es| - 1 ==> es[1..][i] == es[i + 1];
      LookupLink(w, es[1..], name, kind);
    }
  }

  lemma ChildNumbered(w: World, n: nat, name: seq<byte>)
    requires Ordered(w) && |w.t| == NINODES && Child(w, n, name).Some?
    ensures Numbered(w, Child(w, n, name).value)
  {
    hide Ordered, Records;
    LookupNumbered(w, n, name, T_DIR);
  }

  lemma {:induction false} ResolveNumbered(w: World, n: nat, segs: seq<seq<byte>>)
    requires Ordered(w) && |w.t| == NINODES && Numbered(w, n) && Resolve(w, n, segs).Some?
    ensures Numbered(w, Resolve(w, n, segs).value)
    decreases |segs|
  {
    hide Ordered, Numbered, Child;
    if segs != [] {
      if segs[0] != D.DOT { ChildNumbered(w, n, segs[0]); }
      ResolveNumbered(w, Step(w, n, segs[0]).value, segs[1..]);
    }
  }

  /** In order, with a root directory. */
  ghost predicate FsOk(w: World) {
    Ordered(w) && RootOk(w)
  }

  lemma WalkedFsOk(w: World, w': World)
    requires FsOk(w) && Walked(w, w') && SoundWorld(w')
    requires forall n :: 0 <= n < |w'.refs| && w'.refs[n] > 0 ==> (n < |w.refs| && w.refs[n] > 0) || Numbered(w, n)
    ensures FsOk(w')
  {
    WalkedOrdered(w, w');
    hide Ordered, Walked, Numbered;
    WalkedNumbers(w, w');
    SameNumbered(w, w');
    WalkedFile(w, w', 0);
    OrderedSize(w');
  }

  lemma OrderedSize(w: World)
    requires Ordered(w)
    ensures |w.t| == |w.refs| == NINODES && BLOCK_START <= |w.v|
  {
    hide TreesOk, NumbersOk, FilesOk;
  }

  lemma ChangedFsOk(w: World, w': World, n: nat)
    requires FsOk(w) && Changed(w, w', n) && n < |w'.t| && Numbered(w, n) && FileOk(w', n)
    ensures FsOk(w')
  {
    ChangedOrdered(w, w', n);
    hide Ordered, Changed, Numbered;
    ChangedTable(w, w', n);
    SameNumbered(w, w');
    OrderedSize(w');
  }
}
