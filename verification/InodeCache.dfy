/** The in-memory inode cache as a refinement of a table of all inodes. */
module InodeCache {
  import opened Bytes
  import opened BlockTree
  import opened Inodes
  import opened Growth

  const NCACHE := 20
  const EMPTY: uint32 := 0xFFFF_FFFF

  datatype CacheSlot = CacheSlot(ino: Inode, refs: nat)

  predicate Held(ss: seq<CacheSlot>, n: int) {
    exists k :: 0 <= k < |ss| && ss[k].ino.inum == n
  }

  /** What one used slot says about the table `t` and the counts `refs`. */
  ghost predicate SlotOk(s: CacheSlot, t: seq<Inode>, refs: seq<nat>)
    requires |t| == |refs| == NINODES
  {
    s.ino.inum != EMPTY ==>
      s.ino.inum < NINODES && t[s.ino.inum] == s.ino && 0 < refs[s.ino.inum] == s.refs
  }

  /** `t` is the current inode table: a cached inode is the one in its slot, held at most
      once and counted in `refs`; an uncached one is the one on the device. */
  ghost predicate TableOk(ss: seq<CacheSlot>, t: seq<Inode>, refs: seq<nat>, v: seq<Block>) {
    && |t| == |refs| == NINODES && BLOCK_START <= |v|
    && (forall n :: 0 <= n < NINODES ==> t[n].inum == n)
    && (forall k :: 0 <= k < |ss| ==> SlotOk(ss[k], t, refs))
    && (forall j, k :: 0 <= j < k < |ss| && ss[j].ino.inum != EMPTY ==> ss[j].ino.inum != ss[k].ino.inum)
    && (forall n :: 0 <= n < NINODES && refs[n] > 0 ==> Held(ss, n))
    && (forall n :: 0 <= n < NINODES && refs[n] == 0 ==> t[n] == DiskInode(v, n))
  }

  lemma HeldUpdate(ss: seq<CacheSlot>, k: nat, x: CacheSlot, n: int)
    requires k < |ss| && Held(ss, n) && (ss[k].ino.inum == n ==> x.ino.inum == n)
    ensures Held(ss[k := x], n)
  {
    var i :| 0 <= i < |ss| && ss[i].ino.inum == n;
    assert ss[k := x][i].ino.inum == n;
  }

  /** Changing a cached inode in place, or the number of references to it. */
  lemma SlotStep(ss: seq<CacheSlot>, t: seq<Inode>, refs: seq<nat>, v: seq<Block>, k: nat, x: CacheSlot)
    requires TableOk(ss, t, refs, v) && k < |ss| && ss[k].ino.inum != EMPTY
    requires x.ino.inum == ss[k].ino.inum && x.refs > 0
    ensures x.ino.inum < NINODES
    ensures TableOk(ss[k := x], t[x.ino.inum := x.ino], refs[x.ino.inum := x.refs], v)
  {
    var n := ss[k].ino.inum;
    assert SlotOk(ss[k], t, refs);
    var ss', refs' := ss[k := x], refs[n := x.refs];
    forall m | 0 <= m < NINODES && refs'[m] > 0 ensures Held(ss', m) {
      if m == n { assert ss'[k].ino.inum == m; } else { HeldUpdate(ss, k, x, m); }
    }
  }

  /** Loading an uncached inode into an empty slot changes no inode. */
  lemma LoadStep(ss: seq<CacheSlot>, t: seq<Inode>, refs: seq<nat>, v: seq<Block>, k: nat, n: nat)
    requires TableOk(ss, t, refs, v) && k < |ss| && ss[k].ino.inum == EMPTY
    requires n < NINODES && !Held(ss, n)
    ensures refs[n] == 0 && DiskInode(v, n) == t[n]
    ensures TableOk(ss[k := CacheSlot(t[n], 1)], t, refs[n := 1], v)
  {
    var x := CacheSlot(t[n], 1);
    var ss', refs' := ss[k := x], refs[n := 1];
    forall m | 0 <= m < NINODES && refs'[m] > 0 ensures Held(ss', m) {
      if m == n { assert ss'[k].ino.inum == m; } else { HeldUpdate(ss, k, x, m); }
    }
    forall j | 0 <= j < |ss| && j != k ensures ss[j].ino.inum != n { }
  }

  /** Storing a cached inode's record (`iupdate`) changes no inode. */
  lemma StoreStep(ss: seq<CacheSlot>, t: seq<Inode>, refs: seq<nat>, v: seq<Block>, k: nat, r: uint32)
    requires TableOk(ss, t, refs, v) && k < |ss| && ss[k].ino.inum != EMPTY
    ensures ss[k].ino.inum < NINODES
    ensures TableOk(ss, t, refs, Stored(v, ss[k].ino.inum, ss[k].ino, r))
    ensures DiskInode(Stored(v, ss[k].ino.inum, ss[k].ino, r), ss[k].ino.inum) == ss[k].ino
  {
    assert SlotOk(ss[k], t, refs);
    var n := ss[k].ino.inum;
    StoredInode(v, n, ss[k].ino, r, n);
    forall m | 0 <= m < NINODES && refs[m] == 0 ensures t[m] == DiskInode(Stored(v, n, ss[k].ino, r), m) {
      StoredInode(v, n, ss[k].ino, r, m);
    }
  }

  /** Emptying the slot of an inode whose record on the device is current. */
  lemma EvictStep(ss: seq<CacheSlot>, t: seq<Inode>, refs: seq<nat>, v: seq<Block>, k: nat, x: CacheSlot)
    requires TableOk(ss, t, refs, v) && k < |ss| && ss[k].ino.inum != EMPTY && x.ino.inum == EMPTY
    requires ss[k].ino.inum < NINODES && DiskInode(v, ss[k].ino.inum) == ss[k].ino
    ensures TableOk(ss[k := x], t, refs[ss[k].ino.inum := 0], v)
  {
    var n := ss[k].ino.inum;
    assert SlotOk(ss[k], t, refs);
    var ss', refs' := ss[k := x], refs[n := 0];
    forall m | 0 <= m < NINODES && refs'[m] > 0 ensures Held(ss', m) {
      HeldUpdate(ss, k, x, m);
    }
    forall j | 0 <= j < |ss| ensures SlotOk(ss'[j], t, refs') {
      assert SlotOk(ss[j], t, refs);
    }
  }

  /** The table does not depend on blocks outside the inode area. */
  lemma TableFrame(ss: seq<CacheSlot>, t: seq<Inode>, refs: seq<nat>, v: seq<Block>, v': seq<Block>)
    requires TableOk(ss, t, refs, v) && |v'| == |v|
    requires forall b :: INODE_START <= b < BLOCK_START ==> v'[b] == v[b]
    ensures TableOk(ss, t, refs, v')
  {
  }

  /** Storing a record touches no tree. */
  lemma StoredTrees(v: seq<Block>, t: seq<Inode>, owner: map<nat, Key>, n: nat, ino: Inode, r: uint32)
    requires TreesOk(v, t, owner) && n < NINODES
    ensures TreesOk(Stored(v, n, ino, r), t, owner)
    ensures forall j :: 0 <= j < |t| ==> SameTree(v, t[j].addrs, Stored(v, n, ino, r))
    ensures forall b :: 0 <= b < |v| && !(INODE_START <= b < BLOCK_START) ==> Stored(v, n, ino, r)[b] == v[b]
  {
    var v' := Stored(v, n, ino, r);
    OwnedFrame(v, v', Trees(t), owner);
    forall j, u | 0 <= j < |t| && Good(u) ensures At(v', t[j].addrs, u) == At(v, t[j].addrs, u) {
      assert At(v', Trees(t)[j], u) == At(v, Trees(t)[j], u);
    }
  }
}
