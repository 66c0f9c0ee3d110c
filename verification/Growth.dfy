/** How the block trees of all inodes evolve when one of them grows. */
module Growth {
  import opened Bytes
  import opened BlockTree
  import opened Bitmap
  import opened Inodes

  /** Data blocks the bitmap can hand out on a device of `n` blocks. */
  function Capacity(n: nat): nat {
    if n < BLOCK_START then 0 else Min(n - BLOCK_START, BITS)
  }

  /** Every block the bitmap can hand out is taken. */
  ghost predicate NoFree(v: seq<Block>)
    requires BLOCK_START <= |v|
  {
    forall i :: 0 <= i < Capacity(|v|) ==> MapBit(v[2], i)
  }

  /** Block `p` was the first free one and is now marked; no other block has changed. */
  ghost predicate Took(v: seq<Block>, p: uint32, v': seq<Block>)
    requires BLOCK_START <= |v|
  {
    && BLOCK_START <= p < BLOCK_START + Capacity(|v|) && |v'| == |v|
    && (forall b :: 0 <= b < |v| && b != 2 ==> v'[b] == v[b])
    && !MapBit(v[2], p - BLOCK_START)
    && (forall i :: 0 <= i < p - BLOCK_START ==> MapBit(v[2], i))
    && (forall i :: 0 <= i < BITS ==> (MapBit(v'[2], i) <==> i == p - BLOCK_START || MapBit(v[2], i)))
  }

  function Trees(t: seq<Inode>): (r: seq<Addrs>)
    ensures |r| == |t| && forall i :: 0 <= i < |t| ==> r[i] == t[i].addrs
  {
    seq(|t|, i requires 0 <= i < |t| => t[i].addrs)
  }

  /** The trees of the inode table `t` on device `v` are disjoint, lie in the data region
      and are exactly what the data bitmap marks. */
  ghost predicate TreesOk(v: seq<Block>, t: seq<Inode>, owner: map<nat, Key>) {
    && BLOCK_START <= |v|
    && Owned(v, Trees(t), owner)
    && Marked(v[2], owner)
  }

  /** The slots on the way to logical block `b`. */
  function Path(s: Slot): set<Slot> {
    match s
    case Top(_) => {s}
    case Sub(q, _) => Path(q) + {s}
  }

  /** The tree `a` has grown into `a'` by the slots `added`; mapped slots keep their blocks. */
  ghost predicate GrewSlots(v: seq<Block>, a: Addrs, v': seq<Block>, a': Addrs, added: set<Slot>) {
    && (forall u :: Good(u) && At(v, a, u) != 0 ==> At(v', a', u) == At(v, a, u))
    && (forall u :: Good(u) && At(v, a, u) == 0 ==> (At(v', a', u) != 0 <==> u in added))
    && (forall u :: u in added ==> Good(u) && At(v, a, u) == 0)
  }

  ghost predicate SameTree(v: seq<Block>, a: Addrs, v': seq<Block>) {
    forall u :: Good(u) ==> At(v', a, u) == At(v, a, u)
  }

  /** No block changes hands; blocks of inodes other than `n` and the metadata blocks other
      than the bitmap keep their bytes. */
  ghost predicate KeptOthers(v: seq<Block>, owner: map<nat, Key>, v': seq<Block>, owner': map<nat, Key>, n: nat) {
    && |v'| == |v|
    && (forall q :: q in owner ==> q in owner' && owner'[q] == owner[q])
    && (forall q :: q in owner && owner[q].inum != n && q < |v| ==> v'[q] == v[q])
    && (forall b :: 1 <= b < BLOCK_START && b != 2 && b < |v| ==> v'[b] == v[b])
  }

  ghost predicate KeptData(v: seq<Block>, owner: map<nat, Key>, v': seq<Block>) {
    |v'| == |v| && forall q :: q in owner && Leaf(owner[q].slot) && q < |v| ==> v'[q] == v[q]
  }

  /** Inode `n` has grown by the slots `added`; its mapped slots keep their blocks, and the
      trees and blocks of all other inodes are as before. */
  ghost predicate Advanced(v: seq<Block>, t: seq<Inode>, owner: map<nat, Key>,
                           v': seq<Block>, t': seq<Inode>, owner': map<nat, Key>, n: nat, added: set<Slot>) {
    && n < |t| && |t'| == |t|
    && t' == t[n := t[n].(addrs := t'[n].addrs, blocks := t'[n].blocks)]
    && GrewSlots(v, t[n].addrs, v', t'[n].addrs, added)
    && (forall j :: 0 <= j < |t| && j != n ==> SameTree(v, t[j].addrs, v'))
    && KeptOthers(v, owner, v', owner', n)
    && |owner'| == |owner| + |added|
  }

  /** `Advanced`, with no data block changed either. */
  ghost predicate Grew(v: seq<Block>, t: seq<Inode>, owner: map<nat, Key>,
                       v': seq<Block>, t': seq<Inode>, owner': map<nat, Key>, n: nat, added: set<Slot>) {
    Advanced(v, t, owner, v', t', owner', n, added) && KeptData(v, owner, v')
  }

  lemma GrewRefl(v: seq<Block>, t: seq<Inode>, owner: map<nat, Key>, n: nat)
    requires n < |t|
    ensures Grew(v, t, owner, v, t, owner, n, {})
  {
  }

  lemma SlotsTrans(v: seq<Block>, a: Addrs, v1: seq<Block>, a1: Addrs, v2: seq<Block>, a2: Addrs, d1: set<Slot>, d2: set<Slot>)
    requires GrewSlots(v, a, v1, a1, d1) && GrewSlots(v1, a1, v2, a2, d2)
    ensures GrewSlots(v, a, v2, a2, d1 + d2) && d1 !! d2
  {
    assert d1 !! d2;
  }

  lemma OthersTrans(v: seq<Block>, o: map<nat, Key>, v1: seq<Block>, o1: map<nat, Key>, v2: seq<Block>, o2: map<nat, Key>, n: nat)
    requires KeptOthers(v, o, v1, o1, n) && KeptOthers(v1, o1, v2, o2, n)
    ensures KeptOthers(v, o, v2, o2, n)
    ensures KeptData(v, o, v1) && KeptData(v1, o1, v2) ==> KeptData(v, o, v2)
  {
  }

  lemma TreeTrans(v: seq<Block>, a: Addrs, v1: seq<Block>, v2: seq<Block>)
    requires SameTree(v, a, v1) && SameTree(v1, a, v2)
    ensures SameTree(v, a, v2)
  {
  }

  lemma AdvancedTrans(v: seq<Block>, t: seq<Inode>, owner: map<nat, Key>,
                      v1: seq<Block>, t1: seq<Inode>, owner1: map<nat, Key>,
                      v2: seq<Block>, t2: seq<Inode>, owner2: map<nat, Key>, n: nat, d1: set<Slot>, d2: set<Slot>)
    requires Advanced(v, t, owner, v1, t1, owner1, n, d1)
    requires Advanced(v1, t1, owner1, v2, t2, owner2, n, d2)
    ensures Advanced(v, t, owner, v2, t2, owner2, n, d1 + d2) && d1 !! d2
    ensures KeptData(v, owner, v1) && KeptData(v1, owner1, v2) ==> KeptData(v, owner, v2)
  {
    hide GrewSlots, SameTree, KeptOthers, KeptData;
    SlotsTrans(v, t[n].addrs, v1, t1[n].addrs, v2, t2[n].addrs, d1, d2);
    OthersTrans(v, owner, v1, owner1, v2, owner2, n);
    forall j | 0 <= j < |t| && j != n ensures SameTree(v, t[j].addrs, v2) {
      assert t1[j] == t[j];
      TreeTrans(v, t[j].addrs, v1, v2);
    }
  }

  /** Hanging an unowned, just marked block on an empty slot of inode `n`. */
  lemma HungGrew(v: seq<Block>, t: seq<Inode>, owner: map<nat, Key>, n: nat, s: Slot, p: uint32,
                 v1: seq<Block>, v': seq<Block>, ino: Inode)
    requires TreesOk(v, t, owner) && n < |t|
    requires Took(v, p, v1) && |v'| == |v| && forall b :: 1 <= b < BLOCK_START ==> v'[b] == v1[b]
    requires Hung(v, t[n].addrs, s, p, v', ino.addrs) && At(v, t[n].addrs, s) == 0
    requires ino == t[n].(addrs := ino.addrs, blocks := ino.blocks)
    ensures p !in owner && At(v', ino.addrs, s) == p
    ensures TreesOk(v', t[n := ino], owner[p := Key(n, s)])
    ensures Grew(v, t, owner, v', t[n := ino], owner[p := Key(n, s)], n, {s})
  {
    UnmarkedUnowned(v[2], owner, p);
    HungTrees(v, t, owner, n, s, p, v', ino);
    HungMarked(v[2], owner, p, Key(n, s), v'[2]);
    HungKept(v, Trees(t), owner, n, s, p, v', ino.addrs);
    hide TreesOk, Owned, Marked, Hung, GrewSlots, SameTree, KeptOthers, KeptData;
    assert |owner[p := Key(n, s)]| == |owner| + |{s}|;
  }

  lemma HungTrees(v: seq<Block>, t: seq<Inode>, owner: map<nat, Key>, n: nat, s: Slot, p: uint32,
                  v': seq<Block>, ino: Inode)
    requires Owned(v, Trees(t), owner) && n < |t| && p !in owner
    requires Hung(v, t[n].addrs, s, p, v', ino.addrs) && At(v, t[n].addrs, s) == 0
    ensures Owned(v', Trees(t[n := ino]), owner[p := Key(n, s)])
    ensures GrewSlots(v, t[n].addrs, v', ino.addrs, {s}) && At(v', ino.addrs, s) == p
    ensures forall j :: 0 <= j < |t| && j != n ==> SameTree(v, t[j].addrs, v')
  {
    HungOwned(v, Trees(t), owner, n, s, p, v', ino.addrs);
    hide Owned, Hung, At;
    assert Trees(t[n := ino]) == Trees(t)[n := ino.addrs];
    forall u | Good(u) ensures At(v', ino.addrs, u) == if u == s then p else At(v, t[n].addrs, u) {
      assert At(v', Trees(t)[n := ino.addrs][n], u) == if u == s then p else At(v, Trees(t)[n], u);
    }
    forall j, u | 0 <= j < |t| && j != n && Good(u) ensures At(v', t[j].addrs, u) == At(v, t[j].addrs, u) {
      assert At(v', Trees(t)[n := ino.addrs][j], u) == At(v, Trees(t)[j], u);
    }
  }

  lemma UnmarkedUnowned(b: Block, owner: map<nat, Key>, p: nat)
    requires Marked(b, owner) && BLOCK_START <= p < BLOCK_START + BITS && !MapBit(b, p - BLOCK_START)
    ensures p !in owner
  {
    assert BLOCK_START + (p - BLOCK_START) == p;
  }

  lemma HungMarked(b: Block, owner: map<nat, Key>, p: nat, k: Key, b': Block)
    requires Marked(b, owner) && BLOCK_START <= p < BLOCK_START + BITS
    requires forall j :: 0 <= j < BITS ==> (MapBit(b', j) <==> j == p - BLOCK_START || MapBit(b, j))
    ensures Marked(b', owner[p := k])
  {
  }

  lemma HungKept(v: seq<Block>, t: seq<Addrs>, owner: map<nat, Key>, n: nat, s: Slot, p: uint32, v': seq<Block>, a': Addrs)
    requires Owned(v, t, owner) && n < |t| && p !in owner && Hung(v, t[n], s, p, v', a')
    requires forall b :: 1 <= b < BLOCK_START && b != 2 && b < |v| ==> v'[b] == v[b]
    ensures KeptOthers(v, owner, v', owner[p := Key(n, s)], n) && KeptData(v, owner, v')
  {
    if s.Sub? {
      assert Good(s.parent) && owner[At(v, t[n], s.parent)] == Key(n, s.parent);
    }
  }

  /** Nothing is allocated: only block 0 and the inode's block counter may differ. */
  lemma FailedGrew(v: seq<Block>, t: seq<Inode>, owner: map<nat, Key>, n: nat, v': seq<Block>, ino: Inode)
    requires TreesOk(v, t, owner) && n < |t| && |v'| == |v|
    requires forall b :: 1 <= b < |v| ==> v'[b] == v[b]
    requires ino == t[n].(blocks := ino.blocks)
    ensures TreesOk(v', t[n := ino], owner)
    ensures Grew(v, t, owner, v', t[n := ino], owner, n, {})
  {
    OwnedFrame(v, v', Trees(t), owner);
    assert Trees(t[n := ino]) == Trees(t);
    forall j, u | 0 <= j < |t| && Good(u) ensures At(v', t[j].addrs, u) == At(v, t[j].addrs, u) {
      assert At(v', Trees(t)[j], u) == At(v, Trees(t)[j], u);
    }
  }

  /** When every bit that can be handed out is set, the trees hold all those blocks. */
  lemma FullOwner(v: seq<Block>, t: seq<Inode>, owner: map<nat, Key>)
    requires TreesOk(v, t, owner)
    requires NoFree(v)
    ensures |owner| == Capacity(|v|)
  {
    OwnerCountsBits(v[2], owner);
    BelowSize(Capacity(|v|));
    forall i: nat | i in SetBits(v[2]) ensures i in Below(Capacity(|v|)) {
      assert BLOCK_START + i in owner;
    }
    assert SetBits(v[2]) == Below(Capacity(|v|));
  }

  /** The trees never hold more blocks than the bitmap can hand out. */
  lemma OwnerBound(v: seq<Block>, t: seq<Inode>, owner: map<nat, Key>)
    requires TreesOk(v, t, owner)
    ensures |owner| <= Capacity(|v|)
  {
    OwnerCountsBits(v[2], owner);
    BelowSize(Capacity(|v|));
    forall i: nat | i in SetBits(v[2]) ensures i in Below(Capacity(|v|)) {
      assert BLOCK_START + i in owner;
    }
    SubsetSize(SetBits(v[2]), Below(Capacity(|v|)));
  }

  lemma {:induction false} SubsetSize<T>(x: set<T>, y: set<T>)
    requires x <= y
    ensures |x| <= |y|
    decreases x
  {
    if x != {} {
      var e :| e in x;
      SubsetSize(x - {e}, y - {e});
    }
  }

  ghost function Below(n: nat): (r: set<nat>)
    ensures forall i: nat :: i in r <==> i < n
  {
    if n == 0 then {} else Below(n - 1) + {n - 1}
  }

  lemma {:induction false} BelowSize(n: nat)
    ensures |Below(n)| == n
  {
    if n > 0 { BelowSize(n - 1); }
  }
}
