/** The tree of blocks hanging off one inode's thirteen pointers, and the ownership
    discipline that keeps the trees of all inodes apart.

    A slot names one place where a block number can be stored: one of the thirteen
    pointers of the inode, or a word inside a block that another slot points to. */
module BlockTree {
  import opened Bytes

  const NDIRECT := 10
  const NADDRS := 13
  const DPTRS := IPTRS * IPTRS
  const MAXBLOCKS := NDIRECT + 2 * IPTRS + DPTRS
  const MAXSIZE := BSIZE * MAXBLOCKS
  const BLOCK_START := 35

  datatype Slot = Top(i: nat) | Sub(parent: Slot, j: nat)

  type Addrs = a: seq<uint32> | |a| == NADDRS witness seq(NADDRS, _ => 0)

  /** The slots whose block holds further pointers. */
  predicate Interior(s: Slot) {
    match s
    case Top(i) => NDIRECT <= i < NADDRS
    case Sub(q, j) => q == Top(12) && j < IPTRS
  }

  predicate Good(s: Slot) {
    match s
    case Top(i) => i < NADDRS
    case Sub(q, j) => Interior(q) && j < IPTRS
  }

  predicate Leaf(s: Slot) {
    Good(s) && !Interior(s)
  }

  /** The block number stored in a slot, 0 when the slot or one above it is empty. */
  function At(v: seq<Block>, a: Addrs, s: Slot): uint32 {
    match s
    case Top(i) => if i < NADDRS then a[i] else 0
    case Sub(q, j) =>
      var p := At(v, a, q);
      if p == 0 || |v| <= p || IPTRS <= j then 0 else Word(v[p], j)
  }

  /** The leaf slot that holds logical block `b`. */
  function LeafOf(b: nat): (s: Slot)
    ensures b < MAXBLOCKS <==> Leaf(s)
  {
    if b < NDIRECT then Top(b)
    else if b < NDIRECT + IPTRS then Sub(Top(10), b - NDIRECT)
    else if b < NDIRECT + 2 * IPTRS then Sub(Top(11), b - NDIRECT - IPTRS)
    else
      var d := b - NDIRECT - 2 * IPTRS;
      Sub(Sub(Top(12), d / IPTRS), d % IPTRS)
  }

  /** The logical block held by a leaf slot. */
  function BlockOf(s: Slot): (b: nat)
    requires Leaf(s)
    ensures b < MAXBLOCKS
  {
    match s
    case Top(i) => i
    case Sub(Top(k), j) => NDIRECT + (k - NDIRECT) * IPTRS + j
    case Sub(Sub(_, i), j) => NDIRECT + 2 * IPTRS + i * IPTRS + j
  }

  lemma LeafBlockInverse(b: nat, s: Slot)
    requires b < MAXBLOCKS && Leaf(s)
    ensures BlockOf(LeafOf(b)) == b
    ensures LeafOf(BlockOf(s)) == s
  {
    match s
    case Top(_) =>
    case Sub(Top(_), _) =>
    case Sub(Sub(_, i), j) => assert (i * IPTRS + j) / IPTRS == i && (i * IPTRS + j) % IPTRS == j;
  }

  /** The physical block of logical block `b`, 0 when unmapped: what `bmap` without
      allocation returns. */
  function Lookup(v: seq<Block>, a: Addrs, b: nat): uint32 {
    if b < MAXBLOCKS then At(v, a, LeafOf(b)) else 0
  }

  /** The bytes of logical block `b`. */
  function Data(v: seq<Block>, a: Addrs, b: nat): Block {
    var p := Lookup(v, a, b);
    if p == 0 || |v| <= p then Zero() else v[p]
  }

  // ---------------------------------------------------------------- ownership

  datatype Key = Key(inum: nat, slot: Slot)

  /** `owner` is exactly the inverse of the pointers stored in all trees: a block is
      pointed to by at most one slot of one inode, and lies in the data region. */
  ghost predicate Owned(v: seq<Block>, t: seq<Addrs>, owner: map<nat, Key>) {
    && (forall i, s :: 0 <= i < |t| && Good(s) && At(v, t[i], s) != 0 ==>
          At(v, t[i], s) in owner && owner[At(v, t[i], s)] == Key(i, s))
    && (forall p :: p in owner ==>
          && BLOCK_START <= p < |v| && owner[p].inum < |t| && Good(owner[p].slot)
          && At(v, t[owner[p].inum], owner[p].slot) == p)
  }

  /** Two device states that agree on every block a tree reads its pointers from. */
  ghost predicate SameInterior(v: seq<Block>, v': seq<Block>, a: Addrs) {
    && |v'| == |v|
    && forall q :: Good(q) && Interior(q) && 0 < At(v, a, q) < |v| ==> v'[At(v, a, q)] == v[At(v, a, q)]
  }

  lemma {:induction false} AtFrame(v: seq<Block>, v': seq<Block>, a: Addrs, s: Slot)
    requires SameInterior(v, v', a) && Good(s)
    ensures At(v', a, s) == At(v, a, s)
  {
    match s
    case Top(_) =>
    case Sub(q, _) =>
      assert Good(q);
      AtFrame(v, v', a, q);
  }

  lemma OwnedSame(v: seq<Block>, v': seq<Block>, t: seq<Addrs>, owner: map<nat, Key>)
    requires Owned(v, t, owner) && |v'| == |v|
    requires forall i, s :: 0 <= i < |t| && Good(s) ==> At(v', t[i], s) == At(v, t[i], s)
    ensures Owned(v', t, owner)
  {
    hide At, Good;
  }

  lemma InteriorKept(v: seq<Block>, v': seq<Block>, t: seq<Addrs>, owner: map<nat, Key>, i: nat)
    requires Owned(v, t, owner) && |v'| == |v| && i < |t|
    requires forall p :: p in owner && Interior(owner[p].slot) ==> v'[p] == v[p]
    ensures SameInterior(v, v', t[i])
  {
    hide At, Good, Interior;
  }

  /** Changing blocks that no interior slot points to leaves every pointer alone. */
  lemma {:induction false} OwnedFrame(v: seq<Block>, v': seq<Block>, t: seq<Addrs>, owner: map<nat, Key>)
    requires Owned(v, t, owner) && |v'| == |v|
    requires forall p :: p in owner && Interior(owner[p].slot) ==> v'[p] == v[p]
    ensures Owned(v', t, owner)
    ensures forall i, s :: 0 <= i < |t| && Good(s) ==> At(v', t[i], s) == At(v, t[i], s)
  {
    hide At, Owned, SameInterior;
    forall i, s | 0 <= i < |t| && Good(s)
      ensures At(v', t[i], s) == At(v, t[i], s)
    {
      InteriorKept(v, v', t, owner, i);
      AtFrame(v, v', t[i], s);
    }
    OwnedSame(v, v', t, owner);
  }

  // ---------------------------------------------------------------- growing a tree

  /** The device after block `p` has been hung on the empty slot `s` of the tree `a`:
      a new pointer block is zeroed, and the pointer goes into the inode or into the
      block of the parent slot. Blocks below the data region are not constrained. */
  ghost predicate Hung(v: seq<Block>, a: Addrs, s: Slot, p: uint32, v': seq<Block>, a': Addrs) {
    && |v'| == |v| && BLOCK_START <= p < |v| && Good(s)
    && (Interior(s) ==> v'[p] == Zero())
    && match s
       case Top(i) =>
         && a' == a[i := p]
         && (forall b :: BLOCK_START <= b < |v| && b != p ==> v'[b] == v[b])
       case Sub(q, j) =>
         && a' == a
         && BLOCK_START <= At(v, a, q) < |v| && At(v, a, q) != p
         && v'[At(v, a, q)] == SetWord(v[At(v, a, q)], j, p)
         && (forall b :: BLOCK_START <= b < |v| && b != p && b != At(v, a, q) ==> v'[b] == v[b])
  }

  lemma ZeroWords(j: nat)
    requires j < IPTRS
    ensures Word(Zero(), j) == 0
  {
  }

  /** Hanging a block that nobody owns changes exactly one slot of exactly one inode. */
  lemma {:induction false} HungAt(v: seq<Block>, t: seq<Addrs>, owner: map<nat, Key>, n: nat, s: Slot, p: uint32,
                                  v': seq<Block>, a': Addrs, i: nat, u: Slot)
    requires Owned(v, t, owner) && n < |t| && Hung(v, t[n], s, p, v', a')
    requires p !in owner && At(v, t[n], s) == 0
    requires i < |t| && Good(u)
    ensures At(v', t[n := a'][i], u) == if i == n && u == s then p else At(v, t[i], u)
  {
    match u
    case Top(_) =>
    case Sub(q, j) =>
      assert Good(q);
      HungAt(v, t, owner, n, s, p, v', a', i, q);
      var b := At(v, t[i], q);
      if i == n && q == s {
        ZeroWords(j);
      } else if b != 0 {
        assert owner[b] == Key(i, q) && b != p;
        if s.Sub? && b == At(v, t[n], s.parent) {
          assert Good(s.parent);
          WordOfSetWord(v[b], s.j, p, j);
        }
      }
  }

  /** The same pointers but for slot `s` of inode `n`, which now holds `p`. */
  ghost predicate OneMore(v: seq<Block>, t: seq<Addrs>, v': seq<Block>, t': seq<Addrs>, n: nat, s: Slot, p: uint32) {
    && |t'| == |t| && |v'| == |v|
    && forall i, u :: 0 <= i < |t| && Good(u) ==> At(v', t'[i], u) == if i == n && u == s then p else At(v, t[i], u)
  }

  lemma OneMoreSlot(v: seq<Block>, t: seq<Addrs>, owner: map<nat, Key>, v': seq<Block>, t': seq<Addrs>,
                    n: nat, s: Slot, p: uint32, i: nat, u: Slot)
    requires Owned(v, t, owner) && OneMore(v, t, v', t', n, s, p) && p !in owner && i < |t| && Good(u)
    ensures var owner' := owner[p := Key(n, s)]; var q := At(v', t'[i], u);
      q != 0 ==> q in owner' && owner'[q] == Key(i, u)
  {
    hide At, Good;
    assert At(v', t'[i], u) == if i == n && u == s then p else At(v, t[i], u);
  }

  lemma OneMoreBlock(v: seq<Block>, t: seq<Addrs>, owner: map<nat, Key>, v': seq<Block>, t': seq<Addrs>,
                     n: nat, s: Slot, p: uint32, q: nat)
    requires Owned(v, t, owner) && OneMore(v, t, v', t', n, s, p) && p !in owner && n < |t| && Good(s)
    requires BLOCK_START <= p < |v| && At(v, t[n], s) == 0 && q in owner[p := Key(n, s)]
    ensures var key := owner[p := Key(n, s)][q];
      BLOCK_START <= q < |v'| && key.inum < |t'| && Good(key.slot) && At(v', t'[key.inum], key.slot) == q
  {
    hide At, Good;
    if q != p {
      assert At(v, t[owner[q].inum], owner[q].slot) == q;
    }
  }

  lemma OneMoreOwned(v: seq<Block>, t: seq<Addrs>, owner: map<nat, Key>, v': seq<Block>, t': seq<Addrs>,
                     n: nat, s: Slot, p: uint32)
    requires Owned(v, t, owner) && OneMore(v, t, v', t', n, s, p) && p !in owner && n < |t| && Good(s)
    requires BLOCK_START <= p < |v| && At(v, t[n], s) == 0
    ensures Owned(v', t', owner[p := Key(n, s)])
  {
    hide At, Good;
    var owner' := owner[p := Key(n, s)];
    forall i, u | 0 <= i < |t'| && Good(u) && At(v', t'[i], u) != 0
      ensures At(v', t'[i], u) in owner' && owner'[At(v', t'[i], u)] == Key(i, u)
    {
      OneMoreSlot(v, t, owner, v', t', n, s, p, i, u);
    }
    forall q | q in owner'
      ensures BLOCK_START <= q < |v'| && owner'[q].inum < |t'| && Good(owner'[q].slot)
      ensures At(v', t'[owner'[q].inum], owner'[q].slot) == q
    {
      OneMoreBlock(v, t, owner, v', t', n, s, p, q);
    }
  }

  lemma {:induction false} HungOwned(v: seq<Block>, t: seq<Addrs>, owner: map<nat, Key>, n: nat, s: Slot, p: uint32,
                                     v': seq<Block>, a': Addrs)
    requires Owned(v, t, owner) && n < |t| && Hung(v, t[n], s, p, v', a')
    requires p !in owner && At(v, t[n], s) == 0
    ensures Owned(v', t[n := a'], owner[p := Key(n, s)])
    ensures forall i, u :: 0 <= i < |t| && Good(u) ==>
              At(v', t[n := a'][i], u) == if i == n && u == s then p else At(v, t[i], u)
  {
    hide At, Owned;
    var t', owner' := t[n := a'], owner[p := Key(n, s)];
    forall i, u | 0 <= i < |t| && Good(u)
      ensures At(v', t'[i], u) == if i == n && u == s then p else At(v, t[i], u)
    {
      HungAt(v, t, owner, n, s, p, v', a', i, u);
    }
    OneMoreOwned(v, t, owner, v', t', n, s, p);
  }
}
