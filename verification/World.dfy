/** The state of a mounted file system as values, and what each elementary step does to it. */
module World {
  import opened Bytes
  import opened Results
  import opened BlockTree
  import opened Bitmap
  import opened Inodes
  import opened Growth
  import opened Files
  import opened InodeCache

  const MAGIC_NUM: uint32 := 0x20041216

  datatype Superblock = Superblock(magic: uint32, size: uint32, ndataBlocks: uint32, ninodeBlocks: uint32,
                                   ndataBlocksBitmapBlocks: uint32, ninodeBlocksBitmapBlocks: uint32,
                                   bmapstart: uint32, inodeStart: uint32, inodeBitmapStart: uint32, blockStart: uint32)

  /** `sbinit`: superblock 0, inode bitmap 1, data bitmap 2, inodes 3..34, data from 35. */
  function SbInit(nblocks: uint32): (s: Superblock)
    requires BLOCK_START <= nblocks
    ensures s.inodeBitmapStart == 1 && s.bmapstart == 2 && s.inodeStart == INODE_START && s.blockStart == BLOCK_START
    ensures s.blockStart + s.ndataBlocks == s.size == nblocks
    ensures s.inodeStart + s.ninodeBlocks == s.blockStart && s.ninodeBlocks * INODES_PER_BLOCK == NINODES
  {
    var inodeBitmapStart := 1;
    var bmapstart := inodeBitmapStart + 1;
    var inodeStart := bmapstart + 1;
    var blockStart := inodeStart + 32;
    Superblock(MAGIC_NUM, nblocks, nblocks - blockStart, 32, 1, 1, bmapstart, inodeStart, inodeBitmapStart, blockStart)
  }

  /** Everything that holds between operations, on values. */
  ghost predicate Sound(ss: seq<CacheSlot>, t: seq<Inode>, refs: seq<nat>, v: seq<Block>, owner: map<nat, Key>) {
    TableOk(ss, t, refs, v) && TreesOk(v, t, owner)
  }

  /** An unused slot of the inode cache. */
  function NoInode(): (ino: Inode)
    ensures ino.inum == EMPTY
  {
    Inode(EMPTY, 0, 0, 0, 0, 0, 0, 0, 0, 0, 0, 0, seq(NADDRS, _ => 0), seq(7, _ => 0))
  }

  /** The cached inode in slot `k` with new pointers and a new block counter. */
  function Regrown(s: CacheSlot, a: Addrs): CacheSlot {
    s.(ino := s.ino.(addrs := a, blocks := Add32(s.ino.blocks, 1)))
  }

  /** The device after `write_block`; a number out of range is ignored. */
  function BlockWritten(v: seq<Block>, bno: int, d: Block): seq<Block> {
    if 0 <= bno < |v| then v[bno := d] else v
  }

  /** Block 0, which holds the superblock: zeroed, or left alone. */
  predicate Super(v: seq<Block>, v': seq<Block>, wiped: bool) {
    0 < |v| == |v'| && v'[0] == if wiped then Zero() else v[0]
  }

  /** Block 0 is left alone, if there is one. */
  predicate SameSuper(v: seq<Block>, v': seq<Block>) {
    |v'| == |v| && (|v| > 0 ==> v'[0] == v[0])
  }

  lemma SuperTrans(v: seq<Block>, v1: seq<Block>, v2: seq<Block>, x: bool, y: bool)
    requires Super(v, v1, x) && Super(v1, v2, y)
    ensures Super(v, v2, x || y)
  {
  }

  /** One pointer has been filled, or nothing was left to fill it with. In the second case a
      new pointer block would have been zeroed, and block 0 is zeroed in its place. */
  ghost predicate Filled1(ss: seq<CacheSlot>, t: seq<Inode>, refs: seq<nat>, v: seq<Block>, owner: map<nat, Key>,
                          k: nat, s: Slot, p: uint32, a': Addrs,
                          v': seq<Block>, t': seq<Inode>, owner': map<nat, Key>, added: set<Slot>)
    requires k < |ss| && ss[k].ino.inum < |t|
  {
    && t' == t[ss[k].ino.inum := Regrown(ss[k], a').ino]
    && Sound(ss[k := Regrown(ss[k], a')], t', refs, v', owner')
    && Grew(v, t, owner, v', t', owner', ss[k].ino.inum, added)
    && At(v', a', s) == p
    && added == (if p != 0 then {s} else {})
    && (p == 0 ==> |owner'| == Capacity(|v'|))
    && Super(v, v', p == 0 && Interior(s))
  }

  ghost predicate Allocated(v: seq<Block>, p: uint32, v1: seq<Block>)
    requires BLOCK_START <= |v|
  {
    if p != 0 then Took(v, p, v1) else v1 == v && NoFree(v)
  }

  lemma GrowTopStep(ss: seq<CacheSlot>, t: seq<Inode>, refs: seq<nat>, v: seq<Block>, owner: map<nat, Key>,
                    k: nat, i: nat, p: uint32, v1: seq<Block>)
    returns (t': seq<Inode>, owner': map<nat, Key>, added: set<Slot>)
    requires Sound(ss, t, refs, v, owner) && k < |ss| && ss[k].ino.inum < NINODES
    requires i < NADDRS && ss[k].ino.addrs[i] == 0 && Allocated(v, p, v1)
    ensures Filled1(ss, t, refs, v, owner, k, Top(i), p, ss[k].ino.addrs[i := p],
                    if i >= NDIRECT then BlockWritten(v1, p, Zero()) else v1, t', owner', added)
  {
    var n, a' := ss[k].ino.inum, ss[k].ino.addrs[i := p];
    assert SlotOk(ss[k], t, refs);
    var v' := if i >= NDIRECT then BlockWritten(v1, p, Zero()) else v1;
    t' := t[n := Regrown(ss[k], a').ino];
    if p != 0 {
      owner', added := owner[p := Key(n, Top(i))], {Top(i)};
      GrowStep(ss, t, refs, v, owner, k, Top(i), p, v1, v', a');
    } else {
      owner', added := owner, {};
      assert a' == ss[k].ino.addrs;
      GrowFailed(ss, t, refs, v, owner, k, v');
    }
  }

  lemma HungSub(v: seq<Block>, a: Addrs, q: Slot, j: nat, p: uint32, v1: seq<Block>)
    requires BLOCK_START <= |v| && Took(v, p, v1) && Good(Sub(q, j))
    requires BLOCK_START <= At(v, a, q) < |v| && At(v, a, q) != p
    ensures var b, v2 := At(v, a, q), if Interior(Sub(q, j)) then BlockWritten(v1, p, Zero()) else v1;
      var v' := BlockWritten(v2, b, SetWord(v[b], j, p));
      Hung(v, a, Sub(q, j), p, v', a) && |v'| == |v| && forall m :: 1 <= m < BLOCK_START ==> v'[m] == v1[m]
  {
  }

  lemma GrowSubStep(ss: seq<CacheSlot>, t: seq<Inode>, refs: seq<nat>, v: seq<Block>, owner: map<nat, Key>,
                    k: nat, q: Slot, j: nat, p: uint32, v1: seq<Block>, buf: Block)
    returns (t': seq<Inode>, owner': map<nat, Key>, added: set<Slot>)
    requires Sound(ss, t, refs, v, owner) && k < |ss| && ss[k].ino.inum < NINODES
    requires Good(Sub(q, j)) && At(v, ss[k].ino.addrs, q) != 0 && Allocated(v, p, v1)
    requires At(v, ss[k].ino.addrs, q) < |v| && buf == v[At(v, ss[k].ino.addrs, q)] && Word(buf, j) == 0
    ensures Filled1(ss, t, refs, v, owner, k, Sub(q, j), p, ss[k].ino.addrs,
                    BlockWritten(if Interior(Sub(q, j)) then BlockWritten(v1, p, Zero()) else v1,
                            At(v, ss[k].ino.addrs, q), SetWord(buf, j, p)),
                    t', owner', added)
  {
    hide Owned, Took, NoFree, Hung, Good, Interior, Marked, Word, SetWord, Grew;
    var n, a, b := ss[k].ino.inum, ss[k].ino.addrs, At(v, ss[k].ino.addrs, q);
    assert SlotOk(ss[k], t, refs);
    ParentOwned(v, t, owner, n, q, j);
    var v2 := if Interior(Sub(q, j)) then BlockWritten(v1, p, Zero()) else v1;
    var v' := BlockWritten(v2, b, SetWord(buf, j, p));
    t' := t[n := Regrown(ss[k], a).ino];
    AllocatedSuper(v, p, v1);
    if p != 0 {
      TookFresh(v, owner, p, v1);
      owner', added := owner[p := Key(n, Sub(q, j))], {Sub(q, j)};
      HungSub(v, a, q, j, p, v1);
      GrowStep(ss, t, refs, v, owner, k, Sub(q, j), p, v1, v', a);
    } else {
      owner', added := owner, {};
      SetWordSame(buf, j);
      GrowFailed(ss, t, refs, v, owner, k, v');
    }
  }

  lemma AllocatedSuper(v: seq<Block>, p: uint32, v1: seq<Block>)
    requires BLOCK_START <= |v| && Allocated(v, p, v1)
    ensures Super(v, v1, false) && (p != 0 ==> BLOCK_START <= p)
  {
  }

  lemma TookFresh(v: seq<Block>, owner: map<nat, Key>, p: uint32, v1: seq<Block>)
    requires BLOCK_START <= |v| && Took(v, p, v1) && Marked(v[2], owner)
    ensures p !in owner
  {
    UnmarkedUnowned(v[2], owner, p);
  }

  lemma ParentOwned(v: seq<Block>, t: seq<Inode>, owner: map<nat, Key>, n: nat, q: Slot, j: nat)
    requires Owned(v, Trees(t), owner) && n < |t| && Good(Sub(q, j)) && At(v, t[n].addrs, q) != 0
    ensures Good(q) && Interior(q)
    ensures BLOCK_START <= At(v, t[n].addrs, q) < |v| && At(v, t[n].addrs, q) in owner
    ensures owner[At(v, t[n].addrs, q)] == Key(n, q)
    ensures j < IPTRS && At(v, t[n].addrs, Sub(q, j)) == Word(v[At(v, t[n].addrs, q)], j)
  {
    hide Owned;
    PointerOwned(v, t, owner, n, q);
  }

  lemma PointerOwned(v: seq<Block>, t: seq<Inode>, owner: map<nat, Key>, n: nat, q: Slot)
    requires Owned(v, Trees(t), owner) && n < |t| && Good(q) && At(v, t[n].addrs, q) != 0
    ensures BLOCK_START <= At(v, t[n].addrs, q) < |v| && At(v, t[n].addrs, q) in owner
    ensures owner[At(v, t[n].addrs, q)] == Key(n, q)
  {
    hide At, Good;
    assert At(v, Trees(t)[n], q) == At(v, t[n].addrs, q);
  }

  lemma GrowStep(ss: seq<CacheSlot>, t: seq<Inode>, refs: seq<nat>, v: seq<Block>, owner: map<nat, Key>,
                 k: nat, s: Slot, p: uint32, v1: seq<Block>, v': seq<Block>, a': Addrs)
    requires Sound(ss, t, refs, v, owner) && k < |ss| && ss[k].ino.inum != EMPTY
    requires ss[k].ino.inum < NINODES && t[ss[k].ino.inum] == ss[k].ino && At(v, ss[k].ino.addrs, s) == 0
    requires Took(v, p, v1) && |v'| == |v| && forall b :: 1 <= b < BLOCK_START ==> v'[b] == v1[b]
    requires Hung(v, ss[k].ino.addrs, s, p, v', a')
    ensures var n, x := ss[k].ino.inum, Regrown(ss[k], a');
      && p !in owner && At(v', a', s) == p
      && Sound(ss[k := x], t[n := x.ino], refs, v', owner[p := Key(n, s)])
      && Grew(v, t, owner, v', t[n := x.ino], owner[p := Key(n, s)], n, {s})
  {
    var n, x := ss[k].ino.inum, Regrown(ss[k], a');
    HungGrew(v, t, owner, n, s, p, v1, v', x.ino);
    RegrownTable(ss, t, refs, v, v', k, a');
  }

  lemma RegrownTable(ss: seq<CacheSlot>, t: seq<Inode>, refs: seq<nat>, v: seq<Block>, v': seq<Block>, k: nat, a': Addrs)
    requires TableOk(ss, t, refs, v) && k < |ss| && ss[k].ino.inum != EMPTY && |v'| == |v|
    requires forall b :: INODE_START <= b < BLOCK_START ==> v'[b] == v[b]
    ensures ss[k].ino.inum < NINODES && t[ss[k].ino.inum] == ss[k].ino
    ensures TableOk(ss[k := Regrown(ss[k], a')], t[ss[k].ino.inum := Regrown(ss[k], a').ino], refs, v')
  {
    assert SlotOk(ss[k], t, refs);
    TableFrame(ss, t, refs, v, v');
    SlotStep(ss, t, refs, v', k, Regrown(ss[k], a'));
    assert refs[ss[k].ino.inum := ss[k].refs] == refs;
  }

  lemma GrowFailed(ss: seq<CacheSlot>, t: seq<Inode>, refs: seq<nat>, v: seq<Block>, owner: map<nat, Key>, k: nat, v': seq<Block>)
    requires Sound(ss, t, refs, v, owner) && k < |ss| && ss[k].ino.inum != EMPTY
    requires NoFree(v) && |v'| == |v| && forall b :: 1 <= b < |v| ==> v'[b] == v[b]
    ensures ss[k].ino.inum < NINODES && t[ss[k].ino.inum] == ss[k].ino
    ensures var n, x := ss[k].ino.inum, Regrown(ss[k], ss[k].ino.addrs);
      && Sound(ss[k := x], t[n := x.ino], refs, v', owner)
      && Grew(v, t, owner, v', t[n := x.ino], owner, n, {})
      && |owner| == Capacity(|v|)
    ensures forall u :: Good(u) && At(v, ss[k].ino.addrs, u) == 0 ==> At(v', ss[k].ino.addrs, u) == 0
  {
    RegrownTable(ss, t, refs, v, v', k, ss[k].ino.addrs);
    FailedGrew(v, t, owner, ss[k].ino.inum, v', Regrown(ss[k], ss[k].ino.addrs).ino);
    FullOwner(v, t, owner);
  }

  /** The values a file system consists of. */
  datatype World = World(ss: seq<CacheSlot>, t: seq<Inode>, refs: seq<nat>, v: seq<Block>, owner: map<nat, Key>)

  ghost predicate SoundWorld(w: World) {
    Sound(w.ss, w.t, w.refs, w.v, w.owner)
  }

  /** The inode in cache slot `k` has grown by `added`, all of it on `path`; its other
      fields, the other slots and all reference counts are the same. */
  ghost predicate Extended(w: World, w': World, k: nat, path: set<Slot>, added: set<Slot>) {
    && k < |w.ss| && w.ss[k].ino.inum < NINODES == |w.t| && SoundWorld(w')
    && w'.refs == w.refs && |w'.ss| == |w.ss|
    && w'.ss == w.ss[k := w'.ss[k]]
    && w'.ss[k] == w.ss[k].(ino := w.ss[k].ino.(addrs := w'.ss[k].ino.addrs, blocks := w'.ss[k].ino.blocks))
    && w'.t == w.t[w.ss[k].ino.inum := w'.ss[k].ino]
    && Grew(w.v, w.t, w.owner, w'.v, w'.t, w'.owner, w.ss[k].ino.inum, added)
    && added <= path
  }

  lemma ExtendedRefl(w: World, k: nat)
    requires SoundWorld(w) && k < |w.ss| && w.ss[k].ino.inum < NINODES
    ensures Extended(w, w, k, {}, {})
  {
    hide TreesOk;
    assert SlotOk(w.ss[k], w.t, w.refs);
    GrewRefl(w.v, w.t, w.owner, w.ss[k].ino.inum);
  }

  lemma ExtendedTrans(w: World, w1: World, w2: World, k: nat, p1: set<Slot>, p2: set<Slot>, d1: set<Slot>, d2: set<Slot>)
    requires Extended(w, w1, k, p1, d1) && Extended(w1, w2, k, p2, d2)
    ensures Extended(w, w2, k, p1 + p2, d1 + d2) && |d1 + d2| == |d1| + |d2|
  {
    hide SoundWorld, GrewSlots, KeptData, SameTree, KeptOthers;
    AdvancedTrans(w.v, w.t, w.owner, w1.v, w1.t, w1.owner, w2.v, w2.t, w2.owner, w.ss[k].ino.inum, d1, d2);
  }

  /** The block number stored in slot `s` of the inode cached in `k`. */
  function Ptr(w: World, k: nat, s: Slot): uint32
    requires k < |w.ss|
  {
    At(w.v, w.ss[k].ino.addrs, s)
  }

  /** An attempt to fill the empty slot `s`: it now holds a fresh block, or the disk is full. */
  ghost predicate Tried(w: World, w': World, k: nat, s: Slot, added: set<Slot>) {
    && Extended(w, w', k, {s}, added)
    && added == (if Ptr(w', k, s) != 0 then {s} else {})
    && (Ptr(w', k, s) == 0 ==> |w'.owner| == Capacity(|w'.v|))
    && w'.ss[k].ino.blocks == Counted(w.ss[k].ino.blocks, 1)
    && Super(w.v, w'.v, Interior(s) && Ptr(w', k, s) == 0)
  }

  /** `blocks++`, `n` times. */
  function Counted(b: uint32, n: nat): uint32 {
    (b + n) % 0x1_0000_0000
  }

  lemma Filled1Tried(w: World, w': World, k: nat, s: Slot, p: uint32, added: set<Slot>)
    requires SoundWorld(w) && k < |w.ss| && w.ss[k].ino.inum < NINODES && Good(s) && Ptr(w, k, s) == 0
    requires |w'.ss| == |w.ss| && w'.refs == w.refs && w'.ss == w.ss[k := Regrown(w.ss[k], w'.ss[k].ino.addrs)]
    requires Filled1(w.ss, w.t, w.refs, w.v, w.owner, k, s, p, w'.ss[k].ino.addrs, w'.v, w'.t, w'.owner, added)
    ensures Tried(w, w', k, s, added) && Ptr(w', k, s) == p
  {
    hide Sound, KeptData, SameTree, KeptOthers;
    assert w'.ss[k] == Regrown(w.ss[k], w'.ss[k].ino.addrs);
    assert SlotOk(w.ss[k], w.t, w.refs) by { SoundSlot(w, k); }
  }

  lemma SoundSlot(w: World, k: nat)
    requires SoundWorld(w) && k < |w.ss| && w.ss[k].ino.inum < NINODES
    ensures |w.t| == |w.refs| == NINODES && SlotOk(w.ss[k], w.t, w.refs) && w.t[w.ss[k].ino.inum] == w.ss[k].ino
    ensures BLOCK_START <= |w.v| && w.refs[w.ss[k].ino.inum] == w.ss[k].refs > 0
  {
    hide TreesOk;
    assert SlotOk(w.ss[k], w.t, w.refs);
  }

  lemma TopPtr(w: World, k: nat, i: nat)
    requires k < |w.ss| && i < NADDRS
    ensures Ptr(w, k, Top(i)) == w.ss[k].ino.addrs[i] && Good(Top(i))
  {
  }

  lemma SubPtr(w: World, k: nat, q: Slot, j: nat)
    requires k < |w.ss| && 0 < Ptr(w, k, q) < |w.v| && j < IPTRS
    ensures Ptr(w, k, Sub(q, j)) == Word(w.v[Ptr(w, k, q)], j)
  {
  }

  /** On the way to slot `s` a pointer block is missing. */
  predicate NoPointers(w: World, k: nat, s: Slot)
    requires k < |w.ss|
  {
    if Interior(s) then Ptr(w, k, s) == 0 else s.Sub? && Ptr(w, k, s.parent) == 0
  }

  /** What looking up slot `s`, allocating on the way if asked to, has done: only slots on
      its path were filled, each with a fresh block; if it is still empty the disk is full;
      the block counter has grown by the blocks allocated, plus one for a failed attempt;
      the superblock is zeroed exactly when the attempt that failed was for a pointer block. */
  ghost predicate Mapping(w: World, w': World, k: nat, s: Slot, alloc: bool, added: set<Slot>) {
    && Extended(w, w', k, Path(s), added)
    && (!alloc ==> w' == w && added == {})
    && (alloc && Ptr(w', k, s) == 0 ==> |w'.owner| == Capacity(|w'.v|))
    && (alloc ==> w'.ss[k].ino.blocks == Counted(w.ss[k].ino.blocks, |added| + if Ptr(w', k, s) == 0 then 1 else 0))
    && Super(w.v, w'.v, alloc && NoPointers(w', k, s))
  }

  /** One level: nothing to do, or an attempt to fill the slot. */
  ghost predicate MapLevel(w: World, w': World, k: nat, s: Slot, alloc: bool, added: set<Slot>)
    requires k < |w.ss|
  {
    if Ptr(w, k, s) != 0 || !alloc then w' == w && added == {} else Tried(w, w', k, s, added)
  }

  lemma MapTopLevel(w: World, w': World, k: nat, i: nat, alloc: bool, added: set<Slot>)
    requires SoundWorld(w) && k < |w.ss| && w.ss[k].ino.inum < NINODES
    requires MapLevel(w, w', k, Top(i), alloc, added)
    ensures Mapping(w, w', k, Top(i), alloc, added)
  {
    hide SoundWorld, Grew, Extended, At;
    SoundSlot(w, k);
    ExtendedRefl(w, k);
    ExtendedPath(w, w', k, {}, {Top(i)}, added);
    ExtendedPath(w, w', k, {Top(i)}, {Top(i)}, added);
  }

  lemma ExtendedPath(w: World, w': World, k: nat, p: set<Slot>, p': set<Slot>, added: set<Slot>)
    requires p <= p'
    ensures Extended(w, w', k, p, added) ==> Extended(w, w', k, p', added)
    ensures Extended(w, w', k, p, added) ==> |w'.ss| == |w.ss| && SoundWorld(w') && k < |w.ss|
  {
    hide SoundWorld, Grew;
  }

  lemma MapSubLevel(w: World, w1: World, w2: World, k: nat, q: Slot, j: nat, alloc: bool, d1: set<Slot>, d2: set<Slot>)
    requires Mapping(w, w1, k, q, alloc, d1) && k < |w1.ss| && Good(Sub(q, j))
    requires if Ptr(w1, k, q) == 0 then w2 == w1 && d2 == {} else MapLevel(w1, w2, k, Sub(q, j), alloc, d2)
    ensures Mapping(w, w2, k, Sub(q, j), alloc, d1 + d2)
  {
    hide Mapping, Tried, At, Path;
    if Ptr(w1, k, q) == 0 || Ptr(w1, k, Sub(q, j)) != 0 || !alloc {
      MapSame(w, w1, k, q, j, alloc, d1);
      assert d1 + {} == d1;
    } else {
      MapTried(w, w1, w2, k, q, j, d1, d2);
    }
  }

  lemma MapSame(w: World, w1: World, k: nat, q: Slot, j: nat, alloc: bool, d1: set<Slot>)
    requires Mapping(w, w1, k, q, alloc, d1) && k < |w1.ss| && Good(Sub(q, j))
    requires Ptr(w1, k, q) == 0 || Ptr(w1, k, Sub(q, j)) != 0 || !alloc
    ensures Mapping(w, w1, k, Sub(q, j), alloc, d1)
  {
    hide Extended, At, Path;
    SubPath(w1, k, q, j);
    ExtendedPath(w, w1, k, Path(q), Path(Sub(q, j)), d1);
  }

  lemma MappingSound(w: World, w': World, k: nat, s: Slot, alloc: bool, added: set<Slot>)
    requires Mapping(w, w', k, s, alloc, added)
    ensures k < |w.ss| == |w'.ss| && SoundWorld(w') && w'.ss[k].ino.inum == w.ss[k].ino.inum < NINODES
    ensures !alloc ==> w' == w
  {
    hide SoundWorld, Grew, At, Path;
  }

  lemma PtrRange(w: World, k: nat, q: Slot, j: nat)
    requires SoundWorld(w) && k < |w.ss| && w.ss[k].ino.inum < NINODES && Good(Sub(q, j)) && Ptr(w, k, q) != 0
    ensures Good(q) && BLOCK_START <= Ptr(w, k, q) < |w.v|
  {
    SoundSlot(w, k);
    ParentOwned(w.v, w.t, w.owner, w.ss[k].ino.inum, q, j);
  }

  lemma MapTried(w: World, w1: World, w2: World, k: nat, q: Slot, j: nat, d1: set<Slot>, d2: set<Slot>)
    requires Mapping(w, w1, k, q, true, d1) && k < |w1.ss| && Ptr(w1, k, q) != 0 && Tried(w1, w2, k, Sub(q, j), d2)
    requires Good(Sub(q, j))
    ensures Mapping(w, w2, k, Sub(q, j), true, d1 + d2)
  {
    hide Mapping, Tried, Extended, Ptr, Path, Counted, Super;
    MappingParts(w, w1, k, q, d1);
    TriedParts(w1, w2, k, Sub(q, j), d2);
    SuperTrans(w.v, w1.v, w2.v, false, Interior(Sub(q, j)) && Ptr(w2, k, Sub(q, j)) == 0);
    SubPath(w2, k, q, j);
    ExtendedTrans(w, w1, w2, k, Path(q), {Sub(q, j)}, d1, d2);
    CountOne(w.ss[k].ino.blocks, |d1|);
    MappingIntro(w, w2, k, Sub(q, j), d1 + d2);
  }

  lemma MappingParts(w: World, w': World, k: nat, s: Slot, added: set<Slot>)
    requires Mapping(w, w', k, s, true, added) && k < |w'.ss| && Ptr(w', k, s) != 0
    ensures k < |w.ss| && Extended(w, w', k, Path(s), added)
    ensures w'.ss[k].ino.blocks == Counted(w.ss[k].ino.blocks, |added|)
    ensures Interior(s) ==> Super(w.v, w'.v, false)
    ensures SoundWorld(w')
  {
    hide SoundWorld, Grew, At, Path;
  }

  lemma TriedParts(w: World, w': World, k: nat, s: Slot, added: set<Slot>)
    requires Tried(w, w', k, s, added) && SoundWorld(w)
    ensures k < |w.ss| == |w'.ss| && Extended(w, w', k, {s}, added)
    ensures |added| == if Ptr(w', k, s) != 0 then 1 else 0
    ensures Ptr(w', k, s) == 0 ==> |w'.owner| == Capacity(|w'.v|)
    ensures w'.ss[k].ino.blocks == Counted(w.ss[k].ino.blocks, 1)
    ensures Super(w.v, w'.v, Interior(s) && Ptr(w', k, s) == 0)
    ensures forall u :: Good(u) && Ptr(w, k, u) != 0 ==> Ptr(w', k, u) != 0
  {
    hide SoundWorld, At;
    SoundSlot(w, k);
  }

  lemma MappingIntro(w: World, w': World, k: nat, s: Slot, added: set<Slot>)
    requires k < |w.ss| && k < |w'.ss| && Extended(w, w', k, Path(s), added)
    requires Ptr(w', k, s) == 0 ==> |w'.owner| == Capacity(|w'.v|)
    requires w'.ss[k].ino.blocks == Counted(w.ss[k].ino.blocks, |added| + if Ptr(w', k, s) == 0 then 1 else 0)
    requires Super(w.v, w'.v, NoPointers(w', k, s))
    ensures Mapping(w, w', k, s, true, added)
  {
    hide Extended, Ptr, Path, Interior;
    assert true && NoPointers(w', k, s) == NoPointers(w', k, s);
  }

  lemma CountOne(b: uint32, n: nat)
    ensures Counted(Counted(b, n), 1) == Counted(b, n + 1)
  {
  }

  lemma SubPath(w: World, k: nat, q: Slot, j: nat)
    requires k < |w.ss|
    ensures Path(Sub(q, j)) == Path(q) + {Sub(q, j)}
    ensures Ptr(w, k, q) == 0 ==> Ptr(w, k, Sub(q, j)) == 0
  {
  }

  // ---------------------------------------------------------------- inode records and file bytes

  /** `w` with the record of the inode cached in `k` stored on the device. */
  function StoredWorld(w: World, k: nat): World
    requires k < |w.ss| && w.ss[k].ino.inum < NINODES && BLOCK_START <= |w.v|
  {
    w.(v := Stored(w.v, w.ss[k].ino.inum, w.ss[k].ino, w.ss[k].refs % 0x1_0000_0000))
  }

  /** `iupdate` changes no inode and no file. */
  lemma StoredWorldSound(w: World, k: nat)
    requires SoundWorld(w) && k < |w.ss| && w.ss[k].ino.inum < NINODES
    ensures BLOCK_START <= |w.v| && SoundWorld(StoredWorld(w, k))
    ensures forall j :: 0 <= j < |w.t| ==> SameFile(w.v, w.t[j].addrs, StoredWorld(w, k).v)
  {
    SoundSlot(w, k);
    StoreStep(w.ss, w.t, w.refs, w.v, k, w.ss[k].refs % 0x1_0000_0000);
    StoredFiles(w, k, w.ss[k].refs % 0x1_0000_0000);
  }

  lemma StoredFiles(w: World, k: nat, r: uint32)
    requires SoundWorld(w) && k < |w.ss| && w.ss[k].ino.inum < NINODES
    ensures BLOCK_START <= |w.v|
    ensures TreesOk(Stored(w.v, w.ss[k].ino.inum, w.ss[k].ino, r), w.t, w.owner)
    ensures forall j :: 0 <= j < |w.t| ==> SameFile(w.v, w.t[j].addrs, Stored(w.v, w.ss[k].ino.inum, w.ss[k].ino, r))
  {
    var n, ino := w.ss[k].ino.inum, w.ss[k].ino;
    StoredTrees(w.v, w.t, w.owner, n, ino, r);
    hide Stored, TableOk;
    forall j | 0 <= j < |w.t| ensures SameFile(w.v, w.t[j].addrs, Stored(w.v, n, ino, r)) {
      DataAbove(w.v, w.t, w.owner, j, Stored(w.v, n, ino, r));
    }
  }

  lemma DataAbove(v: seq<Block>, t: seq<Inode>, owner: map<nat, Key>, j: nat, v': seq<Block>)
    requires Owned(v, Trees(t), owner) && j < |t| && SameTree(v, t[j].addrs, v') && |v'| == |v|
    requires forall b :: BLOCK_START <= b < |v| ==> v'[b] == v[b]
    ensures SameFile(v, t[j].addrs, v')
  {
    forall b: nat ensures Data(v', t[j].addrs, b) == Data(v, t[j].addrs, b) {
      assert Lookup(v', t[j].addrs, b) == Lookup(v, t[j].addrs, b);
      if Lookup(v, t[j].addrs, b) != 0 {
        PointerOwned(v, t, owner, j, LeafOf(b));
      }
    }
  }

  /** Assigning fields of a cached inode other than its number and its pointers. */
  function WithInode(w: World, k: nat, x: Inode): World
    requires k < |w.ss| && x.inum < |w.t|
  {
    w.(ss := w.ss[k := w.ss[k].(ino := x)], t := w.t[x.inum := x])
  }

  lemma WithInodeSound(w: World, k: nat, x: Inode)
    requires SoundWorld(w) && k < |w.ss| && w.ss[k].ino.inum < NINODES
    requires x.inum == w.ss[k].ino.inum && x.addrs == w.ss[k].ino.addrs
    ensures x.inum < |w.t| && SoundWorld(WithInode(w, k, x))
  {
    SoundSlot(w, k);
    SlotStep(w.ss, w.t, w.refs, w.v, k, w.ss[k].(ino := x));
    assert w.refs[x.inum := w.ss[k].refs] == w.refs;
    assert Trees(w.t[x.inum := x]) == Trees(w.t);
  }

  // ---------------------------------------------------------------- references

  /** One more reference to the inode cached in `k`. */
  function Referenced(w: World, k: nat): World
    requires k < |w.ss| && w.ss[k].ino.inum < |w.refs|
  {
    w.(ss := w.ss[k := w.ss[k].(refs := w.ss[k].refs + 1)],
       refs := w.refs[w.ss[k].ino.inum := w.refs[w.ss[k].ino.inum] + 1])
  }

  lemma ReferencedSound(w: World, k: nat)
    requires SoundWorld(w) && k < |w.ss| && w.ss[k].ino.inum < NINODES
    ensures |w.refs| == NINODES && SoundWorld(Referenced(w, k))
  {
    SoundSlot(w, k);
    SlotStep(w.ss, w.t, w.refs, w.v, k, w.ss[k].(refs := w.ss[k].refs + 1));
    assert w.t[w.ss[k].ino.inum := w.ss[k].ino] == w.t;
  }

  /** The first reference to inode `n`, loaded into the empty slot `k`. */
  function Loaded(w: World, k: nat, n: nat): World
    requires k < |w.ss| && n < |w.refs| && n < NINODES && BLOCK_START <= |w.v|
  {
    w.(ss := w.ss[k := CacheSlot(DiskInode(w.v, n), 1)], refs := w.refs[n := 1])
  }

  lemma LoadedSound(w: World, k: nat, n: nat)
    requires SoundWorld(w) && k < |w.ss| && w.ss[k].ino.inum == EMPTY && n < NINODES && !Held(w.ss, n)
    ensures |w.refs| == |w.t| == NINODES && BLOCK_START <= |w.v|
    ensures w.refs[n] == 0 && DiskInode(w.v, n) == w.t[n] && SoundWorld(Loaded(w, k, n))
  {
    hide TreesOk;
    LoadStep(w.ss, w.t, w.refs, w.v, k, n);
  }

  /** `iget` of inode `inum`: one more reference to it, in the slot that held it or in one
      that was empty. It fails, changing nothing, exactly when there is no such inode or
      neither slot exists. */
  ghost predicate Acquired(w: World, w': World, inum: uint32, r: Option<nat>) {
    && (r.None? <==> inum >= NINODES || (!Held(w.ss, inum) && !Held(w.ss, EMPTY)))
    && (r.None? ==> w' == w)
    && (r.Some? ==>
          && inum < |w.refs| && inum < |w.t| && r.value < |w.ss| && w.ss[r.value].ino.inum in {EMPTY, inum}
          && w' == w.(ss := w.ss[r.value := CacheSlot(w.t[inum], w.refs[inum] + 1)], refs := w.refs[inum := w.refs[inum] + 1]))
  }

  lemma NotAcquired(w: World, inum: uint32)
    ensures inum >= NINODES || (!Held(w.ss, inum) && !Held(w.ss, EMPTY)) ==> Acquired(w, w, inum, None)
  {
  }

  lemma HitAcquired(w: World, k: nat, inum: uint32)
    requires SoundWorld(w) && k < |w.ss| && w.ss[k].ino.inum == inum && inum < NINODES
    ensures inum < |w.refs| && Acquired(w, Referenced(w, k), inum, Some(k))
  {
    hide TreesOk;
    SoundSlot(w, k);
  }

  lemma MissAcquired(w: World, k: nat, inum: uint32)
    requires SoundWorld(w) && k < |w.ss| && w.ss[k].ino.inum == EMPTY && inum < NINODES && !Held(w.ss, inum)
    ensures |w.refs| == NINODES && BLOCK_START <= |w.v| && Acquired(w, Loaded(w, k, inum), inum, Some(k))
  {
    LoadedSound(w, k, inum);
    hide SoundWorld, DiskInode;
    assert w.ss[k].ino.inum == EMPTY;
  }

  /** One reference less; the last one stores the inode and empties the slot. */
  function Released(w: World, k: nat): World
    requires k < |w.ss| && w.ss[k].ino.inum < |w.refs| && w.ss[k].ino.inum < NINODES && BLOCK_START <= |w.v|
    requires w.ss[k].refs > 0
  {
    var n := w.ss[k].ino.inum;
    if w.ss[k].refs > 1 then
      w.(ss := w.ss[k := w.ss[k].(refs := w.ss[k].refs - 1)], refs := w.refs[n := w.ss[k].refs - 1])
    else
      w.(ss := w.ss[k := CacheSlot(NoInode(), 0)], refs := w.refs[n := 0], v := Stored(w.v, n, w.ss[k].ino, 0))
  }

  lemma ReleasedSound(w: World, k: nat)
    requires SoundWorld(w) && k < |w.ss| && w.ss[k].ino.inum < NINODES
    ensures |w.refs| == NINODES && BLOCK_START <= |w.v| && 0 < w.ss[k].refs == w.refs[w.ss[k].ino.inum]
    ensures SoundWorld(Released(w, k))
    ensures forall j :: 0 <= j < |w.t| ==> SameFile(w.v, w.t[j].addrs, Released(w, k).v)
  {
    SoundSlot(w, k);
    var n := w.ss[k].ino.inum;
    hide Owned, Stored, Data, SameTree;
    if w.ss[k].refs > 1 {
      SlotStep(w.ss, w.t, w.refs, w.v, k, w.ss[k].(refs := w.ss[k].refs - 1));
      assert w.t[n := w.ss[k].ino] == w.t;
      forall j | 0 <= j < |w.t| ensures SameFile(w.v, w.t[j].addrs, w.v) { SameFileRefl(w.v, w.t[j].addrs); }
    } else {
      StoreStep(w.ss, w.t, w.refs, w.v, k, 0);
      StoredFiles(w, k, 0);
      EvictStep(w.ss, w.t, w.refs, Stored(w.v, n, w.ss[k].ino, 0), k, CacheSlot(NoInode(), 0));
    }
  }

  lemma SameFileRefl(v: seq<Block>, a: Addrs)
    ensures SameFile(v, a, v)
  {
  }

  // ---------------------------------------------------------------- reading and writing

  /** How many bytes `readi` tries to read: `n`, cut at the end of the file unless
      `off + n` wraps round. */
  function ReadLimit(size: uint32, off: uint32, n: uint32): nat
    requires off <= size
  {
    if Add32(off, n) > size then size - off else n
  }

  /** The inode cached in `k` has its access time set and stored. */
  function Accessed(w: World, k: nat, now: uint32): World
    requires k < |w.ss| && w.ss[k].ino.inum < NINODES == |w.t| && BLOCK_START <= |w.v|
  {
    StoredWorld(WithInode(w, k, w.ss[k].ino.(atime := now)), k)
  }

  lemma ReadOkNone(v: seq<Block>, a: Addrs, off: nat, d: seq<byte>)
    ensures ReadOk(v, a, off, d, 0)
  {
  }

  /** A mapped block is a data block of the device. */
  lemma MappedRange(w: World, k: nat, b: nat)
    requires SoundWorld(w) && k < |w.ss| && w.ss[k].ino.inum < NINODES && Lookup(w.v, w.ss[k].ino.addrs, b) != 0
    ensures b < MAXBLOCKS && BLOCK_START <= Lookup(w.v, w.ss[k].ino.addrs, b) < |w.v|
    ensures Data(w.v, w.ss[k].ino.addrs, b) == w.v[Lookup(w.v, w.ss[k].ino.addrs, b)]
  {
    SoundSlot(w, k);
    LookupRange(w.v, w.t, w.owner, w.ss[k].ino.inum, b);
  }
}
