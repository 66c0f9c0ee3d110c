/** Writing to a file, step by step and as a whole. */
module Writes {
  import opened Bytes
  import opened BlockTree
  import opened Inodes
  import opened Growth
  import opened Files
  import opened InodeCache
  import opened World

  /** One past the last block touched by bytes below `o`. */
  function Ceil(o: nat): nat {
    (o + BSIZE - 1) / BSIZE
  }

  /** `w'` differs from `w` in the tree, the block counter and the data blocks of the inode
      cached in `k`, and in blocks that no tree held. */
  ghost predicate Moved(w: World, w': World, k: nat, added: set<Slot>) {
    && k < |w.ss| && w.ss[k].ino.inum < NINODES == |w.t| && SoundWorld(w) && SoundWorld(w')
    && w'.refs == w.refs && |w'.ss| == |w.ss|
    && w'.ss == w.ss[k := w'.ss[k]]
    && w'.ss[k] == w.ss[k].(ino := w.ss[k].ino.(addrs := w'.ss[k].ino.addrs, blocks := w'.ss[k].ino.blocks))
    && w'.t == w.t[w.ss[k].ino.inum := w'.ss[k].ino]
    && Advanced(w.v, w.t, w.owner, w'.v, w'.t, w'.owner, w.ss[k].ino.inum, added)
  }

  lemma MovedRefl(w: World, k: nat)
    requires SoundWorld(w) && k < |w.ss| && w.ss[k].ino.inum < NINODES
    ensures Moved(w, w, k, {})
  {
    SoundSlot(w, k);
    hide SoundWorld;
    GrewRefl(w.v, w.t, w.owner, w.ss[k].ino.inum);
  }

  lemma ExtendedMoved(w: World, w': World, k: nat, path: set<Slot>, added: set<Slot>)
    requires SoundWorld(w) && Extended(w, w', k, path, added)
    ensures Moved(w, w', k, added) && added <= path && KeptData(w.v, w.owner, w'.v)
  {
    hide SoundWorld, Advanced, KeptData;
  }

  lemma MovedTrans(w: World, w1: World, w2: World, k: nat, d1: set<Slot>, d2: set<Slot>)
    requires Moved(w, w1, k, d1) && Moved(w1, w2, k, d2)
    ensures Moved(w, w2, k, d1 + d2)
  {
    hide SoundWorld, Advanced;
    AdvancedTrans(w.v, w.t, w.owner, w1.v, w1.t, w1.owner, w2.v, w2.t, w2.owner, w.ss[k].ino.inum, d1, d2);
  }

  /** `w` with logical block `b` of the inode cached in `k` overwritten. */
  function Put(w: World, k: nat, b: nat, d: Block): World
    requires k < |w.ss| && Lookup(w.v, w.ss[k].ino.addrs, b) < |w.v|
  {
    w.(v := w.v[Lookup(w.v, w.ss[k].ino.addrs, b) := d])
  }

  lemma PutMoved(w: World, k: nat, b: nat, d: Block)
    requires SoundWorld(w) && k < |w.ss| && w.ss[k].ino.inum < NINODES && Lookup(w.v, w.ss[k].ino.addrs, b) != 0
    ensures BLOCK_START <= Lookup(w.v, w.ss[k].ino.addrs, b) < |w.v|
    ensures Moved(w, Put(w, k, b, d), k, {})
  {
    SoundSlot(w, k);
    MappedRange(w, k, b);
    PutSound(w, k, b, d);
    hide SoundWorld, Lookup, Advanced;
    StoreAdvancedWorld(w, k, b, d);
  }

  lemma StoreAdvancedWorld(w: World, k: nat, b: nat, d: Block)
    requires SoundWorld(w) && k < |w.ss| && w.ss[k].ino.inum < NINODES == |w.t|
    requires w.t[w.ss[k].ino.inum] == w.ss[k].ino && 0 < Lookup(w.v, w.ss[k].ino.addrs, b) < |w.v|
    ensures Advanced(w.v, w.t, w.owner, Put(w, k, b, d).v, w.t, w.owner, w.ss[k].ino.inum, {})
  {
    hide Lookup, Advanced, TreesOk, TableOk;
    StoreAdvanced(w.v, w.t, w.owner, w.ss[k].ino.inum, b, d);
  }

  lemma PutSound(w: World, k: nat, b: nat, d: Block)
    requires SoundWorld(w) && k < |w.ss| && w.ss[k].ino.inum < NINODES == |w.t|
    requires w.t[w.ss[k].ino.inum] == w.ss[k].ino && BLOCK_START <= Lookup(w.v, w.ss[k].ino.addrs, b) < |w.v|
    ensures SoundWorld(Put(w, k, b, d))
  {
    hide Lookup, TreesOk;
    StoreData(w.v, w.t, w.owner, w.ss[k].ino.inum, b, d);
    TableFrame(w.ss, w.t, w.refs, w.v, Put(w, k, b, d).v);
  }

  /** The first `tot` bytes of `src` have been written at `off`. */
  ghost predicate Writing(w: World, w': World, k: nat, off: nat, src: seq<byte>, tot: nat, added: set<Slot>) {
    && Moved(w, w', k, added)
    && Wrote(w.v, w.ss[k].ino.addrs, w'.v, w'.ss[k].ino.addrs, off, src, tot)
    && added <= RangeSlots(off / BSIZE, Ceil(off + |src|))
    && added <= RangeSlots(off / BSIZE, (off + tot) / BSIZE + 1)
    && (tot > 0 ==> off + tot <= MAXSIZE)
  }

  lemma WritingStart(w: World, k: nat, off: nat, src: seq<byte>)
    requires SoundWorld(w) && k < |w.ss| && w.ss[k].ino.inum < NINODES
    ensures Writing(w, w, k, off, src, 0, {})
  {
    MovedRefl(w, k);
    hide Moved, Lookup, Data;
  }

  lemma PathInRange(lo: nat, hi: nat, b: nat)
    requires lo <= b < hi
    ensures Path(LeafOf(b)) <= RangeSlots(lo, hi)
  {
  }

  lemma RangeGrows(lo: nat, hi: nat, hi': nat)
    requires hi <= hi'
    ensures RangeSlots(lo, hi) <= RangeSlots(lo, hi')
  {
  }

  /** The slots of the block a round works on lie in the range, and so do those before it. */
  lemma RangeStep(off: nat, n: nat, tot: nat, m: nat, added: set<Slot>, d: set<Slot>)
    requires tot < n && tot + m <= n && d <= Path(LeafOf((off + tot) / BSIZE))
    requires added <= RangeSlots(off / BSIZE, Ceil(off + n)) && added <= RangeSlots(off / BSIZE, (off + tot) / BSIZE + 1)
    ensures added + d <= RangeSlots(off / BSIZE, Ceil(off + n))
    ensures added + d <= RangeSlots(off / BSIZE, (off + tot + m) / BSIZE + 1)
  {
    hide RangeSlots, LeafOf, Path;
    var b := (off + tot) / BSIZE;
    assert off / BSIZE <= b < Ceil(off + n) && b <= (off + tot + m) / BSIZE;
    PathInRange(off / BSIZE, Ceil(off + n), b);
    PathInRange(off / BSIZE, (off + tot + m) / BSIZE + 1, b);
    RangeGrows(off / BSIZE, b + 1, (off + tot + m) / BSIZE + 1);
  }

  /** One round of the loop: block `b` is mapped, growing its path if need be, and patched. */
  lemma WritingStep(w: World, w1: World, w2: World, k: nat, off: nat, src: seq<byte>, tot: nat, m: nat,
                    added: set<Slot>, d: set<Slot>)
    requires Writing(w, w1, k, off, src, tot, added) && tot + m <= |src| && 0 < m <= BSIZE - (off + tot) % BSIZE
    requires (off + tot) / BSIZE < MAXBLOCKS && Mapping(w1, w2, k, LeafOf((off + tot) / BSIZE), true, d)
    requires k < |w2.ss| && Lookup(w2.v, w2.ss[k].ino.addrs, (off + tot) / BSIZE) != 0
    ensures var b, x := (off + tot) / BSIZE, (off + tot) % BSIZE;
      var p := Lookup(w2.v, w2.ss[k].ino.addrs, b);
      && BLOCK_START <= p < |w2.v|
      && Writing(w, Put(w2, k, b, Patch(w2.v[p], x, src[tot..tot + m])), k, off, src, tot + m, added + d)
  {
    hide Moved, Lookup, Wrote, SoundWorld, Mapping, RangeSlots, Extended, Grew, KeptData, Stored1, Writing, Put, Patch, LeafOf, Path;
    var b, x := (off + tot) / BSIZE, (off + tot) % BSIZE;
    WritingParts(w, w1, k, off, src, tot, added);
    MappingMoved(w, w1, w2, k, LeafOf(b), added, d);
    MappedRange(w2, k, b);
    PutStep(w, w1, w2, k, off, src, tot, m, added, d);
    RangeStep(off, |src|, tot, m, added, d);
    ChunkEnd(off, tot, m);
    WritingIntro(w, Put(w2, k, b, Patch(w2.v[Lookup(w2.v, w2.ss[k].ino.addrs, b)], x, src[tot..tot + m])), k, off, src, tot + m, added + d);
  }

  lemma ChunkEnd(off: nat, tot: nat, m: nat)
    requires m <= BSIZE - (off + tot) % BSIZE && (off + tot) / BSIZE < MAXBLOCKS
    ensures off + tot + m <= MAXSIZE
  {
  }

  lemma WritingIntro(w: World, w': World, k: nat, off: nat, src: seq<byte>, tot: nat, added: set<Slot>)
    requires k < |w.ss| && k < |w'.ss| && Moved(w, w', k, added)
    requires Wrote(w.v, w.ss[k].ino.addrs, w'.v, w'.ss[k].ino.addrs, off, src, tot)
    requires added <= RangeSlots(off / BSIZE, Ceil(off + |src|)) && added <= RangeSlots(off / BSIZE, (off + tot) / BSIZE + 1)
    requires tot > 0 ==> off + tot <= MAXSIZE
    ensures Writing(w, w', k, off, src, tot, added)
  {
    hide Moved, Wrote, RangeSlots;
  }

  /** The patched block carries the next bytes, and nothing else has moved. */
  lemma PutStep(w: World, w1: World, w2: World, k: nat, off: nat, src: seq<byte>, tot: nat, m: nat,
                added: set<Slot>, d: set<Slot>)
    requires Writing(w, w1, k, off, src, tot, added) && tot + m <= |src| && 0 < m <= BSIZE - (off + tot) % BSIZE
    requires (off + tot) / BSIZE < MAXBLOCKS && Moved(w, w2, k, added + d) && SoundWorld(w2)
    requires Extended(w1, w2, k, Path(LeafOf((off + tot) / BSIZE)), d)
    requires k < |w2.ss| && Lookup(w2.v, w2.ss[k].ino.addrs, (off + tot) / BSIZE) != 0 && w2.ss[k].ino.inum < NINODES
    ensures var b, x := (off + tot) / BSIZE, (off + tot) % BSIZE;
      var p := Lookup(w2.v, w2.ss[k].ino.addrs, b);
      && k < |w.ss| && BLOCK_START <= p < |w2.v|
      && var w3 := Put(w2, k, b, Patch(w2.v[p], x, src[tot..tot + m]));
         && k < |w3.ss| && Moved(w, w3, k, added + d)
         && Wrote(w.v, w.ss[k].ino.addrs, w3.v, w3.ss[k].ino.addrs, off, src, tot + m)
  {
    hide Moved, Lookup, Wrote, SoundWorld, RangeSlots, Extended, Stored1, Writing, Patch, LeafOf, Path;
    var b, x := (off + tot) / BSIZE, (off + tot) % BSIZE;
    WritingParts(w, w1, k, off, src, tot, added);
    var p := Lookup(w2.v, w2.ss[k].ino.addrs, b);
    MappedRange(w2, k, b);
    var w3 := Put(w2, k, b, Patch(w2.v[p], x, src[tot..tot + m]));
    PutMoved(w2, k, b, Patch(w2.v[p], x, src[tot..tot + m]));
    MovedTrans(w, w2, w3, k, added + d, {});
    assert added + d + {} == added + d;
    PatchStepWorld(w1, w2, k, d, b, x, src[tot..tot + m]);
    WroteStep(w.v, w.ss[k].ino.addrs, w1.v, w1.ss[k].ino.addrs, w3.v, w3.ss[k].ino.addrs, off, src, tot, m);
  }

  lemma WritingParts(w: World, w': World, k: nat, off: nat, src: seq<byte>, tot: nat, added: set<Slot>)
    requires Writing(w, w', k, off, src, tot, added)
    ensures Moved(w, w', k, added) && k < |w.ss| == |w'.ss| && SoundWorld(w) && SoundWorld(w')
    ensures w'.ss[k].ino.inum == w.ss[k].ino.inum < NINODES == |w.t|
    ensures Wrote(w.v, w.ss[k].ino.addrs, w'.v, w'.ss[k].ino.addrs, off, src, tot) && tot <= |src|
    ensures added <= RangeSlots(off / BSIZE, Ceil(off + |src|)) && added <= RangeSlots(off / BSIZE, (off + tot) / BSIZE + 1)
    ensures tot > 0 ==> off + tot <= MAXSIZE
  {
    hide SoundWorld, Advanced, Lookup, Data;
  }

  lemma MappingMoved(w: World, w1: World, w2: World, k: nat, s: Slot, added: set<Slot>, d: set<Slot>)
    requires Moved(w, w1, k, added) && Mapping(w1, w2, k, s, true, d)
    ensures Moved(w, w2, k, added + d) && d <= Path(s)
    ensures k < |w1.ss| && k < |w2.ss| && SoundWorld(w1) && SoundWorld(w2) && w2.ss[k].ino.inum == w1.ss[k].ino.inum < NINODES
    ensures Extended(w1, w2, k, Path(s), d)
  {
    hide SoundWorld, Advanced, At, Path;
    MappingSound(w1, w2, k, s, true, d);
    ExtendedMoved(w1, w2, k, Path(s), d);
    MovedTrans(w, w1, w2, k, added, d);
  }

  lemma PatchStepWorld(w1: World, w2: World, k: nat, d: set<Slot>, b: nat, x: nat, s: seq<byte>)
    requires SoundWorld(w1) && b < MAXBLOCKS && Extended(w1, w2, k, Path(LeafOf(b)), d) && x + |s| <= BSIZE
    requires k < |w2.ss| && 0 < Lookup(w2.v, w2.ss[k].ino.addrs, b) < |w2.v|
    ensures k < |w1.ss|
    ensures Stored1(w1.v, w1.ss[k].ino.addrs, Put(w2, k, b, Patch(w2.v[Lookup(w2.v, w2.ss[k].ino.addrs, b)], x, s)).v,
                    w2.ss[k].ino.addrs, b, x, s)
  {
    hide Lookup, TreesOk, TableOk, Grew, Stored1;
    SoundSlot(w1, k);
    PatchStep(w1.v, w1.t, w1.owner, w2.v, w2.t, w2.owner, w1.ss[k].ino.inum, d, b, x, s);
  }

  /** A round that finds no block: nothing new is mapped and no byte changes. */
  lemma WritingFails(w: World, w1: World, w2: World, k: nat, off: nat, src: seq<byte>, tot: nat, added: set<Slot>, d: set<Slot>)
    requires Writing(w, w1, k, off, src, tot, added) && tot < |src|
    requires (off + tot) / BSIZE < MAXBLOCKS && Mapping(w1, w2, k, LeafOf((off + tot) / BSIZE), true, d)
    requires k < |w2.ss| && Lookup(w2.v, w2.ss[k].ino.addrs, (off + tot) / BSIZE) == 0
    ensures Writing(w, w2, k, off, src, tot, added + d) && |w2.owner| == Capacity(|w2.v|)
  {
    hide Moved, Lookup, Wrote, SoundWorld, Mapping, RangeSlots, Extended, Writing, LeafOf, Path;
    var b := (off + tot) / BSIZE;
    WritingParts(w, w1, k, off, src, tot, added);
    MappingMoved(w, w1, w2, k, LeafOf(b), added, d);
    MappingFull(w1, w2, k, b, d);
    SameBytes(w1, w2, k, d, b);
    WroteSame(w.v, w.ss[k].ino.addrs, w1.v, w1.ss[k].ino.addrs, w2.v, w2.ss[k].ino.addrs, off, src, tot);
    RangeStep(off, |src|, tot, 0, added, d);
    WritingIntro(w, w2, k, off, src, tot, added + d);
  }

  lemma MappingFull(w: World, w': World, k: nat, b: nat, added: set<Slot>)
    requires b < MAXBLOCKS && Mapping(w, w', k, LeafOf(b), true, added) && k < |w'.ss|
    requires Lookup(w'.v, w'.ss[k].ino.addrs, b) == 0
    ensures |w'.owner| == Capacity(|w'.v|)
  {
    hide Extended, At, Path;
  }

  lemma SameBytes(w1: World, w2: World, k: nat, d: set<Slot>, b: nat)
    requires SoundWorld(w1) && b < MAXBLOCKS && Extended(w1, w2, k, Path(LeafOf(b)), d)
    requires k < |w2.ss| && Lookup(w2.v, w2.ss[k].ino.addrs, b) == 0
    ensures k < |w1.ss|
    ensures forall c: nat :: Lookup(w2.v, w2.ss[k].ino.addrs, c) == Lookup(w1.v, w1.ss[k].ino.addrs, c)
    ensures forall c: nat :: Lookup(w1.v, w1.ss[k].ino.addrs, c) != 0 ==>
              Data(w2.v, w2.ss[k].ino.addrs, c) == Data(w1.v, w1.ss[k].ino.addrs, c)
  {
    hide TreesOk, TableOk, GrewSlots, Lookup, Data, Owned, KeptData;
    var n, a, a2 := w1.ss[k].ino.inum, w1.ss[k].ino.addrs, w2.ss[k].ino.addrs;
    SoundSlot(w1, k);
    GrewParts(w1.v, w1.t, w1.owner, w2.v, w2.t, w2.owner, n, d);
    GrewLookup(w1.v, a, w2.v, a2, d, b);
    forall c: nat ensures Lookup(w2.v, a2, c) == Lookup(w1.v, a, c) { }
    forall c: nat | Lookup(w1.v, a, c) != 0 ensures Data(w2.v, a2, c) == Data(w1.v, a, c) {
      GrewDataKept(w1.v, w1.t, w1.owner, w2.v, a2, n, c);
    }
  }

  lemma WroteSame(v: seq<Block>, a: Addrs, v1: seq<Block>, a1: Addrs, v2: seq<Block>, a2: Addrs, off: nat, src: seq<byte>, tot: nat)
    requires Wrote(v, a, v1, a1, off, src, tot)
    requires forall c: nat :: Lookup(v2, a2, c) == Lookup(v1, a1, c)
    requires forall c: nat :: Lookup(v1, a1, c) != 0 ==> Data(v2, a2, c) == Data(v1, a1, c)
    ensures Wrote(v, a, v2, a2, off, src, tot)
  {
    hide Lookup, Data;
    forall c: nat | Lookup(v, a, c) != 0 ensures Lookup(v2, a2, c) == Lookup(v, a, c) {
      assert Lookup(v1, a1, c) == Lookup(v, a, c);
    }
    forall c: nat | Lookup(v, a, c) == 0 && Lookup(v2, a2, c) != 0 ensures off / BSIZE <= c && BSIZE * c < off + tot {
      assert Lookup(v1, a1, c) != 0;
    }
    forall c: nat, x: nat | x < BSIZE && off <= BSIZE * c + x < off + tot
      ensures Data(v2, a2, c)[x] == src[BSIZE * c + x - off]
    {
      assert Data(v1, a1, c)[x] == src[BSIZE * c + x - off] && Lookup(v1, a1, c) != 0;
    }
    forall c: nat | tot > 0 && off < BSIZE * c + BSIZE && BSIZE * c < off + tot ensures Lookup(v2, a2, c) != 0 {
      assert Lookup(v1, a1, c) != 0;
    }
    forall c: nat, x: nat | x < BSIZE && !(off <= BSIZE * c + x < off + tot) && Lookup(v, a, c) != 0
      ensures Data(v2, a2, c)[x] == Data(v, a, c)[x]
    {
      assert Lookup(v1, a1, c) != 0 && Data(v1, a1, c)[x] == Data(v, a, c)[x];
    }
  }

  lemma WritingRange(w: World, w': World, k: nat, off: nat, src: seq<byte>, tot: nat, added: set<Slot>)
    requires Writing(w, w', k, off, src, tot, added)
    ensures tot == 0 || off + tot <= MAXSIZE
  {
    hide Moved, Wrote;
  }

  lemma WritingSound(w: World, w': World, k: nat, off: nat, src: seq<byte>, tot: nat, added: set<Slot>)
    requires Writing(w, w', k, off, src, tot, added)
    ensures SoundWorld(w') && k < |w'.ss| && w'.ss[k].ino.inum < NINODES == |w'.t| && BLOCK_START <= |w'.v|
  {
    WritingShape(w, w', k, off, src, tot, added);
    SoundSlot(w', k);
  }

  lemma WritingShape(w: World, w': World, k: nat, off: nat, src: seq<byte>, tot: nat, added: set<Slot>)
    requires Writing(w, w', k, off, src, tot, added)
    ensures SoundWorld(w') && k < |w'.ss| && w'.ss[k].ino.inum < NINODES
  {
    hide SoundWorld, Advanced, Wrote;
  }

  /** The block counter of the inode in slot `k` has grown by the blocks taken, and by `failed`. */
  ghost predicate Charged(w: World, w': World, k: nat, failed: nat) {
    && k < |w.ss| && k < |w'.ss| && |w.owner| <= |w'.owner|
    && w'.ss[k].ino.blocks == (w.ss[k].ino.blocks + (|w'.owner| - |w.owner|) + failed) % 0x1_0000_0000
  }

  lemma ChargedRefl(w: World, k: nat)
    requires k < |w.ss|
    ensures Charged(w, w, k, 0)
  {
  }

  lemma PutCharged(w: World, w': World, k: nat, b: nat, d: Block)
    requires Charged(w, w', k, 0) && Lookup(w'.v, w'.ss[k].ino.addrs, b) < |w'.v|
    ensures Charged(w, Put(w', k, b, d), k, 0)
  {
    hide Lookup;
  }

  lemma CountedOn(b: uint32, x: nat, d: nat)
    ensures Counted((b + x) % 0x1_0000_0000, d) == (b + (x + d)) % 0x1_0000_0000
  {
  }

  /** A round of the loop counts the blocks it takes, and a failed attempt as one. */
  lemma MappingCharged(w: World, w1: World, w2: World, k: nat, s: Slot, d: set<Slot>)
    requires Charged(w, w1, k, 0) && Mapping(w1, w2, k, s, true, d) && SoundWorld(w1)
    ensures k < |w2.ss| && Charged(w, w2, k, if Ptr(w2, k, s) == 0 then 1 else 0)
  {
    hide Ptr, Mapping, SoundWorld, Counted;
    MappingGrew(w1, w2, k, s, d);
    CountedOn(w.ss[k].ino.blocks, |w1.owner| - |w.owner|, |d| + if Ptr(w2, k, s) == 0 then 1 else 0);
  }

  /** What `writei` makes of the inode, its tree and its block counter aside. */
  predicate WroteTo(x: Inode, y: Inode, off: nat, n: nat, tot: nat, now: uint32) {
    && y == x.(size := y.size, blocks := y.blocks, addrs := y.addrs, mtime := y.mtime, ctime := y.ctime)
    && if tot < n then y.size == x.size && y.mtime == x.mtime && y.ctime == x.ctime
       else y.size == (if off + n > x.size then off + n else x.size) && y.mtime == now && y.ctime == now
  }

  lemma AfterWroteTo(w: World, mid: World, k: nat, off: uint32, src: seq<byte>, tot: nat, added: set<Slot>, now: uint32, failed: nat)
    requires Writing(w, mid, k, off, src, tot, added) && 0 < |src| < 0x1_0000_0000 && tot <= |src| && Charged(w, mid, k, failed)
    requires k < |mid.ss| && mid.ss[k].ino.inum < NINODES == |mid.t| && BLOCK_START <= |mid.v|
    ensures var w' := AfterWrite(mid, k, off, src, tot, now);
      k < |w.ss| && k < |w'.ss| && WroteTo(w.ss[k].ino, w'.ss[k].ino, off, |src|, tot, now) && Charged(w, w', k, failed)
  {
    hide Writing, Stored;
    WritingInode(w, mid, k, off, src, tot, added);
    WritingRange(w, mid, k, off, src, tot, added);
  }

  lemma MappingGrew(w: World, w': World, k: nat, s: Slot, d: set<Slot>)
    requires Mapping(w, w', k, s, true, d) && SoundWorld(w)
    ensures k < |w.ss| == |w'.ss| && |w'.owner| == |w.owner| + |d|
    ensures w'.ss[k].ino.blocks == Counted(w.ss[k].ino.blocks, |d| + if Ptr(w', k, s) == 0 then 1 else 0)
  {
    hide SoundWorld, At, Path, Advanced, Counted;
    MappingSound(w, w', k, s, true, d);
    MovedRefl(w, k);
    MappingMoved(w, w, w', k, s, {}, d);
    assert {} + d == d;
    MovedCount(w, w', k, d);
  }

  lemma LookupPtr(w: World, k: nat, b: nat)
    requires k < |w.ss| && b < MAXBLOCKS
    ensures Ptr(w, k, LeafOf(b)) == Lookup(w.v, w.ss[k].ino.addrs, b)
    ensures forall o: nat :: o / BSIZE == b ==> o < MAXSIZE
  {
    hide At, LeafOf;
  }

  lemma MovedCount(w: World, w': World, k: nat, added: set<Slot>)
    requires Moved(w, w', k, added)
    ensures |w'.owner| == |w.owner| + |added|
  {
    hide TableOk, GrewSlots;
  }

  /** The end of a complete write: the size grows to `end` if that is larger, the times
      are set and the inode is stored. */
  function Written(w: World, k: nat, end: uint32, now: uint32): World
    requires k < |w.ss| && w.ss[k].ino.inum < NINODES == |w.t| && BLOCK_START <= |w.v|
  {
    var ino := w.ss[k].ino;
    StoredWorld(WithInode(w, k, ino.(size := Max(ino.size, end), mtime := now, ctime := now)), k)
  }

  // ---------------------------------------------------------------- the effect of a whole write

  /** The bytes of inode `n`. */
  function File(w: World, n: nat): seq<byte>
    requires n < |w.t|
  {
    Contents(w.v, w.t[n])
  }

  /** No inode but `n` and no file but the one of `n` has changed. */
  ghost predicate OthersSame(w: World, w': World, n: nat) {
    && |w'.t| == |w.t|
    && forall j :: 0 <= j < |w.t| && j != n ==> w'.t[j] == w.t[j] && SameFile(w.v, w.t[j].addrs, w'.v)
  }

  lemma SameFileTrans(v: seq<Block>, a: Addrs, v1: seq<Block>, v2: seq<Block>)
    requires SameFile(v, a, v1) && SameFile(v1, a, v2)
    ensures SameFile(v, a, v2)
  {
    hide Lookup, Data, At;
  }

  lemma OthersSameTrans(w: World, w1: World, w2: World, n: nat)
    requires OthersSame(w, w1, n) && OthersSame(w1, w2, n)
    ensures OthersSame(w, w2, n)
  {
    hide SameFile;
    forall j | 0 <= j < |w.t| && j != n ensures SameFile(w.v, w.t[j].addrs, w2.v) {
      SameFileTrans(w.v, w.t[j].addrs, w1.v, w2.v);
    }
  }

  lemma MovedOthers(w: World, w': World, k: nat, added: set<Slot>)
    requires Moved(w, w', k, added)
    ensures k < |w.ss| && OthersSame(w, w', w.ss[k].ino.inum)
  {
    hide TableOk, Advanced, SameFile;
    var n := w.ss[k].ino.inum;
    forall j | 0 <= j < |w.t| && j != n ensures w'.t[j] == w.t[j] && SameFile(w.v, w.t[j].addrs, w'.v) {
      AdvancedOthers(w.v, w.t, w.owner, w'.v, w'.t, w'.owner, n, added, j);
    }
  }

  /** Setting fields of an inode and storing it changes no other inode and no block of a file. */
  lemma TouchedOthers(w: World, k: nat, x: Inode)
    requires SoundWorld(w) && k < |w.ss| && w.ss[k].ino.inum < NINODES
    requires x.inum == w.ss[k].ino.inum && x.addrs == w.ss[k].ino.addrs
    ensures x.inum < |w.t| && BLOCK_START <= |w.v| && w.t[x.inum] == w.ss[k].ino
    ensures SoundWorld(StoredWorld(WithInode(w, k, x), k))
    ensures OthersSame(w, StoredWorld(WithInode(w, k, x), k), x.inum)
    ensures SameFile(w.v, x.addrs, StoredWorld(WithInode(w, k, x), k).v)
  {
    hide SoundWorld, SameFile, Stored;
    SoundSlot(w, k);
    WithInodeSound(w, k, x);
    StoredWorldSound(WithInode(w, k, x), k);
    assert WithInode(w, k, x).t[x.inum] == x;
    forall j | 0 <= j < |w.t| && j != x.inum ensures SameFile(w.v, w.t[j].addrs, StoredWorld(WithInode(w, k, x), k).v) {
      assert WithInode(w, k, x).t[j] == w.t[j];
    }
  }

  /** What `writei` leaves behind, given the state `mid` after its loop. */
  function AfterWrite(mid: World, k: nat, off: uint32, src: seq<byte>, tot: nat, now: uint32): World
    requires k < |mid.ss| && mid.ss[k].ino.inum < NINODES == |mid.t| && BLOCK_START <= |mid.v|
    requires |src| < 0x1_0000_0000
  {
    if tot == |src| then Written(mid, k, Add32(off, |src|), now) else mid
  }

  /** Other inodes and files do not change, whether or not the write completes. */
  lemma WriteOthers(w: World, mid: World, k: nat, off: uint32, src: seq<byte>, tot: nat, added: set<Slot>, now: uint32)
    requires Writing(w, mid, k, off, src, tot, added) && |src| < 0x1_0000_0000
    ensures k < |w.ss| && k < |mid.ss| && mid.ss[k].ino.inum == w.ss[k].ino.inum < NINODES == |mid.t| && BLOCK_START <= |mid.v|
    ensures SoundWorld(AfterWrite(mid, k, off, src, tot, now))
    ensures OthersSame(w, AfterWrite(mid, k, off, src, tot, now), w.ss[k].ino.inum)
  {
    hide SoundWorld, OthersSame, Stored, Moved, Wrote, SameFile;
    WritingParts(w, mid, k, off, src, tot, added);
    SoundSlot(mid, k);
    MovedOthers(w, mid, k, added);
    if tot == |src| {
      var ino := mid.ss[k].ino;
      TouchedOthers(mid, k, ino.(size := Max(ino.size, Add32(off, |src|)), mtime := now, ctime := now));
      OthersSameTrans(w, mid, AfterWrite(mid, k, off, src, tot, now), ino.inum);
    }
  }

  /** A write at or below the end of a solid file lays `src`, or as much of it as found room,
      over the file; a write that stops short leaves the size alone. The file stays solid. */
  lemma WriteFile(w: World, mid: World, k: nat, off: uint32, src: seq<byte>, tot: nat, added: set<Slot>, now: uint32)
    requires Writing(w, mid, k, off, src, tot, added) && |src| < 0x1_0000_0000
    requires k < |w.ss| && k < |mid.ss| && mid.ss[k].ino.inum == w.ss[k].ino.inum < NINODES == |mid.t| && BLOCK_START <= |mid.v|
    requires Solid(w.v, w.ss[k].ino) && off <= w.ss[k].ino.size && tot > 0
    ensures |w.t| == NINODES && w.t[w.ss[k].ino.inum] == w.ss[k].ino
    ensures var w', n := AfterWrite(mid, k, off, src, tot, now), w.ss[k].ino.inum;
      && Solid(w'.v, w'.t[n])
      && File(w', n) == if tot == |src| then Overlay(File(w, n), off, src)
                        else Overlay(File(w, n), off, src[..tot])[..|File(w, n)|]
  {
    hide SoundWorld, Stored, Moved, Wrote, SameFile, Solid, Contents, Overlay;
    WritingParts(w, mid, k, off, src, tot, added);
    WritingRange(w, mid, k, off, src, tot, added);
    WritingInode(w, mid, k, off, src, tot, added);
    SoundSlot(w, k);
    SoundSlot(mid, k);
    var ino := mid.ss[k].ino;
    var x := if tot == |src| then ino.(size := Max(ino.size, Add32(off, |src|)), mtime := now, ctime := now) else ino;
    WroteContents(w.v, w.ss[k].ino, mid.v, x, off, src, tot);
    WroteSolid(w.v, w.ss[k].ino, mid.v, x, off, src, tot);
    if tot == |src| {
      TouchedOthers(mid, k, x);
      SameFileContents(mid.v, x, AfterWrite(mid, k, off, src, tot, now).v);
      assert src[..tot] == src;
      OverlaySize(Contents(w.v, w.ss[k].ino), off, src);
    }
  }

  lemma OverlaySize(c: seq<byte>, off: nat, s: seq<byte>)
    requires off <= |c|
    ensures Overlay(c, off, s)[..Max(|c|, off + |s|)] == Overlay(c, off, s)
  {
  }

  lemma WritingInode(w: World, w': World, k: nat, off: nat, src: seq<byte>, tot: nat, added: set<Slot>)
    requires Writing(w, w', k, off, src, tot, added)
    ensures k < |w.ss| == |w'.ss|
    ensures w'.ss[k].ino == w.ss[k].ino.(addrs := w'.ss[k].ino.addrs, blocks := w'.ss[k].ino.blocks)
  {
    hide SoundWorld, Advanced, Wrote;
  }

  lemma WritingCounts(w: World, w': World, k: nat, off: nat, src: seq<byte>, tot: nat, added: set<Slot>)
    requires Writing(w, w', k, off, src, tot, added)
    ensures k < |w.ss| == |w'.ss| && |w'.v| == |w.v|
    ensures GrewSlots(w.v, w.ss[k].ino.addrs, w'.v, w'.ss[k].ino.addrs, added)
    ensures added <= RangeSlots(off / BSIZE, Ceil(off + |src|))
    ensures |w'.owner| == |w.owner| + |added| <= Capacity(|w'.v|)
  {
    hide Wrote, TableOk, GrewSlots;
    SoundSlot(w, k);
    SoundSlot(w', k);
    OwnerBound(w'.v, w'.t, w'.owner);
  }

  lemma WroteAll(v: seq<Block>, a: Addrs, v': seq<Block>, a': Addrs, off: nat, src: seq<byte>)
    requires Wrote(v, a, v', a', off, src, |src|) && |src| > 0
    ensures forall b: nat :: off / BSIZE <= b < Ceil(off + |src|) ==> Lookup(v', a', b) != 0
  {
    hide Lookup, Data;
    forall b: nat | off / BSIZE <= b < Ceil(off + |src|) ensures Lookup(v', a', b) != 0 {
      assert off < BSIZE * b + BSIZE && BSIZE * b < off + |src|;
    }
  }

  /** A write completes exactly when the disk has a free block for every block and pointer
      block that its range is missing. */
  lemma WriteCompletes(w: World, mid: World, k: nat, off: nat, src: seq<byte>, tot: nat, added: set<Slot>)
    requires Writing(w, mid, k, off, src, tot, added) && off + |src| <= MAXSIZE && |src| > 0 && k < |mid.ss|
    requires tot < |src| ==>
               && Lookup(mid.v, mid.ss[k].ino.addrs, (off + tot) / BSIZE) == 0
               && (off + tot >= MAXSIZE || |mid.owner| == Capacity(|mid.v|))
    ensures k < |w.ss|
    ensures var need := Missing(w.v, w.ss[k].ino.addrs, off / BSIZE, Ceil(off + |src|));
      && (tot == |src| <==> |w.owner| + |need| <= Capacity(|w.v|))
      && (tot == |src| ==> |mid.owner| == |w.owner| + |need|)
      && (tot == |src| ==> GrewSlots(w.v, w.ss[k].ino.addrs, mid.v, mid.ss[k].ino.addrs, need))
  {
    WritingCounts(w, mid, k, off, src, tot, added);
    WritingParts(w, mid, k, off, src, tot, added);
    hide Writing, Wrote, GrewSlots, SoundWorld, Lookup, Missing, RangeSlots, Capacity;
    var a, a', lo, hi := w.ss[k].ino.addrs, mid.ss[k].ino.addrs, off / BSIZE, Ceil(off + |src|);
    if tot == |src| {
      WroteAll(w.v, a, mid.v, a', off, src);
      MissingFilled(w.v, a, mid.v, a', added, lo, hi);
    } else {
      MissingStuck(w.v, a, mid.v, a', added, lo, hi, (off + tot) / BSIZE);
    }
  }

  /** No block can be mapped at `off`, whoever asks. */
  ghost predicate Stuck(w: World, k: nat, off: nat)
    requires k < |w.ss|
  {
    Lookup(w.v, w.ss[k].ino.addrs, off / BSIZE) == 0 && (off >= MAXSIZE || |w.owner| == Capacity(|w.v|))
  }

  lemma WroteFirst(v: seq<Block>, a: Addrs, v': seq<Block>, a': Addrs, off: nat, src: seq<byte>, tot: nat)
    requires Wrote(v, a, v', a', off, src, tot) && tot > 0
    ensures Lookup(v', a', off / BSIZE) != 0
  {
    hide Lookup, Data;
    assert off < BSIZE * (off / BSIZE) + BSIZE && BSIZE * (off / BSIZE) < off + tot;
  }

  lemma NoGrowth(v: seq<Block>, a: Addrs, v': seq<Block>, a': Addrs, added: set<Slot>, b: nat)
    requires GrewSlots(v, a, v', a', added) && (b >= MAXBLOCKS || |added| == 0) && Lookup(v, a, b) == 0
    ensures Lookup(v', a', b) == 0
  {
    assert b < MAXBLOCKS ==> LeafOf(b) !in added;
  }

  lemma StuckWrites(w: World, mid: World, k: nat, off: nat, src: seq<byte>, tot: nat, added: set<Slot>)
    requires Writing(w, mid, k, off, src, tot, added) && k < |w.ss| && Stuck(w, k, off)
    ensures tot == 0
  {
    hide Writing, SoundWorld, Lookup, Wrote, Moved, GrewSlots, RangeSlots, Capacity;
    WritingCounts(w, mid, k, off, src, tot, added);
    WritingParts(w, mid, k, off, src, tot, added);
    NoGrowth(w.v, w.ss[k].ino.addrs, mid.v, mid.ss[k].ino.addrs, added, off / BSIZE);
    if tot > 0 {
      WroteFirst(w.v, w.ss[k].ino.addrs, mid.v, mid.ss[k].ino.addrs, off, src, tot);
    }
  }

  /** A write that found no room for its first byte has changed nothing a reader can see. */
  lemma WroteNothing(w: World, mid: World, k: nat, off: nat, src: seq<byte>, added: set<Slot>)
    requires Writing(w, mid, k, off, src, 0, added) && k < |w.ss| && k < |mid.ss|
    requires Lookup(mid.v, mid.ss[k].ino.addrs, off / BSIZE) == 0 && Solid(w.v, w.ss[k].ino)
    ensures Solid(mid.v, mid.ss[k].ino) && Contents(mid.v, mid.ss[k].ino) == Contents(w.v, w.ss[k].ino)
  {
    WritingParts(w, mid, k, off, src, 0, added);
    WritingInode(w, mid, k, off, src, 0, added);
    NothingNew(w.v, w.ss[k].ino, mid.v, mid.ss[k].ino, off, src);
  }

  lemma NothingNew(v: seq<Block>, ino: Inode, v': seq<Block>, ino': Inode, off: nat, src: seq<byte>)
    requires Wrote(v, ino.addrs, v', ino'.addrs, off, src, 0) && ino'.size == ino.size
    requires Lookup(v', ino'.addrs, off / BSIZE) == 0 && Solid(v, ino)
    ensures Solid(v', ino') && Contents(v', ino') == Contents(v, ino)
  {
    hide Lookup, Data;
    var b0 := off / BSIZE;
    forall b: nat ensures Lookup(v', ino'.addrs, b) == Lookup(v, ino.addrs, b) {
      if Lookup(v, ino.addrs, b) == 0 {
        assert Lookup(v', ino'.addrs, b) != 0 ==> b == b0;
      }
    }
    forall o | 0 <= o < ino.size ensures Contents(v', ino')[o] == Contents(v, ino)[o] {
      var b, x := o / BSIZE, o % BSIZE;
      assert BSIZE * b < ino.size && Lookup(v, ino.addrs, b) != 0;
      assert Data(v', ino'.addrs, b)[x] == Data(v, ino.addrs, b)[x];
    }
  }

  lemma GrewThenSame(v: seq<Block>, a: Addrs, v1: seq<Block>, a1: Addrs, v2: seq<Block>, added: set<Slot>)
    requires GrewSlots(v, a, v1, a1, added) && SameTree(v1, a1, v2)
    ensures GrewSlots(v, a, v2, a1, added)
  {
  }

  /** The tree after a complete write has grown by what its range was missing. */
  lemma AfterWriteSlots(w: World, mid: World, k: nat, off: uint32, src: seq<byte>, added: set<Slot>, now: uint32, d: set<Slot>)
    requires Writing(w, mid, k, off, src, |src|, added) && |src| < 0x1_0000_0000
    requires k < |w.ss| && k < |mid.ss| && mid.ss[k].ino.inum < NINODES == |mid.t| && BLOCK_START <= |mid.v|
    requires GrewSlots(w.v, w.ss[k].ino.addrs, mid.v, mid.ss[k].ino.addrs, d)
    ensures var w' := AfterWrite(mid, k, off, src, |src|, now);
      k < |w'.ss| && GrewSlots(w.v, w.ss[k].ino.addrs, w'.v, w'.ss[k].ino.addrs, d)
  {
    hide SoundWorld, Writing, GrewSlots, SameTree, Stored, OthersSame, Data;
    WritingSound(w, mid, k, off, src, |src|, added);
    var ino := mid.ss[k].ino;
    TouchedOthers(mid, k, ino.(size := Max(ino.size, Add32(off, |src|)), mtime := now, ctime := now));
    GrewThenSame(w.v, w.ss[k].ino.addrs, mid.v, ino.addrs, AfterWrite(mid, k, off, src, |src|, now).v, d);
  }

  /** What a range is missing can be supplied in two parts. */
  lemma MissingSplit(v: seq<Block>, a: Addrs, v': seq<Block>, a': Addrs, lo: nat, m: nat, hi: nat, mid: nat)
    requires lo <= m <= mid <= m + 1 && m <= hi && mid <= hi <= MAXBLOCKS
    requires GrewSlots(v, a, v', a', Missing(v, a, lo, mid))
    ensures |Missing(v, a, lo, hi)| == |Missing(v, a, lo, mid)| + |Missing(v', a', m, hi)|
  {
    var x, y, z := Missing(v, a, lo, mid), Missing(v', a', m, hi), Missing(v, a, lo, hi);
    forall s | s in z ensures s in x + y {
      var b: nat :| lo <= b < hi && s in Path(LeafOf(b));
      MissingGood(lo, hi, s);
    }
    forall s | s in y ensures s in z && s !in x {
      var b: nat :| m <= b < hi && s in Path(LeafOf(b));
      MissingGood(m, hi, s);
    }
    forall s | s in x ensures s in z {
      var b: nat :| lo <= b < mid && s in Path(LeafOf(b));
    }
    assert z == x + y && x !! y;
  }
}
