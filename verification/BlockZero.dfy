/** What a write does to block 0. A pointer block that cannot be allocated has number 0, and
    `bmap` zeroes the block of that number all the same: the superblock. */
module BlockZero {
  import opened Bytes
  import opened BlockTree
  import opened Inodes
  import opened Growth
  import opened Files
  import opened World
  import opened Writes

  /** With `used` blocks taken, what is free covers all that logical blocks `lo..b` of the tree
      are missing, but is at least two blocks short of what block `b` needs on top of that: the
      block itself and a pointer block above it. */
  ghost predicate Short(v: seq<Block>, a: Addrs, used: nat, lo: nat, b: nat) {
    used + |Missing(v, a, lo, b)| <= Capacity(|v|) < used + |Missing(v, a, lo, b + 1)| - 1
  }

  /** A write of `n` bytes at `off` runs out of blocks at a pointer block. */
  ghost predicate Overrun(v: seq<Block>, a: Addrs, used: nat, off: nat, n: nat) {
    && n > 0 && (off + n) % 0x1_0000_0000 <= MAXSIZE
    && exists b: nat :: off / BSIZE <= b < Ceil(off + n) && b < MAXBLOCKS && Short(v, a, used, off / BSIZE, b)
  }

  /** The block of position `o` hangs below a pointer block that is missing. */
  predicate NoParent(v: seq<Block>, a: Addrs, o: nat) {
    o < MAXSIZE && LeafOf(o / BSIZE).Sub? && At(v, a, LeafOf(o / BSIZE).parent) == 0
  }

  // ---------------------------------------------------------------- where a write stops

  /** Blocks that are mapped afterwards have been given what they were missing. */
  lemma MappedPart(v: seq<Block>, a: Addrs, v': seq<Block>, a': Addrs, added: set<Slot>, lo: nat, b: nat)
    requires GrewSlots(v, a, v', a', added) && b <= MAXBLOCKS
    requires forall c: nat :: lo <= c < b ==> Lookup(v', a', c) != 0
    ensures Missing(v, a, lo, b) <= added
  {
    forall s | s in Missing(v, a, lo, b) ensures s in added {
      var c: nat :| lo <= c < b && s in Path(LeafOf(c));
      PathInterior(LeafOf(c), s);
      assert Lookup(v', a', c) != 0;
      AtPath(v', a', LeafOf(c), s);
    }
  }

  lemma MissingGrows(v: seq<Block>, a: Addrs, lo: nat, b: nat, b': nat)
    requires b <= b'
    ensures Missing(v, a, lo, b) <= Missing(v, a, lo, b')
    ensures |Missing(v, a, lo, b)| <= |Missing(v, a, lo, b')|
  {
    SubsetSize(Missing(v, a, lo, b), Missing(v, a, lo, b'));
  }

  /** Nothing runs short at a block that has been mapped. */
  lemma NotShortBelow(v: seq<Block>, a: Addrs, v': seq<Block>, a': Addrs, added: set<Slot>, used: nat, lo: nat, b: nat, c: nat)
    requires GrewSlots(v, a, v', a', added) && lo <= c < b <= MAXBLOCKS && used + |added| <= Capacity(|v|)
    requires forall c: nat :: lo <= c < b ==> Lookup(v', a', c) != 0
    ensures !Short(v, a, used, lo, c)
  {
    hide GrewSlots, Missing, Lookup, Capacity;
    MappedPart(v, a, v', a', added, lo, b);
    MissingGrows(v, a, lo, c + 1, b);
    SubsetSize(Missing(v, a, lo, b), added);
  }

  /** What was added lies in what the blocks up to the one that failed were missing. */
  lemma AddedMissing(v: seq<Block>, a: Addrs, v': seq<Block>, a': Addrs, added: set<Slot>, lo: nat, b: nat)
    requires GrewSlots(v, a, v', a', added) && added <= RangeSlots(lo, b + 1) && lo <= b < MAXBLOCKS
    requires Lookup(v', a', b) == 0
    ensures added <= Missing(v, a, lo, b + 1) && LeafOf(b) in Missing(v, a, lo, b + 1) && LeafOf(b) !in added
  {
    assert LeafOf(b) in Path(LeafOf(b));
    assert LeafOf(b) in RangeSlots(lo, b + 1);
  }

  /** Beyond the block that failed too much is missing already. */
  lemma NotShortAbove(v: seq<Block>, a: Addrs, v': seq<Block>, a': Addrs, added: set<Slot>, used: nat, lo: nat, b: nat, c: nat)
    requires GrewSlots(v, a, v', a', added) && added <= RangeSlots(lo, b + 1) && lo <= b < c && b < MAXBLOCKS
    requires Lookup(v', a', b) == 0 && used + |added| == Capacity(|v|)
    ensures !Short(v, a, used, lo, c)
  {
    hide GrewSlots, Missing, Lookup, Capacity, LeafOf, RangeSlots;
    AddedMissing(v, a, v', a', added, lo, b);
    MissingGrows(v, a, lo, b + 1, c);
    SubsetSize(added + {LeafOf(b)}, Missing(v, a, lo, b + 1));
  }

  /** At the block that failed, the parent is missing exactly if two blocks were. */
  lemma ShortAtEnd(v: seq<Block>, a: Addrs, v': seq<Block>, a': Addrs, added: set<Slot>, used: nat, lo: nat, b: nat)
    requires GrewSlots(v, a, v', a', added) && added <= RangeSlots(lo, b + 1) && lo <= b < MAXBLOCKS
    requires Lookup(v', a', b) == 0 && used + |added| == Capacity(|v|)
    requires forall c: nat :: lo <= c < b ==> Lookup(v', a', c) != 0
    ensures Short(v, a, used, lo, b) <==> LeafOf(b).Sub? && At(v', a', LeafOf(b).parent) == 0
  {
    hide GrewSlots, Missing, Lookup, Capacity, LeafOf, RangeSlots;
    var leaf, m := LeafOf(b), Missing(v, a, lo, b + 1);
    MappedPart(v, a, v', a', added, lo, b);
    SubsetSize(Missing(v, a, lo, b), added);
    AddedMissing(v, a, v', a', added, lo, b);
    if leaf.Sub? && At(v', a', leaf.parent) == 0 {
      ParentMissing(v, a, v', a', added, lo, b);
      SubsetSize(added + {leaf, leaf.parent}, m);
    } else {
      OnlyLeaf(v, a, v', a', added, lo, b);
      assert |added + {leaf}| == |added| + 1;
    }
  }

  lemma ParentMissing(v: seq<Block>, a: Addrs, v': seq<Block>, a': Addrs, added: set<Slot>, lo: nat, b: nat)
    requires GrewSlots(v, a, v', a', added) && lo <= b < MAXBLOCKS
    requires LeafOf(b).Sub? && At(v', a', LeafOf(b).parent) == 0
    ensures LeafOf(b).parent in Missing(v, a, lo, b + 1) && LeafOf(b).parent !in added
  {
    var leaf := LeafOf(b);
    assert Good(leaf.parent) && leaf.parent in Path(leaf.parent);
    assert leaf.parent in Path(leaf);
    assert leaf.parent in RangeSlots(lo, b + 1);
  }

  lemma OnlyLeaf(v: seq<Block>, a: Addrs, v': seq<Block>, a': Addrs, added: set<Slot>, lo: nat, b: nat)
    requires GrewSlots(v, a, v', a', added) && added <= RangeSlots(lo, b + 1) && lo <= b < MAXBLOCKS
    requires Lookup(v', a', b) == 0 && forall c: nat :: lo <= c < b ==> Lookup(v', a', c) != 0
    requires LeafOf(b).Sub? ==> At(v', a', LeafOf(b).parent) != 0
    ensures Missing(v, a, lo, b + 1) == added + {LeafOf(b)}
  {
    hide RangeSlots;
    AddedMissing(v, a, v', a', added, lo, b);
    var leaf, m := LeafOf(b), Missing(v, a, lo, b + 1);
    forall s | s in m && s != leaf ensures s in added {
      OneOfRange(v, a, lo, b + 1, s);
      var c: nat :| lo <= c < b + 1 && s in Path(LeafOf(c));
      PathInterior(LeafOf(c), s);
      if c < b {
        assert Lookup(v', a', c) != 0;
        AtPath(v', a', LeafOf(c), s);
      } else {
        AtPath(v', a', leaf.parent, s);
      }
    }
  }

  lemma OneOfRange(v: seq<Block>, a: Addrs, lo: nat, hi: nat, s: Slot)
    requires s in Missing(v, a, lo, hi)
    ensures At(v, a, s) == 0 && exists c: nat :: lo <= c < hi && s in Path(LeafOf(c))
  {
  }

  // ---------------------------------------------------------------- a whole write

  /** A round that maps its block leaves block 0 alone. */
  lemma StepSuper(w: World, w1: World, w2: World, k: nat, b: nat, x: Block, d: set<Slot>)
    requires Super(w.v, w1.v, false) && b < MAXBLOCKS && Mapping(w1, w2, k, LeafOf(b), true, d) && k < |w2.ss|
    requires BLOCK_START <= Lookup(w2.v, w2.ss[k].ino.addrs, b) < |w2.v|
    ensures Super(w.v, Put(w2, k, b, x).v, false)
  {
    hide Extended, At, Path;
    ParentMapped(w2.v, w2.ss[k].ino.addrs, LeafOf(b));
  }

  lemma ParentMapped(v: seq<Block>, a: Addrs, s: Slot)
    requires At(v, a, s) != 0
    ensures s.Sub? ==> At(v, a, s.parent) != 0
  {
  }

  /** A round that finds no block zeroes it exactly if a pointer block is missing. */
  lemma StopSuper(w: World, w1: World, w2: World, k: nat, o: nat, d: set<Slot>)
    requires Super(w.v, w1.v, false) && o / BSIZE < MAXBLOCKS && Mapping(w1, w2, k, LeafOf(o / BSIZE), true, d) && k < |w2.ss|
    requires Lookup(w2.v, w2.ss[k].ino.addrs, o / BSIZE) == 0
    ensures Super(w.v, w2.v, NoParent(w2.v, w2.ss[k].ino.addrs, o))
  {
    hide Extended, At, Path;
  }

  lemma BeyondMax(v: seq<Block>, a: Addrs, o: nat)
    requires o / BSIZE >= MAXBLOCKS
    ensures !NoParent(v, a, o)
  {
  }

  /** Inode records lie behind block 0. */
  lemma StoredSuper(v: seq<Block>, x: Inode, r: uint32)
    requires x.inum < NINODES && BLOCK_START <= |v|
    ensures Super(v, Stored(v, x.inum, x, r), false)
  {
  }

  /** The blocks before the one a write stopped at are mapped, and it stopped at a boundary. */
  lemma WroteBelow(v: seq<Block>, a: Addrs, v': seq<Block>, a': Addrs, off: nat, src: seq<byte>, tot: nat)
    requires Wrote(v, a, v', a', off, src, tot)
    ensures forall c: nat :: off / BSIZE <= c < (off + tot) / BSIZE ==> Lookup(v', a', c) != 0
  {
    hide Lookup, Data;
    forall c: nat | off / BSIZE <= c < (off + tot) / BSIZE ensures Lookup(v', a', c) != 0 {
      assert off < BSIZE * c + BSIZE && BSIZE * c < off + tot;
    }
  }

  /** A write zeroes block 0 exactly when it runs out of blocks at a pointer block. */
  lemma WriteOverruns(w: World, mid: World, k: nat, off: nat, src: seq<byte>, tot: nat, added: set<Slot>)
    requires Writing(w, mid, k, off, src, tot, added) && |src| > 0 && (off + |src|) % 0x1_0000_0000 <= MAXSIZE && k < |mid.ss|
    requires tot < |src| ==>
               && Lookup(mid.v, mid.ss[k].ino.addrs, (off + tot) / BSIZE) == 0
               && (off + tot >= MAXSIZE || |mid.owner| == Capacity(|mid.v|))
    ensures k < |w.ss|
    ensures Overrun(w.v, w.ss[k].ino.addrs, |w.owner|, off, |src|)
            <==> tot < |src| && NoParent(mid.v, mid.ss[k].ino.addrs, off + tot)
  {
    hide Writing, Wrote, GrewSlots, SoundWorld, Lookup, Missing, RangeSlots, Capacity, LeafOf, At, Short;
    WritingCounts(w, mid, k, off, src, tot, added);
    WritingParts(w, mid, k, off, src, tot, added);
    var a, a', lo, hi, used := w.ss[k].ino.addrs, mid.ss[k].ino.addrs, off / BSIZE, Ceil(off + |src|), |w.owner|;
    var e := if tot == |src| then hi else (off + tot) / BSIZE;
    if tot == |src| {
      WroteAll(w.v, a, mid.v, a', off, src);
    } else {
      WroteBelow(w.v, a, mid.v, a', off, src, tot);
      StopsInside(off, tot, |src|);
      if off + tot < MAXSIZE {
        ShortAtEnd(w.v, a, mid.v, a', added, used, lo, e);
      }
    }
    forall b: nat | lo <= b < hi && b < MAXBLOCKS && Short(w.v, a, used, lo, b)
      ensures tot < |src| && off + tot < MAXSIZE && b == e
    {
      if b < e { NotShortBelow(w.v, a, mid.v, a', added, used, lo, Min(e, MAXBLOCKS), b); }
      if b > e { NotShortAbove(w.v, a, mid.v, a', added, used, lo, e, b); }
    }
  }

  lemma StopsInside(off: nat, tot: nat, n: nat)
    requires tot < n
    ensures off / BSIZE <= (off + tot) / BSIZE < Ceil(off + n)
    ensures (off + tot) / BSIZE < MAXBLOCKS <==> off + tot < MAXSIZE
  {
  }

  // ---------------------------------------------------------------- when it cannot happen, and when it does

  lemma MissingSame(v: seq<Block>, a: Addrs, v': seq<Block>, lo: nat, hi: nat)
    requires SameTree(v, a, v') && hi <= MAXBLOCKS
    ensures Missing(v', a, lo, hi) == Missing(v, a, lo, hi)
  {
    forall s | s in RangeSlots(lo, hi) ensures At(v', a, s) == At(v, a, s) {
      MissingGood(lo, hi, s);
    }
  }

  /** It depends on the shape of the tree and the number of blocks taken alone. */
  lemma SameOverrun(v: seq<Block>, a: Addrs, v': seq<Block>, used: nat, off: nat, n: nat)
    requires SameTree(v, a, v') && |v'| == |v|
    ensures Overrun(v', a, used, off, n) <==> Overrun(v, a, used, off, n)
  {
    hide Missing, Capacity, SameTree;
    forall b: nat | b < MAXBLOCKS ensures Short(v', a, used, off / BSIZE, b) <==> Short(v, a, used, off / BSIZE, b) {
      MissingSame(v, a, v', off / BSIZE, b);
      MissingSame(v, a, v', off / BSIZE, b + 1);
    }
  }

  /** Only a write that leaves the device full can do it. */
  lemma OverrunFull(v: seq<Block>, a: Addrs, used: nat, off: nat, n: nat)
    requires Overrun(v, a, used, off, n)
    ensures off + n <= MAXSIZE ==> used + |Missing(v, a, off / BSIZE, Ceil(off + n))| > Capacity(|v|)
  {
    hide Missing, Capacity;
    var b: nat :| off / BSIZE <= b < Ceil(off + n) && b < MAXBLOCKS && Short(v, a, used, off / BSIZE, b);
    MissingGrows(v, a, off / BSIZE, b + 1, Ceil(off + n));
  }

  /** Writing over blocks that are all there cannot. */
  lemma NoOverrun(v: seq<Block>, ino: Inode, used: nat, off: nat, n: nat)
    requires Solid(v, ino) && off + n <= ino.size && used <= Capacity(|v|)
    ensures !Overrun(v, ino.addrs, used, off, n)
  {
    hide Capacity, Missing, Solid;
    if Overrun(v, ino.addrs, used, off, n) {
      var b: nat :| off / BSIZE <= b < Ceil(off + n) && b < MAXBLOCKS && Short(v, ino.addrs, used, off / BSIZE, b);
      AllThere(v, ino, off / BSIZE, b);
    }
  }

  lemma AllThere(v: seq<Block>, ino: Inode, lo: nat, b: nat)
    requires Solid(v, ino) && BSIZE * b < ino.size
    ensures Missing(v, ino.addrs, lo, b + 1) == {}
  {
    forall s | s in RangeSlots(lo, b + 1) ensures At(v, ino.addrs, s) != 0 {
      var c: nat :| lo <= c < b + 1 && s in Path(LeafOf(c));
      assert Lookup(v, ino.addrs, c) != 0;
      AtPath(v, ino.addrs, LeafOf(c), s);
    }
  }

  /** An input: a file without blocks and ten free blocks. Writing 5121 bytes takes the ten for
      the direct blocks and zeroes the superblock over the eleventh. */
  lemma EleventhBlock(v: seq<Block>, a: Addrs, used: nat)
    requires (forall i :: 0 <= i < NADDRS ==> a[i] == 0) && used + 10 == Capacity(|v|)
    ensures Overrun(v, a, used, 0, 5121)
  {
    hide Capacity, Missing;
    TopsMissing(v, a, 10);
    TenthMissing(v, a);
    MissingGrows(v, a, 0, 10, 11);
    SubsetSize(Missing(v, a, 0, 10) + {Top(10), Sub(Top(10), 0)}, Missing(v, a, 0, 11));
    assert Ceil(5121) == 11;
    assert Short(v, a, used, 0 / BSIZE, 10);
  }

  lemma TenthMissing(v: seq<Block>, a: Addrs)
    requires a[10] == 0
    ensures Top(10) in Missing(v, a, 0, 11) && Sub(Top(10), 0) in Missing(v, a, 0, 11)
  {
    assert LeafOf(10) == Sub(Top(10), 0) && Path(LeafOf(10)) == {Top(10), Sub(Top(10), 0)};
    assert Top(10) in RangeSlots(0, 11) && Sub(Top(10), 0) in RangeSlots(0, 11);
  }

  lemma TopMissing(v: seq<Block>, a: Addrs, n: nat, s: Slot)
    requires n <= NDIRECT && forall i :: 0 <= i < NADDRS ==> a[i] == 0
    ensures s in Missing(v, a, 0, n) <==> s.Top? && s.i < n
  {
    if s.Top? && s.i < n {
      assert s in Path(LeafOf(s.i));
    }
    if s in Missing(v, a, 0, n) {
      var b: nat :| 0 <= b < n && s in Path(LeafOf(b));
    }
  }

  lemma {:induction false} TopsMissing(v: seq<Block>, a: Addrs, n: nat)
    requires n <= NDIRECT && forall i :: 0 <= i < NADDRS ==> a[i] == 0
    ensures |Missing(v, a, 0, n)| == n && forall s :: s in Missing(v, a, 0, n) <==> s.Top? && s.i < n
  {
    hide Missing;
    forall s ensures s in Missing(v, a, 0, n) <==> s.Top? && s.i < n {
      TopMissing(v, a, n, s);
    }
    if n > 0 {
      TopsMissing(v, a, n - 1);
      assert Missing(v, a, 0, n) == Missing(v, a, 0, n - 1) + {Top(n - 1)};
    } else {
      assert Missing(v, a, 0, 0) == {};
    }
  }
}
