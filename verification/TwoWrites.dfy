/** What two writes one behind the other do to block 0, as in `cmd_i`, in terms of the tree and the
    free blocks before both. */
module TwoWrites {
  import opened Bytes
  import opened BlockTree
  import opened Growth
  import opened Files
  import opened Writes
  import opened BlockZero

  /** A write from logical block `lo` on has found no block for `e`, and has taken the last one. */
  ghost predicate StoppedAt(v: seq<Block>, a: Addrs, v': seq<Block>, a': Addrs, used: nat, lo: nat, e: nat) {
    && lo <= e < MAXBLOCKS && Lookup(v', a', e) == 0 && (forall c: nat :: lo <= c < e ==> Lookup(v', a', c) != 0)
    && exists added :: GrewSlots(v, a, v', a', added) && added <= RangeSlots(lo, e + 1) && used + |added| == Capacity(|v|)
  }

  /** The free blocks last for logical blocks `lo..e`, but not for `e`. */
  ghost predicate FailsAt(v: seq<Block>, a: Addrs, used: nat, lo: nat, e: nat) {
    used + |Missing(v, a, lo, e)| <= Capacity(|v|) < used + |Missing(v, a, lo, e + 1)|
  }

  /** A write from `lo` on fails at a block that is not below the pointer block above block `b`, which
      is missing. */
  ghost predicate Strands(v: seq<Block>, a: Addrs, used: nat, lo: nat, b: nat) {
    && LeafOf(b).Sub? && At(v, a, LeafOf(b).parent) == 0
    && exists e: nat :: lo <= e <= b && FailsAt(v, a, used, lo, e) && LeafOf(b).parent !in Path(LeafOf(e))
  }

  /** `len` bytes are written at `p` and `rest` bytes behind them, and one of the two writes runs out of
      blocks at a pointer block: the first, or the two as one, or the second after the first has
      left the device full. */
  ghost predicate InsertOverrun(v: seq<Block>, a: Addrs, used: nat, p: nat, len: nat, rest: nat) {
    || Overrun(v, a, used, p, len)
    || (len > 0 && rest > 0 && p + len + rest <= MAXSIZE &&
          (Overrun(v, a, used, p, len + rest) || Strands(v, a, used, p / BSIZE, (p + len) / BSIZE)))
  }

  // ---------------------------------------------------------------- where the first write stops

  lemma StopFails(v: seq<Block>, a: Addrs, v': seq<Block>, a': Addrs, used: nat, lo: nat, e: nat)
    requires StoppedAt(v, a, v', a', used, lo, e)
    ensures FailsAt(v, a, used, lo, e)
  {
    hide GrewSlots, Missing, Lookup, Capacity, RangeSlots, LeafOf;
    var added :| GrewSlots(v, a, v', a', added) && added <= RangeSlots(lo, e + 1) && used + |added| == Capacity(|v|);
    MappedPart(v, a, v', a', added, lo, e);
    SubsetSize(Missing(v, a, lo, e), added);
    AddedMissing(v, a, v', a', added, lo, e);
    SubsetSize(added + {LeafOf(e)}, Missing(v, a, lo, e + 1));
  }

  lemma FailsOnce(v: seq<Block>, a: Addrs, used: nat, lo: nat, e: nat, f: nat)
    requires FailsAt(v, a, used, lo, e) && FailsAt(v, a, used, lo, f)
    ensures e == f
  {
    hide Missing, Capacity;
    if e < f { MissingGrows(v, a, lo, e + 1, f); }
    if f < e { MissingGrows(v, a, lo, f + 1, e); }
  }

  /** The slots on the way to a block. */
  lemma PathIs(b: nat)
    requires b < MAXBLOCKS
    ensures b < NDIRECT ==> Path(LeafOf(b)) == {Top(b)}
    ensures NDIRECT <= b < NDIRECT + IPTRS ==> Path(LeafOf(b)) == {Top(10), LeafOf(b)}
    ensures NDIRECT + IPTRS <= b < NDIRECT + 2 * IPTRS ==> Path(LeafOf(b)) == {Top(11), LeafOf(b)}
    ensures NDIRECT + 2 * IPTRS <= b ==>
              Path(LeafOf(b)) == {Top(12), Sub(Top(12), (b - NDIRECT - 2 * IPTRS) / IPTRS), LeafOf(b)}
  {
    if NDIRECT + 2 * IPTRS <= b {
      var q := Sub(Top(12), (b - NDIRECT - 2 * IPTRS) / IPTRS);
      assert Path(Top(12)) == {Top(12)} && Path(q) == {Top(12), q};
    } else if NDIRECT <= b {
      assert Path(LeafOf(b).parent) == {LeafOf(b).parent};
    }
  }

  lemma OnPath(e: nat, b: nat)
    requires e < MAXBLOCKS && b < MAXBLOCKS && LeafOf(b).Sub? && LeafOf(b).parent in Path(LeafOf(e))
    ensures LeafOf(e).Sub? && LeafOf(e).parent == LeafOf(b).parent
  {
    hide Path;
    PathIs(e);
  }

  /** Blocks below the same pointer block follow one another. */
  lemma Together(c: nat, e: nat, b: nat)
    requires c <= e <= b < MAXBLOCKS && LeafOf(b).Sub? && LeafOf(b).parent in Path(LeafOf(c))
    ensures LeafOf(e).Sub? && LeafOf(e).parent == LeafOf(b).parent
  {
    hide Path;
    OnPath(c, b);
  }

  lemma ParentGood(b: nat)
    requires b < MAXBLOCKS && LeafOf(b).Sub?
    ensures Good(LeafOf(b).parent)
  {
  }

  /** After the first write has stopped at `e`, the pointer block above `b` is missing exactly if it was
      missing before and is not the one above `e`. */
  lemma ParentAfter(v: seq<Block>, a: Addrs, v': seq<Block>, a': Addrs, used: nat, lo: nat, e: nat, b: nat)
    requires StoppedAt(v, a, v', a', used, lo, e) && !Short(v, a, used, lo, e) && e <= b < MAXBLOCKS && LeafOf(b).Sub?
    ensures At(v', a', LeafOf(b).parent) == 0
            <==> At(v, a, LeafOf(b).parent) == 0 && LeafOf(b).parent !in Path(LeafOf(e))
  {
    hide Missing, Lookup, Capacity, Short, Path, LeafOf;
    var added :| GrewSlots(v, a, v', a', added) && added <= RangeSlots(lo, e + 1) && used + |added| == Capacity(|v|);
    var p := LeafOf(b).parent;
    ParentGood(b);
    hide GrewSlots;
    ShortAtEnd(v, a, v', a', added, used, lo, e);
    if p in Path(LeafOf(e)) { OnPath(e, b); }
    if p in added {
      var c := BlockOn(lo, e + 1, p);
      Together(c, e, b);
      OwnPath(e);
    }
    GrewAt(v, a, v', a', added, p);
  }

  lemma GrewAt(v: seq<Block>, a: Addrs, v': seq<Block>, a': Addrs, added: set<Slot>, p: Slot)
    requires GrewSlots(v, a, v', a', added) && Good(p)
    ensures At(v', a', p) == 0 <==> At(v, a, p) == 0 && p !in added
  {
    hide At;
  }

  lemma BlockOn(lo: nat, hi: nat, s: Slot) returns (c: nat)
    requires s in RangeSlots(lo, hi)
    ensures lo <= c < hi && s in Path(LeafOf(c))
  {
    hide Path, LeafOf;
    c :| lo <= c < hi && s in Path(LeafOf(c));
  }

  // ---------------------------------------------------------------- the second write, after a first that stopped

  lemma NoneMissing(v: seq<Block>, a: Addrs, b: nat)
    ensures Missing(v, a, b, b) == {}
  {
  }

  lemma LeafMissing(v: seq<Block>, a: Addrs, b: nat, c: nat)
    requires b < c && b < MAXBLOCKS && Lookup(v, a, b) == 0
    ensures LeafOf(b) in Missing(v, a, b, c)
  {
    assert LeafOf(b) in Path(LeafOf(b));
    assert LeafOf(b) in RangeSlots(b, c);
  }

  /** One block lacks two slots or more exactly if the one above it is empty as well. */
  lemma TwoMissing(v: seq<Block>, a: Addrs, b: nat)
    requires b < MAXBLOCKS && Lookup(v, a, b) == 0
    ensures |Missing(v, a, b, b + 1)| > 1 <==> LeafOf(b).Sub? && At(v, a, LeafOf(b).parent) == 0
  {
    hide Missing;
    var leaf, m := LeafOf(b), Missing(v, a, b, b + 1);
    LeafMissing(v, a, b, b + 1);
    if leaf.Sub? && At(v, a, leaf.parent) == 0 {
      ParentIsMissing(v, a, b);
      assert leaf != leaf.parent;
      SubsetSize({leaf, leaf.parent}, m);
    } else {
      OneMissing(v, a, b);
    }
  }

  lemma ParentIsMissing(v: seq<Block>, a: Addrs, b: nat)
    requires b < MAXBLOCKS && LeafOf(b).Sub? && At(v, a, LeafOf(b).parent) == 0
    ensures LeafOf(b).parent in Missing(v, a, b, b + 1)
  {
    var leaf := LeafOf(b);
    assert leaf.parent in Path(leaf.parent);
    assert leaf.parent in Path(leaf);
    assert leaf.parent in RangeSlots(b, b + 1);
  }

  lemma OneMissing(v: seq<Block>, a: Addrs, b: nat)
    requires b < MAXBLOCKS && Lookup(v, a, b) == 0 && (LeafOf(b).Sub? ==> At(v, a, LeafOf(b).parent) != 0)
    ensures Missing(v, a, b, b + 1) == {LeafOf(b)}
  {
    hide Missing;
    LeafMissing(v, a, b, b + 1);
    var leaf, m := LeafOf(b), Missing(v, a, b, b + 1);
    forall s | s in m ensures s == leaf {
      OneOfRange(v, a, b, b + 1, s);
      if s != leaf { AtPath(v, a, leaf.parent, s); }
    }
  }

  /** On a full device a write that starts at an unmapped block runs out at it, exactly if the
      pointer block above it is missing. */
  lemma OverrunAtStart(v: seq<Block>, a: Addrs, off: nat, n: nat)
    requires n > 0 && off + n <= MAXSIZE && Lookup(v, a, off / BSIZE) == 0
    ensures Overrun(v, a, Capacity(|v|), off, n)
            <==> LeafOf(off / BSIZE).Sub? && At(v, a, LeafOf(off / BSIZE).parent) == 0
  {
    hide Missing, Capacity, Lookup, LeafOf, At;
    var b := off / BSIZE;
    assert b < Ceil(off + n) && b < MAXBLOCKS;
    NoneMissing(v, a, b);
    TwoMissing(v, a, b);
    forall c: nat | b < c && c < MAXBLOCKS ensures !Short(v, a, Capacity(|v|), b, c) {
      LeafMissing(v, a, b, c);
      SubsetSize({LeafOf(b)}, Missing(v, a, b, c));
    }
    assert Short(v, a, Capacity(|v|), b, b) <==> |Missing(v, a, b, b + 1)| > 1;
  }

  lemma SecondAfterStop(v: seq<Block>, a: Addrs, v': seq<Block>, a': Addrs, used: nat, lo: nat, e: nat, off: nat, n: nat)
    requires StoppedAt(v, a, v', a', used, lo, e) && !Short(v, a, used, lo, e) && |v'| == |v|
    requires n > 0 && off + n <= MAXSIZE && e <= off / BSIZE && Lookup(v', a', off / BSIZE) == 0
    ensures Overrun(v', a', Capacity(|v|), off, n) <==> Strands(v, a, used, lo, off / BSIZE)
  {
    hide StoppedAt, Missing, Capacity, Lookup, LeafOf, At, Short, Overrun, FailsAt;
    var b := off / BSIZE;
    StopFails(v, a, v', a', used, lo, e);
    OverrunAtStart(v', a', off, n);
    StopOrder(v, a, v', a', used, lo, e);
    if LeafOf(b).Sub? { ParentAfter(v, a, v', a', used, lo, e, b); }
    forall f: nat | FailsAt(v, a, used, lo, f) ensures f == e { FailsOnce(v, a, used, lo, e, f); }
  }

  lemma StopOrder(v: seq<Block>, a: Addrs, v': seq<Block>, a': Addrs, used: nat, lo: nat, e: nat)
    requires StoppedAt(v, a, v', a', used, lo, e)
    ensures lo <= e < MAXBLOCKS
  {
  }

  // ---------------------------------------------------------------- the second write, after a complete first

  /** A complete first write and a second behind it run out where the two as one would. */
  lemma SecondAfterFull(v: seq<Block>, a: Addrs, v': seq<Block>, a': Addrs, used: nat, p: nat, len: nat, rest: nat)
    requires len > 0 && rest > 0 && p + len + rest <= MAXSIZE && |v'| == |v|
    requires GrewSlots(v, a, v', a', Missing(v, a, p / BSIZE, Ceil(p + len)))
    requires used + |Missing(v, a, p / BSIZE, Ceil(p + len))| <= Capacity(|v|)
    requires forall c: nat :: p / BSIZE <= c < Ceil(p + len) ==> Lookup(v', a', c) != 0
    ensures Overrun(v', a', used + |Missing(v, a, p / BSIZE, Ceil(p + len))|, p + len, rest)
            <==> Overrun(v, a, used, p, len + rest)
  {
    hide Missing, Capacity, Lookup, GrewSlots;
    var lo, m, hi, used' := p / BSIZE, (p + len) / BSIZE, Ceil(p + len), used + |Missing(v, a, p / BSIZE, Ceil(p + len))|;
    assert lo <= m <= hi <= m + 1;
    forall b: nat | hi <= b < MAXBLOCKS ensures Short(v', a', used', m, b) <==> Short(v, a, used, lo, b) {
      MissingSplit(v, a, v', a', lo, m, b, hi);
      MissingSplit(v, a, v', a', lo, m, b + 1, hi);
    }
    forall b: nat | lo <= b < hi ensures !Short(v, a, used, lo, b) {
      MissingGrows(v, a, lo, b + 1, hi);
    }
    forall b: nat | m <= b < hi ensures !Short(v', a', used', m, b) {
      NothingMissing(v', a', m, b);
    }
    hide Short;
    assert (p + (len + rest)) == p + len + rest;
  }

  lemma NothingMissing(v: seq<Block>, a: Addrs, m: nat, b: nat)
    requires m <= b && forall c: nat :: m <= c <= b ==> Lookup(v, a, c) != 0
    ensures Missing(v, a, m, b + 1) == {}
  {
    forall s | s in RangeSlots(m, b + 1) ensures At(v, a, s) != 0 {
      var c := BlockOn(m, b + 1, s);
      assert Lookup(v, a, c) != 0;
      AtPath(v, a, LeafOf(c), s);
    }
  }

  /** A first write that completes leaves no other way to run out. */
  lemma FullNotStranded(v: seq<Block>, a: Addrs, used: nat, p: nat, len: nat)
    requires len > 0 && p + len <= MAXSIZE && used + |Missing(v, a, p / BSIZE, Ceil(p + len))| <= Capacity(|v|)
    ensures !Overrun(v, a, used, p, len) && !Strands(v, a, used, p / BSIZE, (p + len) / BSIZE)
  {
    hide Missing, Capacity;
    var lo, m, hi := p / BSIZE, (p + len) / BSIZE, Ceil(p + len);
    forall e: nat | lo <= e < hi ensures !FailsAt(v, a, used, lo, e) && !Short(v, a, used, lo, e) {
      MissingGrows(v, a, lo, e + 1, hi);
    }
    if Strands(v, a, used, lo, m) {
      var e: nat :| lo <= e <= m && FailsAt(v, a, used, lo, e) && LeafOf(m).parent !in Path(LeafOf(e));
      assert e == m;
      OwnPath(m);
    }
  }

  lemma OwnPath(b: nat)
    requires LeafOf(b).Sub?
    ensures LeafOf(b).parent in Path(LeafOf(b))
  {
    var q := LeafOf(b).parent;
    assert q in Path(q);
    assert Path(LeafOf(b)) == Path(q) + {LeafOf(b)};
  }

  /** A first write that stops short leaves only these two. */
  lemma StoppedNotWhole(v: seq<Block>, a: Addrs, v': seq<Block>, a': Addrs, used: nat, p: nat, len: nat, rest: nat, e: nat)
    requires len > 0 && p + len + rest <= MAXSIZE && StoppedAt(v, a, v', a', used, p / BSIZE, e) && e < Ceil(p + len)
    ensures Overrun(v, a, used, p, len) <==> Short(v, a, used, p / BSIZE, e)
    ensures Overrun(v, a, used, p, len + rest) <==> Short(v, a, used, p / BSIZE, e)
  {
    hide StoppedAt, Missing, Capacity, Lookup;
    var lo := p / BSIZE;
    StopFails(v, a, v', a', used, lo, e);
    StopOrder(v, a, v', a', used, lo, e);
    forall b: nat | Short(v, a, used, lo, b) ensures b == e {
      FailsOnce(v, a, used, lo, e, b);
    }
    assert Ceil(p + len) <= Ceil(p + (len + rest));
  }

  /** What a write needed it has been given. */
  lemma FullMapped(v: seq<Block>, a: Addrs, v': seq<Block>, a': Addrs, lo: nat, hi: nat)
    requires GrewSlots(v, a, v', a', Missing(v, a, lo, hi)) && hi <= MAXBLOCKS
    ensures forall c: nat :: lo <= c < hi ==> Lookup(v', a', c) != 0
  {
    hide At, LeafOf;
    forall c: nat | lo <= c < hi ensures Lookup(v', a', c) != 0 {
      assert LeafOf(c) in Path(LeafOf(c));
      assert LeafOf(c) in RangeSlots(lo, hi);
      LeafIsGood(c);
    }
  }

  lemma LeafIsGood(b: nat)
    requires b < MAXBLOCKS
    ensures Good(LeafOf(b))
  {
  }

  /** A second write that begins beyond the largest file does nothing. */
  lemma BeyondLargest(v: seq<Block>, a: Addrs, used: nat, off: nat, n: nat)
    requires off >= MAXSIZE
    ensures !Overrun(v, a, used, off, n)
  {
    hide Short;
  }

  /** Nor does one that would make the file too large. */
  lemma TooLarge(v: seq<Block>, a: Addrs, used: nat, off: nat, n: nat)
    requires MAXSIZE < off + n < 0x1_0000_0000
    ensures !Overrun(v, a, used, off, n)
  {
    hide Short;
  }

  /** It depends on the shape of the tree and the number of blocks taken alone. */
  lemma SameInserting(v: seq<Block>, a: Addrs, v': seq<Block>, used: nat, p: nat, len: nat, rest: nat)
    requires SameFile(v, a, v') && |v'| == |v|
    ensures InsertOverrun(v', a, used, p, len, rest) <==> InsertOverrun(v, a, used, p, len, rest)
  {
    hide Overrun, Strands, SameTree, Data;
    SameOverrun(v, a, v', used, p, len);
    SameOverrun(v, a, v', used, p, len + rest);
    if len > 0 && rest > 0 && p + len + rest <= MAXSIZE {
      SameStrands(v, a, v', used, p / BSIZE, (p + len) / BSIZE);
    }
  }

  lemma SameStrands(v: seq<Block>, a: Addrs, v': seq<Block>, used: nat, lo: nat, b: nat)
    requires SameTree(v, a, v') && |v'| == |v| && b < MAXBLOCKS
    ensures Strands(v', a, used, lo, b) <==> Strands(v, a, used, lo, b)
  {
    hide Missing, Capacity, Path, LeafOf;
    forall e: nat | e <= b ensures FailsAt(v', a, used, lo, e) <==> FailsAt(v, a, used, lo, e) {
      MissingSame(v, a, v', lo, e);
      MissingSame(v, a, v', lo, e + 1);
    }
    if LeafOf(b).Sub? { ParentGood(b); }
  }

  /** An input: a full device and a file of two bytes, whose one block is all it has. Inserting 5120 bytes at
      position 1 fails at the second block, and then writes the last byte behind the tenth, where
      it zeroes the superblock; neither the first write nor the two as one would have. */
  lemma SecondStrands(v: seq<Block>, a: Addrs, used: nat)
    requires a[0] != 0 && (forall i :: 0 < i < NADDRS ==> a[i] == 0) && used == Capacity(|v|)
    ensures InsertOverrun(v, a, used, 1, 5120, 1)
    ensures !Overrun(v, a, used, 1, 5120) && !Overrun(v, a, used, 1, 5121)
  {
    hide Missing, Capacity, Path;
    NothingMissing(v, a, 0, 0);
    SecondMissing(v, a);
    forall b: nat ensures !Short(v, a, used, 0, b) {
      if b > 1 { MissingGrows(v, a, 0, 2, b); }
    }
    hide Short;
    NoneMissing(v, a, 0);
    assert FailsAt(v, a, used, 0, 1);
    PathIs(1);
    assert LeafOf(10) == Sub(Top(10), 0);
    assert Strands(v, a, used, 0, 10);
  }

  lemma SecondMissing(v: seq<Block>, a: Addrs)
    requires a[0] != 0 && a[1] == 0
    ensures Missing(v, a, 0, 2) == {Top(1)} && |Missing(v, a, 0, 2)| == 1
  {
    var m := Missing(v, a, 0, 2);
    assert LeafOf(1) == Top(1) && Path(Top(1)) == {Top(1)} && Path(Top(0)) == {Top(0)};
    assert Top(1) in RangeSlots(0, 2);
    forall s | s in m ensures s == Top(1) {
      OneOfRange(v, a, 0, 2, s);
      var c: nat :| 0 <= c < 2 && s in Path(LeafOf(c));
    }
    assert m == {Top(1)};
  }
}
