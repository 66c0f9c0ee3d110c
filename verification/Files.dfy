/** The bytes of a file, and what overwriting part of it does to them. */
module Files {
  import opened Bytes
  import opened BlockTree
  import opened Inodes
  import opened Growth

  /** The bytes a reader of the whole file is given. */
  function Contents(v: seq<Block>, ino: Inode): (c: seq<byte>)
    ensures |c| == ino.size
  {
    seq(ino.size, o requires 0 <= o < ino.size => Data(v, ino.addrs, o / BSIZE)[o % BSIZE])
  }

  /** No hole below the end of the file, nor below any mapped block. */
  ghost predicate Solid(v: seq<Block>, ino: Inode) {
    && ino.size <= MAXSIZE
    && (forall b: nat :: BSIZE * b < ino.size ==> Lookup(v, ino.addrs, b) != 0)
    && (forall b: nat, c: nat :: b <= c && Lookup(v, ino.addrs, c) != 0 ==> Lookup(v, ino.addrs, b) != 0)
  }

  /** The trees and the bytes of a file are the same in both device states. */
  ghost predicate SameFile(v: seq<Block>, a: Addrs, v': seq<Block>) {
    && SameTree(v, a, v')
    && forall b: nat :: Data(v', a, b) == Data(v, a, b)
  }

  lemma SameFileContents(v: seq<Block>, ino: Inode, v': seq<Block>)
    requires SameFile(v, ino.addrs, v')
    ensures Contents(v', ino) == Contents(v, ino)
    ensures Solid(v', ino) <==> Solid(v, ino)
  {
    forall b: nat ensures Lookup(v', ino.addrs, b) == Lookup(v, ino.addrs, b) { }
  }

  /** Bytes from position `o` to the end of its block, or `left` if that is fewer. */
  function ChunkLen(o: nat, left: nat): (m: nat)
    requires left > 0
    ensures 0 < m <= left && m <= BSIZE - o % BSIZE
  {
    var to_copy := BSIZE - o % BSIZE;
    if to_copy > left then left else to_copy
  }

  // ---------------------------------------------------------------- reading

  /** `d` starts with the `tot` bytes of the file at `off`, all of them in mapped blocks. */
  ghost predicate ReadOk(v: seq<Block>, a: Addrs, off: nat, d: seq<byte>, tot: nat) {
    && tot <= |d| && (tot == 0 || off + tot <= MAXSIZE)
    && (forall i: nat :: i < tot ==> d[i] == Data(v, a, (off + i) / BSIZE)[(off + i) % BSIZE])
    && (forall b: nat :: tot > 0 && off < BSIZE * b + BSIZE && BSIZE * b < off + tot ==> Lookup(v, a, b) != 0)
  }

  lemma ReadOkRange(v: seq<Block>, a: Addrs, off: nat, d: seq<byte>, tot: nat)
    requires ReadOk(v, a, off, d, tot)
    ensures tot <= |d| && (tot == 0 || off + tot <= MAXSIZE)
  {
  }

  lemma ReadStep(v: seq<Block>, a: Addrs, off: nat, d: seq<byte>, tot: nat, m: nat)
    requires ReadOk(v, a, off, d, tot) && tot + m <= |d| && 0 < m <= BSIZE - (off + tot) % BSIZE
    requires (off + tot) / BSIZE < MAXBLOCKS && Lookup(v, a, (off + tot) / BSIZE) != 0
    ensures var x := (off + tot) % BSIZE;
      ReadOk(v, a, off, Patch(d, tot, Data(v, a, (off + tot) / BSIZE)[x..x + m]), tot + m)
  {
    hide Lookup, Data;
    var b, x := (off + tot) / BSIZE, (off + tot) % BSIZE;
    var d' := Patch(d, tot, Data(v, a, b)[x..x + m]);
    forall i: nat | i < tot + m ensures d'[i] == Data(v, a, (off + i) / BSIZE)[(off + i) % BSIZE] {
      if i < tot {
        assert d[i] == Data(v, a, (off + i) / BSIZE)[(off + i) % BSIZE];
      } else {
        assert (off + i) / BSIZE == b && (off + i) % BSIZE == x + i - tot;
      }
    }
    forall c: nat | off < BSIZE * c + BSIZE && BSIZE * c < off + tot + m ensures Lookup(v, a, c) != 0 {
      assert BSIZE * c < off + tot || c == b;
    }
  }

  /** Reading a solid file returns its contents from `off` on. */
  lemma ReadContents(v: seq<Block>, ino: Inode, off: nat, d: seq<byte>, tot: nat, m: nat)
    requires ReadOk(v, ino.addrs, off, d, tot) && Solid(v, ino) && tot <= m && off + m <= ino.size
    requires tot < m ==> Lookup(v, ino.addrs, (off + tot) / BSIZE) == 0
    ensures tot == m && d[..m] == Contents(v, ino)[off..off + m]
  {
    hide Lookup, Data;
    assert BSIZE * ((off + tot) / BSIZE) <= off + tot;
  }

  // ---------------------------------------------------------------- writing

  lemma LookupRange(v: seq<Block>, t: seq<Inode>, owner: map<nat, Key>, n: nat, b: nat)
    requires TreesOk(v, t, owner) && n < |t| && Lookup(v, t[n].addrs, b) != 0
    ensures BLOCK_START <= Lookup(v, t[n].addrs, b) < |v|
  {
    assert At(v, Trees(t)[n], LeafOf(b)) == Lookup(v, t[n].addrs, b);
  }

  /** Storing into a data block of inode `n`. */
  lemma StoreData(v: seq<Block>, t: seq<Inode>, owner: map<nat, Key>, n: nat, b: nat, d: Block)
    requires TreesOk(v, t, owner) && n < |t|
    requires Lookup(v, t[n].addrs, b) != 0
    ensures var p := Lookup(v, t[n].addrs, b);
      && BLOCK_START <= p < |v| && p in owner && owner[p] == Key(n, LeafOf(b))
      && TreesOk(v[p := d], t, owner)
      && (forall i, u :: 0 <= i < |t| && Good(u) ==> At(v[p := d], t[i].addrs, u) == At(v, t[i].addrs, u))
  {
    var p := Lookup(v, t[n].addrs, b);
    assert At(v, Trees(t)[n], LeafOf(b)) == p;
    OwnedFrame(v, v[p := d], Trees(t), owner);
    forall i, u | 0 <= i < |t| && Good(u) ensures At(v[p := d], t[i].addrs, u) == At(v, t[i].addrs, u) {
      assert At(v[p := d], Trees(t)[i], u) == At(v, Trees(t)[i], u);
    }
  }

  lemma StoreAdvanced(v: seq<Block>, t: seq<Inode>, owner: map<nat, Key>, n: nat, b: nat, d: Block)
    requires TreesOk(v, t, owner) && n < |t|
    requires Lookup(v, t[n].addrs, b) != 0
    ensures Lookup(v, t[n].addrs, b) < |v|
    ensures Advanced(v, t, owner, v[Lookup(v, t[n].addrs, b) := d], t, owner, n, {})
  {
    StoreData(v, t, owner, n, b, d);
    hide TreesOk;
  }

  /** Other files do not notice. */
  lemma AdvancedOthers(v: seq<Block>, t: seq<Inode>, owner: map<nat, Key>,
                       v': seq<Block>, t': seq<Inode>, owner': map<nat, Key>, n: nat, added: set<Slot>, j: nat)
    requires Owned(v, Trees(t), owner) && Advanced(v, t, owner, v', t', owner', n, added)
    requires j < |t| && j != n
    ensures t'[j] == t[j] && SameFile(v, t[j].addrs, v')
  {
    OthersData(v, t, owner, v', owner', n, j);
  }

  lemma OthersData(v: seq<Block>, t: seq<Inode>, owner: map<nat, Key>, v': seq<Block>, owner': map<nat, Key>, n: nat, j: nat)
    requires Owned(v, Trees(t), owner) && KeptOthers(v, owner, v', owner', n)
    requires j < |t| && j != n && SameTree(v, t[j].addrs, v')
    ensures forall b: nat :: Data(v', t[j].addrs, b) == Data(v, t[j].addrs, b)
  {
    forall b: nat ensures Data(v', t[j].addrs, b) == Data(v, t[j].addrs, b) {
      var p := Lookup(v, t[j].addrs, b);
      assert Lookup(v', t[j].addrs, b) == p;
      if p != 0 {
        assert At(v, Trees(t)[j], LeafOf(b)) == p;
      }
    }
  }

  /** Of the bytes to be written at `off`, the first `tot` are in the file; every other
      byte of a block that was mapped before is unchanged, and only blocks touched by those
      bytes have been newly mapped. */
  ghost predicate Wrote(v: seq<Block>, a: Addrs, v': seq<Block>, a': Addrs, off: nat, src: seq<byte>, tot: nat) {
    && tot <= |src|
    && (forall b: nat :: Lookup(v, a, b) != 0 ==> Lookup(v', a', b) == Lookup(v, a, b))
    && (forall b: nat :: Lookup(v, a, b) == 0 && Lookup(v', a', b) != 0 ==> off / BSIZE <= b && BSIZE * b < off + tot)
    && (forall b: nat, x: nat :: x < BSIZE && off <= BSIZE * b + x < off + tot ==>
          Data(v', a', b)[x] == src[BSIZE * b + x - off])
    && (forall b: nat :: tot > 0 && off < BSIZE * b + BSIZE && BSIZE * b < off + tot ==> Lookup(v', a', b) != 0)
    && (forall b: nat, x: nat :: x < BSIZE && !(off <= BSIZE * b + x < off + tot) && Lookup(v, a, b) != 0 ==>
          Data(v', a', b)[x] == Data(v, a, b)[x])
  }

  /** A step that maps at most block `b` and stores `s` at `x0` in it. */
  ghost predicate Stored1(v: seq<Block>, a: Addrs, v': seq<Block>, a': Addrs, b: nat, x0: nat, s: seq<byte>) {
    && x0 + |s| <= BSIZE
    && Lookup(v', a', b) != 0
    && (forall c: nat :: Lookup(v, a, c) != 0 || c != b ==> Lookup(v', a', c) == Lookup(v, a, c))
    && (forall c: nat :: c != b && Lookup(v, a, c) != 0 ==> Data(v', a', c) == Data(v, a, c))
    && (forall x: nat :: x0 <= x < x0 + |s| ==> Data(v', a', b)[x] == s[x - x0])
    && (forall x: nat :: x < BSIZE && !(x0 <= x < x0 + |s|) && Lookup(v, a, b) != 0 ==>
          Data(v', a', b)[x] == Data(v, a, b)[x])
  }

  lemma WroteStep(v: seq<Block>, a: Addrs, v1: seq<Block>, a1: Addrs, v2: seq<Block>, a2: Addrs,
                  off: nat, src: seq<byte>, tot: nat, m: nat)
    requires Wrote(v, a, v1, a1, off, src, tot) && tot + m <= |src| && 0 < m <= BSIZE - (off + tot) % BSIZE
    requires Stored1(v1, a1, v2, a2, (off + tot) / BSIZE, (off + tot) % BSIZE, src[tot..tot + m])
    ensures Wrote(v, a, v2, a2, off, src, tot + m)
  {
    hide Lookup, Data;
    var b, x0 := (off + tot) / BSIZE, (off + tot) % BSIZE;
    forall c: nat | Lookup(v, a, c) == 0 && Lookup(v2, a2, c) != 0
      ensures off / BSIZE <= c && BSIZE * c < off + tot + m
    {
      if c != b { assert Lookup(v1, a1, c) != 0; }
    }
    forall c: nat | Lookup(v, a, c) != 0 ensures Lookup(v2, a2, c) == Lookup(v, a, c) {
      assert Lookup(v1, a1, c) == Lookup(v, a, c);
    }
    forall c: nat, x: nat | x < BSIZE && off <= BSIZE * c + x < off + tot + m
      ensures Data(v2, a2, c)[x] == src[BSIZE * c + x - off]
    {
      if BSIZE * c + x < off + tot {
        assert Data(v1, a1, c)[x] == src[BSIZE * c + x - off] && Lookup(v1, a1, c) != 0;
      } else {
        assert c == b && x0 <= x;
        assert src[tot..tot + m][x - x0] == src[BSIZE * c + x - off];
      }
    }
    forall c: nat | off < BSIZE * c + BSIZE && BSIZE * c < off + tot + m ensures Lookup(v2, a2, c) != 0 {
      if c != b { assert Lookup(v1, a1, c) != 0; }
    }
    forall c: nat, x: nat | x < BSIZE && !(off <= BSIZE * c + x < off + tot + m) && Lookup(v, a, c) != 0
      ensures Data(v2, a2, c)[x] == Data(v, a, c)[x]
    {
      assert Lookup(v1, a1, c) != 0 && Data(v1, a1, c)[x] == Data(v, a, c)[x];
    }
  }

  lemma LeafInPath(b: nat, c: nat)
    requires b < MAXBLOCKS && c < MAXBLOCKS && LeafOf(c) in Path(LeafOf(b))
    ensures b == c
  {
    PathInterior(LeafOf(b), LeafOf(c));
    LeafBlockInverse(b, LeafOf(b));
    LeafBlockInverse(c, LeafOf(c));
  }

  lemma {:induction false} PathInterior(s: Slot, u: Slot)
    requires Good(s) && u in Path(s)
    ensures Good(u) && (u == s || Interior(u))
  {
    if s.Sub? && u != s { PathInterior(s.parent, u); }
  }

  lemma GrewLookup(v: seq<Block>, a: Addrs, v1: seq<Block>, a1: Addrs, added: set<Slot>, b: nat)
    requires b < MAXBLOCKS && GrewSlots(v, a, v1, a1, added) && added <= Path(LeafOf(b))
    ensures forall c: nat :: Lookup(v, a, c) != 0 || c != b ==> Lookup(v1, a1, c) == Lookup(v, a, c)
  {
    forall c: nat | Lookup(v, a, c) != 0 || c != b ensures Lookup(v1, a1, c) == Lookup(v, a, c) {
      if c < MAXBLOCKS && LeafOf(c) in added {
        LeafInPath(b, c);
      }
    }
  }

  lemma GrewDataKept(v: seq<Block>, t: seq<Inode>, owner: map<nat, Key>, v1: seq<Block>, a1: Addrs, n: nat, c: nat)
    requires Owned(v, Trees(t), owner) && n < |t| && KeptData(v, owner, v1)
    requires Lookup(v, t[n].addrs, c) != 0 && Lookup(v1, a1, c) == Lookup(v, t[n].addrs, c)
    ensures Data(v1, a1, c) == Data(v, t[n].addrs, c)
  {
    assert At(v, Trees(t)[n], LeafOf(c)) == Lookup(v, t[n].addrs, c);
  }

  /** Growing the path of block `b` and then patching that block is such a step. */
  lemma PatchStep(v: seq<Block>, t: seq<Inode>, owner: map<nat, Key>, v1: seq<Block>, t1: seq<Inode>, owner1: map<nat, Key>,
                  n: nat, added: set<Slot>, b: nat, x0: nat, s: seq<byte>)
    requires TreesOk(v, t, owner) && TreesOk(v1, t1, owner1) && Grew(v, t, owner, v1, t1, owner1, n, added)
    requires b < MAXBLOCKS && added <= Path(LeafOf(b)) && x0 + |s| <= BSIZE
    requires Lookup(v1, t1[n].addrs, b) != 0
    ensures Lookup(v1, t1[n].addrs, b) < |v1|
    ensures var p := Lookup(v1, t1[n].addrs, b);
      Stored1(v, t[n].addrs, v1[p := Patch(v1[p], x0, s)], t1[n].addrs, b, x0, s)
  {
    hide TreesOk, Grew, Advanced, GrewSlots, KeptData, Owned, Lookup, Data, Stored1;
    GrewParts(v, t, owner, v1, t1, owner1, n, added);
    var a, a1, p := t[n].addrs, t1[n].addrs, Lookup(v1, t1[n].addrs, b);
    GrewLookup(v, a, v1, a1, added, b);
    LookupRange(v1, t1, owner1, n, b);
    StoreLookup(v1, t1, owner1, n, b, Patch(v1[p], x0, s));
    forall c: nat | Lookup(v, a, c) != 0 ensures Data(v1, a1, c) == Data(v, a, c) {
      GrewDataKept(v, t, owner, v1, a1, n, c);
    }
    DataAt(v1, a1, b);
    PatchedIsStored(v, a, v1, v1[p := Patch(v1[p], x0, s)], a1, b, x0, s);
  }

  lemma GrewParts(v: seq<Block>, t: seq<Inode>, owner: map<nat, Key>, v1: seq<Block>, t1: seq<Inode>, owner1: map<nat, Key>,
                  n: nat, added: set<Slot>)
    requires TreesOk(v, t, owner) && Grew(v, t, owner, v1, t1, owner1, n, added)
    ensures n < |t| == |t1| && |v1| == |v| && GrewSlots(v, t[n].addrs, v1, t1[n].addrs, added)
    ensures KeptData(v, owner, v1) && Owned(v, Trees(t), owner)
  {
  }

  lemma PatchedIsStored(v: seq<Block>, a: Addrs, v1: seq<Block>, v2: seq<Block>, a1: Addrs, b: nat, x0: nat, s: seq<byte>)
    requires x0 + |s| <= BSIZE && Lookup(v1, a1, b) != 0
    requires forall c: nat :: Lookup(v, a, c) != 0 || c != b ==> Lookup(v1, a1, c) == Lookup(v, a, c)
    requires forall c: nat :: Lookup(v, a, c) != 0 ==> Data(v1, a1, c) == Data(v, a, c)
    requires forall c: nat :: Lookup(v2, a1, c) == Lookup(v1, a1, c)
    requires forall c: nat :: Data(v2, a1, c) == if c == b then Patch(Data(v1, a1, b), x0, s) else Data(v1, a1, c)
    ensures Stored1(v, a, v2, a1, b, x0, s)
  {
    hide Lookup, Data;
  }

  lemma DataAt(v: seq<Block>, a: Addrs, b: nat)
    requires 0 < Lookup(v, a, b) < |v|
    ensures Data(v, a, b) == v[Lookup(v, a, b)]
  {
  }

  lemma StoreLookup(v: seq<Block>, t: seq<Inode>, owner: map<nat, Key>, n: nat, b: nat, d: Block)
    requires TreesOk(v, t, owner) && n < |t| && Lookup(v, t[n].addrs, b) != 0
    ensures Lookup(v, t[n].addrs, b) < |v|
    ensures var v' := v[Lookup(v, t[n].addrs, b) := d];
      && (forall c: nat :: Lookup(v', t[n].addrs, c) == Lookup(v, t[n].addrs, c))
      && (forall c: nat :: Data(v', t[n].addrs, c) == if c == b then d else Data(v, t[n].addrs, c))
  {
    StoreData(v, t, owner, n, b, d);
    var v' := v[Lookup(v, t[n].addrs, b) := d];
    forall c: nat ensures Lookup(v', t[n].addrs, c) == Lookup(v, t[n].addrs, c) { }
    forall c: nat ensures Data(v', t[n].addrs, c) == if c == b then d else Data(v, t[n].addrs, c) {
      if c != b && Lookup(v, t[n].addrs, c) != 0 { DistinctData(v, t, owner, n, b, c); }
    }
  }

  lemma DistinctData(v: seq<Block>, t: seq<Inode>, owner: map<nat, Key>, n: nat, b: nat, c: nat)
    requires Owned(v, Trees(t), owner) && n < |t| && b != c
    requires Lookup(v, t[n].addrs, b) != 0 && Lookup(v, t[n].addrs, c) != 0
    ensures Lookup(v, t[n].addrs, b) != Lookup(v, t[n].addrs, c)
  {
    LeafBlockInverse(b, LeafOf(b));
    LeafBlockInverse(c, LeafOf(c));
    assert At(v, Trees(t)[n], LeafOf(b)) == Lookup(v, t[n].addrs, b);
    assert At(v, Trees(t)[n], LeafOf(c)) == Lookup(v, t[n].addrs, c);
  }

  // ---------------------------------------------------------------- what a write means

  /** `s` laid over `c` at `off`, extending it if it reaches beyond the end. */
  function Overlay(c: seq<byte>, off: nat, s: seq<byte>): (r: seq<byte>)
    requires off <= |c|
    ensures |r| == Max(|c|, off + |s|)
  {
    c[..off] + s + (if off + |s| <= |c| then c[off + |s|..] else [])
  }

  /** A write that put `tot` bytes at `off` within or right after a solid file. */
  lemma WroteContents(v: seq<Block>, ino: Inode, v': seq<Block>, ino': Inode, off: nat, src: seq<byte>, tot: nat)
    requires Solid(v, ino) && off <= ino.size && Wrote(v, ino.addrs, v', ino'.addrs, off, src, tot)
    requires ino'.size <= Max(ino.size, off + tot)
    ensures Contents(v', ino') == Overlay(Contents(v, ino), off, src[..tot])[..ino'.size]
  {
    hide Lookup, Data;
    var c, c' := Contents(v, ino), Contents(v', ino');
    var r := Overlay(c, off, src[..tot]);
    forall o | 0 <= o < ino'.size ensures c'[o] == r[o] {
      var b, x := o / BSIZE, o % BSIZE;
      assert o == BSIZE * b + x;
      if off <= o < off + tot {
        assert Data(v', ino'.addrs, b)[x] == src[o - off];
      } else {
        assert Lookup(v, ino.addrs, b) != 0;
        assert Data(v', ino'.addrs, b)[x] == Data(v, ino.addrs, b)[x];
      }
    }
  }

  lemma WroteSolid(v: seq<Block>, ino: Inode, v': seq<Block>, ino': Inode, off: nat, src: seq<byte>, tot: nat)
    requires Solid(v, ino) && off <= ino.size && Wrote(v, ino.addrs, v', ino'.addrs, off, src, tot)
    requires ino'.size <= Max(ino.size, off + tot) && off + tot <= MAXSIZE
    ensures Solid(v', ino')
  {
    forall b: nat | BSIZE * b < ino'.size ensures Lookup(v', ino'.addrs, b) != 0 {
      WroteMapped(v, ino, v', ino'.addrs, off, src, tot, b);
    }
    forall b: nat, c: nat | b <= c && Lookup(v', ino'.addrs, c) != 0 ensures Lookup(v', ino'.addrs, b) != 0 {
      if Lookup(v, ino.addrs, c) == 0 {
        WroteMapped(v, ino, v', ino'.addrs, off, src, tot, b);
      }
    }
  }

  lemma WroteMapped(v: seq<Block>, ino: Inode, v': seq<Block>, a': Addrs, off: nat, src: seq<byte>, tot: nat, b: nat)
    requires Solid(v, ino) && off <= ino.size && Wrote(v, ino.addrs, v', a', off, src, tot)
    requires BSIZE * b < Max(ino.size, off + tot)
    ensures Lookup(v', a', b) != 0
  {
    if BSIZE * b < ino.size {
      assert Lookup(v, ino.addrs, b) != 0;
    } else {
      assert BSIZE * b < off + tot;
    }
  }

  // ---------------------------------------------------------------- how many blocks a write needs

  /** All slots on the way to logical blocks `lo..hi`. */
  ghost function RangeSlots(lo: nat, hi: nat): set<Slot> {
    set b: nat, s: Slot | lo <= b < hi && s in Path(LeafOf(b)) :: s
  }

  /** The slots that must be filled before blocks `lo..hi` are all mapped. */
  ghost function Missing(v: seq<Block>, a: Addrs, lo: nat, hi: nat): set<Slot> {
    set s | s in RangeSlots(lo, hi) && At(v, a, s) == 0
  }

  lemma MissingGood(lo: nat, hi: nat, s: Slot)
    requires s in RangeSlots(lo, hi) && hi <= MAXBLOCKS
    ensures Good(s)
  {
    var b: nat :| lo <= b < hi && s in Path(LeafOf(b));
    PathInterior(LeafOf(b), s);
  }

  lemma {:induction false} AtPath(v: seq<Block>, a: Addrs, s: Slot, u: Slot)
    requires At(v, a, s) != 0 && u in Path(s)
    ensures At(v, a, u) != 0
  {
    if s.Sub? && u != s { AtPath(v, a, s.parent, u); }
  }

  /** A range that ends up fully mapped has grown by exactly what was missing. */
  lemma MissingFilled(v: seq<Block>, a: Addrs, v': seq<Block>, a': Addrs, added: set<Slot>, lo: nat, hi: nat)
    requires GrewSlots(v, a, v', a', added) && added <= RangeSlots(lo, hi) && hi <= MAXBLOCKS
    requires forall b: nat :: lo <= b < hi ==> Lookup(v', a', b) != 0
    ensures added == Missing(v, a, lo, hi)
  {
    forall s | s in Missing(v, a, lo, hi) ensures s in added {
      var b: nat :| lo <= b < hi && s in Path(LeafOf(b));
      PathInterior(LeafOf(b), s);
      assert Lookup(v', a', b) != 0;
      AtPath(v', a', LeafOf(b), s);
    }
  }

  /** A range with a block still unmapped was missing more than it has been given. */
  lemma MissingStuck(v: seq<Block>, a: Addrs, v': seq<Block>, a': Addrs, added: set<Slot>, lo: nat, hi: nat, b: nat)
    requires GrewSlots(v, a, v', a', added) && added <= RangeSlots(lo, hi)
    requires lo <= b < hi && b < MAXBLOCKS && Lookup(v', a', b) == 0
    ensures |added| < |Missing(v, a, lo, hi)|
  {
    var leaf := LeafOf(b);
    assert leaf in Path(leaf);
    assert leaf in RangeSlots(lo, hi);
    assert leaf in Missing(v, a, lo, hi) && leaf !in added;
    SubsetSize(added + {leaf}, Missing(v, a, lo, hi));
  }
}
