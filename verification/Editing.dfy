/** `cat`, `w`, `i` and `d` on the inode they have looked up. */
module Editing {
  import opened Bytes
  import opened Results
  import opened BlockTree
  import opened Inodes
  import opened Growth
  import opened Files
  import opened World
  import opened Writes
  import opened BlockZero
  import opened TwoWrites
  import opened FileSystem
  import opened Cache
  import opened Commands

  function Inserted(c: seq<byte>, p: nat, data: seq<byte>): seq<byte>
    requires p <= |c|
  {
    c[..p] + data + c[p..]
  }

  function Deleted(c: seq<byte>, pos: nat, len: nat): seq<byte>
    requires pos <= |c|
  {
    c[..pos] + c[Min(pos + len, |c|)..]
  }

  /** Deleting what was just inserted restores the file. */
  lemma DeleteUndoesInsert(c: seq<byte>, p: nat, data: seq<byte>)
    requires p <= |c|
    ensures Deleted(Inserted(c, p, data), p, |data|) == c
  {
    var d := Inserted(c, p, data);
    assert d[..p] == c[..p] && d[p + |data|..] == c[p..];
  }

  /** An insertion of `len` bytes at `p` finds room: the file stays below the maximum size and
      the disk has as many free blocks as the grown part of the file is missing. */
  ghost predicate Fits(w: World, k: nat, p: nat, len: nat)
    requires k < |w.ss| && p <= w.ss[k].ino.size
  {
    var size := w.ss[k].ino.size;
    && size + len <= MAXSIZE
    && |w.owner| + Need(w, k, p, size + len - p) <= Capacity(|w.v|)
  }

  /** The tree of inode `n` is the same. */
  lemma PeekedNeed(w: World, w1: World, k: nat, off: nat, n: nat)
    requires k < |w.ss| && k < |w1.ss| && w1.ss[k].ino.addrs == w.ss[k].ino.addrs && |w1.v| == |w.v|
    requires SameFile(w.v, w.ss[k].ino.addrs, w1.v) && off + n <= MAXSIZE
    ensures Need(w1, k, off, n) == Need(w, k, off, n)
  {
    var x, y := Lacking(w, k, off, n), Lacking(w1, k, off, n);
    forall s | s in RangeSlots(off / BSIZE, Ceil(off + n))
      ensures At(w1.v, w.ss[k].ino.addrs, s) == At(w.v, w.ss[k].ino.addrs, s)
    {
      MissingGood(off / BSIZE, Ceil(off + n), s);
    }
    assert x == y;
  }

  /** The two writes of `cmd_i`: what they need together, and when the second may start. */
  lemma SecondWrite(w1: World, w2: World, k: nat, p: uint32, data: seq<byte>, tot: Option<nat>)
    requires SoundWorld(w1) && k < |w1.ss| && w1.ss[k].ino.inum < NINODES == |w1.t| && k < |w2.ss|
    requires WriteSpec(w1, w2, k, p, data, tot) && p <= w1.ss[k].ino.size <= MAXSIZE && |data| < 0x1_0000_0000
    requires w2.ss[k].ino == w2.t[w1.ss[k].ino.inum]
    ensures var off := Add32(p, |data|); off <= w2.ss[k].ino.size || Stuck(w2, k, off)
  {
    hide SoundWorld, GrewSlots, Lookup, Capacity;
    SoundSlot(w1, k);
    var n, off := w1.ss[k].ino.inum, Add32(p, |data|);
    assert |File(w2, n)| == w2.ss[k].ino.size && |File(w1, n)| == w1.ss[k].ino.size;
    if |data| > 0 && tot.Some? && tot.value < |data| && off > w2.ss[k].ino.size {
      StuckAbove(w2, k, p + tot.value, off);
    } else if tot.None? {
      AboveMax(w2, k, off);
    }
  }

  lemma StuckAbove(w: World, k: nat, o: nat, off: nat)
    requires k < |w.ss| && Stuck(w, k, o) && Solid(w.v, w.ss[k].ino) && o <= off
    ensures Stuck(w, k, off)
  {
    hide Lookup;
    assert o / BSIZE <= off / BSIZE;
  }

  lemma AboveMax(w: World, k: nat, off: nat)
    requires k < |w.ss| && off >= MAXSIZE
    ensures Stuck(w, k, off)
  {
  }

  /** The first write of `cmd_i` laid the new data over the file, the second puts the old tail
      after it; together they insert exactly when both complete. */
  lemma InsertResult(c: seq<byte>, p: nat, data: seq<byte>, t1: Option<nat>, t2: Option<nat>)
    requires p <= |c| <= MAXSIZE && 0 < |data| < 0x1_0000_0000
    requires if t1.None? then (p + |data|) % 0x1_0000_0000 > MAXSIZE
             else t1.value <= |data| && (t1.value < |data| ==> p + t1.value >= |c|)
    requires t2.Some? ==> t2.value <= |c| - p
    requires |c| == p ==> t2 == Some(0)
    requires (p + |data|) % 0x1_0000_0000 > |WriteResult(c, p, data, t1)| ==> t2 in {None, Some(0)}
    requires t1 == Some(|data|) ==> p + |data| <= MAXSIZE
    ensures WriteResult(WriteResult(c, p, data, t1), (p + |data|) % 0x1_0000_0000, c[p..], t2) == Inserted(c, p, data)
            <==> t1 == Some(|data|) && t2 == Some(|c| - p)
  {
    var c1 := WriteResult(c, p, data, t1);
    var off := (p + |data|) % 0x1_0000_0000;
    var c2 := WriteResult(c1, off, c[p..], t2);
    assert |Inserted(c, p, data)| == |c| + |data|;
    if t1 == Some(|data|) {
      assert off == p + |data| && |c1| == Max(|c|, p + |data|);
      if t2 == Some(|c| - p) {
        assert c2 == Inserted(c, p, data);
      }
    } else {
      assert |c1| == |c|;
    }
  }

  lemma StoppedAtEnd(w1: World, w2: World, k: nat, p: nat, data: seq<byte>, tot: Option<nat>)
    requires k < |w1.ss| && k < |w2.ss| && w1.ss[k].ino.inum < |w1.t| && w1.t[w1.ss[k].ino.inum] == w1.ss[k].ino
    requires WriteSpec(w1, w2, k, p, data, tot) && w2.ss[k].ino == w2.t[w1.ss[k].ino.inum]
    requires tot.Some? && tot.value < |data|
    ensures p + tot.value >= w1.ss[k].ino.size
  {
    hide SoundWorld, GrewSlots, Lookup, Capacity;
    var n := w1.ss[k].ino.inum;
    assert |File(w2, n)| == w2.ss[k].ino.size && |File(w1, n)| == w1.ss[k].ino.size;
    StoppedAbove(w2.v, w2.ss[k].ino, p + tot.value);
  }

  lemma StoppedAbove(v: seq<Block>, ino: Inode, o: nat)
    requires Solid(v, ino) && Lookup(v, ino.addrs, o / BSIZE) == 0
    ensures ino.size <= o
  {
    hide Lookup;
    assert BSIZE * (o / BSIZE) <= o;
  }

  /** Both writes complete exactly when the insertion fits. */
  lemma InsertFits(w1: World, w2: World, w3: World, k: nat, p: uint32, data: seq<byte>, t1: Option<nat>,
                   tail: seq<byte>, t2: Option<nat>)
    requires k < |w1.ss| && k < |w2.ss| && w1.ss[k].ino.inum < |w1.t| && w1.t[w1.ss[k].ino.inum] == w1.ss[k].ino
    requires k < |w2.ss| && w2.ss[k].ino.inum == w1.ss[k].ino.inum < |w2.t| && w2.ss[k].ino == w2.t[w1.ss[k].ino.inum]
    requires 0 < |data| < 0x1_0000_0000 && p <= w1.ss[k].ino.size <= MAXSIZE && |tail| == w1.ss[k].ino.size - p
    requires WriteSpec(w1, w2, k, p, data, t1)
    requires WriteSpec(w2, w3, k, Add32(p, |data|), tail, t2)
    ensures t1 == Some(|data|) && t2 == Some(|tail|) <==> Fits(w1, k, p, |data|)
  {
    hide WriteSpec, Need, Capacity, GrewSlots;
    var m, size := p + |data|, w1.ss[k].ino.size;
    WriteSpecCounts(w1, w2, k, p, data, t1);
    WriteSpecCounts(w2, w3, k, Add32(p, |data|), tail, t2);
    if t1 == Some(|data|) {
      WroteSize(w1, w2, k, p, data);
      if |tail| > 0 && size + |data| <= MAXSIZE {
        NeedSplit(w1, w2, k, p, |data|, |tail|);
      }
    } else if size + |data| <= MAXSIZE {
      NeedGrows(w1, k, p, |data|, size + |data| - p);
    }
  }

  lemma WriteSpecCounts(w: World, w': World, k: nat, off: nat, src: seq<byte>, tot: Option<nat>)
    requires k < |w.ss| && w.ss[k].ino.inum < |w.t| && WriteSpec(w, w', k, off, src, tot)
    ensures tot.None? <==> |src| > 0 && (off + |src|) % 0x1_0000_0000 > MAXSIZE
    ensures tot.Some? ==> tot.value <= |src| && (tot.value > 0 ==> off + tot.value <= MAXSIZE)
    ensures |src| > 0 && off + |src| <= MAXSIZE && off <= w.ss[k].ino.size ==>
              && (tot == Some(|src|) <==> |w.owner| + Need(w, k, off, |src|) <= Capacity(|w.v|))
              && (tot == Some(|src|) ==> |w'.owner| == |w.owner| + Need(w, k, off, |src|))
  {
    hide SoundWorld, Solid, Edited, GrewSlots, Stuck, Need, Capacity, WriteResult;
  }

  lemma NeedSplit(w1: World, w2: World, k: nat, p: nat, n: nat, n': nat)
    requires k < |w1.ss| && k < |w2.ss| && p + n + n' <= MAXSIZE && n > 0
    requires GrewSlots(w1.v, w1.ss[k].ino.addrs, w2.v, w2.ss[k].ino.addrs, Lacking(w1, k, p, n))
    ensures Need(w1, k, p, n + n') == Need(w1, k, p, n) + Need(w2, k, p + n, n')
  {
    hide GrewSlots, Missing;
    MissingSplit(w1.v, w1.ss[k].ino.addrs, w2.v, w2.ss[k].ino.addrs, p / BSIZE, (p + n) / BSIZE, Ceil(p + n + n'), Ceil(p + n));
  }

  lemma WroteSize(w1: World, w2: World, k: nat, p: nat, data: seq<byte>)
    requires k < |w1.ss| && k < |w2.ss| && w1.ss[k].ino.inum < |w1.t| && w1.t[w1.ss[k].ino.inum] == w1.ss[k].ino
    requires w2.ss[k].ino.inum == w1.ss[k].ino.inum < |w2.t| && w2.ss[k].ino == w2.t[w1.ss[k].ino.inum]
    requires p <= w1.ss[k].ino.size && |data| > 0 && WriteSpec(w1, w2, k, p, data, Some(|data|))
    ensures w2.ss[k].ino.size == Max(w1.ss[k].ino.size, p + |data|) && |w2.v| == |w1.v|
    ensures GrewSlots(w1.v, w1.ss[k].ino.addrs, w2.v, w2.ss[k].ino.addrs, Lacking(w1, k, p, |data|))
  {
    hide SoundWorld, Solid, OthersSame, GrewSlots, Missing, Lookup, Capacity, Stuck;
    assert |File(w2, w1.ss[k].ino.inum)| == w2.ss[k].ino.size;
  }

  lemma NeedGrows(w: World, k: nat, off: nat, n: nat, n': nat)
    requires k < |w.ss| && n <= n'
    ensures Need(w, k, off, n) <= Need(w, k, off, n')
  {
    var x, y := Lacking(w, k, off, n), Lacking(w, k, off, n');
    assert Ceil(off + n) <= Ceil(off + n');
    forall s | s in x ensures s in y {
      var b: nat :| off / BSIZE <= b < Ceil(off + n) && s in Path(LeafOf(b));
    }
    SubsetSize(x, y);
  }

  lemma PeekedFits(w: World, w1: World, k: nat, p: nat, len: nat)
    requires k < |w.ss| && k < |w1.ss| && w.ss[k].ino.inum < |w.t| && Peeked(w, w1, w.ss[k].ino.inum)
    requires w.t[w.ss[k].ino.inum] == w.ss[k].ino && w1.ss[k].ino == w1.t[w.ss[k].ino.inum]
    requires p <= w.ss[k].ino.size
    ensures w1.ss[k].ino.size == w.ss[k].ino.size
    ensures Fits(w1, k, p, len) <==> Fits(w, k, p, len)
  {
    hide Need, Peeked, SameFile, Capacity;
    PeekedSame(w, w1, w.ss[k].ino.inum);
    if w.ss[k].ino.size + len <= MAXSIZE {
      PeekedNeed(w, w1, k, p, w.ss[k].ino.size + len - p);
    }
  }

  lemma PeekedSame(w: World, w1: World, n: nat)
    requires n < |w.t| && Peeked(w, w1, n)
    ensures n < |w1.t| && w1.owner == w.owner && |w1.v| == |w.v| && w1.t[n] == w.t[n].(atime := w1.t[n].atime)
    ensures SameFile(w.v, w.t[n].addrs, w1.v)
  {
    hide SoundWorld, SameFile;
  }

  /** A write within the maximum size that stops short leaves the device full. */
  lemma StoppedFull(w: World, w': World, k: nat, off: nat, src: seq<byte>, tot: Option<nat>)
    requires k < |w.ss| && w.ss[k].ino.inum < |w.t| && WriteSpec(w, w', k, off, src, tot)
    requires tot.Some? && tot.value < |src| && off + |src| <= MAXSIZE
    ensures |w'.owner| == Capacity(|w'.v|)
  {
    hide SoundWorld, Solid, Contents, Edited, GrewSlots, Lookup, Capacity, Overruns, Need;
  }

  /** What the three steps of `cmd_i` amount to. */
  lemma InsertSteps(w: World, w1: World, w2: World, w3: World, k: nat, p: uint32, data: seq<byte>,
                    t1: Option<nat>, tail: seq<byte>, t2: Option<nat>)
    requires k < |w.ss| && k < |w1.ss| && k < |w2.ss| && w.ss[k].ino.inum < |w.t| && w.t[w.ss[k].ino.inum] == w.ss[k].ino
    requires w1.ss[k].ino.inum == w.ss[k].ino.inum < |w1.t| && w1.ss[k].ino == w1.t[w.ss[k].ino.inum]
    requires w2.ss[k].ino.inum == w.ss[k].ino.inum < |w2.t| && w2.ss[k].ino == w2.t[w.ss[k].ino.inum]
    requires w.ss[k].ino.inum < |w3.t| && |data| < 0x1_0000_0000 && p <= w.ss[k].ino.size <= MAXSIZE
    requires Peeked(w, w1, w.ss[k].ino.inum) && tail == File(w, w.ss[k].ino.inum)[p..]
    requires WriteSpec(w1, w2, k, p, data, t1) && WriteSpec(w2, w3, k, Add32(p, |data|), tail, t2)
    ensures var n := w.ss[k].ino.inum;
      && Edited(w, w3, n) && Solid(w3.v, w3.t[n])
      && (|data| == 0 ==> File(w3, n) == File(w, n))
      && (|data| > 0 ==> (File(w3, n) == Inserted(File(w, n), p, data) <==> Fits(w, k, p, |data|)))
  {
    hide SoundWorld, Solid, Edited, Contents, Missing, GrewSlots, Lookup, Capacity, Stuck, WriteResult, Fits, WriteSpec, Peeked;
    var n := w.ss[k].ino.inum;
    PeekedFile(w, w1, n);
    PeekedFits(w, w1, k, p, |data|);
    WriteSpecParts(w1, w2, k, p, data, t1);
    WriteSpecParts(w2, w3, k, Add32(p, |data|), tail, t2);
    PeekedEdited(w, w1, n);
    EditedTrans(w, w1, w2, n);
    EditedTrans(w, w2, w3, n);
    if |data| > 0 {
      InsertFits(w1, w2, w3, k, p, data, t1, tail, t2);
      if t1.Some? && t1.value < |data| {
        StoppedAtEnd(w1, w2, k, p, data, t1);
      }
      InsertResult(File(w, n), p, data, t1, t2);
    } else {
      RewriteTail(File(w, n), p, t1, t2);
    }
  }

  /** What the two writes of `cmd_i` leave of contents `c`. The data and the tail behind it both arrive if
      the insertion `fits`. If there is `room` for the data alone, the tail is cut off where blocks run out, or
      is not written at all where the whole is too large. Without that nothing grows, and data too large
      for any file changes nothing, unless its end wraps round: then the tail lands further down. */
  ghost function InsertLeft(c: seq<byte>, p: nat, data: seq<byte>, room: bool, fits: bool): seq<byte>
    requires p <= |c| && |data| < 0x1_0000_0000
  {
    var whole := c[..p] + data + c[p..];
    if |data| == 0 || fits then whole
    else if p + |data| >= 0x1_0000_0000 then Overlay(whole[..|c|], p + |data| - 0x1_0000_0000, c[p..])
    else if room then
      if |c| + |data| > MAXSIZE then Overlay(c, p, data) else whole[..Max(|c|, p + |data|)]
    else if p + |data| > MAXSIZE then c
    else whole[..|c|]
  }

  /** When the first of the writes completes, and what is then known of the second. */
  lemma FirstWrite(w: World, w1: World, w2: World, k: nat, p: uint32, data: seq<byte>, t1: Option<nat>)
    requires k < |w.ss| && k < |w1.ss| && w.ss[k].ino.inum < |w.t| && Peeked(w, w1, w.ss[k].ino.inum)
    requires w.t[w.ss[k].ino.inum] == w.ss[k].ino && p <= w.ss[k].ino.size <= MAXSIZE
    requires w1.ss[k].ino.inum == w.ss[k].ino.inum < |w1.t| && w1.ss[k].ino == w1.t[w.ss[k].ino.inum]
    requires WriteSpec(w1, w2, k, p, data, t1) && |data| > 0
    ensures CanWrite(w, k, p, |data|) <==> t1 == Some(|data|)
    ensures t1 == Some(|data|) ==> p + |data| <= MAXSIZE
  {
    hide Peeked, WriteSpec, Need, Capacity, SameFile;
    PeekedSame(w, w1, w.ss[k].ino.inum);
    WriteSpecCounts(w1, w2, k, p, data, t1);
    if p + |data| <= MAXSIZE { PeekedNeed(w, w1, k, p, |data|); }
  }

  /** A write below the end of a file without holes completes. */
  lemma InsideWrites(w: World, w': World, k: nat, off: nat, src: seq<byte>, t: Option<nat>)
    requires SoundWorld(w) && k < |w.ss| && w.ss[k].ino.inum < |w.t| && Solid(w.v, w.ss[k].ino)
    requires WriteSpec(w, w', k, off, src, t) && off + |src| <= w.ss[k].ino.size <= MAXSIZE
    ensures t == Some(|src|)
  {
    hide SoundWorld, Solid, WriteSpec, Need, Capacity;
    WriteSpecCounts(w, w', k, off, src, t);
    NothingLacking(w, k, off, |src|);
    SoundBound(w);
  }

  lemma InsertOutcome(w: World, w1: World, w2: World, w3: World, k: nat, p: uint32, data: seq<byte>,
                      t1: Option<nat>, tail: seq<byte>, t2: Option<nat>)
    requires k < |w.ss| && k < |w1.ss| && k < |w2.ss| && w.ss[k].ino.inum < |w.t| && w.t[w.ss[k].ino.inum] == w.ss[k].ino
    requires w1.ss[k].ino.inum == w.ss[k].ino.inum < |w1.t| && w1.ss[k].ino == w1.t[w.ss[k].ino.inum]
    requires w2.ss[k].ino.inum == w.ss[k].ino.inum < |w2.t| && w2.ss[k].ino == w2.t[w.ss[k].ino.inum]
    requires w.ss[k].ino.inum < |w3.t| && |data| < 0x1_0000_0000 && p <= w.ss[k].ino.size <= MAXSIZE && SoundWorld(w2)
    requires Peeked(w, w1, w.ss[k].ino.inum) && tail == File(w, w.ss[k].ino.inum)[p..]
    requires WriteSpec(w1, w2, k, p, data, t1) && WriteSpec(w2, w3, k, Add32(p, |data|), tail, t2)
    requires k < |w3.ss| && w3.ss[k].ino == w3.t[w.ss[k].ino.inum]
    ensures var n := w.ss[k].ino.inum;
      p <= |File(w, n)| && File(w3, n) == InsertLeft(File(w, n), p, data, CanWrite(w, k, p, |data|), Fits(w, k, p, |data|))
  {
    hide SoundWorld, Solid, Edited, Contents, WriteResult, Fits, WriteSpec, Peeked, CanWrite, InsertLeft;
    var n, off := w.ss[k].ino.inum, Add32(p, |data|);
    FileSize(w, k);
    FileSize(w2, k);
    PeekedFile(w, w1, n);
    PeekedFits(w, w1, k, p, |data|);
    WriteSpecParts(w1, w2, k, p, data, t1);
    WriteSpecParts(w2, w3, k, off, tail, t2);
    if |data| > 0 {
      FirstWrite(w, w1, w2, k, p, data, t1);
      InsertFits(w1, w2, w3, k, p, data, t1, tail, t2);
      if t1.Some? && t1.value < |data| {
        StoppedAtEnd(w1, w2, k, p, data, t1);
        ShortLeaves(File(w, n), p, data, t1);
        if off < p + |data| { InsideWrites(w2, w3, k, off, tail, t2); }
      }
    }
    if t2.Some? && t2.value < |tail| {
      StoppedAtEnd(w2, w3, k, off, tail, t2);
    }
    InsertLeaves(File(w, n), p, data, off, t1, t2, CanWrite(w, k, p, |data|), Fits(w, k, p, |data|));
  }

  /** Both writes together take what the longer file lacks. */
  lemma InsertTakes(w: World, w1: World, w2: World, w3: World, k: nat, p: uint32, data: seq<byte>,
                    t1: Option<nat>, tail: seq<byte>, t2: Option<nat>)
    requires k < |w.ss| && k < |w1.ss| && k < |w2.ss| && w.ss[k].ino.inum < |w.t| && w.t[w.ss[k].ino.inum] == w.ss[k].ino
    requires w1.ss[k].ino.inum == w.ss[k].ino.inum < |w1.t| && w1.ss[k].ino == w1.t[w.ss[k].ino.inum]
    requires w2.ss[k].ino.inum == w.ss[k].ino.inum < |w2.t| && w2.ss[k].ino == w2.t[w.ss[k].ino.inum]
    requires 0 < |data| < 0x1_0000_0000 && p <= w.ss[k].ino.size <= MAXSIZE
    requires Peeked(w, w1, w.ss[k].ino.inum) && |tail| == |File(w, w.ss[k].ino.inum)| - p
    requires WriteSpec(w1, w2, k, p, data, t1) && WriteSpec(w2, w3, k, Add32(p, |data|), tail, t2)
    ensures Takes(w, w3, k, p, |File(w, w.ss[k].ino.inum)| + |data| - p)
  {
    hide WriteSpec, Need, Capacity, GrewSlots, Peeked, SameFile, Contents;
    var n, size := w.ss[k].ino.inum, w.ss[k].ino.size;
    FileSize(w, k);
    PeekedSame(w, w1, n);
    if CanWrite(w, k, p, size + |data| - p) {
      PeekedNeed(w, w1, k, p, size + |data| - p);
      InsertFits(w1, w2, w3, k, p, data, t1, tail, t2);
      WroteSize(w1, w2, k, p, data);
      WriteSpecCounts(w1, w2, k, p, data, t1);
      if |tail| > 0 {
        WriteSpecCounts(w2, w3, k, p + |data|, tail, t2);
        NeedSplit(w1, w2, k, p, |data|, |tail|);
      } else {
        WriteNothing(w2, w3, k, p + |data|, tail, t2);
      }
    }
  }

  /** All that the three steps of `cmd_i` amount to. */
  lemma InsertAll(w: World, w1: World, w2: World, w3: World, k: nat, p: uint32, data: seq<byte>,
                  t1: Option<nat>, tail: seq<byte>, t2: Option<nat>, now: uint32)
    requires k < |w.ss| && k < |w1.ss| && k < |w2.ss| && w.ss[k].ino.inum < |w.t| && w.t[w.ss[k].ino.inum] == w.ss[k].ino
    requires w1.ss[k].ino.inum == w.ss[k].ino.inum < |w1.t| && w1.ss[k].ino == w1.t[w.ss[k].ino.inum]
    requires w2.ss[k].ino.inum == w.ss[k].ino.inum < |w2.t| && w2.ss[k].ino == w2.t[w.ss[k].ino.inum]
    requires k < |w3.ss| && w.ss[k].ino.inum < |w3.t| && w3.ss[k].ino == w3.t[w.ss[k].ino.inum]
    requires |data| < 0x1_0000_0000 && p <= w.ss[k].ino.size <= MAXSIZE && SoundWorld(w1) && SoundWorld(w2) && Solid(w.v, w.ss[k].ino)
    requires Peeked(w, w1, w.ss[k].ino.inum) && p <= |File(w, w.ss[k].ino.inum)| && tail == File(w, w.ss[k].ino.inum)[p..]
    requires WriteSpec(w1, w2, k, p, data, t1) && WriteSpec(w2, w3, k, Add32(p, |data|), tail, t2)
    requires Ticked(w.t, w1.t, now) && Ticked(w1.t, w2.t, now) && Ticked(w2.t, w3.t, now)
    ensures var n := w.ss[k].ino.inum;
      && Edited(w, w3, n) && Solid(w3.v, w3.t[n])
      && (|data| == 0 ==> File(w3, n) == File(w, n))
      && (|data| > 0 ==> (File(w3, n) == Inserted(File(w, n), p, data) <==> Fits(w, k, p, |data|)))
      && File(w3, n) == InsertLeft(File(w, n), p, data, CanWrite(w, k, p, |data|), Fits(w, k, p, |data|))
      && Super(w.v, w3.v, InsertOverruns(w, k, p, |data|))
      && (|data| > 0 ==> Takes(w, w3, k, p, |File(w, n)| + |data| - p))
      && Ticked(w.t, w3.t, now)
  {
    hide SoundWorld, Solid, Peeked, WriteSpec, Contents, Fits, Edited, Super, InsertOverruns, InsertLeft, CanWrite, Ticked, Takes, Inserted;
    FileSize(w, k);
    TickedTrans(w.t, w1.t, w2.t, now);
    TickedTrans(w.t, w2.t, w3.t, now);
    InsertSteps(w, w1, w2, w3, k, p, data, t1, tail, t2);
    InsertOutcome(w, w1, w2, w3, k, p, data, t1, tail, t2);
    InsertSuper(w, w1, w2, w3, k, p, data, t1, tail, t2);
    if |data| > 0 { InsertTakes(w, w1, w2, w3, k, p, data, t1, tail, t2); }
  }

  /** The first write has stopped short: the file keeps its size. */
  lemma ShortLeaves(c: seq<byte>, p: nat, data: seq<byte>, t1: Option<nat>)
    requires p <= |c| && t1.Some? && t1.value < |data| && p + t1.value >= |c|
    ensures WriteResult(c, p, data, t1) == (c[..p] + data + c[p..])[..|c|]
  {
    Landed(c, p, data, t1);
  }

  /** The first write is complete, the second stops short. */
  lemma TailLeaves(c: seq<byte>, p: nat, data: seq<byte>, t2: Option<nat>)
    requires p <= |c| && t2.Some? && t2.value < |c| - p && p + |data| + t2.value >= Max(|c|, p + |data|)
    ensures WriteResult(Overlay(c, p, data), p + |data|, c[p..], t2) == (c[..p] + data + c[p..])[..Max(|c|, p + |data|)]
  {
    var c1 := Overlay(c, p, data);
    Landed(c1, p + |data|, c[p..], t2);
    assert Overlay(c1, p + |data|, c[p..]) == c[..p] + data + c[p..] + c1[Min(|c1|, |c| + |data|)..];
  }

  /** The two writes, with the second at `off`, leave that. */
  lemma InsertLeaves(c: seq<byte>, p: nat, data: seq<byte>, off: nat, t1: Option<nat>, t2: Option<nat>, room: bool, fits: bool)
    requires p <= |c| <= MAXSIZE && |data| < 0x1_0000_0000
    requires off == if p + |data| < 0x1_0000_0000 then p + |data| else p + |data| - 0x1_0000_0000
    requires t1.None? <==> |data| > 0 && off > MAXSIZE
    requires t1.Some? ==> t1.value <= |data| && (t1.value < |data| ==> p + t1.value >= |c|)
    requires |data| > 0 ==> (room <==> t1 == Some(|data|)) && (room ==> p + |data| <= MAXSIZE)
    requires |data| > 0 ==> (fits <==> room && t2 == Some(|c| - p))
    requires var c1 := WriteResult(c, p, data, t1);
      && (t2.Some? ==> t2.value <= |c| - p && (t2.value < |c| - p ==> off + t2.value >= |c1|))
      && (off > |c1| ==> t2 in {None, Some(0)})
    requires room && |data| > 0 ==> (t2.None? <==> |c| > p && |c| + |data| > MAXSIZE)
    requires off < p + |data| ==> t2 == Some(|c| - p)
    ensures WriteResult(WriteResult(c, p, data, t1), off, c[p..], t2) == InsertLeft(c, p, data, room, fits)
  {
    hide Overlay, WriteResult;
    if |data| == 0 {
      LeftAlone(c, p, data, t1, t2);
    } else if fits {
      BothWritten(c, p, data);
    } else if off < p + |data| {
      ShortLeaves(c, p, data, t1);
      Landed(WriteResult(c, p, data, t1), off, c[p..], t2);
    } else if room {
      Landed(c, p, data, t1);
      if t2.None? { Landed(Overlay(c, p, data), off, c[p..], t2); } else { TailLeaves(c, p, data, t2); }
    } else if t1.None? {
      Landed(c, p, data, t1);
      BeyondLeaves(c, off, c[p..], t2);
    } else {
      ShortLeaves(c, p, data, t1);
      BeyondLeaves(WriteResult(c, p, data, t1), off, c[p..], t2);
    }
  }

  lemma LeftAlone(c: seq<byte>, p: nat, data: seq<byte>, t1: Option<nat>, t2: Option<nat>)
    requires p <= |c| && data == [] && (t1.Some? ==> t1.value == 0) && (t2.Some? ==> t2.value <= |c| - p)
    ensures WriteResult(WriteResult(c, p, data, t1), p, c[p..], t2) == c[..p] + data + c[p..]
  {
    RewriteTail(c, p, t1, t2);
  }

  lemma BothWritten(c: seq<byte>, p: nat, data: seq<byte>)
    requires p <= |c|
    ensures WriteResult(WriteResult(c, p, data, Some(|data|)), p + |data|, c[p..], Some(|c| - p)) == c[..p] + data + c[p..]
  {
  }

  lemma BeyondLeaves(c: seq<byte>, off: nat, src: seq<byte>, t: Option<nat>)
    requires off > |c| && t in {None, Some(0)}
    ensures WriteResult(c, off, src, t) == c
  {
  }

  /** What one write leaves, told by whether it completes. */
  lemma Landed(c: seq<byte>, off: nat, src: seq<byte>, t: Option<nat>)
    requires off <= |c| && (t.Some? ==> t.value <= |src|)
    requires t.Some? && t.value < |src| ==> off + t.value >= |c|
    ensures WriteResult(c, off, src, t) ==
            if t.None? then c else if t.value == |src| then Overlay(c, off, src) else Overlay(c, off, src)[..|c|]
  {
    if t.Some? && t.value < |src| && t.value > 0 {
      assert Overlay(c, off, src[..t.value])[..|c|] == Overlay(c, off, src)[..|c|];
    } else if t == Some(0) {
      assert Overlay(c, off, src)[..|c|] == c || |src| == 0;
    }
  }

  lemma RewriteTail(c: seq<byte>, p: nat, t1: Option<nat>, t2: Option<nat>)
    requires p <= |c| && (t1.Some? ==> t1.value == 0) && (t2.Some? ==> t2.value <= |c| - p)
    ensures WriteResult(WriteResult(c, p, [], t1), p, c[p..], t2) == c
  {
  }

  lemma PeekedEdited(w: World, w1: World, n: nat)
    requires Peeked(w, w1, n)
    ensures Edited(w, w1, n)
  {
  }

  lemma WriteSpecSuper(w: World, w': World, k: nat, off: nat, src: seq<byte>, tot: Option<nat>)
    requires k < |w.ss| && w.ss[k].ino.inum < |w.t| && WriteSpec(w, w', k, off, src, tot)
    ensures Super(w.v, w'.v, Overruns(w, k, off, |src|))
  {
    hide SoundWorld, Solid, Contents, Edited, GrewSlots, Stuck, Overruns;
  }

  lemma PeekedOverruns(w: World, w1: World, k: nat, off: nat, n: nat)
    requires k < |w.ss| && k < |w1.ss| && w1.ss[k].ino.addrs == w.ss[k].ino.addrs && |w1.v| == |w.v|
    requires SameFile(w.v, w.ss[k].ino.addrs, w1.v) && w1.owner == w.owner
    ensures Overruns(w1, k, off, n) <==> Overruns(w, k, off, n)
  {
    hide Overrun, SameTree, Data;
    SameOverrun(w.v, w.ss[k].ino.addrs, w1.v, |w.owner|, off, n);
  }

  lemma PeekedSuper(w: World, w1: World, n: nat)
    requires Peeked(w, w1, n)
    ensures Super(w.v, w1.v, false)
  {
    hide SoundWorld, SameFile, Edited;
  }

  lemma WriteSpecParts(w: World, w': World, k: nat, off: nat, src: seq<byte>, tot: Option<nat>)
    requires k < |w.ss| && w.ss[k].ino.inum < |w.t| && w.ss[k].ino.inum < |w'.t| && WriteSpec(w, w', k, off, src, tot)
    ensures var n := w.ss[k].ino.inum;
      && Edited(w, w', n) && (tot.Some? ==> tot.value <= |src|) && Solid(w'.v, w'.t[n])
      && File(w', n) == WriteResult(File(w, n), off, src, tot)
      && (tot.None? <==> |src| > 0 && (off + |src|) % 0x1_0000_0000 > MAXSIZE)
      && (off > w.ss[k].ino.size ==> tot in {None, Some(0)})
      && (tot.Some? && tot.value > 0 ==> off + tot.value <= MAXSIZE)
  {
    hide SoundWorld, Solid, Contents, Edited, GrewSlots, Stuck;
  }

  /** `cmd_i` from the inode on: inserts `data` at `pos`, or at the end if that is nearer. */
  method InsertAt(fs: FileSystem, k: nat, pos: uint32, data: seq<byte>, now: uint32)
    requires fs.Valid() && fs.IsInode(k) && |fs.table| == NINODES && |data| < 0x1_0000_0000
    requires Solid(fs.dev.contents, fs.slots[k].ino)
    modifies fs, fs.slots, fs.dev, fs.dev.arr, fs.dev.disk.data
    ensures fs.Valid() && fs.IsInode(k) && fs.sb == old(fs.sb)
    ensures var w, w', n := old(fs.Now()), fs.Now(), old(fs.slots[k].ino.inum);
      var p := Min(pos, old(fs.slots[k].ino.size));
      && n < |w.t| && n < |w'.t| && Edited(w, w', n) && Solid(w'.v, w'.t[n])
      && File(w, n) == Contents(w.v, old(fs.slots[k].ino))
      && (|data| == 0 ==> File(w', n) == File(w, n))
      && (|data| > 0 ==> (File(w', n) == Inserted(File(w, n), p, data) <==> Fits(w, k, p, |data|)))
      && p <= |File(w, n)| && File(w', n) == InsertLeft(File(w, n), p, data, CanWrite(w, k, p, |data|), Fits(w, k, p, |data|))
      && Super(w.v, w'.v, InsertOverruns(w, k, p, |data|))
      && (|data| > 0 ==> Takes(w, w', k, p, |File(w, n)| + |data| - p))
    ensures Stamped(old(fs.slots[k].ino), fs.slots[k].ino, now) && Ticked(old(fs.table), fs.table, now)
  {
    hide Inv, SoundWorld, Solid, Peeked, WriteSpec, Contents, Fits, Edited, Stuck, Super, InsertOverruns, InsertLeft, CanWrite, WroteTo, Charged,
      Ticked, Takes, Inserted, Stamped;
    ghost var w := fs.Now();
    SoundSlot(w, k);
    SolidSize(w.v, fs.slots[k].ino);
    var orig_size := fs.slots[k].ino.size;
    var p := if pos > orig_size then orig_size else pos;
    var tail_len := orig_size - p;
    var tail := ReadAt(fs, k, p, tail_len, now);
    ghost var w1 := fs.Now();
    AccessStamped(w.ss[k].ino, w1.ss[k].ino, now);
    SoundSlot(w1, k);
    PeekedFile(w, w1, w.ss[k].ino.inum);
    PeekedSame(w, w1, w.ss[k].ino.inum);
    PeekedInum(w, w1, k);
    var t1 := WriteAt(fs, k, data, p, now);
    ghost var w2 := fs.Now();
    StampedTrans(w.ss[k].ino, w1.ss[k].ino, w2.ss[k].ino, now);
    SoundSlot(w2, k);
    WriteSpecInum(w1, w2, k, p, data, t1);
    SecondWrite(w1, w2, k, p, data, t1);
    WriteSpecParts(w1, w2, k, p, data, t1);
    var t2 := WriteAt(fs, k, tail, Add32(p, |data|), now);
    StampedTrans(w.ss[k].ino, w2.ss[k].ino, fs.slots[k].ino, now);
    SoundSlot(fs.Now(), k);
    WriteSpecInum(w2, fs.Now(), k, Add32(p, |data|), tail, t2);
    InsertAll(w, w1, w2, fs.Now(), k, p, data, t1, tail, t2, now);
  }

  /** One of the two writes of `cmd_i` runs out of blocks at a pointer block. */
  ghost predicate InsertOverruns(w: World, k: nat, p: nat, len: nat)
    requires k < |w.ss| && p <= w.ss[k].ino.size
  {
    InsertOverrun(w.v, w.ss[k].ino.addrs, |w.owner|, p, len, w.ss[k].ino.size - p)
  }

  /** Whether the two writes do so can be told before them. */
  lemma TwoOverruns(w1: World, w2: World, k: nat, p: uint32, data: seq<byte>, t1: Option<nat>)
    requires SoundWorld(w1) && SoundWorld(w2) && k < |w1.ss| && k < |w2.ss| && w1.ss[k].ino.inum < |w1.t| && w1.t[w1.ss[k].ino.inum] == w1.ss[k].ino
    requires w2.ss[k].ino.inum == w1.ss[k].ino.inum < |w2.t| && w2.ss[k].ino == w2.t[w1.ss[k].ino.inum]
    requires |data| < 0x1_0000_0000 && p <= w1.ss[k].ino.size <= MAXSIZE && Solid(w1.v, w1.ss[k].ino)
    requires WriteSpec(w1, w2, k, p, data, t1)
    ensures InsertOverruns(w1, k, p, |data|)
            <==> Overruns(w1, k, p, |data|) || Overruns(w2, k, Add32(p, |data|), w1.ss[k].ino.size - p)
  {
    hide SoundWorld, WriteSpec, Overrun, Strands, Solid, Missing, Capacity;
    var size, len := w1.ss[k].ino.size, |data|;
    var rest, off := size - p, Add32(p, len);
    SoundBound(w1);
    if rest == 0 || len == 0 {
      NothingMore(w1, w2, k, p, data, t1);
    } else if p + len > MAXSIZE || p + len + rest > MAXSIZE {
      SecondHarmless(w1, w2, k, p, data, t1);
    } else if t1 == Some(len) {
      SecondFollows(w1, w2, k, p, data);
    } else {
      SecondStopped(w1, w2, k, p, data, t1);
    }
  }

  lemma NothingMore(w1: World, w2: World, k: nat, p: uint32, data: seq<byte>, t1: Option<nat>)
    requires k < |w1.ss| && k < |w2.ss| && w1.ss[k].ino.inum < |w1.t| && p <= w1.ss[k].ino.size && |w1.owner| <= Capacity(|w1.v|)
    requires Solid(w1.v, w1.ss[k].ino) && WriteSpec(w1, w2, k, p, data, t1) && |data| < 0x1_0000_0000 && (|data| == 0 || p == w1.ss[k].ino.size)
    ensures |data| == 0 ==> !Overruns(w1, k, p, 0) && !Overruns(w2, k, p, w1.ss[k].ino.size - p)
    ensures p == w1.ss[k].ino.size ==> !Overruns(w2, k, Add32(p, |data|), 0)
  {
    hide Solid, Short, GrewSlots, Capacity, Stuck, StoppedAt, Contents, Edited, Need, Super;
    if |data| == 0 {
      NoOverrun(w1.v, w1.ss[k].ino, |w1.owner|, p, w1.ss[k].ino.size - p);
    }
  }

  /** If the two together are too large, or the first wraps round, the second lacks no block. */
  lemma SecondHarmless(w1: World, w2: World, k: nat, p: uint32, data: seq<byte>, t1: Option<nat>)
    requires SoundWorld(w2) && k < |w1.ss| && k < |w2.ss| && w1.ss[k].ino.inum < |w1.t| && w1.t[w1.ss[k].ino.inum] == w1.ss[k].ino
    requires w2.ss[k].ino.inum == w1.ss[k].ino.inum < |w2.t| && w2.ss[k].ino == w2.t[w1.ss[k].ino.inum]
    requires p <= w1.ss[k].ino.size <= MAXSIZE && |data| < 0x1_0000_0000 && WriteSpec(w1, w2, k, p, data, t1)
    requires |data| > 0 && (p + |data| > MAXSIZE || p + |data| + (w1.ss[k].ino.size - p) > MAXSIZE)
    ensures !Overruns(w2, k, Add32(p, |data|), w1.ss[k].ino.size - p)
  {
    hide SoundWorld, WriteSpec, Overrun, Solid, Capacity, Contents, Lookup;
    var off, rest := Add32(p, |data|), w1.ss[k].ino.size - p;
    if p + |data| >= 0x1_0000_0000 {
      WriteSpecParts(w1, w2, k, p, data, t1);
      NotShorter(w1, w2, k, p, data, t1);
      SoundBound(w2);
      NoOverrun(w2.v, w2.ss[k].ino, |w2.owner|, off, rest);
    } else if off >= MAXSIZE {
      BeyondLargest(w2.v, w2.ss[k].ino.addrs, |w2.owner|, off, rest);
    } else {
      TooLarge(w2.v, w2.ss[k].ino.addrs, |w2.owner|, off, rest);
    }
  }

  lemma NotShorter(w1: World, w2: World, k: nat, p: uint32, data: seq<byte>, t1: Option<nat>)
    requires k < |w1.ss| && k < |w2.ss| && w1.ss[k].ino.inum < |w1.t| && w1.t[w1.ss[k].ino.inum] == w1.ss[k].ino
    requires w2.ss[k].ino.inum == w1.ss[k].ino.inum < |w2.t| && w2.ss[k].ino == w2.t[w1.ss[k].ino.inum]
    requires p <= w1.ss[k].ino.size && WriteSpec(w1, w2, k, p, data, t1)
    ensures w2.ss[k].ino.size >= w1.ss[k].ino.size
  {
    hide SoundWorld, Solid, GrewSlots, Capacity, Stuck, StoppedAt, Edited, Need, Super, Overruns;
    assert |File(w2, w1.ss[k].ino.inum)| == w2.ss[k].ino.size && |File(w1, w1.ss[k].ino.inum)| == w1.ss[k].ino.size;
  }

  lemma SecondFollows(w1: World, w2: World, k: nat, p: uint32, data: seq<byte>)
    requires k < |w1.ss| && k < |w2.ss| && w1.ss[k].ino.inum < |w1.t| && w1.t[w1.ss[k].ino.inum] == w1.ss[k].ino
    requires w2.ss[k].ino.inum == w1.ss[k].ino.inum < |w2.t| && w2.ss[k].ino == w2.t[w1.ss[k].ino.inum]
    requires |data| > 0 && p < w1.ss[k].ino.size && w1.ss[k].ino.size + |data| <= MAXSIZE && WriteSpec(w1, w2, k, p, data, Some(|data|))
    ensures InsertOverruns(w1, k, p, |data|) <==> Overruns(w2, k, p + |data|, w1.ss[k].ino.size - p)
    ensures !Overruns(w1, k, p, |data|)
  {
    hide WriteSpec, Overrun, Strands, Missing, Capacity, GrewSlots, Lookup;
    var a, rest := w1.ss[k].ino.addrs, w1.ss[k].ino.size - p;
    WroteSize(w1, w2, k, p, data);
    WriteSpecCounts(w1, w2, k, p, data, Some(|data|));
    FullMapped(w1.v, a, w2.v, w2.ss[k].ino.addrs, p / BSIZE, Ceil(p + |data|));
    SecondAfterFull(w1.v, a, w2.v, w2.ss[k].ino.addrs, |w1.owner|, p, |data|, rest);
    FullNotStranded(w1.v, a, |w1.owner|, p, |data|);
  }

  lemma SecondStopped(w1: World, w2: World, k: nat, p: uint32, data: seq<byte>, t1: Option<nat>)
    requires k < |w1.ss| && k < |w2.ss| && w1.ss[k].ino.inum < |w1.t| && w1.t[w1.ss[k].ino.inum] == w1.ss[k].ino
    requires w2.ss[k].ino.inum == w1.ss[k].ino.inum < |w2.t| && w2.ss[k].ino == w2.t[w1.ss[k].ino.inum]
    requires |data| > 0 && p < w1.ss[k].ino.size && w1.ss[k].ino.size + |data| <= MAXSIZE
    requires WriteSpec(w1, w2, k, p, data, t1) && t1 != Some(|data|)
    ensures InsertOverruns(w1, k, p, |data|)
            <==> Overruns(w1, k, p, |data|) || Overruns(w2, k, p + |data|, w1.ss[k].ino.size - p)
  {
    hide WriteSpec, Overrun, Strands, Capacity, StoppedAt, Short, Solid;
    var a, a', rest := w1.ss[k].ino.addrs, w2.ss[k].ino.addrs, w1.ss[k].ino.size - p;
    WriteSpecCounts(w1, w2, k, p, data, t1);
    StoppedFull(w1, w2, k, p, data, t1);
    StoppedWhere(w1, w2, k, p, data, t1);
    var e := (p + t1.value) / BSIZE;
    assert e < Ceil(p + |data|) && e <= (p + |data|) / BSIZE;
    StoppedNotWhole(w1.v, a, w2.v, a', |w1.owner|, p, |data|, rest, e);
    if !Short(w1.v, a, |w1.owner|, p / BSIZE, e) {
      UnmappedAbove(w2.v, w2.ss[k].ino, e, (p + |data|) / BSIZE);
      SecondAfterStop(w1.v, a, w2.v, a', |w1.owner|, p / BSIZE, e, p + |data|, rest);
    }
  }

  lemma StoppedWhere(w: World, w': World, k: nat, off: nat, src: seq<byte>, tot: Option<nat>)
    requires k < |w.ss| && w.ss[k].ino.inum < |w.t| && w.ss[k].ino.inum < |w'.t| && WriteSpec(w, w', k, off, src, tot)
    requires tot.Some? && tot.value < |src| && off + |src| <= MAXSIZE
    ensures var n := w.ss[k].ino.inum;
      && StoppedAt(w.v, w.ss[k].ino.addrs, w'.v, w'.t[n].addrs, |w.owner|, off / BSIZE, (off + tot.value) / BSIZE)
      && Lookup(w'.v, w'.t[n].addrs, (off + tot.value) / BSIZE) == 0 && |w'.v| == |w.v| && Solid(w'.v, w'.t[n])
  {
    hide SoundWorld, Solid, Contents, OthersSame, GrewSlots, Capacity, Overruns, Need, Lookup;
  }

  lemma UnmappedAbove(v: seq<Block>, ino: Inode, e: nat, b: nat)
    requires Solid(v, ino) && e <= b && Lookup(v, ino.addrs, e) == 0
    ensures Lookup(v, ino.addrs, b) == 0
  {
    hide Lookup;
  }

  lemma InsertSuper(w: World, w1: World, w2: World, w3: World, k: nat, p: uint32, data: seq<byte>,
                    t1: Option<nat>, tail: seq<byte>, t2: Option<nat>)
    requires SoundWorld(w1) && SoundWorld(w2) && k < |w.ss| && k < |w1.ss| && k < |w2.ss|
    requires w.ss[k].ino.inum < |w.t| && w.t[w.ss[k].ino.inum] == w.ss[k].ino
    requires w1.ss[k].ino.inum == w.ss[k].ino.inum < |w1.t| && w1.ss[k].ino == w1.t[w.ss[k].ino.inum]
    requires w2.ss[k].ino.inum == w.ss[k].ino.inum < |w2.t| && w2.ss[k].ino == w2.t[w.ss[k].ino.inum]
    requires |data| < 0x1_0000_0000 && p <= w.ss[k].ino.size <= MAXSIZE && Solid(w.v, w.ss[k].ino)
    requires Peeked(w, w1, w.ss[k].ino.inum) && |tail| == w.ss[k].ino.size - p
    requires WriteSpec(w1, w2, k, p, data, t1) && WriteSpec(w2, w3, k, Add32(p, |data|), tail, t2)
    ensures Super(w.v, w3.v, InsertOverruns(w, k, p, |data|))
  {
    hide SoundWorld, WriteSpec, Peeked, Overruns, Super, InsertOverruns, Solid;
    PeekedSame(w, w1, w.ss[k].ino.inum);
    PeekedFile(w, w1, w.ss[k].ino.inum);
    PeekedSuper(w, w1, w.ss[k].ino.inum);
    SameInserting(w.v, w.ss[k].ino.addrs, w1.v, |w.owner|, p, |data|, w.ss[k].ino.size - p);
    TwoOverruns(w1, w2, k, p, data, t1);
    PeekedInsert(w, w1, k, p, |data|);
    WriteSpecSuper(w1, w2, k, p, data, t1);
    WriteSpecSuper(w2, w3, k, Add32(p, |data|), tail, t2);
    SuperTrans(w.v, w1.v, w2.v, false, Overruns(w1, k, p, |data|));
    SuperTrans(w.v, w2.v, w3.v, false || Overruns(w1, k, p, |data|), Overruns(w2, k, Add32(p, |data|), |tail|));
  }

  lemma PeekedInsert(w: World, w1: World, k: nat, p: nat, len: nat)
    requires k < |w.ss| && k < |w1.ss| && w1.ss[k].ino.addrs == w.ss[k].ino.addrs && w1.ss[k].ino.size == w.ss[k].ino.size >= p
    requires InsertOverrun(w1.v, w.ss[k].ino.addrs, |w.owner|, p, len, w.ss[k].ino.size - p)
             <==> InsertOverrun(w.v, w.ss[k].ino.addrs, |w.owner|, p, len, w.ss[k].ino.size - p)
    requires w1.owner == w.owner
    ensures InsertOverruns(w1, k, p, len) <==> InsertOverruns(w, k, p, len)
  {
    hide InsertOverrun;
  }

  lemma PeekedInum(w: World, w': World, k: nat)
    requires k < |w.ss| && Peeked(w, w', w.ss[k].ino.inum)
    ensures k < |w'.ss| && w'.ss[k].ino.inum == w.ss[k].ino.inum
  {
    hide SoundWorld, SameFile;
  }

  lemma WriteSpecInum(w: World, w': World, k: nat, off: nat, src: seq<byte>, tot: Option<nat>)
    requires k < |w.ss| && w.ss[k].ino.inum < |w.t| && WriteSpec(w, w', k, off, src, tot)
    ensures k < |w'.ss| && w'.ss[k].ino.inum == w.ss[k].ino.inum
  {
    hide SoundWorld, Solid, GrewSlots, Stuck, OthersSame;
  }

  // ---------------------------------------------------------------- cat, d and w

  /** `cmd_cat` from the inode on: a solid file is returned whole. */
  method CatFile(fs: FileSystem, k: nat, now: uint32) returns (data: seq<byte>)
    requires fs.Valid() && fs.IsInode(k) && |fs.table| == NINODES
    requires Solid(fs.dev.contents, fs.slots[k].ino)
    modifies fs, fs.slots, fs.dev, fs.dev.arr, fs.dev.disk.data
    ensures fs.Valid() && fs.IsInode(k) && fs.sb == old(fs.sb)
    ensures Peeked(old(fs.Now()), fs.Now(), old(fs.slots[k].ino.inum))
    ensures data == Contents(old(fs.dev.contents), old(fs.slots[k].ino)) && Stamped(old(fs.slots[k].ino), fs.slots[k].ino, now)
    ensures Ticked(old(fs.table), fs.table, now)
  {
    hide Inv, SoundWorld, Solid, Peeked, Data, Lookup, Ticked;
    var sz := fs.slots[k].ino.size;
    data := ReadAt(fs, k, 0, sz, now);
  }

  /** Giving a file another size. */
  lemma Resized(w: World, k: nat, x: Inode)
    requires SoundWorld(w) && k < |w.ss| && w.ss[k].ino.inum < NINODES
    requires x.addrs == w.ss[k].ino.addrs && SameMeta(w.ss[k].ino, x)
    ensures x.inum < |w.t| && BLOCK_START <= |w.v| && w.t[x.inum] == w.ss[k].ino
    ensures var w' := StoredWorld(WithInode(w, k, x), k);
      && Edited(w, w', x.inum) && w'.t[x.inum] == x && w'.owner == w.owner && SameFile(w.v, x.addrs, w'.v) && |w'.v| == |w.v|
      && (x.size <= w.ss[k].ino.size ==> File(w', x.inum) == File(w, x.inum)[..x.size])
      && (x.size <= w.ss[k].ino.size && Solid(w.v, w.ss[k].ino) ==> Solid(w'.v, x))
      && Super(w.v, w'.v, false)
  {
    TouchEdited(w, k, x);
    StoredSuper(w.v, x, w.ss[k].refs % 0x1_0000_0000);
    ResizedFile(w.v, w.ss[k].ino, StoredWorld(WithInode(w, k, x), k).v, x);
    hide SoundWorld, Solid, SameFile, Contents, OthersSame, Stored;
  }

  lemma ResizedFile(v: seq<Block>, ino: Inode, v': seq<Block>, x: Inode)
    requires x.addrs == ino.addrs && SameFile(v, x.addrs, v')
    ensures x.size <= ino.size ==> Contents(v', x) == Contents(v, ino)[..x.size]
    ensures x.size <= ino.size && Solid(v, ino) ==> Solid(v', x)
  {
    SameFileContents(v, x, v');
    hide Lookup, Data, SameTree;
    if x.size <= ino.size {
      assert Contents(v', x) == Contents(v, ino)[..x.size];
    }
  }

  /** Nothing is missing below the end of a solid file. */
  lemma NothingLacking(w: World, k: nat, off: nat, n: nat)
    requires k < |w.ss| && Solid(w.v, w.ss[k].ino) && off + n <= w.ss[k].ino.size
    ensures Need(w, k, off, n) == 0
  {
    var x := Lacking(w, k, off, n);
    forall s ensures s !in x {
      if s in x {
        var b: nat :| off / BSIZE <= b < Ceil(off + n) && s in Path(LeafOf(b));
        assert Lookup(w.v, w.ss[k].ino.addrs, b) != 0;
        AtPath(w.v, w.ss[k].ino.addrs, LeafOf(b), s);
      }
    }
    assert x == {};
  }

  /** Where `cmd_d` takes the tail from: `pos + len` is computed in 32 bits. */
  function TailPos(pos: uint32, len: uint32, size: nat): nat {
    Min(Add32(pos, len), size)
  }

  /** Cutting at `TailPos` is a deletion exactly when `pos + len` does not wrap round. */
  lemma DeleteWraps(c: seq<byte>, pos: uint32, len: uint32)
    requires pos <= |c| < 0x1_0000_0000
    ensures c[..pos] + c[TailPos(pos, len, |c|)..] == Deleted(c, pos, len) <==> pos + len < 0x1_0000_0000
  {
    if pos + len >= 0x1_0000_0000 {
      assert |c[..pos] + c[TailPos(pos, len, |c|)..]| > pos == |Deleted(c, pos, len)|;
    }
  }

  /** A write of `n` bytes at `off` would complete. */
  ghost predicate CanWrite(w: World, k: nat, off: nat, n: nat)
    requires k < |w.ss|
  {
    off + n <= MAXSIZE && |w.owner| + Need(w, k, off, n) <= Capacity(|w.v|)
  }

  /** `cmd_d` can write its tail: either `pos + len` does not wrap round, or there is room. */
  ghost predicate CutFits(w: World, k: nat, pos: uint32, len: uint32)
    requires k < |w.ss| && pos <= w.ss[k].ino.size
  {
    pos + len < 0x1_0000_0000 || CanWrite(w, k, pos, w.ss[k].ino.size - TailPos(pos, len, w.ss[k].ino.size))
  }

  /** What is below the old end when the tail, which would end above it, could not be written: as much of
      it as lies there, or nothing of it if its end is beyond the largest file. */
  function CutShort(c: seq<byte>, pos: nat, tail: seq<byte>): seq<byte>
    requires pos <= |c|
  {
    if pos + |tail| > MAXSIZE || pos + |tail| < |c| then c else (c[..pos] + tail)[..|c|]
  }

  /** `cmd_d` has given the file the size that a cut at `TailPos` leaves. The file has no hole
      exactly if the tail could be written, and then it is cut there. Without a wrap no block is
      taken. */
  ghost predicate CutOut(w: World, w': World, k: nat, pos: uint32, len: uint32)
    requires k < |w.ss| && w.ss[k].ino.inum < |w.t| && pos <= w.ss[k].ino.size
  {
    var n, size, c := w.ss[k].ino.inum, w.ss[k].ino.size, Contents(w.v, w.ss[k].ino);
    && n < |w'.t| && Edited(w, w', n) && w'.t[n].size == pos + size - TailPos(pos, len, size)
    && (Solid(w'.v, w'.t[n]) <==> CutFits(w, k, pos, len))
    && (CutFits(w, k, pos, len) ==> File(w', n) == c[..pos] + c[TailPos(pos, len, size)..])
    && (!CutFits(w, k, pos, len) ==> size <= w'.t[n].size && File(w', n)[..size] == CutShort(c, pos, c[TailPos(pos, len, size)..]))
    && (pos + len < 0x1_0000_0000 ==> |w'.owner| == |w.owner|)
    && Super(w.v, w'.v, Overruns(w, k, pos, size - TailPos(pos, len, size)))
  }

  /** `cmd_d` from the inode on: deletes `len` bytes at `pos`; fails when `pos` is beyond the end.
      `whole` is what the source does not look at: whether `writei` wrote all of the tail. */
  method DeleteAt(fs: FileSystem, k: nat, pos: uint32, len: uint32, now: uint32) returns (ok: bool, whole: bool)
    requires fs.Valid() && fs.IsInode(k) && |fs.table| == NINODES
    requires Solid(fs.dev.contents, fs.slots[k].ino)
    modifies fs, fs.slots, fs.dev, fs.dev.arr, fs.dev.disk.data
    ensures fs.Valid() && fs.IsInode(k) && fs.sb == old(fs.sb)
    ensures ok <==> pos <= old(fs.slots[k].ino.size)
    ensures !ok ==> fs.Now() == old(fs.Now()) && whole
    ensures ok ==> old(fs.slots[k].ino.inum) < |old(fs.table)| && CutOut(old(fs.Now()), fs.Now(), k, pos, len)
    ensures ok ==> (whole <==> CutFits(old(fs.Now()), k, pos, len)) && Stamped(old(fs.slots[k].ino), fs.slots[k].ino, now)
    ensures Ticked(old(fs.table), fs.table, now)
  {
    hide Inv, SoundWorld, Solid, Peeked, WriteSpec, Contents, Edited, Stuck, CutOut, Stored, CutFits, Super, WroteTo, Charged, Ticked;
    ghost var w, n := fs.Now(), fs.slots[k].ino.inum;
    SoundSlot(w, k);
    SolidSize(w.v, fs.slots[k].ino);
    var orig_size := fs.slots[k].ino.size;
    if pos > orig_size {
      TickedRefl(w.t, now);
      return false, true;
    }
    var tail_pos := Add32(pos, len);
    if tail_pos > orig_size {
      tail_pos := orig_size;
    }
    var tail_len := orig_size - tail_pos;
    var tail := ReadAt(fs, k, tail_pos, tail_len, now);
    ghost var w1 := fs.Now();
    SoundSlot(w1, k);
    PeekedFile(w, w1, n);
    PeekedSame(w, w1, n);
    PeekedInum(w, w1, k);
    var t := WriteAt(fs, k, tail, pos, now);
    ghost var w2 := fs.Now();
    SoundSlot(w2, k);
    WriteSpecInum(w1, w2, k, pos, tail, t);
    var x := fs.slots[k].ino.(size := pos + tail_len);
    fs.SetInode(k, x);
    fs.IUpdate(k);
    Resized(w2, k, x);
    ResizedTicks(w, w1, w2, fs.Now(), k, now);
    DeleteSteps(w, w1, w2, fs.Now(), k, pos, len, tail, t);
    ok, whole := true, t == Some(tail_len);
  }

  lemma ResizedTicks(w: World, w1: World, w2: World, w3: World, k: nat, now: uint32)
    requires Ticked(w.t, w1.t, now) && Ticked(w1.t, w2.t, now)
    requires SoundWorld(w2) && SoundWorld(w3) && k < |w2.ss| && k < |w3.ss| && w2.ss[k].ino.inum < NINODES
    requires Edited(w2, w3, w2.ss[k].ino.inum) && Stamped(w2.ss[k].ino, w3.ss[k].ino, now)
    ensures Ticked(w.t, w3.t, now)
  {
    hide SoundWorld, Edited, Stamped, Ticked;
    SlotTicked(w2, w3, k, now);
    TickedTrans(w.t, w1.t, w2.t, now);
    TickedTrans(w.t, w2.t, w3.t, now);
  }

  /** The tail is written in full exactly if the cut fits. */
  lemma TailFits(w: World, w1: World, w2: World, k: nat, pos: uint32, len: uint32, tail: seq<byte>, t: Option<nat>)
    requires SoundWorld(w) && k < |w.ss| && k < |w1.ss|
    requires w.ss[k].ino.inum < NINODES == |w.t| && w.t[w.ss[k].ino.inum] == w.ss[k].ino && Solid(w.v, w.ss[k].ino)
    requires w1.ss[k].ino.inum == w.ss[k].ino.inum < |w1.t| && w1.ss[k].ino == w1.t[w.ss[k].ino.inum]
    requires pos <= w.ss[k].ino.size <= MAXSIZE && Peeked(w, w1, w.ss[k].ino.inum)
    requires |tail| == w.ss[k].ino.size - TailPos(pos, len, w.ss[k].ino.size) && WriteSpec(w1, w2, k, pos, tail, t)
    ensures t == Some(|tail|) <==> CutFits(w, k, pos, len)
    ensures pos + len < 0x1_0000_0000 ==> |w2.owner| == |w.owner|
  {
    hide SoundWorld, Solid, WriteSpec, Peeked, Need, Capacity, SameFile;
    PeekedSame(w, w1, w.ss[k].ino.inum);
    WriteSpecCounts(w1, w2, k, pos, tail, t);
    if CutFits(w, k, pos, len) {
      TailWritten(w, w1, w2, k, pos, tail, t, pos + len < 0x1_0000_0000);
    } else if t == Some(|tail|) {
      PeekedNeed(w, w1, k, pos, |tail|);
    }
  }

  /** A tail that was not written in full leaves a hole below the new end. */
  lemma CutHole(w1: World, w2: World, w3: World, k: nat, n: nat, pos: uint32, tail: seq<byte>, t: Option<nat>)
    requires k < |w1.ss| && k < |w2.ss| && w1.ss[k].ino.inum < |w1.t| && n < |w3.t| && pos <= MAXSIZE && |tail| <= MAXSIZE
    requires WriteSpec(w1, w2, k, pos, tail, t) && t != Some(|tail|)
    requires w3.t[n].addrs == w2.ss[k].ino.addrs && w3.t[n].size == pos + |tail| && SameTree(w2.v, w2.ss[k].ino.addrs, w3.v)
    ensures !Solid(w3.v, w3.t[n])
  {
    hide SoundWorld, WriteSpec, SameTree, Lookup;
    if t.Some? {
      WriteSpecStuck(w1, w2, k, pos, tail, t);
      var b := (pos + t.value) / BSIZE;
      SameLookup(w2.v, w2.ss[k].ino.addrs, w3.v, b);
      assert BSIZE * b < w3.t[n].size;
    }
    WriteSpecCounts(w1, w2, k, pos, tail, t);
  }

  lemma GrownPrefix(v: seq<Block>, x: Inode, v': seq<Block>, y: Inode)
    requires y.addrs == x.addrs && SameFile(v, x.addrs, v') && x.size <= y.size
    ensures Contents(v', y)[..x.size] == Contents(v, x)
  {
    SameFileContents(v, x, v');
    hide SameFile, Data, Lookup;
  }

  /** What such a write leaves below the old end. */
  lemma CutLeaves(w1: World, w2: World, w3: World, k: nat, n: nat, c: seq<byte>, pos: uint32, tail: seq<byte>, t: Option<nat>)
    requires k < |w1.ss| && k < |w2.ss| && w1.ss[k].ino.inum == n < |w1.t| && w1.t[n] == w1.ss[k].ino && n < |w2.t| && n < |w3.t|
    requires w2.ss[k].ino == w2.t[n] && pos <= |c| <= MAXSIZE && |tail| <= MAXSIZE && c == File(w1, n) && pos + |tail| > |c|
    requires WriteSpec(w1, w2, k, pos, tail, t) && t != Some(|tail|)
    requires w3.t[n].addrs == w2.ss[k].ino.addrs && w3.t[n].size == pos + |tail| && SameFile(w2.v, w2.ss[k].ino.addrs, w3.v)
    ensures |c| <= |File(w3, n)| && File(w3, n)[..|c|] == CutShort(c, pos, tail)
  {
    hide SoundWorld, WriteSpec, SameTree, Lookup, Contents, Overlay, SameFile;
    WriteSpecCounts(w1, w2, k, pos, tail, t);
    WriteSpecParts(w1, w2, k, pos, tail, t);
    FileSize(w1, k);
    if t.Some? {
      StoppedAtEnd(w1, w2, k, pos, tail, t);
    }
    Landed(c, pos, tail, t);
    CutOverlay(c, pos, tail);
    FileSize(w2, k);
    SizeOf(w3, n);
    GrownPrefix(w2.v, w2.t[n], w3.v, w3.t[n]);
  }

  lemma UnfitWraps(w: World, k: nat, pos: uint32, len: uint32)
    requires k < |w.ss| && pos <= w.ss[k].ino.size && !CutFits(w, k, pos, len)
    ensures TailPos(pos, len, w.ss[k].ino.size) < pos
  {
    hide CanWrite;
  }

  lemma CutOverlay(c: seq<byte>, pos: nat, tail: seq<byte>)
    requires pos <= |c| < pos + |tail|
    ensures Overlay(c, pos, tail)[..|c|] == (c[..pos] + tail)[..|c|]
  {
  }

  lemma SizeOf(w: World, n: nat)
    requires n < |w.t|
    ensures |File(w, n)| == w.t[n].size
  {
  }

  lemma SameLookup(v: seq<Block>, a: Addrs, v': seq<Block>, b: nat)
    requires SameTree(v, a, v')
    ensures Lookup(v', a, b) == Lookup(v, a, b)
  {
  }

  lemma WriteSpecStuck(w: World, w': World, k: nat, off: nat, src: seq<byte>, tot: Option<nat>)
    requires k < |w.ss| && k < |w'.ss| && w.ss[k].ino.inum < |w.t| && WriteSpec(w, w', k, off, src, tot)
    requires tot.Some? && tot != Some(|src|)
    ensures tot.value < |src| && Lookup(w'.v, w'.ss[k].ino.addrs, (off + tot.value) / BSIZE) == 0
  {
    hide SoundWorld, Solid, Contents, Edited, GrewSlots, Lookup, Capacity, Overruns, Need;
  }

  lemma DeleteSteps(w: World, w1: World, w2: World, w3: World, k: nat, pos: uint32, len: uint32, tail: seq<byte>, t: Option<nat>)
    requires SoundWorld(w) && k < |w.ss| && k < |w1.ss| && k < |w2.ss|
    requires w.ss[k].ino.inum < NINODES == |w.t| && w.t[w.ss[k].ino.inum] == w.ss[k].ino && Solid(w.v, w.ss[k].ino)
    requires w1.ss[k].ino.inum == w.ss[k].ino.inum < |w1.t| && w1.ss[k].ino == w1.t[w.ss[k].ino.inum]
    requires w2.ss[k].ino.inum == w.ss[k].ino.inum < |w2.t| && w2.ss[k].ino == w2.t[w.ss[k].ino.inum]
    requires w.ss[k].ino.inum < |w3.t| && pos <= w.ss[k].ino.size <= MAXSIZE
    requires Peeked(w, w1, w.ss[k].ino.inum) && SoundWorld(w1)
    requires tail == File(w, w.ss[k].ino.inum)[TailPos(pos, len, w.ss[k].ino.size)..]
    requires WriteSpec(w1, w2, k, pos, tail, t)
    requires Edited(w2, w3, w.ss[k].ino.inum) && w3.owner == w2.owner && w3.t[w.ss[k].ino.inum].size == pos + |tail|
    requires w3.t[w.ss[k].ino.inum].addrs == w2.ss[k].ino.addrs && SameFile(w2.v, w2.ss[k].ino.addrs, w3.v) && Super(w2.v, w3.v, false)
    requires pos + |tail| <= w2.ss[k].ino.size ==>
               && File(w3, w.ss[k].ino.inum) == File(w2, w.ss[k].ino.inum)[..pos + |tail|]
               && (Solid(w2.v, w2.ss[k].ino) ==> Solid(w3.v, w3.t[w.ss[k].ino.inum]))
    ensures CutOut(w, w3, k, pos, len) && (t == Some(|tail|) <==> CutFits(w, k, pos, len))
  {
    hide SoundWorld, Solid, Edited, Contents, Missing, GrewSlots, Lookup, Capacity, Stuck, WriteResult, WriteSpec, Peeked, Need, CutFits,
      SameTree, Super, Overruns;
    var n, size := w.ss[k].ino.inum, w.ss[k].ino.size;
    PeekedFile(w, w1, n);
    PeekedSame(w, w1, n);
    PeekedEdited(w, w1, n);
    WriteSpecParts(w1, w2, k, pos, tail, t);
    EditedTrans(w, w1, w2, n);
    EditedTrans(w, w2, w3, n);
    FileSize(w2, k);
    TailFits(w, w1, w2, k, pos, len, tail, t);
    DeleteSuper(w, w1, w2, w3, k, pos, tail, t);
    if t == Some(|tail|) {
      OverlayEnd(File(w, n), pos, tail, t);
    } else {
      CutHole(w1, w2, w3, k, n, pos, tail, t);
      UnfitWraps(w, k, pos, len);
      CutLeaves(w1, w2, w3, k, n, File(w, n), pos, tail, t);
    }
  }

  lemma DeleteSuper(w: World, w1: World, w2: World, w3: World, k: nat, pos: uint32, tail: seq<byte>, t: Option<nat>)
    requires k < |w.ss| && k < |w1.ss| && w.ss[k].ino.inum < |w.t| && w.t[w.ss[k].ino.inum] == w.ss[k].ino
    requires w1.ss[k].ino.inum == w.ss[k].ino.inum < |w1.t| && w1.ss[k].ino == w1.t[w.ss[k].ino.inum]
    requires Peeked(w, w1, w.ss[k].ino.inum) && WriteSpec(w1, w2, k, pos, tail, t) && Super(w2.v, w3.v, false)
    ensures Super(w.v, w3.v, Overruns(w, k, pos, |tail|))
  {
    hide SoundWorld, WriteSpec, Peeked, Overruns, Super;
    PeekedSame(w, w1, w.ss[k].ino.inum);
    PeekedSuper(w, w1, w.ss[k].ino.inum);
    PeekedOverruns(w, w1, k, pos, |tail|);
    WriteSpecSuper(w1, w2, k, pos, tail, t);
    SuperTrans(w.v, w1.v, w2.v, false, Overruns(w1, k, pos, |tail|));
    SuperTrans(w.v, w2.v, w3.v, Overruns(w, k, pos, |tail|), false);
  }

  /** An input: a file of one full block on a full device. Cutting at its end a length that brings
      the sum back to 0 does not fit, and leaves a second block that is not there. */
  lemma CutLeavesHole(w: World, w': World, k: nat)
    requires k < |w.ss| && w.ss[k].ino.inum < |w.t| && w.ss[k].ino.size == BSIZE && w.ss[k].ino.addrs[1] == 0
    requires |w.owner| == Capacity(|w.v|) && CutOut(w, w', k, BSIZE, 0x1_0000_0000 - BSIZE)
    ensures w.ss[k].ino.inum < |w'.t| && !Solid(w'.v, w'.t[w.ss[k].ino.inum])
  {
    hide Edited, Contents, Capacity, Overruns;
    assert TailPos(BSIZE, 0x1_0000_0000 - BSIZE, BSIZE) == 0;
    var x := Lacking(w, k, BSIZE, BSIZE);
    assert Ceil(BSIZE + BSIZE) == 2 && LeafOf(1) == Top(1) && Path(LeafOf(1)) == {Top(1)};
    assert Top(1) in RangeSlots(1, 2);
    assert Top(1) in x && |x| > 0;
  }

  lemma FileSize(w: World, k: nat)
    requires k < |w.ss| && w.ss[k].ino.inum < |w.t| && w.ss[k].ino == w.t[w.ss[k].ino.inum]
    ensures |File(w, w.ss[k].ino.inum)| == w.ss[k].ino.size
  {
  }

  lemma OverlayEnd(c: seq<byte>, pos: nat, tail: seq<byte>, t: Option<nat>)
    requires pos <= |c| && (|tail| > 0 ==> t == Some(|tail|)) && (|tail| == 0 ==> t.Some? ==> t.value == 0)
    ensures |WriteResult(c, pos, tail, t)| == Max(|c|, pos + |tail|)
    ensures WriteResult(c, pos, tail, t)[..pos + |tail|] == c[..pos] + tail
  {
  }

  /** The tail of `cmd_d` is written in full, over blocks that are all there unless the
      position wrapped round. */
  lemma TailWritten(w: World, w1: World, w2: World, k: nat, pos: uint32, tail: seq<byte>, t: Option<nat>, inside: bool)
    requires SoundWorld(w) && k < |w.ss| && k < |w1.ss|
    requires w.ss[k].ino.inum < NINODES == |w.t| && w.t[w.ss[k].ino.inum] == w.ss[k].ino && Solid(w.v, w.ss[k].ino)
    requires w1.ss[k].ino.inum == w.ss[k].ino.inum < |w1.t| && w1.ss[k].ino == w1.t[w.ss[k].ino.inum]
    requires pos <= w.ss[k].ino.size <= MAXSIZE && Peeked(w, w1, w.ss[k].ino.inum)
    requires WriteSpec(w1, w2, k, pos, tail, t)
    requires if inside then pos + |tail| <= w.ss[k].ino.size else CanWrite(w, k, pos, |tail|)
    ensures if |tail| > 0 then t == Some(|tail|) else t == Some(0)
    ensures inside ==> |w2.owner| == |w.owner|
  {
    hide SoundWorld, Solid, Edited, Contents, GrewSlots, Lookup, Stuck, WriteResult, Peeked, Need, Capacity, OthersSame;
    PeekedSame(w, w1, w.ss[k].ino.inum);
    PeekedNeed(w, w1, k, pos, |tail|);
    if inside {
      NothingLacking(w, k, pos, |tail|);
      SoundBound(w);
    }
  }

  lemma SoundBound(w: World)
    requires SoundWorld(w)
    ensures |w.owner| <= Capacity(|w.v|)
  {
    OwnerBound(w.v, w.t, w.owner);
  }

  /** `cmd_w` from the inode on: the file is cut to nothing, keeping its blocks, and `data` is
      written from the start. Reports failure only when `data` is too large for any file. */
  method Overwrite(fs: FileSystem, k: nat, data: seq<byte>, now: uint32) returns (ok: bool)
    requires fs.Valid() && fs.IsInode(k) && |fs.table| == NINODES && |data| < 0x1_0000_0000
    requires Solid(fs.dev.contents, fs.slots[k].ino)
    modifies fs, fs.slots, fs.dev, fs.dev.arr, fs.dev.disk.data
    ensures fs.Valid() && fs.IsInode(k) && fs.sb == old(fs.sb)
    ensures ok <==> |data| <= MAXSIZE
    ensures var w, w', n := old(fs.Now()), fs.Now(), old(fs.slots[k].ino.inum);
      && n < |w.t| && n < |w'.t| && Edited(w, w', n) && Solid(w'.v, w'.t[n])
      && File(w', n) == (if |data| > 0 && CanWrite(w, k, 0, |data|) then data else [])
      && Super(w.v, w'.v, Overruns(w, k, 0, |data|))
      && Recounted(w, w', k, data) && Takes(w, w', k, 0, |data|)
    ensures Stamped(old(fs.slots[k].ino), fs.slots[k].ino, now) && Ticked(old(fs.table), fs.table, now)
  {
    hide Inv, SoundWorld, Solid, WriteSpec, Contents, Edited, Stuck, Stored, Need, Capacity, CanWrite, Super, Overruns, WroteTo, Charged, Recounted,
      Ticked, Takes;
    ghost var w, n := fs.Now(), fs.slots[k].ino.inum;
    SoundSlot(w, k);
    var x := fs.slots[k].ino.(size := 0, blocks := 0);
    fs.SetInode(k, x);
    fs.IUpdate(k);
    Resized(w, k, x);
    ghost var w1 := fs.Now();
    SoundSlot(w1, k);
    SlotTicked(w, w1, k, now);
    var r := WriteAt(fs, k, data, 0, now);
    TickedTrans(w.t, w1.t, fs.table, now);
    SoundSlot(fs.Now(), k);
    OverwriteSteps(w, w1, fs.Now(), k, data, r);
    if r.None? || |data| == 0 { WriteNothing(w1, fs.Now(), k, 0, data, r); }
    OverwriteCount(w, w1, fs.Now(), k, data, r);
    PeekedOverruns(w, w1, k, 0, |data|);
    WriteSpecSuper(w1, fs.Now(), k, 0, data, r);
    SuperTrans(w.v, w1.v, fs.Now().v, false, Overruns(w1, k, 0, |data|));
    ok := r.Some?;
  }

  /** The block counter has been restarted: it counts the blocks taken for `data` and a failed attempt, and no
      block that the file had before. */
  ghost predicate Recounted(w: World, w': World, k: nat, data: seq<byte>)
    requires k < |w.ss|
  {
    && k < |w'.ss| && |w.owner| <= |w'.owner|
    && w'.ss[k].ino.blocks ==
       if |data| > MAXSIZE then 0
       else (|w'.owner| - |w.owner| + if |data| == 0 || CanWrite(w, k, 0, |data|) then 0 else 1) % 0x1_0000_0000
  }

  /** A write of `n` bytes at `off` that finds room takes exactly the blocks that its range lacks. */
  ghost predicate Takes(w: World, w': World, k: nat, off: nat, n: nat)
    requires k < |w.ss|
  {
    n > 0 && CanWrite(w, k, off, n) ==> |w'.owner| == |w.owner| + Need(w, k, off, n)
  }

  lemma WriteNothing(w: World, w': World, k: nat, off: nat, src: seq<byte>, t: Option<nat>)
    requires k < |w.ss| && w.ss[k].ino.inum < |w.t| && WriteSpec(w, w', k, off, src, t) && (t.None? || |src| == 0)
    ensures w' == w
  {
    hide SoundWorld, Solid, Edited, Contents, GrewSlots, Stuck, Need, Capacity, Overruns;
  }

  lemma OverwriteCount(w: World, w1: World, w2: World, k: nat, data: seq<byte>, r: Option<nat>)
    requires k < |w.ss| && k < |w1.ss| && w.ss[k].ino.inum < |w.t| && |data| < 0x1_0000_0000
    requires w1.ss[k].ino.inum == w.ss[k].ino.inum < |w1.t|
    requires w1.ss[k].ino == w.ss[k].ino.(size := 0, blocks := 0) && w1.owner == w.owner && |w1.v| == |w.v|
    requires SameFile(w.v, w.ss[k].ino.addrs, w1.v) && WriteSpec(w1, w2, k, 0, data, r)
    requires r.Some? && |data| > 0 ==> Charged(w1, w2, k, if r.value < |data| && r.value < MAXSIZE then 1 else 0)
    requires r.None? || |data| == 0 ==> w2 == w1
    ensures Recounted(w, w2, k, data) && Takes(w, w2, k, 0, |data|)
  {
    hide WriteSpec, Need, Capacity, SameFile, Lookup;
    WriteSpecCounts(w1, w2, k, 0, data, r);
    if |data| <= MAXSIZE { PeekedNeed(w, w1, k, 0, |data|); }
  }

  lemma OverwriteSteps(w: World, w1: World, w2: World, k: nat, data: seq<byte>, r: Option<nat>)
    requires k < |w.ss| && k < |w1.ss| && w.ss[k].ino.inum < |w.t| && |data| < 0x1_0000_0000
    requires w1.ss[k].ino.inum == w.ss[k].ino.inum < |w1.t| && w1.t[w.ss[k].ino.inum] == w1.ss[k].ino
    requires w1.ss[k].ino == w.ss[k].ino.(size := 0, blocks := 0) && w1.owner == w.owner && |w1.v| == |w.v|
    requires SameFile(w.v, w.ss[k].ino.addrs, w1.v) && Edited(w, w1, w.ss[k].ino.inum)
    requires w.ss[k].ino.inum < |w2.t| && WriteSpec(w1, w2, k, 0, data, r)
    ensures r.Some? <==> |data| <= MAXSIZE
    ensures var n := w.ss[k].ino.inum;
      && Edited(w, w2, n) && Solid(w2.v, w2.t[n])
      && File(w2, n) == if |data| > 0 && CanWrite(w, k, 0, |data|) then data else []
  {
    hide SoundWorld, Solid, GrewSlots, Stuck, OthersSame, Need, Capacity, Lookup, SameFile;
    var n := w.ss[k].ino.inum;
    WriteSpecParts(w1, w2, k, 0, data, r);
    EditedTrans(w, w1, w2, n);
    FileSize(w1, k);
    assert File(w1, n) == [];
    if |data| <= MAXSIZE {
      PeekedNeed(w, w1, k, 0, |data|);
    }
    assert Overlay([], 0, data) == data;
  }
}
