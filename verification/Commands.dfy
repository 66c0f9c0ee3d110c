/** The commands that read and edit one file, on the inode they have looked up. */
module Commands {
  import opened Bytes
  import opened Results
  import opened BlockTree
  import opened Bitmap
  import opened Inodes
  import opened Growth
  import opened Files
  import opened InodeCache
  import opened World
  import opened Writes
  import opened BlockZero
  import opened TwoWrites
  import opened FileSystem
  import opened Cache

  /** The same inode up to its size, its blocks and its times. */
  predicate SameMeta(x: Inode, y: Inode) {
    y == x.(size := y.size, blocks := y.blocks, addrs := y.addrs, atime := y.atime, mtime := y.mtime, ctime := y.ctime)
  }

  /** The same inode up to its size and its blocks, and each of its times is the same or `now`. */
  predicate Stamped(x: Inode, y: Inode, now: uint32) {
    && SameMeta(x, y) && (y.atime == x.atime || y.atime == now)
    && (y.mtime == x.mtime || y.mtime == now) && (y.ctime == x.ctime || y.ctime == now)
  }

  /** All three times of an inode are `now`. */
  predicate Timed(x: Inode, now: uint32) {
    x.atime == now && x.mtime == now && x.ctime == now
  }

  lemma StampedRefl(x: Inode, now: uint32)
    ensures Stamped(x, x, now)
  {
  }

  lemma AccessStamped(x: Inode, y: Inode, now: uint32)
    requires y == x.(atime := y.atime) && (y.atime == x.atime || y.atime == now)
    ensures Stamped(x, y, now)
  {
  }

  lemma TimedStays(x: Inode, y: Inode, now: uint32)
    requires Timed(x, now) && Stamped(x, y, now)
    ensures Timed(y, now)
  {
  }

  lemma StampedTrans(x: Inode, y: Inode, z: Inode, now: uint32)
    requires Stamped(x, y, now) && Stamped(y, z, now)
    ensures Stamped(x, z, now)
  {
  }

  lemma WroteStamped(x: Inode, y: Inode, off: nat, n: nat, tot: nat, now: uint32)
    requires WroteTo(x, y, off, n, tot, now)
    ensures Stamped(x, y, now)
  {
  }

  /** No time of any inode has become anything but `now`. */
  ghost predicate Ticked(t: seq<Inode>, t': seq<Inode>, now: uint32) {
    && |t'| == |t|
    && forall m :: 0 <= m < |t| ==>
         && (t'[m].atime == t[m].atime || t'[m].atime == now)
         && (t'[m].mtime == t[m].mtime || t'[m].mtime == now)
         && (t'[m].ctime == t[m].ctime || t'[m].ctime == now)
  }

  lemma TickedRefl(t: seq<Inode>, now: uint32)
    ensures Ticked(t, t, now)
  {
  }

  lemma TickedTrans(t: seq<Inode>, t1: seq<Inode>, t2: seq<Inode>, now: uint32)
    requires Ticked(t, t1, now) && Ticked(t1, t2, now)
    ensures Ticked(t, t2, now)
  {
  }

  lemma EditedTicked(w: World, w': World, n: nat, now: uint32)
    requires Edited(w, w', n) && n < |w'.t| && Stamped(w.t[n], w'.t[n], now)
    ensures Ticked(w.t, w'.t, now)
  {
    hide SoundWorld, SameFile;
  }

  /** What has been done to the inode in slot `k` alone has set no other time. */
  lemma SlotTicked(w: World, w': World, k: nat, now: uint32)
    requires SoundWorld(w) && SoundWorld(w') && k < |w.ss| && k < |w'.ss| && w.ss[k].ino.inum < NINODES
    requires Edited(w, w', w.ss[k].ino.inum) && Stamped(w.ss[k].ino, w'.ss[k].ino, now)
    ensures Ticked(w.t, w'.t, now)
  {
    hide SoundWorld, Edited, Ticked;
    SoundSlot(w, k);
    SoundSlot(w', k);
    EditedTicked(w, w', w.ss[k].ino.inum, now);
  }

  /** The same inodes are cached, in the same slots, with the same reference counts. */
  ghost predicate SameHandles(w: World, w': World) {
    && w'.refs == w.refs && |w'.ss| == |w.ss| && |w'.v| == |w.v|
    && forall i :: 0 <= i < |w.ss| ==> w'.ss[i].ino.inum == w.ss[i].ino.inum
  }

  /** The same inode numbers are marked as taken. */
  ghost predicate SameNumbers(w: World, w': World) {
    |w'.v| == |w.v| && (|w.v| > 1 ==> w'.v[1] == w.v[1])
  }

  /** Only inode `n` and its file may have changed. */
  ghost predicate Edited(w: World, w': World, n: nat) {
    && SoundWorld(w') && SameHandles(w, w') && SameNumbers(w, w') && OthersSame(w, w', n)
    && n < |w.t| && SameMeta(w.t[n], w'.t[n])
  }

  lemma EditedTrans(w: World, w1: World, w2: World, n: nat)
    requires Edited(w, w1, n) && Edited(w1, w2, n)
    ensures Edited(w, w2, n)
  {
    hide SoundWorld, OthersSame;
    OthersSameTrans(w, w1, w2, n);
  }

  lemma EditedRefl(w: World, n: nat)
    requires SoundWorld(w) && n < |w.t|
    ensures Edited(w, w, n)
  {
    hide SoundWorld, SameFile;
    SoundDevice(w);
    forall j | 0 <= j < |w.t| ensures SameFile(w.v, w.t[j].addrs, w.v) { SameFileRefl(w.v, w.t[j].addrs); }
  }

  lemma SoundDevice(w: World)
    requires SoundWorld(w)
    ensures BLOCK_START <= |w.v|
  {
    hide TableOk, Owned, Marked;
  }

  /** Setting fields other than the pointers of a cached inode and storing it. */
  lemma TouchEdited(w: World, k: nat, x: Inode)
    requires SoundWorld(w) && k < |w.ss| && w.ss[k].ino.inum < NINODES
    requires x.addrs == w.ss[k].ino.addrs && SameMeta(w.ss[k].ino, x)
    ensures x.inum < |w.t| && BLOCK_START <= |w.v| && w.t[x.inum] == w.ss[k].ino
    ensures var w' := StoredWorld(WithInode(w, k, x), k);
      Edited(w, w', x.inum) && w'.t[x.inum] == x && w'.owner == w.owner && SameFile(w.v, x.addrs, w'.v)
  {
    hide SoundWorld, OthersSame, SameFile, Stored;
    TouchedOthers(w, k, x);
    StoredLength(w.v, x, w.ss[k].refs % 0x1_0000_0000);
  }

  lemma StoredLength(v: seq<Block>, x: Inode, r: uint32)
    requires x.inum < NINODES && BLOCK_START <= |v|
    ensures |Stored(v, x.inum, x, r)| == |v| && Stored(v, x.inum, x, r)[1] == v[1]
  {
  }

  /** The result of writing `tot` bytes of `src` at `off`. */
  function WriteResult(c: seq<byte>, off: nat, src: seq<byte>, tot: Option<nat>): seq<byte>
    requires tot.Some? ==> tot.value <= |src|
  {
    if tot.None? || tot.value == 0 || off > |c| then c
    else if tot.value == |src| then Overlay(c, off, src)
    else Overlay(c, off, src[..tot.value])[..|c|]
  }

  lemma WritingEdited(w: World, mid: World, k: nat, off: nat, src: seq<byte>, tot: nat, added: set<Slot>)
    requires Writing(w, mid, k, off, src, tot, added)
    ensures k < |w.ss| && w.ss[k].ino.inum < NINODES && Edited(w, mid, w.ss[k].ino.inum)
    ensures mid.ss[k].ino == mid.t[w.ss[k].ino.inum]
  {
    WritingParts(w, mid, k, off, src, tot, added);
    WritingCounts(w, mid, k, off, src, tot, added);
    MovedOthers(w, mid, k, added);
    SoundSlot(w, k);
    MovedNumbers(w, mid, k, added);
    hide SoundWorld, OthersSame, Advanced, Wrote;
  }

  lemma MovedNumbers(w: World, w': World, k: nat, added: set<Slot>)
    requires Moved(w, w', k, added)
    ensures SameNumbers(w, w')
  {
    hide TableOk, Owned, Marked, GrewSlots, SameTree;
  }

  lemma AfterWriteEdited(w: World, mid: World, k: nat, off: uint32, src: seq<byte>, tot: nat, added: set<Slot>, now: uint32)
    requires Writing(w, mid, k, off, src, tot, added) && |src| < 0x1_0000_0000
    ensures k < |w.ss| && k < |mid.ss| && mid.ss[k].ino.inum == w.ss[k].ino.inum < NINODES == |mid.t| && BLOCK_START <= |mid.v|
    ensures Edited(w, AfterWrite(mid, k, off, src, tot, now), w.ss[k].ino.inum)
    ensures AfterWrite(mid, k, off, src, tot, now).owner == mid.owner
  {
    hide Writing, SoundWorld, Edited, Stored, OthersSame;
    WritingEdited(w, mid, k, off, src, tot, added);
    WritingParts(w, mid, k, off, src, tot, added);
    WritingSound(w, mid, k, off, src, tot, added);
    if tot == |src| {
      var ino := mid.ss[k].ino;
      TouchEdited(mid, k, ino.(size := Max(ino.size, Add32(off, |src|)), mtime := now, ctime := now));
      EditedTrans(w, mid, AfterWrite(mid, k, off, src, tot, now), ino.inum);
    }
  }

  lemma AfterWriteInode(w: World, mid: World, k: nat, off: uint32, src: seq<byte>, tot: nat, added: set<Slot>, now: uint32)
    requires Writing(w, mid, k, off, src, tot, added) && |src| < 0x1_0000_0000
    requires k < |w.ss| && k < |mid.ss| && mid.ss[k].ino.inum == w.ss[k].ino.inum < NINODES == |mid.t| && BLOCK_START <= |mid.v|
    ensures var w', n := AfterWrite(mid, k, off, src, tot, now), w.ss[k].ino.inum;
      k < |w'.ss| && w'.ss[k].ino == w'.t[n]
  {
    hide Writing, SoundWorld, Stored;
    WritingSound(w, mid, k, off, src, tot, added);
    SoundSlot(mid, k);
  }

  /** How many blocks a write of `n` bytes at `off` still lacks. */
  ghost function Need(w: World, k: nat, off: nat, n: nat): nat
    requires k < |w.ss|
  {
    |Lacking(w, k, off, n)|
  }

  ghost function Lacking(w: World, k: nat, off: nat, n: nat): set<Slot>
    requires k < |w.ss|
  {
    Missing(w.v, w.ss[k].ino.addrs, off / BSIZE, Ceil(off + n))
  }

  /** Everything the commands use about one call of `writei`. */
  ghost predicate WriteSpec(w: World, w': World, k: nat, off: nat, src: seq<byte>, tot: Option<nat>)
    requires k < |w.ss| && w.ss[k].ino.inum < |w.t|
  {
    var n := w.ss[k].ino.inum;
    && Edited(w, w', n) && (tot.Some? ==> tot.value <= |src|)
    && Solid(w'.v, w'.t[n]) && File(w', n) == WriteResult(File(w, n), off, src, tot)
    && (tot.None? <==> |src| > 0 && (off + |src|) % 0x1_0000_0000 > MAXSIZE)
    && (off > w.ss[k].ino.size ==> tot in {None, Some(0)})
    && (tot.Some? && tot.value > 0 ==> off + tot.value <= MAXSIZE)
    && (tot.Some? && tot.value < |src| ==> Stuck(w', k, off + tot.value))
    && (|src| == 0 || tot.None? ==> w' == w)
    && (|src| > 0 && tot == Some(|src|) ==>
          GrewSlots(w.v, w.ss[k].ino.addrs, w'.v, w'.t[n].addrs, Lacking(w, k, off, |src|)))
    && (tot.Some? && tot.value < |src| && off + |src| <= MAXSIZE ==>
          StoppedAt(w.v, w.ss[k].ino.addrs, w'.v, w'.t[n].addrs, |w.owner|, off / BSIZE, (off + tot.value) / BSIZE))
    && (|src| > 0 && off + |src| <= MAXSIZE && off <= w.ss[k].ino.size ==>
          && (tot == Some(|src|) <==> |w.owner| + Need(w, k, off, |src|) <= Capacity(|w.v|))
          && (tot == Some(|src|) ==> |w'.owner| == |w.owner| + Need(w, k, off, |src|)))
    && Super(w.v, w'.v, Overruns(w, k, off, |src|))
  }

  /** A write of `n` bytes at `off` runs out of blocks at a pointer block, and so zeroes the
      superblock. */
  ghost predicate Overruns(w: World, k: nat, off: nat, n: nat)
    requires k < |w.ss|
  {
    Overrun(w.v, w.ss[k].ino.addrs, |w.owner|, off, n)
  }

  lemma WriteContents(w: World, mid: World, k: nat, off: uint32, src: seq<byte>, tot: nat, added: set<Slot>, now: uint32)
    requires Writing(w, mid, k, off, src, tot, added) && 0 < |src| < 0x1_0000_0000
    requires k < |w.ss| && k < |mid.ss| && mid.ss[k].ino.inum == w.ss[k].ino.inum < NINODES == |mid.t| && BLOCK_START <= |mid.v|
    requires Solid(w.v, w.ss[k].ino) && (off <= w.ss[k].ino.size || Stuck(w, k, off)) && w.ss[k].ino.inum < |w.t|
    requires tot < |src| ==> Stuck(mid, k, off + tot)
    ensures var w', n := AfterWrite(mid, k, off, src, tot, now), w.ss[k].ino.inum;
      && n < |w'.t| && Solid(w'.v, w'.t[n]) && tot <= |src| && (off > w.ss[k].ino.size ==> tot == 0)
      && File(w', n) == WriteResult(File(w, n), off, src, Some(tot))
  {
    hide Writing, SoundWorld, Stored, Solid, Contents, Overlay, Lookup;
    WritingParts(w, mid, k, off, src, tot, added);
    SoundSlot(w, k);
    SoundSlot(mid, k);
    if off > w.ss[k].ino.size {
      StuckWrites(w, mid, k, off, src, tot, added);
    }
    if tot > 0 {
      WriteFile(w, mid, k, off, src, tot, added, now);
    } else {
      WroteNothing(w, mid, k, off, src, added);
    }
  }

  lemma WriteSpecIntro(w: World, w': World, k: nat, off: nat, src: seq<byte>, tot: nat)
    requires k < |w.ss| && w.ss[k].ino.inum < |w.t| && w.ss[k].ino.inum < |w'.t| && k < |w'.ss| && 0 < |src| && tot <= |src|
    requires Edited(w, w', w.ss[k].ino.inum) && Solid(w'.v, w'.t[w.ss[k].ino.inum])
    requires File(w', w.ss[k].ino.inum) == WriteResult(File(w, w.ss[k].ino.inum), off, src, Some(tot))
    requires (off + |src|) % 0x1_0000_0000 <= MAXSIZE && (off > w.ss[k].ino.size ==> tot == 0) && (tot > 0 ==> off + tot <= MAXSIZE)
    requires tot < |src| ==> Stuck(w', k, off + tot)
    requires tot == |src| ==> GrewSlots(w.v, w.ss[k].ino.addrs, w'.v, w'.t[w.ss[k].ino.inum].addrs, Lacking(w, k, off, |src|))
    requires tot < |src| && off + |src| <= MAXSIZE ==>
               StoppedAt(w.v, w.ss[k].ino.addrs, w'.v, w'.t[w.ss[k].ino.inum].addrs, |w.owner|, off / BSIZE, (off + tot) / BSIZE)
    requires off + |src| <= MAXSIZE ==>
               && (tot == |src| <==> |w.owner| + Need(w, k, off, |src|) <= Capacity(|w.v|))
               && (tot == |src| ==> |w'.owner| == |w.owner| + Need(w, k, off, |src|))
    requires Super(w.v, w'.v, Overruns(w, k, off, |src|))
    ensures WriteSpec(w, w', k, off, src, Some(tot))
  {
    hide Edited, Solid, File, WriteResult, Stuck, GrewSlots, Lacking, Need, Capacity, Super, Overruns, StoppedAt;
  }

  lemma WriteSpecHolds(w: World, mid: World, k: nat, off: uint32, src: seq<byte>, tot: nat, added: set<Slot>, now: uint32)
    requires Writing(w, mid, k, off, src, tot, added) && 0 < |src| < 0x1_0000_0000
    requires k < |w.ss| && k < |mid.ss| && mid.ss[k].ino.inum == w.ss[k].ino.inum < NINODES == |mid.t| && BLOCK_START <= |mid.v|
    requires Solid(w.v, w.ss[k].ino) && (off <= w.ss[k].ino.size || Stuck(w, k, off))
    requires Add32(off, |src|) <= MAXSIZE && w.ss[k].ino.inum < |w.t|
    requires tot < |src| ==> Stuck(mid, k, off + tot)
    requires Super(w.v, AfterWrite(mid, k, off, src, tot, now).v, tot < |src| && NoParent(mid.v, mid.ss[k].ino.addrs, off + tot))
    ensures WriteSpec(w, AfterWrite(mid, k, off, src, tot, now), k, off, src, Some(tot))
  {
    hide Writing, SoundWorld, Edited, Stored, Solid, Contents, Missing, WriteResult, Lookup, Capacity, GrewSlots, NoParent, Overrun,
      WriteSpec, Super, StoppedAt;
    WriteOverruns(w, mid, k, off, src, tot, added);
    AfterWriteEdited(w, mid, k, off, src, tot, added, now);
    WriteContents(w, mid, k, off, src, tot, added, now);
    WritingParts(w, mid, k, off, src, tot, added);
    WritingRange(w, mid, k, off, src, tot, added);
    AfterWriteInode(w, mid, k, off, src, tot, added, now);
    if off + |src| <= MAXSIZE {
      WriteCompletes(w, mid, k, off, src, tot, added);
    }
    if tot == |src| {
      FullRange(w, mid, k, off, src, added);
      AfterWriteSlots(w, mid, k, off, src, added, now, Lacking(w, k, off, |src|));
    } else if off + |src| <= MAXSIZE {
      ShortStopped(w, mid, k, off, src, tot, added);
    }
    WriteSpecIntro(w, AfterWrite(mid, k, off, src, tot, now), k, off, src, tot);
  }

  /** A write that stops short says at which block. */
  lemma ShortStopped(w: World, mid: World, k: nat, off: uint32, src: seq<byte>, tot: nat, added: set<Slot>)
    requires Writing(w, mid, k, off, src, tot, added) && tot < |src| && off + |src| <= MAXSIZE && k < |w.ss| && k < |mid.ss|
    requires Stuck(mid, k, off + tot)
    ensures StoppedAt(w.v, w.ss[k].ino.addrs, mid.v, mid.ss[k].ino.addrs, |w.owner|, off / BSIZE, (off + tot) / BSIZE)
  {
    hide Writing, SoundWorld, Wrote, Moved, Lookup, Capacity, GrewSlots, RangeSlots;
    WritingParts(w, mid, k, off, src, tot, added);
    WritingCounts(w, mid, k, off, src, tot, added);
    WroteBelow(w.v, w.ss[k].ino.addrs, mid.v, mid.ss[k].ino.addrs, off, src, tot);
    StopsInside(off, tot, |src|);
  }

  /** A complete write has filled exactly what its range was missing. */
  lemma FullRange(w: World, mid: World, k: nat, off: uint32, src: seq<byte>, added: set<Slot>)
    requires Writing(w, mid, k, off, src, |src|, added) && 0 < |src| && k < |w.ss| && k < |mid.ss|
    ensures off + |src| <= MAXSIZE
    ensures GrewSlots(w.v, w.ss[k].ino.addrs, mid.v, mid.ss[k].ino.addrs, Lacking(w, k, off, |src|))
  {
    hide Writing, SoundWorld, Missing, Lookup, Capacity, GrewSlots;
    WritingRange(w, mid, k, off, src, |src|, added);
    WriteCompletes(w, mid, k, off, src, |src|, added);
  }

  /** What `writei` has done when it has written at all. */
  lemma WriteSpecDone(w: World, mid: World, w': World, k: nat, off: uint32, src: seq<byte>, tot: nat, added: set<Slot>, now: uint32)
    requires Writing(w, mid, k, off, src, tot, added) && 0 < |src| < 0x1_0000_0000
    requires k < |w.ss| && k < |mid.ss| && mid.ss[k].ino.inum < NINODES == |mid.t| && BLOCK_START <= |mid.v| && |w.t| == NINODES
    requires Solid(w.v, w.ss[k].ino) && (off <= w.ss[k].ino.size || Stuck(w, k, off)) && Add32(off, |src|) <= MAXSIZE
    requires tot < |src| ==> Lookup(mid.v, mid.ss[k].ino.addrs, (off + tot) / BSIZE) == 0
    requires tot < |src| ==> off + tot >= MAXSIZE || |mid.owner| == Capacity(|mid.v|)
    requires w' == AfterWrite(mid, k, off, src, tot, now)
    requires Super(w.v, w'.v, tot < |src| && NoParent(mid.v, mid.ss[k].ino.addrs, off + tot))
    ensures w.ss[k].ino.inum < |w.t| && WriteSpec(w, w', k, off, src, Some(tot))
  {
    hide Writing, SoundWorld, Solid, Stuck, WriteSpec, Lookup, AfterWrite, NoParent, Super, Capacity;
    WritingParts(w, mid, k, off, src, tot, added);
    StuckAt(mid, k, off, tot, |src|);
    WriteSpecHolds(w, mid, k, off, src, tot, added, now);
  }

  method WriteAt(fs: FileSystem, k: nat, src: seq<byte>, off: uint32, now: uint32) returns (tot: Option<nat>)
    requires fs.Valid() && fs.IsInode(k) && |src| < 0x1_0000_0000 && |fs.table| == NINODES
    requires Solid(fs.dev.contents, fs.slots[k].ino)
    requires off <= fs.slots[k].ino.size || Stuck(fs.Now(), k, off)
    modifies fs, fs.slots, fs.dev, fs.dev.arr, fs.dev.disk.data
    ensures fs.Valid() && fs.IsInode(k) && fs.sb == old(fs.sb)
    ensures WriteSpec(old(fs.Now()), fs.Now(), k, off, src, tot) && Stamped(old(fs.slots[k].ino), fs.slots[k].ino, now)
    ensures Ticked(old(fs.table), fs.table, now)
    ensures |src| > 0 && tot.Some? ==>
              && WroteTo(old(fs.slots[k].ino), fs.slots[k].ino, off, |src|, tot.value, now)
              && Charged(old(fs.Now()), fs.Now(), k, if tot.value < |src| && off + tot.value < MAXSIZE then 1 else 0)
  {
    hide Inv, SoundWorld, Solid, Stuck, Writing, WriteSpec, Lookup, AfterWrite, NoParent, Super, Capacity, WroteTo, Charged, Stamped, Ticked;
    ghost var w, mid, added, x := fs.Now(), fs.Now(), {}, fs.slots[k].ino;
    tot, mid, added := fs.WriteI(k, src, off, now);
    if |src| > 0 && tot.Some? { WroteStamped(x, fs.slots[k].ino, off, |src|, tot.value, now); }
    if |src| == 0 || tot.None? {
      SameSlot(fs, w, k);
      StampedRefl(x, now);
      TickedRefl(w.t, now);
      WriteSpecNothing(w, k, off, src, tot);
    } else {
      WriteSpecDone(w, mid, fs.Now(), k, off, src, tot.value, added, now);
      WriteSpecTicked(w, fs.Now(), k, off, src, tot, now);
    }
  }

  lemma WriteSpecTicked(w: World, w': World, k: nat, off: nat, src: seq<byte>, tot: Option<nat>, now: uint32)
    requires SoundWorld(w) && SoundWorld(w') && k < |w.ss| && k < |w'.ss| && w.ss[k].ino.inum < NINODES && w.ss[k].ino.inum < |w.t|
    requires WriteSpec(w, w', k, off, src, tot) && Stamped(w.ss[k].ino, w'.ss[k].ino, now)
    ensures Ticked(w.t, w'.t, now)
  {
    hide SoundWorld, Solid, GrewSlots, Stuck, Edited, Need, Capacity, Contents, Overruns, Ticked, Stamped, Super, StoppedAt;
    SlotTicked(w, w', k, now);
  }

  /** A state that is the same has the same inode in a slot. */
  lemma SameSlot(fs: FileSystem, w: World, k: nat)
    requires k < fs.slots.Length && fs.Now() == w
    ensures k < |w.ss| && fs.slots[k].ino == w.ss[k].ino
  {
  }

  lemma StuckAt(mid: World, k: nat, off: nat, tot: nat, n: nat)
    requires k < |mid.ss|
    requires tot < n ==> Lookup(mid.v, mid.ss[k].ino.addrs, (off + tot) / BSIZE) == 0
    requires tot < n ==> off + tot >= MAXSIZE || |mid.owner| == Capacity(|mid.v|)
    ensures tot < n ==> Stuck(mid, k, off + tot)
  {
  }

  lemma WriteSpecNothing(w: World, k: nat, off: uint32, src: seq<byte>, tot: Option<nat>)
    requires SoundWorld(w) && k < |w.ss| && w.ss[k].ino.inum < NINODES == |w.t| && Solid(w.v, w.ss[k].ino)
    requires |src| < 0x1_0000_0000
    requires if |src| == 0 then tot == Some(0) else tot.None? && Add32(off, |src|) > MAXSIZE
    ensures WriteSpec(w, w, k, off, src, tot)
  {
    hide Solid, Contents;
    SoundSlot(w, k);
    EditedRefl(w, w.ss[k].ino.inum);
  }

  // ---------------------------------------------------------------- reading

  /** Nothing but the access time of inode `n` may have changed. */
  ghost predicate Peeked(w: World, w': World, n: nat) {
    && Edited(w, w', n) && w'.owner == w.owner
    && w'.t[n] == w.t[n].(atime := w'.t[n].atime)
    && SameFile(w.v, w.t[n].addrs, w'.v) && Super(w.v, w'.v, false)
  }

  lemma PeekedFile(w: World, w': World, n: nat)
    requires Peeked(w, w', n)
    ensures n < |w.t| == |w'.t| && File(w', n) == File(w, n)
    ensures Solid(w'.v, w'.t[n]) <==> Solid(w.v, w.t[n])
  {
    hide Edited, SameFile, Lookup, Data;
    PeekedLength(w, w', n);
    SameFileContents(w.v, w.t[n], w'.v);
  }

  lemma PeekedLength(w: World, w': World, n: nat)
    requires Peeked(w, w', n)
    ensures n < |w.t| == |w'.t|
  {
    hide SoundWorld, SameFile;
  }

  lemma AccessedPeeked(w: World, k: nat, now: uint32)
    requires SoundWorld(w) && k < |w.ss| && w.ss[k].ino.inum < NINODES
    ensures |w.t| == NINODES && BLOCK_START <= |w.v| && Peeked(w, Accessed(w, k, now), w.ss[k].ino.inum)
  {
    hide SoundWorld, Edited, SameFile, Stored;
    SoundSlot(w, k);
    TouchEdited(w, k, w.ss[k].ino.(atime := now));
    StoredSuper(w.v, w.ss[k].ino.(atime := now), w.ss[k].refs % 0x1_0000_0000);
  }

  lemma PeekedRefl(w: World, n: nat)
    requires SoundWorld(w) && n < |w.t|
    ensures Peeked(w, w, n)
  {
    hide SoundWorld, SameFile;
    SoundDevice(w);
    EditedRefl(w, n);
    SameFileRefl(w.v, w.t[n].addrs);
  }

  /** `n` bytes of a solid file from `off` on, read into a fresh buffer. */
  method ReadAt(fs: FileSystem, k: nat, off: uint32, n: uint32, now: uint32) returns (data: seq<byte>)
    requires fs.Valid() && fs.IsInode(k) && |fs.table| == NINODES
    requires Solid(fs.dev.contents, fs.slots[k].ino) && off + n <= fs.slots[k].ino.size
    modifies fs, fs.slots, fs.dev, fs.dev.arr, fs.dev.disk.data
    ensures fs.Valid() && fs.IsInode(k) && fs.sb == old(fs.sb)
    ensures Peeked(old(fs.Now()), fs.Now(), old(fs.slots[k].ino.inum))
    ensures data == Contents(old(fs.dev.contents), old(fs.slots[k].ino))[off..off + n]
    ensures fs.slots[k].ino == old(fs.slots[k].ino).(atime := if n > 0 then now else old(fs.slots[k].ino.atime))
    ensures Ticked(old(fs.table), fs.table, now)
  {
    hide Inv, SoundWorld, Solid, Lookup, Data, Stored, Peeked, ReadOk, Contents, Ticked;
    ghost var w, ino := fs.Now(), fs.slots[k].ino;
    SolidSize(w.v, ino);
    AccessedPeeked(w, k, now);
    PeekedRefl(w, ino.inum);
    var buf := new byte[n];
    var r := fs.ReadI(k, buf, off, n, now);
    data := buf[..];
    if n == 0 { SameSlot(fs, w, k); }
    if n > 0 {
      ReadContents(w.v, ino, off, data, r.value, n);
    }
    PeekedTicked(w, fs.Now(), k, now);
  }

  lemma PeekedTicked(w: World, w': World, k: nat, now: uint32)
    requires SoundWorld(w) && SoundWorld(w') && k < |w.ss| && k < |w'.ss| && w.ss[k].ino.inum < NINODES
    requires Peeked(w, w', w.ss[k].ino.inum) && Stamped(w.ss[k].ino, w'.ss[k].ino, now)
    ensures Ticked(w.t, w'.t, now)
  {
    hide SoundWorld, Edited, Ticked, SameFile, Super, Stamped;
    SlotTicked(w, w', k, now);
  }

  lemma SolidSize(v: seq<Block>, ino: Inode)
    requires Solid(v, ino)
    ensures ino.size <= MAXSIZE
  {
  }
}
