/** Directory operations on the file of a directory inode. */
module DirOps {
  import opened Bytes
  import opened Results
  import opened BlockTree
  import opened Inodes
  import opened Growth
  import opened Files
  import opened World
  import opened Writes
  import opened BlockZero
  import opened TwoWrites
  import opened FileSystem
  import opened Cache
  import opened Commands
  import opened Editing
  import D = Directory

  /** The records of directory `n`. */
  function Records(w: World, n: nat): seq<D.Entry>
    requires n < |w.t|
  {
    D.Entries(File(w, n))
  }

  /** A directory file has no holes and consists of whole records. */
  ghost predicate DirOk(v: seq<Block>, ino: Inode) {
    ino.kind == T_DIR ==> Solid(v, ino) && ino.size % D.ENTRY_SIZE == 0
  }

  lemma PeekedTrans(w: World, w1: World, w2: World, n: nat)
    requires Peeked(w, w1, n) && Peeked(w1, w2, n)
    ensures Peeked(w, w2, n)
  {
    hide SoundWorld, SameFile, Edited;
    PeekedEdited(w, w1, n);
    PeekedEdited(w1, w2, n);
    EditedTrans(w, w1, w2, n);
    PeekedLength(w, w1, n);
    PeekedLength(w1, w2, n);
    SameFileTrans(w.v, w.t[n].addrs, w1.v, w2.v);
  }

  /** One `readi` of a whole record. */
  method ReadEntry(fs: FileSystem, k: nat, i: nat, now: uint32) returns (e: D.Entry)
    requires fs.Valid() && fs.IsInode(k) && |fs.table| == NINODES
    requires Solid(fs.dev.contents, fs.slots[k].ino) && D.ENTRY_SIZE * i + D.ENTRY_SIZE <= fs.slots[k].ino.size
    modifies fs, fs.slots, fs.dev, fs.dev.arr, fs.dev.disk.data
    ensures fs.Valid() && fs.IsInode(k) && fs.sb == old(fs.sb)
    ensures Peeked(old(fs.Now()), fs.Now(), old(fs.slots[k].ino.inum))
    ensures e == D.EntryAt(Contents(old(fs.dev.contents), old(fs.slots[k].ino)), i)
    ensures Stamped(old(fs.slots[k].ino), fs.slots[k].ino, now) && Ticked(old(fs.table), fs.table, now)
  {
    hide Inv, SoundWorld, Solid, Peeked, Contents, D.DecodeEntry, Ticked;
    var buf := ReadAt(fs, k, D.ENTRY_SIZE * i, D.ENTRY_SIZE, now);
    e := D.DecodeEntry(buf);
  }

  /** What holds while the records of directory `n`, cached in slot `k`, are being read. */
  ghost predicate Reading(w: World, w': World, k: nat, n: nat) {
    && Peeked(w, w', n) && k < |w'.ss| && w'.ss[k].ino.inum == n < |w'.t| && w'.ss[k].ino == w'.t[n]
    && Solid(w'.v, w'.ss[k].ino) && n < |w.t| == NINODES == |w'.t|
    && Contents(w'.v, w'.ss[k].ino) == File(w, n) && w'.ss[k].ino.size == |File(w, n)|
    && w'.ss[k].ino.kind == w.t[n].kind
  }

  lemma ReadingStart(w: World, k: nat)
    requires SoundWorld(w) && k < |w.ss| && w.ss[k].ino.inum < NINODES && Solid(w.v, w.ss[k].ino)
    ensures Reading(w, w, k, w.ss[k].ino.inum)
  {
    hide SoundWorld, Solid, Peeked;
    SoundSlot(w, k);
    PeekedRefl(w, w.ss[k].ino.inum);
  }

  lemma ReadingStep(w: World, w1: World, w2: World, k: nat, n: nat)
    requires Reading(w, w1, k, n) && Peeked(w1, w2, n) && n < NINODES
    ensures Reading(w, w2, k, n)
  {
    hide SoundWorld, Solid, Peeked, Contents;
    PeekedTrans(w, w1, w2, n);
    PeekedFile(w1, w2, n);
    PeekedSound(w1, w2, n);
    PeekedInum(w1, w2, k);
    SoundSlot(w2, k);
    PeekedSame(w1, w2, n);
  }

  lemma PeekedSound(w: World, w': World, n: nat)
    requires Peeked(w, w', n)
    ensures SoundWorld(w')
  {
    hide SoundWorld, SameFile;
  }

  /** The loop over all records, left at the first that `stop` holds of. */
  method Scan(fs: FileSystem, k: nat, stop: D.Entry -> bool, now: uint32) returns (hit: bool, i: nat, e: D.Entry)
    requires fs.Valid() && fs.IsInode(k) && |fs.table| == NINODES
    requires Solid(fs.dev.contents, fs.slots[k].ino) && fs.slots[k].ino.size % D.ENTRY_SIZE == 0
    modifies fs, fs.slots, fs.dev, fs.dev.arr, fs.dev.disk.data
    ensures fs.Valid() && fs.IsInode(k) && fs.sb == old(fs.sb)
    ensures Reading(old(fs.Now()), fs.Now(), k, old(fs.slots[k].ino.inum))
    ensures var w, n := old(fs.Now()), old(fs.slots[k].ino.inum);
      n < |w.t| && Found(Records(w, n), stop, hit, i, e)
    ensures Stamped(old(fs.slots[k].ino), fs.slots[k].ino, now) && Ticked(old(fs.table), fs.table, now)
  {
    hide Inv, SoundWorld, Solid, Peeked, Contents, D.EntryAt, Stamped, Ticked;
    ghost var w, n, x := fs.Now(), fs.slots[k].ino.inum, fs.slots[k].ino;
    StampedRefl(x, now);
    TickedRefl(w.t, now);
    ReadingStart(w, k);
    ghost var es := Records(w, n);
    hit, i, e := false, 0, D.CLEARED;
    while D.ENTRY_SIZE * i < fs.slots[k].ino.size
      invariant fs.Valid() && fs.IsInode(k) && fs.sb == old(fs.sb) && Reading(w, fs.Now(), k, n)
      invariant i <= |es| && !hit && forall j :: 0 <= j < i ==> !stop(es[j])
      invariant Stamped(x, fs.slots[k].ino, now) && Ticked(w.t, fs.table, now)
      decreases |es| - i
    {
      ghost var w1, y := fs.Now(), fs.slots[k].ino;
      e := ReadEntry(fs, k, i, now);
      StampedTrans(x, y, fs.slots[k].ino, now);
      TickedTrans(w.t, w1.t, fs.table, now);
      ReadingStep(w, w1, fs.Now(), k, n);
      if stop(e) {
        hit := true;
        return;
      }
      i := i + 1;
    }
  }

  /** `i` is the first record that `stop` holds of, or the end. */
  ghost predicate Found(es: seq<D.Entry>, stop: D.Entry -> bool, hit: bool, i: nat, e: D.Entry) {
    && (hit <==> i < |es|) && i <= |es|
    && (hit ==> e == es[i] && stop(e))
    && forall j :: 0 <= j < i ==> !stop(es[j])
  }

  // ---------------------------------------------------------------- lookup

  /** The outcome of looking up a key in directory `n`: reading may set the directory's
      access time, giving `mid`; then the inode found, if any, is acquired. */
  ghost predicate LookedUp(w: World, mid: World, w': World, n: nat, name: seq<byte>, kind: uint16, r: Option<nat>) {
    && n < |w.t|
    && if w.t[n].kind != T_DIR then mid == w && w' == w && r == None
       else
         && Peeked(w, mid, n)
         && match D.Lookup(Records(w, n), name, kind) {
              case None => w' == mid && r == None
              case Some(m) => Acquired(mid, w', m, r)
            }
  }

  method DirLookup(fs: FileSystem, k: nat, name: seq<byte>, kind: uint16, now: uint32) returns (r: Option<nat>, ghost mid: World)
    requires fs.Valid() && fs.IsInode(k) && |fs.table| == NINODES && DirOk(fs.dev.contents, fs.slots[k].ino)
    modifies fs, fs.slots, fs.dev, fs.dev.arr, fs.dev.disk.data
    ensures fs.Valid() && fs.sb == old(fs.sb) && (r.Some? ==> fs.IsInode(r.value))
    ensures LookedUp(old(fs.Now()), mid, fs.Now(), old(fs.slots[k].ino.inum), name, kind, r)
    ensures Ticked(old(fs.table), fs.table, now) && fs.table == mid.t
  {
    hide Inv, SoundWorld, Solid, Peeked, Contents, Acquired, D.Matches, D.Entries, Stamped, Ticked;
    mid := fs.Now();
    ghost var w, n := fs.Now(), fs.slots[k].ino.inum;
    SoundSlot(w, k);
    TickedRefl(w.t, now);
    if fs.slots[k].ino.kind != T_DIR {
      return None, mid;
    }
    ghost var es := Records(w, n);
    var hit, i, e := Scan(fs, k, e => D.Matches(e, name, kind), now);
    mid := fs.Now();
    ReadingPeeked(w, mid, k, n);
    if hit {
      D.LookupFirst(es, name, kind, i);
      r := fs.IGet(e.inum);
    } else {
      D.LookupNone(es, name, kind);
      r := None;
    }
  }

  lemma ReadingPeeked(w: World, w': World, k: nat, n: nat)
    requires Reading(w, w', k, n)
    ensures Peeked(w, w', n) && |w'.t| == |w.t| == NINODES
  {
    hide Peeked, Solid, Contents;
  }

  // ---------------------------------------------------------------- adding, removing, emptiness

  /** The records of directory `n` are now `es`; nothing outside it has changed. */
  ghost predicate Rewritten(w: World, w': World, n: nat, es: seq<D.Entry>) {
    && Edited(w, w', n) && n < |w.t| && n < |w'.t|
    && Solid(w'.v, w'.t[n]) && w'.t[n].size % D.ENTRY_SIZE == 0 && Records(w', n) == es
  }

  /** The write of record `i` of a directory. */
  lemma RecordWritten(w: World, w1: World, w2: World, k: nat, i: nat, rec: seq<byte>, tot: Option<nat>)
    requires SoundWorld(w) && k < |w.ss| && w.ss[k].ino.inum < NINODES && Solid(w.v, w.ss[k].ino)
    requires w.ss[k].ino.size % D.ENTRY_SIZE == 0 && i <= w.ss[k].ino.size / D.ENTRY_SIZE && |rec| == D.ENTRY_SIZE
    requires Reading(w, w1, k, w.ss[k].ino.inum) && k < |w1.ss| && w1.ss[k].ino.inum < |w1.t|
    requires WriteSpec(w1, w2, k, D.ENTRY_SIZE * i, rec, tot)
    ensures w.ss[k].ino.inum < |w.t|
    ensures var n, es, e := w.ss[k].ino.inum, Records(w, w.ss[k].ino.inum), D.DecodeEntry(rec);
      && |es| == w.ss[k].ino.size / D.ENTRY_SIZE
      && (i < |es| ==> CanWrite(w, k, D.ENTRY_SIZE * i, D.ENTRY_SIZE))
      && Rewritten(w, w2, n, if i < |es| then es[i := e]
                             else if CanWrite(w, k, D.ENTRY_SIZE * i, D.ENTRY_SIZE) then es + [e] else es)
      && Super(w.v, w2.v, i == |es| && Overruns(w, k, D.ENTRY_SIZE * i, D.ENTRY_SIZE))
  {
    hide SoundWorld, Solid, Peeked, Edited, WriteSpec, Contents, D.Entries, CanWrite, Need, Overruns, Super;
    var n, off := w.ss[k].ino.inum, D.ENTRY_SIZE * i;
    SoundSlot(w, k);
    ReadingPeeked(w, w1, k, n);
    PeekedEdited(w, w1, n);
    WriteSpecLength(w1, w2, k, off, rec, tot);
    WriteSpecParts(w1, w2, k, off, rec, tot);
    EditedTrans(w, w1, w2, n);
    SolidSize(w.v, w.ss[k].ino);
    FileSize(w, k);
    ReadingCan(w, w1, k, off);
    var c := File(w, n);
    if off < |c| {
      InsideCan(w, k, off);
      InsideKeeps(w, k, off);
    }
    RecordSuper(w, w1, w2, k, off, rec, tot);
    RecordTot(w, w1, w2, k, off, rec, tot);
    if CanWrite(w, k, off, D.ENTRY_SIZE) {
      D.EntriesOverlay(c, i, rec);
    } else {
      Appended(c, rec, tot);
    }
    SizeOf(w2, n);
  }

  /** A write at the end that stops short changes no byte below it and does not grow the file. */
  lemma Appended(c: seq<byte>, rec: seq<byte>, tot: Option<nat>)
    requires tot.Some? ==> tot.value < |rec|
    ensures WriteResult(c, |c|, rec, tot) == c
  {
  }

  lemma WriteSpecLength(w: World, w': World, k: nat, off: nat, src: seq<byte>, tot: Option<nat>)
    requires k < |w.ss| && w.ss[k].ino.inum < |w.t| && WriteSpec(w, w', k, off, src, tot)
    ensures |w'.t| == |w.t|
  {
    hide SoundWorld, Solid, GrewSlots, Stuck;
  }

  lemma ReadingCan(w: World, w1: World, k: nat, off: nat)
    requires SoundWorld(w) && k < |w.ss| && w.ss[k].ino.inum < NINODES && Reading(w, w1, k, w.ss[k].ino.inum)
    ensures k < |w1.ss|
    ensures CanWrite(w1, k, off, D.ENTRY_SIZE) <==> CanWrite(w, k, off, D.ENTRY_SIZE)
  {
    hide SoundWorld, Solid, Peeked, Contents, Need;
    var n := w.ss[k].ino.inum;
    SoundSlot(w, k);
    PeekedSame(w, w1, n);
    if off + D.ENTRY_SIZE <= MAXSIZE {
      PeekedNeed(w, w1, k, off, D.ENTRY_SIZE);
    }
  }

  lemma InsideCan(w: World, k: nat, off: nat)
    requires SoundWorld(w) && k < |w.ss| && Solid(w.v, w.ss[k].ino) && off + D.ENTRY_SIZE <= w.ss[k].ino.size
    ensures CanWrite(w, k, off, D.ENTRY_SIZE)
  {
    hide SoundWorld, Solid, Need;
    SolidSize(w.v, w.ss[k].ino);
    SoundBound(w);
    NothingLacking(w, k, off, D.ENTRY_SIZE);
  }

  lemma InsideKeeps(w: World, k: nat, off: nat)
    requires SoundWorld(w) && k < |w.ss| && Solid(w.v, w.ss[k].ino) && off + D.ENTRY_SIZE <= w.ss[k].ino.size
    ensures !Overruns(w, k, off, D.ENTRY_SIZE)
  {
    hide SoundWorld, Solid, Overrun;
    SoundBound(w);
    NoOverrun(w.v, w.ss[k].ino, |w.owner|, off, D.ENTRY_SIZE);
  }

  lemma RecordSuper(w: World, w1: World, w2: World, k: nat, off: nat, rec: seq<byte>, tot: Option<nat>)
    requires SoundWorld(w) && k < |w.ss| && w.ss[k].ino.inum < NINODES && Reading(w, w1, k, w.ss[k].ino.inum) && |rec| == D.ENTRY_SIZE
    requires k < |w1.ss| && w1.ss[k].ino.inum < |w1.t| && WriteSpec(w1, w2, k, off, rec, tot)
    ensures Super(w.v, w2.v, Overruns(w, k, off, D.ENTRY_SIZE))
  {
    hide SoundWorld, Solid, Peeked, Contents, WriteSpec, Overruns, Super;
    var n := w.ss[k].ino.inum;
    SoundSlot(w, k);
    PeekedSame(w, w1, n);
    PeekedSuper(w, w1, n);
    PeekedOverruns(w, w1, k, off, D.ENTRY_SIZE);
    WriteSpecSuper(w1, w2, k, off, rec, tot);
    SuperTrans(w.v, w1.v, w2.v, false, Overruns(w1, k, off, D.ENTRY_SIZE));
  }

  /** How many blocks are taken after a write of `n` bytes at `off`. */
  ghost function UsedAfter(w: World, k: nat, off: nat, n: nat): nat
    requires k < |w.ss|
  {
    if off + n > MAXSIZE then |w.owner| else Min(|w.owner| + Need(w, k, off, n), Capacity(|w.v|))
  }

  lemma RecordUsed(w: World, w1: World, w2: World, k: nat, off: nat, rec: seq<byte>, tot: Option<nat>)
    requires SoundWorld(w) && k < |w.ss| && w.ss[k].ino.inum < NINODES && Solid(w.v, w.ss[k].ino) && off <= w.ss[k].ino.size
    requires Reading(w, w1, k, w.ss[k].ino.inum) && |rec| == D.ENTRY_SIZE
    requires k < |w1.ss| && w1.ss[k].ino.inum < |w1.t| && WriteSpec(w1, w2, k, off, rec, tot)
    ensures |w2.owner| == UsedAfter(w, k, off, D.ENTRY_SIZE)
    ensures off + D.ENTRY_SIZE <= w.ss[k].ino.size ==> |w2.owner| == |w.owner|
  {
    hide SoundWorld, Solid, Peeked, Contents, WriteSpec, Need, Capacity;
    var n := w.ss[k].ino.inum;
    SoundSlot(w, k);
    SoundBound(w);
    SolidSize(w.v, w.ss[k].ino);
    PeekedSame(w, w1, n);
    WriteSpecCounts(w1, w2, k, off, rec, tot);
    if off + D.ENTRY_SIZE > MAXSIZE {
      WriteNothing(w1, w2, k, off, rec, tot);
    } else {
      PeekedNeed(w, w1, k, off, D.ENTRY_SIZE);
      if tot != Some(|rec|) { StoppedFull(w1, w2, k, off, rec, tot); WriteSpecDevice(w1, w2, k, off, rec, tot); }
    }
    if off + D.ENTRY_SIZE <= w.ss[k].ino.size { NothingLacking(w, k, off, D.ENTRY_SIZE); }
  }

  /** Where there was no room there still is none. */
  lemma RoomAgain(w: World, w': World, k: nat, off: nat, rec: seq<byte>, tot: Option<nat>)
    requires k < |w.ss| && k < |w'.ss| && w.ss[k].ino.inum < |w.t| && |rec| == D.ENTRY_SIZE && off <= w.ss[k].ino.size <= MAXSIZE
    requires WriteSpec(w, w', k, off, rec, tot) && !CanWrite(w, k, off, D.ENTRY_SIZE)
    ensures !CanWrite(w', k, off, D.ENTRY_SIZE)
  {
    hide WriteSpec, Missing, Capacity, Lookup, LeafOf;
    if off + D.ENTRY_SIZE <= MAXSIZE {
      WriteSpecCounts(w, w', k, off, rec, tot);
      StoppedFull(w, w', k, off, rec, tot);
      StuckSlot(w, w', k, off, rec, tot);
      var e := (off + tot.value) / BSIZE;
      assert off / BSIZE <= e < Ceil(off + D.ENTRY_SIZE);
      OneUnmapped(w'.v, w'.ss[k].ino.addrs, off / BSIZE, e, Ceil(off + D.ENTRY_SIZE));
    }
  }

  lemma StuckSlot(w: World, w': World, k: nat, off: nat, src: seq<byte>, tot: Option<nat>)
    requires k < |w.ss| && k < |w'.ss| && w.ss[k].ino.inum < |w.t| && WriteSpec(w, w', k, off, src, tot)
    requires tot.Some? && tot.value < |src|
    ensures Lookup(w'.v, w'.ss[k].ino.addrs, (off + tot.value) / BSIZE) == 0
  {
    hide SoundWorld, Solid, GrewSlots, Edited, Need, Capacity, Contents, Overruns, StoppedAt, Lookup;
  }

  lemma OneUnmapped(v: seq<Block>, a: Addrs, lo: nat, e: nat, hi: nat)
    requires lo <= e < hi <= MAXBLOCKS && Lookup(v, a, e) == 0
    ensures |Missing(v, a, lo, hi)| > 0
  {
    assert LeafOf(e) in Path(LeafOf(e));
    assert LeafOf(e) in RangeSlots(lo, hi);
    assert LeafOf(e) in Missing(v, a, lo, hi);
  }

  lemma WriteSpecDevice(w: World, w': World, k: nat, off: nat, src: seq<byte>, tot: Option<nat>)
    requires k < |w.ss| && w.ss[k].ino.inum < |w.t| && WriteSpec(w, w', k, off, src, tot)
    ensures |w'.v| == |w.v|
  {
    hide SoundWorld, Solid, GrewSlots, Stuck, Edited, Need, Capacity, Contents, Overruns;
  }

  lemma RecordTot(w: World, w1: World, w2: World, k: nat, off: nat, rec: seq<byte>, tot: Option<nat>)
    requires k < |w.ss| && k < |w1.ss| && w1.ss[k].ino.inum < |w1.t| && |rec| == D.ENTRY_SIZE
    requires off <= w1.ss[k].ino.size <= MAXSIZE
    requires CanWrite(w1, k, off, D.ENTRY_SIZE) <==> CanWrite(w, k, off, D.ENTRY_SIZE)
    requires WriteSpec(w1, w2, k, off, rec, tot)
    ensures tot == Some(|rec|) <==> CanWrite(w, k, off, D.ENTRY_SIZE)
    ensures tot.Some? ==> tot.value <= |rec|
  {
    hide SoundWorld, Solid, GrewSlots, Stuck, Edited, Need, Capacity, WriteSpec;
    WriteSpecCounts(w1, w2, k, off, rec, tot);
  }

  /** `dir_add`: the record goes into the first reusable place, or to the end if the disk has
      room there. Success is reported whether or not there was room. */
  method DirAdd(fs: FileSystem, k: nat, name: seq<byte>, kind: uint16, inum: uint32, now: uint32) returns (ok: bool)
    requires fs.Valid() && fs.IsInode(k) && |fs.table| == NINODES && DirOk(fs.dev.contents, fs.slots[k].ino)
    requires D.NoNul(name)
    modifies fs, fs.slots, fs.dev, fs.dev.arr, fs.dev.disk.data
    ensures fs.Valid() && fs.IsInode(k) && fs.sb == old(fs.sb)
    ensures ok <==> old(fs.slots[k].ino.kind) == T_DIR
    ensures !ok ==> fs.Now() == old(fs.Now())
    ensures var w, n := old(fs.Now()), old(fs.slots[k].ino.inum);
      && n < |w.t|
      && (ok ==> Rewritten(w, fs.Now(), n,
                   if AddHasRoom(w, k, Records(w, n)) then D.Added(Records(w, n), name, kind, inum) else Records(w, n)))
      && (ok ==> Super(w.v, fs.dev.contents, AddOverruns(w, k, Records(w, n))))
      && (ok ==> |fs.owner| == UsedByAdd(w, k, Records(w, n)))
      && (ok && !AddHasRoom(w, k, Records(w, n)) ==> !AddHasRoom(fs.Now(), k, Records(w, n)))
      && (ok ==> n < |fs.table| && RecordAdded(w, k, Records(w, n), Records(fs.Now(), n), name, kind, inum))
    ensures Stamped(old(fs.slots[k].ino), fs.slots[k].ino, now) && Ticked(old(fs.table), fs.table, now)
  {
    hide Inv, SoundWorld, Solid, Peeked, Contents, D.Entries, D.Added, Rewritten, WriteSpec, D.EncodeEntry, Reading, CanWrite,
      Overruns, Super, UsedAfter, Stamped, WroteTo, Charged, RecordAdded, Ticked;
    ghost var w, n, x := fs.Now(), fs.slots[k].ino.inum, fs.slots[k].ino;
    StampedRefl(x, now);
    TickedRefl(w.t, now);
    SoundSlot(w, k);
    if fs.slots[k].ino.kind != T_DIR {
      return false;
    }
    ghost var es := Records(w, n);
    SolidSize(w.v, fs.slots[k].ino);
    FileSize(w, k);
    var hit, i, e := Scan(fs, k, e => D.Reusable(e), now);
    ghost var w1, y := fs.Now(), fs.slots[k].ino;
    ReadingSlot(w, w1, k, n);
    var rec := D.EncodeEntry(name, kind, inum);
    var tot := WriteAt(fs, k, rec, D.ENTRY_SIZE * i, now);
    StampedTrans(x, y, fs.slots[k].ino, now);
    TickedTrans(w.t, w1.t, fs.table, now);
    RecordWritten(w, w1, fs.Now(), k, i, rec, tot);
    RecordUsed(w, w1, fs.Now(), k, D.ENTRY_SIZE * i, rec, tot);
    SoundSlot(fs.Now(), k);
    if !CanWrite(w, k, D.ENTRY_SIZE * i, D.ENTRY_SIZE) {
      ReadingCan(w, w1, k, D.ENTRY_SIZE * i);
      RoomAgain(w1, fs.Now(), k, D.ENTRY_SIZE * i, rec, tot);
    }
    D.DecodeEncode(name, kind, inum);
    D.FreeSlotIs(es, i);
    AddedAt(w, k, es, name, kind, inum);
    RewrittenRecords(w, fs.Now(), n, if AddHasRoom(w, k, es) then D.Added(es, name, kind, inum) else es);
    RecordAddedIs(w, k, es, Records(fs.Now(), n), name, kind, inum);
    ok := true;
  }

  lemma RewrittenRecords(w: World, w': World, n: nat, es: seq<D.Entry>)
    requires Rewritten(w, w', n, es)
    ensures n < |w'.t| && Records(w', n) == es
  {
    hide Edited, Solid, Records;
  }

  /** In records `es` of the directory in slot `k` the new one takes the first reusable place, else the end
      if there is room. Where no record is reusable it goes to the end or nowhere. */
  ghost predicate RecordAdded(w: World, k: nat, es: seq<D.Entry>, es': seq<D.Entry>, name: seq<byte>, kind: uint16, inum: uint32)
    requires k < |w.ss|
  {
    var e, room := D.Entry(kind, inum, if |name| <= 25 then name else name[..25]), CanWrite(w, k, 36 * |es|, 36);
    && (forall i: nat :: D.GoesTo(es, i) ==> es' == if i < |es| then es[i := e] else if room then es + [e] else es)
    && (D.NoneReusable(es) ==> es' == if room then es + [e] else es)
  }

  lemma RecordAddedIs(w: World, k: nat, es: seq<D.Entry>, es': seq<D.Entry>, name: seq<byte>, kind: uint16, inum: uint32)
    requires k < |w.ss| && es' == if AddHasRoom(w, k, es) then D.Added(es, name, kind, inum) else es
    ensures RecordAdded(w, k, es, es', name, kind, inum)
  {
    hide CanWrite, D.Added;
    forall i: nat | D.GoesTo(es, i) ensures D.FreeSlot(es) == i && D.Added(es, name, kind, inum) ==
      if i < |es| then es[i := D.Entry(kind, inum, if |name| <= 25 then name else name[..25])]
      else es + [D.Entry(kind, inum, if |name| <= 25 then name else name[..25])]
    {
      D.AddedRecord(es, name, kind, inum, i);
    }
    if D.NoneReusable(es) { assert D.GoesTo(es, |es|); }
  }

  /** Where no record is reusable, adding one appends it, and depends on the end alone. */
  lemma Appends(w: World, k: nat, es: seq<D.Entry>, name: seq<byte>, kind: uint16, inum: uint32)
    requires k < |w.ss| && D.NoneReusable(es)
    ensures D.Added(es, name, kind, inum) == es + [D.Entry(kind, inum, if |name| <= 25 then name else name[..25])]
    ensures AddHasRoom(w, k, es) <==> CanWrite(w, k, 36 * |es|, 36)
    ensures AddOverruns(w, k, es) <==> Overruns(w, k, 36 * |es|, 36)
    ensures UsedByAdd(w, k, es) == UsedAfter(w, k, 36 * |es|, 36)
  {
    hide CanWrite, Overruns, UsedAfter, D.Added;
    D.AddedRecord(es, name, kind, inum, |es|);
  }

  /** There is a reusable record, or room for one more at the end. */
  ghost predicate AddHasRoom(w: World, k: nat, es: seq<D.Entry>)
    requires k < |w.ss|
  {
    D.FreeSlot(es) < |es| || CanWrite(w, k, D.ENTRY_SIZE * |es|, D.ENTRY_SIZE)
  }

  /** No record is reusable, and appending one runs out of blocks at a pointer block. */
  ghost predicate AddOverruns(w: World, k: nat, es: seq<D.Entry>)
    requires k < |w.ss|
  {
    D.FreeSlot(es) == |es| && Overruns(w, k, D.ENTRY_SIZE * |es|, D.ENTRY_SIZE)
  }

  /** How many blocks are taken after adding a record. */
  ghost function UsedByAdd(w: World, k: nat, es: seq<D.Entry>): nat
    requires k < |w.ss|
  {
    if D.FreeSlot(es) < |es| then |w.owner| else UsedAfter(w, k, D.ENTRY_SIZE * |es|, D.ENTRY_SIZE)
  }

  lemma AddedAt(w: World, k: nat, es: seq<D.Entry>, name: seq<byte>, kind: uint16, inum: uint32)
    requires k < |w.ss|
    ensures var e, i := D.Entry(kind, inum, D.Cut(name, D.MAXNAME - 1)), D.FreeSlot(es);
      (if i < |es| then es[i := e] else if CanWrite(w, k, D.ENTRY_SIZE * i, D.ENTRY_SIZE) then es + [e] else es)
      == if AddHasRoom(w, k, es) then D.Added(es, name, kind, inum) else es
  {
    hide CanWrite;
  }

  lemma ReadingSlot(w: World, w1: World, k: nat, n: nat)
    requires Reading(w, w1, k, n)
    ensures k < |w1.ss| && n < |w.t| == |w1.t| == NINODES && w1.ss[k].ino.inum == n && Solid(w1.v, w1.ss[k].ino)
    ensures w1.ss[k].ino.size == |File(w, n)|
  {
    hide Peeked, Solid, Contents;
  }

  /** `dir_remove`: clears the first record of that name and type whose inode number is not 0. */
  method DirRemove(fs: FileSystem, k: nat, name: seq<byte>, kind: uint16, now: uint32) returns (ok: bool)
    requires fs.Valid() && fs.IsInode(k) && |fs.table| == NINODES && DirOk(fs.dev.contents, fs.slots[k].ino)
    modifies fs, fs.slots, fs.dev, fs.dev.arr, fs.dev.disk.data
    ensures fs.Valid() && fs.IsInode(k) && fs.sb == old(fs.sb)
    ensures var w, w', n := old(fs.Now()), fs.Now(), old(fs.slots[k].ino.inum);
      && n < |w.t|
      && (w.t[n].kind != T_DIR ==> !ok && w' == w)
      && (w.t[n].kind == T_DIR ==>
            var es, i := Records(w, n), D.Victim(Records(w, n), name, kind);
            && (ok <==> i < |es|)
            && (if ok then Rewritten(w, w', n, es[i := D.CLEARED]) && Super(w.v, w'.v, false) else Peeked(w, w', n)))
      && |w'.owner| == |w.owner|
    ensures Stamped(old(fs.slots[k].ino), fs.slots[k].ino, now) && Ticked(old(fs.table), fs.table, now)
  {
    hide Inv, SoundWorld, Solid, Peeked, Contents, D.Entries, Rewritten, WriteSpec, Reading, CanWrite, Overruns, Super, WroteTo, Charged,
      Ticked;
    ghost var w, n := fs.Now(), fs.slots[k].ino.inum;
    SoundSlot(w, k);
    TickedRefl(w.t, now);
    if fs.slots[k].ino.kind != T_DIR {
      return false;
    }
    ghost var es := Records(w, n);
    SolidSize(w.v, fs.slots[k].ino);
    FileSize(w, k);
    var hit, i, e := Scan(fs, k, e => D.Removable(e, name, kind), now);
    ghost var w1 := fs.Now();
    D.VictimIs(es, name, kind, i);
    ReadingPeeked(w, w1, k, n);
    PeekedSame(w, w1, n);
    if !hit {
      return false;
    }
    ReadingSlot(w, w1, k, n);
    var tot := WriteAt(fs, k, D.ZeroEntry(), D.ENTRY_SIZE * i, now);
    TickedTrans(w.t, w1.t, fs.table, now);
    RecordWritten(w, w1, fs.Now(), k, i, D.ZeroEntry(), tot);
    RecordUsed(w, w1, fs.Now(), k, D.ENTRY_SIZE * i, D.ZeroEntry(), tot);
    D.DecodeZero();
    ok := true;
  }

  /** `dir_is_empty`. */
  method DirIsEmpty(fs: FileSystem, k: nat, now: uint32) returns (empty: bool)
    requires fs.Valid() && fs.IsInode(k) && |fs.table| == NINODES && DirOk(fs.dev.contents, fs.slots[k].ino)
    modifies fs, fs.slots, fs.dev, fs.dev.arr, fs.dev.disk.data
    ensures fs.Valid() && fs.IsInode(k) && fs.sb == old(fs.sb)
    ensures var w, n := old(fs.Now()), old(fs.slots[k].ino.inum);
      && n < |w.t|
      && (w.t[n].kind != T_DIR ==> !empty && fs.Now() == w)
      && (w.t[n].kind == T_DIR ==> Peeked(w, fs.Now(), n))
      && (w.t[n].kind == T_DIR ==> (empty <==> forall i :: 0 <= i < |Records(w, n)| ==> D.Ignored(Records(w, n)[i])))
    ensures Stamped(old(fs.slots[k].ino), fs.slots[k].ino, now) && Ticked(old(fs.table), fs.table, now)
  {
    hide Inv, SoundWorld, Solid, Peeked, Contents, D.Entries, Reading, Ticked;
    ghost var w, n := fs.Now(), fs.slots[k].ino.inum;
    SoundSlot(w, k);
    TickedRefl(w.t, now);
    if fs.slots[k].ino.kind != T_DIR {
      return false;
    }
    var hit, i, e := Scan(fs, k, e => !D.Ignored(e), now);
    ReadingPeeked(w, fs.Now(), k, n);
    empty := !hit;
  }
}
