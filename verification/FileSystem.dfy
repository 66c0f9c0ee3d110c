/** The file system proper: block allocation, the block map of an inode, reading and
    writing files, and the inode cache, over the block cache and the disk. */
module FileSystem {
  import opened Bytes
  import opened Results
  import opened BlockTree
  import opened Bitmap
  import opened Inodes
  import opened Growth
  import opened Files
  import opened InodeCache
  import opened World
  import opened Writes
  import opened BlockZero
  import opened Cache

  class FileSystem {
    const dev: BlockCache
    const slots: array<CacheSlot>
    var sb: Superblock
    /** All inodes, cached or not. */
    ghost var table: seq<Inode>
    /** Outstanding references to each inode. */
    ghost var refs: seq<nat>
    /** The slot of the tree that each data block hangs on. */
    ghost var owner: map<nat, Key>

    ghost predicate DeviceOk()
      reads this, dev, dev.arr, dev.disk.data
    {
      && dev.Valid() && slots.Length == NCACHE
      && BLOCK_START <= |dev.contents| < 0x8000_0000 && sb == SbInit(|dev.contents|)
    }

    ghost predicate Valid()
      reads this, slots, dev, dev.arr, dev.disk.data
    {
      DeviceOk() && SoundWorld(Now())
    }

    constructor (dev: BlockCache, ncyl: nat, nsec: nat)
      requires dev.Valid() && ncyl * nsec == |dev.contents| && BLOCK_START <= ncyl * nsec < 0x8000_0000
      ensures DeviceOk() && this.dev == dev && fresh(slots)
    {
      this.dev := dev;
      slots := new CacheSlot[NCACHE](i => CacheSlot(NoInode(), 0));
      sb := SbInit(ncyl * nsec);
    }

    /** A block as the block cache serves it; the buffer is left alone when out of range. */
    method ReadBlock(bno: int, buf: Block) returns (r: Block)
      requires DeviceOk()
      modifies dev, dev.arr, dev.disk.data
      ensures DeviceOk() && dev.contents == old(dev.contents)
      ensures r == if 0 <= bno < |dev.contents| then dev.contents[bno] else buf
    {
      if bno < 0 || (bno != 0 && bno >= sb.size) {
        return buf;
      }
      r := dev.CacheRead(bno);
    }

    method WriteBlock(bno: int, d: Block)
      requires DeviceOk()
      modifies dev, dev.arr, dev.disk.data
      ensures DeviceOk()
      ensures dev.contents == BlockWritten(old(dev.contents), bno, d)
    {
      if bno < 0 || bno >= sb.size {
        return;
      }
      dev.CacheWrite(bno, d);
    }

    /** The first free data block, marked in the bitmap; 0 when none is left. */
    method AllocateBlock() returns (p: uint32)
      requires DeviceOk()
      modifies dev, dev.arr, dev.disk.data
      ensures DeviceOk()
      ensures Allocated(old(dev.contents), p, dev.contents)
      ensures 35 <= |old(dev.contents)|
      ensures p == 0 <==> forall i :: 0 <= i < 4096 && 35 + i < |old(dev.contents)| ==> MapBit(old(dev.contents)[2], i)
      ensures p != 0 ==>
                && 35 <= p < |old(dev.contents)| && p - 35 < 4096 && !MapBit(old(dev.contents)[2], p - 35)
                && forall i :: 0 <= i < p - 35 ==> MapBit(old(dev.contents)[2], i)
    {
      hide Inv, MapBit;
      var bbi := 0;
      while bbi < sb.ndataBlocksBitmapBlocks
        invariant DeviceOk() && dev.contents == old(dev.contents) && sb == old(sb)
        invariant bbi > 0 ==> NoFree(dev.contents)
      {
        var blockno := sb.bmapstart + bbi;
        var buf := ReadBlock(blockno, Zero());
        var idx, next := FindClear(buf, sb.ndataBlocks);
        if idx < BITS && idx < sb.ndataBlocks {
          MapBitSet(buf, idx, next);
          WriteBlock(blockno, next);
          return sb.blockStart + idx;
        }
        bbi := bbi + 1;
      }
      return 0;
    }

    /** `ip` points into the inode cache. */
    ghost predicate IsInode(k: nat)
      reads slots
    {
      k < slots.Length && slots[k].ino.inum < NINODES
    }

    ghost function Now(): World
      reads this, slots, dev
    {
      World(slots[..], table, refs, dev.contents, owner)
    }

    /** `ip->addrs[i] = allocate_block()`, zeroing a new pointer block. */
    method GrowTop(k: nat, i: nat) returns (ghost added: set<Slot>)
      requires Valid() && IsInode(k) && i < NADDRS && slots[k].ino.addrs[i] == 0
      modifies this`table, this`owner, slots, dev, dev.arr, dev.disk.data
      ensures DeviceOk() && Tried(old(Now()), Now(), k, Top(i), added)
    {
      hide Sound, Allocated, Filled1, Tried, Inv, At;
      ghost var w := Now();
      var p := AllocateBlock();
      ghost var v1 := dev.contents;
      slots[k] := Regrown(slots[k], slots[k].ino.addrs[i := p]);
      if i >= NDIRECT {
        WriteBlock(p, Zero());
      }
      table, owner, added := GrowTopStep(w.ss, table, refs, w.v, owner, k, i, p, v1);
      TopPtr(w, k, i);
      Filled1Tried(w, Now(), k, Top(i), p, added);
    }

    /** `ind[j] = allocate_block()` in the pointer block `blk`, which slot `q` names and `buf`
        is a copy of; both the new block, if it is to hold pointers, and `blk` are written. */
    method GrowSub(k: nat, ghost q: Slot, blk: uint32, buf: Block, j: nat, interior: bool)
      returns (p: uint32, ghost added: set<Slot>)
      requires Valid() && IsInode(k) && j < IPTRS && Good(Sub(q, j)) && interior == Interior(Sub(q, j))
      requires 0 != Ptr(Now(), k, q) == blk < |dev.contents|
      requires buf == dev.contents[blk] && Word(buf, j) == 0
      modifies this`table, this`owner, slots, dev, dev.arr, dev.disk.data
      ensures DeviceOk() && Tried(old(Now()), Now(), k, Sub(q, j), added)
      ensures p == Ptr(Now(), k, Sub(q, j))
    {
      hide Sound, Allocated, Filled1, Tried, Inv, At, Good, Interior, Word, SetWord;
      ghost var w := Now();
      p := AllocateBlock();
      ghost var v1 := dev.contents;
      slots[k] := Regrown(slots[k], slots[k].ino.addrs);
      if interior {
        WriteBlock(p, Zero());
      }
      WriteBlock(blk, SetWord(buf, j, p));
      table, owner, added := GrowSubStep(w.ss, table, refs, w.v, owner, k, q, j, p, v1, buf);
      SubPtr(w, k, q, j);
      Filled1Tried(w, Now(), k, Sub(q, j), p, added);
    }

    method MapTop(k: nat, i: nat, alloc: bool) returns (ghost added: set<Slot>)
      requires Valid() && IsInode(k) && i < NADDRS
      modifies this`table, this`owner, slots, dev, dev.arr, dev.disk.data
      ensures DeviceOk() && Mapping(old(Now()), Now(), k, Top(i), alloc, added)
    {
      hide Tried, Inv, At, Mapping;
      ghost var w := Now();
      added := {};
      TopPtr(w, k, i);
      if slots[k].ino.addrs[i] == 0 && alloc {
        added := GrowTop(k, i);
      }
      MapTopLevel(w, Now(), k, i, alloc, added);
    }

    method MapSub(k: nat, ghost q: Slot, blk: uint32, j: nat, interior: bool, alloc: bool)
      returns (p: uint32, ghost added: set<Slot>)
      requires Valid() && IsInode(k) && j < IPTRS && Good(Sub(q, j)) && interior == Interior(Sub(q, j))
      requires 0 != Ptr(Now(), k, q) == blk
      modifies this`table, this`owner, slots, dev, dev.arr, dev.disk.data
      ensures DeviceOk() && MapLevel(old(Now()), Now(), k, Sub(q, j), alloc, added)
      ensures p == Ptr(Now(), k, Sub(q, j))
    {
      hide Tried, Inv, At, Good, Interior, Word, Sound;
      ghost var w := Now();
      added := {};
      PtrRange(w, k, q, j);
      SubPtr(w, k, q, j);
      var buf := ReadBlock(blk, Zero());
      p := Word(buf, j);
      if p == 0 && alloc {
        p, added := GrowSub(k, q, blk, buf, j, interior);
      }
    }

    /** `bmap`: the physical block of logical block `bnum`, 0 when it has none. */
    method BMap(k: nat, bnum: uint32, alloc: bool) returns (p: uint32, ghost added: set<Slot>)
      requires Valid() && IsInode(k)
      modifies this`table, this`owner, slots, dev, dev.arr, dev.disk.data
      ensures Valid() && IsInode(k)
      ensures p == Lookup(dev.contents, slots[k].ino.addrs, bnum)
      ensures bnum >= MAXBLOCKS || !alloc ==> Now() == old(Now())
      ensures bnum < MAXBLOCKS ==> Mapping(old(Now()), Now(), k, LeafOf(bnum), alloc, added)
    {
      hide Tried, Inv, At, Mapping, Sound;
      ghost var w := Now();
      var n := bnum;
      if n < NDIRECT {
        added := MapTop(k, n, alloc);
        MappingSound(w, Now(), k, Top(n), alloc, added);
        TopPtr(Now(), k, n);
        p := slots[k].ino.addrs[n];
        return;
      }
      n := n - NDIRECT;
      if n < IPTRS {
        p, added := MapIndirect(k, 10, n, alloc);
        return;
      }
      n := n - IPTRS;
      if n < IPTRS {
        p, added := MapIndirect(k, 11, n, alloc);
        return;
      }
      n := n - IPTRS;
      if n < DPTRS {
        p, added := MapDouble(k, n, alloc);
        return;
      }
      p, added := 0, {};
    }

    method MapIndirect(k: nat, top: nat, j: nat, alloc: bool) returns (p: uint32, ghost added: set<Slot>)
      requires Valid() && IsInode(k) && NDIRECT <= top < NADDRS - 1 && j < IPTRS
      modifies this`table, this`owner, slots, dev, dev.arr, dev.disk.data
      ensures Valid() && IsInode(k) && Mapping(old(Now()), Now(), k, Sub(Top(top), j), alloc, added)
      ensures !alloc ==> Now() == old(Now())
      ensures p == Ptr(Now(), k, Sub(Top(top), j))
    {
      hide Tried, Inv, At, Mapping, Sound;
      ghost var w := Now();
      added := MapTop(k, top, alloc);
      ghost var w1 := Now();
      MappingSound(w, w1, k, Top(top), alloc, added);
      TopPtr(w1, k, top);
      ghost var d := {};
      p := 0;
      if slots[k].ino.addrs[top] != 0 {
        p, d := MapSub(k, Top(top), slots[k].ino.addrs[top], j, false, alloc);
      } else {
        SubPath(w1, k, Top(top), j);
      }
      MapSubLevel(w, w1, Now(), k, Top(top), j, alloc, added, d);
      added := added + d;
      MappingSound(w, Now(), k, Sub(Top(top), j), alloc, added);
    }

    method MapDouble(k: nat, n: nat, alloc: bool) returns (p: uint32, ghost added: set<Slot>)
      requires Valid() && IsInode(k) && n < DPTRS
      modifies this`table, this`owner, slots, dev, dev.arr, dev.disk.data
      ensures Valid() && IsInode(k)
      ensures Mapping(old(Now()), Now(), k, Sub(Sub(Top(12), n / IPTRS), n % IPTRS), alloc, added)
      ensures !alloc ==> Now() == old(Now())
      ensures p == Ptr(Now(), k, Sub(Sub(Top(12), n / IPTRS), n % IPTRS))
    {
      hide Tried, Inv, At, Mapping, Sound;
      ghost var w := Now();
      var i1, i2 := n / IPTRS, n % IPTRS;
      ghost var q, s := Sub(Top(12), i1), Sub(Sub(Top(12), i1), i2);
      added := MapTop(k, 12, alloc);
      ghost var w1 := Now();
      MappingSound(w, w1, k, Top(12), alloc, added);
      TopPtr(w1, k, 12);
      ghost var d1, d2 := {}, {};
      var sub := 0;
      if slots[k].ino.addrs[12] != 0 {
        sub, d1 := MapSub(k, Top(12), slots[k].ino.addrs[12], i1, true, alloc);
      } else {
        SubPath(w1, k, Top(12), i1);
      }
      ghost var w2 := Now();
      MapSubLevel(w, w1, w2, k, Top(12), i1, alloc, added, d1);
      MappingSound(w, w2, k, q, alloc, added + d1);
      p := 0;
      if sub != 0 {
        p, d2 := MapSub(k, q, sub, i2, false, alloc);
      } else {
        SubPath(w2, k, q, i2);
      }
      MapSubLevel(w, w2, Now(), k, q, i2, alloc, added + d1, d2);
      added := added + d1 + d2;
      MappingSound(w, Now(), k, s, alloc, added);
    }

    /** `iupdate`: reads the block of the inode's record, replaces the record, writes it back. */
    method IUpdate(k: nat)
      requires Valid() && IsInode(k)
      modifies dev, dev.arr, dev.disk.data
      ensures Valid() && Now() == StoredWorld(old(Now()), k)
    {
      hide Inv, SoundWorld, TreesOk, TableOk, Encode, Stored;
      StoredWorldSound(Now(), k);
      StoreRecord(slots[k].ino, slots[k].refs % 0x1_0000_0000);
    }

    method StoreRecord(ino: Inode, r: uint32)
      requires DeviceOk() && InodeBlock(ino.inum) < |dev.contents|
      modifies dev, dev.arr, dev.disk.data
      ensures DeviceOk() && |dev.contents| == |old(dev.contents)|
      ensures ino.inum < NINODES ==> dev.contents == Stored(old(dev.contents), ino.inum, ino, r)
      ensures dev.contents == old(dev.contents)[InodeBlock(ino.inum) :=
                Patch(old(dev.contents)[InodeBlock(ino.inum)], INODE_SIZE * (ino.inum % INODES_PER_BLOCK), Encode(ino, r))]
    {
      hide Inv, Encode;
      var blockno := sb.inodeStart + ino.inum / INODES_PER_BLOCK;
      var buf := ReadBlock(blockno, Zero());
      WriteBlock(blockno, Patch(buf, INODE_SIZE * (ino.inum % INODES_PER_BLOCK), Encode(ino, r)));
    }

    /** `iget`: a reference to inode `inum`, loading it into the first empty slot if it is not
        cached; fails when there is no such inode or no slot, and then changes nothing. */
    method IGet(inum: uint32) returns (r: Option<nat>)
      requires Valid()
      modifies this`refs, slots, dev, dev.arr, dev.disk.data
      ensures Valid() && Acquired(old(Now()), Now(), inum, r)
      ensures r.Some? ==> inum < NINODES && IsInode(r.value) && slots[r.value].ino.inum == inum
      ensures r.Some? && !Held(old(slots[..]), inum) ==> forall j :: 0 <= j < r.value ==> old(slots[j].ino.inum) != EMPTY
    {
      hide Inv, SoundWorld, DiskInode, Held, Acquired;
      var max_inodes := sb.ninodeBlocks * INODES_PER_BLOCK;
      NotAcquired(Now(), inum);
      if inum >= max_inodes {
        return None;
      }
      var i, empty := FindSlot(inum);
      ghost var w := Now();
      if i < NCACHE {
        ReferencedSound(w, i);
        SoundSlot(w, i);
        HitAcquired(w, i, inum);
        slots[i] := slots[i].(refs := slots[i].refs + 1);
        refs := refs[inum := refs[inum] + 1];
        assert Now() == Referenced(w, i);
        return Some(i);
      }
      if empty == NCACHE {
        return None;
      }
      MissAcquired(w, empty, inum);
      Load(empty, inum);
      return Some(empty);
    }

    method Load(k: nat, inum: uint32)
      requires Valid() && k < NCACHE && slots[k].ino.inum == EMPTY && inum < NINODES && !Held(slots[..], inum)
      modifies this`refs, slots, dev, dev.arr, dev.disk.data
      ensures |old(refs)| == NINODES && old(refs)[inum] == 0 && BLOCK_START <= |old(dev.contents)|
      ensures Valid() && Now() == Loaded(old(Now()), k, inum)
    {
      hide Inv, SoundWorld, DiskInode, Held;
      ghost var w := Now();
      LoadedSound(w, k, inum);
      var blockno := sb.inodeStart + inum / INODES_PER_BLOCK;
      var buf := ReadBlock(blockno, Zero());
      DiskInodeIs(dev.contents, inum);
      slots[k] := CacheSlot(Decode(Record(buf, inum % INODES_PER_BLOCK)).(inum := inum), 1);
      refs := refs[inum := 1];
    }

    /** The slot holding inode `inum` and, if there is none, the first empty slot. */
    method FindSlot(inum: uint32) returns (hit: nat, empty: nat)
      requires slots.Length == NCACHE && inum != EMPTY
      ensures hit <= NCACHE && empty <= NCACHE
      ensures hit < NCACHE ==> slots[hit].ino.inum == inum
      ensures hit < NCACHE <==> Held(slots[..], inum)
      ensures empty < NCACHE ==> slots[empty].ino.inum == EMPTY
      ensures hit == NCACHE ==> (empty < NCACHE <==> Held(slots[..], EMPTY))
      ensures forall j :: 0 <= j < empty && hit == NCACHE ==> slots[j].ino.inum != EMPTY
    {
      empty := NCACHE;
      var i := 0;
      while i < NCACHE
        invariant 0 <= i <= NCACHE && 0 <= empty <= NCACHE
        invariant forall j :: 0 <= j < i ==> slots[j].ino.inum != inum
        invariant empty < NCACHE ==> empty < i && slots[empty].ino.inum == EMPTY
        invariant forall j :: 0 <= j < i && j < empty ==> slots[j].ino.inum != EMPTY
      {
        if slots[i].ino.inum == inum {
          assert slots[..][i].ino.inum == inum;
          return i, empty;
        }
        if empty == NCACHE && slots[i].ino.inum == EMPTY {
          empty := i;
        }
        i := i + 1;
      }
      hit := NCACHE;
      if empty < NCACHE { assert slots[..][empty].ino.inum == EMPTY; }
    }

    /** `iput`: drops a reference; the last one writes the inode out and frees its slot. */
    method IPut(k: nat)
      requires Valid() && IsInode(k)
      modifies this`refs, slots, dev, dev.arr, dev.disk.data
      ensures Valid() && |old(refs)| == NINODES && 0 < old(slots[k].refs) == old(refs)[old(slots[k].ino.inum)]
      ensures Now() == Released(old(Now()), k)
    {
      hide Inv, SoundWorld, Stored;
      ghost var w := Now();
      ReleasedSound(w, k);
      var n := slots[k].ino.inum;
      if slots[k].refs > 0 {
        slots[k] := slots[k].(refs := slots[k].refs - 1);
      }
      if slots[k].refs == 0 {
        StoreRecord(slots[k].ino, 0);
        slots[k] := CacheSlot(NoInode(), 0);
        refs := refs[n := 0];
      } else {
        refs := refs[n := slots[k].refs];
      }
      assert Now() == Released(w, k);
    }

    method SetInode(k: nat, x: Inode)
      requires Valid() && IsInode(k) && x.inum == slots[k].ino.inum && x.addrs == slots[k].ino.addrs
      modifies this`table, slots
      ensures Valid() && IsInode(k) && slots[k].ino == x
      ensures |old(table)| == NINODES && Now() == WithInode(old(Now()), k, x)
    {
      hide TreesOk, Inv;
      WithInodeSound(Now(), k, x);
      slots[k] := slots[k].(ino := x);
      table := table[x.inum := x];
    }

    /** `readi`: copies up to `n` bytes of the file at `off` into `dst`, stopping at the first
        unmapped block, and stores the new access time. */
    method ReadI(k: nat, dst: array<byte>, off: uint32, n: uint32, now: uint32) returns (r: Option<nat>)
      requires Valid() && IsInode(k) && n <= dst.Length && dst != dev.disk.data
      modifies this`table, this`owner, slots, dev, dev.arr, dev.disk.data, dst
      ensures Valid() && IsInode(k)
      ensures r.None? <==> n > 0 && off > old(slots[k].ino.size)
      ensures n == 0 || off > old(slots[k].ino.size) ==> Now() == old(Now()) && dst[..] == old(dst[..])
      ensures n == 0 ==> r == Some(0)
      ensures n > 0 && off <= old(slots[k].ino.size) ==>
                var m := ReadLimit(old(slots[k].ino.size), off, n);
                && r.value <= m
                && (off + n < 0x1_0000_0000 ==>
                      m == if off + n < old(slots[k].ino.size) then n else old(slots[k].ino.size) - off)
                && ReadOk(old(dev.contents), old(slots[k].ino.addrs), off, dst[..], r.value)
                && dst[r.value..] == old(dst[..])[r.value..]
                && (r.value < m ==> Lookup(old(dev.contents), old(slots[k].ino.addrs), (off + r.value) / BSIZE) == 0)
                && |old(table)| == NINODES && BLOCK_START <= |old(dev.contents)|
                && Now() == Accessed(old(Now()), k, now)
                && slots[k].ino == old(slots[k].ino).(atime := now)
    {
      hide Inv, SoundWorld, Lookup, ReadOk, Stored;
      if n == 0 {
        return Some(0);
      }
      if off > slots[k].ino.size {
        return None;
      }
      var m := n;
      if Add32(off, n) > slots[k].ino.size {
        m := slots[k].ino.size - off;
      }
      var tot := ReadLoop(k, dst, off, m);
      SetInode(k, slots[k].ino.(atime := now));
      IUpdate(k);
      return Some(tot);
    }

    method ReadLoop(k: nat, dst: array<byte>, off: uint32, m: uint32) returns (tot: uint32)
      requires Valid() && IsInode(k) && m <= dst.Length && dst != dev.disk.data
      modifies this`table, this`owner, slots, dev, dev.arr, dev.disk.data, dst
      ensures Valid() && Now() == old(Now())
      ensures tot <= m && dst[tot..] == old(dst[..])[tot..]
      ensures ReadOk(old(dev.contents), old(slots[k].ino.addrs), off, dst[..], tot)
      ensures tot < m ==> Lookup(old(dev.contents), old(slots[k].ino.addrs), (off + tot) / BSIZE) == 0
    {
      hide Inv, SoundWorld, Lookup, Mapping, ReadOk;
      tot := 0;
      ReadOkNone(dev.contents, slots[k].ino.addrs, off, dst[..]);
      while tot < m
        invariant Valid() && Now() == old(Now())
        invariant tot <= m && dst[tot..] == old(dst[..])[tot..]
        invariant ReadOk(old(dev.contents), old(slots[k].ino.addrs), off, dst[..], tot)
      {
        var copied := ReadChunk(k, dst, off, tot, m);
        if copied == 0 {
          break;
        }
        tot := tot + copied;
      }
    }

    method ReadChunk(k: nat, dst: array<byte>, off: uint32, tot: uint32, m: uint32) returns (copied: uint32)
      requires Valid() && IsInode(k) && tot < m <= dst.Length && dst != dev.disk.data
      requires ReadOk(dev.contents, slots[k].ino.addrs, off, dst[..], tot)
      modifies this`table, this`owner, slots, dev, dev.arr, dev.disk.data, dst
      ensures Valid() && Now() == old(Now())
      ensures tot + copied <= m && dst[tot + copied..] == old(dst[..])[tot + copied..]
      ensures ReadOk(old(dev.contents), old(slots[k].ino.addrs), off, dst[..], tot + copied)
      ensures copied == 0 ==> Lookup(old(dev.contents), old(slots[k].ino.addrs), (off + tot) / BSIZE) == 0
    {
      hide Inv, SoundWorld, Lookup, Mapping, ReadOk, Patch, Data, ChunkLen, LeafOf;
      ghost var w, a, d := Now(), slots[k].ino.addrs, dst[..];
      ReadOkRange(w.v, a, off, dst[..], tot);
      var o := Add32(off, tot);
      var bnum, boff, to_copy := o / BSIZE, o % BSIZE, ChunkLen(o, m - tot);
      var blk, _ := BMap(k, bnum, false);
      if blk == 0 {
        return 0;
      }
      MappedRange(w, k, bnum);
      var buf := ReadBlock(blk, Zero());
      assert o == off + tot;
      ReadStep(w.v, a, off, d, tot, to_copy);
      CopyTo(dst, tot, buf[boff..boff + to_copy]);
      assert dst[..] == Patch(d, tot, buf[boff..boff + to_copy]);
      return to_copy;
    }

    /** `memcpy(dst + at, s, |s|)`. */
    static method CopyTo(dst: array<byte>, at: nat, s: seq<byte>)
      requires at + |s| <= dst.Length
      modifies dst
      ensures dst[..] == Patch(old(dst[..]), at, s)
      ensures dst[at + |s|..] == old(dst[..])[at + |s|..]
    {
      forall i | 0 <= i < |s| { dst[at + i] := s[i]; }
    }

    /** `writei`: writes `src` at `off`, mapping blocks as it goes. Fails when the file would be
        too large; stops short when no block can be mapped, leaving the size alone. */
    method WriteI(k: nat, src: seq<byte>, off: uint32, now: uint32)
      returns (r: Option<nat>, ghost mid: World, ghost added: set<Slot>)
      requires Valid() && IsInode(k) && |src| < 0x1_0000_0000
      modifies this`table, this`owner, slots, dev, dev.arr, dev.disk.data
      ensures Valid() && IsInode(k)
      ensures r.None? <==> |src| > 0 && Add32(off, |src|) > MAXSIZE
      ensures |src| == 0 ==> r == Some(0)
      ensures |src| == 0 || r.None? ==> Now() == old(Now())
      ensures |src| > 0 && r.Some? ==>
                && Charged(old(Now()), Now(), k, if r.value < |src| && off + r.value < MAXSIZE then 1 else 0)
                && WroteTo(old(slots[k].ino), slots[k].ino, off, |src|, r.value, now)
      ensures |src| > 0 && r.Some? ==>
                && Writing(old(Now()), mid, k, off, src, r.value, added)
                && k < |mid.ss| && mid.ss[k].ino.inum < NINODES == |mid.t| && BLOCK_START <= |mid.v|
                && Now() == AfterWrite(mid, k, off, src, r.value, now)
                && (r.value < |src| ==> Lookup(mid.v, mid.ss[k].ino.addrs, (off + r.value) / BSIZE) == 0)
                && (r.value < |src| ==> off + r.value >= MAXSIZE || |mid.owner| == Capacity(|mid.v|))
                && Super(old(dev.contents), dev.contents, r.value < |src| && NoParent(mid.v, mid.ss[k].ino.addrs, off + r.value))
    {
      hide Inv, SoundWorld, Writing, Mapping, Lookup, Stored, NoParent, WroteTo, Charged;
      mid, added := Now(), {};
      ChargedRefl(Now(), k);
      if |src| == 0 {
        return Some(0), mid, added;
      }
      var blocks_per_indirect := BSIZE / 4;
      var max_size := BSIZE * (NDIRECT + 2 * blocks_per_indirect + blocks_per_indirect * blocks_per_indirect);
      if Add32(off, |src|) > max_size {
        return None, mid, added;
      }
      var tot: uint32 := 0;
      WritingStart(Now(), k, off, src);
      while tot < |src|
        invariant Valid() && IsInode(k) && tot <= |src|
        invariant Writing(old(Now()), Now(), k, off, src, tot, added)
        invariant Super(old(dev.contents), dev.contents, false) && Charged(old(Now()), Now(), k, 0)
      {
        var m;
        m, added := WriteChunk(k, src, off, tot, old(Now()), added);
        if m == 0 {
          mid := Now();
          WritingSound(old(Now()), mid, k, off, src, tot, added);
          AfterWroteTo(old(Now()), mid, k, off, src, tot, added, now, if off + tot < MAXSIZE then 1 else 0);
          return Some(tot), mid, added;
        }
        tot := tot + m;
      }
      mid := Now();
      WritingSound(old(Now()), mid, k, off, src, tot, added);
      AfterWroteTo(old(Now()), mid, k, off, src, tot, added, now, 0);
      var ino := slots[k].ino;
      StoredSuper(dev.contents, ino.(size := Max(ino.size, Add32(off, |src|)), mtime := now, ctime := now), slots[k].refs % 0x1_0000_0000);
      SetInode(k, ino.(size := Max(ino.size, Add32(off, |src|)), mtime := now, ctime := now));
      IUpdate(k);
      return Some(tot), mid, added;
    }

    /** One round of the loop of `writei`. */
    method WriteChunk(k: nat, src: seq<byte>, off: uint32, tot: uint32, ghost w: World, ghost added: set<Slot>)
      returns (m: uint32, ghost added': set<Slot>)
      requires Valid() && IsInode(k) && tot < |src| < 0x1_0000_0000
      requires Writing(w, Now(), k, off, src, tot, added) && Super(w.v, dev.contents, false) && Charged(w, Now(), k, 0)
      modifies this`table, this`owner, slots, dev, dev.arr, dev.disk.data
      ensures Valid() && IsInode(k)
      ensures Super(w.v, dev.contents, m == 0 && NoParent(dev.contents, slots[k].ino.addrs, off + tot))
      ensures tot + m <= |src| && Writing(w, Now(), k, off, src, tot + m, added')
      ensures m == 0 ==> Lookup(dev.contents, slots[k].ino.addrs, (off + tot) / BSIZE) == 0
      ensures m == 0 ==> off + tot >= MAXSIZE || |owner| == Capacity(|dev.contents|)
      ensures Charged(w, Now(), k, if m == 0 && off + tot < MAXSIZE then 1 else 0)
    {
      hide Inv, SoundWorld, Writing, Mapping, Lookup, Patch, ChunkLen, Capacity, LeafOf, Super, NoParent, Charged;
      ghost var w1 := Now();
      WritingRange(w, w1, k, off, src, tot, added);
      var o := Add32(off, tot);
      assert o == off + tot;
      var bnum, boff, to_copy := o / BSIZE, o % BSIZE, ChunkLen(o, |src| - tot);
      var blk;
      ghost var d;
      blk, d := BMap(k, bnum, true);
      ghost var w2 := Now();
      if bnum < MAXBLOCKS {
        MappingCharged(w, w1, w2, k, LeafOf(bnum), d);
        LookupPtr(w2, k, bnum);
      }
      if blk == 0 {
        if bnum < MAXBLOCKS {
          WritingFails(w, w1, w2, k, off, src, tot, added, d);
          StopSuper(w, w1, w2, k, o, d);
          return 0, added + d;
        }
        BeyondMax(w2.v, slots[k].ino.addrs, o);
        return 0, added;
      }
      MappedRange(w2, k, bnum);
      PutCharged(w, w2, k, bnum, Patch(w2.v[blk], boff, src[tot..tot + to_copy]));
      WritingStep(w, w1, w2, k, off, src, tot, to_copy, added, d);
      StepSuper(w, w1, w2, k, bnum, Patch(w2.v[blk], boff, src[tot..tot + to_copy]), d);
      WritingSound(w, Put(w2, k, bnum, Patch(w2.v[blk], boff, src[tot..tot + to_copy])), k, off, src, tot + to_copy, added + d);
      PatchBlock(blk, boff, src[tot..tot + to_copy]);
      return to_copy, added + d;
    }

    /** `read_block`, `memcpy` into the buffer, `write_block`. */
    method PatchBlock(blk: uint32, boff: nat, s: seq<byte>)
      requires DeviceOk() && blk < |dev.contents| && boff + |s| <= BSIZE
      modifies dev, dev.arr, dev.disk.data
      ensures DeviceOk() && dev.contents == old(dev.contents)[blk := Patch(old(dev.contents)[blk], boff, s)]
    {
      hide Inv, Patch;
      var buf := ReadBlock(blk, Zero());
      WriteBlock(blk, Patch(buf, boff, s));
    }

    /** The first clear bit below `limit` and the bitmap with that bit set. */
    method FindClear(buf: Block, limit: nat) returns (idx: nat, next: Block)
      ensures idx <= BITS
      ensures idx < BITS && idx < limit ==>
                && !MapBit(buf, idx) && (forall i :: 0 <= i < idx ==> MapBit(buf, i))
                && 0 <= buf[idx / 8] + Shift(idx % 8) < 0x100 && next == buf[idx / 8 := buf[idx / 8] + Shift(idx % 8)]
      ensures !(idx < BITS && idx < limit) ==> forall i :: 0 <= i < BITS && i < limit ==> MapBit(buf, i)
    {
      next := buf;
      for k := 0 to BSIZE
        invariant forall i :: 0 <= i < 8 * k && i < limit ==> MapBit(buf, i)
      {
        if buf[k] != 0xFF {
          var bit := 0;
          while bit < 8
            invariant 0 <= bit <= 8
            invariant forall i :: 0 <= i < 8 * k + bit && i < limit ==> MapBit(buf, i)
          {
            idx := k * 8 + bit;
            if idx >= limit { break; }
            if !Bit(buf[k], bit) {
              ByteOfSet(buf[k], bit);
              next := buf[k := buf[k] + Shift(bit)];
              return;
            }
            bit := bit + 1;
          }
        } else {
          FullByte(buf, k);
        }
      }
      idx := BITS;
    }
  }
}
