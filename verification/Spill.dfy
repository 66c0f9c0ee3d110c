/** What creating an inode does when all 128 numbers of the inode area are taken: `ialloc` checks the
    next number against the size of the device, so it writes a record to a data block. */
module Spill {
  import opened Bytes
  import opened BlockTree
  import opened Bitmap
  import opened Inodes
  import opened Growth
  import opened Files
  import opened InodeCache
  import opened World
  import opened Writes
  import opened DirOps
  import opened Invariant
  import opened Numbering
  import D = Directory

  /** The record of such a number is written to the data region. */
  lemma SpillPlace(n: nat, size: nat)
    requires Spills(n, size)
    ensures BLOCK_START <= InodeBlock(n) < size && InodeBlock(n) < BLOCK_START + BITS
    ensures InodeBlock(n) == BLOCK_START + (n - NINODES) / INODES_PER_BLOCK
  {
  }

  lemma SpiltFields(w: World, w': World, n: nat, x: Inode)
    requires Spilt(w, w', n, x)
    ensures BLOCK_START <= InodeBlock(n) < |w.v| == |w'.v| && InodeBlock(n) < BLOCK_START + BITS
    ensures w'.t == w.t && w'.ss == w.ss && w'.refs == w.refs && w'.owner == w.owner
    ensures forall b :: 0 <= b < |w.v| && b != 1 && b != InodeBlock(n) ==> w'.v[b] == w.v[b]
    ensures w'.v[InodeBlock(n)] == OverRecord(w.v[InodeBlock(n)], n, x)
    ensures forall m: nat :: Numbered(w', m) <==> m == n || Numbered(w, m)
  {
    SpillPlace(n, |w.v|);
    hide MapBit, OverRecord, SetBit;
    assert w'.v[1] == SetBit(w.v[1], n);
  }

  /** The block belongs to no file, or happens to hold the very bytes. */
  predicate Harmless(w: World, n: nat, x: Inode)
    requires BLOCK_START <= InodeBlock(n) < |w.v| && InodeBlock(n) < BLOCK_START + BITS
  {
    var p := InodeBlock(n);
    !MapBit(w.v[2], p - BLOCK_START) || OverRecord(w.v[p], n, x) == w.v[p]
  }

  // ---------------------------------------------------------------- when no file is touched

  lemma MarkedOwned(w: World, p: nat)
    requires SoundWorld(w) && BLOCK_START <= p < BLOCK_START + BITS
    ensures BLOCK_START <= |w.v| && (MapBit(w.v[2], p - BLOCK_START) <==> p in w.owner)
  {
    hide Owned, TableOk, MapBit;
  }

  lemma SpiltTrees(v: seq<Block>, v': seq<Block>, t: seq<Inode>, owner: map<nat, Key>)
    requires TreesOk(v, t, owner) && |v'| == |v| && v'[2] == v[2] && forall p :: p in owner ==> p < |v| && v'[p] == v[p]
    ensures TreesOk(v', t, owner) && forall m :: 0 <= m < |t| ==> SameFile(v, t[m].addrs, v')
  {
    hide Marked, At;
    OwnedFrame(v, v', Trees(t), owner);
    forall m | 0 <= m < |t| ensures SameFile(v, t[m].addrs, v') {
      forall u | Good(u) ensures At(v', t[m].addrs, u) == At(v, t[m].addrs, u) {
        assert At(v', Trees(t)[m], u) == At(v, Trees(t)[m], u);
      }
      OwnedData(v, v', t, owner, m);
    }
  }

  lemma OwnedData(v: seq<Block>, v': seq<Block>, t: seq<Inode>, owner: map<nat, Key>, m: nat)
    requires Owned(v, Trees(t), owner) && m < |t| && SameTree(v, t[m].addrs, v') && |v'| == |v|
    requires forall p :: p in owner ==> p < |v| && v'[p] == v[p]
    ensures forall b: nat :: Data(v', t[m].addrs, b) == Data(v, t[m].addrs, b)
  {
    hide Owned;
    forall b: nat ensures Data(v', t[m].addrs, b) == Data(v, t[m].addrs, b) {
      assert Lookup(v', t[m].addrs, b) == Lookup(v, t[m].addrs, b);
      if Lookup(v, t[m].addrs, b) != 0 {
        PointerOwned(v, t, owner, m, LeafOf(b));
      }
    }
  }

  lemma HarmlessSound(w: World, w': World, n: nat, x: Inode)
    requires SoundWorld(w) && Spilt(w, w', n, x)
    requires InodeBlock(n) in w.owner ==> w'.v[InodeBlock(n)] == w.v[InodeBlock(n)]
    ensures SoundWorld(w') && forall m :: 0 <= m < |w.t| ==> SameFile(w.v, w.t[m].addrs, w'.v)
  {
    hide Owned, Marked, TableOk, MapBit, SameFile, Spilt, OverRecord;
    SpiltFields(w, w', n, x);
    TableFrame(w.ss, w.t, w.refs, w.v, w'.v);
    OwnedInside(w);
    SpiltTrees(w.v, w'.v, w.t, w.owner);
  }

  lemma OwnedInside(w: World)
    requires SoundWorld(w)
    ensures forall p :: p in w.owner ==> BLOCK_START <= p < |w.v|
  {
    hide TableOk, Marked;
  }

  /** A spilt number does no harm if the block is free: everything stays in order. */
  lemma HarmlessOk(w: World, w': World, n: nat, x: Inode)
    requires FsOk(w) && Spilt(w, w', n, x) && InodeBlock(n) < BLOCK_START + BITS && BLOCK_START <= InodeBlock(n)
    requires Harmless(w, n, x)
    ensures FsOk(w') && forall m :: 0 <= m < |w.t| ==> SameFile(w.v, w.t[m].addrs, w'.v)
  {
    hide SoundWorld, Solid, LinksOk, Numbered, Spilt, OverRecord, MapBit, SameFile;
    SpiltFields(w, w', n, x);
    FsOkSound(w);
    MarkedOwned(w, InodeBlock(n));
    HarmlessSound(w, w', n, x);
    forall m | 0 <= m < |w'.t| ensures FileOk(w', m) {
      assert FileOk(w, m);
      OldFile(w, w', m);
      if w.t[m].kind == T_DIR { MoreLinks(w, w', Records(w, m)); }
    }
  }

  lemma FsOkSound(w: World)
    requires FsOk(w)
    ensures SoundWorld(w)
  {
    hide NumbersOk, FilesOk, RootOk;
  }

  // ---------------------------------------------------------------- when one is

  /** Two blocks that hold the same words are the same. */
  lemma SameWords(b: Block, c: Block)
    requires forall j :: 0 <= j < IPTRS ==> Word(b, j) == Word(c, j)
    ensures b == c
  {
    hide Word, WordAt;
    forall k | 0 <= k < BSIZE ensures b[k] == c[k] {
      var j := k / 4;
      assert Word(b, j) == Word(c, j);
      WordIs(b, j);
      WordIs(c, j);
      assert k == 4 * j + k % 4;
    }
  }

  lemma WordIs(b: Block, j: nat)
    requires j < IPTRS
    ensures WordBytes(Word(b, j)) == [b[4 * j], b[4 * j + 1], b[4 * j + 2], b[4 * j + 3]]
  {
    hide WordBytes;
    WordAtBytes(b, 4 * j);
  }

  /** A file whose tree and data are the same has the same blocks. */
  lemma SameOwned(v: seq<Block>, a: Addrs, v': seq<Block>, s: Slot)
    requires SameFile(v, a, v') && |v'| == |v| && Good(s) && 0 < At(v, a, s) < |v|
    ensures v'[At(v, a, s)] == v[At(v, a, s)]
  {
    hide Word;
    var p := At(v, a, s);
    if Interior(s) {
      forall j | 0 <= j < IPTRS ensures Word(v'[p], j) == Word(v[p], j) {
        assert Good(Sub(s, j));
        assert At(v', a, Sub(s, j)) == At(v, a, Sub(s, j));
      }
      SameWords(v'[p], v[p]);
    } else {
      LeafBlockInverse(0, s);
      assert Data(v', a, BlockOf(s)) == Data(v, a, BlockOf(s));
    }
  }

  /** A spilt number leaves the trees and the bytes of all files alone exactly if its block is free or
      holds the very bytes. Which block that is, and whether it is marked, can be seen before. */
  lemma SpiltExactly(w: World, w': World, n: nat, x: Inode)
    requires FsOk(w) && Spilt(w, w', n, x)
    ensures BLOCK_START <= InodeBlock(n) < |w.v| && InodeBlock(n) < BLOCK_START + BITS
    ensures (forall m :: 0 <= m < |w.t| ==> SameFile(w.v, w.t[m].addrs, w'.v)) <==> Harmless(w, n, x)
  {
    hide FsOk, SoundWorld, SameFile, Spilt, OverRecord, MapBit;
    SpiltFields(w, w', n, x);
    if Harmless(w, n, x) {
      HarmlessOk(w, w', n, x);
    } else if forall m :: 0 <= m < |w.t| ==> SameFile(w.v, w.t[m].addrs, w'.v) {
      FsOkSound(w);
      MarkedOwned(w, InodeBlock(n));
      KeyOf(w, InodeBlock(n));
      var key := w.owner[InodeBlock(n)];
      SameOwned(w.v, w.t[key.inum].addrs, w'.v, key.slot);
    }
  }

  lemma KeyOf(w: World, p: nat)
    requires SoundWorld(w) && p in w.owner
    ensures var k := w.owner[p];
      k.inum < |w.t| && Good(k.slot) && At(w.v, w.t[k.inum].addrs, k.slot) == p && 0 < p < |w.v|
  {
    hide TableOk, Marked, At;
    assert Trees(w.t)[w.owner[p].inum] == w.t[w.owner[p].inum].addrs;
  }

  // ---------------------------------------------------------------- an input

  /** An input: number 128 on a device whose first data block holds the root. The record that stood first
      in the root, `.`, now leads to an inode that does not exist. */
  lemma RootSpilt(w: World, w': World, kind: uint16, now: uint32)
    requires FsOk(w) && Spilt(w, w', NINODES, NewInode(NINODES, kind, now))
    requires w.t[0].addrs[0] == BLOCK_START && w.t[0].size >= D.ENTRY_SIZE
    ensures |w'.t| == NINODES && |Records(w', 0)| > 0
    ensures Records(w', 0)[0].kind == NINODES && Records(w', 0)[0].inum >= NINODES
    ensures !FsOk(w')
  {
    hide SoundWorld, OverRecord, Spilt, MapBit, Encode, Words, Numbered, Solid, D.CString, WordAt, NumbersOk;
    var x := NewInode(NINODES, kind, now);
    SpiltFields(w, w', NINODES, x);
    var b := w'.v[BLOCK_START];
    FirstWords(w.v[BLOCK_START], x);
    var c := File(w', 0);
    FirstBytes(w', 0);
    FirstRecord(c, b);
    BrokenLink(w');
  }

  lemma BrokenLink(w: World)
    requires |w.t| > 0 && w.t[0].kind == T_DIR && |Records(w, 0)| > 0
    requires Records(w, 0)[0].kind == NINODES <= Records(w, 0)[0].inum
    ensures !FsOk(w)
  {
    hide SoundWorld, Numbered, Solid, NumbersOk, Records;
    assert !LinkOk(w, Records(w, 0)[0]);
    assert FsOk(w) ==> FileOk(w, 0);
  }

  lemma FirstWords(b: Block, x: Inode)
    requires x.inum == NINODES && x.nlink == 1
    ensures WordAt(OverRecord(b, NINODES, x), 0) == NINODES && WordAt(OverRecord(b, NINODES, x), 4) == x.kind + 0x1_0000
  {
    hide Encode, WordAt;
    var r, e := OverRecord(b, NINODES, x), Encode(x, 0);
    EncodedWord(x, 0, 0);
    EncodedWord(x, 0, 1);
    assert r[..8] == e[..8];
    SameWordAt(r, e, 0);
    SameWordAt(r, e, 4);
  }

  lemma SameWordAt(r: seq<byte>, e: seq<byte>, o: nat)
    requires o + 4 <= 8 <= |r| && 8 <= |e| && r[..8] == e[..8]
    ensures WordAt(r, o) == WordAt(e, o)
  {
    assert forall k :: 0 <= k < 8 ==> r[k] == r[..8][k] && e[k] == e[..8][k];
  }

  lemma FirstBytes(w: World, n: nat)
    requires n < |w.t| && w.t[n].addrs[0] == BLOCK_START < |w.v| && w.t[n].size >= D.ENTRY_SIZE
    ensures |File(w, n)| >= 8 && File(w, n)[..8] == w.v[BLOCK_START][..8] && |Records(w, n)| > 0
    ensures Records(w, n)[0] == D.EntryAt(File(w, n), 0)
  {
    hide D.EntryAt;
    var c := File(w, n);
    forall k | 0 <= k < 8 ensures c[k] == w.v[BLOCK_START][k] {
      assert Lookup(w.v, w.t[n].addrs, 0) == BLOCK_START;
    }
  }

  lemma FirstRecord(c: seq<byte>, b: Block)
    requires |c| >= D.ENTRY_SIZE && c[..8] == b[..8] && WordAt(b, 0) == NINODES
    ensures D.EntryAt(c, 0).kind == NINODES && D.EntryAt(c, 0).inum == WordAt(b, 4)
  {
    hide D.CString, WordAt;
    var r := c[D.ENTRY_SIZE * 0..D.ENTRY_SIZE * 0 + D.ENTRY_SIZE];
    assert r[..8] == c[..8];
    SameWordAt(r, b, 0);
    SameWordAt(r, b, 4);
    LowHalf(r);
  }

  lemma LowHalf(r: seq<byte>)
    requires |r| >= 4 && WordAt(r, 0) == NINODES
    ensures r[0] as int + 0x100 * r[1] as int == NINODES
  {
  }
}
