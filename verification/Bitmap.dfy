/** The data bitmap: one block of 4096 bits, bit i standing for data block 35 + i. */
module Bitmap {
  import opened Bytes
  import opened BlockTree

  const BITS := 8 * BSIZE

  /** `1 << k`. */
  function Shift(k: nat): (s: nat)
    ensures s > 0
  {
    if k == 0 then 1 else 2 * Shift(k - 1)
  }

  /** `x & (1 << k)`. */
  predicate Bit(x: nat, k: nat) {
    if k == 0 then x % 2 == 1 else Bit(x / 2, k - 1)
  }

  /** Setting a clear bit of an `n`-bit number is an addition that stays within `n` bits. */
  lemma {:induction false} BitOfSet(n: nat, x: nat, k: nat, m: nat)
    requires k < n && m < n && x < Shift(n) && !Bit(x, k)
    ensures x + Shift(k) < Shift(n)
    ensures Bit(x + Shift(k), m) <==> m == k || Bit(x, m)
  {
    var h := x / 2;
    if k == 0 {
      assert x == 2 * h && h < Shift(n - 1);
      assert (x + 1) / 2 == h;
    } else {
      var s := Shift(k - 1);
      assert Shift(k) == 2 * s && h < Shift(n - 1);
      Halved(x, s);
      BitOfSet(n - 1, h, k - 1, if m == 0 then 0 else m - 1);
    }
  }

  lemma Halved(x: nat, s: nat)
    ensures (x + 2 * s) / 2 == x / 2 + s && (x + 2 * s) % 2 == x % 2
  {
  }

  lemma {:induction false} BitsOfFull(n: nat, x: nat, k: nat)
    requires k < n && x == Shift(n) - 1
    ensures Bit(x, k)
  {
    if k > 0 {
      var h := Shift(n - 1) - 1;
      assert x == 2 * h + 1;
      assert x / 2 == h;
      BitsOfFull(n - 1, h, k - 1);
    }
  }

  predicate MapBit(b: Block, i: nat)
    requires i < BITS
  {
    Bit(b[i / 8], i % 8)
  }

  lemma MapBitOfSet(b: Block, i: nat, b': Block, j: nat)
    requires i < BITS && j < BITS && !MapBit(b, i)
    requires |b'| == BSIZE && b'[i / 8] == b[i / 8] + Shift(i % 8)
    requires forall k :: 0 <= k < BSIZE && k != i / 8 ==> b'[k] == b[k]
    ensures MapBit(b', j) <==> j == i || MapBit(b, j)
  {
    if i / 8 == j / 8 {
      assert Shift(8) == 0x100;
      BitOfSet(8, b[i / 8], i % 8, j % 8);
    }
  }

  /** The bitmap block marks exactly the owned blocks. */
  ghost predicate Marked(b: Block, owner: map<nat, Key>) {
    && (forall i :: 0 <= i < BITS ==> (MapBit(b, i) <==> BLOCK_START + i in owner))
    && (forall p :: p in owner ==> p < BLOCK_START + BITS)
  }

  lemma ByteOfSet(x: byte, k: nat)
    requires k < 8 && !Bit(x, k)
    ensures x + Shift(k) < 0x100
  {
    assert Shift(8) == 0x100;
    BitOfSet(8, x, k, k);
  }

  /** A byte 0xFF holds no clear bit. */
  lemma FullByte(b: Block, k: nat)
    requires k < BSIZE && b[k] == 0xFF
    ensures forall i :: 8 * k <= i < 8 * k + 8 ==> MapBit(b, i)
  {
    assert Shift(8) == 0x100;
    forall i | 8 * k <= i < 8 * k + 8 ensures MapBit(b, i) {
      BitsOfFull(8, b[k], i % 8);
    }
  }

  lemma MapBitSet(b: Block, i: nat, b': Block)
    requires i < BITS && !MapBit(b, i) && |b'| == BSIZE
    requires 0 <= b[i / 8] + Shift(i % 8) < 0x100 && b' == b[i / 8 := b[i / 8] + Shift(i % 8)]
    ensures forall j :: 0 <= j < BITS ==> (MapBit(b', j) <==> j == i || MapBit(b, j))
  {
    forall j | 0 <= j < BITS ensures MapBit(b', j) <==> j == i || MapBit(b, j) {
      MapBitOfSet(b, i, b', j);
    }
  }

  // ---------------------------------------------------------------- counting

  ghost function SetBits(b: Block): set<nat> {
    set i: nat | i < BITS && MapBit(b, i)
  }

  ghost function AllSlots(): set<Slot> {
    (set i: nat | i < NADDRS :: Top(i)) +
    (set i: nat, j: nat | NDIRECT <= i < NADDRS && j < IPTRS :: Sub(Top(i), j)) +
    (set i: nat, j: nat | i < IPTRS && j < IPTRS :: Sub(Sub(Top(12), i), j))
  }

  lemma AllSlotsGood(s: Slot)
    ensures s in AllSlots() <==> Good(s)
  {
    if Good(s) {
      match s
      case Top(_) =>
      case Sub(Top(_), _) =>
      case Sub(Sub(_, _), _) =>
    }
  }

  /** Every non-empty slot of every tree: as many as all trees have blocks. */
  ghost function TreeSlots(v: seq<Block>, t: seq<Addrs>): set<Key> {
    set i: nat, s: Slot | i < |t| && s in AllSlots() && At(v, t[i], s) != 0 :: Key(i, s)
  }

  lemma {:induction false} InjectiveSize<X(!new), Y>(m: map<X, Y>)
    requires forall x, y :: x in m && y in m && m[x] == m[y] ==> x == y
    ensures |m.Keys| == |m.Values|
    decreases |m|
  {
    if m.Keys == {} {
      assert m.Values == {};
    } else {
      var x :| x in m;
      var m' := m - {x};
      InjectiveSize(m');
      assert m.Keys == m'.Keys + {x};
      assert m.Values == m'.Values + {m[x]} by {
        forall y | y in m.Values ensures y in m'.Values + {m[x]} {
          var k :| k in m && m[k] == y;
          if k != x { assert k in m' && m'[k] == y; }
        }
      }
    }
  }

  lemma OwnerCountsTrees(v: seq<Block>, t: seq<Addrs>, owner: map<nat, Key>)
    requires Owned(v, t, owner)
    ensures |owner| == |TreeSlots(v, t)|
  {
    InjectiveSize(owner);
    forall k ensures k in TreeSlots(v, t) <==> k in owner.Values {
      AllSlotsGood(k.slot);
      if k in TreeSlots(v, t) {
        assert owner[At(v, t[k.inum], k.slot)] == k;
      }
    }
    assert TreeSlots(v, t) == owner.Values;
  }

  lemma OwnerCountsBits(b: Block, owner: map<nat, Key>)
    requires Marked(b, owner) && forall p :: p in owner ==> BLOCK_START <= p
    ensures |owner| == |SetBits(b)|
  {
    var m := map p | p in owner :: p - BLOCK_START;
    InjectiveSize(m);
    assert m.Keys == owner.Keys;
    forall i: nat | i in SetBits(b) ensures i in m.Values {
      assert BLOCK_START + i in m && m[BLOCK_START + i] == i;
    }
    assert m.Values == SetBits(b);
  }

  /** Conservation: the number of set bits is the total number of blocks in all trees. */
  lemma BitsCountTrees(v: seq<Block>, b: Block, t: seq<Addrs>, owner: map<nat, Key>)
    requires Owned(v, t, owner) && Marked(b, owner)
    ensures |SetBits(b)| == |owner| == |TreeSlots(v, t)|
  {
    OwnerCountsTrees(v, t, owner);
    OwnerCountsBits(b, owner);
  }
}
