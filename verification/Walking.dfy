/** Walking through directories: paths as text, what they resolve to, and what a walk may change. */
module Walking {
  import opened Bytes
  import opened Results
  import opened BlockTree
  import opened Bitmap
  import opened Inodes
  import opened Growth
  import opened Files
  import opened InodeCache
  import opened World
  import opened Writes
  import opened BlockZero
  import opened Commands
  import opened DirOps
  import D = Directory

  const ROOT_INUM: uint32 := 0
  const SEPARATOR: byte := 0x2F

  // ---------------------------------------------------------------- paths as text

  /** Everything before the first separator. */
  function Segment(s: seq<byte>): (r: seq<byte>)
    ensures |r| <= |s| && (s != [] && s[0] != SEPARATOR ==> r != [])
  {
    if s == [] || s[0] == SEPARATOR then [] else [s[0]] + Segment(s[1..])
  }

  /** The segments `strtok_r` returns. */
  function Tokens(s: seq<byte>): seq<seq<byte>>
    decreases |s|
  {
    if s == [] then []
    else if s[0] == SEPARATOR then Tokens(s[1..])
    else [Segment(s)] + Tokens(s[|Segment(s)|..])
  }

  lemma {:induction false} SegmentJoin(p: seq<byte>, q: seq<byte>)
    ensures Segment(p + [SEPARATOR] + q) == Segment(p)
  {
    if p != [] && p[0] != SEPARATOR {
      assert (p + [SEPARATOR] + q)[1..] == p[1..] + [SEPARATOR] + q;
      SegmentJoin(p[1..], q);
    }
  }

  lemma {:induction false} TokensJoin(p: seq<byte>, q: seq<byte>)
    ensures Tokens(p + [SEPARATOR] + q) == Tokens(p) + Tokens(q)
    decreases |p|
  {
    var s := p + [SEPARATOR] + q;
    if p == [] {
      assert s[1..] == q;
    } else if p[0] == SEPARATOR {
      assert s[1..] == p[1..] + [SEPARATOR] + q;
      TokensJoin(p[1..], q);
    } else {
      var m := |Segment(p)|;
      SegmentJoin(p, q);
      assert s[m..] == p[m..] + [SEPARATOR] + q;
      TokensJoin(p[m..], q);
      assert [Segment(p)] + (Tokens(p[m..]) + Tokens(q)) == [Segment(p)] + Tokens(p[m..]) + Tokens(q);
    }
  }

  /** `strrchr`: the index of the last separator, -1 if there is none. */
  function LastSeparator(s: seq<byte>): (i: int)
    ensures -1 <= i < |s| && (i >= 0 ==> s[i] == SEPARATOR) && forall j :: i < j < |s| ==> s[j] != SEPARATOR
  {
    if s == [] then -1
    else if s[|s| - 1] == SEPARATOR then |s| - 1
    else LastSeparator(s[..|s| - 1])
  }

  datatype Split = Split(dir: seq<byte>, leaf: seq<byte>)

  /** `split_path`. */
  function SplitPath(path: seq<byte>): Split {
    var i := LastSeparator(path);
    if i < 0 then Split([], path)
    else if i == 0 then Split([SEPARATOR], path[1..])
    else Split(path[..i], path[i + 1..])
  }

  /** Without a separator there is one segment, or none. */
  lemma {:induction false} TokensPlain(s: seq<byte>)
    requires forall i :: 0 <= i < |s| ==> s[i] != 0x2F
    ensures Tokens(s) == if s == [] then [] else [s]
  {
    if s != [] { SegmentPlain(s); }
  }

  lemma {:induction false} SegmentPlain(s: seq<byte>)
    requires forall i :: 0 <= i < |s| ==> s[i] != SEPARATOR
    ensures Segment(s) == s
  {
    if s != [] { SegmentPlain(s[1..]); }
  }

  /** The names `cd` looks up one after the other: the segments, and the empty name if there is nothing
      behind the last separator. */
  function Names(path: seq<byte>): seq<seq<byte>> {
    Tokens(path) + if path == [] || path[|path| - 1] == 0x2F then [[]] else []
  }

  /** Splitting a path off its last name loses no name, and keeps what the path starts with. */
  lemma SplitNames(path: seq<byte>)
    ensures var s := SplitPath(path);
      && Names(path) == Tokens(s.dir) + [s.leaf]
      && (path != [] && path[0] == 0x2F <==> s.dir != [] && s.dir[0] == 0x2F)
  {
    hide Tokens;
    var s, i := SplitPath(path), LastSeparator(path);
    TokensPlain(s.leaf);
    TokensPlain([]);
    if i >= 0 {
      assert path == path[..i] + [SEPARATOR] + path[i + 1..];
      TokensJoin(path[..i], path[i + 1..]);
      if i == 0 {
        TokensJoin([], []);
        assert [] + [SEPARATOR] + [] == s.dir;
      }
    }
  }

  // ---------------------------------------------------------------- what a path means

  /** The inode one segment leads to. */
  function Step(w: World, n: nat, seg: seq<byte>): (r: Option<nat>)
    requires |w.t| == NINODES
    ensures r.Some? && n < NINODES ==> r.value < NINODES
  {
    if seg == D.DOT then Some(n) else Child(w, n, seg)
  }

  function Child(w: World, n: nat, name: seq<byte>): (r: Option<nat>)
    requires |w.t| == NINODES
    ensures r.Some? ==> r.value < NINODES
  {
    if n >= NINODES || w.t[n].kind != T_DIR then None
    else
      match D.Lookup(Records(w, n), name, T_DIR)
      case Some(m) => if m < NINODES then Some(m) else None
      case None => None
  }

  /** A left fold of single lookups. */
  function Resolve(w: World, n: nat, segs: seq<seq<byte>>): (r: Option<nat>)
    requires |w.t| == NINODES
    ensures r.Some? && n < NINODES ==> r.value < NINODES
    decreases |segs|
  {
    if segs == [] then Some(n)
    else
      match Step(w, n, segs[0])
      case Some(m) => Resolve(w, m, segs[1..])
      case None => None
  }

  lemma {:induction false} ResolveAppend(w: World, n: nat, a: seq<seq<byte>>, b: seq<seq<byte>>)
    requires |w.t| == NINODES
    ensures Resolve(w, n, a + b) == match Resolve(w, n, a) { case Some(m) => Resolve(w, m, b) case None => None }
    decreases |a|
  {
    hide Step;
    if a == [] {
      assert a + b == b;
    } else {
      assert (a + b)[1..] == a[1..] + b;
      if Step(w, n, a[0]).Some? {
        ResolveAppend(w, Step(w, n, a[0]).value, a[1..], b);
      }
    }
  }

  /** Resolving `p/q` is resolving `q` from where `p` leads. */
  lemma ResolveJoin(w: World, n: nat, p: seq<byte>, q: seq<byte>)
    requires |w.t| == NINODES
    ensures Resolve(w, n, Tokens(p + [SEPARATOR] + q)) ==
            match Resolve(w, n, Tokens(p)) { case Some(m) => Resolve(w, m, Tokens(q)) case None => None }
  {
    TokensJoin(p, q);
    ResolveAppend(w, n, Tokens(p), Tokens(q));
  }

  // ---------------------------------------------------------------- what a walk may change

  /** Every file and every inode is the same, but for access times. */
  ghost predicate Walked(w: World, w': World) {
    && |w'.t| == |w.t| && |w'.ss| == |w.ss| && |w'.refs| == |w.refs| && SameNumbers(w, w') && SameSuper(w.v, w'.v)
    && forall n :: 0 <= n < |w.t| ==>
         SameFile(w.v, w.t[n].addrs, w'.v) && w'.t[n] == w.t[n].(atime := w'.t[n].atime)
  }

  ghost predicate DirsOk(w: World) {
    forall n :: 0 <= n < |w.t| ==> DirOk(w.v, w.t[n])
  }

  lemma WalkedRefl(w: World)
    ensures Walked(w, w)
  {
    hide SameFile;
    forall n | 0 <= n < |w.t| ensures SameFile(w.v, w.t[n].addrs, w.v) {
      SameFileRefl(w.v, w.t[n].addrs);
    }
  }

  lemma WalkedTrans(w: World, w1: World, w2: World)
    requires Walked(w, w1) && Walked(w1, w2)
    ensures Walked(w, w2)
  {
    hide SameFile;
    forall n | 0 <= n < |w.t| ensures SameFile(w.v, w.t[n].addrs, w2.v) {
      SameFileTrans(w.v, w.t[n].addrs, w1.v, w2.v);
    }
  }

  lemma PeekedWalked(w: World, w': World, n: nat)
    requires Peeked(w, w', n)
    ensures Walked(w, w') && w'.refs == w.refs && SoundWorld(w')
    ensures forall i :: 0 <= i < |w.ss| ==> w'.ss[i].ino.inum == w.ss[i].ino.inum
  {
    hide SoundWorld, SameFile;
  }

  lemma AcquiredWalked(w: World, w': World, inum: uint32, r: Option<nat>)
    requires Acquired(w, w', inum, r)
    ensures Walked(w, w')
  {
    hide SameFile, Held;
    forall n | 0 <= n < |w.t| ensures SameFile(w.v, w.t[n].addrs, w.v) {
      SameFileRefl(w.v, w.t[n].addrs);
    }
  }

  lemma ReleasedWalked(w: World, k: nat)
    requires SoundWorld(w) && k < |w.ss| && w.ss[k].ino.inum < NINODES
    ensures |w.refs| == NINODES && BLOCK_START <= |w.v| && w.ss[k].refs > 0
    ensures Walked(w, Released(w, k))
  {
    ReleasedSound(w, k);
    StoredSuper(w.v, w.ss[k].ino, 0);
    hide SameFile, SoundWorld, Stored;
  }

  lemma WalkedRecords(w: World, w': World, n: nat)
    requires Walked(w, w') && n < |w.t|
    ensures Records(w', n) == Records(w, n) && w'.t[n].kind == w.t[n].kind
    ensures DirOk(w'.v, w'.t[n]) <==> DirOk(w.v, w.t[n])
  {
    hide SameFile, D.Entries;
    SameFileContents(w.v, w.t[n], w'.v);
    WalkedContents(w, w', n);
  }

  lemma WalkedContents(w: World, w': World, n: nat)
    requires Walked(w, w') && n < |w.t|
    ensures Contents(w'.v, w'.t[n]) == Contents(w'.v, w.t[n])
    ensures Solid(w'.v, w'.t[n]) <==> Solid(w'.v, w.t[n])
  {
    hide SameFile, Lookup, Data;
  }

  lemma {:induction false} WalkedResolve(w: World, w': World, n: nat, segs: seq<seq<byte>>)
    requires Walked(w, w') && |w.t| == NINODES
    ensures Resolve(w', n, segs) == Resolve(w, n, segs)
    decreases |segs|
  {
    hide Walked, Child;
    if segs != [] {
      WalkedStep(w, w', n, segs[0]);
      var m := Step(w, n, segs[0]);
      if m.Some? { WalkedResolve(w, w', m.value, segs[1..]); }
    }
  }

  lemma WalkedStep(w: World, w': World, n: nat, seg: seq<byte>)
    requires Walked(w, w') && |w.t| == NINODES
    ensures |w'.t| == NINODES && Step(w', n, seg) == Step(w, n, seg) && Child(w', n, seg) == Child(w, n, seg)
  {
    hide Records;
    if n < NINODES { WalkedRecords(w, w', n); }
    hide Walked, DirOk;
  }

  // ---------------------------------------------------------------- references

  /** One more reference to inode `n`. */
  function More(refs: seq<nat>, n: nat): seq<nat>
    requires n < |refs|
  {
    refs[n := refs[n] + 1]
  }

  function Less(refs: seq<nat>, n: nat): seq<nat>
    requires n < |refs| && refs[n] > 0
  {
    refs[n := refs[n] - 1]
  }

  /** Inodes someone holds a reference to. */
  ghost function InUse(refs: seq<nat>): set<nat> {
    set n: nat | n < |refs| && refs[n] > 0
  }

  lemma InUseMore(refs: seq<nat>, n: nat)
    requires n < |refs|
    ensures |InUse(More(refs, n))| <= |InUse(refs)| + 1
  {
    assert InUse(More(refs, n)) == InUse(refs) + {n};
  }

  lemma UsedSlot(w: World, k: nat)
    requires SoundWorld(w) && k < |w.ss| && w.ss[k].ino.inum != EMPTY
    ensures w.ss[k].ino.inum in InUse(w.refs)
    ensures forall j :: 0 <= j < |w.ss| && w.ss[j].ino.inum == w.ss[k].ino.inum ==> j == k
  {
    hide TreesOk;
    assert SlotOk(w.ss[k], w.t, w.refs);
  }

  lemma TableNumber(w: World, n: nat)
    requires SoundWorld(w) && n < NINODES
    ensures n < |w.t| && w.t[n].inum == n
  {
    hide TreesOk;
  }

  /** While fewer inodes are in use than the cache has slots, a slot is empty. */
  lemma SlotLeft(w: World)
    requires SoundWorld(w) && |w.ss| == NCACHE && |InUse(w.refs)| < NCACHE
    ensures Held(w.ss, EMPTY)
  {
    hide SoundWorld, InUse;
    if !Held(w.ss, EMPTY) {
      var inums := seq(NCACHE, k requires 0 <= k < NCACHE => w.ss[k].ino.inum);
      forall k | 0 <= k < NCACHE
        ensures inums[k] in InUse(w.refs) && forall j :: 0 <= j < NCACHE && inums[j] == inums[k] ==> j == k
      {
        assert w.ss[k].ino.inum != EMPTY;
        UsedSlot(w, k);
      }
      DistinctSize(inums, InUse(w.refs));
    }
  }

  ghost function SlotHolding(ss: seq<CacheSlot>, n: nat): (k: nat)
    requires Held(ss, n)
    ensures k < |ss| && ss[k].ino.inum == n
  {
    var k: nat :| k < |ss| && ss[k].ino.inum == n;
    k
  }

  /** An empty slot is one that no inode in use is in, so the inodes in use tell whether there is one. */
  lemma EmptySlot(w: World)
    requires SoundWorld(w) && |w.ss| == NCACHE
    ensures Held(w.ss, EMPTY) <==> |InUse(w.refs)| < 20
  {
    hide SoundWorld, InUse;
    if Held(w.ss, EMPTY) {
      UsedHeld(w);
      FewerHeld(w.ss, InUse(w.refs), SlotHolding(w.ss, EMPTY));
    } else if |InUse(w.refs)| < NCACHE {
      SlotLeft(w);
    }
  }

  lemma FewerHeld(ss: seq<CacheSlot>, x: set<nat>, e: nat)
    requires e < |ss| && ss[e].ino.inum == EMPTY && forall n :: n in x ==> n != EMPTY && Held(ss, n)
    ensures |x| < |ss|
  {
    hide Held;
    var m := map n | n in x :: SlotHolding(ss, n);
    assert m.Keys == x;
    forall j, k | j in m && k in m && m[j] == m[k] ensures j == k {
      assert ss[m[j]].ino.inum == j && ss[m[k]].ino.inum == k;
    }
    InjectiveSize(m);
    SubsetSize(m.Values, Below(|ss|) - {e});
    BelowSize(|ss|);
  }

  lemma UsedHeld(w: World)
    requires SoundWorld(w)
    ensures forall n :: n in InUse(w.refs) ==> n != EMPTY && Held(w.ss, n)
  {
    hide TreesOk, Held;
  }

  lemma DistinctSize(s: seq<nat>, x: set<nat>)
    requires forall k :: 0 <= k < |s| ==> s[k] in x && forall j :: 0 <= j < |s| && s[j] == s[k] ==> j == k
    ensures |s| <= |x|
  {
    var m := map k: nat | k < |s| :: s[k];
    forall j, k | j in m && k in m && m[j] == m[k] ensures j == k {
      assert s[j] == s[k];
    }
    InjectiveSize(m);
    assert m.Keys == Below(|s|);
    BelowSize(|s|);
    SubsetSize(m.Values, x);
  }

  /** Slots that were in use hold the same inodes. */
  ghost predicate KeptSlots(w: World, w': World) {
    && |w'.ss| == |w.ss|
    && forall i :: 0 <= i < |w.ss| && w.ss[i].ino.inum != EMPTY ==> w'.ss[i].ino.inum == w.ss[i].ino.inum
  }

  /** A walk started at `w` that now holds one reference of its own, in slot `c`, to inode `m`. */
  ghost predicate Holding(w: World, w': World, c: nat, m: nat) {
    && SoundWorld(w') && Walked(w, w') && KeptSlots(w, w')
    && m < |w.refs| && c < |w'.ss| && w'.ss[c].ino.inum == m && w'.refs == More(w.refs, m)
  }

  /** A walk started at `w` that holds nothing. */
  ghost predicate Empty(w: World, w': World) {
    SoundWorld(w') && Walked(w, w') && KeptSlots(w, w') && w'.refs == w.refs
  }

  lemma SoundSizes(w: World)
    requires SoundWorld(w)
    ensures |w.t| == |w.refs| == NINODES && BLOCK_START <= |w.v|
  {
    hide TreesOk;
  }

  lemma EmptyRefl(w: World)
    requires SoundWorld(w)
    ensures Empty(w, w)
  {
    hide Walked, SoundWorld;
    WalkedRefl(w);
  }

  lemma HoldingPeeked(w: World, w1: World, w2: World, c: nat, m: nat, n: nat)
    requires Holding(w, w1, c, m) && Peeked(w1, w2, n)
    ensures Holding(w, w2, c, m)
  {
    hide Walked, SoundWorld, Peeked;
    PeekedWalked(w1, w2, n);
    PeekedSizes(w1, w2, n);
    WalkedTrans(w, w1, w2);
  }

  lemma PeekedSizes(w: World, w': World, n: nat)
    requires Peeked(w, w', n)
    ensures |w'.ss| == |w.ss|
  {
    hide SoundWorld, SameFile, OthersSame;
  }
}
