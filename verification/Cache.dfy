/** The write-back block cache in front of the disk. */
module Cache {
  import opened Bytes
  import opened Disk
  import opened Lru

  const CACHE_CAPACITY := 1024

  datatype Entry = Entry(blockno: uint32, data: Block, dirty: bool, prev: int, next: int)

  predicate Cached(es: seq<Entry>, b: int) {
    exists i :: 0 <= i < |es| && es[i].blockno == b
  }

  /** `vs` is what a reader must see: every used entry holds the current bytes of its
      block, no block is held twice, clean entries agree with the disk `ds`, and a block
      that differs from the disk is held by the cache. */
  ghost predicate Coherent(es: seq<Entry>, ds: seq<Block>, vs: seq<Block>) {
    && |ds| == |vs|
    && (forall i :: 0 <= i < |es| ==>
          && es[i].blockno < |vs| && vs[es[i].blockno] == es[i].data
          && (!es[i].dirty ==> ds[es[i].blockno] == es[i].data))
    && (forall i, j :: 0 <= i < j < |es| ==> es[i].blockno != es[j].blockno)
    && (forall b :: 0 <= b < |vs| && vs[b] != ds[b] ==> Cached(es, b))
  }

  /** The used entries and the two ends of the recency list. */
  datatype State = State(es: seq<Entry>, head: int, tail: int)

  function LinksOf(s: State): (l: Links)
    ensures |l.prev| == |l.next| == |s.es|
  {
    Links(seq(|s.es|, i requires 0 <= i < |s.es| => s.es[i].prev),
          seq(|s.es|, i requires 0 <= i < |s.es| => s.es[i].next), s.head, s.tail)
  }

  /** The state with its list replaced and its blocks kept. */
  function Relinked(s: State, l: Links): (r: State)
    requires |l.prev| == |l.next| == |s.es|
    ensures SameData(s.es, r.es) && LinksOf(r) == l
  {
    State(seq(|s.es|, i requires 0 <= i < |s.es| => s.es[i].(prev := l.prev[i], next := l.next[i])), l.head, l.tail)
  }

  predicate SameData(es: seq<Entry>, es': seq<Entry>) {
    && |es'| == |es|
    && forall i :: 0 <= i < |es| ==>
         es'[i].blockno == es[i].blockno && es'[i].data == es[i].data && es'[i].dirty == es[i].dirty
  }

  lemma SameDataCoherent(es: seq<Entry>, es': seq<Entry>, ds: seq<Block>, vs: seq<Block>)
    requires SameData(es, es') && Coherent(es, ds, vs)
    ensures Coherent(es', ds, vs)
  {
    forall b | 0 <= b < |vs| && vs[b] != ds[b] ensures Cached(es', b) {
      var i :| 0 <= i < |es| && es[i].blockno == b;
      assert es'[i].blockno == b;
    }
  }

  /** `Coherent` while entry `e` is being replaced: it vouches for no block. */
  ghost predicate CoherentBut(es: seq<Entry>, e: nat, ds: seq<Block>, vs: seq<Block>) {
    && |ds| == |vs|
    && (forall i :: 0 <= i < |es| && i != e ==>
          && es[i].blockno < |vs| && vs[es[i].blockno] == es[i].data
          && (!es[i].dirty ==> ds[es[i].blockno] == es[i].data))
    && (forall i, j :: 0 <= i < j < |es| && i != e && j != e ==> es[i].blockno != es[j].blockno)
    && (forall b :: 0 <= b < |vs| && vs[b] != ds[b] ==> CachedBut(es, e, b))
  }

  predicate CachedBut(es: seq<Entry>, e: nat, b: int) {
    exists i :: 0 <= i < |es| && i != e && es[i].blockno == b
  }

  /** A victim whose bytes have reached the disk is no longer needed. */
  lemma EvictCoherent(es: seq<Entry>, e: nat, ds: seq<Block>, vs: seq<Block>, ds': seq<Block>)
    requires Coherent(es, ds, vs) && e < |es|
    requires ds' == if es[e].dirty then ds[es[e].blockno := es[e].data] else ds
    ensures CoherentBut(es, e, ds', vs)
  {
    forall b | 0 <= b < |vs| && vs[b] != ds'[b] ensures CachedBut(es, e, b) {
      assert vs[b] != ds[b];
      var i :| 0 <= i < |es| && es[i].blockno == b;
      assert i != e;
    }
  }

  lemma ExtendCoherent(es: seq<Entry>, ds: seq<Block>, vs: seq<Block>, x: Entry)
    requires Coherent(es, ds, vs)
    ensures CoherentBut(es + [x], |es|, ds, vs)
  {
    forall b | 0 <= b < |vs| && vs[b] != ds[b] ensures CachedBut(es + [x], |es|, b) {
      var i :| 0 <= i < |es| && es[i].blockno == b;
      assert (es + [x])[i].blockno == b;
    }
  }

  /** Refilling the free entry with block `b` makes `d` the block's current content. */
  lemma FillCoherent(es: seq<Entry>, e: nat, ds: seq<Block>, vs: seq<Block>, es': seq<Entry>, b: uint32, d: Block)
    requires CoherentBut(es, e, ds, vs) && e < |es| && b < |vs| && !CachedBut(es, e, b)
    requires |es'| == |es| && es'[e].blockno == b && es'[e].data == d
    requires !es'[e].dirty ==> ds[b] == d
    requires forall i :: 0 <= i < |es| && i != e ==>
               es'[i].blockno == es[i].blockno && es'[i].data == es[i].data && es'[i].dirty == es[i].dirty
    ensures vs[b] == ds[b]
    ensures Coherent(es', ds, vs[b := d])
  {
    forall c | 0 <= c < |vs| && vs[b := d][c] != ds[c] ensures Cached(es', c) {
      if c == b {
        assert es'[e].blockno == c;
      } else {
        var i :| 0 <= i < |es| && i != e && es[i].blockno == c;
        assert es'[i].blockno == c;
      }
    }
  }

  /** Overwriting a used entry changes that block only. */
  lemma OverwriteCoherent(es: seq<Entry>, e: nat, ds: seq<Block>, vs: seq<Block>, es': seq<Entry>, d: Block)
    requires Coherent(es, ds, vs) && e < |es|
    requires |es'| == |es| && es'[e].blockno == es[e].blockno && es'[e].data == d && es'[e].dirty
    requires forall i :: 0 <= i < |es| && i != e ==>
               es'[i].blockno == es[i].blockno && es'[i].data == es[i].data && es'[i].dirty == es[i].dirty
    ensures Coherent(es', ds, vs[es[e].blockno := d])
  {
    forall c | 0 <= c < |vs| && vs[es[e].blockno := d][c] != ds[c] ensures Cached(es', c) {
      if c == es[e].blockno {
        assert es'[e].blockno == c;
      } else {
        var i :| 0 <= i < |es| && es[i].blockno == c;
        assert es'[i].blockno == c;
      }
    }
  }

  lemma CleanVictim(es: seq<Entry>, e: nat, ds: seq<Block>, vs: seq<Block>, es': seq<Entry>)
    requires CoherentBut(es, e, ds, vs) && e < |es| && es' == es[e := es[e].(dirty := false)]
    ensures CoherentBut(es', e, ds, vs)
  {
    forall b | 0 <= b < |vs| && vs[b] != ds[b] ensures CachedBut(es', e, b) {
      var i :| 0 <= i < |es| && i != e && es[i].blockno == b;
      assert es'[i].blockno == b;
    }
  }

  lemma CleanCoherent(es: seq<Entry>, e: nat, ds: seq<Block>, vs: seq<Block>, es': seq<Entry>)
    requires Coherent(es, ds, vs) && e < |es| && es' == es[e := es[e].(dirty := false)]
    ensures Coherent(es', ds[es[e].blockno := es[e].data], vs)
  {
    forall b | 0 <= b < |vs| && vs[b] != ds[es[e].blockno := es[e].data][b] ensures Cached(es', b) {
      var i :| 0 <= i < |es| && es[i].blockno == b;
      assert es'[i].blockno == b;
    }
  }

  lemma NotCachedBut(es: seq<Entry>, es': seq<Entry>, e: nat, b: int)
    requires !Cached(es, b) && |es| <= |es'| <= |es| + 1 && (|es'| > |es| ==> e == |es|)
    requires forall i :: 0 <= i < |es| ==> es'[i].blockno == es[i].blockno
    ensures !CachedBut(es', e, b)
  {
    forall i | 0 <= i < |es'| && i != e ensures es'[i].blockno != b {
      assert es[i].blockno != b;
    }
  }

  lemma RelinkedUnique(s: State, s': State, l: Links)
    requires |l.prev| == |l.next| == |s.es| && SameData(s.es, s'.es) && LinksOf(s') == l
    ensures s' == Relinked(s, l)
  {
    forall i | 0 <= i < |s.es| ensures s'.es[i] == Relinked(s, l).es[i] {
      assert LinksOf(s').prev[i] == s'.es[i].prev && LinksOf(s').next[i] == s'.es[i].next;
    }
  }

  /** The three steps of `detach` on the entries themselves. */
  function UnlinkNext(s: State, e: nat): State
    requires e < |s.es| && NIL <= s.es[e].prev < |s.es|
  {
    var p := s.es[e].prev;
    if p != NIL then s.(es := s.es[p := s.es[p].(next := s.es[e].next)]) else s.(head := s.es[e].next)
  }

  function UnlinkPrev(s: State, e: nat): State
    requires e < |s.es| && NIL <= s.es[e].next < |s.es|
  {
    var q := s.es[e].next;
    if q != NIL then s.(es := s.es[q := s.es[q].(prev := s.es[e].prev)]) else s.(tail := s.es[e].prev)
  }

  lemma DetachSteps(s: State, e: nat)
    requires Bounded(LinksOf(s)) && e < |s.es|
    ensures NIL <= s.es[e].prev < |s.es|
    ensures var s1 := UnlinkNext(s, e);
      && NIL <= s1.es[e].next < |s.es|
      && var s2 := UnlinkPrev(s1, e);
         s2.(es := s2.es[e := s2.es[e].(prev := NIL, next := NIL)]) == Relinked(s, Detached(LinksOf(s), e))
  {
    hide Detached, Relinked;
    var l := LinksOf(s);
    assert l.prev[e] == s.es[e].prev && l.next[e] == s.es[e].next;
    var s1 := UnlinkNext(s, e);
    NextUnlinked(s, e);
    var s2 := UnlinkPrev(s1, e);
    PrevUnlinked(s1, e);
    var s3 := s2.(es := s2.es[e := s2.es[e].(prev := NIL, next := NIL)]);
    Cleared(s2, e);
    DetachedIs(l, e);
    RelinkedUnique(s, s3, Detached(l, e));
  }

  lemma NextUnlinked(s: State, e: nat)
    requires e < |s.es| && NIL <= s.es[e].prev < |s.es|
    ensures var s1, p := UnlinkNext(s, e), s.es[e].prev;
      && SameData(s.es, s1.es)
      && LinksOf(s1) == (if p != NIL then LinksOf(s).(next := LinksOf(s).next[p := s.es[e].next]) else LinksOf(s).(head := s.es[e].next))
  {
    var s1, p := UnlinkNext(s, e), s.es[e].prev;
    assert LinksOf(s1).prev == LinksOf(s).prev;
    assert LinksOf(s1).next == if p != NIL then LinksOf(s).next[p := s.es[e].next] else LinksOf(s).next;
  }

  lemma PrevUnlinked(s: State, e: nat)
    requires e < |s.es| && NIL <= s.es[e].next < |s.es|
    ensures var s1, q := UnlinkPrev(s, e), s.es[e].next;
      && SameData(s.es, s1.es)
      && LinksOf(s1) == (if q != NIL then LinksOf(s).(prev := LinksOf(s).prev[q := s.es[e].prev]) else LinksOf(s).(tail := s.es[e].prev))
  {
    var s1, q := UnlinkPrev(s, e), s.es[e].next;
    assert LinksOf(s1).next == LinksOf(s).next;
    assert LinksOf(s1).prev == if q != NIL then LinksOf(s).prev[q := s.es[e].prev] else LinksOf(s).prev;
  }

  lemma Cleared(s: State, e: nat)
    requires e < |s.es|
    ensures var s1 := s.(es := s.es[e := s.es[e].(prev := NIL, next := NIL)]);
      && SameData(s.es, s1.es)
      && LinksOf(s1) == LinksOf(s).(prev := LinksOf(s).prev[e := NIL], next := LinksOf(s).next[e := NIL])
  {
    var s1 := s.(es := s.es[e := s.es[e].(prev := NIL, next := NIL)]);
    assert LinksOf(s1).prev == LinksOf(s).prev[e := NIL] && LinksOf(s1).next == LinksOf(s).next[e := NIL];
  }

  /** The three steps of `detach` on the links alone. */
  lemma DetachedIs(l: Links, e: nat)
    requires Bounded(l) && e < |l.next|
    ensures var l1 := if l.prev[e] != NIL then l.(next := l.next[l.prev[e] := l.next[e]]) else l.(head := l.next[e]);
      && NIL <= l1.next[e] < |l.next|
      && var l2 := if l1.next[e] != NIL then l1.(prev := l1.prev[l1.next[e] := l1.prev[e]]) else l1.(tail := l1.prev[e]);
         Detached(l, e) == l2.(prev := l2.prev[e := NIL], next := l2.next[e := NIL])
  {
  }

  lemma AttachSteps(s: State, e: nat)
    requires Bounded(LinksOf(s)) && e < |s.es|
    ensures var s1 := s.(es := s.es[e := s.es[e].(prev := s.tail, next := NIL)]);
      var s2 := if s.tail != NIL then s1.(es := s1.es[s.tail := s1.es[s.tail].(next := e)]) else s1;
      s2.(head := if s.head == NIL then e else s.head, tail := e) == Relinked(s, Attached(LinksOf(s), e))
  {
    var s1 := s.(es := s.es[e := s.es[e].(prev := s.tail, next := NIL)]);
    var s2 := if s.tail != NIL then s1.(es := s1.es[s.tail := s1.es[s.tail].(next := e)]) else s1;
    var s3 := s2.(head := if s.head == NIL then e else s.head, tail := e);
    assert LinksOf(s3) == Attached(LinksOf(s), e);
    RelinkedUnique(s, s3, Attached(LinksOf(s), e));
  }

  // ---------------------------------------------------------------- recency

  /** The list is intact: `o` enumerates all used entries from head to tail. */
  ghost predicate Listed(s: State, o: seq<nat>) {
    && Chain(LinksOf(s), o) && |o| == |s.es|
    && forall i: nat :: i < |s.es| ==> i in o
  }

  /** Block numbers in recency order. */
  function Numbers(es: seq<Entry>, o: seq<nat>): (r: seq<nat>)
    requires forall k :: 0 <= k < |o| ==> o[k] < |es|
    ensures |r| == |o|
  {
    seq(|o|, k requires 0 <= k < |o| => es[o[k]].blockno)
  }

  lemma NumbersDistinct(es: seq<Entry>, o: seq<nat>)
    requires forall i, j :: 0 <= i < j < |es| ==> es[i].blockno != es[j].blockno
    requires Distinct(o) && forall k :: 0 <= k < |o| ==> o[k] < |es|
    ensures Distinct(Numbers(es, o))
  {
    forall i, j | 0 <= i < j < |o| ensures Numbers(es, o)[i] != Numbers(es, o)[j] {
      assert o[i] != o[j];
    }
  }

  /** Moving the entry of `b` to the tail, or refilling the head entry with `b` and
      moving it to the tail, is `Touch` on the block numbers. */
  lemma MovedToTail(es: seq<Entry>, es': seq<Entry>, o: seq<nat>, k: nat, b: nat)
    requires k < |o| <= CACHE_CAPACITY && forall i :: 0 <= i < |o| ==> o[i] < |es| && (i != k ==> o[i] != o[k])
    requires Distinct(Numbers(es, o))
    requires |es'| == |es| && es'[o[k]].blockno == b
    requires forall i :: 0 <= i < |es| && i != o[k] ==> es'[i].blockno == es[i].blockno
    requires es[o[k]].blockno == b || (k == 0 && |o| == CACHE_CAPACITY && b !in Numbers(es, o))
    ensures forall i :: 0 <= i < |o| ==> (Drop(o, k) + [o[k]])[i] < |es|
    ensures Numbers(es', Drop(o, k) + [o[k]]) == Touch(Numbers(es, o), b, CACHE_CAPACITY)
  {
    var r := Numbers(es, o);
    var o' := Drop(o, k) + [o[k]];
    forall i | 0 <= i < |o| - 1 ensures o'[i] < |es| && o'[i] != o[k] && es[o'[i]].blockno == Drop(r, k)[i] {
      var m := if i < k then i else i + 1;
      assert o'[i] == o[m] && Drop(r, k)[i] == r[m];
    }
    assert Numbers(es', o') == Drop(r, k) + [b];
    if es[o[k]].blockno == b {
      assert r[k] == b;
      WithoutIsDrop(r, k);
    } else {
      assert Drop(r, 0) == r[1..];
    }
  }

  lemma DropKeepsAll(o: seq<nat>, k: nat, n: nat)
    requires k < |o| && forall i: nat :: i < n ==> i in o
    ensures forall i: nat :: i < n ==> i in Drop(o, k) + [o[k]]
  {
    var o' := Drop(o, k) + [o[k]];
    forall i: nat | i < n ensures i in o' {
      assert i in o;
      var m :| 0 <= m < |o| && o[m] == i;
      assert if m < k then o'[m] == i else if m > k then o'[m - 1] == i else o'[|o| - 1] == i;
    }
  }

  lemma Position(o: seq<nat>, e: nat) returns (k: nat)
    requires e in o
    ensures k < |o| && o[k] == e
  {
    k :| k < |o| && o[k] == e;
  }

  /** A listed entry holding `b`, or the head entry refilled with `b`, moves to the tail. */
  lemma RelinkedToTail(s: State, s': State, o: seq<nat>, k: nat, b: nat)
    requires Listed(s, o) && k < |o| && |s'.es| == |s.es| <= CACHE_CAPACITY
    requires o[k] < |s.es| && LinksOf(s') == Attached(Detached(LinksOf(s), o[k]), o[k])
    requires Distinct(Numbers(s.es, o)) && s'.es[o[k]].blockno == b
    requires forall i :: 0 <= i < |s.es| && i != o[k] ==> s'.es[i].blockno == s.es[i].blockno
    requires s.es[o[k]].blockno == b || (k == 0 && |s.es| == CACHE_CAPACITY && b !in Numbers(s.es, o))
    ensures Listed(s', Drop(o, k) + [o[k]])
    ensures Numbers(s'.es, Drop(o, k) + [o[k]]) == Touch(Numbers(s.es, o), b, CACHE_CAPACITY)
  {
    RelinkedChain(s, s', o, k);
    MovedToTail(s.es, s'.es, o, k, b);
  }

  lemma RelinkedChain(s: State, s': State, o: seq<nat>, k: nat)
    requires Listed(s, o) && k < |o| && |s'.es| == |s.es|
    requires o[k] < |s.es| && LinksOf(s') == Attached(Detached(LinksOf(s), o[k]), o[k])
    ensures Listed(s', Drop(o, k) + [o[k]])
    ensures forall i :: 0 <= i < |o| ==> o[i] < |s.es| && (i != k ==> o[i] != o[k])
  {
    hide Chain, Detached, Attached, LinksOf, Bounded;
    ListedBelow(s, o);
    DetachedChain(LinksOf(s), o, k);
    AttachedChain(Detached(LinksOf(s), o[k]), Drop(o, k), o[k]);
    DropKeepsAll(o, k, |s.es|);
  }

  lemma AppendedToTail(s: State, s': State, o: seq<nat>, b: nat)
    requires Listed(s, o) && |s'.es| == |s.es| + 1 <= CACHE_CAPACITY
    requires LinksOf(s') == Attached(Extended(LinksOf(s)), |s.es|)
    requires s'.es[|s.es|].blockno == b && b !in Numbers(s.es, o)
    requires forall i :: 0 <= i < |s.es| ==> s'.es[i].blockno == s.es[i].blockno
    ensures Listed(s', o + [|s.es|])
    ensures Numbers(s'.es, o + [|s.es|]) == Touch(Numbers(s.es, o), b, CACHE_CAPACITY)
  {
    hide Attached, Chain, LinksOf;
    ExtendedChain(LinksOf(s), o);
    ListedBelow(s, o);
    AttachedChain(Extended(LinksOf(s)), o, |s.es|);
    AppendedAll(o, |s.es|);
    assert Numbers(s'.es, o + [|s.es|]) == Numbers(s.es, o) + [b];
  }

  lemma ListedBelow(s: State, o: seq<nat>)
    requires Listed(s, o)
    ensures Bounded(LinksOf(s)) && Distinct(o) && |LinksOf(s).next| == |s.es|
    ensures forall k :: 0 <= k < |o| ==> o[k] < |s.es|
  {
  }

  lemma AppendedAll(o: seq<nat>, n: nat)
    requires forall i: nat :: i < n ==> i in o
    ensures forall i: nat :: i < n + 1 ==> i in o + [n]
  {
  }

  lemma NumbersOfListed(es: seq<Entry>, ds: seq<Block>, vs: seq<Block>, o: seq<nat>, b: nat)
    requires Coherent(es, ds, vs) && Distinct(o) && forall k :: 0 <= k < |o| ==> o[k] < |es|
    ensures Distinct(Numbers(es, o))
    ensures !Cached(es, b) ==> b !in Numbers(es, o)
  {
    NumbersDistinct(es, o);
    if b in Numbers(es, o) {
      var i :| 0 <= i < |o| && Numbers(es, o)[i] == b;
      assert es[o[i]].blockno == b;
    }
  }

  // ---------------------------------------------------------------- one operation at a time

  /** The invariant of the cache over disk `ds`, seen by readers as `vs`. */
  ghost predicate Inv(s: State, ds: seq<Block>, vs: seq<Block>) {
    Coherent(s.es, ds, vs) && Sane(LinksOf(s)) && |s.es| <= CACHE_CAPACITY
  }

  /** The recency list before and after an access to `b`; says nothing unless the list
      was intact before. */
  ghost predicate Touched(s: State, o: seq<nat>, s': State, o': seq<nat>, b: nat) {
    Listed(s, o) ==>
      Listed(s', o') && Numbers(s'.es, o') == Touch(Numbers(s.es, o), b, CACHE_CAPACITY)
  }

  /** A run of accesses to the blocks `h`, none of them a write miss: each state follows from
      the one before it by one access, starting from an empty cache. */
  ghost predicate AccessRun(ss: seq<State>, os: seq<seq<nat>>, h: seq<nat>) {
    && |ss| == |os| == |h| + 1
    && ss[0].es == [] && Listed(ss[0], os[0])
    && forall i :: 0 <= i < |h| ==> Touched(ss[i], os[i], ss[i + 1], os[i + 1], h[i])
  }

  /** After such a run the list is intact and holds the blocks in the order of their last
      use, so the entry at its head is the least recently used of all. */
  lemma {:induction false} HeadIsLeastRecent(ss: seq<State>, os: seq<seq<nat>>, h: seq<nat>)
    requires AccessRun(ss, os, h)
    ensures var s, o := ss[|h|], os[|h|];
      && Listed(s, o) && Numbers(s.es, o) == Recent(h, CACHE_CAPACITY)
      && forall i: nat :: i < |s.es| ==>
           0 <= s.head < |s.es| && LastUse(h, s.es[s.head].blockno) <= LastUse(h, s.es[i].blockno)
  {
    RunRecent(ss, os, h);
    RecentSorted(h, CACHE_CAPACITY);
    var s, o := ss[|h|], os[|h|];
    forall i: nat | i < |s.es|
      ensures 0 <= s.head < |s.es| && LastUse(h, s.es[s.head].blockno) <= LastUse(h, s.es[i].blockno)
    {
      var k := Position(o, i);
      assert s.head == o[0] && Numbers(s.es, o)[0] == s.es[s.head].blockno;
      assert Numbers(s.es, o)[k] == s.es[i].blockno;
    }
  }

  lemma {:induction false} RunRecent(ss: seq<State>, os: seq<seq<nat>>, h: seq<nat>)
    requires AccessRun(ss, os, h)
    ensures Listed(ss[|h|], os[|h|]) && Numbers(ss[|h|].es, os[|h|]) == Recent(h, CACHE_CAPACITY)
  {
    hide Listed, Numbers, Touch;
    var n := |h|;
    if n == 0 {
      EmptyListed(ss[0], os[0]);
    } else {
      RunRecent(ss[..n], os[..n], h[..n - 1]);
      assert Touched(ss[n - 1], os[n - 1], ss[n], os[n], h[n - 1]);
    }
  }

  lemma EmptyListed(s: State, o: seq<nat>)
    requires s.es == [] && Listed(s, o)
    ensures forall k :: 0 <= k < |o| ==> o[k] < |s.es|
    ensures Numbers(s.es, o) == []
  {
  }

  lemma InvBlocks(s: State, ds: seq<Block>, vs: seq<Block>)
    requires Inv(s, ds, vs)
    ensures |ds| == |vs| && |AllocDisk(s, ds)| == |ds| && Sane(LinksOf(s)) && |s.es| <= CACHE_CAPACITY
    ensures forall i :: 0 <= i < |s.es| ==> s.es[i].blockno < |vs| && s.es[i].data == vs[s.es[i].blockno]
  {
  }

  function MovedBack(s: State, e: nat): State
    requires Bounded(LinksOf(s)) && e < |s.es|
  {
    var s1 := Relinked(s, Detached(LinksOf(s), e));
    Relinked(s1, Attached(LinksOf(s1), e))
  }

  lemma MovedBackData(s: State, e: nat)
    requires Bounded(LinksOf(s)) && e < |s.es|
    ensures SameData(s.es, MovedBack(s, e).es)
    ensures Bounded(LinksOf(Relinked(s, Detached(LinksOf(s), e))))
  {
  }

  lemma HitStep(s: State, ds: seq<Block>, vs: seq<Block>, o: seq<nat>, e: nat) returns (o': seq<nat>)
    requires Inv(s, ds, vs) && e < |s.es|
    ensures Inv(MovedBack(s, e), ds, vs) && SameData(s.es, MovedBack(s, e).es)
    ensures Touched(s, o, MovedBack(s, e), o', s.es[e].blockno)
  {
    o' := o;
    var s' := MovedBack(s, e);
    SameDataCoherent(s.es, s'.es, ds, vs);
    if Listed(s, o) {
      var k := Position(o, e);
      NumbersOfListed(s.es, ds, vs, o, 0);
      RelinkedToTail(s, s', o, k, s.es[e].blockno);
      o' := Drop(o, k) + [e];
    }
  }

  function SetEntry(s: State, e: nat, x: Entry): State
    requires e < |s.es|
  {
    s.(es := s.es[e := x])
  }

  /** `alloc_entry`: the entry handed out, the state left behind and the disk after a
      possible write-back. */
  function AllocIndex(s: State): int {
    if |s.es| < CACHE_CAPACITY then |s.es| else s.head
  }

  function AllocState(s: State): (s': State)
    requires Sane(LinksOf(s)) && |s.es| <= CACHE_CAPACITY
    ensures 0 <= AllocIndex(s) < |s'.es|
    ensures s'.es[AllocIndex(s)].prev == NIL && s'.es[AllocIndex(s)].next == NIL
  {
    if |s.es| < CACHE_CAPACITY then
      s.(es := s.es + [Entry(0, Zero(), false, NIL, NIL)])
    else
      var s1 := Relinked(s, Detached(LinksOf(s), s.head));
      SetEntry(s1, s.head, s1.es[s.head].(dirty := false))
  }

  function AllocDisk(s: State, ds: seq<Block>): seq<Block>
    requires Sane(LinksOf(s)) && forall i :: 0 <= i < |s.es| ==> s.es[i].blockno < |ds|
  {
    if |s.es| < CACHE_CAPACITY || !s.es[s.head].dirty then ds
    else ds[s.es[s.head].blockno := s.es[s.head].data]
  }

  /** The disk after a miss: the block at the head of the list has been pushed if no entry was unused and its bytes
      were newer; no other sector is touched. */
  ghost predicate DiskAfter(s: State, ds: seq<Block>, ds': seq<Block>) {
    if |s.es| < 1024 then ds' == ds
    else
      && 0 <= s.head < |s.es|
      && var x := s.es[s.head];
         if x.dirty then x.blockno < |ds| && ds' == ds[x.blockno := x.data] else ds' == ds
  }

  lemma AllocDiskIs(s: State, ds: seq<Block>)
    requires Sane(LinksOf(s)) && forall i :: 0 <= i < |s.es| ==> s.es[i].blockno < |ds|
    ensures DiskAfter(s, ds, AllocDisk(s, ds))
  {
  }

  lemma UnusedTaken(s: State, s': State, ds: seq<Block>)
    requires Sane(LinksOf(s)) && |s.es| < CACHE_CAPACITY && forall i :: 0 <= i < |s.es| ==> s.es[i].blockno < |ds|
    requires |s'.es| == |s.es| + 1 && s'.es[..|s.es|] == s.es && s'.head == s.head && s'.tail == s.tail
    ensures s' == SetEntry(AllocState(s), |s.es|, s'.es[|s.es|]) && AllocDisk(s, ds) == ds
  {
    hide LinksOf, Bounded, Detached, Relinked;
  }

  /** The head entry, once detached, still holds what it held. */
  lemma EvictedParts(s: State, ds: seq<Block>)
    requires Sane(LinksOf(s)) && |s.es| == CACHE_CAPACITY && forall i :: 0 <= i < |s.es| ==> s.es[i].blockno < |ds|
    ensures Bounded(LinksOf(s)) && 0 <= s.head < |s.es|
    ensures var s1, e := Relinked(s, Detached(LinksOf(s), s.head)), s.head;
      && |s1.es| == |s.es| && s1.es[e].dirty == s.es[e].dirty && s1.es[e].blockno == s.es[e].blockno
      && s1.es[e].data == s.es[e].data && s1.es[e].prev == NIL && s1.es[e].next == NIL
    ensures AllocDisk(s, ds) == if s.es[s.head].dirty then ds[s.es[s.head].blockno := s.es[s.head].data] else ds
  {
  }

  lemma EvictedIs(s: State, s': State)
    requires Sane(LinksOf(s)) && |s.es| == CACHE_CAPACITY && 0 <= s.head < |s.es| == |s'.es|
    requires var s1 := Relinked(s, Detached(LinksOf(s), s.head));
      |s1.es| == |s.es| && s' == s1.(es := s1.es[s.head := s'.es[s.head]])
    ensures s' == SetEntry(AllocState(s), s.head, s'.es[s.head])
  {
    hide LinksOf, Bounded, Detached, Relinked;
  }

  lemma AllocStep(s: State, ds: seq<Block>, vs: seq<Block>, b: nat)
    requires Inv(s, ds, vs) && !Cached(s.es, b)
    ensures CoherentBut(AllocState(s).es, AllocIndex(s), AllocDisk(s, ds), vs)
    ensures !CachedBut(AllocState(s).es, AllocIndex(s), b)
  {
    var e := AllocIndex(s);
    if |s.es| < CACHE_CAPACITY {
      ExtendCoherent(s.es, ds, vs, Entry(0, Zero(), false, NIL, NIL));
    } else {
      var s1 := Relinked(s, Detached(LinksOf(s), e));
      SameDataCoherent(s.es, s1.es, ds, vs);
      EvictCoherent(s1.es, e, ds, vs, AllocDisk(s, ds));
      CleanVictim(s1.es, e, AllocDisk(s, ds), vs, AllocState(s).es);
    }
    NotCachedBut(s.es, AllocState(s).es, e, b);
  }

  function Filled(s: State, b: uint32, d: Block, dirty: bool): (r: State)
    requires Sane(LinksOf(s)) && |s.es| <= CACHE_CAPACITY
    ensures |r.es| == Min(|s.es| + 1, CACHE_CAPACITY) && 0 <= AllocIndex(s) < |r.es|
  {
    SetEntry(AllocState(s), AllocIndex(s), Entry(b, d, dirty, NIL, NIL))
  }

  lemma FilledLinks(s: State, b: uint32, d: Block, dirty: bool)
    requires Sane(LinksOf(s)) && |s.es| <= CACHE_CAPACITY
    ensures LinksOf(Filled(s, b, d, dirty)) ==
            if |s.es| < CACHE_CAPACITY then Extended(LinksOf(s)) else Detached(LinksOf(s), s.head)
    ensures Bounded(LinksOf(Filled(s, b, d, dirty)))
  {
    if |s.es| < CACHE_CAPACITY {
      assert LinksOf(Filled(s, b, d, dirty)) == Extended(LinksOf(s));
    } else {
      assert LinksOf(Filled(s, b, d, dirty)) == Detached(LinksOf(s), s.head);
    }
  }

  /** A read miss fills the entry with block `b` and appends it to the list. */
  function ReadFilled(s: State, b: uint32, d: Block): State
    requires Sane(LinksOf(s)) && |s.es| <= CACHE_CAPACITY
  {
    var s1 := Filled(s, b, d, false);
    FilledLinks(s, b, d, false);
    Relinked(s1, Attached(LinksOf(s1), AllocIndex(s)))
  }

  lemma ReadMissStep(s: State, ds: seq<Block>, vs: seq<Block>, o: seq<nat>, b: uint32) returns (o': seq<nat>)
    requires Inv(s, ds, vs) && b < |vs| && !Cached(s.es, b)
    ensures vs[b] == AllocDisk(s, ds)[b]
    ensures Inv(ReadFilled(s, b, vs[b]), AllocDisk(s, ds), vs)
    ensures Touched(s, o, ReadFilled(s, b, vs[b]), o', b)
  {
    var s1, e := AllocState(s), AllocIndex(s);
    var s' := ReadFilled(s, b, vs[b]);
    FilledLinks(s, b, vs[b], false);
    AllocStep(s, ds, vs, b);
    FreeBlock(s1.es, e, AllocDisk(s, ds), vs, b);
    FillCoherent(s1.es, e, AllocDisk(s, ds), vs, s'.es, b, vs[b]);
    assert vs[b := vs[b]] == vs;
    o' := ReadMissListed(s, s', ds, vs, o, b);
  }

  lemma ReadMissListed(s: State, s': State, ds: seq<Block>, vs: seq<Block>, o: seq<nat>, b: uint32) returns (o': seq<nat>)
    requires Inv(s, ds, vs) && b < |vs| && !Cached(s.es, b)
    requires s' == ReadFilled(s, b, vs[b])
    ensures Touched(s, o, s', o', b)
  {
    o' := o;
    if Listed(s, o) {
      ReadFilledShape(s, b, vs[b]);
      NumbersOfListed(s.es, ds, vs, o, b);
      if |s.es| < CACHE_CAPACITY {
        AppendedToTail(s, s', o, b);
        o' := o + [|s.es|];
      } else {
        RelinkedToTail(s, s', o, 0, b);
        o' := Drop(o, 0) + [o[0]];
      }
    }
  }

  lemma ReadFilledShape(s: State, b: uint32, d: Block)
    requires Sane(LinksOf(s)) && |s.es| <= CACHE_CAPACITY
    ensures var s', e := ReadFilled(s, b, d), AllocIndex(s);
      && |s'.es| == Min(|s.es| + 1, CACHE_CAPACITY) && 0 <= e < |s'.es| && s'.es[e].blockno == b
      && (forall i :: 0 <= i < |s.es| && i != e ==> s'.es[i].blockno == s.es[i].blockno)
      && LinksOf(s') == Attached(if |s.es| < CACHE_CAPACITY then Extended(LinksOf(s)) else Detached(LinksOf(s), s.head), e)
  {
    FilledLinks(s, b, d, false);
  }

  lemma FreeBlock(es: seq<Entry>, e: nat, ds: seq<Block>, vs: seq<Block>, b: nat)
    requires CoherentBut(es, e, ds, vs) && b < |vs| && !CachedBut(es, e, b)
    ensures vs[b] == ds[b]
  {
  }

  /** A write miss fills the entry, detaches it although it is on no list, and appends it. */
  function WriteFilled(s: State, b: uint32, d: Block): State
    requires Sane(LinksOf(s)) && |s.es| <= CACHE_CAPACITY
  {
    FilledLinks(s, b, d, true);
    MovedBack(Filled(s, b, d, true), AllocIndex(s))
  }

  /** The bytes may as well be stored after the list has been rearranged. */
  lemma FillAfterMove(s: State, b: uint32, d: Block, was: Block)
    requires Sane(LinksOf(s)) && |s.es| <= CACHE_CAPACITY
    ensures Bounded(LinksOf(Filled(s, b, was, false)))
    ensures var e, s1 := AllocIndex(s), MovedBack(Filled(s, b, was, false), AllocIndex(s));
      WriteFilled(s, b, d) == SetEntry(s1, e, s1.es[e].(data := d, dirty := true))
  {
    FilledLinks(s, b, was, false);
    FilledLinks(s, b, d, true);
  }

  lemma WriteMissStep(s: State, ds: seq<Block>, vs: seq<Block>, b: uint32, d: Block)
    requires Inv(s, ds, vs) && b < |vs| && !Cached(s.es, b)
    ensures Inv(WriteFilled(s, b, d), AllocDisk(s, ds), vs[b := d])
    ensures var s' := WriteFilled(s, b, d);
      0 <= s'.head < |s'.es| && s'.es[s'.head].blockno == b && Chain(LinksOf(s'), [s'.head])
  {
    hide Coherent, Bounded, LinksOf, AllocState, AllocDisk, Cached, SameData, Attached, Detached, Relinked, MovedBack, Filled;
    WriteFilledLinks(s, b, d);
    WriteFilledCoherent(s, ds, vs, b, d);
  }

  lemma WriteFilledLinks(s: State, b: uint32, d: Block)
    requires Sane(LinksOf(s)) && |s.es| <= CACHE_CAPACITY
    ensures var s', e := WriteFilled(s, b, d), AllocIndex(s);
      && |s'.es| <= CACHE_CAPACITY && Sane(LinksOf(s'))
      && s'.head == e && 0 <= e < |s'.es| && s'.es[e].blockno == b && Chain(LinksOf(s'), [e])
  {
    hide AllocState, Chain;
    var s2, e := Filled(s, b, d, true), AllocIndex(s);
    FilledLinks(s, b, d, true);
    assert LinksOf(s2).prev[e] == NIL && LinksOf(s2).next[e] == NIL;
    DetachUnlisted(LinksOf(s2), e);
    ChainHead(LinksOf(WriteFilled(s, b, d)), e);
  }

  lemma ChainHead(l: Links, e: nat)
    requires Chain(l, [e])
    ensures l.head == e < |l.next|
  {
    assert [e][0] == e;
  }

  lemma WriteFilledCoherent(s: State, ds: seq<Block>, vs: seq<Block>, b: uint32, d: Block)
    requires Inv(s, ds, vs) && b < |vs| && !Cached(s.es, b)
    ensures Coherent(WriteFilled(s, b, d).es, AllocDisk(s, ds), vs[b := d])
  {
    var s1, e := AllocState(s), AllocIndex(s);
    FilledLinks(s, b, d, true);
    AllocStep(s, ds, vs, b);
    FillCoherent(s1.es, e, AllocDisk(s, ds), vs, WriteFilled(s, b, d).es, b, d);
  }

  /** Changing an entry in place without touching its links. */
  lemma SetEntryListed(s: State, e: nat, x: Entry, o: seq<nat>)
    requires e < |s.es| && x.blockno == s.es[e].blockno && x.prev == s.es[e].prev && x.next == s.es[e].next
    ensures LinksOf(SetEntry(s, e, x)) == LinksOf(s)
    ensures Listed(s, o) ==> Listed(SetEntry(s, e, x), o) && Numbers(SetEntry(s, e, x).es, o) == Numbers(s.es, o)
  {
    assert LinksOf(SetEntry(s, e, x)) == LinksOf(s);
  }

  lemma WriteHitStep(s0: State, o0: seq<nat>, s: State, ds: seq<Block>, vs: seq<Block>, o: seq<nat>, e: nat, d: Block)
    requires Inv(s, ds, vs) && e < |s.es| && Touched(s0, o0, s, o, s.es[e].blockno)
    ensures s.es[e].blockno < |vs|
    ensures var s' := SetEntry(s, e, s.es[e].(data := d, dirty := true));
      Inv(s', ds, vs[s.es[e].blockno := d]) && Touched(s0, o0, s', o, s.es[e].blockno)
  {
    var x := s.es[e].(data := d, dirty := true);
    OverwriteCoherent(s.es, e, ds, vs, SetEntry(s, e, x).es, d);
    SetEntryListed(s, e, x, o);
  }

  /** Writing a dirty entry back to the disk. */
  lemma CleanStep(s: State, ds: seq<Block>, vs: seq<Block>, e: nat)
    requires Inv(s, ds, vs) && e < |s.es|
    ensures s.es[e].blockno < |ds|
    ensures var s' := SetEntry(s, e, s.es[e].(dirty := false));
      Inv(s', ds[s.es[e].blockno := s.es[e].data], vs) && SameListing(s, s')
  {
    var x := s.es[e].(dirty := false);
    CleanCoherent(s.es, e, ds, vs, SetEntry(s, e, x).es);
    SetEntryListed(s, e, x, []);
    forall o | Listed(s, o)
      ensures Listed(SetEntry(s, e, x), o) && Numbers(SetEntry(s, e, x).es, o) == Numbers(s.es, o)
    {
      SetEntryListed(s, e, x, o);
    }
  }

  /** The recency list, if intact, is the same list of blocks. */
  ghost predicate SameListing(s: State, s': State) {
    forall o :: Listed(s, o) ==> Listed(s', o) && Numbers(s'.es, o) == Numbers(s.es, o)
  }

  lemma SameListingRefl(s: State)
    ensures SameListing(s, s)
  {
  }

  lemma SameListingTrans(s: State, s1: State, s2: State)
    requires SameListing(s, s1) && SameListing(s1, s2)
    ensures SameListing(s, s2)
  {
  }

  lemma AllClean(s: State, ds: seq<Block>, vs: seq<Block>)
    requires Inv(s, ds, vs) && forall i :: 0 <= i < |s.es| ==> !s.es[i].dirty
    ensures ds == vs
  {
    forall b | 0 <= b < |vs| ensures ds[b] == vs[b] {
      if vs[b] != ds[b] { assert Cached(s.es, b); }
    }
  }

  class BlockCache {
    const disk: Disk
    const arr: array<Entry>
    var size: nat
    var head: int
    var tail: int
    var hits: nat
    var misses: nat
    /** The flat block store that the cache and the disk together stand for. */
    ghost var contents: seq<Block>
    /** The entries from head to tail while the list is intact. */
    ghost var order: seq<nat>

    ghost predicate Valid()
      reads this, arr, disk.data
    {
      && disk.Valid() && arr.Length == CACHE_CAPACITY && size <= CACHE_CAPACITY
      && Inv(Now(), disk.Blocks(), contents)
    }

    ghost function Now(): (s: State)
      requires size <= arr.Length
      reads this, arr
    {
      State(arr[..size], head, tail)
    }

    constructor (disk: Disk)
      requires disk.Valid()
      ensures Valid() && fresh(arr) && this.disk == disk
      ensures contents == disk.Blocks() && size == 0 && Listed(Now(), order)
    {
      this.disk := disk;
      arr := new Entry[CACHE_CAPACITY](i => Entry(0, Zero(), false, NIL, NIL));
      size, head, tail, hits, misses := 0, NIL, NIL, 0, 0;
      contents, order := disk.Blocks(), [];
    }

    method Put(i: nat, x: Entry)
      requires size <= arr.Length && i < size
      modifies arr
      ensures arr[..size] == old(arr[..size])[i := x]
    {
      arr[i] := x;
    }

    method Detach(e: nat)
      requires size <= arr.Length && e < size && Bounded(LinksOf(Now()))
      modifies this`head, this`tail, arr
      ensures Now() == Relinked(old(Now()), Detached(LinksOf(old(Now())), e))
    {
      DetachSteps(Now(), e);
      if arr[e].prev != NIL {
        Put(arr[e].prev, arr[arr[e].prev].(next := arr[e].next));
      } else {
        head := arr[e].next;
      }
      assert Now() == UnlinkNext(old(Now()), e);
      if arr[e].next != NIL {
        Put(arr[e].next, arr[arr[e].next].(prev := arr[e].prev));
      } else {
        tail := arr[e].prev;
      }
      assert Now() == UnlinkPrev(UnlinkNext(old(Now()), e), e);
      Put(e, arr[e].(prev := NIL, next := NIL));
    }

    method AttachTail(e: nat)
      requires size <= arr.Length && e < size && Bounded(LinksOf(Now()))
      modifies this`head, this`tail, arr
      ensures Now() == Relinked(old(Now()), Attached(LinksOf(old(Now())), e))
    {
      AttachSteps(Now(), e);
      Put(e, arr[e].(prev := tail, next := NIL));
      if tail != NIL {
        Put(tail, arr[tail].(next := e));
      }
      tail := e;
      if head == NIL {
        head := e;
      }
    }

    /** The index of the used entry for block `b`, or `size`. */
    method Find(b: uint32) returns (i: nat)
      requires size <= arr.Length
      ensures i <= size
      ensures i < size ==> arr[i].blockno == b
      ensures i == size <==> !Cached(arr[..size], b)
    {
      i := 0;
      while i < size
        invariant i <= size
        invariant forall j :: 0 <= j < i ==> arr[j].blockno != b
      {
        if arr[i].blockno == b {
          assert arr[..size][i].blockno == b;
          return;
        }
        i := i + 1;
      }
    }

    method FetchBlock(b: uint32) returns (r: Block)
      requires disk.Valid() && b < disk.ncyl * disk.nsec
      ensures r == disk.Blocks()[b]
    {
      hide Sectors;
      AddressBijection(disk.ncyl, disk.nsec, b, b / disk.nsec, b % disk.nsec);
      var x := disk.CmdR(b / disk.nsec, b % disk.nsec);
      r := x.value;
    }

    method PushBlock(b: uint32, d: Block)
      requires disk.Valid() && b < disk.ncyl * disk.nsec
      modifies disk.data
      ensures disk.Blocks() == old(disk.Blocks())[b := d]
    {
      hide Sectors;
      AddressBijection(disk.ncyl, disk.nsec, b, b / disk.nsec, b % disk.nsec);
      var _ := disk.CmdW(b / disk.nsec, b % disk.nsec, BSIZE, d);
      assert d[..BSIZE] + Zero()[BSIZE..] == d;
    }

    /** A free entry: an unused one while there is one, else the head of the list, its
        bytes pushed to the disk first if they are newer. */
    method AllocEntry() returns (e: nat)
      requires Valid()
      modifies this`size, this`head, this`tail, arr, disk.data
      ensures e < size <= arr.Length && arr[e].prev == NIL && arr[e].next == NIL && !arr[e].dirty
      ensures e == AllocIndex(old(Now()))
      ensures Now() == SetEntry(AllocState(old(Now())), e, arr[e])
      ensures disk.Blocks() == AllocDisk(old(Now()), old(disk.Blocks()))
      ensures e == if old(size) < 1024 then old(size) else old(head)
      ensures DiskAfter(old(Now()), old(disk.Blocks()), disk.Blocks())
    {
      hide Coherent, LinksOf, Bounded, Detached, Relinked, Sectors, AllocState, AllocDisk, SetEntry, DiskAfter;
      ghost var s, ds := Now(), disk.Blocks();
      InvBlocks(s, ds, contents);
      AllocDiskIs(s, ds);
      if size < CACHE_CAPACITY {
        e := size;
        size := size + 1;
        Put(e, arr[e].(dirty := false, prev := NIL, next := NIL));
        UnusedTaken(s, Now(), ds);
        return;
      }
      EvictedParts(s, ds);
      e := head;
      Detach(e);
      if arr[e].dirty {
        PushBlock(arr[e].blockno, arr[e].data);
        Put(e, arr[e].(dirty := false));
      }
      EvictedIs(s, Now());
    }

    /** The current content of block `b`. */
    method CacheRead(b: uint32) returns (r: Block)
      requires Valid() && b < |contents|
      modifies this, arr, disk.data
      ensures Valid() && contents == old(contents)
      ensures r == contents[b]
      ensures Touched(old(Now()), old(order), Now(), order, b)
      ensures hits == old(hits) + (if old(Cached(arr[..size], b)) then 1 else 0)
      ensures misses == old(misses) + (if old(Cached(arr[..size], b)) then 0 else 1)
      ensures if old(Cached(arr[..size], b)) then disk.Blocks() == old(disk.Blocks())
              else DiskAfter(old(Now()), old(disk.Blocks()), disk.Blocks())
    {
      hide DiskAfter, Sectors, Touched;
      var e := Find(b);
      if e < size {
        hits := hits + 1;
        MoveToTail(e);
        return arr[e].data;
      }
      r := ReadMiss(b);
    }

    /** The start of every miss: an entry for block `b` with the bytes that the disk has of it. */
    method Refill(b: uint32) returns (e: nat, was: Block)
      requires Valid() && b < |contents|
      modifies this`size, this`head, this`tail, arr, disk.data
      ensures e == AllocIndex(old(Now())) && e < size <= arr.Length && Sane(LinksOf(old(Now()))) && old(size) <= CACHE_CAPACITY
      ensures Now() == Filled(old(Now()), b, was, false)
      ensures |disk.Blocks()| == |contents| && was == disk.Blocks()[b]
      ensures disk.Blocks() == AllocDisk(old(Now()), old(disk.Blocks()))
      ensures DiskAfter(old(Now()), old(disk.Blocks()), disk.Blocks())
    {
      hide Coherent, LinksOf, Bounded, Detached, Relinked, Sectors, AllocState, AllocDisk, DiskAfter;
      InvBlocks(Now(), disk.Blocks(), contents);
      e := AllocEntry();
      was := FetchBlock(b);
      Put(e, arr[e].(blockno := b, data := was));
    }

    method ReadMiss(b: uint32) returns (r: Block)
      requires Valid() && b < |contents| && !Cached(arr[..size], b)
      modifies this, arr, disk.data
      ensures hits == old(hits) && misses == old(misses) + 1
      ensures DiskAfter(old(Now()), old(disk.Blocks()), disk.Blocks())
      ensures Valid() && contents == old(contents)
      ensures r == contents[b]
      ensures Touched(old(Now()), old(order), Now(), order, b)
    {
      hide Touched, Attached, Detached, Coherent, Bounded, LinksOf, Listed, AllocState, AllocDisk, Chain, Numbers, Sectors, Cached, SameData, Relinked, MovedBack, DiskAfter, Filled;
      misses := misses + 1;
      ghost var s, ds := Now(), disk.Blocks();
      InvBlocks(s, ds, contents);
      order := ReadMissStep(s, ds, contents, order, b);
      var e;
      e, r := Refill(b);
      FilledLinks(s, b, r, false);
      AttachTail(e);
    }

    method MoveToTail(e: nat)
      requires Valid() && e < size
      modifies this`head, this`tail, this`order, arr
      ensures Valid() && Now() == MovedBack(old(Now()), e)
      ensures arr[e].blockno == old(arr[e].blockno) && arr[e].data == old(arr[e].data)
      ensures Touched(old(Now()), old(order), Now(), order, old(arr[e].blockno))
    {
      hide Touched, Attached, Detached, Coherent, Listed, Sectors, Relinked;
      order := HitStep(Now(), disk.Blocks(), contents, order, e);
      MovedBackData(Now(), e);
      Detach(e);
      AttachTail(e);
    }

    /** Block `b` becomes `d`. On a miss the recency list is cut down to this one entry. */
    method CacheWrite(b: uint32, d: Block)
      requires Valid() && b < |contents|
      modifies this, arr, disk.data
      ensures Valid() && contents == old(contents)[b := d]
      ensures old(Cached(arr[..size], b)) ==> Touched(old(Now()), old(order), Now(), order, b)
      ensures !old(Cached(arr[..size], b)) ==>
                && size == Min(old(size) + 1, CACHE_CAPACITY)
                && 0 <= head < size && arr[head].blockno == b
                && Chain(LinksOf(Now()), [head])
      ensures hits == old(hits) + (if old(Cached(arr[..size], b)) then 1 else 0)
      ensures misses == old(misses) + (if old(Cached(arr[..size], b)) then 0 else 1)
      ensures if old(Cached(arr[..size], b)) then disk.Blocks() == old(disk.Blocks())
              else DiskAfter(old(Now()), old(disk.Blocks()), disk.Blocks())
    {
      hide DiskAfter, Sectors, Touched;
      var e := Find(b);
      if e < size {
        hits := hits + 1;
        WriteHit(e, d);
        return;
      }
      WriteMiss(b, d);
    }

    method WriteHit(e: nat, d: Block)
      requires Valid() && e < size
      modifies this, arr
      ensures hits == old(hits) && misses == old(misses)
      ensures Valid() && contents == old(contents)[old(arr[e].blockno) := d]
      ensures Touched(old(Now()), old(order), Now(), order, old(arr[e].blockno))
    {
      hide Inv, Touched, Sectors, SameData, Relinked, MovedBack, Listed;
      MoveToTail(e);
      ghost var s := Now();
      Put(e, arr[e].(data := d, dirty := true));
      assert Now() == SetEntry(s, e, arr[e]);
      WriteHitStep(old(Now()), old(order), s, disk.Blocks(), contents, order, e, d);
      contents := contents[arr[e].blockno := d];
    }

    method WriteMiss(b: uint32, d: Block)
      requires Valid() && b < |contents| && !Cached(arr[..size], b)
      modifies this, arr, disk.data
      ensures hits == old(hits) && misses == old(misses) + 1
      ensures DiskAfter(old(Now()), old(disk.Blocks()), disk.Blocks())
      ensures Valid() && contents == old(contents)[b := d]
      ensures size == Min(old(size) + 1, CACHE_CAPACITY)
      ensures 0 <= head < size && arr[head].blockno == b && Chain(LinksOf(Now()), [head])
    {
      hide Touched, Attached, Detached, Coherent, Bounded, LinksOf, Listed, AllocState, AllocDisk, Chain, Numbers, Sectors, Cached, SameData, Relinked, DiskAfter, Filled;
      misses := misses + 1;
      ghost var s := Now();
      InvBlocks(s, disk.Blocks(), contents);
      WriteMissStep(s, disk.Blocks(), contents, b, d);
      var e, was := Refill(b);
      FillAfterMove(s, b, d, was);
      Detach(e);
      AttachTail(e);
      Put(e, arr[e].(data := d, dirty := true));
      assert Now() == WriteFilled(s, b, d);
      contents := contents[b := d];
    }

    /** After a flush the disk itself is the flat store. */
    method CacheFlush()
      requires Valid()
      modifies this, arr, disk.data
      ensures Valid() && contents == old(contents)
      ensures disk.Blocks() == contents
      ensures SameListing(old(Now()), Now())
    {
      hide Inv, SameListing, Sectors;
      SameListingRefl(Now());
      var i := 0;
      while i < size
        invariant i <= size == old(size) && contents == old(contents)
        invariant Valid()
        invariant SameListing(old(Now()), Now())
        invariant forall k :: 0 <= k < i ==> !arr[..size][k].dirty
      {
        if arr[i].dirty {
          ghost var s := Now();
          CleanStep(s, disk.Blocks(), contents, i);
          InvBlocks(s, disk.Blocks(), contents);
          PushBlock(arr[i].blockno, arr[i].data);
          Put(i, arr[i].(dirty := false));
          assert Now() == SetEntry(s, i, s.es[i].(dirty := false));
          SameListingTrans(old(Now()), s, Now());
        }
        i := i + 1;
      }
      AllClean(Now(), disk.Blocks(), contents);
    }
  }
}
