/** The recency list of the block cache: prev/next links inside a fixed array, index
    -1 standing for NULL. */
module Lru {

  const NIL := -1

  datatype Links = Links(prev: seq<int>, next: seq<int>, head: int, tail: int)

  /** `detach`: `e->prev->next = e->next` (or a new head), `e->next->prev = e->prev` (or a
      new tail), then both links cleared. */
  function Detached(l: Links, e: nat): (r: Links)
    requires Bounded(l) && e < |l.next|
    ensures Bounded(r) && |r.next| == |l.next|
  {
    var next1 := if l.prev[e] != NIL then l.next[l.prev[e] := l.next[e]] else l.next;
    var head1 := if l.prev[e] != NIL then l.head else next1[e];
    var prev1 := if next1[e] != NIL then l.prev[next1[e] := l.prev[e]] else l.prev;
    var tail1 := if next1[e] != NIL then l.tail else prev1[e];
    Links(prev1[e := NIL], next1[e := NIL], head1, tail1)
  }

  /** `attach_tail`. */
  function Attached(l: Links, e: nat): (r: Links)
    requires Bounded(l) && e < |l.next|
    ensures Sane(r) && r.head != NIL && |r.next| == |l.next|
  {
    var next1 := l.next[e := NIL];
    Links(l.prev[e := l.tail], if l.tail != NIL then next1[l.tail := e] else next1,
          if l.head == NIL then e else l.head, e)
  }

  predicate Bounded(l: Links) {
    && |l.prev| == |l.next|
    && (forall i :: 0 <= i < |l.next| ==> NIL <= l.next[i] < |l.next|)
    && (forall i :: 0 <= i < |l.prev| ==> NIL <= l.prev[i] < |l.next|)
    && NIL <= l.head < |l.next| && NIL <= l.tail < |l.next|
  }

  /** What holds between operations whatever the history: links stay inside the used
      slots, and the head names a used slot as soon as there is one. */
  predicate Sane(l: Links) {
    Bounded(l) && (|l.next| > 0 ==> l.head != NIL)
  }

  // ---------------------------------------------------------------- well-shaped lists

  predicate Distinct<T(==)>(s: seq<T>) {
    forall i, j :: 0 <= i < j < |s| ==> s[i] != s[j]
  }

  function Nth(o: seq<nat>, k: int): int {
    if 0 <= k < |o| then o[k] else NIL
  }

  /** `o` lists slots from head to tail, doubly linked. */
  ghost predicate Chain(l: Links, o: seq<nat>) {
    && Bounded(l)
    && Distinct(o)
    && (forall k :: 0 <= k < |o| ==>
          o[k] < |l.next| && l.next[o[k]] == Nth(o, k + 1) && l.prev[o[k]] == Nth(o, k - 1))
    && l.head == Nth(o, 0) && l.tail == Nth(o, |o| - 1)
  }

  function Drop(o: seq<nat>, k: nat): seq<nat>
    requires k < |o|
  {
    o[..k] + o[k + 1..]
  }

  lemma DropAt(o: seq<nat>, k: nat, i: int)
    requires k < |o|
    ensures |Drop(o, k)| == |o| - 1
    ensures 0 <= i < |o| - 1 ==> Drop(o, k)[i] == if i < k then o[i] else o[i + 1]
    ensures Distinct(o) ==> Distinct(Drop(o, k)) && o[k] !in Drop(o, k)
  {
  }

  /** Detaching a listed entry joins its two neighbours and touches nothing else. */
  lemma DetachedLinks(l: Links, o: seq<nat>, k: nat, x: nat)
    requires Chain(l, o) && k < |o| && x in o && x != o[k]
    ensures x < |l.next|
    ensures var r, p, q := Detached(l, o[k]), Nth(o, k - 1), Nth(o, k + 1);
      && r.next[x] == (if x == p then q else l.next[x])
      && r.prev[x] == (if x == q then p else l.prev[x])
      && r.head == (if p == NIL then q else l.head)
      && r.tail == (if q == NIL then p else l.tail)
  {
    var e := o[k];
    assert l.prev[e] == Nth(o, k - 1) && l.next[e] == Nth(o, k + 1);
    assert l.prev[e] != e && l.next[e] != e;
  }

  /** The entries around place `i` once the entry at place `k` is gone. */
  lemma DropNth(o: seq<nat>, k: nat, i: int)
    requires k < |o|
    ensures Nth(Drop(o, k), i) == if i < k then Nth(o, i) else Nth(o, i + 1)
  {
  }

  lemma DistinctPlaces(o: seq<nat>, m: nat, k: int)
    requires Distinct(o) && m < |o|
    ensures o[m] == Nth(o, k) <==> m == k
  {
  }

  lemma ChainNext(l: Links, o: seq<nat>, m: nat)
    requires Chain(l, o) && m < |o|
    ensures o[m] in o && o[m] < |l.next| == |l.prev| && l.next[o[m]] == Nth(o, m + 1) && l.prev[o[m]] == Nth(o, m - 1)
    ensures Bounded(l) && Distinct(o)
  {
  }

  lemma DetachedStep(l: Links, o: seq<nat>, k: nat, i: nat)
    requires Chain(l, o) && k < |o| && i < |o| - 1
    ensures var r, o' := Detached(l, o[k]), Drop(o, k);
      && o'[i] < |l.next| && r.next[o'[i]] == Nth(o', i + 1) && r.prev[o'[i]] == Nth(o', i - 1)
  {
    hide Detached, Chain, Bounded, Distinct, Nth;
    var m := if i < k then i else i + 1;
    ChainNext(l, o, m);
    ChainNext(l, o, k);
    DropAt(o, k, i);
    DropNth(o, k, i - 1);
    DropNth(o, k, i + 1);
    DistinctPlaces(o, m, k);
    DistinctPlaces(o, m, k - 1);
    DistinctPlaces(o, m, k + 1);
    assert o[k] == Nth(o, k) by { DistinctPlaces(o, k, k); }
    DetachedLinks(l, o, k, o[m]);
  }

  lemma DetachedChain(l: Links, o: seq<nat>, k: nat)
    requires Chain(l, o) && k < |o|
    ensures Chain(Detached(l, o[k]), Drop(o, k))
    ensures o[k] !in Drop(o, k)
  {
    forall i | 0 <= i < |o| - 1
      ensures var r, o' := Detached(l, o[k]), Drop(o, k);
        o'[i] < |l.next| && r.next[o'[i]] == Nth(o', i + 1) && r.prev[o'[i]] == Nth(o', i - 1)
    {
      DetachedStep(l, o, k, i);
    }
    DetachedEnds(l, o, k);
    DropAt(o, k, 0);
  }

  lemma DetachedEnds(l: Links, o: seq<nat>, k: nat)
    requires Chain(l, o) && k < |o|
    ensures Detached(l, o[k]).head == Nth(Drop(o, k), 0)
    ensures Detached(l, o[k]).tail == Nth(Drop(o, k), |o| - 2)
  {
    if |o| > 1 {
      DetachedLinks(l, o, k, if k == 0 then o[1] else o[0]);
      DropAt(o, k, 0);
      DropAt(o, k, |o| - 2);
    }
  }

  lemma AttachedChain(l: Links, o: seq<nat>, e: nat)
    requires Chain(l, o) && e < |l.next| && e !in o
    ensures Chain(Attached(l, e), o + [e])
  {
    var o' := o + [e];
    var r := Attached(l, e);
    forall i | 0 <= i < |o'|
      ensures o'[i] < |r.next| && r.next[o'[i]] == Nth(o', i + 1) && r.prev[o'[i]] == Nth(o', i - 1)
    {
      if i < |o| {
        assert o[i] != e;
        if i + 1 < |o| { assert l.tail == o[|o| - 1] != o[i]; }
      }
    }
  }

  /** Detaching an entry that is not on the list, its links NULL, throws the list away:
      what is left after attaching it again is that entry alone. */
  lemma DetachUnlisted(l: Links, e: nat)
    requires Bounded(l) && e < |l.next| && l.prev[e] == NIL && l.next[e] == NIL
    ensures Chain(Attached(Detached(l, e), e), [e])
  {
  }

  /** The links with one more entry, on no list. */
  function Extended(l: Links): Links {
    Links(l.prev + [NIL], l.next + [NIL], l.head, l.tail)
  }

  lemma ExtendedChain(l: Links, o: seq<nat>)
    requires Chain(l, o)
    ensures Chain(Extended(l), o)
  {
  }

  // ---------------------------------------------------------------- recency as history

  /** The effect of one access on the recency order of block numbers. */
  function Touch(r: seq<nat>, b: nat, capacity: nat): seq<nat>
    requires 0 < capacity
  {
    if b in r then Without(r, b) + [b]
    else if |r| < capacity then r + [b]
    else r[1..] + [b]
  }

  function Without(r: seq<nat>, b: nat): (r': seq<nat>)
    requires b in r
    ensures |r'| == |r| - 1
  {
    if r[0] == b then r[1..] else [r[0]] + Without(r[1..], b)
  }

  lemma {:induction false} WithoutIsDrop(r: seq<nat>, k: nat)
    requires Distinct(r) && k < |r|
    ensures Without(r, r[k]) == Drop(r, k)
  {
    if k > 0 {
      assert r[1..][k - 1] == r[k] && r[0] != r[k];
      WithoutIsDrop(r[1..], k - 1);
      assert Drop(r, k) == [r[0]] + Drop(r[1..], k - 1);
    }
  }

  /** The recency order after a history of accesses. */
  function Recent(h: seq<nat>, capacity: nat): seq<nat>
    requires 0 < capacity
  {
    if h == [] then [] else Touch(Recent(h[..|h| - 1], capacity), h[|h| - 1], capacity)
  }

  /** One past the index of the last access to `b`, 0 if there is none. */
  function LastUse(h: seq<nat>, b: nat): (u: nat)
    ensures u <= |h|
  {
    if h == [] then 0 else if h[|h| - 1] == b then |h| else LastUse(h[..|h| - 1], b)
  }

  ghost predicate ByLastUse(h: seq<nat>, r: seq<nat>) {
    forall i, j :: 0 <= i < j < |r| ==> LastUse(h, r[i]) < LastUse(h, r[j])
  }

  lemma DropKeepsOrder(h: seq<nat>, r: seq<nat>, k: nat)
    requires Distinct(r) && ByLastUse(h, r) && k < |r|
    ensures Distinct(Drop(r, k)) && ByLastUse(h, Drop(r, k)) && r[k] !in Drop(r, k)
  {
    DropAt(r, k, 0);
  }

  lemma PushKeepsOrder(h: seq<nat>, s: seq<nat>, b: nat)
    requires Distinct(s) && ByLastUse(h, s) && b !in s
    ensures Distinct(s + [b]) && ByLastUse(h + [b], s + [b])
  {
    assert (h + [b])[..|h|] == h;
    forall i | 0 <= i < |s| ensures LastUse(h + [b], s[i]) == LastUse(h, s[i]) {
      assert s[i] != b;
    }
  }

  lemma TouchSorted(h: seq<nat>, r: seq<nat>, b: nat, capacity: nat)
    requires 0 < capacity && Distinct(r) && |r| <= capacity && ByLastUse(h, r)
    ensures var r' := Touch(r, b, capacity);
      Distinct(r') && |r'| <= capacity && ByLastUse(h + [b], r') && r' != [] && r'[|r'| - 1] == b
  {
    hide Distinct, ByLastUse;
    if b in r {
      var k :| 0 <= k < |r| && r[k] == b;
      WithoutIsDrop(r, k);
      DropKeepsOrder(h, r, k);
      PushKeepsOrder(h, Drop(r, k), b);
    } else if |r| < capacity {
      PushKeepsOrder(h, r, b);
    } else {
      DropKeepsOrder(h, r, 0);
      assert Drop(r, 0) == r[1..];
      PushKeepsOrder(h, r[1..], b);
    }
  }

  /** The list is ordered by last access and holds at most `capacity` blocks without
      repetition, so its first entry, the one evicted, is the least recently used. */
  lemma {:induction false} RecentSorted(h: seq<nat>, capacity: nat)
    requires 0 < capacity
    ensures var r := Recent(h, capacity);
      && Distinct(r) && |r| <= capacity && ByLastUse(h, r)
      && (h != [] ==> r != [] && r[|r| - 1] == h[|h| - 1])
  {
    hide Touch;
    if h != [] {
      var h0, b := h[..|h| - 1], h[|h| - 1];
      RecentSorted(h0, capacity);
      assert h == h0 + [b];
      TouchSorted(h0, Recent(h0, capacity), b, capacity);
    }
  }
}
