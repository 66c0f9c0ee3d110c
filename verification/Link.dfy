/** The cache's flush over the link as it is: every dirty block travels as the text of a write
    request, and is stored as the server parses it. */
module Link {
  import opened Bytes
  import opened Cache
  import opened Disk
  import opened Wire

  /** Block `b` is in a dirty entry among the first `n`. */
  predicate DirtyAt(es: seq<Entry>, n: nat, b: int) {
    exists i :: 0 <= i < n && i < |es| && es[i].dirty && es[i].blockno == b
  }

  /** The block is to be pushed, and begins with white space. */
  predicate Risky(e: Entry) {
    e.dirty && Blank(e.data)
  }

  predicate Blank(b: Block) {
    9 <= b[0] <= 13 || b[0] == 32
  }

  /** After the first `n` entries: their dirty blocks are stored, but for those that begin with
      white space, and nothing else has changed. */
  ghost predicate Flushed(es: seq<Entry>, n: nat, was: seq<Block>, ds: seq<Block>) {
    && |ds| == |was|
    && (forall i :: 0 <= i < n && i < |es| && es[i].dirty ==>
          es[i].blockno < |ds| && (ds[es[i].blockno] == es[i].data <==> !Blank(es[i].data)))
    && (forall b :: 0 <= b < |ds| && !DirtyAt(es, n, b) ==> ds[b] == was[b])
  }

  lemma FlushStep(es: seq<Entry>, n: nat, was: seq<Block>, ds: seq<Block>, ds': seq<Block>)
    requires Flushed(es, n, was, ds) && n < |es| && |ds'| == |ds| && es[n].blockno < |ds|
    requires forall i, j :: 0 <= i < j < |es| ==> es[i].blockno != es[j].blockno
    requires if es[n].dirty then (ds'[es[n].blockno] == es[n].data <==> !Blank(es[n].data)) else ds' == ds
    requires forall b :: 0 <= b < |ds| && b != es[n].blockno ==> ds'[b] == ds[b]
    ensures Flushed(es, n + 1, was, ds')
  {
    hide Blank;
    forall b | 0 <= b < |ds| && !DirtyAt(es, n + 1, b) ensures ds'[b] == was[b] {
      assert !DirtyAt(es, n, b);
    }
  }

  lemma StoredOrDirty(es: seq<Entry>, was: seq<Block>, vs: seq<Block>, b: nat)
    requires Coherent(es, was, vs) && b < |vs|
    ensures was[b] == vs[b] || DirtyAt(es, |es|, b)
  {
    if was[b] != vs[b] {
      assert Cached(es, b);
      var i :| 0 <= i < |es| && es[i].blockno == b;
      assert es[i].dirty;
    }
  }

  /** The disk is then what the cache stands for exactly if no dirty block begins with white space. */
  lemma FlushedIsStore(es: seq<Entry>, was: seq<Block>, ds: seq<Block>, vs: seq<Block>)
    requires Coherent(es, was, vs) && Flushed(es, |es|, was, ds)
    ensures ds == vs <==> forall i :: 0 <= i < |es| ==> !Risky(es[i])
    ensures forall b :: 0 <= b < |vs| && ds[b] != vs[b] ==> exists i :: 0 <= i < |es| && es[i].blockno == b && Risky(es[i])
  {
    hide Blank;
    forall b | 0 <= b < |vs| && ds[b] != vs[b] ensures exists i :: 0 <= i < |es| && es[i].blockno == b && Risky(es[i]) {
      StoredOrDirty(es, was, vs, b);
      var i :| 0 <= i < |es| && es[i].dirty && es[i].blockno == b;
      assert Risky(es[i]);
    }
    if ds == vs {
      forall i | 0 <= i < |es| ensures !Risky(es[i]) {
        assert vs[es[i].blockno] == es[i].data;
      }
    }
  }

  /** `cache_flush` over `push_block_to_server`; `behind[i]` is the memory behind the i-th request. */
  method Flush(disk: Disk, es: seq<Entry>, behind: seq<seq<byte>>, ghost vs: seq<Block>)
    requires disk.Valid() && Coherent(es, disk.Blocks(), vs) && |behind| == |es|
    requires forall i :: 0 <= i < |es| ==> BSIZE <= |SkipSpace(es[i].data + [NEWLINE] + behind[i])|
    modifies disk.data
    ensures disk.Blocks() == vs <==> forall i :: 0 <= i < |es| ==> !Risky(es[i])
    ensures forall b :: 0 <= b < |vs| && disk.Blocks()[b] != vs[b] ==> exists i :: 0 <= i < |es| && es[i].blockno == b && Risky(es[i])
  {
    hide Sectors, SkipSpace, Risky;
    ghost var was := disk.Blocks();
    var i := 0;
    while i < |es|
      invariant 0 <= i <= |es| && Flushed(es, i, was, disk.Blocks())
    {
      ghost var ds := disk.Blocks();
      if es[i].dirty {
        var _ := Push(disk, es[i].blockno, es[i].data, behind[i]);
      }
      FlushStep(es, i, was, ds, disk.Blocks());
      i := i + 1;
    }
    FlushedIsStore(es, was, disk.Blocks(), vs);
  }

  /** `alloc_entry` over it: dropping the victim, which is entry `e`, loses nothing exactly if it is not a
      dirty block that begins with white space. */
  method Evict(disk: Disk, es: seq<Entry>, e: nat, behind: seq<byte>, ghost vs: seq<Block>)
    requires disk.Valid() && Coherent(es, disk.Blocks(), vs) && e < |es|
    requires BSIZE <= |SkipSpace(es[e].data + [NEWLINE] + behind)|
    modifies disk.data
    ensures CoherentBut(es, e, disk.Blocks(), vs) <==> !Risky(es[e])
    ensures forall b :: 0 <= b < |vs| && b != es[e].blockno ==> disk.Blocks()[b] == old(disk.Blocks())[b]
  {
    hide Sectors, SkipSpace, Risky;
    ghost var was := disk.Blocks();
    if es[e].dirty {
      var _ := Push(disk, es[e].blockno, es[e].data, behind);
    }
    EvictedIsStore(es, e, was, disk.Blocks(), vs);
  }

  lemma EvictedIsStore(es: seq<Entry>, e: nat, was: seq<Block>, ds: seq<Block>, vs: seq<Block>)
    requires Coherent(es, was, vs) && e < |es| && |ds| == |was|
    requires if es[e].dirty then (ds[es[e].blockno] == es[e].data <==> !Blank(es[e].data)) else ds == was
    requires forall b :: 0 <= b < |ds| && b != es[e].blockno ==> ds[b] == was[b]
    ensures CoherentBut(es, e, ds, vs) <==> !Risky(es[e])
  {
    hide Blank;
    var b := es[e].blockno;
    if Risky(es[e]) {
      assert vs[b] != ds[b] && !CachedBut(es, e, b);
    } else {
      assert ds == if es[e].dirty then was[b := es[e].data] else was;
      EvictCoherent(es, e, was, vs, ds);
    }
  }
}
