/** `cd`: resolving a path and moving a session's working directory. */
module Session {
  import opened Bytes
  import opened Results
  import opened BlockTree
  import opened Inodes
  import opened Growth
  import opened Files
  import opened InodeCache
  import opened World
  import opened FileSystem
  import opened Cache
  import opened Commands
  import opened DirOps
  import opened Walking
  import D = Directory

  // ---------------------------------------------------------------- one reference at a time

  /** A walk from `w` that holds inode `m` in slot `c` and inode `m2` in slot `p`. */
  ghost predicate Both(w: World, w': World, c: nat, m: nat, p: nat, m2: nat) {
    && SoundWorld(w') && Walked(w, w') && KeptSlots(w, w')
    && m < |w.refs| && m2 < |w.refs| && c < |w'.ss| && p < |w'.ss|
    && w'.ss[c].ino.inum == m && w'.ss[p].ino.inum == m2 && w'.refs == More(More(w.refs, m), m2)
  }

  lemma AcquiredKept(w: World, w1: World, w2: World, inum: uint32, c: nat)
    requires Acquired(w1, w2, inum, Some(c)) && Walked(w, w1) && KeptSlots(w, w1) && SoundWorld(w1)
    ensures Walked(w, w2) && KeptSlots(w, w2) && inum < NINODES && inum < |w1.refs| && w2.refs == More(w1.refs, inum)
    ensures c < |w2.ss| && w2.ss[c].ino.inum == inum
    ensures forall i :: 0 <= i < |w1.ss| && w1.ss[i].ino.inum != EMPTY ==> i < |w2.ss| && w2.ss[i].ino.inum == w1.ss[i].ino.inum
  {
    hide Walked, Held, TreesOk;
    AcquiredWalked(w1, w2, inum, Some(c));
    WalkedTrans(w, w1, w2);
  }

  /** Giving back a reference the walk has taken moves no inode that was in use before it. */
  lemma ReleaseKept(w: World, w1: World, c: nat, m: nat)
    requires SoundWorld(w) && SoundWorld(w1) && Walked(w, w1) && KeptSlots(w, w1)
    requires c < |w1.ss| && w1.ss[c].ino.inum == m < NINODES && m < |w.refs| && m < |w1.refs| && w1.refs[m] > w.refs[m]
    ensures BLOCK_START <= |w1.v| && w1.ss[c].refs > 0
    ensures var w2 := Released(w1, c);
      && SoundWorld(w2) && Walked(w, w2) && KeptSlots(w, w2) && w2.refs == Less(w1.refs, m)
      && |w2.ss| == |w1.ss|
      && (forall i :: 0 <= i < |w1.ss| && i != c ==> w2.ss[i].ino.inum == w1.ss[i].ino.inum)
      && (w1.refs[m] > 1 ==> w2.ss[c].ino.inum == m)
  {
    hide Walked, SoundWorld, Released, Stored;
    SoundSlot(w1, c);
    ReleasedWalked(w1, c);
    ReleasedFields(w1, c);
    WalkedTrans(w, w1, Released(w1, c));
    if w.ss[c].ino.inum != EMPTY {
      InUsePositive(w, c);
    }
  }

  lemma ReleasedFields(w: World, c: nat)
    requires SoundWorld(w) && c < |w.ss| && w.ss[c].ino.inum < NINODES
    ensures |w.refs| == NINODES && BLOCK_START <= |w.v| && 0 < w.ss[c].refs == w.refs[w.ss[c].ino.inum]
    ensures var w2, m := Released(w, c), w.ss[c].ino.inum;
      && SoundWorld(w2) && |w2.ss| == |w.ss| && w2.refs == Less(w.refs, m)
      && (forall i :: 0 <= i < |w.ss| && i != c ==> w2.ss[i].ino.inum == w.ss[i].ino.inum)
      && w2.ss[c].ino.inum == (if w.refs[m] > 1 then m else EMPTY)
  {
    hide SoundWorld, Stored, SameFile;
    ReleasedSound(w, c);
  }

  lemma InUsePositive(w: World, c: nat)
    requires SoundWorld(w) && c < |w.ss| && w.ss[c].ino.inum != EMPTY
    ensures w.ss[c].ino.inum < |w.refs| && w.refs[w.ss[c].ino.inum] > 0
  {
    UsedSlot(w, c);
    hide SoundWorld;
  }

  lemma HoldingReleased(w: World, w1: World, c: nat, m: nat)
    requires SoundWorld(w) && Holding(w, w1, c, m) && m < NINODES
    ensures |w1.refs| == NINODES && BLOCK_START <= |w1.v| && w1.ss[c].refs > 0
    ensures Empty(w, Released(w1, c))
  {
    hide Walked, SoundWorld, Released;
    SoundSizes(w1);
    ReleaseKept(w, w1, c, m);
    assert Less(More(w.refs, m), m) == w.refs;
  }

  lemma BothReleased(w: World, w1: World, c: nat, m: nat, p: nat, m2: nat)
    requires SoundWorld(w) && Both(w, w1, c, m, p, m2) && m < NINODES
    ensures |w1.refs| == NINODES && BLOCK_START <= |w1.v| && w1.ss[c].refs > 0
    ensures Holding(w, Released(w1, c), p, m2)
  {
    hide Walked, SoundWorld, Released;
    SoundSizes(w1);
    ReleaseKept(w, w1, c, m);
    assert Less(More(More(w.refs, m), m2), m) == More(w.refs, m2);
  }

  /** Looking a name up from a held directory. */
  lemma ChildLookedUp(w: World, w1: World, mid: World, w2: World, c: nat, m: nat, name: seq<byte>, r: Option<nat>)
    requires SoundWorld(w) && SoundWorld(w2) && |w.ss| == NCACHE && Holding(w, w1, c, m) && |w.t| == NINODES
    requires LookedUp(w1, mid, w2, m, name, T_DIR, r)
    ensures r.Some? ==> r.value < |w2.ss| && Child(w, m, name) == Some(w2.ss[r.value].ino.inum)
                        && Both(w, w2, c, m, r.value, w2.ss[r.value].ino.inum)
    ensures r.None? ==> Holding(w, w2, c, m)
    ensures r.Some? <==> Child(w, m, name).Some? && InReach(w.refs, {m}, Child(w, m, name).value)
  {
    hide Walked, SoundWorld, Peeked, Acquired, InReach, KeptSlots, D.Lookup, Records;
    SoundSizes(w1);
    WalkedRecords(w, w1, m);
    WalkedStep(w, w1, m, name);
    if w1.t[m].kind == T_DIR {
      HoldingPeeked(w, w1, mid, c, m, m);
      SoundSizes(mid);
      var found := D.Lookup(Records(w1, m), name, T_DIR);
      if found.Some? {
        if r.Some? {
          GotChild(w, mid, w2, c, m, found.value, r.value);
        } else {
          NotGot(w, mid, w2, c, m, found.value);
        }
      }
    }
  }

  lemma GotChild(w: World, mid: World, w2: World, c: nat, m: nat, inum: uint32, p: nat)
    requires Holding(w, mid, c, m) && Acquired(mid, w2, inum, Some(p)) && SoundWorld(w2) && m < NINODES
    requires |w.ss| == NCACHE
    ensures inum < NINODES && p < |w2.ss| && w2.ss[p].ino.inum == inum && Both(w, w2, c, m, p, inum)
    ensures InReach(w.refs, {m}, inum)
  {
    hide Walked, SoundWorld, Acquired, InReach;
    AcquiredKept(w, mid, w2, inum, p);
    ReachIs(mid, w2, w.refs, m, inum, Some(p));
  }

  lemma InUseOne(refs: seq<nat>, m: nat)
    requires m < |refs|
    ensures InUse(More(refs, m)) == InUse(refs) + {m}
  {
  }

  /** An inode can be acquired exactly if it is in use or a slot is empty. */
  lemma AcquiredReach(w: World, w': World, inum: uint32, r: Option<nat>)
    requires SoundWorld(w) && |w.ss| == NCACHE && Acquired(w, w', inum, r) && inum < NINODES
    ensures r.Some? <==> inum in InUse(w.refs) || |InUse(w.refs)| < NCACHE
  {
    hide SoundWorld, InUse, Held;
    EmptySlot(w);
    UsedHeld(w);
    if Held(w.ss, inum) {
      UsedSlot(w, SlotHolding(w.ss, inum));
    }
  }

  lemma ReachIs(mid: World, w2: World, refs: seq<nat>, m: nat, inum: uint32, r: Option<nat>)
    requires SoundWorld(mid) && |mid.ss| == NCACHE && m < |refs| && mid.refs == More(refs, m) && Acquired(mid, w2, inum, r) && inum < NINODES
    ensures r.Some? <==> InReach(refs, {m}, inum)
  {
    hide SoundWorld, InUse, Acquired;
    InUseOne(refs, m);
    AcquiredReach(mid, w2, inum, r);
  }

  lemma NotGot(w: World, mid: World, w2: World, c: nat, m: nat, inum: uint32)
    requires SoundWorld(w) && |w.ss| == NCACHE && Holding(w, mid, c, m) && Acquired(mid, w2, inum, None)
    ensures w2 == mid
    ensures inum < NINODES ==> !InReach(w.refs, {m}, inum)
  {
    hide Walked, SoundWorld, Held, InReach;
    if inum < NINODES { ReachIs(mid, w2, w.refs, m, inum, None); }
  }

  /** Taking the first reference of a walk. */
  lemma FirstGot(w: World, w1: World, inum: uint32, r: Option<nat>)
    requires SoundWorld(w) && SoundWorld(w1) && |w.ss| == NCACHE && Acquired(w, w1, inum, r) && inum < NINODES
    ensures r.Some? ==> r.value < |w1.ss| && w1.ss[r.value].ino.inum == inum && Holding(w, w1, r.value, inum)
    ensures r.None? ==> Empty(w, w1)
    ensures r.Some? <==> InReach(w.refs, {}, inum)
  {
    hide Walked, SoundWorld, InUse, Acquired, KeptSlots, Held;
    assert InUse(w.refs) + {} == InUse(w.refs);
    AcquiredReach(w, w1, inum, r);
    EmptyRefl(w);
    if r.Some? {
      KeptRefl(w);
      WalkedRefl(w);
      AcquiredKept(w, w, w1, inum, r.value);
    } else {
      NoneAcquired(w, w1, inum);
    }
  }

  lemma NoneAcquired(w: World, w': World, inum: uint32)
    requires Acquired(w, w', inum, None)
    ensures w' == w && (inum >= NINODES || (!Held(w.ss, inum) && !Held(w.ss, EMPTY)))
  {
    hide Held;
  }

  lemma KeptRefl(w: World)
    ensures KeptSlots(w, w)
  {
  }

  // ---------------------------------------------------------------- resolving a path

  /** Where resolving starts: the root for an absolute path, else the working directory. */
  function StartOf(n: nat, dirpath: seq<byte>): nat {
    if dirpath != [] && dirpath[0] == 0x2F then 0 else n
  }

  /** With references to the inodes `held` besides those that there are, inode `x` can be acquired: it is
      in use, or some slot is empty. */
  ghost predicate InReach(refs: seq<nat>, held: set<nat>, x: nat) {
    x in InUse(refs) + held || |InUse(refs) + held| < NCACHE
  }

  /** Where the segments lead from directory `m`, if every directory on the way is in reach from the one
      before it. */
  ghost function Found(w: World, m: nat, segs: seq<seq<byte>>): Option<nat>
    requires |w.t| == NINODES
    decreases |segs|
  {
    if segs == [] then Some(m)
    else if segs[0] == D.DOT then Found(w, m, segs[1..])
    else
      match Child(w, m, segs[0])
      case Some(x) => if InReach(w.refs, {m}, x) then Found(w, x, segs[1..]) else None
      case None => None
  }

  ghost function FoundFrom(w: World, n: nat, dirpath: seq<byte>): Option<nat>
    requires |w.t| == NINODES
  {
    if InReach(w.refs, {}, StartOf(n, dirpath)) then Found(w, StartOf(n, dirpath), Tokens(dirpath)) else None
  }

  /** It is where they lead. */
  lemma {:induction false} FoundResolves(w: World, m: nat, segs: seq<seq<byte>>)
    requires |w.t| == NINODES
    ensures Found(w, m, segs).Some? ==> Resolve(w, m, segs) == Found(w, m, segs)
    decreases |segs|
  {
    hide Child, InReach;
    if segs != [] {
      if segs[0] == D.DOT {
        FoundResolves(w, m, segs[1..]);
      } else if Child(w, m, segs[0]).Some? {
        FoundResolves(w, Child(w, m, segs[0]).value, segs[1..]);
      }
    }
  }

  lemma {:induction false} FoundAppend(w: World, m: nat, a: seq<seq<byte>>, b: seq<seq<byte>>)
    requires |w.t| == NINODES
    ensures Found(w, m, a + b) == match Found(w, m, a) { case Some(x) => Found(w, x, b) case None => None }
    decreases |a|
  {
    hide Child, InReach;
    if a == [] {
      assert a + b == b;
    } else {
      assert (a + b)[1..] == a[1..] + b;
      if a[0] == D.DOT {
        FoundAppend(w, m, a[1..], b);
      } else if Child(w, m, a[0]).Some? {
        FoundAppend(w, Child(w, m, a[0]).value, a[1..], b);
      }
    }
  }

  /** With fewer than 19 inodes in use everything is in reach. */
  lemma {:induction false} FewFound(w: World, m: nat, segs: seq<seq<byte>>)
    requires |w.t| == NINODES && |InUse(w.refs)| < NCACHE - 1
    ensures Found(w, m, segs) == Resolve(w, m, segs)
    decreases |segs|
  {
    hide Child, InUse;
    if segs != [] {
      if segs[0] == D.DOT {
        FewFound(w, m, segs[1..]);
      } else if Child(w, m, segs[0]).Some? {
        FewReach(w.refs, m, Child(w, m, segs[0]).value);
        FewFound(w, Child(w, m, segs[0]).value, segs[1..]);
      }
    }
  }

  lemma FewReach(refs: seq<nat>, m: nat, x: nat)
    requires |InUse(refs)| < NCACHE - 1
    ensures InReach(refs, {m}, x) && InReach(refs, {}, x)
  {
    hide InUse;
    assert InUse(refs) + {} == InUse(refs);
    if m in InUse(refs) { assert InUse(refs) + {m} == InUse(refs); }
  }

  /** What `resolve_dir` has done: it succeeds exactly if the path leads to a directory in reach, and then
      the walk holds one reference, to that one; otherwise none. */
  ghost predicate Resolved(w: World, w': World, n: nat, dirpath: seq<byte>, r: Option<nat>)
    requires |w.t| == NINODES
  {
    var to := FoundFrom(w, n, dirpath);
    && (r.Some? <==> to.Some?)
    && (r.Some? ==> Holding(w, w', r.value, to.value) && Resolve(w, StartOf(n, dirpath), Tokens(dirpath)) == to)
    && (r.None? ==> Empty(w, w'))
  }

  /** Every directory a walk meets is in order. */
  lemma HeldDir(w: World, w1: World, c: nat, m: nat)
    requires DirsOk(w) && Holding(w, w1, c, m) && m < NINODES
    ensures c < |w1.ss| && w1.ss[c].ino.inum == m && |w1.t| == NINODES && DirOk(w1.v, w1.ss[c].ino)
  {
    hide Walked, SoundWorld, DirOk;
    SoundSlot(w1, c);
    WalkedSize(w, w1);
    WalkedRecords(w, w1, m);
  }

  lemma WalkedSize(w: World, w1: World)
    requires Walked(w, w1)
    ensures |w1.t| == |w.t|
  {
    hide SameFile;
  }

  /** `dir_lookup` in the held directory, which is then let go. */
  method Enter(fs: FileSystem, ip: nat, name: seq<byte>, now: uint32, ghost w: World, ghost m: nat) returns (p: Option<nat>)
    requires fs.Valid() && fs.IsInode(ip) && SoundWorld(w) && |w.t| == NINODES && |w.ss| == NCACHE && DirsOk(w)
    requires m < NINODES && Holding(w, fs.Now(), ip, m)
    modifies fs, fs.slots, fs.dev, fs.dev.arr, fs.dev.disk.data
    ensures fs.Valid() && fs.sb == old(fs.sb)
    ensures p.Some? ==> fs.IsInode(p.value) && Child(w, m, name) == Some(fs.slots[p.value].ino.inum)
                        && Holding(w, fs.Now(), p.value, fs.slots[p.value].ino.inum)
    ensures p.None? ==> Empty(w, fs.Now())
    ensures p.Some? <==> Child(w, m, name).Some? && InReach(w.refs, {m}, Child(w, m, name).value)
    ensures Ticked(old(fs.table), fs.table, now)
  {
    hide Inv, SoundWorld, DirsOk, Holding, Empty, LookedUp, DirOk, Both, InReach, Child, Ticked;
    ghost var w1, mid := fs.Now(), fs.Now();
    HeldDir(w, w1, ip, m);
    p, mid := DirLookup(fs, ip, name, T_DIR, now);
    ghost var w2 := fs.Now();
    ChildLookedUp(w, w1, mid, w2, ip, m, name, p);
    if p.Some? {
      BothReleased(w, w2, ip, m, p.value, fs.slots[p.value].ino.inum);
      BothSlot(w, w2, ip, m, p.value, fs.slots[p.value].ino.inum);
      HoldingSlot(w, Released(w2, ip), p.value, fs.slots[p.value].ino.inum);
    } else {
      HoldingReleased(w, w2, ip, m);
      HoldingSlot(w, w2, ip, m);
    }
    fs.IPut(ip);
  }

  method ResolveDir(fs: FileSystem, cwd: nat, dirpath: seq<byte>, now: uint32) returns (r: Option<nat>)
    requires fs.Valid() && fs.IsInode(cwd) && |fs.table| == NINODES && DirsOk(fs.Now())
    modifies fs, fs.slots, fs.dev, fs.dev.arr, fs.dev.disk.data
    ensures fs.Valid() && fs.sb == old(fs.sb) && (r.Some? ==> fs.IsInode(r.value))
    ensures Resolved(old(fs.Now()), fs.Now(), old(fs.slots[cwd].ino.inum), dirpath, r)
    ensures Ticked(old(fs.table), fs.table, now)
  {
    hide Inv, SoundWorld, DirsOk, Acquired, Holding, Empty, InReach, Found, Resolve, Tokens, Child, Ticked;
    ghost var w, n := fs.Now(), fs.slots[cwd].ino.inum;
    TickedRefl(w.t, now);
    var start := if dirpath != [] && dirpath[0] == SEPARATOR then ROOT_INUM else fs.slots[cwd].ino.inum;
    r := fs.IGet(start);
    FirstGot(w, fs.Now(), start, r);
    if r.None? {
      return;
    }
    var ip := r.value;
    ghost var m: nat := start;
    var segs := Tokens(dirpath);
    var i := 0;
    while i < |segs|
      invariant 0 <= i <= |segs| && fs.Valid() && fs.sb == old(fs.sb) && fs.IsInode(ip)
      invariant m < NINODES && Holding(w, fs.Now(), ip, m)
      invariant Found(w, m, segs[i..]) == Found(w, start, segs)
      invariant Ticked(w.t, fs.table, now)
    {
      FoundOne(w, m, segs, i);
      if segs[i] != D.DOT {
        ghost var t := fs.table;
        var p := Enter(fs, ip, segs[i], now, w, m);
        TickedTrans(w.t, t, fs.table, now);
        if p.None? {
          return None;
        }
        ip := p.value;
        m := fs.slots[ip].ino.inum;
      }
      i := i + 1;
    }
    FoundDone(w, m);
    assert segs[i..] == [];
    FoundResolves(w, start, segs);
    r := Some(ip);
  }

  lemma FoundOne(w: World, m: nat, segs: seq<seq<byte>>, i: nat)
    requires |w.t| == NINODES && i < |segs|
    ensures segs[i] == D.DOT ==> Found(w, m, segs[i..]) == Found(w, m, segs[i + 1..])
    ensures segs[i] != D.DOT ==>
              Found(w, m, segs[i..]) == match Child(w, m, segs[i]) {
                                          case Some(x) => if InReach(w.refs, {m}, x) then Found(w, x, segs[i + 1..]) else None
                                          case None => None }
  {
    hide Child, InReach;
    assert segs[i..][0] == segs[i] && segs[i..][1..] == segs[i + 1..];
  }

  lemma FoundDone(w: World, m: nat)
    requires |w.t| == NINODES
    ensures Found(w, m, []) == Some(m)
  {
  }

  lemma HoldingSlot(w: World, w1: World, c: nat, m: nat)
    requires Holding(w, w1, c, m)
    ensures c < |w1.ss| && w1.ss[c].ino.inum == m
  {
    hide SoundWorld, Walked;
  }

  lemma BothSlot(w: World, w1: World, c: nat, m: nat, p: nat, m2: nat)
    requires Both(w, w1, c, m, p, m2)
    ensures c < |w1.ss| && w1.ss[c].ino.inum == m
  {
    hide SoundWorld, Walked;
  }

  // ---------------------------------------------------------------- cd

  /** The directory a path names: the root, or where its names lead if that is a directory. */
  function Target(w: World, n: nat, path: seq<byte>): Option<nat>
    requires |w.t| == NINODES && n < NINODES
  {
    if path == [0x2F] then Some(ROOT_INUM) else IfDir(w, Resolve(w, StartOf(n, path), Names(path)))
  }

  function IfDir(w: World, t: Option<nat>): Option<nat>
    requires |w.t| == NINODES
  {
    if t.Some? && t.value < NINODES && w.t[t.value].kind == 1 then t else None
  }

  /** The directory `cd` gets to: for `/` the root, unless the slot given up is still in use, the root is in
      none and none is empty; else the one named, if every directory on the way is in reach. */
  ghost function CdFound(w: World, n: nat, path: seq<byte>): Option<nat>
    requires |w.t| == |w.refs| == NINODES && n < NINODES
  {
    if path == [0x2F] then
      if w.refs[n] > 1 && !Held(w.ss, ROOT_INUM) && !Held(w.ss, EMPTY) then None else Some(ROOT_INUM)
    else if InReach(w.refs, {}, StartOf(n, path)) then
      IfDir(w, Found(w, StartOf(n, path), Names(path)))
    else None
  }

  /** A path that starts with a separator names the same directory from everywhere. */
  lemma TargetAbsolute(w: World, n: nat, m: nat, path: seq<byte>)
    requires |w.t| == NINODES && n < NINODES && m < NINODES && path != [] && path[0] == 0x2F
    ensures Target(w, n, path) == Target(w, m, path)
  {
  }

  /** A path that does not end in a separator names the directory that its segments lead to, if it is one. */
  lemma TargetResolves(w: World, n: nat, path: seq<byte>)
    requires |w.t| == NINODES && n < NINODES && path != [] && path[|path| - 1] != 0x2F
    ensures var to := Resolve(w, if path[0] == 0x2F then 0 else n, Tokens(path));
      Target(w, n, path) == if to.Some? && w.t[to.value].kind == 1 then to else None
  {
    assert Names(path) == Tokens(path);
  }

  /** One that does names the entry without a name of the directory before the separator. */
  lemma TargetBehind(w: World, n: nat, path: seq<byte>)
    requires |w.t| == NINODES && n < NINODES && path != []
    ensures var to := Resolve(w, if path[0] == 0x2F then 0 else n, Tokens(path));
      var t := if to.Some? then Child(w, to.value, []) else None;
      Target(w, n, path + [0x2F]) == if t.Some? && w.t[t.value].kind == 1 then t else None
  {
    hide Tokens, Child, Resolve;
    TokensJoin(path, []);
    TokensPlain([]);
    assert path + [0x2F] + [] == path + [0x2F];
    assert Names(path + [0x2F]) == Tokens(path) + [[]];
    var m := StartOf(n, path);
    ResolveAppend(w, m, Tokens(path), [[]]);
    var to := Resolve(w, m, Tokens(path));
    if to.Some? { FoundLast(w, to.value, []); }
  }

  /** What `p/q` names is what `q` names from where `p` leads. */
  lemma TargetJoin(w: World, n: nat, p: seq<byte>, q: seq<byte>)
    requires |w.t| == NINODES && n < NINODES && p != [] && q != [] && q[0] != 0x2F
    ensures Target(w, n, p + [0x2F] + q) ==
            match Resolve(w, if p[0] == 0x2F then 0 else n, Tokens(p)) { case Some(m) => Target(w, m, q) case None => None }
  {
    hide Tokens, Resolve;
    var tail := if q[|q| - 1] == 0x2F then [[]] else [];
    TokensJoin(p, q);
    assert Names(p + [0x2F] + q) == Tokens(p) + (Tokens(q) + tail);
    ResolveAppend(w, StartOf(n, p), Tokens(p), Tokens(q) + tail);
  }

  /** With fewer than 19 inodes in use `cd` gets to every directory that a path names. */
  lemma FewTargets(w: World, n: nat, path: seq<byte>)
    requires SoundWorld(w) && |w.ss| == NCACHE && |w.t| == |w.refs| == NINODES && n < NINODES && |InUse(w.refs)| < NCACHE - 1
    ensures CdFound(w, n, path) == Target(w, n, path)
  {
    hide SoundWorld, InUse, InReach, Found, Resolve, Tokens, Child, Held;
    SlotLeft(w);
    FewReach(w.refs, StartOf(n, path), StartOf(n, path));
    FewFound(w, StartOf(n, path), Names(path));
  }

  /** Slots in use hold the same inodes, but for inode `n` if it had a single reference. */
  ghost predicate OthersKept(w: World, w': World, n: nat)
    requires n < |w.refs|
  {
    && |w'.ss| == |w.ss|
    && forall i :: 0 <= i < |w.ss| && w.ss[i].ino.inum != EMPTY && (w.ss[i].ino.inum != n || w.refs[n] > 1) ==>
         w'.ss[i].ino.inum == w.ss[i].ino.inum
  }

  /** The session's one reference has moved from inode `n` to that of slot `cwd'`: to the
      target on success, which is exactly when it can be got to, nowhere on failure. Only `cd /` can lose it, when the root is not
      cached, no slot is empty and giving the old directory up empties none. The slots that
      anybody else uses hold the same inodes. */
  ghost predicate MovedTo(w: World, w': World, n: nat, path: seq<byte>, ok: bool, cwd': Option<nat>)
    requires |w.t| == |w.refs| == NINODES && n < NINODES && w.refs[n] > 0
  {
    && SoundWorld(w') && Walked(w, w') && OthersKept(w, w', n)
    && (cwd'.None? ==> !ok && w'.refs == Less(w.refs, n))
    && (cwd'.None? <==> path == [SEPARATOR] && w.refs[n] > 1 && !Held(w.ss, ROOT_INUM) && !Held(w.ss, EMPTY))
    && (cwd'.Some? ==>
          && cwd'.value < |w'.ss| && w'.ss[cwd'.value].ino.inum < NINODES
          && w'.refs == More(Less(w.refs, n), w'.ss[cwd'.value].ino.inum)
          && (if ok then Target(w, n, path) == Some(w'.ss[cwd'.value].ino.inum) else w'.ss[cwd'.value].ino.inum == n))
    && (ok <==> CdFound(w, n, path).Some?)
  }

  lemma RootMoved(w: World, c: nat, w1: World, w2: World, r: Option<nat>)
    requires SoundWorld(w) && c < |w.ss| == NCACHE && w.ss[c].ino.inum < NINODES
    requires |w.refs| == NINODES && BLOCK_START <= |w.v| && w.ss[c].refs > 0 && w1 == Released(w, c)
    requires Acquired(w1, w2, ROOT_INUM, r) && SoundWorld(w2)
    ensures |w.t| == NINODES && w.refs[w.ss[c].ino.inum] > 0
    ensures MovedTo(w, w2, w.ss[c].ino.inum, [SEPARATOR], r.Some?, r)
  {
    hide SoundWorld, Walked, Released, InUse, Acquired, Held;
    SoundSlot(w, c);
    ReleasedFields(w, c);
    ReleasedWalked(w, c);
    var n := w.ss[c].ino.inum;
    HeldAfterRelease(w, w1, c, ROOT_INUM);
    AcquiredWalked(w1, w2, ROOT_INUM, r);
    WalkedTrans(w, w1, w2);
    if r.Some? {
      KeptRefl(w1);
      WalkedRefl(w1);
      AcquiredKept(w1, w1, w2, ROOT_INUM, r.value);
      AcquiredSlots(w1, w2, ROOT_INUM, r);
      RootFound(w1, w2, r);
    } else {
      NoneAcquired(w1, w2, ROOT_INUM);
    }
  }

  lemma AcquiredSlots(w: World, w': World, inum: uint32, r: Option<nat>)
    requires Acquired(w, w', inum, r)
    ensures |w'.ss| == |w.ss|
  {
    hide Held;
  }

  lemma RootFound(w: World, w': World, r: Option<nat>)
    requires Acquired(w, w', ROOT_INUM, r) && r.Some?
    ensures Held(w.ss, ROOT_INUM) || Held(w.ss, EMPTY)
  {
  }

  lemma HeldAfterRelease(w: World, w1: World, c: nat, n: nat)
    requires c < |w.ss| == |w1.ss| && w.ss[c].ino.inum < |w.refs| && w.ss[c].ino.inum < NINODES && n < NINODES
    requires forall i :: 0 <= i < |w.ss| && i != c ==> w1.ss[i].ino.inum == w.ss[i].ino.inum
    requires w1.ss[c].ino.inum == if w.refs[w.ss[c].ino.inum] > 1 then w.ss[c].ino.inum else EMPTY
    ensures !Held(w1.ss, n) && !Held(w1.ss, EMPTY) <==>
            w.refs[w.ss[c].ino.inum] > 1 && !Held(w.ss, n) && !Held(w.ss, EMPTY)
  {
    if w.refs[w.ss[c].ino.inum] > 1 {
      forall i | 0 <= i < |w.ss| ensures w1.ss[i].ino.inum == w.ss[i].ino.inum { }
      forall m: int ensures Held(w1.ss, m) <==> Held(w.ss, m) {
        if Held(w.ss, m) {
          var i :| 0 <= i < |w.ss| && w.ss[i].ino.inum == m;
          assert w1.ss[i].ino.inum == m;
        }
      }
    } else {
      assert Held(w1.ss, EMPTY);
    }
  }

  lemma CwdSwitched(w: World, w1: World, c: nat, t: nat, m: nat)
    requires SoundWorld(w) && Holding(w, w1, t, m) && m < NINODES && c < |w.ss| && w.ss[c].ino.inum < NINODES
    ensures |w.refs| == |w1.refs| == NINODES && w.refs[w.ss[c].ino.inum] > 0
    ensures c < |w1.ss| && w1.ss[c].ino.inum == w.ss[c].ino.inum && BLOCK_START <= |w1.v| && w1.ss[c].refs > 0
    ensures var w2 := Released(w1, c);
      && SoundWorld(w2) && Walked(w, w2) && t < |w2.ss| && w2.ss[t].ino.inum == m
      && w2.refs == More(Less(w.refs, w.ss[c].ino.inum), m)
      && OthersKept(w, w2, w.ss[c].ino.inum)
  {
    hide SoundWorld, Walked, Released;
    SoundSlot(w, c);
    SoundSizes(w1);
    ReleasedFields(w1, c);
    ReleasedWalked(w1, c);
    WalkedTrans(w, w1, Released(w1, c));
  }

  lemma NotMoved(w: World, w': World, n: nat, c: nat, path: seq<byte>)
    requires SoundWorld(w) && c < |w.ss| && w.ss[c].ino.inum == n < NINODES && Empty(w, w') && path != [SEPARATOR]
    requires |w.t| == |w.refs| == NINODES && CdFound(w, n, path) == None
    ensures w.refs[n] > 0 && MovedTo(w, w', n, path, false, Some(c))
    ensures c < |w'.ss| && w'.ss[c].ino.inum == n
  {
    hide SoundWorld, Walked, CdFound, Target;
    SoundSlot(w, c);
    assert More(Less(w.refs, n), n) == w.refs;
  }

  /** Looking the last name up from where the rest of the path leads. */
  lemma LeafFound(w: World, n: nat, path: seq<byte>, p: nat)
    requires |w.t| == |w.refs| == NINODES && n < NINODES && path != [SEPARATOR]
    requires FoundFrom(w, n, SplitPath(path).dir) == Some(p)
    ensures var leaf := SplitPath(path).leaf;
      && CdFound(w, n, path) == IfDir(w, if leaf == D.DOT then Some(p)
                                         else if Child(w, p, leaf).Some? && InReach(w.refs, {p}, Child(w, p, leaf).value)
                                           then Child(w, p, leaf) else None)
      && Target(w, n, path) == IfDir(w, Step(w, p, leaf))
  {
    hide InReach, Child, SplitPath, Tokens, Names, Held;
    var s, m := SplitPath(path), StartOf(n, path);
    SplitNames(path);
    FoundResolves(w, m, Tokens(s.dir));
    FoundAppend(w, m, Tokens(s.dir), [s.leaf]);
    ResolveAppend(w, m, Tokens(s.dir), [s.leaf]);
    FoundLast(w, p, s.leaf);
  }

  lemma FoundLast(w: World, p: nat, leaf: seq<byte>)
    requires |w.t| == NINODES
    ensures Found(w, p, [leaf]) == if leaf == D.DOT then Some(p)
                                   else if Child(w, p, leaf).Some? && InReach(w.refs, {p}, Child(w, p, leaf).value)
                                     then Child(w, p, leaf) else None
    ensures Resolve(w, p, [leaf]) == Step(w, p, leaf)
  {
    hide Child, InReach;
    assert [leaf][1..] == [];
  }

  lemma DirNotFound(w: World, n: nat, path: seq<byte>)
    requires |w.t| == |w.refs| == NINODES && n < NINODES && path != [SEPARATOR]
    requires FoundFrom(w, n, SplitPath(path).dir) == None
    ensures CdFound(w, n, path) == None
  {
    hide InReach, Child, SplitPath, Tokens, Names, Held;
    SplitNames(path);
    FoundAppend(w, StartOf(n, path), Tokens(SplitPath(path).dir), [SplitPath(path).leaf]);
  }

  /** The steps of `cmd_cd` up to the switch: the directory named, held, or nothing. */
  method FindTarget(fs: FileSystem, cwd: nat, path: seq<byte>, now: uint32) returns (target: Option<nat>)
    requires fs.Valid() && fs.IsInode(cwd) && |fs.table| == NINODES && DirsOk(fs.Now())
    requires path != [SEPARATOR]
    modifies fs, fs.slots, fs.dev, fs.dev.arr, fs.dev.disk.data
    ensures fs.Valid() && fs.sb == old(fs.sb)
    ensures var w, n := old(fs.Now()), old(fs.slots[cwd].ino.inum);
      && (target.Some? ==> fs.IsInode(target.value) && Target(w, n, path) == Some(fs.slots[target.value].ino.inum)
                           && Holding(w, fs.Now(), target.value, fs.slots[target.value].ino.inum))
      && (target.None? ==> Empty(w, fs.Now()))
      && |w.refs| == NINODES && (target.Some? <==> CdFound(w, n, path).Some?)
    ensures Ticked(old(fs.table), fs.table, now)
  {
    hide Inv, SoundWorld, DirsOk, Holding, Empty, InReach, FoundFrom, Resolve, Tokens, Child, SplitPath, StartOf, CdFound, Target,
      Ticked;
    ghost var w, n := fs.Now(), fs.slots[cwd].ino.inum;
    SoundSizes(w);
    var s := SplitPath(path);
    var parent := ResolveDir(fs, cwd, s.dir, now);
    if parent.None? {
      DirNotFound(w, n, path);
      return None;
    }
    ghost var p := FoundFrom(w, n, s.dir).value;
    HoldingSlot(w, fs.Now(), parent.value, p);
    LeafFound(w, n, path, p);
    target := parent;
    if s.leaf != D.DOT {
      ghost var t := fs.table;
      target := Enter(fs, parent.value, s.leaf, now, w, p);
      TickedTrans(w.t, t, fs.table, now);
      if target.None? {
        return;
      }
    }
    ghost var w1, m := fs.Now(), fs.slots[target.value].ino.inum;
    TargetKind(w, w1, target.value, m);
    if fs.slots[target.value].ino.kind != T_DIR {
      HoldingReleased(w, w1, target.value, m);
      fs.IPut(target.value);
      return None;
    }
  }

  method Cd(fs: FileSystem, cwd: nat, path: seq<byte>, now: uint32) returns (ok: bool, cwd': Option<nat>)
    requires fs.Valid() && fs.IsInode(cwd) && |fs.table| == |fs.refs| == NINODES && DirsOk(fs.Now())
    requires fs.refs[fs.slots[cwd].ino.inum] > 0
    requires LastSeparator(path) < 256 && |path| - LastSeparator(path) <= D.MAXNAME
    modifies fs, fs.slots, fs.dev, fs.dev.arr, fs.dev.disk.data
    ensures fs.Valid() && fs.sb == old(fs.sb) && (cwd'.Some? ==> fs.IsInode(cwd'.value))
    ensures MovedTo(old(fs.Now()), fs.Now(), old(fs.slots[cwd].ino.inum), path, ok, cwd')
    ensures PathTaken(old(fs.Now()), fs.Now(), old(fs.slots[cwd].ino.inum), path, ok, cwd')
    ensures Ticked(old(fs.table), fs.table, now)
  {
    hide Inv, SoundWorld, DirsOk, Acquired, Holding, Empty, CdFound, Target, MovedTo, SplitPath, Released, PathTaken, Ticked;
    ghost var w, n := fs.Now(), fs.slots[cwd].ino.inum;
    TickedRefl(w.t, now);
    if path == [SEPARATOR] {
      fs.IPut(cwd);
      ghost var w1 := fs.Now();
      var r := fs.IGet(ROOT_INUM);
      RootMoved(w, cwd, w1, fs.Now(), r);
      MovedTaken(w, fs.Now(), n, path, r.Some?, r);
      return r.Some?, r;
    }
    var target := FindTarget(fs, cwd, path, now);
    if target.None? {
      NotMoved(w, fs.Now(), n, cwd, path);
      MovedTaken(w, fs.Now(), n, path, false, Some(cwd));
      return false, Some(cwd);
    }
    CwdSwitched(w, fs.Now(), cwd, target.value, fs.slots[target.value].ino.inum);
    fs.IPut(cwd);
    HasMoved(w, fs.Now(), n, path, target.value);
    MovedTaken(w, fs.Now(), n, path, true, target);
    return true, target;
  }

  /** The same in terms of the segments of a path that does not end in a separator. */
  ghost predicate PathTaken(w: World, w': World, n: nat, path: seq<byte>, ok: bool, cwd': Option<nat>)
    requires |w.t| == NINODES && n < NINODES
  {
    path != [] && path[|path| - 1] != 0x2F ==>
      var to := Resolve(w, if path[0] == 0x2F then 0 else n, Tokens(path));
      && cwd'.Some? && cwd'.value < |w'.ss|
      && (ok ==> to == Some(w'.ss[cwd'.value].ino.inum) && w.t[to.value].kind == 1)
      && (!ok ==> w'.ss[cwd'.value].ino.inum == n)
      && (|InUse(w.refs)| < 19 ==> (ok <==> to.Some? && w.t[to.value].kind == 1))
  }

  lemma MovedTaken(w: World, w': World, n: nat, path: seq<byte>, ok: bool, cwd': Option<nat>)
    requires SoundWorld(w) && |w.ss| == NCACHE && |w.t| == |w.refs| == NINODES && n < NINODES && w.refs[n] > 0
    requires MovedTo(w, w', n, path, ok, cwd')
    ensures PathTaken(w, w', n, path, ok, cwd')
  {
    hide SoundWorld, Walked, CdFound, Target, Resolve, Tokens, OthersKept, InUse;
    if path != [] && path[|path| - 1] != 0x2F {
      TargetResolves(w, n, path);
      if |InUse(w.refs)| < 19 { FewTargets(w, n, path); }
    }
  }

  lemma TargetKind(w: World, w1: World, c: nat, m: nat)
    requires Holding(w, w1, c, m) && m < NINODES == |w.t|
    ensures c < |w1.ss| && w1.ss[c].ino.kind == w.t[m].kind
  {
    hide SoundWorld, Walked;
    SoundSlot(w1, c);
    WalkedRecords(w, w1, m);
  }

  lemma HasMoved(w: World, w': World, n: nat, path: seq<byte>, c: nat)
    requires |w.t| == |w.refs| == NINODES && n < NINODES && w.refs[n] > 0 && path != [SEPARATOR]
    requires SoundWorld(w') && Walked(w, w') && c < |w'.ss| && w'.ss[c].ino.inum < NINODES
    requires w'.refs == More(Less(w.refs, n), w'.ss[c].ino.inum) && OthersKept(w, w', n)
    requires Target(w, n, path) == Some(w'.ss[c].ino.inum) && CdFound(w, n, path).Some?
    ensures MovedTo(w, w', n, path, true, Some(c))
  {
    hide SoundWorld, Walked, CdFound, Target;
  }
}
