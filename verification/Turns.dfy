/** One turn of a session: a command, entering the root, or leaving; and what it does to the account of
    references, to the superblock and to the keys of directories. */
module Turns {
  import opened Bytes
  import opened Results
  import opened BlockTree
  import opened Inodes
  import opened Growth
  import opened InodeCache
  import opened World
  import opened Commands
  import opened Walking
  import opened Session
  import opened Invariant
  import opened Namespace
  import opened Removal
  import opened Between
  import opened Events
  import opened Effects

  /** `Entered` is what `cd /` comes to for a session without a working directory, and the end of a login;
      `Quit` is what happens when the connection closes. */
  datatype Turn =
    | Ran(e: Event)
    | Entered(who: nat, got: Option<nat>, from: World, to: World)
    | Quit(who: nat, had: Option<nat>, from: World, to: World)

  function Who(t: Turn): nat {
    if t.Ran? then t.e.session else t.who
  }

  function Before(t: Turn): World {
    if t.Ran? then t.e.before else t.from
  }

  function After(t: Turn): World {
    if t.Ran? then t.e.after else t.to
  }

  /** The slot of the session's working directory before the turn. */
  function CwdIn(t: Turn): Option<nat> {
    match t
    case Ran(e) => Some(e.cwd)
    case Entered(_, _, _, _) => None
    case Quit(_, had, _, _) => had
  }

  function CwdOut(t: Turn): Option<nat> {
    match t
    case Ran(e) => e.cwd'
    case Entered(_, got, _, _) => got
    case Quit(_, _, _, _) => None
  }

  ghost predicate Taken(t: Turn) {
    match t
    case Ran(e) => Happened(e)
    case Entered(_, got, w, w') => FsOk(w) && |w.ss| == NCACHE && Acquired(w, w', ROOT_INUM, got) && SoundWorld(w')
    case Quit(_, had, w, w') =>
      && FsOk(w)
      && if had.None? then w' == w
         else
           && had.value < |w.ss| && w.ss[had.value].ino.inum < NINODES == |w.refs| && BLOCK_START <= |w.v|
           && w.ss[had.value].refs > 0 && w' == Released(w, had.value)
  }

  // ---------------------------------------------------------------- told before the turn

  ghost predicate HoleBy(t: Turn) {
    t.Ran? && Ready(t.e.before, t.e.cwd) && LeavesHole(t.e.before, t.e.cwd, t.e.command)
  }

  ghost predicate WipedBy(t: Turn) {
    t.Ran? && Ready(t.e.before, t.e.cwd) && Wipes(t.e.before, t.e.cwd, t.e.command)
  }

  ghost predicate ClashBy(t: Turn) {
    t.Ran? && Ready(t.e.before, t.e.cwd) && Clashes(t.e.before, t.e.cwd, t.e.command)
  }

  /** The inode to which the turn loses a reference. */
  ghost function LostBy(t: Turn): Option<uint32> {
    if t.Ran? && Ready(t.e.before, t.e.cwd) then Leaked(t.e.before, t.e.cwd, t.e.command) else None
  }

  /** One reference more to the inode that has lost its holder. */
  function AfterLoss(refs: seq<nat>, x: Option<uint32>): (r: seq<nat>)
    ensures |r| == |refs|
  {
    if x.Some? && x.value < |refs| then More(refs, x.value) else refs
  }

  // ---------------------------------------------------------------- order, superblock and keys

  lemma EnteredOk(w: World, w': World, r: Option<nat>)
    requires FsOk(w) && |w.ss| == NCACHE && Acquired(w, w', ROOT_INUM, r) && SoundWorld(w')
    ensures FsOk(w') && Walked(w, w')
  {
    hide FsOk, SoundWorld, Walked, Held, Numbered;
    FsOkOrdered(w);
    AcquiredWalked(w, w', ROOT_INUM, r);
    RootNumbered(w);
    AcquiredRefs(w, w', ROOT_INUM, r);
    WalkedFsOk(w, w');
  }

  lemma RootNumbered(w: World)
    requires FsOk(w)
    ensures Numbered(w, ROOT_INUM) && |w.t| == NINODES && w.t[ROOT_INUM].kind == T_DIR
  {
    hide Ordered, Numbered;
  }

  lemma AcquiredRefs(w: World, w': World, n: uint32, r: Option<nat>)
    requires Acquired(w, w', n, r)
    ensures |w'.refs| == |w.refs| && forall m :: 0 <= m < |w.refs| && m != n ==> w'.refs[m] == w.refs[m]
  {
    hide Held;
  }

  lemma QuitOk(w: World, k: nat)
    requires FsOk(w) && k < |w.ss| && w.ss[k].ino.inum < NINODES == |w.refs| && BLOCK_START <= |w.v| && w.ss[k].refs > 0
    ensures FsOk(Released(w, k)) && Walked(w, Released(w, k))
  {
    hide FsOk, Walked, Released;
    ReleasedOk(w, k);
  }

  /** After a turn everything is in order exactly if it has left no hole. */
  lemma TurnOk(t: Turn)
    requires Taken(t)
    ensures FsOk(Before(t)) && (FsOk(After(t)) <==> !HoleBy(t))
  {
    hide FsOk, Happened, Walked, Acquired, Released, LeavesHole, SoundWorld;
    match t
    case Ran(e) =>
      HappenedReady(e);
      if e.command.ChangeDir? { MovedOk(e); } else { EventKept(e); }
    case Entered(_, got, w, w') => EnteredOk(w, w', got);
    case Quit(_, had, w, _) => if had.Some? { QuitOk(w, had.value); }
  }

  lemma MovedOk(e: Event)
    requires Happened(e) && e.command.ChangeDir?
    ensures FsOk(e.after) && Ready(e.before, e.cwd) && !LeavesHole(e.before, e.cwd, e.command)
  {
    hide FsOk, SoundWorld, Walked, Held, InUse, Target, OthersKept, Spoils;
    CdFsOk(e.before, e.after, DirIn(e.before, e.cwd), e.command.path, e.ok, e.cwd');
  }

  /** A turn zeroes block 0 exactly if one of its writes runs out of blocks at a pointer block. */
  lemma TurnSuper(t: Turn)
    requires Taken(t)
    ensures Super(Before(t).v, After(t).v, WipedBy(t))
  {
    hide FsOk, Happened, Walked, Acquired, Released, Wipes, Super, Ready, SoundWorld;
    match t
    case Ran(e) => EventSuper(e);
    case Entered(_, got, w, w') => EnteredOk(w, w', got); WalkedSuperOf(w, w');
    case Quit(_, had, w, w') =>
      WalkedRefl(w);
      if had.Some? { QuitOk(w, had.value); }
      WalkedSuperOf(w, w');
  }

  /** No turn sets a time to anything but its own, and coming and going set none. */
  lemma TurnTicks(t: Turn)
    requires Taken(t)
    ensures if t.Ran? then Ticked(Before(t).t, After(t).t, t.e.now) else After(t).t == Before(t).t
  {
    hide FsOk, Happened, Ticked, SoundWorld, Held;
    match t
    case Ran(e) => HappenedReady(e);
    case Entered(_, _, _, _) =>
    case Quit(_, had, w, _) => if had.Some? { ReleasedTable(w, had.value); }
  }

  /** Where all live keys are unique, they stay so exactly unless the turn adds one that is taken. */
  lemma TurnKeys(t: Turn)
    requires Taken(t) && KeysOk(Before(t))
    ensures KeysOk(After(t)) <==> !ClashBy(t)
  {
    hide FsOk, Happened, Walked, Acquired, Released, Clashes, KeysOk, Ready, SoundWorld;
    match t
    case Ran(e) => EventKeys(e);
    case Entered(_, got, w, w') => EnteredOk(w, w', got); WalkedKeys(w, w');
    case Quit(_, had, w, w') =>
      if had.Some? { QuitOk(w, had.value); WalkedKeys(w, w'); }
  }

  // ---------------------------------------------------------------- sessions and references

  /** The inode in a session's slot. */
  function InodeAt(w: World, c: Option<nat>): Option<nat> {
    if c.Some? && c.value < |w.ss| then Some(w.ss[c.value].ino.inum) else None
  }

  /** The working directory of each session. */
  function Holders(w: World, cwds: seq<Option<nat>>): (h: seq<Option<nat>>)
    ensures |h| == |cwds|
  {
    seq(|cwds|, i requires 0 <= i < |cwds| => InodeAt(w, cwds[i]))
  }

  /** The slot holds a directory. */
  ghost predicate HoldsDir(w: World, c: Option<nat>) {
    c.Some? ==> c.value < |w.ss| && w.ss[c.value].ino.inum < NINODES == |w.t| && w.t[w.ss[c.value].ino.inum].kind == T_DIR
  }

  /** Every session's slot holds a directory, and there are exactly as many references to an inode
      as sessions whose working directory it is, and `lost` ones. */
  ghost predicate Accounted(w: World, cwds: seq<Option<nat>>, lost: seq<nat>) {
    && |w.refs| == |lost| == NINODES
    && (forall i :: 0 <= i < |cwds| ==> HoldsDir(w, cwds[i]))
    && (forall n :: 0 <= n < NINODES ==> w.refs[n] == multiset(Holders(w, cwds))[Some(n)] + lost[n])
  }

  lemma CountTwo(h: seq<Option<nat>>, i: nat, j: nat)
    requires i < |h| && j < |h| && i != j && h[i] == h[j]
    ensures multiset(h)[h[i]] >= 2
  {
    var k, l := if i < j then i else j, if i < j then j else i;
    assert h == h[..k + 1] + h[k + 1..];
    assert h[k] in h[..k + 1];
    assert h[k + 1..][l - k - 1] == h[l];
  }

  lemma CountOne(h: seq<Option<nat>>, i: nat, x: Option<nat>, y: Option<nat>)
    requires i < |h|
    ensures multiset(h[i := x])[y] == multiset(h)[y] - (if y == h[i] then 1 else 0) + (if y == x then 1 else 0)
  {
  }

  /** A session that gave no command keeps its directory. */
  lemma SessionKept(e: Event, cwds: seq<Option<nat>>, lost: seq<nat>, j: nat)
    requires Happened(e) && e.session < |cwds| && cwds[e.session] == Some(e.cwd) && Accounted(e.before, cwds, lost)
    requires j < |cwds| && (j != e.session || !e.command.ChangeDir?)
    ensures HoldsDir(e.after, cwds[j]) && InodeAt(e.after, cwds[j]) == InodeAt(e.before, cwds[j])
  {
    hide Happened, Ready, Spoils;
    var w, w', h := e.before, e.after, Holders(e.before, cwds);
    if cwds[j].Some? {
      assert HoldsDir(w, cwds[j]);
      var c := cwds[j].value;
      assert h[j] == Some(w.ss[c].ino.inum);
      HolderUsed(h, j, w.refs, lost);
      HappenedReady(e);
      if e.command.ChangeDir? {
        assert h[e.session] == Some(DirIn(e.before, e.cwd));
        if h[j] == h[e.session] { CountTwo(h, j, e.session); }
        MovedOthers2(e);
      } else {
        EventKeptParts(e);
      }
    }
  }

  lemma HolderUsed(h: seq<Option<nat>>, j: nat, refs: seq<nat>, lost: seq<nat>)
    requires j < |h| && h[j].Some? && h[j].value < |refs| == |lost| == NINODES
    requires forall n :: 0 <= n < NINODES ==> refs[n] == multiset(h)[Some(n)] + lost[n]
    ensures refs[h[j].value] > 0
    ensures multiset(h)[h[j]] >= 2 ==> refs[h[j].value] > 1
  {
    assert h[j] in multiset(h);
  }

  lemma MovedOthers2(e: Event)
    requires Happened(e) && e.command.ChangeDir?
    ensures e.cwd < |e.before.ss| && DirIn(e.before, e.cwd) < |e.before.refs| && OthersKept(e.before, e.after, DirIn(e.before, e.cwd))
    ensures KindsKept(e.before, e.after)
  {
    hide FsOk, SoundWorld, Walked, Held, InUse, Target, OthersKept, KindsKept;
    WalkedKept(e.before, e.after);
  }

  lemma EventKeptParts(e: Event)
    requires Happened(e) && !e.command.ChangeDir?
    ensures KeptSlots(e.before, e.after) && KindsKept(e.before, e.after) && e.cwd' == Some(e.cwd) && Ready(e.before, e.cwd)
    ensures e.after.refs == AfterLoss(e.before.refs, Leaked(e.before, e.cwd, e.command))
  {
    EventKept(e);
    LeaksExactly(e);
    HappenedReady(e);
    hide Happened, KeptSlots, KindsKept, Leaked, Ready, Spoils;
  }

  /** What `cd` does to the references and the session's own slot. */
  lemma MovedRefs(e: Event)
    requires Happened(e) && e.command.ChangeDir?
    ensures e.cwd < |e.before.ss| && |e.before.refs| == NINODES && DirIn(e.before, e.cwd) < NINODES && e.before.refs[DirIn(e.before, e.cwd)] > 0
    ensures HoldsDir(e.after, e.cwd')
    ensures var less := Less(e.before.refs, DirIn(e.before, e.cwd));
      match InodeAt(e.after, e.cwd') {
        case None => e.cwd' == None && e.after.refs == less
        case Some(m) => m < NINODES && e.after.refs == More(less, m)
      }
  {
    hide FsOk, SoundWorld, Walked, Held, InUse, Target, OthersKept;
    var w, w', n, path := e.before, e.after, DirIn(e.before, e.cwd), e.command.path;
    CdFsOk(w, w', n, path, e.ok, e.cwd');
    CdDir(w, w', n, path, e.ok, e.cwd');
    FsOkOrdered(w');
    if e.cwd'.Some? { SoundSlot(w', e.cwd'.value); }
  }

  lemma RootIsDir(w: World)
    requires FsOk(w)
    ensures |w.t| == NINODES && w.t[ROOT_INUM].kind == T_DIR
  {
    hide Ordered, Numbered;
  }

  lemma AcquiredHolds(w: World, w': World, c: nat, x: Option<nat>)
    requires FsOk(w) && Acquired(w, w', ROOT_INUM, Some(c)) && HoldsDir(w, x)
    ensures HoldsDir(w', x) && InodeAt(w', x) == InodeAt(w, x)
  {
    hide Held, FsOk, SoundWorld;
    FsOkOrdered(w);
    TableNumber(w, ROOT_INUM);
  }

  lemma NewHolds(w: World, w': World, c: nat)
    requires FsOk(w) && Acquired(w, w', ROOT_INUM, Some(c)) && |w.t| == NINODES && w.t[ROOT_INUM].kind == T_DIR
    ensures HoldsDir(w', Some(c)) && InodeAt(w', Some(c)) == Some(ROOT_INUM) && w'.refs == More(w.refs, ROOT_INUM)
  {
    hide Held, FsOk, SoundWorld, TreesOk;
    FsOkOrdered(w);
    TableNumber(w, ROOT_INUM);
  }

  /** A session that enters the root with an `iget` is accounted for; if no slot is empty and the root is
      not cached, it does not get in, and nothing changes. */
  lemma EnterAccounted(w: World, w': World, cwds: seq<Option<nat>>, lost: seq<nat>, s: nat, r: Option<nat>)
    requires FsOk(w) && Accounted(w, cwds, lost) && Acquired(w, w', ROOT_INUM, r) && s < |cwds| && cwds[s] == None
    ensures Accounted(w', cwds[s := r], lost)
  {
    hide FsOk, Held, HoldsDir, InodeAt, Acquired;
    RootIsDir(w);
    var h := Holders(w, cwds);
    if r.Some? {
      forall j | 0 <= j < |cwds| && j != s ensures HoldsDir(w', cwds[j]) && InodeAt(w', cwds[j]) == h[j] {
        assert HoldsDir(w, cwds[j]);
        AcquiredHolds(w, w', r.value, cwds[j]);
      }
      NoneHolds(w);
      NewHolds(w, w', r.value);
      assert Holders(w', cwds[s := r]) == h[s := Some(ROOT_INUM)];
      OneMore(h, s, ROOT_INUM, w.refs, lost);
    } else {
      NoneAcquired(w, w', ROOT_INUM);
      assert cwds[s := r] == cwds;
    }
  }

  /** One holder more is one reference more. */
  lemma OneMore(h: seq<Option<nat>>, s: nat, n: nat, refs: seq<nat>, lost: seq<nat>)
    requires s < |h| && h[s] == None && |refs| == |lost| == NINODES && n < NINODES
    requires forall m :: 0 <= m < NINODES ==> refs[m] == multiset(h)[Some(m)] + lost[m]
    ensures forall m :: 0 <= m < NINODES ==> More(refs, n)[m] == multiset(h[s := Some(n)])[Some(m)] + lost[m]
  {
    forall m | 0 <= m < NINODES ensures More(refs, n)[m] == multiset(h[s := Some(n)])[Some(m)] + lost[m] {
      CountOne(h, s, Some(n), Some(m));
    }
  }

  /** A session that ends gives its directory back with an `iput`, and takes nothing from the others. */
  lemma LeaveAccounted(w: World, cwds: seq<Option<nat>>, lost: seq<nat>, s: nat)
    requires FsOk(w) && Accounted(w, cwds, lost) && s < |cwds| && cwds[s].Some?
    ensures cwds[s].value < |w.ss| && w.ss[cwds[s].value].ino.inum < |w.refs| == NINODES && BLOCK_START <= |w.v|
    ensures w.ss[cwds[s].value].ino.inum < NINODES && w.ss[cwds[s].value].refs > 0
    ensures Accounted(Released(w, cwds[s].value), cwds[s := None], lost)
  {
    hide FsOk, SoundWorld, Released, HoldsDir, InodeAt, Accounted;
    FsOkOrdered(w);
    SessionSlot(w, cwds, lost, s);
    var c := cwds[s].value;
    ReleasedFields(w, c);
    ReleasedTable(w, c);
    var n, w' := w.ss[c].ino.inum, Released(w, c);
    forall j | 0 <= j < |cwds| && j != s ensures HoldsDir(w', cwds[j]) && InodeAt(w', cwds[j]) == InodeAt(w, cwds[j]) {
      LeaveOther(w, w', cwds, lost, s, j);
    }
    LeaveCounts(w, w', cwds, lost, s);
  }

  lemma LeaveOther(w: World, w': World, cwds: seq<Option<nat>>, lost: seq<nat>, s: nat, j: nat)
    requires Accounted(w, cwds, lost) && s < |cwds| && j < |cwds| && j != s && cwds[s].Some?
    requires w'.t == w.t && |w'.ss| == |w.ss| && cwds[s].value < |w.ss| && w.ss[cwds[s].value].ino.inum < |w.refs|
    requires forall i :: 0 <= i < |w.ss| && i != cwds[s].value ==> w'.ss[i].ino.inum == w.ss[i].ino.inum
    requires var n := w.ss[cwds[s].value].ino.inum; w'.ss[cwds[s].value].ino.inum == if w.refs[n] > 1 then n else EMPTY
    ensures HoldsDir(w', cwds[j]) && InodeAt(w', cwds[j]) == InodeAt(w, cwds[j])
  {
    var h, n := Holders(w, cwds), w.ss[cwds[s].value].ino.inum;
    assert HoldsDir(w, cwds[j]) && h[s] == Some(n);
    if h[j] == h[s] {
      CountTwo(h, j, s);
      HolderUsed(h, j, w.refs, lost);
    }
    hide HoldsDir, InodeAt;
    HolderAt(w, cwds, j);
    ReleasedHolds(w, w', n, cwds[j], cwds[s].value);
  }

  lemma HolderAt(w: World, cwds: seq<Option<nat>>, j: nat)
    requires j < |cwds|
    ensures Holders(w, cwds)[j] == InodeAt(w, cwds[j])
  {
  }

  lemma LeaveCounts(w: World, w': World, cwds: seq<Option<nat>>, lost: seq<nat>, s: nat)
    requires Accounted(w, cwds, lost) && s < |cwds| && cwds[s].Some? && cwds[s].value < |w.ss|
    requires var n := w.ss[cwds[s].value].ino.inum; n < |w.refs| && w.refs[n] > 0 && w'.refs == Less(w.refs, n)
    requires forall j :: 0 <= j < |cwds| && j != s ==> HoldsDir(w', cwds[j]) && InodeAt(w', cwds[j]) == InodeAt(w, cwds[j])
    ensures Accounted(w', cwds[s := None], lost)
  {
    var h, n := Holders(w, cwds), w.ss[cwds[s].value].ino.inum;
    assert h[s] == Some(n);
    NoneHolds(w');
    hide HoldsDir, InodeAt;
    assert Holders(w', cwds[s := None]) == h[s := None];
    OneLess(h, s, n, w.refs, lost);
  }

  /** One holder less is one reference less. */
  lemma OneLess(h: seq<Option<nat>>, s: nat, n: nat, refs: seq<nat>, lost: seq<nat>)
    requires s < |h| && h[s] == Some(n) && |refs| == |lost| == NINODES && n < NINODES && refs[n] > 0
    requires forall m :: 0 <= m < NINODES ==> refs[m] == multiset(h)[Some(m)] + lost[m]
    ensures forall m :: 0 <= m < NINODES ==> Less(refs, n)[m] == multiset(h[s := None])[Some(m)] + lost[m]
  {
    forall m | 0 <= m < NINODES ensures Less(refs, n)[m] == multiset(h[s := None])[Some(m)] + lost[m] {
      CountOne(h, s, None, Some(m));
    }
  }

  lemma NoneHolds(w: World)
    ensures HoldsDir(w, None) && InodeAt(w, None) == None
  {
  }

  lemma ReleasedHolds(w: World, w': World, n: nat, x: Option<nat>, c: nat)
    requires HoldsDir(w, x) && w'.t == w.t && |w'.ss| == |w.ss| && c < |w.ss| && w.ss[c].ino.inum == n < |w.refs|
    requires forall i :: 0 <= i < |w.ss| && i != c ==> w'.ss[i].ino.inum == w.ss[i].ino.inum
    requires w'.ss[c].ino.inum == if w.refs[n] > 1 then n else EMPTY
    requires x == Some(c) ==> w.refs[n] > 1
    ensures HoldsDir(w', x) && InodeAt(w', x) == InodeAt(w, x)
  {
  }

  lemma AccountStay(e: Event, cwds: seq<Option<nat>>, lost: seq<nat>)
    requires Happened(e) && e.session < |cwds| && cwds[e.session] == Some(e.cwd) && Accounted(e.before, cwds, lost)
    requires !e.command.ChangeDir?
    ensures Accounted(e.after, cwds[e.session := e.cwd'], AfterLoss(lost, LostBy(Ran(e))))
  {
    hide Happened, HoldsDir, InodeAt, KeptSlots, KindsKept, Leaked, Ready, Spoils;
    EventKeptParts(e);
    assert cwds[e.session := e.cwd'] == cwds;
    forall j | 0 <= j < |cwds| ensures HoldsDir(e.after, cwds[j]) && InodeAt(e.after, cwds[j]) == InodeAt(e.before, cwds[j]) {
      SessionKept(e, cwds, lost, j);
    }
    assert Holders(e.after, cwds) == Holders(e.before, cwds);
  }

  lemma AccountMove(e: Event, cwds: seq<Option<nat>>, lost: seq<nat>)
    requires Happened(e) && e.session < |cwds| && cwds[e.session] == Some(e.cwd) && Accounted(e.before, cwds, lost)
    requires e.command.ChangeDir?
    ensures Accounted(e.after, cwds[e.session := e.cwd'], lost)
  {
    hide Happened, HoldsDir, KeptSlots, KindsKept, InodeAt;
    var s, cwds' := e.session, cwds[e.session := e.cwd'];
    var h, x := Holders(e.before, cwds), InodeAt(e.after, e.cwd');
    MovedRefs(e);
    forall j | 0 <= j < |cwds| && j != s ensures HoldsDir(e.after, cwds[j]) && InodeAt(e.after, cwds[j]) == InodeAt(e.before, cwds[j]) {
      SessionKept(e, cwds, lost, j);
    }
    assert Holders(e.after, cwds') == h[s := x];
    HolderIs(e, cwds);
    forall n | 0 <= n < NINODES ensures e.after.refs[n] == multiset(Holders(e.after, cwds'))[Some(n)] + lost[n] {
      CountOne(h, s, x, Some(n));
    }
  }

  lemma HolderIs(e: Event, cwds: seq<Option<nat>>)
    requires e.session < |cwds| && cwds[e.session] == Some(e.cwd) && e.cwd < |e.before.ss|
    ensures Holders(e.before, cwds)[e.session] == Some(DirIn(e.before, e.cwd))
  {
  }

  lemma MovesLoseNone(e: Event)
    requires e.command.ChangeDir?
    ensures LostBy(Ran(e)) == None
  {
  }

  /** Any turn keeps the account: every other session's slot goes on holding its directory. */
  lemma TurnAccounted(t: Turn, cwds: seq<Option<nat>>, lost: seq<nat>)
    requires Taken(t) && Who(t) < |cwds| && cwds[Who(t)] == CwdIn(t) && Accounted(Before(t), cwds, lost)
    ensures Accounted(After(t), cwds[Who(t) := CwdOut(t)], AfterLoss(lost, LostBy(t)))
  {
    hide Happened, Accounted, FsOk, Acquired, Released, SoundWorld, Leaked, Ready;
    match t
    case Ran(e) =>
      if e.command.ChangeDir? {
        AccountMove(e, cwds, lost);
        MovesLoseNone(e);
      } else {
        AccountStay(e, cwds, lost);
      }
    case Entered(s, got, w, w') => EnterAccounted(w, w', cwds, lost, s, got);
    case Quit(s, had, w, _) =>
      if had.Some? { LeaveAccounted(w, cwds, lost, s); } else { assert cwds[s := None] == cwds; }
  }

  lemma SessionSlot(w: World, cwds: seq<Option<nat>>, lost: seq<nat>, s: nat)
    requires Accounted(w, cwds, lost) && FsOk(w) && s < |cwds| && cwds[s].Some?
    ensures cwds[s].value < |w.ss| && w.ss[cwds[s].value].ino.inum < NINODES && w.ss[cwds[s].value].ino.kind == T_DIR
  {
    hide FsOk, SoundWorld, Holders;
    FsOkOrdered(w);
    assert HoldsDir(w, cwds[s]);
    SoundSlot(w, cwds[s].value);
  }
}
