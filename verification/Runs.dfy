/** Runs of commands by any number of sessions, and what holds after any of them. */
module Runs {
  import opened Bytes
  import opened Results
  import opened BlockTree
  import opened Inodes
  import opened Growth
  import opened Files
  import opened InodeCache
  import opened World
  import opened FileSystem
  import opened Cache
  import opened DirOps
  import opened Walking
  import opened Invariant
  import opened Numbering
  import opened Namespace
  import opened MakeDir
  import opened Events
  import opened Effects
  import opened Turns
  import opened Appending
  import opened Owners
  import opened Formatting
  import opened RootDir
  import opened HomeDir
  import D = Directory

  // ---------------------------------------------------------------- logs

  /** The slot of each session's working directory after a log of turns. */
  function Slots(cwds: seq<Option<nat>>, log: seq<Turn>): (r: seq<Option<nat>>)
    ensures |r| == |cwds|
  {
    if log == [] then cwds
    else
      var c, t := Slots(cwds, log[..|log| - 1]), log[|log| - 1];
      if Who(t) < |c| then c[Who(t) := CwdOut(t)] else c
  }

  /** The log leads from `w` to `w'`: each turn starts where the one before it ended, and is taken by a
      session in its own working directory. */
  ghost predicate Chain(w: World, cwds: seq<Option<nat>>, log: seq<Turn>, w': World) {
    if log == [] then w' == w
    else
      var rest, t := log[..|log| - 1], log[|log| - 1];
      && Chain(w, cwds, rest, Before(t)) && Taken(t) && After(t) == w'
      && Who(t) < |cwds| && Slots(cwds, rest)[Who(t)] == CwdIn(t)
  }

  lemma ChainStep(w: World, cwds: seq<Option<nat>>, log: seq<Turn>, t: Turn)
    requires Chain(w, cwds, log, Before(t)) && Taken(t) && Who(t) < |cwds| && Slots(cwds, log)[Who(t)] == CwdIn(t)
    ensures Chain(w, cwds, log + [t], After(t)) && Slots(cwds, log + [t]) == Slots(cwds, log)[Who(t) := CwdOut(t)]
  {
    hide Taken;
    assert (log + [t])[..|log|] == log;
  }

  // ---------------------------------------------------------------- what holds along a log

  /** The references lost to each inode after a log: one for every `mk` or `mkdir` in it of a name that
      was taken and whose inode could be acquired. */
  ghost function Lost(lost: seq<nat>, log: seq<Turn>): (r: seq<nat>)
    ensures |r| == |lost|
  {
    if log == [] then lost else AfterLoss(Lost(lost, log[..|log| - 1]), LostBy(log[|log| - 1]))
  }

  /** Over any run of turns, in any order, by any number of sessions: every session's slot goes on
      holding its directory, whatever the others do, and the references to an inode are those of the
      sessions in it and those lost. */
  lemma {:induction false} SessionsAccounted(w: World, cwds: seq<Option<nat>>, lost: seq<nat>, log: seq<Turn>, w': World)
    requires Chain(w, cwds, log, w') && Accounted(w, cwds, lost)
    ensures Accounted(w', Slots(cwds, log), Lost(lost, log))
  {
    hide Taken, Accounted, LostBy;
    if log != [] {
      var rest, t := log[..|log| - 1], log[|log| - 1];
      SessionsAccounted(w, cwds, lost, rest, Before(t));
      TurnAccounted(t, Slots(cwds, rest), Lost(lost, rest));
    }
  }

  /** The last turn has left a hole in a file. */
  ghost predicate Holed(log: seq<Turn>) {
    log != [] && HoleBy(log[|log| - 1])
  }

  /** After a run everything is in order exactly if its last turn left no hole. */
  lemma ChainOk(w: World, cwds: seq<Option<nat>>, log: seq<Turn>, w': World)
    requires Chain(w, cwds, log, w') && FsOk(w)
    ensures FsOk(w') <==> !Holed(log)
  {
    hide FsOk, Taken, HoleBy;
    if log != [] { TurnOk(log[|log| - 1]); }
  }

  ghost predicate ClashFree(log: seq<Turn>) {
    forall i :: 0 <= i < |log| ==> !ClashBy(log[i])
  }

  /** As long as no command adds a name that, cut to 25 bytes, is taken, all live keys of all directories
      stay unique; the first command that does so breaks this. */
  lemma {:induction false} KeysOver(w: World, cwds: seq<Option<nat>>, log: seq<Turn>, w': World)
    requires Chain(w, cwds, log, w') && KeysOk(w)
    ensures ClashFree(log) ==> KeysOk(w')
    ensures log != [] && ClashFree(log[..|log| - 1]) ==> (KeysOk(w') <==> ClashFree(log))
  {
    hide Taken, KeysOk, ClashBy;
    if log != [] {
      var rest, t := log[..|log| - 1], log[|log| - 1];
      KeysOver(w, cwds, rest, Before(t));
      ClashFreeLast(log);
      if ClashFree(rest) { TurnKeys(t); }
    }
  }

  lemma ClashFreeLast(log: seq<Turn>)
    requires log != []
    ensures ClashFree(log) <==> ClashFree(log[..|log| - 1]) && !ClashBy(log[|log| - 1])
  {
    hide ClashBy;
    var rest := log[..|log| - 1];
    if ClashFree(log) {
      forall i | 0 <= i < |rest| ensures !ClashBy(rest[i]) { assert rest[i] == log[i]; }
    }
    if ClashFree(rest) && !ClashBy(log[|log| - 1]) {
      forall i | 0 <= i < |log| ensures !ClashBy(log[i]) {
        if i < |rest| { assert rest[i] == log[i]; }
      }
    }
  }

  /** Over a run every inode that exists goes on existing, with the type, owner, group and mode it was made with. */
  lemma {:induction false} OwnersOver(w: World, cwds: seq<Option<nat>>, log: seq<Turn>, w': World)
    requires Chain(w, cwds, log, w')
    ensures OwnersKept(w, w')
  {
    hide Taken, OwnersKept;
    if log != [] {
      var t := log[|log| - 1];
      OwnersOver(w, cwds, log[..|log| - 1], Before(t));
      TurnOwners(t);
      OwnersTrans(w, Before(t), w');
    } else {
      OwnersRefl(w);
    }
  }

  /** A time that an inode had in `w`, or that of a command in the log. */
  ghost predicate TimeOf(x: uint32, y: uint32, log: seq<Turn>) {
    y == x || exists i :: 0 <= i < |log| && log[i].Ran? && log[i].e.now == y
  }

  /** After a run each time of each inode is what it was before, or the time of a command of the run. */
  lemma {:induction false} TimesOver(w: World, cwds: seq<Option<nat>>, log: seq<Turn>, w': World)
    requires Chain(w, cwds, log, w')
    ensures |w'.t| == |w.t|
    ensures forall m :: 0 <= m < |w.t| ==>
              && TimeOf(w.t[m].atime, w'.t[m].atime, log) && TimeOf(w.t[m].mtime, w'.t[m].mtime, log)
              && TimeOf(w.t[m].ctime, w'.t[m].ctime, log)
  {
    hide Taken, TimeOf;
    if log != [] {
      var rest, t := log[..|log| - 1], log[|log| - 1];
      TimesOver(w, cwds, rest, Before(t));
      TurnTicks(t);
      forall x, y | TimeOf(x, y, rest) ensures TimeOf(x, y, log) {
        TimeLater(x, y, log);
      }
      if t.Ran? {
        forall x, y: uint32 | y == t.e.now ensures TimeOf(x, y, log) { TimeLast(log, x, y); }
      }
    } else {
      forall y ensures TimeOf(y, y, log) { TimeSame(y, log); }
    }
  }

  lemma TimeLater(x: uint32, y: uint32, log: seq<Turn>)
    requires log != [] && TimeOf(x, y, log[..|log| - 1])
    ensures TimeOf(x, y, log)
  {
    if y != x {
      var i :| 0 <= i < |log| - 1 && log[..|log| - 1][i].Ran? && log[..|log| - 1][i].e.now == y;
      assert log[i] == log[..|log| - 1][i];
    }
  }

  lemma TimeLast(log: seq<Turn>, x: uint32, y: uint32)
    requires log != [] && log[|log| - 1].Ran? && y == log[|log| - 1].e.now
    ensures TimeOf(x, y, log)
  {
  }

  lemma TimeSame(y: uint32, log: seq<Turn>)
    ensures TimeOf(y, y, log)
  {
  }

  /** No turn of a run makes a record that an addition would reuse. */
  lemma {:induction false} AppendsOver(w: World, cwds: seq<Option<nat>>, log: seq<Turn>, w': World)
    requires Chain(w, cwds, log, w') && AppendsOnly(w)
    ensures AppendsOnly(w')
  {
    hide Taken, AppendsOnly;
    if log != [] {
      var t := log[|log| - 1];
      AppendsOver(w, cwds, log[..|log| - 1], Before(t));
      TurnAppends(t);
    }
  }

  ghost predicate Wiping(log: seq<Turn>) {
    exists i :: 0 <= i < |log| && WipedBy(log[i])
  }

  lemma WipingLast(log: seq<Turn>)
    requires log != []
    ensures Wiping(log) <==> Wiping(log[..|log| - 1]) || WipedBy(log[|log| - 1])
  {
    hide WipedBy;
    var rest := log[..|log| - 1];
    if Wiping(log) {
      var i :| 0 <= i < |log| && WipedBy(log[i]);
      if i < |rest| { assert rest[i] == log[i]; }
    }
    if Wiping(rest) {
      var i :| 0 <= i < |rest| && WipedBy(rest[i]);
      assert log[i] == rest[i];
    }
  }

  /** Over a run block 0 is zeroed exactly if some write in it runs out of blocks at a pointer block, and
      is left alone otherwise. */
  lemma {:induction false} SuperOver(w: World, cwds: seq<Option<nat>>, log: seq<Turn>, w': World)
    requires Chain(w, cwds, log, w') && 0 < |w.v|
    ensures Super(w.v, w'.v, Wiping(log))
  {
    hide Taken, WipedBy, Super;
    if log != [] {
      var rest, t := log[..|log| - 1], log[|log| - 1];
      SuperOver(w, cwds, rest, Before(t));
      TurnSuper(t);
      WipingLast(log);
      SuperTrans(w.v, Before(t).v, w'.v, Wiping(rest), WipedBy(t));
    } else {
      SuperNothing(w.v);
    }
  }

  lemma SuperNothing(v: seq<Block>)
    requires 0 < |v|
    ensures Super(v, v, false)
  {
  }

  /** So the superblock can be mounted after a run exactly if no write in it does that. */
  lemma MountableAfter(w: World, cwds: seq<Option<nat>>, log: seq<Turn>, w': World)
    requires Chain(w, cwds, log, w') && 0 < |w.v| && ReadSb(w.v[0]).magic == MAGIC_NUM
    ensures 0 < |w'.v|
    ensures ReadSb(w'.v[0]).magic == MAGIC_NUM <==> !Wiping(log)
    ensures !Wiping(log) ==> ReadSb(w'.v[0]) == ReadSb(w.v[0])
  {
    hide Chain, Wiping;
    SuperOver(w, cwds, log, w');
    assert WordAt(Zero(), 0) == 0;
  }

  // ---------------------------------------------------------------- requests

  datatype Act = Give(a: Command) | Leave

  /** What a session asks for, as which user and when. */
  datatype Request = Request(session: nat, uid: uint32, now: uint32, act: Act)

  predicate Fits(q: Request, sessions: nat) {
    q.session < sessions && (q.act.Give? ==> Sensible(q.act.a))
  }

  /** The turn is what the request asked for. */
  ghost predicate Answers(t: Turn, q: Request) {
    && Who(t) == q.session
    && match t
       case Ran(e) => q.act == Give(e.command) && e.uid == q.uid && e.now == q.now
       case Entered(_, _, _, _) => q.act == Give(ChangeDir([SEPARATOR]))
       case Quit(_, _, _, _) => q.act == Leave
  }

  /** A session without a working directory gives a command that needs one. */
  predicate Astray(cwd: Option<nat>, q: Request) {
    cwd.None? && q.act.Give? && q.act.a != ChangeDir([SEPARATOR])
  }

  /** The request creates an inode whose number has no place in the inode area. */
  ghost predicate Spoiling(w: World, cwd: Option<nat>, q: Request) {
    cwd.Some? && q.act.Give? && Ready(w, cwd.value) && Spoils(w, cwd.value, q.act.a)
  }

  /** It has done so. */
  ghost predicate Spoilt(w: World, w': World, q: Request) {
    q.act.Give? && exists n: nat :: Overflowed(w, w', n, KindOf(q.act.a), q.now)
  }

  lemma SpoiltSuper(w: World, w': World, q: Request)
    requires Spoilt(w, w', q)
    ensures SameSuper(w.v, w'.v)
  {
    hide FsOk, Untouched, FirstFree;
    var n: nat :| Overflowed(w, w', n, KindOf(q.act.a), q.now);
    OverflowedSuper(w, w', n, KindOf(q.act.a), q.now);
  }

  lemma OverflowedSuper(w: World, w': World, n: nat, kind: uint16, now: uint32)
    requires Overflowed(w, w', n, kind, now)
    ensures SameSuper(w.v, w'.v)
  {
    hide FsOk, Untouched, FirstFree, Numbering.SetBit;
    var w1 :| FsOk(w1) && Untouched(w, w1) && Spilt(w1, w', n, NewInode(n, kind, now));
    UntouchedParts(w, w1);
  }

  /** One request of a session whose working directory is in slot `cwd`, if it has one. */
  method Take(fs: FileSystem, cwd: Option<nat>, q: Request) returns (cwd': Option<nat>, spilt: bool, whole: bool, ghost t: Turn)
    requires fs.Valid() && |fs.table| == NINODES && FsOk(fs.Now()) && !Astray(cwd, q) && (q.act.Give? ==> Sensible(q.act.a))
    requires cwd.Some? ==> fs.IsInode(cwd.value) && fs.slots[cwd.value].ino.kind == T_DIR
    modifies fs, fs.slots, fs.dev, fs.dev.arr, fs.dev.disk.data
    ensures fs.DeviceOk() && fs.sb == old(fs.sb)
    ensures spilt <==> Spoiling(old(fs.Now()), cwd, q)
    ensures spilt ==> Spoilt(old(fs.Now()), fs.Now(), q)
    ensures !spilt ==>
              && fs.Valid() && Taken(t) && Answers(t, q) && Before(t) == old(fs.Now()) && After(t) == fs.Now()
              && CwdIn(t) == cwd && CwdOut(t) == cwd' && whole == !HoleBy(t) && (FsOk(fs.Now()) <==> whole)
  {
    hide Inv, SoundWorld, FsOk, Acquired, Released, Happened, Ready, Spoils, LeavesHole, Overflowed, Sensible;
    ghost var w := fs.Now();
    FsOkOrdered(w);
    cwd', spilt, whole := None, false, true;
    match q.act {
      case Leave =>
        if cwd.Some? {
          SoundSlot(w, cwd.value);
          fs.IPut(cwd.value);
        }
        t := Quit(q.session, cwd, w, fs.Now());
      case Give(a) =>
        if cwd.Some? {
          ghost var e;
          cwd', spilt, whole, e := Execute(fs, q.session, cwd.value, a, q.uid, q.now);
          t := Ran(e);
        } else {
          cwd' := fs.IGet(ROOT_INUM);
          t := Entered(q.session, cwd', w, fs.Now());
        }
    }
    if !spilt { TurnOk(t); }
  }

  // ---------------------------------------------------------------- running

  /** Why a run ends before its last request: the session is astray, the last cut left a hole, or the request
      creates an inode whose number has no place in the inode area. */
  ghost predicate Stops(w: World, cwds: seq<Option<nat>>, log: seq<Turn>, q: Request) {
    && q.session < |cwds|
    && (|| (cwds[q.session].None? && q.act.Give? && q.act.a != ChangeDir([0x2F]))
        || Holed(log) || Spoiling(w, cwds[q.session], q))
  }

  /** The first `|log|` requests have been answered. */
  ghost predicate Served(w0: World, cwds0: seq<Option<nat>>, lost: seq<nat>, reqs: seq<Request>,
                         w: World, cwds: seq<Option<nat>>, log: seq<Turn>) {
    && |log| <= |reqs| && Chain(w0, cwds0, log, w) && cwds == Slots(cwds0, log)
    && (forall i :: 0 <= i < |log| ==> Answers(log[i], reqs[i]))
    && Accounted(w, cwds, Lost(lost, log))
  }

  lemma ServedStart(w: World, cwds: seq<Option<nat>>, lost: seq<nat>, reqs: seq<Request>)
    requires Accounted(w, cwds, lost)
    ensures Served(w, cwds, lost, reqs, w, cwds, [])
  {
    hide Accounted;
  }

  lemma ServedStep(w0: World, cwds0: seq<Option<nat>>, lost: seq<nat>, reqs: seq<Request>, cwds: seq<Option<nat>>,
                   log: seq<Turn>, t: Turn)
    requires Served(w0, cwds0, lost, reqs, Before(t), cwds, log) && Taken(t) && |log| < |reqs| && Accounted(w0, cwds0, lost)
    requires Answers(t, reqs[|log|]) && Who(t) < |cwds| && cwds[Who(t)] == CwdIn(t)
    ensures Served(w0, cwds0, lost, reqs, After(t), cwds[Who(t) := CwdOut(t)], log + [t])
  {
    hide Taken, Accounted, Chain, Slots, Lost, Answers;
    ChainStep(w0, cwds0, log, t);
    SessionsAccounted(w0, cwds0, lost, log + [t], After(t));
  }

  lemma ServedSlot(w0: World, cwds0: seq<Option<nat>>, lost: seq<nat>, reqs: seq<Request>,
                   w: World, cwds: seq<Option<nat>>, log: seq<Turn>, s: nat)
    requires Served(w0, cwds0, lost, reqs, w, cwds, log) && FsOk(w) && s < |cwds|
    ensures cwds[s].Some? ==>
              cwds[s].value < |w.ss| && w.ss[cwds[s].value].ino.inum < NINODES && w.ss[cwds[s].value].ino.kind == T_DIR
  {
    hide Accounted, Chain, Slots, Lost, FsOk, Answers;
    if cwds[s].Some? { SessionSlot(w, cwds, Lost(lost, log), s); }
  }

  /** How a run has ended: after all requests, or where it stops; `last` is the state after the turns of its
      log, and the state now unless the next request has spilt an inode number. */
  ghost predicate Ended(last: World, now: World, cwds: seq<Option<nat>>, log: seq<Turn>, reqs: seq<Request>, spilt: bool) {
    && |log| <= |reqs| && (FsOk(last) <==> !Holed(log))
    && (|log| < |reqs| ==> Stops(last, cwds, log, reqs[|log|]))
    && (spilt <==> |log| < |reqs| && reqs[|log|].session < |cwds| && Spoiling(last, cwds[reqs[|log|].session], reqs[|log|]))
    && (if spilt then Spoilt(last, now, reqs[|log|]) else now == last)
  }

  /** Requests of any number of sessions, one after another. */
  method Serve(fs: FileSystem, cwds: seq<Option<nat>>, reqs: seq<Request>, ghost lost: seq<nat>)
    returns (n: nat, cwds': seq<Option<nat>>, spilt: bool, ghost log: seq<Turn>, ghost last: World)
    requires fs.Valid() && FsOk(fs.Now()) && Accounted(fs.Now(), cwds, lost)
    requires forall i :: 0 <= i < |reqs| ==> Fits(reqs[i], |cwds|)
    modifies fs, fs.slots, fs.dev, fs.dev.arr, fs.dev.disk.data
    ensures fs.DeviceOk() && fs.sb == old(fs.sb) && |log| == n <= |reqs| && |cwds'| == |cwds| && (!spilt ==> fs.Valid())
    ensures Served(old(fs.Now()), cwds, lost, reqs, last, cwds', log)
    ensures Ended(last, fs.Now(), cwds', log, reqs, spilt)
  {
    hide Inv, SoundWorld, FsOk, Taken, Accounted, Served, HoleBy, Spoiling, Spoilt, Sensible, Answers;
    ghost var w := fs.Now();
    log, cwds', n, spilt, last := [], cwds, 0, false, w;
    ServedStart(w, cwds, lost, reqs);
    while n < |reqs|
      invariant fs.Valid() && fs.sb == old(fs.sb) && FsOk(fs.Now()) && n <= |reqs| && |log| == n && |cwds'| == |cwds| && !spilt
      invariant last == fs.Now() && !Holed(log)
      invariant Served(w, cwds, lost, reqs, last, cwds', log)
    {
      var q := reqs[n];
      assert Fits(q, |cwds|);
      FsOkOrdered(last);
      ServedSlot(w, cwds, lost, reqs, last, cwds', log, q.session);
      if Astray(cwds'[q.session], q) {
        AstrayNot(last, cwds'[q.session], q);
        return;
      }
      var c, whole;
      ghost var t;
      c, spilt, whole, t := Take(fs, cwds'[q.session], q);
      if spilt {
        return;
      }
      AnswersWho(t, q);
      ServedStep(w, cwds, lost, reqs, cwds', log, t);
      log, cwds', n, last := log + [t], cwds'[q.session := c], n + 1, fs.Now();
      if !whole {
        if n < |reqs| { NotReady(last, cwds', reqs[n]); }
        return;
      }
    }
  }

  lemma AnswersWho(t: Turn, q: Request)
    requires Answers(t, q)
    ensures Who(t) == q.session
  {
  }

  lemma AstrayNot(w: World, cwd: Option<nat>, q: Request)
    requires Astray(cwd, q)
    ensures !Spoiling(w, cwd, q)
  {
  }

  lemma NotReady(w: World, cwds: seq<Option<nat>>, q: Request)
    requires !FsOk(w)
    ensures q.session < |cwds| ==> !Spoiling(w, cwds[q.session], q)
  {
    hide FsOk;
  }

  /** Nothing is lost yet. */
  function NoneLost(): (l: seq<nat>)
    ensures |l| == NINODES && forall n :: 0 <= n < NINODES ==> l[n] == 0
  {
    seq(NINODES, _ => 0)
  }

  /** The formatting session in the root, and others that have connected without getting a directory. */
  function Beginning(root: nat, others: nat): (cwds: seq<Option<nat>>)
    ensures |cwds| == others + 1
  {
    if others == 0 then [Some(root)] else Beginning(root, others - 1) + [None]
  }

  lemma {:induction false} BeginningAccounted(w: World, root: nat, others: nat, lost: seq<nat>)
    requires Accounted(w, [Some(root)], lost)
    ensures Accounted(w, Beginning(root, others), lost)
  {
    hide HoldsDir, InodeAt;
    if others > 0 {
      BeginningAccounted(w, root, others - 1, lost);
      var cwds := Beginning(root, others - 1);
      NoneHolds(w);
      assert Holders(w, cwds + [None]) == Holders(w, cwds) + [None];
    }
  }

  /** After formatting, the formatting session is in the root and nobody else holds anything. */
  lemma FormattedOk(w: World, k: nat, others: nat)
    requires RootFormatted(w, k)
    ensures FsOk(w) && Accounted(w, Beginning(k, others), NoneLost()) && KeysOk(w) && AppendsOnly(w) && |w.t| == NINODES
  {
    hide Formatted, HomeMade, FsOk, Accounted, KeysOk, AppendsOnly;
    var w0, mid :| Formatted(w0, k) && HomeMade(w0, mid, w, k);
    HomeOk(w0, mid, w, k);
    HomeAppends(w0, mid, w, k);
    BeginningAccounted(w, k, others, NoneLost());
  }

  lemma HomeOk(w0: World, mid: World, w: World, k: nat)
    requires Formatted(w0, k) && HomeMade(w0, mid, w, k)
    ensures FsOk(w) && Accounted(w, [Some(k)], NoneLost()) && KeysOk(w) && |w.t| == NINODES
  {
    hide Ordered, SoundWorld, Numbered, D.Entries, Contents, D.Added, AddHasRoom, NumbersBelow, Capacity, Dots;
    FsOkOrdered(w);
    SoundSlot(w, k);
    assert Holders(w, [Some(k)]) == [Some(ROOT_INUM)];
    forall m | 0 <= m < |w.t| ensures KeysAt(w, m) {
      if m == ROOT_INUM {
        FewKeys(Records(w0, ROOT_INUM));
      } else if m == HOME_INUM {
        DotsKeys(mid, HOME_INUM, ROOT_INUM);
      }
    }
  }

  lemma HomeAppends(w0: World, mid: World, w: World, k: nat)
    requires Formatted(w0, k) && HomeMade(w0, mid, w, k)
    ensures AppendsOnly(w)
  {
    hide FsOk, Numbered, D.Entries, Contents, D.Added, AddHasRoom, NumbersBelow, Capacity, Dots;
    forall m | 0 <= m < |w.t| ensures AppendsAt(w, m) {
      if m == ROOT_INUM {
        AddedNone(Records(w0, ROOT_INUM), HOME, T_DIR, HOME_INUM);
      } else if m == HOME_INUM {
        DotsNone(mid, HOME_INUM, ROOT_INUM);
      }
    }
  }

  lemma FewKeys(es: seq<D.Entry>)
    requires es == [] || es == [Dot(ROOT_INUM)]
    ensures NameKeys(es) && NameKeys(D.Added(es, HOME, T_DIR, HOME_INUM))
  {
    AddedKeys(es, HOME, T_DIR, HOME_INUM);
  }

  lemma ServedParts(w0: World, cwds0: seq<Option<nat>>, reqs: seq<Request>, w: World, cwds: seq<Option<nat>>, log: seq<Turn>)
    requires Served(w0, cwds0, NoneLost(), reqs, w, cwds, log)
    ensures Chain(w0, cwds0, log, w)
  {
    hide Accounted, Chain, Slots, Lost, Answers;
  }

  /** What a run from a freshly formatted device comes to. `first` is the state formatting leaves, with the
      formatting session's directory in slot `root` and `others` sessions besides. */
  ghost predicate Come(first: World, root: nat, others: nat, reqs: seq<Request>, last: World, now: World, cwds: seq<Option<nat>>,
                       log: seq<Turn>, spilt: bool, sb: Superblock) {
    && RootFormatted(first, root) && Served(first, Beginning(root, others), NoneLost(), reqs, last, cwds, log)
    && Ended(last, now, cwds, log, reqs, spilt)
    && (ClashFree(log) ==> KeysOk(last)) && AppendsOnly(last)
    && 0 < |now.v| && (ReadSb(now.v[0]).magic == MAGIC_NUM <==> !Wiping(log)) && (!Wiping(log) ==> ReadSb(now.v[0]) == sb)
  }

  /** Formatting, and then any requests of the formatting session and of others that connected before it,
      which get in with `cd /` or by logging in. */
  method Run(fs: FileSystem, ncyl: nat, nsec: nat, garbage: Block, now: uint32, others: nat, reqs: seq<Request>)
    returns (n: nat, cwds: seq<Option<nat>>, spilt: bool, ghost log: seq<Turn>, ghost first: World, ghost root: nat, ghost last: World)
    requires fs.dev.Valid() && fs.slots.Length == NCACHE
    requires ncyl * nsec == |fs.dev.contents| && BLOCK_START <= ncyl * nsec < 0x8000_0000
    requires forall i :: 0 <= i < |reqs| ==> Fits(reqs[i], others + 1)
    modifies fs, fs.slots, fs.dev, fs.dev.arr, fs.dev.disk.data
    ensures fs.DeviceOk() && |log| == n && (!spilt ==> fs.Valid())
    ensures Come(first, root, others, reqs, last, fs.Now(), cwds, log, spilt, fs.sb)
  {
    hide Inv, SoundWorld, FsOk, Fits, RootFormatted, Chain, Slots, Accounted, KeysOk, Wiping, ClashFree, Lost, Taken, ReadSb, Stops, Served,
      Spoiling, Spoilt, Beginning, Holed, AppendsOnly, BaseDir;
    var ok, r := Format(fs, ncyl, nsec, garbage, now);
    first, root := fs.Now(), r;
    FormattedOk(first, root, others);
    n, cwds, spilt, log, last := Serve(fs, Beginning(r, others), reqs, NoneLost());
    ServedParts(first, Beginning(root, others), reqs, last, cwds, log);
    KeysOver(first, Beginning(root, others), log, last);
    AppendsOver(first, Beginning(root, others), log, last);
    MountableAfter(first, Beginning(root, others), log, last);
    if spilt { SpoiltSuper(last, fs.Now(), reqs[n]); }
  }
}
