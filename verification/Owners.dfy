/** Owners: no command changes the type, the owner, the group or the mode of an inode that exists. */
module Owners {
  import opened Bytes
  import opened Inodes
  import opened Files
  import opened InodeCache
  import opened World
  import opened Writes
  import opened Commands
  import opened Editing
  import opened DirOps
  import opened Walking
  import opened Session
  import opened Invariant
  import opened Numbering
  import opened Namespace
  import opened MakeDir
  import opened Removal
  import opened Shell
  import opened Events
  import opened Turns
  import D = Directory

  predicate SameOwner(x: Inode, y: Inode) {
    y.kind == x.kind && y.mode == x.mode && y.uid == x.uid && y.gid == x.gid && y.flags == x.flags
  }

  /** Every inode that existed still does, with the same type, owner, group and mode. */
  ghost predicate OwnersKept(w: World, w': World) {
    && |w'.t| == |w.t|
    && forall m: nat :: m < |w.t| && Numbered(w, m) ==> Numbered(w', m) && SameOwner(w.t[m], w'.t[m])
  }

  lemma OwnersRefl(w: World)
    ensures OwnersKept(w, w)
  {
    hide Numbered;
  }

  lemma OwnersTrans(w: World, w1: World, w2: World)
    requires OwnersKept(w, w1) && OwnersKept(w1, w2)
    ensures OwnersKept(w, w2)
  {
    hide Numbered;
  }

  ghost predicate NumbersKept(w: World, w': World) {
    forall m: nat :: Numbered(w, m) ==> Numbered(w', m)
  }

  lemma SameKept(w: World, w': World)
    requires SameNumbers(w, w')
    ensures NumbersKept(w, w')
  {
    hide Numbered;
    SameNumbered(w, w');
  }

  lemma NewKept(w: World, w': World, n: nat)
    requires NewNumber(w, w', n)
    ensures NumbersKept(w, w') && !Numbered(w, n)
  {
    hide Numbered;
  }

  lemma But2Owners(w: World, w': World, n: nat, d: nat)
    requires WalkedBut2(w, w', n, d) && NumbersKept(w, w')
    requires n < |w.t| && Numbered(w, n) ==> SameOwner(w.t[n], w'.t[n])
    requires d < |w.t| && Numbered(w, d) ==> SameOwner(w.t[d], w'.t[d])
    ensures OwnersKept(w, w')
  {
    hide SameFile, Numbered;
  }

  lemma ButOwners(w: World, w': World, n: nat)
    requires WalkedBut(w, w', n) && NumbersKept(w, w')
    requires n < |w.t| && Numbered(w, n) ==> SameOwner(w.t[n], w'.t[n])
    ensures OwnersKept(w, w')
  {
    hide SameFile, Numbered;
  }

  lemma WalkedOwners(w: World, w': World)
    requires Walked(w, w')
    ensures OwnersKept(w, w')
  {
    hide Walked, WalkedBut, NumbersKept, OwnersKept;
    WalkedWalkedBut(w, w', |w.t|);
    WalkedNumbers(w, w');
    SameKept(w, w');
    ButOwners(w, w', |w.t|);
  }

  lemma HandledOwners(w: World, w': World, m: nat)
    requires Handled(w, w', m)
    ensures OwnersKept(w, w')
  {
    hide KeptSlots, WalkedBut, SameNumbers, NumbersKept, OwnersKept;
    SameKept(w, w');
    ButOwners(w, w', m);
  }

  lemma FailedOwners(w: World, w': World, n: nat, used: bool)
    requires WalkedBut(w, w', n) && Bare(w, w', n, used)
    ensures OwnersKept(w, w')
  {
    hide Walked, WalkedBut, Records, NewNumber, NumbersKept, OwnersKept;
    if used {
      NewKept(w, w', n);
      ButOwners(w, w', n);
    } else {
      WalkedOwners(w, w');
    }
  }

  lemma LinkedOwners(w: World, w': World, n: nat, x: Inode, d: nat, es: seq<D.Entry>)
    requires Linked(w, w', n, x, d, es)
    ensures OwnersKept(w, w')
  {
    hide FsOk, KeptSlots, WalkedBut2, NewNumber, Records, NumbersKept, OwnersKept;
    NewKept(w, w', n);
    But2Owners(w, w', n, d);
  }

  lemma MadeOwners(w: World, w': World, c: nat, d: nat, name: seq<byte>, x: Inode, ok: bool)
    requires c < |w.ss| && d < |w.t| && |w.t| == NINODES && Made(w, w', c, d, name, x, ok)
    ensures OwnersKept(w, w')
  {
    hide FsOk, KeptSlots, Records, Obtainable, Creatable, AddHasRoom, AddOverruns, UsedByAdd, FirstFree, Super, WalkedBut, Linked, Bare, SameSuper,
      D.Added, OwnersKept, RefsAfter, Granting;
    if ok {
      var es := Records(w, d);
      LinkedOwners(w, w', x.inum, x, d, if AddHasRoom(w, c, es) then D.Added(es, name, T_FILE, x.inum) else es);
    } else {
      FailedOwners(w, w', x.inum, !Obtainable(w, d, name, T_FILE) && Granting(w.v));
    }
  }

  lemma MadeDirOwners(w: World, w': World, c: nat, d: nat, name: seq<byte>, n: nat, uid: uint32, mode: uint32, ok: bool)
    requires c < |w.ss| && d < |w.t| && |w.t| == NINODES && d < NINODES && MadeDir(w, w', c, d, name, n, uid, mode, ok)
    ensures OwnersKept(w, w')
  {
    hide FsOk, KeptSlots, Records, Obtainable, Creatable, RoomBeside, OverrunsBeside, FirstFree, Super, WalkedBut, Linked, Bare, SameSuper, Dots,
      D.Added, OwnersKept, RefsAfter, Granting;
    if ok {
      var es := Records(w, d);
      LinkedOwners(w, w', n, w'.t[n], d, if RoomBeside(w, c, es) then D.Added(es, name, T_DIR, n) else es);
    } else {
      FailedOwners(w, w', n, !Obtainable(w, d, name, T_DIR) && Granting(w.v));
    }
  }

  lemma RemovedOwners(w: World, w': World, d: nat, name: seq<byte>, ok: bool)
    requires d < |w.t| && Removed(w, w', d, name, ok)
    ensures OwnersKept(w, w')
  {
    hide FsOk, KeptSlots, Obtainable, D.Lookup, D.Victim, Walked, WalkedBut2, SameSuper, Records, SameFile, SameNumbers, NumbersKept, OwnersKept;
    SameKept(w, w');
    if ok {
      But2Owners(w, w', D.Lookup(Records(w, d), name, T_FILE).value, d);
    } else {
      WalkedOwners(w, w');
    }
  }

  lemma NotFoundOwners(w: World, w': World, d: nat, name: seq<byte>)
    requires d < |w.t| && NotFound(w, w', d, name)
    ensures OwnersKept(w, w')
  {
    hide NotFound, OwnersKept;
    NotFoundWalked(w, w', d, name);
    WalkedOwners(w, w');
  }

  lemma WrittenOwners(w: World, w': World, d: nat, name: seq<byte>, data: seq<byte>)
    requires d < |w.t| && WrittenTo(w, w', d, name, data)
    ensures OwnersKept(w, w')
  {
    hide FsOk, Handled, FileNamed, HasRoom, Contents, FileOverruns, Super, OwnersKept;
    HandledOwners(w, w', FileNamed(w, d, name).value);
  }

  lemma WriteOwners(e: Event)
    requires Happened(e) && e.command.WriteFile?
    ensures OwnersKept(e.before, e.after)
  {
    hide FsOk, Made, NotFound, WrittenTo, Records, OwnersKept, Findable, Creatable, AddHasRoom, Keeps, Spoils, NewlyOwned, FileFields, Ticked;
    var w, base, w', c, d, name := e.before, e.base, e.after, e.cwd, DirIn(e.before, e.cwd), e.command.name;
    var x := FileInode(e.n, e.uid, 0x1A4, e.now);
    if Findable(w, d, name) {
      WrittenOwners(w, w', d, name, e.command.data);
    } else if !Creatable(w, d, name, T_FILE) {
      MadeOwners(w, w', c, d, name, x, false);
    } else {
      MadeOwners(w, base, c, d, name, x, true);
      if Keeps(w, c, d, name) { WrittenOwners(base, w', d, name, e.command.data); } else { NotFoundOwners(base, w', d, name); }
      OwnersTrans(w, base, w');
    }
  }

  lemma EditOwners(e: Event)
    requires Happened(e) && (e.command.InsertFile? || e.command.DeleteFile? || e.command.CatFile?)
    ensures OwnersKept(e.before, e.after)
  {
    hide FsOk, NotFound, Handled, FileNamed, HasRoom, Contents, InsertedOver, FileOverruns, TailPos, Super, SameSuper, OwnersKept, Findable,
      Spoils, LeavesHole, InsertLeft, CutShort, Ticked;
    var w, w', d, name := e.before, e.after, DirIn(e.before, e.cwd), e.command.name;
    if Findable(w, d, name) { HandledOwners(w, w', FileNamed(w, d, name).value); } else { NotFoundOwners(w, w', d, name); }
  }

  /** Any command leaves every inode there is its number, type, owner, group and mode. */
  lemma EventOwners(e: Event)
    requires Happened(e)
    ensures OwnersKept(e.before, e.after)
  {
    hide FsOk, Made, MadeDir, Removed, NotFound, Catted, WriteDone, InsertedInto, DeletedFrom, BeyondEnd, Records, Findable, OwnersKept,
      SoundWorld, Walked, OthersKept, Target, InUse, Held, Super, Creatable, AddHasRoom, RoomBeside, Spoils, LeavesHole, Cuttable, FileFields,
      Ticked, Timed;
    var w, w', c, d := e.before, e.after, e.cwd, DirIn(e.before, e.cwd);
    match e.command
    case MkFile(name, mode) => MadeOwners(w, w', c, d, name, FileInode(e.n, e.uid, mode, e.now), e.ok);
    case MkDirectory(name, mode) => MadeDirOwners(w, w', c, d, name, e.n, e.uid, mode, e.ok);
    case RmFile(name) => RemovedOwners(w, w', d, name, e.ok);
    case CatFile(name) => EditOwners(e);
    case WriteFile(name, data) => WriteOwners(e);
    case InsertFile(name, pos, data) => EditOwners(e);
    case DeleteFile(name, pos, len) => EditOwners(e);
    case ChangeDir(path) => WalkedOwners(w, w');
  }

  lemma TurnOwners(t: Turn)
    requires Taken(t)
    ensures OwnersKept(Before(t), After(t))
  {
    hide FsOk, Happened, Walked, Acquired, Released, OwnersKept, SoundWorld;
    match t
    case Ran(e) => EventOwners(e);
    case Entered(_, got, w, w') => EnteredOk(w, w', got); WalkedOwners(w, w');
    case Quit(_, had, w, w') =>
      if had.Some? { QuitOk(w, had.value); WalkedOwners(w, w'); } else { OwnersRefl(w); }
  }
}
