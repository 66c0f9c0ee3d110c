/** Additions only ever append: no record is ever one that `dir_add` would reuse, so a name that has been
    removed leaves a gap for good. */
module Appending {
  import opened Bytes
  import opened Inodes
  import opened BlockTree
  import opened Growth
  import opened Files
  import opened InodeCache
  import opened World
  import opened Writes
  import opened Commands
  import opened Editing
  import opened DirOps
  import opened Walking
  import opened Session
  import opened Invariant
  import opened Numbering
  import opened Namespace
  import opened MakeDir
  import opened Removal
  import opened Shell
  import opened Events
  import opened Effects
  import opened Turns
  import D = Directory

  ghost predicate AppendsAt(w: World, m: nat)
    requires m < |w.t|
  {
    w.t[m].kind == T_DIR ==> D.NoneReusable(Records(w, m))
  }

  /** In no directory is there a record with inode number 0 that is not a directory's and is named `/`. */
  ghost predicate AppendsOnly(w: World) {
    forall m :: 0 <= m < |w.t| ==> AppendsAt(w, m)
  }

  // ---------------------------------------------------------------- what keeps it so

  lemma SameAppends(w: World, w': World, m: nat)
    requires m < |w.t| == |w'.t| && SameFile(w.v, w.t[m].addrs, w'.v) && w'.t[m] == w.t[m].(atime := w'.t[m].atime)
    requires AppendsAt(w, m)
    ensures AppendsAt(w', m)
  {
    hide SameFile, D.NoneReusable, Contents, D.Entries;
    SameFileContents(w.v, w.t[m], w'.v);
    SameContents(w'.v, w'.t[m], w.t[m]);
  }

  lemma But2Appends(w: World, w': World, n: nat, d: nat)
    requires WalkedBut2(w, w', n, d) && AppendsOnly(w)
    requires n < |w'.t| ==> AppendsAt(w', n)
    requires d < |w'.t| ==> AppendsAt(w', d)
    ensures AppendsOnly(w')
  {
    hide SameFile, AppendsAt;
    forall m | 0 <= m < |w.t| && m != n && m != d ensures AppendsAt(w', m) {
      assert AppendsAt(w, m);
      SameAppends(w, w', m);
    }
  }

  lemma ButAppends(w: World, w': World, n: nat)
    requires WalkedBut(w, w', n) && AppendsOnly(w)
    requires n < |w'.t| ==> AppendsAt(w', n)
    ensures AppendsOnly(w')
  {
    hide SameFile, AppendsAt, AppendsOnly;
    But2Appends(w, w', n, n);
  }

  lemma WalkedAppends(w: World, w': World)
    requires Walked(w, w') && AppendsOnly(w)
    ensures AppendsOnly(w')
  {
    hide Walked, WalkedBut, AppendsOnly, AppendsAt;
    WalkedWalkedBut(w, w', |w.t|);
    WalkedTable(w, w');
    ButAppends(w, w', |w.t|);
  }

  lemma HandledAppends(w: World, w': World, m: nat)
    requires Handled(w, w', m) && w.t[m].kind != T_DIR && AppendsOnly(w)
    ensures AppendsOnly(w')
  {
    hide KeptSlots, WalkedBut, MetaKept, AppendsOnly, Records;
    ButAppends(w, w', m);
  }

  lemma AppendsHere(w: World, d: nat)
    requires AppendsOnly(w) && d < |w.t| && w.t[d].kind == T_DIR
    ensures D.NoneReusable(Records(w, d))
  {
    assert AppendsAt(w, d);
  }

  lemma AddedNone(es: seq<D.Entry>, name: seq<byte>, kind: uint16, inum: uint32)
    requires D.NoneReusable(es) && (inum != 0 || kind == 1)
    ensures D.NoneReusable(D.Added(es, name, kind, inum))
  {
    hide D.Added;
    D.AddedRecord(es, name, kind, inum, |es|);
  }

  lemma ClearedNone(es: seq<D.Entry>, i: nat)
    requires D.NoneReusable(es) && i < |es|
    ensures D.NoneReusable(es[i := D.CLEARED])
  {
  }

  lemma FailedAppends(w: World, w': World, n: nat, used: bool)
    requires WalkedBut(w, w', n) && Bare(w, w', n, used) && AppendsOnly(w)
    ensures AppendsOnly(w')
  {
    hide Walked, WalkedBut, AppendsOnly, Records, NewNumber;
    if used { ButAppends(w, w', n); } else { WalkedAppends(w, w'); }
  }

  lemma MadeAppends(w: World, w': World, c: nat, d: nat, name: seq<byte>, x: Inode, ok: bool)
    requires FsOk(w) && c < |w.ss| && d < |w.t| && |w.t| == NINODES && Made(w, w', c, d, name, x, ok) && x.kind == T_FILE
    requires AppendsOnly(w)
    ensures AppendsOnly(w')
  {
    hide FsOk, KeptSlots, Obtainable, D.Lookup, AddHasRoom, AddOverruns, UsedByAdd, FirstFree, Super, Numbered, Walked, WalkedBut, WalkedBut2,
      D.Added, AppendsOnly, Records, D.NoneReusable, Bare, Creatable, MetaKept;
    if ok {
      MadeParts(w, w', c, d, name, x);
      AppendsHere(w, d);
      AddedNone(Records(w, d), name, T_FILE, x.inum);
      But2Appends(w, w', x.inum, d);
    } else {
      MadeTable(w, w', c, d, name, x);
      FailedAppends(w, w', x.inum, !Obtainable(w, d, name, T_FILE) && Granting(w.v));
    }
  }

  lemma DotsNone(w: World, n: uint32, d: uint32)
    ensures D.NoneReusable(Dots(w, n, d))
  {
  }

  lemma MadeDirAppends(w: World, w': World, c: nat, d: nat, name: seq<byte>, n: nat, uid: uint32, mode: uint32, ok: bool)
    requires FsOk(w) && c < |w.ss| && d < |w.t| && |w.t| == NINODES && d < NINODES && MadeDir(w, w', c, d, name, n, uid, mode, ok)
    requires AppendsOnly(w) && w.t[d].kind == T_DIR
    ensures AppendsOnly(w')
  {
    hide FsOk, KeptSlots, Obtainable, D.Lookup, RoomBeside, OverrunsBeside, FirstFree, Super, Numbered, Walked, WalkedBut, WalkedBut2, D.Added,
      AppendsOnly, Records, D.NoneReusable, Bare, Dots, Capacity, Creatable, MetaKept;
    if ok {
      AppendsHere(w, d);
      AddedNone(Records(w, d), name, T_DIR, n);
      DotsNone(w, n, d);
      But2Appends(w, w', n, d);
    } else {
      MadeDirTable(w, w', c, d, name, n, uid, mode);
      FailedAppends(w, w', n, !Obtainable(w, d, name, T_DIR) && Granting(w.v));
    }
  }

  lemma RemovedAppends(w: World, w': World, d: nat, name: seq<byte>, ok: bool)
    requires FsOk(w) && d < |w.t| && Removed(w, w', d, name, ok) && AppendsOnly(w)
    ensures AppendsOnly(w')
  {
    hide FsOk, KeptSlots, Obtainable, D.Lookup, D.Victim, Walked, WalkedBut2, SameSuper, AppendsOnly, Records, Numbered, D.NoneReusable, SameFile,
      MetaKept;
    if ok {
      FsOkOrdered(w);
      LookupNumbered(w, d, name, T_FILE);
      AppendsHere(w, d);
      ClearedNone(Records(w, d), D.Victim(Records(w, d), name, T_FILE));
      But2Appends(w, w', D.Lookup(Records(w, d), name, T_FILE).value, d);
    } else {
      WalkedAppends(w, w');
    }
  }

  lemma NotFoundAppends(w: World, w': World, d: nat, name: seq<byte>)
    requires d < |w.t| && NotFound(w, w', d, name) && AppendsOnly(w)
    ensures AppendsOnly(w')
  {
    hide NotFound, AppendsOnly;
    NotFoundWalked(w, w', d, name);
    WalkedAppends(w, w');
  }

  lemma WrittenAppends(w: World, w': World, d: nat, name: seq<byte>, data: seq<byte>)
    requires FsOk(w) && d < |w.t| && WrittenTo(w, w', d, name, data) && AppendsOnly(w)
    ensures AppendsOnly(w')
  {
    hide FsOk, Handled, FileNamed, HasRoom, Contents, FileOverruns, Super, AppendsOnly;
    NamedFile(w, d, name);
    HandledAppends(w, w', FileNamed(w, d, name).value);
  }

  lemma WriteAppends(e: Event)
    requires Happened(e) && e.command.WriteFile? && AppendsOnly(e.before)
    ensures AppendsOnly(e.after)
  {
    hide FsOk, Made, NotFound, WrittenTo, Records, AppendsOnly, Findable, Creatable, AddHasRoom, Keeps, Spoils, NewlyOwned, FileFields;
    var w, base, w', c, d, name := e.before, e.base, e.after, e.cwd, DirIn(e.before, e.cwd), e.command.name;
    var x := FileInode(e.n, e.uid, 0x1A4, e.now);
    if Findable(w, d, name) {
      WrittenAppends(w, w', d, name, e.command.data);
    } else if !Creatable(w, d, name, T_FILE) {
      MadeAppends(w, w', c, d, name, x, false);
    } else {
      MadeAppends(w, base, c, d, name, x, true);
      MadeKept(w, base, c, d, name, x, true);
      if Keeps(w, c, d, name) { WrittenAppends(base, w', d, name, e.command.data); } else { NotFoundAppends(base, w', d, name); }
    }
  }

  lemma EditAppends(e: Event)
    requires Happened(e) && (e.command.InsertFile? || e.command.DeleteFile? || e.command.CatFile?) && AppendsOnly(e.before)
    ensures AppendsOnly(e.after)
  {
    hide FsOk, NotFound, Handled, FileNamed, HasRoom, Contents, InsertedOver, FileOverruns, TailPos, Super, SameSuper, AppendsOnly, Findable,
      Spoils, LeavesHole, InsertLeft, CutShort;
    var w, w', d, name := e.before, e.after, DirIn(e.before, e.cwd), e.command.name;
    if Findable(w, d, name) {
      NamedFile(w, d, name);
      HandledAppends(w, w', FileNamed(w, d, name).value);
    } else {
      NotFoundAppends(w, w', d, name);
    }
  }

  /** Every command keeps it so: a new record has an inode number or is a directory's, and a cleared one has no name. */
  lemma EventAppends(e: Event)
    requires Happened(e) && AppendsOnly(e.before)
    ensures AppendsOnly(e.after)
  {
    hide FsOk, Made, MadeDir, Removed, NotFound, Catted, WriteDone, InsertedInto, DeletedFrom, BeyondEnd, Records, Findable, AppendsOnly,
      SoundWorld, Walked, OthersKept, Target, InUse, Held, Super, Creatable, AddHasRoom, RoomBeside, Spoils, LeavesHole, Cuttable, FileFields;
    var w, w', c, d := e.before, e.after, e.cwd, DirIn(e.before, e.cwd);
    match e.command
    case MkFile(name, mode) => MadeAppends(w, w', c, d, name, FileInode(e.n, e.uid, mode, e.now), e.ok);
    case MkDirectory(name, mode) => MadeDirAppends(w, w', c, d, name, e.n, e.uid, mode, e.ok);
    case RmFile(name) => RemovedAppends(w, w', d, name, e.ok);
    case CatFile(name) => EditAppends(e);
    case WriteFile(name, data) => WriteAppends(e);
    case InsertFile(name, pos, data) => EditAppends(e);
    case DeleteFile(name, pos, len) => EditAppends(e);
    case ChangeDir(path) => WalkedAppends(w, w');
  }

  // ---------------------------------------------------------------- what the commands then do

  /** `mk` appends its record, if the disk has room at the end of the directory, and overwrites none. */
  lemma MkAppends(e: Event)
    requires Happened(e) && AppendsOnly(e.before) && e.command.MkFile? && e.ok
    ensures Ready(e.before, e.cwd) && DirIn(e.before, e.cwd) < |e.after.t|
    ensures var es, name := Records(e.before, DirIn(e.before, e.cwd)), e.command.name;
      Records(e.after, DirIn(e.before, e.cwd)) ==
      if CanWrite(e.before, e.cwd, 36 * |es|, 36) then es + [D.Entry(2, e.n, if |name| <= 25 then name else name[..25])] else es
  {
    hide FsOk, Made, Records, AppendsOnly, Spoils, FileFields, CanWrite, D.Added, AddHasRoom;
    var w, d := e.before, DirIn(e.before, e.cwd);
    MadeParts(w, e.after, e.cwd, d, e.command.name, FileInode(e.n, e.uid, e.command.mode, e.now));
    AppendsHere(w, d);
    Appends(w, e.cwd, Records(w, d), e.command.name, T_FILE, e.n);
  }

  /** So does `mkdir`, if there is room beside the block that the new directory takes. */
  lemma MkdirAppends(e: Event)
    requires Happened(e) && AppendsOnly(e.before) && e.command.MkDirectory? && e.ok
    ensures Ready(e.before, e.cwd) && DirIn(e.before, e.cwd) < |e.after.t|
    ensures var w, es, name := e.before, Records(e.before, DirIn(e.before, e.cwd)), e.command.name;
      Records(e.after, DirIn(w, e.cwd)) ==
      if 36 * |es| + 36 <= MAXSIZE && |w.owner| + DotBlock(w) + Need(w, e.cwd, 36 * |es|, 36) <= Capacity(|w.v|)
      then es + [D.Entry(1, e.n, if |name| <= 25 then name else name[..25])] else es
  {
    hide FsOk, Records, AppendsOnly, Spoils, D.Added, Need, DotBlock, Capacity, Dots, WalkedBut, WalkedBut2, KeptSlots, MetaKept, NewNumber,
      Obtainable, Creatable, Super, FirstFree, Bare, D.NoneReusable;
    var w, d := e.before, DirIn(e.before, e.cwd);
    AppendsHere(w, d);
    Appends(w, e.cwd, Records(w, d), e.command.name, T_DIR, e.n);
    NoneFree(Records(w, d));
  }

  lemma NoneFree(es: seq<D.Entry>)
    requires D.NoneReusable(es)
    ensures D.FreeSlot(es) == |es|
  {
    D.AddedRecord(es, [], 0, 0, |es|);
  }

  /** A removed name leaves an empty record in its place: the directory keeps its length. */
  lemma RmLeavesGap(e: Event)
    requires Happened(e) && e.command.RmFile? && e.ok
    ensures Ready(e.before, e.cwd) && DirIn(e.before, e.cwd) < |e.after.t|
    ensures var es, es' := Records(e.before, DirIn(e.before, e.cwd)), Records(e.after, DirIn(e.before, e.cwd));
      |es'| == |es| && exists i :: 0 <= i < |es| && es' == es[i := D.Entry(0, 0, [])] && es[i].inum != 0
                                   && D.Answers(es[i], e.command.name, 2)
  {
    hide FsOk, Records, Spoils, D.Lookup, D.Victim, Walked, WalkedBut2, KeptSlots, Dropped, MetaKept, Obtainable;
    var i := D.Victim(Records(e.before, DirIn(e.before, e.cwd)), e.command.name, T_FILE);
  }

  // ---------------------------------------------------------------- over runs

  lemma TurnAppends(t: Turn)
    requires Taken(t) && AppendsOnly(Before(t))
    ensures AppendsOnly(After(t))
  {
    hide FsOk, Happened, Walked, Acquired, Released, AppendsOnly, Ready, SoundWorld;
    match t
    case Ran(e) => EventAppends(e);
    case Entered(_, got, w, w') => EnteredOk(w, w', got); WalkedAppends(w, w');
    case Quit(_, had, w, w') =>
      if had.Some? { QuitOk(w, had.value); WalkedAppends(w, w'); }
  }
}
