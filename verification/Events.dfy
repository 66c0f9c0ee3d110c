/** One command of one session: what it does, as a relation between the states before and after
    it, and a method that does it. */
module Events {
  import opened Bytes
  import opened Results
  import opened Bitmap
  import opened Inodes
  import opened Growth
  import opened Files
  import opened InodeCache
  import opened World
  import opened Writes
  import opened FileSystem
  import opened Cache
  import opened Commands
  import opened Editing
  import opened DirOps
  import opened Walking
  import opened Session
  import opened Invariant
  import opened Numbering
  import opened Namespace
  import opened MakeDir
  import opened Removal
  import opened Shell
  import opened Between
  import D = Directory

  datatype Command =
    | MkFile(name: seq<byte>, mode: uint32)
    | MkDirectory(name: seq<byte>, mode: uint32)
    | RmFile(name: seq<byte>)
    | CatFile(name: seq<byte>)
    | WriteFile(name: seq<byte>, data: seq<byte>)
    | InsertFile(name: seq<byte>, pos: uint32, data: seq<byte>)
    | DeleteFile(name: seq<byte>, pos: uint32, len: uint32)
    | ChangeDir(path: seq<byte>)

  /** Commands a client can send: names are C strings, and paths fit their buffers. */
  predicate Sensible(a: Command) {
    match a
    case MkFile(name, _) => D.NoNul(name)
    case MkDirectory(name, _) => D.NoNul(name)
    case WriteFile(name, data) => D.NoNul(name) && |data| < 0x1_0000_0000
    case InsertFile(_, _, data) => |data| < 0x1_0000_0000
    case ChangeDir(path) => LastSeparator(path) < 256 && |path| - LastSeparator(path) <= D.MAXNAME
    case _ => true
  }

  /** The working directory in slot `c`. */
  ghost function DirIn(w: World, c: nat): nat
    requires c < |w.ss|
  {
    w.ss[c].ino.inum
  }

  /** Everything is in order, and slot `c` holds the working directory of a session. */
  ghost predicate Ready(w: World, c: nat) {
    && FsOk(w) && c < |w.ss| == NCACHE && DirIn(w, c) < NINODES == |w.t| == |w.refs| && w.t[DirIn(w, c)].kind == T_DIR
    && w.refs[DirIn(w, c)] > 0
  }

  // ---------------------------------------------------------------- what can be told before a command

  /** The command creates an inode whose number has no place in the inode area. */
  ghost predicate Spoils(w: World, c: nat, a: Command)
    requires Ready(w, c)
  {
    && Spilling(w.v)
    && match a
       case MkFile(name, _) => !Obtainable(w, DirIn(w, c), name, T_FILE)
       case MkDirectory(name, _) => !Obtainable(w, DirIn(w, c), name, T_DIR)
       case WriteFile(name, _) => !Findable(w, DirIn(w, c), name)
       case _ => false
  }

  function KindOf(a: Command): uint16 {
    if a.MkDirectory? then T_DIR else T_FILE
  }

  /** The command is a cut whose sum wraps round, and there is no room for the tail. */
  ghost predicate LeavesHole(w: World, c: nat, a: Command)
    requires Ready(w, c)
  {
    match a
    case DeleteFile(name, pos, len) =>
      && Cuttable(w, DirIn(w, c), name, pos) && pos + len >= 0x1_0000_0000
      && var m := FileNamed(w, DirIn(w, c), name).value;
         !HasRoom(w, m, pos, |File(w, m)| - TailPos(pos, len, |File(w, m)|))
    case _ => false
  }

  /** The command is `mk` or `mkdir` of a name that is taken, and whose inode can be acquired. */
  ghost predicate Leaks(w: World, c: nat, a: Command)
    requires Ready(w, c)
  {
    match a
    case MkFile(name, _) => Obtainable(w, DirIn(w, c), name, T_FILE)
    case MkDirectory(name, _) => Obtainable(w, DirIn(w, c), name, T_DIR)
    case _ => false
  }

  /** The inode to which it then loses a reference. */
  ghost function Leaked(w: World, c: nat, a: Command): Option<uint32>
    requires Ready(w, c)
  {
    if !Leaks(w, c, a) then None
    else D.Lookup(Records(w, DirIn(w, c)), a.name, KindOf(a))
  }

  // ---------------------------------------------------------------- an event

  /** A command that session `session` has given, with the slot of its working directory before
      and after, the states before and after, and what happened in between: `base` is the state in
      which a file that `w` has created is written to, `n` the number of a new inode, `data` what
      was read. */
  datatype Event = Event(
    session: nat, command: Command, uid: uint32, now: uint32, cwd: nat, cwd': Option<nat>,
    before: World, base: World, after: World, n: uint32, data: Option<seq<byte>>, ok: bool)

  /** What the command did is what its own contract says. */
  ghost predicate Happened(e: Event) {
    && Ready(e.before, e.cwd) && !Spoils(e.before, e.cwd, e.command) && Ticked(e.before.t, e.after.t, e.now)
    && (e.command.ChangeDir? || e.cwd' == Some(e.cwd))
    && var w, w', c, d := e.before, e.after, e.cwd, DirIn(e.before, e.cwd);
       match e.command
       case MkFile(name, mode) => e.n <= BITS && Made(w, w', c, d, name, FileInode(e.n, e.uid, mode, e.now), e.ok)
       case MkDirectory(name, mode) =>
         MadeDir(w, w', c, d, name, e.n, e.uid, mode, e.ok) && (e.ok ==> e.n < |w'.t| && Timed(w'.t[e.n], e.now))
       case RmFile(name) => Removed(w, w', d, name, e.ok)
       case CatFile(name) => if Findable(w, d, name) then e.data.Some? && Catted(w, w', d, name, e.data.value) else NotFound(w, w', d, name)
       case WriteFile(name, data) => WriteDone(w, e.base, w', c, d, name, data, e.n, e.uid, e.now, e.ok)
       case InsertFile(name, pos, data) => if Findable(w, d, name) then InsertedInto(w, w', d, name, pos, data) else NotFound(w, w', d, name)
       case DeleteFile(name, pos, len) =>
         if Cuttable(w, d, name, pos) then DeletedFrom(w, w', d, name, pos, len, !LeavesHole(w, c, e.command))
         else if Findable(w, d, name) then BeyondEnd(w, w', d, name, pos)
         else NotFound(w, w', d, name)
       case ChangeDir(path) => MovedTo(w, w', d, path, e.ok, e.cwd')
  }

  lemma HappenedReady(e: Event)
    requires Happened(e)
    ensures Ready(e.before, e.cwd) && !Spoils(e.before, e.cwd, e.command) && (e.command.ChangeDir? || e.cwd' == Some(e.cwd))
    ensures Ticked(e.before.t, e.after.t, e.now)
  {
    hide Ready, Spoils, Ticked;
  }

  // ---------------------------------------------------------------- what any command keeps

  /** Inodes in use keep their types. */
  ghost predicate KindsKept(w: World, w': World) {
    |w'.t| == |w.t| && |w.refs| == |w.t| && forall m :: 0 <= m < |w.t| && w.refs[m] > 0 ==> w'.t[m].kind == w.t[m].kind
  }

  lemma WalkedKept(w: World, w': World)
    requires Walked(w, w') && |w.refs| == |w.t|
    ensures KindsKept(w, w')
  {
    WalkedKinds(w, w');
    hide Walked;
  }

  lemma ButKept(w: World, w': World, n: nat)
    requires WalkedBut(w, w', n) && |w.refs| == |w.t|
    requires n < |w.t| && w.refs[n] > 0 ==> w'.t[n].kind == w.t[n].kind
    ensures KindsKept(w, w')
  {
    hide SameFile;
  }

  lemma HandledKept(w: World, w': World, m: nat)
    requires Handled(w, w', m) && |w.refs| == |w.t|
    ensures KindsKept(w, w')
  {
    hide WalkedBut, KeptSlots;
    ButKept(w, w', m);
  }

  lemma But2Kept(w: World, w': World, n: nat, d: nat)
    requires WalkedBut2(w, w', n, d) && |w.refs| == |w.t|
    requires n < |w.t| && w.refs[n] > 0 ==> w'.t[n].kind == w.t[n].kind
    requires d < |w.t| ==> w'.t[d].kind == w.t[d].kind
    ensures KindsKept(w, w')
  {
    hide SameFile;
  }

  /** A number that is free is not in use. */
  lemma FreeUnused(w: World, n: nat)
    requires FsOk(w) && n < |w.t| && !Numbered(w, n)
    ensures n < |w.refs| && w.refs[n] == 0
  {
    hide SoundWorld, FilesOk, RootOk, Numbered;
  }

  lemma MadeKinds(w: World, w': World, c: nat, d: nat, name: seq<byte>, x: Inode, ok: bool)
    requires FsOk(w) && c < |w.ss| && d < |w.t| && |w.t| == |w.refs| == NINODES && Made(w, w', c, d, name, x, ok)
    ensures KindsKept(w, w')
  {
    hide FsOk, KeptSlots, Records, InUse, D.Lookup, AddHasRoom, AddOverruns, FirstFree, Super, Numbered, Walked, WalkedBut, WalkedBut2, D.Added;
    if ok {
      if x.inum < |w.t| { FreeUnused(w, x.inum); }
      But2Kept(w, w', x.inum, d);
    } else if Walked(w, w') {
      WalkedKept(w, w');
    } else {
      if x.inum < |w.t| { FreeUnused(w, x.inum); }
      ButKept(w, w', x.inum);
    }
  }

  lemma MadeDirKinds(w: World, w': World, c: nat, d: nat, name: seq<byte>, n: nat, uid: uint32, mode: uint32, ok: bool)
    requires FsOk(w) && c < |w.ss| && d < |w.t| && |w.t| == |w.refs| == NINODES && MadeDir(w, w', c, d, name, n, uid, mode, ok)
    ensures KindsKept(w, w')
  {
    hide FsOk, KeptSlots, Records, InUse, D.Lookup, AddHasRoom, AddOverruns, Super, Numbered, Walked, WalkedBut, WalkedBut2, D.Added,
      Capacity, Dots;
    if ok {
      FreeUnused(w, n);
      But2Kept(w, w', n, d);
    } else if Walked(w, w') {
      WalkedKept(w, w');
    } else {
      if n < |w.t| { FreeUnused(w, n); }
      ButKept(w, w', n);
    }
  }

  lemma RemovedKinds(w: World, w': World, d: nat, name: seq<byte>, ok: bool)
    requires d < |w.t| == |w.refs| && Removed(w, w', d, name, ok)
    ensures KindsKept(w, w')
  {
    hide FsOk, KeptSlots, Records, InUse, D.Lookup, D.Victim, Walked, WalkedBut2, SameSuper;
    if ok {
      But2Kept(w, w', D.Lookup(Records(w, d), name, T_FILE).value, d);
    } else {
      WalkedKept(w, w');
    }
  }

  /** No slot in use changes its inode, and no inode in use its type. */
  ghost predicate Kept(w: World, w': World) {
    KeptSlots(w, w') && KindsKept(w, w')
  }

  lemma KeptBoth(w: World, w1: World, w2: World)
    requires Kept(w, w1) && Kept(w1, w2) && w1.refs == w.refs
    ensures Kept(w, w2)
  {
  }

  lemma MadeStep(w: World, w': World, c: nat, d: nat, name: seq<byte>, x: Inode, ok: bool)
    requires FsOk(w) && c < |w.ss| && d < |w.t| && |w.t| == |w.refs| == NINODES && Made(w, w', c, d, name, x, ok)
    ensures FsOk(w') && Kept(w, w') && w'.refs == RefsAfter(w, d, name, T_FILE) && |w'.t| == |w.t|
  {
    MadeKinds(w, w', c, d, name, x, ok);
    hide FsOk, KeptSlots, Records, Obtainable, Creatable, AddHasRoom, AddOverruns, UsedByAdd, FirstFree, Super, WalkedBut, Linked, Bare, SameSuper;
  }

  lemma MadeDirStep(w: World, w': World, c: nat, d: nat, name: seq<byte>, n: nat, uid: uint32, mode: uint32, ok: bool)
    requires FsOk(w) && c < |w.ss| && d < |w.t| && |w.t| == |w.refs| == NINODES && MadeDir(w, w', c, d, name, n, uid, mode, ok)
    ensures FsOk(w') && Kept(w, w') && w'.refs == RefsAfter(w, d, name, T_DIR)
  {
    MadeDirKinds(w, w', c, d, name, n, uid, mode, ok);
    hide FsOk, KeptSlots, Records, Obtainable, Creatable, RoomBeside, OverrunsBeside, FirstFree, Super, WalkedBut, Linked, Bare, SameSuper, Dots;
  }

  lemma RemovedStep(w: World, w': World, d: nat, name: seq<byte>, ok: bool)
    requires d < |w.t| == |w.refs| && Removed(w, w', d, name, ok)
    ensures FsOk(w') && Kept(w, w') && w'.refs == w.refs
  {
    RemovedKinds(w, w', d, name, ok);
    hide FsOk, KeptSlots, Records, Obtainable, D.Lookup, D.Victim, Walked, WalkedBut2, SameSuper;
  }

  lemma NotFoundStep(w: World, w': World, d: nat, name: seq<byte>)
    requires d < |w.t| == |w.refs| && NotFound(w, w', d, name)
    ensures FsOk(w') && Kept(w, w') && w'.refs == w.refs
  {
    hide FsOk, KeptSlots, Findable, Walked;
    WalkedKept(w, w');
  }

  lemma HandledStep(w: World, w': World, m: nat)
    requires Handled(w, w', m) && |w.refs| == |w.t|
    ensures Kept(w, w') && w'.refs == w.refs
  {
    HandledKept(w, w', m);
    hide KeptSlots, WalkedBut;
  }

  lemma WrittenStep(w: World, w': World, d: nat, name: seq<byte>, data: seq<byte>)
    requires d < |w.t| == |w.refs| && WrittenTo(w, w', d, name, data)
    ensures FsOk(w') && Kept(w, w') && w'.refs == w.refs
  {
    hide FsOk, Handled, FileNamed, HasRoom, Contents, FileOverruns, Super, Kept;
    HandledStep(w, w', FileNamed(w, d, name).value);
  }

  lemma WriteStep(w: World, base: World, w': World, c: nat, d: nat, name: seq<byte>, data: seq<byte>,
                  n: uint32, uid: uint32, now: uint32, ok: bool)
    requires FsOk(w) && c < |w.ss| && w.ss[c].ino.inum == d < NINODES == |w.t| == |w.refs|
    requires WriteDone(w, base, w', c, d, name, data, n, uid, now, ok)
    ensures FsOk(w') && Kept(w, w') && w'.refs == w.refs
  {
    hide FsOk, Made, NotFound, WrittenTo, Kept, Records, FileInode, Creatable, Keeps, Findable;
    var x := FileInode(n, uid, 0x1A4, now);
    if Findable(w, d, name) {
      WrittenStep(w, w', d, name, data);
    } else if Creatable(w, d, name, T_FILE) {
      MadeStep(w, base, c, d, name, x, true);
      FsOkOrdered(base);
      NoneTaken(w, d, name);
      if Keeps(w, c, d, name) { WrittenStep(base, w', d, name, data); } else { NotFoundStep(base, w', d, name); }
      KeptBoth(w, base, w');
    } else {
      MadeStep(w, w', c, d, name, x, false);
      NoneTaken(w, d, name);
    }
  }

  lemma NoneTaken(w: World, d: nat, name: seq<byte>)
    requires d < |w.t| && !Findable(w, d, name)
    ensures RefsAfter(w, d, name, T_FILE) == w.refs
  {
    hide Obtainable;
  }

  lemma InsertStep(e: Event)
    requires Happened(e) && e.command.InsertFile?
    ensures FsOk(e.after) && Kept(e.before, e.after) && e.after.refs == e.before.refs
  {
    hide FsOk, NotFound, Handled, FileNamed, HasRoom, Contents, InsertedOver, Super, Kept, Findable;
    var w, w', d, name := e.before, e.after, DirIn(e.before, e.cwd), e.command.name;
    if Findable(w, d, name) { HandledStep(w, w', FileNamed(w, d, name).value); } else { NotFoundStep(w, w', d, name); }
  }

  lemma DeleteStep(e: Event)
    requires Happened(e) && e.command.DeleteFile?
    ensures FsOk(e.after) <==> !LeavesHole(e.before, e.cwd, e.command)
    ensures Kept(e.before, e.after) && e.after.refs == e.before.refs
  {
    hide FsOk, NotFound, Handled, FileNamed, HasRoom, Contents, FileOverruns, Super, Kept, TailPos, SameSuper, Findable;
    var w, w', d, name := e.before, e.after, DirIn(e.before, e.cwd), e.command.name;
    if Findable(w, d, name) { HandledStep(w, w', FileNamed(w, d, name).value); } else { NotFoundStep(w, w', d, name); }
  }

  lemma CatStep(e: Event)
    requires Happened(e) && e.command.CatFile?
    ensures FsOk(e.after) && Kept(e.before, e.after) && e.after.refs == e.before.refs
  {
    hide FsOk, NotFound, Handled, FileNamed, Contents, Kept, SameSuper, Findable;
    var w, w', d, name := e.before, e.after, DirIn(e.before, e.cwd), e.command.name;
    if Findable(w, d, name) { HandledStep(w, w', FileNamed(w, d, name).value); } else { NotFoundStep(w, w', d, name); }
  }

  /** The references after a command other than `cd`. */
  ghost function RefsLeft(w: World, c: nat, a: Command): seq<nat>
    requires Ready(w, c)
  {
    match a
    case MkFile(name, _) => RefsAfter(w, DirIn(w, c), name, T_FILE)
    case MkDirectory(name, _) => RefsAfter(w, DirIn(w, c), name, T_DIR)
    case _ => w.refs
  }

  /** Any command other than `cd` keeps the slots in use and the types of the inodes in use, leaves the
      references that can be told before it, and leaves everything in order exactly if it leaves
      no hole. */
  lemma EventKept(e: Event)
    requires Happened(e) && !e.command.ChangeDir?
    ensures FsOk(e.after) <==> !LeavesHole(e.before, e.cwd, e.command)
    ensures Kept(e.before, e.after) && e.after.refs == RefsLeft(e.before, e.cwd, e.command)
  {
    hide FsOk, Made, MadeDir, Removed, NotFound, Catted, WriteDone, InsertedInto, DeletedFrom, BeyondEnd, MovedTo, Kept, Records, D.Lookup,
      Findable, Spoils, RefsAfter, Cuttable, HasRoom, TailPos, FileNamed;
    var w, w', c, d := e.before, e.after, e.cwd, DirIn(e.before, e.cwd);
    match e.command
    case MkFile(name, mode) => MadeStep(w, w', c, d, name, FileInode(e.n, e.uid, mode, e.now), e.ok);
    case MkDirectory(name, mode) => MadeDirStep(w, w', c, d, name, e.n, e.uid, mode, e.ok);
    case RmFile(name) => RemovedStep(w, w', d, name, e.ok);
    case CatFile(name) => CatStep(e);
    case WriteFile(name, data) => WriteStep(w, e.base, w', c, d, name, data, e.n, e.uid, e.now, e.ok);
    case InsertFile(name, pos, data) => InsertStep(e);
    case DeleteFile(name, pos, len) => DeleteStep(e);
  }

  /** A command other than `cd` loses a reference exactly when it is a `mk` or `mkdir` of a name that is taken
      and whose inode can be acquired, however many inodes are in use. */
  lemma LeaksExactly(e: Event)
    requires Happened(e) && !e.command.ChangeDir?
    ensures e.after.refs != e.before.refs <==> Leaks(e.before, e.cwd, e.command)
    ensures var x := Leaked(e.before, e.cwd, e.command);
      e.after.refs == if x.Some? && x.value < |e.before.refs| then More(e.before.refs, x.value) else e.before.refs
  {
    hide FsOk, D.Lookup, Records, Obtainable, Spoils, LeavesHole, Kept;
    EventKept(e);
    HappenedReady(e);
    hide Happened;
    if Leaks(e.before, e.cwd, e.command) { LeakedHeld(e.before, e.cwd, e.command); }
  }

  lemma LeakedHeld(w: World, c: nat, a: Command)
    requires Ready(w, c) && Leaks(w, c, a)
    ensures Leaked(w, c, a).Some? && Leaked(w, c, a).value < |w.refs|
    ensures More(w.refs, Leaked(w, c, a).value) != w.refs
  {
    hide FsOk, D.Lookup, Records, Held;
    FsOkOrdered(w);
    LookupNumbered(w, DirIn(w, c), a.name, KindOf(a));
    var m := Leaked(w, c, a).value;
    assert More(w.refs, m)[m] != w.refs[m];
  }

  // ---------------------------------------------------------------- doing it

  /** A command of a session, so far without effect. */
  function Giving(session: nat, a: Command, uid: uint32, now: uint32, cwd: nat, w: World): Event {
    Event(session, a, uid, now, cwd, Some(cwd), w, w, w, 0, None, false)
  }

  /** `cd` on a session's slot. */
  method ExecuteCd(fs: FileSystem, cwd: nat, path: seq<byte>, now: uint32) returns (ok: bool, cwd': Option<nat>)
    requires fs.Valid() && fs.IsInode(cwd) && |fs.table| == NINODES && FsOk(fs.Now()) && Sensible(ChangeDir(path))
    requires fs.slots[cwd].ino.kind == T_DIR
    modifies fs, fs.slots, fs.dev, fs.dev.arr, fs.dev.disk.data
    ensures fs.Valid() && fs.sb == old(fs.sb) && FsOk(fs.Now())
    ensures |old(fs.table)| == |old(fs.refs)| == NINODES && old(fs.refs)[old(fs.slots[cwd].ino.inum)] > 0
    ensures MovedTo(old(fs.Now()), fs.Now(), old(fs.slots[cwd].ino.inum), path, ok, cwd') && Ticked(old(fs.table), fs.table, now)
    ensures cwd'.Some? ==> fs.IsInode(cwd'.value) && fs.slots[cwd'.value].ino.kind == T_DIR
  {
    hide Inv, SoundWorld, FsOk, MovedTo, DirsOk, PathTaken, Ticked;
    ghost var w, d := fs.Now(), fs.slots[cwd].ino.inum;
    FsOkOrdered(w);
    OrderedDirs(w);
    SoundSlot(w, cwd);
    ok, cwd' := Cd(fs, cwd, path, now);
    CdFsOk(w, fs.Now(), d, path, ok, cwd');
    CdDir(w, fs.Now(), d, path, ok, cwd');
  }

  lemma CdDir(w: World, w': World, n: nat, path: seq<byte>, ok: bool, c: Option<nat>)
    requires FsOk(w) && FsOk(w') && |w.t| == |w.refs| == NINODES && n < NINODES && w.refs[n] > 0 && w.t[n].kind == T_DIR
    requires MovedTo(w, w', n, path, ok, c)
    ensures c.Some? ==> c.value < |w'.ss| && w'.ss[c.value].ino.inum < NINODES && w'.ss[c.value].ino.kind == T_DIR
    ensures c.None? ==> path == [SEPARATOR]
  {
    hide Ordered, SoundWorld, Walked, Held, InUse, Numbered, Resolve, Names, OthersKept;
    WalkedKinds(w, w');
    if c.Some? { SoundSlot(w', c.value); }
  }

  /** The slot of a session that has not moved still holds its directory. */
  lemma SlotKept(w: World, w': World, c: nat)
    requires Kept(w, w') && SoundWorld(w) && SoundWorld(w') && |w.refs| == NINODES
    requires c < |w.ss| && w.ss[c].ino.inum < NINODES && w.ss[c].ino.kind == T_DIR
    ensures c < |w'.ss| && w'.ss[c].ino.inum == w.ss[c].ino.inum && w'.ss[c].ino.kind == T_DIR
  {
    hide SoundWorld;
    SoundSlot(w, c);
    SoundSlot(w', c);
  }

  lemma ReadyIntro(w: World, c: nat)
    requires FsOk(w) && c < |w.ss| == NCACHE && w.ss[c].ino.inum < NINODES && w.ss[c].ino.kind == T_DIR
    ensures Ready(w, c)
  {
    hide FsOk, SoundWorld;
    FsOkOrdered(w);
    SoundSlot(w, c);
  }

  lemma HoleOnly(w: World, c: nat, a: Command)
    requires Ready(w, c) && !a.DeleteFile?
    ensures !LeavesHole(w, c, a)
  {
  }

  lemma HoleIs(w: World, w': World, c: nat, a: Command, ok: bool, whole: bool)
    requires Ready(w, c) && a.DeleteFile? && (ok <==> Cuttable(w, DirIn(w, c), a.name, a.pos)) && (!ok ==> whole)
    requires ok ==> DeletedFrom(w, w', DirIn(w, c), a.name, a.pos, a.len, whole)
    ensures whole <==> !LeavesHole(w, c, a)
  {
    hide FsOk, Handled, HasRoom, Contents, Super, TailPos, FileOverruns, Findable;
  }

  /** One command of one session, whose working directory is cached in slot `cwd`. `spilt` and `whole` are what
      the source does not report. */
  method Execute(fs: FileSystem, session: nat, cwd: nat, a: Command, uid: uint32, now: uint32)
    returns (cwd': Option<nat>, spilt: bool, whole: bool, ghost e: Event)
    requires fs.Valid() && fs.IsInode(cwd) && |fs.table| == NINODES && FsOk(fs.Now()) && Sensible(a)
    requires fs.slots[cwd].ino.kind == T_DIR
    modifies fs, fs.slots, fs.dev, fs.dev.arr, fs.dev.disk.data
    ensures fs.DeviceOk() && fs.sb == old(fs.sb) && Ready(old(fs.Now()), cwd)
    ensures e.session == session && e.command == a && e.uid == uid && e.now == now && e.cwd == cwd && e.cwd' == cwd'
    ensures e.before == old(fs.Now()) && e.after == fs.Now()
    ensures spilt <==> Spoils(old(fs.Now()), cwd, a)
    ensures spilt ==> Overflowed(old(fs.Now()), fs.Now(), e.n, KindOf(a), now)
    ensures !spilt ==> fs.Valid() && Happened(e) && whole == !LeavesHole(old(fs.Now()), cwd, a) && (FsOk(fs.Now()) <==> whole)
    ensures !spilt && cwd'.Some? ==> fs.IsInode(cwd'.value) && fs.slots[cwd'.value].ino.kind == T_DIR
  {
    hide Inv, SoundWorld, FsOk, NotFound, Made, MadeDir, Removed, Catted, InsertedInto, DeletedFrom, BeyondEnd, WriteDone,
      MovedTo, Spilling, Findable, Obtainable, Ready, Kept, RefsLeft, Overflowed, LeavesHole, Cuttable, Ticked, StampedFile, Timed, FileFields;
    ghost var w := fs.Now();
    e := Giving(session, a, uid, now, cwd, w);
    ReadyIntro(w, cwd);
    cwd', spilt, whole := Some(cwd), false, true;
    match a {
      case MkFile(name, mode) =>
        var ok;
        ghost var n;
        ok, spilt, n := Mk(fs, cwd, name, uid, mode, now);
        e := e.(ok := ok, n := n, after := fs.Now());
      case MkDirectory(name, mode) =>
        var ok;
        ghost var n;
        ok, spilt, n := Mkdir(fs, cwd, name, uid, mode, now);
        e := e.(ok := ok, n := n, after := fs.Now());
      case RmFile(name) =>
        var ok := Rm(fs, cwd, name, now);
        e := e.(ok := ok, after := fs.Now());
      case CatFile(name) =>
        var data := Cat(fs, cwd, name, now);
        e := e.(data := data, after := fs.Now());
      case WriteFile(name, data) =>
        var ok;
        ghost var base, n;
        ok, spilt, base, n := Write(fs, cwd, name, data, uid, now);
        e := e.(ok := ok, base := base, n := n, after := fs.Now());
      case InsertFile(name, pos, data) =>
        var ok := Insert(fs, cwd, name, pos, data, now);
        e := e.(ok := ok, after := fs.Now());
      case DeleteFile(name, pos, len) =>
        var ok;
        ok, whole := Delete(fs, cwd, name, pos, len, now);
        HoleIs(w, fs.Now(), cwd, a, ok, whole);
        e := e.(ok := ok, after := fs.Now());
      case ChangeDir(path) =>
        var ok;
        ok, cwd' := ExecuteCd(fs, cwd, path, now);
        HoleOnly(w, cwd, a);
        e := e.(ok := ok, cwd' := cwd', after := fs.Now());
        return;
    }
    if spilt { return; }
    if !a.DeleteFile? { HoleOnly(w, cwd, a); }
    EventKept(e);
    FsOkOrdered(w);
    SlotKept(w, fs.Now(), cwd);
  }
}
