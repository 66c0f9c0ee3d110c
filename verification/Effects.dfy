/** What one command does to block 0, which holds the superblock, and to the keys of directories. */
module Effects {
  import opened Bytes
  import opened Results
  import opened Inodes
  import opened BlockTree
  import opened Growth
  import opened Files
  import opened InodeCache
  import opened World
  import opened Writes
  import opened BlockZero
  import opened Editing
  import opened DirOps
  import opened Walking
  import opened Session
  import opened Invariant
  import opened Numbering
  import opened Namespace
  import opened MakeDir
  import opened Removal
  import opened Shell
  import opened Events
  import D = Directory

  // ---------------------------------------------------------------- the superblock

  /** One of the writes that the command consists of will run out of blocks at a pointer block. This is told by the
      tree and the free blocks before the command, and by what it has to do. */
  ghost predicate Wipes(w: World, c: nat, a: Command)
    requires Ready(w, c)
  {
    var d, es := DirIn(w, c), Records(w, DirIn(w, c));
    match a
    case MkFile(name, _) => Creatable(w, d, name, T_FILE) && AddOverruns(w, c, es)
    case MkDirectory(name, _) => Creatable(w, d, name, T_DIR) && OverrunsBeside(w, c, es)
    case WriteFile(name, data) =>
      if Findable(w, d, name) then NamedOver(w, d, name, 0, |data|)
      else
        && Creatable(w, d, name, T_FILE)
        && (AddOverruns(w, c, es) || (Keeps(w, c, d, name) && Overrun(w.v, NoAddrs(), UsedByAdd(w, c, es), 0, |data|)))
    case InsertFile(name, pos, data) => Findable(w, d, name) && InsertOver(w, d, name, pos, |data|)
    case DeleteFile(name, pos, len) => Cuttable(w, d, name, pos) && DeleteOver(w, d, name, pos, len)
    case _ => false
  }

  ghost predicate NamedOver(w: World, d: nat, name: seq<byte>, off: nat, n: nat) {
    && d < |w.t| && FileNamed(w, d, name).Some? && FileNamed(w, d, name).value < |w.t|
    && FileOverruns(w, FileNamed(w, d, name).value, off, n)
  }

  ghost predicate InsertOver(w: World, d: nat, name: seq<byte>, pos: nat, len: nat) {
    && d < |w.t| && FileNamed(w, d, name).Some?
    && var m := FileNamed(w, d, name).value;
       m < |w.t| && InsertedOver(w, m, Min(pos, |File(w, m)|), len)
  }

  ghost predicate DeleteOver(w: World, d: nat, name: seq<byte>, pos: uint32, len: uint32) {
    && d < |w.t| && FileNamed(w, d, name).Some?
    && var m := FileNamed(w, d, name).value;
       && m < |w.t| && pos <= |File(w, m)| < 0x1_0000_0000
       && FileOverruns(w, m, pos, |File(w, m)| - TailPos(pos, len, |File(w, m)|))
  }

  lemma SuperIntro(v: seq<Block>, v': seq<Block>)
    requires SameSuper(v, v') && 0 < |v|
    ensures Super(v, v', false)
  {
  }

  lemma HasZero(w: World)
    requires FsOk(w)
    ensures 0 < |w.v|
  {
    hide FsOk;
    FsOkOrdered(w);
  }

  lemma WalkedSuperOf(w: World, w': World)
    requires FsOk(w) && Walked(w, w')
    ensures Super(w.v, w'.v, false)
  {
    hide FsOk, Walked;
    HasZero(w);
    WalkedSuper(w, w');
    SuperIntro(w.v, w'.v);
  }

  lemma NotFoundSuper(w: World, w': World, d: nat, name: seq<byte>)
    requires FsOk(w) && d < |w.t| && NotFound(w, w', d, name)
    ensures Super(w.v, w'.v, false) && FsOk(w')
  {
    hide FsOk, Walked, KeptSlots, Findable, Super;
    WalkedSuperOf(w, w');
  }

  lemma MadeSuper(w: World, w': World, c: nat, d: nat, name: seq<byte>, x: Inode, ok: bool)
    requires FsOk(w) && c < |w.ss| && d < |w.t| && |w.t| == NINODES && Made(w, w', c, d, name, x, ok)
    ensures Super(w.v, w'.v, Creatable(w, d, name, T_FILE) && AddOverruns(w, c, Records(w, d))) && FsOk(w')
  {
    HasZero(w);
    hide FsOk, KeptSlots, Records, Obtainable, Creatable, AddHasRoom, AddOverruns, UsedByAdd, FirstFree, WalkedBut, Linked, Bare;
  }

  lemma MadeDirSuper(w: World, w': World, c: nat, d: nat, name: seq<byte>, n: nat, uid: uint32, mode: uint32, ok: bool)
    requires FsOk(w) && c < |w.ss| && d < |w.t| && |w.t| == NINODES && d < NINODES && MadeDir(w, w', c, d, name, n, uid, mode, ok)
    ensures Super(w.v, w'.v, Creatable(w, d, name, T_DIR) && OverrunsBeside(w, c, Records(w, d)))
  {
    HasZero(w);
    hide FsOk, KeptSlots, Records, Obtainable, Creatable, RoomBeside, OverrunsBeside, FirstFree, WalkedBut, Linked, Bare, Dots;
  }

  lemma RemovedSuper(w: World, w': World, d: nat, name: seq<byte>, ok: bool)
    requires FsOk(w) && d < |w.t| && Removed(w, w', d, name, ok)
    ensures Super(w.v, w'.v, false)
  {
    HasZero(w);
    hide FsOk, KeptSlots, Records, Obtainable, D.Lookup, D.Victim, Walked, WalkedBut2;
  }

  lemma WrittenSuper(w: World, w': World, d: nat, name: seq<byte>, data: seq<byte>)
    requires d < |w.t| && WrittenTo(w, w', d, name, data)
    ensures Super(w.v, w'.v, NamedOver(w, d, name, 0, |data|))
  {
    hide Worked, FileNamed, HasRoom, Contents, FileOverruns, Super;
  }

  lemma WriteSuper(e: Event)
    requires Happened(e) && e.command.WriteFile?
    ensures Super(e.before.v, e.after.v, Wipes(e.before, e.cwd, e.command))
  {
    hide FsOk, Made, NotFound, WrittenTo, Records, Super, AddOverruns, NamedOver, NoAddrs, Findable, Creatable, Keeps, Overrun, UsedByAdd,
      Spoils;
    var w, base, w', c, d, name := e.before, e.base, e.after, e.cwd, DirIn(e.before, e.cwd), e.command.name;
    var x := FileInode(e.n, e.uid, 0x1A4, e.now);
    if Findable(w, d, name) {
      WrittenSuper(w, w', d, name, e.command.data);
    } else if !Creatable(w, d, name, T_FILE) {
      MadeSuper(w, w', c, d, name, x, false);
    } else {
      MadeSuper(w, base, c, d, name, x, true);
      FoundAgain(w, base, c, d, name, x);
      if Keeps(w, c, d, name) {
        WrittenSuper(base, w', d, name, e.command.data);
        NewOver(w, base, c, d, name, x, |e.command.data|);
        SuperTrans(w.v, base.v, w'.v, AddOverruns(w, c, Records(w, d)), NamedOver(base, d, name, 0, |e.command.data|));
      } else {
        NotFoundSuper(base, w', d, name);
        SuperTrans(w.v, base.v, w'.v, AddOverruns(w, c, Records(w, d)), false);
      }
    }
  }

  lemma NewOver(w: World, base: World, c: nat, d: nat, name: seq<byte>, x: Inode, n: nat)
    requires FsOk(w) && c < |w.ss| && d < |w.t| && |w.t| == NINODES && Made(w, base, c, d, name, x, true) && x.addrs == NoAddrs()
    requires d < |base.t| && FileNamed(base, d, name) == Some(x.inum)
    ensures NamedOver(base, d, name, 0, n) <==> Overrun(w.v, NoAddrs(), UsedByAdd(w, c, Records(w, d)), 0, n)
  {
    hide FsOk, Made, Records, UsedByAdd, Overrun, FileNamed, NoAddrs, HasRoom, FileOverruns, Missing;
    NewFileRoom(w, base, c, d, name, x, n);
  }

  lemma InsertSuperOf(e: Event)
    requires Happened(e) && e.command.InsertFile?
    ensures Super(e.before.v, e.after.v, Wipes(e.before, e.cwd, e.command))
  {
    hide FsOk, NotFound, Worked, FileNamed, HasRoom, Contents, InsertedOver, Super, Findable, Spoils;
    if !Findable(e.before, DirIn(e.before, e.cwd), e.command.name) {
      NotFoundSuper(e.before, e.after, DirIn(e.before, e.cwd), e.command.name);
    }
  }

  lemma DeleteSuperOf(e: Event)
    requires Happened(e) && e.command.DeleteFile?
    ensures Super(e.before.v, e.after.v, Wipes(e.before, e.cwd, e.command))
  {
    HasZero(e.before);
    hide FsOk, NotFound, Handled, FileNamed, HasRoom, Contents, FileOverruns, TailPos, Findable, Spoils, LeavesHole;
    var w, w', d, name := e.before, e.after, DirIn(e.before, e.cwd), e.command.name;
    if Cuttable(w, d, name, e.command.pos) {
      DeletedSizes(w, w', d, name, e.command.pos, e.command.len, !LeavesHole(w, e.cwd, e.command));
    } else if !Findable(w, d, name) {
      NotFoundSuper(w, w', d, name);
    }
  }

  lemma DeletedSizes(w: World, w': World, d: nat, name: seq<byte>, pos: uint32, len: uint32, whole: bool)
    requires d < |w.t| && DeletedFrom(w, w', d, name, pos, len, whole)
    ensures FileNamed(w, d, name).Some? && FileNamed(w, d, name).value < |w.t|
    ensures var m := FileNamed(w, d, name).value; pos <= |File(w, m)| < 0x1_0000_0000
  {
    hide KeptSlots, WalkedBut, FileNamed, HasRoom, FileOverruns, Super, TailPos, FsOk;
    SizeOf(w, FileNamed(w, d, name).value);
  }

  lemma CatSuper(e: Event)
    requires Happened(e) && e.command.CatFile?
    ensures Super(e.before.v, e.after.v, false)
  {
    HasZero(e.before);
    hide FsOk, NotFound, Worked, FileNamed, Contents, Findable, Spoils;
    if e.data.None? || !Findable(e.before, DirIn(e.before, e.cwd), e.command.name) {
      NotFoundSuper(e.before, e.after, DirIn(e.before, e.cwd), e.command.name);
    }
  }

  lemma MovedSuper(w: World, w': World, n: nat, path: seq<byte>, ok: bool, cwd': Option<nat>)
    requires FsOk(w) && |w.t| == |w.refs| == NINODES && n < NINODES && w.refs[n] > 0 && MovedTo(w, w', n, path, ok, cwd')
    ensures Super(w.v, w'.v, false)
  {
    hide FsOk, SoundWorld, Walked, Held, InUse, Target, OthersKept, Super;
    WalkedSuperOf(w, w');
  }

  /** Every command zeroes block 0 or leaves it alone, and zeroes it exactly when one of its writes
      runs out of blocks at a pointer block, which can be told before it. */
  lemma EventSuper(e: Event)
    requires Happened(e)
    ensures Ready(e.before, e.cwd) && Super(e.before.v, e.after.v, Wipes(e.before, e.cwd, e.command))
  {
    hide FsOk, Made, MadeDir, Removed, NotFound, Catted, WriteDone, InsertedInto, DeletedFrom, BeyondEnd, MovedTo, Records, Findable,
      AddOverruns, OverrunsBeside, Creatable, NamedOver, InsertOver, DeleteOver, Super, Spoils, LeavesHole, Keeps, UsedByAdd, Overrun;
    var w, w', c, d := e.before, e.after, e.cwd, DirIn(e.before, e.cwd);
    match e.command
    case MkFile(name, mode) => MadeSuper(w, w', c, d, name, FileInode(e.n, e.uid, mode, e.now), e.ok);
    case MkDirectory(name, mode) => MadeDirSuper(w, w', c, d, name, e.n, e.uid, mode, e.ok);
    case RmFile(name) => RemovedSuper(w, w', d, name, e.ok);
    case CatFile(name) => CatSuper(e);
    case WriteFile(name, data) => WriteSuper(e);
    case InsertFile(name, pos, data) => InsertSuperOf(e);
    case DeleteFile(name, pos, len) => DeleteSuperOf(e);
    case ChangeDir(path) => MovedSuper(w, w', d, path, e.ok, e.cwd');
  }

  // ---------------------------------------------------------------- keys

  /** No two live records have the same name and type, and no stored name is longer than 25 bytes. */
  ghost predicate NameKeys(es: seq<D.Entry>) {
    D.UniqueKeys(es) && forall i :: 0 <= i < |es| ==> |es[i].name| < D.MAXNAME
  }

  ghost predicate KeysAt(w: World, m: nat)
    requires m < |w.t|
  {
    w.t[m].kind == T_DIR ==> NameKeys(Records(w, m))
  }

  /** So in every directory. */
  ghost predicate KeysOk(w: World) {
    forall m :: 0 <= m < |w.t| ==> KeysAt(w, m)
  }

  /** The name as it is stored is already the key of a live record. */
  predicate Doubles(es: seq<D.Entry>, name: seq<byte>, kind: uint16) {
    D.Lookup(es, D.Cut(name, D.MAXNAME - 1), kind) != None
  }

  /** The command will add a record whose name, as it is stored, is taken. */
  ghost predicate Clashes(w: World, c: nat, a: Command)
    requires Ready(w, c)
  {
    var d, es := DirIn(w, c), Records(w, DirIn(w, c));
    match a
    case MkFile(name, _) => Creatable(w, d, name, T_FILE) && AddHasRoom(w, c, es) && Doubles(es, name, T_FILE)
    case MkDirectory(name, _) => Creatable(w, d, name, T_DIR) && RoomBeside(w, c, es) && Doubles(es, name, T_DIR)
    case WriteFile(name, _) => Creatable(w, d, name, T_FILE) && AddHasRoom(w, c, es) && Doubles(es, name, T_FILE)
    case _ => false
  }

  lemma WalkedKeys(w: World, w': World)
    requires Walked(w, w')
    ensures KeysOk(w') <==> KeysOk(w)
  {
    hide Walked, NameKeys, Records;
    WalkedTable(w, w');
    forall m | 0 <= m < |w.t| ensures KeysAt(w', m) <==> KeysAt(w, m) {
      WalkedFile(w, w', m);
    }
  }

  lemma SameKeysAt(w: World, w': World, m: nat)
    requires m < |w.t| == |w'.t| && SameFile(w.v, w.t[m].addrs, w'.v) && w'.t[m] == w.t[m].(atime := w'.t[m].atime)
    ensures KeysAt(w', m) <==> KeysAt(w, m)
  {
    hide SameFile, NameKeys, Contents, D.Entries;
    SameFileContents(w.v, w.t[m], w'.v);
    SameContents(w'.v, w'.t[m], w.t[m]);
  }

  lemma ButKeys(w: World, w': World, n: nat)
    requires WalkedBut(w, w', n) && KeysOk(w) && n < |w.t|
    ensures n < |w'.t| && (KeysOk(w') <==> KeysAt(w', n))
  {
    hide SameFile, KeysAt;
    forall m | 0 <= m < |w.t| && m != n ensures KeysAt(w', m) {
      assert KeysAt(w, m);
      SameKeysAt(w, w', m);
    }
  }

  lemma But2Keys(w: World, w': World, n: nat, d: nat)
    requires WalkedBut2(w, w', n, d) && KeysOk(w) && n < |w.t| && d < |w.t|
    ensures n < |w'.t| && d < |w'.t| && (KeysOk(w') <==> KeysAt(w', n) && KeysAt(w', d))
  {
    hide SameFile, KeysAt;
    forall m | 0 <= m < |w.t| && m != n && m != d ensures KeysAt(w', m) {
      assert KeysAt(w, m);
      SameKeysAt(w, w', m);
    }
  }

  lemma AddedKeys(es: seq<D.Entry>, name: seq<byte>, kind: uint16, inum: uint32)
    requires NameKeys(es) && (inum != 0 || kind == T_DIR)
    ensures NameKeys(D.Added(es, name, kind, inum)) <==> D.Lookup(es, D.Cut(name, D.MAXNAME - 1), kind) == None
  {
    hide D.UniqueKeys, D.Lookup;
    D.AddKeepsUnique(es, name, kind, inum);
  }

  lemma ClearedKeys(es: seq<D.Entry>, i: nat)
    requires NameKeys(es) && i < |es|
    ensures NameKeys(es[i := D.CLEARED])
  {
  }

  lemma DotsKeys(w: World, n: uint32, d: uint32)
    ensures NameKeys(Dots(w, n, d))
  {
  }

  lemma HandledBoth(w: World, w': World, m: nat)
    requires Handled(w, w', m) && w.t[m].kind != T_DIR
    ensures KeysOk(w') <==> KeysOk(w)
  {
    hide KeptSlots, SameFile, NameKeys, Records;
    forall n | 0 <= n < |w.t| ensures KeysAt(w', n) <==> KeysAt(w, n) {
      if n != m { SameKeysAt(w, w', n); }
    }
  }

  lemma FailedKeys(w: World, w': World, n: nat, used: bool)
    requires WalkedBut(w, w', n) && Bare(w, w', n, used) && KeysOk(w) && |w'.t| == |w.t|
    ensures KeysOk(w')
  {
    hide Walked, WalkedBut, KeysOk, Records, NewNumber;
    if used {
      ButKeys(w, w', n);
      NoKeys();
    } else {
      WalkedKeys(w, w');
    }
  }

  lemma NoKeys()
    ensures NameKeys([])
  {
  }

  lemma KeysHere(w: World, d: nat)
    requires KeysOk(w) && d < |w.t|
    ensures KeysAt(w, d)
  {
  }

  lemma MadeKeys(w: World, w': World, c: nat, d: nat, name: seq<byte>, x: Inode, ok: bool)
    requires FsOk(w) && c < |w.ss| && d < |w.t| && |w.t| == NINODES && Made(w, w', c, d, name, x, ok) && KeysOk(w) && x.kind == T_FILE
    ensures KeysOk(w') <==> !(Creatable(w, d, name, T_FILE) && AddHasRoom(w, c, Records(w, d)) && Doubles(Records(w, d), name, T_FILE))
  {
    hide FsOk, KeptSlots, Obtainable, D.Lookup, AddHasRoom, AddOverruns, UsedByAdd, FirstFree, Super, Numbered, Walked, WalkedBut, WalkedBut2,
      D.Added, KeysOk, Records, NameKeys, Bare, Creatable;
    if ok {
      MadeParts(w, w', c, d, name, x);
      But2Keys(w, w', x.inum, d);
      KeysHere(w, d);
      if AddHasRoom(w, c, Records(w, d)) { AddedKeys(Records(w, d), name, T_FILE, x.inum); }
    } else {
      MadeTable(w, w', c, d, name, x);
      FailedKeys(w, w', x.inum, !Obtainable(w, d, name, T_FILE) && Granting(w.v));
    }
  }

  lemma MadeTable(w: World, w': World, c: nat, d: nat, name: seq<byte>, x: Inode)
    requires c < |w.ss| && d < |w.t| && |w.t| == NINODES && Made(w, w', c, d, name, x, false)
    ensures WalkedBut(w, w', x.inum) && |w'.t| == |w.t|
    ensures Bare(w, w', x.inum, !Obtainable(w, d, name, T_FILE) && Granting(w.v))
  {
    hide FsOk, KeptSlots, Records, Obtainable, Creatable, AddHasRoom, AddOverruns, FirstFree, Super, Bare, Granting, SameFile, Linked;
  }

  lemma MadeDirKeys(w: World, w': World, c: nat, d: nat, name: seq<byte>, n: nat, uid: uint32, mode: uint32, ok: bool)
    requires FsOk(w) && c < |w.ss| && d < |w.t| && |w.t| == NINODES && d < NINODES && MadeDir(w, w', c, d, name, n, uid, mode, ok)
    requires KeysOk(w) && w.t[d].kind == T_DIR
    ensures KeysOk(w') <==> !(Creatable(w, d, name, T_DIR) && RoomBeside(w, c, Records(w, d)) && Doubles(Records(w, d), name, T_DIR))
  {
    hide FsOk, KeptSlots, Obtainable, D.Lookup, RoomBeside, OverrunsBeside, FirstFree, Super, Numbered, Walked, WalkedBut, WalkedBut2, D.Added,
      KeysOk, Records, NameKeys, Bare, Dots, Capacity, Creatable;
    if ok {
      But2Keys(w, w', n, d);
      KeysHere(w, d);
      DotsKeys(w, n, d);
      if RoomBeside(w, c, Records(w, d)) { AddedKeys(Records(w, d), name, T_DIR, n); }
    } else {
      MadeDirTable(w, w', c, d, name, n, uid, mode);
      FailedKeys(w, w', n, !Obtainable(w, d, name, T_DIR) && Granting(w.v));
    }
  }

  lemma MadeDirTable(w: World, w': World, c: nat, d: nat, name: seq<byte>, n: nat, uid: uint32, mode: uint32)
    requires c < |w.ss| && d < |w.t| && |w.t| == NINODES && d < NINODES && MadeDir(w, w', c, d, name, n, uid, mode, false)
    ensures WalkedBut(w, w', n) && |w'.t| == |w.t|
    ensures Bare(w, w', n, !Obtainable(w, d, name, T_DIR) && Granting(w.v))
  {
    hide FsOk, KeptSlots, Records, Obtainable, Creatable, RoomBeside, OverrunsBeside, FirstFree, Super, Bare, Granting, SameFile, Linked, Dots;
  }

  lemma RemovedKeys(w: World, w': World, d: nat, name: seq<byte>, ok: bool)
    requires FsOk(w) && d < |w.t| && Removed(w, w', d, name, ok) && KeysOk(w)
    ensures KeysOk(w')
  {
    hide FsOk, KeptSlots, Obtainable, D.Lookup, D.Victim, Walked, WalkedBut2, SameSuper, KeysOk, Records, NameKeys, Numbered;
    if ok {
      FsOkOrdered(w);
      LookupNumbered(w, d, name, T_FILE);
      But2Keys(w, w', D.Lookup(Records(w, d), name, T_FILE).value, d);
      KeysHere(w, d);
      ClearedKeys(Records(w, d), D.Victim(Records(w, d), name, T_FILE));
    } else {
      WalkedKeys(w, w');
    }
  }

  lemma NamedFile(w: World, d: nat, name: seq<byte>)
    requires FsOk(w) && d < |w.t| && FileNamed(w, d, name).Some?
    ensures FileNamed(w, d, name).value < |w.t| && w.t[FileNamed(w, d, name).value].kind == T_FILE
  {
    hide FsOk, D.Lookup, Records, Numbered;
    FsOkOrdered(w);
    LookupNumbered(w, d, name, T_FILE);
  }

  lemma NotFoundBoth(w: World, w': World, d: nat, name: seq<byte>)
    requires d < |w.t| && NotFound(w, w', d, name)
    ensures KeysOk(w') <==> KeysOk(w)
  {
    hide FsOk, KeptSlots, Findable, Walked, KeysOk;
    WalkedKeys(w, w');
  }

  lemma WrittenKeys(w: World, w': World, d: nat, name: seq<byte>, data: seq<byte>)
    requires FsOk(w) && d < |w.t| && WrittenTo(w, w', d, name, data)
    ensures FsOk(w') && (KeysOk(w') <==> KeysOk(w))
  {
    hide FsOk, Handled, FileNamed, HasRoom, Contents, FileOverruns, Super, KeysOk;
    NamedFile(w, d, name);
    HandledBoth(w, w', FileNamed(w, d, name).value);
  }

  lemma WriteKeys(e: Event)
    requires Happened(e) && e.command.WriteFile? && KeysOk(e.before)
    ensures KeysOk(e.after) <==> !Clashes(e.before, e.cwd, e.command)
  {
    hide FsOk, Made, NotFound, WrittenTo, Records, KeysOk, Doubles, Findable, Creatable, AddHasRoom, Keeps, Spoils;
    var w, base, w', c, d, name := e.before, e.base, e.after, e.cwd, DirIn(e.before, e.cwd), e.command.name;
    var x := FileInode(e.n, e.uid, 0x1A4, e.now);
    if Findable(w, d, name) {
      WrittenKeys(w, w', d, name, e.command.data);
      FoundTaken(w, d, name);
    } else if !Creatable(w, d, name, T_FILE) {
      MadeKeys(w, w', c, d, name, x, false);
    } else {
      MadeKeys(w, base, c, d, name, x, true);
      MadeKept(w, base, c, d, name, x, true);
      if Keeps(w, c, d, name) { WrittenKeys(base, w', d, name, e.command.data); } else { NotFoundBoth(base, w', d, name); }
    }
  }

  lemma FoundTaken(w: World, d: nat, name: seq<byte>)
    requires d < |w.t| && Findable(w, d, name)
    ensures !Creatable(w, d, name, T_FILE)
  {
    hide Records, D.Lookup, Held, Granting;
  }

  lemma EditKeys(e: Event)
    requires Happened(e) && (e.command.InsertFile? || e.command.DeleteFile? || e.command.CatFile?)
    ensures KeysOk(e.after) <==> KeysOk(e.before)
  {
    hide FsOk, NotFound, Handled, FileNamed, HasRoom, Contents, InsertedOver, FileOverruns, TailPos, Super, SameSuper, KeysOk, Findable,
      Spoils, LeavesHole;
    var w, w', d, name := e.before, e.after, DirIn(e.before, e.cwd), e.command.name;
    if Findable(w, d, name) {
      NamedFile(w, d, name);
      HandledBoth(w, w', FileNamed(w, d, name).value);
    } else {
      NotFoundBoth(w, w', d, name);
    }
  }

  /** From a state in which the keys of all directories are in order, a command leaves them so exactly
      unless it adds a name that, cut to 25 bytes, is taken, which can be told before it. */
  lemma EventKeys(e: Event)
    requires Happened(e) && KeysOk(e.before)
    ensures Ready(e.before, e.cwd) && (KeysOk(e.after) <==> !Clashes(e.before, e.cwd, e.command))
  {
    hide FsOk, Made, MadeDir, Removed, NotFound, Catted, WriteDone, InsertedInto, DeletedFrom, BeyondEnd, Records, Findable, KeysOk,
      Doubles, SoundWorld, Walked, OthersKept, Target, InUse, Held, Super, Creatable, AddHasRoom, RoomBeside, Spoils, LeavesHole, Cuttable;
    var w, w', c, d := e.before, e.after, e.cwd, DirIn(e.before, e.cwd);
    match e.command
    case MkFile(name, mode) => MadeKeys(w, w', c, d, name, FileInode(e.n, e.uid, mode, e.now), e.ok);
    case MkDirectory(name, mode) => MadeDirKeys(w, w', c, d, name, e.n, e.uid, mode, e.ok);
    case RmFile(name) => RemovedKeys(w, w', d, name, e.ok);
    case CatFile(name) => EditKeys(e);
    case WriteFile(name, data) => WriteKeys(e);
    case InsertFile(name, pos, data) => EditKeys(e);
    case DeleteFile(name, pos, len) => EditKeys(e);
    case ChangeDir(path) => WalkedKeys(w, w');
  }

  /** Names of at most 25 bytes never clash. */
  lemma ShortNames(w: World, c: nat, a: Command)
    requires Ready(w, c)
    requires a.MkFile? || a.MkDirectory? || a.WriteFile? ==> |a.name| < D.MAXNAME
    ensures !Clashes(w, c, a)
  {
    hide FsOk, Records, D.Lookup, AddHasRoom, RoomBeside, Held, Granting;
  }
}
