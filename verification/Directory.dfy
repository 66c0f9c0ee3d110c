/** A directory: a file of 36-byte records, read as a map from (name, type) to inode number. */
module Directory {
  import opened Bytes
  import opened Results
  import opened Inodes
  import opened Files

  const ENTRY_SIZE := 36
  const MAXNAME := 26

  const DOTDOT: seq<byte> := [0x2E, 0x2E]
  const SLASH: seq<byte> := [0x2F]

  /** A record: the name is the C string in its name field. */
  datatype Entry = Entry(kind: uint16, inum: uint32, name: seq<byte>)

  /** The bytes before the first NUL. */
  function CString(s: seq<byte>): (r: seq<byte>)
    ensures |r| <= |s|
  {
    if s == [] || s[0] == 0 then [] else [s[0]] + CString(s[1..])
  }

  predicate NoNul(s: seq<byte>) {
    forall i :: 0 <= i < |s| ==> s[i] != 0
  }

  function Cut(s: seq<byte>, n: nat): (r: seq<byte>)
    ensures |r| == Min(|s|, n)
  {
    if |s| <= n then s else s[..n]
  }

  /** `strncmp(e.name, name, MAXNAME) == 0`. */
  predicate Named(e: Entry, name: seq<byte>) {
    e.name == Cut(name, MAXNAME)
  }

  function DecodeEntry(r: seq<byte>): Entry
    requires |r| == ENTRY_SIZE
  {
    Entry(r[0] as int + 0x100 * r[1] as int, WordAt(r, 4), CString(r[8..8 + MAXNAME]))
  }

  /** The record `dir_add` writes: a zeroed structure, `strncpy` of at most 25 bytes. */
  function EncodeEntry(name: seq<byte>, kind: uint16, inum: uint32): (r: seq<byte>)
    ensures |r| == ENTRY_SIZE
  {
    [kind % 0x100, kind / 0x100, 0, 0] + WordBytes(inum) + Cut(name, MAXNAME - 1)
    + seq(ENTRY_SIZE - 8 - |Cut(name, MAXNAME - 1)|, _ => 0)
  }

  const CLEARED: Entry := Entry(0, 0, [])

  function ZeroEntry(): (r: seq<byte>)
    ensures |r| == ENTRY_SIZE && forall i :: 0 <= i < ENTRY_SIZE ==> r[i] == 0
  {
    seq(ENTRY_SIZE, _ => 0)
  }

  lemma {:induction false} CStringOf(s: seq<byte>, rest: seq<byte>)
    requires NoNul(s) && rest != [] && rest[0] == 0
    ensures CString(s + rest) == s
  {
    if s == [] {
      assert s + rest == rest;
    } else {
      CStringOf(s[1..], rest);
      assert (s + rest)[1..] == s[1..] + rest;
    }
  }

  lemma EncodedName(name: seq<byte>, kind: uint16, inum: uint32)
    requires NoNul(name)
    ensures CString(EncodeEntry(name, kind, inum)[8..8 + MAXNAME]) == Cut(name, MAXNAME - 1)
  {
    hide CString, WordBytes;
    var n := Cut(name, MAXNAME - 1);
    var z: seq<byte> := seq(MAXNAME - |n|, _ => 0);
    assert EncodeEntry(name, kind, inum)[8..8 + MAXNAME] == n + z;
    assert NoNul(n);
    CStringOf(n, z);
  }

  lemma EncodedNumber(name: seq<byte>, kind: uint16, inum: uint32)
    ensures WordAt(EncodeEntry(name, kind, inum), 4) == inum
  {
    hide WordBytes;
    var r := EncodeEntry(name, kind, inum);
    assert r[4..8] == WordBytes(inum);
    WordBytesAt(inum);
    assert WordAt(r, 4) == WordAt(r[4..8], 0);
  }

  /** A record reads back as written, with its name cut to 25 bytes. */
  lemma DecodeEncode(name: seq<byte>, kind: uint16, inum: uint32)
    requires NoNul(name)
    ensures DecodeEntry(EncodeEntry(name, kind, inum)) == Entry(kind, inum, Cut(name, MAXNAME - 1))
  {
    hide CString, WordAt, WordBytes;
    EncodedName(name, kind, inum);
    EncodedNumber(name, kind, inum);
  }

  lemma DecodeZero()
    ensures DecodeEntry(ZeroEntry()) == CLEARED
  {
  }

  function EntryAt(c: seq<byte>, i: nat): Entry
    requires ENTRY_SIZE * i + ENTRY_SIZE <= |c|
  {
    DecodeEntry(c[ENTRY_SIZE * i..ENTRY_SIZE * i + ENTRY_SIZE])
  }

  /** The records of a directory file. */
  function Entries(c: seq<byte>): (es: seq<Entry>)
    ensures |es| == |c| / ENTRY_SIZE
  {
    seq(|c| / ENTRY_SIZE, i requires 0 <= i < |c| / ENTRY_SIZE => EntryAt(c, i))
  }

  /** Overwriting or appending one record, though records straddle blocks, changes that
      record and no other. */
  lemma EntriesOverlay(c: seq<byte>, i: nat, r: seq<byte>)
    requires |c| % ENTRY_SIZE == 0 && i <= |c| / ENTRY_SIZE && |r| == ENTRY_SIZE
    ensures var c' := Overlay(c, ENTRY_SIZE * i, r);
      && |c'| % ENTRY_SIZE == 0
      && Entries(c') == if i < |c| / ENTRY_SIZE then Entries(c)[i := DecodeEntry(r)] else Entries(c) + [DecodeEntry(r)]
  {
    var c' := Overlay(c, ENTRY_SIZE * i, r);
    var n := |c| / ENTRY_SIZE;
    assert |c| == ENTRY_SIZE * n;
    assert c'[ENTRY_SIZE * i..ENTRY_SIZE * i + ENTRY_SIZE] == r;
    forall j | 0 <= j < n && j != i ensures EntryAt(c', j) == EntryAt(c, j) {
      assert c'[ENTRY_SIZE * j..ENTRY_SIZE * j + ENTRY_SIZE] == c[ENTRY_SIZE * j..ENTRY_SIZE * j + ENTRY_SIZE];
    }
  }

  // ---------------------------------------------------------------- looking names up

  /** Records `dir_lookup` passes over. */
  predicate Skipped(e: Entry) {
    e.inum == 0 && e.name != DOTDOT && e.kind != T_DIR
  }

  predicate Matches(e: Entry, name: seq<byte>, kind: uint16) {
    !Skipped(e) && Named(e, name) && e.kind == kind
  }

  /** What `dir_lookup` finds: the first match. */
  function Lookup(es: seq<Entry>, name: seq<byte>, kind: uint16): Option<uint32> {
    if es == [] then None
    else if Matches(es[0], name, kind) then Some(es[0].inum)
    else Lookup(es[1..], name, kind)
  }

  /** No two live records have the same name and type. */
  ghost predicate UniqueKeys(es: seq<Entry>) {
    forall i, j :: 0 <= i < j < |es| && !Skipped(es[i]) && !Skipped(es[j]) ==>
      es[i].name != es[j].name || es[i].kind != es[j].kind
  }

  lemma {:induction false} LookupNone(es: seq<Entry>, name: seq<byte>, kind: uint16)
    ensures Lookup(es, name, kind) == None <==> forall i :: 0 <= i < |es| ==> !Matches(es[i], name, kind)
  {
    if es != [] {
      LookupNone(es[1..], name, kind);
      assert Lookup(es[1..], name, kind) == None ==> forall i :: 1 <= i < |es| ==> es[i] == es[1..][i - 1];
      assert forall i :: 0 <= i < |es| - 1 ==> es[1..][i] == es[i + 1];
    }
  }

  lemma {:induction false} LookupFirst(es: seq<Entry>, name: seq<byte>, kind: uint16, i: nat)
    requires i < |es| && Matches(es[i], name, kind) && forall j :: 0 <= j < i ==> !Matches(es[j], name, kind)
    ensures Lookup(es, name, kind) == Some(es[i].inum)
  {
    if i > 0 { LookupFirst(es[1..], name, kind, i - 1); }
  }

  /** The record answers a lookup: it stands for an inode, with number 0 only if it is a directory's or is named
      `..`, and the key is the one asked for, of which 26 bytes count. */
  ghost predicate Answers(e: Entry, name: seq<byte>, kind: uint16) {
    && (e.inum != 0 || e.kind == 1 || e.name == [0x2E, 0x2E])
    && e.name == (if |name| <= 26 then name else name[..26]) && e.kind == kind
  }

  /** A lookup gives the first record that answers it. */
  lemma LookupIs(es: seq<Entry>, name: seq<byte>, kind: uint16, i: nat)
    requires i <= |es| && (i < |es| ==> Answers(es[i], name, kind)) && forall j :: 0 <= j < i ==> !Answers(es[j], name, kind)
    ensures Lookup(es, name, kind) == if i < |es| then Some(es[i].inum) else None
  {
    forall j | 0 <= j < |es| ensures Answers(es[j], name, kind) <==> Matches(es[j], name, kind) { }
    if i < |es| { LookupFirst(es, name, kind, i); } else { LookupNone(es, name, kind); }
  }

  /** Where a key is unique, the lookup is the one record that matches. */
  lemma {:induction false} LookupSome(es: seq<Entry>, name: seq<byte>, kind: uint16, i: nat)
    requires UniqueKeys(es) && i < |es| && Matches(es[i], name, kind)
    ensures Lookup(es, name, kind) == Some(es[i].inum)
  {
    if i > 0 {
      assert !Matches(es[0], name, kind);
      assert es[1..][i - 1] == es[i];
      LookupSome(es[1..], name, kind, i - 1);
    }
  }

  lemma {:induction false} LookupAppend(es: seq<Entry>, e: Entry, name: seq<byte>, kind: uint16)
    ensures Lookup(es + [e], name, kind) ==
            if Lookup(es, name, kind).Some? then Lookup(es, name, kind)
            else if Matches(e, name, kind) then Some(e.inum) else None
  {
    if es == [] {
      assert es + [e] == [e];
    } else {
      assert (es + [e])[1..] == es[1..] + [e];
      LookupAppend(es[1..], e, name, kind);
    }
  }

  /** Replacing a record that does not match leaves a lookup alone unless the new one matches. */
  lemma {:induction false} LookupReplace(es: seq<Entry>, i: nat, e: Entry, name: seq<byte>, kind: uint16)
    requires i < |es| && !Matches(es[i], name, kind)
    ensures !Matches(e, name, kind) ==> Lookup(es[i := e], name, kind) == Lookup(es, name, kind)
    ensures Matches(e, name, kind) && Lookup(es, name, kind) == None ==> Lookup(es[i := e], name, kind) == Some(e.inum)
  {
    var es' := es[i := e];
    if i == 0 {
      assert es'[1..] == es[1..];
    } else {
      assert es'[1..] == es[1..][i - 1 := e];
      LookupReplace(es[1..], i - 1, e, name, kind);
    }
  }

  // ---------------------------------------------------------------- adding

  /** The records `dir_add` reuses. */
  predicate Reusable(e: Entry) {
    e.inum == 0 && e.kind != T_DIR && e.name == SLASH
  }

  /** The first reusable record, or the end. */
  function FreeSlot(es: seq<Entry>): (i: nat)
    ensures i <= |es| && (i < |es| ==> Reusable(es[i]))
    ensures forall j :: 0 <= j < i ==> !Reusable(es[j])
  {
    if es == [] || Reusable(es[0]) then 0 else 1 + FreeSlot(es[1..])
  }

  lemma {:induction false} FreeSlotIs(es: seq<Entry>, i: nat)
    requires i <= |es| && (i < |es| ==> Reusable(es[i])) && forall j :: 0 <= j < i ==> !Reusable(es[j])
    ensures FreeSlot(es) == i
  {
    if i > 0 { FreeSlotIs(es[1..], i - 1); }
  }

  /** Entry `e` goes to record `i`: the first with inode number 0 that is not a directory's and is named `/`,
      or the end. */
  ghost predicate GoesTo(es: seq<Entry>, i: nat) {
    && i <= |es| && (i < |es| ==> es[i].inum == 0 && es[i].kind != 1 && es[i].name == [0x2F])
    && forall j :: 0 <= j < i ==> !(es[j].inum == 0 && es[j].kind != 1 && es[j].name == [0x2F])
  }

  /** No record is of that kind. */
  ghost predicate NoneReusable(es: seq<Entry>) {
    forall j :: 0 <= j < |es| ==> !(es[j].inum == 0 && es[j].kind != 1 && es[j].name == [0x2F])
  }

  function Added(es: seq<Entry>, name: seq<byte>, kind: uint16, inum: uint32): seq<Entry> {
    var e, i := Entry(kind, inum, Cut(name, MAXNAME - 1)), FreeSlot(es);
    if i < |es| then es[i := e] else es + [e]
  }

  /** The record, with as much of the name as it has room for, takes that place. */
  lemma AddedRecord(es: seq<Entry>, name: seq<byte>, kind: uint16, inum: uint32, i: nat)
    requires GoesTo(es, i)
    ensures var e := Entry(kind, inum, if |name| <= 25 then name else name[..25]);
      Added(es, name, kind, inum) == if i < |es| then es[i := e] else es + [e]
    ensures FreeSlot(es) == i
  {
    FreeSlotIs(es, i);
  }

  /** Adding a fresh key that fits in the name field defines that key and changes no other. */
  lemma LookupAfterAdd(es: seq<Entry>, name: seq<byte>, kind: uint16, inum: uint32, n: seq<byte>, k: uint16)
    requires |name| < MAXNAME && Lookup(es, name, kind) == None && (inum != 0 || kind == T_DIR || name == DOTDOT)
    ensures Lookup(Added(es, name, kind, inum), n, k) == if n == name && k == kind then Some(inum) else Lookup(es, n, k)
  {
    var e, i := Entry(kind, inum, name), FreeSlot(es);
    assert Matches(e, n, k) <==> n == name && k == kind;
    if i < |es| {
      LookupReplace(es, i, e, n, k);
    } else {
      LookupAppend(es, e, n, k);
    }
  }

  /** A key added under any name is found again exactly when the name has at most 25 bytes. */
  lemma AddedIsFound(es: seq<Entry>, name: seq<byte>, kind: uint16, inum: uint32)
    requires Lookup(es, name, kind) == None && (inum != 0 || kind == T_DIR || name == DOTDOT)
    ensures Lookup(Added(es, name, kind, inum), name, kind) == if |name| < MAXNAME then Some(inum) else None
  {
    var e, i := Entry(kind, inum, Cut(name, MAXNAME - 1)), FreeSlot(es);
    if |name| < MAXNAME {
      LookupAfterAdd(es, name, kind, inum, name, kind);
    } else {
      assert !Matches(e, name, kind);
      if i < |es| {
        LookupReplace(es, i, e, name, kind);
      } else {
        LookupAppend(es, e, name, kind);
      }
    }
  }

  /** Adding keeps live keys unique exactly when no live record has the name as it is stored. */
  lemma AddKeepsUnique(es: seq<Entry>, name: seq<byte>, kind: uint16, inum: uint32)
    requires UniqueKeys(es) && (inum != 0 || kind == T_DIR)
    ensures UniqueKeys(Added(es, name, kind, inum)) <==> Lookup(es, Cut(name, MAXNAME - 1), kind) == None
  {
    var stored := Cut(name, MAXNAME - 1);
    var e, i, es' := Entry(kind, inum, stored), FreeSlot(es), Added(es, name, kind, inum);
    assert es'[i] == e && forall j :: 0 <= j < |es| && j != i ==> es'[j] == es[j];
    LookupNone(es, stored, kind);
    if Lookup(es, stored, kind) != None {
      var j :| 0 <= j < |es| && Matches(es[j], stored, kind);
      assert j != i && es'[j] == es[j];
      assert !UniqueKeys(es');
    }
  }

  // ---------------------------------------------------------------- removing

  predicate Removable(e: Entry, name: seq<byte>, kind: uint16) {
    e.inum != 0 && Named(e, name) && e.kind == kind
  }

  /** The first record `dir_remove` would clear, or the end. */
  function Victim(es: seq<Entry>, name: seq<byte>, kind: uint16): (i: nat)
    ensures i <= |es| && (i < |es| ==> Removable(es[i], name, kind))
    ensures forall j :: 0 <= j < i ==> !Removable(es[j], name, kind)
  {
    if es == [] || Removable(es[0], name, kind) then 0 else 1 + Victim(es[1..], name, kind)
  }

  lemma {:induction false} VictimIs(es: seq<Entry>, name: seq<byte>, kind: uint16, i: nat)
    requires i <= |es| && (i < |es| ==> Removable(es[i], name, kind)) && forall j :: 0 <= j < i ==> !Removable(es[j], name, kind)
    ensures Victim(es, name, kind) == i
  {
    if i > 0 { VictimIs(es[1..], name, kind, i - 1); }
  }

  /** What is cleared is the first record of that key that has an inode number. */
  lemma VictimFirst(es: seq<Entry>, name: seq<byte>, kind: uint16, i: nat)
    requires i <= |es| && (i < |es| ==> es[i].inum != 0 && Answers(es[i], name, kind))
    requires forall j :: 0 <= j < i ==> !(es[j].inum != 0 && Answers(es[j], name, kind))
    ensures Victim(es, name, kind) == i
  {
    VictimIs(es, name, kind, i);
  }

  /** Where keys are unique, removing a key with a non-zero inode number undefines it and
      changes no other; there is something to remove exactly when the lookup is non-zero. */
  lemma LookupAfterRemove(es: seq<Entry>, name: seq<byte>, kind: uint16, n: seq<byte>, k: uint16)
    requires UniqueKeys(es) && Lookup(es, name, kind) != Some(0)
    ensures var i := Victim(es, name, kind);
      && (i < |es| <==> Lookup(es, name, kind).Some?)
      && (i < |es| ==>
            && Lookup(es[i := CLEARED], n, k) ==
               (if Cut(n, MAXNAME) == Cut(name, MAXNAME) && k == kind then None else Lookup(es, n, k))
            && UniqueKeys(es[i := CLEARED]))
  {
    var i := Victim(es, name, kind);
    LookupNone(es, name, kind);
    if i < |es| {
      LookupSome(es, name, kind, i);
      var es' := es[i := CLEARED];
      if Cut(n, MAXNAME) == Cut(name, MAXNAME) && k == kind {
        LookupNone(es', n, k);
      } else {
        LookupReplace(es, i, CLEARED, n, k);
      }
    } else {
      forall j | 0 <= j < |es| && Matches(es[j], name, kind) ensures Lookup(es, name, kind) == Some(es[j].inum) {
        LookupSome(es, name, kind, j);
      }
    }
  }

  /** Adding a fresh key and removing it again undoes the addition for every lookup. */
  lemma RemoveUndoesAdd(es: seq<Entry>, name: seq<byte>, kind: uint16, inum: uint32, n: seq<byte>, k: uint16)
    requires UniqueKeys(es) && |name| < MAXNAME && Lookup(es, name, kind) == None && inum != 0
    ensures var es1 := Added(es, name, kind, inum);
      var i := Victim(es1, name, kind);
      i < |es1| && Lookup(es1[i := CLEARED], n, k) == Lookup(es, n, k)
  {
    LookupAfterAdd(es, name, kind, inum, name, kind);
    LookupAfterAdd(es, name, kind, inum, n, k);
    AddKeepsUnique(es, name, kind, inum);
    var es1 := Added(es, name, kind, inum);
    LookupAfterRemove(es1, name, kind, n, k);
    if Cut(n, MAXNAME) == name && k == kind {
      LookupNone(es, name, kind);
      LookupNone(es, n, k);
    }
  }

  // ---------------------------------------------------------------- emptiness

  const DOT: seq<byte> := [0x2E]

  /** What `dir_is_empty` does not count. */
  predicate Ignored(e: Entry) {
    e.inum == 0 || e.name == DOT || e.name == DOTDOT
  }

  /** A directory is reported empty exactly when no name but `.` and `..` finds an inode
      other than the root in it. */
  lemma EmptyMeansNoNames(es: seq<Entry>)
    requires UniqueKeys(es) && forall i :: 0 <= i < |es| ==> |es[i].name| < MAXNAME
    ensures (forall i :: 0 <= i < |es| ==> Ignored(es[i])) <==>
            forall n: seq<byte>, k: uint16 :: n != [0x2E] && n != [0x2E, 0x2E] ==> Lookup(es, n, k) in {None, Some(0)}
  {
    if forall i :: 0 <= i < |es| ==> Ignored(es[i]) {
      forall n: seq<byte>, k: uint16 | n != DOT && n != DOTDOT ensures Lookup(es, n, k) in {None, Some(0)} {
        LookupNone(es, n, k);
        if Lookup(es, n, k) != None {
          var i :| 0 <= i < |es| && Matches(es[i], n, k);
          LookupSome(es, n, k, i);
        }
      }
    } else {
      var i :| 0 <= i < |es| && !Ignored(es[i]);
      LookupSome(es, es[i].name, es[i].kind, i);
    }
  }
}
