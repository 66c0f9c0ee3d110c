/** One task per connection: the dispatcher takes a connection slot's lock before it queues
    a task for the slot, and the worker that runs the task gives the lock back. It reads which
    connection the slot holds before it tries the lock, and does not look again. */
module Dispatch {
  import opened Results
  import opened ThreadPool

  /** Where `server_run` is in its loop. `late` says that the connection it read from the slot
      was gone from there when it got the lock. */
  datatype Dispatcher =
    | Selecting
    | Saw(slot: nat, conn: nat)                 // connfd read, lock not yet tried
    | Took(slot: nat, conn: nat, late: bool)    // lock taken, task not yet queued

  /** Connections are numbered in the order they are accepted. */
  datatype Server = Server(
    pool: Pool, locked: seq<bool>, conns: seq<Option<nat>>, dispatcher: Dispatcher,
    // history: the connections accepted so far, the slot and the connection each task was queued
    // for, the tasks that closed theirs, and the tasks whose lock was taken late
    accepted: nat, slotOf: map<JobId, nat>, connOf: map<JobId, nat>, closed: set<JobId>, late: set<JobId>)

  datatype Move =
    | PoolMove(a: Step)                // anything the threads of the pool do outside handle_read
    | Accept(slot: nat)                // add_conn
    | Look(slot: nat)                  // server_run reads connfd and finds it ready
    | TryLock
    | AddWork(job: JobId)
    | Close(w: nat)                    // handle_read gives the connection up
    | Finish(w: nat)                   // handle_read unlocks the slot and returns

  function Start(workers: nat, slots: nat): Server {
    Server(Init(workers, 1, 0), seq(slots, _ => false), seq(slots, _ => None), Selecting, 0, map[], map[], {}, {})
  }

  function After(s: Server, a: Step): Option<Server> {
    var q := Next(s.pool, a);
    if q.Some? then Some(s.(pool := q.value)) else None
  }

  /** The task worker `w` is running. */
  function Task(s: Server, w: nat): Option<JobId> {
    if w < |s.pool.workers| && s.pool.workers[w].Running? then s.pool.workers[w].job else None
  }

  function Do(s: Server, m: Move): Option<Server> {
    match m
    case PoolMove(a) => if a.Submit? || a.Execute? then None else After(s, a)
    case Accept(i) =>
      if i < |s.conns| && s.conns[i] == None && None !in s.conns[..i] && s.dispatcher == Selecting then
        Some(s.(conns := s.conns[i := Some(s.accepted)], accepted := s.accepted + 1))
      else None
    case Look(i) =>
      if s.dispatcher == Selecting && i < |s.conns| && s.conns[i].Some? then
        Some(s.(dispatcher := Saw(i, s.conns[i].value)))
      else None
    case TryLock =>
      if s.dispatcher.Saw? && s.dispatcher.slot < |s.conns| && s.dispatcher.slot < |s.locked| then
        var i, c := s.dispatcher.slot, s.dispatcher.conn;
        if s.locked[i] then Some(s.(dispatcher := Selecting))
        else Some(s.(locked := s.locked[i := true], dispatcher := Took(i, c, s.conns[i] != Some(c))))
      else None
    case AddWork(job) =>
      if s.dispatcher.Took? then
        var r := After(s, Submit(0, job));
        if r.None? then None
        else Some(r.value.(dispatcher := Selecting, slotOf := s.slotOf[job := s.dispatcher.slot],
                           connOf := s.connOf[job := s.dispatcher.conn],
                           late := if s.dispatcher.late then s.late + {job} else s.late))
      else None
    case Close(w) =>
      var x := Task(s, w);
      if x.Some? && x.value in s.slotOf && s.slotOf[x.value] < |s.conns| && x.value !in s.closed then
        Some(s.(conns := s.conns[s.slotOf[x.value] := None], closed := s.closed + {x.value}))
      else None
    case Finish(w) =>
      var x, r := Task(s, w), After(s, Execute(w));
      if r.None? then None
      else if x.None? then r
      else if x.value in s.slotOf && s.slotOf[x.value] < |s.locked| then
        Some(r.value.(locked := s.locked[s.slotOf[x.value] := false]))
      else None
  }

  function Serve(s: Server, moves: seq<Move>): Option<Server> {
    if moves == [] then Some(s)
    else
      var r := Serve(s, moves[..|moves| - 1]);
      if r.None? then None else Do(r.value, moves[|moves| - 1])
  }

  /** Queued or running. */
  predicate Live(s: Server, x: JobId) {
    x in s.pool.submitted && x !in s.pool.done
  }

  ghost predicate Known(s: Server) {
    && |s.locked| == |s.conns|
    && (forall x :: x in s.pool.submitted <==> x in s.slotOf)
    && (forall x :: x in s.slotOf ==> x in s.connOf && s.slotOf[x] < |s.locked|)
    && (!s.dispatcher.Selecting? ==> s.dispatcher.slot < |s.locked|)
  }

  /** A task that is queued or running holds its slot's lock, alone. */
  ghost predicate LiveLocked(s: Server) {
    && (forall x :: Live(s, x) && x in s.slotOf && s.slotOf[x] < |s.locked| ==>
          s.locked[s.slotOf[x]] && (s.dispatcher.Took? ==> s.dispatcher.slot != s.slotOf[x]))
    && (forall x, y :: Live(s, x) && Live(s, y) && x in s.slotOf && y in s.slotOf && s.slotOf[x] == s.slotOf[y] ==> x == y)
    && (s.dispatcher.Took? && s.dispatcher.slot < |s.locked| ==> s.locked[s.dispatcher.slot])
  }

  /** A locked slot is the dispatcher's or some task's. */
  ghost predicate LockedLive(s: Server) {
    forall i :: 0 <= i < |s.locked| && s.locked[i] ==> TakenBy(s, i)
  }

  ghost predicate TakenBy(s: Server, i: nat) {
    (s.dispatcher.Took? && s.dispatcher.slot == i) || exists x :: x in s.slotOf && Live(s, x) && s.slotOf[x] == i
  }

  /** Until its task closes it, a slot keeps the connection the task was queued for, unless it
      had lost it before the task was queued. */
  ghost predicate SameConn(s: Server) {
    && (!s.dispatcher.Selecting? ==> s.dispatcher.conn < s.accepted)
    && (forall i :: 0 <= i < |s.conns| && s.conns[i].Some? ==> s.conns[i].value < s.accepted)
    && (s.dispatcher.Took? && s.dispatcher.slot < |s.conns| ==>
          (s.dispatcher.late <==> s.conns[s.dispatcher.slot] != Some(s.dispatcher.conn)))
    && (forall x :: x in s.late ==> x in s.slotOf)
    && (forall x :: x in s.connOf ==> s.connOf[x] < s.accepted)
    && (forall x :: Live(s, x) && x !in s.closed && x in s.slotOf && x in s.connOf && s.slotOf[x] < |s.conns| ==>
          (x in s.late <==> s.conns[s.slotOf[x]] != Some(s.connOf[x])))
  }

  ghost predicate ServerInv(s: Server) {
    Inv(s.pool) && Known(s) && LiveLocked(s) && LockedLive(s) && SameConn(s)
  }

  /** Only submitting and executing change what has been submitted or done. */
  lemma SameHistory(p: Pool, a: Step)
    requires Next(p, a).Some? && !a.Submit?
    ensures Next(p, a).value.submitted == p.submitted
    ensures a.Execute? ==> a.w < |p.workers| && p.workers[a.w].Running?
    ensures Next(p, a).value.done ==
            if a.Execute? && p.workers[a.w].job.Some? then p.done + {p.workers[a.w].job.value} else p.done
  {
  }

  lemma Submitted(p: Pool, job: JobId)
    requires Inv(p) && Next(p, Submit(0, job)).Some?
    ensures job !in p.submitted && job !in p.done
    ensures Next(p, Submit(0, job)).value.submitted == p.submitted + [job] && Next(p, Submit(0, job)).value.done == p.done
  {
    hide CountInv, LockInv, SemaphoreInv, SleepInv, CountLockInv, SeenInv, BlockedInv, HeldInv;
  }

  lemma RunningLive(s: Server, w: nat)
    requires Inv(s.pool) && Task(s, w).Some?
    ensures Live(s, Task(s, w).value)
  {
    hide CountInv, LockInv, SemaphoreInv, SleepInv, PulledInv, CountLockInv, SeenInv, BlockedInv;
    assert Held(s.pool.workers[w]) == Task(s, w);
  }

  lemma StartInv(workers: nat, slots: nat)
    ensures ServerInv(Start(workers, slots))
  {
    hide Inv;
    InitInv(workers, 1, 0);
  }

  lemma DoInv(s: Server, m: Move)
    requires ServerInv(s) && Do(s, m).Some?
    ensures ServerInv(Do(s, m).value)
  {
    hide Do, ServerInv;
    match m
    case PoolMove(a) => PoolMoveInv(s, a);
    case Accept(i) => AcceptInv(s, i);
    case Look(i) => LookInv(s, i);
    case TryLock => TryLockInv(s);
    case AddWork(job) => AddWorkInv(s, job);
    case Close(w) => CloseInv(s, w);
    case Finish(w) => FinishInv(s, w);
  }

  lemma PoolMoveInv(s: Server, a: Step)
    requires ServerInv(s) && Do(s, PoolMove(a)).Some?
    ensures ServerInv(Do(s, PoolMove(a)).value)
  {
    hide Inv, Next;
    NextInv(s.pool, a);
    SameHistory(s.pool, a);
    var s' := Do(s, PoolMove(a)).value;
    forall x: JobId ensures Live(s', x) == Live(s, x) { }
    forall i: nat | TakenBy(s, i) ensures TakenBy(s', i) { }
  }

  lemma AcceptInv(s: Server, i: nat)
    requires ServerInv(s) && Do(s, Accept(i)).Some?
    ensures ServerInv(Do(s, Accept(i)).value)
  {
    hide Inv, Next;
    var s' := Do(s, Accept(i)).value;
    forall x: JobId ensures Live(s', x) == Live(s, x) { }
    forall i: nat | TakenBy(s, i) ensures TakenBy(s', i) { }
  }

  lemma LookInv(s: Server, i: nat)
    requires ServerInv(s) && Do(s, Look(i)).Some?
    ensures ServerInv(Do(s, Look(i)).value)
  {
    hide Inv, Next;
    var s' := Do(s, Look(i)).value;
    forall x: JobId ensures Live(s', x) == Live(s, x) { }
    forall j: nat | TakenBy(s, j) ensures TakenBy(s', j) { }
  }

  lemma TryLockInv(s: Server)
    requires ServerInv(s) && Do(s, TryLock).Some?
    ensures ServerInv(Do(s, TryLock).value)
  {
    hide Inv, LiveLocked, LockedLive;
    var s' := Do(s, TryLock).value;
    TryLockLocks(s);
  }

  lemma TryLockLocks(s: Server)
    requires Known(s) && LiveLocked(s) && LockedLive(s) && Do(s, TryLock).Some?
    ensures var s' := Do(s, TryLock).value; LiveLocked(s') && LockedLive(s')
  {
    var s' := Do(s, TryLock).value;
    forall x: JobId ensures Live(s', x) == Live(s, x) { }
    SameTakers(s, s');
  }

  /** A slot that some task had taken is still taken. */
  lemma SameTakers(s: Server, s': Server)
    requires !s.dispatcher.Took? && s'.slotOf == s.slotOf && forall x: JobId :: Live(s', x) == Live(s, x)
    ensures forall i: nat :: TakenBy(s, i) ==> TakenBy(s', i)
  {
    hide Live;
  }

  lemma AddWorkInv(s: Server, job: JobId)
    requires ServerInv(s) && Do(s, AddWork(job)).Some?
    ensures ServerInv(Do(s, AddWork(job)).value)
  {
    hide Inv, Next, LiveLocked, LockedLive, SameConn;
    NextInv(s.pool, Submit(0, job));
    Submitted(s.pool, job);
    var s' := Do(s, AddWork(job)).value;
    forall x: JobId ensures Live(s', x) <==> x == job || Live(s, x) { }
    AddWorkLocks(s, s', job);
    AddWorkConn(s, s', job);
  }

  /** `job` has been queued for the slot the dispatcher had taken. */
  ghost predicate Queued(s: Server, s': Server, job: JobId) {
    && s.dispatcher.Took? && job !in s.slotOf && s'.dispatcher == Selecting
    && s'.locked == s.locked && s'.conns == s.conns && s'.accepted == s.accepted && s'.closed == s.closed
    && s'.slotOf == s.slotOf[job := s.dispatcher.slot] && s'.connOf == s.connOf[job := s.dispatcher.conn]
    && s'.late == (if s.dispatcher.late then s.late + {job} else s.late)
    && !Live(s, job) && forall x: JobId :: Live(s', x) <==> x == job || Live(s, x)
  }

  lemma AddWorkLocks(s: Server, s': Server, job: JobId)
    requires Known(s) && LiveLocked(s) && LockedLive(s) && Queued(s, s', job)
    ensures LiveLocked(s') && LockedLive(s')
  {
    hide Live;
    forall i: nat | TakenBy(s, i) ensures TakenBy(s', i) {
      if s.dispatcher.slot == i {
        assert s'.slotOf[job] == i && Live(s', job);
      } else {
        var x :| x in s.slotOf && Live(s, x) && s.slotOf[x] == i;
        assert s'.slotOf[x] == i && Live(s', x);
      }
    }
  }

  lemma AddWorkConn(s: Server, s': Server, job: JobId)
    requires Known(s) && SameConn(s) && Queued(s, s', job)
    ensures SameConn(s')
  {
    hide Live;
  }

  lemma CloseInv(s: Server, w: nat)
    requires ServerInv(s) && Do(s, Close(w)).Some?
    ensures ServerInv(Do(s, Close(w)).value)
  {
    hide Inv, Next;
    RunningLive(s, w);
    var s' := Do(s, Close(w)).value;
    forall x: JobId ensures Live(s', x) == Live(s, x) { }
    forall i: nat | TakenBy(s, i) ensures TakenBy(s', i) { }
  }

  lemma FinishInv(s: Server, w: nat)
    requires ServerInv(s) && Do(s, Finish(w)).Some?
    ensures ServerInv(Do(s, Finish(w)).value)
  {
    hide Inv, Next, LiveLocked, LockedLive, SameConn;
    NextInv(s.pool, Execute(w));
    SameHistory(s.pool, Execute(w));
    var s' := Do(s, Finish(w)).value;
    if Task(s, w).Some? { RunningLive(s, w); }
    forall x: JobId ensures Live(s', x) <==> Live(s, x) && Task(s, w) != Some(x) { }
    FinishLocks(s, s', Task(s, w));
  }

  /** Task `x` has ended and its slot is unlocked. */
  lemma FinishLocks(s: Server, s': Server, x: Option<JobId>)
    requires Known(s) && LiveLocked(s) && LockedLive(s) && SameConn(s)
    requires x.Some? ==> Live(s, x.value) && x.value in s.slotOf
    requires s'.slotOf == s.slotOf && s'.connOf == s.connOf && s'.conns == s.conns && s'.dispatcher == s.dispatcher
    requires s'.closed == s.closed && s'.late == s.late && s'.accepted == s.accepted
    requires s'.locked == if x.Some? then s.locked[s.slotOf[x.value] := false] else s.locked
    requires forall y: JobId :: Live(s', y) <==> Live(s, y) && x != Some(y)
    ensures LiveLocked(s') && LockedLive(s') && SameConn(s')
  {
    hide Live;
    forall i | 0 <= i < |s'.locked| && s'.locked[i] ensures TakenBy(s', i) {
      assert s.locked[i] && TakenBy(s, i);
    }
  }

  lemma {:induction false} ServeInv(workers: nat, slots: nat, moves: seq<Move>)
    requires Serve(Start(workers, slots), moves).Some?
    ensures ServerInv(Serve(Start(workers, slots), moves).value)
    decreases |moves|
  {
    hide ServerInv, Do, Start;
    if moves == [] {
      StartInv(workers, slots);
    } else {
      ServeInv(workers, slots, moves[..|moves| - 1]);
      DoInv(Serve(Start(workers, slots), moves[..|moves| - 1]).value, moves[|moves| - 1]);
    }
  }

  /** No two workers run tasks of the same slot. */
  ghost predicate NoSharedSlot(s: Server) {
    forall v: nat, w: nat :: v != w && Task(s, v).Some? && Task(s, w).Some? ==>
      && Task(s, v).value in s.slotOf && Task(s, w).value in s.slotOf
      && s.slotOf[Task(s, v).value] != s.slotOf[Task(s, w).value]
  }

  /** A running task has not closed its connection, and yet its slot does not hold it. */
  predicate Lost(s: Server, w: nat) {
    var x := Task(s, w);
    && x.Some? && x.value !in s.closed && x.value in s.slotOf && x.value in s.connOf
    && (s.slotOf[x.value] < |s.conns| ==> s.conns[s.slotOf[x.value]] != Some(s.connOf[x.value]))
  }

  /** `s` is reached by some run of a server of that many workers and slots. */
  ghost predicate Served(s: Server, workers: nat, slots: nat) {
    exists moves :: Serve(Start(workers, slots), moves) == Some(s)
  }

  /** In every interleaving, a slot's lock is held exactly while the dispatcher is about to
      queue a task for it or one task for it is queued or running. */
  lemma OneTaskPerConnection(workers: nat, slots: nat, moves: seq<Move>)
    requires Serve(Start(workers, slots), moves).Some?
    ensures var s := Serve(Start(workers, slots), moves).value;
      && (forall i: nat :: i < |s.locked| ==> (s.locked[i] <==> TakenBy(s, i)))
      && (forall x, y :: Live(s, x) && Live(s, y) && x in s.slotOf && y in s.slotOf && s.slotOf[x] == s.slotOf[y] ==> x == y)
      && (s.dispatcher.Took? ==> forall x :: x in s.slotOf && Live(s, x) ==> s.slotOf[x] != s.dispatcher.slot)
      && NoSharedSlot(s)
  {
    hide Do, Start, Inv, SameConn;
    ServeInv(workers, slots, moves);
    var s := Serve(Start(workers, slots), moves).value;
    forall w: nat | Task(s, w).Some? ensures Live(s, Task(s, w).value) && Task(s, w).value in s.slotOf {
      RunningLive(s, w);
    }
    forall v: nat, w: nat | v != w && Task(s, v).Some? && Task(s, w).Some? ensures Task(s, v) != Task(s, w) {
      DifferentTasks(s, v, w);
    }
  }

  /** A task finds the connection it was queued for until it closes it, exactly unless the slot
      had lost that connection between the dispatcher's look and its lock: a second look after
      `pthread_mutex_trylock` would tell. */
  lemma LostWhenLate(workers: nat, slots: nat, moves: seq<Move>, w: nat)
    requires Serve(Start(workers, slots), moves).Some?
    requires Task(Serve(Start(workers, slots), moves).value, w).Some?
    ensures var s := Serve(Start(workers, slots), moves).value; var x := Task(s, w).value;
      Lost(s, w) <==> x in s.late && x !in s.closed
  {
    hide Do, Start, Inv, LiveLocked, LockedLive;
    ServeInv(workers, slots, moves);
    RunningLive(Serve(Start(workers, slots), moves).value, w);
  }

  // ---------------------------------------------------------------- a lost connection

  lemma ServedNext(s: Server, m: Move, workers: nat, slots: nat)
    requires Served(s, workers, slots) && Do(s, m).Some?
    ensures Served(Do(s, m).value, workers, slots)
  {
    hide Do, Start;
    var moves :| Serve(Start(workers, slots), moves) == Some(s);
    assert (moves + [m])[..|moves|] == moves;
    assert Serve(Start(workers, slots), moves + [m]) == Do(s, m);
  }

  lemma StartServed(workers: nat, slots: nat)
    ensures Served(Start(workers, slots), workers, slots)
  {
    assert Serve(Start(workers, slots), []) == Some(Start(workers, slots));
  }

  ghost predicate JustLinked(p: Pool, job: JobId) {
    && |p.workers| > 0 && p.submitters == [Linked] && p.queue == [job] && p.countLock == None && p.waiters == []
    && forall i :: 0 <= i < |p.workers| ==> p.workers[i] == Checking
  }

  function TakenUp(p: Pool, job: JobId): Pool
    requires |p.workers| > 0
  {
    p.(queue := [], queueLock := Free, submitters := [Idle], pulled := p.pulled + [job],
       semaphore := 0, working := p.working + 1, workers := p.workers[0 := Running(Some(job))])
  }

  /** The submitter posts the semaphore, and the first worker takes it. */
  lemma WakesUp(s: Server, job: JobId, workers: nat, slots: nat) returns (s': Server)
    requires Served(s, workers, slots) && JustLinked(s.pool, job)
    ensures Served(s', workers, slots)
    ensures s' == s.(pool := s.pool.(queueLock := Free, submitters := [Idle], semaphore := 0, workers := s.pool.workers[0 := Woken]))
  {
    hide Served;
    assert Asleep !in s.pool.workers;
    ServedNext(s, PoolMove(SubmitPost(0, 0)), workers, slots);
    s' := Do(s, PoolMove(SubmitPost(0, 0))).value;
    ServedNext(s', PoolMove(Check(0)), workers, slots);
    s' := Do(s', PoolMove(Check(0))).value;
  }

  /** The first worker takes up the one job just submitted. */
  lemma TakesUp(s: Server, job: JobId, workers: nat, slots: nat) returns (s': Server)
    requires Served(s, workers, slots) && JustLinked(s.pool, job)
    ensures Served(s', workers, slots) && s' == s.(pool := TakenUp(s.pool, job))
  {
    hide Served;
    s' := WakesUp(s, job, workers, slots);
    ServedNext(s', PoolMove(Count(0)), workers, slots);
    s' := Do(s', PoolMove(Count(0))).value;
    ServedNext(s', PoolMove(Pull(0)), workers, slots);
    s' := Do(s', PoolMove(Pull(0))).value;
    ServedNext(s', PoolMove(PullPost(0, 0)), workers, slots);
    s' := Do(s', PoolMove(PullPost(0, 0))).value;
    assert s'.pool.workers == s.pool.workers[0 := Running(Some(job))];
  }

  /** The first connection's first task is running, and the dispatcher has looked at it again. */
  lemma LooksAgain(workers: nat, slots: nat) returns (s: Server)
    requires workers > 0 && slots > 0
    ensures Served(s, workers, slots)
    ensures s == Start(workers, slots).(
                   pool := Init(workers, 1, 0).(submitted := [0], pulled := [0], working := 1,
                             workers := seq(workers, _ => Checking)[0 := Running(Some(0))]),
                   locked := seq(slots, _ => false)[0 := true], conns := seq(slots, _ => None)[0 := Some(0)],
                   dispatcher := Saw(0, 0), accepted := 1, slotOf := map[0 := 0], connOf := map[0 := 0])
  {
    hide Served;
    StartServed(workers, slots);
    s := Start(workers, slots);
    var todo := [Accept(0), Look(0), TryLock, AddWork(0)];
    ServedNext(s, todo[0], workers, slots);
    s := Do(s, todo[0]).value;
    ServedNext(s, todo[1], workers, slots);
    s := Do(s, todo[1]).value;
    ServedNext(s, todo[2], workers, slots);
    s := Do(s, todo[2]).value;
    ServedNext(s, todo[3], workers, slots);
    s := Do(s, todo[3]).value;
    s := TakesUp(s, 0, workers, slots);
    ServedNext(s, todo[1], workers, slots);
    s := Do(s, todo[1]).value;
  }

  /** The task closes the connection, unlocks the slot and ends; only then the dispatcher takes
      the lock. */
  lemma LocksLate(workers: nat, slots: nat) returns (s: Server)
    requires workers > 0 && slots > 0
    ensures Served(s, workers, slots)
    ensures s == Start(workers, slots).(
                   pool := Init(workers, 1, 0).(submitted := [0], pulled := [0], done := {0}),
                   locked := seq(slots, _ => false)[0 := true], dispatcher := Took(0, 0, true), accepted := 1,
                   slotOf := map[0 := 0], connOf := map[0 := 0], closed := {0})
  {
    hide Served;
    s := LooksAgain(workers, slots);
    var todo := [Close(0), Finish(0), PoolMove(Uncount(0, 0)), TryLock];
    ServedNext(s, todo[0], workers, slots);
    s := Do(s, todo[0]).value;
    assert s.conns == seq(slots, _ => None);
    ServedNext(s, todo[1], workers, slots);
    s := Do(s, todo[1]).value;
    ServedNext(s, todo[2], workers, slots);
    s := Do(s, todo[2]).value;
    assert s.pool.workers == seq(workers, _ => Checking);
    ServedNext(s, todo[3], workers, slots);
    s := Do(s, todo[3]).value;
  }

  /** So a task is queued and run for a connection that is gone. */
  lemma LosesConnection(workers: nat, slots: nat) returns (s: Server)
    requires workers > 0 && slots > 0
    ensures Served(s, workers, slots) && Lost(s, 0)
    ensures Task(s, 0) == Some(1) && 1 in s.slotOf && s.slotOf[1] == 0 && |s.conns| == slots && s.conns[0] == None
  {
    hide Served;
    s := LocksLate(workers, slots);
    ServedNext(s, AddWork(1), workers, slots);
    s := Do(s, AddWork(1)).value;
    s := TakesUp(s, 1, workers, slots);
  }

  /** A server can run a task for a connection that is already gone exactly when it has a
      worker and a slot at all. */
  lemma ConnectionLost(workers: nat, slots: nat)
    ensures (exists s, w: nat :: Served(s, workers, slots) && Lost(s, w)) <==> workers > 0 && slots > 0
  {
    hide Served, Lost;
    if workers > 0 && slots > 0 {
      var s := LosesConnection(workers, slots);
    }
    forall s, w: nat | Served(s, workers, slots) && Lost(s, w) ensures workers > 0 && slots > 0 {
      LostNeeds(s, w, workers, slots);
    }
  }

  lemma LostNeeds(s: Server, w: nat, workers: nat, slots: nat)
    requires Served(s, workers, slots) && Lost(s, w)
    ensures workers > 0 && slots > 0
  {
    hide Start, Do, LiveLocked, LockedLive, SameConn, Inv;
    var moves :| Serve(Start(workers, slots), moves) == Some(s);
    ServeInv(workers, slots, moves);
    ServeSizes(workers, slots, moves);
  }

  lemma DoSizes(s: Server, m: Move)
    requires Do(s, m).Some?
    ensures var s' := Do(s, m).value;
      |s'.pool.workers| == |s.pool.workers| && |s'.locked| == |s.locked|
  {
    hide Next;
    match m
    case PoolMove(a) => NextSizes(s.pool, a);
    case AddWork(job) => NextSizes(s.pool, Submit(0, job));
    case Finish(w) => NextSizes(s.pool, Execute(w));
    case _ =>
  }

  lemma {:induction false} ServeSizes(workers: nat, slots: nat, moves: seq<Move>)
    requires Serve(Start(workers, slots), moves).Some?
    ensures var s := Serve(Start(workers, slots), moves).value; |s.pool.workers| == workers && |s.locked| == slots
    decreases |moves|
  {
    hide Do;
    if moves != [] {
      ServeSizes(workers, slots, moves[..|moves| - 1]);
      DoSizes(Serve(Start(workers, slots), moves[..|moves| - 1]).value, moves[|moves| - 1]);
    }
  }

  lemma DifferentTasks(s: Server, v: nat, w: nat)
    requires Inv(s.pool) && Task(s, v).Some? && Task(s, w).Some? && v != w
    ensures Task(s, v) != Task(s, w)
  {
    hide CountInv, LockInv, SemaphoreInv, SleepInv, PulledInv, CountLockInv, SeenInv, BlockedInv, QueueInv;
    assert Held(s.pool.workers[v]) == Task(s, v) && Held(s.pool.workers[w]) == Task(s, w);
  }
}
