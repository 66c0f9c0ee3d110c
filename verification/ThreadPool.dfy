/** The thread pool as a system of interleaved steps: workers, submitters and callers of
    `thpool_wait` share a job queue behind one lock, a binary semaphore, and a count of
    working threads behind another lock. Each step is a section of code that no other
    thread can observe half done. */
module ThreadPool {
  import opened Results
  import opened JobQueue

  type JobId = nat

  /** Where a worker is in `thread_do`. */
  datatype Worker =
    | Checking                                  // in bsem_wait, about to look at the semaphore
    | Asleep                                    // in bsem_wait, in pthread_cond_wait
    | Woken                                     // semaphore taken, not yet counted
    | Counted                                   // num_threads_working incremented
    | Pulled(job: Option<JobId>, post: bool)    // queue lock held, job unlinked, semaphore not yet posted
    | Running(job: Option<JobId>)               // executing the job, if any
    | Ran                                       // job done, still counted

  /** Where a thread is in `thpool_add_work`. */
  datatype Submitter =
    | Idle
    | Linked                                    // queue lock held, job linked, semaphore not yet posted

  /** Where a thread is in `thpool_wait`; `seen` is what had been submitted when `len` was
      last read as zero. */
  datatype Waiter =
    | Outside
    | Blocked                                   // in pthread_cond_wait, lock released
    | Resuming                                  // woken, about to take the lock again
    | Locked                                    // count lock held, about to read len
    | SawEmpty(seen: seq<JobId>)                // count lock held, len was 0, about to read the count
    | Returned(seen: seq<JobId>)

  datatype Holder = Free | ByWorker(i: nat) | BySubmitter(i: nat)

  datatype Pool = Pool(
    queue: seq<JobId>, queueLock: Holder, semaphore: nat, working: nat, countLock: Option<nat>,
    workers: seq<Worker>, submitters: seq<Submitter>, waiters: seq<Waiter>,
    // history
    submitted: seq<JobId>, pulled: seq<JobId>, done: set<JobId>)

  /** `woken` is the thread that a condition variable's signal wakes, if any thread waits on it. */
  datatype Step =
    | Submit(s: nat, job: JobId)
    | SubmitPost(s: nat, woken: nat)
    | Check(w: nat)
    | Count(w: nat)
    | Pull(w: nat)
    | PullPost(w: nat, woken: nat)
    | Execute(w: nat)
    | Uncount(w: nat, woken: nat)
    | Enter(t: nat)
    | ReadLen(t: nat)
    | ReadCount(t: nat)
    | SpuriousWorker(w: nat)
    | SpuriousWaiter(t: nat)

  function Init(workers: nat, submitters: nat, waiters: nat): Pool {
    Pool([], Free, 0, 0, None, seq(workers, _ => Checking), seq(submitters, _ => Idle), seq(waiters, _ => Outside), [], [], {})
  }

  predicate SignalOk<T(==)>(threads: seq<T>, waiting: T, woken: nat) {
    waiting in threads ==> woken < |threads| && threads[woken] == waiting
  }

  function Signal<T(==)>(threads: seq<T>, waiting: T, woken: nat, awake: T): seq<T>
    requires SignalOk(threads, waiting, woken)
  {
    if waiting in threads then threads[woken := awake] else threads
  }

  /** The state after a step, if the thread it belongs to can take it now. */
  function Next(p: Pool, a: Step): Option<Pool> {
    match a
    case Submit(s, job) =>
      if s < |p.submitters| && p.submitters[s] == Idle && p.queueLock == Free && job !in p.submitted then
        Some(p.(queue := p.queue + [job], queueLock := BySubmitter(s), submitters := p.submitters[s := Linked],
                submitted := p.submitted + [job]))
      else None
    case SubmitPost(s, woken) =>
      if s < |p.submitters| && p.submitters[s] == Linked && SignalOk(p.workers, Asleep, woken) then
        Some(p.(semaphore := 1, workers := Signal(p.workers, Asleep, woken, Checking),
                queueLock := Free, submitters := p.submitters[s := Idle]))
      else None
    case Check(w) =>
      if w < |p.workers| && p.workers[w] == Checking then
        if p.semaphore != 1 then Some(p.(workers := p.workers[w := Asleep]))
        else Some(p.(semaphore := 0, workers := p.workers[w := Woken]))
      else None
    case Count(w) =>
      if w < |p.workers| && p.workers[w] == Woken && p.countLock == None then
        Some(p.(working := p.working + 1, workers := p.workers[w := Counted]))
      else None
    case Pull(w) =>
      if w < |p.workers| && p.workers[w] == Counted && p.queueLock == Free then
        var t := Take(p.queue);
        Some(p.(queue := t.rest, queueLock := ByWorker(w), workers := p.workers[w := Pulled(t.job, t.post)],
                pulled := if t.job.Some? then p.pulled + [t.job.value] else p.pulled))
      else None
    case PullPost(w, woken) =>
      if w < |p.workers| && p.workers[w].Pulled? && SignalOk(p.workers, Asleep, woken) then
        var ws := p.workers[w := Running(p.workers[w].job)];
        if p.workers[w].post then
          Some(p.(semaphore := 1, queueLock := Free, workers := Signal(ws, Asleep, woken, Checking)))
        else
          Some(p.(queueLock := Free, workers := ws))
      else None
    case Execute(w) =>
      if w < |p.workers| && p.workers[w].Running? then
        Some(p.(workers := p.workers[w := Ran],
                done := if p.workers[w].job.Some? then p.done + {p.workers[w].job.value} else p.done))
      else None
    case Uncount(w, woken) =>
      if w < |p.workers| && p.workers[w] == Ran && p.countLock == None && p.working > 0
         && SignalOk(p.waiters, Blocked, woken) then
        Some(p.(working := p.working - 1, workers := p.workers[w := Checking],
                waiters := if p.working == 1 then Signal(p.waiters, Blocked, woken, Resuming) else p.waiters))
      else None
    case Enter(t) =>
      if t < |p.waiters| && (p.waiters[t] in {Outside, Resuming} || p.waiters[t].Returned?) && p.countLock == None then
        Some(p.(countLock := Some(t), waiters := p.waiters[t := Locked]))
      else None
    case ReadLen(t) =>
      if t < |p.waiters| && p.waiters[t] == Locked then
        if |p.queue| != 0 then Some(p.(countLock := None, waiters := p.waiters[t := Blocked]))
        else Some(p.(waiters := p.waiters[t := SawEmpty(p.submitted)]))
      else None
    case ReadCount(t) =>
      if t < |p.waiters| && p.waiters[t].SawEmpty? then
        if p.working != 0 then Some(p.(countLock := None, waiters := p.waiters[t := Blocked]))
        else Some(p.(countLock := None, waiters := p.waiters[t := Returned(p.waiters[t].seen)]))
      else None
    case SpuriousWorker(w) =>
      if w < |p.workers| && p.workers[w] == Asleep then Some(p.(workers := p.workers[w := Checking])) else None
    case SpuriousWaiter(t) =>
      if t < |p.waiters| && p.waiters[t] == Blocked then Some(p.(waiters := p.waiters[t := Resuming])) else None
  }

  /** The state after a run, if every step of it could be taken. */
  function Run(p: Pool, steps: seq<Step>): Option<Pool> {
    if steps == [] then Some(p)
    else
      var q := Run(p, steps[..|steps| - 1]);
      if q.None? then None else Next(q.value, steps[|steps| - 1])
  }

  // ---------------------------------------------------------------- the working counter

  predicate IsCounted(w: Worker) {
    w.Counted? || w.Pulled? || w.Running? || w.Ran?
  }

  function CountWorking(ws: seq<Worker>): nat {
    if ws == [] then 0 else CountWorking(ws[..|ws| - 1]) + if IsCounted(ws[|ws| - 1]) then 1 else 0
  }

  lemma {:induction false} CountUpdate(ws: seq<Worker>, i: nat, w: Worker)
    requires i < |ws|
    ensures CountWorking(ws[i := w]) + (if IsCounted(ws[i]) then 1 else 0)
         == CountWorking(ws) + if IsCounted(w) then 1 else 0
  {
    var n := |ws| - 1;
    if i < n {
      assert ws[i := w][..n] == ws[..n][i := w];
      CountUpdate(ws[..n], i, w);
    } else {
      assert ws[i := w][..n] == ws[..n];
    }
  }

  lemma {:induction false} CountMember(ws: seq<Worker>, i: nat)
    requires i < |ws| && IsCounted(ws[i])
    ensures CountWorking(ws) > 0
  {
    if i < |ws| - 1 { CountMember(ws[..|ws| - 1], i); }
  }

  lemma {:induction false} CountChecking(n: nat)
    ensures CountWorking(seq(n, _ => Checking)) == 0
  {
    if n > 0 {
      assert seq(n, _ => Checking)[..n - 1] == seq(n - 1, _ => Checking);
      CountChecking(n - 1);
    }
  }

  /** The counter is the number of workers between its increment and its decrement. */
  ghost predicate CountInv(p: Pool) {
    p.working == CountWorking(p.workers)
  }

  lemma SignalCount(ws: seq<Worker>, woken: nat)
    requires SignalOk(ws, Asleep, woken)
    ensures CountWorking(Signal(ws, Asleep, woken, Checking)) == CountWorking(ws)
  {
    if Asleep in ws { CountUpdate(ws, woken, Checking); }
  }

  lemma CountNext(p: Pool, a: Step)
    requires CountInv(p) && Next(p, a).Some?
    ensures CountInv(Next(p, a).value)
  {
    match a
    case SubmitPost(_, woken) => SignalCount(p.workers, woken);
    case Check(w) => CountUpdate(p.workers, w, if p.semaphore != 1 then Asleep else Woken);
    case Count(w) => CountUpdate(p.workers, w, Counted);
    case Pull(w) => CountUpdate(p.workers, w, Next(p, a).value.workers[w]);
    case PullPost(w, woken) =>
      var ws := p.workers[w := Running(p.workers[w].job)];
      CountUpdate(p.workers, w, Running(p.workers[w].job));
      if p.workers[w].post { SignalCount(ws, woken); }
    case Execute(w) => CountUpdate(p.workers, w, Ran);
    case Uncount(w, _) => CountUpdate(p.workers, w, Checking);
    case SpuriousWorker(w) => CountUpdate(p.workers, w, Checking);
    case _ =>
  }

  // ---------------------------------------------------------------- the queue and its lock

  /** Jobs leave the queue in the order they entered it. */
  ghost predicate QueueInv(p: Pool) {
    && p.submitted == p.pulled + p.queue
    && (forall i, j :: 0 <= i < j < |p.submitted| ==> p.submitted[i] != p.submitted[j])
  }

  lemma QueueNext(p: Pool, a: Step)
    requires QueueInv(p) && Next(p, a).Some?
    ensures QueueInv(Next(p, a).value)
  {
  }

  /** The queue lock is held by exactly the thread that is inside the critical section. */
  ghost predicate LockInv(p: Pool) {
    && (forall i :: 0 <= i < |p.workers| ==> (p.workers[i].Pulled? <==> p.queueLock == ByWorker(i)))
    && (forall i :: 0 <= i < |p.submitters| ==> (p.submitters[i] == Linked <==> p.queueLock == BySubmitter(i)))
  }

  lemma LockNext(p: Pool, a: Step)
    requires LockInv(p) && Next(p, a).Some?
    ensures LockInv(Next(p, a).value)
  {
  }

  // ---------------------------------------------------------------- wakeups

  /** The thread inside the queue's critical section is about to post the semaphore. */
  ghost predicate PostPending(p: Pool) {
    Linked in p.submitters || exists w :: w in p.workers && w.Pulled? && w.post
  }

  /** Some worker has taken the semaphore and not yet pulled. */
  ghost predicate SomeoneComing(p: Pool) {
    Woken in p.workers || Counted in p.workers
  }

  ghost predicate SemaphoreInv(p: Pool) {
    && p.semaphore <= 1
    && (p.queue != [] ==> p.semaphore == 1 || SomeoneComing(p) || PostPending(p))
    && (forall w :: w in p.workers && w.Pulled? && !w.post ==> p.queue == [])
  }

  /** A worker sleeps through a posted semaphore only if another is about to look at it. */
  ghost predicate SleepInv(p: Pool) {
    p.semaphore == 1 && Asleep in p.workers ==> Checking in p.workers
  }

  lemma InUpdate<T>(s: seq<T>, i: nat, x: T)
    requires i < |s|
    ensures x in s[i := x]
    ensures forall y :: y in s[i := x] ==> y == x || y in s
    ensures forall y :: y in s && y != s[i] ==> y in s[i := x]
  {
    var s' := s[i := x];
    assert s'[i] == x;
    forall y | y in s && y != s[i] ensures y in s' {
      var j :| 0 <= j < |s| && s[j] == y;
      assert s'[j] == y;
    }
  }

  lemma SleepNext(p: Pool, a: Step)
    requires SleepInv(p) && Next(p, a).Some? && p.semaphore <= 1
    ensures SleepInv(Next(p, a).value)
  {
    match a
    case SubmitPost(_, woken) =>
      if Asleep in p.workers { InUpdate(p.workers, woken, Checking); }
    case Check(w) => InUpdate(p.workers, w, Next(p, a).value.workers[w]);
    case Count(w) => InUpdate(p.workers, w, Counted);
    case Pull(w) => InUpdate(p.workers, w, Next(p, a).value.workers[w]);
    case PullPost(w, woken) =>
      InUpdate(p.workers, w, Running(p.workers[w].job));
      var ws := p.workers[w := Running(p.workers[w].job)];
      if p.workers[w].post && Asleep in ws { InUpdate(ws, woken, Checking); }
    case Execute(w) => InUpdate(p.workers, w, Ran);
    case Uncount(w, _) => InUpdate(p.workers, w, Checking);
    case SpuriousWorker(w) => InUpdate(p.workers, w, Checking);
    case _ =>
  }

  lemma SemaphoreNext(p: Pool, a: Step)
    requires SemaphoreInv(p) && LockInv(p) && Next(p, a).Some?
    ensures SemaphoreInv(Next(p, a).value)
  {
    match a
    case Submit(s, _) => InUpdate(p.submitters, s, Linked);
    case SubmitPost(_, woken) =>
      if Asleep in p.workers { InUpdate(p.workers, woken, Checking); }
    case Check(w) => InUpdate(p.workers, w, Next(p, a).value.workers[w]);
    case Count(w) => InUpdate(p.workers, w, Counted);
    case Pull(w) => InUpdate(p.workers, w, Next(p, a).value.workers[w]);
    case PullPost(w, woken) =>
      InUpdate(p.workers, w, Running(p.workers[w].job));
      var ws := p.workers[w := Running(p.workers[w].job)];
      if p.workers[w].post && Asleep in ws { InUpdate(ws, woken, Checking); }
    case Execute(w) => InUpdate(p.workers, w, Ran);
    case Uncount(w, _) => InUpdate(p.workers, w, Checking);
    case SpuriousWorker(w) => InUpdate(p.workers, w, Checking);
    case _ =>
  }

  // ---------------------------------------------------------------- jobs

  /** The job a worker has in hand. */
  function Held(w: Worker): Option<JobId> {
    match w
    case Pulled(job, _) => job
    case Running(job) => job
    case _ => None
  }

  ghost predicate InHand(ws: seq<Worker>, x: JobId) {
    exists i :: 0 <= i < |ws| && Held(ws[i]) == Some(x)
  }

  /** Jobs in hand have been pulled and are not done, and no two workers hold the same one. */
  ghost predicate HeldInv(p: Pool) {
    && (forall i :: 0 <= i < |p.workers| && Held(p.workers[i]).Some? ==>
          Held(p.workers[i]).value in p.pulled && Held(p.workers[i]).value !in p.done)
    && (forall i, j :: 0 <= i < j < |p.workers| && Held(p.workers[i]).Some? ==> Held(p.workers[i]) != Held(p.workers[j]))
  }

  /** Pulled jobs are done or in hand. */
  ghost predicate PulledInv(p: Pool) {
    && (forall x :: x in p.done ==> x in p.pulled)
    && (forall x :: x in p.pulled ==> x in p.done || InHand(p.workers, x))
  }

  lemma HeldPull(p: Pool, w: nat)
    requires HeldInv(p) && QueueInv(p) && PulledInv(p) && Next(p, Pull(w)).Some?
    ensures HeldInv(Next(p, Pull(w)).value)
  {
    if p.queue != [] {
      assert p.queue[0] == p.submitted[|p.pulled|];
      assert forall i :: 0 <= i < |p.pulled| ==> p.pulled[i] == p.submitted[i];
      assert p.queue[0] !in p.pulled;
    }
  }

  /** No worker takes a job in hand but by pulling. */
  lemma HeldKept(p: Pool, a: Step, i: nat)
    requires Next(p, a).Some? && !a.Pull? && i < |p.workers|
    ensures |Next(p, a).value.workers| == |p.workers| && Held(Next(p, a).value.workers[i]) in {None, Held(p.workers[i])}
    ensures a.Execute? && i == a.w ==> Held(Next(p, a).value.workers[i]) == None
  {
  }

  lemma HistoryKept(p: Pool, a: Step)
    requires Next(p, a).Some? && !a.Pull?
    ensures var p' := Next(p, a).value;
      p'.pulled == p.pulled && p'.done == if a.Execute? && p.workers[a.w].job.Some? then p.done + {p.workers[a.w].job.value} else p.done
  {
  }

  lemma HeldNext(p: Pool, a: Step)
    requires HeldInv(p) && QueueInv(p) && PulledInv(p) && Next(p, a).Some?
    ensures HeldInv(Next(p, a).value)
  {
    hide Next, HeldInv, QueueInv, PulledInv;
    if a.Pull? {
      HeldPull(p, a.w);
    } else {
      HeldOther(p, a);
    }
  }

  lemma HeldOther(p: Pool, a: Step)
    requires HeldInv(p) && Next(p, a).Some? && !a.Pull?
    ensures HeldInv(Next(p, a).value)
  {
    hide Next, Held;
    HistoryKept(p, a);
    forall i | 0 <= i < |p.workers|
      ensures |Next(p, a).value.workers| == |p.workers| && Held(Next(p, a).value.workers[i]) in {None, Held(p.workers[i])}
      ensures a.Execute? && i == a.w ==> Held(Next(p, a).value.workers[i]) == None
    {
      HeldKept(p, a, i);
    }
    WorkersKept(p, a);
  }

  lemma WorkersKept(p: Pool, a: Step)
    requires Next(p, a).Some?
    ensures |Next(p, a).value.workers| == |p.workers|
    ensures a.Execute? ==> a.w < |p.workers| && p.workers[a.w].Running? && Held(p.workers[a.w]) == p.workers[a.w].job
  {
  }

  lemma PulledNext(p: Pool, a: Step)
    requires PulledInv(p) && HeldInv(p) && Next(p, a).Some?
    ensures PulledInv(Next(p, a).value)
  {
    hide Next, Held;
    WorkersKept(p, a);
    if a.Pull? {
      PulledPull(p, a.w);
    } else {
      HistoryKept(p, a);
      forall x | x in p.pulled && InHand(p.workers, x) ensures x in Next(p, a).value.done || InHand(Next(p, a).value.workers, x) {
        StillInHand(p, a, x);
      }
    }
  }

  lemma PulledPull(p: Pool, w: nat)
    requires PulledInv(p) && Next(p, Pull(w)).Some?
    ensures PulledInv(Next(p, Pull(w)).value)
  {
    var p' := Next(p, Pull(w)).value;
    forall x | x in p'.pulled ensures x in p'.done || InHand(p'.workers, x) {
      if x in p.pulled {
        if x !in p'.done {
          var i :| 0 <= i < |p.workers| && Held(p.workers[i]) == Some(x);
          assert Held(p'.workers[i]) == Some(x);
        }
      } else {
        assert Held(p'.workers[w]) == Some(x);
      }
    }
  }

  /** A job stays in hand until it is done. */
  lemma StillInHand(p: Pool, a: Step, x: JobId)
    requires Next(p, a).Some? && InHand(p.workers, x) && !a.Pull?
    ensures x in Next(p, a).value.done || InHand(Next(p, a).value.workers, x)
  {
    var p' := Next(p, a).value;
    var i :| 0 <= i < |p.workers| && Held(p.workers[i]) == Some(x);
    if !(a.Execute? && a.w == i) {
      assert Held(p'.workers[i]) == Some(x);
    }
  }

  // ---------------------------------------------------------------- thpool_wait

  /** The count lock is held by exactly the waiter between taking and releasing it. */
  ghost predicate CountLockInv(p: Pool) {
    forall t :: 0 <= t < |p.waiters| ==> (p.countLock == Some(t) <==> p.waiters[t].Locked? || p.waiters[t].SawEmpty?)
  }

  /** What a waiter has seen has been pulled, and is done once it has returned. */
  ghost predicate SeenInv(p: Pool) {
    && (forall t, x :: 0 <= t < |p.waiters| && p.waiters[t].SawEmpty? && x in p.waiters[t].seen ==> x in p.pulled)
    && (forall t, x :: 0 <= t < |p.waiters| && p.waiters[t].Returned? && x in p.waiters[t].seen ==> x in p.done)
  }

  lemma CountLockNext(p: Pool, a: Step)
    requires CountLockInv(p) && Next(p, a).Some?
    ensures CountLockInv(Next(p, a).value)
  {
  }

  /** No worker is counted, so no job is in hand. */
  lemma NothingInHand(p: Pool, x: JobId)
    requires CountInv(p) && p.working == 0
    ensures !InHand(p.workers, x)
  {
    forall i | 0 <= i < |p.workers| ensures Held(p.workers[i]) != Some(x) {
      if IsCounted(p.workers[i]) { CountMember(p.workers, i); }
    }
  }

  lemma SeenNext(p: Pool, a: Step)
    requires SeenInv(p) && CountInv(p) && QueueInv(p) && PulledInv(p) && Next(p, a).Some?
    ensures SeenInv(Next(p, a).value)
  {
    if a.ReadCount? && p.working == 0 {
      forall x | x in p.waiters[a.t].seen ensures x in p.done {
        NothingInHand(p, x);
      }
      assert Next(p, a).value.waiters == p.waiters[a.t := Returned(p.waiters[a.t].seen)];
    } else {
      hide PulledInv, CountInv;
      HistoryGrows(p, a);
      forall t | 0 <= t < |p.waiters| ensures SeenKept(p, Next(p, a).value, t) { WaiterKept(p, a, t); }
    }
  }

  lemma HistoryGrows(p: Pool, a: Step)
    requires Next(p, a).Some?
    ensures var p' := Next(p, a).value;
      (forall x :: x in p.pulled ==> x in p'.pulled) && (forall x :: x in p.done ==> x in p'.done)
      && |p'.waiters| == |p.waiters|
  {
  }

  ghost predicate SeenKept(p: Pool, p': Pool, t: nat)
    requires t < |p.waiters|
  {
    && t < |p'.waiters|
    && (p'.waiters[t].SawEmpty? ==> p'.waiters[t] == p.waiters[t] || (p.queue == [] && p'.waiters[t].seen == p.submitted))
    && (p'.waiters[t].Returned? ==> p'.waiters[t] == p.waiters[t])
  }

  lemma WaiterKept(p: Pool, a: Step, t: nat)
    requires Next(p, a).Some? && t < |p.waiters| && !(a.ReadCount? && p.working == 0)
    ensures SeenKept(p, Next(p, a).value, t)
  {
  }

  /** With a single waiting thread: it is blocked only while there is work whose end will
      be signalled. */
  ghost predicate BlockedInv(p: Pool) {
    |p.waiters| <= 1 && Blocked in p.waiters ==> p.working > 0 || p.queue != []
  }

  lemma BlockedNext(p: Pool, a: Step)
    requires BlockedInv(p) && CountInv(p) && Next(p, a).Some?
    ensures BlockedInv(Next(p, a).value)
  {
    if a.Pull? { CountMember(p.workers, a.w); }
  }

  // ---------------------------------------------------------------- every reachable state

  ghost predicate Inv(p: Pool) {
    && CountInv(p) && QueueInv(p) && LockInv(p) && SemaphoreInv(p) && SleepInv(p)
    && HeldInv(p) && PulledInv(p) && CountLockInv(p) && SeenInv(p) && BlockedInv(p)
  }

  lemma NextInv(p: Pool, a: Step)
    requires Inv(p) && Next(p, a).Some?
    ensures Inv(Next(p, a).value)
  {
    hide Next, CountInv, QueueInv, LockInv, SleepInv, HeldInv, PulledInv, CountLockInv, SeenInv, BlockedInv;
    CountNext(p, a);
    QueueNext(p, a);
    LockNext(p, a);
    SemaphoreNext(p, a);
    SleepNext(p, a);
    HeldNext(p, a);
    PulledNext(p, a);
    CountLockNext(p, a);
    SeenNext(p, a);
    BlockedNext(p, a);
  }

  lemma InitInv(workers: nat, submitters: nat, waiters: nat)
    ensures Inv(Init(workers, submitters, waiters))
  {
    CountChecking(workers);
    var p := Init(workers, submitters, waiters);
    assert PulledInv(p) && QueueInv(p) && HeldInv(p);
    assert forall w :: w in p.workers ==> w == Checking;
  }

  lemma {:induction false} RunInv(workers: nat, submitters: nat, waiters: nat, steps: seq<Step>)
    requires Run(Init(workers, submitters, waiters), steps).Some?
    ensures Inv(Run(Init(workers, submitters, waiters), steps).value)
    decreases |steps|
  {
    hide Inv, Next, Init;
    if steps == [] {
      InitInv(workers, submitters, waiters);
    } else {
      RunInv(workers, submitters, waiters, steps[..|steps| - 1]);
      NextInv(Run(Init(workers, submitters, waiters), steps[..|steps| - 1]).value, steps[|steps| - 1]);
    }
  }

  // ---------------------------------------------------------------- what the pool guarantees

  /** `p` is reached by some run of a pool of that many threads of each kind. */
  ghost predicate Reachable(p: Pool, workers: nat, submitters: nat, waiters: nat) {
    exists steps :: Run(Init(workers, submitters, waiters), steps) == Some(p)
  }

  lemma ReachableInv(p: Pool, workers: nat, submitters: nat, waiters: nat)
    requires Reachable(p, workers, submitters, waiters)
    ensures Inv(p) && |p.workers| == workers && |p.submitters| == submitters && |p.waiters| == waiters
  {
    hide Inv, Next;
    var steps :| Run(Init(workers, submitters, waiters), steps) == Some(p);
    RunInv(workers, submitters, waiters, steps);
    RunSizes(workers, submitters, waiters, steps);
  }

  lemma NextSizes(p: Pool, a: Step)
    requires Next(p, a).Some?
    ensures var p' := Next(p, a).value;
      |p'.workers| == |p.workers| && |p'.submitters| == |p.submitters| && |p'.waiters| == |p.waiters|
  {
  }

  lemma {:induction false} RunSizes(workers: nat, submitters: nat, waiters: nat, steps: seq<Step>)
    requires Run(Init(workers, submitters, waiters), steps).Some?
    ensures var p := Run(Init(workers, submitters, waiters), steps).value;
      |p.workers| == workers && |p.submitters| == submitters && |p.waiters| == waiters
    decreases |steps|
  {
    hide Next;
    if steps != [] {
      RunSizes(workers, submitters, waiters, steps[..|steps| - 1]);
      NextSizes(Run(Init(workers, submitters, waiters), steps[..|steps| - 1]).value, steps[|steps| - 1]);
    }
  }

  /** Nobody will move unless new work arrives: workers sleep, submitters are idle, and
      every waiter is outside `thpool_wait` or blocked in it. */
  ghost predicate Settled(p: Pool) {
    && (forall w :: w in p.workers ==> w == Asleep)
    && (forall s :: s in p.submitters ==> s == Idle)
    && (forall t :: t in p.waiters ==> t.Outside? || t.Blocked? || t.Returned?)
  }

  /** No wakeup is lost: while jobs are queued, the semaphore is up, or a worker has taken it
      and not yet pulled, or the thread inside the queue is about to post it; and the pool
      never settles with a job left in the queue. */
  lemma NoLostWakeup(p: Pool, workers: nat, submitters: nat, waiters: nat)
    requires Reachable(p, workers, submitters, waiters) && workers > 0
    ensures p.queue != [] ==> p.semaphore == 1 || SomeoneComing(p) || PostPending(p)
    ensures Settled(p) ==> p.queue == []
  {
    hide Reachable;
    ReachableInv(p, workers, submitters, waiters);
    assert p.workers[0] in p.workers;
  }

  /** Every submitted job is queued, in the hands of one worker, or done, and only one of
      these; jobs are pulled in the order in which they were submitted. */
  lemma EachJobOnce(p: Pool, workers: nat, submitters: nat, waiters: nat, x: JobId)
    requires Reachable(p, workers, submitters, waiters)
    ensures x in p.submitted <==> x in p.queue || InHand(p.workers, x) || x in p.done
    ensures x in p.queue ==> !InHand(p.workers, x) && x !in p.done
    ensures InHand(p.workers, x) ==> x !in p.done
    ensures forall i, j :: 0 <= i < |p.workers| && 0 <= j < |p.workers| && Held(p.workers[i]) == Held(p.workers[j]) == Some(x) ==> i == j
    ensures p.submitted == p.pulled + p.queue
  {
    hide Reachable;
    ReachableInv(p, workers, submitters, waiters);
    if x in p.queue {
      var i :| 0 <= i < |p.queue| && p.queue[i] == x;
      assert p.submitted[|p.pulled| + i] == x;
      assert forall k :: 0 <= k < |p.pulled| ==> p.pulled[k] == p.submitted[k];
      assert x !in p.pulled;
    }
  }

  /** When `thpool_wait` returns, every job submitted before its last read of the queue
      length is done. */
  lemma WaitReturnsAfterWork(p: Pool, workers: nat, submitters: nat, waiters: nat, t: nat)
    requires Reachable(p, workers, submitters, waiters) && t < waiters && t < |p.waiters| && p.waiters[t].Returned?
    ensures forall x :: x in p.waiters[t].seen ==> x in p.done
  {
    hide Reachable;
    ReachableInv(p, workers, submitters, waiters);
  }

  // ---------------------------------------------------------------- stranded waiters

  lemma ReachableNext(p: Pool, a: Step, workers: nat, submitters: nat, waiters: nat)
    requires Reachable(p, workers, submitters, waiters) && Next(p, a).Some?
    ensures Reachable(Next(p, a).value, workers, submitters, waiters)
  {
    hide Next, Init;
    var steps :| Run(Init(workers, submitters, waiters), steps) == Some(p);
    assert (steps + [a])[..|steps|] == steps;
    assert Run(Init(workers, submitters, waiters), steps + [a]) == Next(p, a);
  }

  lemma InitReachable(workers: nat, submitters: nat, waiters: nat)
    ensures Reachable(Init(workers, submitters, waiters), workers, submitters, waiters)
  {
    assert Run(Init(workers, submitters, waiters), []) == Some(Init(workers, submitters, waiters));
  }

  /** A worker takes up the first job while two threads wait for it. */
  lemma TwoWait(workers: nat, submitters: nat, waiters: nat) returns (p: Pool)
    requires workers > 0 && submitters > 0 && waiters > 1
    ensures Reachable(p, workers, submitters, waiters)
    ensures p == Init(workers, submitters, waiters).(queue := [0], submitted := [0], working := 1,
                   workers := seq(workers, _ => Checking)[0 := Counted], waiters := seq(waiters, _ => Outside)[0 := Blocked][1 := Blocked])
  {
    hide Reachable;
    p := Init(workers, submitters, waiters);
    InitReachable(workers, submitters, waiters);
    var todo := [Submit(0, 0), SubmitPost(0, 0), Check(0), Count(0), Enter(0), ReadLen(0), Enter(1), ReadLen(1)];
    ReachableNext(p, todo[0], workers, submitters, waiters);
    p := Next(p, todo[0]).value;
    ReachableNext(p, todo[1], workers, submitters, waiters);
    p := Next(p, todo[1]).value;
    assert p.submitters == seq(submitters, _ => Idle);
    ReachableNext(p, todo[2], workers, submitters, waiters);
    p := Next(p, todo[2]).value;
    ReachableNext(p, todo[3], workers, submitters, waiters);
    p := Next(p, todo[3]).value;
    assert p.workers == seq(workers, _ => Checking)[0 := Counted];
    ReachableNext(p, todo[4], workers, submitters, waiters);
    p := Next(p, todo[4]).value;
    ReachableNext(p, todo[5], workers, submitters, waiters);
    p := Next(p, todo[5]).value;
    assert p.waiters == seq(waiters, _ => Outside)[0 := Blocked];
    ReachableNext(p, todo[6], workers, submitters, waiters);
    p := Next(p, todo[6]).value;
    ReachableNext(p, todo[7], workers, submitters, waiters);
    p := Next(p, todo[7]).value;
    assert p.waiters == seq(waiters, _ => Outside)[0 := Blocked][1 := Blocked];
  }

  /** The job ends, its end is signalled, and only the first of the two threads hears it. */
  lemma OneReturns(workers: nat, submitters: nat, waiters: nat) returns (p: Pool)
    requires workers > 0 && submitters > 0 && waiters > 1
    ensures Reachable(p, workers, submitters, waiters)
    ensures p == Init(workers, submitters, waiters).(submitted := [0], pulled := [0], done := {0},
                   waiters := seq(waiters, _ => Outside)[0 := Returned([0])][1 := Blocked])
  {
    hide Reachable;
    p := TwoWait(workers, submitters, waiters);
    var todo := [Pull(0), PullPost(0, 0), Execute(0), Uncount(0, 0), Enter(0), ReadLen(0), ReadCount(0)];
    ReachableNext(p, todo[0], workers, submitters, waiters);
    p := Next(p, todo[0]).value;
    ReachableNext(p, todo[1], workers, submitters, waiters);
    p := Next(p, todo[1]).value;
    ReachableNext(p, todo[2], workers, submitters, waiters);
    p := Next(p, todo[2]).value;
    assert p.waiters[0] in p.waiters;
    ReachableNext(p, todo[3], workers, submitters, waiters);
    p := Next(p, todo[3]).value;
    assert p.workers == seq(workers, _ => Checking);
    ReachableNext(p, todo[4], workers, submitters, waiters);
    p := Next(p, todo[4]).value;
    ReachableNext(p, todo[5], workers, submitters, waiters);
    p := Next(p, todo[5]).value;
    ReachableNext(p, todo[6], workers, submitters, waiters);
    p := Next(p, todo[6]).value;
    assert p.waiters == seq(waiters, _ => Outside)[0 := Returned([0])][1 := Blocked];
  }

  /** The first `n` workers find the semaphore down and go to sleep. */
  lemma {:induction false} AllSleep(p: Pool, n: nat, workers: nat, submitters: nat, waiters: nat) returns (q: Pool)
    requires Reachable(p, workers, submitters, waiters) && p.semaphore == 0
    requires n <= |p.workers| && forall i :: 0 <= i < |p.workers| ==> p.workers[i] == Checking
    ensures Reachable(q, workers, submitters, waiters)
    ensures q == p.(workers := seq(|p.workers|, i => if i < n then Asleep else Checking))
  {
    hide Reachable;
    if n == 0 {
      q := p;
      assert p.workers == seq(|p.workers|, i => if i < n then Asleep else Checking);
    } else {
      q := AllSleep(p, n - 1, workers, submitters, waiters);
      ReachableNext(q, Check(n - 1), workers, submitters, waiters);
      q := Next(q, Check(n - 1)).value;
      assert q.workers == seq(|p.workers|, i => if i < n then Asleep else Checking);
    }
  }

  /** A thread can be left in `thpool_wait` for good, with all work done, exactly when two
      threads may be waiting at once: the end of the work is signalled to one of them only. */
  lemma WaitersStranded(workers: nat, submitters: nat, waiters: nat)
    requires workers > 0 && submitters > 0
    ensures (exists p :: Reachable(p, workers, submitters, waiters) && Settled(p) && Blocked in p.waiters) <==> waiters > 1
  {
    hide Reachable;
    if waiters > 1 {
      var p := OneReturns(workers, submitters, waiters);
      var q := AllSleep(p, workers, workers, submitters, waiters);
      assert q.waiters[1] == Blocked;
      assert Settled(q) && Blocked in q.waiters;
    }
    forall p | Reachable(p, workers, submitters, waiters) && Settled(p) && Blocked in p.waiters
      ensures waiters > 1
    {
      ReachableInv(p, workers, submitters, waiters);
      NoLostWakeup(p, workers, submitters, waiters);
      forall i | 0 <= i < |p.workers| ensures p.workers[i] == Asleep {
        assert p.workers[i] in p.workers;
      }
      SettledIdle(p.workers);
    }
  }

  lemma {:induction false} SettledIdle(ws: seq<Worker>)
    requires forall i :: 0 <= i < |ws| ==> ws[i] == Asleep
    ensures CountWorking(ws) == 0
  {
    if ws != [] { SettledIdle(ws[..|ws| - 1]); }
  }
}
