/** The linked job queue of the thread pool. */
module JobQueue {
  import opened Results

  /** What a pull yields: the job, what stays queued, and whether to post the semaphore again. */
  datatype Taken = Taken(job: Option<nat>, rest: seq<nat>, post: bool)

  /** The oldest of the queued jobs. */
  function Take(queued: seq<nat>): Taken {
    if queued == [] then Taken(None, [], false) else Taken(Some(queued[0]), queued[1..], |queued| > 1)
  }

  class Job {
    const id: nat
    /** The job queued right after this one. */
    var prev: Job?

    constructor (id: nat)
      ensures this.id == id && prev == null
    {
      this.id := id;
      prev := null;
    }
  }

  ghost function Following(jobs: seq<Job>, i: nat): Job? {
    if i + 1 < |jobs| then jobs[i + 1] else null
  }

  ghost function Ids(jobs: seq<Job>): (ids: seq<nat>)
    ensures |ids| == |jobs| && forall i :: 0 <= i < |jobs| ==> ids[i] == jobs[i].id
  {
    seq(|jobs|, i requires 0 <= i < |jobs| => jobs[i].id)
  }

  class JobQueue {
    var front: Job?
    var rear: Job?
    var len: nat
    /** The queued jobs, the next one to be pulled first. */
    ghost var jobs: seq<Job>

    ghost predicate Valid()
      reads this, jobs
    {
      && len == |jobs|
      && (forall i, j :: 0 <= i < j < |jobs| ==> jobs[i] != jobs[j])
      && (forall i :: 0 <= i < |jobs| ==> jobs[i].prev == Following(jobs, i))
      && (if jobs == [] then front == null && rear == null else front == jobs[0] && rear == jobs[|jobs| - 1])
    }

    constructor ()
      ensures Valid() && jobs == []
    {
      front, rear, len, jobs := null, null, 0, [];
    }

    /** The critical section of `jobqueue_push`, which always posts the semaphore afterwards. */
    method Push(newjob: Job)
      requires Valid() && newjob !in jobs
      modifies this, jobs, newjob
      ensures Valid() && jobs == old(jobs) + [newjob]
      ensures Ids(jobs) == Ids(old(jobs)) + [newjob.id]
    {
      newjob.prev := null;
      if len == 0 {
        front := newjob;
        rear := newjob;
      } else {
        rear.prev := newjob;
        rear := newjob;
      }
      len := len + 1;
      jobs := jobs + [newjob];
    }

    /** The critical section of `jobqueue_pull`: the oldest job, and whether the semaphore is
        to be posted again because jobs remain. */
    method Pull() returns (job: Job?, post: bool)
      requires Valid()
      modifies this
      ensures Valid()
      ensures Take(Ids(old(jobs))) == Taken(if job == null then None else Some(job.id), Ids(jobs), post)
      ensures post <==> |old(jobs)| > 1
      ensures if old(jobs) == [] then job == null && jobs == [] else job == old(jobs)[0] && jobs == old(jobs)[1..]
    {
      job, post := front, false;
      if len == 0 {
        assert jobs == [];
      } else if len == 1 {
        assert jobs == [jobs[0]];
        front := null;
        rear := null;
        len := 0;
        jobs := [];
      } else {
        front := job.prev;
        len := len - 1;
        jobs := jobs[1..];
        forall i | 0 <= i < |jobs| ensures jobs[i].prev == Following(jobs, i) {
          assert jobs[i] == old(jobs)[i + 1];
        }
        post := true;
      }
    }
  }
}
