/** The job queue of thpool.c in place: heap nodes linked from front to rear through `prev`, and the
    binary semaphore that stands for "there are jobs". */
module JobQueue {

  /** A node; `number` stands for its function and argument. */
  class Job {
    var prev: Job?
    const number: nat

    constructor (number: nat)
      ensures this.number == number
    {
      this.number, prev := number, null;
    }
  }

  class Queue {
    var front: Job?
    var rear: Job?
    var len: nat
    var hasJobs: nat            // the value of the binary semaphore
    ghost var jobs: seq<Job>    // from front to rear

    ghost predicate Valid()
      reads this, jobs
    {
      && len == |jobs| && hasJobs <= 1
      && (forall i, j :: 0 <= i < j < |jobs| ==> jobs[i] != jobs[j])
      && (if jobs == [] then front == null && rear == null
          else front == jobs[0] && rear == jobs[|jobs| - 1] && jobs[|jobs| - 1].prev == null)
      && (forall i {:trigger jobs[i].prev} :: 0 <= i < |jobs| - 1 ==> jobs[i].prev == jobs[i + 1])
    }

    /** jobqueue_init, for a queue that starts empty */
    constructor ()
      ensures Valid() && jobs == [] && hasJobs == 0
    {
      front, rear, len, hasJobs, jobs := null, null, 0, 0, [];
    }

    /** bsem_post and, as far as the value goes, bsem_post_all */
    method Post()
      requires Valid()
      modifies `hasJobs
      ensures Valid() && hasJobs == 1
    {
      hasJobs := 1;
    }

    /** The test of bsem_wait: takes the token if there is one. */
    method TryWait() returns (taken: bool)
      requires Valid()
      modifies `hasJobs
      ensures Valid() && hasJobs == 0 && taken == (old(hasJobs) == 1)
    {
      if hasJobs != 1 {
        return false;
      }
      hasJobs := 0;
      return true;
    }

    /** jobqueue_push up to the post: the new job goes behind the rear. */
    method Link(newJob: Job)
      requires Valid() && newJob !in jobs
      modifies this, newJob, jobs
      ensures Valid() && jobs == old(jobs) + [newJob] && hasJobs == old(hasJobs)
    {
      newJob.prev := null;
      if len == 0 {
        front := newJob;
        rear := newJob;
      } else {
        rear.prev := newJob;
        rear := newJob;
      }
      len := len + 1;
      jobs := jobs + [newJob];
    }

    /** jobqueue_push */
    method Push(newJob: Job)
      requires Valid() && newJob !in jobs
      modifies this, newJob, jobs
      ensures Valid() && jobs == old(jobs) + [newJob] && hasJobs == 1
    {
      Link(newJob);
      Post();
    }

    /** jobqueue_pull up to the post: the front job leaves; on an empty queue nothing happens. */
    method Unlink() returns (job: Job?)
      requires Valid()
      modifies this
      ensures Valid() && hasJobs == old(hasJobs)
      ensures if old(jobs) == [] then job == null && jobs == []
              else job == old(jobs)[0] && jobs == old(jobs)[1..]
    {
      job := front;
      if len == 0 {
        return null;
      } else if len == 1 {
        front := null;
        rear := null;
      } else {
        front := job.prev;
      }
      len := len - 1;
      jobs := jobs[1..];
    }

    /** jobqueue_pull: the semaphore is posted again if jobs remain. */
    method Pull() returns (job: Job?)
      requires Valid()
      modifies this
      ensures Valid()
      ensures if old(jobs) == [] then job == null && jobs == [] && hasJobs == old(hasJobs)
              else job == old(jobs)[0] && jobs == old(jobs)[1..] && hasJobs == if jobs != [] then 1 else old(hasJobs)
    {
      job := Unlink();
      if len > 0 {
        Post();
      }
    }

    /** jobqueue_clear: `freed` lists the nodes passed to free, in order. */
    method Clear() returns (freed: seq<Job>)
      requires Valid()
      modifies this
      ensures Valid() && jobs == [] && hasJobs == 0
      ensures freed == old(jobs)
    {
      freed := [];
      while len != 0
        invariant Valid()
        invariant freed + jobs == old(jobs)
        decreases len
      {
        var job := Pull();
        freed := freed + [job];
      }
      front := null;
      rear := null;
      hasJobs := 0;
      len := 0;
    }
  }
}
