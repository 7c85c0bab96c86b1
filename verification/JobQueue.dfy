/** The job queue: polling, retries and dead letters, with one worker. */
module JobQueue {
  import opened Bpmn
  import opened Backoff
  import opened Totals

  datatype Status = Pending | Running | Done | Dead

  /** `ran` is whether ExecutedAt is set. */
  datatype Job = Job(id: Id, instance: string, kind: string, status: Status, retryCount: nat, maxRetries: int,
                     scheduledAt: int, error: string, ran: bool)

  datatype Letter = Letter(job: Id, instance: string, kind: string, error: string, retryCount: nat)

  /** What is configured: the retry policy, and whether there are a handler and a dead letter queue. */
  datatype Setup = Setup(policy: RetryPolicy, handles: bool, letters: bool)

  /** How one call of the handler turns out, and what its retry time is drawn from. */
  datatype Outcome = Outcome(error: Option<string>, jitter: nat, beyond: int)

  /** The stored jobs, the dead letters, and the handler calls so far. */
  datatype Pool = Pool(jobs: map<Id, Job>, letters: seq<Letter>, calls: seq<Id>)

  function Limit(rp: RetryPolicy, job: Job): int {
    if rp.maxRetries == 0 then job.maxRetries else rp.maxRetries
  }

  predicate ShouldRetry(rp: RetryPolicy, job: Job) { job.retryCount < Limit(rp, job) }

  function Retried(rp: RetryPolicy, job: Job, error: string, o: Outcome, now: int): Job {
    job.(retryCount := job.retryCount + 1, error := error, status := Pending,
         scheduledAt := now + Delay(rp, job.retryCount + 1, o.jitter, o.beyond), ran := false)
  }

  function LetterFor(job: Job, error: string): Letter {
    Letter(job.id, job.instance, job.kind, error, job.retryCount)
  }

  /** The job after one attempt. */
  function Attempted(s: Setup, job: Job, o: Outcome, now: int): Job {
    if !s.handles || o.error.None? then job.(status := Done, ran := true)
    else if ShouldRetry(s.policy, job) then Retried(s.policy, job, o.error.value, o, now)
    else job.(status := Dead, error := o.error.value, ran := true)
  }

  predicate Dies(s: Setup, job: Job, o: Outcome) { s.handles && o.error.Some? && !ShouldRetry(s.policy, job) }

  function Processed(s: Setup, pool: Pool, job: Job, o: Outcome, now: int): Pool {
    Pool(pool.jobs[job.id := Attempted(s, job, o, now)],
         if Dies(s, job, o) && s.letters then pool.letters + [LetterFor(job, o.error.value)] else pool.letters,
         if s.handles then pool.calls + [job.id] else pool.calls)
  }

  function Defaulted(rp: RetryPolicy, job: Job, now: int): Job {
    job.(id := if job.id == "" then "job-" + job.instance else job.id,
         scheduledAt := if job.scheduledAt == 0 then now else job.scheduledAt,
         maxRetries := if job.maxRetries == 0 then rp.maxRetries else job.maxRetries)
  }

  predicate Due(job: Job, now: int) { job.status == Pending && job.scheduledAt <= now }

  class WorkerPool {
    const setup: Setup
    var jobs: map<Id, Job>
    var letters: seq<Letter>
    ghost var calls: seq<Id>

    ghost function View(): Pool
      reads this
    {
      Pool(jobs, letters, calls)
    }

    constructor (setup: Setup)
      ensures this.setup == setup && View() == Pool(map[], [], [])
    {
      this.setup := setup;
      jobs, letters, calls := map[], [], [];
    }

    /** The zero time counts as not set; `job.status` is Pending where the caller left it empty. */
    method Enqueue(job: Job, now: int) returns (stored: Job)
      modifies this`jobs
      ensures stored == Defaulted(setup.policy, job, now)
      ensures jobs == old(jobs)[stored.id := stored]
    {
      stored := job;
      if stored.id == "" {
        stored := stored.(id := "job-" + stored.instance);
      }
      if stored.scheduledAt == 0 {
        stored := stored.(scheduledAt := now);
      }
      if stored.maxRetries == 0 {
        stored := stored.(maxRetries := setup.policy.maxRetries);
      }
      jobs := jobs[stored.id := stored];
    }

    method AddLetter(job: Job, error: string)
      modifies this`jobs, this`letters
      ensures letters == old(letters) + [LetterFor(job, error)]
      ensures jobs == old(jobs)[job.id := job.(status := Dead, error := error)]
    {
      letters := letters + [Letter(job.id, job.instance, job.kind, error, job.retryCount)];
      jobs := jobs[job.id := job.(status := Dead, error := error)];
    }

    method FailJob(job: Job, error: string, o: Outcome, now: int)
      requires Drawn(setup.policy, Capped(setup.policy, job.retryCount + 1, o.beyond), o.jitter)
      modifies this`jobs, this`letters
      ensures var retry := ShouldRetry(setup.policy, job);
              && jobs == old(jobs)[job.id := if retry then Retried(setup.policy, job, error, o, now)
                                              else job.(status := Dead, error := error)]
              && letters == if !retry && setup.letters then old(letters) + [LetterFor(job, error)] else old(letters)
    {
      var j := job.(error := error);
      if ShouldRetry(setup.policy, j) {
        var at := NextRetryAt(setup.policy, j.retryCount + 1, o.jitter, o.beyond, now);
        j := j.(retryCount := j.retryCount + 1, error := error, status := Pending, scheduledAt := at, ran := false);
        jobs := jobs[j.id := j];
        return;
      }
      j := j.(status := Dead);
      if setup.letters {
        AddLetter(j, error);
        return;
      }
      jobs := jobs[j.id := j];
    }

    method ProcessJob(job: Job, o: Outcome, now: int)
      requires Drawn(setup.policy, Capped(setup.policy, job.retryCount + 1, o.beyond), o.jitter)
      requires job.status == Pending
      modifies this`jobs, this`letters, this`calls
      ensures View() == Processed(setup, old(View()), job, o, now)
    {
      if !setup.handles {
        jobs := jobs[job.id := job.(status := Done, ran := true)];
        return;
      }
      var running := job.(status := Running, ran := true);
      jobs := jobs[running.id := running];
      calls := calls + [running.id];
      if o.error.Some? {
        FailJob(running, o.error.value, o, now);
        return;
      }
      jobs := jobs[running.id := running.(status := Done, ran := true)];
    }

    /** At most `limit` due jobs, in any order. */
    method PendingJobs(limit: nat, now: int) returns (batch: seq<Job>)
      requires forall id | id in jobs :: jobs[id].id == id
      ensures Snapshot(jobs, batch, now) && |batch| <= limit
      ensures |batch| == limit || forall id | id in jobs && Due(jobs[id], now) :: jobs[id] in batch
    {
      batch := [];
      var todo := jobs.Keys;
      while todo != {} && |batch| < limit
        invariant todo <= jobs.Keys && |batch| <= limit
        invariant Snapshot(jobs, batch, now) && forall b | b in batch :: b.id !in todo
        invariant forall id | id in jobs && id !in todo && Due(jobs[id], now) :: jobs[id] in batch
        decreases todo
      {
        var id :| id in todo;
        todo := todo - {id};
        if Due(jobs[id], now) {
          batch := batch + [jobs[id]];
        }
      }
    }

    /** One more job of a batch. */
    method ProcessNext(job: Job, outcome: Outcome, now: int, ghost start: Pool, ghost done: seq<Work>)
        returns (ghost more: seq<Work>)
      requires job.id in jobs && jobs[job.id] == job && Due(job, now) && DrawnFor(setup, job.retryCount + 1, outcome)
      requires IsRun(setup, start, done, View())
      modifies this`jobs, this`letters, this`calls
      ensures more == done + [Work(job.id, outcome, now)] && IsRun(setup, start, more, View())
      ensures forall id | id in old(jobs) && id != job.id :: id in jobs && jobs[id] == old(jobs)[id]
    {
      ghost var before, w := View(), Work(job.id, outcome, now);
      ProcessJob(job, outcome, now);
      RunExtends(setup, start, done, before, w);
      more := done + [w];
    }

    /** The first jobs of a batch, until the pool is stopped. */
    method ProcessFirst(batch: seq<Job>, outcomes: seq<nat -> Outcome>, until: nat, now: int)
        returns (ghost done: seq<Work>)
      requires Snapshot(jobs, batch, now) && until <= |batch| <= |outcomes| && AllDrawn(setup, outcomes)
      modifies this`jobs, this`letters, this`calls
      ensures IsRun(setup, old(View()), done, View()) && Worked(batch, outcomes, now, done, until)
    {
      done := [];
      ghost var start := View();
      for i := 0 to until
        invariant Worked(batch, outcomes, now, done, i)
        invariant IsRun(setup, start, done, View())
        invariant forall k | i <= k < |batch| :: batch[k].id in jobs && jobs[batch[k].id] == batch[k]
      {
        assert batch[i] in batch;
        assert DrawnFor(setup, batch[i].retryCount + 1, outcomes[i](batch[i].retryCount + 1));
        done := ProcessNext(batch[i], outcomes[i](batch[i].retryCount + 1), now, start, done);
      }
    }

    /** One poll. `until` jobs are processed before the pool is stopped; how the i-th of them turns out
        may depend on its retry count, which the jitter is drawn for. */
    method ProcessBatch(limit: nat, outcomes: seq<nat -> Outcome>, until: nat, now: int) returns (ghost done: seq<Work>)
      requires forall id | id in jobs :: jobs[id].id == id
      requires |outcomes| == limit && AllDrawn(setup, outcomes)
      modifies this`jobs, this`letters, this`calls
      ensures IsRun(setup, old(View()), done, View())
      ensures |done| == Least(until, Least(limit, |DueIds(old(jobs), now)|))
      ensures |done| <= limit && EachOnce(old(jobs), outcomes, now, done)
    {
      var batch := PendingJobs(limit, now);
      BatchSize(jobs, batch, limit, now);
      ghost var was := jobs;
      var n := if until <= |batch| then until else |batch|;
      done := ProcessFirst(batch, outcomes, n, now);
      WorkedOnce(was, batch, outcomes, now, done, n);
    }
  }

  /** Whatever the retry count, the i-th outcome holds a jitter drawn for it. */
  ghost predicate AllDrawn(s: Setup, outcomes: seq<nat -> Outcome>) {
    forall i, n: nat | 0 <= i < |outcomes| :: DrawnFor(s, n, outcomes[i](n))
  }

  predicate DrawnFor(s: Setup, n: nat, o: Outcome) { Drawn(s.policy, Capped(s.policy, n, o.beyond), o.jitter) }

  ghost predicate Snapshot(jobs: map<Id, Job>, batch: seq<Job>, now: int) {
    && (forall b | b in batch :: b.id in jobs && jobs[b.id] == b && Due(b, now))
    && forall i, k | 0 <= i < k < |batch| :: batch[i].id != batch[k].id
  }

  /** The work done on the first `i` jobs of a batch. */
  ghost predicate Worked(batch: seq<Job>, outcomes: seq<nat -> Outcome>, now: int, done: seq<Work>, i: nat) {
    && i <= |batch| <= |outcomes| && |done| == i
    && forall k | 0 <= k < i :: done[k] == Work(batch[k].id, outcomes[k](batch[k].retryCount + 1), now)
  }

  /** Each unit of work is on another job that was due, with the outcome for its retry count. */
  ghost predicate EachOnce(jobs: map<Id, Job>, outcomes: seq<nat -> Outcome>, now: int, done: seq<Work>)
    requires |done| <= |outcomes|
  {
    && (forall i | 0 <= i < |done| ::
          done[i].id in DueIds(jobs, now)
          && done[i] == Work(done[i].id, outcomes[i](jobs[done[i].id].retryCount + 1), now))
    && forall i, k | 0 <= i < k < |done| :: done[i].id != done[k].id
  }

  lemma WorkedOnce(jobs: map<Id, Job>, batch: seq<Job>, outcomes: seq<nat -> Outcome>, now: int,
                   done: seq<Work>, i: nat)
    requires Snapshot(jobs, batch, now) && Worked(batch, outcomes, now, done, i)
    ensures EachOnce(jobs, outcomes, now, done)
  {
    forall k | 0 <= k < i ensures done[k].id == batch[k].id && done[k].id in DueIds(jobs, now)
      && jobs[done[k].id] == batch[k]
    {
      assert batch[k] in batch;
    }
  }

  function Least(a: nat, b: nat): nat { if a <= b then a else b }

  function DueIds(jobs: map<Id, Job>, now: int): set<Id> { set id | id in jobs && Due(jobs[id], now) }

  /** A batch is full, or holds every due job once. */
  lemma BatchSize(jobs: map<Id, Job>, batch: seq<Job>, limit: nat, now: int)
    requires (forall id | id in jobs :: jobs[id].id == id) && Snapshot(jobs, batch, now) && |batch| <= limit
    requires |batch| == limit || forall id | id in jobs && Due(jobs[id], now) :: jobs[id] in batch
    ensures |batch| == Least(limit, |DueIds(jobs, now)|)
  {
    var ids := set b | b in batch :: b.id;
    DistinctSize(batch);
    assert ids <= DueIds(jobs, now);
    SubsetSize(ids, DueIds(jobs, now));
    if |batch| < limit {
      forall id | id in DueIds(jobs, now) ensures id in ids {
        assert jobs[id] in batch;
      }
      assert ids == DueIds(jobs, now);
    }
  }

  lemma {:induction false} DistinctSize(batch: seq<Job>)
    requires forall i, k | 0 <= i < k < |batch| :: batch[i].id != batch[k].id
    ensures |set b | b in batch :: b.id| == |batch|
  {
    if batch == [] {
      assert (set b | b in batch :: b.id) == {};
    } else {
      var front, last := batch[..|batch| - 1], batch[|batch| - 1];
      DistinctSize(front);
      assert batch == front + [last];
      assert (set b | b in batch :: b.id) == (set b | b in front :: b.id) + {last.id};
    }
  }

  /** A due job processed with some outcome at some time. */
  datatype Work = Work(id: Id, outcome: Outcome, now: int)

  predicate Doable(pool: Pool, w: Work) {
    w.id in pool.jobs && Due(pool.jobs[w.id], w.now) && pool.jobs[w.id].id == w.id
  }

  function Do(s: Setup, pool: Pool, w: Work): Pool
    requires w.id in pool.jobs
  {
    Processed(s, pool, pool.jobs[w.id], w.outcome, w.now)
  }

  ghost predicate IsRun(s: Setup, pool: Pool, work: seq<Work>, end: Pool)
    decreases |work|
  {
    if work == [] then pool == end
    else Doable(pool, work[0]) && IsRun(s, Do(s, pool, work[0]), work[1..], end)
  }

  lemma {:induction false} RunExtends(s: Setup, pool: Pool, work: seq<Work>, mid: Pool, w: Work)
    requires IsRun(s, pool, work, mid) && Doable(mid, w)
    ensures IsRun(s, pool, work + [w], Do(s, mid, w))
    decreases |work|
  {
    if work == [] {
      assert (work + [w])[1..] == [];
    } else {
      RunExtends(s, Do(s, pool, work[0]), work[1..], mid, w);
      assert (work + [w])[1..] == work[1..] + [w];
    }
  }
}
