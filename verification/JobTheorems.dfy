/** The queue drains: how often handlers run, how jobs end, and what is in the dead letter queue. */
module JobTheorems {
  import opened Bpmn
  import opened Totals
  import opened Backoff
  import opened JobQueue

  /** The policy's limit, or the job's own if the policy has none; a negative one allows no retry, like zero. */
  function RetryLimit(s: Setup, job: Job): nat {
    var limit := if s.policy.maxRetries == 0 then job.maxRetries else s.policy.maxRetries;
    if limit > 0 then limit else 0
  }

  /** Attempts a job has left. */
  function Attempts(s: Setup, job: Job): nat {
    if job.status != Pending then 0
    else if job.retryCount < RetryLimit(s, job) then RetryLimit(s, job) - job.retryCount + 1
    else 1
  }

  ghost function Remaining(s: Setup, pool: Pool): nat { Total(map id | id in pool.jobs :: Attempts(s, pool.jobs[id])) }

  lemma AttemptUses(s: Setup, job: Job, o: Outcome, now: int)
    requires job.status == Pending
    ensures Attempts(s, Attempted(s, job, o, now)) < Attempts(s, job)
    ensures RetryLimit(s, Attempted(s, job, o, now)) == RetryLimit(s, job)
    ensures Attempted(s, job, o, now).id == job.id
  {
  }

  lemma {:induction false} TotalUpdate<K(!new)>(a: map<K, nat>, b: map<K, nat>, k: K)
    requires k in a && a.Keys == b.Keys && forall j | j in a && j != k :: a[j] == b[j]
    ensures Total(b) + a[k] == Total(a) + b[k]
  {
    TotalSplit(a, k);
    TotalSplit(b, k);
    assert a - {k} == b - {k};
  }

  /** Every unit of work uses up an attempt. */
  lemma DoUses(s: Setup, pool: Pool, w: Work)
    requires Doable(pool, w)
    ensures Remaining(s, Do(s, pool, w)) < Remaining(s, pool)
  {
    var a := map id | id in pool.jobs :: Attempts(s, pool.jobs[id]);
    var b := map id | id in Do(s, pool, w).jobs :: Attempts(s, Do(s, pool, w).jobs[id]);
    AttemptUses(s, pool.jobs[w.id], w.outcome, w.now);
    TotalUpdate(a, b, w.id);
  }

  /** All the work the queue can ever do on the jobs it holds. */
  lemma {:induction false} WorkIsBounded(s: Setup, pool: Pool, work: seq<Work>, end: Pool)
    requires IsRun(s, pool, work, end)
    ensures |work| + Remaining(s, end) <= Remaining(s, pool)
    decreases |work|
  {
    if work != [] {
      DoUses(s, pool, work[0]);
      WorkIsBounded(s, Do(s, pool, work[0]), work[1..], end);
    }
  }

  /** Calls of the handler for one job. */
  function Calls(calls: seq<Id>, id: Id): nat {
    if calls == [] then 0 else Calls(calls[..|calls| - 1], id) + if calls[|calls| - 1] == id then 1 else 0
  }

  /** A job's handler runs at most once more than the retries the job has left, and what it has left
      in the end is accounted for. */
  lemma {:induction false} CallsPerJob(s: Setup, pool: Pool, work: seq<Work>, end: Pool, id: Id)
    requires IsRun(s, pool, work, end) && id in pool.jobs
    ensures id in end.jobs
    ensures Calls(end.calls, id) + Attempts(s, end.jobs[id]) <= Calls(pool.calls, id) + Attempts(s, pool.jobs[id])
    decreases |work|
  {
    if work != [] {
      var w, mid := work[0], Do(s, pool, work[0]);
      AttemptUses(s, pool.jobs[w.id], w.outcome, w.now);
      CallsPerJob(s, mid, work[1..], end, id);
      assert (pool.calls + [w.id])[..|pool.calls|] == pool.calls;
    }
  }

  function LettersOf(letters: seq<Letter>, id: Id): nat {
    if letters == [] then 0
    else LettersOf(letters[..|letters| - 1], id) + if letters[|letters| - 1].job == id then 1 else 0
  }

  /** What holds between polls. */
  ghost predicate Consistent(s: Setup, pool: Pool) {
    && (forall id | id in pool.jobs :: Sound(s, pool.jobs[id], id))
    && (forall id :: LettersOf(pool.letters, id) ==
          if id in pool.jobs && pool.jobs[id].status == Dead && s.letters then 1 else 0)
    && (forall l | l in pool.letters && l.job in pool.jobs :: Tells(s, l, pool.jobs[l.job]))
  }

  /** A dead letter says what the job is and what it died of. */
  predicate Tells(s: Setup, l: Letter, job: Job) {
    l.retryCount == RetryLimit(s, job) && l.instance == job.instance && l.kind == job.kind && l.error == job.error
  }

  predicate Sound(s: Setup, job: Job, id: Id) {
    && job.id == id && job.status != Running && job.retryCount <= RetryLimit(s, job)
    && (job.status == Dead ==> job.retryCount == RetryLimit(s, job))
  }

  lemma AttemptSound(s: Setup, job: Job, id: Id, o: Outcome, now: int)
    requires Sound(s, job, id) && job.status == Pending
    ensures Sound(s, Attempted(s, job, o, now), id)
    ensures Attempted(s, job, o, now).status == Dead <==> Dies(s, job, o)
    ensures Dies(s, job, o) ==> job.retryCount == RetryLimit(s, job)
  {
  }

  lemma {:induction false} NoLetter(letters: seq<Letter>, l: Letter)
    requires l in letters
    ensures LettersOf(letters, l.job) > 0
  {
    if l != letters[|letters| - 1] {
      assert letters == letters[..|letters| - 1] + [letters[|letters| - 1]];
      NoLetter(letters[..|letters| - 1], l);
    }
  }

  lemma DoConsistent(s: Setup, pool: Pool, w: Work)
    requires Consistent(s, pool) && Doable(pool, w)
    ensures Consistent(s, Do(s, pool, w))
  {
    var job, next := pool.jobs[w.id], Do(s, pool, w);
    AttemptUses(s, job, w.outcome, w.now);
    AttemptSound(s, job, w.id, w.outcome, w.now);
    if Dies(s, job, w.outcome) && s.letters {
      var l := LetterFor(job, w.outcome.error.value);
      assert (pool.letters + [l])[..|pool.letters|] == pool.letters;
    }
    forall l | l in next.letters && l.job in next.jobs ensures Tells(s, l, next.jobs[l.job]) {
      if l in pool.letters {
        NoLetter(pool.letters, l);
      }
    }
  }

  lemma {:induction false} RunConsistent(s: Setup, pool: Pool, work: seq<Work>, end: Pool)
    requires IsRun(s, pool, work, end) && Consistent(s, pool)
    ensures Consistent(s, end)
    decreases |work|
  {
    if work != [] {
      DoConsistent(s, pool, work[0]);
      RunConsistent(s, Do(s, pool, work[0]), work[1..], end);
    }
  }

  /** Enqueueing a new job, with no retries behind it or no more than its limit, keeps the queue sound. */
  lemma EnqueueConsistent(s: Setup, pool: Pool, job: Job, now: int)
    requires Consistent(s, pool)
    requires var stored := Defaulted(s.policy, job, now);
             stored.id !in pool.jobs && stored.status == Pending && stored.retryCount <= RetryLimit(s, stored)
             && forall l | l in pool.letters :: l.job != stored.id
    ensures var stored := Defaulted(s.policy, job, now);
            Consistent(s, pool.(jobs := pool.jobs[stored.id := stored]))
  {
  }

  predicate Drained(pool: Pool) { forall id | id in pool.jobs :: pool.jobs[id].status != Pending }

  /** The queue is out of work, whatever the time, exactly when nothing is pending. */
  lemma OutOfWork(s: Setup, pool: Pool)
    requires Consistent(s, pool)
    ensures Drained(pool) <==> forall w :: !Doable(pool, w)
  {
    if !Drained(pool) {
      var id :| id in pool.jobs && pool.jobs[id].status == Pending;
      assert Doable(pool, Work(id, Outcome(None, 0, 0), pool.jobs[id].scheduledAt));
    }
  }

  /** How every job ends. When the queue has drained, each job is completed or dead; with a dead letter
      queue a dead job has exactly one letter, with its limit, instance, kind and error, and a completed
      job has none; and its handler ran at most limit + 1 times. */
  lemma EveryJobEnds(s: Setup, pool: Pool, work: seq<Work>, end: Pool, id: Id)
    requires Consistent(s, pool) && IsRun(s, pool, work, end) && Drained(end) && id in pool.jobs
    ensures id in end.jobs && end.jobs[id].status in {Done, Dead}
    ensures LettersOf(end.letters, id) == if end.jobs[id].status == Dead && s.letters then 1 else 0
    ensures forall l | l in end.letters && l.job == id :: Tells(s, l, end.jobs[id])
    ensures end.jobs[id].status == Dead ==> end.jobs[id].retryCount == RetryLimit(s, end.jobs[id])
    ensures Calls(end.calls, id) <= Calls(pool.calls, id) + Attempts(s, pool.jobs[id])
    ensures |work| <= Remaining(s, pool)
  {
    RunConsistent(s, pool, work, end);
    CallsPerJob(s, pool, work, end, id);
    WorkIsBounded(s, pool, work, end);
    assert Sound(s, end.jobs[id], id);
  }

  lemma {:induction false} SameTail(prefix: string, a: string, b: string)
    ensures prefix + a == prefix + b <==> a == b
  {
    assert (prefix + a)[|prefix|..] == a && (prefix + b)[|prefix|..] == b;
  }

  /** Of two jobs enqueued without ids, both are stored afterwards exactly when they belong to different
      instances. */
  lemma DefaultIdsCollide(rp: RetryPolicy, a: Job, b: Job, now: int, jobs: map<Id, Job>)
    requires a.id == "" && b.id == ""
    ensures var first, second := Defaulted(rp, a, now), Defaulted(rp, b, now);
            var stored := jobs[first.id := first][second.id := second];
            first.id in stored && second.id in stored
            && (stored[first.id] == first && stored[second.id] == second
                <==> a.instance != b.instance || first == second)
  {
    SameTail("job-", a.instance, b.instance);
  }

  /** The handler fails. */
  predicate FailsNow(s: Setup, o: Outcome) { s.handles && o.error.Some? }

  /** What belongs to the job for good. */
  predicate SameJob(a: Job, b: Job) {
    a.id == b.id && a.instance == b.instance && a.kind == b.kind && a.maxRetries == b.maxRetries
  }

  /** One attempt, exactly: it completes the job; or fails it, with another attempt to come below the limit, and
      at the limit for good, with a letter if there is a dead letter queue. */
  lemma AttemptExactly(s: Setup, pool: Pool, w: Work)
    requires Doable(pool, w)
    ensures var job, next := pool.jobs[w.id], Do(s, pool, w);
            && next.jobs.Keys == pool.jobs.Keys
            && (forall id | id in pool.jobs && id != w.id :: next.jobs[id] == pool.jobs[id])
            && next.calls == pool.calls + (if s.handles then [w.id] else [])
            && var after := next.jobs[w.id];
            && SameJob(after, job)
            && (!FailsNow(s, w.outcome) ==>
                  after.status == Done && after.retryCount == job.retryCount && next.letters == pool.letters)
            && (FailsNow(s, w.outcome) && job.retryCount < RetryLimit(s, job) ==>
                  && after.status == Pending && after.retryCount == job.retryCount + 1 && !after.ran
                  && after.error == w.outcome.error.value && next.letters == pool.letters)
            && (FailsNow(s, w.outcome) && job.retryCount >= RetryLimit(s, job) ==>
                  && after.status == Dead && after.retryCount == job.retryCount && after.error == w.outcome.error.value
                  && next.letters == pool.letters + if s.letters
                       then [Letter(w.id, job.instance, job.kind, w.outcome.error.value, job.retryCount)] else [])
  {
  }

  /** A failed attempt below the limit puts the job off by the delay of its next retry: at least the nominal
      one, at most 5/4 of it. Until then it is not due. */
  lemma RetryWaits(s: Setup, pool: Pool, w: Work)
    requires Doable(pool, w) && FailsNow(s, w.outcome) && pool.jobs[w.id].retryCount < RetryLimit(s, pool.jobs[w.id])
    requires var n := pool.jobs[w.id].retryCount + 1;
             Sensible(s.policy, n) && JitterFits(s.policy, n) && DrawnFor(s, n, w.outcome)
    ensures var n, after := pool.jobs[w.id].retryCount + 1, Do(s, pool, w).jobs[w.id];
            && Nominal(s.policy, n) <= after.scheduledAt - w.now
            && 4 * (after.scheduledAt - w.now) <= 5 * Nominal(s.policy, n)
            && (forall t | t < w.now + Nominal(s.policy, n) :: !Due(after, t))
            && (forall t | 4 * t >= 4 * w.now + 5 * Nominal(s.policy, n) :: Due(after, t))
  {
    DelayBounds(s.policy, pool.jobs[w.id].retryCount + 1, w.outcome.beyond);
  }

  /** The pool when the first `i` units of work have been done. */
  ghost function Before(s: Setup, pool: Pool, work: seq<Work>, i: nat): Pool
    requires i <= |work|
    decreases i
  {
    if i == 0 || work[0].id !in pool.jobs then pool else Before(s, Do(s, pool, work[0]), work[1..], i - 1)
  }

  lemma {:induction false} NextAttemptIsDue(s: Setup, pool: Pool, work: seq<Work>, end: Pool, j: nat)
    requires IsRun(s, pool, work, end) && j < |work| && forall k | 0 <= k < j :: work[k].id != work[j].id
    ensures work[j].id in pool.jobs && Due(pool.jobs[work[j].id], work[j].now)
    decreases |work|
  {
    if j > 0 {
      NextAttemptIsDue(s, Do(s, pool, work[0]), work[1..], end, j - 1);
    }
  }

  /** Over any run, whatever else is processed in between and whatever the clock says: two successive attempts
      of a job are at least the nominal delay of the retry apart. */
  lemma {:induction false} AttemptsApart(s: Setup, pool: Pool, work: seq<Work>, end: Pool, i: nat, j: nat)
    requires IsRun(s, pool, work, end) && i < j < |work| && work[i].id == work[j].id
    requires forall k | i < k < j :: work[k].id != work[i].id
    ensures work[i].id in Before(s, pool, work, i).jobs
    ensures var n := Before(s, pool, work, i).jobs[work[i].id].retryCount + 1;
            Sensible(s.policy, n) && JitterFits(s.policy, n) && DrawnFor(s, n, work[i].outcome) ==>
              work[j].now >= work[i].now + Nominal(s.policy, n)
    decreases |work|
  {
    var next := Do(s, pool, work[0]);
    if i > 0 {
      AttemptsApart(s, next, work[1..], end, i - 1, j - 1);
    } else {
      NextAttemptIsDue(s, next, work[1..], end, j - 1);
      OnlyRetriesAreDue(s, pool, work[0], work[j].now);
    }
  }

  lemma OnlyRetriesAreDue(s: Setup, pool: Pool, w: Work, t: int)
    requires Doable(pool, w) && Due(Do(s, pool, w).jobs[w.id], t)
    ensures var n := pool.jobs[w.id].retryCount + 1;
            Sensible(s.policy, n) && JitterFits(s.policy, n) && DrawnFor(s, n, w.outcome) ==>
              t >= w.now + Nominal(s.policy, n)
  {
    var n := pool.jobs[w.id].retryCount + 1;
    AttemptExactly(s, pool, w);
    if Sensible(s.policy, n) && JitterFits(s.policy, n) && DrawnFor(s, n, w.outcome) {
      RetryWaits(s, pool, w);
    }
  }

  lemma {:induction false} Untouched(s: Setup, pool: Pool, work: seq<Work>, end: Pool, id: Id)
    requires IsRun(s, pool, work, end) && id in pool.jobs && forall w | w in work :: w.id != id
    ensures id in end.jobs && end.jobs[id] == pool.jobs[id]
    decreases |work|
  {
    if work != [] {
      assert work[0] in work;
      Untouched(s, Do(s, pool, work[0]), work[1..], end, id);
    }
  }

  /** The last attempt decides how a job ends: completed if the handler came back, dead or still pending if it
      failed. */
  lemma {:induction false} LastAttemptDecides(s: Setup, pool: Pool, work: seq<Work>, end: Pool, i: nat)
    requires IsRun(s, pool, work, end) && i < |work| && forall k | i < k < |work| :: work[k].id != work[i].id
    ensures work[i].id in end.jobs
    ensures end.jobs[work[i].id].status == Done <==> !FailsNow(s, work[i].outcome)
    ensures FailsNow(s, work[i].outcome) ==>
              end.jobs[work[i].id].status in {Dead, Pending}
              && end.jobs[work[i].id].error == work[i].outcome.error.value
    decreases |work|
  {
    var next := Do(s, pool, work[0]);
    if i > 0 {
      LastAttemptDecides(s, next, work[1..], end, i - 1);
    } else {
      AttemptExactly(s, pool, work[0]);
      Untouched(s, next, work[1..], end, work[0].id);
    }
  }

  function WorkOn(work: seq<Work>, id: Id): nat {
    if work == [] then 0 else (if work[0].id == id then 1 else 0) + WorkOn(work[1..], id)
  }

  /** With a handler every attempt is one call of it, without one there are none. */
  lemma {:induction false} CallsAreAttempts(s: Setup, pool: Pool, work: seq<Work>, end: Pool, id: Id)
    requires IsRun(s, pool, work, end)
    ensures Calls(end.calls, id) == Calls(pool.calls, id) + if s.handles then WorkOn(work, id) else 0
    decreases |work|
  {
    if work != [] {
      CallsAreAttempts(s, Do(s, pool, work[0]), work[1..], end, id);
      assert (pool.calls + [work[0].id])[..|pool.calls|] == pool.calls;
    }
  }

  /** What is stored for a job handed in: under its id or one made of its instance's, due at the time it names
      or at once, with its own limit or the policy's. */
  lemma EnqueuedJob(rp: RetryPolicy, job: Job, now: int, t: int)
    requires job.status == Pending
    ensures var stored := Defaulted(rp, job, now);
            && stored.id == (if job.id == "" then "job-" + job.instance else job.id)
            && (Due(stored, t) <==> t >= if job.scheduledAt == 0 then now else job.scheduledAt)
            && stored.maxRetries == (if job.maxRetries == 0 then rp.maxRetries else job.maxRetries)
            && stored.instance == job.instance && stored.kind == job.kind && stored.retryCount == job.retryCount
            && stored.error == job.error && stored.ran == job.ran
  {
  }
}
