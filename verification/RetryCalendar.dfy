/** Which jobs of the in-memory `JobQueue` (core/runtime/jobs.py) a failure can leave behind: those
    whose retry dates can leave the calendar. */
module RetryCalendar {
  import opened Common
  import opened RetryQueue

  /** Can the job be retried to the end by a clock that stays within lo..hi? */
  predicate Fits(job: JobData, lo: int, hi: int) {
    job.maxRetries >= 1 ==>
      var last := job.retryDelay * Pow2(job.maxRetries - 1);
      && (job.retryDelay > 0 ==> hi + last <= MAX_DATE)
      && (job.retryDelay < 0 ==> lo + last >= MIN_DATE)
  }

  lemma {:induction false} Pow2Monotone(m: nat, n: nat)
    requires m <= n
    ensures Pow2(m) <= Pow2(n)
  {
    if m < n { Pow2Monotone(m, n - 1); }
  }

  lemma {:induction false} Pow2Add(m: nat, n: nat)
    ensures Pow2(m + n) == Pow2(m) * Pow2(n)
  {
    if m > 0 {
      Pow2Add(m - 1, n);
      assert Pow2(m + n) == 2 * Pow2(m - 1 + n);
    }
  }

  /** With the last delay in range every earlier one is. */
  lemma FittingDelay(job: JobData, lo: int, hi: int, now: int, k: nat)
    requires Fits(job, lo, hi) && MIN_DATE <= lo <= now <= hi <= MAX_DATE && k < job.maxRetries
    ensures !Overflows(job.retryDelay * Pow2(k), now)
  {
    Pow2Monotone(k, job.maxRetries - 1);
    Pow2Positive(k);
    Scaled(job.retryDelay, Pow2(k), Pow2(job.maxRetries - 1));
  }

  lemma Scaled(d: int, p: nat, q: nat)
    requires p <= q
    ensures if d >= 0 then 0 <= d * p <= d * q else d * q <= d * p <= 0
  {
    var r := q - p;
    assert d * q == d * p + d * r;
  }

  /** A clock within lo..hi, workers that raise nothing but Exceptions, and fitting jobs. */
  predicate Tame(e: Event, lo: int, hi: int) {
    match e
    case Enqueue(_, job) => Fits(job, lo, hi)
    case Process(_, outcome, now) => lo <= now <= hi && !outcome.Escapes?
  }

  ghost predicate AllFit(s: State, lo: int, hi: int) {
    forall id :: id in s.jobs ==> Fits(s.jobs[id], lo, hi)
  }

  lemma {:induction false} TameRun(r: Run, run: seq<Event>, lo: int, hi: int)
    requires Counted(r.s) && AllFit(r.s, lo, hi) && r.stranded == {} && MIN_DATE <= lo && hi <= MAX_DATE
    requires forall i :: 0 <= i < |run| ==> Tame(run[i], lo, hi)
    ensures After(r, run).stranded == {}
    decreases |run|
  {
    if run != [] {
      var e := run[0];
      StepCounted(r, e);
      assert Tame(e, lo, hi);
      if e.Process? && HasNext(r.s, e.queue) && r.s.queues[e.queue][0] in r.s.jobs {
        var job := r.s.jobs[r.s.queues[e.queue][0]];
        if WillRetry(job) { FittingDelay(job, lo, hi, e.now, job.retryCount); }
      }
      TameRun(Step(r, e), run[1..], lo, hi);
    }
  }

  /** A condition to check when a job is enqueued: as long as the clock stays within lo..hi, jobs with
      now + retry_delay * 2^(max_retries - 1) in the calendar are never left behind by a failure. */
  lemma FittingJobsConserve(run: seq<Event>, lo: int, hi: int)
    requires MIN_DATE <= lo && hi <= MAX_DATE
    requires forall i :: 0 <= i < |run| ==> Tame(run[i], lo, hi)
    ensures Conserved(After(EMPTY, run).s)
  {
    TameRun(EMPTY, run, lo, hi);
    RunPlaces(EMPTY, run);
  }

  /** Job id alone in its queue, after n failures. */
  ghost predicate Waiting(r: Run, id: Id, job: JobData, n: nat) {
    && r.s.queues == map[job.queue := [id]] && r.s.jobs.Keys == {id} && Live(r.s.jobs[id])
    && r.s.jobs[id].queue == job.queue && r.s.jobs[id].retryCount == n
    && r.s.jobs[id].maxRetries == job.maxRetries && r.s.jobs[id].retryDelay == job.retryDelay
  }

  lemma FailsOnce(r: Run, id: Id, job: JobData, n: nat, now: int)
    requires Counted(r.s) && Waiting(r, id, job, n) && n < job.maxRetries && r.stranded == {}
    ensures var r' := Step(r, Process(job.queue, NoWorker, now));
      if Overflows(job.retryDelay * Pow2(n), now)
      then r'.stranded == {id} && r'.s.jobs.Keys == {id} && r'.s.jobs[id].status == RETRY
        && r'.s.jobs[id].retryCount == n + 1
      else Waiting(r', id, job, n + 1) && r'.stranded == {}
  {
    var r' := Step(r, Process(job.queue, NoWorker, now));
    var popped := r.s.queues[job.queue := r.s.queues[job.queue][1..]];
    assert popped[job.queue] == [] && popped.Keys == {job.queue};
    assert r'.s.jobs.Keys == {id};
    if !Overflows(job.retryDelay * Pow2(n), now) {
      assert r'.s.queues == Push(popped, job.queue, id);
      assert r'.s.queues[job.queue] == [id] && r'.s.queues.Keys == {job.queue};
    }
  }

  /** The run of failures at one instant, up to the first one whose retry date overflows. */
  lemma {:induction false} FailsUntil(r: Run, id: Id, job: JobData, n: nat, k: nat, now: int) returns (run: seq<Event>)
    requires Counted(r.s) && Waiting(r, id, job, n) && r.stranded == {} && n <= k < job.maxRetries
    requires Overflows(job.retryDelay * Pow2(k), now)
    requires forall j :: n <= j < k ==> !Overflows(job.retryDelay * Pow2(j), now)
    ensures |run| == k + 1 - n && forall i :: 0 <= i < |run| ==> run[i] == Process(job.queue, NoWorker, now)
    ensures After(r, run).stranded == {id} && After(r, run).s.jobs.Keys == {id}
    ensures After(r, run).s.jobs[id].status == RETRY && After(r, run).s.jobs[id].retryCount == k + 1
    decreases k - n
  {
    var e := Process(job.queue, NoWorker, now);
    StepCounted(r, e);
    FailsOnce(r, id, job, n, now);
    if n == k {
      run := [e];
      assert run[1..] == [];
    } else {
      var rest := FailsUntil(Step(r, e), id, job, n + 1, k, now);
      run := [e] + rest;
      assert run[1..] == rest;
    }
  }

  /** Enqueued alone and failing until its first retry date that overflows, the job is stuck: RETRY,
      stored, in no queue, and never DEAD. */
  lemma StrandedAfter(id: Id, job: JobData, k: nat, now: int) returns (run: seq<Event>)
    requires Fresh(job) && k < job.maxRetries && Overflows(job.retryDelay * Pow2(k), now)
    requires forall j :: 0 <= j < k ==> !Overflows(job.retryDelay * Pow2(j), now)
    ensures |run| == k + 2 && run[0] == Enqueue(id, job)
    ensures forall i :: 1 <= i < |run| ==> run[i] == Process(job.queue, NoWorker, now)
    ensures var r := After(EMPTY, run);
      r.stranded == {id} && id in r.s.jobs && r.s.jobs[id].status == RETRY && r.s.jobs[id].retryCount == k + 1
      && NotQueued(r.s, id)
  {
    var r := Step(EMPTY, Enqueue(id, job));
    assert r.s.queues[job.queue] == [id] && r.s.queues.Keys == {job.queue};
    assert r.s.queues == map[job.queue := [id]] && r.s.jobs.Keys == {id};
    var rest := FailsUntil(r, id, job, 0, k, now);
    run := [Enqueue(id, job)] + rest;
    assert run[1..] == rest;
    RunPlaces(EMPTY, run);
  }

  /** The least k at which a delay overflows. */
  lemma {:induction false} FirstOverflow(job: JobData, now: int, m: nat) returns (k: nat)
    requires Overflows(job.retryDelay * Pow2(m), now)
    ensures k <= m && Overflows(job.retryDelay * Pow2(k), now)
    ensures forall j :: 0 <= j < k ==> !Overflows(job.retryDelay * Pow2(j), now)
  {
    if j :| 0 <= j < m && Overflows(job.retryDelay * Pow2(j), now) {
      k := FirstOverflow(job, now, j);
    } else {
      k := m;
    }
  }

  ghost predicate TameAlone(run: seq<Event>, id: Id, job: JobData, lo: int, hi: int) {
    forall i :: 0 <= i < |run| ==>
      if run[i].Enqueue? then run[i] == Enqueue(id, job) else lo <= run[i].now <= hi && !run[i].outcome.Escapes?
  }

  /** The condition is exact: a fresh job can be left behind by failures within lo..hi exactly if it
      does not fit. */
  lemma LeftBehindIff(id: Id, job: JobData, lo: int, hi: int)
    requires Fresh(job) && MIN_DATE <= lo <= hi <= MAX_DATE
    ensures Fits(job, lo, hi) <==> forall run :: TameAlone(run, id, job, lo, hi) ==> Conserved(After(EMPTY, run).s)
  {
    if Fits(job, lo, hi) {
      forall run | TameAlone(run, id, job, lo, hi) ensures Conserved(After(EMPTY, run).s) {
        FittingJobsConserve(run, lo, hi);
      }
    } else {
      var now := if job.retryDelay > 0 then hi else lo;
      Pow2Positive(job.maxRetries - 1);
      var last := job.retryDelay * Pow2(job.maxRetries - 1);
      assert last != 0;
      var k := FirstOverflow(job, now, job.maxRetries - 1);
      var run := StrandedAfter(id, job, k, now);
      RunPlaces(EMPTY, run);
      ConservedIff(After(EMPTY, run).s, {id});
      assert TameAlone(run, id, job, lo, hi);
    }
  }

  lemma TwoTo38()
    ensures Pow2(37) == 137_438_953_472 && Pow2(38) == 274_877_906_944
  {
    assert Pow2(5) == 32 && Pow2(7) == 128;
    Pow2Add(5, 5);
    Pow2Add(10, 10);
    Pow2Add(20, 10);
    Pow2Add(30, 7);
  }

  /** For one, `enqueue(max_retries=39, retry_delay=1)`: at any time from 1970 to 5642 the 39th failure
      asks for 2^38 seconds and leaves the job behind. */
  lemma ThirtyNineRetriesStrand(id: Id, name: string, queue: string, payload: Bytes, now: int) returns (run: seq<Event>)
    requires 0 <= now <= 115_900_000_000
    ensures |run| == 40 && run[0] == Enqueue(id, NewJob(name, queue, payload, 39, 1, None))
    ensures forall i :: 1 <= i < |run| ==> run[i] == Process(queue, NoWorker, now)
    ensures var r := After(EMPTY, run);
      id in r.s.jobs && r.s.jobs[id].status == RETRY && r.s.jobs[id].retryCount == 39 && NotQueued(r.s, id)
        && !Conserved(r.s)
  {
    var job := NewJob(name, queue, payload, 39, 1, None);
    TwoTo38();
    forall j | 0 <= j < 38 ensures !Overflows(job.retryDelay * Pow2(j), now) {
      Pow2Monotone(j, 37);
      Pow2Positive(j);
    }
    run := StrandedAfter(id, job, 38, now);
    RunPlaces(EMPTY, run);
    ConservedIff(After(EMPTY, run).s, {id});
  }
}
