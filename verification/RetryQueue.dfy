/** The in-memory `JobQueue` of core/runtime/jobs.py: retries with exponential backoff, dead jobs. */
module RetryQueue {
  import opened Common

  type Id = string

  datatype Status = PENDING | PROCESSING | COMPLETED | RETRY | DEAD

  /** A job's fields. Times are integers; the worker's result and error texts are opaque. */
  datatype JobData = JobData(name: string, queue: string, payload: Bytes, status: Status, result: Option<Bytes>,
                             error: Option<string>, retryCount: int, maxRetries: int, retryDelay: int,
                             scheduledAt: Option<int>, startedAt: Option<int>, completedAt: Option<int>)

  /** What the worker callback does with a job; `NoWorker` is a missing callback, and `Escapes` an
      exception that leaves `process_next` before `fail` is called: one that `except Exception` does not
      catch, such as KeyboardInterrupt, or one whose own `str()` raises. */
  datatype Outcome = Succeeds(result: Option<Bytes>) | Raises(error: string) | NoWorker | Escapes

  /** How `process_next` ends: with True, with False, or by an exception of its own. */
  datatype Ended = Yes | No | Threw

  /** The first and last second of Python's `datetime`, in seconds since 1970. */
  const MIN_DATE := -62_135_596_800
  const MAX_DATE := 253_402_300_799

  predicate InCalendar(t: int) { MIN_DATE <= t <= MAX_DATE }

  /** `utcnow() + timedelta(seconds=delay)` raises OverflowError; it is only computed for `if delay:`. */
  predicate Overflows(delay: int, now: int) { delay != 0 && !InCalendar(now + delay) }

  /** The two dictionaries, as values. */
  datatype State = State(jobs: map<Id, JobData>, queues: map<string, seq<Id>>)

  function Resolve(queue: Option<string>, default: string): string {
    if queue.Some? && queue.value != "" then queue.value else default
  }

  function Pow2(n: nat): nat { if n == 0 then 1 else 2 * Pow2(n - 1) }

  // ---- The operations on values ----

  function NewJob(name: string, queue: string, payload: Bytes, maxRetries: int, retryDelay: int,
                  scheduledAt: Option<int>): JobData {
    JobData(name, queue, payload, PENDING, None, None, 0, maxRetries, retryDelay, scheduledAt, None, None)
  }

  function Push(queues: map<string, seq<Id>>, queue: string, id: Id): map<string, seq<Id>> {
    queues[queue := (if queue in queues then queues[queue] else []) + [id]]
  }

  function Store(s: State, id: Id, job: JobData): State {
    State(s.jobs[id := job], Push(s.queues, job.queue, id))
  }

  /** A zero delay leaves the schedule alone, and so does one that overflows. */
  function Delayed(job: JobData, delay: int, now: int): JobData {
    if delay != 0 && !Overflows(delay, now) then job.(scheduledAt := Some(now + delay)) else job
  }

  predicate WillRetry(job: JobData) { job.retryCount + 1 <= job.maxRetries }

  /** The delay before the retry that follows this failure. */
  function Backoff(job: JobData): int
    requires job.retryCount >= 0
  {
    job.retryDelay * Pow2(job.retryCount)
  }

  function Failed(job: JobData, error: string, now: int): JobData
    requires job.retryCount >= 0
  {
    var failed := job.(retryCount := job.retryCount + 1, error := Some(error));
    if WillRetry(job) then Delayed(failed.(status := RETRY), Backoff(job), now) else failed.(status := DEAD)
  }

  function Started(job: JobData, now: int): JobData {
    job.(status := PROCESSING, startedAt := Some(now))
  }

  function Completed(job: JobData, result: Option<Bytes>, now: int): JobData {
    job.(status := COMPLETED, result := result, completedAt := Some(now))
  }

  /** An exception `process_next` catches and turns into a failure. */
  predicate Fails(outcome: Outcome) { outcome.Raises? || outcome.NoWorker? }

  /** Does the attempt leave the job behind: running when its exception escaped, or marked RETRY when
      its retry date left the calendar before it was put back? */
  predicate Strands(job: JobData, outcome: Outcome, now: int)
    requires job.retryCount >= 0
  {
    outcome.Escapes? || (Fails(outcome) && WillRetry(job) && Overflows(Backoff(job), now))
  }

  /** How a call that finds the job ends. */
  function EndOf(job: JobData, outcome: Outcome, now: int): Ended
    requires job.retryCount >= 0
  {
    if outcome.Succeeds? then Yes else if Strands(job, outcome, now) then Threw else No
  }

  function ErrorText(outcome: Outcome): string
    requires Fails(outcome)
  {
    if outcome.Raises? then outcome.error else "No worker function provided"
  }

  /** `fail`: back into its queue, or dead in the dictionary, or left there as RETRY. */
  function FailJob(s: State, id: Id, job: JobData, error: string, now: int): State
    requires job.retryCount >= 0
  {
    if WillRetry(job) && !Overflows(Backoff(job), now) then Store(s, id, Failed(job, error, now))
    else s.(jobs := s.jobs[id := Failed(job, error, now)])
  }

  /** What becomes of a started job: `complete`, or `fail` with a retry or a death. */
  function Settle(s: State, id: Id, job: JobData, outcome: Outcome, now: int): State
    requires job.retryCount >= 0
  {
    if outcome.Succeeds? then s.(jobs := s.jobs[id := Completed(job, outcome.result, now)])
    else if outcome.Escapes? then s.(jobs := s.jobs[id := job])
    else FailJob(s, id, job, ErrorText(outcome), now)
  }

  predicate HasNext(s: State, queue: string) { queue in s.queues && s.queues[queue] != [] }

  function Popped(s: State, queue: string): State
    requires HasNext(s, queue)
  {
    s.(queues := s.queues[queue := s.queues[queue][1..]])
  }

  /** One `process_next` on the named queue. */
  function ProcessNext(s: State, queue: string, outcome: Outcome, now: int): State
    requires forall id :: id in s.jobs ==> s.jobs[id].retryCount >= 0
  {
    if !HasNext(s, queue) then s
    else
      var id := s.queues[queue][0];
      if id !in s.jobs then Popped(s, queue) else Settle(Popped(s, queue), id, Started(s.jobs[id], now), outcome, now)
  }

  // ---- The class: job objects are shared between the dictionary and whoever holds them ----

  class Job {
    const id: Id
    var data: JobData

    constructor (id: Id, data: JobData)
      ensures this.id == id && this.data == data
    {
      this.id, this.data := id, data;
    }
  }

  class JobQueue {
    const defaultQueue: string
    var jobs: map<Id, Job>
    var queue: map<string, seq<Id>>

    ghost predicate Valid()
      reads this, jobs.Values
    {
      forall id :: id in jobs ==> jobs[id].id == id && jobs[id].data.retryCount >= 0
    }

    ghost function View(): State
      reads this, jobs.Values
    {
      State(map id | id in jobs :: jobs[id].data, queue)
    }

    constructor (defaultQueue: string)
      ensures Valid() && View() == State(map[], map[]) && this.defaultQueue == defaultQueue
    {
      this.defaultQueue := defaultQueue;
      jobs, queue := map[], map[];
    }

    method Append(name: string, id: Id)
      modifies this`queue
      ensures queue == Push(old(queue), name, id)
    {
      if name !in queue {
        queue := queue[name := []];
      }
      queue := queue[name := queue[name] + [id]];
    }

    /** Under `id`, the fresh uuid of the new job, is stored exactly what the caller gave, pending, and it is
        last in the queue it names, or in the default one; nothing else changes. */
    method Enqueue(id: Id, name: string, payload: Bytes, queueName: Option<string>, maxRetries: int, retryDelay: int,
                   scheduledAt: Option<int>)
      requires Valid() && id !in jobs
      modifies this
      ensures Valid() && fresh(jobs.Values - old(jobs.Values))
      ensures var q := if queueName.Some? && queueName.value != "" then queueName.value else defaultQueue;
        && View().jobs == old(View()).jobs[id :=
             JobData(name, q, payload, PENDING, None, None, 0, maxRetries, retryDelay, scheduledAt, None, None)]
        && queue == old(queue)[q := (if q in old(queue) then old(queue)[q] else []) + [id]]
    {
      var q := Resolve(queueName, defaultQueue);
      var job := new Job(id, NewJob(name, q, payload, maxRetries, retryDelay, scheduledAt));
      jobs := jobs[id := job];
      Append(job.data.queue, id);
    }

    /** Takes the oldest id of the queue, and its job out of the dictionary. */
    method Dequeue(queueName: Option<string>) returns (job: Job?)
      requires Valid()
      modifies this
      ensures Valid()
      ensures var name := if queueName.Some? && queueName.value != "" then queueName.value else defaultQueue;
        if name !in old(queue) || old(queue)[name] == [] then job == null && jobs == old(jobs) && queue == old(queue)
        else
          var id := old(queue)[name][0];
          && queue == old(queue)[name := old(queue)[name][1..]]
          && jobs == old(jobs) - {id}
          && (id in old(jobs) ==> job == old(jobs)[id])
          && (id !in old(jobs) ==> job == null)
    {
      var name := Resolve(queueName, defaultQueue);
      if name in queue && queue[name] != [] {
        var id := queue[name][0];
        queue := queue[name := queue[name][1..]];
        if id in jobs {
          job := jobs[id];
          jobs := jobs - {id};
        } else {
          assert jobs - {id} == jobs;
          job := null;
        }
      } else {
        job := null;
      }
    }

    /** The date is computed first; when that raises nothing has been changed. */
    method Requeue(job: Job, delay: int, now: int) returns (ok: bool)
      requires Valid() && job.data.retryCount >= 0
      requires job.id in jobs ==> jobs[job.id] == job
      modifies this, job
      ensures Valid() && (ok <==> !Overflows(delay, now))
      ensures ok ==>
        && jobs == old(jobs)[job.id := job]
        && View() == Store(old(View()), job.id, Delayed(old(job.data), delay, now))
      ensures !ok ==> unchanged(this) && unchanged(job)
    {
      if delay != 0 {
        if !InCalendar(now + delay) {
          return false;
        }
        job.data := job.data.(scheduledAt := Some(now + delay));
      }
      ok := true;
      jobs := jobs[job.id := job];
      Append(job.data.queue, job.id);
      assert View().jobs == old(View()).jobs[job.id := job.data];
    }

    /** Counts a failure and notes its status and error on the job. */
    method NoteFailure(job: Job, status: Status, error: string)
      requires Valid() && job.id in jobs && jobs[job.id] == job
      modifies job
      ensures Valid() && job.data ==
        old(job.data).(retryCount := old(job.data).retryCount + 1, status := status, error := Some(error))
      ensures View() == old(View()).(jobs := old(View()).jobs[job.id := job.data])
    {
      job.data := job.data.(retryCount := job.data.retryCount + 1);
      job.data := job.data.(status := status);
      job.data := job.data.(error := Some(error));
    }

    method Fail(job: Job, error: string, now: int) returns (ok: bool)
      requires Valid() && job.id in jobs && jobs[job.id] == job
      modifies this, job
      ensures Valid() && jobs == old(jobs)
      ensures View() == FailJob(old(View()), job.id, old(job.data), error, now)
      ensures ok <==> !(WillRetry(old(job.data)) && Overflows(Backoff(old(job.data)), now))
    {
      ghost var before := View();
      var delay := job.data.retryDelay * Pow2(job.data.retryCount);
      if job.data.retryCount + 1 <= job.data.maxRetries {
        NoteFailure(job, RETRY, error);
        ghost var noted := job.data;
        assert Failed(old(job.data), error, now) == Delayed(noted, delay, now);
        ok := Requeue(job, delay, now);
        StoreOverwrites(before, job.id, noted, Delayed(noted, delay, now));
      } else {
        NoteFailure(job, DEAD, error);
        ok := true;
      }
    }

    method Complete(job: Job, result: Option<Bytes>, now: int)
      requires Valid() && job.id in jobs && jobs[job.id] == job
      modifies this, job
      ensures Valid() && jobs == old(jobs)
      ensures View() == old(View()).(jobs := old(View()).jobs[job.id := Completed(old(job.data), result, now)])
    {
      assert jobs[job.id := job] == jobs;
      job.data := job.data.(status := COMPLETED);
      job.data := job.data.(result := result);
      job.data := job.data.(completedAt := Some(now));
      jobs := jobs[job.id := job];
      assert View().jobs == old(View()).jobs[job.id := job.data];
    }

    /** Takes the next job and marks it as running; `name` is the queue's resolved name. */
    method TakeNext(queueName: Option<string>, now: int) returns (job: Job?)
      requires Valid()
      modifies this, jobs.Values
      ensures Valid() && jobs.Values <= old(jobs.Values)
      ensures var s, name := old(View()), Resolve(queueName, defaultQueue);
        if !HasNext(s, name) then job == null && View() == s
        else if s.queues[name][0] !in s.jobs then job == null && View() == Popped(s, name)
        else
          var id := s.queues[name][0];
          && job != null && job.id == id && id in jobs && jobs[id] == job
          && job.data == s.jobs[id].(status := PROCESSING, startedAt := Some(now))
          && View() == Popped(s, name).(jobs := s.jobs[id := job.data])
    {
      ghost var s := View();
      job := Dequeue(queueName);
      if job == null {
        assert View().jobs == s.jobs;
        return;
      }
      job.data := job.data.(status := PROCESSING, startedAt := Some(now));
      jobs := jobs[job.id := job];
      assert View().jobs == s.jobs[job.id := Started(s.jobs[job.id], now)];
    }

    /** Runs the worker on the next job; True exactly when there was one and the worker succeeded, and
        an exception exactly when the job is left behind. */
    method ProcessNextJob(queueName: Option<string>, outcome: Outcome, now: int) returns (ended: Ended)
      requires Valid()
      modifies this, jobs.Values
      ensures Valid() && jobs.Values <= old(jobs.Values)
      ensures View() == ProcessNext(old(View()), Resolve(queueName, defaultQueue), outcome, now)
      ensures var s, name := old(View()), Resolve(queueName, defaultQueue);
        ended == if !HasNext(s, name) || s.queues[name][0] !in s.jobs then No
                 else EndOf(s.jobs[s.queues[name][0]], outcome, now)
    {
      ghost var s, name := View(), Resolve(queueName, defaultQueue);
      var job := TakeNext(queueName, now);
      if job == null {
        return No;
      }
      ghost var started := job.data;
      ended := Attempt(job, outcome, now);
      SettleOverwrites(Popped(s, name), job.id, started, outcome, now);
    }

    /** The `try` block: run the worker, then complete or fail the job. */
    method Attempt(job: Job, outcome: Outcome, now: int) returns (ended: Ended)
      requires Valid() && job.id in jobs && jobs[job.id] == job
      modifies this, job
      ensures Valid() && jobs == old(jobs)
      ensures View() == Settle(old(View()), job.id, old(job.data), outcome, now)
      ensures ended == EndOf(old(job.data), outcome, now)
    {
      match outcome
      case Succeeds(result) =>
        Complete(job, result, now);
        ended := Yes;
      case Escapes =>
        assert View().jobs[job.id := job.data] == View().jobs;
        ended := Threw;
      case _ =>
        var ok := Fail(job, ErrorText(outcome), now);
        ended := if ok then No else Threw;
    }
  }

  lemma StoreOverwrites(s: State, id: Id, job: JobData, job': JobData)
    ensures Store(s.(jobs := s.jobs[id := job]), id, job') == Store(s, id, job')
  {
    assert s.jobs[id := job][id := job'] == s.jobs[id := job'];
  }

  lemma SettleOverwrites(s: State, id: Id, job: JobData, outcome: Outcome, now: int)
    requires job.retryCount >= 0
    ensures Settle(s.(jobs := s.jobs[id := job]), id, job, outcome, now) == Settle(s, id, job, outcome, now)
  {
    var done := Settle(s, id, job, outcome, now).jobs[id];
    assert s.jobs[id := job][id := done] == s.jobs[id := done];
  }

  // ---- Runs ----

  datatype Event =
    | Enqueue(id: Id, job: JobData)
    | Process(queue: string, outcome: Outcome, now: int)

  /** One failure of a job, with its time and the retry delay computed for it, or None when it died. */
  datatype Failure = Failure(id: Id, at: int, delay: Option<int>)

  /** The queue together with the history of failures and of escaped exceptions, and the jobs that
      were left behind. */
  datatype Run = Run(s: State, failures: seq<Failure>, escapes: nat, stranded: set<Id>)

  const EMPTY := Run(State(map[], map[]), [], 0, {})

  predicate Live(job: JobData) { job.status == PENDING || job.status == RETRY }

  predicate Fresh(job: JobData) { job.status == PENDING && job.retryCount == 0 }

  ghost predicate Counted(s: State) {
    forall id :: id in s.jobs ==> s.jobs[id].retryCount >= 0
  }

  /** The history of one call that finds a job. */
  function Noted(r: Run, id: Id, job: JobData, outcome: Outcome, now: int): Run
    requires job.retryCount >= 0
  {
    var failure := Failure(id, now, if WillRetry(job) then Some(Backoff(job)) else None);
    Run(r.s, if Fails(outcome) then r.failures + [failure] else r.failures,
        if outcome.Escapes? then r.escapes + 1 else r.escapes,
        if Strands(job, outcome, now) then r.stranded + {id} else r.stranded)
  }

  /** An id that is already known, or a job that is not new, cannot be enqueued. */
  ghost function Step(r: Run, e: Event): Run
    requires Counted(r.s)
  {
    match e
    case Enqueue(id, job) =>
      if id !in r.s.jobs && Fresh(job) then r.(s := Store(r.s, id, job)) else r
    case Process(queue, outcome, now) =>
      var noted :=
        if HasNext(r.s, queue) && r.s.queues[queue][0] in r.s.jobs
        then Noted(r, r.s.queues[queue][0], r.s.jobs[r.s.queues[queue][0]], outcome, now) else r;
      noted.(s := ProcessNext(r.s, queue, outcome, now))
  }

  lemma StepCounted(r: Run, e: Event)
    requires Counted(r.s)
    ensures Counted(Step(r, e).s)
  {
  }

  ghost function After(r: Run, run: seq<Event>): (r': Run)
    requires Counted(r.s)
    ensures Counted(r'.s)
    decreases |run|
  {
    if run == [] then r else StepCounted(r, run[0]); After(Step(r, run[0]), run[1..])
  }

  predicate Queued(s: State, id: Id)
    requires id in s.jobs
  {
    s.jobs[id].queue in s.queues && id in s.queues[s.jobs[id].queue]
  }

  ghost predicate NotQueued(s: State, id: Id) { forall q :: q in s.queues ==> id !in s.queues[q] }

  /** Every queue lists live jobs, each in the queue it names and once. */
  ghost predicate QueuesRight(s: State) {
    && (forall q, i :: q in s.queues && 0 <= i < |s.queues[q]| ==>
          && s.queues[q][i] in s.jobs
          && s.jobs[s.queues[q][i]].queue == q && Live(s.jobs[s.queues[q][i]]))
    && forall q, i, j :: q in s.queues && 0 <= i < j < |s.queues[q]| ==> s.queues[q][i] != s.queues[q][j]
  }

  /** A stranded job is in no queue, RETRY or PROCESSING; of the others the live ones are queued and
      the rest are finished. */
  predicate PlaceRight(s: State, id: Id, stranded: bool)
    requires id in s.jobs
  {
    var status := s.jobs[id].status;
    if stranded then status == RETRY || status == PROCESSING
    else if Live(s.jobs[id]) then Queued(s, id)
    else status == COMPLETED || status == DEAD
  }

  ghost predicate Placed(s: State, stranded: set<Id>) {
    && QueuesRight(s)
    && (forall id :: id in stranded ==> id in s.jobs && NotQueued(s, id))
    && forall id :: id in s.jobs ==> PlaceRight(s, id, id in stranded)
  }

  /** Each live id sits exactly once, in the queue its job names; everything else is finished. */
  ghost predicate Conserved(s: State) { Placed(s, {}) }

  /** Nothing stranded is all that separates a placed queue from a conserved one. */
  lemma ConservedIff(s: State, stranded: set<Id>)
    requires Placed(s, stranded)
    ensures Conserved(s) <==> stranded == {}
  {
    if id :| id in stranded {
      assert PlaceRight(s, id, true) && NotQueued(s, id);
      assert !PlaceRight(s, id, false);
      assert !Conserved(s);
    }
  }

  /** Putting a live job that is in no queue into its queue. */
  lemma StorePlaces(s: State, stranded: set<Id>, id: Id, job: JobData)
    requires Placed(s, stranded) && Live(job) && NotQueued(s, id)
    ensures Placed(Store(s, id, job), stranded - {id})
  {
    var s' := Store(s, id, job);
    var prior := if job.queue in s.queues then s.queues[job.queue] else [];
    assert s'.queues[job.queue][|prior|] == id;
    forall x | x in s'.jobs ensures PlaceRight(s', x, x in stranded - {id}) {
      if x != id {
        assert PlaceRight(s, x, x in stranded);
        if Queued(s, x) { StillListed(s, id, job, x); }
      }
    }
  }

  lemma StillListed(s: State, id: Id, job: JobData, x: Id)
    requires x in s.jobs && x != id && Queued(s, x)
    ensures Queued(Store(s, id, job), x)
  {
    var q, s' := s.jobs[x].queue, Store(s, id, job);
    var i :| 0 <= i < |s.queues[q]| && s.queues[q][i] == x;
    assert s'.queues[q][i] == x;
  }

  /** The state with the head of a queue taken out and its job replaced. */
  function Taken(s: State, queue: string, job: JobData): State
    requires HasNext(s, queue)
  {
    State(s.jobs[s.queues[queue][0] := job], s.queues[queue := s.queues[queue][1..]])
  }

  lemma TakenUnqueues(s: State, queue: string, job: JobData)
    requires QueuesRight(s) && HasNext(s, queue)
    ensures NotQueued(Taken(s, queue, job), s.queues[queue][0]) && QueuesRight(Taken(s, queue, job))
  {
    var id, s' := s.queues[queue][0], Taken(s, queue, job);
    forall q, i | q in s'.queues && 0 <= i < |s'.queues[q]| ensures s'.queues[q][i] != id {
      if q == queue { assert s'.queues[q][i] == s.queues[q][i + 1]; }
    }
  }

  /** Taking the head of a queue and giving its job a final status, or leaving it behind. */
  lemma TakenPlaces(s: State, stranded: set<Id>, queue: string, job: JobData, left: bool)
    requires Placed(s, stranded) && HasNext(s, queue)
    requires if left then job.status == RETRY || job.status == PROCESSING
      else job.status == COMPLETED || job.status == DEAD
    ensures var id := s.queues[queue][0];
      Placed(Taken(s, queue, job), if left then stranded + {id} else stranded) && id !in stranded
  {
    var id, s' := s.queues[queue][0], Taken(s, queue, job);
    TakenUnqueues(s, queue, job);
    assert id in s.jobs && s.jobs[id].queue == queue && id in s.queues[queue];
    var stranded' := if left then stranded + {id} else stranded;
    forall x | x in stranded' ensures x in s'.jobs && NotQueued(s', x) {
      if x != id { assert NotQueued(s, x); }
    }
    forall x | x in s'.jobs ensures PlaceRight(s', x, x in stranded') {
      if x != id {
        assert PlaceRight(s, x, x in stranded);
        if Queued(s, x) && s.jobs[x].queue == queue {
          var i :| 0 <= i < |s.queues[queue]| && s.queues[queue][i] == x;
          assert s'.queues[queue][i - 1] == x;
        }
      }
    }
  }

  /** One call that finds a job. */
  lemma ProcessPlaces(s: State, stranded: set<Id>, queue: string, outcome: Outcome, now: int)
    requires Counted(s) && Placed(s, stranded) && HasNext(s, queue)
    ensures var id := s.queues[queue][0];
      && id in s.jobs && id !in stranded
      && Placed(ProcessNext(s, queue, outcome, now),
                if Strands(s.jobs[id], outcome, now) then stranded + {id} else stranded)
  {
    var id := s.queues[queue][0];
    assert id in s.jobs;
    var job := Started(s.jobs[id], now);
    if outcome.Succeeds? {
      TakenPlaces(s, stranded, queue, Completed(job, outcome.result, now), false);
    } else if outcome.Escapes? {
      TakenPlaces(s, stranded, queue, job, true);
    } else {
      var failed := Failed(job, ErrorText(outcome), now);
      TakenPlaces(s, stranded, queue, failed, WillRetry(job));
      if WillRetry(job) && !Overflows(Backoff(job), now) {
        var left := Taken(s, queue, failed);
        StorePlaces(left, stranded + {id}, id, failed);
        assert stranded + {id} - {id} == stranded;
        assert left.jobs[id := failed] == left.jobs;
        assert ProcessNext(s, queue, outcome, now) == Store(left, id, failed);
      }
    }
  }

  lemma StepPlaces(r: Run, e: Event)
    requires Counted(r.s) && Placed(r.s, r.stranded)
    ensures Placed(Step(r, e).s, Step(r, e).stranded)
  {
    match e
    case Enqueue(id, job) =>
      if id !in r.s.jobs && Fresh(job) {
        assert NotQueued(r.s, id) && r.stranded - {id} == r.stranded;
        StorePlaces(r.s, r.stranded, id, job);
      }
    case Process(queue, outcome, now) =>
      if HasNext(r.s, queue) { ProcessPlaces(r.s, r.stranded, queue, outcome, now); }
  }

  lemma {:induction false} RunPlaces(r: Run, run: seq<Event>)
    requires Counted(r.s) && Placed(r.s, r.stranded)
    ensures Placed(After(r, run).s, After(r, run).stranded)
    decreases |run|
  {
    if run != [] {
      StepCounted(r, run[0]);
      StepPlaces(r, run[0]);
      RunPlaces(Step(r, run[0]), run[1..]);
    }
  }

  /** Every retry date that was computed is one the calendar has. */
  predicate RetriesFit(failures: seq<Failure>) {
    forall i :: 0 <= i < |failures| && failures[i].delay.Some? ==> !Overflows(failures[i].delay.value, failures[i].at)
  }

  /** What strands jobs, in terms of the history. */
  ghost predicate CausesRight(r: Run) { r.stranded == {} <==> RetriesFit(r.failures) && r.escapes == 0 }

  lemma NotedCauses(r: Run, id: Id, job: JobData, outcome: Outcome, now: int)
    requires CausesRight(r) && job.retryCount >= 0
    ensures CausesRight(Noted(r, id, job, outcome, now))
  {
    var r' := Noted(r, id, job, outcome, now);
    assert id in r'.stranded || r'.stranded == r.stranded;
    if Fails(outcome) {
      var last := r'.failures[|r.failures|];
      assert forall i :: 0 <= i < |r.failures| ==> r'.failures[i] == r.failures[i];
      assert RetriesFit(r'.failures)
          <==> RetriesFit(r.failures) && (last.delay.Some? ==> !Overflows(last.delay.value, now));
    }
  }

  lemma {:induction false} RunCauses(r: Run, run: seq<Event>)
    requires Counted(r.s) && CausesRight(r)
    ensures CausesRight(After(r, run))
    decreases |run|
  {
    if run != [] {
      StepCounted(r, run[0]);
      var e := run[0];
      if e.Process? && HasNext(r.s, e.queue) && r.s.queues[e.queue][0] in r.s.jobs {
        NotedCauses(r, r.s.queues[e.queue][0], r.s.jobs[r.s.queues[e.queue][0]], e.outcome, e.now);
      }
      RunCauses(Step(r, e), run[1..]);
    }
  }

  /** In every run from an empty queue, each stored job is in exactly one place: once in the queue it
      names, PENDING or RETRY; COMPLETED or DEAD; or left behind by one of its own attempts. */
  lemma EveryJobPlaced(run: seq<Event>)
    ensures Placed(After(EMPTY, run).s, After(EMPTY, run).stranded)
  {
    RunPlaces(EMPTY, run);
  }

  /** A run ends with each live id exactly once in its queue and everything else COMPLETED or DEAD
      exactly if every retry it made had a date within the calendar, now + retry_delay * 2^(k-1), and no
      worker raised what `except Exception` does not catch. */
  lemma RunConservesIff(run: seq<Event>)
    ensures var r := After(EMPTY, run);
      Conserved(r.s) <==> RetriesFit(r.failures) && r.escapes == 0
  {
    RunPlaces(EMPTY, run);
    RunCauses(EMPTY, run);
    ConservedIff(After(EMPTY, run).s, After(EMPTY, run).stranded);
  }

  // ---- Draining: a measure that every non-empty call lowers ----

  /** How many more attempts a job can still take. */
  function Attempts(job: JobData): nat {
    if Live(job) then Max(0, job.maxRetries - job.retryCount) + 1 else 0
  }

  ghost function Total(jobs: map<Id, JobData>): nat {
    if jobs == map[] then 0
    else
      var id :| id in jobs;
      Attempts(jobs[id]) + Total(jobs - {id})
  }

  lemma {:induction false} TotalSplit(jobs: map<Id, JobData>, id: Id)
    requires id in jobs
    ensures Total(jobs) == Attempts(jobs[id]) + Total(jobs - {id})
    decreases |jobs|
  {
    var k :| k in jobs && Total(jobs) == Attempts(jobs[k]) + Total(jobs - {k});
    if k != id {
      TotalSplit(jobs - {k}, id);
      TotalSplit(jobs - {id}, k);
      assert jobs - {k} - {id} == jobs - {id} - {k};
    }
  }

  lemma TotalUpdate(jobs: map<Id, JobData>, id: Id, job: JobData)
    requires id in jobs
    ensures Total(jobs[id := job]) + Attempts(jobs[id]) == Total(jobs) + Attempts(job)
  {
    TotalSplit(jobs, id);
    TotalSplit(jobs[id := job], id);
    assert jobs[id := job] - {id} == jobs - {id};
  }

  /** The total is a sum over the jobs: nothing for none, and a stored job adds a try for each retry it has left
      and one more, if it is pending or to be retried, and nothing otherwise. */
  lemma TotalMeans(jobs: map<Id, JobData>, id: Id, job: JobData)
    requires id !in jobs
    ensures Total(map[]) == 0
    ensures Total(jobs[id := job]) == Total(jobs) +
      if job.status != PENDING && job.status != RETRY then 0
      else if job.retryCount < job.maxRetries then job.maxRetries - job.retryCount + 1 else 1
  {
    TotalSplit(jobs[id := job], id);
    assert jobs[id := job] - {id} == jobs;
  }

  /** A call on a non-empty queue uses up exactly one attempt when the worker fails, and all the
      attempts of its job when it succeeds or its exception escapes. */
  lemma ProcessLowersTotal(s: State, queue: string, outcome: Outcome, now: int)
    requires Counted(s) && QueuesRight(s) && HasNext(s, queue)
    ensures var job := s.jobs[s.queues[queue][0]];
      Total(ProcessNext(s, queue, outcome, now).jobs) + (if Fails(outcome) then 1 else Attempts(job)) == Total(s.jobs)
    ensures Attempts(s.jobs[s.queues[queue][0]]) >= 1
  {
    var id := s.queues[queue][0];
    var s' := ProcessNext(s, queue, outcome, now);
    assert s'.jobs == s.jobs[id := s'.jobs[id]];
    TotalUpdate(s.jobs, id, s'.jobs[id]);
  }

  ghost predicate AllNonEmptyCalls(r: Run, run: seq<Event>)
    requires Counted(r.s)
    decreases |run|
  {
    run == [] ||
    (&& run[0].Process? && HasNext(r.s, run[0].queue)
     && (StepCounted(r, run[0]); AllNonEmptyCalls(Step(r, run[0]), run[1..])))
  }

  /** With no new jobs, whatever the workers do, at most `Total` calls can find a job; and once none
      is left to attempt every queue is empty. */
  lemma {:induction false} DrainsWithin(r: Run, run: seq<Event>)
    requires Counted(r.s) && Placed(r.s, r.stranded) && AllNonEmptyCalls(r, run)
    ensures |run| + Total(After(r, run).s.jobs) <= Total(r.s.jobs)
    ensures |run| == Total(r.s.jobs) ==> forall q :: q in After(r, run).s.queues ==> After(r, run).s.queues[q] == []
    decreases |run|
  {
    if run == [] {
      forall q | q in r.s.queues && r.s.queues[q] != [] ensures Total(r.s.jobs) > 0 {
        ProcessLowersTotal(r.s, q, NoWorker, 0);
      }
    } else {
      ProcessLowersTotal(r.s, run[0].queue, run[0].outcome, run[0].now);
      StepCounted(r, run[0]);
      StepPlaces(r, run[0]);
      DrainsWithin(Step(r, run[0]), run[1..]);
    }
  }

  // ---- Retries, backoff and death ----

  /** The entries of one job in the history of failures. */
  function FailuresOf(failures: seq<Failure>, id: Id): seq<Option<int>> {
    if failures == [] then []
    else
      var n := |failures| - 1;
      FailuresOf(failures[..n], id) + (if failures[n].id == id then [failures[n].delay] else [])
  }

  /** The delays a job gets on its first n failures: `retry_delay * 2^(k-1)` for the k-th one that is
      still retried, none on the failure that kills it. */
  function Schedule(job: JobData, n: nat): seq<Option<int>> {
    seq(n, k requires 0 <= k < n => if k < job.maxRetries then Some(job.retryDelay * Pow2(k)) else None)
  }

  ghost predicate JobHistoryRight(job: JobData, delays: seq<Option<int>>) {
    && 0 <= job.retryCount <= Max(0, job.maxRetries) + 1
    && delays == Schedule(job, job.retryCount)
    && (job.status == DEAD <==> job.retryCount == Max(0, job.maxRetries) + 1)
  }

  ghost predicate HistoryRight(r: Run) {
    && (forall i :: 0 <= i < |r.failures| ==> r.failures[i].id in r.s.jobs)
    && forall id :: id in r.s.jobs ==> JobHistoryRight(r.s.jobs[id], FailuresOf(r.failures, id))
  }

  lemma {:induction false} NoFailures(failures: seq<Failure>, id: Id)
    requires forall i :: 0 <= i < |failures| ==> failures[i].id != id
    ensures FailuresOf(failures, id) == []
  {
    if failures != [] { NoFailures(failures[..|failures| - 1], id); }
  }

  lemma FailuresAppend(failures: seq<Failure>, f: Failure, id: Id)
    ensures FailuresOf(failures + [f], id) == FailuresOf(failures, id) + (if f.id == id then [f.delay] else [])
  {
    assert (failures + [f])[..|failures|] == failures;
  }

  lemma ScheduleNext(job: JobData, n: nat)
    ensures Schedule(job, n + 1) ==
      Schedule(job, n) + [if n < job.maxRetries then Some(job.retryDelay * Pow2(n)) else None]
  {
  }

  /** The job at the head of a queue keeps its history right through one attempt. */
  lemma AttemptHistory(job: JobData, delays: seq<Option<int>>, outcome: Outcome, now: int)
    requires Live(job) && JobHistoryRight(job, delays)
    ensures outcome.Succeeds? ==> JobHistoryRight(Completed(Started(job, now), outcome.result, now), delays)
    ensures outcome.Escapes? ==> JobHistoryRight(Started(job, now), delays)
    ensures Fails(outcome) ==>
      JobHistoryRight(Failed(Started(job, now), ErrorText(outcome), now),
                      delays + [if WillRetry(job) then Some(Backoff(job)) else None])
  {
    if outcome.Succeeds? {
      assert Schedule(Completed(Started(job, now), outcome.result, now), job.retryCount) ==
          Schedule(job, job.retryCount);
    } else if outcome.Escapes? {
      assert Schedule(Started(job, now), job.retryCount) == Schedule(job, job.retryCount);
    } else {
      ScheduleNext(job, job.retryCount);
      assert Schedule(Failed(Started(job, now), ErrorText(outcome), now), job.retryCount + 1) ==
          Schedule(job, job.retryCount + 1);
    }
  }

  lemma EnqueueHistory(r: Run, id: Id, job: JobData)
    requires Counted(r.s) && HistoryRight(r) && id !in r.s.jobs && Fresh(job)
    ensures HistoryRight(Step(r, Enqueue(id, job)))
  {
    NoFailures(r.failures, id);
    assert Schedule(job, 0) == [];
    var r' := Step(r, Enqueue(id, job));
    forall x | x in r'.s.jobs ensures JobHistoryRight(r'.s.jobs[x], FailuresOf(r'.failures, x)) {
      if x != id { assert JobHistoryRight(r.s.jobs[x], FailuresOf(r.failures, x)); }
    }
  }

  /** Replacing one job that has not failed again. */
  lemma HistoryKept(r: Run, r': Run, id: Id, job: JobData)
    requires HistoryRight(r) && id in r.s.jobs && r'.s.jobs == r.s.jobs[id := job] && r'.failures == r.failures
    requires JobHistoryRight(job, FailuresOf(r.failures, id))
    ensures HistoryRight(r')
  {
    forall x | x in r'.s.jobs ensures JobHistoryRight(r'.s.jobs[x], FailuresOf(r'.failures, x)) {
      assert JobHistoryRight(r.s.jobs[x], FailuresOf(r.failures, x));
    }
  }

  /** Replacing one job that has. */
  lemma HistoryGrows(r: Run, r': Run, id: Id, job: JobData, f: Failure)
    requires HistoryRight(r) && id in r.s.jobs && r'.s.jobs == r.s.jobs[id := job] && r'.failures == r.failures + [f]
    requires f.id == id && JobHistoryRight(job, FailuresOf(r.failures, id) + [f.delay])
    ensures HistoryRight(r')
  {
    forall x | x in r'.s.jobs ensures JobHistoryRight(r'.s.jobs[x], FailuresOf(r'.failures, x)) {
      if x == id {
        FailuresAppend(r.failures, f, id);
      } else {
        FailureOfOther(r.failures, f, x);
        assert JobHistoryRight(r.s.jobs[x], FailuresOf(r.failures, x));
      }
    }
  }

  lemma FailureOfOther(failures: seq<Failure>, f: Failure, id: Id)
    requires f.id != id
    ensures FailuresOf(failures + [f], id) == FailuresOf(failures, id)
  {
    FailuresAppend(failures, f, id);
    assert FailuresOf(failures, id) + [] == FailuresOf(failures, id);
  }

  lemma ProcessHistory(r: Run, queue: string, outcome: Outcome, now: int)
    requires Counted(r.s) && QueuesRight(r.s) && HistoryRight(r) && HasNext(r.s, queue)
    ensures HistoryRight(Step(r, Process(queue, outcome, now)))
  {
    var r', id := Step(r, Process(queue, outcome, now)), r.s.queues[queue][0];
    var job := r.s.jobs[id];
    AttemptHistory(job, FailuresOf(r.failures, id), outcome, now);
    if Fails(outcome) {
      var f := Failure(id, now, if WillRetry(job) then Some(Backoff(job)) else None);
      HistoryGrows(r, r', id, Failed(Started(job, now), ErrorText(outcome), now), f);
    } else {
      var job' := if outcome.Succeeds? then Completed(Started(job, now), outcome.result, now) else Started(job, now);
      HistoryKept(r, r', id, job');
    }
  }

  lemma StepHistory(r: Run, e: Event)
    requires Counted(r.s) && QueuesRight(r.s) && HistoryRight(r)
    ensures HistoryRight(Step(r, e))
  {
    match e
    case Enqueue(id, job) =>
      if id !in r.s.jobs && Fresh(job) { EnqueueHistory(r, id, job); }
    case Process(queue, outcome, now) =>
      if HasNext(r.s, queue) { ProcessHistory(r, queue, outcome, now); }
  }

  lemma {:induction false} RunHistory(r: Run, run: seq<Event>)
    requires Counted(r.s) && Placed(r.s, r.stranded) && HistoryRight(r)
    ensures HistoryRight(After(r, run))
    decreases |run|
  {
    if run != [] {
      StepCounted(r, run[0]);
      StepPlaces(r, run[0]);
      StepHistory(r, run[0]);
      RunHistory(Step(r, run[0]), run[1..]);
    }
  }

  function Sum(delays: seq<Option<int>>): int {
    if delays == [] then 0
    else
      var n := |delays| - 1;
      Sum(delays[..n]) + (if delays[n].Some? then delays[n].value else 0)
  }

  lemma {:induction false} ScheduleSum(job: JobData, n: nat)
    requires n <= job.maxRetries
    ensures Sum(Schedule(job, n)) == job.retryDelay * (Pow2(n) - 1)
  {
    if n > 0 {
      ScheduleSum(job, n - 1);
      ScheduleNext(job, n - 1);
      assert Schedule(job, n)[..n - 1] == Schedule(job, n - 1);
      var d, p := job.retryDelay, Pow2(n - 1);
      assert d * (p - 1) + d * p == d * (2 * p - 1);
    }
  }

  /** A job's failures, given their delays: DEAD exactly after max_retries + 1 of them (one, if
      max_retries is negative), the k-th delay retry_delay * 2^(k-1), and the delays of a dead job
      adding up to retry_delay * (2^max_retries - 1). */
  ghost predicate BackoffRight(job: JobData, delays: seq<Option<int>>) {
    && (job.status == DEAD <==> |delays| == Max(0, job.maxRetries) + 1)
    && |delays| <= Max(0, job.maxRetries) + 1
    && (forall k :: 0 <= k < |delays| && k < job.maxRetries ==> delays[k] == Some(job.retryDelay * Pow2(k)))
    && (job.status == DEAD && job.maxRetries >= 0 ==> Sum(delays) == job.retryDelay * (Pow2(job.maxRetries) - 1))
  }

  lemma HistoryMeans(job: JobData, delays: seq<Option<int>>)
    requires JobHistoryRight(job, delays)
    ensures BackoffRight(job, delays)
  {
    var n := job.retryCount;
    forall k | 0 <= k < |delays| && k < job.maxRetries ensures delays[k] == Some(job.retryDelay * Pow2(k)) {
      assert Schedule(job, n)[k] == Some(job.retryDelay * Pow2(k));
    }
    if job.status == DEAD && job.maxRetries >= 0 {
      assert n == job.maxRetries + 1;
      DeadSum(job);
      assert delays == Schedule(job, job.maxRetries + 1);
    }
  }

  /** In every run from an empty queue, every stored job failed, backed off and died as it should; one
      that was left behind is not dead. */
  lemma DeathAndBackoff(run: seq<Event>, id: Id)
    requires id in After(EMPTY, run).s.jobs
    ensures BackoffRight(After(EMPTY, run).s.jobs[id], FailuresOf(After(EMPTY, run).failures, id))
    ensures id in After(EMPTY, run).stranded ==> After(EMPTY, run).s.jobs[id].status != DEAD
  {
    assert HistoryRight(EMPTY);
    RunHistory(EMPTY, run);
    RunPlaces(EMPTY, run);
    HistoryMeans(After(EMPTY, run).s.jobs[id], FailuresOf(After(EMPTY, run).failures, id));
  }

  /** A job that was left behind stays as it is, in no queue, whatever is called afterwards. */
  lemma {:induction false} LeftBehindForever(r: Run, run: seq<Event>, id: Id)
    requires Counted(r.s) && Placed(r.s, r.stranded) && id in r.stranded
    ensures var r' := After(r, run);
      id in r'.stranded && id in r'.s.jobs && r'.s.jobs[id] == r.s.jobs[id] && NotQueued(r'.s, id)
    decreases |run|
  {
    if run != [] {
      var e := run[0];
      StepCounted(r, e);
      StepPlaces(r, e);
      if e.Process? && HasNext(r.s, e.queue) { assert id !in r.s.queues[e.queue]; }
      LeftBehindForever(Step(r, e), run[1..], id);
    }
  }

  lemma DeadSum(job: JobData)
    requires job.maxRetries >= 0
    ensures Sum(Schedule(job, job.maxRetries + 1)) == job.retryDelay * (Pow2(job.maxRetries) - 1)
  {
    ScheduleSum(job, job.maxRetries);
    ScheduleNext(job, job.maxRetries);
    assert Schedule(job, job.maxRetries + 1)[..job.maxRetries] == Schedule(job, job.maxRetries);
  }

  /** After a failure with retries left the job is RETRY, and if now + retry_delay * 2^(retry_count - 1)
      is a date it is scheduled then and last in its queue; otherwise its schedule is as it was and it
      is in no queue. A zero retry_delay never overflows. */
  lemma RetryIsScheduled(s: State, queue: string, outcome: Outcome, now: int)
    requires Counted(s) && QueuesRight(s) && HasNext(s, queue) && Fails(outcome)
    ensures var id := s.queues[queue][0]; var s' := ProcessNext(s, queue, outcome, now); var job := s'.jobs[id];
      && job.retryCount == s.jobs[id].retryCount + 1
      && (job.status == RETRY <==> job.retryCount <= job.maxRetries)
      && (job.status == RETRY ==>
            var date := now + job.retryDelay * Pow2(job.retryCount - 1);
            if job.retryDelay == 0 || -62_135_596_800 <= date <= 253_402_300_799 then
              && Queued(s', id) && s'.queues[queue][|s'.queues[queue]| - 1] == id
              && job.scheduledAt == if job.retryDelay == 0 then s.jobs[id].scheduledAt else Some(date)
            else NotQueued(s', id) && job.scheduledAt == s.jobs[id].scheduledAt)
  {
    var id := s.queues[queue][0];
    var job := s.jobs[id];
    Pow2Positive(job.retryCount);
    if WillRetry(job) {
      var failed := Failed(Started(job, now), ErrorText(outcome), now);
      TakenUnqueues(s, queue, failed);
      if Overflows(Backoff(job), now) { assert ProcessNext(s, queue, outcome, now) == Taken(s, queue, failed); }
    }
  }

  lemma {:induction false} Pow2Positive(n: nat)
    ensures Pow2(n) >= 1
  {
    if n > 0 { Pow2Positive(n - 1); }
  }
}
