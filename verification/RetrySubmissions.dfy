/** What a job of the in-memory `JobQueue` (core/runtime/jobs.py) keeps from its submission to its end, and
    what each call of `process_next` writes on it. */
module RetrySubmissions {
  import opened Common
  import opened RetryQueue

  /** The name of a queue: what the caller gives, unless that is nothing or empty. */
  lemma NamedQueue(given: string, default: string)
    ensures Resolve(None, default) == default && Resolve(Some(""), default) == default
    ensures given != "" ==> Resolve(Some(given), default) == given
  {
  }

  /** One call that finds a job, field by field: what the worker's result or error leaves on it. */
  lemma CallWrites(s: State, queue: string, outcome: Outcome, now: int)
    requires Counted(s) && QueuesRight(s) && queue in s.queues && s.queues[queue] != []
    ensures s.queues[queue][0] in s.jobs && s.queues[queue][0] in ProcessNext(s, queue, outcome, now).jobs
    ensures var id := s.queues[queue][0]; var s' := ProcessNext(s, queue, outcome, now);
      var before, after := s.jobs[id], s'.jobs[id];
      && s'.jobs - {id} == s.jobs - {id}
      && after.startedAt == Some(now)
      && match outcome
         case Succeeds(result) =>
           after == before.(status := COMPLETED, result := result, startedAt := Some(now), completedAt := Some(now))
         case Escapes => after == before.(status := PROCESSING, startedAt := Some(now))
         case _ =>
           && after.error == Some(if outcome.Raises? then outcome.error else "No worker function provided")
           && after.retryCount == before.retryCount + 1
           && after.status == (if after.retryCount <= before.maxRetries then RETRY else DEAD)
           && after.result == before.result && after.completedAt == before.completedAt
  {
  }

  /** How a call ends that finds a job: with True when the worker returns; with an exception when the worker's own
      escapes, or when the retry that follows the failure has a date that `datetime` cannot hold; else with False. */
  lemma CallEnds(job: JobData, outcome: Outcome, now: int)
    requires job.retryCount >= 0
    ensures match outcome
            case Succeeds(_) => EndOf(job, outcome, now) == Yes
            case Escapes => EndOf(job, outcome, now) == Threw
            case _ =>
              var delay := job.retryDelay * Pow2(job.retryCount);
              var raises := job.retryCount < job.maxRetries && delay != 0
                            && !(-62_135_596_800 <= now + delay <= 253_402_300_799);
              EndOf(job, outcome, now) == if raises then Threw else No
  {
  }

  lemma StepKeepsSubmission(r: Run, e: Event, id: Id)
    requires Counted(r.s) && id in r.s.jobs
    ensures id in Step(r, e).s.jobs
    ensures var before, after := r.s.jobs[id], Step(r, e).s.jobs[id];
      && after.name == before.name && after.queue == before.queue && after.payload == before.payload
      && after.maxRetries == before.maxRetries && after.retryDelay == before.retryDelay
  {
  }

  /** No run changes a stored job's name, queue, payload, max_retries or retry_delay, or loses it. */
  lemma {:induction false} SubmissionKept(r: Run, run: seq<Event>, id: Id)
    requires Counted(r.s) && id in r.s.jobs
    ensures id in After(r, run).s.jobs
    ensures var before, after := r.s.jobs[id], After(r, run).s.jobs[id];
      && after.name == before.name && after.queue == before.queue && after.payload == before.payload
      && after.maxRetries == before.maxRetries && after.retryDelay == before.retryDelay
    decreases |run|
  {
    if run != [] {
      StepCounted(r, run[0]);
      StepKeepsSubmission(r, run[0], id);
      SubmissionKept(Step(r, run[0]), run[1..], id);
    }
  }

  lemma {:induction false} StoredWasSubmitted(r: Run, run: seq<Event>, id: Id) returns (i: nat)
    requires Counted(r.s) && id !in r.s.jobs && id in After(r, run).s.jobs
    ensures i < |run| && run[i].Enqueue? && run[i].id == id
    ensures var submitted, stored := run[i].job, After(r, run).s.jobs[id];
      && stored.name == submitted.name && stored.queue == submitted.queue && stored.payload == submitted.payload
      && stored.maxRetries == submitted.maxRetries && stored.retryDelay == submitted.retryDelay
    decreases |run|
  {
    var e := run[0];
    StepCounted(r, e);
    if id in Step(r, e).s.jobs {
      i := 0;
      SubmissionKept(Step(r, e), run[1..], id);
    } else {
      var k := StoredWasSubmitted(Step(r, e), run[1..], id);
      i := k + 1;
    }
  }

  /** After any run, the job that the next call hands to its worker is one that was submitted under its id,
      with the name, payload and limits it was submitted with, out of the queue it was submitted to. */
  lemma WorkerSeesSubmission(run: seq<Event>, queue: string) returns (i: nat)
    requires var s := After(EMPTY, run).s; queue in s.queues && s.queues[queue] != []
    ensures var s := After(EMPTY, run).s; var id := s.queues[queue][0];
      && i < |run| && run[i].Enqueue? && run[i].id == id && id in s.jobs
      && var submitted, seen := run[i].job, s.jobs[id];
         && seen.name == submitted.name && seen.payload == submitted.payload && submitted.queue == queue
         && seen.maxRetries == submitted.maxRetries && seen.retryDelay == submitted.retryDelay
         && (seen.status == PENDING || seen.status == RETRY)
  {
    EveryJobPlaced(run);
    var s := After(EMPTY, run).s;
    i := StoredWasSubmitted(EMPTY, run, s.queues[queue][0]);
  }

  /** A job that has been completed keeps the result of the call that completed it, whatever is called
      afterwards; a dead one stays dead with its last error. */
  lemma {:induction false} FinishedForever(r: Run, run: seq<Event>, id: Id)
    requires Counted(r.s) && Placed(r.s, r.stranded)
    requires id in r.s.jobs && (r.s.jobs[id].status == COMPLETED || r.s.jobs[id].status == DEAD)
    ensures id in After(r, run).s.jobs && After(r, run).s.jobs[id] == r.s.jobs[id]
    decreases |run|
  {
    if run != [] {
      StepCounted(r, run[0]);
      StepPlaces(r, run[0]);
      FinishedForever(Step(r, run[0]), run[1..], id);
    }
  }

  /** So over every run: once a worker has returned `result` for a job, it is COMPLETED with that result for
      good, and with everything else as it was submitted. */
  lemma CompletedForGood(before: seq<Event>, queue: string, result: Option<Bytes>, now: int, more: seq<Event>)
    requires var s := After(EMPTY, before).s; queue in s.queues && s.queues[queue] != []
    ensures var r := After(EMPTY, before); var id := r.s.queues[queue][0];
      var r' := After(Step(r, Process(queue, Succeeds(result), now)), more);
      && id in r.s.jobs && id in r'.s.jobs
      && r'.s.jobs[id] ==
         r.s.jobs[id].(status := COMPLETED, result := result, startedAt := Some(now), completedAt := Some(now))
  {
    var r, e := After(EMPTY, before), Process(queue, Succeeds(result), now);
    EveryJobPlaced(before);
    CallWrites(r.s, queue, Succeeds(result), now);
    StepCounted(r, e);
    StepPlaces(r, e);
    FinishedForever(Step(r, e), more, r.s.queues[queue][0]);
  }
}
