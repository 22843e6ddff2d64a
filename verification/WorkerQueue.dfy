/** `MemoryQueue` of queue/queue.go: a due-job scan, N workers, retries, and closing. */
module WorkerQueue {
  import opened Common

  const DEFAULT_MAX_ATTEMPTS := 3

  /** A job's fields; `runAt` is None for Go's zero time. */
  datatype JobData = JobData(name: string, payload: Bytes, attempts: int, maxAttempts: int, runAt: Option<int>)

  predicate Due(job: JobData, now: int) { job.runAt.None? || job.runAt.value < now }

  function WithDefaults(job: JobData): JobData {
    if job.maxAttempts == 0 then job.(maxAttempts := DEFAULT_MAX_ATTEMPTS) else job
  }

  /** The position of the first due job of a list, or the length of the list if there is none. */
  function DueAt(list: seq<JobData>, now: int): (i: nat)
    ensures i <= |list| && (i < |list| ==> list[i].runAt.None? || list[i].runAt.value < now)
    ensures forall j :: 0 <= j < i ==> list[j].runAt.Some? && list[j].runAt.value >= now
  {
    if list == [] || Due(list[0], now) then 0 else 1 + DueAt(list[1..], now)
  }

  datatype Verdict = NothingDue | NoHandler | Success | WillRetry | Exhausted

  /** What becomes of a job a worker has taken, leaving `rest` in the queue. */
  function Handle(rest: seq<JobData>, job: JobData, handlers: set<string>, ok: bool): (seq<JobData>, Verdict) {
    if job.name !in handlers then (rest, NoHandler)
    else if ok then (rest, Success)
    else if job.attempts >= job.maxAttempts then (rest, Exhausted)
    else (rest + [WithDefaults(job.(attempts := job.attempts + 1))], WillRetry)
  }

  /** What one turn of a worker makes of the queue's jobs. */
  function Turn(list: seq<JobData>, handlers: set<string>, ok: bool, now: int): (seq<JobData>, Verdict) {
    var i := DueAt(list, now);
    if i == |list| then (list, NothingDue) else Handle(list[..i] + list[i + 1..], list[i], handlers, ok)
  }

  // ---- The queue as it is written ----

  class Job {
    var data: JobData

    constructor (data: JobData)
      ensures this.data == data
    {
      this.data := data;
    }
  }

  class MemoryQueue {
    var jobs: seq<Job>
    var handlers: set<string>

    /** No job object is queued twice. */
    ghost predicate Valid()
      reads this
    {
      forall i, j :: 0 <= i < j < |jobs| ==> jobs[i] != jobs[j]
    }

    ghost function Contents(): seq<JobData>
      reads this, jobs
    {
      seq(|jobs|, i requires 0 <= i < |jobs| reads this, jobs => jobs[i].data)
    }

    constructor ()
      ensures jobs == [] && handlers == {}
    {
      jobs, handlers := [], {};
    }

    method RegisterHandler(name: string)
      modifies this`handlers
      ensures handlers == old(handlers) + {name}
    {
      handlers := handlers + {name};
    }

    method Enqueue(job: Job)
      modifies this`jobs, job
      ensures jobs == old(jobs) + [job]
      ensures job.data ==
        old(job.data).(maxAttempts := if old(job.data.maxAttempts) == 0 then 3 else old(job.data.maxAttempts))
    {
      if job.data.maxAttempts == 0 {
        job.data := job.data.(maxAttempts := DEFAULT_MAX_ATTEMPTS);
      }
      jobs := jobs + [job];
    }

    /** Removes and returns the first job without a time to run at or with one before `now`; the others keep
        their order. Null means that every job's time is still to come. */
    method Dequeue(now: int) returns (job: Job?, ghost at: nat)
      modifies this`jobs
      ensures at <= |old(jobs)| && at == DueAt(old(Contents()), now)
      ensures forall j :: 0 <= j < at ==> old(jobs)[j].data.runAt.Some? && old(jobs)[j].data.runAt.value >= now
      ensures job != null ==> job.data.runAt.None? || job.data.runAt.value < now
      ensures if at == |old(jobs)| then job == null && jobs == old(jobs)
              else job == old(jobs)[at] && jobs == old(jobs)[..at] + old(jobs)[at + 1..]
    {
      for i := 0 to |jobs|
        invariant jobs == old(jobs)
        invariant forall j :: 0 <= j < i ==> !Due(jobs[j].data, now)
      {
        if Due(jobs[i].data, now) {
          DueAtIs(Contents(), now, i);
          job, at := jobs[i], i;
          jobs := jobs[..i] + jobs[i + 1..];
          return;
        }
      }
      DueAtIs(Contents(), now, |jobs|);
      return null, |jobs|;
    }

    /** The rest of the pass once a job is taken; `ok` is what its handler would return. */
    method Attempt(job: Job, ok: bool) returns (verdict: Verdict)
      requires Valid() && job !in jobs
      modifies this`jobs, job
      ensures Valid() && (jobs == old(jobs) || jobs == old(jobs) + [job])
      ensures (Contents(), verdict) == Handle(old(Contents()), old(job.data), handlers, ok)
    {
      if job.data.name !in handlers {
        return NoHandler;
      }
      if !ok && job.data.attempts < job.data.maxAttempts {
        job.data := job.data.(attempts := job.data.attempts + 1);
        Enqueue(job);
        assert Contents() == old(Contents()) + [job.data];
        return WillRetry;
      }
      return if ok then Success else Exhausted;
    }

    /** One pass of the worker's loop. */
    method WorkerTurn(ok: bool, now: int) returns (verdict: Verdict)
      requires Valid()
      modifies this`jobs, jobs
      ensures Valid() && forall j :: j in jobs ==> j in old(jobs)
      ensures (Contents(), verdict) == Turn(old(Contents()), handlers, ok, now)
    {
      ghost var list := Contents();
      var job, i := Dequeue(now);
      if job == null {
        return NothingDue;
      }
      assert Contents() == list[..i] + list[i + 1..];
      verdict := Attempt(job, ok);
    }
  }

  lemma DueAtIs(list: seq<JobData>, now: int, i: nat)
    requires i <= |list| && (i < |list| ==> list[i].runAt.None? || list[i].runAt.value < now)
    requires forall j :: 0 <= j < i ==> list[j].runAt.Some? && list[j].runAt.value >= now
    ensures DueAt(list, now) == i
  {
  }

  // ---- The queue among its workers ----

  /** Jobs are named by the order of their first enqueue, so they are distinct. */
  datatype Worker = Selecting | Polling | Holding(job: nat) | Running(job: nat) | Requeueing(job: nat) | Exited

  /** `initial` and `runs` record each job as first enqueued and how often its handler was started. */
  datatype State = State(queue: seq<nat>, data: seq<JobData>, handlers: set<string>, workers: seq<Worker>,
                         closed: bool, cancelled: bool, closeReturned: bool,
                         succeeded: multiset<nat>, dropped: multiset<nat>, exhausted: multiset<nat>,
                         initial: seq<JobData>, runs: seq<nat>)

  datatype Event =
    | Enqueue(job: JobData)
    | RegisterHandler(name: string)
    | Process(concurrency: nat)
    | Select(w: nat)
    | Poll(w: nat, now: int)
    | Lookup(w: nat)
    | Finish(w: nat, ok: bool)
    | Requeue(w: nat)
    | Cancel
    | Close
    | CloseReturns

  const INIT := State([], [], {}, [], false, false, false, multiset{}, multiset{}, multiset{}, [], [])

  predicate InRange(queue: seq<nat>, data: seq<JobData>) {
    forall i :: 0 <= i < |queue| ==> queue[i] < |data|
  }

  /** The data of the queued jobs, in order. */
  function Contents(queue: seq<nat>, data: seq<JobData>): seq<JobData>
    requires InRange(queue, data)
  {
    seq(|queue|, i requires 0 <= i < |queue| => data[queue[i]])
  }

  function SetWorker(s: State, w: nat, worker: Worker): State
    requires w < |s.workers|
  {
    s.(workers := s.workers[w := worker])
  }

  /** The worker's select: it leaves once the queue is closed or the context done, else it polls. */
  function SelectStep(s: State, w: nat): State {
    if !(w < |s.workers| && s.workers[w] == Selecting) then s
    else SetWorker(s, w, if s.closed || s.cancelled then Exited else Polling)
  }

  function PollStep(s: State, w: nat, now: int): State {
    if !(w < |s.workers| && s.workers[w] == Polling && InRange(s.queue, s.data)) then s
    else
      var i := DueAt(Contents(s.queue, s.data), now);
      if i == |s.queue| then SetWorker(s, w, Selecting)
      else SetWorker(s, w, Holding(s.queue[i])).(queue := s.queue[..i] + s.queue[i + 1..])
  }

  function LookupStep(s: State, w: nat): State {
    if !(w < |s.workers| && s.workers[w].Holding?) then s
    else
      var u := s.workers[w].job;
      if !(u < |s.data| && u < |s.runs|) then s
      else if s.data[u].name in s.handlers then SetWorker(s, w, Running(u)).(runs := s.runs[u := s.runs[u] + 1])
      else SetWorker(s, w, Selecting).(dropped := s.dropped + multiset{u})
  }

  function Succeed(s: State, w: nat, u: nat): State
    requires w < |s.workers|
  {
    SetWorker(s, w, Selecting).(succeeded := s.succeeded + multiset{u})
  }

  function Retry(s: State, w: nat, u: nat): State
    requires w < |s.workers| && u < |s.data|
  {
    SetWorker(s, w, Requeueing(u)).(data := s.data[u := s.data[u].(attempts := s.data[u].attempts + 1)])
  }

  function GiveUp(s: State, w: nat, u: nat): State
    requires w < |s.workers|
  {
    SetWorker(s, w, Selecting).(exhausted := s.exhausted + multiset{u})
  }

  /** The handler returns; `Attempts` goes up only for a failure that will be retried. */
  function FinishStep(s: State, w: nat, ok: bool): State {
    if !(w < |s.workers| && s.workers[w].Running?) then s
    else
      var u := s.workers[w].job;
      if u >= |s.data| then s
      else if ok then Succeed(s, w, u)
      else if s.data[u].attempts < s.data[u].maxAttempts then Retry(s, w, u)
      else GiveUp(s, w, u)
  }

  function RequeueStep(s: State, w: nat): State {
    if !(w < |s.workers| && s.workers[w].Requeueing?) then s
    else
      var u := s.workers[w].job;
      if u >= |s.data| then s
      else SetWorker(s, w, Selecting).(queue := s.queue + [u], data := s.data[u := WithDefaults(s.data[u])])
  }

  function Step(s: State, e: Event): State {
    match e
    case Enqueue(job) =>
      s.(queue := s.queue + [|s.data|], data := s.data + [WithDefaults(job)],
         initial := s.initial + [WithDefaults(job)], runs := s.runs + [0])
    case RegisterHandler(name) => s.(handlers := s.handlers + {name})
    case Process(concurrency) => s.(workers := s.workers + seq(concurrency, _ => Selecting))
    case Cancel => s.(cancelled := true)
    case Close => s.(closed := true)
    case CloseReturns =>
      if s.closed && forall w :: 0 <= w < |s.workers| ==> s.workers[w] == Exited then s.(closeReturned := true) else s
    case Select(w) => SelectStep(s, w)
    case Poll(w, now) => PollStep(s, w, now)
    case Lookup(w) => LookupStep(s, w)
    case Finish(w, ok) => FinishStep(s, w, ok)
    case Requeue(w) => RequeueStep(s, w)
  }

  function After(run: seq<Event>): State {
    if run == [] then INIT else Step(After(run[..|run| - 1]), run[|run| - 1])
  }

  // ---- Conservation ----

  predicate Holds(worker: Worker, u: nat) {
    (worker.Holding? || worker.Running? || worker.Requeueing?) && worker.job == u
  }

  function InHand(worker: Worker, u: nat): nat { if Holds(worker, u) then 1 else 0 }

  /** How many workers have job u in their hands. */
  function Hands(workers: seq<Worker>, u: nat): nat {
    if workers == [] then 0 else InHand(workers[0], u) + Hands(workers[1..], u)
  }

  /** How often u occurs in a list. */
  function Times(list: seq<nat>, u: nat): nat {
    if list == [] then 0
    else
      var n := |list| - 1;
      Times(list[..n], u) + (if list[n] == u then 1 else 0)
  }

  /** In how many places job u is. */
  function Places(s: State, u: nat): nat {
    Times(s.queue, u) + Hands(s.workers, u) + s.succeeded[u] + s.dropped[u] + s.exhausted[u]
  }

  lemma {:induction false} HandsUpdate(workers: seq<Worker>, w: nat, worker: Worker, u: nat)
    requires w < |workers|
    ensures Hands(workers[w := worker], u) == Hands(workers, u) - InHand(workers[w], u) + InHand(worker, u)
    ensures InHand(workers[w], u) <= Hands(workers, u)
  {
    if w > 0 {
      HandsUpdate(workers[1..], w - 1, worker, u);
      assert workers[w := worker][1..] == workers[1..][w - 1 := worker];
    } else {
      assert workers[0 := worker][1..] == workers[1..];
    }
  }

  lemma {:induction false} HandsOfIdle(workers: seq<Worker>, n: nat, u: nat)
    ensures Hands(workers + seq(n, _ => Selecting), u) == Hands(workers, u)
    decreases |workers| + n
  {
    var more := seq(n, _ => Selecting);
    if workers != [] {
      HandsOfIdle(workers[1..], n, u);
      assert (workers + more)[1..] == workers[1..] + more;
    } else if n > 0 {
      HandsOfIdle([], n - 1, u);
      assert (workers + more)[1..] == [] + seq(n - 1, _ => Selecting);
    }
  }

  ghost predicate Conserved(s: State) {
    && |s.data| == |s.initial| == |s.runs|
    && forall u: nat :: Places(s, u) == if u < |s.data| then 1 else 0
  }

  lemma TimesAppend(list: seq<nat>, v: nat, u: nat)
    ensures Times(list + [v], u) == Times(list, u) + if v == u then 1 else 0
  {
    assert (list + [v])[..|list|] == list;
  }

  lemma {:induction false} TimesWithout(list: seq<nat>, i: nat, u: nat)
    requires i < |list|
    ensures Times(list, u) == Times(list[..i] + list[i + 1..], u) + if list[i] == u then 1 else 0
  {
    var n := |list| - 1;
    if i == n {
      assert list[..i] + list[i + 1..] == list[..n];
    } else {
      TimesWithout(list[..n], i, u);
      TimesAppend(list[..n][..i] + list[..n][i + 1..], list[n], u);
      assert list[..i] + list[i + 1..] == list[..n][..i] + list[..n][i + 1..] + [list[n]];
    }
  }

  lemma SelectPlaces(s: State, w: nat, u: nat)
    ensures Places(SelectStep(s, w), u) == Places(s, u)
  {
    var s' := SelectStep(s, w);
    if s' != s {
      HandsUpdate(s.workers, w, s'.workers[w], u);
    }
  }

  /** A polling worker that takes the i-th job of the queue. */
  function Take(s: State, w: nat, i: nat): State
    requires w < |s.workers| && i < |s.queue|
  {
    SetWorker(s, w, Holding(s.queue[i])).(queue := s.queue[..i] + s.queue[i + 1..])
  }

  lemma TakePlaces(s: State, w: nat, i: nat, u: nat)
    requires w < |s.workers| && s.workers[w] == Polling && i < |s.queue|
    ensures Places(Take(s, w, i), u) == Places(s, u)
  {
    HandsUpdate(s.workers, w, Holding(s.queue[i]), u);
    TimesWithout(s.queue, i, u);
  }

  lemma PollPlaces(s: State, w: nat, now: int, u: nat)
    ensures Places(PollStep(s, w, now), u) == Places(s, u)
  {
    if w < |s.workers| && s.workers[w] == Polling && InRange(s.queue, s.data) {
      var i := DueAt(Contents(s.queue, s.data), now);
      if i < |s.queue| { TakePlaces(s, w, i, u); } else { HandsUpdate(s.workers, w, Selecting, u); }
    }
  }

  lemma LookupPlaces(s: State, w: nat, u: nat)
    ensures Places(LookupStep(s, w), u) == Places(s, u)
  {
    var s' := LookupStep(s, w);
    if s' != s {
      HandsUpdate(s.workers, w, s'.workers[w], u);
    }
  }

  lemma FinishPlaces(s: State, w: nat, ok: bool, u: nat)
    ensures Places(FinishStep(s, w, ok), u) == Places(s, u)
  {
    var s' := FinishStep(s, w, ok);
    if s' != s {
      HandsUpdate(s.workers, w, s'.workers[w], u);
    }
  }

  lemma RequeuePlaces(s: State, w: nat, u: nat)
    ensures Places(RequeueStep(s, w), u) == Places(s, u)
  {
    var s' := RequeueStep(s, w);
    if s' != s {
      TimesAppend(s.queue, s.workers[w].job, u);
      HandsUpdate(s.workers, w, s'.workers[w], u);
    }
  }

  /** A step moves jobs between places; only an enqueue from outside brings a new one. */
  lemma StepPlaces(s: State, e: Event, u: nat)
    requires |s.data| == |s.initial| == |s.runs|
    ensures Places(Step(s, e), u) == Places(s, u) + if e.Enqueue? && u == |s.data| then 1 else 0
  {
    match e
    case Select(w) => SelectPlaces(s, w, u);
    case Poll(w, now) => PollPlaces(s, w, now, u);
    case Lookup(w) => LookupPlaces(s, w, u);
    case Finish(w, ok) => FinishPlaces(s, w, ok, u);
    case Requeue(w) => RequeuePlaces(s, w, u);
    case Process(n) => HandsOfIdle(s.workers, n, u);
    case Enqueue(_) => TimesAppend(s.queue, |s.data|, u);
    case _ =>
  }

  predicate SameSizes(s: State, s': State) {
    |s'.data| == |s.data| && |s'.initial| == |s.initial| && |s'.runs| == |s.runs|
  }

  lemma PollSizes(s: State, w: nat, now: int)
    ensures SameSizes(s, PollStep(s, w, now))
  {
  }

  lemma FinishSizes(s: State, w: nat, ok: bool)
    ensures SameSizes(s, FinishStep(s, w, ok))
  {
  }

  lemma StepSizes(s: State, e: Event)
    ensures e.Enqueue? || SameSizes(s, Step(s, e))
  {
    match e
    case Poll(w, now) => PollSizes(s, w, now);
    case Finish(w, ok) => FinishSizes(s, w, ok);
    case _ =>
  }

  lemma StepConserves(s: State, e: Event)
    requires Conserved(s)
    ensures Conserved(Step(s, e))
  {
    var s' := Step(s, e);
    StepSizes(s, e);
    forall u: nat ensures Places(s', u) == if u < |s'.data| then 1 else 0 {
      StepPlaces(s, e, u);
    }
  }

  // ---- Attempts ----

  predicate IsAttempt(d: JobData, i: JobData) {
    && d.maxAttempts == i.maxAttempts && d.name == i.name && d.payload == i.payload && d.runAt == i.runAt
    && d.maxAttempts != 0
    && i.attempts <= d.attempts && (d.attempts == i.attempts || d.attempts <= i.maxAttempts)
  }

  /** How many workers are running job u's handler. */
  function RunningOn(workers: seq<Worker>, u: nat): nat {
    if workers == [] then 0 else (if workers[0] == Running(u) then 1 else 0) + RunningOn(workers[1..], u)
  }

  /** One if the latest start of job u's handler is not an attempt used up (yet), else zero. */
  function Current(s: State, u: nat): nat {
    RunningOn(s.workers, u) + s.succeeded[u] + s.exhausted[u]
  }

  lemma {:induction false} RunningUpdate(workers: seq<Worker>, w: nat, worker: Worker, u: nat)
    requires w < |workers|
    ensures RunningOn(workers[w := worker], u) + (if workers[w] == Running(u) then 1 else 0)
         == RunningOn(workers, u) + (if worker == Running(u) then 1 else 0)
  {
    if w > 0 {
      RunningUpdate(workers[1..], w - 1, worker, u);
      assert workers[w := worker][1..] == workers[1..][w - 1 := worker];
    } else {
      assert workers[0 := worker][1..] == workers[1..];
    }
  }

  lemma {:induction false} RunningIsInHand(workers: seq<Worker>, u: nat)
    ensures RunningOn(workers, u) <= Hands(workers, u)
  {
    if workers != [] { RunningIsInHand(workers[1..], u); }
  }

  lemma {:induction false} RunningOfIdle(workers: seq<Worker>, n: nat, u: nat)
    ensures RunningOn(workers + seq(n, _ => Selecting), u) == RunningOn(workers, u)
    decreases |workers| + n
  {
    var more := seq(n, _ => Selecting);
    if workers != [] {
      RunningOfIdle(workers[1..], n, u);
      assert (workers + more)[1..] == workers[1..] + more;
    } else if n > 0 {
      RunningOfIdle([], n - 1, u);
      assert (workers + more)[1..] == [] + seq(n - 1, _ => Selecting);
    }
  }

  /** A job's handler has been started once per attempt used up, and once more for the current one;
      a job that was given up has used up all its attempts. */
  predicate AttemptsRight(d: JobData, i: JobData, runs: nat, current: nat, givenUp: nat) {
    && IsAttempt(d, i) && runs == d.attempts - i.attempts + current
    && (givenUp > 0 ==> d.attempts >= d.maxAttempts)
  }

  predicate Attempted(s: State, u: nat) {
    && u < |s.data| && u < |s.initial| && u < |s.runs|
    && AttemptsRight(s.data[u], s.initial[u], s.runs[u], Current(s, u), s.exhausted[u])
  }

  lemma SelectAttempts(s: State, w: nat, u: nat)
    requires Attempted(s, u)
    ensures Attempted(SelectStep(s, w), u)
  {
    var s' := SelectStep(s, w);
    if s' != s {
      RunningUpdate(s.workers, w, s'.workers[w], u);
      assert s'.data[u] == s.data[u] && Current(s', u) == Current(s, u);
    }
  }

  lemma PollAttempts(s: State, w: nat, now: int, u: nat)
    requires Attempted(s, u)
    ensures Attempted(PollStep(s, w, now), u)
  {
    var s' := PollStep(s, w, now);
    if s' != s {
      RunningUpdate(s.workers, w, s'.workers[w], u);
      assert s'.data[u] == s.data[u] && Current(s', u) == Current(s, u);
    }
  }

  lemma StartAttempts(s: State, w: nat, v: nat, u: nat)
    requires Attempted(s, u) && w < |s.workers| && s.workers[w] == Holding(v) && v < |s.runs|
    ensures Attempted(SetWorker(s, w, Running(v)).(runs := s.runs[v := s.runs[v] + 1]), u)
  {
    RunningUpdate(s.workers, w, Running(v), u);
  }

  lemma DropAttempts(s: State, w: nat, v: nat, u: nat)
    requires Attempted(s, u) && w < |s.workers| && s.workers[w] == Holding(v)
    ensures Attempted(SetWorker(s, w, Selecting).(dropped := s.dropped + multiset{v}), u)
  {
    RunningUpdate(s.workers, w, Selecting, u);
  }

  lemma LookupAttempts(s: State, w: nat, u: nat)
    requires Attempted(s, u)
    ensures Attempted(LookupStep(s, w), u)
  {
    if w < |s.workers| && s.workers[w].Holding? {
      var v := s.workers[w].job;
      if v < |s.data| && v < |s.runs| {
        if s.data[v].name in s.handlers { StartAttempts(s, w, v, u); } else { DropAttempts(s, w, v, u); }
      }
    }
  }

  lemma SucceedAttempts(s: State, w: nat, v: nat, u: nat)
    requires Attempted(s, u) && w < |s.workers| && s.workers[w] == Running(v)
    ensures Attempted(Succeed(s, w, v), u)
  {
    RunningUpdate(s.workers, w, Selecting, u);
    assert Current(Succeed(s, w, v), u) == Current(s, u);
  }

  lemma GiveUpAttempts(s: State, w: nat, v: nat, u: nat)
    requires Attempted(s, u) && w < |s.workers| && s.workers[w] == Running(v)
    requires v == u ==> s.data[u].attempts >= s.data[u].maxAttempts
    ensures Attempted(GiveUp(s, w, v), u)
  {
    RunningUpdate(s.workers, w, Selecting, u);
    assert Current(GiveUp(s, w, v), u) == Current(s, u);
  }

  lemma RetryAttempts(s: State, w: nat, v: nat, u: nat)
    requires Attempted(s, u) && w < |s.workers| && s.workers[w] == Running(v) && v < |s.data|
    requires s.data[v].attempts < s.data[v].maxAttempts
    ensures Attempted(Retry(s, w, v), u)
  {
    RunningUpdate(s.workers, w, Requeueing(v), u);
    assert Current(Retry(s, w, v), u) == Current(s, u) - if v == u then 1 else 0;
  }

  lemma FinishAttempts(s: State, w: nat, ok: bool, u: nat)
    requires Attempted(s, u)
    ensures Attempted(FinishStep(s, w, ok), u)
  {
    if w < |s.workers| && s.workers[w].Running? && s.workers[w].job < |s.data| {
      var v := s.workers[w].job;
      if ok {
        SucceedAttempts(s, w, v, u);
      } else if s.data[v].attempts < s.data[v].maxAttempts {
        RetryAttempts(s, w, v, u);
      } else {
        GiveUpAttempts(s, w, v, u);
      }
    }
  }

  lemma RequeueAttempts(s: State, w: nat, u: nat)
    requires Attempted(s, u)
    ensures Attempted(RequeueStep(s, w), u)
  {
    var s' := RequeueStep(s, w);
    if s' != s {
      RunningUpdate(s.workers, w, s'.workers[w], u);
      assert s'.data[u] == s.data[u] && Current(s', u) == Current(s, u);
    }
  }

  lemma EnqueueAttempts(s: State, job: JobData, u: nat)
    requires Conserved(s) && (u < |s.data| ==> Attempted(s, u)) && u <= |s.data|
    ensures Attempted(Step(s, Enqueue(job)), u)
  {
    if u == |s.data| {
      assert Places(s, u) == 0;
      RunningIsInHand(s.workers, u);
    }
  }

  lemma StepAttempts(s: State, e: Event, u: nat)
    requires Conserved(s) && (u < |s.data| ==> Attempted(s, u)) && u < |Step(s, e).data|
    ensures Attempted(Step(s, e), u)
  {
    match e
    case Select(w) => SelectAttempts(s, w, u);
    case Poll(w, now) => PollAttempts(s, w, now, u);
    case Lookup(w) => LookupAttempts(s, w, u);
    case Finish(w, ok) => FinishAttempts(s, w, ok, u);
    case Requeue(w) => RequeueAttempts(s, w, u);
    case Process(n) => RunningOfIdle(s.workers, n, u);
    case Enqueue(job) => EnqueueAttempts(s, job, u);
    case _ =>
  }

  // ---- Closing ----

  predicate HandsEmpty(worker: Worker) { worker == Selecting || worker == Exited }

  ghost predicate ClosedRight(s: State) {
    s.closeReturned ==> s.closed && forall w :: 0 <= w < |s.workers| ==> HandsEmpty(s.workers[w])
  }

  lemma {:induction false} RunInv(run: seq<Event>)
    ensures Conserved(After(run)) && ClosedRight(After(run))
    ensures forall u :: 0 <= u < |After(run).data| ==> Attempted(After(run), u)
  {
    if run != [] {
      var before, e := After(run[..|run| - 1]), run[|run| - 1];
      RunInv(run[..|run| - 1]);
      StepConserves(before, e);
      ClosedKept(before, e);
      forall u | 0 <= u < |After(run).data| ensures Attempted(After(run), u) {
        StepAttempts(before, e, u);
      }
    }
  }

  lemma ClosedKept(s: State, e: Event)
    requires ClosedRight(s)
    ensures ClosedRight(Step(s, e))
  {
  }

  /** In every run with any number of workers: each enqueued job is at all times in exactly one place
      - the queue, one worker's hands, succeeded, dropped for lack of a handler, or exhausted. */
  lemma ExactlyOnePlace(run: seq<Event>, u: nat)
    ensures var s := After(run);
      Times(s.queue, u) + Hands(s.workers, u) + s.succeeded[u] + s.dropped[u]
      + s.exhausted[u] == if u < |s.initial| then 1 else 0
  {
    RunInv(run);
    assert Places(After(run), u) == if u < |After(run).initial| then 1 else 0;
  }

  lemma BoundFromAttempts(s: State, u: nat)
    requires Conserved(s) && Attempted(s, u)
    ensures var left := s.initial[u].maxAttempts - s.initial[u].attempts;
      var bound := (if left > 0 then left else 0) + 1;
      s.runs[u] <= bound && (u in s.exhausted ==> s.runs[u] == bound)
  {
    RunningIsInHand(s.workers, u);
    assert Places(s, u) == 1;
  }

  /** A job's handler is started at most max_attempts - attempts + 1 times (counted from its first
      enqueue, and once if it had no attempts left), and exactly that often before it is given up. */
  lemma AttemptsBounded(run: seq<Event>, u: nat)
    requires u < |After(run).initial|
    ensures var s := After(run);
      && u < |s.runs|
      && var left := s.initial[u].maxAttempts - s.initial[u].attempts;
         var bound := (if left > 0 then left else 0) + 1;
         s.runs[u] <= bound && (u in s.exhausted ==> s.runs[u] == bound)
  {
    RunInv(run);
    BoundFromAttempts(After(run), u);
  }

  lemma {:induction false} HolderOf(workers: seq<Worker>, u: nat) returns (w: nat)
    requires Hands(workers, u) > 0
    ensures w < |workers| && Holds(workers[w], u)
  {
    if Holds(workers[0], u) {
      w := 0;
    } else {
      w := HolderOf(workers[1..], u);
      w := w + 1;
    }
  }

  /** Once `Close` has returned, no worker holds, runs or re-enqueues a job, now or ever after. */
  lemma NothingHeldAfterClose(run: seq<Event>, more: seq<Event>, u: nat)
    requires After(run).closeReturned
    ensures Hands(After(run + more).workers, u) == 0
  {
    StaysClosed(run, more);
    RunInv(run + more);
    var s := After(run + more);
    if Hands(s.workers, u) > 0 {
      var w := HolderOf(s.workers, u);
      assert false;
    }
  }

  lemma CloseIsFinal(s: State, e: Event)
    requires s.closeReturned
    ensures Step(s, e).closeReturned
  {
  }

  lemma AfterOneMore(run: seq<Event>, e: Event)
    ensures After(run + [e]) == Step(After(run), e)
  {
    assert (run + [e])[..|run|] == run;
  }

  /** A continuation ends with its last step. */
  lemma AfterLast(run: seq<Event>, more: seq<Event>)
    requires more != []
    ensures After(run + more) == Step(After(run + more[..|more| - 1]), more[|more| - 1])
  {
    var before, e := more[..|more| - 1], more[|more| - 1];
    assert run + more == (run + before) + [e];
    AfterOneMore(run + before, e);
  }

  lemma {:induction false} StaysClosed(run: seq<Event>, more: seq<Event>)
    requires After(run).closeReturned
    ensures After(run + more).closeReturned
  {
    if more == [] {
      assert run + more == run;
    } else {
      StaysClosed(run, more[..|more| - 1]);
      AfterLast(run, more);
      CloseIsFinal(After(run + more[..|more| - 1]), more[|more| - 1]);
    }
  }
}
