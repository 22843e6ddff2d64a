/** One worker of `MemoryQueue` among others: a turn it takes alone is the turn of the object. */
module WorkerTurn {
  import opened WorkerQueue

  predicate Known(s: State) { |s.runs| == |s.data| && InRange(s.queue, s.data) }

  ghost predicate Distinct(list: seq<nat>) {
    forall i, j :: 0 <= i < j < |list| ==> list[i] != list[j]
  }

  /** The five steps of a turn; those that do not apply are not enabled. */
  function Alone(s: State, w: nat, ok: bool, now: int): State {
    RequeueStep(FinishStep(LookupStep(PollStep(SelectStep(s, w), w, now), w), w, ok), w)
  }

  /** After the poll: the worker holds the first due job, or is back at its select. */
  lemma PollsFirstDue(s: State, w: nat, now: int)
    requires Known(s) && Distinct(s.queue)
    requires w < |s.workers| && s.workers[w] == Selecting && !s.closed && !s.cancelled
    ensures var i := DueAt(Contents(s.queue, s.data), now);
      PollStep(SelectStep(s, w), w, now) ==
      if i == |s.queue| then s else SetWorker(s, w, Holding(s.queue[i])).(queue := s.queue[..i] + s.queue[i + 1..])
  {
    var i := DueAt(Contents(s.queue, s.data), now);
    assert s.workers[w := Polling][w := Selecting] == s.workers;
    if i < |s.queue| {
      assert s.workers[w := Polling][w := Holding(s.queue[i])] == s.workers[w := Holding(s.queue[i])];
    }
  }

  /** What the history records for a verdict on job u. */
  ghost predicate Recorded(s: State, s': State, u: nat, verdict: Verdict) {
    && s'.dropped == s.dropped + (if verdict == NoHandler then multiset{u} else multiset{})
    && s'.succeeded == s.succeeded + (if verdict == Success then multiset{u} else multiset{})
    && s'.exhausted == s.exhausted + (if verdict == Exhausted then multiset{u} else multiset{})
  }

  /** Nothing but the history and the worker changes. */
  ghost predicate Settled(s: State, s': State, w: nat, u: nat, verdict: Verdict) {
    w < |s.workers| && s'.workers == s.workers[w := Selecting] && s'.queue == s.queue && s'.data == s.data
    && |s'.runs| == |s.runs| && Recorded(s, s', u, verdict)
  }

  lemma FinishesJob(s: State, w: nat, u: nat, ok: bool)
    requires |s.runs| == |s.data| && u < |s.data| && w < |s.workers| && s.workers[w] == Holding(u)
    requires s.data[u].name in s.handlers && (ok || s.data[u].attempts >= s.data[u].maxAttempts)
    ensures Settled(s, RequeueStep(FinishStep(LookupStep(s, w), w, ok), w), w, u, if ok then Success else Exhausted)
  {
    assert s.workers[w := Running(u)][w := Selecting] == s.workers[w := Selecting];
  }

  lemma DropsJob(s: State, w: nat, u: nat, ok: bool)
    requires |s.runs| == |s.data| && u < |s.data| && w < |s.workers| && s.workers[w] == Holding(u)
    requires s.data[u].name !in s.handlers
    ensures Settled(s, RequeueStep(FinishStep(LookupStep(s, w), w, ok), w), w, u, NoHandler)
  {
  }

  /** A job that failed with attempts left, on its way back to the queue. */
  lemma FailsJob(s: State, w: nat, u: nat)
    requires |s.runs| == |s.data| && u < |s.data| && w < |s.workers| && s.workers[w] == Holding(u)
    requires s.data[u].name in s.handlers && s.data[u].attempts < s.data[u].maxAttempts
    ensures var s' := FinishStep(LookupStep(s, w), w, false);
      && s'.workers == s.workers[w := Requeueing(u)] && s'.queue == s.queue && |s'.runs| == |s.runs|
      && s'.data == s.data[u := s.data[u].(attempts := s.data[u].attempts + 1)] && Recorded(s, s', u, WillRetry)
  {
    assert s.workers[w := Running(u)][w := Requeueing(u)] == s.workers[w := Requeueing(u)];
  }

  lemma SettledKeeps(s: State, s': State, w: nat, u: nat, verdict: Verdict)
    requires Known(s) && Settled(s, s', w, u, verdict)
    ensures Known(s') && Contents(s'.queue, s'.data) == Contents(s.queue, s.data)
    ensures Recorded(s, s', u, verdict) && s'.workers == s.workers[w := Selecting]
  {
  }

  /** From a job in hand to the end of the turn. */
  lemma HandlesJob(s: State, w: nat, u: nat, ok: bool)
    requires Known(s) && u < |s.data| && u !in s.queue
    requires w < |s.workers| && s.workers[w] == Holding(u)
    ensures var s' := RequeueStep(FinishStep(LookupStep(s, w), w, ok), w);
      var (list, verdict) := Handle(Contents(s.queue, s.data), s.data[u], s.handlers, ok);
      && Known(s') && Contents(s'.queue, s'.data) == list && Recorded(s, s', u, verdict)
      && s'.workers == s.workers[w := Selecting]
  {
    if s.data[u].name !in s.handlers {
      DropsJob(s, w, u, ok);
      SettledKeeps(s, RequeueStep(FinishStep(LookupStep(s, w), w, ok), w), w, u, NoHandler);
    } else if ok || s.data[u].attempts >= s.data[u].maxAttempts {
      FinishesJob(s, w, u, ok);
      SettledKeeps(s, RequeueStep(FinishStep(LookupStep(s, w), w, ok), w), w, u, if ok then Success else Exhausted);
    } else {
      RetriesJob(s, w, u);
    }
  }

  lemma RetriesJob(s: State, w: nat, u: nat)
    requires Known(s) && u < |s.data| && u !in s.queue && w < |s.workers| && s.workers[w] == Holding(u)
    requires s.data[u].name in s.handlers && s.data[u].attempts < s.data[u].maxAttempts
    ensures var s' := RequeueStep(FinishStep(LookupStep(s, w), w, false), w); var job := s.data[u];
      && Known(s') && Recorded(s, s', u, WillRetry) && s'.workers == s.workers[w := Selecting]
      && Contents(s'.queue, s'.data) == Contents(s.queue, s.data) + [WithDefaults(job.(attempts := job.attempts + 1))]
  {
    FailsJob(s, w, u);
    var s2 := FinishStep(LookupStep(s, w), w, false);
    RequeuesJob(s2, w, u);
    assert Contents(s.queue, s2.data) == Contents(s.queue, s.data);
    assert s.workers[w := Requeueing(u)][w := Selecting] == s.workers[w := Selecting];
  }

  lemma RequeuesJob(s: State, w: nat, u: nat)
    requires Known(s) && u < |s.data| && u !in s.queue
    requires w < |s.workers| && s.workers[w] == Requeueing(u)
    ensures var s' := RequeueStep(s, w);
      && Known(s') && Contents(s'.queue, s'.data) == Contents(s.queue, s.data) + [WithDefaults(s.data[u])]
      && s'.workers == s.workers[w := Selecting]
      && s'.dropped == s.dropped && s'.succeeded == s.succeeded && s'.exhausted == s.exhausted
  {
    assert forall i :: 0 <= i < |s.queue| ==> s.queue[i] != u;
  }

  lemma ContentsWithout(queue: seq<nat>, data: seq<JobData>, i: nat)
    requires InRange(queue, data) && i < |queue| && Distinct(queue)
    ensures var rest := queue[..i] + queue[i + 1..];
      && InRange(rest, data) && queue[i] !in rest
      && Contents(rest, data) == Contents(queue, data)[..i] + Contents(queue, data)[i + 1..]
  {
  }

  /** A worker that takes a whole turn while no other party moves does to the queued jobs what
      `WorkerTurn` does, records the verdict, and is back at its select. */
  lemma TurnAgrees(s: State, w: nat, ok: bool, now: int)
    requires Known(s) && Distinct(s.queue)
    requires w < |s.workers| && s.workers[w] == Selecting && !s.closed && !s.cancelled
    ensures var s' := Alone(s, w, ok, now); var list := Contents(s.queue, s.data); var i := DueAt(list, now);
      && Known(s') && s'.workers == s.workers
      && Contents(s'.queue, s'.data) == Turn(list, s.handlers, ok, now).0
      && (i == |list| ==> s' == s)
      && (i < |list| ==> Recorded(s, s', s.queue[i], Turn(list, s.handlers, ok, now).1))
  {
    var list := Contents(s.queue, s.data);
    var i := DueAt(list, now);
    PollsFirstDue(s, w, now);
    if i < |list| {
      var u := s.queue[i];
      ContentsWithout(s.queue, s.data, i);
      var s1 := SetWorker(s, w, Holding(u)).(queue := s.queue[..i] + s.queue[i + 1..]);
      HandlesJob(s1, w, u, ok);
      assert s.workers[w := Holding(u)][w := Selecting] == s.workers;
    }
  }

  // ---- In every run ----

  lemma {:induction false} ListedIsCounted(list: seq<nat>, i: nat)
    requires i < |list|
    ensures Times(list, list[i]) >= 1
    ensures forall j :: i < j < |list| && list[j] == list[i] ==> Times(list, list[i]) >= 2
  {
    var n := |list| - 1;
    if i < n { ListedIsCounted(list[..n], i); }
    forall j | i < j < |list| && list[j] == list[i] ensures Times(list, list[i]) >= 2 {
      if j < n { assert list[..n][j] == list[i]; }
    }
  }

  /** The queue of every reachable state lists known jobs, none of them twice. */
  lemma ReachableQueue(run: seq<Event>)
    ensures var s := After(run); Known(s) && Distinct(s.queue)
  {
    RunInv(run);
    var s := After(run);
    forall i | 0 <= i < |s.queue| ensures s.queue[i] < |s.data| {
      ListedIsCounted(s.queue, i);
      assert Places(s, s.queue[i]) >= 1;
    }
    forall i, j | 0 <= i < j < |s.queue| ensures s.queue[i] != s.queue[j] {
      ListedIsCounted(s.queue, i);
      assert Places(s, s.queue[i]) <= 1;
    }
  }

  /** After any run, a selecting worker of an open queue that takes a turn alone does what `WorkerTurn`
      does to the jobs that are queued then. */
  lemma TurnAgreesInRuns(run: seq<Event>, w: nat, ok: bool, now: int)
    requires var s := After(run); w < |s.workers| && s.workers[w] == Selecting && !s.closed && !s.cancelled
    ensures var s := After(run); var s' := Alone(s, w, ok, now);
      && Known(s) && Known(s') && s'.workers == s.workers
      && var list := Contents(s.queue, s.data); var (rest, verdict) := Turn(list, s.handlers, ok, now);
        var i := DueAt(list, now);
      && Contents(s'.queue, s'.data) == rest
      && (if i == |list| then s' == s else Recorded(s, s', s.queue[i], verdict))
  {
    ReachableQueue(run);
    TurnAgrees(After(run), w, ok, now);
  }
}
