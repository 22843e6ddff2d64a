/** How much work `MemoryQueue` (queue/queue.go) can still do: a measure of the handler starts left. */
module WorkerMeasure {
  import opened Common
  import opened WorkerQueue

  /** Job u is still queued or in a worker's hands. */
  predicate Unfinished(s: State, u: nat) { Times(s.queue, u) + Hands(s.workers, u) > 0 }

  /** The starts job u has left: one for each retry it is allowed and one more, but for the one under way. */
  function StartsLeft(s: State, u: nat): int {
    if u < |s.data| && Unfinished(s, u)
    then Max(0, s.data[u].maxAttempts - s.data[u].attempts) + 1 - RunningOn(s.workers, u) else 0
  }

  function Starts(s: State, u: nat): nat { if u < |s.runs| then s.runs[u] else 0 }

  function TotalLeft(s: State, n: nat): int { if n == 0 then 0 else TotalLeft(s, n - 1) + StartsLeft(s, n - 1) }

  function TotalStarts(s: State, n: nat): nat { if n == 0 then 0 else TotalStarts(s, n - 1) + Starts(s, n - 1) }

  function Bound(initial: JobData): int { Max(0, initial.maxAttempts - initial.attempts) + 1 }

  /** An unfinished job's starts and those it has left make up its bound, a finished one stays below. */
  lemma Budget(s: State, u: nat)
    requires Conserved(s) && Attempted(s, u)
    ensures StartsLeft(s, u) >= 0 && StartsLeft(s, u) + Starts(s, u) <= Bound(s.initial[u])
    ensures Unfinished(s, u) ==> StartsLeft(s, u) + Starts(s, u) == Bound(s.initial[u])
  {
    assert Places(s, u) == 1;
    RunningIsInHand(s.workers, u);
    BoundFromAttempts(s, u);
  }

  lemma FinishedNotStarted(s: State, e: Event, u: nat)
    requires |s.runs| == |s.data| && u < |s.data| && Hands(s.workers, u) == 0
    ensures Starts(Step(s, e), u) == Starts(s, u)
  {
    if e.Lookup? {
      if e.w < |s.workers| && s.workers[e.w] == Holding(u) { HandsUpdate(s.workers, e.w, Selecting, u); }
    } else {
      OthersStartNothing(s, e, u);
    }
  }

  lemma OthersStartNothing(s: State, e: Event, u: nat)
    requires !e.Lookup? && (e.Enqueue? ==> u < |s.runs|)
    ensures Starts(Step(s, e), u) == Starts(s, u)
  {
    match e
    case Poll(w, now) => PollSizes(s, w, now);
    case _ =>
  }

  /** A finished job is not started again. */
  lemma FinishedStays(s: State, e: Event, u: nat)
    requires Conserved(s) && u < |s.data| && !Unfinished(s, u)
    ensures Starts(Step(s, e), u) == Starts(s, u) && !Unfinished(Step(s, e), u)
  {
    StepConserves(s, e);
    assert Places(s, u) == 1;
    FinishedNotStarted(s, e, u);
    StepGrows(s, e);
    var s' := Step(s, e);
    assert s'.succeeded[u] >= s.succeeded[u] && s'.dropped[u] >= s.dropped[u] && s'.exhausted[u] >= s.exhausted[u];
    assert Places(s', u) == 1;
  }

  predicate Grows(s: State, s': State) {
    s.succeeded <= s'.succeeded && s.dropped <= s'.dropped && s.exhausted <= s'.exhausted
  }

  lemma PollGrows(s: State, w: nat, now: int)
    ensures Grows(s, PollStep(s, w, now))
  {
  }

  lemma FinishGrows(s: State, w: nat, ok: bool)
    ensures Grows(s, FinishStep(s, w, ok))
  {
  }

  lemma StepGrows(s: State, e: Event)
    ensures Grows(s, Step(s, e))
  {
    match e
    case Poll(w, now) => PollGrows(s, w, now);
    case Finish(w, ok) => FinishGrows(s, w, ok);
    case _ =>
  }

  /** Only an enqueue from outside adds to what is known of the jobs as first enqueued. */
  lemma InitialKept(s: State, e: Event)
    ensures s.initial <= Step(s, e).initial && (!e.Enqueue? ==> Step(s, e).initial == s.initial)
  {
    match e
    case Poll(w, now) => PollInitial(s, w, now);
    case Finish(w, ok) => FinishInitial(s, w, ok);
    case _ =>
  }

  lemma PollInitial(s: State, w: nat, now: int)
    ensures PollStep(s, w, now).initial == s.initial
  {
  }

  lemma FinishInitial(s: State, w: nat, ok: bool)
    ensures FinishStep(s, w, ok).initial == s.initial
  {
  }

  predicate NoEnqueue(run: seq<Event>) { forall i :: 0 <= i < |run| ==> !run[i].Enqueue? }

  /** A continuation, one step shorter and the step. */
  lemma OneStepBack(run: seq<Event>, more: seq<Event>)
    requires more != []
    ensures var before, e := more[..|more| - 1], more[|more| - 1];
      After(run + more) == Step(After(run + before), e) && (NoEnqueue(more) ==> NoEnqueue(before) && !e.Enqueue?)
  {
    AfterLast(run, more);
  }

  lemma {:induction false} SameJobs(run: seq<Event>, more: seq<Event>)
    requires NoEnqueue(more)
    ensures After(run + more).initial == After(run).initial
    decreases |more|
  {
    if more == [] {
      assert run + more == run;
    } else {
      var before, e := more[..|more| - 1], more[|more| - 1];
      OneStepBack(run, more);
      SameJobs(run, before);
      InitialKept(After(run + before), e);
    }
  }

  /** Without new jobs no job gains starts: what it has left and what it has used only shrinks. */
  lemma {:induction false} JobBudget(run: seq<Event>, more: seq<Event>, u: nat)
    requires u < |After(run).data| && NoEnqueue(more)
    ensures var s, s' := After(run), After(run + more);
      && StartsLeft(s', u) + Starts(s', u) <= StartsLeft(s, u) + Starts(s, u)
      && (!Unfinished(s, u) ==> !Unfinished(s', u) && Starts(s', u) == Starts(s, u))
    decreases |more|
  {
    var s := After(run);
    RunInv(run);
    if more == [] {
      assert run + more == run;
    } else {
      var before, e := more[..|more| - 1], more[|more| - 1];
      OneStepBack(run, more);
      JobBudget(run, before, u);
      SameJobs(run, before);
      SameJobs(run, more);
      var mid, s' := After(run + before), After(run + more);
      RunInv(run + before);
      RunInv(run + more);
      assert |mid.data| == |mid.initial| && |s'.data| == |s'.initial|;
      Budget(s', u);
      if Unfinished(s, u) { Budget(s, u); } else { FinishedStays(mid, e, u); }
    }
  }

  lemma {:induction false} TotalsShrink(s: State, s': State, n: nat)
    requires forall u: nat :: u < n ==> StartsLeft(s', u) + Starts(s', u) <= StartsLeft(s, u) + Starts(s, u)
    ensures TotalLeft(s', n) + TotalStarts(s', n) <= TotalLeft(s, n) + TotalStarts(s, n)
  {
    if n > 0 { TotalsShrink(s, s', n - 1); }
  }

  lemma {:induction false} LeftNotNegative(s: State, n: nat)
    requires forall u: nat :: u < n ==> StartsLeft(s, u) >= 0
    ensures TotalLeft(s, n) >= 0
  {
    if n > 0 { LeftNotNegative(s, n - 1); }
  }

  /** With no outside enqueue, in every continuation of every run with any number of workers: the
      handler starts made meanwhile and those left after it are at most those left before - the sum of
      max(0, MaxAttempts - Attempts) + 1 over the jobs queued or held - so that many starts is the most
      there can be. */
  lemma StartsBounded(run: seq<Event>, more: seq<Event>)
    requires NoEnqueue(more)
    ensures var s, s', n := After(run), After(run + more), |After(run).data|;
      && |s'.data| == n
      && TotalStarts(s', n) - TotalStarts(s, n) + TotalLeft(s', n) <= TotalLeft(s, n)
      && TotalStarts(s', n) - TotalStarts(s, n) <= TotalLeft(s, n)
  {
    var s, s', n := After(run), After(run + more), |After(run).data|;
    RunInv(run);
    RunInv(run + more);
    SameJobs(run, more);
    forall u: nat | u < n ensures StartsLeft(s', u) + Starts(s', u) <= StartsLeft(s, u) + Starts(s, u) {
      JobBudget(run, more, u);
    }
    TotalsShrink(s, s', n);
    forall u: nat | u < n ensures StartsLeft(s', u) >= 0 { Budget(s', u); }
    LeftNotNegative(s', n);
  }

  /** A lookup that starts a handler is one start. */
  predicate StartsHandler(s: State, w: nat) {
    && w < |s.workers| && s.workers[w].Holding? && s.workers[w].job < |s.data| == |s.runs|
    && s.data[s.workers[w].job].name in s.handlers
  }

  lemma {:induction false} OneMoreStart(s: State, w: nat, n: nat)
    requires StartsHandler(s, w) && n <= |s.data|
    ensures TotalStarts(Step(s, Lookup(w)), n) == TotalStarts(s, n) + if s.workers[w].job < n then 1 else 0
  {
    if n > 0 { OneMoreStart(s, w, n - 1); }
  }

  /** The measure falls with every start of a handler, and with no step but an outside enqueue rises. */
  lemma EachStartLowers(run: seq<Event>, e: Event)
    requires !e.Enqueue?
    ensures var s, s', n := After(run), After(run + [e]), |After(run).data|;
      TotalLeft(s', n) + (if e.Lookup? && StartsHandler(s, e.w) then 1 else 0) <= TotalLeft(s, n)
  {
    var s, s', n := After(run), After(run + [e]), |After(run).data|;
    StartsBounded(run, [e]);
    AfterOneMore(run, e);
    StartsOnlyGrow(s, e, n);
    if e.Lookup? && StartsHandler(s, e.w) { OneMoreStart(s, e.w, n); }
  }

  lemma {:induction false} StartsOnlyGrow(s: State, e: Event, n: nat)
    requires !e.Enqueue?
    ensures TotalStarts(Step(s, e), n) >= TotalStarts(s, n)
  {
    if n > 0 {
      StartsOnlyGrow(s, e, n - 1);
      if !e.Lookup? { OthersStartNothing(s, e, n - 1); }
    }
  }
}
