/** What single steps of `MemoryQueue` (queue/queue.go) do to a job, in every run: which job a poll takes,
    where a job ends and why, and that what a handler gets is what was enqueued. */
module WorkerLaws {
  import opened Common
  import opened WorkerQueue
  import opened WorkerTurn
  import opened WorkerMeasure

  /** In every run a worker that polls at `now` takes the first job that has no time to run at or one before
      `now`, and there is such a job exactly if it takes any: a job whose time is still to come is never
      taken, and one whose time has come never makes a poll return empty-handed. */
  lemma PollTakesFirstDue(run: seq<Event>, w: nat, now: int)
    requires w < |After(run).workers| && After(run).workers[w] == Polling
    ensures var s := After(run); var s' := Step(s, Poll(w, now));
      && InRange(s.queue, s.data) && w < |s'.workers|
      && (if s'.workers[w].Holding? then
            exists i :: && 0 <= i < |s.queue| && s'.workers[w] == Holding(s.queue[i])
                        && (s.data[s.queue[i]].runAt.None? || s.data[s.queue[i]].runAt.value < now)
                        && (forall j :: 0 <= j < i ==>
                              s.data[s.queue[j]].runAt.Some? && s.data[s.queue[j]].runAt.value >= now)
                        && s'.queue == s.queue[..i] + s.queue[i + 1..]
          else
            && s'.workers[w] == Selecting && s'.queue == s.queue
            && forall j :: 0 <= j < |s.queue| ==>
                 s.data[s.queue[j]].runAt.Some? && s.data[s.queue[j]].runAt.value >= now)
  {
    ReachableQueue(run);
    var s := After(run);
    var i := DueAt(Contents(s.queue, s.data), now);
    FirstDue(s, i, now);
    if i < |s.queue| {
      assert Step(s, Poll(w, now)) == Take(s, w, i);
    } else {
      assert Step(s, Poll(w, now)) == SetWorker(s, w, Selecting);
    }
  }

  lemma FirstDue(s: State, i: nat, now: int)
    requires InRange(s.queue, s.data) && i == DueAt(Contents(s.queue, s.data), now)
    ensures i <= |s.queue|
    ensures i < |s.queue| ==> s.data[s.queue[i]].runAt.None? || s.data[s.queue[i]].runAt.value < now
    ensures forall j :: 0 <= j < i ==> s.data[s.queue[j]].runAt.Some? && s.data[s.queue[j]].runAt.value >= now
  {
    var list := Contents(s.queue, s.data);
    assert forall j :: 0 <= j < |list| ==> list[j] == s.data[s.queue[j]];
  }

  /** Where a job ends, and why: it succeeds when its handler returns without an error, is exhausted when that
      fails with no attempts left, and dropped when its name has no handler; a failure with attempts left
      only counts one, and each lookup of a registered name starts the handler once. */
  lemma StepEnds(s: State, e: Event, u: nat)
    requires |s.data| == |s.initial| == |s.runs| && u < |s.data|
    ensures var s' := Step(s, e);
      && u < |s'.data| && u < |s'.runs|
      && var back := e.Finish? && e.w < |s.workers| && s.workers[e.w] == Running(u);
         var looks := e.Lookup? && e.w < |s.workers| && s.workers[e.w] == Holding(u);
      && s'.succeeded[u] == s.succeeded[u] + (if back && e.ok then 1 else 0)
      && s'.exhausted[u]
         == s.exhausted[u] + (if back && !e.ok && s.data[u].attempts >= s.data[u].maxAttempts then 1 else 0)
      && s'.dropped[u] == s.dropped[u] + (if looks && s.data[u].name !in s.handlers then 1 else 0)
      && s'.runs[u] == s.runs[u] + (if looks && s.data[u].name in s.handlers then 1 else 0)
      && s'.data[u].attempts
         == s.data[u].attempts + (if back && !e.ok && s.data[u].attempts < s.data[u].maxAttempts then 1 else 0)
  {
    match e
    case Finish(w, ok) => FinishEnds(s, w, ok, u);
    case Lookup(w) => LookupEnds(s, w, u);
    case Poll(w, now) => PollEndsNothing(s, w, now);
    case _ =>
  }

  lemma PollEndsNothing(s: State, w: nat, now: int)
    ensures var s' := PollStep(s, w, now);
      && s'.succeeded == s.succeeded && s'.exhausted == s.exhausted && s'.dropped == s.dropped
      && s'.runs == s.runs && s'.data == s.data
  {
  }

  lemma FinishEnds(s: State, w: nat, ok: bool, u: nat)
    requires |s.data| == |s.runs| && u < |s.data|
    ensures var s' := FinishStep(s, w, ok);
      && u < |s'.data| && s'.runs == s.runs && s'.dropped == s.dropped
      && var back := w < |s.workers| && s.workers[w] == Running(u);
      && s'.succeeded[u] == s.succeeded[u] + (if back && ok then 1 else 0)
      && s'.exhausted[u]
         == s.exhausted[u] + (if back && !ok && s.data[u].attempts >= s.data[u].maxAttempts then 1 else 0)
      && s'.data[u].attempts
         == s.data[u].attempts + (if back && !ok && s.data[u].attempts < s.data[u].maxAttempts then 1 else 0)
  {
  }

  lemma LookupEnds(s: State, w: nat, u: nat)
    requires |s.data| == |s.runs| && u < |s.data|
    ensures var s' := LookupStep(s, w);
      && u < |s'.runs| && s'.data == s.data
      && s'.succeeded == s.succeeded && s'.exhausted == s.exhausted
      && var looks := w < |s.workers| && s.workers[w] == Holding(u);
      && s'.dropped[u] == s.dropped[u] + (if looks && s.data[u].name !in s.handlers then 1 else 0)
      && s'.runs[u] == s.runs[u] + (if looks && s.data[u].name in s.handlers then 1 else 0)
  {
  }

  /** In every run job u is the u-th one that was enqueued from outside, with the name, payload and time it
      was enqueued with, and three attempts if it asked for none. */
  lemma {:induction false} RunsAsEnqueued(run: seq<Event>, u: nat) returns (i: nat)
    requires u < |After(run).data|
    ensures i < |run| && run[i].Enqueue? && |After(run[..i]).data| == u
    ensures var job, data := run[i].job, After(run).data[u];
      && data.name == job.name && data.payload == job.payload && data.runAt == job.runAt
      && data.maxAttempts == if job.maxAttempts == 0 then 3 else job.maxAttempts
  {
    var n := |run| - 1;
    var before, e := After(run[..n]), run[n];
    RunInv(run);
    RunInv(run[..n]);
    StepSizes(before, e);
    if u < |before.data| {
      i := RunsAsEnqueued(run[..n], u);
      assert run[..n][..i] == run[..i];
      assert Attempted(before, u) && Attempted(After(run), u);
      InitialKept(before, e);
    } else {
      i := n;
    }
  }

  /** What the callers of the queue do: a registered name is known from then on, `Process` starts that many workers,
      and a selecting worker leaves exactly once the queue is closed or its context done. */
  lemma ControlSteps(s: State, name: string, n: nat, w: nat)
    ensures Step(s, RegisterHandler(name)) == s.(handlers := s.handlers + {name})
    ensures Step(s, Process(n)).workers == s.workers + seq(n, _ => Selecting) && Step(s, Process(n)).queue == s.queue
    ensures Step(s, Close).closed && Step(s, Cancel).cancelled
    ensures w < |s.workers| && s.workers[w] == Selecting ==>
      Step(s, Select(w)) == s.(workers := s.workers[w := if s.closed || s.cancelled then Exited else Polling])
  {
  }

  function Selects(n: nat): (run: seq<Event>)
    ensures |run| == n
  {
    if n == 0 then [] else Selects(n - 1) + [Select(n - 1)]
  }

  /** `Close` can return: once no worker has a job, each leaves at its next select, the queue is left as it is,
      and then the wait is over. */
  lemma CloseCanReturn(run: seq<Event>)
    requires forall w :: 0 <= w < |After(run).workers| ==>
      After(run).workers[w] == Selecting || After(run).workers[w] == Exited
    ensures var s := After(run); var s' := After(run + ([Close] + Selects(|s.workers|) + [CloseReturns]));
      && s'.closeReturned && s'.queue == s.queue && s'.data == s.data
      && forall w :: 0 <= w < |s'.workers| ==> s'.workers[w] == Exited
  {
    var n := |After(run).workers|;
    var more := [Close] + Selects(n) + [CloseReturns];
    RunsToLeft(run, n);
    AllLeave(After(run), n);
    AfterLast(run, more);
    assert more[..|more| - 1] == [Close] + Selects(n);
    Returns(After(run), After(run + ([Close] + Selects(n))), n);
  }

  lemma Returns(s: State, left: State, n: nat)
    requires n == |s.workers| && left == s.(closed := true, workers := seq(n, _ => Exited) + s.workers[n..])
    ensures Step(left, CloseReturns) == left.(closeReturned := true)
    ensures forall w :: 0 <= w < |left.workers| ==> left.workers[w] == Exited
  {
  }

  /** The state after a close and the selects of the first n workers. */
  function Left(s: State, n: nat): State {
    if n == 0 then Step(s, Close) else Step(Left(s, n - 1), Select(n - 1))
  }

  lemma {:induction false} RunsToLeft(run: seq<Event>, n: nat)
    ensures After(run + ([Close] + Selects(n))) == Left(After(run), n)
  {
    AfterLast(run, [Close] + Selects(n));
    if n == 0 {
      assert ([Close] + Selects(0))[..0] == [] && run + [] == run;
    } else {
      RunsToLeft(run, n - 1);
      assert ([Close] + Selects(n))[..n] == [Close] + Selects(n - 1);
    }
  }

  /** The first n workers have left. */
  lemma {:induction false} AllLeave(s: State, n: nat)
    requires n <= |s.workers|
    requires forall w :: 0 <= w < |s.workers| ==> s.workers[w] == Selecting || s.workers[w] == Exited
    ensures Left(s, n) == s.(closed := true, workers := seq(n, _ => Exited) + s.workers[n..])
  {
    if n == 0 {
      assert seq(0, _ => Exited) + s.workers[0..] == s.workers;
    } else {
      AllLeave(s, n - 1);
      OneLeaves(s.workers, n);
      SelectLeaves(Left(s, n - 1), n - 1);
    }
  }

  lemma OneLeaves(workers: seq<Worker>, n: nat)
    requires 0 < n <= |workers|
    ensures var before := seq(n - 1, _ => Exited) + workers[n - 1..];
      before[n - 1] == workers[n - 1] && before[n - 1 := Exited] == seq(n, _ => Exited) + workers[n..]
  {
  }

  lemma SelectLeaves(s: State, w: nat)
    requires w < |s.workers| && s.closed && (s.workers[w] == Selecting || s.workers[w] == Exited)
    ensures Step(s, Select(w)) == s.(workers := s.workers[w := Exited])
  {
    if s.workers[w] == Exited { assert s.workers[w := Exited] == s.workers; }
  }
}
