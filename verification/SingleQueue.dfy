/** The job queue of core/runtime/jobs/queue.go: a buffered channel and one worker goroutine. */
module SingleQueue {
  import opened Common

  const CAPACITY := 128

  datatype Status = QUEUED | RUNNING | DONE | FAILED

  datatype JobData = JobData(handler: string, args: Bytes, status: Status, result: Option<Bytes>, error: string)

  /** What the executor returns for a job. */
  datatype Outcome = Returns(result: Bytes) | Errors(message: string)

  function NewJob(handler: string, args: Bytes): JobData {
    JobData(handler, args, QUEUED, None, "")
  }

  function Finished(job: JobData, outcome: Outcome): JobData {
    match outcome
    case Returns(result) => job.(status := DONE, result := Some(result))
    case Errors(message) => job.(status := FAILED, error := message)
  }

  // ---- The queue as it is written ----

  class Job {
    var data: JobData

    constructor (data: JobData)
      ensures this.data == data
    {
      this.data := data;
    }
  }

  class Queue {
    var jobs: map<string, Job>
    var channel: seq<Job>

    constructor ()
      ensures jobs == map[] && channel == []
    {
      jobs, channel := map[], [];
    }

    /** `id` is the new random id. The send blocks while the channel is full, so it comes later. */
    method Enqueue(id: string, handler: string, args: Bytes) returns (job: Job)
      requires |channel| < CAPACITY
      modifies this
      ensures fresh(job) && job.data == JobData(handler, args, QUEUED, None, "")
      ensures jobs == old(jobs)[id := job] && channel == old(channel) + [job]
    {
      job := new Job(NewJob(handler, args));
      jobs := jobs[id := job];
      channel := channel + [job];
    }

    /** A copy of the job, so that later changes to the job do not show in it. */
    method Get(id: string) returns (snapshot: Option<JobData>)
      ensures snapshot == if id in jobs then Some(jobs[id].data) else None
    {
      if id in jobs {
        snapshot := Some(jobs[id].data);
      } else {
        snapshot := None;
      }
    }

    /** One turn of the loop: the oldest job is run to its end. */
    method Execute(outcome: Outcome) returns (job: Job)
      requires channel != []
      modifies this, channel
      ensures job == old(channel)[0] && channel == old(channel)[1..] && jobs == old(jobs)
      ensures match outcome
              case Returns(result) => job.data == old(channel[0].data).(status := DONE, result := Some(result))
              case Errors(message) => job.data == old(channel[0].data).(status := FAILED, error := message)
      ensures forall j :: j in old(channel) && j != job ==> j.data == old(j.data)
    {
      job := channel[0];
      channel := channel[1..];
      job.data := job.data.(status := RUNNING);
      match outcome
      case Returns(result) =>
        job.data := job.data.(status := DONE);
        job.data := job.data.(result := Some(result));
      case Errors(message) =>
        job.data := job.data.(status := FAILED);
        job.data := job.data.(error := message);
    }
  }

  /** A job is found as queued from its submission on, however many jobs before it are run meanwhile with
      whatever outcomes, and then as finished with the outcome of its own turn - the one after theirs. */
  method SubmitAndDrain(q: Queue, id: string, handler: string, args: Bytes, outcomes: seq<Outcome>)
    returns (snapshots: seq<Option<JobData>>)
    requires |q.channel| < CAPACITY && |outcomes| == |q.channel| + 1
    modifies q, q.channel
    ensures q.channel == [] && |snapshots| == |outcomes| + 1
    ensures forall i :: 0 <= i < |outcomes| ==> snapshots[i] == Some(JobData(handler, args, QUEUED, None, ""))
    ensures snapshots[|outcomes|] == Some(
      match outcomes[|outcomes| - 1]
      case Returns(result) => JobData(handler, args, DONE, Some(result), "")
      case Errors(message) => JobData(handler, args, FAILED, None, message))
  {
    ghost var waiting := q.channel;
    var job := q.Enqueue(id, handler, args);
    var first := q.Get(id);
    snapshots := [first];
    for i := 0 to |outcomes|
      invariant id in q.jobs && q.jobs[id] == job && job !in waiting && fresh(job)
      invariant i < |outcomes| ==> q.channel == waiting[i..] + [job] && job.data == NewJob(handler, args)
      invariant i == |outcomes| ==> q.channel == []
      invariant |snapshots| == i + 1
      invariant forall j :: 0 <= j <= i && j < |outcomes| ==> snapshots[j] == Some(NewJob(handler, args))
      invariant i == |outcomes| ==>
        snapshots[i] == Some(Finished(NewJob(handler, args).(status := RUNNING), outcomes[i - 1]))
    {
      var done := q.Execute(outcomes[i]);
      assert i < |waiting| ==> done == waiting[i];
      var next := q.Get(id);
      snapshots := snapshots + [next];
    }
  }

  // ---- The queue among enqueuers, snapshot readers and its worker ----

  /** What the worker goroutine is doing. */
  datatype Hand = Free | Picked(job: nat) | Executing(job: nat) | Stopped

  /** Jobs are named by the order of their creation. `unsent` are jobs whose enqueuer has not got them
      into the channel yet; `order` and `begun` record the order of sends and of starts. */
  datatype State = State(jobs: seq<JobData>, unsent: set<nat>, channel: seq<nat>, hand: Hand, quit: bool,
                         order: seq<nat>, begun: seq<nat>)

  datatype Event =
    | Create(handler: string, args: Bytes)
    | Send(job: nat)
    | Pick
    | Begin
    | End(outcome: Outcome)
    | Shutdown
    | Stop

  const INIT := State([], {}, [], Free, false, [], [])

  function Step(s: State, e: Event): State {
    match e
    case Create(handler, args) =>
      s.(jobs := s.jobs + [NewJob(handler, args)], unsent := s.unsent + {|s.jobs|})
    case Send(u) =>
      if u in s.unsent && |s.channel| < CAPACITY
      then s.(unsent := s.unsent - {u}, channel := s.channel + [u], order := s.order + [u]) else s
    case Pick =>
      if s.hand == Free && s.channel != [] then s.(hand := Picked(s.channel[0]), channel := s.channel[1..]) else s
    case Begin =>
      if s.hand.Picked? && s.hand.job < |s.jobs|
      then s.(hand := Executing(s.hand.job), begun := s.begun + [s.hand.job],
              jobs := s.jobs[s.hand.job := s.jobs[s.hand.job].(status := RUNNING)])
      else s
    case End(outcome) =>
      if s.hand.Executing? && s.hand.job < |s.jobs|
      then s.(hand := Free, jobs := s.jobs[s.hand.job := Finished(s.jobs[s.hand.job], outcome)]) else s
    case Shutdown => s.(quit := true)
    case Stop => if s.quit && s.hand == Free then s.(hand := Stopped) else s
  }

  /** A new job is queued with the caller's handler and arguments, and an enqueuer gets its job into the channel
      exactly if fewer than 128 are waiting there. */
  lemma CreateAndSend(s: State, handler: string, args: Bytes, u: nat)
    ensures Step(s, Create(handler, args)).jobs == s.jobs + [JobData(handler, args, QUEUED, None, "")]
    ensures Step(s, Create(handler, args)).unsent == s.unsent + {|s.jobs|}
    ensures u in s.unsent ==>
      Step(s, Send(u)).channel == if |s.channel| < 128 then s.channel + [u] else s.channel
  {
  }

  /** A shutdown is seen by the worker once it is free, and then it has stopped. */
  lemma ShutdownStops(s: State)
    ensures Step(s, Shutdown) == s.(quit := true)
    ensures Step(s, Stop) == if s.quit && s.hand == Free then s.(hand := Stopped) else s
  {
  }

  lemma {:induction false} StaysStopped(s: State, run: seq<Event>)
    requires s.hand == Stopped
    ensures Exec(s, run).hand == Stopped && Exec(s, run).begun == s.begun && s.channel <= Exec(s, run).channel
    decreases |run|
  {
    if run != [] { StaysStopped(Step(s, run[0]), run[1..]); }
  }

  function Exec(s: State, run: seq<Event>): State
    decreases |run|
  {
    if run == [] then s else Exec(Step(s, run[0]), run[1..])
  }

  function InHand(hand: Hand): seq<nat> { if hand.Picked? then [hand.job] else [] }

  ghost predicate Distinct(list: seq<nat>) {
    forall i, j :: 0 <= i < j < |list| ==> list[i] != list[j]
  }

  ghost predicate Inv(s: State) {
    && s.begun + InHand(s.hand) + s.channel == s.order
    && Distinct(s.order)
    && (forall i :: 0 <= i < |s.order| ==> s.order[i] < |s.jobs| && s.order[i] !in s.unsent)
    && (forall u :: u in s.unsent ==> u < |s.jobs|)
    && (forall u :: 0 <= u < |s.jobs| ==> (s.jobs[u].status == QUEUED <==> u !in s.begun))
    && (forall u :: 0 <= u < |s.jobs| ==> (s.jobs[u].status == RUNNING <==> s.hand == Executing(u)))
    && (s.hand.Executing? ==> s.hand.job in s.begun)
  }

  lemma PickKeeps(s: State)
    requires Inv(s)
    ensures Inv(Step(s, Pick))
  {
    if s.hand == Free && s.channel != [] {
      assert s.channel == [s.channel[0]] + s.channel[1..];
      assert s.begun + [] + s.channel == s.begun + [s.channel[0]] + s.channel[1..];
    }
  }

  /** The job that is started next has not been started before. */
  lemma NextIsNew(s: State, u: nat)
    requires Inv(s) && ((s.hand == Free && s.channel != [] && s.channel[0] == u) || s.hand == Picked(u))
    ensures u !in s.begun && u < |s.jobs| && s.jobs[u].status == QUEUED
  {
    assert s.order[|s.begun|] == u;
    forall i | 0 <= i < |s.begun| ensures s.begun[i] != u {
      assert s.order[i] == s.begun[i];
    }
  }

  lemma BeginKeeps(s: State)
    requires Inv(s)
    ensures Inv(Step(s, Begin))
  {
    if s.hand.Picked? && s.hand.job < |s.jobs| {
      var u, s' := s.hand.job, Step(s, Begin);
      NextIsNew(s, u);
      assert s'.begun + [] + s'.channel == s.begun + [u] + s.channel;
      assert forall v :: v in s'.begun <==> v in s.begun || v == u;
    }
  }

  lemma SendKeeps(s: State, u: nat)
    requires Inv(s)
    ensures Inv(Step(s, Send(u)))
  {
    var s' := Step(s, Send(u));
    if s' != s {
      assert s'.begun + InHand(s'.hand) + s'.channel == s.order + [u];
    }
  }

  lemma StepKeeps(s: State, e: Event)
    requires Inv(s)
    ensures Inv(Step(s, e))
  {
    match e
    case Pick => PickKeeps(s);
    case Begin => BeginKeeps(s);
    case Send(u) => SendKeeps(s, u);
    case Create(_, _) =>
      forall i | 0 <= i < |s.begun| ensures s.begun[i] < |s.jobs| {
        assert s.order[i] == s.begun[i];
      }
    case _ =>
  }

  lemma {:induction false} ExecKeeps(s: State, run: seq<Event>)
    requires Inv(s)
    ensures Inv(Exec(s, run))
    decreases |run|
  {
    if run != [] {
      StepKeeps(s, run[0]);
      ExecKeeps(Step(s, run[0]), run[1..]);
    }
  }

  /** In every run: jobs start in the order they went into the channel, none starts twice, and at most
      one job is running, the one in the worker's hands. */
  lemma OneAtATimeInOrder(run: seq<Event>, u: nat, v: nat)
    ensures var s := Exec(INIT, run);
      && s.begun <= s.order && Distinct(s.begun)
      && (u < |s.jobs| && v < |s.jobs| && s.jobs[u].status == RUNNING && s.jobs[v].status == RUNNING ==> u == v)
  {
    ExecKeeps(INIT, run);
    var s := Exec(INIT, run);
    assert s.order[..|s.begun|] == s.begun;
  }

  /** A later snapshot of a job: its status has not moved back, and a finished job is unchanged. */
  predicate Later(before: JobData, after: JobData) {
    && after.handler == before.handler && after.args == before.args
    && (before.status == RUNNING ==> after.status != QUEUED)
    && (before.status == DONE || before.status == FAILED ==> after == before)
    && (after.status == QUEUED || after.status == RUNNING ==>
          after.result == before.result && after.error == before.error)
  }

  lemma StepMovesForward(s: State, e: Event, u: nat)
    requires Inv(s) && u < |s.jobs|
    ensures u < |Step(s, e).jobs| && Later(s.jobs[u], Step(s, e).jobs[u])
  {
    if e.Begin? && s.hand == Picked(u) {
      NextIsNew(s, u);
    }
  }

  lemma {:induction false} RunMovesForward(s: State, run: seq<Event>, u: nat)
    requires Inv(s) && u < |s.jobs|
    ensures u < |Exec(s, run).jobs| && Later(s.jobs[u], Exec(s, run).jobs[u])
    decreases |run|
  {
    if run != [] {
      StepKeeps(s, run[0]);
      StepMovesForward(s, run[0], u);
      RunMovesForward(Step(s, run[0]), run[1..], u);
    }
  }

  /** Successive snapshots of a job, however many steps lie between them, only move from queued to
      running to done or failed; handler and arguments never change, result and error only with the end,
      and then no more. */
  lemma SnapshotsMoveForward(s: State, run: seq<Event>, u: nat)
    requires Inv(s) && u < |s.jobs|
    ensures u < |Exec(s, run).jobs|
    ensures var before, after := s.jobs[u], Exec(s, run).jobs[u];
      && after.handler == before.handler && after.args == before.args
      && (before.status == RUNNING ==> after.status != QUEUED)
      && (before.status == DONE || before.status == FAILED ==> after == before)
      && (after.status == QUEUED || after.status == RUNNING ==>
          after.result == before.result && after.error == before.error)
  {
    RunMovesForward(s, run, u);
  }

  /** A picked job runs to the outcome the executor returns. */
  lemma TurnFinishesHead(s: State, outcome: Outcome)
    requires Inv(s) && s.hand == Free && s.channel != []
    ensures var u := s.channel[0]; var s' := Exec(s, [Pick, Begin, End(outcome)]);
      && u < |s.jobs| && s.jobs[u].status == QUEUED
      && s' == s.(channel := s.channel[1..], begun := s.begun + [u],
                  jobs := s.jobs[u :=
                    match outcome
                    case Returns(result) => s.jobs[u].(status := DONE, result := Some(result))
                    case Errors(message) => s.jobs[u].(status := FAILED, error := message)])
  {
    var u := s.channel[0];
    NextIsNew(s, u);
    TurnSteps(s, outcome);
    var s2 := Step(Step(s, Pick), Begin);
    assert s2 == s.(hand := Executing(u), channel := s.channel[1..], begun := s.begun + [u],
                    jobs := s.jobs[u := s.jobs[u].(status := RUNNING)]);
    Overwrites(s.jobs, u, s.jobs[u].(status := RUNNING), Finished(s.jobs[u].(status := RUNNING), outcome));
  }

  lemma TurnSteps(s: State, outcome: Outcome)
    ensures Exec(s, [Pick, Begin, End(outcome)]) == Step(Step(Step(s, Pick), Begin), End(outcome))
  {
    var s1, s2 := Step(s, Pick), Step(Step(s, Pick), Begin);
    assert [Pick, Begin, End(outcome)][1..] == [Begin, End(outcome)];
    assert [Begin, End(outcome)][1..] == [End(outcome)];
    assert Exec(s2, [End(outcome)]) == Step(s2, End(outcome));
    assert Exec(s1, [Begin, End(outcome)]) == Exec(s2, [End(outcome)]);
  }

  lemma Overwrites(jobs: seq<JobData>, u: nat, first: JobData, second: JobData)
    requires u < |jobs|
    ensures jobs[u := first][u := second] == jobs[u := second]
  {
  }
}
