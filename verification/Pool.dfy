/** The Unix-socket `ConnectionPool` and the circuit breaker of core/runtime/connection_pool.py. */
module Pool {
  import opened Common

  // ---- The pool as it is written ----

  class Conn {
    var open: bool

    constructor ()
      ensures open
    {
      open := true;
    }
  }

  class ConnectionPool {
    const minSize: int
    const maxSize: int
    var pool: seq<Conn>
    var initialized: bool
    var shutdown: bool

    constructor (minSize: int, maxSize: int)
      ensures this.minSize == minSize && this.maxSize == maxSize
      ensures pool == [] && !initialized && !shutdown
    {
      this.minSize, this.maxSize := minSize, maxSize;
      pool, initialized, shutdown := [], false, false;
    }

    /** `connects` says which of the attempts to connect succeed. */
    method Initialize(connects: seq<bool>)
      requires |connects| == Max(0, minSize)
      modifies this
      ensures initialized && shutdown == old(shutdown)
      ensures old(initialized) ==> pool == old(pool)
      ensures !old(initialized) ==>
        && old(pool) <= pool && |pool| == |old(pool)| + Trues(connects)
        && forall i :: |old(pool)| <= i < |pool| ==> fresh(pool[i]) && pool[i].open
    {
      if initialized {
        return;
      }
      for i := 0 to |connects|
        invariant old(pool) <= pool && |pool| == |old(pool)| + Trues(connects[..i])
        invariant forall k :: |old(pool)| <= k < |pool| ==> fresh(pool[k]) && pool[k].open
        invariant shutdown == old(shutdown)
      {
        assert connects[..i + 1][..i] == connects[..i];
        if connects[i] {
          var conn := new Conn();
          pool := pool + [conn];
        }
      }
      assert connects[..|connects|] == connects;
      initialized := true;
    }

    /** The newest idle connection, if any; otherwise a new one if there are fewer than `max_size` idle
        ones and the attempt succeeds; otherwise the newest one at the first poll that finds any. `waits`
        says what others have put into the pool before each poll until the timeout, which is None. */
    method GetConnection(connects: bool, waits: seq<seq<Conn>>) returns (conn: Conn?)
      modifies this
      ensures initialized == old(initialized) && shutdown == old(shutdown)
      ensures old(pool) != [] ==> conn == old(pool)[|old(pool)| - 1] && pool == old(pool)[..|old(pool)| - 1]
      ensures old(pool) == [] && 0 < maxSize && connects ==> pool == [] && conn != null && fresh(conn) && conn.open
      ensures old(pool) == [] && !(0 < maxSize && connects) ==>
        var i := FirstFilled(waits);
        if i == |waits| then conn == null && pool == []
        else conn == waits[i][|waits[i]| - 1] && pool == waits[i][..|waits[i]| - 1]
    {
      if pool != [] {
        conn := pool[|pool| - 1];
        pool := pool[..|pool| - 1];
        return;
      }
      if |pool| < maxSize && connects {
        conn := new Conn();
        return;
      }
      for i := 0 to |waits|
        invariant pool == [] && initialized == old(initialized) && shutdown == old(shutdown)
        invariant forall j :: 0 <= j < i ==> waits[j] == []
      {
        pool := pool + waits[i];
        if pool != [] {
          FirstFilledIs(waits, i);
          conn := pool[|pool| - 1];
          pool := pool[..|pool| - 1];
          return;
        }
      }
      FirstFilledIs(waits, |waits|);
      conn := null;
    }

    /** Kept if there is room and the pool is not shut down, closed otherwise. */
    method ReturnConnection(conn: Conn)
      modifies this, conn
      ensures initialized == old(initialized) && shutdown == old(shutdown)
      ensures if old(shutdown) || |old(pool)| >= maxSize then pool == old(pool) && !conn.open
              else pool == old(pool) + [conn] && conn.open == old(conn.open)
    {
      if shutdown || |pool| >= maxSize {
        conn.open := false;
      } else {
        pool := pool + [conn];
      }
    }

    method CloseAll()
      modifies this, pool
      ensures shutdown && pool == [] && initialized == old(initialized)
      ensures forall c :: c in old(pool) ==> !c.open
    {
      shutdown := true;
      for i := 0 to |pool|
        invariant shutdown && pool == old(pool) && initialized == old(initialized)
        invariant forall k :: 0 <= k < i ==> !pool[k].open
      {
        pool[i].open := false;
      }
      pool := [];
    }
  }

  /** The first poll that finds a connection, or the number of polls. */
  function FirstFilled(waits: seq<seq<Conn>>): (i: nat)
    ensures i <= |waits| && (i < |waits| ==> waits[i] != []) && forall j :: 0 <= j < i ==> waits[j] == []
  {
    if waits == [] || waits[0] != [] then 0 else 1 + FirstFilled(waits[1..])
  }

  lemma FirstFilledIs(waits: seq<seq<Conn>>, i: nat)
    requires i <= |waits| && (i < |waits| ==> waits[i] != []) && forall j :: 0 <= j < i ==> waits[j] == []
    ensures FirstFilled(waits) == i
  {
  }

  function Trues(list: seq<bool>): nat {
    if list == [] then 0 else Trues(list[..|list| - 1]) + (if list[|list| - 1] then 1 else 0)
  }

  /** One more for every attempt that succeeds. */
  lemma TruesMeans(list: seq<bool>, ok: bool)
    ensures Trues([]) == 0 && Trues(list + [ok]) == Trues(list) + if ok then 1 else 0
  {
    assert (list + [ok])[..|list|] == list;
  }

  // ---- The pool among threads ----

  /** A thread between `get_connection` and `return_connection`. Only `_pool` is guarded by the lock:
      the size check of `Sizing` and the shutdown flag are not. */
  datatype Thread =
    | Outside
    | Asking
    | Sizing
    | Connecting
    | Waiting
    | Holding(conn: nat)
    | Returning(conn: nat, keep: bool)

  /** Connections are numbered as they are created. */
  datatype State = State(idle: seq<nat>, threads: seq<Thread>, lock: Option<nat>, closed: set<nat>, created: nat,
                         initialized: bool, shutdown: bool)

  datatype Config = Config(minSize: nat, maxSize: nat)

  datatype Event =
    | Initialize(connects: nat)
    | Get(t: nat)
    | Pop(t: nat)
    | Size(t: nat)
    | Connect(t: nat, ok: bool)
    | Poll(t: nat)
    | Timeout(t: nat)
    | ReturnEnter(t: nat)
    | ReturnExit(t: nat)
    | Shutdown
    | ClearAll

  function Init(threads: nat): State {
    State([], seq(threads, _ => Outside), None, {}, 0, false, false)
  }

  predicate At(s: State, t: nat, pc: Thread) { t < |s.threads| && s.threads[t] == pc }

  function SetThread(s: State, t: nat, pc: Thread): State
    requires t < |s.threads|
  {
    s.(threads := s.threads[t := pc])
  }

  /** Under the lock: take the newest idle connection, or go on to `otherwise`. */
  function TakeIdle(s: State, t: nat, otherwise: Thread): State
    requires t < |s.threads|
  {
    if s.idle == [] then SetThread(s, t, otherwise)
    else SetThread(s, t, Holding(s.idle[|s.idle| - 1])).(idle := s.idle[..|s.idle| - 1])
  }

  /** `return_connection` takes the lock and looks at the flag and the size. */
  function EnterStep(c: Config, s: State, t: nat): State {
    if t < |s.threads| && s.threads[t].Holding? && s.lock == None
    then SetThread(s, t, Returning(s.threads[t].conn, !(s.shutdown || |s.idle| >= c.maxSize))).(lock := Some(t))
    else s
  }

  /** It keeps or closes the connection and releases the lock. */
  function ExitStep(s: State, t: nat): State {
    if !(t < |s.threads| && s.threads[t].Returning?) then s
    else if s.threads[t].keep
    then SetThread(s, t, Outside).(lock := None, idle := s.idle + [s.threads[t].conn])
    else SetThread(s, t, Outside).(lock := None, closed := s.closed + {s.threads[t].conn})
  }

  function Numbers(from: nat, n: nat): seq<nat> { seq(n, i requires 0 <= i => from + i) }

  function Step(c: Config, s: State, e: Event): State {
    match e
    case Initialize(connects) =>
      if s.lock == None && !s.initialized && connects <= c.minSize
      then s.(idle := s.idle + Numbers(s.created, connects), created := s.created + connects, initialized := true)
      else s
    case Get(t) => if At(s, t, Outside) then SetThread(s, t, Asking) else s
    case Pop(t) => if At(s, t, Asking) && s.lock == None then TakeIdle(s, t, Sizing) else s
    case Size(t) =>
      if At(s, t, Sizing) then SetThread(s, t, if |s.idle| < c.maxSize then Connecting else Waiting) else s
    case Connect(t, ok) =>
      if !At(s, t, Connecting) then s
      else if ok then SetThread(s, t, Holding(s.created)).(created := s.created + 1)
      else SetThread(s, t, Waiting)
    case Poll(t) => if At(s, t, Waiting) && s.lock == None then TakeIdle(s, t, Waiting) else s
    case Timeout(t) => if At(s, t, Waiting) then SetThread(s, t, Outside) else s
    case ReturnEnter(t) => EnterStep(c, s, t)
    case ReturnExit(t) => ExitStep(s, t)
    case Shutdown => s.(shutdown := true)
    case ClearAll =>
      if s.shutdown && s.lock == None then s.(closed := s.closed + (set x | x in s.idle), idle := []) else s
  }

  function Exec(c: Config, s: State, run: seq<Event>): State
    decreases |run|
  {
    if run == [] then s else Exec(c, Step(c, s, run[0]), run[1..])
  }

  // ---- Conservation ----

  predicate Has(thread: Thread, x: nat) { (thread.Holding? || thread.Returning?) && thread.conn == x }

  /** The places a connection can be in: idle at some position, held by some thread, closed. */
  ghost predicate Distinct(s: State) {
    && (forall i, j :: 0 <= i < j < |s.idle| ==> s.idle[i] != s.idle[j])
    && (forall t, u, x :: 0 <= t < u < |s.threads| ==> !(Has(s.threads[t], x) && Has(s.threads[u], x)))
    && (forall i, t :: 0 <= i < |s.idle| && 0 <= t < |s.threads| ==> !Has(s.threads[t], s.idle[i]))
    && (forall i :: 0 <= i < |s.idle| ==> s.idle[i] !in s.closed)
    && (forall t, x :: 0 <= t < |s.threads| && Has(s.threads[t], x) ==> x !in s.closed)
  }

  ghost predicate Placed(s: State, x: nat) {
    x in s.idle || x in s.closed || exists t :: 0 <= t < |s.threads| && Has(s.threads[t], x)
  }

  ghost predicate Conserved(s: State) {
    && Distinct(s)
    && (forall x: nat :: Placed(s, x) <==> x < s.created)
  }

  /** A step of thread t that moves connections between idle, closed and its own hands. */
  lemma ThreadStepConserves(s: State, s': State, t: nat)
    requires Conserved(s) && t < |s.threads| == |s'.threads| && s'.threads == s.threads[t := s'.threads[t]]
    requires Distinct(s') && s'.created >= s.created
    requires forall x: nat :: (x in s'.idle || x in s'.closed || Has(s'.threads[t], x)) <==>
                         (x in s.idle || x in s.closed || Has(s.threads[t], x) || s.created <= x < s'.created)
    ensures Conserved(s')
  {
    forall x: nat ensures Placed(s', x) <==> x < s'.created {
      assert Placed(s, x) <==> x < s.created;
      if exists u :: 0 <= u < |s.threads| && Has(s.threads[u], x) {
        var u :| 0 <= u < |s.threads| && Has(s.threads[u], x);
        if u != t { assert Has(s'.threads[u], x); }
      }
      if exists u :: 0 <= u < |s'.threads| && Has(s'.threads[u], x) {
        var u :| 0 <= u < |s'.threads| && Has(s'.threads[u], x);
        if u != t { assert Has(s.threads[u], x); }
      }
    }
  }

  lemma TakeConserves(s: State, t: nat, otherwise: Thread)
    requires Conserved(s) && t < |s.threads| && !s.threads[t].Holding? && !s.threads[t].Returning?
    requires !otherwise.Holding? && !otherwise.Returning?
    ensures Conserved(TakeIdle(s, t, otherwise))
  {
    if s.idle == [] {
      QuietStepConserves(s, TakeIdle(s, t, otherwise), t, otherwise);
    } else {
      PopConserves(s, t, otherwise);
    }
  }

  lemma PopConserves(s: State, t: nat, otherwise: Thread)
    requires Conserved(s) && t < |s.threads| && !s.threads[t].Holding? && !s.threads[t].Returning? && s.idle != []
    ensures Conserved(TakeIdle(s, t, otherwise))
  {
    var s', n := TakeIdle(s, t, otherwise), |s.idle| - 1;
    assert s.idle == s.idle[..n] + [s.idle[n]];
    assert forall x :: x in s.idle <==> x in s'.idle || x == s.idle[n];
    ThreadStepConserves(s, s', t);
  }

  lemma NewConserves(s: State, t: nat)
    requires Conserved(s) && t < |s.threads| && s.threads[t] == Connecting
    ensures Conserved(SetThread(s, t, Holding(s.created)).(created := s.created + 1))
  {
    var s' := SetThread(s, t, Holding(s.created)).(created := s.created + 1);
    assert !Placed(s, s.created);
    assert Distinct(s') by {
      forall i | 0 <= i < |s.idle| ensures s.idle[i] != s.created { assert s.idle[i] in s.idle; }
    }
    ThreadStepConserves(s, s', t);
  }

  lemma KeepConserves(s: State, t: nat)
    requires Conserved(s) && t < |s.threads| && s.threads[t].Returning? && s.threads[t].keep
    ensures Conserved(ExitStep(s, t))
  {
    var s', x := ExitStep(s, t), s.threads[t].conn;
    assert Has(s.threads[t], x);
    assert forall y :: y in s'.idle <==> y in s.idle || y == x;
    assert Distinct(s');
    ThreadStepConserves(s, s', t);
  }

  lemma CloseConserves(s: State, t: nat)
    requires Conserved(s) && t < |s.threads| && s.threads[t].Returning? && !s.threads[t].keep
    ensures Conserved(ExitStep(s, t))
  {
    var s', x := ExitStep(s, t), s.threads[t].conn;
    assert Has(s.threads[t], x);
    assert Distinct(s');
    ThreadStepConserves(s, s', t);
  }

  lemma InitializeConserves(c: Config, s: State, connects: nat)
    requires Conserved(s)
    ensures Conserved(Step(c, s, Initialize(connects)))
  {
    var s' := Step(c, s, Initialize(connects));
    if s' != s {
      forall i | 0 <= i < |s.idle| ensures s.idle[i] < s.created { assert Placed(s, s.idle[i]); }
      forall t, x: nat | 0 <= t < |s.threads| && Has(s.threads[t], x) ensures x < s.created { assert Placed(s, x); }
      forall x: nat | x in s.closed ensures x < s.created { assert Placed(s, x); }
      assert Distinct(s');
      forall x: nat ensures Placed(s', x) <==> x < s'.created {
        assert Placed(s, x) <==> x < s.created;
        if s.created <= x < s'.created { assert s'.idle[|s.idle| + (x - s.created)] == x; }
      }
    }
  }

  lemma ClearConserves(c: Config, s: State)
    requires Conserved(s)
    ensures Conserved(Step(c, s, ClearAll))
  {
    var s' := Step(c, s, ClearAll);
    if s' != s {
      forall t, x | 0 <= t < |s.threads| && Has(s.threads[t], x) ensures x !in s'.closed {
        forall i | 0 <= i < |s.idle| ensures s.idle[i] != x { assert !Has(s.threads[t], s.idle[i]); }
      }
      forall x: nat ensures Placed(s', x) <==> x < s'.created {
        assert Placed(s, x) <==> x < s.created;
      }
    }
  }

  /** A step that changes what a thread does but not what it has in its hands. */
  lemma QuietStepConserves(s: State, s': State, t: nat, pc: Thread)
    requires Conserved(s) && t < |s.threads| && forall x: nat :: Has(pc, x) <==> Has(s.threads[t], x)
    requires s'.threads == s.threads[t := pc] && s'.idle == s.idle && s'.closed == s.closed && s'.created == s.created
    ensures Conserved(s')
  {
    ThreadStepConserves(s, s', t);
  }

  lemma StepConserves(c: Config, s: State, e: Event)
    requires Conserved(s)
    ensures Conserved(Step(c, s, e))
  {
    var s' := Step(c, s, e);
    match e
    case Initialize(n) => InitializeConserves(c, s, n);
    case ClearAll => ClearConserves(c, s);
    case Shutdown =>
      assert forall x: nat :: Placed(s', x) <==> Placed(s, x);
    case Pop(t) => if At(s, t, Asking) { TakeConserves(s, t, Sizing); }
    case Poll(t) => if At(s, t, Waiting) { TakeConserves(s, t, Waiting); }
    case ReturnExit(t) =>
      if t < |s.threads| && s.threads[t].Returning? {
        if s.threads[t].keep { KeepConserves(s, t); } else { CloseConserves(s, t); }
      }
    case Connect(t, ok) =>
      if At(s, t, Connecting) {
        if ok { NewConserves(s, t); } else { QuietStepConserves(s, s', t, Waiting); }
      }
    case ReturnEnter(t) => if s' != s { QuietStepConserves(s, s', t, s'.threads[t]); }
    case Get(t) => if s' != s { QuietStepConserves(s, s', t, Asking); }
    case Size(t) => if s' != s { QuietStepConserves(s, s', t, s'.threads[t]); }
    case Timeout(t) => if s' != s { QuietStepConserves(s, s', t, Outside); }
  }

  // ---- The lock, the idle bound, closing ----

  ghost predicate Locked(s: State) {
    forall t :: 0 <= t < |s.threads| ==> (s.threads[t].Returning? <==> s.lock == Some(t))
  }

  /** `limit` bounds the idle connections, counting the one a returning thread is about to keep. */
  ghost predicate Bounded(c: Config, s: State, limit: nat) {
    && |s.idle| <= limit
    && forall t :: 0 <= t < |s.threads| && s.threads[t].Returning? && s.threads[t].keep ==> |s.idle| < c.maxSize
  }

  lemma StepKeepsLock(c: Config, s: State, e: Event)
    requires Locked(s)
    ensures Locked(Step(c, s, e))
  {
    match e
    case ReturnEnter(t) =>
    case ReturnExit(t) =>
    case _ =>
      var s' := Step(c, s, e);
      assert s'.lock == s.lock;
  }

  lemma StepKeepsBound(c: Config, s: State, e: Event, limit: nat)
    requires Locked(s) && Bounded(c, s, limit) && limit >= c.maxSize && s.initialized
    ensures Bounded(c, Step(c, s, e), limit) && Step(c, s, e).initialized
  {
  }

  lemma {:induction false} RunKeepsBound(c: Config, s: State, run: seq<Event>, limit: nat)
    requires Locked(s) && Bounded(c, s, limit) && limit >= c.maxSize && s.initialized
    ensures |Exec(c, s, run).idle| <= limit
    decreases |run|
  {
    if run != [] {
      StepKeepsLock(c, s, run[0]);
      StepKeepsBound(c, s, run[0], limit);
      RunKeepsBound(c, Step(c, s, run[0]), run[1..], limit);
    }
  }

  lemma {:induction false} RunConserves(c: Config, s: State, run: seq<Event>)
    requires Conserved(s) && Locked(s)
    ensures Conserved(Exec(c, s, run)) && Locked(Exec(c, s, run))
    decreases |run|
  {
    if run != [] {
      StepConserves(c, s, run[0]);
      StepKeepsLock(c, s, run[0]);
      RunConserves(c, Step(c, s, run[0]), run[1..]);
    }
  }

  /** Over all interleavings of any number of threads, each created connection is in exactly one place:
      idle (at one position), held by one caller, or closed - and nothing else is anywhere. */
  lemma EachConnectionInOnePlace(c: Config, threads: nat, run: seq<Event>)
    ensures Conserved(Exec(c, Init(threads), run))
  {
    RunConserves(c, Init(threads), run);
  }

  /** With min_size at most max_size and `initialize` first, there are never more than max_size idle
      connections. */
  lemma IdleBounded(c: Config, threads: nat, connects: nat, run: seq<Event>)
    requires connects <= c.minSize <= c.maxSize
    ensures |Exec(c, Init(threads), [Initialize(connects)] + run).idle| <= c.maxSize
  {
    var all := [Initialize(connects)] + run;
    assert all[1..] == run;
    RunKeepsBound(c, Step(c, Init(threads), Initialize(connects)), run, c.maxSize);
  }

  /** At every point of the run at most max_size connections are idle. */
  predicate BoundThroughout(c: Config, s: State, run: seq<Event>)
    decreases |run|
  {
    |s.idle| <= c.maxSize && (run == [] || BoundThroughout(c, Step(c, s, run[0]), run[1..]))
  }

  predicate Initializes(c: Config, s: State, e: Event) {
    e.Initialize? && s.lock == None && !s.initialized && e.connects <= c.minSize
  }

  /** If the run initializes the pool, what it opens then fits beside what is idle then. */
  predicate InitializeFits(c: Config, s: State, run: seq<Event>)
    decreases |run|
  {
    run == [] ||
    (&& (Initializes(c, s, run[0]) ==> |s.idle| + run[0].connects <= c.maxSize)
     && InitializeFits(c, Step(c, s, run[0]), run[1..]))
  }

  lemma OtherStepKeepsBound(c: Config, s: State, e: Event)
    requires Locked(s) && Bounded(c, s, c.maxSize)
    requires Initializes(c, s, e) ==> |s.idle| + e.connects <= c.maxSize
    ensures Bounded(c, Step(c, s, e), c.maxSize)
  {
  }

  lemma {:induction false} BoundIffFits(c: Config, s: State, run: seq<Event>)
    requires Locked(s) && Bounded(c, s, c.maxSize)
    ensures BoundThroughout(c, s, run) <==> InitializeFits(c, s, run)
    decreases |run|
  {
    if run != [] {
      var e := run[0];
      if Initializes(c, s, e) && |s.idle| + e.connects > c.maxSize {
        assert |Step(c, s, e).idle| == |s.idle| + e.connects;
        assert !BoundThroughout(c, Step(c, s, e), run[1..]);
      } else {
        OtherStepKeepsBound(c, s, e);
        StepKeepsLock(c, s, e);
        BoundIffFits(c, Step(c, s, e), run[1..]);
      }
    }
  }

  /** Over every run, whether it initializes the pool first, late or never: there are never more than
      max_size idle connections exactly if the connections that `initialize` opens, when it comes, fit
      beside those that are idle by then. */
  lemma IdleBoundIff(c: Config, threads: nat, run: seq<Event>)
    ensures BoundThroughout(c, Init(threads), run) <==> InitializeFits(c, Init(threads), run)
  {
    BoundIffFits(c, Init(threads), run);
  }

  lemma {:induction false} ExecAppend(c: Config, s: State, a: seq<Event>, b: seq<Event>)
    ensures Exec(c, s, a + b) == Exec(c, Exec(c, s, a), b)
    decreases |a|
  {
    if a == [] {
      assert a + b == b;
    } else {
      assert (a + b)[0] == a[0] && (a + b)[1..] == a[1..] + b;
      ExecAppend(c, Step(c, s, a[0]), a[1..], b);
    }
  }

  lemma Exec1(c: Config, s: State, e: Event)
    ensures Exec(c, s, [e]) == Step(c, s, e)
  {
    assert [e][1..] == [];
  }

  lemma Exec2(c: Config, s: State, e0: Event, e1: Event)
    ensures Exec(c, s, [e0, e1]) == Step(c, Step(c, s, e0), e1)
  {
    ExecAppend(c, s, [e0], [e1]);
    Exec1(c, s, e0);
    Exec1(c, Step(c, s, e0), e1);
    assert [e0, e1] == [e0] + [e1];
  }

  /** A thread that found the pool empty connects only if fewer than max_size are idle by then; whenever it
      waits, it takes the newest idle connection there is, and goes on waiting while there is none. */
  lemma AskerMoves(c: Config, s: State, t: nat)
    requires t < |s.threads|
    ensures s.threads[t] == Sizing ==>
      Step(c, s, Size(t)) == s.(threads := s.threads[t := if |s.idle| < c.maxSize then Connecting else Waiting])
    ensures s.threads[t] == Waiting && s.lock == None ==>
      Step(c, s, Poll(t)) ==
      if s.idle == [] then s
      else s.(threads := s.threads[t := Holding(s.idle[|s.idle| - 1])], idle := s.idle[..|s.idle| - 1])
  {
    if s.threads[t] == Waiting { assert s.threads[t := Waiting] == s.threads; }
  }

  // ---- A thread that runs alone does what the methods do ----

  /** The newest idle connection in the hands of thread t. */
  function Popped(s: State, t: nat): State
    requires t < |s.threads| && s.idle != []
  {
    SetThread(s, t, Holding(s.idle[|s.idle| - 1])).(idle := s.idle[..|s.idle| - 1])
  }

  lemma Overwrites(s: State, t: nat, first: Thread, second: Thread)
    requires t < |s.threads|
    ensures SetThread(SetThread(s, t, first), t, second) == SetThread(s, t, second)
    ensures second == s.threads[t] ==> SetThread(s, t, second) == s
  {
    assert s.threads[t := first][t := second] == s.threads[t := second];
    if second == s.threads[t] { assert s.threads[t := second] == s.threads; }
  }

  /** The first look at the idle connections. */
  lemma Asks(c: Config, s: State, t: nat)
    requires At(s, t, Outside) && s.lock == None
    ensures Exec(c, s, [Get(t), Pop(t)]) == if s.idle == [] then SetThread(s, t, Sizing) else Popped(s, t)
  {
    Exec2(c, s, Get(t), Pop(t));
    Overwrites(s, t, Asking, if s.idle == [] then Sizing else Holding(s.idle[|s.idle| - 1]));
  }

  /** The attempt to connect. */
  lemma Connects(c: Config, s: State, t: nat, ok: bool)
    requires At(s, t, Sizing) && s.idle == []
    ensures Exec(c, s, [Size(t), Connect(t, ok)]) ==
      if 0 < c.maxSize && ok then SetThread(s, t, Holding(s.created)).(created := s.created + 1)
      else SetThread(s, t, Waiting)
  {
    Exec2(c, s, Size(t), Connect(t, ok));
    Overwrites(s, t, Connecting, if ok then Holding(s.created) else Waiting);
  }

  lemma HolderSkips(c: Config, s: State, t: nat, ok: bool)
    requires t < |s.threads| && s.threads[t].Holding?
    ensures Exec(c, s, [Size(t), Connect(t, ok)] + [Timeout(t)]) == s
  {
    ExecAppend(c, s, [Size(t), Connect(t, ok)], [Timeout(t)]);
    Exec2(c, s, Size(t), Connect(t, ok));
    Exec1(c, s, Timeout(t));
  }

  /** A thread that asks for a connection while no other thread moves gets what `GetConnection`
      returns: the newest idle one, else a new one if allowed, else nothing. */
  lemma GetAlone(c: Config, s: State, t: nat, ok: bool)
    requires At(s, t, Outside) && s.lock == None
    ensures Exec(c, s, [Get(t), Pop(t)] + ([Size(t), Connect(t, ok)] + [Timeout(t)])) ==
      if s.idle != [] then
        s.(threads := s.threads[t := Holding(s.idle[|s.idle| - 1])], idle := s.idle[..|s.idle| - 1])
      else if 0 < c.maxSize && ok then
        s.(threads := s.threads[t := Holding(s.created)], created := s.created + 1)
      else s
  {
    var rest := [Size(t), Connect(t, ok)] + [Timeout(t)];
    ExecAppend(c, s, [Get(t), Pop(t)], rest);
    Asks(c, s, t);
    if s.idle != [] {
      HolderSkips(c, Popped(s, t), t, ok);
    } else {
      var s1 := SetThread(s, t, Sizing);
      ExecAppend(c, s1, [Size(t), Connect(t, ok)], [Timeout(t)]);
      Connects(c, s1, t, ok);
      if 0 < c.maxSize && ok {
        Overwrites(s, t, Sizing, Holding(s.created));
      } else {
        Overwrites(s, t, Sizing, Waiting);
        Overwrites(s, t, Waiting, Outside);
      }
      Exec1(c, Exec(c, s1, [Size(t), Connect(t, ok)]), Timeout(t));
    }
  }

  /** And one that returns its connection alone does what `ReturnConnection` does. */
  lemma ReturnAlone(c: Config, s: State, t: nat)
    requires t < |s.threads| && s.threads[t].Holding? && s.lock == None
    ensures var x := s.threads[t].conn;
      Exec(c, s, [ReturnEnter(t), ReturnExit(t)]) ==
      if s.shutdown || |s.idle| >= c.maxSize then SetThread(s, t, Outside).(closed := s.closed + {x})
      else SetThread(s, t, Outside).(idle := s.idle + [x])
  {
    Exec2(c, s, ReturnEnter(t), ReturnExit(t));
    Overwrites(s, t, Returning(s.threads[t].conn, !(s.shutdown || |s.idle| >= c.maxSize)), Outside);
  }

  /** A pool of at most one connection, used before it is initialized, ends up with two idle ones. */
  lemma LateInitializeExceeds() returns (run: seq<Event>)
    ensures |Exec(Config(1, 1), Init(1), run).idle| == 2
  {
    var c, s0 := Config(1, 1), Init(1);
    var back := [ReturnEnter(0), ReturnExit(0)];
    var ask := [Get(0), Pop(0)] + ([Size(0), Connect(0, true)] + [Timeout(0)]);
    run := ask + back + [Initialize(1)];
    GetAlone(c, s0, 0, true);
    var s1 := Exec(c, s0, ask);
    ReturnAlone(c, s1, 0);
    var s2 := Exec(c, s1, back);
    assert s2.idle == [0];
    ExecAppend(c, s0, ask, back);
    ExecAppend(c, s0, ask + back, [Initialize(1)]);
    Exec1(c, s2, Initialize(1));
  }

  // ---- After close_all ----

  /** `close_all` sets the flag, and then, with the lock, closes every idle connection. */
  lemma ClosingSteps(c: Config, s: State)
    ensures Step(c, s, Shutdown) == s.(shutdown := true)
    ensures Step(c, s, ClearAll) ==
      if s.shutdown && s.lock == None then s.(closed := s.closed + (set x | x in s.idle), idle := []) else s
  {
  }

  ghost predicate Drained(c: Config, s: State) {
    && (s.initialized || c.minSize == 0) && s.shutdown && s.idle == []
    && forall t :: 0 <= t < |s.threads| && s.threads[t].Returning? ==> !s.threads[t].keep
  }

  lemma ClearDrains(c: Config, s: State)
    requires Locked(s) && s.shutdown && s.lock == None && (s.initialized || c.minSize == 0)
    ensures Drained(c, Step(c, s, ClearAll))
  {
  }

  lemma StepKeepsDrained(c: Config, s: State, e: Event)
    requires Drained(c, s)
    ensures Drained(c, Step(c, s, e))
  {
  }

  lemma {:induction false} DrainedStaysEmpty(c: Config, s: State, run: seq<Event>)
    requires Drained(c, s)
    ensures Exec(c, s, run).idle == []
    decreases |run|
  {
    if run != [] {
      StepKeepsDrained(c, s, run[0]);
      DrainedStaysEmpty(c, Step(c, s, run[0]), run[1..]);
    }
  }

  /** Once `close_all` has cleared the pool, in whatever run, with whatever threads in the middle of
      returning, nothing is ever idle again - exactly if the pool had been initialized or min_size is 0. */
  lemma NothingIdleAfterCloseIff(c: Config, threads: nat, before: seq<Event>)
    requires var s := Exec(c, Init(threads), before); s.shutdown && s.lock == None
    ensures var s := Exec(c, Init(threads), before);
      s.initialized || c.minSize == 0 <==> forall after :: Exec(c, Step(c, s, ClearAll), after).idle == []
  {
    RunConserves(c, Init(threads), before);
    var s := Exec(c, Init(threads), before);
    var cleared := Step(c, s, ClearAll);
    if s.initialized || c.minSize == 0 {
      ClearDrains(c, s);
      forall after ensures Exec(c, cleared, after).idle == [] {
        DrainedStaysEmpty(c, cleared, after);
      }
    } else {
      Exec1(c, cleared, Initialize(1));
      assert |Exec(c, cleared, [Initialize(1)]).idle| == 1;
    }
  }

  // ---- The circuit breaker ----

  const FAILURE_THRESHOLD := 5
  const COOL_DOWN := 60

  datatype Breaker = Breaker(failures: nat, lastFailure: int, isOpen: bool)

  datatype Admission = Invoke | Refuse

  /** The part of `circuit_breaker_call` before the function is invoked. */
  function Admit(b: Breaker, now: int): (Breaker, Admission) {
    if !b.isOpen then (b, Invoke)
    else if now - b.lastFailure > COOL_DOWN then (b.(isOpen := false, failures := 0), Invoke)
    else (b, Refuse)
  }

  /** The part after it has returned or raised. */
  function CompleteCall(b: Breaker, ok: bool, now: int): Breaker {
    if ok then b.(failures := 0, isOpen := false)
    else Breaker(b.failures + 1, now, b.isOpen || b.failures + 1 >= FAILURE_THRESHOLD)
  }

  class CircuitBreaker {
    var state: Breaker

    constructor ()
      ensures state == Breaker(0, 0, false)
    {
      state := Breaker(0, 0, false);
    }

    method Enter(now: int) returns (invoke: bool)
      modifies this
      ensures invoke <==> !old(state.isOpen) || now - old(state.lastFailure) > 60
      ensures state == if old(state.isOpen) && invoke then Breaker(0, old(state.lastFailure), false) else old(state)
      ensures (state, if invoke then Invoke else Refuse) == Admit(old(state), now)
    {
      if state.isOpen {
        if now - state.lastFailure > COOL_DOWN {
          state := state.(isOpen := false);
          state := state.(failures := 0);
        } else {
          return false;
        }
      }
      return true;
    }

    method Leave(ok: bool, now: int)
      modifies this
      ensures ok ==> state == Breaker(0, old(state.lastFailure), false)
      ensures !ok ==> state == Breaker(old(state.failures) + 1, now, old(state.isOpen) || old(state.failures) + 1 >= 5)
      ensures state == CompleteCall(old(state), ok, now)
    {
      if ok {
        state := state.(failures := 0);
        state := state.(isOpen := false);
      } else {
        state := state.(failures := state.failures + 1);
        state := state.(lastFailure := now);
        if state.failures >= FAILURE_THRESHOLD {
          state := state.(isOpen := true);
        }
      }
    }
  }

  /** Calls of many threads: admissions and completions in any order. */
  datatype CallEvent = Enter(now: int) | Leave(ok: bool, now: int)

  /** What has happened, newest last. */
  datatype Happened = Admitted(at: int) | CooledDown(at: int) | Refused(at: int) | Succeeded | FailedAt(at: int)

  datatype History = History(b: Breaker, log: seq<Happened>, inFlight: nat)

  const FRESH := History(Breaker(0, 0, false), [], 0)

  function CallStep(h: History, e: CallEvent): History {
    match e
    case Enter(now) =>
      var (b, admission) := Admit(h.b, now);
      if admission == Refuse then h.(log := h.log + [Refused(now)])
      else History(b, h.log + [if h.b.isOpen then CooledDown(now) else Admitted(now)], h.inFlight + 1)
    case Leave(ok, now) =>
      if h.inFlight == 0 then h
      else History(CompleteCall(h.b, ok, now), h.log + [if ok then Succeeded else FailedAt(now)], h.inFlight - 1)
  }

  function Calls(run: seq<CallEvent>): History {
    if run == [] then FRESH else CallStep(Calls(run[..|run| - 1]), run[|run| - 1])
  }

  /** The failed completions since the last success or cool-down. */
  function RecentFailures(log: seq<Happened>): nat {
    if log == [] then 0
    else
      var n := |log| - 1;
      if log[n].Succeeded? || log[n].CooledDown? then 0
      else RecentFailures(log[..n]) + (if log[n].FailedAt? then 1 else 0)
  }

  /** The time of the last failed completion, 0 if there is none. */
  function LastFailure(log: seq<Happened>): int {
    if log == [] then 0
    else
      var n := |log| - 1;
      if log[n].FailedAt? then log[n].at else LastFailure(log[..n])
  }

  /** Is the entry one the breaker should have written, given the failures before it? */
  predicate Allowed(failures: nat, last: int, entry: Happened) {
    match entry
    case Admitted(_) => failures < FAILURE_THRESHOLD
    case CooledDown(now) => failures >= FAILURE_THRESHOLD && now - last > COOL_DOWN
    case Refused(now) => failures >= FAILURE_THRESHOLD && now - last <= COOL_DOWN
    case _ => true
  }

  /** Entry i, judged by the log before it alone. */
  predicate Justified(log: seq<Happened>, i: nat)
    requires i < |log|
  {
    Allowed(RecentFailures(log[..i]), LastFailure(log[..i]), log[i])
  }

  ghost predicate AllJustified(log: seq<Happened>) {
    forall i :: 0 <= i < |log| ==> Justified(log, i)
  }

  /** The breaker's fields say what the failures of the log say. */
  predicate Says(b: Breaker, failures: nat, last: int) {
    b.failures == failures && b.lastFailure == last && (b.isOpen <==> failures >= FAILURE_THRESHOLD)
  }

  ghost predicate Follows(h: History) {
    Says(h.b, RecentFailures(h.log), LastFailure(h.log)) && AllJustified(h.log)
  }

  function NextFailures(failures: nat, entry: Happened): nat {
    if entry.Succeeded? || entry.CooledDown? then 0 else failures + (if entry.FailedAt? then 1 else 0)
  }

  function NextLast(last: int, entry: Happened): int { if entry.FailedAt? then entry.at else last }

  lemma LogOneMore(log: seq<Happened>, entry: Happened)
    requires AllJustified(log) && Allowed(RecentFailures(log), LastFailure(log), entry)
    ensures AllJustified(log + [entry])
    ensures RecentFailures(log + [entry]) == NextFailures(RecentFailures(log), entry)
    ensures LastFailure(log + [entry]) == NextLast(LastFailure(log), entry)
  {
    var longer, n := log + [entry], |log|;
    assert longer[..n] == log;
    forall i | 0 <= i < |longer| ensures Justified(longer, i) {
      if i < n {
        assert Justified(log, i) && longer[..i] == log[..i];
      }
    }
  }

  /** The entry a step writes, if it writes one. */
  function EntryFor(b: Breaker, inFlight: nat, e: CallEvent): Option<Happened> {
    match e
    case Enter(now) =>
      Some(if Admit(b, now).1 == Refuse then Refused(now) else if b.isOpen then CooledDown(now) else Admitted(now))
    case Leave(ok, now) =>
      if inFlight == 0 then None else Some(if ok then Succeeded else FailedAt(now))
  }

  /** One step of the breaker, by its fields alone. */
  lemma StepSays(b: Breaker, inFlight: nat, e: CallEvent, failures: nat, last: int)
    requires Says(b, failures, last) && EntryFor(b, inFlight, e).Some?
    ensures var entry := EntryFor(b, inFlight, e).value;
      && Allowed(failures, last, entry)
      && Says(if e.Enter? then Admit(b, e.now).0 else CompleteCall(b, e.ok, e.now),
              NextFailures(failures, entry), NextLast(last, entry))
  {
  }

  lemma StepWrites(h: History, e: CallEvent)
    ensures var entry := EntryFor(h.b, h.inFlight, e); var h' := CallStep(h, e);
      if entry.None? then h' == h
      else
        && h'.log == h.log + [entry.value]
        && h'.b == if e.Enter? then Admit(h.b, e.now).0 else CompleteCall(h.b, e.ok, e.now)
  {
  }

  lemma CallStepFollows(h: History, e: CallEvent)
    requires Follows(h)
    ensures Follows(CallStep(h, e))
  {
    var entry := EntryFor(h.b, h.inFlight, e);
    StepWrites(h, e);
    if entry.Some? {
      StepSays(h.b, h.inFlight, e, RecentFailures(h.log), LastFailure(h.log));
      LogOneMore(h.log, entry.value);
    }
  }

  lemma {:induction false} RunFollows(run: seq<CallEvent>)
    ensures Follows(Calls(run))
  {
    if run != [] {
      RunFollows(run[..|run| - 1]);
      CallStepFollows(Calls(run[..|run| - 1]), run[|run| - 1]);
    }
  }

  /** Over all interleavings: the breaker is open iff at least five completions have failed since the last
      success or cool-down, its counter is that number, and every call was admitted or refused by that rule -
      invoked only when closed or more than 60 seconds after the last failure. */
  lemma BreakerFollowsHistory(run: seq<CallEvent>, i: nat)
    ensures var h := Calls(run);
      && (run == [] ==> h == History(Breaker(0, 0, false), [], 0))
      && h.b.failures == RecentFailures(h.log) && h.b.lastFailure == LastFailure(h.log)
      && (h.b.isOpen <==> RecentFailures(h.log) >= 5)
      && (i < |h.log| ==>
            var failures, last := RecentFailures(h.log[..i]), LastFailure(h.log[..i]);
            && (h.log[i].Admitted? ==> failures < 5)
            && (h.log[i].CooledDown? ==> failures >= 5 && h.log[i].at - last > 60)
            && (h.log[i].Refused? ==> failures >= 5 && h.log[i].at - last <= 60))
  {
    RunFollows(run);
    var log := Calls(run).log;
    if i < |log| { assert Justified(log, i); }
  }

  /** What the two counts of a log are: a success or a cool-down clears the failures, a failed completion adds
      one and is the last failure, anything else leaves both as they are. */
  lemma LogCounts(log: seq<Happened>, entry: Happened)
    ensures RecentFailures([]) == 0 && LastFailure([]) == 0
    ensures RecentFailures(log + [entry]) ==
            match entry
            case Succeeded => 0
            case CooledDown(_) => 0
            case FailedAt(_) => RecentFailures(log) + 1
            case _ => RecentFailures(log)
    ensures LastFailure(log + [entry]) == if entry.FailedAt? then entry.at else LastFailure(log)
  {
    assert (log + [entry])[..|log|] == log;
  }

  /** What one event of a call writes into the log: an entry for every admission and refusal, and one for every
      completion of a call under way, with its time. */
  lemma CallWrites(h: History, e: CallEvent)
    ensures var h' := CallStep(h, e);
      match e
      case Enter(now) =>
        if !h.b.isOpen then h'.log == h.log + [Admitted(now)] && h'.inFlight == h.inFlight + 1
        else if now - h.b.lastFailure > 60 then h'.log == h.log + [CooledDown(now)] && h'.inFlight == h.inFlight + 1
        else h'.log == h.log + [Refused(now)] && h'.inFlight == h.inFlight
      case Leave(ok, now) =>
        if h.inFlight == 0 then h' == h
        else h'.log == h.log + [if ok then Succeeded else FailedAt(now)] && h'.inFlight == h.inFlight - 1
  {
  }
}
