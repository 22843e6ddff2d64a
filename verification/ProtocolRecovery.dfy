/** How long a transport error can do harm: until the connection is found quiet again. */
module ProtocolRecovery {
  import opened Common
  import opened Framing
  import opened Protocol
  import opened ProtocolSafety
  import opened ProtocolTheorems

  /** An event that is a transport error on link l: a read or write of a call over it fails, or a call
      sends a body over it that is too long for its header. */
  ghost predicate Errs(w: World, s: State, e: Event, l: nat) {
    match e
    case IoError(t) => t < |s.threads| && RoleOn(s.threads[t], l) != NoCall
    case Begin(t) =>
      && t < |s.threads| && s.conn == Some(l)
      && BeginStep(w, s, t) != s && BeginStep(w, s, t).threads[t].Sending?
        && |BeginStep(w, s, t).threads[t].out| >= U32 + 4
    case _ => false
  }

  ghost predicate ErrorFree(w: World, s: State, l: nat, run: seq<Event>)
    decreases |run|
  {
    run == [] || (!Errs(w, s, run[0], l) && ErrorFree(w, Step(w, s, run[0]), l, run[1..]))
  }

  /** Connection l is rid of its errors: an erring past is over because nothing is under way, and the
      answer to a call that is under way comes after the first n of its log. */
  predicate Recovered(s: State, l: nat, n: nat) {
    && l < |s.links| && n <= |s.links[l].log|
    && var role, k := RoleOn(Holder(s), l), s.links[l];
       if k.dirty then role == NoCall && Quiet(k) else role != NoCall ==> role.index + k.skew >= n
  }

  /** What was delivered over link l, after the first m deliveries, is clean and in the log from n on. */
  predicate NewOnesRight(s: State, l: nat, m: nat, n: nat) {
    && m <= |s.delivered|
    && forall i :: m <= i < |s.delivered| && s.delivered[i].link == l ==>
      s.delivered[i].clean && s.delivered[i].answer >= n
  }

  ghost predicate Promise(w: World, s: State, l: nat, m: nat, n: nat) {
    Inv(w, s) && Recovered(s, l, n) && NewOnesRight(s, l, m, n)
  }

  lemma BeginRecovers(w: World, s: State, t: nat, l: nat, n: nat)
    requires Inv(w, s) && Recovered(s, l, n) && !Errs(w, s, Begin(t), l)
    ensures Recovered(BeginStep(w, s, t), l, n)
  {
    if t < |s.threads| && s.threads[t].Entered? {
      assert Holder(s) == s.threads[t];
      assert s.links[l].dirty || Exchange(w, NoCall, s.links[l]);
    }
  }

  /** A call over a clean link stays on it or ends. */
  lemma CallStepRecovers(w: World, s: State, e: Event, l: nat, n: nat)
    requires Inv(w, s) && Recovered(s, l, n) && !Errs(w, s, e, l)
    requires e.Write? || e.Read? || e.Complete? || e.IoError?
    ensures Recovered(Step(w, s, e), l, n)
  {
    if e.t < |s.threads| && Inside(s.threads[e.t]) { assert Holder(s) == s.threads[e.t]; }
    if e.Write? {
      WriteRecovers(w, s, e.t, e.n, l, n);
    } else if e.Read? {
      ReadRecovers(w, s, e.t, e.n, l, n);
    }
  }

  lemma WriteRecovers(w: World, s: State, t: nat, bytes: nat, l: nat, n: nat)
    requires Inv(w, s) && Recovered(s, l, n)
    ensures Recovered(WriteStep(s, t, bytes), l, n)
  {
    if t < |s.threads| && Inside(s.threads[t]) { assert Holder(s) == s.threads[t]; }
  }

  lemma ReadRecovers(w: World, s: State, t: nat, bytes: nat, l: nat, n: nat)
    requires Inv(w, s) && Recovered(s, l, n)
    ensures Recovered(ReadStep(s, t, bytes), l, n)
  {
    if t < |s.threads| && Inside(s.threads[t]) { assert Holder(s) == s.threads[t]; }
  }

  lemma EntryStepRecovers(w: World, s: State, e: Event, l: nat, n: nat)
    requires Inv(w, s) && Recovered(s, l, n) && (e.Invoke? || e.Lock? || e.Unlock? || e.StopStep?)
    ensures Recovered(Step(w, s, e), l, n)
  {
    if e.t < |s.threads| && Inside(s.threads[e.t]) { assert Holder(s) == s.threads[e.t]; }
    if e.StopStep? { StopRecovers(w, s, e.t, l, n); }
  }

  lemma StopRecovers(w: World, s: State, t: nat, l: nat, n: nat)
    requires Inv(w, s) && Recovered(s, l, n)
    ensures Recovered(StopLockedStep(s, t), l, n)
  {
    if t < |s.threads| && Inside(s.threads[t]) { assert Holder(s) == s.threads[t]; }
  }

  lemma LaunchRecovers(w: World, s: State, t: nat, ok: bool, l: nat, n: nat)
    requires Inv(w, s) && Recovered(s, l, n)
    ensures Recovered(LaunchStep(s, t, ok), l, n)
  {
    if t < |s.threads| && Inside(s.threads[t]) { assert Holder(s) == s.threads[t]; }
  }

  lemma OpenStepRecovers(w: World, s: State, e: Event, l: nat, n: nat)
    requires Inv(w, s) && Recovered(s, l, n) && (e.ListenDone? || e.LaunchDone? || e.AcceptDone? || e.Mark?)
    ensures Recovered(Step(w, s, e), l, n)
  {
    if e.t < |s.threads| && Inside(s.threads[e.t]) { assert Holder(s) == s.threads[e.t]; }
    if e.LaunchDone? { LaunchRecovers(w, s, e.t, e.ok, l, n); }
  }

  /** What a Python step can do to a link, as far as its recovery goes. */
  predicate PythonLeaves(s: State, s': State, l: nat) {
    && s'.threads == s.threads && s'.mutex == s.mutex && s'.delivered == s.delivered && |s'.links| == |s.links|
    && (l < |s.links| ==>
          var k, k' := s.links[l], s'.links[l];
          && k'.dirty == k.dirty && k'.from == k.from && k'.skew == k.skew && |k.log| <= |k'.log|
          && (Quiet(k) ==> Quiet(k')))
  }

  lemma RespondLeaves(w: World, s: State, m: nat, resp: Response, l: nat)
    requires m < |s.links| && (s.links[m].py.PySelecting? || s.links[m].py.PyRunning?)
    ensures PythonLeaves(s, Respond(w, s, m, s.links[m].py.req, resp), l)
  {
  }

  lemma HandlingLeaves(w: World, s: State, e: Event, l: nat)
    requires e.PyLookup? || e.PyFinish?
    ensures PythonLeaves(s, Step(w, s, e), l)
  {
    if e.l < |s.links| {
      var py := s.links[e.l].py;
      if e.PyFinish? && py.PyRunning? {
        RespondLeaves(w, s, e.l, e.resp, l);
      } else if e.PyLookup? && py.PySelecting? {
        RespondLeaves(w, s, e.l, NoHandler(py.req.handler), l);
      }
    }
  }

  lemma ReadingLeaves(w: World, s: State, e: Event, l: nat)
    requires e.PyRead? || e.PyDecode?
    ensures PythonLeaves(s, Step(w, s, e), l)
  {
  }

  lemma PythonStepLeaves(w: World, s: State, e: Event, l: nat)
    requires PythonStep(e)
    ensures PythonLeaves(s, Step(w, s, e), l)
  {
    if e.PyLookup? || e.PyFinish? {
      HandlingLeaves(w, s, e, l);
    } else if e.PyRead? || e.PyDecode? {
      ReadingLeaves(w, s, e, l);
    }
  }

  /** Only a completed receive delivers. */
  lemma DeliveredKept(w: World, s: State, e: Event)
    requires !PythonStep(e) && !e.Complete?
    ensures Step(w, s, e).delivered == s.delivered
  {
    if e.Begin? { BeginDelivers(w, s, e.t); }
  }

  lemma BeginDelivers(w: World, s: State, t: nat)
    ensures BeginStep(w, s, t).delivered == s.delivered
  {
  }

  lemma CompleteDelivers(w: World, s: State, t: nat, l: nat, m: nat, n: nat)
    requires Promise(w, s, l, m, n)
    ensures NewOnesRight(CompleteStep(w, s, t), l, m, n)
  {
    if t < |s.threads| && Inside(s.threads[t]) { assert Holder(s) == s.threads[t]; }
  }

  lemma StepDelivers(w: World, s: State, e: Event, l: nat, m: nat, n: nat)
    requires Promise(w, s, l, m, n)
    ensures NewOnesRight(Step(w, s, e), l, m, n)
  {
    if PythonStep(e) {
      PythonStepLeaves(w, s, e, l);
    } else if e.Complete? {
      CompleteDelivers(w, s, e.t, l, m, n);
    } else {
      DeliveredKept(w, s, e);
    }
  }

  lemma StepPromises(w: World, s: State, e: Event, l: nat, m: nat, n: nat)
    requires Sound(w) && Promise(w, s, l, m, n) && !Errs(w, s, e, l)
    ensures Promise(w, Step(w, s, e), l, m, n)
  {
    StepKeeps(w, s, e);
    StepDelivers(w, s, e, l, m, n);
    if PythonStep(e) {
      PythonStepLeaves(w, s, e, l);
    } else if e.Begin? {
      BeginRecovers(w, s, e.t, l, n);
    } else if e.Write? || e.Read? || e.Complete? || e.IoError? {
      CallStepRecovers(w, s, e, l, n);
    } else if e.Invoke? || e.Lock? || e.Unlock? || e.StopStep? {
      EntryStepRecovers(w, s, e, l, n);
    } else {
      OpenStepRecovers(w, s, e, l, n);
    }
  }

  lemma {:induction false} RunPromises(w: World, s: State, l: nat, run: seq<Event>, m: nat, n: nat)
    requires Sound(w) && Promise(w, s, l, m, n) && ErrorFree(w, s, l, run)
    ensures Promise(w, Exec(w, s, run), l, m, n)
    decreases |run|
  {
    if run != [] {
      StepPromises(w, s, run[0], l, m, n);
      RunPromises(w, Step(w, s, run[0]), l, run[1..], m, n);
    }
  }

  /** From any reachable state in which connection l is quiet and no call is using it, whatever errors came
      before, and over all continuations up to the next transport error on it: every response handed to a
      caller over it is one that Python has computed since, from that caller's own request. */
  lemma ErrorsAreOver(w: World, s: State, l: nat, run: seq<Event>, i: nat)
    requires Sound(w) && Inv(w, s) && l < |s.links| && Quiet(s.links[l]) && RoleOn(Holder(s), l) == NoCall
    requires ErrorFree(w, s, l, run)
    requires var s' := Exec(w, s, run); |s.delivered| <= i < |s'.delivered| && s'.delivered[i].link == l
    ensures var s' := Exec(w, s, run); var d := s'.delivered[i];
      && d.clean && l < |s'.links| && d.sentOn == l
      && |s.links[l].log| <= d.answer < |s'.links[l].log| && s'.links[l].log[d.answer] == (d.req, d.resp)
  {
    RunPromises(w, s, l, run, |s.delivered|, |s.links[l].log|);
    var s' := Exec(w, s, run);
    assert DeliveryRight(s'.delivered[i], s'.links);
  }

  // ---- Connections that are not quiet ----

  predicate Harmless(run: seq<Event>) {
    forall i :: 0 <= i < |run| ==> !run[i].IoError? && !run[i].Begin?
  }

  lemma {:induction false} HarmlessIsErrorFree(w: World, s: State, l: nat, run: seq<Event>)
    requires Harmless(run)
    ensures ErrorFree(w, s, l, run)
    decreases |run|
  {
    if run != [] { HarmlessIsErrorFree(w, Step(w, s, run[0]), l, run[1..]); }
  }

  lemma {:induction false} ErrorFreeAppend(w: World, s: State, l: nat, a: seq<Event>, b: seq<Event>)
    requires ErrorFree(w, s, l, a) && ErrorFree(w, Exec(w, s, a), l, b)
    ensures ErrorFree(w, s, l, a + b)
    decreases |a|
  {
    if a == [] {
      assert a + b == b;
    } else {
      assert (a + b)[0] == a[0] && (a + b)[1..] == a[1..] + b;
      ErrorFreeAppend(w, Step(w, s, a[0]), l, a[1..], b);
    }
  }

  lemma AskIsErrorFree(w: World, s: State, t: nat, l: nat, req: Request)
    requires Usable(s, t, l) && Fits(w.requests, req)
    ensures ErrorFree(w, s, l, AskRun(w, t, req))
  {
    var a, b, c := [Invoke(t, Call(req)), Lock(t)], [Begin(t)], [Write(t, |FrameOf(w.requests, req)|)];
    assert AskRun(w, t, req) == a + (b + c);
    HarmlessIsErrorFree(w, s, l, a);
    Exec2(w, s, a[0], a[1]);
    var s1 := Exec(w, s, a);
    assert s1.threads[t] == Entered(Call(req));
    BeginIsHarmless(w, s1, t, l, req);
    HarmlessIsErrorFree(w, BeginStep(w, s1, t), l, c);
    assert (b + c)[1..] == c;
    ErrorFreeAppend(w, s, l, a, b + c);
  }

  lemma BeginIsHarmless(w: World, s: State, t: nat, l: nat, req: Request)
    requires t < |s.threads| && s.threads[t] == Entered(Call(req)) && Fits(w.requests, req)
    ensures !Errs(w, s, Begin(t), l)
  {
  }

  /** What an abandoned call leaves on its connection: its request, its running handler, or its response. */
  ghost predicate Abandoned(w: World, k: Link, first: Request, resp: Response)
    requires Fits(w.requests, first) && Fits(w.responses, resp)
  {
    || (k.py == PyReading([]) && k.toPy == FrameOf(w.requests, first) && k.toGo == [])
    || (k.py == PyRunning(first) && k.toPy == [] && k.toGo == [])
    || (k.py == PyReading([]) && k.toPy == [] && k.toGo == FrameOf(w.responses, resp))
  }

  /** What Python still does for an abandoned call. */
  ghost function RestOfCall(w: World, k: Link, l: nat, first: Request, resp: Response): seq<Event>
    requires Fits(w.requests, first) && Fits(w.responses, resp)
  {
    if k.py.PyRunning? then [PyFinish(l, resp), PyWrite(l, |FrameOf(w.responses, resp)|)]
    else if k.toPy != [] then ServeRun(w, l, first, resp)
    else []
  }

  /** The abandoned response is, or comes to be, all there is to read. */
  lemma AbandonedComes(w: World, s: State, l: nat, k: Link, first: Request, more: Bytes, resp: Response)
    requires Sound(w) && Carried(w.requests, first) && Carried(w.responses, resp) && first.handler in w.handlers
    requires l < |s.links| && Abandoned(w, k, first, resp) && s.links[l].py == k.py
    requires s.links[l].toPy == k.toPy + more && s.links[l].toGo == k.toGo
    ensures var s' := Exec(w, s, RestOfCall(w, k, l, first, resp));
      && l < |s'.links| && s' == SetLink(s, l, s'.links[l])
      && s'.links[l].toGo == FrameOf(w.responses, resp)
      && s'.links[l].dirty == s.links[l].dirty && s'.links[l].skew == s.links[l].skew
  {
    assert [] + FrameOf(w.responses, resp) == FrameOf(w.responses, resp);
    if k.py.PyRunning? {
      Answers(w, s, l, first, resp);
    } else if k.toPy != [] {
      Serve(w, s, l, first, resp, more);
    } else {
      assert s.links[l := s.links[l]] == s.links;
    }
  }

  ghost function NextCallRun(w: World, k: Link, u: nat, l: nat, first: Request, second: Request,
      resp: Response): seq<Event>
    requires Fits(w.requests, first) && Fits(w.requests, second) && Fits(w.responses, resp)
  {
    AskRun(w, u, second) + (RestOfCall(w, k, l, first, resp) + TakeRun(w, u, resp))
  }

  lemma NextCallIsErrorFree(w: World, s: State, k: Link, u: nat, l: nat, first: Request, second: Request,
      resp: Response)
    requires Usable(s, u, l) && Fits(w.requests, first) && Fits(w.requests, second) && Fits(w.responses, resp)
    ensures ErrorFree(w, s, l, NextCallRun(w, k, u, l, first, second, resp))
  {
    var a, b := AskRun(w, u, second), RestOfCall(w, k, l, first, resp) + TakeRun(w, u, resp);
    AskIsErrorFree(w, s, u, l, second);
    HarmlessIsErrorFree(w, Exec(w, s, a), l, b);
    ErrorFreeAppend(w, s, l, a, b);
  }

  lemma TakenAfter(w: World, s: State, run: seq<Event>, u: nat, resp: Response)
    requires Sound(w) && Carried(w.responses, resp)
    requires var s1 := Exec(w, s, run);
      && u < |s1.threads| && s1.threads[u].Receiving? && s1.threads[u].buf == [] && s1.threads[u].link < |s1.links|
      && s1.links[s1.threads[u].link].toGo == FrameOf(w.responses, resp)
    ensures var s1 := Exec(w, s, run);
      Exec(w, s, run + TakeRun(w, u, resp)).delivered == s1.delivered + [Handed(s1, u, resp)]
  {
    Take(w, Exec(w, s, run), u, resp);
    ExecAppend(w, s, run, TakeRun(w, u, resp));
  }

  lemma AbandonedIsTaken(w: World, s: State, u: nat, l: nat, k: Link, first: Request, more: Bytes, resp: Response)
    requires Sound(w) && Carried(w.requests, first) && Carried(w.responses, resp) && first.handler in w.handlers
    requires l < |s.links| && Abandoned(w, k, first, resp) && s.links[l].py == k.py
    requires s.links[l].toPy == k.toPy + more && s.links[l].toGo == k.toGo
    requires u < |s.threads| && s.threads[u].Receiving? && s.threads[u].buf == [] && s.threads[u].link == l
    ensures Exec(w, s, RestOfCall(w, k, l, first, resp) + TakeRun(w, u, resp)).delivered
            == s.delivered + [Handed(s, u, resp)]
  {
    AbandonedComes(w, s, l, k, first, more, resp);
    TakenAfter(w, s, RestOfCall(w, k, l, first, resp), u, resp);
  }

  lemma AbandonedIsTakenAfter(w: World, s: State, run: seq<Event>, u: nat, l: nat, k: Link, k1: Link, pc: Pc,
                              first: Request, more: Bytes, resp: Response)
    requires Sound(w) && Carried(w.requests, first) && Carried(w.responses, resp) && first.handler in w.handlers
    requires Abandoned(w, k, first, resp) && Waits(s, Exec(w, s, run), u, l, k1, pc)
    requires k1.py == k.py && k1.toPy == k.toPy + more && k1.toGo == k.toGo
    ensures Exec(w, s, run + (RestOfCall(w, k, l, first, resp) + TakeRun(w, u, resp))).delivered
            == s.delivered + [Delivery(u, pc.req, pc.sentOn, pc.index, l, resp, !k1.dirty, pc.index + k1.skew)]
  {
    WaitsOn(s, Exec(w, s, run), u, l, k1, pc);
    AbandonedIsTaken(w, Exec(w, s, run), u, l, k, first, more, resp);
    ExecAppend(w, s, run, RestOfCall(w, k, l, first, resp) + TakeRun(w, u, resp));
  }

  /** Quietness is what `ErrorsAreOver` needs: where a call was abandoned with its request, its handler or
      its response still on the connection, the next caller can be handed that call's response, without
      any further error. */
  lemma AbandonedIsHandedOver(w: World, s: State, u: nat, l: nat, first: Request, second: Request, resp: Response)
    requires Sound(w) && Usable(s, u, l) && first.handler in w.handlers
    requires Carried(w.requests, first) && Fits(w.requests, second) && Carried(w.responses, resp)
    requires Abandoned(w, s.links[l], first, resp)
    ensures var k, run := s.links[l], NextCallRun(w, s.links[l], u, l, first, second, resp);
      && ErrorFree(w, s, l, run)
      && Exec(w, s, run).delivered
         == s.delivered + [Delivery(u, second, l, |k.sent|, l, resp, !k.dirty, |k.sent| + k.skew)]
  {
    var k := s.links[l];
    NextCallIsErrorFree(w, s, k, u, l, first, second, resp);
    AskUnquiet(w, s, u, l, second);
    var more := FrameOf(w.requests, second);
    var k1 := k.(sent := k.sent + [second], toPy := k.toPy + more);
    AbandonedIsTakenAfter(w, s, AskRun(w, u, second), u, l, k, k1, Receiving(second, l, |k.sent|, l, []), first,
      more, resp);
  }

  lemma AskUnquiet(w: World, s: State, u: nat, l: nat, req: Request)
    requires Usable(s, u, l) && Fits(w.requests, req) && !Quiet(s.links[l])
    ensures var k := s.links[l];
      Waits(s, Exec(w, s, AskRun(w, u, req)), u, l,
            k.(sent := k.sent + [req], toPy := k.toPy + FrameOf(w.requests, req)), Receiving(req, l, |k.sent|, l, []))
  {
    Ask(w, s, u, l, req);
  }

  /** A connection that has been free of errors since it was opened never needs settling. */
  predicate Spotless(s: State, l: nat) {
    l < |s.links| ==> !s.links[l].dirty && s.links[l].from == 0 && s.links[l].skew == 0
  }

  lemma StepSpotless(w: World, s: State, e: Event, l: nat)
    requires Spotless(s, l) && !Errs(w, s, e, l)
    ensures Spotless(Step(w, s, e), l)
  {
    if PythonStep(e) {
      PythonStepLeaves(w, s, e, l);
    } else if e.Begin? {
      BeginSpotless(w, s, e.t, l);
    } else {
      OtherSpotless(w, s, e, l);
    }
  }

  lemma BeginSpotless(w: World, s: State, t: nat, l: nat)
    requires Spotless(s, l) && !Errs(w, s, Begin(t), l)
    ensures Spotless(BeginStep(w, s, t), l)
  {
  }

  lemma OtherSpotless(w: World, s: State, e: Event, l: nat)
    requires Spotless(s, l) && !Errs(w, s, e, l) && !PythonStep(e) && !e.Begin?
    ensures Spotless(Step(w, s, e), l)
  {
  }

  lemma {:induction false} ErrorFreeKeeps(w: World, s: State, l: nat, run: seq<Event>)
    requires Spotless(s, l) && ErrorFree(w, s, l, run)
    ensures Spotless(Exec(w, s, run), l)
    decreases |run|
  {
    if run != [] {
      StepSpotless(w, s, run[0], l);
      ErrorFreeKeeps(w, Step(w, s, run[0]), l, run[1..]);
    }
  }

  /** So on a connection without errors every request but at most the last is answered, in order. */
  lemma AnsweredInOrder(w: World, threads: nat, run: seq<Event>, l: nat)
    requires Sound(w) && ErrorFree(w, Init(threads), l, run) && l < |After(w, threads, run).links|
    ensures var k := After(w, threads, run).links[l];
      && !k.dirty && |k.log| <= |k.sent| <= |k.log| + 1
      && forall i :: 0 <= i < |k.log| ==> k.log[i].0 == k.sent[i]
  {
    ErrorFreeKeeps(w, Init(threads), l, run);
    OneOutstanding(w, threads, run, l);
    var k := After(w, threads, run).links[l];
    forall i | 0 <= i < |k.log| ensures k.log[i].0 == k.sent[i] {
      assert i + k.skew == i;
    }
  }
}
