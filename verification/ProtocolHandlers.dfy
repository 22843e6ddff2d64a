/** Which requests reach a handler in the call protocol. */
module ProtocolHandlers {
  import opened Common
  import opened Framing
  import opened Protocol
  import opened ProtocolSafety
  import opened ProtocolTheorems
  import Tenancy

  /** Only registered handlers run, and what was answered to other requests is HandlerNotFound. */
  ghost predicate Routed(w: World, k: Link) {
    && (k.py.PyRunning? ==> k.py.req.handler in w.handlers)
    && forall i :: 0 <= i < |k.log| && k.log[i].0.handler !in w.handlers ==> k.log[i].1 == NoHandler(k.log[i].0.handler)
  }

  ghost predicate AllRouted(w: World, s: State) {
    forall l :: 0 <= l < |s.links| ==> Routed(w, s.links[l])
  }

  /** Neither the log nor a live Python process is touched. */
  predicate LinksKept(s: State, s': State) {
    && |s'.links| >= |s.links|
    && (forall l :: 0 <= l < |s.links| ==>
          s'.links[l].log == s.links[l].log && (s'.links[l].py == s.links[l].py || s'.links[l].py == PyDead))
    && forall l :: |s.links| <= l < |s'.links| ==> s'.links[l].log == [] && !s'.links[l].py.PyRunning?
  }

  lemma KeptRoutes(w: World, s: State, s': State)
    requires AllRouted(w, s) && LinksKept(s, s')
    ensures AllRouted(w, s')
  {
    forall l | 0 <= l < |s'.links| ensures Routed(w, s'.links[l]) {
      if l < |s.links| { assert Routed(w, s.links[l]); }
    }
  }

  lemma BeginKeepsLinks(w: World, s: State, t: nat)
    ensures LinksKept(s, BeginStep(w, s, t))
  {
  }

  lemma WriteKeepsLinks(s: State, t: nat, n: nat)
    ensures LinksKept(s, WriteStep(s, t, n))
  {
  }

  lemma CallStepKeepsLinks(w: World, s: State, e: Event)
    requires e.Begin? || e.Write? || e.Read? || e.Complete? || e.IoError?
    ensures LinksKept(s, Step(w, s, e))
  {
    if e.Begin? {
      BeginKeepsLinks(w, s, e.t);
    } else if e.Write? {
      WriteKeepsLinks(s, e.t, e.n);
    }
  }

  lemma OtherStepKeepsLinks(w: World, s: State, e: Event)
    requires !PythonStep(e) && !(e.Begin? || e.Write? || e.Read? || e.Complete? || e.IoError?)
    ensures LinksKept(s, Step(w, s, e))
  {
  }

  lemma GoStepRoutes(w: World, s: State, e: Event)
    requires AllRouted(w, s) && !PythonStep(e)
    ensures AllRouted(w, Step(w, s, e))
  {
    if e.Begin? || e.Write? || e.Read? || e.Complete? || e.IoError? {
      CallStepKeepsLinks(w, s, e);
    } else {
      OtherStepKeepsLinks(w, s, e);
    }
    KeptRoutes(w, s, Step(w, s, e));
  }

  lemma RespondRoutes(w: World, s: State, l: nat, resp: Response)
    requires AllRouted(w, s) && l < |s.links| && (s.links[l].py.PySelecting? || s.links[l].py.PyRunning?)
    requires var req := s.links[l].py.req; req.handler in w.handlers || resp == NoHandler(req.handler)
    ensures AllRouted(w, Respond(w, s, l, s.links[l].py.req, resp))
  {
  }

  lemma QuietStepRoutes(w: World, s: State, e: Event)
    requires AllRouted(w, s) && PythonStep(e) && !e.PyLookup? && !e.PyFinish?
    ensures AllRouted(w, Step(w, s, e))
  {
  }

  lemma PythonStepRoutes(w: World, s: State, e: Event)
    requires AllRouted(w, s) && PythonStep(e)
    ensures AllRouted(w, Step(w, s, e))
  {
    match e
    case PyLookup(l) =>
      if l < |s.links| && s.links[l].py.PySelecting? && s.links[l].py.req.handler !in w.handlers {
        RespondRoutes(w, s, l, NoHandler(s.links[l].py.req.handler));
      }
    case PyFinish(l, resp) =>
      if l < |s.links| && s.links[l].py.PyRunning? { RespondRoutes(w, s, l, resp); }
    case _ => QuietStepRoutes(w, s, e);
  }

  lemma {:induction false} ExecRoutes(w: World, s: State, run: seq<Event>)
    requires AllRouted(w, s)
    ensures AllRouted(w, Exec(w, s, run))
    decreases |run|
  {
    if run != [] {
      if PythonStep(run[0]) { PythonStepRoutes(w, s, run[0]); } else { GoStepRoutes(w, s, run[0]); }
      ExecRoutes(w, Step(w, s, run[0]), run[1..]);
    }
  }

  /** A caller that names an unregistered handler and gets a response over a connection without
      transport errors gets the error HandlerNotFound, with the name it gave in the message. */
  lemma UnknownHandlerAnswered(w: World, threads: nat, run: seq<Event>, i: nat)
    requires Sound(w) && i < |After(w, threads, run).delivered|
    ensures var d := After(w, threads, run).delivered[i];
      d.clean && d.req.handler !in w.handlers ==>
        d.resp == CrossError("HandlerNotFound", "no handler registered for '" + d.req.handler + "'")
  {
    ExecRoutes(w, Init(threads), run);
    OwnAnswers(w, threads, run, i);
    var s := After(w, threads, run);
    var d := s.delivered[i];
    assert Routed(w, s.links[d.link]);
  }

  lemma SameMiddle(left: string, a: string, b: string, right: string)
    requires left + a + right == left + b + right
    ensures a == b
  {
    var text := left + a + right;
    assert |a| == |b|;
    assert text[|left|..|left| + |a|] == a && (left + b + right)[|left|..|left| + |b|] == b;
  }

  /** So no call of an unregistered handler is ever answered with a result, and callers that name different
      ones are told apart by what they get. */
  lemma UnknownHandlersDiffer(w: World, threads: nat, run: seq<Event>, i: nat, j: nat)
    requires Sound(w) && i < |After(w, threads, run).delivered| && j < |After(w, threads, run).delivered|
    ensures var d, e := After(w, threads, run).delivered[i], After(w, threads, run).delivered[j];
      d.clean && e.clean && d.req.handler !in w.handlers && e.req.handler !in w.handlers ==>
        && !d.resp.Result? && !e.resp.Result?
        && (d.resp == e.resp <==> d.req.handler == e.req.handler)
  {
    UnknownHandlerAnswered(w, threads, run, i);
    UnknownHandlerAnswered(w, threads, run, j);
    var d, e := After(w, threads, run).delivered[i], After(w, threads, run).delivered[j];
    if d.clean && e.clean && d.req.handler !in w.handlers && e.req.handler !in w.handlers && d.resp == e.resp {
      SameMiddle("no handler registered for '", d.req.handler, e.req.handler, "'");
    }
  }

  // ---- What ends the Python process, and what a connect leaves behind ----

  /** A complete request that does not decode ends the process; one that decodes is taken as it is. */
  lemma RequestTaken(w: World, s: State, l: nat)
    requires l < |s.links| && s.links[l].py.PyReading? && |s.links[l].py.buf| >= 4
    requires |s.links[l].py.buf| == 4 + Uint32(s.links[l].py.buf[..4])
    ensures var k := s.links[l];
      Step(w, s, PyDecode(l)).links ==
      s.links[l := k.(py := if w.requests.dec(k.py.buf[4..]).None? then PyDead
                            else PyGot(w.requests.dec(k.py.buf[4..]).value))]
  {
  }

  /** What a handler answers is sent as one frame and recorded, unless it cannot be packed or is too long for a
      frame: then the process ends and nothing is recorded. */
  lemma AnswerGiven(w: World, s: State, l: nat, resp: Response)
    requires l < |s.links| && s.links[l].py.PyRunning?
    ensures var k, body := s.links[l], w.responses.enc(resp);
      Step(w, s, PyFinish(l, resp)).links ==
      s.links[l := if body.None? || |body.value| >= 4_294_967_296 then k.(py := PyDead)
                   else k.(py := PyWriting(Frame(body.value)), log := k.log + [(k.py.req, resp)])]
  {
  }

  /** A default connect of a running handler is made, with the path its process's tenant has then. */
  lemma ConnectMade(w: World, s: State, l: nat)
    requires l < |s.links| && s.links[l].py.PyRunning?
    ensures Step(w, s, PyConnect(l)).connects ==
      s.connects + [Opened(l, s.links[l].py.req, Tenancy.DbPath(None, None, s.links[l].tenant, w.environment))]
  {
  }
}
