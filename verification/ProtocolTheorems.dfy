/** The promises of the call protocol, over every run, and the runs that show it makes progress. */
module ProtocolTheorems {
  import opened Common
  import opened Framing
  import opened Protocol
  import opened ProtocolSafety
  import Tenancy

  ghost function After(w: World, threads: nat, run: seq<Event>): State {
    Exec(w, Init(threads), run)
  }

  lemma RunInv(w: World, threads: nat, run: seq<Event>)
    requires Sound(w)
    ensures Inv(w, After(w, threads, run))
  {
    ExecKeeps(w, Init(threads), run);
  }

  // ---- Safety, for every number of threads and every run ----

  /** At most one thread is inside `CallPython`, `Start`, `Restart` or `Stop`; whenever the mutex
      is free `started` holds exactly when `conn` is set; no nil connection is ever used. */
  lemma MutualExclusion(w: World, threads: nat, run: seq<Event>, t: nat, u: nat)
    requires Sound(w)
    requires var s := After(w, threads, run); t < |s.threads| && u < |s.threads|
    ensures var s := After(w, threads, run);
      && (Inside(s.threads[t]) && Inside(s.threads[u]) ==> t == u)
      && (s.mutex == None ==> (s.started <==> s.conn.Some?))
      && s.threads[t] != NilDereference
  {
    RunInv(w, threads, run);
  }

  /** Every response a caller gets was read on the connection its request was sent on; without a
      transport error on that connection it is the response Python computed from that very
      request; and no request is answered to two callers. */
  lemma OwnAnswers(w: World, threads: nat, run: seq<Event>, i: nat)
    requires Sound(w) && i < |After(w, threads, run).delivered|
    ensures var s := After(w, threads, run); var d := s.delivered[i];
      && d.link < |s.links| && d.sentOn == d.link
      && d.index < |s.links[d.link].sent|
      && (d.clean ==> 0 <= d.answer < |s.links[d.link].log| && s.links[d.link].log[d.answer] == (d.req, d.resp))
      && forall j :: 0 <= j < |s.delivered| && j != i ==>
           (s.delivered[j].link, s.delivered[j].index) != (d.link, d.index)
  {
    RunInv(w, threads, run);
    var s := After(w, threads, run);
    assert DeliveryRight(s.delivered[i], s.links);
  }

  /** Without a transport error on a connection its requests are answered in order, all but at most the
      last of them; and bytes are in flight or a handler is at work on it only while the mutex holder is
      calling over it. (`skew` is 0 as long as there never was an error, see `ErrorFreeKeeps`.) */
  lemma OneOutstanding(w: World, threads: nat, run: seq<Event>, l: nat)
    requires Sound(w)
    requires var s := After(w, threads, run); l < |s.links| && !s.links[l].dirty
    ensures var s := After(w, threads, run); var k := s.links[l];
      && |k.log| <= |k.sent| + k.skew <= |k.log| + 1
      && (forall i :: k.from <= i && i + k.skew < |k.log| ==> 0 <= i + k.skew && k.log[i + k.skew].0 == k.sent[i])
      && (!Quiet(k) ==>
            && s.mutex.Some? && s.mutex.value < |s.threads| && s.conn == Some(l)
            && (Holder(s).Sending? || Holder(s).Receiving?) && Holder(s).link == l)
  {
    RunInv(w, threads, run);
    var s := After(w, threads, run);
    assert Exchange(w, RoleOn(Holder(s), l), s.links[l]);
  }

  /** While Python runs the handler of a request, the tenant variable is that request's tenant;
      without a transport error the mutex holder is waiting for exactly that request. */
  lemma TenantOfRequest(w: World, threads: nat, run: seq<Event>, l: nat)
    requires Sound(w)
    requires var s := After(w, threads, run); l < |s.links| && s.links[l].py.PyRunning?
    ensures var s := After(w, threads, run); var req := s.links[l].py.req;
      && s.links[l].tenant == req.tenant
      && s.cmd == Some(l)
      && (!s.links[l].dirty ==> Holder(s).Receiving? && Holder(s).req == req && Holder(s).link == l)
  {
    RunInv(w, threads, run);
    var s := After(w, threads, run);
    assert s.links[l].dirty || Exchange(w, RoleOn(Holder(s), l), s.links[l]);
  }

  /** Each default connect opens the path of its own request's tenant - "pygo_<tenant>.db", or the configured
      default or "pygo.db" without one - and two of them made for different non-empty tenants without
      slashes never share a file. */
  lemma TenantsIsolated(w: World, threads: nat, run: seq<Event>, i: nat, j: nat, cwd: seq<string>)
    requires Sound(w)
    requires var s := After(w, threads, run); i < |s.connects| && j < |s.connects|
    ensures var s := After(w, threads, run); var a, b := s.connects[i], s.connects[j];
      && (forall t :: a.req.tenant == Some(t) && t != "" ==>
            a.path == "pygo_" + t + ".db" && Tenancy.Opens(cwd, a.path) == Tenancy.File(Tenancy.Resolve(cwd, a.path)))
      && (a.req.tenant == None || a.req.tenant == Some("") ==>
            a.path == if w.environment.Some? && w.environment.value != "" then w.environment.value else "pygo.db")
      && (forall t, u ::
            && a.req.tenant == Some(t) && t != "" && '/' !in t
            && b.req.tenant == Some(u) && u != "" && '/' !in u && t != u
            ==> Tenancy.Opens(cwd, a.path) != Tenancy.Opens(cwd, b.path))
  {
    RunInv(w, threads, run);
    var s := After(w, threads, run);
    var a, b := s.connects[i].req.tenant, s.connects[j].req.tenant;
    if Tenancy.Truthy(a) { Tenancy.TenantPathShape(a.value); }
    Tenancy.DefaultConnectsShareFileIff(cwd, a, b, w.environment);
  }

  /** A live Python process is the one launched last; when the mutex is free and nothing is
      started, none is alive. */
  lemma ProcessesAlive(w: World, threads: nat, run: seq<Event>, l: nat)
    requires Sound(w)
    requires var s := After(w, threads, run); l < |s.links| && s.links[l].py != PyDead
    ensures var s := After(w, threads, run); s.cmd == Some(l) && (s.mutex == None ==> s.conn == Some(l) && s.started)
  {
    RunInv(w, threads, run);
  }

  // ---- Progress: explicit runs ----

  lemma {:induction false} ExecAppend(w: World, s: State, a: seq<Event>, b: seq<Event>)
    ensures Exec(w, s, a + b) == Exec(w, Exec(w, s, a), b)
    decreases |a|
  {
    if a == [] {
      assert a + b == b;
    } else {
      assert (a + b)[0] == a[0] && (a + b)[1..] == a[1..] + b;
      ExecAppend(w, Step(w, s, a[0]), a[1..], b);
    }
  }

  lemma ExecCons(w: World, s: State, e: Event, run: seq<Event>)
    ensures Exec(w, s, [e] + run) == Exec(w, Step(w, s, e), run)
  {
    assert ([e] + run)[1..] == run;
  }

  lemma Exec2(w: World, s: State, e0: Event, e1: Event)
    ensures Exec(w, s, [e0, e1]) == Step(w, Step(w, s, e0), e1)
  {
    ExecCons(w, s, e0, [e1]);
    ExecCons(w, Step(w, s, e0), e1, []);
    assert [e0, e1] == [e0] + [e1] && [e1] == [e1] + [];
  }

  lemma Exec3(w: World, s: State, e0: Event, e1: Event, e2: Event)
    ensures Exec(w, s, [e0, e1, e2]) == Step(w, Step(w, Step(w, s, e0), e1), e2)
  {
    ExecCons(w, s, e0, [e1, e2]);
    ExecCons(w, Step(w, s, e0), e1, [e2]);
    ExecCons(w, Step(w, Step(w, s, e0), e1), e2, []);
    assert [e0, e1, e2] == [e0] + [e1, e2];
    assert [e1, e2] == [e1] + [e2];
    assert [e2] == [e2] + [];
  }

  lemma Exec4(w: World, s: State, e0: Event, e1: Event, e2: Event, e3: Event)
    ensures Exec(w, s, [e0, e1, e2, e3]) == Step(w, Step(w, Step(w, Step(w, s, e0), e1), e2), e3)
  {
    ExecCons(w, s, e0, [e1, e2, e3]);
    Exec3(w, Step(w, s, e0), e1, e2, e3);
    assert [e0, e1, e2, e3] == [e0] + [e1, e2, e3];
  }

  predicate Usable(s: State, t: nat, l: nat) {
    && t < |s.threads| && s.threads[t] == Idle && s.mutex == None
    && s.started && s.conn == Some(l) && l < |s.links|
  }

  /** A free supervisor with an idle connection to a Python process at the top of its loop. */
  predicate Ready(s: State, l: nat) {
    && s.mutex == None && s.started && s.conn == Some(l) && l < |s.links|
    && s.links[l].toPy == [] && s.links[l].toGo == [] && s.links[l].py == PyReading([])
  }

  ghost function AskRun(w: World, t: nat, req: Request): seq<Event>
    requires Fits(w.requests, req)
  {
    [Invoke(t, Call(req)), Lock(t), Begin(t), Write(t, |FrameOf(w.requests, req)|)]
  }

  lemma Ask(w: World, s: State, t: nat, l: nat, req: Request)
    requires Usable(s, t, l) && Fits(w.requests, req)
    ensures var k := Settled(s.links[l]);
      Exec(w, s, AskRun(w, t, req)) ==
      s.(mutex := Some(t), threads := s.threads[t := Receiving(req, l, |k.sent|, l, [])],
         links := s.links[l := k.(sent := k.sent + [req], toPy := k.toPy + FrameOf(w.requests, req))])
  {
    var k, out := Settled(s.links[l]), FrameOf(w.requests, req);
    Exec4(w, s, Invoke(t, Call(req)), Lock(t), Begin(t), Write(t, |out|));
    var s1 := Step(w, s, Invoke(t, Call(req)));
    assert s1 == s.(threads := s.threads[t := Waiting(Call(req))]);
    var s2 := Step(w, s1, Lock(t));
    assert s2 == s.(mutex := Some(t), threads := s.threads[t := Entered(Call(req))]);
    var s3 := Step(w, s2, Begin(t));
    assert s3 == s.(mutex := Some(t), threads := s.threads[t := Sending(req, l, |k.sent|, out)],
                    links := s.links[l := k.(sent := k.sent + [req])]);
    assert out[..|out|] == out;
  }

  ghost function ServeRun(w: World, l: nat, req: Request, resp: Response): seq<Event>
    requires Fits(w.requests, req) && Fits(w.responses, resp)
  {
    [PyRead(l, 4), PyRead(l, |w.requests.enc(req).value|), PyDecode(l)]
    + [PySetTenant(l), PyLookup(l), PyFinish(l, resp), PyWrite(l, |FrameOf(w.responses, resp)|)]
  }

  /** A value both ends can carry. */
  ghost predicate Carried<T>(c: Codec<T>, v: T) {
    Fits(c, v) && c.dec(c.enc(v).value).Some?
  }

  /** Reading a header and then the body it announces. */
  lemma PyReadParts(s: State, l: nat, header: Bytes, body: Bytes, rest: Bytes)
    requires l < |s.links| && |header| == 4 && Uint32(header) == |body|
    requires s.links[l].py == PyReading([]) && s.links[l].toPy == header + body + rest
    ensures PyReadStep(PyReadStep(s, l, 4), l, |body|) ==
            SetLink(s, l, s.links[l].(toPy := rest, py := PyReading(header + body)))
  {
    var k := s.links[l];
    var k1 := k.(py := PyReading(header), toPy := body + rest);
    assert k.toPy[..4] == header && k.toPy[4..] == body + rest && [] + header == header;
    var s1 := PyReadStep(s, l, 4);
    assert s1 == SetLink(s, l, k1);
    assert header[..4] == header;
    if body == [] {
      assert header + body == header && body + rest == rest;
    } else {
      assert (body + rest)[..|body|] == body && (body + rest)[|body|..] == rest;
      OverwriteLink(s, l, k1, k1.(py := PyReading(header + body), toPy := rest));
    }
  }

  lemma PyReadFrame(s: State, l: nat, body: Bytes, rest: Bytes)
    requires l < |s.links| && |body| < U32
    requires s.links[l].py == PyReading([]) && s.links[l].toPy == Frame(body) + rest
    ensures PyReadStep(PyReadStep(s, l, 4), l, |body|) ==
      SetLink(s, l, s.links[l].(toPy := rest, py := PyReading(Frame(body))))
  {
    SmallHeader(|body|);
    PyReadParts(s, l, PutUint32(|body|), body, rest);
  }

  lemma DecodesFrame(w: World, s: State, l: nat, req: Request)
    requires Sound(w) && l < |s.links| && Carried(w.requests, req)
      && s.links[l].py == PyReading(FrameOf(w.requests, req))
    ensures Exec(w, s, [PyDecode(l)]) == SetLink(s, l, s.links[l].(py := PyGot(req)))
  {
    NeededOfFrame(FrameOf(w.requests, req), w.requests.enc(req).value);
    ExecCons(w, s, PyDecode(l), []);
    assert [PyDecode(l)] == [PyDecode(l)] + [];
  }

  lemma OverwriteLink(s: State, l: nat, k: Link, k': Link)
    requires l < |s.links|
    ensures SetLink(SetLink(s, l, k), l, k') == SetLink(s, l, k')
  {
    assert s.links[l := k][l := k'] == s.links[l := k'];
  }

  lemma TakeRequest(w: World, s: State, l: nat, req: Request, rest: Bytes)
    requires Sound(w) && l < |s.links| && Carried(w.requests, req)
    requires s.links[l].py == PyReading([]) && s.links[l].toPy == FrameOf(w.requests, req) + rest
    ensures Exec(w, s, [PyRead(l, 4), PyRead(l, |w.requests.enc(req).value|), PyDecode(l)]) ==
      SetLink(s, l, s.links[l].(toPy := rest, py := PyGot(req)))
  {
    var body := w.requests.enc(req).value;
    var a, b := [PyRead(l, 4), PyRead(l, |body|)], [PyDecode(l)];
    assert [PyRead(l, 4), PyRead(l, |body|), PyDecode(l)] == a + b;
    ExecAppend(w, s, a, b);
    PyReadsFrame(w, s, l, body, rest);
    var k := s.links[l].(toPy := rest, py := PyReading(Frame(body)));
    DecodesFrame(w, SetLink(s, l, k), l, req);
    OverwriteLink(s, l, k, k.(py := PyGot(req)));
  }

  lemma PyReadsFrame(w: World, s: State, l: nat, body: Bytes, rest: Bytes)
    requires l < |s.links| && |body| < U32
    requires s.links[l].py == PyReading([]) && s.links[l].toPy == Frame(body) + rest
    ensures Exec(w, s, [PyRead(l, 4), PyRead(l, |body|)]) ==
      SetLink(s, l, s.links[l].(toPy := rest, py := PyReading(Frame(body))))
  {
    Exec2(w, s, PyRead(l, 4), PyRead(l, |body|));
    PyReadFrame(s, l, body, rest);
  }

  lemma Selects(w: World, s: State, l: nat, req: Request)
    requires l < |s.links| && req.handler in w.handlers && s.links[l].py == PyGot(req)
    ensures Exec(w, s, [PySetTenant(l), PyLookup(l)]) ==
      SetLink(s, l, s.links[l].(py := PyRunning(req), tenant := req.tenant))
  {
    Exec2(w, s, PySetTenant(l), PyLookup(l));
    var k := s.links[l].(py := PySelecting(req), tenant := req.tenant);
    OverwriteLink(s, l, k, k.(py := PyRunning(req)));
  }

  lemma Answers(w: World, s: State, l: nat, req: Request, resp: Response)
    requires l < |s.links| && Fits(w.responses, resp) && s.links[l].py == PyRunning(req)
    ensures var out := FrameOf(w.responses, resp);
      Exec(w, s, [PyFinish(l, resp), PyWrite(l, |out|)]) ==
      SetLink(s, l, s.links[l].(py := PyReading([]), log := s.links[l].log + [(req, resp)],
                                toGo := s.links[l].toGo + out))
  {
    var out := FrameOf(w.responses, resp);
    Exec2(w, s, PyFinish(l, resp), PyWrite(l, |out|));
    var k := s.links[l].(py := PyWriting(out), log := s.links[l].log + [(req, resp)]);
    WriteWhole(SetLink(s, l, k), l, out);
    OverwriteLink(s, l, k, k.(py := PyReading([]), toGo := k.toGo + out));
  }

  lemma GiveResponse(w: World, s: State, l: nat, req: Request, resp: Response)
    requires l < |s.links| && Fits(w.responses, resp) && req.handler in w.handlers
    requires s.links[l].py == PyGot(req)
    ensures Exec(w, s, [PySetTenant(l), PyLookup(l), PyFinish(l, resp), PyWrite(l, |FrameOf(w.responses, resp)|)]) ==
      SetLink(s, l, s.links[l].(py := PyReading([]), tenant := req.tenant, log := s.links[l].log + [(req, resp)],
                                toGo := s.links[l].toGo + FrameOf(w.responses, resp)))
  {
    var k, out := s.links[l], FrameOf(w.responses, resp);
    var a, b := [PySetTenant(l), PyLookup(l)], [PyFinish(l, resp), PyWrite(l, |out|)];
    assert [PySetTenant(l), PyLookup(l), PyFinish(l, resp), PyWrite(l, |out|)] == a + b;
    ExecAppend(w, s, a, b);
    Selects(w, s, l, req);
    var k2 := k.(py := PyRunning(req), tenant := req.tenant);
    var s2 := SetLink(s, l, k2);
    Answers(w, s2, l, req, resp);
    OverwriteLink(s, l, k2, k2.(py := PyReading([]), log := k.log + [(req, resp)], toGo := k.toGo + out));
  }

  lemma WriteWhole(s: State, l: nat, out: Bytes)
    requires l < |s.links| && s.links[l].py == PyWriting(out) && out != []
    ensures PyWriteStep(s, l, |out|) == SetLink(s, l, s.links[l].(py := PyReading([]), toGo := s.links[l].toGo + out))
  {
    assert out[..|out|] == out;
  }

  lemma Serve(w: World, s: State, l: nat, req: Request, resp: Response, rest: Bytes)
    requires Sound(w) && l < |s.links| && Carried(w.requests, req)
    requires Fits(w.responses, resp) && req.handler in w.handlers
    requires s.links[l].py == PyReading([]) && s.links[l].toPy == FrameOf(w.requests, req) + rest
    ensures Exec(w, s, ServeRun(w, l, req, resp)) ==
      SetLink(s, l, s.links[l].(toPy := rest, py := PyReading([]), tenant := req.tenant,
                                log := s.links[l].log + [(req, resp)],
                                toGo := s.links[l].toGo + FrameOf(w.responses, resp)))
  {
    var a := [PyRead(l, 4), PyRead(l, |w.requests.enc(req).value|), PyDecode(l)];
    var b := [PySetTenant(l), PyLookup(l), PyFinish(l, resp), PyWrite(l, |FrameOf(w.responses, resp)|)];
    TakeRequest(w, s, l, req, rest);
    ExecAppend(w, s, a, b);
    GiveResponse(w, Exec(w, s, a), l, req, resp);
  }

  ghost function TakeRun(w: World, t: nat, resp: Response): seq<Event>
    requires Fits(w.responses, resp)
  {
    [Read(t, 4), Read(t, |w.responses.enc(resp).value|), Complete(t)]
  }

  function Handed(s: State, t: nat, resp: Response): Delivery
    requires t < |s.threads| && s.threads[t].Receiving? && s.threads[t].link < |s.links|
  {
    var p := s.threads[t];
    var k := s.links[p.link];
    Delivery(t, p.req, p.sentOn, p.index, p.link, resp, !k.dirty, p.index + k.skew)
  }

  /** The waiting thread leaves with a response. */
  function HandedOver(s: State, t: nat, resp: Response): State
    requires t < |s.threads| && s.threads[t].Receiving? && s.threads[t].link < |s.links|
  {
    SetPc(s, t, Leaving(Answered(resp))).(delivered := s.delivered + [Handed(s, t, resp)])
  }

  lemma HandsOverOnce(s: State, t: nat, buf: Bytes, resp: Response)
    requires t < |s.threads| && s.threads[t].Receiving? && s.threads[t].link < |s.links|
    ensures HandedOver(SetPc(s, t, s.threads[t].(buf := buf)), t, resp) == HandedOver(s, t, resp)
  {
    var pc, pc' := s.threads[t].(buf := buf), Leaving(Answered(resp));
    assert s.threads[t := pc][t := pc'] == s.threads[t := pc'];
  }

  lemma Take(w: World, s: State, t: nat, resp: Response)
    requires Sound(w) && Carried(w.responses, resp)
    requires t < |s.threads| && s.threads[t].Receiving? && s.threads[t].buf == [] && s.threads[t].link < |s.links|
    requires s.links[s.threads[t].link].toGo == FrameOf(w.responses, resp)
    ensures var p := s.threads[t]; var k := s.links[p.link];
      Exec(w, s, TakeRun(w, t, resp)) == HandedOver(SetLink(s, p.link, k.(toGo := [])), t, resp)
  {
    var p, body := s.threads[t], w.responses.enc(resp).value;
    var a, b := [Read(t, 4), Read(t, |body|)], [Complete(t)];
    assert TakeRun(w, t, resp) == a + b;
    ExecAppend(w, s, a, b);
    ReadsFrame(w, s, t, body);
    var s1 := SetLink(s, p.link, s.links[p.link].(toGo := []));
    Completes(w, SetPc(s1, t, p.(buf := Frame(body))), t, resp);
    HandsOverOnce(s1, t, Frame(body), resp);
  }

  lemma ReadsFrame(w: World, s: State, t: nat, body: Bytes)
    requires t < |s.threads| && s.threads[t].Receiving? && s.threads[t].buf == [] && s.threads[t].link < |s.links|
    requires |body| < U32 && s.links[s.threads[t].link].toGo == Frame(body)
    ensures var p := s.threads[t]; var k := s.links[p.link];
      Exec(w, s, [Read(t, 4), Read(t, |body|)]) == SetPc(SetLink(s, p.link, k.(toGo := [])), t, p.(buf := Frame(body)))
  {
    Exec2(w, s, Read(t, 4), Read(t, |body|));
    ReadFrame(s, t, body);
  }

  lemma Completes(w: World, s: State, t: nat, resp: Response)
    requires Sound(w) && Carried(w.responses, resp)
    requires t < |s.threads| && s.threads[t].Receiving? && s.threads[t].link < |s.links|
    requires s.threads[t].buf == FrameOf(w.responses, resp)
    ensures Exec(w, s, [Complete(t)]) == HandedOver(s, t, resp)
  {
    NeededOfFrame(s.threads[t].buf, w.responses.enc(resp).value);
    ExecCons(w, s, Complete(t), []);
    assert [Complete(t)] == [Complete(t)] + [];
  }

  lemma ReadParts(s: State, t: nat, header: Bytes, body: Bytes)
    requires t < |s.threads| && s.threads[t].Receiving? && s.threads[t].buf == [] && s.threads[t].link < |s.links|
    requires |header| == 4 && Uint32(header) == |body| && s.links[s.threads[t].link].toGo == header + body
    ensures var p := s.threads[t]; var k := s.links[p.link];
      ReadStep(ReadStep(s, t, 4), t, |body|) == SetLink(SetPc(s, t, p.(buf := header + body)), p.link, k.(toGo := []))
  {
    var p := s.threads[t];
    var k := s.links[p.link];
    var s1 := ReadStep(s, t, 4);
    assert k.toGo[..4] == header && k.toGo[4..] == body && [] + header == header;
    assert s1 == SetLink(SetPc(s, t, p.(buf := header)), p.link, k.(toGo := body));
    assert header[..4] == header;
    if body == [] {
      assert header + body == header;
    } else {
      assert body[..|body|] == body && body[|body|..] == [];
      OverwriteLink(SetPc(s, t, p.(buf := header + body)), p.link, k.(toGo := body), k.(toGo := []));
      assert s.threads[t := p.(buf := header)][t := p.(buf := header + body)] ==
          s.threads[t := p.(buf := header + body)];
    }
  }

  lemma ReadFrame(s: State, t: nat, body: Bytes)
    requires t < |s.threads| && s.threads[t].Receiving? && s.threads[t].buf == [] && s.threads[t].link < |s.links|
    requires |body| < U32 && s.links[s.threads[t].link].toGo == Frame(body)
    ensures var p := s.threads[t]; var k := s.links[p.link];
      ReadStep(ReadStep(s, t, 4), t, |body|) == SetLink(SetPc(s, t, p.(buf := Frame(body))), p.link, k.(toGo := []))
  {
    SmallHeader(|body|);
    ReadParts(s, t, PutUint32(|body|), body);
  }

  /** Python serves one request, and the waiting thread takes the response for its own. */
  lemma ServedAndTaken(w: World, s: State, l: nat, req: Request, resp: Response, rest: Bytes, t: nat)
    requires Sound(w) && l < |s.links| && Carried(w.requests, req)
    requires Carried(w.responses, resp) && req.handler in w.handlers
    requires s.links[l].py == PyReading([]) && s.links[l].toPy == FrameOf(w.requests, req) + rest
      && s.links[l].toGo == []
    requires t < |s.threads| && s.threads[t].Receiving? && s.threads[t].buf == [] && s.threads[t].link == l
    ensures var k := s.links[l];
      Exec(w, s, ServeRun(w, l, req, resp) + TakeRun(w, t, resp)) ==
      HandedOver(SetLink(s, l, k.(toPy := rest, tenant := req.tenant, log := k.log + [(req, resp)])), t, resp)
  {
    var k, frame := s.links[l], FrameOf(w.responses, resp);
    ExecAppend(w, s, ServeRun(w, l, req, resp), TakeRun(w, t, resp));
    Serve(w, s, l, req, resp, rest);
    assert [] + frame == frame;
    var k1 := k.(toPy := rest, tenant := req.tenant, log := k.log + [(req, resp)], toGo := frame);
    Take(w, SetLink(s, l, k1), t, resp);
    OverwriteLink(s, l, k1, k1.(toGo := []));
  }

  lemma WaitedAndLeft(s: State, t: nat, l: nat, k: Link, k': Link, pc: Pc, resp: Response)
    requires t < |s.threads| && l < |s.links| && pc.Receiving? && pc.link == l
    ensures HandedOver(SetLink(s.(mutex := Some(t), threads := s.threads[t := pc], links := s.links[l := k]), l, k'),
      t, resp) ==
      s.(mutex := Some(t), threads := s.threads[t := Leaving(Answered(resp))], links := s.links[l := k'],
         delivered := s.delivered + [Delivery(t, pc.req, pc.sentOn, pc.index, l, resp, !k'.dirty, pc.index + k'.skew)])
  {
    assert s.threads[t := pc][t := Leaving(Answered(resp))] == s.threads[t := Leaving(Answered(resp))];
    assert s.links[l := k][l := k'] == s.links[l := k'];
  }

  /** A state that thread t has come to from s by sending over link l. */
  ghost predicate Waits(s: State, s1: State, t: nat, l: nat, k: Link, pc: Pc) {
    && t < |s.threads| && l < |s.links| && pc.Receiving? && pc.link == l && pc.buf == []
    && s1 == s.(mutex := Some(t), threads := s.threads[t := pc], links := s.links[l := k])
  }

  lemma WaitsOn(s: State, s1: State, t: nat, l: nat, k: Link, pc: Pc)
    requires Waits(s, s1, t, l, k, pc)
    ensures t < |s1.threads| && s1.threads[t] == pc && l < |s1.links| && s1.links[l] == k
  {
  }

  /** Once Python has served a request, whatever its number, the waiting thread takes the response. */
  lemma ServedWhileWaiting(w: World, s: State, s1: State, t: nat, l: nat, k: Link, pc: Pc, req: Request,
      resp: Response, rest: Bytes)
    requires Sound(w) && Waits(s, s1, t, l, k, pc)
    requires Carried(w.requests, req) && Carried(w.responses, resp) && req.handler in w.handlers
    requires k.py == PyReading([]) && k.toPy == FrameOf(w.requests, req) + rest && k.toGo == []
    ensures var k' := k.(toPy := rest, tenant := req.tenant, log := k.log + [(req, resp)]);
      Exec(w, s1, ServeRun(w, l, req, resp) + TakeRun(w, t, resp)) ==
      s.(mutex := Some(t), threads := s.threads[t := Leaving(Answered(resp))], links := s.links[l := k'],
         delivered := s.delivered + [Delivery(t, pc.req, pc.sentOn, pc.index, l, resp, !k.dirty, pc.index + k.skew)])
  {
    WaitsOn(s, s1, t, l, k, pc);
    ServedAndTaken(w, s1, l, req, resp, rest, t);
    WaitedAndLeft(s, t, l, k, k.(toPy := rest, tenant := req.tenant, log := k.log + [(req, resp)]), pc, resp);
  }

  lemma ServedAfter(w: World, s: State, run: seq<Event>, t: nat, l: nat, k: Link, pc: Pc, req: Request,
      resp: Response, rest: Bytes)
    requires Sound(w) && Waits(s, Exec(w, s, run), t, l, k, pc)
    requires Carried(w.requests, req) && Carried(w.responses, resp) && req.handler in w.handlers
    requires k.py == PyReading([]) && k.toPy == FrameOf(w.requests, req) + rest && k.toGo == []
    ensures var k' := k.(toPy := rest, tenant := req.tenant, log := k.log + [(req, resp)]);
      Exec(w, s, run + (ServeRun(w, l, req, resp) + TakeRun(w, t, resp))) ==
      s.(mutex := Some(t), threads := s.threads[t := Leaving(Answered(resp))], links := s.links[l := k'],
         delivered := s.delivered + [Delivery(t, pc.req, pc.sentOn, pc.index, l, resp, !k.dirty, pc.index + k.skew)])
  {
    ExecAppend(w, s, run, ServeRun(w, l, req, resp) + TakeRun(w, t, resp));
    ServedWhileWaiting(w, s, Exec(w, s, run), t, l, k, pc, req, resp, rest);
  }

  /** From any ready state, whatever errors came before, any idle thread's call of a registered handler can
      be answered with any response, leaves the connection clean, and records exactly this exchange. */
  lemma CallAnswered(w: World, s: State, t: nat, l: nat, req: Request, resp: Response)
    requires Sound(w) && Ready(s, l) && t < |s.threads| && s.threads[t] == Idle
    requires Carried(w.requests, req) && Carried(w.responses, resp) && req.handler in w.handlers
    ensures var k := Settled(s.links[l]);
      !k.dirty && Exec(w, s, AskRun(w, t, req) + (ServeRun(w, l, req, resp) + TakeRun(w, t, resp))) ==
      s.(mutex := Some(t), threads := s.threads[t := Leaving(Answered(resp))],
         links := s.links[l := k.(sent := k.sent + [req], log := k.log + [(req, resp)], tenant := req.tenant)],
         delivered := s.delivered + [Delivery(t, req, l, |k.sent|, l, resp, true, |k.sent| + k.skew)])
  {
    AskReady(w, s, t, l, req);
    var k := Settled(s.links[l]);
    var k1 := k.(sent := k.sent + [req], toPy := FrameOf(w.requests, req));
    ServedAfter(w, s, AskRun(w, t, req), t, l, k1, Receiving(req, l, |k.sent|, l, []), req, resp, []);
  }

  lemma AskReady(w: World, s: State, t: nat, l: nat, req: Request)
    requires Ready(s, l) && t < |s.threads| && s.threads[t] == Idle && Fits(w.requests, req)
    ensures var k, frame := Settled(s.links[l]), FrameOf(w.requests, req);
      && Waits(s, Exec(w, s, AskRun(w, t, req)), t, l, k.(sent := k.sent + [req], toPy := frame),
               Receiving(req, l, |k.sent|, l, []))
      && frame == frame + []
  {
    Ask(w, s, t, l, req);
    assert [] + FrameOf(w.requests, req) == FrameOf(w.requests, req);
  }

  /** A failed receive of thread t followed by a call of thread u, up to u's wait for the answer:
      both requests are in the stream, in this order. */
  lemma FailThenAsk(w: World, s: State, t: nat, u: nat, l: nat, first: Request, second: Request)
    requires Ready(s, l) && t < |s.threads| && s.threads[t] == Idle
    requires u < |s.threads| && u != t && s.threads[u] == Idle
    requires Fits(w.requests, first) && Fits(w.requests, second)
    ensures var k := Settled(s.links[l]);
      Exec(w, s, AskRun(w, t, first) + [IoError(t), Unlock(t)] + AskRun(w, u, second)) ==
      s.(mutex := Some(u), threads := s.threads[u := Receiving(second, l, |k.sent| + 1, l, [])],
         links := s.links[l := k.(sent := k.sent + [first] + [second], dirty := true,
                                  toPy := FrameOf(w.requests, first) + FrameOf(w.requests, second))])
  {
    var a, b, c := AskRun(w, t, first), [IoError(t), Unlock(t)], AskRun(w, u, second);
    ExecAppend(w, s, a + b, c);
    ExecAppend(w, s, a, b);
    var k, f1, f2 := Settled(s.links[l]), FrameOf(w.requests, first), FrameOf(w.requests, second);
    Ask(w, s, t, l, first);
    var s1 := Exec(w, s, a);
    assert k.toPy + f1 == f1;
    FailsAndLeaves(w, s1, t, l);
    var s2 := Exec(w, s1, b);
    assert s2.threads == s.threads;
    assert s2 == s.(links := s.links[l := k.(sent := k.sent + [first], toPy := f1, dirty := true)]);
    assert f1 != [];
    Ask(w, s2, u, l, second);
  }

  /** A receive that fails leaves the connection where it is, with a transport error on it. */
  lemma FailsAndLeaves(w: World, s: State, t: nat, l: nat)
    requires t < |s.threads| && s.threads[t].Receiving? && s.threads[t].link == l && l < |s.links|
    ensures Exec(w, s, [IoError(t), Unlock(t)]) ==
      s.(mutex := None, threads := s.threads[t := Idle], links := s.links[l := s.links[l].(dirty := true)])
  {
    Exec2(w, s, IoError(t), Unlock(t));
    assert s.threads[t := Leaving(TransportError)][t := Idle] == s.threads[t := Idle];
  }

  /** The clean-connection condition of `OwnAnswers` cannot be dropped: `CallPython` keeps the connection
      after every error alike, so from any ready state, if one caller's receive fails while the peer
      lives on - no deadline is set, so by the system's own failure to read, such as ENOMEM - the next
      caller can be handed the response that Python computed from the first caller's request. */
  lemma AfterTransportErrorAnswersShift(w: World, s: State, t: nat, u: nat, l: nat, first: Request, second: Request,
      resp: Response)
    requires Sound(w) && Ready(s, l) && t < |s.threads| && s.threads[t] == Idle
    requires u < |s.threads| && u != t && s.threads[u] == Idle
    requires Carried(w.requests, first) && Carried(w.requests, second) && Carried(w.responses, resp)
    requires first.handler in w.handlers
    ensures var run := AskRun(w, t, first) + [IoError(t), Unlock(t)] + AskRun(w, u, second)
                       + (ServeRun(w, l, first, resp) + TakeRun(w, u, resp));
      var s' := Exec(w, s, run); var n := |s.links[l].sent|;
      && l < |s'.links| && s'.threads == s.threads[u := Leaving(Answered(resp))]
      && s'.delivered == s.delivered + [Delivery(u, second, l, n + 1, l, resp, false, n + 1 + s'.links[l].skew)]
      && s'.links[l].log == s.links[l].log + [(first, resp)]
  {
    var a := AskRun(w, t, first) + [IoError(t), Unlock(t)] + AskRun(w, u, second);
    FailThenAsk(w, s, t, u, l, first, second);
    var k, f1, f2 := Settled(s.links[l]), FrameOf(w.requests, first), FrameOf(w.requests, second);
    var k1 := k.(sent := k.sent + [first] + [second], dirty := true, toPy := f1 + f2);
    ServedAfter(w, s, a, u, l, k1, Receiving(second, l, |k.sent| + 1, l, []), first, resp, f2);
  }

  function StartRun(t: nat, op: Op, stops: seq<Event>): seq<Event> {
    [Invoke(t, op), Lock(t), Begin(t)] + stops
    + [ListenDone(t, true), LaunchDone(t, true), AcceptDone(t, true)] + [Mark(t), Unlock(t)]
  }

  ghost predicate Launched(s: State, s': State, l: nat) {
    && Ready(s', l) && l == |s.links| && |s'.links| == l + 1 && s'.delivered == s.delivered
    && s'.threads == s.threads && !s'.links[l].dirty && s'.links[l].tenant == None
  }

  lemma Launch(w: World, s: State, t: nat)
    requires t < |s.threads| && s.threads[t] == Opening && s.conn == None && !s.started && s.mutex == Some(t)
    ensures var s' := Exec(w, s, [ListenDone(t, true), LaunchDone(t, true), AcceptDone(t, true)]
      + [Mark(t), Unlock(t)]);
      Launched(s.(threads := s.threads[t := Idle]), s', |s.links|) && s'.links[..|s.links|] == s.links
  {
    var a, b := [ListenDone(t, true), LaunchDone(t, true), AcceptDone(t, true)], [Mark(t), Unlock(t)];
    ExecAppend(w, s, a, b);
    Exec3(w, s, ListenDone(t, true), LaunchDone(t, true), AcceptDone(t, true));
    var s1 := Exec(w, s, a);
    Exec2(w, s1, Mark(t), Unlock(t));
    var s' := Exec(w, s1, b);
    assert s'.threads == s.threads[t := Idle];
  }

  /** `Start` on a stopped supervisor can succeed and then serves on a fresh connection. */
  lemma StartServes(w: World, s: State, t: nat)
    requires t < |s.threads| && s.threads[t] == Idle && s.mutex == None && !s.started && s.conn == None
    ensures Launched(s, Exec(w, s, StartRun(t, Start, [])), |s.links|)
  {
    var a := [Invoke(t, Start), Lock(t), Begin(t)];
    var b := [ListenDone(t, true), LaunchDone(t, true), AcceptDone(t, true)] + [Mark(t), Unlock(t)];
    assert StartRun(t, Start, []) == a + b;
    ExecAppend(w, s, a, b);
    Exec3(w, s, Invoke(t, Start), Lock(t), Begin(t));
    Launch(w, Exec(w, s, a), t);
    assert s.threads[t := Opening][t := Idle] == s.threads;
  }

  /** `stopLocked` of a restart over a ready connection. */
  lemma StopsReady(w: World, s: State, t: nat, l: nat)
    requires t < |s.threads| && s.threads[t] == Stopping(0, true, Success) && s.cmd == Some(l) && l < |s.links|
    ensures Exec(w, s, [StopStep(t), StopStep(t), StopStep(t)]) ==
      s.(threads := s.threads[t := Opening], conn := None, started := false,
         links := s.links[l := s.links[l].(py := PyDead)])
  {
    Exec3(w, s, StopStep(t), StopStep(t), StopStep(t));
    var s1 := s.(threads := s.threads[t := Stopping(1, true, Success)], conn := None);
    assert StopLockedStep(s, t) == s1;
    assert s1.threads[t := Stopping(2, true, Success)] == s.threads[t := Stopping(2, true, Success)];
    assert s.threads[t := Stopping(2, true, Success)][t := Opening] == s.threads[t := Opening];
  }

  /** `Restart` kills the process it replaces and then serves on a fresh connection. */
  lemma RestartServes(w: World, s: State, t: nat, l: nat)
    requires Inv(w, s) && Ready(s, l) && t < |s.threads| && s.threads[t] == Idle
    ensures var s' := Exec(w, s, StartRun(t, Restart, [StopStep(t), StopStep(t), StopStep(t)]));
      Launched(s, s', |s.links|) && s'.links[l].py == PyDead
  {
    var a, c := [Invoke(t, Restart), Lock(t), Begin(t)], [StopStep(t), StopStep(t), StopStep(t)];
    var b := [ListenDone(t, true), LaunchDone(t, true), AcceptDone(t, true)] + [Mark(t), Unlock(t)];
    assert StartRun(t, Restart, c) == a + c + b;
    ExecAppend(w, s, a + c, b);
    RestartStops(w, s, t, l);
    var s2 := Exec(w, s, a + c);
    Launch(w, s2, t);
    var s' := Exec(w, s2, b);
    assert s'.links[l] == s'.links[..|s.links|][l] == s2.links[l];
    assert s.threads[t := Opening][t := Idle] == s.threads;
  }

  lemma RestartStops(w: World, s: State, t: nat, l: nat)
    requires t < |s.threads| && s.threads[t] == Idle && s.mutex == None && s.cmd == Some(l) && l < |s.links|
    ensures Exec(w, s, [Invoke(t, Restart), Lock(t), Begin(t)] + [StopStep(t), StopStep(t), StopStep(t)]) ==
      s.(threads := s.threads[t := Opening], mutex := Some(t), conn := None, started := false,
         links := s.links[l := s.links[l].(py := PyDead)])
  {
    var a, c := [Invoke(t, Restart), Lock(t), Begin(t)], [StopStep(t), StopStep(t), StopStep(t)];
    ExecAppend(w, s, a, c);
    EntersRestart(w, s, t);
    StopsReady(w, Exec(w, s, a), t, l);
    assert s.threads[t := Stopping(0, true, Success)][t := Opening] == s.threads[t := Opening];
  }

  lemma EntersRestart(w: World, s: State, t: nat)
    requires t < |s.threads| && s.threads[t] == Idle && s.mutex == None
    ensures Exec(w, s, [Invoke(t, Restart), Lock(t), Begin(t)]) ==
      s.(threads := s.threads[t := Stopping(0, true, Success)], mutex := Some(t))
  {
    Exec3(w, s, Invoke(t, Restart), Lock(t), Begin(t));
    assert s.threads[t := Waiting(Restart)][t := Entered(Restart)] == s.threads[t := Entered(Restart)];
    assert s.threads[t := Entered(Restart)][t := Stopping(0, true, Success)] ==
        s.threads[t := Stopping(0, true, Success)];
  }
}
