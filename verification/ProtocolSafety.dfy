/** What every step of the call protocol keeps, and what holds in every run of it. */
module ProtocolSafety {
  import opened Common
  import opened Framing
  import opened Protocol
  import Tenancy

  predicate Inside(pc: Pc) { !pc.Idle? && !pc.Waiting? }

  /** The thread that holds the mutex, as a program point. */
  function Holder(s: State): Pc {
    if s.mutex.Some? && s.mutex.value < |s.threads| then s.threads[s.mutex.value] else Idle
  }

  ghost predicate Exclusive(s: State) {
    && (s.mutex.Some? ==> s.mutex.value < |s.threads|)
    && forall t :: 0 <= t < |s.threads| ==> (Inside(s.threads[t]) <==> s.mutex == Some(t))
  }

  predicate Connected(s: State) { s.started <==> s.conn.Some? }

  /** `started`, `conn` and `cmd` at each program point of the mutex holder. */
  predicate Lifecycle(s: State) {
    && (s.cmd.Some? ==> s.cmd.value < |s.links|)
    && (s.conn.Some? ==> s.conn == s.cmd)
    && match Holder(s)
       case Opening => s.conn.None? && !s.started
       case Launching => s.conn.None? && !s.started
       case Accepting => s.conn.None? && !s.started && s.cmd.Some?
       case Marking => s.conn.Some? && !s.started
       case Stopping(stage, _, _) => if stage == 0 then Connected(s) else s.conn.None?
       case Sending(_, l, _, _) => s.started && s.conn == Some(l)
       case Receiving(_, sentOn, _, l, _) => s.started && s.conn == Some(l) && sentOn == l
       case NilDereference => false
       case _ => Connected(s)
  }

  predicate MayLive(s: State) {
    match Holder(s)
    case Opening => false
    case Launching => false
    case Accepting => true
    case Marking => true
    case Stopping(stage, _, _) => stage < 2
    case _ => s.started
  }

  /** Only the process launched last can be alive, and none is while nothing is started. */
  ghost predicate OneProcess(s: State) {
    forall l :: 0 <= l < |s.links| && s.links[l].py != PyDead ==> s.cmd == Some(l) && MayLive(s)
  }

  /** What the mutex holder is doing on one connection. */
  datatype Role =
    | NoCall
    | Writing(req: Request, index: nat, out: Bytes)
    | Awaiting(req: Request, index: nat, buf: Bytes)

  function RoleOn(h: Pc, l: nat): Role {
    match h
    case Sending(req, k, i, out) => if k == l then Writing(req, i, out) else NoCall
    case Receiving(req, _, i, k, buf) => if k == l then Awaiting(req, i, buf) else NoCall
    case _ => NoCall
  }

  ghost predicate Fits<T>(c: Codec<T>, v: T) {
    c.enc(v).Some? && |c.enc(v).value| < U32
  }

  ghost function FrameOf<T>(c: Codec<T>, v: T): Bytes
    requires Fits(c, v)
  {
    Frame(c.enc(v).value)
  }

  ghost predicate Asking(w: World, req: Request, k: Link, unsent: Bytes) {
    && Fits(w.requests, req) && k.toGo == []
    && match k.py
       case PyReading(buf) => buf + k.toPy + unsent == FrameOf(w.requests, req)
       case PyDead => true
       case PyWriting(_) => false
       case _ => unsent == [] && k.toPy == [] && k.py.req == req
  }

  ghost predicate Answering(w: World, resp: Response, k: Link, buf: Bytes) {
    && Fits(w.responses, resp) && k.toPy == []
    && match k.py
       case PyReading(b) => b == [] && buf + k.toGo == FrameOf(w.responses, resp)
       case PyWriting(out) => out != [] && buf + k.toGo + out == FrameOf(w.responses, resp)
       case PyDead => buf + k.toGo <= FrameOf(w.responses, resp)
       case _ => false
  }

  /** The requests since number `from` are answered in the order they were sent. */
  ghost predicate InOrder(k: Link) {
    && k.from <= |k.sent| && k.from + k.skew >= 0
    && forall i :: k.from <= i && i + k.skew < |k.log| ==> i < |k.sent| && k.log[i + k.skew].0 == k.sent[i]
  }

  /** The state of a connection without transport errors: no byte is in flight between calls,
      and during a call all bytes in flight are parts of this call's request or response. */
  ghost predicate Exchange(w: World, r: Role, k: Link) {
    && InOrder(k)
    && match r
       case NoCall => |k.log| == |k.sent| + k.skew && Quiet(k)
       case Writing(req, i, out) =>
         && |k.sent| == i + 1 && i >= k.from && k.sent[i] == req
         && |k.log| == i + k.skew && out != [] && Asking(w, req, k, out)
       case Awaiting(req, i, buf) =>
         && |k.sent| == i + 1 && i >= k.from && k.sent[i] == req
         && (|k.log| == i + k.skew ==> buf == [] && Asking(w, req, k, []))
         && (|k.log| != i + k.skew ==> |k.log| == i + k.skew + 1 && Answering(w, k.log[i + k.skew].1, k, buf))
  }

  ghost predicate Exchanges(w: World, s: State) {
    forall l :: 0 <= l < |s.links| && !s.links[l].dirty ==> Exchange(w, RoleOn(Holder(s), l), s.links[l])
  }

  /** The tenant variable of every process is that of the request it serves. */
  ghost predicate TenantsSet(s: State) {
    forall l :: 0 <= l < |s.links| && (s.links[l].py.PySelecting? || s.links[l].py.PyRunning?)
      ==> s.links[l].tenant == s.links[l].py.req.tenant
  }

  ghost predicate ConnectsRight(w: World, s: State) {
    forall i :: 0 <= i < |s.connects| ==>
      s.connects[i].path == Tenancy.DbPath(None, None, s.connects[i].req.tenant, w.environment)
  }

  predicate DeliveryRight(d: Delivery, links: seq<Link>) {
    && d.link < |links| && d.sentOn == d.link && d.index < |links[d.link].sent|
    && (d.clean ==> 0 <= d.answer < |links[d.link].log| && links[d.link].log[d.answer] == (d.req, d.resp))
  }

  ghost predicate Deliveries(s: State) {
    forall i :: 0 <= i < |s.delivered| ==> DeliveryRight(s.delivered[i], s.links)
  }

  /** The request being served now has not been answered before, and no request twice. */
  ghost predicate OnceEach(s: State) {
    && (forall i, j :: 0 <= i < j < |s.delivered| ==>
          (s.delivered[i].link, s.delivered[i].index) != (s.delivered[j].link, s.delivered[j].index))
    && (var h := Holder(s); (h.Sending? || h.Receiving?) ==>
          && h.link < |s.links| && h.index + 1 == |s.links[h.link].sent|
          && forall i :: 0 <= i < |s.delivered| ==> (s.delivered[i].link, s.delivered[i].index) != (h.link, h.index))
  }

  ghost predicate Inv(w: World, s: State) {
    && Exclusive(s) && Lifecycle(s) && OneProcess(s) && Exchanges(w, s)
    && TenantsSet(s) && ConnectsRight(w, s) && Deliveries(s) && OnceEach(s)
  }

  ghost predicate Sound(w: World) { Faithful(w.requests) && Faithful(w.responses) }

  /** A reader of a frame wants nothing more exactly when it has the frame. */
  lemma NeededOfFrame(buf: Bytes, body: Bytes)
    requires |body| < U32 && buf <= Frame(body)
    ensures Needed(buf) == 0 <==> buf == Frame(body)
    ensures buf == Frame(body) ==> buf[4..] == body
  {
    if |buf| >= 4 {
      assert buf[..4] == PutUint32(|body|);
      SmallHeader(|body|);
    }
  }

  // ---- Steps of the Go threads ----

  /** The mutex holder moves between program points outside a round trip; the fields and the processes
      are looked at one by one. */
  lemma HolderMoves(w: World, s: State, s': State, t: nat)
    requires Inv(w, s) && t < |s.threads| == |s'.threads| && s.mutex == Some(t) && s'.mutex == s.mutex
    requires s'.threads == s.threads[t := s'.threads[t]] && Inside(s'.threads[t])
    requires s'.links == s.links && s'.delivered == s.delivered && s'.connects == s.connects && s'.cmd == s.cmd
    requires !s.threads[t].Sending? && !s.threads[t].Receiving? && !s'.threads[t].Sending? && !s'.threads[t].Receiving?
    requires Lifecycle(s') && (MayLive(s) ==> MayLive(s'))
    ensures Inv(w, s')
  {
    assert Holder(s) == s.threads[t] && Holder(s') == s'.threads[t];
    assert forall l: nat :: RoleOn(Holder(s'), l) == RoleOn(Holder(s), l) == NoCall;
  }

  lemma InvokeKeeps(w: World, s: State, t: nat, op: Op)
    requires Inv(w, s)
    ensures Inv(w, InvokeStep(s, t, op))
  {
    var s' := InvokeStep(s, t, op);
    assert Holder(s') == Holder(s) || s.mutex.None?;
  }

  lemma LockKeeps(w: World, s: State, t: nat)
    requires Inv(w, s)
    ensures Inv(w, LockStep(s, t))
  {
  }

  /** A request is put on record on a connection that no call uses. */
  lemma SendBegins(w: World, k: Link, req: Request, body: Bytes)
    requires (!k.dirty ==> Exchange(w, NoCall, k)) && w.requests.enc(req) == Some(body)
    ensures var was := Settled(k); var now := was.(sent := was.sent + [req], dirty := was.dirty || |body| >= U32);
      !now.dirty ==> Exchange(w, Writing(req, |k.sent|, Frame(body)), now)
  {
    assert [] + [] + Frame(body) == Frame(body);
  }

  /** `CallPython` past its checks: the request is encoded and its send begins. */
  lemma SendBeginKeeps(w: World, s: State, t: nat)
    requires Inv(w, s) && t < |s.threads| && s.threads[t].Entered? && BeginStep(w, s, t).threads[t].Sending?
    ensures Inv(w, BeginStep(w, s, t))
  {
    var s' := BeginStep(w, s, t);
    assert Holder(s) == s.threads[t] && Holder(s') == s'.threads[t];
    var l, req := s.conn.value, s.threads[t].op.req;
    SendBegins(w, s.links[l], req, w.requests.enc(req).value);
    forall i | 0 <= i < |s.delivered| ensures DeliveryRight(s'.delivered[i], s'.links) {
      assert DeliveryRight(s.delivered[i], s.links);
    }
  }

  lemma BeginKeeps(w: World, s: State, t: nat)
    requires Inv(w, s)
    ensures Inv(w, BeginStep(w, s, t))
  {
    if t < |s.threads| && s.threads[t].Entered? {
      var s' := BeginStep(w, s, t);
      if s'.threads[t].Sending? {
        SendBeginKeeps(w, s, t);
      } else {
        BeginLifecycle(w, s, t);
        HolderMoves(w, s, s', t);
      }
    }
  }

  lemma BeginLifecycle(w: World, s: State, t: nat)
    requires Lifecycle(s) && t < |s.threads| && s.threads[t].Entered? && s.mutex == Some(t)
    requires !BeginStep(w, s, t).threads[t].Sending?
    ensures Lifecycle(BeginStep(w, s, t)) && (MayLive(s) ==> MayLive(BeginStep(w, s, t)))
  {
    assert Holder(s) == s.threads[t];
  }

  /** Bytes move from the frame being written to the stream. */
  lemma AskingMoves(w: World, req: Request, k: Link, out: Bytes, n: nat)
    requires Asking(w, req, k, out) && n <= |out|
    ensures out != [] ==> Asking(w, req, k.(toPy := k.toPy + out[..n]), out[n..])
  {
    if k.py.PyReading? {
      assert k.py.buf + (k.toPy + out[..n]) + out[n..] == k.py.buf + k.toPy + (out[..n] + out[n..]);
      assert out == out[..n] + out[n..];
    }
  }

  /** The calling thread moves bytes between its buffer and a stream of its connection. */
  lemma CallMoves(w: World, s: State, t: nat, pc: Pc, k: Link)
    requires Inv(w, s) && t < |s.threads| && s.mutex == Some(t)
    requires (s.threads[t].Sending? || s.threads[t].Receiving?) && (pc.Sending? || pc.Receiving?)
    requires pc.link == s.threads[t].link < |s.links| && pc.index == s.threads[t].index
    requires pc.Receiving? ==> pc.sentOn == pc.link
    requires var before := s.links[pc.link];
      && k.py == before.py && k.tenant == before.tenant && k.sent == before.sent && k.log == before.log
      && k.dirty == before.dirty && k.from == before.from && k.skew == before.skew
      && (!k.dirty ==> Exchange(w, RoleOn(pc, pc.link), k))
    ensures Inv(w, SetLink(SetPc(s, t, pc), pc.link, k))
  {
    var s' := SetLink(SetPc(s, t, pc), pc.link, k);
    assert Holder(s) == s.threads[t] && Holder(s') == pc;
    forall i | 0 <= i < |s.delivered| ensures DeliveryRight(s'.delivered[i], s'.links) {
      assert DeliveryRight(s.delivered[i], s.links);
    }
  }

  lemma WriteKeeps(w: World, s: State, t: nat, n: nat)
    requires Inv(w, s)
    ensures Inv(w, WriteStep(s, t, n))
  {
    var s' := WriteStep(s, t, n);
    if s' != s {
      var p := s.threads[t];
      assert Holder(s) == p && s.conn == Some(p.link);
      if !s.links[p.link].dirty {
        AskingMoves(w, p.req, s.links[p.link], p.out, n);
      }
      CallMoves(w, s, t, s'.threads[t], s'.links[p.link]);
    }
  }

  /** Bytes move from the stream to the buffer of the frame being read. */
  lemma AnsweringMoves(w: World, resp: Response, k: Link, buf: Bytes, n: nat)
    requires Answering(w, resp, k, buf) && n <= |k.toGo|
    ensures Answering(w, resp, k.(toGo := k.toGo[n..]), buf + k.toGo[..n])
  {
    assert buf + k.toGo == buf + k.toGo[..n] + k.toGo[n..];
  }

  lemma ReadKeeps(w: World, s: State, t: nat, n: nat)
    requires Inv(w, s)
    ensures Inv(w, ReadStep(s, t, n))
  {
    var s' := ReadStep(s, t, n);
    if s' != s {
      var p := s.threads[t];
      assert Holder(s) == p;
      var k := s.links[p.link];
      if !k.dirty {
        assert Exchange(w, RoleOn(p, p.link), k);
        AnsweringMoves(w, k.log[p.index + k.skew].1, k, p.buf, n);
      }
      CallMoves(w, s, t, s'.threads[t], s'.links[p.link]);
    }
  }

  /** The frame a caller has read to its end is the logged response of its request. */
  lemma FrameEnds(w: World, k: Link, req: Request, index: nat, buf: Bytes)
    requires Sound(w) && Exchange(w, Awaiting(req, index, buf), k) && Needed(buf) == 0
    ensures Exchange(w, NoCall, k) && 0 <= index + k.skew < |k.log| && k.log[index + k.skew].0 == req
    ensures |buf| >= 4
    ensures var resp := w.responses.dec(buf[4..]); resp.Some? ==> k.log[index + k.skew].1 == resp.value
  {
    var resp := k.log[index + k.skew].1;
    NeededOfFrame(buf, w.responses.enc(resp).value);
  }

  /** The call of thread t is over; it may have been answered. */
  lemma CallEnds(w: World, s: State, t: nat, outcome: Outcome, ds: seq<Delivery>)
    requires Inv(w, s) && t < |s.threads| && s.threads[t].Receiving?
    requires !s.links[s.threads[t].link].dirty ==> Exchange(w, NoCall, s.links[s.threads[t].link])
    requires |ds| <= 1
    requires forall d <- ds :: DeliveryRight(d, s.links) && (d.link, d.index) == (s.threads[t].link, s.threads[t].index)
    ensures Inv(w, SetPc(s, t, Leaving(outcome)).(delivered := s.delivered + ds))
  {
    var s' := SetPc(s, t, Leaving(outcome)).(delivered := s.delivered + ds);
    assert Holder(s) == s.threads[t] && Holder(s') == s'.threads[t];
  }

  lemma CompleteKeeps(w: World, s: State, t: nat)
    requires Inv(w, s) && Sound(w)
    ensures Inv(w, CompleteStep(w, s, t))
  {
    var s' := CompleteStep(w, s, t);
    if s' != s {
      var p := s.threads[t];
      assert Holder(s) == p;
      if !s.links[p.link].dirty { FrameEnds(w, s.links[p.link], p.req, p.index, p.buf); }
      var ds := s'.delivered[|s.delivered|..];
      CallEnds(w, s, t, s'.threads[t].outcome, ds);
      assert s'.delivered == s.delivered + ds;
    }
  }

  lemma IoErrorKeeps(w: World, s: State, t: nat)
    requires Inv(w, s)
    ensures Inv(w, IoErrorStep(s, t))
  {
    var s' := IoErrorStep(s, t);
    if s' != s {
      assert Holder(s) == s.threads[t] && Holder(s') == s'.threads[t];
    }
  }

  /** The process of link l is killed by the mutex holder. */
  lemma KillLifecycle(s: State, t: nat)
    requires Lifecycle(s) && OneProcess(s) && t < |s.threads| && s.threads[t].Stopping? && s.threads[t].stage == 1
      && s.mutex == Some(t)
    ensures Lifecycle(StopLockedStep(s, t)) && OneProcess(StopLockedStep(s, t))
  {
    assert Holder(s) == s.threads[t];
  }

  lemma KillKeeps(w: World, s: State, t: nat)
    requires Inv(w, s) && t < |s.threads| && s.threads[t].Stopping? && s.threads[t].stage == 1
    ensures Inv(w, StopLockedStep(s, t))
  {
    var s' := StopLockedStep(s, t);
    assert Holder(s) == s.threads[t] && Holder(s') == s'.threads[t];
    KillLifecycle(s, t);
    forall l: nat | l < |s.links| ensures RoleOn(Holder(s'), l) == RoleOn(Holder(s), l) == NoCall { }
    forall i | 0 <= i < |s.delivered| ensures DeliveryRight(s'.delivered[i], s'.links) {
      assert DeliveryRight(s.delivered[i], s.links);
    }
  }

  lemma StopLifecycle(s: State, t: nat)
    requires Lifecycle(s) && t < |s.threads| && s.threads[t].Stopping? && s.threads[t].stage != 1 && s.mutex == Some(t)
    ensures Lifecycle(StopLockedStep(s, t)) && (MayLive(s) ==> MayLive(StopLockedStep(s, t)))
  {
    assert Holder(s) == s.threads[t];
  }

  lemma StopLockedKeeps(w: World, s: State, t: nat)
    requires Inv(w, s)
    ensures Inv(w, StopLockedStep(s, t))
  {
    if t < |s.threads| && s.threads[t].Stopping? {
      assert Holder(s) == s.threads[t];
      if s.threads[t].stage == 1 {
        KillKeeps(w, s, t);
      } else {
        StopLifecycle(s, t);
        HolderMoves(w, s, StopLockedStep(s, t), t);
      }
    }
  }

  lemma ListenKeeps(w: World, s: State, t: nat, ok: bool)
    requires Inv(w, s)
    ensures Inv(w, ListenStep(s, t, ok))
  {
    if t < |s.threads| && s.threads[t] == Opening {
      assert Holder(s) == s.threads[t];
      HolderMoves(w, s, ListenStep(s, t, ok), t);
    }
  }

  lemma LaunchKeeps(w: World, s: State, t: nat, ok: bool)
    requires Inv(w, s)
    ensures Inv(w, LaunchStep(s, t, ok))
  {
    if t < |s.threads| && Inside(s.threads[t]) {
      assert Holder(s) == s.threads[t];
    }
  }

  lemma AcceptKeeps(w: World, s: State, t: nat, ok: bool)
    requires Inv(w, s)
    ensures Inv(w, AcceptStep(s, t, ok))
  {
    if t < |s.threads| && s.threads[t] == Accepting {
      assert Holder(s) == s.threads[t];
      HolderMoves(w, s, AcceptStep(s, t, ok), t);
    }
  }

  lemma MarkKeeps(w: World, s: State, t: nat)
    requires Inv(w, s)
    ensures Inv(w, MarkStep(s, t))
  {
    if t < |s.threads| && s.threads[t] == Marking {
      assert Holder(s) == s.threads[t];
      HolderMoves(w, s, MarkStep(s, t), t);
    }
  }

  lemma UnlockKeeps(w: World, s: State, t: nat)
    requires Inv(w, s)
    ensures Inv(w, UnlockStep(s, t))
  {
    if t < |s.threads| && Inside(s.threads[t]) {
      assert Holder(s) == s.threads[t];
    }
  }

  // ---- Steps of the Python side ----

  ghost predicate PythonChange(w: World, role: Role, before: Link, after: Link) {
    && after.sent == before.sent && after.dirty == before.dirty && before.log <= after.log
    && after.from == before.from && after.skew == before.skew
    && (after.py != PyDead ==> before.py != PyDead)
    && (after.py.PySelecting? || after.py.PyRunning? ==> after.tenant == after.py.req.tenant)
    && (!after.dirty ==> Exchange(w, role, after))
  }

  /** A step that only changes link l, and keeps the promises about l, keeps the invariant. */
  lemma LinkStepKeeps(w: World, s: State, l: nat, k: Link)
    requires Inv(w, s) && l < |s.links|
    requires PythonChange(w, RoleOn(Holder(s), l), s.links[l], k)
    ensures Inv(w, SetLink(s, l, k))
  {
    var s' := SetLink(s, l, k);
    assert Holder(s') == Holder(s);
    forall i | 0 <= i < |s.delivered| ensures DeliveryRight(s'.delivered[i], s'.links) {
      assert DeliveryRight(s.delivered[i], s.links);
    }
  }

  lemma PyReadKeeps(w: World, s: State, l: nat, n: nat)
    requires Inv(w, s)
    ensures Inv(w, PyReadStep(s, l, n))
  {
    var s' := PyReadStep(s, l, n);
    if s' != s {
      var k := s.links[l];
      assert k.toPy == k.toPy[..n] + k.toPy[n..];
      assert k.py.buf + k.toPy == k.py.buf + k.toPy[..n] + k.toPy[n..];
      LinkStepKeeps(w, s, l, s'.links[l]);
    }
  }

  lemma PyDecodeKeeps(w: World, s: State, l: nat)
    requires Inv(w, s) && Sound(w)
    ensures Inv(w, PyDecodeStep(w, s, l))
  {
    var s' := PyDecodeStep(w, s, l);
    if s' != s {
      var k, role := s.links[l], RoleOn(Holder(s), l);
      if !k.dirty && !role.NoCall? && |k.log| < |k.sent| + k.skew {
        NeededOfFrame(k.py.buf, w.requests.enc(role.req).value);
      }
      LinkStepKeeps(w, s, l, s'.links[l]);
    }
  }

  /** What a response does to a connection. */
  ghost function Responded(w: World, k: Link, req: Request, resp: Response): Link {
    if Fits(w.responses, resp)
    then k.(py := PyWriting(FrameOf(w.responses, resp)), log := k.log + [(req, resp)])
    else k.(py := PyDead)
  }

  lemma RespondChanges(w: World, role: Role, k: Link, resp: Response)
    requires (k.py.PySelecting? || k.py.PyRunning?) && (!k.dirty ==> Exchange(w, role, k))
    ensures PythonChange(w, role, k, Responded(w, k, k.py.req, resp))
  {
    if Fits(w.responses, resp) {
      assert [] + [] + FrameOf(w.responses, resp) == FrameOf(w.responses, resp);
    }
  }

  lemma RespondKeeps(w: World, s: State, l: nat, resp: Response)
    requires Inv(w, s)
    requires l < |s.links| && (s.links[l].py.PySelecting? || s.links[l].py.PyRunning?)
    ensures Inv(w, Respond(w, s, l, s.links[l].py.req, resp))
  {
    var k := s.links[l];
    RespondChanges(w, RoleOn(Holder(s), l), k, resp);
    LinkStepKeeps(w, s, l, Responded(w, k, k.py.req, resp));
  }

  lemma PySetTenantKeeps(w: World, s: State, l: nat)
    requires Inv(w, s)
    ensures Inv(w, PySetTenantStep(s, l))
  {
    if l < |s.links| && s.links[l].py.PyGot? {
      LinkStepKeeps(w, s, l, PySetTenantStep(s, l).links[l]);
    }
  }

  lemma PyLookupKeeps(w: World, s: State, l: nat)
    requires Inv(w, s)
    ensures Inv(w, PyLookupStep(w, s, l))
  {
    if l < |s.links| && s.links[l].py.PySelecting? {
      var k := s.links[l];
      if k.py.req.handler in w.handlers {
        LinkStepKeeps(w, s, l, k.(py := PyRunning(k.py.req)));
      } else {
        RespondKeeps(w, s, l, NoHandler(k.py.req.handler));
      }
    }
  }

  lemma PyConnectKeeps(w: World, s: State, l: nat)
    requires Inv(w, s)
    ensures Inv(w, PyConnectStep(w, s, l))
  {
    assert Holder(PyConnectStep(w, s, l)) == Holder(s);
  }

  lemma PyFinishKeeps(w: World, s: State, l: nat, resp: Response)
    requires Inv(w, s)
    ensures Inv(w, PyFinishStep(w, s, l, resp))
  {
    if l < |s.links| && s.links[l].py.PyRunning? {
      RespondKeeps(w, s, l, resp);
    }
  }

  lemma PyWriteKeeps(w: World, s: State, l: nat, n: nat)
    requires Inv(w, s)
    ensures Inv(w, PyWriteStep(s, l, n))
  {
    var s' := PyWriteStep(s, l, n);
    if s' != s {
      var k, role := s.links[l], RoleOn(Holder(s), l);
      var out := k.py.out;
      assert out == out[..n] + out[n..];
      if !k.dirty {
        assert role.buf + k.toGo + out == role.buf + (k.toGo + out[..n]) + out[n..];
      }
      LinkStepKeeps(w, s, l, s'.links[l]);
    }
  }

  lemma PyDieKeeps(w: World, s: State, l: nat)
    requires Inv(w, s)
    ensures Inv(w, PyDieStep(s, l))
  {
    if l < |s.links| {
      LinkStepKeeps(w, s, l, s.links[l].(py := PyDead));
    }
  }

  // ---- Every step ----

  lemma EntryStepKeeps(w: World, s: State, e: Event)
    requires Inv(w, s) && (e.Invoke? || e.Lock? || e.Begin? || e.Unlock?)
    ensures Inv(w, Step(w, s, e))
  {
    match e
    case Invoke(t, op) => InvokeKeeps(w, s, t, op);
    case Lock(t) => LockKeeps(w, s, t);
    case Begin(t) => BeginKeeps(w, s, t);
    case Unlock(t) => UnlockKeeps(w, s, t);
  }

  lemma RoundTripStepKeeps(w: World, s: State, e: Event)
    requires Inv(w, s) && Sound(w) && (e.Write? || e.Read? || e.Complete? || e.IoError?)
    ensures Inv(w, Step(w, s, e))
  {
    match e
    case Write(t, n) => WriteKeeps(w, s, t, n);
    case Read(t, n) => ReadKeeps(w, s, t, n);
    case Complete(t) => CompleteKeeps(w, s, t);
    case IoError(t) => IoErrorKeeps(w, s, t);
  }

  lemma StopStepKeeps(w: World, s: State, e: Event)
    requires Inv(w, s) && (e.StopStep? || e.ListenDone? || e.LaunchDone?)
    ensures Inv(w, Step(w, s, e))
  {
    match e
    case StopStep(t) => StopLockedKeeps(w, s, t);
    case ListenDone(t, ok) => ListenKeeps(w, s, t, ok);
    case LaunchDone(t, ok) => LaunchKeeps(w, s, t, ok);
  }

  lemma ConnectStepKeeps(w: World, s: State, e: Event)
    requires Inv(w, s) && (e.AcceptDone? || e.Mark?)
    ensures Inv(w, Step(w, s, e))
  {
    match e
    case AcceptDone(t, ok) => AcceptKeeps(w, s, t, ok);
    case Mark(t) => MarkKeeps(w, s, t);
  }

  lemma SelectStepKeeps(w: World, s: State, e: Event)
    requires Inv(w, s) && (e.PySetTenant? || e.PyLookup?)
    ensures Inv(w, Step(w, s, e))
  {
    match e
    case PySetTenant(l) => PySetTenantKeeps(w, s, l);
    case PyLookup(l) => PyLookupKeeps(w, s, l);
  }

  lemma HandlerStepKeeps(w: World, s: State, e: Event)
    requires Inv(w, s) && (e.PyConnect? || e.PyFinish?)
    ensures Inv(w, Step(w, s, e))
  {
    match e
    case PyConnect(l) => PyConnectKeeps(w, s, l);
    case PyFinish(l, resp) => PyFinishKeeps(w, s, l, resp);
  }

  lemma StreamStepKeeps(w: World, s: State, e: Event)
    requires Inv(w, s) && Sound(w) && (e.PyRead? || e.PyDecode? || e.PyWrite? || e.PyDie?)
    ensures Inv(w, Step(w, s, e))
  {
    match e
    case PyRead(l, n) => PyReadKeeps(w, s, l, n);
    case PyDecode(l) => PyDecodeKeeps(w, s, l);
    case PyWrite(l, n) => PyWriteKeeps(w, s, l, n);
    case PyDie(l) => PyDieKeeps(w, s, l);
  }

  predicate PythonStep(e: Event) {
    e.PyRead? || e.PyDecode? || e.PySetTenant? || e.PyLookup? || e.PyConnect? || e.PyFinish? || e.PyWrite? || e.PyDie?
  }

  lemma PythonStepKeeps(w: World, s: State, e: Event)
    requires Inv(w, s) && Sound(w) && PythonStep(e)
    ensures Inv(w, Step(w, s, e))
  {
    if e.PySetTenant? || e.PyLookup? {
      SelectStepKeeps(w, s, e);
    } else if e.PyConnect? || e.PyFinish? {
      HandlerStepKeeps(w, s, e);
    } else {
      StreamStepKeeps(w, s, e);
    }
  }

  lemma StepKeeps(w: World, s: State, e: Event)
    requires Inv(w, s) && Sound(w)
    ensures Inv(w, Step(w, s, e))
  {
    if PythonStep(e) {
      PythonStepKeeps(w, s, e);
    } else if e.Write? || e.Read? || e.Complete? || e.IoError? {
      RoundTripStepKeeps(w, s, e);
    } else if e.StopStep? || e.ListenDone? || e.LaunchDone? {
      StopStepKeeps(w, s, e);
    } else if e.AcceptDone? || e.Mark? {
      ConnectStepKeeps(w, s, e);
    } else {
      EntryStepKeeps(w, s, e);
    }
  }

  lemma {:induction false} ExecKeeps(w: World, s: State, run: seq<Event>)
    requires Inv(w, s) && Sound(w)
    ensures Inv(w, Exec(w, s, run))
    decreases |run|
  {
    if run != [] {
      StepKeeps(w, s, run[0]);
      ExecKeeps(w, Step(w, s, run[0]), run[1..]);
    }
  }
}
