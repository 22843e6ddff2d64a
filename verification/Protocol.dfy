/** The Go/Python call protocol as a step machine: any number of Go threads calling
    `CallPython`, `Start`, `Restart` and `Stop` on one `Supervisor`, its mutex, one pair of byte
    streams per connection, and the Python `serve` loop at the other end with its process-wide
    tenant variable. One event is one step of one party; an event that is not enabled in a state
    leaves the state alone, so every sequence of events is a run. */
module Protocol {
  import opened Common
  import opened Framing
  import Tenancy

  datatype Request = Request(handler: string, tenant: Option<string>, args: Bytes)
  datatype Response = Result(value: Bytes) | CrossError(kind: string, message: string)

  /** MessagePack on one side and its reader on the other. Either may reject a value. */
  datatype Codec<!T> = Codec(enc: T -> Option<Bytes>, dec: Bytes -> Option<T>)

  ghost predicate Faithful<T(!new)>(c: Codec<T>) {
    forall v: T :: c.enc(v).Some? ==> var d := c.dec(c.enc(v).value); d.None? || d == Some(v)
  }

  datatype World = World(requests: Codec<Request>, responses: Codec<Response>,
                         handlers: set<string>, environment: Option<string>)

  datatype Op = Call(req: Request) | Start | Restart | Stop
  datatype Outcome = Answered(resp: Response) | NotStarted | TransportError | Success | Failure

  /** Where a Go thread stands. Everything but `Idle` and `Waiting` is inside the mutex. */
  datatype Pc =
    | Idle
    | Waiting(op: Op)
    | Entered(op: Op)
    | Sending(req: Request, link: nat, index: nat, out: Bytes)
    | Receiving(req: Request, sentOn: nat, index: nat, link: nat, buf: Bytes)
    | Stopping(stage: nat, relaunch: bool, outcome: Outcome)
    | Opening
    | Launching
    | Accepting
    | Marking
    | Leaving(outcome: Outcome)
    | NilDereference

  /** Where the Python process of a link stands in `serve` and `dispatch`. */
  datatype Py =
    | PyReading(buf: Bytes)
    | PyGot(req: Request)
    | PySelecting(req: Request)
    | PyRunning(req: Request)
    | PyWriting(out: Bytes)
    | PyDead

  /** One Python process and its connection. The rest records history: `sent` the requests whose send
      began, `log` the requests handled with their responses, and `dirty` whether a transport error (an
      I/O error, or a body too long for its header) has happened on this connection since a call last
      found it quiet. The requests from number `from` on were sent since then, and number i is
      answered by entry i + skew of the log. */
  datatype Link = Link(toPy: Bytes, toGo: Bytes, py: Py, tenant: Option<string>,
                       sent: seq<Request>, log: seq<(Request, Response)>, dirty: bool, from: nat, skew: int)

  /** A response returned to a caller, with the connection it was sent and received on, and the entry of
      its log that should hold it. */
  datatype Delivery = Delivery(thread: nat, req: Request, sentOn: nat, index: nat,
                               link: nat, resp: Response, clean: bool, answer: int)

  datatype Opened = Opened(link: nat, req: Request, path: string)

  datatype State = State(conn: Option<nat>, cmd: Option<nat>, started: bool, mutex: Option<nat>,
                         threads: seq<Pc>, links: seq<Link>,
                         delivered: seq<Delivery>, connects: seq<Opened>)

  datatype Event =
    | Invoke(t: nat, op: Op)
    | Lock(t: nat)
    | Begin(t: nat)
    | Write(t: nat, n: nat)
    | Read(t: nat, n: nat)
    | Complete(t: nat)
    | IoError(t: nat)
    | StopStep(t: nat)
    | ListenDone(t: nat, ok: bool)
    | LaunchDone(t: nat, ok: bool)
    | AcceptDone(t: nat, ok: bool)
    | Mark(t: nat)
    | Unlock(t: nat)
    | PyRead(l: nat, n: nat)
    | PyDecode(l: nat)
    | PySetTenant(l: nat)
    | PyLookup(l: nat)
    | PyConnect(l: nat)
    | PyFinish(l: nat, resp: Response)
    | PyWrite(l: nat, n: nat)
    | PyDie(l: nat)

  function Init(threads: nat): State {
    State(None, None, false, None, seq(threads, _ => Idle), [], [], [])
  }

  /** How many more bytes a reader that has `buf` asks its socket for. */
  function Needed(buf: Bytes): nat {
    if |buf| < 4 then 4 - |buf|
    else if |buf| < 4 + Uint32(buf[..4]) then 4 + Uint32(buf[..4]) - |buf|
    else 0
  }

  function SetPc(s: State, t: nat, pc: Pc): State
    requires t < |s.threads|
  {
    s.(threads := s.threads[t := pc])
  }

  function SetLink(s: State, l: nat, k: Link): State
    requires l < |s.links|
  {
    s.(links := s.links[l := k])
  }

  /** Nothing is under way on a connection. */
  predicate Quiet(k: Link) { k.toPy == [] && k.toGo == [] && (k.py == PyReading([]) || k.py == PyDead) }

  /** The history of a connection as a call finds it: on a quiet one, earlier errors are over. */
  function Settled(k: Link): Link {
    if k.dirty && Quiet(k) then k.(dirty := false, from := |k.sent|, skew := |k.log| - |k.sent|) else k
  }

  // ---- The Go threads ----

  function InvokeStep(s: State, t: nat, op: Op): State {
    if t < |s.threads| && s.threads[t] == Idle then SetPc(s, t, Waiting(op)) else s
  }

  function LockStep(s: State, t: nat): State {
    if t < |s.threads| && s.threads[t].Waiting? && s.mutex == None
    then SetPc(s, t, Entered(s.threads[t].op)).(mutex := Some(t))
    else s
  }

  /** The first statements after taking the mutex. */
  ghost function BeginStep(w: World, s: State, t: nat): State {
    if !(t < |s.threads| && s.threads[t].Entered?) then s
    else match s.threads[t].op
      case Start => SetPc(s, t, if s.started then Leaving(Success) else Opening)
      case Restart => SetPc(s, t, Stopping(0, true, Success))
      case Stop => SetPc(s, t, Stopping(0, false, Success))
      case Call(req) =>
        if !s.started || s.conn.None? || s.conn.value >= |s.links| then SetPc(s, t, Leaving(NotStarted))
        else if w.requests.enc(req).None? then SetPc(s, t, Leaving(TransportError))
        else
          var l, body := s.conn.value, w.requests.enc(req).value;
          var k := Settled(s.links[l]);
          SetLink(SetPc(s, t, Sending(req, l, |k.sent|, Frame(body))), l,
                  k.(sent := k.sent + [req], dirty := k.dirty || |body| >= U32))
  }

  /** The transport takes n more bytes of the frame; after the last one `Recv` is called on
      whatever connection the supervisor holds then. */
  function WriteStep(s: State, t: nat, n: nat): State {
    if !(t < |s.threads| && s.threads[t].Sending?) then s
    else
      var p := s.threads[t];
      if !(0 < n <= |p.out| && p.link < |s.links|) then s
      else
        var k := s.links[p.link];
        var s1 := SetLink(s, p.link, k.(toPy := k.toPy + p.out[..n]));
        if n < |p.out| then SetPc(s1, t, p.(out := p.out[n..]))
        else if s.conn.None? then SetPc(s1, t, NilDereference)
        else SetPc(s1, t, Receiving(p.req, p.link, p.index, s.conn.value, []))
  }

  function ReadStep(s: State, t: nat, n: nat): State {
    if !(t < |s.threads| && s.threads[t].Receiving?) then s
    else
      var p := s.threads[t];
      if !(p.link < |s.links| && 0 < n <= Needed(p.buf) && n <= |s.links[p.link].toGo|) then s
      else
        var k := s.links[p.link];
        SetLink(SetPc(s, t, p.(buf := p.buf + k.toGo[..n])), p.link, k.(toGo := k.toGo[n..]))
  }

  /** The whole frame is there: decode it and leave with the answer or a decoding error. */
  ghost function CompleteStep(w: World, s: State, t: nat): State {
    if !(t < |s.threads| && s.threads[t].Receiving?) then s
    else
      var p := s.threads[t];
      if !(p.link < |s.links| && Needed(p.buf) == 0) then s
      else
        match w.responses.dec(p.buf[4..])
        case None => SetPc(s, t, Leaving(TransportError))
        case Some(resp) =>
          var k := s.links[p.link];
          var d := Delivery(t, p.req, p.sentOn, p.index, p.link, resp, !k.dirty, p.index + k.skew);
          SetPc(s, t, Leaving(Answered(resp))).(delivered := s.delivered + [d])
  }

  /** A read or write fails, end of stream included. The connection is kept. */
  function IoErrorStep(s: State, t: nat): State {
    if !(t < |s.threads| && (s.threads[t].Sending? || s.threads[t].Receiving?)) then s
    else
      var l := s.threads[t].link;
      if l >= |s.links| then s
      else SetLink(SetPc(s, t, Leaving(TransportError)), l, s.links[l].(dirty := true))
  }

  /** `stopLocked`: drop the connection, kill the process, clear `started`. */
  function StopLockedStep(s: State, t: nat): State {
    if !(t < |s.threads| && s.threads[t].Stopping?) then s
    else
      var p := s.threads[t];
      match p.stage
      case 0 => SetPc(s, t, p.(stage := 1)).(conn := None)
      case 1 =>
        var s1 := SetPc(s, t, p.(stage := 2));
        if s.cmd.Some? && s.cmd.value < |s.links|
        then SetLink(s1, s.cmd.value, s.links[s.cmd.value].(py := PyDead)) else s1
      case _ => SetPc(s, t, if p.relaunch then Opening else Leaving(p.outcome)).(started := false)
  }

  function ListenStep(s: State, t: nat, ok: bool): State {
    if !(t < |s.threads| && s.threads[t] == Opening) then s
    else SetPc(s, t, if ok then Launching else Leaving(Failure))
  }

  /** A launched process gets a fresh pair of streams and an unset tenant. */
  function LaunchStep(s: State, t: nat, ok: bool): State {
    if !(t < |s.threads| && s.threads[t] == Launching) then s
    else if !ok then SetPc(s, t, Leaving(Failure))
    else SetPc(s, t, Accepting).(cmd := Some(|s.links|),
                                 links := s.links + [Link([], [], PyReading([]), None, [], [], false, 0, 0)])
  }

  function AcceptStep(s: State, t: nat, ok: bool): State {
    if !(t < |s.threads| && s.threads[t] == Accepting) then s
    else if ok then SetPc(s, t, Marking).(conn := s.cmd)
    else SetPc(s, t, Stopping(0, false, Failure))
  }

  function MarkStep(s: State, t: nat): State {
    if !(t < |s.threads| && s.threads[t] == Marking) then s
    else SetPc(s, t, Leaving(Success)).(started := true)
  }

  function UnlockStep(s: State, t: nat): State {
    if !(t < |s.threads| && s.threads[t].Leaving?) then s
    else SetPc(s, t, Idle).(mutex := None)
  }

  // ---- The Python side ----

  function PyReadStep(s: State, l: nat, n: nat): State {
    if !(l < |s.links| && s.links[l].py.PyReading?) then s
    else
      var k := s.links[l];
      if !(0 < n <= Needed(k.py.buf) && n <= |k.toPy|) then s
      else SetLink(s, l, k.(py := PyReading(k.py.buf + k.toPy[..n]), toPy := k.toPy[n..]))
  }

  /** Decoding errors are not caught by `serve`: they end the process. */
  ghost function PyDecodeStep(w: World, s: State, l: nat): State {
    if !(l < |s.links| && s.links[l].py.PyReading? && Needed(s.links[l].py.buf) == 0) then s
    else
      var k := s.links[l];
      match w.requests.dec(k.py.buf[4..])
      case None => SetLink(s, l, k.(py := PyDead))
      case Some(req) => SetLink(s, l, k.(py := PyGot(req)))
  }

  function PySetTenantStep(s: State, l: nat): State {
    if !(l < |s.links| && s.links[l].py.PyGot?) then s
    else
      var k := s.links[l];
      SetLink(s, l, k.(py := PySelecting(k.py.req), tenant := k.py.req.tenant))
  }

  /** The answer is packed and written; a value that cannot be packed ends the process. */
  ghost function Respond(w: World, s: State, l: nat, req: Request, resp: Response): State
    requires l < |s.links|
  {
    var k := s.links[l];
    match w.responses.enc(resp)
    case Some(body) =>
      if |body| < U32 then SetLink(s, l, k.(py := PyWriting(Frame(body)), log := k.log + [(req, resp)]))
      else SetLink(s, l, k.(py := PyDead))
    case None => SetLink(s, l, k.(py := PyDead))
  }

  function NoHandler(handler: string): Response {
    CrossError("HandlerNotFound", "no handler registered for '" + handler + "'")
  }

  ghost function PyLookupStep(w: World, s: State, l: nat): State {
    if !(l < |s.links| && s.links[l].py.PySelecting?) then s
    else
      var req := s.links[l].py.req;
      if req.handler in w.handlers then SetLink(s, l, s.links[l].(py := PyRunning(req)))
      else Respond(w, s, l, req, NoHandler(req.handler))
  }

  /** A running handler opens a database with a default connect. */
  ghost function PyConnectStep(w: World, s: State, l: nat): State {
    if !(l < |s.links| && s.links[l].py.PyRunning?) then s
    else
      var k := s.links[l];
      s.(connects := s.connects + [Opened(l, k.py.req, Tenancy.DbPath(None, None, k.tenant, w.environment))])
  }

  /** The handler returns or raises; either way `dispatch` yields some response. */
  ghost function PyFinishStep(w: World, s: State, l: nat, resp: Response): State {
    if !(l < |s.links| && s.links[l].py.PyRunning?) then s
    else Respond(w, s, l, s.links[l].py.req, resp)
  }

  function PyWriteStep(s: State, l: nat, n: nat): State {
    if !(l < |s.links| && s.links[l].py.PyWriting?) then s
    else
      var k := s.links[l];
      var out := k.py.out;
      if !(0 < n <= |out|) then s
      else SetLink(s, l, k.(toGo := k.toGo + out[..n],
                            py := if n < |out| then PyWriting(out[n..]) else PyReading([])))
  }

  function PyDieStep(s: State, l: nat): State {
    if l < |s.links| then SetLink(s, l, s.links[l].(py := PyDead)) else s
  }

  ghost function Step(w: World, s: State, e: Event): State {
    match e
    case Invoke(t, op) => InvokeStep(s, t, op)
    case Lock(t) => LockStep(s, t)
    case Begin(t) => BeginStep(w, s, t)
    case Write(t, n) => WriteStep(s, t, n)
    case Read(t, n) => ReadStep(s, t, n)
    case Complete(t) => CompleteStep(w, s, t)
    case IoError(t) => IoErrorStep(s, t)
    case StopStep(t) => StopLockedStep(s, t)
    case ListenDone(t, ok) => ListenStep(s, t, ok)
    case LaunchDone(t, ok) => LaunchStep(s, t, ok)
    case AcceptDone(t, ok) => AcceptStep(s, t, ok)
    case Mark(t) => MarkStep(s, t)
    case Unlock(t) => UnlockStep(s, t)
    case PyRead(l, n) => PyReadStep(s, l, n)
    case PyDecode(l) => PyDecodeStep(w, s, l)
    case PySetTenant(l) => PySetTenantStep(s, l)
    case PyLookup(l) => PyLookupStep(w, s, l)
    case PyConnect(l) => PyConnectStep(w, s, l)
    case PyFinish(l, resp) => PyFinishStep(w, s, l, resp)
    case PyWrite(l, n) => PyWriteStep(s, l, n)
    case PyDie(l) => PyDieStep(s, l)
  }

  ghost function Exec(w: World, s: State, run: seq<Event>): State
    decreases |run|
  {
    if run == [] then s else Exec(w, Step(w, s, run[0]), run[1..])
  }
}
