/** `Supervisor` of core/runtime/runtime.go as the object the source has, one method call inside the
    mutex at a time, and its agreement with the step machine of `Protocol`. */
module Supervision {
  import opened Common
  import opened Framing
  import opened Protocol
  import opened ProtocolTheorems

  /** How the system answers a launch: the listener opens, the interpreter starts, and it dials in
      before the timeout. */
  datatype Luck = Luck(listen: bool, launch: bool, accept: bool)

  datatype Fields = Fields(conn: Option<nat>, cmd: Option<nat>, started: bool)

  /** Opening the socket and launching process number `process` with nothing running. */
  function Relaunched(f: Fields, luck: Luck, process: nat): (Fields, Outcome) {
    if !luck.listen || !luck.launch then (f, Failure)
    else if !luck.accept then (Fields(None, Some(process), false), Failure)
    else (Fields(Some(process), Some(process), true), Success)
  }

  /** What a whole `Start`, `Restart` or `Stop` does. */
  function Effect(op: Op, f: Fields, luck: Luck, process: nat): (Fields, Outcome)
    requires !op.Call?
  {
    match op
    case Start => if f.started then (f, Success) else Relaunched(f, luck, process)
    case Restart => Relaunched(Fields(None, f.cmd, false), luck, process)
    case Stop => (Fields(None, f.cmd, false), Success)
  }

  /** What `CallPython` returns when its connection still carries `stream` towards Go. */
  function Answer(responses: Codec<Response>, stream: Bytes): Outcome {
    match RecvFrame(stream)
    case Closed(_) => TransportError
    case Message(body, _) =>
      match responses.dec(body)
      case None => TransportError
      case Some(resp) => Answered(resp)
  }

  class Connection {
    const process: nat
    const socket: Socket

    constructor (process: nat, socket: Socket)
      ensures this.process == process && this.socket == socket
    {
      this.process, this.socket := process, socket;
    }
  }

  class Supervisor {
    var listening: bool
    var conn: Connection?
    var cmd: Option<nat>
    var started: bool

    ghost predicate Valid()
      reads this, conn, if conn == null then {} else {conn.socket}
    {
      && (started <==> conn != null) && (started ==> listening)
      && (conn != null ==> cmd == Some(conn.process) && conn.socket.Valid())
    }

    ghost function View(): Fields
      reads this, conn
    {
      Fields(if conn == null then None else Some(conn.process), cmd, started)
    }

    constructor ()
      ensures Valid() && View() == Fields(None, None, false)
    {
      listening, conn, cmd, started := false, null, None, false;
    }

    /** `stopLocked`; killing and waiting for the process happen outside this object. */
    method StopLocked()
      modifies this
      ensures Valid() && !listening && View() == Fields(None, old(cmd), false)
    {
      if conn != null {
        conn := null;
      }
      if listening {
        listening := false;
      }
      started := false;
    }

    /** The part `Start` and `Restart` share. */
    method Launch(luck: Luck, process: nat, socket: Socket) returns (outcome: Outcome)
      requires Valid() && !started && socket.Valid()
      modifies this
      ensures Valid()
      ensures (View(), outcome) == Relaunched(old(View()), luck, process)
      ensures started ==> fresh(conn) && conn.socket == socket
    {
      if !luck.listen {
        return Failure;
      }
      listening := true;
      if !luck.launch {
        return Failure;
      }
      cmd := Some(process);
      if !luck.accept {
        StopLocked();
        return Failure;
      }
      conn := new Connection(process, socket);
      started := true;
      return Success;
    }

    method Start(luck: Luck, process: nat, socket: Socket) returns (outcome: Outcome)
      requires Valid() && socket.Valid()
      modifies this
      ensures Valid() && (View(), outcome) == Effect(Op.Start, old(View()), luck, process)
      ensures old(started) ==> conn == old(conn)
    {
      if started {
        return Success;
      }
      outcome := Launch(luck, process, socket);
    }

    method Restart(luck: Luck, process: nat, socket: Socket) returns (outcome: Outcome)
      requires socket.Valid()
      modifies this
      ensures Valid() && (View(), outcome) == Effect(Op.Restart, old(View()), luck, process)
      ensures started ==> fresh(conn) && conn.socket == socket
    {
      StopLocked();
      outcome := Launch(luck, process, socket);
    }

    method Stop() returns (outcome: Outcome)
      modifies this
      ensures Valid() && forall luck, process :: (View(), outcome) == Effect(Op.Stop, old(View()), luck, process)
    {
      StopLocked();
      return Success;
    }

    method Ready() returns (ready: bool)
      requires Valid()
      ensures ready <==> View().started
    {
      return started && conn != null;
    }

    /** One round trip; the connection is kept whatever happens. `room` is how many bytes the stream
        takes before a write fails, and the socket's data what arrives before a read does. */
    method CallPython(requests: Codec<Request>, responses: Codec<Response>, req: Request, room: nat)
        returns (outcome: Outcome)
      requires Valid()
      modifies if conn == null then {} else {conn.socket}
      ensures Valid()
      ensures conn == null ==> outcome == NotStarted
      ensures conn != null && requests.enc(req).None? ==> outcome == TransportError && unchanged(conn.socket)
      ensures conn != null && requests.enc(req).Some? ==>
        var frame := Frame(requests.enc(req).value);
        if |frame| <= room then
          && conn.socket.written == old(conn.socket.written) + frame
          && outcome == Answer(responses, old(conn.socket.Data()))
            && conn.socket.Data() == Unread(old(conn.socket.Data()))
        else
          && conn.socket.written == old(conn.socket.written) + frame[..room]
          && conn.socket.Data() == old(conn.socket.Data()) && outcome == TransportError
    {
      if !started || conn == null {
        return NotStarted;
      }
      var body := requests.enc(req);
      if body.None? {
        return TransportError;
      }
      var ok := conn.socket.GoSend(body.value, room);
      if !ok {
        return TransportError;
      }
      var received := conn.socket.ReceiveFrame();
      if received.Closed? {
        return TransportError;
      }
      var resp := responses.dec(received.body);
      if resp.None? {
        return TransportError;
      }
      return Answered(resp.value);
    }
  }

  // ---- What the outcomes come to ----

  /** The fields and the outcome after each operation, by what the system did: connected to the new process and
      started only if it listened, launched and was dialled in to; the record of a process that was launched
      but did not dial in is kept; a stop keeps the record of the last process. */
  lemma EffectMeans(f: Fields, luck: Luck, process: nat)
    ensures Effect(Stop, f, luck, process) == (Fields(None, f.cmd, false), Success)
    ensures f.started ==> Effect(Start, f, luck, process) == (f, Success)
    ensures var all := luck.listen && luck.launch && luck.accept;
      && Effect(Restart, f, luck, process) ==
         (Fields(if all then Some(process) else None, if luck.listen && luck.launch then Some(process) else f.cmd, all),
          if all then Success else Failure)
      && (!f.started && f.conn == None ==> Effect(Start, f, luck, process) == Effect(Restart, f, luck, process))
  {
  }

  /** What a call makes of the stream towards Go: the response its first frame decodes to, by the four bytes of
      that frame's length; an error if the frame is not complete or does not decode. */
  lemma AnswerMeans(responses: Codec<Response>, stream: Bytes)
    ensures |stream| < 4 ==> Answer(responses, stream) == TransportError
    ensures |stream| >= 4 ==>
      var a: int, b: int, c: int, d: int := stream[0], stream[1], stream[2], stream[3];
      var n := a * 16_777_216 + b * 65_536 + c * 256 + d;
      Answer(responses, stream) ==
      if |stream| >= 4 + n && responses.dec(stream[4..4 + n]).Some?
      then Answered(responses.dec(stream[4..4 + n]).value) else TransportError
  {
    ReceivedMeans(stream);
  }

  // ---- The step machine does what the methods do ----

  function ViewOf(s: State): Fields { Fields(s.conn, s.cmd, s.started) }

  function Stops(t: nat): seq<Event> { [StopStep(t), StopStep(t), StopStep(t)] }

  function Opens(t: nat, luck: Luck): seq<Event> {
    [ListenDone(t, luck.listen), LaunchDone(t, luck.launch), AcceptDone(t, luck.accept)]
  }

  /** Every step an operation can take once it holds the mutex; those it skips are not enabled. */
  function BodyRun(t: nat, luck: Luck): seq<Event> {
    [Begin(t)] + (Stops(t) + (Opens(t, luck) + (Stops(t) + [Mark(t)])))
  }

  /** The mutex holder t stands at pc, everybody else where they stood in `before`. */
  ghost predicate At(before: State, s: State, t: nat, pc: Pc) {
    && t < |before.threads| && s.threads == before.threads[t := pc] && s.mutex == before.mutex
    && s.delivered == before.delivered && s.connects == before.connects
    && |s.links| >= |before.links| && (s.cmd.Some? ==> s.cmd.value < |s.links|)
  }

  lemma StopsFromStart(w: World, before: State, s: State, t: nat, relaunch: bool, outcome: Outcome)
    requires At(before, s, t, Stopping(0, relaunch, outcome))
    ensures var s' := Exec(w, s, Stops(t));
      && At(before, s', t, if relaunch then Opening else Leaving(outcome))
      && ViewOf(s') == Fields(None, s.cmd, false) && |s'.links| == |s.links|
  {
    Exec3(w, s, StopStep(t), StopStep(t), StopStep(t));
    var s1 := StopLockedStep(s, t);
    assert At(before, s1, t, Stopping(1, relaunch, outcome)) by {
      assert before.threads[t := Stopping(0, relaunch, outcome)][t := Stopping(1, relaunch, outcome)]
          == before.threads[t := Stopping(1, relaunch, outcome)];
    }
    var s2 := StopLockedStep(s1, t);
    assert At(before, s2, t, Stopping(2, relaunch, outcome)) by {
      assert before.threads[t := Stopping(1, relaunch, outcome)][t := Stopping(2, relaunch, outcome)]
          == before.threads[t := Stopping(2, relaunch, outcome)];
    }
    var pc := if relaunch then Opening else Leaving(outcome);
    assert before.threads[t := Stopping(2, relaunch, outcome)][t := pc] == before.threads[t := pc];
  }

  lemma StopsSkipped(w: World, s: State, t: nat)
    requires t < |s.threads| && !s.threads[t].Stopping?
    ensures Exec(w, s, Stops(t)) == s
  {
    Exec3(w, s, StopStep(t), StopStep(t), StopStep(t));
  }

  lemma OpensSkipped(w: World, s: State, t: nat, luck: Luck)
    requires t < |s.threads| && s.threads[t].Leaving?
    ensures Exec(w, s, Opens(t, luck)) == s
  {
    Exec3(w, s, ListenDone(t, luck.listen), LaunchDone(t, luck.launch), AcceptDone(t, luck.accept));
  }

  /** Where a launch stands when the accept is over. */
  function Opened(luck: Luck): Pc {
    if !luck.listen || !luck.launch then Leaving(Failure)
    else if luck.accept then Marking else Stopping(0, false, Failure)
  }

  lemma OpensRun(w: World, before: State, s: State, t: nat, luck: Luck)
    requires At(before, s, t, Opening) && s.conn == None && !s.started
    ensures var s' := Exec(w, s, Opens(t, luck)); var process := |s.links|;
      && At(before, s', t, Opened(luck))
      && ViewOf(s') == if !luck.listen || !luck.launch then ViewOf(s)
                       else Fields(if luck.accept then Some(process) else None, Some(process), false)
  {
    Exec3(w, s, ListenDone(t, luck.listen), LaunchDone(t, luck.launch), AcceptDone(t, luck.accept));
    var s1 := ListenStep(s, t, luck.listen);
    var pc1 := if luck.listen then Launching else Leaving(Failure);
    assert s.threads[t := pc1] == before.threads[t := pc1];
    var s2 := LaunchStep(s1, t, luck.launch);
    var pc2 := if !luck.listen || !luck.launch then Leaving(Failure) else Accepting;
    assert s1.threads[t := pc2] == before.threads[t := pc2];
    assert At(before, s2, t, pc2);
    assert s2.threads[t := Opened(luck)] == before.threads[t := Opened(luck)];
  }

  /** From `Opening` to the end of the launch. */
  lemma LaunchAgrees(w: World, before: State, s: State, t: nat, luck: Luck)
    requires At(before, s, t, Opening) && s.conn == None && !s.started
    ensures var s' := Exec(w, s, Opens(t, luck) + (Stops(t) + [Mark(t)]));
      var (f, outcome) := Relaunched(ViewOf(s), luck, |s.links|);
      At(before, s', t, Leaving(outcome)) && ViewOf(s') == f
  {
    var a, b, c := Opens(t, luck), Stops(t), [Mark(t)];
    ExecAppend(w, s, a, b + c);
    OpensRun(w, before, s, t, luck);
    var s1 := Exec(w, s, a);
    ExecAppend(w, s1, b, c);
    if s1.threads[t].Stopping? { StopsFromStart(w, before, s1, t, false, Failure); } else { StopsSkipped(w, s1, t); }
    var s2 := Exec(w, s1, b);
    ExecCons(w, s2, Mark(t), []);
    assert c == c + [];
    assert s2.threads[t := Leaving(Success)] == before.threads[t := Leaving(Success)];
  }

  lemma RestSkipped(w: World, s: State, t: nat, luck: Luck)
    requires t < |s.threads| && s.threads[t].Leaving?
    ensures Exec(w, s, Opens(t, luck) + (Stops(t) + [Mark(t)])) == s
  {
    ExecAppend(w, s, Opens(t, luck), Stops(t) + [Mark(t)]);
    OpensSkipped(w, s, t, luck);
    ExecAppend(w, s, Stops(t), [Mark(t)]);
    StopsSkipped(w, s, t);
    ExecCons(w, s, Mark(t), []);
    assert [Mark(t)] == [Mark(t)] + [];
  }

  /** A thread that has taken the mutex for `Start`, `Restart` or `Stop` and runs alone ends with the
      fields and the outcome of the method; no other thread is moved. */
  lemma BodyAgrees(w: World, s: State, t: nat, op: Op, luck: Luck)
    requires t < |s.threads| && s.threads[t] == Entered(op) && !op.Call?
    requires (s.started <==> s.conn.Some?) && (s.cmd.Some? ==> s.cmd.value < |s.links|)
    ensures var s' := Exec(w, s, BodyRun(t, luck)); var (f, outcome) := Effect(op, ViewOf(s), luck, |s.links|);
      && ViewOf(s') == f && s'.threads == s.threads[t := Leaving(outcome)]
      && s'.mutex == s.mutex && s'.delivered == s.delivered
  {
    var b, c := Stops(t), Opens(t, luck) + (Stops(t) + [Mark(t)]);
    ExecCons(w, s, Begin(t), b + c);
    var s1 := Step(w, s, Begin(t));
    ExecAppend(w, s1, b, c);
    if op.Start? {
      StopsSkipped(w, s1, t);
      if s.started { RestSkipped(w, s1, t, luck); } else { LaunchAgrees(w, s, s1, t, luck); }
    } else {
      StopsFromStart(w, s, s1, t, op.Restart?, Success);
      var s2 := Exec(w, s1, b);
      if op.Restart? { LaunchAgrees(w, s, s2, t, luck); } else { RestSkipped(w, s2, t, luck); }
    }
  }

  // ---- Reading byte by byte is reading a frame ----

  /** What a reader that asks for no more than it needs can have collected. */
  predicate Partial(buf: Bytes) { |buf| <= 4 || |buf| <= 4 + Uint32(buf[..4]) }

  /** However the transport cuts the stream: a reader that never asks for more than it needs stays
      within the first frame, and when it needs nothing more it has exactly what `Recv` returns. */
  lemma ReaderIsRecv(buf: Bytes, chunk: Bytes, rest: Bytes)
    requires Partial(buf) && |chunk| <= Needed(buf)
    ensures Partial(buf + chunk)
    ensures Needed(buf + chunk) == 0 <==> RecvFrame(buf + chunk).Message?
    ensures Needed(buf + chunk) == 0 ==> RecvFrame(buf + chunk + rest) == Message((buf + chunk)[4..], rest)
  {
    var now := buf + chunk;
    if |buf| >= 4 { assert now[..4] == buf[..4]; }
    var all := now + rest;
    if Needed(now) == 0 {
      assert all[..4] == now[..4];
      assert all[4..|now|] == now[4..] && all[|now|..] == rest;
    }
  }
}
