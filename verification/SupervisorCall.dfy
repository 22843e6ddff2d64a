/** `CallPython` in the step machine: however its writes and reads are cut into pieces and whatever all
    other parties do meanwhile, a call ends as the method of the `Supervisor` object does. */
module SupervisionCalls {
  import opened Common
  import opened Framing
  import opened Protocol
  import opened ProtocolSafety
  import opened ProtocolTheorems
  import opened Supervision

  // ---- What passes through a connection during a run ----

  /** The bytes Python takes off link l in a step. */
  function GotBy(s: State, e: Event, l: nat): Bytes {
    if e.PyRead? && e.l == l < |s.links| && s.links[l].py.PyReading? && 0 < e.n <= Needed(s.links[l].py.buf)
      && e.n <= |s.links[l].toPy|
    then s.links[l].toPy[..e.n] else []
  }

  /** The bytes Python puts into link l in a step. */
  function PutBy(s: State, e: Event, l: nat): Bytes {
    if e.PyWrite? && e.l == l < |s.links| && s.links[l].py.PyWriting? && 0 < e.n <= |s.links[l].py.out|
    then s.links[l].py.out[..e.n] else []
  }

  ghost function Got(w: World, s: State, l: nat, run: seq<Event>): Bytes
    decreases |run|
  {
    if run == [] then [] else GotBy(s, run[0], l) + Got(w, Step(w, s, run[0]), l, run[1..])
  }

  ghost function Put(w: World, s: State, l: nat, run: seq<Event>): Bytes
    decreases |run|
  {
    if run == [] then [] else PutBy(s, run[0], l) + Put(w, Step(w, s, run[0]), l, run[1..])
  }

  // ---- A call under way ----

  /** Thread t is in a round trip over link l: `inward` is what Python has still to take off, the part that
      is not sent yet included; `outward` what the reader has taken and can still take. */
  ghost predicate InCall(s: State, t: nat, l: nat, inward: Bytes, outward: Bytes) {
    && t < |s.threads| && s.mutex == Some(t) && Exclusive(s) && s.started && s.conn == Some(l) && l < |s.links|
    && match s.threads[t]
       case Sending(_, link, _, out) =>
         link == l && out != [] && s.links[l].toPy + out == inward && s.links[l].toGo == outward
       case Receiving(_, _, _, link, buf) =>
         link == l && s.links[l].toPy == inward && Partial(buf) && buf + s.links[l].toGo == outward
       case _ => false
  }

  lemma WriteMoves(s: State, t: nat, l: nat, inward: Bytes, outward: Bytes, n: nat)
    requires InCall(s, t, l, inward, outward)
    ensures InCall(WriteStep(s, t, n), t, l, inward, outward)
  {
    var s' := WriteStep(s, t, n);
    if s' != s {
      var k, out := s.links[l], s.threads[t].out;
      assert k.toPy + out[..n] + out[n..] == k.toPy + out;
      assert out[..|out|] == out && [] + k.toGo == k.toGo;
    }
  }

  lemma ReadMoves(s: State, t: nat, l: nat, inward: Bytes, outward: Bytes, n: nat)
    requires InCall(s, t, l, inward, outward)
    ensures InCall(ReadStep(s, t, n), t, l, inward, outward)
  {
    var s' := ReadStep(s, t, n);
    if s' != s {
      var buf, toGo := s.threads[t].buf, s.links[l].toGo;
      ReaderIsRecv(buf, toGo[..n], []);
      assert buf + toGo[..n] + toGo[n..] == buf + toGo;
    }
  }

  /** The thread an event belongs to; Python's belong to none. */
  function ThreadOf(e: Event): Option<nat> {
    match e
    case Invoke(t, _) => Some(t)
    case Lock(t) => Some(t)
    case Begin(t) => Some(t)
    case Write(t, _) => Some(t)
    case Read(t, _) => Some(t)
    case Complete(t) => Some(t)
    case IoError(t) => Some(t)
    case StopStep(t) => Some(t)
    case ListenDone(t, _) => Some(t)
    case LaunchDone(t, _) => Some(t)
    case AcceptDone(t, _) => Some(t)
    case Mark(t) => Some(t)
    case Unlock(t) => Some(t)
    case _ => None
  }

  /** While t is inside, all another thread can do is ask for the mutex. */
  lemma OthersOnlyAsk(w: World, s: State, t: nat, e: Event)
    requires Exclusive(s) && s.mutex == Some(t) && ThreadOf(e).Some? && ThreadOf(e) != Some(t)
    ensures var s' := Step(w, s, e); var u := ThreadOf(e).value;
      s' == s || (e.Invoke? && u < |s.threads| && s.threads[u] == Idle && s' == SetPc(s, u, Waiting(e.op)))
  {
    var u := ThreadOf(e).value;
    if u < |s.threads| { assert !Inside(s.threads[u]); }
  }

  lemma OtherThreadMoves(w: World, s: State, t: nat, l: nat, inward: Bytes, outward: Bytes, e: Event)
    requires InCall(s, t, l, inward, outward) && ThreadOf(e).Some? && ThreadOf(e) != Some(t)
    ensures InCall(Step(w, s, e), t, l, inward, outward)
  {
    OthersOnlyAsk(w, s, t, e);
  }

  /** The calling thread itself has only its writes and reads, until its round trip ends. */
  lemma OwnMoves(w: World, s: State, t: nat, l: nat, inward: Bytes, outward: Bytes, e: Event)
    requires InCall(s, t, l, inward, outward) && ThreadOf(e) == Some(t) && !e.Complete? && !e.IoError?
    ensures InCall(Step(w, s, e), t, l, inward, outward)
  {
    match e
    case Write(_, n) => WriteMoves(s, t, l, inward, outward, n);
    case Read(_, n) => ReadMoves(s, t, l, inward, outward, n);
    case _ =>
  }

  /** A step of Python changes one link, and of its streams no more than it takes and puts. */
  ghost predicate LinkMoves(s: State, s': State, l: nat, got: Bytes, put: Bytes) {
    && s'.threads == s.threads && s'.mutex == s.mutex && s'.started == s.started && s'.conn == s.conn
    && |s'.links| == |s.links| && l < |s.links|
    && s.links[l].toPy == got + s'.links[l].toPy && s'.links[l].toGo == s.links[l].toGo + put
  }

  lemma PythonMoves(w: World, s: State, e: Event, l: nat)
    requires PythonStep(e) && l < |s.links|
    ensures LinkMoves(s, Step(w, s, e), l, GotBy(s, e, l), PutBy(s, e, l))
  {
    if GotBy(s, e, l) != [] {
      assert s.links[l].toPy == s.links[l].toPy[..e.n] + s.links[l].toPy[e.n..];
    }
    if !e.PyWrite? && !e.PyRead? { QuietPython(w, s, e, l); }
  }

  lemma QuietPython(w: World, s: State, e: Event, l: nat)
    requires PythonStep(e) && !e.PyWrite? && !e.PyRead? && l < |s.links|
    ensures LinkMoves(s, Step(w, s, e), l, [], [])
  {
    match e
    case PyLookup(m) => LookupIsQuiet(w, s, m, l);
    case PyFinish(m, resp) => if m < |s.links| && s.links[m].py.PyRunning? { RespondIsQuiet(w, s, m, resp, l); }
    case PyDecode(m) => DecodeIsQuiet(w, s, m, l);
    case _ =>
  }

  lemma LookupIsQuiet(w: World, s: State, m: nat, l: nat)
    requires l < |s.links|
    ensures LinkMoves(s, PyLookupStep(w, s, m), l, [], [])
  {
    if m < |s.links| && s.links[m].py.PySelecting? { RespondIsQuiet(w, s, m, NoHandler(s.links[m].py.req.handler), l); }
  }

  lemma DecodeIsQuiet(w: World, s: State, m: nat, l: nat)
    requires l < |s.links|
    ensures LinkMoves(s, PyDecodeStep(w, s, m), l, [], [])
  {
  }

  lemma RespondIsQuiet(w: World, s: State, m: nat, resp: Response, l: nat)
    requires m < |s.links| && l < |s.links| && (s.links[m].py.PySelecting? || s.links[m].py.PyRunning?)
    ensures LinkMoves(s, Respond(w, s, m, s.links[m].py.req, resp), l, [], [])
  {
  }

  lemma InCallMoves(s: State, s': State, t: nat, l: nat, inward: Bytes, outward: Bytes, got: Bytes, put: Bytes)
    requires InCall(s, t, l, inward, outward) && LinkMoves(s, s', l, got, put)
    ensures got <= inward && InCall(s', t, l, inward[|got|..], outward + put)
  {
    var k, k' := s.links[l], s'.links[l];
    match s.threads[t]
    case Sending(_, _, _, out) =>
      assert inward == got + (k'.toPy + out);
    case Receiving(_, _, _, _, buf) =>
      assert inward == got + k'.toPy && buf + (k.toGo + put) == buf + k.toGo + put;
  }

  /** The call has not ended within the run. */
  predicate Goes(run: seq<Event>, t: nat) {
    forall i :: 0 <= i < |run| ==> run[i] != Complete(t) && run[i] != IoError(t)
  }

  lemma StepMoves(w: World, s: State, t: nat, l: nat, inward: Bytes, outward: Bytes, e: Event)
    requires InCall(s, t, l, inward, outward) && e != Complete(t) && e != IoError(t)
    ensures var got, put := GotBy(s, e, l), PutBy(s, e, l);
      got <= inward && InCall(Step(w, s, e), t, l, inward[|got|..], outward + put)
  {
    if ThreadOf(e).None? {
      PythonMoves(w, s, e, l);
      InCallMoves(s, Step(w, s, e), t, l, inward, outward, GotBy(s, e, l), PutBy(s, e, l));
    } else {
      if ThreadOf(e) == Some(t) {
        OwnMoves(w, s, t, l, inward, outward, e);
      } else {
        OtherThreadMoves(w, s, t, l, inward, outward, e);
      }
      assert inward[0..] == inward && outward + [] == outward;
    }
  }

  /** Over any run of all parties in which the call does not end: what Python took off is the front of
      what it was to get, and the reader's stream has grown by what Python put there. */
  lemma {:induction false} CallGoes(w: World, s: State, t: nat, l: nat, inward: Bytes, outward: Bytes, run: seq<Event>)
    requires InCall(s, t, l, inward, outward) && Goes(run, t)
    ensures var got := Got(w, s, l, run);
      got <= inward && InCall(Exec(w, s, run), t, l, inward[|got|..], outward + Put(w, s, l, run))
    decreases |run|
  {
    if run == [] {
      assert inward[0..] == inward && outward + [] == outward;
    } else {
      var e, rest, s1 := run[0], run[1..], Step(w, s, run[0]);
      var got, put := GotBy(s, e, l), PutBy(s, e, l);
      StepMoves(w, s, t, l, inward, outward, e);
      CallGoes(w, s1, t, l, inward[|got|..], outward + put, rest);
      OneStepOff(w, s, l, run, inward, outward);
    }
  }

  lemma OneStepOff(w: World, s: State, l: nat, run: seq<Event>, inward: Bytes, outward: Bytes)
    requires run != [] && GotBy(s, run[0], l) <= inward
    requires Got(w, Step(w, s, run[0]), l, run[1..]) <= inward[|GotBy(s, run[0], l)|..]
    ensures var got, s1, rest := GotBy(s, run[0], l), Step(w, s, run[0]), run[1..];
      && Got(w, s, l, run) <= inward && Exec(w, s, run) == Exec(w, s1, rest)
      && inward[|Got(w, s, l, run)|..] == inward[|got|..][|Got(w, s1, l, rest)|..]
      && outward + Put(w, s, l, run) == outward + PutBy(s, run[0], l) + Put(w, s1, l, rest)
  {
    SplitAgain(inward, GotBy(s, run[0], l), Got(w, Step(w, s, run[0]), l, run[1..]));
  }

  lemma SplitAgain(all: Bytes, a: Bytes, b: Bytes)
    requires a <= all && b <= all[|a|..]
    ensures a + b <= all && all[|a + b|..] == all[|a|..][|b|..]
  {
    assert all == a + all[|a|..] && all[|a|..] == b + all[|a|..][|b|..];
    assert all == (a + b) + all[|a|..][|b|..];
  }

  // ---- How calls begin and end ----

  /** A thread that has taken the mutex for a call. */
  ghost predicate Calls(s: State, t: nat, req: Request) {
    && t < |s.threads| && s.threads[t] == Entered(Call(req)) && s.mutex == Some(t) && Exclusive(s)
    && (s.conn.Some? ==> s.conn.value < |s.links|)
  }

  /** Without a connection, or with a request that cannot be encoded, nothing is sent. */
  lemma CallRefused(w: World, s: State, t: nat, req: Request)
    requires Calls(s, t, req) && (!s.started || s.conn.None? || w.requests.enc(req).None?)
    ensures BeginStep(w, s, t) ==
      SetPc(s, t, Leaving(if !s.started || s.conn.None? then NotStarted else TransportError))
  {
  }

  /** There is a connection, and the request can be encoded. */
  ghost predicate CanSend(w: World, s: State, req: Request) {
    s.started && s.conn.Some? && w.requests.enc(req).Some?
  }

  ghost function RequestFrame(w: World, req: Request): Bytes
    requires w.requests.enc(req).Some?
  {
    Frame(w.requests.enc(req).value)
  }

  lemma CallBegins(w: World, s: State, t: nat, req: Request)
    requires Calls(s, t, req) && CanSend(w, s, req)
    ensures var l := s.conn.value;
      InCall(BeginStep(w, s, t), t, l, s.links[l].toPy + RequestFrame(w, req), s.links[l].toGo)
  {
    var s1 := BeginStep(w, s, t);
    assert forall u :: 0 <= u < |s.threads| ==> (Inside(s1.threads[u]) <==> Inside(s.threads[u]));
  }

  /** What the frame reader makes of a stream once a reader of it has nothing left to read for. */
  lemma StreamAt(buf: Bytes, toGo: Bytes)
    requires Partial(buf) && (Needed(buf) == 0 || toGo == [])
    ensures toGo == Unread(buf + toGo)
    ensures if Needed(buf) == 0 then |buf| >= 4 && RecvFrame(buf + toGo) == Message(buf[4..], toGo)
            else RecvFrame(buf + toGo).Closed?
  {
    assert buf + [] == buf;
    ReaderIsRecv(buf, [], toGo);
  }

  /** What a call that has ended has done: its outcome, and the two streams of its connection. */
  ghost predicate CallEnded(s: State, t: nat, l: nat, outcome: Outcome, inward: Bytes, unread: Bytes) {
    && t < |s.threads| && s.threads[t] == Leaving(outcome) && s.mutex == Some(t)
    && s.conn == Some(l) && s.started && l < |s.links| && s.links[l].toPy == inward && s.links[l].toGo == unread
  }

  /** After a message of the stream, or at its end, the call has its answer. */
  lemma EndsWithAnswer(w: World, s: State, t: nat, l: nat, inward: Bytes, stream: Bytes)
    requires InCall(s, t, l, inward, stream) && s.threads[t].Receiving?
    requires Needed(s.threads[t].buf) == 0 || s.links[l].toGo == []
    ensures CallEnded(Exec(w, s, [Complete(t), IoError(t)]), t, l, Answer(w.responses, stream), inward, Unread(stream))
  {
    Exec2(w, s, Complete(t), IoError(t));
    StreamAt(s.threads[t].buf, s.links[l].toGo);
  }

  lemma EndsInError(w: World, s: State, t: nat, l: nat, inward: Bytes, stream: Bytes)
    requires InCall(s, t, l, inward, stream) && s.threads[t].Sending?
    ensures CallEnded(Exec(w, s, [IoError(t)]), t, l, TransportError, s.links[l].toPy, stream)
    ensures s.links[l].toPy + s.threads[t].out == inward && s.threads[t].out != []
  {
    ExecCons(w, s, IoError(t), []);
    assert [IoError(t)] == [IoError(t)] + [];
  }

  lemma CallRuns(w: World, s: State, t: nat, run: seq<Event>, ends: seq<Event>)
    ensures Exec(w, s, [Begin(t)] + (run + ends)) == Exec(w, Exec(w, BeginStep(w, s, t), run), ends)
  {
    ExecCons(w, s, Begin(t), run + ends);
    assert Step(w, s, Begin(t)) == BeginStep(w, s, t);
    ExecAppend(w, BeginStep(w, s, t), run, ends);
  }

  /** A read of the frame is complete, or the stream has nothing more to give. */
  predicate NothingToReadFor(s: State, t: nat, l: nat) {
    && t < |s.threads| && s.threads[t].Receiving? && l < |s.links|
    && (Needed(s.threads[t].buf) == 0 || s.links[l].toGo == [])
  }

  /** From holding the mutex to leaving it, over every interleaving with every step of Python and of all
      other threads, and any pieces of writes and reads: Python gets, after what was in the stream, exactly
      the request's frame - what it took off meanwhile and what is still there make it up - and the call
      returns what the next frame decodes to of the stream made of what was there and what Python put
      there during the call, and takes it off. That is what the method does with its socket. */
  lemma CallAgrees(w: World, s: State, t: nat, req: Request, run: seq<Event>)
    requires Calls(s, t, req) && CanSend(w, s, req) && Goes(run, t)
    requires NothingToReadFor(Exec(w, BeginStep(w, s, t), run), t, s.conn.value)
    ensures var l, s1 := s.conn.value, BeginStep(w, s, t);
      var s' := Exec(w, s, [Begin(t)] + (run + [Complete(t), IoError(t)]));
      var stream := s.links[l].toGo + Put(w, s1, l, run);
      && l < |s'.links| && Got(w, s1, l, run) + s'.links[l].toPy == s.links[l].toPy + RequestFrame(w, req)
      && CallEnded(s', t, l, Answer(w.responses, stream), s'.links[l].toPy, Unread(stream))
  {
    var l, s1 := s.conn.value, BeginStep(w, s, t);
    var inward := s.links[l].toPy + RequestFrame(w, req);
    CallBegins(w, s, t, req);
    CallGoes(w, s1, t, l, inward, s.links[l].toGo, run);
    var got := Got(w, s1, l, run);
    EndsWithAnswer(w, Exec(w, s1, run), t, l, inward[|got|..], s.links[l].toGo + Put(w, s1, l, run));
    CallRuns(w, s, t, run, [Complete(t), IoError(t)]);
    assert inward == got + inward[|got|..];
  }

  lemma PartsAddUp(whole: Bytes, a: Bytes, b: Bytes, c: Bytes)
    requires a <= whole && whole[|a|..] == b + c
    ensures a + b + c == whole
  {
  }

  /** A write that fails, over every interleaving as well: of the request's frame a proper prefix got into
      the stream, nothing was read, and the call returns a TransportError. */
  lemma FailedSendAgrees(w: World, s: State, t: nat, req: Request, run: seq<Event>)
    requires Calls(s, t, req) && CanSend(w, s, req) && Goes(run, t)
    requires var s2 := Exec(w, BeginStep(w, s, t), run); t < |s2.threads| && s2.threads[t].Sending?
    ensures var l, s1 := s.conn.value, BeginStep(w, s, t);
      var s' := Exec(w, s, [Begin(t)] + (run + [IoError(t)]));
      var unsent := Exec(w, s1, run).threads[t].out;
      && l < |s'.links| && unsent != []
      && Got(w, s1, l, run) + s'.links[l].toPy + unsent == s.links[l].toPy + RequestFrame(w, req)
      && CallEnded(s', t, l, TransportError, s'.links[l].toPy, s.links[l].toGo + Put(w, s1, l, run))
  {
    var l, s1 := s.conn.value, BeginStep(w, s, t);
    var inward := s.links[l].toPy + RequestFrame(w, req);
    CallBegins(w, s, t, req);
    CallGoes(w, s1, t, l, inward, s.links[l].toGo, run);
    var got, s2 := Got(w, s1, l, run), Exec(w, s1, run);
    EndsInError(w, s2, t, l, inward[|got|..], s.links[l].toGo + Put(w, s1, l, run));
    CallRuns(w, s, t, run, [IoError(t)]);
    PartsAddUp(inward, got, s2.links[l].toPy, s2.threads[t].out);
  }

  /** In a reachable state a connection without transport errors has nothing in its streams when a call
      takes the mutex, so the call's answer is made of what Python put there during it alone. */
  lemma NothingLeftOver(w: World, s: State, t: nat, req: Request)
    requires Inv(w, s) && Calls(s, t, req) && s.started && s.conn.Some? && !s.links[s.conn.value].dirty
    ensures s.links[s.conn.value].toPy == [] && s.links[s.conn.value].toGo == []
  {
    assert Holder(s) == s.threads[t];
    assert Exchange(w, RoleOn(Holder(s), s.conn.value), s.links[s.conn.value]);
  }
}
