/** The WebSocket hub: `Hub.Run` with `HandleWS` and the client pumps as its environment. */
module Hub {
  import opened Common

  type Msg = Bytes

  const SEND_BUFFER := 256

  /** A client's `send` channel: what is buffered, and whether it has been closed. */
  datatype Chan = Chan(buffer: seq<Msg>, closed: bool)

  predicate HasRoom(ch: Chan) { |ch.buffer| < SEND_BUFFER }

  /** The broadcast's select on one open channel: send if there is room, otherwise close. */
  function Offer(ch: Chan, m: Msg): (r: Chan)
    requires !ch.closed
    ensures r == if |ch.buffer| < 256 then Chan(ch.buffer + [m], false) else Chan(ch.buffer, true)
  {
    if HasRoom(ch) then ch.(buffer := ch.buffer + [m]) else ch.(closed := true)
  }

  // ---- The hub as it is written: one method per case of the select ----

  class Client {
    var send: Chan

    constructor ()
      ensures send == Chan([], false)
    {
      send := Chan([], false);
    }
  }

  class HubLoop {
    var clients: set<Client>

    /** Every client in the map has an open channel. */
    predicate Open()
      reads this, clients
    {
      forall c :: c in clients ==> !c.send.closed
    }

    constructor ()
      ensures Open() && clients == {}
    {
      clients := {};
    }

    method OnRegister(client: Client)
      modifies this
      ensures clients == old(clients) + {client}
      ensures Open() <==> old(Open()) && !client.send.closed
    {
      clients := clients + {client};
    }

    /** Closing a closed channel panics. */
    method OnUnregister(client: Client) returns (panicked: bool)
      modifies this, client
      ensures panicked <==> client in old(clients) && old(client.send.closed)
      ensures clients == old(clients) - {client}
      ensures client.send == if client in old(clients) then old(client.send).(closed := true) else old(client.send)
      ensures old(Open()) ==> !panicked && Open()
    {
      if client in clients {
        clients := clients - {client};
        if client.send.closed {
          return true;
        }
        client.send := client.send.(closed := true);
      }
      return false;
    }

    /** One message to every client, in whatever order the map is walked: those with fewer than 256
        messages waiting get it as their newest, the others are closed and removed, and nobody else is
        touched. It panics exactly if some client's channel is closed. */
    method OnBroadcast(message: Msg) returns (panicked: bool)
      modifies this, clients
      ensures panicked <==> exists c :: c in old(clients) && old(c.send.closed)
      ensures !panicked ==>
        && Open() && clients == (set c | c in old(clients) && |old(c.send.buffer)| < 256)
        && forall c :: c in old(clients) ==>
             c.send == if |old(c.send.buffer)| < 256 then Chan(old(c.send.buffer) + [message], false)
                       else Chan(old(c.send.buffer), true)
    {
      var remaining := clients;
      ghost var all := clients;
      while remaining != {}
        invariant remaining <= all && remaining <= clients <= all
        invariant forall c :: c in remaining ==> c.send == old(c.send)
        invariant forall c :: c in all - remaining ==> !old(c.send.closed) && c.send == Offer(old(c.send), message)
        invariant forall c :: c in all - remaining ==> (c in clients <==> HasRoom(old(c.send)))
        decreases remaining
      {
        var c :| c in remaining;
        if c.send.closed {
          return true;
        }
        if HasRoom(c.send) {
          c.send := c.send.(buffer := c.send.buffer + [message]);
        } else {
          c.send := c.send.(closed := true);
          clients := clients - {c};
        }
        remaining := remaining - {c};
      }
      return false;
    }
  }

  // ---- The hub among its clients: every interleaving with connecting and draining ----

  /** `sent` lists the broadcasts begun; `joined` and `left` record, as positions in it, where a
      client's registration and removal fall; `drained` is what its write pump has taken. */
  datatype State = State(chans: seq<Chan>, members: set<nat>, sending: Option<(Msg, set<nat>)>,
                         sent: seq<Msg>, drained: seq<seq<Msg>>,
                         joined: map<nat, nat>, left: map<nat, nat>, panicked: bool)

  datatype Event =
    | Connect
    | Register(c: nat)
    | Unregister(c: nat)
    | BeginBroadcast(m: Msg)
    | Visit(c: nat)
    | EndBroadcast
    | Drain(c: nat)

  const INIT := State([], {}, None, [], [], map[], map[], false)

  /** The hub's goroutine is at its select, so it can take the next case. */
  predicate AtSelect(s: State) { s.sending.None? && !s.panicked }

  function Close(s: State, c: nat, position: nat): State
    requires c < |s.chans|
  {
    if s.chans[c].closed then s.(panicked := true)
    else s.(chans := s.chans[c := s.chans[c].(closed := true)], members := s.members - {c},
            left := s.left[c := position])
  }

  function VisitStep(s: State, c: nat): State {
    if !(s.sending.Some? && !s.panicked && c in s.sending.value.1 && c < |s.chans|) then s
    else
      var (m, remaining) := s.sending.value;
      var s1 := s.(sending := Some((m, remaining - {c})));
      if s.chans[c].closed then s.(panicked := true)
      else if HasRoom(s.chans[c]) then s1.(chans := s.chans[c := Offer(s.chans[c], m)])
      else Close(s1, c, if |s.sent| > 0 then |s.sent| - 1 else 0)
  }

  function Step(s: State, e: Event): State {
    match e
    case Connect => s.(chans := s.chans + [Chan([], false)], drained := s.drained + [[]])
    case Register(c) =>
      if AtSelect(s) && c < |s.chans|
      then s.(members := s.members + {c}, joined := if c in s.joined then s.joined else s.joined[c := |s.sent|])
      else s
    case Unregister(c) =>
      if AtSelect(s) && c < |s.chans| && c in s.members then Close(s, c, |s.sent|) else s
    case BeginBroadcast(m) =>
      if AtSelect(s) then s.(sending := Some((m, s.members)), sent := s.sent + [m]) else s
    case Visit(c) => VisitStep(s, c)
    case EndBroadcast =>
      if s.sending.Some? && s.sending.value.1 == {} then s.(sending := None) else s
    case Drain(c) =>
      if c < |s.chans| && c < |s.drained| && s.chans[c].buffer != []
      then s.(chans := s.chans[c := s.chans[c].(buffer := s.chans[c].buffer[1..])],
              drained := s.drained[c := s.drained[c] + [s.chans[c].buffer[0]]])
      else s
  }

  function After(run: seq<Event>): State {
    if run == [] then INIT else Step(After(run[..|run| - 1]), run[|run| - 1])
  }

  /** No client is handed to the hub a second time, as `HandleWS` does. */
  ghost predicate RegistersOnce(run: seq<Event>) {
    forall i, j :: 0 <= i < j < |run| && run[i].Register? && run[j].Register? ==> run[i].c != run[j].c
  }

  /** The broadcasts a client is owed so far: from its registration to its removal, or to now. */
  function OwedUpTo(s: State, c: nat): int {
    if c in s.left then s.left[c]
    else if s.sending.Some? && c in s.sending.value.1 then |s.sent| - 1
    else |s.sent|
  }

  ghost predicate ClientRight(s: State, c: nat)
    requires c < |s.chans| && c < |s.drained|
  {
    && (s.chans[c].closed <==> c in s.left)
    && (c in s.members <==> c in s.joined && c !in s.left)
    && (c in s.left ==> c in s.joined)
    && |s.chans[c].buffer| <= SEND_BUFFER
    && (c !in s.joined ==> s.drained[c] + s.chans[c].buffer == [])
    && (c in s.joined ==>
          && 0 <= s.joined[c] <= OwedUpTo(s, c) <= |s.sent|
          && s.drained[c] + s.chans[c].buffer == s.sent[s.joined[c]..OwedUpTo(s, c)])
  }

  ghost predicate Inv(s: State) {
    && !s.panicked && |s.drained| == |s.chans|
    && (forall c :: c in s.joined || c in s.members || c in s.left ==> c < |s.chans|)
    && (s.sending.Some? ==> s.sent != [] && s.sending.value.0 == s.sent[|s.sent| - 1] && s.sending.value.1 <= s.members)
    && forall c :: 0 <= c < |s.chans| ==> ClientRight(s, c)
  }

  lemma VisitKeeps(s: State, c: nat)
    requires Inv(s)
    ensures Inv(VisitStep(s, c))
  {
    var s' := VisitStep(s, c);
    if s' != s {
      assert ClientRight(s, c);
      var m := s.sending.value.0;
      var lo, hi := s.joined[c], |s.sent| - 1;
      assert s.sent[lo..hi] + [m] == s.sent[lo..hi + 1];
      if HasRoom(s.chans[c]) {
        assert s'.drained[c] + s'.chans[c].buffer == s.drained[c] + s.chans[c].buffer + [m];
      }
      forall d | 0 <= d < |s.chans| && d != c ensures ClientRight(s', d) {
        assert ClientRight(s, d);
      }
    }
  }

  lemma DrainKeeps(s: State, c: nat)
    requires Inv(s)
    ensures Inv(Step(s, Drain(c)))
  {
    var s' := Step(s, Drain(c));
    if s' != s {
      var ch := s.chans[c];
      assert s'.drained[c] + s'.chans[c].buffer == s.drained[c] + ch.buffer by {
        assert ch.buffer == [ch.buffer[0]] + ch.buffer[1..];
      }
      forall d | 0 <= d < |s.chans| ensures ClientRight(s', d) { assert ClientRight(s, d); }
    }
  }

  lemma BroadcastBeginKeeps(s: State, m: Msg)
    requires Inv(s)
    ensures Inv(Step(s, BeginBroadcast(m)))
  {
    var s' := Step(s, BeginBroadcast(m));
    forall d | 0 <= d < |s.chans| ensures ClientRight(s', d) {
      assert ClientRight(s, d);
      if d in s.joined { assert s'.sent[s.joined[d]..OwedUpTo(s, d)] == s.sent[s.joined[d]..OwedUpTo(s, d)]; }
    }
  }

  lemma UnregisterKeeps(s: State, c: nat)
    requires Inv(s)
    ensures Inv(Step(s, Unregister(c)))
  {
    var s' := Step(s, Unregister(c));
    if s' != s {
      assert ClientRight(s, c);
      forall d | 0 <= d < |s.chans| ensures ClientRight(s', d) { assert ClientRight(s, d); }
    }
  }

  /** Registering a client whose channel is open, for the first time or again. */
  lemma RegisterKeeps(s: State, c: nat)
    requires Inv(s) && (c < |s.chans| ==> !s.chans[c].closed)
    ensures Inv(Step(s, Register(c)))
  {
    var s' := Step(s, Register(c));
    if s' != s {
      assert ClientRight(s, c);
      forall d | 0 <= d < |s.chans| ensures ClientRight(s', d) { assert ClientRight(s, d); }
    }
  }

  /** The client an event hands to the hub has an open channel. */
  predicate RegistersOpenNow(s: State, e: Event) {
    e.Register? && e.c < |s.chans| ==> !s.chans[e.c].closed
  }

  lemma StepKeeps(s: State, e: Event)
    requires Inv(s) && RegistersOpenNow(s, e)
    ensures Inv(Step(s, e))
  {
    match e
    case Register(c) => RegisterKeeps(s, c);
    case Visit(c) => VisitKeeps(s, c);
    case Drain(c) => DrainKeeps(s, c);
    case BeginBroadcast(m) => BroadcastBeginKeeps(s, m);
    case Unregister(c) => UnregisterKeeps(s, c);
    case _ =>
      var s' := Step(s, e);
      forall d | 0 <= d < |s'.chans| ensures ClientRight(s', d) {
        if d < |s.chans| { assert ClientRight(s, d); }
      }
  }

  /** No client is handed to the hub once its channel is closed. */
  ghost predicate RegistersOpen(run: seq<Event>) {
    forall i :: 0 <= i < |run| ==> RegistersOpenNow(After(run[..i]), run[i])
  }

  lemma {:induction false} RunKeeps(run: seq<Event>)
    requires RegistersOpen(run)
    ensures Inv(After(run))
  {
    if run != [] {
      var n := |run| - 1;
      forall i | 0 <= i < n ensures RegistersOpenNow(After(run[..n][..i]), run[..n][i]) {
        assert run[..n][..i] == run[..i];
        assert RegistersOpenNow(After(run[..i]), run[i]);
      }
      RunKeeps(run[..n]);
      assert RegistersOpenNow(After(run[..n]), run[n]);
      StepKeeps(After(run[..n]), run[n]);
    }
  }

  lemma StepJoins(s: State, e: Event, c: nat)
    ensures c in Step(s, e).joined ==> c in s.joined || e == Register(c)
  {
  }

  lemma {:induction false} NotRegisteredNotJoined(run: seq<Event>, c: nat)
    requires Register(c) !in run
    ensures c !in After(run).joined
  {
    if run != [] {
      var n := |run| - 1;
      NotRegisteredNotJoined(run[..n], c);
      StepJoins(After(run[..n]), run[n], c);
    }
  }

  /** A client that the last event registers for the first time has an open channel. */
  lemma FirstTimeIsOpen(run: seq<Event>, e: Event)
    requires RegistersOpen(run) && e !in run
    ensures RegistersOpenNow(After(run), e)
  {
    RunKeeps(run);
    if e.Register? && e.c < |After(run).chans| {
      NotRegisteredNotJoined(run, e.c);
      assert ClientRight(After(run), e.c);
    }
  }

  lemma OpenOneMore(run: seq<Event>, e: Event)
    requires RegistersOpen(run) && RegistersOpenNow(After(run), e)
    ensures RegistersOpen(run + [e])
  {
    var longer := run + [e];
    forall i | 0 <= i < |longer| ensures RegistersOpenNow(After(longer[..i]), longer[i]) {
      assert longer[..i] == run[..i];
      if i < |run| { assert RegistersOpenNow(After(run[..i]), run[i]); } else { assert run[..i] == run; }
    }
  }

  /** Handing each client to the hub once, as `HandleWS` does, is enough. */
  lemma {:induction false} OnceIsOpen(run: seq<Event>)
    requires RegistersOnce(run)
    ensures RegistersOpen(run)
  {
    if run != [] {
      var before, e := run[..|run| - 1], run[|run| - 1];
      OnceIsOpen(before);
      if e.Register? { FirstTimeIsOpen(before, e); }
      OpenOneMore(before, e);
      assert before + [e] == run;
    }
  }

  /** In every run in which no client is registered with a closed channel, for every client: what it has
      drained plus what its buffer holds, never more than 256 messages, is exactly the contiguous run of
      broadcasts from its registration to its removal (or to now); it is in the map iff registered and not
      closed; and the hub never closes a channel twice or sends on a closed one. */
  lemma GapFreeDelivery(run: seq<Event>, c: nat)
    requires RegistersOpen(run) && c < |After(run).chans|
    ensures var s := After(run);
      && !s.panicked && c < |s.drained| && |s.chans[c].buffer| <= 256
      && (c in s.members <==> c in s.joined && !s.chans[c].closed)
      && (c in s.joined ==>
            && 0 <= s.joined[c] <= OwedUpTo(s, c) <= |s.sent|
            && s.drained[c] + s.chans[c].buffer == s.sent[s.joined[c]..OwedUpTo(s, c)])
      && (c !in s.joined ==> s.drained[c] == [] && s.chans[c].buffer == [])
  {
    RunKeeps(run);
    assert ClientRight(After(run), c);
  }

  /** The condition is needed: handing the hub a client whose channel is closed makes its next broadcast panic
      when it visits that client, and so does unregistering the client, while registering any other one
      keeps every guarantee. */
  lemma ReRegisteringPanicsIffClosed(s: State, c: nat, m: Msg)
    requires Inv(s) && AtSelect(s) && c < |s.chans|
    ensures var s1 := Step(s, Register(c));
      && (Step(Step(s1, BeginBroadcast(m)), Visit(c)).panicked <==> s.chans[c].closed)
      && (Step(s1, Unregister(c)).panicked <==> s.chans[c].closed)
      && (!s.chans[c].closed ==> Inv(s1))
  {
    assert ClientRight(s, c);
    var s1 := Step(s, Register(c));
    if !s.chans[c].closed {
      forall d | 0 <= d < |s.chans| ensures ClientRight(s1, d) { assert ClientRight(s, d); }
    }
  }

  // ---- Slow clients ----

  /** A broadcast that comes to a member removes it exactly when 256 messages are waiting for it, and gives it
      the message otherwise. */
  lemma VisitRemovesIff(s: State, c: nat)
    requires Inv(s) && s.sending.Some? && c in s.sending.value.1
    ensures var s' := Step(s, Visit(c));
      && c < |s.chans| && c < |s'.chans|
      && (c !in s'.members <==> |s.chans[c].buffer| == 256)
      && (c in s'.members ==> s'.chans[c].buffer == s.chans[c].buffer + [s.sending.value.0])
      && (c !in s'.members ==> s'.chans[c] == Chan(s.chans[c].buffer, true))
  {
    assert ClientRight(s, c);
  }

  /** What removes client c, event by event: it is unregistered, or a broadcast finds 256 messages waiting. */
  predicate Removes(s: State, e: Event, c: nat) {
    e == Unregister(c) || (e == Visit(c) && c < |s.chans| && |s.chans[c].buffer| == 256)
  }

  lemma OnlyRemoved(s: State, e: Event, c: nat)
    requires Inv(s)
    ensures c in Step(s, e).left ==> c in s.left || Removes(s, e, c)
  {
    if e == Visit(c) && c < |s.chans| { assert ClientRight(s, c); }
  }

  /** Nothing else ever removes a client. */
  lemma {:induction false} NeverRemoved(run: seq<Event>, c: nat)
    requires RegistersOpen(run) && forall i :: 0 <= i < |run| ==> !Removes(After(run[..i]), run[i], c)
    ensures c !in After(run).left
  {
    if run != [] {
      var n := |run| - 1;
      var before := run[..n];
      RegistersOpenPrefix(run);
      forall i | 0 <= i < n ensures !Removes(After(before[..i]), before[i], c) {
        assert before[..i] == run[..i];
      }
      NeverRemoved(before, c);
      RunKeeps(before);
      OnlyRemoved(After(before), run[n], c);
    }
  }

  lemma RegistersOpenPrefix(run: seq<Event>)
    requires RegistersOpen(run) && run != []
    ensures RegistersOpen(run[..|run| - 1])
  {
    var before := run[..|run| - 1];
    forall i | 0 <= i < |before| ensures RegistersOpenNow(After(before[..i]), before[i]) {
      assert before[..i] == run[..i];
      assert RegistersOpenNow(After(run[..i]), run[i]);
    }
  }

  /** In every run: a client that has been registered, is never unregistered and never has 256 messages waiting
      is still in the map, and what it has drained and what is waiting for it is every broadcast that has
      come to it since it joined. */
  lemma KeepsUpStaysIn(run: seq<Event>, c: nat)
    requires RegistersOpen(run) && c in After(run).joined && Unregister(c) !in run
    requires forall i :: 0 <= i < |run| && c < |After(run[..i]).chans| ==> |After(run[..i]).chans[c].buffer| < 256
    ensures var s := After(run);
      && c in s.members && c < |s.chans| && c < |s.drained| && !s.chans[c].closed
      && var upTo := if s.sending.Some? && c in s.sending.value.1 then |s.sent| - 1 else |s.sent|;
         0 <= s.joined[c] <= upTo && s.drained[c] + s.chans[c].buffer == s.sent[s.joined[c]..upTo]
  {
    RunKeeps(run);
    assert ClientRight(After(run), c);
    forall i | 0 <= i < |run| ensures !Removes(After(run[..i]), run[i], c) {
      assert run[i] in run;
    }
    NeverRemoved(run, c);
  }

  function VisitAll(s: State, order: seq<nat>): State {
    if order == [] then s else VisitStep(VisitAll(s, order[..|order| - 1]), order[|order| - 1])
  }

  function Elements(order: seq<nat>): set<nat> { set c | c in order }

  /** A broadcast of m that began in s and has visited the clients in `done` so far. */
  ghost predicate Offered(s: State, s': State, m: Msg, done: set<nat>) {
    && s'.sending == Some((m, s.members - done)) && s'.sent == s.sent + [m] && !s'.panicked
    && |s'.chans| == |s.chans| && (forall c :: c in s.members ==> c < |s.chans| && !s.chans[c].closed)
    && (forall c :: c in done ==>
          && c in s.members
          && s'.chans[c] == if |s.chans[c].buffer| < 256 then Chan(s.chans[c].buffer + [m], false)
                            else Chan(s.chans[c].buffer, true))
    && (forall c :: 0 <= c < |s.chans| && c !in done ==> s'.chans[c] == s.chans[c])
    && s'.members == (set c | c in s.members && !(c in done && |s.chans[c].buffer| >= 256))
  }

  lemma OfferOne(s: State, s': State, m: Msg, done: set<nat>, c: nat)
    requires Offered(s, s', m, done) && c in s.members && c !in done
    ensures Offered(s, VisitStep(s', c), m, done + {c})
  {
    assert s.members - (done + {c}) == s.members - done - {c};
  }

  lemma BroadcastBegins(s: State, m: Msg)
    requires Inv(s) && s.sending == None
    ensures Offered(s, Step(s, BeginBroadcast(m)), m, {})
  {
    forall c | c in s.members ensures c < |s.chans| && !s.chans[c].closed { assert ClientRight(s, c); }
    assert s.members - {} == s.members;
  }

  lemma ElementsOneMore(order: seq<nat>, c: nat)
    ensures Elements(order + [c]) == Elements(order) + {c}
  {
    assert forall d :: d in order + [c] <==> d in order || d == c;
  }

  ghost predicate EachOnce(order: seq<nat>, members: set<nat>) {
    && (forall i :: 0 <= i < |order| ==> order[i] in members)
    && forall i, j :: 0 <= i < j < |order| ==> order[i] != order[j]
  }

  /** The map's iteration order does not matter: visiting the members in any order, each once, does
      to every channel what the hub's broadcast loop does to it, and leaves the rest alone. */
  lemma {:induction false} BroadcastAnyOrder(s: State, m: Msg, order: seq<nat>)
    requires Inv(s) && s.sending == None && EachOnce(order, s.members)
    ensures Offered(s, VisitAll(Step(s, BeginBroadcast(m)), order), m, Elements(order))
  {
    var s0 := Step(s, BeginBroadcast(m));
    if order == [] {
      BroadcastBegins(s, m);
      assert Elements(order) == {};
    } else {
      var before, c := order[..|order| - 1], order[|order| - 1];
      BroadcastAnyOrder(s, m, before);
      OfferOne(s, VisitAll(s0, before), m, Elements(before), c);
      ElementsOneMore(before, c);
      assert before + [c] == order;
    }
  }

  /** And once all have been visited the broadcast ends and the hub is at its select again. */
  lemma BroadcastEnds(s: State, m: Msg, order: seq<nat>)
    requires Inv(s) && AtSelect(s) && EachOnce(order, s.members) && forall c :: c in s.members ==> c in order
    ensures var s' := Step(VisitAll(Step(s, BeginBroadcast(m)), order), EndBroadcast);
      s'.sending == None && !s'.panicked && s'.sent == s.sent + [m]
  {
    BroadcastAnyOrder(s, m, order);
    assert s.members - Elements(order) == {};
  }
}
