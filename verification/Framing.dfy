/** Length-prefixed frames over a byte stream: `Conn.Send`/`Conn.Recv` on the Go side and
    `_FramedConn` on the Python side. A frame is a 4-byte big-endian length and a body. */
module Framing {
  import opened Common

  const U32 := 0x1_0000_0000

  /** How a stream can stop: on a frame boundary, inside a header, or inside a body. */
  datatype StreamEnd = CleanEof | TruncatedHeader | TruncatedBody

  datatype Received = Message(body: Bytes, rest: Bytes) | Closed(end: StreamEnd)

  datatype Transcript = Transcript(bodies: seq<Bytes>, end: StreamEnd)

  /** Big-endian `uint32(n)`: the conversion keeps n modulo 2^32. */
  function PutUint32(n: nat): (h: Bytes)
    ensures |h| == 4
  {
    [n / 0x100_0000 % 256, n / 0x1_0000 % 256, n / 0x100 % 256, n % 256]
  }

  function Uint32(h: Bytes): nat
    requires |h| == 4
  {
    var a: int, b: int, c: int, d: int := h[0], h[1], h[2], h[3];
    a * 0x100_0000 + b * 0x1_0000 + c * 0x100 + d
  }

  lemma DivTwice(n: nat)
    ensures n / 0x100 / 0x100 == n / 0x1_0000
  {
  }

  /** A number is its byte and the rest, at each of the four bytes. */
  lemma FourBytes(n: nat)
    ensures var a, b, c := n / 0x100, n / 0x1_0000, n / 0x100_0000;
      n == 0x100 * a + n % 0x100 && a == 0x100 * b + a % 0x100 && b == 0x100 * c + b % 0x100
  {
    DivTwice(n);
    DivTwice(n / 0x100);
    assert n / 0x1_0000 / 0x100 == n / 0x100_0000;
  }

  lemma RemainderIs(n: nat, d: nat, low: nat)
    requires n == U32 * d + low && low < U32
    ensures n % U32 == low
  {
  }

  lemma HeaderRoundTrip(n: nat)
    ensures Uint32(PutUint32(n)) == n % U32
  {
    FourBytes(n);
    var c := n / 0x100_0000;
    RemainderIs(n, c / 0x100, Uint32(PutUint32(n)));
  }

  lemma SmallHeader(n: nat)
    requires n < U32
    ensures Uint32(PutUint32(n)) == n
  {
    HeaderRoundTrip(n);
  }

  function Frame(body: Bytes): Bytes { PutUint32(|body|) + body }

  function Wire(bodies: seq<Bytes>): Bytes {
    if bodies == [] then [] else Frame(bodies[0]) + Wire(bodies[1..])
  }

  /** What one `Recv` makes of the bytes that are still to come before the stream closes. */
  function RecvFrame(s: Bytes): Received {
    if |s| == 0 then Closed(CleanEof)
    else if |s| < 4 then Closed(TruncatedHeader)
    else
      var n := Uint32(s[..4]);
      if |s| < 4 + n then Closed(TruncatedBody) else Message(s[4..4 + n], s[4 + n..])
  }

  /** What receiving a frame leaves of a stream. */
  function Unread(stream: Bytes): Bytes { if RecvFrame(stream).Message? then RecvFrame(stream).rest else [] }

  /** Receiving until the stream ends. */
  function ReceiveAll(s: Bytes): Transcript
    decreases |s|
  {
    match RecvFrame(s)
    case Closed(end) => Transcript([], end)
    case Message(body, rest) =>
      var t := ReceiveAll(rest);
      Transcript([body] + t.bodies, t.end)
  }

  /** The number of frames that lie completely within the first n bytes of the wire. */
  function WholeFrames(bodies: seq<Bytes>, n: nat): (k: nat)
    ensures k <= |bodies|
  {
    if bodies == [] || n < 4 + |bodies[0]| then 0
    else 1 + WholeFrames(bodies[1..], n - 4 - |bodies[0]|)
  }

  ghost predicate AllFit(bodies: seq<Bytes>) {
    forall b :: b in bodies ==> |b| < U32
  }

  /** A frame is read back as the body that was sent, with the rest of the stream untouched,
      exactly when the body's length fits the 32-bit header. */
  lemma FrameReadBackIff(body: Bytes, rest: Bytes)
    ensures RecvFrame(Frame(body) + rest) == Message(body, rest) <==> |body| < U32
  {
    HeaderRoundTrip(|body|);
    var s := Frame(body) + rest;
    var n := |body| % U32;
    assert s[..4] == PutUint32(|body|);
    assert |s| >= 4 + n;
    assert s[4..4 + n] == body[..n];
    if |body| < U32 {
      assert s[4 + n..] == rest;
    } else {
      assert |body[..n]| < |body|;
    }
  }

  /** On the wire: four bytes that are the body's length modulo 2^32, most significant first, and the body. */
  lemma FrameLayout(body: Bytes)
    ensures var f := Frame(body);
      && |f| == 4 + |body| && f[4..] == body
      && var a: int, b: int, c: int, d: int := f[0], f[1], f[2], f[3];
         a * 16_777_216 + b * 65_536 + c * 256 + d == |body| % 4_294_967_296
  {
    HeaderRoundTrip(|body|);
    var f := Frame(body);
    assert f[..4] == PutUint32(|body|);
  }

  /** And read off it: a message exactly if the first four bytes, most significant first, announce no more than
      follows; what stops a reader otherwise is where the stream ends. */
  lemma ReceivedMeans(s: Bytes)
    ensures s == [] ==> RecvFrame(s) == Closed(CleanEof)
    ensures 0 < |s| < 4 ==> RecvFrame(s) == Closed(TruncatedHeader)
    ensures |s| >= 4 ==>
      var a: int, b: int, c: int, d: int := s[0], s[1], s[2], s[3];
      var n := a * 16_777_216 + b * 65_536 + c * 256 + d;
      && 0 <= n
      && RecvFrame(s) == (if |s| < 4 + n then Closed(TruncatedBody) else Message(s[4..4 + n], s[4 + n..]))
      && Unread(s) == if |s| < 4 + n then [] else s[4 + n..]
  {
  }

  /** What reading the first n bytes of the wire yields: the bodies whose frames are complete, in
      order, and the error that says where the stream was cut. */
  function Cut(bodies: seq<Bytes>, n: nat): Transcript {
    var k := WholeFrames(bodies, n);
    Transcript(bodies[..k], CutPoint(n - |Wire(bodies[..k])|))
  }

  lemma {:induction false} WholeFramesFit(bodies: seq<Bytes>, n: nat)
    ensures |Wire(bodies[..WholeFrames(bodies, n)])| <= n
    decreases |bodies|
  {
    var k := WholeFrames(bodies, n);
    if k > 0 {
      WholeFramesFit(bodies[1..], n - 4 - |bodies[0]|);
      WireHead(bodies, k);
    }
  }

  /** The first n bytes of what was sent for `bodies` read back as the bodies whose frames are
      complete, in order, followed by the error that says where the stream was cut. */
  lemma {:induction false} PrefixReadBack(bodies: seq<Bytes>, n: nat)
    requires AllFit(bodies) && n <= |Wire(bodies)|
    ensures |Wire(bodies[..WholeFrames(bodies, n)])| <= n
    ensures ReceiveAll(Wire(bodies)[..n]) == Cut(bodies, n)
    decreases |bodies|
  {
    WholeFramesFit(bodies, n);
    if bodies == [] {
      assert Wire(bodies)[..n] == [];
    } else if n < 4 + |bodies[0]| {
      CutInFirstFrame(bodies[0], Wire(bodies[1..]), n);
      assert bodies[..0] == [];
    } else {
      var b, tail, m := bodies[0], bodies[1..], n - 4 - |bodies[0]|;
      PrefixReadBack(tail, m);
      CutAfterFirstFrame(b, Wire(tail), m);
      CutOneMore(bodies, n);
    }
  }

  lemma CutOneMore(bodies: seq<Bytes>, n: nat)
    requires bodies != [] && n >= 4 + |bodies[0]|
    requires |Wire(bodies[..WholeFrames(bodies, n)])| <= n
    ensures var t := Cut(bodies[1..], n - 4 - |bodies[0]|);
      Cut(bodies, n) == Transcript([bodies[0]] + t.bodies, t.end)
  {
    WireHead(bodies, WholeFrames(bodies, n));
  }

  lemma WireHead(bodies: seq<Bytes>, k: nat)
    requires 0 < k <= |bodies|
    ensures [bodies[0]] + bodies[1..][..k - 1] == bodies[..k]
    ensures |Wire(bodies[..k])| == 4 + |bodies[0]| + |Wire(bodies[1..][..k - 1])|
  {
    assert bodies[..k][1..] == bodies[1..][..k - 1];
  }

  lemma CutInFirstFrame(body: Bytes, tail: Bytes, n: nat)
    requires |body| < U32 && n < 4 + |body|
    ensures RecvFrame((Frame(body) + tail)[..n]) == Closed(CutPoint(n))
  {
    var s := (Frame(body) + tail)[..n];
    if n >= 4 {
      assert s[..4] == PutUint32(|body|);
      HeaderRoundTrip(|body|);
    }
  }

  lemma CutAfterFirstFrame(body: Bytes, tail: Bytes, m: nat)
    requires |body| < U32 && m <= |tail|
    ensures RecvFrame((Frame(body) + tail)[..4 + |body| + m]) == Message(body, tail[..m])
  {
    assert (Frame(body) + tail)[..4 + |body| + m] == Frame(body) + tail[..m];
    FrameReadBackIff(body, tail[..m]);
  }

  function CutPoint(left: int): StreamEnd {
    if left == 0 then CleanEof else if left < 4 then TruncatedHeader else TruncatedBody
  }

  /** A complete stream reads back as exactly the list that was sent and a clean end. */
  lemma {:induction false} ListReadBack(bodies: seq<Bytes>)
    requires AllFit(bodies)
    ensures ReceiveAll(Wire(bodies)) == Transcript(bodies, CleanEof)
  {
    if bodies != [] {
      ListReadBack(bodies[1..]);
      FrameReadBackIff(bodies[0], Wire(bodies[1..]));
      assert [bodies[0]] + bodies[1..] == bodies;
    }
  }

  lemma {:induction false} FlattenHead<T>(chunks: seq<seq<T>>)
    requires chunks != []
    ensures Flatten(chunks) == chunks[0] + Flatten(chunks[1..])
    ensures |chunks[0]| <= |Flatten(chunks)|
  {
  }

  /** A stream socket. `pending` is how the transport will split the bytes still to come;
      any split into non-empty chunks is possible, and an empty list is end of stream. */
  class Socket {
    var pending: seq<Bytes>
    var written: Bytes

    ghost predicate Valid()
      reads this
    {
      forall i :: 0 <= i < |pending| ==> pending[i] != []
    }

    ghost function Data(): Bytes
      reads this
    {
      Flatten(pending)
    }

    constructor (chunks: seq<Bytes>)
      requires forall i :: 0 <= i < |chunks| ==> chunks[i] != []
      ensures Valid() && Data() == Flatten(chunks) && written == []
    {
      pending, written := chunks, [];
    }

    /** One `recv(n)`: some bytes, at most n, and none only at end of stream. */
    method Recv(n: nat) returns (chunk: Bytes)
      requires Valid() && n > 0
      modifies this`pending
      ensures Valid() && |chunk| <= n
      ensures old(Data()) == chunk + Data()
      ensures chunk == [] <==> old(Data()) == []
    {
      if pending == [] {
        return [];
      }
      FlattenHead(pending);
      if |pending[0]| <= n {
        chunk, pending := pending[0], pending[1..];
      } else {
        chunk := pending[0][..n];
        pending := [pending[0][n..]] + pending[1..];
        FlattenHead(pending);
        assert pending[1..] == old(pending)[1..];
        assert old(pending)[0] == chunk + pending[0];
        assert old(Data()) == chunk + Data();
      }
    }

    /** Collects exactly n bytes however the stream is split; fails only when it is too short. */
    method ReadExactly(n: nat) returns (ok: bool, buf: Bytes)
      requires Valid()
      modifies this`pending
      ensures Valid()
      ensures ok <==> n <= |old(Data())|
      ensures ok ==> buf == old(Data())[..n] && Data() == old(Data())[n..]
      ensures !ok ==> buf == old(Data()) && Data() == []
    {
      buf := [];
      while |buf| < n
        invariant Valid() && |buf| <= n
        invariant old(Data()) == buf + Data()
        decreases n - |buf|
      {
        var chunk := Recv(n - |buf|);
        if chunk == [] {
          return false, buf;
        }
        buf := buf + chunk;
      }
      ok := true;
    }

    /** `Conn.Recv` and `_FramedConn.recv` before the body is decoded. */
    method ReceiveFrame() returns (r: Received)
      requires Valid()
      modifies this`pending
      ensures Valid()
      ensures r == RecvFrame(old(Data())) && Data() == Unread(old(Data()))
    {
      ghost var all := Data();
      var ok, header := ReadExactly(4);
      if !ok {
        return Closed(if header == [] then CleanEof else TruncatedHeader);
      }
      var body;
      ok, body := ReadExactly(Uint32(header));
      if !ok {
        return Closed(TruncatedBody);
      }
      assert body == all[4..4 + |body|] && Data() == all[4 + |body|..];
      r := Message(body, Flatten(pending));
    }

    /** The receive loop of `serve`, run to the end of the stream. */
    method ReceiveEach() returns (bodies: seq<Bytes>, end: StreamEnd)
      requires Valid()
      modifies this`pending
      ensures Transcript(bodies, end) == ReceiveAll(old(Data()))
    {
      bodies := [];
      while true
        invariant Valid()
        invariant ReceiveAll(old(Data())) == Transcript(bodies + ReceiveAll(Data()).bodies, ReceiveAll(Data()).end)
        decreases |Data()|
      {
        ghost var before := Data();
        var r := ReceiveFrame();
        if r.Closed? {
          assert bodies + [] == bodies;
          return bodies, r.end;
        }
        assert |Data()| < |before|;
        assert bodies + ([r.body] + ReceiveAll(Data()).bodies) == bodies + [r.body] + ReceiveAll(Data()).bodies;
        bodies := bodies + [r.body];
      }
    }

    /** Go's `Conn.Send`: the header write, then the body write; the length wraps at 2^32. The stream
        takes `room` more bytes before a write fails. */
    method GoSend(body: Bytes, room: nat) returns (ok: bool)
      modifies this`written
      ensures ok <==> |Frame(body)| <= room
      ensures written == old(written) + (if ok then Frame(body) else Frame(body)[..room])
    {
      var header := PutUint32(|body|);
      if room < |header| {
        written := written + header[..room];
        assert Frame(body)[..room] == header[..room];
        return false;
      }
      written := written + header;
      if room - |header| < |body| {
        written := written + body[..room - |header|];
        assert Frame(body)[..room] == header + body[..room - |header|];
        return false;
      }
      written := written + body;
      ok := true;
    }

    /** Python's `_FramedConn.send`: packing a length over 32 bits raises and writes nothing. */
    method PySend(body: Bytes) returns (ok: bool)
      modifies this`written
      ensures ok <==> |body| < U32
      ensures written == old(written) + (if ok then Wire([body]) else [])
    {
      if |body| >= U32 {
        return false;
      }
      written := written + (PutUint32(|body|) + body);
      assert Wire([body]) == Frame(body) + Wire([]);
      ok := true;
    }
  }

  /** Sending any list over any split of the stream delivers that list: the two ends together. */
  method Transfer(bodies: seq<Bytes>, chunks: seq<Bytes>) returns (got: seq<Bytes>, end: StreamEnd)
    requires AllFit(bodies)
    requires Flatten(chunks) == Wire(bodies) && forall i :: 0 <= i < |chunks| ==> chunks[i] != []
    ensures got == bodies && end == CleanEof
  {
    var receiver := new Socket(chunks);
    got, end := receiver.ReceiveEach();
    ListReadBack(bodies);
  }
}
