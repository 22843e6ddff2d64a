/** The URL-safe alphabet of section 5 of RFC 4648 without padding, as Go's `RawURLEncoding` and
    Python's `urlsafe_b64encode(...).rstrip(b'=')` write it and as both sides read it. */
module Base64Url {
  import opened Common

  type Six = x: int | 0 <= x < 64

  function Letter(v: Six): char {
    if v < 26 then ('A' as int + v) as char
    else if v < 52 then ('a' as int + (v - 26)) as char
    else if v < 62 then ('0' as int + (v - 52)) as char
    else if v == 62 then '-' else '_'
  }

  function Value(c: char): Option<Six> {
    if 'A' <= c <= 'Z' then Some(c as int - 'A' as int)
    else if 'a' <= c <= 'z' then Some(c as int - 'a' as int + 26)
    else if '0' <= c <= '9' then Some(c as int - '0' as int + 52)
    else if c == '-' then Some(62) else if c == '_' then Some(63) else None
  }

  lemma LetterValue(v: Six)
    ensures Value(Letter(v)) == Some(v)
  {
  }

  // ---- Writing ----

  /** Four sextets from three bytes. */
  function Quad(a: Byte, b: Byte, c: Byte): (q: seq<Six>)
    ensures |q| == 4
  {
    [a / 4, a % 4 * 16 + b / 16, b % 16 * 4 + c / 64, c % 64]
  }

  function Sextets(bytes: Bytes): seq<Six> {
    if |bytes| == 0 then []
    else if |bytes| == 1 then Quad(bytes[0], 0, 0)[..2]
    else if |bytes| == 2 then Quad(bytes[0], bytes[1], 0)[..3]
    else Quad(bytes[0], bytes[1], bytes[2]) + Sextets(bytes[3..])
  }

  function Text(vs: seq<Six>): string { seq(|vs|, i requires 0 <= i < |vs| => Letter(vs[i])) }

  /** Go's `RawURLEncoding.EncodeToString`. */
  function Encode(bytes: Bytes): string { Text(Sextets(bytes)) }

  function Pads(n: nat): string { seq(n, _ => '=') }

  function PadCount(n: nat): nat { if n % 3 == 0 then 0 else 3 - n % 3 }

  /** Python's `urlsafe_b64encode`: padded to whole groups of four for every three bytes begun. */
  function EncodePadded(bytes: Bytes): string { Encode(bytes) + Pads(PadCount(|bytes|)) }

  function StripPadding(s: string): string {
    if s != "" && s[|s| - 1] == '=' then StripPadding(s[..|s| - 1]) else s
  }

  ghost predicate InAlphabet(s: string) {
    forall i :: 0 <= i < |s| ==> Value(s[i]).Some?
  }

  /** How long the encoding is, by how many bytes are left over from groups of three. */
  lemma {:induction false} SextetCount(bytes: Bytes)
    ensures |Sextets(bytes)| == |bytes| / 3 * 4 + (if |bytes| % 3 == 0 then 0 else |bytes| % 3 + 1)
  {
    if |bytes| >= 3 { SextetCount(bytes[3..]); }
  }

  /** The encoding uses alphabet characters only - so no '.' and no '=' - and its length is never 1
      more than a multiple of four. */
  lemma EncodeShape(bytes: Bytes)
    ensures InAlphabet(Encode(bytes)) && '.' !in Encode(bytes)
    ensures |Encode(bytes)| % 4 != 1
  {
    SextetCount(bytes);
    forall i | 0 <= i < |Encode(bytes)| ensures Value(Encode(bytes)[i]).Some? {
      LetterValue(Sextets(bytes)[i]);
    }
    assert Value('.').None?;
  }

  lemma {:induction false} StripKeepsAlphabet(s: string, pad: nat)
    requires InAlphabet(s)
    ensures StripPadding(s + Pads(pad)) == s
    decreases pad
  {
    var t := s + Pads(pad);
    if pad > 0 {
      assert t[..|t| - 1] == s + Pads(pad - 1);
      StripKeepsAlphabet(s, pad - 1);
    } else {
      assert t == s;
    }
  }

  /** Both languages write the same text. */
  lemma PythonWritesWhatGoWrites(bytes: Bytes)
    ensures StripPadding(EncodePadded(bytes)) == Encode(bytes)
  {
    EncodeShape(bytes);
    StripKeepsAlphabet(Encode(bytes), PadCount(|bytes|));
  }

  // ---- The text itself ----

  /** The alphabet of table 2 of RFC 4648: A to Z, a to z, 0 to 9, minus and underscore, in this order. */
  lemma AlphabetIs(v: Six)
    ensures Letter(0) == 'A' && Letter(26) == 'a' && Letter(52) == '0' && Letter(62) == '-' && Letter(63) == '_'
    ensures v < 63 && v !in {25, 51, 61, 62} ==> Letter(v + 1) as int == Letter(v) as int + 1
  {
  }

  /** The number four letters stand for, most significant first. */
  function Number4(s: string): int
    requires |s| == 4 && InAlphabet(s)
  {
    var v0: int, v1: int := Value(s[0]).value, Value(s[1]).value;
    var v2: int, v3: int := Value(s[2]).value, Value(s[3]).value;
    v0 * 262_144 + v1 * 4096 + v2 * 64 + v3
  }

  /** Section 4 of RFC 4648: every three bytes, taken as one number of 24 bits, are written as the four letters
      that stand for that number; two bytes left over as the first three letters of their group filled
      up with zero bits, and one as the first two. */
  lemma EncodesGroups(bytes: Bytes, k: nat)
    requires 3 * k < |bytes|
    ensures 4 * k <= |Encode(bytes)|
    ensures var s, n := Encode(bytes)[4 * k..], |bytes| - 3 * k;
      && |s| >= (if n >= 3 then 4 else n + 1) && (n < 3 ==> |s| == n + 1)
      && var letters := if n >= 3 then s[..4] else s + "AA"[..3 - n];
         InAlphabet(letters) && Number4(letters) == Group3(bytes[3 * k..])
  {
    EncodeFrom(bytes, k);
    FirstGroup(bytes[3 * k..]);
  }

  /** The number the first three bytes stand for, missing ones as 0. */
  function Group3(bytes: Bytes): int
    requires |bytes| > 0
  {
    var a: int, b: int, c: int := bytes[0], if |bytes| >= 2 then bytes[1] else 0, if |bytes| >= 3 then bytes[2] else 0;
    a * 65_536 + b * 256 + c
  }

  lemma {:induction false} EncodeFrom(bytes: Bytes, k: nat)
    requires 3 * k <= |bytes|
    ensures 4 * k <= |Encode(bytes)| && Encode(bytes)[4 * k..] == Encode(bytes[3 * k..])
  {
    if k == 0 {
      assert bytes[0..] == bytes;
    } else {
      EncodeTail(bytes);
      EncodeFrom(bytes[3..], k - 1);
      assert bytes[3..][3 * (k - 1)..] == bytes[3 * k..];
      assert Encode(bytes)[4 * k..] == Encode(bytes)[4..][4 * (k - 1)..];
    }
  }

  lemma EncodeTail(bytes: Bytes)
    requires |bytes| >= 3
    ensures |Encode(bytes)| == 4 + |Encode(bytes[3..])| && Encode(bytes)[4..] == Encode(bytes[3..])
  {
  }

  lemma QuadNumber(a: Byte, b: Byte, c: Byte)
    ensures var q := Quad(a, b, c); var v0: int, v1: int, v2: int, v3: int := q[0], q[1], q[2], q[3];
      var x: int, y: int, z: int := a, b, c;
      v0 * 262_144 + v1 * 4096 + v2 * 64 + v3 == x * 65_536 + y * 256 + z
  {
  }

  lemma LettersNumber(q: seq<Six>)
    requires |q| == 4
    ensures var v0: int, v1: int, v2: int, v3: int := q[0], q[1], q[2], q[3];
      InAlphabet(Text(q)) && Number4(Text(q)) == v0 * 262_144 + v1 * 4096 + v2 * 64 + v3
  {
    LetterValue(q[0]);
    LetterValue(q[1]);
    LetterValue(q[2]);
    LetterValue(q[3]);
  }

  lemma FirstGroup(bytes: Bytes)
    requires |bytes| > 0
    ensures var s, n := Encode(bytes), |bytes|;
      && |s| >= (if n >= 3 then 4 else n + 1) && (n < 3 ==> |s| == n + 1)
      && var letters := if n >= 3 then s[..4] else s + "AA"[..3 - n];
         InAlphabet(letters) && Number4(letters) == Group3(bytes)
  {
    var n := |bytes|;
    var b: Byte, c: Byte := if n >= 2 then bytes[1] else 0, if n >= 3 then bytes[2] else 0;
    var q := Quad(bytes[0], b, c);
    QuadNumber(bytes[0], b, c);
    LettersNumber(q);
    assert Letter(0) == 'A';
    if n >= 3 {
      assert Encode(bytes)[..4] == Text(q);
    } else {
      assert Encode(bytes) + "AA"[..3 - n] == Text(q);
    }
  }

  /** Python's padding: up to two '=' behind Go's text, to whole groups of four. */
  lemma PaddedMeans(bytes: Bytes)
    ensures |EncodePadded(bytes)| % 4 == 0 && |EncodePadded(bytes)| < |Encode(bytes)| + 3
    ensures Encode(bytes) <= EncodePadded(bytes)
    ensures forall i :: |Encode(bytes)| <= i < |EncodePadded(bytes)| ==> EncodePadded(bytes)[i] == '='
  {
    SextetCount(bytes);
    WholeGroups(|bytes|);
  }

  lemma WholeGroups(n: nat)
    ensures (n / 3 * 4 + (if n % 3 == 0 then 0 else n % 3 + 1) + PadCount(n)) % 4 == 0 && PadCount(n) < 3
  {
    var k := n / 3;
    if n % 3 == 0 { assert (4 * k) % 4 == 0; } else { assert (4 * (k + 1)) % 4 == 0; }
  }

  // ---- Reading in Go ----

  function WithoutNewlines(s: string): string {
    if s == "" then "" else (if s[0] == '\r' || s[0] == '\n' then "" else [s[0]]) + WithoutNewlines(s[1..])
  }

  function Bytes3(v0: Six, v1: Six, v2: Six, v3: Six): Bytes {
    [v0 * 4 + v1 / 16, v1 % 16 * 16 + v2 / 4, v2 % 4 * 64 + v3]
  }

  function Values(s: string): seq<Option<Six>> { seq(|s|, i requires 0 <= i < |s| => Value(s[i])) }

  /** Whole quads, then two or three characters; a lone last character is an error. */
  function DecodeQuads(vs: seq<Option<Six>>): Option<Bytes> {
    if vs == [] then Some([])
    else if |vs| == 1 || vs[0].None? || vs[1].None? then None
    else if |vs| == 2 then Some(Bytes3(vs[0].value, vs[1].value, 0, 0)[..1])
    else if vs[2].None? then None
    else if |vs| == 3 then Some(Bytes3(vs[0].value, vs[1].value, vs[2].value, 0)[..2])
    else if vs[3].None? then None
    else Prepend(Bytes3(vs[0].value, vs[1].value, vs[2].value, vs[3].value), DecodeQuads(vs[4..]))
  }

  /** Go's `RawURLEncoding.DecodeString`, which skips newlines. */
  function GoDecode(s: string): Option<Bytes> { DecodeQuads(Values(WithoutNewlines(s))) }

  function Prepend(front: Bytes, rest: Option<Bytes>): Option<Bytes> {
    if rest.None? then None else Some(front + rest.value)
  }

  lemma QuadBytes(a: Byte, b: Byte, c: Byte)
    ensures var q := Quad(a, b, c); Bytes3(q[0], q[1], q[2], q[3]) == [a, b, c]
  {
  }

  /** Every sextet read as itself. */
  function Read(vs: seq<Six>): seq<Option<Six>> { seq(|vs|, i requires 0 <= i < |vs| => Some(vs[i])) }

  lemma {:induction false} QuadsRoundTrip(bytes: Bytes)
    ensures DecodeQuads(Read(Sextets(bytes))) == Some(bytes)
  {
    if |bytes| == 1 {
      QuadBytes(bytes[0], 0, 0);
      assert [bytes[0], 0, 0][..1] == bytes;
    } else if |bytes| == 2 {
      QuadBytes(bytes[0], bytes[1], 0);
      assert [bytes[0], bytes[1], 0][..2] == bytes;
    } else if |bytes| >= 3 {
      QuadBytes(bytes[0], bytes[1], bytes[2]);
      QuadsRoundTrip(bytes[3..]);
      assert Read(Sextets(bytes))[4..] == Read(Sextets(bytes[3..]));
      assert bytes == [bytes[0], bytes[1], bytes[2]] + bytes[3..];
    }
  }

  lemma {:induction false} NoNewlines(s: string)
    requires InAlphabet(s)
    ensures WithoutNewlines(s) == s
  {
    if s != "" {
      NoNewlines(s[1..]);
      assert Value(s[0]).Some?;
      assert [s[0]] + s[1..] == s;
    }
  }

  lemma ValuesOfText(vs: seq<Six>)
    ensures Values(Text(vs)) == Read(vs)
  {
    forall i | 0 <= i < |vs| ensures Values(Text(vs))[i] == Some(vs[i]) {
      LetterValue(vs[i]);
    }
  }

  /** Go reads back every byte string it wrote. */
  lemma GoRoundTrip(bytes: Bytes)
    ensures GoDecode(Encode(bytes)) == Some(bytes)
  {
    EncodeShape(bytes);
    NoNewlines(Encode(bytes));
    ValuesOfText(Sextets(bytes));
    QuadsRoundTrip(bytes);
  }

  lemma EncodeInjective(a: Bytes, b: Bytes)
    requires Encode(a) == Encode(b)
    ensures a == b
  {
    GoRoundTrip(a);
    GoRoundTrip(b);
  }

  /** Go's reader skips newlines wherever they stand, and refuses any other character outside the alphabet. */
  lemma NewlinesSkipped(a: string, c: char, b: string)
    ensures c == '\r' || c == '\n' ==> GoDecode(a + [c] + b) == GoDecode(a + b)
    ensures !(c == '\r' || c == '\n') && Value(c).None? ==> GoDecode(a + [c] + b).None?
  {
    WithoutNewlinesAppend(a + [c], b);
    WithoutNewlinesAppend(a, [c]);
    WithoutNewlinesAppend(a, b);
    assert [c][1..] == "";
    if c == '\r' || c == '\n' {
      assert WithoutNewlines([c]) == "";
      assert WithoutNewlines(a) + "" == WithoutNewlines(a);
    } else if Value(c).None? {
      var s, n := WithoutNewlines(a + [c] + b), |WithoutNewlines(a)|;
      assert WithoutNewlines([c]) == [c] && s[n] == c;
      RefusesOutsiders(Values(s), n);
    }
  }

  lemma {:induction false} WithoutNewlinesAppend(a: string, b: string)
    ensures WithoutNewlines(a + b) == WithoutNewlines(a) + WithoutNewlines(b)
  {
    if a == "" {
      assert a + b == b;
    } else {
      assert (a + b)[1..] == a[1..] + b;
      WithoutNewlinesAppend(a[1..], b);
    }
  }

  lemma {:induction false} RefusesOutsiders(vs: seq<Option<Six>>, i: nat)
    requires i < |vs| && vs[i].None?
    ensures DecodeQuads(vs).None?
  {
    if |vs| >= 4 && i >= 4 { RefusesOutsiders(vs[4..], i - 4); }
  }

  // ---- Reading in Python ----

  datatype Token = Sextet(v: Six) | Pad | Junk

  /** `urlsafe_b64decode` maps '-' and '_' to '+' and '/' and then reads the standard alphabet. */
  function TokenOf(c: char): Token {
    if c == '=' then Pad
    else if c == '+' then Sextet(62) else if c == '/' then Sextet(63)
    else
      match Value(c)
      case Some(v) => Sextet(v)
      case None => Junk
  }

  function Tokens(s: string): seq<Token> { seq(|s|, i requires 0 <= i < |s| => TokenOf(s[i])) }

  ghost predicate GroupState(quad: nat, left: nat) {
    quad < 4 && left < 64 && (quad == 2 ==> left < 16) && (quad == 3 ==> left < 4)
  }

  /** The byte a sextet completes, if it is not the first of its group. */
  function Written(quad: nat, left: nat, v: Six): Bytes
    requires GroupState(quad, left)
  {
    if quad == 0 then [] else if quad == 1 then [left * 4 + v / 16]
    else if quad == 2 then [left * 16 + v / 4] else [left * 64 + v]
  }

  /** The bits of a sextet that belong to the next byte. */
  function Kept(quad: nat, v: Six): nat {
    if quad == 0 then v else if quad == 1 then v % 16 else if quad == 2 then v % 4 else 0
  }

  function NextQuad(quad: nat): nat { if quad == 3 then 0 else quad + 1 }

  /** The non-strict reader of `binascii`: `quad` characters of the current group are taken, `left`
      holds the bits not yet written, other characters are skipped, and enough '=' end the text. */
  function A2b(ts: seq<Token>, quad: nat, left: nat, pads: nat): Option<Bytes>
    requires GroupState(quad, left)
    decreases |ts|
  {
    if ts == [] then if quad == 0 then Some([]) else None
    else
      match ts[0]
      case Pad =>
        if quad >= 2 && quad + pads + 1 >= 4 then Some([])
        else A2b(ts[1..], quad, left, if quad >= 2 then pads + 1 else pads)
      case Junk => A2b(ts[1..], quad, left, pads)
      case Sextet(v) => Prepend(Written(quad, left, v), A2b(ts[1..], NextQuad(quad), Kept(quad, v), 0))
  }

  ghost predicate Ascii(s: string) { forall i :: 0 <= i < |s| ==> s[i] as int < 128 }

  /** The decoder of `JWTManager.decode`: pad to a multiple of four, refuse text that is not ASCII,
      then read. */
  ghost function PyDecode(s: string): Option<Bytes> {
    var padding := 4 - |s| % 4;
    if !Ascii(s) then None else A2b(Tokens(if padding != 4 then s + Pads(padding) else s), 0, 0, 0)
  }

  /** What a '=' means, by how many characters of its group are taken: nothing before the second, and the end of
      the text as soon as two of them follow the second, or one the third; otherwise reading goes on. */
  lemma PadMeans(rest: seq<Token>, quad: nat, left: nat, pads: nat)
    requires GroupState(quad, left)
    ensures A2b([Pad] + rest, quad, left, pads) ==
      if quad < 2 then A2b(rest, quad, left, pads)
      else if quad == 3 || pads >= 1 then Some([])
      else A2b(rest, quad, left, pads + 1)
  {
    assert ([Pad] + rest)[1..] == rest;
  }

  /** '+' and '/' are read as '-' and '_' are. */
  lemma StandardLettersRead(a: string, b: string)
    ensures PyDecode(a + "+" + b) == PyDecode(a + "-" + b) && PyDecode(a + "/" + b) == PyDecode(a + "_" + b)
  {
    SameTokensSame(a + "+" + b, a + "-" + b);
    SameTokensSame(a + "/" + b, a + "_" + b);
  }

  /** The reader looks at nothing but the tokens. */
  lemma SameTokensSame(s: string, t: string)
    requires |s| == |t| && forall i :: 0 <= i < |s| ==>
      TokenOf(s[i]) == TokenOf(t[i]) && (s[i] as int < 128 <==> t[i] as int < 128)
    ensures PyDecode(s) == PyDecode(t)
  {
    var pads := Pads(if |s| % 4 == 0 then 0 else 4 - |s| % 4);
    assert Tokens(s) == Tokens(t);
    assert Tokens(s + pads) == Tokens(t + pads);
    assert Ascii(s) <==> Ascii(t);
  }

  function Group(vs: seq<Six>): seq<Token> { seq(|vs|, i requires 0 <= i < |vs| => Sextet(vs[i])) }

  lemma A2bSextet(v: Six, rest: seq<Token>, quad: nat, left: nat)
    requires GroupState(quad, left)
    ensures A2b([Sextet(v)] + rest, quad, left, 0) ==
      Prepend(Written(quad, left, v), A2b(rest, NextQuad(quad), Kept(quad, v), 0))
  {
    assert ([Sextet(v)] + rest)[1..] == rest;
  }

  /** Two sextets of a new group. */
  lemma A2bPair(v0: Six, v1: Six, rest: seq<Token>)
    ensures A2b([Sextet(v0), Sextet(v1)] + rest, 0, 0, 0) == Prepend([v0 * 4 + v1 / 16], A2b(rest, 2, v1 % 16, 0))
  {
    A2bSextet(v0, [Sextet(v1)] + rest, 0, 0);
    A2bSextet(v1, rest, 1, v0);
    var b0: Bytes := [v0 * 4 + v1 / 16];
    PrependTwice([], b0, A2b(rest, 2, v1 % 16, 0));
    assert [] + b0 == b0;
    assert [Sextet(v0), Sextet(v1)] + rest == [Sextet(v0)] + ([Sextet(v1)] + rest);
  }

  lemma PrependTwice(front: Bytes, middle: Bytes, rest: Option<Bytes>)
    ensures Prepend(front, Prepend(middle, rest)) == Prepend(front + middle, rest)
  {
    if rest.Some? { assert front + (middle + rest.value) == front + middle + rest.value; }
  }

  /** A third sextet, after a pair. */
  lemma A2bTriple(v0: Six, v1: Six, v2: Six, rest: seq<Token>)
    ensures A2b([Sextet(v0), Sextet(v1)] + ([Sextet(v2)] + rest), 0, 0, 0) ==
            Prepend(Bytes3(v0, v1, v2, 0)[..2], A2b(rest, 3, v2 % 4, 0))
  {
    A2bPair(v0, v1, [Sextet(v2)] + rest);
    A2bSextet(v2, rest, 2, v1 % 16);
    var b0: Bytes, b1: Bytes := [v0 * 4 + v1 / 16], [v1 % 16 * 16 + v2 / 4];
    PrependTwice(b0, b1, A2b(rest, 3, v2 % 4, 0));
    assert Bytes3(v0, v1, v2, 0)[..2] == b0 + b1;
  }

  lemma A2bQuad(q: seq<Six>, rest: seq<Token>)
    requires |q| == 4
    ensures A2b(Group(q) + rest, 0, 0, 0) == Prepend(Bytes3(q[0], q[1], q[2], q[3]), A2b(rest, 0, 0, 0))
  {
    A2bTriple(q[0], q[1], q[2], [Sextet(q[3])] + rest);
    A2bSextet(q[3], rest, 3, q[2] % 4);
    var v2: int, v3: int := q[2], q[3];
    var b2: Bytes := [v2 % 4 * 64 + v3];
    PrependTwice(Bytes3(q[0], q[1], q[2], 0)[..2], b2, A2b(rest, 0, 0, 0));
    assert Bytes3(q[0], q[1], q[2], 0)[..2] + b2 == Bytes3(q[0], q[1], q[2], q[3]);
    assert Group(q) + rest == [Sextet(q[0]), Sextet(q[1])] + ([Sextet(q[2])] + ([Sextet(q[3])] + rest));
  }

  lemma A2bEnds(left: nat)
    requires left < 4
    ensures A2b([Pad], 3, left, 0) == Some([]) && A2b([Pad, Pad], 2, left, 0) == Some([])
  {
    assert [Pad, Pad][1..] == [Pad];
    assert A2b([Pad], 2, left, 1) == Some([]);
  }

  lemma A2bOne(a: Byte)
    ensures A2b(Group(Quad(a, 0, 0)[..2]) + [Pad, Pad], 0, 0, 0) == Some([a])
  {
    var q := Quad(a, 0, 0);
    A2bPair(q[0], q[1], [Pad, Pad]);
    assert Group(q[..2]) == [Sextet(q[0]), Sextet(q[1])];
    QuadBytes(a, 0, 0);
    assert q[1] % 16 == 0;
    A2bEnds(0);
    assert [a] + [] == [a];
  }

  lemma A2bTwo(a: Byte, b: Byte)
    ensures A2b(Group(Quad(a, b, 0)[..3]) + [Pad], 0, 0, 0) == Some([a, b])
  {
    var q := Quad(a, b, 0);
    A2bTriple(q[0], q[1], q[2], [Pad]);
    assert Group(q[..3]) + [Pad] == [Sextet(q[0]), Sextet(q[1])] + ([Sextet(q[2])] + [Pad]);
    A2bEnds(q[2] % 4);
    TwoBytes(a, b);
    assert [a, b] + [] == [a, b];
  }

  lemma TwoBytes(a: Byte, b: Byte)
    ensures var q := Quad(a, b, 0); Bytes3(q[0], q[1], q[2], 0)[..2] == [a, b]
  {
    QuadBytes(a, b, 0);
  }

  function PadTokens(n: nat): seq<Token> { seq(n, _ => Pad) }

  lemma PadCountOfRest(n: nat)
    requires n >= 3
    ensures PadCount(n - 3) == PadCount(n)
  {
  }

  lemma {:induction false} A2bRoundTrip(bytes: Bytes)
    ensures A2b(Group(Sextets(bytes)) + PadTokens(PadCount(|bytes|)), 0, 0, 0) == Some(bytes)
  {
    if |bytes| == 0 {
      assert Group([]) + PadTokens(0) == [];
    } else if |bytes| == 1 {
      A2bOne(bytes[0]);
      assert PadTokens(2) == [Pad, Pad] && bytes == [bytes[0]];
    } else if |bytes| == 2 {
      A2bTwo(bytes[0], bytes[1]);
      assert PadTokens(1) == [Pad] && bytes == [bytes[0], bytes[1]];
    } else {
      A2bRoundTrip(bytes[3..]);
      PadCountOfRest(|bytes|);
      A2bFirstQuad(bytes, PadTokens(PadCount(|bytes|)));
    }
  }

  lemma A2bFirstQuad(bytes: Bytes, pads: seq<Token>)
    requires |bytes| >= 3 && A2b(Group(Sextets(bytes[3..])) + pads, 0, 0, 0) == Some(bytes[3..])
    ensures A2b(Group(Sextets(bytes)) + pads, 0, 0, 0) == Some(bytes)
  {
    var q, tail := Quad(bytes[0], bytes[1], bytes[2]), Sextets(bytes[3..]);
    A2bQuad(q, Group(tail) + pads);
    GroupAppend(q, tail, pads);
    QuadBytes(bytes[0], bytes[1], bytes[2]);
    assert bytes == [bytes[0], bytes[1], bytes[2]] + bytes[3..];
    assert Some(bytes) == Prepend([bytes[0], bytes[1], bytes[2]], Some(bytes[3..]));
  }

  lemma GroupAppend(a: seq<Six>, b: seq<Six>, rest: seq<Token>)
    ensures Group(a + b) + rest == Group(a) + (Group(b) + rest)
  {
  }

  lemma TokensOfText(vs: seq<Six>, pad: nat)
    ensures Tokens(Text(vs) + Pads(pad)) == Group(vs) + PadTokens(pad) && Ascii(Text(vs))
  {
    forall i | 0 <= i < |vs| ensures TokenOf(Text(vs)[i]) == Sextet(vs[i]) {
      LetterValue(vs[i]);
    }
  }

  /** Re-adding up to the next multiple of four restores what was stripped. */
  lemma PaddingRestored(bytes: Bytes)
    ensures var padding := 4 - |Encode(bytes)| % 4; (if padding == 4 then 0 else padding) == PadCount(|bytes|)
  {
    SextetCount(bytes);
  }

  /** Python reads back, after re-adding the padding, every byte string either side wrote. */
  lemma PyRoundTrip(bytes: Bytes)
    ensures PyDecode(Encode(bytes)) == Some(bytes)
  {
    PaddingRestored(bytes);
    TokensOfText(Sextets(bytes), PadCount(|bytes|));
    A2bRoundTrip(bytes);
    assert Encode(bytes) + Pads(0) == Encode(bytes);
  }

  // ---- What the lenient reading ignores ----

  function Counted(t: Token): seq<Token> { if t == Junk then [] else [t] }

  function WithoutJunk(ts: seq<Token>): seq<Token> {
    if ts == [] then [] else Counted(ts[0]) + WithoutJunk(ts[1..])
  }

  lemma {:induction false} A2bSkipsJunk(ts: seq<Token>, quad: nat, left: nat, pads: nat)
    requires GroupState(quad, left)
    ensures A2b(ts, quad, left, pads) == A2b(WithoutJunk(ts), quad, left, pads)
    decreases |ts|
  {
    if ts != [] {
      var rest := WithoutJunk(ts[1..]);
      match ts[0]
      case Junk =>
        assert WithoutJunk(ts) == [] + rest == rest;
        A2bSkipsJunk(ts[1..], quad, left, pads);
      case Pad =>
        assert WithoutJunk(ts) == [Pad] + rest && ([Pad] + rest)[1..] == rest;
        A2bSkipsJunk(ts[1..], quad, left, if quad >= 2 then pads + 1 else pads);
      case Sextet(v) =>
        assert WithoutJunk(ts) == [Sextet(v)] + rest && ([Sextet(v)] + rest)[1..] == rest;
        A2bSkipsJunk(ts[1..], NextQuad(quad), Kept(quad, v), 0);
    }
  }

  lemma WithoutJunkHead(t: Token, ts: seq<Token>)
    ensures WithoutJunk([t] + ts) == Counted(t) + WithoutJunk(ts)
  {
    assert ([t] + ts)[1..] == ts;
  }

  lemma JoinedThrice(x: seq<Token>, y: seq<Token>, z: seq<Token>)
    ensures x + (y + z) == x + y + z
  {
  }

  lemma {:induction false} WithoutJunkAppend(a: seq<Token>, b: seq<Token>)
    ensures WithoutJunk(a + b) == WithoutJunk(a) + WithoutJunk(b)
  {
    if a == [] {
      assert a + b == b;
    } else {
      var t, rest := a[0], a[1..];
      WithoutJunkAppend(rest, b);
      WithoutJunkHead(t, rest);
      WithoutJunkHead(t, rest + b);
      JoinedThrice([t], rest, b);
      JoinedThrice(Counted(t), WithoutJunk(rest), WithoutJunk(b));
      assert a == [t] + rest;
    }
  }

  /** Two texts that differ in characters outside the alphabet only, anywhere and however many. */
  ghost predicate SameLetters(s: string, t: string) {
    && WithoutJunk(Tokens(s)) == WithoutJunk(Tokens(t)) && |s| % 4 == |t| % 4 && Ascii(s) && Ascii(t)
  }

  function Padded(s: string): string { if |s| % 4 == 0 then s else s + Pads(4 - |s| % 4) }

  lemma TokensOfPadded(s: string)
    ensures Tokens(Padded(s)) == Tokens(s) + (if |s| % 4 == 0 then [] else PadTokens(4 - |s| % 4))
  {
    assert TokenOf('=') == Pad;
  }

  /** The reading is lenient: characters outside the alphabet make no difference, wherever they stand, if
      the length stays what it is modulo four. */
  lemma JunkIgnored(s: string, t: string)
    requires SameLetters(s, t)
    ensures PyDecode(s) == PyDecode(t)
  {
    var pads := if |s| % 4 == 0 then [] else PadTokens(4 - |s| % 4);
    TokensOfPadded(s);
    TokensOfPadded(t);
    WithoutJunkAppend(Tokens(s), pads);
    WithoutJunkAppend(Tokens(t), pads);
    A2bSkipsJunk(Tokens(Padded(s)), 0, 0, 0);
    A2bSkipsJunk(Tokens(Padded(t)), 0, 0, 0);
  }

  lemma {:induction false} NothingButJunk(ts: seq<Token>)
    requires forall i :: 0 <= i < |ts| ==> ts[i] == Junk
    ensures WithoutJunk(ts) == []
  {
    if ts != [] { NothingButJunk(ts[1..]); }
  }

  /** In particular any multiple of four of them can be put in at any position. */
  lemma JunkInserted(a: string, junk: string, b: string)
    requires |junk| % 4 == 0 && forall i :: 0 <= i < |a + b| ==> (a + b)[i] as int < 128
    requires forall i :: 0 <= i < |junk| ==>
      && junk[i] as int < 128 && junk[i] !in "+/-_="
      && !('A' <= junk[i] <= 'Z') && !('a' <= junk[i] <= 'z') && !('0' <= junk[i] <= '9')
    ensures SameLetters(a + junk + b, a + b) && PyDecode(a + junk + b) == PyDecode(a + b)
  {
    JunkLeavesLetters(a, junk, b);
    JunkIgnored(a + junk + b, a + b);
  }

  lemma JunkLeavesLetters(a: string, junk: string, b: string)
    requires |junk| % 4 == 0 && Ascii(a + b)
    requires forall i :: 0 <= i < |junk| ==> junk[i] as int < 128 && TokenOf(junk[i]) == Junk
    ensures SameLetters(a + junk + b, a + b)
  {
    var s := a + junk + b;
    assert Tokens(s) == Tokens(a) + Tokens(junk) + Tokens(b) && Tokens(a + b) == Tokens(a) + Tokens(b);
    WithoutJunkAppend(Tokens(a) + Tokens(junk), Tokens(b));
    WithoutJunkAppend(Tokens(a), Tokens(junk));
    WithoutJunkAppend(Tokens(a), Tokens(b));
    NothingButJunk(Tokens(junk));
    assert WithoutJunk(Tokens(a)) + [] == WithoutJunk(Tokens(a));
    forall i | 0 <= i < |s| ensures s[i] as int < 128 {
      if i < |a| { assert (a + b)[i] == s[i]; }
      else if i >= |a| + |junk| { assert (a + b)[i - |junk|] == s[i]; }
    }
  }
}
