/** Compact HS256 tokens (section 7.1 of RFC 7515): `SignHS256`/`VerifyHS256` of core/runtime/auth.go
    and `JWTManager` of core/runtime/auth.py. HMAC is an arbitrary function and JSON an arbitrary
    codec that reads back what it wrote. */
module Jwt {
  import opened Common
  import opened Text
  import opened Base64Url

  /** HMAC-SHA256 of a signing input under a secret. */
  type Mac = (string, string) -> Bytes

  datatype Json<!T> = Json(marshal: T -> Option<Bytes>, unmarshal: Bytes -> Option<T>)

  ghost predicate ReadsBack<T(!new)>(json: Json<T>) {
    forall v: T :: json.marshal(v).Some? ==> json.unmarshal(json.marshal(v).value) == Some(v)
  }

  function Compact(header: string, payload: string, signature: string): string {
    header + "." + payload + "." + signature
  }

  lemma CompactIsJoin(header: string, payload: string, signature: string)
    ensures Compact(header, payload, signature) == Join([header, payload, signature], '.')
  {
    var parts := [header, payload, signature];
    assert parts[1..] == [payload, signature] && parts[1..][1..] == [signature];
    assert Join([signature], '.') == signature;
    assert Join([payload, signature], '.') == payload + ['.'] + signature;
    assert Join(parts, '.') == header + ['.'] + (payload + ['.'] + signature);
    assert header + ['.'] + (payload + ['.'] + signature) == Compact(header, payload, signature);
  }

  /** A token whose parts have no '.' splits into exactly its three parts. */
  lemma CompactSplits(header: string, payload: string, signature: string)
    requires '.' !in header && '.' !in payload && '.' !in signature
    ensures Split(Compact(header, payload, signature), '.') == [header, payload, signature]
  {
    CompactIsJoin(header, payload, signature);
    SplitOfJoin([header, payload, signature], '.');
  }

  /** A string that splits into three parts is those parts joined, none of which has a '.'. */
  lemma ThreeParts(token: string)
    requires |Split(token, '.')| == 3
    ensures var p := Split(token, '.');
      token == Compact(p[0], p[1], p[2]) && '.' !in p[0] && '.' !in p[1] && '.' !in p[2]
  {
    var p := Split(token, '.');
    JoinOfSplit(token, '.');
    SplitHasNoSeparator(token, '.');
    assert p == [p[0], p[1], p[2]];
    CompactIsJoin(p[0], p[1], p[2]);
  }

  // ---- Go ----

  datatype Claims = Claims(sub: string, exp: int, ext: Bytes)

  datatype Verdict = Valid(claims: Claims) | Malformed | InvalidSignature | BadPayload | BadJson | Expired

  const DAY := 86400

  function Dated(c: Claims, now: int): Claims {
    if c.exp == 0 then c.(exp := now + DAY) else c
  }

  /** `header` is the JSON of the fixed header; None is a marshalling error. */
  function SignHS256(mac: Mac, json: Json<Claims>, header: Bytes, c: Claims, secret: string, now: int): Option<string> {
    match json.marshal(Dated(c, now))
    case None => None
    case Some(body) =>
      var signingInput := Encode(header) + "." + Encode(body);
      Some(signingInput + "." + Encode(mac(secret, signingInput)))
  }

  function VerifyHS256(mac: Mac, json: Json<Claims>, token: string, secret: string, now: int): Verdict {
    var parts := Split(token, '.');
    if |parts| != 3 then Malformed
    else if Encode(mac(secret, parts[0] + "." + parts[1])) != parts[2] then InvalidSignature
    else
      match GoDecode(parts[1])
      case None => BadPayload
      case Some(body) =>
        match json.unmarshal(body)
        case None => BadJson
        case Some(c) => if c.exp > 0 && now > c.exp then Expired else Valid(c)
  }

  /** Signing fails only if the claims cannot be marshalled; the token is the header, the claims with an expiry a
      day ahead if they had none, and the MAC of the two. */
  lemma GoWritesSigned(mac: Mac, json: Json<Claims>, header: Bytes, c: Claims, secret: string, now: int)
    ensures var claims := Claims(c.sub, if c.exp == 0 then now + 86400 else c.exp, c.ext);
      SignHS256(mac, json, header, c, secret, now) ==
      if json.marshal(claims).None? then None
      else Some(Signed(mac, Encode(header), Encode(json.marshal(claims).value), secret))
  {
  }

  /** What verifying a freshly signed token yields, under any secret and at any time: the caller's claims,
      with an expiry a day after signing if they had none, unless the MACs differ or the expiry is positive
      and past. */
  lemma GoVerifiesWhatItSigned(mac: Mac, json: Json<Claims>, header: Bytes, c: Claims,
                               secret: string, signedAt: int, other: string, now: int)
    requires ReadsBack(json)
    requires json.marshal(Claims(c.sub, if c.exp == 0 then signedAt + 86400 else c.exp, c.ext)).Some?
    ensures var exp := if c.exp == 0 then signedAt + 86400 else c.exp;
      && SignHS256(mac, json, header, c, secret, signedAt).Some?
      && var input := Encode(header) + "." + Encode(json.marshal(Claims(c.sub, exp, c.ext)).value);
         VerifyHS256(mac, json, SignHS256(mac, json, header, c, secret, signedAt).value, other, now) ==
         if mac(other, input) != mac(secret, input) then InvalidSignature
         else if exp > 0 && now > exp then Expired
         else Valid(Claims(c.sub, exp, c.ext))
  {
    var body := json.marshal(Dated(c, signedAt)).value;
    var input := Encode(header) + "." + Encode(body);
    EncodeShape(header);
    EncodeShape(body);
    EncodeShape(mac(secret, input));
    CompactSplits(Encode(header), Encode(body), Encode(mac(secret, input)));
    GoRoundTrip(body);
    if Encode(mac(other, input)) == Encode(mac(secret, input)) {
      EncodeInjective(mac(other, input), mac(secret, input));
    }
  }

  function Signed(mac: Mac, header: string, payload: string, secret: string): string {
    Compact(header, payload, Encode(mac(secret, header + "." + payload)))
  }

  /** A token is accepted exactly when it is a '.'-free header and payload and the encoded MAC of the
      two, and the payload decodes to claims that have not expired. */
  lemma GoAcceptsIff(mac: Mac, json: Json<Claims>, token: string, secret: string, now: int, c: Claims)
    ensures VerifyHS256(mac, json, token, secret, now) == Valid(c) <==>
      exists header: string, payload: string ::
        && '.' !in header && '.' !in payload && token == Signed(mac, header, payload, secret)
        && GoDecode(payload).Some? && json.unmarshal(GoDecode(payload).value) == Some(c)
        && (c.exp <= 0 || now <= c.exp)
  {
    if VerifyHS256(mac, json, token, secret, now) == Valid(c) {
      var p := Split(token, '.');
      ThreeParts(token);
      assert token == Signed(mac, p[0], p[1], secret);
    }
    forall header: string, payload: string |
      && '.' !in header && '.' !in payload && token == Signed(mac, header, payload, secret)
      && GoDecode(payload).Some? && json.unmarshal(GoDecode(payload).value) == Some(c)
      && (c.exp <= 0 || now <= c.exp)
      ensures VerifyHS256(mac, json, token, secret, now) == Valid(c)
    {
      EncodeShape(mac(secret, header + "." + payload));
      CompactSplits(header, payload, Encode(mac(secret, header + "." + payload)));
    }
  }

  // ---- Python ----

  /** A payload value: what can be compared with a time matters here, everything else is opaque. */
  datatype JsonValue = Number(x: real) | Truth(b: bool) | Other(text: Bytes)

  /** Python compares booleans with numbers as 1 and 0, and nothing else. */
  function AsNumber(v: JsonValue): Option<real> {
    match v
    case Number(x) => Some(x)
    case Truth(b) => Some(if b then 1.0 else 0.0)
    case Other(_) => None
  }

  type Payload = map<string, JsonValue>

  /** `int(time.time())`: truncation toward zero. */
  function Truncate(t: real): int { if t >= 0.0 then t.Floor else -(-t).Floor }

  function Stamped(payload: Payload, expiresIn: int, expAt: real, iatAt: real): Payload {
    payload["exp" := Number((Truncate(expAt) + expiresIn) as real)]["iat" := Number(Truncate(iatAt) as real)]
  }

  /** The clock is read twice; None is the exception of a payload that cannot be dumped. */
  function PyEncode(mac: Mac, json: Json<Payload>, header: Bytes, payload: Payload, secret: string,
                    expiresIn: int, expAt: real, iatAt: real): Option<string> {
    match json.marshal(Stamped(payload, expiresIn, expAt, iatAt))
    case None => None
    case Some(body) =>
      var h, p := StripPadding(EncodePadded(header)), StripPadding(EncodePadded(body));
      Some(h + "." + p + "." + StripPadding(EncodePadded(mac(secret, h + "." + p))))
  }

  /** Any exception on the way - a bad encoding, bad JSON, an `exp` that is no number - is None. */
  ghost function PyVerify(mac: Mac, json: Json<Payload>, token: string, secret: string, now: real): Option<Payload> {
    var parts := Split(token, '.');
    if |parts| != 3 then None
    else if PyDecode(parts[2]) != Some(mac(secret, parts[0] + "." + parts[1])) then None
    else
      match PyDecode(parts[1])
      case None => None
      case Some(body) =>
        match json.unmarshal(body)
        case None => None
        case Some(payload) =>
          var exp := if "exp" in payload then AsNumber(payload["exp"]) else Some(0.0);
          if exp.None? || exp.value < now then None else Some(payload)
  }

  /** Python writes its tokens in the form that Go accepts. */
  lemma PyWritesSigned(mac: Mac, json: Json<Payload>, header: Bytes, payload: Payload,
                       secret: string, expiresIn: int, expAt: real, iatAt: real)
    requires json.marshal(Stamped(payload, expiresIn, expAt, iatAt)).Some?
    ensures var body := json.marshal(Stamped(payload, expiresIn, expAt, iatAt)).value;
      PyEncode(mac, json, header, payload, secret, expiresIn, expAt, iatAt)
      == Some(Signed(mac, Encode(header), Encode(body), secret))
  {
    var body := json.marshal(Stamped(payload, expiresIn, expAt, iatAt)).value;
    PythonWritesWhatGoWrites(header);
    PythonWritesWhatGoWrites(body);
    PythonWritesWhatGoWrites(mac(secret, Encode(header) + "." + Encode(body)));
  }

  /** A signed token of a payload under the same secret. */
  lemma DecodesSigned(mac: Mac, json: Json<Payload>, header: Bytes, payload: Payload, secret: string, now: real)
    requires ReadsBack(json) && json.marshal(payload).Some?
    ensures var token := Signed(mac, Encode(header), Encode(json.marshal(payload).value), secret);
      PyVerify(mac, json, token, secret, now) ==
      var exp := if "exp" in payload then AsNumber(payload["exp"]) else Some(0.0);
      if exp.None? || exp.value < now then None else Some(payload)
  {
    var body := json.marshal(payload).value;
    var h, p := Encode(header), Encode(body);
    var sig := mac(secret, h + "." + p);
    EncodeShape(header);
    EncodeShape(body);
    EncodeShape(sig);
    CompactSplits(h, p, Encode(sig));
    PyRoundTrip(body);
    PyRoundTrip(sig);
  }

  /** Decoding a freshly encoded token under the same secret yields the caller's payload with the two times
      in it, in whole seconds, exactly while its expiry is not past. */
  lemma PythonDecodesWhatItEncoded(mac: Mac, json: Json<Payload>, header: Bytes, payload: Payload,
                                   secret: string, expiresIn: int, expAt: real, iatAt: real, now: real)
    requires ReadsBack(json) && PyEncode(mac, json, header, payload, secret, expiresIn, expAt, iatAt).Some?
    ensures var token := PyEncode(mac, json, header, payload, secret, expiresIn, expAt, iatAt).value;
      var exp, iat := (Truncate(expAt) + expiresIn) as real, Truncate(iatAt) as real;
      PyVerify(mac, json, token, secret, now) ==
      if now <= exp then Some(payload["exp" := Number(exp)]["iat" := Number(iat)]) else None
  {
    var stamped := Stamped(payload, expiresIn, expAt, iatAt);
    PyWritesSigned(mac, json, header, payload, secret, expiresIn, expAt, iatAt);
    DecodesSigned(mac, json, header, stamped, secret, now);
    assert stamped["exp"] == Number((Truncate(expAt) + expiresIn) as real);
  }

  /** Whole seconds: the fraction is dropped, towards 1970. */
  lemma TruncateMeans(t: real)
    ensures t >= 0.0 ==> Truncate(t) as real <= t < (Truncate(t) + 1) as real
    ensures t <= 0.0 ==> (Truncate(t) - 1) as real < t <= Truncate(t) as real
  {
  }

  /** Has the payload not expired? A missing `exp` counts as 0, and one that is no number is refused. */
  predicate Current(payload: Payload, now: real) {
    var exp := if "exp" in payload then AsNumber(payload["exp"]) else Some(0.0);
    exp.Some? && now <= exp.value
  }

  /** How an expiry is compared: numbers as they are, true and false as 1 and 0, a missing one as 0, and
      anything else is refused. */
  lemma CurrentMeans(payload: Payload, now: real)
    ensures "exp" !in payload ==> (Current(payload, now) <==> now <= 0.0)
    ensures forall x :: "exp" in payload && payload["exp"] == Number(x) ==> (Current(payload, now) <==> now <= x)
    ensures "exp" in payload && payload["exp"] == Truth(true) ==> (Current(payload, now) <==> now <= 1.0)
    ensures "exp" in payload && payload["exp"] == Truth(false) ==> (Current(payload, now) <==> now <= 0.0)
    ensures "exp" in payload && payload["exp"].Other? ==> !Current(payload, now)
  {
  }

  /** What decoding checks of the three parts. */
  ghost predicate PyAccepts(mac: Mac, json: Json<Payload>, header: string, text: string, signature: string,
                            secret: string, now: real, payload: Payload) {
    && '.' !in header && '.' !in text && '.' !in signature
    && PyDecode(signature) == Some(mac(secret, header + "." + text))
    && PyDecode(text).Some? && json.unmarshal(PyDecode(text).value) == Some(payload) && Current(payload, now)
  }

  /** A token is accepted exactly when it is three '.'-free parts, the last of which reads - leniently -
      as the MAC of the first two, and the payload decodes to one that has not expired. */
  lemma PyAcceptsIff(mac: Mac, json: Json<Payload>, token: string, secret: string, now: real, payload: Payload)
    ensures PyVerify(mac, json, token, secret, now) == Some(payload) <==>
      exists header: string, text: string, signature: string ::
        token == Compact(header, text, signature) && PyAccepts(mac, json, header, text, signature, secret, now, payload)
  {
    if PyVerify(mac, json, token, secret, now) == Some(payload) {
      var p := Split(token, '.');
      ThreeParts(token);
      assert token == Compact(p[0], p[1], p[2]) && PyAccepts(mac, json, p[0], p[1], p[2], secret, now, payload);
    }
    forall header: string, text: string, signature: string |
      token == Compact(header, text, signature) && PyAccepts(mac, json, header, text, signature, secret, now, payload)
      ensures PyVerify(mac, json, token, secret, now) == Some(payload)
    {
      CompactSplits(header, text, signature);
    }
  }

  /** The signature's text is not unique: texts that differ in characters outside the alphabet only, and
      not in length modulo four, are accepted alike. Go accepts only one. */
  lemma PySignatureTextVaries(mac: Mac, json: Json<Payload>, header: string, text: string, signature: string,
                              other: string, secret: string, now: real)
    requires '.' !in header && '.' !in text && '.' !in signature && '.' !in other && SameLetters(signature, other)
    ensures PyVerify(mac, json, Compact(header, text, other), secret, now) ==
            PyVerify(mac, json, Compact(header, text, signature), secret, now)
  {
    JunkIgnored(signature, other);
    CompactSplits(header, text, signature);
    CompactSplits(header, text, other);
  }
}
