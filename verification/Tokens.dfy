/** auth/tokens.py: the issuer's compact token, header.payload.signature. JSON is an
    abstract codec and HMAC-SHA256 an arbitrary function of secret and input. */
module Tokens {
  import opened Basics
  import opened Base64

  datatype Json = JNull | JBool(b: bool) | JInt(n: int) | JStr(s: string) | JOther(truthy: bool) {
    /** Python's truth of the value. */
    predicate Truthy()
    {
      match this
      case JNull => false
      case JBool(b) => b
      case JInt(n) => n != 0
      case JStr(s) => s != ""
      case JOther(t) => t
    }

    /** isinstance(x, int), which holds of booleans too. */
    predicate IsInt()
    {
      JInt? || JBool?
    }

    function AsInt(): int
      requires IsInt()
    {
      match this
      case JInt(n) => n
      case JBool(b) => if b then 1 else 0
    }
  }

  /** What json.loads gives: an object, or some other document without a get method. */
  datatype Doc = Object(fields: map<string, Json>) | NotObject {
    function Get(key: string): Json
      requires Object?
    {
      if key in fields then fields[key] else JNull
    }
  }

  /** The foreign code: json.dumps, json.loads (None stands for ValueError) and HMAC. */
  datatype Library = Library(
    dumps: map<string, Json> -> seq<Byte>,
    loads: seq<Byte> -> Option<Doc>,
    hmac: (seq<Byte>, string) -> seq<Byte>)
  {
    predicate RoundTrips(fields: map<string, Json>)
    {
      loads(dumps(fields)) == Some(Object(fields))
    }
  }

  datatype TokenIssuer = TokenIssuer(secret: seq<Byte>, issuer: string, audience: string)

  datatype Claims = Claims(accountId: Json, issuer: string, audience: string, issuedAt: Json, expiresAt: Json)

  /** Raised stands for an exception that validate does not turn into one of its own. */
  datatype Verdict = Accepted(claims: Claims) | Malformed | SignatureInvalid | ClaimsInvalid | Expired | Raised

  const ALG := "HS256"
  const HEADER: map<string, Json> := map["alg" := JStr(ALG), "typ" := JStr("JWT")]

  function Sign(lib: Library, u: TokenIssuer, signingInput: string): string
  {
    Encode(lib.hmac(u.secret, signingInput))
  }

  function Payload(u: TokenIssuer, account: string, ttl: int, now: int): map<string, Json>
  {
    map["sub" := JStr(account), "iss" := JStr(u.issuer), "aud" := JStr(u.audience),
        "iat" := JInt(now), "exp" := JInt(now + ttl)]
  }

  function SigningInput(lib: Library, u: TokenIssuer, account: string, ttl: int, now: int): string
  {
    Encode(lib.dumps(HEADER)) + "." + Encode(lib.dumps(Payload(u, account, ttl, now)))
  }

  /** TokenIssuer.issue: an empty account is a ValueError. */
  function Issue(lib: Library, u: TokenIssuer, account: string, ttl: int, now: int): Option<string>
  {
    if account == "" then None
    else
      var input := SigningInput(lib, u, account, ttl, now);
      Some(input + "." + Sign(lib, u, input))
  }

  /** str.count of the dot. */
  function Dots(s: string): nat
  {
    if s == "" then 0 else (if s[0] == '.' then 1 else 0) + Dots(s[1..])
  }

  /** str.split at the dots. */
  function Split(s: string): (parts: seq<string>)
    ensures |parts| == Dots(s) + 1
  {
    if s == "" then [""]
    else if s[0] == '.' then [""] + Split(s[1..])
    else
      var parts := Split(s[1..]);
      [[s[0]] + parts[0]] + parts[1..]
  }

  function Parse(lib: Library, segment: string): Option<Doc>
  {
    match Decode(segment)
    case None => None
    case Some(raw) => lib.loads(raw)
  }

  function CheckClaims(u: TokenIssuer, payload: Doc, now: int): Verdict
    requires payload.Object?
  {
    var sub, exp, iat := payload.Get("sub"), payload.Get("exp"), payload.Get("iat");
    if !sub.Truthy() || !exp.IsInt() || !iat.IsInt() then ClaimsInvalid
    else if now >= exp.AsInt() then Expired
    else if payload.Get("iss") != JStr(u.issuer) then ClaimsInvalid
    else if payload.Get("aud") != JStr(u.audience) then ClaimsInvalid
    else Accepted(Claims(sub, u.issuer, u.audience, iat, exp))
  }

  function CheckContent(lib: Library, u: TokenIssuer, header: string, payload: string, now: int): Verdict
  {
    var h, p := Parse(lib, header), Parse(lib, payload);
    if h.None? || p.None? then Malformed
    else if h.value.NotObject? then Raised
    else if h.value.Get("alg") != JStr(ALG) then ClaimsInvalid
    else if p.value.NotObject? then Raised
    else CheckClaims(u, p.value, now)
  }

  /** TokenIssuer.validate. Text outside ASCII makes str.encode or compare_digest raise. */
  function Validate(lib: Library, u: TokenIssuer, token: string, now: int): Verdict
  {
    if token == "" || Dots(token) != 2 then Malformed
    else
      var parts := Split(token);
      var input := parts[0] + "." + parts[1];
      if !IsAscii(input) || !IsAscii(parts[2]) then Raised
      else if Sign(lib, u, input) != parts[2] then SignatureInvalid
      else CheckContent(lib, u, parts[0], parts[1], now)
  }

  // ---- splitting undoes joining -----------------------------------------------

  lemma {:induction false} SplitFirst(a: string, rest: string)
    requires '.' !in a
    ensures Split(a + "." + rest) == [a] + Split(rest)
  {
    var s := a + "." + rest;
    if a == "" {
      assert s == "." + rest && s[1..] == rest;
    } else {
      SplitFirst(a[1..], rest);
      assert s[1..] == a[1..] + "." + rest;
      assert [a[0]] + a[1..] == a;
    }
  }

  lemma {:induction false} SplitLast(a: string)
    requires '.' !in a
    ensures Split(a) == [a]
  {
    if a != "" {
      SplitLast(a[1..]);
      assert [a[0]] + a[1..] == a;
    }
  }

  lemma SplitJoined(h: string, p: string, sig: string)
    requires '.' !in h && '.' !in p && '.' !in sig
    ensures Split(h + "." + p + "." + sig) == [h, p, sig]
  {
    assert h + "." + p + "." + sig == h + "." + (p + "." + sig);
    SplitFirst(h, p + "." + sig);
    SplitFirst(p, sig);
    SplitLast(sig);
  }

  function Join(parts: seq<string>): string
    requires parts != []
  {
    if |parts| == 1 then parts[0] else parts[0] + "." + Join(parts[1..])
  }

  lemma {:induction false} JoinUndoesSplit(s: string)
    ensures Join(Split(s)) == s
    ensures forall part :: part in Split(s) ==> '.' !in part
  {
    if s != "" {
      JoinUndoesSplit(s[1..]);
      var rest := Split(s[1..]);
      if s[0] == '.' {
        assert Split(s)[1..] == rest;
      } else {
        assert Split(s)[1..] == rest[1..];
      }
    }
  }

  lemma ThreeParts(token: string)
    requires Dots(token) == 2
    ensures var parts := Split(token);
            token == parts[0] + "." + parts[1] + "." + parts[2]
  {
    JoinUndoesSplit(token);
    var parts := Split(token);
    var rest := parts[1..];
    assert Join(rest) == parts[1] + "." + Join(rest[1..]) && Join(rest[1..]) == parts[2];
    assert parts[0] + "." + (parts[1] + "." + parts[2]) == parts[0] + "." + parts[1] + "." + parts[2];
  }

  // ---- the round trip -----------------------------------------------------------

  lemma PlainIsDotless(s: string)
    requires IsPlain(s)
    ensures '.' !in s && IsAscii(s)
  {
  }

  lemma JoinedIsAscii(a: string, b: string)
    requires IsAscii(a) && IsAscii(b)
    ensures IsAscii(a + "." + b)
  {
    forall c | c in a + "." + b
      ensures c in a || c == '.' || c in b
    {
    }
  }

  /** Validating three printed segments compares the signature and then reads back
      exactly the bytes that were printed. */
  lemma ValidatePrinted(lib: Library, v: TokenIssuer, head: seq<Byte>, body: seq<Byte>, mac: seq<Byte>, t: int)
    ensures var input := Encode(head) + "." + Encode(body);
            Validate(lib, v, input + "." + Encode(mac), t) ==
              if lib.hmac(v.secret, input) != mac then SignatureInvalid
              else CheckContent(lib, v, Encode(head), Encode(body), t)
  {
    var h, p, sig := Encode(head), Encode(body), Encode(mac);
    DecodeUndoesEncode(head);
    DecodeUndoesEncode(body);
    DecodeUndoesEncode(mac);
    PlainIsDotless(h);
    PlainIsDotless(p);
    PlainIsDotless(sig);
    JoinedIsAscii(h, p);
    SplitJoined(h, p, sig);
    var input := h + "." + p;
    assert Split(input + "." + sig) == [h, p, sig];
    if Encode(lib.hmac(v.secret, input)) == sig {
      EncodeIsInjective(lib.hmac(v.secret, input), mac);
    }
  }

  lemma ParsePrinted(lib: Library, fields: map<string, Json>)
    requires lib.RoundTrips(fields)
    ensures Parse(lib, Encode(lib.dumps(fields))) == Some(Object(fields))
  {
    DecodeUndoesEncode(lib.dumps(fields));
  }

  lemma PayloadChecks(u: TokenIssuer, v: TokenIssuer, account: string, ttl: int, now: int, t: int)
    requires account != ""
    ensures CheckClaims(v, Object(Payload(u, account, ttl, now)), t) ==
      if t >= now + ttl then Expired
      else if v.issuer != u.issuer || v.audience != u.audience then ClaimsInvalid
      else Accepted(Claims(JStr(account), u.issuer, u.audience, JInt(now), JInt(now + ttl)))
  {
  }

  /** A token issued by u for `account` at `now`, shown at time t to any validator v:
      the verdict is settled by the two signatures, the lifetime, the issuer and the
      audience, in this order, and an accepted token yields exactly the issued claims. */
  lemma IssueThenValidate(lib: Library, u: TokenIssuer, v: TokenIssuer, account: string, ttl: int, now: int, t: int)
    requires lib.RoundTrips(HEADER) && lib.RoundTrips(Payload(u, account, ttl, now))
    ensures Issue(lib, u, account, ttl, now).None? <==> account == ""
    ensures account != "" ==>
      var input := SigningInput(lib, u, account, ttl, now);
      Validate(lib, v, Issue(lib, u, account, ttl, now).value, t) ==
        if lib.hmac(v.secret, input) != lib.hmac(u.secret, input) then SignatureInvalid
        else if t >= now + ttl then Expired
        else if v.issuer != u.issuer || v.audience != u.audience then ClaimsInvalid
        else Accepted(Claims(JStr(account), u.issuer, u.audience, JInt(now), JInt(now + ttl)))
  {
    if account != "" {
      var fields := Payload(u, account, ttl, now);
      var input := SigningInput(lib, u, account, ttl, now);
      ValidatePrinted(lib, v, lib.dumps(HEADER), lib.dumps(fields), lib.hmac(u.secret, input), t);
      ParsePrinted(lib, HEADER);
      ParsePrinted(lib, fields);
      PrintedContent(lib, v, Encode(lib.dumps(HEADER)), Encode(lib.dumps(fields)), fields, t);
      PayloadChecks(u, v, account, ttl, now, t);
    }
  }

  lemma PrintedContent(lib: Library, v: TokenIssuer, h: string, p: string, fields: map<string, Json>, t: int)
    requires Parse(lib, h) == Some(Object(HEADER)) && Parse(lib, p) == Some(Object(fields))
    ensures CheckContent(lib, v, h, p, t) == CheckClaims(v, Object(fields), t)
  {
  }

  /** With the same issuer object: accepted exactly while t < now + ttl. */
  lemma OwnTokensAreAcceptedUntilTheyExpire(lib: Library, u: TokenIssuer, account: string, ttl: int, now: int, t: int)
    requires account != ""
    requires lib.RoundTrips(HEADER) && lib.RoundTrips(Payload(u, account, ttl, now))
    ensures Validate(lib, u, Issue(lib, u, account, ttl, now).value, t).Accepted? <==> t < now + ttl
    ensures t < now + ttl ==>
      Validate(lib, u, Issue(lib, u, account, ttl, now).value, t).claims
        == Claims(JStr(account), u.issuer, u.audience, JInt(now), JInt(now + ttl))
  {
    IssueThenValidate(lib, u, u, account, ttl, now, t);
  }

  // ---- what acceptance means, for any text whatever --------------------------------

  /** The payload of a decoded token that this issuer would accept at `now`. */
  predicate IsSound(u: TokenIssuer, header: Doc, payload: Doc, now: int)
  {
    && header.Object? && payload.Object?
    && header.Get("alg") == JStr(ALG)
    && payload.Get("sub").Truthy() && payload.Get("exp").IsInt() && payload.Get("iat").IsInt()
    && now < payload.Get("exp").AsInt()
    && payload.Get("iss") == JStr(u.issuer) && payload.Get("aud") == JStr(u.audience)
  }

  /** Whatever the text, it is accepted if and only if it is two ASCII segments and
      the issuer's own signature over them, and the segments hold a sound header and
      payload; the claims are the payload's. */
  lemma AcceptedIffSignedAndSound(lib: Library, u: TokenIssuer, token: string, now: int)
    ensures Validate(lib, u, token, now).Accepted? <==>
      exists h: string, p: string ::
        && '.' !in h && '.' !in p && IsAscii(h + "." + p)
        && token == h + "." + p + "." + Sign(lib, u, h + "." + p)
        && Parse(lib, h).Some? && Parse(lib, p).Some?
        && IsSound(u, Parse(lib, h).value, Parse(lib, p).value, now)
  {
    if Validate(lib, u, token, now).Accepted? {
      AcceptedIsSigned(lib, u, token, now);
    }
    forall h: string, p: string |
      && '.' !in h && '.' !in p && IsAscii(h + "." + p)
      && token == h + "." + p + "." + Sign(lib, u, h + "." + p)
      && Parse(lib, h).Some? && Parse(lib, p).Some?
      && IsSound(u, Parse(lib, h).value, Parse(lib, p).value, now)
      ensures Validate(lib, u, token, now).Accepted?
    {
      SignedIsAccepted(lib, u, h, p, now);
    }
  }

  lemma AcceptedIsSigned(lib: Library, u: TokenIssuer, token: string, now: int)
    requires Validate(lib, u, token, now).Accepted?
    ensures Dots(token) == 2
    ensures var h, p := Split(token)[0], Split(token)[1];
            && '.' !in h && '.' !in p && IsAscii(h + "." + p)
            && token == h + "." + p + "." + Sign(lib, u, h + "." + p)
            && Parse(lib, h).Some? && Parse(lib, p).Some?
            && IsSound(u, Parse(lib, h).value, Parse(lib, p).value, now)
  {
    ThreeParts(token);
    JoinUndoesSplit(token);
  }

  lemma SignedIsAccepted(lib: Library, u: TokenIssuer, h: string, p: string, now: int)
    requires '.' !in h && '.' !in p && IsAscii(h + "." + p)
    requires Parse(lib, h).Some? && Parse(lib, p).Some?
    requires IsSound(u, Parse(lib, h).value, Parse(lib, p).value, now)
    ensures Validate(lib, u, h + "." + p + "." + Sign(lib, u, h + "." + p), now) ==
      var payload := Parse(lib, p).value;
      Accepted(Claims(payload.Get("sub"), u.issuer, u.audience, payload.Get("iat"), payload.Get("exp")))
  {
    var input := h + "." + p;
    var mac := lib.hmac(u.secret, input);
    DecodeUndoesEncode(mac);
    PlainIsDotless(Encode(mac));
    SplitJoined(h, p, Encode(mac));
  }

  /** A signing input has one accepted spelling of its signature: no second token
      is accepted for the same header and payload text. */
  lemma SignatureIsNotMalleable(lib: Library, u: TokenIssuer, a: string, b: string, s: int, t: int)
    requires Validate(lib, u, a, s).Accepted? && Validate(lib, u, b, t).Accepted?
    requires Split(a)[..2] == Split(b)[..2]
    ensures a == b
  {
    AcceptedIsSigned(lib, u, a, s);
    AcceptedIsSigned(lib, u, b, t);
    assert Split(a)[0] == Split(a)[..2][0] && Split(a)[1] == Split(a)[..2][1];
    assert Split(b)[0] == Split(b)[..2][0] && Split(b)[1] == Split(b)[..2][1];
  }

  // ---- every verdict, for any text whatever -----------------------------------------

  /** Header, payload and signature: three dot-free segments. */
  ghost predicate IsThreeSegments(token: string, h: string, p: string, sig: string)
  {
    '.' !in h && '.' !in p && '.' !in sig && token == h + "." + p + "." + sig
  }

  lemma TwoDotsMakeThreeSegments(token: string)
    ensures Dots(token) == 2 <==> exists h: string, p: string, sig: string :: IsThreeSegments(token, h, p, sig)
  {
    if Dots(token) == 2 {
      ThreeParts(token);
      JoinUndoesSplit(token);
      assert IsThreeSegments(token, Split(token)[0], Split(token)[1], Split(token)[2]);
    }
    forall h: string, p: string, sig: string | IsThreeSegments(token, h, p, sig) ensures Dots(token) == 2 {
      SplitJoined(h, p, sig);
    }
  }

  /** A text that is not three segments is malformed, the empty one included. */
  lemma OtherTextsAreMalformed(lib: Library, u: TokenIssuer, token: string, now: int)
    requires forall h: string, p: string, sig: string :: !IsThreeSegments(token, h, p, sig)
    ensures Validate(lib, u, token, now) == Malformed
  {
    TwoDotsMakeThreeSegments(token);
  }

  /** Python's falsy values, and isinstance(x, int) with its value. */
  lemma PythonValues(v: Json)
    ensures v.Truthy() <==> v !in {JNull, JBool(false), JInt(0), JStr(""), JOther(false)}
    ensures v.IsInt() <==> v.JInt? || v.JBool?
    ensures v.IsInt() ==> v.AsInt() == match v case JInt(n) => n case JBool(b) => (if b then 1 else 0) case _ => 0
  {
  }

  /** The document a segment holds: base64url, then JSON; None where either raises ValueError. */
  function Held(lib: Library, segment: string): Option<Doc>
  {
    match Decode(segment) case Some(raw) => lib.loads(raw) case None => None
  }

  /** Before the content is looked at: text outside ASCII raises, a third segment that
      is not the signature of the first two is refused, and else the content decides. */
  lemma VerdictOnSegments(lib: Library, u: TokenIssuer, h: string, p: string, sig: string, now: int)
    requires '.' !in h && '.' !in p && '.' !in sig
    ensures var v, input := Validate(lib, u, h + "." + p + "." + sig, now), h + "." + p;
            if exists c :: c in h + "." + p + sig && c as int >= 128 then v == Raised
            else if sig != Encode(lib.hmac(u.secret, input)) then v == SignatureInvalid
            else v == CheckContent(lib, u, h, p, now)
  {
    SplitJoined(h, p, sig);
    assert (h + "." + p) + sig == h + "." + p + sig;
    AsciiOfBoth(h + "." + p, sig);
  }

  lemma AsciiOfBoth(a: string, b: string)
    ensures IsAscii(a) && IsAscii(b) <==> !exists c :: c in a + b && c as int >= 128
  {
    forall c: char ensures c in a + b <==> c in a || c in b {}
  }

  /** A subject, and whole numbers for the two times; True and False count as such. */
  predicate WellFormed(body: Doc)
    requires body.Object?
  {
    && body.Get("sub") !in {JNull, JBool(false), JInt(0), JStr(""), JOther(false)}
    && (body.Get("exp").JInt? || body.Get("exp").JBool?)
    && (body.Get("iat").JInt? || body.Get("iat").JBool?)
  }

  predicate BadClaims(u: TokenIssuer, body: Doc, now: int)
    requires body.Object?
  {
    !WellFormed(body) ||
    (now < body.Get("exp").AsInt() && (body.Get("iss") != JStr(u.issuer) || body.Get("aud") != JStr(u.audience)))
  }

  /** Both segments hold a document, the first an object of this algorithm. */
  predicate HeaderFits(head: Option<Doc>, body: Option<Doc>)
  {
    head.Some? && body.Some? && head.value.Object? && head.value.Get("alg") == JStr("HS256")
  }

  lemma VerdictOnContent(lib: Library, u: TokenIssuer, h: string, p: string, now: int)
    ensures CheckContent(lib, u, h, p, now) != SignatureInvalid
    ensures CheckContent(lib, u, h, p, now) == Malformed <==> Held(lib, h).None? || Held(lib, p).None?
    ensures CheckContent(lib, u, h, p, now) == Raised <==> Raises(Held(lib, h), Held(lib, p))
    ensures CheckContent(lib, u, h, p, now) == ClaimsInvalid <==> Refused(u, Held(lib, h), Held(lib, p), now)
    ensures CheckContent(lib, u, h, p, now) == Expired <==> TooLate(Held(lib, h), Held(lib, p), now)
  {
    PythonValues(JNull);
  }

  /** A document without fields where fields are looked up. */
  predicate Raises(head: Option<Doc>, body: Option<Doc>)
  {
    head.Some? && body.Some? && (head.value.NotObject? || (HeaderFits(head, body) && body.value.NotObject?))
  }

  /** Another algorithm, claims that are missing or of the wrong kind, or a token in
      time for another issuer or audience. */
  predicate Refused(u: TokenIssuer, head: Option<Doc>, body: Option<Doc>, now: int)
  {
    && head.Some? && body.Some? && head.value.Object?
    && (head.value.Get("alg") != JStr("HS256") || (body.value.Object? && BadClaims(u, body.value, now)))
  }

  predicate TooLate(head: Option<Doc>, body: Option<Doc>, now: int)
  {
    HeaderFits(head, body) && body.value.Object? && WellFormed(body.value) && now >= body.value.Get("exp").AsInt()
  }

  predicate Ascii(s: string)
  {
    forall c :: c in s ==> (c as int) < 128
  }

  /** Every verdict on every text of three segments, if and only if its reason holds;
      OtherTextsAreMalformed has the remaining texts. */
  lemma EveryVerdict(lib: Library, u: TokenIssuer, h: string, p: string, sig: string, now: int)
    requires '.' !in h && '.' !in p && '.' !in sig
    ensures var v, ascii, mac := Validate(lib, u, h + "." + p + "." + sig, now), Ascii(h + "." + p + sig),
                                 Encode(lib.hmac(u.secret, h + "." + p));
            var head, body, signed := Held(lib, h), Held(lib, p), ascii && sig == mac;
            && (v == SignatureInvalid <==> ascii && sig != mac)
            && (v == Malformed <==> signed && (head.None? || body.None?))
            && (v == Raised <==> !ascii || (signed && Raises(head, body)))
            && (v == ClaimsInvalid <==> signed && Refused(u, head, body, now))
            && (v == Expired <==> signed && TooLate(head, body, now))
  {
    VerdictOnSegments(lib, u, h, p, sig, now);
    VerdictOnContent(lib, u, h, p, now);
  }

  /** What issue prints: the header, the payload with its five claims, and the HMAC of
      both, each in base64url, joined by dots. */
  lemma IssuedTokenHolds(lib: Library, u: TokenIssuer, account: string, ttl: int, now: int) returns (h: string, p: string)
    requires account != ""
    ensures Issue(lib, u, account, ttl, now) == Some(h + "." + p + "." + Encode(lib.hmac(u.secret, h + "." + p)))
    ensures '.' !in h && '.' !in p
    ensures Decode(h) == Some(lib.dumps(map["alg" := JStr("HS256"), "typ" := JStr("JWT")]))
    ensures Decode(p) == Some(lib.dumps(map[
              "sub" := JStr(account), "iss" := JStr(u.issuer), "aud" := JStr(u.audience),
              "iat" := JInt(now), "exp" := JInt(now + ttl)]))
  {
    h, p := Encode(lib.dumps(HEADER)), Encode(lib.dumps(Payload(u, account, ttl, now)));
    DecodeUndoesEncode(lib.dumps(HEADER));
    DecodeUndoesEncode(lib.dumps(Payload(u, account, ttl, now)));
    PlainIsDotless(h);
    PlainIsDotless(p);
  }
}
