/** Session tokens: JSON Web Tokens (RFC 7519) in compact serialization, signed with
    HMAC-SHA256 ("HS256", section 3.2 of RFC 7518) under the service's fixed secret.

    The JSON and base64url layers and the HMAC itself are not modelled: a `Codec` value
    carries them as opaque functions. What is modelled is the decision logic of token
    creation and of token acceptance: the part of the JWT library's parser the service
    relies on (three segments, a decodable header and claims, a registered algorithm,
    claims validation against the clock, signature check) and the service's own extra
    checks on top of it. */
module Jwt {
  import opened Outcomes

  /** Seconds since the Unix epoch. */
  type Time = int

  /** The signing secret, shared by token creation and token decoding. */
  const JWT_SECRET: string := "change me!"

  const HS256: string := "HS256"

  /** Algorithm names for which the library has an HMAC signing method. */
  const HMAC_ALGS: set<string> := {"HS256", "HS384", "HS512"}

  /** Every algorithm name the library has a signing method for. The non-HMAC ones
      cannot verify with a byte-string key. */
  const REGISTERED_ALGS: set<string> :=
    HMAC_ALGS + {"RS256", "RS384", "RS512", "PS256", "PS384", "PS512", "ES256", "ES384", "ES512", "none"}

  /** The registered claims of RFC 7519 section 4.1; a time of 0 means "absent". */
  datatype StandardClaims = StandardClaims(
    audience: string,
    expiresAt: Time,
    id: string,
    issuedAt: Time,
    issuer: string,
    notBefore: Time,
    subject: string)

  /** The claims the service puts in a session token: the account uuid and the standard claims. */
  datatype JwtClaims = JwtClaims(uuid: string, standard: StandardClaims)

  /** The JOSE header of a token. */
  datatype Header = Header(alg: string, typ: string)

  /** A token as the library's parser returns it. */
  datatype Token = Token(raw: string, header: Header, claims: JwtClaims, signature: string, valid: bool)

  /** The opaque encoding layers: base64url-encoded JSON for the header and the claims, and
      the base64url-encoded MAC over the signing input, for a given algorithm and key. */
  datatype Codec = Codec(
    encodeHeader: Header -> string,
    decodeHeader: string -> Option<Header>,
    encodeClaims: JwtClaims -> string,
    decodeClaims: string -> Option<JwtClaims>,
    sign: (string, string, string) -> string)

  /** What a real encoding layer guarantees: decoding undoes encoding, and base64url output
      never contains the segment separator '.'. */
  ghost predicate Lawful(c: Codec) {
    && (forall h :: c.decodeHeader(c.encodeHeader(h)) == Some(h))
    && (forall cl :: c.decodeClaims(c.encodeClaims(cl)) == Some(cl))
    && (forall h :: '.' !in c.encodeHeader(h))
    && (forall cl :: '.' !in c.encodeClaims(cl))
    && (forall alg, key, input :: '.' !in c.sign(alg, key, input))
  }

  // ---------------------------------------------------------------------------
  // Segments of the compact serialization

  /** The segments joined by '.'. */
  function Join(parts: seq<string>): string
    requires |parts| > 0
  {
    if |parts| == 1 then parts[0] else parts[0] + "." + Join(parts[1..])
  }

  /** The library splits a token at every '.': the pieces contain no '.' and joining them
      gives back the token. */
  function Split(s: string): (parts: seq<string>)
    ensures |parts| > 0
    ensures Join(parts) == s
    ensures forall k :: 0 <= k < |parts| ==> '.' !in parts[k]
  {
    if s == [] then [""]
    else
      var rest := Split(s[1..]);
      if s[0] == '.' then
        assert s == "." + s[1..];
        [""] + rest
      else
        var parts := [[s[0]] + rest[0]] + rest[1..];
        assert parts[1..] == rest[1..];
        assert forall k :: 1 <= k < |parts| ==> parts[k] == rest[k];
        parts
  }

  lemma {:induction false} SplitPrefix(a: string, rest: string)
    requires '.' !in a
    ensures Split(a + "." + rest) == [a] + Split(rest)
    decreases |a|
  {
    if a == [] {
      assert (a + "." + rest)[1..] == rest;
    } else {
      var s := a + "." + rest;
      assert s[1..] == a[1..] + "." + rest;
      SplitPrefix(a[1..], rest);
      assert [s[0]] + a[1..] == a;
    }
  }

  lemma {:induction false} SplitWhole(a: string)
    requires '.' !in a
    ensures Split(a) == [a]
    decreases |a|
  {
    if a != [] {
      SplitWhole(a[1..]);
      assert [a[0]] + a[1..] == a;
    }
  }

  /** Splitting undoes joining dot-free segments. */
  lemma {:induction false} SplitJoin(parts: seq<string>)
    requires |parts| > 0
    requires forall k :: 0 <= k < |parts| ==> '.' !in parts[k]
    ensures Split(Join(parts)) == parts
    decreases |parts|
  {
    if |parts| == 1 {
      SplitWhole(parts[0]);
    } else {
      SplitJoin(parts[1..]);
      SplitPrefix(parts[0], Join(parts[1..]));
    }
  }

  // ---------------------------------------------------------------------------
  // The library: signing and parsing

  /** The signing input: the encoded header and the encoded claims joined by '.'. */
  function SigningString(c: Codec, h: Header, claims: JwtClaims): string {
    c.encodeHeader(h) + "." + c.encodeClaims(claims)
  }

  /** The library's compact serialization of a token signed under `key`. */
  function SignedString(c: Codec, h: Header, claims: JwtClaims, key: string): string {
    var input := SigningString(c, h, claims);
    input + "." + c.sign(h.alg, key, input)
  }

  /** A lawful codec splits a signed token into its header, claims and signature segments. */
  lemma SignedStringSegments(c: Codec, h: Header, claims: JwtClaims, key: string)
    requires Lawful(c)
    ensures Split(SignedString(c, h, claims, key))
         == [c.encodeHeader(h), c.encodeClaims(claims), c.sign(h.alg, key, SigningString(c, h, claims))]
  {
    var parts := [c.encodeHeader(h), c.encodeClaims(claims), c.sign(h.alg, key, SigningString(c, h, claims))];
    assert Join(parts[2..]) == parts[2];
    assert Join(parts[1..]) == parts[1] + "." + parts[2];
    assert Join(parts) == SignedString(c, h, claims, key);
    SplitJoin(parts);
  }

  /** Claims validation of the library: an expiry, issued-at or not-before time of 0 is
      absent; otherwise the clock must not be past the expiry, nor before issued-at or
      not-before. */
  predicate ClaimsValid(std: StandardClaims, now: Time) {
    && (std.expiresAt == 0 || now <= std.expiresAt)
    && (std.issuedAt == 0 || now >= std.issuedAt)
    && (std.notBefore == 0 || now >= std.notBefore)
  }

  /** Signature verification with a byte-string key: only the HMAC methods accept such a
      key, and the segment must equal the MAC of the signing input. */
  predicate SignatureValid(c: Codec, alg: string, input: string, signature: string, key: string) {
    alg in HMAC_ALGS && c.sign(alg, key, input) == signature
  }

  /** The library's parser with the key the key function supplies: the token is marked valid
      exactly when it parses, its claims validate and its signature verifies. */
  function ParseWithClaims(c: Codec, tokenString: string, key: string, now: Time): (r: Result<Token>)
    ensures r.Ok? ==> r.value.valid && r.value.raw == tokenString
  {
    var parts := Split(tokenString);
    if |parts| != 3 then Err(InvalidToken(Malformed))
    else
      match c.decodeHeader(parts[0])
      case None => Err(InvalidToken(Malformed))
      case Some(h) =>
        match c.decodeClaims(parts[1])
        case None => Err(InvalidToken(Malformed))
        case Some(claims) =>
          if h.alg !in REGISTERED_ALGS then Err(InvalidToken(SigningMethodUnavailable))
          else
            var claimsOk := ClaimsValid(claims.standard, now);
            var signatureOk := SignatureValid(c, h.alg, parts[0] + "." + parts[1], parts[2], key);
            if claimsOk && signatureOk then Ok(Token(tokenString, h, claims, parts[2], true))
            else Err(InvalidToken(ValidationFailed(!claimsOk, !signatureOk)))
  }

  // ---------------------------------------------------------------------------
  // The service's codec

  /** The claims of a fresh session token: the uuid and the issue time, nothing else. */
  function IssuedClaims(uuid: string, now: Time): JwtClaims {
    JwtClaims(uuid, StandardClaims("", 0, "", now, "", 0, ""))
  }

  /** The header of every token the service creates. */
  const ISSUED_HEADER: Header := Header(HS256, "JWT")

  /** A session token for `uuid`, issued at `now`, signed with HS256 under the fixed secret:
      under a lawful codec its three segments carry the HS256 header, the issued claims and
      the MAC of the first two under the secret. */
  function CreateToken(c: Codec, uuid: string, now: Time): (t: string)
    ensures Lawful(c) ==>
              var parts := Split(t);
              && |parts| == 3
              && c.decodeHeader(parts[0]) == Some(ISSUED_HEADER)
              && c.decodeClaims(parts[1]) == Some(IssuedClaims(uuid, now))
              && parts[2] == c.sign(HS256, JWT_SECRET, parts[0] + "." + parts[1])
  {
    var t := SignedString(c, ISSUED_HEADER, IssuedClaims(uuid, now), JWT_SECRET);
    assert Lawful(c) ==> Split(t) == [c.encodeHeader(ISSUED_HEADER), c.encodeClaims(IssuedClaims(uuid, now)),
                                      c.sign(HS256, JWT_SECRET, SigningString(c, ISSUED_HEADER, IssuedClaims(uuid, now)))] by {
      if Lawful(c) {
        SignedStringSegments(c, ISSUED_HEADER, IssuedClaims(uuid, now), JWT_SECRET);
      }
    }
    t
  }

  /** What the decoder accepts, stated segment by segment: three segments, an HS256 header,
      decodable claims that validate at `now`, and the HS256 MAC under the fixed secret. */
  ghost predicate Acceptable(c: Codec, token: string, now: Time) {
    var parts := Split(token);
    && |parts| == 3
    && c.decodeHeader(parts[0]).Some?
    && c.decodeHeader(parts[0]).value.alg == HS256
    && c.decodeClaims(parts[1]).Some?
    && ClaimsValid(c.decodeClaims(parts[1]).value.standard, now)
    && parts[2] == c.sign(HS256, JWT_SECRET, parts[0] + "." + parts[1])
  }

  /** Decode a session token. Every parse or verification failure is an error; a token the
      parser accepts is still rejected unless it is marked valid and its algorithm is HS256;
      an accepted token yields exactly the claims in its payload segment. */
  function DecodeToken(c: Codec, token: string, now: Time): (r: Result<JwtClaims>)
    ensures ParseWithClaims(c, token, JWT_SECRET, now).Err? ==> r == Err(ParseWithClaims(c, token, JWT_SECRET, now).error)
    ensures r.Ok? <==> Acceptable(c, token, now)
    ensures r.Ok? ==> c.decodeClaims(Split(token)[1]) == Some(r.value)
  {
    match ParseWithClaims(c, token, JWT_SECRET, now)
    case Err(e) => Err(e)
    case Ok(t) =>
      if !t.valid || t.header.alg != HS256 then Err(InvalidToken(FailedToVerify))
      else Ok(t.claims)
  }

  /** Algorithm substitution: a token correctly signed under the secret with another HMAC
      algorithm passes the library's parser but is rejected by the decoder. */
  lemma AlgorithmSubstitutionRejected(c: Codec, alg: string, claims: JwtClaims, now: Time)
    requires Lawful(c)
    requires alg in HMAC_ALGS && alg != HS256
    requires ClaimsValid(claims.standard, now)
    ensures ParseWithClaims(c, SignedString(c, Header(alg, "JWT"), claims, JWT_SECRET), JWT_SECRET, now).Ok?
    ensures DecodeToken(c, SignedString(c, Header(alg, "JWT"), claims, JWT_SECRET), now) == Err(InvalidToken(FailedToVerify))
  {
    SignedStringSegments(c, Header(alg, "JWT"), claims, JWT_SECRET);
  }

  /** A token whose header names anything but HS256 is never accepted. */
  lemma OnlyHs256Accepted(c: Codec, token: string, now: Time)
    requires |Split(token)| == 3
    requires c.decodeHeader(Split(token)[0]).Some?
    requires c.decodeHeader(Split(token)[0]).value.alg != HS256
    ensures DecodeToken(c, token, now).Err?
  {
  }

  /** A token signed with HS256 under a key whose MAC differs from the secret's is rejected
      with an invalid signature. */
  lemma ForeignKeyRejected(c: Codec, claims: JwtClaims, key: string, now: Time)
    requires Lawful(c)
    requires c.sign(HS256, key, SigningString(c, ISSUED_HEADER, claims))
          != c.sign(HS256, JWT_SECRET, SigningString(c, ISSUED_HEADER, claims))
    ensures ParseWithClaims(c, SignedString(c, ISSUED_HEADER, claims, key), JWT_SECRET, now).Err?
    ensures DecodeToken(c, SignedString(c, ISSUED_HEADER, claims, key), now).Err?
  {
    SignedStringSegments(c, ISSUED_HEADER, claims, key);
  }

  /** Round trip: a token the service created decodes to the uuid it was created for, at any
      time from its issue time on; before its (non-zero) issue time the library rejects it. */
  lemma CreateDecodeRoundTrip(c: Codec, uuid: string, issuedAt: Time, now: Time)
    requires Lawful(c)
    ensures DecodeToken(c, CreateToken(c, uuid, issuedAt), now).Ok? <==> (issuedAt == 0 || issuedAt <= now)
    ensures DecodeToken(c, CreateToken(c, uuid, issuedAt), now).Ok? ==>
              DecodeToken(c, CreateToken(c, uuid, issuedAt), now).value == IssuedClaims(uuid, issuedAt)
              && DecodeToken(c, CreateToken(c, uuid, issuedAt), now).value.uuid == uuid
  {
    SignedStringSegments(c, ISSUED_HEADER, IssuedClaims(uuid, issuedAt), JWT_SECRET);
  }
}
