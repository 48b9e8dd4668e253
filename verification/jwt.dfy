/** The session-token checks of the `jwt` package: `Verify` as a fixed
    checklist that stops at the first failing step, the key selection of
    `getJWK`, the issuer pattern, the authorized-party (`azp`, OpenID Connect
    Core 1.0 section 2) check, and the registered-claim filtering of `Decode`.

    Compact-JWS parsing, signature verification and the clock check belong to
    the go-jose library; they enter as the fields of a `Jose` value, so every
    statement below holds whatever that library does. */
module Jwt {
  import opened Wrappers
  import opened Strings
  import Sets
  import Decimal

  /** One JOSE header of a parsed token: its `kid` (section 4.1.4 of RFC
      7515) and `alg` (section 4.1.1 of RFC 7515). */
  datatype Header = Header(keyId: string, algorithm: string)

  /** A compact JWS as go-jose parses it: its headers, and the signed content
      left for the library. */
  datatype ParsedToken = ParsedToken(headers: seq<Header>, signed: string)

  /** A JSON Web Key (RFC 7517): its `kid`, its `alg`, and the key itself. */
  datatype JsonWebKey = JsonWebKey(keyId: string, algorithm: string, material: seq<bv8>)

  /** A JSON value, the type of an extra (unregistered) claim. A number is
      decoded into `any` as a floating-point value, modelled here as a
      `real`. */
  datatype Json =
    | JNull
    | JBool(b: bool)
    | JNumber(n: real)
    | JString(s: string)
    | JArray(items: seq<Json>)
    | JObject(fields: map<string, Json>)

  /** The registered claims of section 4.1 of RFC 7519. */
  datatype StandardClaims = StandardClaims(
    issuer: string,
    subject: string,
    audience: seq<string>,
    expiry: Option<int>,
    notBefore: Option<int>,
    issuedAt: Option<int>,
    id: string)

  /** The session claims `Verify` decodes after the signature check: the
      registered claims (which the clock check reads: `exp`, `nbf`, `iat`),
      plus the session's `azp` and `sid`. */
  datatype SessionClaims = SessionClaims(
    standard: StandardClaims,
    authorizedParty: string,
    sessionId: string)

  /** Registered claims plus every other claim, keyed by claim name. */
  datatype Claims = Claims(standard: StandardClaims, extra: map<string, Json>)

  /** The library operations the package calls and does not implement:
      `jwt.ParseSigned`, `parsedToken.Claims` (signature check and decoding
      with the chosen key), `Claims.ValidateWithLeeway` (on the registered claims, given the current
      time and the leeway; `None` means valid), and
      `UnsafeClaimsWithoutVerification`. */
  datatype Jose = Jose(
    parseSigned: string -> Result<ParsedToken, string>,
    verifiedClaims: (ParsedToken, JsonWebKey) -> Result<SessionClaims, string>,
    validateWithLeeway: (StandardClaims, int, int) -> Option<string>,
    unsafeClaims: ParsedToken -> Result<Claims, string>)

  /** `VerifyParams`. A nil and an empty `authorizedParties` map behave the
      same everywhere, so both are the empty set. */
  datatype VerifyParams = VerifyParams(
    token: string,
    jwk: Option<JsonWebKey>,
    leeway: Decimal.Int64,
    isSatellite: bool,
    proxyUrl: Option<string>,
    authorizedParties: set<string>)

  datatype JwkError =
    | FetchFailed(reason: string)
    | NoKeyForKid(kid: string)

  /** Why `Verify` rejected a token, one case per early return. */
  datatype VerifyError =
    | ParseFailed(reason: string)
    | MissingHeaders
    | MissingKid
    | GetJwkFailed(cause: JwkError)
    | InvalidAlgorithm(algorithm: string)
    | ClaimsFailed(reason: string)
    | TimeInvalid(reason: string)
    | InvalidIssuer(issuer: string)
    | InvalidAuthorizedParty(party: string)

  /** `SetAuthorizedParties`: the authorized set becomes exactly the given
      parties, replacing any earlier set; nothing else changes. */
  function SetAuthorizedParties(params: VerifyParams, parties: seq<string>): (r: VerifyParams)
    ensures forall p :: p in r.authorizedParties <==> p in parties
    ensures r == params.(authorizedParties := r.authorizedParties)
  {
    params.(authorizedParties := Sets.ToSet(parties))
  }

  /** The position of the first key whose `kid` is `kid`, if any. */
  function FindKey(keys: seq<JsonWebKey>, kid: string): (r: Option<nat>)
    ensures r.Some? ==> r.value < |keys| && keys[r.value].keyId == kid
    ensures r.Some? ==> forall j :: 0 <= j < r.value ==> keys[j].keyId != kid
    ensures r.None? <==> forall j :: 0 <= j < |keys| ==> keys[j].keyId != kid
  {
    if |keys| == 0 then None
    else if keys[0].keyId == kid then Some(0)
    else
      match FindKey(keys[1..], kid)
      case None => None
      case Some(i) => Some(i + 1)
  }

  /** `getJWK` after the fetch: `fetched` is what `jwks.Get` returned. A
      failed fetch is passed on; otherwise the first key with a matching
      `kid` (sections 4.5 and 5 of RFC 7517) is chosen. */
  function GetJwk(fetched: Result<seq<JsonWebKey>, string>, kid: string): (r: Result<JsonWebKey, JwkError>)
    ensures fetched.Failure? ==> r == Failure(FetchFailed(fetched.error))
    ensures fetched.Success? ==>
      (r == Failure(NoKeyForKid(kid)) <==> forall j :: 0 <= j < |fetched.value| ==> fetched.value[j].keyId != kid)
    ensures r.Success? ==> (
      && fetched.Success?
      && exists i :: 0 <= i < |fetched.value| && fetched.value[i] == r.value && r.value.keyId == kid &&
           forall j :: 0 <= j < i ==> fetched.value[j].keyId != kid)
    ensures fetched.Success? && r.Failure? ==> r.error == NoKeyForKid(kid)
  {
    match fetched
    case Failure(e) => Failure(FetchFailed(e))
    case Success(keys) =>
      match FindKey(keys, kid)
      case None => Failure(NoKeyForKid(kid))
      case Some(i) => Success(keys[i])
  }

  /** The key `Verify` checks the token against: the one supplied in the
      parameters if any, with no lookup; otherwise the result of `getJWK`. */
  function SelectKey(params: VerifyParams, fetched: Result<seq<JsonWebKey>, string>, kid: string): (r: Result<JsonWebKey, JwkError>)
  {
    if params.jwk.Some? then Success(params.jwk.value) else GetJwk(fetched, kid)
  }

  const ClerkIssuerPrefix: string := "https://clerk."
  const ClerkAccountsMarker: string := ".clerk.accounts"

  /** `isValidIssuer`. */
  function IsValidIssuer(iss: string): (r: bool)
    ensures r <==> HasPrefix(iss, ClerkIssuerPrefix) || exists i :: OccursAt(iss, ClerkAccountsMarker, i)
  {
    HasPrefix(iss, ClerkIssuerPrefix) || Contains(iss, ClerkAccountsMarker)
  }

  /** The issuer that is checked: a set, non-empty proxy URL stands in for
      the token's own `iss` claim. */
  function EffectiveIssuer(proxyUrl: Option<string>, iss: string): (r: string)
  {
    if proxyUrl.Some? && proxyUrl.value != "" then proxyUrl.value else iss
  }

  /** The issuer step passes: satellites accept any issuer. */
  predicate IssuerAccepted(params: VerifyParams, claims: SessionClaims)
  {
    params.isSatellite || IsValidIssuer(EffectiveIssuer(params.proxyUrl, claims.standard.issuer))
  }

  /** The authorized-party step passes: an empty `azp` or an empty set is
      never checked. */
  predicate AuthorizedPartyAccepted(parties: set<string>, azp: string)
  {
    azp == "" || |parties| == 0 || azp in parties
  }

  /** The steps after the signature check, on the decoded claims: the clock
      (with `timeError` the library's verdict), the issuer and `azp`. */
  function CheckClaims(params: VerifyParams, claims: SessionClaims, timeError: Option<string>): (r: Result<SessionClaims, VerifyError>)
    ensures r.Success? <==>
      timeError.None? && IssuerAccepted(params, claims) && AuthorizedPartyAccepted(params.authorizedParties, claims.authorizedParty)
    ensures r.Success? ==> r.value == claims
    ensures timeError.Some? ==> r == Failure(TimeInvalid(timeError.value))
    ensures r.Failure? && r.error.InvalidIssuer? <==> timeError.None? && !IssuerAccepted(params, claims)
    ensures r.Failure? && r.error.InvalidIssuer? ==> r.error.issuer == EffectiveIssuer(params.proxyUrl, claims.standard.issuer)
    ensures r.Failure? && r.error.InvalidAuthorizedParty? <==>
      timeError.None? && IssuerAccepted(params, claims) &&
      claims.authorizedParty != "" && |params.authorizedParties| > 0 && claims.authorizedParty !in params.authorizedParties
    ensures r.Failure? && r.error.InvalidAuthorizedParty? ==> r.error.party == claims.authorizedParty
  {
    if timeError.Some? then Failure(TimeInvalid(timeError.value))
    else
      var iss := EffectiveIssuer(params.proxyUrl, claims.standard.issuer);
      if !params.isSatellite && !IsValidIssuer(iss) then Failure(InvalidIssuer(iss))
      else if claims.authorizedParty != "" && |params.authorizedParties| > 0 && claims.authorizedParty !in params.authorizedParties then
        Failure(InvalidAuthorizedParty(claims.authorizedParty))
      else Success(claims)
  }

  /** The checks on a parsed token, from the headers onwards. Only the first
      header is consulted. */
  function VerifyParsed(params: VerifyParams, token: ParsedToken, jose: Jose,
                        fetched: Result<seq<JsonWebKey>, string>, now: int): (r: Result<SessionClaims, VerifyError>)
    ensures |token.headers| == 0 <==> r == Failure(MissingHeaders)
    ensures |token.headers| > 0 ==> (token.headers[0].keyId == "" <==> r == Failure(MissingKid))
    ensures r.Failure? && r.error.GetJwkFailed? <==>
      |token.headers| > 0 && token.headers[0].keyId != "" &&
      SelectKey(params, fetched, token.headers[0].keyId).Failure?
    ensures r.Failure? && r.error.InvalidAlgorithm? <==>
      |token.headers| > 0 && token.headers[0].keyId != "" &&
      SelectKey(params, fetched, token.headers[0].keyId).Success? &&
      token.headers[0].algorithm != SelectKey(params, fetched, token.headers[0].keyId).value.algorithm
    ensures r.Failure? && r.error.GetJwkFailed? ==> r.error.cause == SelectKey(params, fetched, token.headers[0].keyId).error
    ensures (&& |token.headers| > 0 && token.headers[0].keyId != ""
             && SelectKey(params, fetched, token.headers[0].keyId).Success?
             && token.headers[0].algorithm == SelectKey(params, fetched, token.headers[0].keyId).value.algorithm) ==>
      var decoded := jose.verifiedClaims(token, SelectKey(params, fetched, token.headers[0].keyId).value);
      && (decoded.Failure? ==> r == Failure(ClaimsFailed(decoded.error)))
      && (decoded.Success? ==>
            r == CheckClaims(params, decoded.value, jose.validateWithLeeway(decoded.value.standard, now, params.leeway)))
  {
    if |token.headers| == 0 then Failure(MissingHeaders)
    else
      var kid := token.headers[0].keyId;
      if kid == "" then Failure(MissingKid)
      else
        match SelectKey(params, fetched, kid)
        case Failure(e) => Failure(GetJwkFailed(e))
        case Success(key) =>
          if token.headers[0].algorithm != key.algorithm then Failure(InvalidAlgorithm(key.algorithm))
          else
            match jose.verifiedClaims(token, key)
            case Failure(e) => Failure(ClaimsFailed(e))
            case Success(claims) =>
              CheckClaims(params, claims, jose.validateWithLeeway(claims.standard, now, params.leeway))
  }

  /** The accept condition of `Verify`, stated declaratively: the token
      parses, its first header names a key, the selected key has exactly the
      header's algorithm, the library accepts the signature yielding `claims`,
      the clock check passes, and the issuer and `azp` steps pass. */
  ghost predicate Accepted(params: VerifyParams, jose: Jose, fetched: Result<seq<JsonWebKey>, string>,
                           now: int, claims: SessionClaims)
  {
    var parsed := jose.parseSigned(params.token);
    && parsed.Success?
    && |parsed.value.headers| > 0
    && parsed.value.headers[0].keyId != ""
    && var key := SelectKey(params, fetched, parsed.value.headers[0].keyId);
       && key.Success?
       && parsed.value.headers[0].algorithm == key.value.algorithm
       && jose.verifiedClaims(parsed.value, key.value) == Success(claims)
       && jose.validateWithLeeway(claims.standard, now, params.leeway).None?
       && IssuerAccepted(params, claims)
       && AuthorizedPartyAccepted(params.authorizedParties, claims.authorizedParty)
  }

  /** `Verify`: parse the token, then run the checklist. `fetched` is what
      `jwks.Get` returns if it is called and `now` is the current time.
      Claims come back exactly when every step passes. */
  function Verify(params: VerifyParams, jose: Jose, fetched: Result<seq<JsonWebKey>, string>, now: int): (r: Result<SessionClaims, VerifyError>)
    ensures jose.parseSigned(params.token).Failure? ==> r == Failure(ParseFailed(jose.parseSigned(params.token).error))
    ensures r.Success? ==> Accepted(params, jose, fetched, now, r.value)
    ensures forall c :: Accepted(params, jose, fetched, now, c) ==> r == Success(c)
  {
    match jose.parseSigned(params.token)
    case Failure(e) => Failure(ParseFailed(e))
    case Success(token) => VerifyParsed(params, token, jose, fetched, now)
  }

  /** When a key is supplied, the key set is never looked at: the verdict
      is the same whatever the fetch would have returned. */
  lemma SuppliedKeySkipsFetch(params: VerifyParams, jose: Jose, fetched: Result<seq<JsonWebKey>, string>,
                              fetched': Result<seq<JsonWebKey>, string>, now: int)
    requires params.jwk.Some?
    ensures Verify(params, jose, fetched, now) == Verify(params, jose, fetched', now)
  {
  }

  /** Only the first header is consulted: two parsed tokens whose first
      headers agree, and which the library decodes alike, get the same
      verdict whatever their other headers. */
  lemma OnlyFirstHeaderConsulted(params: VerifyParams, t: ParsedToken, t': ParsedToken, jose: Jose,
                                 fetched: Result<seq<JsonWebKey>, string>, now: int)
    requires |t.headers| > 0 && |t'.headers| > 0 && t.headers[0] == t'.headers[0]
    requires forall k :: jose.verifiedClaims(t, k) == jose.verifiedClaims(t', k)
    ensures VerifyParsed(params, t, jose, fetched, now) == VerifyParsed(params, t', jose, fetched, now)
  {
  }

  /** A satellite domain accepts any issuer: `Verify` never rejects it for
      its issuer. */
  lemma SatelliteAcceptsAnyIssuer(params: VerifyParams, jose: Jose, fetched: Result<seq<JsonWebKey>, string>, now: int)
    requires params.isSatellite
    ensures var r := Verify(params, jose, fetched, now); !(r.Failure? && r.error.InvalidIssuer?)
  {
  }

  /** Off a satellite domain, a token that passes every earlier step is
      rejected exactly for an effective issuer outside the accepted
      pattern, and the error names that issuer. */
  lemma NonSatelliteChecksEffectiveIssuer(params: VerifyParams, jose: Jose, fetched: Result<seq<JsonWebKey>, string>,
                                          now: int, t: ParsedToken, key: JsonWebKey, c: SessionClaims)
    requires !params.isSatellite
    requires jose.parseSigned(params.token) == Success(t)
    requires |t.headers| > 0 && t.headers[0].keyId != ""
    requires SelectKey(params, fetched, t.headers[0].keyId) == Success(key)
    requires t.headers[0].algorithm == key.algorithm
    requires jose.verifiedClaims(t, key) == Success(c)
    requires jose.validateWithLeeway(c.standard, now, params.leeway).None?
    requires !IsValidIssuer(EffectiveIssuer(params.proxyUrl, c.standard.issuer))
    ensures Verify(params, jose, fetched, now) == Failure(InvalidIssuer(EffectiveIssuer(params.proxyUrl, c.standard.issuer)))
  {
  }

  /** Once the key and algorithm steps pass, the library's errors come back
      unchanged: a failed signature check or decoding as `ClaimsFailed`,
      a failed clock check as `TimeInvalid`, each with the library's own
      message. */
  lemma LibraryErrorsPassedOn(params: VerifyParams, jose: Jose, fetched: Result<seq<JsonWebKey>, string>,
                              now: int, t: ParsedToken, key: JsonWebKey)
    requires jose.parseSigned(params.token) == Success(t)
    requires |t.headers| > 0 && t.headers[0].keyId != ""
    requires SelectKey(params, fetched, t.headers[0].keyId) == Success(key)
    requires t.headers[0].algorithm == key.algorithm
    ensures jose.verifiedClaims(t, key).Failure? ==>
      Verify(params, jose, fetched, now) == Failure(ClaimsFailed(jose.verifiedClaims(t, key).error))
    ensures (jose.verifiedClaims(t, key).Success? &&
             jose.validateWithLeeway(jose.verifiedClaims(t, key).value.standard, now, params.leeway).Some?) ==>
      Verify(params, jose, fetched, now) ==
        Failure(TimeInvalid(jose.validateWithLeeway(jose.verifiedClaims(t, key).value.standard, now, params.leeway).value))
  {
  }

  /** An empty `azp` claim, or an empty authorized set, never causes a
      rejection for the authorized party. */
  lemma EmptyAuthorizedPartyPasses(params: VerifyParams, jose: Jose, fetched: Result<seq<JsonWebKey>, string>, now: int)
    requires |params.authorizedParties| == 0 || forall t, k :: jose.verifiedClaims(t, k).Success? ==> jose.verifiedClaims(t, k).value.authorizedParty == ""
    ensures var r := Verify(params, jose, fetched, now); !(r.Failure? && r.error.InvalidAuthorizedParty?)
  {
  }

  /** A token whose header algorithm differs from the selected key's is
      rejected, naming the key's algorithm. */
  lemma AlgorithmMismatchRejects(params: VerifyParams, jose: Jose, fetched: Result<seq<JsonWebKey>, string>,
                                 now: int, t: ParsedToken, key: JsonWebKey)
    requires jose.parseSigned(params.token) == Success(t)
    requires |t.headers| > 0 && t.headers[0].keyId != ""
    requires SelectKey(params, fetched, t.headers[0].keyId) == Success(key)
    requires t.headers[0].algorithm != key.algorithm
    ensures Verify(params, jose, fetched, now) == Failure(InvalidAlgorithm(key.algorithm))
  {
  }

  /** The registered claim names of section 4.1 of RFC 7519, in the order
      `Decode` deletes them. */
  const RegisteredClaimNames: seq<string> := ["iss", "sub", "aud", "exp", "nbf", "iat", "jti"]

  /** `Decode`: parse without verifying, decode all claims, then delete the
      registered names from the extra claims one by one. The extra claims
      keep every other name with its original value. */
  method Decode(token: string, jose: Jose) returns (r: Result<Claims, string>)
    ensures jose.parseSigned(token).Failure? ==> r == Failure(jose.parseSigned(token).error)
    ensures jose.parseSigned(token).Success? && jose.unsafeClaims(jose.parseSigned(token).value).Failure? ==>
      r == Failure(jose.unsafeClaims(jose.parseSigned(token).value).error)
    ensures r.Success? ==> (
      && jose.parseSigned(token).Success?
      && var raw := jose.unsafeClaims(jose.parseSigned(token).value);
         && raw.Success?
         && r.value.standard == raw.value.standard
         && (forall k :: k in r.value.extra <==> k in raw.value.extra && k !in RegisteredClaimNames)
         && (forall k :: k in r.value.extra ==> r.value.extra[k] == raw.value.extra[k]))
    ensures jose.parseSigned(token).Success? && jose.unsafeClaims(jose.parseSigned(token).value).Success? ==> r.Success?
  {
    var parsed := jose.parseSigned(token);
    if parsed.Failure? {
      return Failure(parsed.error);
    }
    var raw := jose.unsafeClaims(parsed.value);
    if raw.Failure? {
      return Failure(raw.error);
    }
    var extra := raw.value.extra;
    var i := 0;
    while i < |RegisteredClaimNames|
      invariant 0 <= i <= |RegisteredClaimNames|
      invariant forall k :: k in extra <==> k in raw.value.extra && k !in RegisteredClaimNames[..i]
      invariant forall k :: k in extra ==> extra[k] == raw.value.extra[k]
    {
      extra := extra - {RegisteredClaimNames[i]};
      assert RegisteredClaimNames[..i + 1] == RegisteredClaimNames[..i] + [RegisteredClaimNames[i]];
      i := i + 1;
    }
    assert RegisteredClaimNames[..i] == RegisteredClaimNames;
    return Success(Claims(raw.value.standard, extra));
  }
}
