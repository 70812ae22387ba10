/**
 * An idealised model of the part of the jwt-go library (github.com/dgrijalva/jwt-go)
 * that users/auth.go relies on: the registry of signing methods, signing a claim set,
 * and the order of the checks that ParseWithClaims performs.
 *
 * Cryptography is symbolic: a signature is the term Signed(key, alg, claims), so it
 * verifies against exactly the key, algorithm name and claims it was made from (an
 * unforgeable MAC). Base64url and JSON encoding are not modelled; a token that cannot
 * be split or decoded is `Garbled`, or carries `None` where a part failed to decode.
 */
module Jwt {

  datatype Option<+T> = None | Some(value: T)

  datatype Result<+T, +E> = Success(value: T) | Failure(error: E)

  /** The Go type that implements a signing method; the key function of users/auth.go
      inspects only this. */
  datatype Family = Hmac | Rsa | RsaPss | Ecdsa | Unsecured

  datatype SigningMethod = SigningMethod(family: Family, alg: string)

  const HS256 := SigningMethod(Hmac, "HS256")

  /** The algorithm names of the HMAC family. */
  const HmacAlgorithms: set<string> := {"HS256", "HS384", "HS512"}

  /** The methods jwt-go registers under their "alg" header names (GetSigningMethod). */
  function MethodFor(alg: string): (m: Option<SigningMethod>)
    ensures m.Some? ==> m.value.alg == alg
    ensures m.Some? && m.value.family == Hmac <==> alg in HmacAlgorithms
    ensures alg == "none" ==> m == Some(SigningMethod(Unsecured, "none"))
  {
    if alg in HmacAlgorithms then Some(SigningMethod(Hmac, alg))
    else if alg in {"RS256", "RS384", "RS512"} then Some(SigningMethod(Rsa, alg))
    else if alg in {"PS256", "PS384", "PS512"} then Some(SigningMethod(RsaPss, alg))
    else if alg in {"ES256", "ES384", "ES512"} then Some(SigningMethod(Ecdsa, alg))
    else if alg == "none" then Some(SigningMethod(Unsecured, alg))
    else None
  }

  /** A signature segment: either one produced by signing, or arbitrary bytes. */
  datatype Signature<C> = Signed(key: seq<bv8>, alg: string, claims: C) | Raw(bytes: seq<bv8>)

  /** A token as it arrives on the wire. `alg` is None when the header has no string
      "alg" entry; `claims` is None when the payload does not decode into the claims type. */
  datatype Wire<C> =
    | Garbled
    | Compact(alg: Option<string>, claims: Option<C>, signature: Signature<C>)

  /** The parsed token handed to the key function and back to the caller. `claims` is
      None when they are not of the type the caller asked for. */
  datatype Token<C> = Token(alg: string, signingMethod: SigningMethod, claims: Option<C>, valid: bool)

  /** jwt-go's ValidationError, one variant per family of error bits; `E` is the type
      of the errors the caller's key function returns. */
  datatype ValidationError<E> =
    | Malformed
    | MethodUnavailable
    | KeyRejected(inner: E)
    | Invalid(signatureInvalid: bool, claimsInvalid: bool)

  /** Token.SignedString: the compact form of a claim set signed with `key`. */
  function Sign<C>(sm: SigningMethod, key: seq<bv8>, claims: C): (w: Wire<C>)
    ensures w.Compact? && w.alg == Some(sm.alg) && w.claims == Some(claims)
  {
    Compact(Some(sm.alg), Some(claims), Signed(key, sm.alg, claims))
  }

  /** SigningMethod.Verify with a byte-slice key. The "none" method refuses every
      byte-slice key, so it never verifies. */
  predicate Verifies<C(==)>(sm: SigningMethod, key: seq<bv8>, alg: string, claims: C, sig: Signature<C>)
    ensures Verifies(sm, key, alg, claims, sig) ==> sig.Signed? && sig.key == key && sig.claims == claims
    ensures sm.family == Unsecured || sig.Raw? ==> !Verifies(sm, key, alg, claims, sig)
  {
    sm.family != Unsecured && sig == Signed(key, alg, claims)
  }

  /** The token as the key function sees it: decoded, its signing method resolved,
      not yet verified. None when decoding or resolving the method fails. */
  function Unverified<C>(w: Wire<C>): (t: Option<Token<C>>)
    ensures t.Some? ==> w.Compact? && w.alg == Some(t.value.alg) && t.value.claims == w.claims
    ensures t.Some? ==> MethodFor(t.value.alg) == Some(t.value.signingMethod) && !t.value.valid
    ensures t.None? <==> w.Garbled? || w.claims.None? || w.alg.None? || MethodFor(w.alg.value).None?
  {
    if w.Compact? && w.claims.Some? && w.alg.Some? && MethodFor(w.alg.value).Some? then
      Some(Token(w.alg.value, MethodFor(w.alg.value).value, w.claims, false))
    else None
  }

  /**
   * ParseWithClaims: decode, resolve the signing method, ask the key function for the
   * key, then check the claims' own Valid() (`claimsValid`) and the signature. The
   * token comes back only when both checks pass, and it is then marked valid.
   */
  function ParseWithClaims<C(==), E>(w: Wire<C>, keyFunc: Token<C> -> Result<seq<bv8>, E>, claimsValid: C -> bool)
    : (r: Result<Token<C>, ValidationError<E>>)
    ensures Unverified(w).None? ==> r.Failure? && (r.error.Malformed? || r.error.MethodUnavailable?)
    ensures r.Success? <==>
      Unverified(w).Some? && keyFunc(Unverified(w).value).Success?
      && Verifies(Unverified(w).value.signingMethod, keyFunc(Unverified(w).value).value,
                  w.alg.value, w.claims.value, w.signature)
      && claimsValid(w.claims.value)
    ensures r.Success? ==> r.value == Unverified(w).value.(valid := true)
    ensures Unverified(w).Some? && keyFunc(Unverified(w).value).Failure? ==>
      r == Failure(KeyRejected(keyFunc(Unverified(w).value).error))
    ensures r.Failure? && r.error.KeyRejected? ==>
      Unverified(w).Some? && keyFunc(Unverified(w).value).Failure?
    ensures r.Failure? && r.error.Invalid? ==> r.error.signatureInvalid || r.error.claimsInvalid
  {
    match w
    case Garbled => Failure(Malformed)
    case Compact(alg, claims, sig) =>
      if claims.None? then Failure(Malformed)
      else if alg.None? || MethodFor(alg.value).None? then Failure(MethodUnavailable)
      else
        var unverified := Token(alg.value, MethodFor(alg.value).value, claims, false);
        match keyFunc(unverified)
        case Failure(e) => Failure(KeyRejected(e))
        case Success(key) =>
          var signatureInvalid := !Verifies(unverified.signingMethod, key, alg.value, claims.value, sig);
          var claimsInvalid := !claimsValid(claims.value);
          if signatureInvalid || claimsInvalid then Failure(Invalid(signatureInvalid, claimsInvalid))
          else Success(unverified.(valid := true))
  }

  /** What ParseWithClaims does with a token it signed itself: parsing gives the
      claims back, provided the key function returns the signing key. */
  lemma SignThenParse<C, E>(sm: SigningMethod, key: seq<bv8>, claims: C,
                            keyFunc: Token<C> -> Result<seq<bv8>, E>, claimsValid: C -> bool)
    requires sm.family != Unsecured && MethodFor(sm.alg) == Some(sm)
    requires keyFunc(Token(sm.alg, sm, Some(claims), false)) == Success(key)
    requires claimsValid(claims)
    ensures ParseWithClaims(Sign(sm, key, claims), keyFunc, claimsValid)
            == Success(Token(sm.alg, sm, Some(claims), true))
  {
  }
}
