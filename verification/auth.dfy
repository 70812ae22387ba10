/**
 * The credential logic of users/auth.go: minting the claim set of a JSON Web Token
 * (RFC 7519), the HMAC-only key function that guards against algorithm substitution
 * (section 3.1 of RFC 8725), the claim-validity check, and the decision chain that
 * turns an incoming token into a user.
 *
 * The package globals written once by `init` become the immutable value `Config`.
 * Every reading of the wall clock becomes a parameter holding its Unix time in seconds,
 * and the user lookup of the storage layer becomes a function parameter.
 */
module Auth {
  import opened Jwt

  /** How far `nbf` is backdated from the minting instant: one hour. */
  const GraceSeconds: int := 3600

  /** How far `exp` lies after the minting instant: sixty days. */
  const LifetimeSeconds: int := 60 * 24 * 3600

  /** The configuration `init` loads once: bcrypt cost, JWT issuer and JWT secret. */
  datatype Config = Config(hashCost: nat, issuer: string, secret: seq<bv8>)

  /** A user record. Only the identifier matters here; the other columns are opaque. */
  datatype User = User(id: int, attributes: string)

  /** Go's zero value of User, returned alongside every error of the verifier. */
  const ZeroUser := User(0, "")

  /** jwtClaims: iss, nbf, exp (Unix seconds) and sub (the user id). */
  datatype Claims = Claims(issuer: string, notBefore: int, expires: int, subject: int)

  /** The error of the key function: "Unexpected signing method: <alg>." */
  datatype KeyError = UnexpectedSigningMethod(alg: string)

  /** The errors `testToken` can return. */
  datatype Error =
    | TokenRejected(cause: ValidationError<KeyError>)  // returned by ParseWithClaims as it is
    | FailedToRead                                     // "Failed to read token."
    | ClaimsInvalid                                    // "Claims are invalid."
    | Storage(reason: string)                          // an error of the user lookup

  /** Go's (User, error) pair. */
  datatype Reply = Reply(user: User, err: Option<Error>)

  // ---------------------------------------------------------------------------------
  // Minting

  /** The claim literal of generateToken; `t1` and `t2` are the two readings of the clock. */
  function MintClaims(cfg: Config, user: User, t1: int, t2: int): (c: Claims)
    ensures c.issuer == cfg.issuer && c.subject == user.id
    ensures c.notBefore == t1 - GraceSeconds && c.expires == t2 + LifetimeSeconds
  {
    Claims(cfg.issuer, t1 - 1 * 3600, t2 + 60 * 24 * 3600, user.id)
  }

  /** generateToken: the minted claims, signed with HS256 under the configured secret. */
  function GenerateToken(cfg: Config, user: User, t1: int, t2: int): (w: Wire<Claims>)
    ensures w.Compact? && w.alg == Some("HS256") && w.alg.value in HmacAlgorithms
    ensures w.claims == Some(MintClaims(cfg, user, t1, t2))
    ensures w.signature == Signed(cfg.secret, "HS256", MintClaims(cfg, user, t1, t2))
  {
    Sign(HS256, cfg.secret, MintClaims(cfg, user, t1, t2))
  }

  /** The minted window is non-empty exactly when the second clock reading is not more
      than the grace period plus the lifetime behind the first; in particular when the
      clock did not step back between the readings. */
  lemma MintedWindowOrdered(cfg: Config, user: User, t1: int, t2: int)
    ensures var c := MintClaims(cfg, user, t1, t2);
      c.notBefore < c.expires <==> t1 - t2 < GraceSeconds + LifetimeSeconds
    ensures t1 <= t2 ==> MintClaims(cfg, user, t1, t2).notBefore < MintClaims(cfg, user, t1, t2).expires
  {
  }

  // ---------------------------------------------------------------------------------
  // Claim validity

  /** areClaimsValid, with `now` the Unix time read inside it. */
  predicate AreClaimsValid(cfg: Config, c: Claims, now: int)
    ensures AreClaimsValid(cfg, c, now) ==> c.issuer == cfg.issuer && c.notBefore < c.expires
  {
    c.issuer == cfg.issuer && c.notBefore <= now && now < c.expires
  }

  /** A claim set with a foreign issuer is never valid, whatever its timestamps. */
  lemma ForeignIssuerNeverValid(cfg: Config, c: Claims, now: int)
    requires c.issuer != cfg.issuer
    ensures !AreClaimsValid(cfg, c, now)
  {
  }

  /** The window is half open: `nbf` itself is accepted, `exp` itself is rejected, and
      so is the second before `nbf`. */
  lemma ValidityBoundaries(cfg: Config, c: Claims)
    requires c.issuer == cfg.issuer && c.notBefore < c.expires
    ensures AreClaimsValid(cfg, c, c.notBefore) && AreClaimsValid(cfg, c, c.expires - 1)
    ensures !AreClaimsValid(cfg, c, c.notBefore - 1) && !AreClaimsValid(cfg, c, c.expires)
  {
  }

  /** The instants at which a claim set is valid. */
  function ValidInstants(cfg: Config, c: Claims): (s: set<int>)
    ensures forall now :: now in s <==> AreClaimsValid(cfg, c, now)
  {
    set now: int | c.notBefore <= now < c.expires && AreClaimsValid(cfg, c, now)
  }

  /** A claim set of the configured issuer is valid for exactly `exp - nbf` seconds,
      and any other claim set for none. */
  lemma {:induction false} ValidityPeriod(cfg: Config, c: Claims)
    ensures |ValidInstants(cfg, c)| ==
      if c.issuer == cfg.issuer && c.notBefore < c.expires then c.expires - c.notBefore else 0
    decreases c.expires - c.notBefore
  {
    if c.issuer == cfg.issuer && c.notBefore < c.expires {
      // Peel off the last valid second, exp - 1.
      var shorter := c.(expires := c.expires - 1);
      ValidityPeriod(cfg, shorter);
      assert ValidInstants(cfg, c) == ValidInstants(cfg, shorter) + {c.expires - 1};
    } else {
      assert ValidInstants(cfg, c) == {};
    }
  }

  /** A freshly minted claim set is valid exactly from one hour before the first clock
      reading up to (excluding) sixty days after the second, which includes the minting
      instants themselves. */
  lemma MintedValidity(cfg: Config, user: User, t1: int, t2: int, now: int)
    ensures AreClaimsValid(cfg, MintClaims(cfg, user, t1, t2), now)
            <==> t1 - GraceSeconds <= now < t2 + LifetimeSeconds
    ensures t1 <= t2 && t1 <= now <= t2 ==> AreClaimsValid(cfg, MintClaims(cfg, user, t1, t2), now)
  {
  }

  /** A token minted with both clock readings equal is valid for sixty days and one
      hour, counted in seconds; each second between the readings adds one more. */
  lemma MintedValidityPeriod(cfg: Config, user: User, t1: int, t2: int)
    requires t1 <= t2
    ensures |ValidInstants(cfg, MintClaims(cfg, user, t1, t2))| == GraceSeconds + LifetimeSeconds + (t2 - t1)
  {
    ValidityPeriod(cfg, MintClaims(cfg, user, t1, t2));
  }

  /** Why a claim set is invalid. This split is a refinement added by the model:
      users/auth.go reports all three causes as the single error "Claims are invalid.". */
  datatype Verdict = Current | WrongIssuer | NotYetValid | Expired

  /** Classifies a claim set, checking the issuer first, then `nbf`, then `exp`. */
  function Classify(cfg: Config, c: Claims, now: int): (v: Verdict)
    ensures v == Current <==> AreClaimsValid(cfg, c, now)
    ensures v == WrongIssuer <==> c.issuer != cfg.issuer
    ensures v == NotYetValid ==> now < c.notBefore
    ensures v == Expired ==> c.notBefore <= now && c.expires <= now
  {
    if c.issuer != cfg.issuer then WrongIssuer
    else if now < c.notBefore then NotYetValid
    else if c.expires <= now then Expired
    else Current
  }

  // ---------------------------------------------------------------------------------
  // Key function

  /** getTokenSigningKey: the secret for a token whose method is of the HMAC family,
      an error naming the header's "alg" for any other. */
  function GetTokenSigningKey(cfg: Config, t: Token<Claims>): (r: Result<seq<bv8>, KeyError>)
    ensures r.Success? <==> t.signingMethod.family == Hmac
    ensures r.Success? ==> r.value == cfg.secret
    ensures r.Failure? ==> r.error == UnexpectedSigningMethod(t.alg)
  {
    if t.signingMethod.family != Hmac then Failure(UnexpectedSigningMethod(t.alg))
    else Success(cfg.secret)
  }

  // ---------------------------------------------------------------------------------
  // Verification

  /** The condition under which testToken consults the user lookup. */
  predicate Accepted(cfg: Config, parsed: Result<Token<Claims>, ValidationError<KeyError>>, now: int)
  {
    parsed.Success? && parsed.value.claims.Some? && parsed.value.valid
    && AreClaimsValid(cfg, parsed.value.claims.value, now)
  }

  /** The decision chain of testToken once ParseWithClaims has returned `parsed`. */
  function TestParsed(cfg: Config, parsed: Result<Token<Claims>, ValidationError<KeyError>>, now: int,
                      getUserWithId: int -> Reply): (r: Reply)
    ensures Accepted(cfg, parsed, now) ==> r == getUserWithId(parsed.value.claims.value.subject)
    ensures !Accepted(cfg, parsed, now) ==> r.user == ZeroUser && r.err.Some?
    ensures parsed.Failure? ==> r.err == Some(TokenRejected(parsed.error))
    ensures parsed.Success? && (parsed.value.claims.None? || !parsed.value.valid) ==> r.err == Some(FailedToRead)
    ensures (parsed.Success? && parsed.value.claims.Some? && parsed.value.valid
             && !AreClaimsValid(cfg, parsed.value.claims.value, now)) ==> r.err == Some(ClaimsInvalid)
  {
    match parsed
    case Failure(e) => Reply(ZeroUser, Some(TokenRejected(e)))
    case Success(token) =>
      if token.claims.Some? && token.valid then
        if AreClaimsValid(cfg, token.claims.value, now) then
          getUserWithId(token.claims.value.subject)
        else Reply(ZeroUser, Some(ClaimsInvalid))
      else Reply(ZeroUser, Some(FailedToRead))
  }

  /** Outside the accepted case the result does not depend on the lookup at all: the
      lookup is not called. */
  lemma LookupOnlyWhenAccepted(cfg: Config, parsed: Result<Token<Claims>, ValidationError<KeyError>>, now: int,
                               lookup1: int -> Reply, lookup2: int -> Reply)
    requires !Accepted(cfg, parsed, now)
    ensures TestParsed(cfg, parsed, now, lookup1) == TestParsed(cfg, parsed, now, lookup2)
  {
  }

  /** In the accepted case the result depends on the lookup only at the token's subject. */
  lemma LookupSeesSubjectOnly(cfg: Config, parsed: Result<Token<Claims>, ValidationError<KeyError>>, now: int,
                              lookup1: int -> Reply, lookup2: int -> Reply)
    requires Accepted(cfg, parsed, now)
    requires lookup1(parsed.value.claims.value.subject) == lookup2(parsed.value.claims.value.subject)
    ensures TestParsed(cfg, parsed, now, lookup1) == TestParsed(cfg, parsed, now, lookup2)
  {
  }

  /** A token the verifier authenticates: it decodes, declares an HMAC algorithm, carries
      the signature of its own header and claims under the configured secret, passes
      the library's own claim check and has currently valid claims. */
  predicate Authentic(cfg: Config, w: Wire<Claims>, libraryCheck: Claims -> bool, now: int)
  {
    w.Compact? && w.alg.Some? && w.claims.Some?
    && w.alg.value in HmacAlgorithms
    && w.signature == Signed(cfg.secret, w.alg.value, w.claims.value)
    && libraryCheck(w.claims.value)
    && AreClaimsValid(cfg, w.claims.value, now)
  }

  /** testToken: parse with the key function, then run the decision chain. The
      library's own claim check (StandardClaims.Valid) is the parameter `libraryCheck`. */
  function TestToken(cfg: Config, w: Wire<Claims>, libraryCheck: Claims -> bool, now: int,
                     getUserWithId: int -> Reply): (r: Reply)
    ensures Authentic(cfg, w, libraryCheck, now) ==> r == getUserWithId(w.claims.value.subject)
    ensures !Authentic(cfg, w, libraryCheck, now) ==>
      r.user == ZeroUser && r.err.Some? && r.err != Some(FailedToRead)
  {
    TestParsed(cfg, ParseWithClaims(w, t => GetTokenSigningKey(cfg, t), libraryCheck), now, getUserWithId)
  }

  /** A token declaring a method outside the HMAC family ("none" included) is refused by
      the key function, before any signature is looked at. */
  lemma AlgorithmSubstitutionRejected(cfg: Config, alg: string, claims: Claims, sig: Signature<Claims>,
                                      libraryCheck: Claims -> bool, now: int, getUserWithId: int -> Reply)
    requires MethodFor(alg).Some? && alg !in HmacAlgorithms
    ensures TestToken(cfg, Compact(Some(alg), Some(claims), sig), libraryCheck, now, getUserWithId)
            == Reply(ZeroUser, Some(TokenRejected(KeyRejected(UnexpectedSigningMethod(alg)))))
  {
  }

  /** A token signed under any other secret fails the signature check. */
  lemma ForeignSecretRejected(cfg: Config, key: seq<bv8>, alg: string, claims: Claims,
                              libraryCheck: Claims -> bool, now: int, getUserWithId: int -> Reply)
    requires key != cfg.secret && alg in HmacAlgorithms
    ensures var r := TestToken(cfg, Compact(Some(alg), Some(claims), Signed(key, alg, claims)),
                               libraryCheck, now, getUserWithId);
      r.user == ZeroUser && r.err.Some? && r.err.value.TokenRejected?
      && r.err.value.cause.Invalid? && r.err.value.cause.signatureInvalid
  {
  }

  /** Issuing then verifying: while the minted window lasts, the verifier hands the
      subject of a freshly generated token to the lookup and returns its answer. */
  lemma IssueThenVerify(cfg: Config, user: User, t1: int, t2: int, now: int,
                        libraryCheck: Claims -> bool, getUserWithId: int -> Reply)
    requires t1 - GraceSeconds <= now < t2 + LifetimeSeconds
    requires libraryCheck(MintClaims(cfg, user, t1, t2))
    ensures TestToken(cfg, GenerateToken(cfg, user, t1, t2), libraryCheck, now, getUserWithId)
            == getUserWithId(user.id)
  {
    MintedValidity(cfg, user, t1, t2, now);
  }

  /** A token issued for user 42 at time T: accepted thirty days later, refused as
      expired sixty-one days later, and a copy whose subject was altered is refused by
      the signature check one second later. */
  lemma TokenLifecycle(cfg: Config, attributes: string, T: int,
                       libraryCheck: Claims -> bool, getUserWithId: int -> Reply)
    requires libraryCheck(MintClaims(cfg, User(42, attributes), T, T))
    ensures var w := GenerateToken(cfg, User(42, attributes), T, T);
      TestToken(cfg, w, libraryCheck, T + 30 * 24 * 3600, getUserWithId) == getUserWithId(42)
    ensures var w := GenerateToken(cfg, User(42, attributes), T, T);
      TestToken(cfg, w, libraryCheck, T + 61 * 24 * 3600, getUserWithId) == Reply(ZeroUser, Some(ClaimsInvalid))
      && Classify(cfg, w.claims.value, T + 61 * 24 * 3600) == Expired
    ensures var w := GenerateToken(cfg, User(42, attributes), T, T);
      var forged := w.(claims := Some(w.claims.value.(subject := 1)));
      var r := TestToken(cfg, forged, libraryCheck, T + 1, getUserWithId);
      r.err.Some? && r.err.value.TokenRejected? && r.err.value.cause.Invalid?
      && r.err.value.cause.signatureInvalid
  {
    IssueThenVerify(cfg, User(42, attributes), T, T, T + 30 * 24 * 3600, libraryCheck, getUserWithId);
  }
}
