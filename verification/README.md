# Credential logic of trackit-server's `users` package

A Dafny model of `users/auth.go`: how the server mints the claim set of a JSON Web
Token (RFC 7519) for a user, signs it with HS256 (section 3.2 of RFC 7518), refuses
tokens whose declared algorithm is not HMAC (the algorithm-substitution defence of
section 3.1 of RFC 8725), checks issuer, `nbf` and `exp` against the clock, and resolves
an accepted token to a user through the storage layer.

Two modules:

- `Jwt` (`jwt.dfy`) is an idealised model of the parts of the jwt-go library the
  file calls. It covers the registry of signing methods, `SignedString`, and the order
  of the checks in `ParseWithClaims`: decode, resolve the method, call the key function,
  then run the claims' own `Valid()` and the signature check. Signatures are symbolic
  terms `Signed(key, alg, claims)`, so a signature verifies only under the key,
  algorithm and claims it was made from. This is an unforgeable MAC, not HMAC-SHA256.
- `Auth` (`auth.dfy`) models `users/auth.go` itself. The globals that `init` writes
  once become the immutable value `Config`. Each `time.Now().Unix()` reading becomes
  an integer parameter: `t1` and `t2` for the two readings in `generateToken`, and
  `now` for the one in `areClaimsValid`. `GetUserWithId` becomes the function parameter
  `getUserWithId: int -> Reply`, where `Reply` is Go's `(User, error)` pair.

The model does not assume `t1 <= t2`, because the wall clock may step back between the
two readings. `MintedWindowOrdered` states exactly when the minted window is non-empty.

`TestToken` shows something about the code as written. Once jwt-go's parser has run, the
"Failed to read token." branch is never taken. A token that `ParseWithClaims` returns
without error always has claims of the requested type and is always marked valid. This
is a defensive branch, not a fault.

Three points about the code that the model keeps as they are:

- `testToken` reports a wrong issuer, a token not yet valid and an expired token as the
  one error `ClaimsInvalid` ("Claims are invalid.", users/auth.go:86). `Classify` is a
  refinement the model adds on top of that, and `TestToken` does not use it.
- jwt-go runs its own claim check and the signature check together and reports both in
  one `ValidationError`. `areClaimsValid` runs after that (users/auth.go:79-82).
- `generateToken` reads the clock twice (users/auth.go:51-52), once for `nbf` and once
  for `exp`.

## Model

| member | source | states |
|---|---|---|
| `Jwt.MethodFor` | users/auth.go:61 | the method a header `alg` names carries that name; it is of the HMAC family exactly for HS256, HS384 and HS512; "none" resolves to the unsecured method |
| `Jwt.Sign` | users/auth.go:55 | a signed token declares the signing method's name and carries the claims it was given |
| `Jwt.Verifies` | users/auth.go:79 | a signature verifies only if it was made with the given key over the given claims; the "none" method and raw signature bytes never verify |
| `Jwt.Unverified` | users/auth.go:79 | the token passed to the key function exists exactly when the wire token decodes and names a registered method; it carries the wire's `alg` and claims and is not yet valid |
| `Jwt.ParseWithClaims` | users/auth.go:79 | parsing succeeds exactly when the token decodes, names a known method, the key function yields a key, the signature verifies under that key and the claims pass their own check; success returns the token marked valid; a key-function error is returned wrapped as it is; decode failures are `Malformed` or `MethodUnavailable` |
| `Jwt.SignThenParse` | users/auth.go:79 | a token signed with a method and key parses back to its claims, marked valid, when the key function returns that key |
| `Auth.MintClaims` | users/auth.go:49-54 | minted claims carry the configured issuer, `sub` = the user's id, `nbf` one hour before the first clock reading and `exp` sixty days after the second |
| `Auth.GenerateToken` | users/auth.go:48-56 | the generated token declares HS256 (an HMAC algorithm), carries the minted claims and is signed with the configured secret |
| `Auth.MintedWindowOrdered` | users/auth.go:51-52 | `nbf < exp` holds exactly when the first reading is less than 60 days and 1 hour after the second; in particular whenever `t1 <= t2` |
| `Auth.AreClaimsValid` | users/auth.go:70-73 | claims are valid at the clock reading `now` when the issuer is the configured one, `nbf <= now` and `now < exp`; so a valid claim set always has the configured issuer and `nbf < exp` |
| `Auth.ForeignIssuerNeverValid` | users/auth.go:72 | claims from another issuer are invalid at every instant |
| `Auth.ValidityBoundaries` | users/auth.go:72 | `now == nbf` and `now == exp - 1` are accepted; `now == nbf - 1` and `now == exp` are rejected |
| `Auth.ValidInstants` | users/auth.go:70-73 | the set of instants at which a claim set is valid holds exactly the instants `areClaimsValid` accepts |
| `Auth.ValidityPeriod` | users/auth.go:72 | claims of the configured issuer with `nbf < exp` are valid for exactly `exp - nbf` seconds; any other claims are valid for none |
| `Auth.MintedValidity` | users/auth.go:49-73 | minted claims are valid at `now` iff `t1 - 3600 <= now < t2 + 5184000`, which includes every instant between the two readings |
| `Auth.MintedValidityPeriod` | users/auth.go:51-52 | with `t1 <= t2`, a minted token is valid for exactly `3600 + 5184000 + (t2 - t1)` seconds |
| `Auth.Classify` | users/auth.go:86 | refinement added by the model: the verdict is `Current` iff the claims are valid, `WrongIssuer` iff the issuer differs, `NotYetValid` only before `nbf`, `Expired` only at or after `exp` |
| `Auth.GetTokenSigningKey` | users/auth.go:60-66 | returns the secret iff the token's method is of the HMAC family; otherwise returns no key and an error naming the header's `alg` |
| `Auth.TestParsed` | users/auth.go:80-92 | calls the lookup with the token's subject and returns its reply unchanged exactly when parsing succeeded, the claims have the right type, the token is valid and the claims are valid; otherwise returns the zero user with the parse error, "Failed to read token." or "Claims are invalid.", in that order |
| `Auth.LookupOnlyWhenAccepted` | users/auth.go:82-91 | outside the accepted case, the result is the same whatever the lookup does; the lookup is not called |
| `Auth.LookupSeesSubjectOnly` | users/auth.go:83-84 | in the accepted case, the result depends on the lookup only at the token's subject |
| `Auth.TestToken` | users/auth.go:77-93 | the lookup's reply for the token's subject is returned iff the token decodes, declares an HMAC algorithm, is signed with the configured secret over its own claims, passes the library's claim check and has valid claims; otherwise the zero user and an error other than "Failed to read token." |
| `Auth.AlgorithmSubstitutionRejected` | users/auth.go:60-66 | a token declaring any registered non-HMAC method, "none" included, is refused with "Unexpected signing method" whatever its signature |
| `Auth.ForeignSecretRejected` | users/auth.go:79-89 | a token signed under a different secret is refused by the signature check with the zero user |
| `Auth.IssueThenVerify` | users/auth.go:48-93 | within the minted window, verifying a freshly generated token returns the lookup's reply for the user's id |
| `Auth.TokenLifecycle` | users/auth.go:48-93 | a token for user 42 issued at T is accepted at T + 30 days; it is refused as "Claims are invalid." at T + 61 days, where the refinement classifies it as expired; a copy with an altered subject is refused by the signature check at T + 1 s |

## Left out

- Password hashing (`getPasswordHash`, `passwordMatchesHash`, users/auth.go:28-36): these are single calls into bcrypt, whose algorithm is not part of this model. `Config.hashCost` is carried but not used.
- Cryptography and encodings: HMAC-SHA256, base64url and JSON are replaced by the symbolic signature and by `None` and `Garbled` for parts that fail to decode.
- `StandardClaims.Valid()`, which `ParseWithClaims` runs on the embedded standard claims, is the parameter `libraryCheck`. Its behaviour depends on library and `encoding/json` details outside this model.
- `SignedString`'s error result: with a byte-slice key, HS256 signing does not fail, so `GenerateToken` returns only the token.
- Configuration loading in `init`, the wall clock and the database handle `db.Db` are I/O. They are replaced by `Config`, integer timestamps and the `getUserWithId` parameter.
- Integer widths: `nbf`, `exp` and Unix times are `int64`, and `sub` is a Go `int`. The model uses unbounded integers, because Unix seconds within the next billions of years do not overflow.
- Error texts: errors are told apart by variant, not by message string.
- Signing methods registered at run time are not modelled. The registry is the fixed jwt-go set.
- Jwt.ParseWithClaims: jwt-go's RSA, RSA-PSS and ECDSA verification use public keys; here every non-"none" method verifies symbolically against the key it was given. This matters only if the key function hands out a key for those methods, which `GetTokenSigningKey` never does.
