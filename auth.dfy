/** Access-token verification, best-effort revocation (sign-out) and the
    check chain of the refresh endpoint. Each operation is a method that
    queries the DenyList store step by step, proved equal to a function
    that states the ordered chain of checks; the lemmas below state what
    that chain guarantees. */
module Auth {
  import opened Wrappers
  import opened Jwt
  import opened DenyStore

  /** The errors `verify` raises. All but UserClaimMissing are
      Unauthorized errors; the message of each is in its comment. */
  datatype VerifyError =
    | AccessTokenMissing                           // "Access token missing"
    | AccessTokenDenied(accessToken: string)       // "Access token is in deny list"
    | AccessTokenInvalid(accessToken: string)      // "Access token is invalid"
    | UserDenied(accessToken: string, user: User)  // "User is in deny list"
      /** A token that verifies but has no `user` claim: reading `_id` of
          undefined throws a TypeError, which is not an Unauthorized error. */
    | UserClaimMissing

  /** The Unauthorized errors of the refresh check chain. */
  datatype RefreshError =
    | RefreshTokenMissing                          // "Refresh token missing"
    | RefreshTokenDenied(token: string)            // "Token is in deny list"
    | RefreshTokenInvalid(token: string)           // "Invalid token"

  /** What a successful verification yields. */
  datatype UserToken = UserToken(user: User, accessToken: string)

  /** One query to the store or to the signature oracle. */
  datatype Check =
    | JwtDenyListLookup(token: string)
    | SignatureCheck(token: string, secret: SecretKind)
    | UserDenyListLookup(userId: string)

  // ---------------------------------------------------------------------
  // Verification of an access token

  /** The ordered chain of checks of `verify`: presence, token deny list,
      signature under the access secret, user deny list. */
  function VerifyChain(deniedJwts: set<string>, deniedUsers: set<string>, jwt: Verifier, accessToken: Token)
    : Result<UserToken, VerifyError>
  {
    if !Present(accessToken) then Err(AccessTokenMissing)
    else
      var t := accessToken.value;
      if t in deniedJwts then Err(AccessTokenDenied(t))
      else match jwt(t, AccessSecret)
        case None => Err(AccessTokenInvalid(t))
        case Some(claims) =>
          match claims.user
          case None => Err(UserClaimMissing)
          case Some(u) => if u.id in deniedUsers then Err(UserDenied(t, u)) else Ok(UserToken(u, t))
  }

  /** The user an access token carries, if it verifies and has one. */
  function DecodedUser(jwt: Verifier, token: string): Option<User>
  {
    match jwt(token, AccessSecret)
    case None => None
    case Some(claims) => claims.user
  }

  /** Order-free statement of when an access token is accepted. */
  predicate Authenticated(deniedJwts: set<string>, deniedUsers: set<string>, jwt: Verifier, accessToken: Token)
  {
    Present(accessToken)
    && accessToken.value !in deniedJwts
    && DecodedUser(jwt, accessToken.value).Some?
    && DecodedUser(jwt, accessToken.value).value.id !in deniedUsers
  }

  /** `verify`: the queries of the chain, issued one at a time against the
      store; `checks` records the queries issued, in order. */
  method Verify(store: DenyList, jwt: Verifier, accessToken: Token)
    returns (r: Result<UserToken, VerifyError>, ghost checks: seq<Check>)
    ensures r == VerifyChain(store.jwts, store.users, jwt, accessToken)
    ensures r == Err(AccessTokenMissing) <==> checks == []
    ensures r.Err? && r.error.AccessTokenDenied? ==> checks == [JwtDenyListLookup(accessToken.value)]
    ensures r.Err? && (r.error.AccessTokenInvalid? || r.error.UserClaimMissing?) ==>
      checks == [JwtDenyListLookup(accessToken.value), SignatureCheck(accessToken.value, AccessSecret)]
    ensures r.Err? && r.error.UserDenied? ==>
      checks == [JwtDenyListLookup(accessToken.value), SignatureCheck(accessToken.value, AccessSecret),
                 UserDenyListLookup(r.error.user.id)]
    ensures r.Ok? ==>
      checks == [JwtDenyListLookup(accessToken.value), SignatureCheck(accessToken.value, AccessSecret),
                 UserDenyListLookup(r.value.user.id)]
  {
    checks := [];
    if !Present(accessToken) {
      return Err(AccessTokenMissing), checks;
    }
    var t := accessToken.value;
    var isInDenyListJWT := store.IsInDenyListJWT(t);
    checks := checks + [JwtDenyListLookup(t)];
    if isInDenyListJWT {
      return Err(AccessTokenDenied(t)), checks;
    }
    var payload := jwt(t, AccessSecret);
    checks := checks + [SignatureCheck(t, AccessSecret)];
    if payload.None? {
      return Err(AccessTokenInvalid(t)), checks;
    }
    if payload.value.user.None? {
      return Err(UserClaimMissing), checks;
    }
    var user := payload.value.user.value;
    var isInDenyUserList := store.IsInDenyListUserId(user.id);
    checks := checks + [UserDenyListLookup(user.id)];
    if isInDenyUserList {
      return Err(UserDenied(t, user)), checks;
    }
    r := Ok(UserToken(user, t));
  }

  /** A missing or empty token is refused as missing, whatever the deny
      lists hold and whatever the oracle says. */
  lemma MissingTokenRefused(jwts1: set<string>, users1: set<string>, jwt1: Verifier,
                            jwts2: set<string>, users2: set<string>, jwt2: Verifier, accessToken: Token)
    requires !Present(accessToken)
    ensures VerifyChain(jwts1, users1, jwt1, accessToken) == Err(AccessTokenMissing)
    ensures VerifyChain(jwts1, users1, jwt1, accessToken) == VerifyChain(jwts2, users2, jwt2, accessToken)
  {
  }

  /** A denied token is refused as denied whether or not its signature is
      valid: the signature oracle is not consulted. */
  lemma DeniedTokenRefusedBeforeSignature(deniedJwts: set<string>, users1: set<string>, jwt1: Verifier,
                                          users2: set<string>, jwt2: Verifier, accessToken: Token)
    requires Present(accessToken) && accessToken.value in deniedJwts
    ensures VerifyChain(deniedJwts, users1, jwt1, accessToken) == Err(AccessTokenDenied(accessToken.value))
    ensures VerifyChain(deniedJwts, users1, jwt1, accessToken) == VerifyChain(deniedJwts, users2, jwt2, accessToken)
  {
  }

  /** A token whose signature fails is refused as invalid, and the user
      deny list plays no part. */
  lemma InvalidSignatureIgnoresUserDenyList(deniedJwts: set<string>, users1: set<string>, users2: set<string>,
                                            jwt: Verifier, accessToken: Token)
    requires Present(accessToken) && accessToken.value !in deniedJwts
    requires !Validates(jwt, accessToken.value, AccessSecret)
    ensures VerifyChain(deniedJwts, users1, jwt, accessToken) == Err(AccessTokenInvalid(accessToken.value))
    ensures VerifyChain(deniedJwts, users2, jwt, accessToken) == Err(AccessTokenInvalid(accessToken.value))
  {
  }

  /** A valid, undenied token whose subject is on the user deny list is
      refused: denying a user revokes every token issued to them. */
  lemma DeniedUserRefused(deniedJwts: set<string>, deniedUsers: set<string>, jwt: Verifier, accessToken: Token)
    requires Present(accessToken) && accessToken.value !in deniedJwts
    requires DecodedUser(jwt, accessToken.value).Some?
    requires DecodedUser(jwt, accessToken.value).value.id in deniedUsers
    ensures VerifyChain(deniedJwts, deniedUsers, jwt, accessToken)
         == Err(UserDenied(accessToken.value, DecodedUser(jwt, accessToken.value).value))
  {
  }

  /** Verification succeeds exactly when the token is authenticated, and
      then yields the embedded user and the token itself, unchanged. */
  lemma VerifySucceedsIffAuthenticated(deniedJwts: set<string>, deniedUsers: set<string>, jwt: Verifier,
                                       accessToken: Token)
    ensures VerifyChain(deniedJwts, deniedUsers, jwt, accessToken).Ok?
        <==> Authenticated(deniedJwts, deniedUsers, jwt, accessToken)
    ensures VerifyChain(deniedJwts, deniedUsers, jwt, accessToken).Ok? ==>
      VerifyChain(deniedJwts, deniedUsers, jwt, accessToken).value
        == UserToken(DecodedUser(jwt, accessToken.value).value, accessToken.value)
  {
  }

  /** Growing either deny list never lets a refused token through, and
      leaves the result of an accepted token unchanged. */
  lemma DenyingMoreNeverGrants(jwts1: set<string>, users1: set<string>, jwts2: set<string>, users2: set<string>,
                               jwt: Verifier, accessToken: Token)
    requires jwts1 <= jwts2 && users1 <= users2
    ensures VerifyChain(jwts2, users2, jwt, accessToken).Ok? ==>
      VerifyChain(jwts1, users1, jwt, accessToken) == VerifyChain(jwts2, users2, jwt, accessToken)
  {
  }

  // ---------------------------------------------------------------------
  // Revocation

  /** The token deny list after a best-effort revocation: the token is
      added only when it is present and verifies under its own secret. */
  function Revoke(deniedJwts: set<string>, jwt: Verifier, token: Token, secret: SecretKind): set<string>
  {
    if Present(token) && Validates(jwt, token.value, secret) then deniedJwts + {token.value} else deniedJwts
  }

  /** `removeAccessToken`: a failed signature check is swallowed and
      leaves the store as it was. */
  method RemoveAccessToken(store: DenyList, jwt: Verifier, accessToken: Token)
    modifies store
    ensures store.jwts == Revoke(old(store.jwts), jwt, accessToken, AccessSecret)
    ensures store.users == old(store.users)
  {
    if Present(accessToken) {
      var payload := jwt(accessToken.value, AccessSecret);
      if payload.Some? {
        store.PushDenyListJWT(accessToken.value);
      }
    }
  }

  /** `removeRefreshToken`: as RemoveAccessToken, under the refresh secret. */
  method RemoveRefreshToken(store: DenyList, jwt: Verifier, refreshToken: Token)
    modifies store
    ensures store.jwts == Revoke(old(store.jwts), jwt, refreshToken, RefreshSecret)
    ensures store.users == old(store.users)
  {
    if Present(refreshToken) {
      var payload := jwt(refreshToken.value, RefreshSecret);
      if payload.Some? {
        store.PushDenyListJWT(refreshToken.value);
      }
    }
  }

  /** `signout`: both revocations, one after the other. It has no error
      result: sign-out never fails. */
  method Signout(store: DenyList, jwt: Verifier, accessToken: Token, refreshToken: Token)
    modifies store
    ensures store.jwts == Revoke(Revoke(old(store.jwts), jwt, accessToken, AccessSecret), jwt, refreshToken, RefreshSecret)
    ensures store.users == old(store.users)
  {
    RemoveAccessToken(store, jwt, accessToken);
    RemoveRefreshToken(store, jwt, refreshToken);
  }

  /** Revocation adds the token when it is present and valid under the
      given secret, and no other token; nothing is ever removed. */
  lemma RevokeAddsOnlyTheValidToken(deniedJwts: set<string>, jwt: Verifier, token: Token, secret: SecretKind,
                                    other: string)
    ensures deniedJwts <= Revoke(deniedJwts, jwt, token, secret)
    ensures other in Revoke(deniedJwts, jwt, token, secret) <==>
      other in deniedJwts || (Present(token) && other == token.value && Validates(jwt, other, secret))
  {
  }

  /** The two revocations of sign-out commute, so the un-awaited calls of
      the source reach the same store in either order. */
  lemma RevocationsCommute(deniedJwts: set<string>, jwt: Verifier, a: Token, sa: SecretKind, b: Token, sb: SecretKind)
    ensures Revoke(Revoke(deniedJwts, jwt, a, sa), jwt, b, sb) == Revoke(Revoke(deniedJwts, jwt, b, sb), jwt, a, sa)
  {
  }

  /** Revoking a token twice is the same as revoking it once. */
  lemma RevokeIdempotent(deniedJwts: set<string>, jwt: Verifier, token: Token, secret: SecretKind)
    ensures Revoke(Revoke(deniedJwts, jwt, token, secret), jwt, token, secret) == Revoke(deniedJwts, jwt, token, secret)
  {
  }

  // ---------------------------------------------------------------------
  // Refresh

  /** The check chain of `refresh`: presence, token deny list, signature
      under the refresh secret; it yields the `userId` claim (possibly
      absent). The user deny list is not consulted. */
  function RefreshChain(deniedJwts: set<string>, jwt: Verifier, refreshToken: Token): Result<Option<string>, RefreshError>
  {
    if !Present(refreshToken) then Err(RefreshTokenMissing)
    else
      var t := refreshToken.value;
      if t in deniedJwts then Err(RefreshTokenDenied(t))
      else match jwt(t, RefreshSecret)
        case None => Err(RefreshTokenInvalid(t))
        case Some(claims) => Ok(claims.userId)
  }

  /** The check chain of `refresh`, against the store; `checks` records the
      queries issued, in order. */
  method Refresh(store: DenyList, jwt: Verifier, refreshToken: Token)
    returns (r: Result<Option<string>, RefreshError>, ghost checks: seq<Check>)
    ensures r == RefreshChain(store.jwts, jwt, refreshToken)
    ensures r == Err(RefreshTokenMissing) <==> checks == []
    ensures r.Err? && r.error.RefreshTokenDenied? ==> checks == [JwtDenyListLookup(refreshToken.value)]
    ensures r.Ok? || (r.Err? && r.error.RefreshTokenInvalid?) ==>
      checks == [JwtDenyListLookup(refreshToken.value), SignatureCheck(refreshToken.value, RefreshSecret)]
  {
    checks := [];
    if !Present(refreshToken) {
      return Err(RefreshTokenMissing), checks;
    }
    var t := refreshToken.value;
    var denyToken := store.IsInDenyListJWT(t);
    checks := checks + [JwtDenyListLookup(t)];
    if denyToken {
      return Err(RefreshTokenDenied(t)), checks;
    }
    var payload := jwt(t, RefreshSecret);
    checks := checks + [SignatureCheck(t, RefreshSecret)];
    if payload.None? {
      return Err(RefreshTokenInvalid(t)), checks;
    }
    r := Ok(payload.value.userId);
  }

  /** Refresh succeeds exactly when the token is present, not denied and
      valid under the refresh secret, and then yields its `userId` claim;
      the errors come in the order of the checks: missing, denied, invalid. */
  lemma RefreshSucceedsIffValid(deniedJwts: set<string>, jwt: Verifier, refreshToken: Token)
    ensures !Present(refreshToken) ==> RefreshChain(deniedJwts, jwt, refreshToken) == Err(RefreshTokenMissing)
    ensures Present(refreshToken) && refreshToken.value in deniedJwts ==>
      RefreshChain(deniedJwts, jwt, refreshToken) == Err(RefreshTokenDenied(refreshToken.value))
    ensures Present(refreshToken) && refreshToken.value !in deniedJwts
            && !Validates(jwt, refreshToken.value, RefreshSecret) ==>
      RefreshChain(deniedJwts, jwt, refreshToken) == Err(RefreshTokenInvalid(refreshToken.value))
    ensures RefreshChain(deniedJwts, jwt, refreshToken).Ok? <==>
      Present(refreshToken) && refreshToken.value !in deniedJwts && Validates(jwt, refreshToken.value, RefreshSecret)
    ensures RefreshChain(deniedJwts, jwt, refreshToken).Ok? ==>
      RefreshChain(deniedJwts, jwt, refreshToken).value == jwt(refreshToken.value, RefreshSecret).value.userId
  {
  }

  // ---------------------------------------------------------------------
  // Sign-out followed by reuse

  /** After a valid access token is revoked, verifying it fails with the
      deny-list error. */
  lemma RevokedAccessTokenDenied(deniedJwts: set<string>, deniedUsers: set<string>, jwt: Verifier, accessToken: Token)
    requires Present(accessToken) && Validates(jwt, accessToken.value, AccessSecret)
    ensures VerifyChain(Revoke(deniedJwts, jwt, accessToken, AccessSecret), deniedUsers, jwt, accessToken)
         == Err(AccessTokenDenied(accessToken.value))
  {
  }

  /** After sign-out, the access token (when it was valid) can no longer be
      verified and the refresh token (when it was valid) can no longer
      refresh. */
  lemma SignoutDeniesReuse(deniedJwts: set<string>, deniedUsers: set<string>, jwt: Verifier,
                           accessToken: Token, refreshToken: Token)
    ensures var after := Revoke(Revoke(deniedJwts, jwt, accessToken, AccessSecret), jwt, refreshToken, RefreshSecret);
      (Present(accessToken) && Validates(jwt, accessToken.value, AccessSecret) ==>
         VerifyChain(after, deniedUsers, jwt, accessToken) == Err(AccessTokenDenied(accessToken.value)))
      && (Present(refreshToken) && Validates(jwt, refreshToken.value, RefreshSecret) ==>
         RefreshChain(after, jwt, refreshToken) == Err(RefreshTokenDenied(refreshToken.value)))
  {
  }

  /** A scenario on the store itself: sign out, then present the same
      access token again. */
  method SignoutThenReuse(store: DenyList, jwt: Verifier, accessToken: Token, refreshToken: Token)
    returns (r: Result<UserToken, VerifyError>)
    requires Present(accessToken) && Validates(jwt, accessToken.value, AccessSecret)
    modifies store
    ensures r == Err(AccessTokenDenied(accessToken.value))
  {
    Signout(store, jwt, accessToken, refreshToken);
    ghost var checks;
    r, checks := Verify(store, jwt, accessToken);
  }
}
