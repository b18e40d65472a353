# Token gating and membership checks of an API gateway

This project models the authentication core of an API gateway that sits in
front of an identity service and a device-management service
(`src/auth.js`). Four operations are modelled:

- `verify` checks an access token. The checks run in a fixed order: the
  token is present, it is not on the token deny list, its signature is
  valid under the access secret, and its subject is not on the user deny
  list.
- `removeAccessToken`, `removeRefreshToken` and `signout` revoke tokens.
  Revocation is best effort: a token goes onto the deny list only when it
  is present and verifies under its own secret.
- `refresh` runs the check chain for a refresh token.
- `findMemberIndex`, `getMember` and `checkRoleNeeded` search an
  organization's member list and check the member's status and role.

Modules:

- `Wrappers` (wrappers.dfy): Option, Result, Outcome.
- `Jwt` (jwt.dfy): the token library. Signature verification is an
  uninterpreted oracle `Verifier = (string, SecretKind) -> Option<Claims>`.
  A token is `Option<string>`. `Present` is JavaScript truthiness: the
  token is neither absent nor `""`.
- `DenyStore` (deny_list.dfy): the revocation store. It is a class
  `DenyList` with two set fields, `jwts` (denied tokens) and `users`
  (denied user ids), and the three store operations the source calls.
- `Auth` (auth.dfy): the first three operations above as methods. Each method
  queries the store one step at a time. Each is proved equal to a function
  that states the ordered check chain (`VerifyChain`, `Revoke`,
  `RefreshChain`). `Verify` and `Refresh` also return a ghost trace of the
  queries they issued. The trace shows which checks a failing call never
  reached.
- `Membership` (membership.dfy): the member search and role check, as
  pure functions.

The store client, the token library's secrets and the clock are
parameters: the `DenyList` object and the `Verifier` function.

## Model

| member | source | states |
|---|---|---|
| DenyStore.DenyList.constructor | src/auth.js:6 | the store starts with the given two deny lists |
| DenyStore.DenyList.PushDenyListJWT | src/auth.js:46 | the token is added to the token deny list; the user deny list is unchanged |
| DenyStore.DenyList.IsInDenyListJWT | src/auth.js:68 | true exactly when the token is on the token deny list |
| DenyStore.DenyList.IsInDenyListUserId | src/auth.js:79 | true exactly when the user id is on the user deny list |
| Auth.Verify | src/auth.js:66-83 | the result equals the ordered check chain on the current store. A missing token issues no query. A denied token issues only the deny-list lookup. An invalid signature never reaches the user deny list. Success issues all three queries |
| Auth.MissingTokenRefused | src/auth.js:67 | an absent or empty token fails with "Access token missing", whatever the deny lists and the oracle hold |
| Auth.DeniedTokenRefusedBeforeSignature | src/auth.js:68-69 | a token on the deny list fails with the deny-list error, whatever its signature and the user deny list |
| Auth.InvalidSignatureIgnoresUserDenyList | src/auth.js:72-77 | an undenied token that fails the signature check fails as invalid, whatever the user deny list holds |
| Auth.DeniedUserRefused | src/auth.js:78-80 | a valid, undenied token whose `user._id` is on the user deny list fails with "User is in deny list" |
| Auth.VerifySucceedsIffAuthenticated | src/auth.js:66-81 | verification succeeds exactly when all four conditions hold, stated order-free. It then returns the embedded user and the token unchanged |
| Auth.DenyingMoreNeverGrants | src/auth.js:68-80 | growing either deny list never turns a refusal into an acceptance. An accepted token's result stays the same |
| Auth.RemoveAccessToken | src/auth.js:42-49 | the token deny list gains the token exactly when it is present and valid under the access secret; nothing else changes; no error escapes |
| Auth.RemoveRefreshToken | src/auth.js:51-58 | the same, under the refresh secret |
| Auth.Signout | src/auth.js:60-63 | both revocations, in sequence; the user deny list is unchanged; there is no failure result |
| Auth.RevokeAddsOnlyTheValidToken | src/auth.js:42-58 | revocation removes nothing. It adds the presented token when that token is valid under the given secret, and no other token |
| Auth.RevocationsCommute | src/auth.js:60-63 | the two revocations give the same store in either order |
| Auth.RevokeIdempotent | src/auth.js:42-49 | revoking a token twice equals revoking it once |
| Auth.Refresh | src/auth.js:108-128 | the result equals the refresh check chain on the current store. A missing token issues no query. A denied token issues only the deny-list lookup |
| Auth.RefreshSucceedsIffValid | src/auth.js:112-123 | the errors come in order: missing, then denied, then invalid ("Invalid token" for a present, undenied token that fails the refresh-secret check). Refresh succeeds exactly when the token is present, undenied and valid under the refresh secret, and then yields `payload.userId` |
| Auth.RevokedAccessTokenDenied | src/auth.js:42-69 | after a valid access token is revoked, verifying it fails with the deny-list error |
| Auth.SignoutDeniesReuse | src/auth.js:60-69 | after sign-out, the valid access token fails verification as denied. The valid refresh token fails refresh as denied |
| Auth.SignoutThenReuse | src/auth.js:60-83 | the same scenario run against the store object: sign out, then verify the access token; the result is the deny-list error |
| Membership.FindMemberIndex | src/auth.js:35-40 | -1 exactly when no member has the user id. Otherwise it is the first index whose member has that id |
| Membership.GetMember | src/auth.js:27-33 | MemberError exactly when the caller is not a member. Otherwise it is the member at the first matching index |
| Membership.CheckRoleNeeded | src/auth.js:21-25 | passes exactly when the caller's first entry is ACTIVE and its role is at most the needed role. Otherwise it fails with MemberError, MemberStatusError or RoleError, in that order |
| Membership.FirstEntryDecides | src/auth.js:21-38 | when the caller's first entry is not ACTIVE, a later ACTIVE entry does not help |
| Membership.CheckRoleNeededAsWritten | src/auth.js:21-25 | the code as written never passes. It fails with MemberError exactly when the caller is not a member, and with a ReferenceError on `MemberStatusEnum` exactly when the caller is a member |
| Membership.CheckRoleNeededAsWrittenRefusesActiveMember | src/auth.js:23 | an ACTIVE member with a sufficient role passes the intended check but gets a ReferenceError from the code as written |

## Left out

- JWT cryptography and expiry are an uninterpreted oracle. The library is
  called with the option key `algorithm`, not `algorithms`
  (src/auth.js:45, 54, 73, 117). So the source does not pin the signing
  algorithm. The model claims nothing about algorithm pinning, although a
  fixed algorithm is a stated design goal.
- Time is folded into the oracle: one `Verifier` stands for one moment.
  So the model cannot state that a token expires between sign-out and
  reuse.
- The deny lists are plain sets. The store client (`redisClient`) is not
  part of this model, so its key layout, its per-entry time-to-live and
  its connection failures are not modelled. A store error would propagate
  out of `verify` and `refresh`. In the remove functions it would be
  swallowed.
- User ids are strings. How the store treats an undefined `user._id` is
  not modelled.
- `signout` does not await its two calls (src/auth.js:61-62). The model
  runs them one after the other; `RevocationsCommute` shows the order does
  not matter to the final store. What the model does not capture is the
  window this opens: `logout` can answer 200 (src/auth.js:101-102) before
  either `pushDenyListJWT` (src/auth.js:46, 55) has completed, and nothing
  makes a later `verify` (src/auth.js:68) wait for those writes. So a
  signed-out access token can still be accepted for a short time.
  `Auth.Signout`, `Auth.SignoutDeniesReuse` and `Auth.SignoutThenReuse`
  describe the store only after both writes have landed.
- Express wrappers are left out: `verifyAccessToken`, `logout`, the
  `req`/`res`/`next` handling of `refresh`, `getToken` and the header
  writes at src/auth.js:89 and 119. They only move values in and out of
  the request.
- Auth.Refresh: the inner `try` also encloses the call to `next()`
  (src/auth.js:120). Whether anything can reach the catch at
  src/auth.js:121-122 through `next()` depends on framework code that is
  not shown, so the model does not include that call.
- Non-string token values are not modelled. A token is a string or
  absent, but the cookie parser (src/app.js:11) can turn a cookie value
  that starts with `j:` into an object, a number or a boolean, which
  `cookies?.jwt` (src/auth.js:110) would then hold.
- Membership.Member: `userId` holds the string form of the member's user
  reference. `toString` itself is not modelled.
- Membership.CheckRoleNeeded: the status enum and the role ordering are
  not defined in the source. The model uses an `Active` status and
  numeric roles where lower is stronger, matching `member.role > roleNeeded`.
- Logging is not modelled: the `console.log` calls in the catch blocks
  that swallow revocation errors (src/auth.js:47, 56) have no effect on
  the deny lists or on any result.
- src/api-gateway.js, src/app.js and src/index.js are route
  registration, CORS, proxying, logging and bootstrap: framework
  plumbing.
- No shown file contains the organization mapping cache, path rewriting
  or the provisioning workflow, so they are not part of this model.

## Findings

| source | as written | input that shows it | evidently intended | confidence | as-written member | corrected member |
|---|---|---|---|---|---|---|
| src/auth.js:23-24 | `MemberStatusEnum` and `RoleError` are used but never declared or imported, so evaluating the status test throws a ReferenceError | an organization whose only member is the caller, ACTIVE, role 0, with roleNeeded 0 | the check passes an ACTIVE member with a sufficient role, and raises MemberStatusError or RoleError otherwise | not executed; high, because neither name is declared or imported in the file | Membership.CheckRoleNeededAsWritten | Membership.CheckRoleNeeded |
