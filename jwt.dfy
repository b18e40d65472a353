/** Tokens, their claims, and the signature check of the JSON Web Token
    library, which this model treats as an uninterpreted oracle. */
module Jwt {
  import opened Wrappers

  /** The user profile embedded in an access token; `id` is its `_id`. */
  datatype User = User(id: string, profile: map<string, string>)

  /** The decoded payload of a token: access tokens carry `user`,
      refresh tokens carry `userId`; either may be absent. */
  datatype Claims = Claims(user: Option<User>, userId: Option<string>)

  /** Which of the two configured signing secrets a token is checked against. */
  datatype SecretKind = AccessSecret | RefreshSecret

  /** The library's verify call: the decoded claims when the token's
      signature (and expiry) check out under the given secret, None when
      the call rejects. Time is folded into the oracle. */
  type Verifier = (string, SecretKind) -> Option<Claims>

  /** A token as read from a header or a cookie: possibly absent. */
  type Token = Option<string>

  /** JavaScript truthiness of a token: neither absent nor the empty string. */
  predicate Present(token: Token)
  {
    token.Some? && token.value != ""
  }

  /** True when the token verifies under the given secret. */
  predicate Validates(jwt: Verifier, token: string, secret: SecretKind)
  {
    jwt(token, secret).Some?
  }
}
