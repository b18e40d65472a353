/** The revocation store: the two deny lists the gateway keeps in its
    key-value store, one of token strings and one of user ids. */
module DenyStore {

  class DenyList {
    /** Denied token strings (access and refresh tokens alike). */
    var jwts: set<string>
    /** Denied user ids. */
    var users: set<string>

    constructor (deniedJwts: set<string>, deniedUsers: set<string>)
      ensures jwts == deniedJwts && users == deniedUsers
    {
      jwts := deniedJwts;
      users := deniedUsers;
    }

    /** Adds a token to the token deny list. */
    method PushDenyListJWT(token: string)
      modifies this
      ensures jwts == old(jwts) + {token}
      ensures users == old(users)
    {
      jwts := jwts + {token};
    }

    /** Whether a token is on the token deny list. */
    method IsInDenyListJWT(token: string) returns (denied: bool)
      ensures denied <==> token in jwts
    {
      denied := token in jwts;
    }

    /** Whether a user id is on the user deny list. */
    method IsInDenyListUserId(userId: string) returns (denied: bool)
      ensures denied <==> userId in users
    {
      denied := userId in users;
    }
  }
}
