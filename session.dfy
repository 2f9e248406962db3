/**
 * The token store: one shared mutable cell holding the bearer token of the
 * signed-in administrator, or nothing.
 */
module Session {
  import opened Common

  /** JavaScript's `!token` is false: a token is stored and it is not the empty string. */
  predicate HasToken(t: Option<string>)
  {
    t.Some? && t.value != ""
  }

  class TokenStore {
    var token: Option<string>

    constructor ()
      ensures token == None
    {
      token := None;
    }

    /** `getToken()`. */
    method GetToken() returns (t: Option<string>)
      ensures t == token
    {
      t := token;
    }

    /** `setToken(t)`: overwrites whatever was stored. */
    method SetToken(t: string)
      modifies this
      ensures token == Some(t)
    {
      token := Some(t);
    }

    /** `removeToken()`: idempotent. */
    method RemoveToken()
      modifies this
      ensures token == None
    {
      token := None;
    }
  }
}
