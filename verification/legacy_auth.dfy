/**
 * The older, token-only `AuthService` (auth/auth.service.ts): the same storage key as the session
 * service, but no user.
 */
module LegacySession {
  import opened Wrappers
  import opened Session

  /** `POST <api>/users/login` with `{ username, password }`. */
  datatype LegacyLoginRequest = LegacyLoginRequest(url: string, username: string, password: string)

  function LegacyLoginRequestFor(api: string, username: string, password: string): LegacyLoginRequest {
    LegacyLoginRequest(api + "/users/login", username, password)
  }

  /** Logging in and then out leaves the storage without a token and with every other key as before. */
  lemma LoginLogoutForgetsToken(storage: map<string, string>, token: string)
    ensures var after := storage[TokenKey := token] - {TokenKey};
      GetItem(after, TokenKey) == None && !HasItem(after, TokenKey) &&
      forall k :: k in storage && k != TokenKey ==> k in after && after[k] == storage[k]
  {
  }

  class LegacyAuthService {
    var storage: map<string, string>
    var isAuthenticated: bool

    /** The flag starts as "a non-empty token is stored". */
    constructor (initial: map<string, string>)
      ensures storage == initial
      ensures isAuthenticated <==> HasItem(initial, TokenKey)
    {
      storage := initial;
      isAuthenticated := HasItem(initial, TokenKey);
    }

    /** The `tap` of `login`: store the response's token and mark the session authenticated. */
    method OnLoginResponse(token: string)
      modifies this`storage, this`isAuthenticated
      ensures storage == old(storage)[TokenKey := token] && isAuthenticated
      ensures GetToken() == Some(token)
    {
      storage := storage[TokenKey := token];
      isAuthenticated := true;
    }

    /** `getToken`: exactly what is stored under the token key, or nothing. */
    function GetToken(): (t: Option<string>)
      reads this
      ensures t.Some? <==> TokenKey in storage
      ensures t.Some? ==> t.value == storage[TokenKey]
    {
      GetItem(storage, TokenKey)
    }

    /** `logout`: remove the token and mark the session unauthenticated; other keys stay. */
    method Logout()
      modifies this`storage, this`isAuthenticated
      ensures storage == old(storage) - {TokenKey} && !isAuthenticated
      ensures GetToken() == None
    {
      storage := storage - {TokenKey};
      isAuthenticated := false;
    }
  }
}
