/**
 * The session service `AuthService` (core/services/auth.service.ts). `localStorage` is a map from
 * keys to strings; the stored user is written by `EncodeUser`, a self-delimiting stand-in for
 * `JSON.stringify` whose decoder reads it back. Decoding the token's payload (`atob` and
 * `JSON.parse` of the second segment) is a function the caller supplies; `None` is a token that
 * fails to decode.
 */
module Session {
  import opened Wrappers
  import opened Strings

  const TokenKey := "jwt_token"
  const UserKey := "auth_user"

  /** A user object; either field may be `undefined` when it was derived from a token. */
  datatype User = User(id: Option<string>, username: Option<string>)

  /** The login response: the token and, optionally, a user, a user id and a user name. */
  datatype AuthResponse = AuthResponse(token: string, user: Option<User>, userId: Option<string>, username: Option<string>)

  /** The claims of a token payload that the service reads. */
  datatype Payload = Payload(sub: Option<string>, userId: Option<string>, id: Option<string>, username: Option<string>)

  /** What a token that cannot be decoded yields: `{}`. */
  const EmptyPayload := Payload(None, None, None, None)

  /** `POST <api>/users/login` with `{ email, password }`. */
  datatype LoginRequest = LoginRequest(url: string, email: string, password: string)

  function LoginRequestFor(api: string, email: string, password: string): LoginRequest {
    LoginRequest(api + "/users/login", email, password)
  }

  // ---------------------------------------------------------------- stored user text

  /** A field: `-` when undefined, otherwise `+<length>:<text>`. */
  function EncodeField(f: Option<string>): (s: string)
    ensures s != []
  {
    match f
    case None => "-"
    case Some(v) => "+" + NatToString(|v|) + ":" + v
  }

  /** `JSON.stringify(user)`. */
  function EncodeUser(u: User): (s: string)
    ensures s != []
  {
    EncodeField(u.id) + EncodeField(u.username)
  }

  /** The length of the longest prefix of decimal digits. */
  function DigitPrefix(s: string): (n: nat)
    ensures n <= |s|
  {
    if s == [] || !IsDigit(s[0]) then 0 else 1 + DigitPrefix(s[1..])
  }

  /** Reads one field off the front of `s` and returns it with what follows. */
  function DecodeField(s: string): Option<(Option<string>, string)> {
    if s == [] then None
    else if s[0] == '-' then Some((None, s[1..]))
    else if s[0] != '+' then None
    else
      var t := s[1..];
      var n := DigitPrefix(t);
      var rest := t[n..];
      if n == 0 || !AllDigits(t[..n]) || rest == [] || rest[0] != ':' then None
      else
        var len := DigitsValue(t[..n]);
        if |rest| - 1 < len then None
        else Some((Some(rest[1..1 + len]), rest[1 + len..]))
  }

  /** `JSON.parse` of a stored user; text that `EncodeUser` cannot have produced gives `None`. */
  function DecodeUser(s: string): Option<User> {
    match DecodeField(s)
    case None => None
    case Some((id, afterId)) =>
      match DecodeField(afterId)
      case None => None
      case Some((username, afterName)) => if afterName == [] then Some(User(id, username)) else None
  }

  lemma {:induction false} DigitPrefixOf(d: string, t: string)
    requires AllDigits(d) && t != [] && !IsDigit(t[0])
    ensures DigitPrefix(d + t) == |d|
  {
    if d != [] {
      assert (d + t)[1..] == d[1..] + t;
      DigitPrefixOf(d[1..], t);
    } else {
      assert d + t == t;
    }
  }

  /** A field reads back as itself and leaves the rest of the text untouched. */
  lemma DecodeEncodeField(f: Option<string>, rest: string)
    ensures DecodeField(EncodeField(f) + rest) == Some((f, rest))
  {
    if f.Some? {
      var v := f.value;
      var d := NatToString(|v|);
      var s := EncodeField(f) + rest;
      var t := s[1..];
      assert t == d + (":" + v + rest);
      DigitPrefixOf(d, ":" + v + rest);
      assert t[..|d|] == d;
      DigitsValueOfNat(|v|);
      var after := t[|d|..];
      assert after == ":" + v + rest;
      assert after[1..1 + |v|] == v;
      assert after[1 + |v|..] == rest;
    } else {
      assert (EncodeField(f) + rest)[1..] == rest;
    }
  }

  /** What `saveUser` writes, `getUser` reads back. */
  lemma UserRoundTrip(u: User)
    ensures DecodeUser(EncodeUser(u)) == Some(u)
  {
    DecodeEncodeField(u.id, EncodeField(u.username));
    assert EncodeField(u.username) == EncodeField(u.username) + [];
    DecodeEncodeField(u.username, []);
  }

  // ---------------------------------------------------------------- storage

  /** `!!localStorage.getItem(key)`: present and non-empty. */
  predicate HasItem(storage: map<string, string>, key: string) {
    key in storage && storage[key] != ""
  }

  /** `localStorage.getItem(key)`. */
  function GetItem(storage: map<string, string>, key: string): Option<string> {
    if key in storage then Some(storage[key]) else None
  }

  /** `getUser`: the stored user, when the stored text is non-empty. */
  function StoredUser(storage: map<string, string>): Option<User> {
    if HasItem(storage, UserKey) then DecodeUser(storage[UserKey]) else None
  }

  /** After `saveUser(u)` the stored user is `u`. */
  lemma SavedUserReadsBack(storage: map<string, string>, u: User)
    ensures StoredUser(storage[UserKey := EncodeUser(u)]) == Some(u)
  {
    UserRoundTrip(u);
  }

  /** Writing the token leaves the stored user as it was. */
  lemma TokenWriteKeepsUser(storage: map<string, string>, token: string)
    ensures StoredUser(storage[TokenKey := token]) == StoredUser(storage)
    ensures GetItem(storage[TokenKey := token], TokenKey) == Some(token)
  {
    assert TokenKey != UserKey;
    assert HasItem(storage[TokenKey := token], UserKey) == HasItem(storage, UserKey);
  }

  /** `logout` leaves neither a token nor a user, and keeps every other key. */
  lemma LogoutClears(storage: map<string, string>)
    ensures var after := storage - {TokenKey, UserKey};
      GetItem(after, TokenKey) == None && GetItem(after, UserKey) == None && StoredUser(after) == None &&
      forall k :: k in storage && k != TokenKey && k != UserKey ==> k in after && after[k] == storage[k]
  {
  }

  // ---------------------------------------------------------------- deriving the user

  /** `decodeTokenPayload`: a token that cannot be decoded gives `{}` instead of an exception. */
  function DecodePayload(decode: string -> Option<Payload>, token: string): (p: Payload)
    ensures decode(token).None? ==> p == EmptyPayload
    ensures decode(token).Some? ==> p == decode(token).value
  {
    decode(token).GetOr(EmptyPayload)
  }

  /** The user a token names: id `userId || id || sub`, name `username || sub`. */
  function TokenUser(p: Payload): (u: User)
    ensures Truthy(u.id) <==> Truthy(p.userId) || Truthy(p.id) || Truthy(p.sub)
    ensures Truthy(p.userId) ==> u.id == p.userId
    ensures !Truthy(p.userId) && Truthy(p.id) ==> u.id == p.id
    ensures !Truthy(p.userId) && !Truthy(p.id) ==> u.id == p.sub
    ensures Truthy(u.username) <==> Truthy(p.username) || Truthy(p.sub)
    ensures Truthy(p.username) ==> u.username == p.username
    ensures !Truthy(p.username) ==> u.username == p.sub
  {
    User(OrElse(OrElse(p.userId, p.id), p.sub), OrElse(p.username, p.sub))
  }

  /**
   * The user `login` derives: the response's user when it has one; otherwise, when it names a
   * user id, that id with the first truthy of the response's name, the token's subject and the
   * e-mail; otherwise the user the token names.
   */
  function DeriveUser(response: AuthResponse, email: string, payload: Payload): (u: User)
    ensures response.user.Some? ==> u == response.user.value
    ensures response.user.None? && Truthy(response.userId) ==>
      u.id == response.userId &&
      (Truthy(response.username) ==> u.username == response.username) &&
      (!Truthy(response.username) && Truthy(payload.sub) ==> u.username == payload.sub) &&
      (!Truthy(response.username) && !Truthy(payload.sub) ==> u.username == Some(email)) &&
      (Truthy(u.username) <==> Truthy(response.username) || Truthy(payload.sub) || email != "")
    ensures response.user.None? && !Truthy(response.userId) ==> u == TokenUser(payload)
  {
    if response.user.Some? then response.user.value
    else if Truthy(response.userId) then
      User(response.userId, OrElse(OrElse(response.username, payload.sub), Some(email)))
    else TokenUser(payload)
  }

  /** A token that cannot be decoded names no user, so nothing is saved for it. */
  lemma UndecodableTokenNamesNobody(decode: string -> Option<Payload>, token: string)
    requires decode(token).None?
    ensures !Truthy(TokenUser(DecodePayload(decode, token)).id)
  {
  }

  class AuthService {
    var storage: map<string, string>
    var isAuthenticated: bool
    var currentUser: Option<User>
    const decode: string -> Option<Payload>

    /** The current user is always the one the storage holds. */
    ghost predicate Valid()
      reads this
    {
      currentUser == StoredUser(storage)
    }

    /**
     * Construction: the flag starts as "a token is stored"; with a token but no stored user, the
     * user the token names is saved when it has an id.
     */
    constructor (initial: map<string, string>, decode: string -> Option<Payload>)
      ensures Valid() && this.decode == decode
      ensures isAuthenticated == HasItem(initial, TokenKey)
      ensures HasItem(initial, TokenKey) && StoredUser(initial).None? &&
              Truthy(TokenUser(DecodePayload(decode, initial[TokenKey])).id) ==>
                var u := TokenUser(DecodePayload(decode, initial[TokenKey]));
                currentUser == Some(u) && storage == initial[UserKey := EncodeUser(u)]
      ensures !(HasItem(initial, TokenKey) && StoredUser(initial).None? &&
                Truthy(TokenUser(DecodePayload(decode, initial[TokenKey])).id)) ==>
                storage == initial && currentUser == StoredUser(initial)
    {
      this.decode := decode;
      storage := initial;
      isAuthenticated := HasItem(initial, TokenKey);
      currentUser := StoredUser(initial);
      new;
      if HasItem(storage, TokenKey) && StoredUser(storage).None? {
        var token := GetToken();
        if Truthy(token) {
          ProcessToken(token.value);
        }
      }
    }

    /** `processToken`: save the user the token names, if it has an id. */
    method ProcessToken(token: string)
      requires Valid()
      modifies this`storage, this`currentUser
      ensures Valid()
      ensures var u := TokenUser(DecodePayload(decode, token));
        if Truthy(u.id) then storage == old(storage)[UserKey := EncodeUser(u)] && currentUser == Some(u)
        else storage == old(storage) && currentUser == old(currentUser)
    {
      var user := TokenUser(DecodePayload(decode, token));
      if Truthy(user.id) {
        SaveUser(user);
      }
    }

    /** `saveUser`: storage and current user together. */
    method SaveUser(user: User)
      modifies this`storage, this`currentUser
      ensures storage == old(storage)[UserKey := EncodeUser(user)] && currentUser == Some(user)
      ensures Valid()
    {
      storage := storage[UserKey := EncodeUser(user)];
      currentUser := Some(user);
      SavedUserReadsBack(old(storage), user);
    }

    /**
     * The `tap` of `login`: store the token, derive the user and save it when its id is truthy,
     * then mark the session authenticated.
     */
    method OnLoginResponse(response: AuthResponse, email: string)
      requires Valid()
      modifies this`storage, this`currentUser, this`isAuthenticated
      ensures Valid() && isAuthenticated
      ensures GetToken() == Some(response.token)
      ensures var u := DeriveUser(response, email, DecodePayload(decode, response.token));
        if Truthy(u.id) then currentUser == Some(u) && storage == old(storage)[TokenKey := response.token][UserKey := EncodeUser(u)]
        else currentUser == old(currentUser) && storage == old(storage)[TokenKey := response.token]
    {
      TokenWriteKeepsUser(storage, response.token);
      storage := storage[TokenKey := response.token];
      var user := DeriveUser(response, email, DecodePayload(decode, response.token));
      if Truthy(user.id) {
        SaveUser(user);
      }
      isAuthenticated := true;
    }

    /** `getToken`. */
    function GetToken(): (t: Option<string>)
      reads this
      ensures t.Some? <==> TokenKey in storage
      ensures t.Some? ==> t.value == storage[TokenKey]
    {
      GetItem(storage, TokenKey)
    }

    /** `getUserId`: the current user's id, or null without a user. */
    function GetUserId(): (id: Option<string>)
      reads this
      ensures currentUser.None? ==> id.None?
      ensures currentUser.Some? ==> id == currentUser.value.id
    {
      match currentUser
      case None => None
      case Some(u) => u.id
    }

    /** `logout`: both keys are removed, the session is unauthenticated and has no user. */
    method Logout()
      requires Valid()
      modifies this`storage, this`currentUser, this`isAuthenticated
      ensures Valid()
      ensures storage == old(storage) - {TokenKey, UserKey}
      ensures !isAuthenticated && currentUser == None && GetToken() == None
    {
      storage := storage - {TokenKey, UserKey};
      LogoutClears(old(storage));
      isAuthenticated := false;
      currentUser := None;
    }
  }
}
