/**
 * The authentication service: the bearer token and the user and role
 * decoded from it, kept in browser storage (a map from the fixed keys
 * below) and mirrored in the `isLoggedIn`, `currentUser`, `currentRole`,
 * `loading` and `error` fields. The clock is the `now` argument (in
 * milliseconds), and base-64 plus JSON decoding of the token's payload is
 * the uninterpreted `decodePayload` function.
 */
module Auth {
  import opened Wrappers
  import opened Http
  import opened Strings

  const TokenKey := "auth_token"
  const UserKey := "user_data"
  const RoleKey := "user_role"

  const LoginFailed := "Login failed. Please try again."
  const RegisterFailed := "Registration failed. Please try again."

  /** The claims the dashboard reads from a token's payload; `exp` is in seconds. */
  datatype DecodedToken = DecodedToken(sub: string, role: string, exp: int)

  /** The body of a successful login or register call. */
  datatype TokenResponse = TokenResponse(access_token: string)

  /** Everything that a payload decoder may return: a claims object, or failure (an exception). */
  type PayloadDecoder = string -> Option<DecodedToken>

  /**
   * Reads a token's claims without verifying it. Anything that does not
   * split on '.' into exactly three parts is rejected before its payload is
   * looked at; otherwise the middle part is decoded.
   */
  function DecodeToken(token: string, decodePayload: PayloadDecoder): (r: Option<DecodedToken>)
    ensures Count(token, '.') != 2 ==> r == None
    ensures Count(token, '.') == 2 ==> r == decodePayload(Split(token, '.')[1])
  {
    var parts := Split(token, '.');
    if |parts| != 3 then None else decodePayload(parts[1])
  }

  /**
   * A token is expired when it cannot be decoded or its expiry, converted to
   * milliseconds, lies strictly before `now`; at exactly `now` it is still valid.
   */
  function IsTokenExpired(token: string, decodePayload: PayloadDecoder, now: int): (expired: bool)
    ensures DecodeToken(token, decodePayload).None? ==> expired
    ensures DecodeToken(token, decodePayload).Some? ==>
              (expired <==> DecodeToken(token, decodePayload).value.exp * 1000 < now)
  {
    var decoded := DecodeToken(token, decodePayload);
    if decoded.None? then true else decoded.value.exp * 1000 < now
  }

  /** `localStorage.getItem(key)`. */
  function Lookup(storage: map<string, string>, key: string): Option<string> {
    if key in storage then Some(storage[key]) else None
  }

  /** True iff a non-empty token is stored and it has not expired. */
  function HasValidToken(storage: map<string, string>, decodePayload: PayloadDecoder, now: int): (r: bool)
    ensures r <==> TokenKey in storage && storage[TokenKey] != "" &&
                   !IsTokenExpired(storage[TokenKey], decodePayload, now)
  {
    var token := Lookup(storage, TokenKey);
    token.Some? && token.value != "" && !IsTokenExpired(token.value, decodePayload, now)
  }

  /** Storage after `setAuthData(token)`: the token always, user and role only when the token decodes. */
  function StoreToken(storage: map<string, string>, token: string, decoded: Option<DecodedToken>): (s: map<string, string>)
    ensures TokenKey in s && s[TokenKey] == token
    ensures decoded.Some? ==> UserKey in s && s[UserKey] == decoded.value.sub &&
                              RoleKey in s && s[RoleKey] == decoded.value.role
    ensures decoded.None? ==> s == storage[TokenKey := token]
    ensures forall k :: k in storage && k !in {TokenKey, UserKey, RoleKey} ==> k in s && s[k] == storage[k]
    ensures s.Keys == storage.Keys + {TokenKey} + (if decoded.Some? then {UserKey, RoleKey} else {})
  {
    var withToken := storage[TokenKey := token];
    if decoded.Some? then withToken[UserKey := decoded.value.sub][RoleKey := decoded.value.role]
    else withToken
  }

  /** A token that passes the shape check has exactly three dot-separated parts which join back to it. */
  lemma WellShapedToken(token: string)
    requires Count(token, '.') == 2
    ensures |Split(token, '.')| == 3
    ensures Join(Split(token, '.'), '.') == token
  {
    JoinSplit(token, '.');
  }

  class AuthService {
    const decodePayload: PayloadDecoder
    var storage: map<string, string>
    var isLoggedIn: bool
    var currentUser: Option<string>
    var currentRole: Option<string>
    var loading: bool
    var error: Option<string>

    /** Start-up: the fields are read from storage, then an expired stored token is discarded. */
    constructor (initialStorage: map<string, string>, decodePayload: PayloadDecoder, now: int)
      ensures this.decodePayload == decodePayload && !loading && error == None
      ensures Valid()
      ensures isLoggedIn == HasValidToken(storage, decodePayload, now)
      ensures TokenKey in initialStorage && initialStorage[TokenKey] != "" &&
              IsTokenExpired(initialStorage[TokenKey], decodePayload, now) ==>
                storage == initialStorage - {TokenKey, UserKey, RoleKey} &&
                !isLoggedIn && currentUser == None && currentRole == None
      ensures !(TokenKey in initialStorage && initialStorage[TokenKey] != "" &&
                IsTokenExpired(initialStorage[TokenKey], decodePayload, now)) ==>
                storage == initialStorage &&
                isLoggedIn == HasValidToken(initialStorage, decodePayload, now) &&
                currentUser == Lookup(initialStorage, UserKey) &&
                currentRole == Lookup(initialStorage, RoleKey)
    {
      this.decodePayload := decodePayload;
      storage := initialStorage;
      isLoggedIn := HasValidToken(initialStorage, decodePayload, now);
      currentUser := Lookup(initialStorage, UserKey);
      currentRole := Lookup(initialStorage, RoleKey);
      loading := false;
      error := None;
      new;
      CheckTokenValidity(now);
    }

    /** A logged-in session always has a token in storage. */
    ghost predicate Valid()
      reads this
    {
      isLoggedIn ==> TokenKey in storage
    }

    /** `localStorage.getItem('auth_token')`: the stored token, or none. */
    function GetToken(): (t: Option<string>)
      reads this
      ensures t.Some? <==> TokenKey in storage
      ensures t.Some? ==> t.value == storage[TokenKey]
    {
      Lookup(storage, TokenKey)
    }

    /** Whether the user is logged in; a logged-in user always has a stored token. */
    function IsAuthenticated(): (r: bool)
      requires Valid()
      reads this
      ensures r ==> GetToken().Some?
    {
      isLoggedIn
    }

    /** Forgets the session: the three keys are removed and the user is logged out. */
    method Logout()
      modifies this`storage, this`isLoggedIn, this`currentUser, this`currentRole
      ensures storage == old(storage) - {TokenKey, UserKey, RoleKey}
      ensures !isLoggedIn && currentUser == None && currentRole == None
      ensures Valid()
    {
      storage := storage - {TokenKey};
      storage := storage - {UserKey};
      storage := storage - {RoleKey};
      isLoggedIn := false;
      currentUser := None;
      currentRole := None;
    }

    /** Stores a new token, and its user and role when it decodes; otherwise those are left as they were. */
    method SetAuthData(token: string)
      modifies this`storage, this`currentUser, this`currentRole
      ensures storage == StoreToken(old(storage), token, DecodeToken(token, decodePayload))
      ensures DecodeToken(token, decodePayload).Some? ==>
                currentUser == Some(DecodeToken(token, decodePayload).value.sub) &&
                currentRole == Some(DecodeToken(token, decodePayload).value.role)
      ensures DecodeToken(token, decodePayload).None? ==>
                currentUser == old(currentUser) && currentRole == old(currentRole)
      ensures Valid()
    {
      storage := storage[TokenKey := token];
      var decoded := DecodeToken(token, decodePayload);
      if decoded.Some? {
        storage := storage[UserKey := decoded.value.sub];
        storage := storage[RoleKey := decoded.value.role];
        currentUser := Some(decoded.value.sub);
        currentRole := Some(decoded.value.role);
      }
    }

    /** Logs out iff a non-empty token is stored and it has expired. */
    method CheckTokenValidity(now: int)
      requires Valid()
      modifies this`storage, this`isLoggedIn, this`currentUser, this`currentRole
      ensures var token := Lookup(old(storage), TokenKey);
              if token.Some? && token.value != "" && IsTokenExpired(token.value, decodePayload, now) then
                storage == old(storage) - {TokenKey, UserKey, RoleKey} &&
                !isLoggedIn && currentUser == None && currentRole == None
              else
                storage == old(storage) && isLoggedIn == old(isLoggedIn) &&
                currentUser == old(currentUser) && currentRole == old(currentRole)
      ensures Valid()
    {
      var token := GetToken();
      if token.Some? && token.value != "" && IsTokenExpired(token.value, decodePayload, now) {
        Logout();
      }
    }

    /**
     * Logs in with the server's response: on success the token is stored and
     * the user is logged in; on failure the server's detail (or a default
     * message) is recorded and the session is untouched. Either way the
     * call is no longer loading.
     */
    method Login(username: string, password: string, response: Outcome<TokenResponse>)
      returns (result: Outcome<TokenResponse>)
      requires Valid()
      modifies this
      ensures result == response && !loading && Valid()
      ensures response.Success? ==> AuthenticatedBy(response.data.access_token) && error == None
      ensures response.Failure? ==>
                error == Some(DetailOr(response.detail, LoginFailed)) && SessionUnchanged()
    {
      result := Authenticate(response, LoginFailed);
    }

    /** Registers with the server's response; the same state changes as `Login`. */
    method Register(username: string, password: string, response: Outcome<TokenResponse>, role: string := "user")
      returns (result: Outcome<TokenResponse>)
      requires Valid()
      modifies this
      ensures result == response && !loading && Valid()
      ensures response.Success? ==> AuthenticatedBy(response.data.access_token) && error == None
      ensures response.Failure? ==>
                error == Some(DetailOr(response.detail, RegisterFailed)) && SessionUnchanged()
    {
      result := Authenticate(response, RegisterFailed);
    }

    /** The state a successful login or register leaves, relative to the state before it. */
    twostate predicate AuthenticatedBy(token: string)
      reads this
    {
      var decoded := DecodeToken(token, decodePayload);
      storage == StoreToken(old(storage), token, decoded) &&
      isLoggedIn &&
      currentUser == (if decoded.Some? then Some(decoded.value.sub) else old(currentUser)) &&
      currentRole == (if decoded.Some? then Some(decoded.value.role) else old(currentRole))
    }

    /** The session part of the state is what it was. */
    twostate predicate SessionUnchanged()
      reads this
    {
      storage == old(storage) && isLoggedIn == old(isLoggedIn) &&
      currentUser == old(currentUser) && currentRole == old(currentRole)
    }

    /** The response handling shared by `Login` and `Register`. */
    method Authenticate(response: Outcome<TokenResponse>, fallback: string) returns (result: Outcome<TokenResponse>)
      requires Valid()
      modifies this
      ensures result == response && !loading && Valid()
      ensures response.Success? ==> AuthenticatedBy(response.data.access_token) && error == None
      ensures response.Failure? ==> error == Some(DetailOr(response.detail, fallback)) && SessionUnchanged()
    {
      loading := true;
      error := None;
      match response {
        case Success(tokens) =>
          SetAuthData(tokens.access_token);
          isLoggedIn := true;
          loading := false;
        case Failure(detail) =>
          error := Some(DetailOr(detail, fallback));
          loading := false;
      }
      result := response;
    }
  }
}
