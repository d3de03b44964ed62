/** The authentication hook: the signed-in user, the in-memory token, the
    loading flag and the token kept in browser storage. */
module Auth {
  import opened Outcomes
  import opened Storage

  const LoginPath: string := "/login"

  /** The user record returned by the authentication service. */
  datatype User = User(id: string, email: string, createdAt: string)

  /** What the login form hands to `login`. */
  datatype LoginData = LoginData(strategy: string, email: string, password: string)

  /** The payload of an `authenticate` call, tagged by strategy. */
  datatype AuthRequest =
    | JwtRequest(strategy: string, accessToken: string)
    | LocalRequest(strategy: string, email: string, password: string)

  /** A successful `authenticate` response. */
  datatype AuthResponse = AuthResponse(accessToken: string, user: User)

  /** `{ ...data, strategy: 'local' }`: the caller's fields, with the
      strategy forced to `local` whatever the caller put there. */
  function LoginPayload(data: LoginData): (p: AuthRequest)
    ensures p.LocalRequest? && p.strategy == "local"
    ensures p.email == data.email && p.password == data.password
  {
    LocalRequest("local", data.email, data.password)
  }

  /** The caller's strategy field has no effect on what is sent. */
  lemma LoginIgnoresCallerStrategy(data: LoginData, strategy: string)
    ensures LoginPayload(data.(strategy := strategy)) == LoginPayload(data)
  {
  }

  class Session {
    var user: Option<User>
    var token: Option<string>
    var isLoading: bool
    const storage: LocalStorage

    /** The token kept in browser storage. */
    function StoredToken(): Option<string>
      reads storage
    {
      Lookup(storage.items, TokenKey)
    }

    /** The redirect-guard effect: send the visitor to the login page once
        loading is over, nobody is signed in, and they are elsewhere. */
    predicate GuardRedirects(pathname: string): (r: bool)
      reads this
      ensures pathname == LoginPath ==> !r
      ensures isLoading || user.Some? ==> !r
      ensures !isLoading && user.None? && pathname != LoginPath ==> r
    {
      !isLoading && user.None? && pathname != LoginPath
    }

    constructor (storage: LocalStorage)
      ensures this.storage == storage && storage.items == old(storage.items)
      ensures user == None && token == None && isLoading
    {
      this.storage := storage;
      user := None;
      token := None;
      isLoading := true;
    }

    /** Restore the session from the stored token on mount. Without a
        token nothing is sent; a rejected token is dropped from storage.
        Loading is over on every path. */
    method InitAuth(reply: Outcome<AuthResponse>) returns (request: Option<AuthRequest>, redirect: bool)
      modifies this, storage
      ensures !isLoading
      ensures !Truthy(old(StoredToken())) ==>
        && request == None && redirect
        && storage.items == old(storage.items) && user == old(user) && token == old(token)
      ensures Truthy(old(StoredToken())) ==>
        request == Some(JwtRequest("jwt", old(StoredToken()).value))
      ensures Truthy(old(StoredToken())) && reply.Ok? ==>
        && !redirect && storage.items == old(storage.items)
        && token == Some(reply.value.accessToken) && user == Some(reply.value.user)
      ensures Truthy(old(StoredToken())) && reply.Err? ==>
        && redirect && storage.items == old(storage.items) - {TokenKey} && StoredToken() == None
        && user == old(user) && token == old(token)
      ensures old(user).None? && redirect ==> forall p :: GuardRedirects(p) <==> p != LoginPath
    {
      var storedToken := storage.GetItem(TokenKey);
      if !Truthy(storedToken) {
        isLoading := false;
        return None, true;
      }
      request := Some(JwtRequest("jwt", storedToken.value));
      match reply {
        case Ok(response) =>
          token := Some(response.accessToken);
          user := Some(response.user);
          redirect := false;
        case Err(_) =>
          storage.RemoveItem(TokenKey);
          redirect := true;
      }
      isLoading := false;
    }

    /** Sign in with email and password. On success the token is stored
        and the session filled in; a rejection propagates to the caller
        and changes nothing. */
    method Login(data: LoginData, reply: Outcome<AuthResponse>) returns (request: AuthRequest, error: Option<string>)
      modifies this, storage
      ensures request == LoginPayload(data)
      ensures reply.Ok? ==>
        && error == None
        && storage.items == old(storage.items)[TokenKey := reply.value.accessToken]
        && StoredToken() == Some(reply.value.accessToken)
        && token == Some(reply.value.accessToken) && user == Some(reply.value.user)
        && isLoading == old(isLoading)
      ensures reply.Err? ==> error == Some(reply.message) && unchanged(this, storage)
    {
      request := LoginPayload(data);
      match reply {
        case Err(message) =>
          return request, Some(message);
        case Ok(response) =>
          storage.SetItem(TokenKey, response.accessToken);
          token := Some(response.accessToken);
          user := Some(response.user);
          error := None;
      }
    }

    /** Sign out. Whether the server call succeeds or throws, the stored
        token is removed, the user is cleared and the visitor is sent to
        the login page; the in-memory token is left as it was. */
    method Logout(reply: Outcome<()>) returns (redirect: bool)
      modifies this, storage
      ensures redirect
      ensures storage.items == old(storage.items) - {TokenKey} && StoredToken() == None
      ensures user == None && token == old(token) && isLoading == old(isLoading)
      ensures !isLoading ==> forall p :: GuardRedirects(p) <==> p != LoginPath
    {
      match reply {
        case Ok(_) =>
          storage.RemoveItem(TokenKey);
          user := None;
          redirect := true;
        case Err(_) =>
          storage.RemoveItem(TokenKey);
          user := None;
          redirect := true;
      }
    }
  }
}
