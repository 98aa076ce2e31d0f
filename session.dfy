/** The session store (`AuthProvider` in app/lib/auth.tsx): the signed-in
    user and their token, kept in memory and in the browser's key-value
    storage under the keys `"token"` and `"user"`. Navigation is modelled as
    the route an operation returns. */
module Session {
  import opened Types
  import Api
  import UserCodec

  const UserKey := "user"
  const TasksRoute := "/tasks"
  const LoginRoute := "/login"

  /** What the restore effect finds in storage: a session when both entries
      are present and non-empty and the user entry reads back as a user. */
  function StoredSession(storage: Api.Storage): (s: Option<(string, User)>)
    ensures s.Some? ==>
      && Api.TokenKey in storage && storage[Api.TokenKey] == s.value.0 && s.value.0 != ""
      && UserKey in storage && storage[UserKey] != ""
      && UserCodec.DecodeUser(storage[UserKey]) == Some(s.value.1)
    ensures Api.TokenKey !in storage || UserKey !in storage ==> s.None?
    ensures Api.TokenKey in storage && storage[Api.TokenKey] == "" ==> s.None?
  {
    if Api.TokenKey in storage && storage[Api.TokenKey] != "" && UserKey in storage && storage[UserKey] != "" then
      match UserCodec.DecodeUser(storage[UserKey])
      case Some(u) => Some((storage[Api.TokenKey], u))
      case None => None
    else
      None
  }

  /** Storage after `storeSession(resp)`: both keys written from the same
      response, every other key untouched. */
  function Persisted(storage: Api.Storage, resp: AuthResponse): (r: Api.Storage)
    ensures r.Keys == storage.Keys + {Api.TokenKey, UserKey}
    ensures r[Api.TokenKey] == resp.token && r[UserKey] == UserCodec.EncodeUser(resp.user)
    ensures forall k :: k in storage && k != Api.TokenKey && k != UserKey ==> r[k] == storage[k]
  {
    storage[Api.TokenKey := resp.token][UserKey := UserCodec.EncodeUser(resp.user)]
  }

  /** Storage after logout: both keys removed, every other key untouched. */
  function Cleared(storage: Api.Storage): (r: Api.Storage)
    ensures r.Keys == storage.Keys - {Api.TokenKey, UserKey}
    ensures forall k :: k in r ==> r[k] == storage[k]
  {
    storage - {Api.TokenKey, UserKey}
  }

  /** A reload after login or register restores the same session, provided
      the server's token is not the empty string (the restore effect treats
      an empty token as absent). */
  lemma {:induction false} ReloadRestoresSession(storage: Api.Storage, resp: AuthResponse)
    ensures StoredSession(Persisted(storage, resp)) == (if resp.token != "" then Some((resp.token, resp.user)) else None)
  {
    UserCodec.DecodeEncodeUser(resp.user);
  }

  /** A reload after logout finds no session. */
  lemma ReloadAfterLogout(storage: Api.Storage)
    ensures StoredSession(Cleared(storage)) == None
  {
  }

  /** After logout no request carries a bearer token: the `Authorization`
      header is sent only if the caller itself supplies one. */
  lemma LogoutRevokesBearer(caller: Api.Headers, storage: Api.Storage)
    ensures var h := Api.ComposeHeaders(caller, Cleared(storage));
      && (Api.Authorization in h <==> Api.Authorization in caller)
      && (Api.Authorization in caller ==> h[Api.Authorization] == caller[Api.Authorization])
  {
  }

  /** After login or register every request carries the new token, whatever
      the caller's headers say, unless the token is empty. */
  lemma LoginSendsBearer(caller: Api.Headers, storage: Api.Storage, resp: AuthResponse)
    ensures var h := Api.ComposeHeaders(caller, Persisted(storage, resp));
      resp.token != "" ==> h[Api.Authorization] == Api.BearerPrefix + resp.token
  {
  }

  class SessionStore {
    var user: Option<User>
    var token: Option<string>
    var storage: Api.Storage

    /** No partial session: a user and a token come and go together. */
    ghost predicate Valid()
      reads this
    {
      user.Some? <==> token.Some?
    }

    /** Mounting the provider: no session in memory, whatever is stored. */
    constructor(storage: Api.Storage)
      ensures Valid()
      ensures user == None && token == None && this.storage == storage
    {
      user := None;
      token := None;
      this.storage := storage;
    }

    /** The mount effect: adopt the stored session when both entries are
        there and non-empty; otherwise leave the session as it is. Storage
        is only read. */
    method Restore()
      requires Valid()
      modifies this
      ensures Valid()
      ensures storage == old(storage)
      ensures match StoredSession(storage)
        case Some((t, u)) => token == Some(t) && user == Some(u)
        case None => token == old(token) && user == old(user)
    {
      match StoredSession(storage)
      case Some((t, u)) =>
        token := Some(t);
        user := Some(u);
      case None =>
    }

    /** `storeSession`: both fields and both keys from one response. */
    method StoreSession(resp: AuthResponse)
      modifies this
      ensures Valid()
      ensures token == Some(resp.token) && user == Some(resp.user)
      ensures storage == Persisted(old(storage), resp)
    {
      token := Some(resp.token);
      user := Some(resp.user);
      storage := Persisted(storage, resp);
    }

    /** `login`: sends the credentials; on success stores the session and
        navigates to the task board; on failure the error propagates and
        nothing changes. */
    method Login(email: string, password: string, reply: Outcome<AuthResponse>)
      returns (sent: Api.Endpoint, result: Outcome<string>)
      requires Valid()
      modifies this
      ensures Valid()
      ensures sent == Api.Login(email, password)
      ensures reply.Ok? ==>
        && token == Some(reply.value.token) && user == Some(reply.value.user)
        && storage == Persisted(old(storage), reply.value)
        && result == Ok(TasksRoute)
      ensures reply.Err? ==>
        && token == old(token) && user == old(user) && storage == old(storage)
        && result == Err(reply.msg)
    {
      sent := Api.Login(email, password);
      match reply
      case Ok(resp) =>
        StoreSession(resp);
        result := Ok(TasksRoute);
      case Err(msg) =>
        result := Err(msg);
    }

    /** `register`: the same as login, against the registration endpoint. */
    method Register(email: string, password: string, reply: Outcome<AuthResponse>)
      returns (sent: Api.Endpoint, result: Outcome<string>)
      requires Valid()
      modifies this
      ensures Valid()
      ensures sent == Api.Register(email, password)
      ensures reply.Ok? ==>
        && token == Some(reply.value.token) && user == Some(reply.value.user)
        && storage == Persisted(old(storage), reply.value)
        && result == Ok(TasksRoute)
      ensures reply.Err? ==>
        && token == old(token) && user == old(user) && storage == old(storage)
        && result == Err(reply.msg)
    {
      sent := Api.Register(email, password);
      match reply
      case Ok(resp) =>
        StoreSession(resp);
        result := Ok(TasksRoute);
      case Err(msg) =>
        result := Err(msg);
    }

    /** `logout`: never fails; clears both fields, removes both keys and
        navigates to the login page. Afterwards no role is held. */
    method Logout() returns (route: string)
      modifies this
      ensures Valid()
      ensures user == None && token == None
      ensures storage == Cleared(old(storage))
      ensures route == LoginRoute
      ensures forall r :: !HasRole(r)
    {
      user := None;
      token := None;
      storage := Cleared(storage);
      route := LoginRoute;
    }

    /** `hasRole(r)`: a session exists and its user has role `r`; with no
        session it is false for every role. */
    function HasRole(r: Role): (b: bool)
      reads this
      ensures user.None? ==> !b
      ensures user.Some? ==> (b <==> user.value.role == r)
    {
      match user
      case Some(u) => u.role == r
      case None => false
    }
  }
}
