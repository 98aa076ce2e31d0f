/** The API gateway (app/lib/api.ts): how `http` builds a request (URL,
    headers, cache mode) and turns a failed response into an error, and the
    `api` table that maps each backend operation to its path, method and
    body. `fetch` itself is not modelled: a request is a value, and the
    response it gets is a parameter. */
module Api {
  import opened Types

  /** The browser's key-value storage, shared with the session store. */
  type Storage = map<string, string>

  /** Request headers, by name. */
  type Headers = map<string, string>

  const TokenKey := "token"
  const ContentType := "Content-Type"
  const JsonMediaType := "application/json"
  const Authorization := "Authorization"
  const BearerPrefix := "Bearer "
  const NoStore := "no-store"

  /** The token `http` attaches: the stored `"token"` entry, when it is
      present and not the empty string (`token && …`). */
  function SentToken(storage: Storage): (t: Option<string>)
    ensures t.Some? <==> TokenKey in storage && storage[TokenKey] != ""
    ensures t.Some? ==> t.value == storage[TokenKey]
  {
    if TokenKey in storage && storage[TokenKey] != "" then Some(storage[TokenKey]) else None
  }

  /** The header object of every request: `Content-Type: application/json`
      by default, overridden by the caller's headers, and an
      `Authorization: Bearer <token>` that overrides both whenever a token is
      stored. */
  function ComposeHeaders(caller: Headers, storage: Storage): (h: Headers)
    ensures h.Keys == caller.Keys + {ContentType} + (if SentToken(storage).Some? then {Authorization} else {})
    ensures SentToken(storage).Some? ==> h[Authorization] == BearerPrefix + storage[TokenKey]
    ensures SentToken(storage).None? ==> forall k :: k in caller ==> h[k] == caller[k]
    ensures forall k :: k in caller && k != Authorization ==> h[k] == caller[k]
    ensures ContentType !in caller ==> h[ContentType] == JsonMediaType
  {
    var defaults := map[ContentType := JsonMediaType];
    var credential := match SentToken(storage)
      case Some(t) => map[Authorization := BearerPrefix + t]
      case None => map[];
    defaults + caller + credential
  }

  /** The `Authorization` header is sent exactly when a non-empty token is
      stored, whatever the caller passed, and the token can be read back
      from it. */
  lemma BearerExactlyWhenStored(caller: Headers, storage: Storage)
    requires Authorization !in caller
    ensures var h := ComposeHeaders(caller, storage);
      && (Authorization in h <==> TokenKey in storage && storage[TokenKey] != "")
      && (Authorization in h ==>
            BearerPrefix <= h[Authorization] && h[Authorization][|BearerPrefix|..] == storage[TokenKey])
  {
    var h := ComposeHeaders(caller, storage);
    if Authorization in h {
      assert h[Authorization] == BearerPrefix + storage[TokenKey];
    }
  }

  /** `RequestInit`'s method; an absent one means `fetch`'s default, GET. */
  datatype Method = Get | Post | Delete | Patch

  /** The JSON bodies the front end sends. */
  datatype Body =
    | Credentials(email: string, password: string)
    | TaskFields(patch: TaskPatch)
    | NewUser(email: string, role: Option<Role>)
    | ActiveFlag(active: bool)

  /** What a caller passes to `http` besides the path. */
  datatype RequestInit = RequestInit(verb: Option<Method>, body: Option<Body>, headers: Headers)

  /** What `http` hands to `fetch`. */
  datatype Request = Request(url: string, verb: Option<Method>, body: Option<Body>, headers: Headers, cache: string)

  function EffectiveMethod(m: Option<Method>): Method
  {
    m.GetOr(Get)
  }

  /** `fetch(API_URL + path, { ...options, headers, cache: "no-store" })`:
      the URL is the base URL followed by the path, the caller's method and
      body pass through, and the response is never taken from a cache. */
  function BuildRequest(apiUrl: string, path: string, init: RequestInit, storage: Storage): (q: Request)
    ensures |q.url| == |apiUrl| + |path| && apiUrl <= q.url && q.url[|apiUrl|..] == path
    ensures q.cache == NoStore
    ensures q.verb == init.verb && q.body == init.body
    ensures q.headers == ComposeHeaders(init.headers, storage)
  {
    var url := apiUrl + path;
    assert url[|apiUrl|..] == path;
    Request(url, init.verb, init.body, ComposeHeaders(init.headers, storage), NoStore)
  }

  /** What `fetch` resolved with: the status flag and text, the body as
      text, and the body as parsed JSON. */
  datatype Response<T> = Response(ok: bool, statusText: string, text: string, json: T)

  /** `msg || res.statusText`: the body text unless it is empty. */
  function ErrorMessage(text: string, statusText: string): (m: string)
    ensures text != "" ==> m == text
    ensures text == "" ==> m == statusText
  {
    if text != "" then text else statusText
  }

  /** How `http` settles: a non-ok response always fails, with the body
      text as message, or the status text when the body is empty; an ok one
      resolves with the parsed body. */
  function Settle<T>(res: Response<T>): (r: Outcome<T>)
    ensures r.Ok? <==> res.ok
    ensures r.Ok? ==> r.value == res.json
    ensures r.Err? ==> r.msg == ErrorMessage(res.text, res.statusText)
  {
    if res.ok then Ok(res.json) else Err(ErrorMessage(res.text, res.statusText))
  }

  /** A failure's message is empty only when both the body and the status
      text are. */
  lemma FailureMessage<T>(res: Response<T>)
    requires !res.ok
    ensures Settle(res).Err?
    ensures Settle(res).msg == "" <==> res.text == "" && res.statusText == ""
    ensures res.text != "" ==> Settle(res).msg == res.text
  {
  }

  const LoginPath := "/auth/login"
  const RegisterPath := "/auth/register"
  const TasksPath := "/tasks"
  const TaskPrefix := "/tasks/"
  const UsersPath := "/users"
  const UserPrefix := "/users/"

  /** The operations of the `api` object. */
  datatype Endpoint =
    | Login(email: string, password: string)
    | Register(email: string, password: string)
    | ListTasks
    | CreateTask(payload: TaskPatch)
    | UpdateTask(id: string, patch: TaskPatch)
    | DeleteTask(id: string)
    | ListUsers
    | AddUser(email: string, role: Option<Role>)
    | DeleteUser(id: string)
    | SetUserActive(id: string, active: bool)

  /** The path and options an operation passes to `http`. */
  datatype Call = Call(path: string, init: RequestInit)

  /** The `api` table. No operation passes headers of its own; the two
      listings pass neither method nor body; a body always comes with an
      explicit method, and only DELETE has a method but no body. */
  function Describe(e: Endpoint): (c: Call)
    ensures c.init.headers == map[]
    ensures c.init.body.Some? <==> c.init.verb.Some? && c.init.verb != Some(Delete)
  {
    match e
    case Login(email, password) => Call(LoginPath, RequestInit(Some(Post), Some(Credentials(email, password)), map[]))
    case Register(email, password) => Call(RegisterPath, RequestInit(Some(Post), Some(Credentials(email, password)), map[]))
    case ListTasks => Call(TasksPath, RequestInit(None, None, map[]))
    case CreateTask(payload) => Call(TasksPath, RequestInit(Some(Post), Some(TaskFields(payload)), map[]))
    case UpdateTask(id, patch) => Call(TaskPrefix + id, RequestInit(Some(Post), Some(TaskFields(patch)), map[]))
    case DeleteTask(id) => Call(TaskPrefix + id, RequestInit(Some(Delete), None, map[]))
    case ListUsers => Call(UsersPath, RequestInit(None, None, map[]))
    case AddUser(email, role) => Call(UsersPath, RequestInit(Some(Post), Some(NewUser(email, role)), map[]))
    case DeleteUser(id) => Call(UserPrefix + id, RequestInit(Some(Delete), None, map[]))
    case SetUserActive(id, active) => Call(UserPrefix + id, RequestInit(Some(Patch), Some(ActiveFlag(active)), map[]))
  }

  /** Which operation a call is, read off its path, method and body: the
      backend's view of the table. */
  function Recognize(c: Call): Option<Endpoint>
  {
    var path := c.path;
    match (c.init.verb, c.init.body)
    case (None, None) =>
      if path == TasksPath then Some(ListTasks)
      else if path == UsersPath then Some(ListUsers)
      else None
    case (Some(Post), Some(Credentials(email, password))) =>
      if path == LoginPath then Some(Login(email, password))
      else if path == RegisterPath then Some(Register(email, password))
      else None
    case (Some(Post), Some(TaskFields(patch))) =>
      if path == TasksPath then Some(CreateTask(patch))
      else if TaskPrefix <= path then Some(UpdateTask(path[|TaskPrefix|..], patch))
      else None
    case (Some(Delete), None) =>
      if TaskPrefix <= path then Some(DeleteTask(path[|TaskPrefix|..]))
      else if UserPrefix <= path then Some(DeleteUser(path[|UserPrefix|..]))
      else None
    case (Some(Post), Some(NewUser(email, role))) =>
      if path == UsersPath then Some(AddUser(email, role)) else None
    case (Some(Patch), Some(ActiveFlag(active))) =>
      if UserPrefix <= path then Some(SetUserActive(path[|UserPrefix|..], active)) else None
    case _ => None
  }

  /** Every operation's call is recognised as that operation: the table
      gives each operation its own path, method and body, and an id is
      carried verbatim at the end of the path. */
  lemma {:induction false} RecognizeDescribe(e: Endpoint)
    ensures Recognize(Describe(e)) == Some(e)
  {
    match e
    case UpdateTask(id, _) =>
      assert (TaskPrefix + id)[|TaskPrefix|..] == id;
      assert |TaskPrefix + id| != |TasksPath|;
    case DeleteTask(id) =>
      assert (TaskPrefix + id)[|TaskPrefix|..] == id;
    case DeleteUser(id) =>
      assert (UserPrefix + id)[|UserPrefix|..] == id;
      assert (UserPrefix + id)[1] == 'u' && TaskPrefix[1] == 't';
    case SetUserActive(id, _) =>
      assert (UserPrefix + id)[|UserPrefix|..] == id;
    case _ =>
  }

  /** No two operations produce the same call. */
  lemma DescribeInjective(e1: Endpoint, e2: Endpoint)
    requires Describe(e1) == Describe(e2)
    ensures e1 == e2
  {
    RecognizeDescribe(e1);
    RecognizeDescribe(e2);
  }

  /** Only the two listings are GETs (by `fetch`'s default); login,
      register, task creation and task update POST, the two removals
      DELETE, and the active flag is PATCHed. */
  lemma EndpointMethods(e: Endpoint)
    ensures EffectiveMethod(Describe(e).init.verb) == Get <==> e.ListTasks? || e.ListUsers?
    ensures EffectiveMethod(Describe(e).init.verb) == Post <==>
      e.Login? || e.Register? || e.CreateTask? || e.UpdateTask? || e.AddUser?
    ensures EffectiveMethod(Describe(e).init.verb) == Delete <==> e.DeleteTask? || e.DeleteUser?
    ensures EffectiveMethod(Describe(e).init.verb) == Patch <==> e.SetUserActive?
  {
  }
}
