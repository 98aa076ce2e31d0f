/** The shared data shapes of the task board (types.ts), plus the two
    wrappers every other module uses: an optional value and the outcome of
    an awaited server call. */
module Types {

  /** A value that may be absent (`T | null`, or an optional property). */
  datatype Option<+T> = None | Some(value: T) {
    function GetOr(default: T): T
    {
      match this
      case Some(v) => v
      case None => default
    }
  }

  /** The outcome of an awaited call: the resolved value, or the message of
      the Error it threw. */
  datatype Outcome<+T> = Ok(value: T) | Err(msg: string)

  /** `Role = "admin" | "user"`. */
  datatype Role = AdminRole | UserRole

  function RoleName(r: Role): string
  {
    match r
    case AdminRole => "admin"
    case UserRole => "user"
  }

  function ParseRole(s: string): Option<Role>
  {
    if s == "admin" then Some(AdminRole)
    else if s == "user" then Some(UserRole)
    else None
  }

  /** A role is exactly one of the two literals, and the literal names it. */
  lemma RoleLiterals(s: string, r: Role)
    ensures ParseRole(s) == Some(r) <==> RoleName(r) == s
    ensures ParseRole(s).Some? <==> s == "admin" || s == "user"
  {
  }

  /** A task's status: `"todo" | "wip" | "done"`. */
  datatype Status = Todo | Wip | Done

  function StatusName(s: Status): string
  {
    match s
    case Todo => "todo"
    case Wip => "wip"
    case Done => "done"
  }

  function ParseStatus(s: string): Option<Status>
  {
    if s == "todo" then Some(Todo)
    else if s == "wip" then Some(Wip)
    else if s == "done" then Some(Done)
    else None
  }

  /** A status is exactly one of the three literals, and the literal names it. */
  lemma StatusLiterals(s: string, st: Status)
    ensures ParseStatus(s) == Some(st) <==> StatusName(st) == s
    ensures ParseStatus(s).Some? <==> s == "todo" || s == "wip" || s == "done"
  {
  }

  /** An account; every account carries its `active` flag. */
  datatype User = User(id: string, email: string, role: Role, active: bool)

  /** What login and register resolve with: always a token AND a user. */
  datatype AuthResponse = AuthResponse(token: string, user: User)

  /** `Pick<User, "id" | "email">`: how a task lists its assignees. */
  datatype Assignee = Assignee(id: string, email: string)

  /** A task; only `description` is optional. */
  datatype Task = Task(
    id: string,
    title: string,
    description: Option<string>,
    status: Status,
    assignees: seq<Assignee>,
    creatorId: string,
    createdAt: string)

  /** `Partial<Task>` as the board sends it: a title and description on
      creation, a status or an assignee list on update. The assignee list is
      sent as bare ids (`[{ id }]`), without e-mail addresses. */
  datatype TaskPatch = TaskPatch(
    title: Option<string>,
    description: Option<string>,
    status: Option<Status>,
    assigneeIds: Option<seq<string>>)
}
