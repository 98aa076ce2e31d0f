/** The task board controller (`TasksView` in app/pages/tasks.tsx): the
    cached task list, the user roster, the loading flag and the error
    message, and the handlers that change them. Every handler is
    confirmation-first: the cache changes only after the server call it
    awaits has resolved, so each handler takes that call's outcome as a
    parameter and returns the call it made. */
module Board {
  import opened Types
  import opened Sequences
  import Api
  import Text

  const LoadFailed := "Failed to load"

  /** What `groups[t.status].push(t)` throws when there is no bucket named
      `t.status`, in the V8 engine's wording; other engines word the
      `TypeError` differently, and nothing in the page reads the message. */
  const MissingBucket := "Cannot read properties of undefined (reading 'push')"

  // ---------------------------------------------------------------------
  // The status cycle

  /** `["todo", "wip", "done"]`, the order the "Next" button walks. */
  const Order: seq<Status> := [Todo, Wip, Done]

  /** `order.indexOf(s)`: the first position of `s`, or -1. */
  function IndexOf(order: seq<Status>, s: Status): (i: int)
    ensures -1 <= i < |order|
    ensures i >= 0 ==> order[i] == s && forall j :: 0 <= j < i ==> order[j] != s
    ensures i == -1 ==> s !in order
  {
    if order == [] then -1
    else if order[0] == s then 0
    else
      var k := IndexOf(order[1..], s);
      if k == -1 then -1 else k + 1
  }

  /** `order[(order.indexOf(s) + 1) % order.length]`. */
  function NextStatus(s: Status): Status
  {
    Order[(IndexOf(Order, s) + 1) % |Order|]
  }

  /** The cycle is todo to wip to done to todo: every step changes the
      status and three steps come back to where they started. */
  lemma NextStatusCycle(s: Status)
    ensures NextStatus(Todo) == Wip && NextStatus(Wip) == Done && NextStatus(Done) == Todo
    ensures NextStatus(s) != s
    ensures NextStatus(NextStatus(NextStatus(s))) == s
  {
    assert IndexOf(Order, Todo) == 0;
    assert IndexOf(Order, Wip) == 1 by {
      assert IndexOf(Order[1..], Wip) == 0;
    }
    assert IndexOf(Order, Done) == 2 by {
      assert Order[1..][1..] == [Done];
      assert IndexOf(Order[1..][1..], Done) == 0;
    }
  }

  // ---------------------------------------------------------------------
  // The list transforms

  /** `tasks.map(t => t.id === id ? updated : t)`: every task with that id
      becomes `updated`; all others stay, in place. */
  function ReplaceById(ts: seq<Task>, id: string, updated: Task): (r: seq<Task>)
    ensures |r| == |ts|
    ensures forall i :: 0 <= i < |ts| ==> r[i] == if ts[i].id == id then updated else ts[i]
  {
    if ts == [] then []
    else [if ts[0].id == id then updated else ts[0]] + ReplaceById(ts[1..], id, updated)
  }

  /** When two updates of one task are applied one after the other, the
      cache ends up with the one applied last, whole, provided the first
      kept the id. */
  lemma LastResponseWins(ts: seq<Task>, id: string, first: Task, second: Task)
    requires first.id == id
    ensures ReplaceById(ReplaceById(ts, id, first), id, second) == ReplaceById(ts, id, second)
  {
    var a := ReplaceById(ReplaceById(ts, id, first), id, second);
    var b := ReplaceById(ts, id, second);
    assert forall i :: 0 <= i < |ts| ==> a[i] == b[i];
  }

  /** Applying the same update twice is the same as applying it once. */
  lemma ReplaceIdempotent(ts: seq<Task>, id: string, updated: Task)
    ensures ReplaceById(ReplaceById(ts, id, updated), id, updated) == ReplaceById(ts, id, updated)
  {
    var a := ReplaceById(ReplaceById(ts, id, updated), id, updated);
    var b := ReplaceById(ts, id, updated);
    assert forall i :: 0 <= i < |ts| ==> a[i] == b[i];
  }

  predicate KeepsId(id: string, t: Task)
  {
    t.id != id
  }

  /** `tasks.filter(t => t.id !== id)`: no task with that id is left, every
      other task is kept as often as it occurred, in the same order. */
  function RemoveById(ts: seq<Task>, id: string): (r: seq<Task>)
    ensures forall t :: t in r ==> t.id != id
    ensures forall t :: t in ts && t.id != id ==> t in r
    ensures forall t: Task :: t.id != id ==> multiset(r)[t] == multiset(ts)[t]
    ensures IsSubsequence(r, ts)
  {
    FilterMembers(ts, t => KeepsId(id, t));
    FilterOrder(ts, t => KeepsId(id, t));
    Filter(ts, t => KeepsId(id, t))
  }

  /** `u.active !== false`: who may be picked as an assignee. */
  predicate IsAssignable(u: User)
  {
    u.active
  }

  /** `users.filter(u => u.active !== false)`: the assignment candidates
      are exactly the active users of the roster, in roster order. */
  function AssignableUsers(users: seq<User>): (r: seq<User>)
    ensures forall u :: u in r <==> u in users && u.active
    ensures forall u :: multiset(r)[u] == if u.active then multiset(users)[u] else 0
    ensures IsSubsequence(r, users)
  {
    FilterMembers(users, IsAssignable);
    FilterOrder(users, IsAssignable);
    Filter(users, IsAssignable)
  }

  // ---------------------------------------------------------------------
  // Status buckets

  /** The bucket names `byStatus` starts with. */
  const BucketKeys: set<string> := {"todo", "in_progress", "done"}

  function InBucket(key: string): Task -> bool
  {
    (t: Task) => StatusName(t.status) == key
  }

  /** The tasks whose status is named `key`, in list order. */
  function Bucket(ts: seq<Task>, key: string): seq<Task>
  {
    Filter(ts, InBucket(key))
  }

  /** A bucket holds exactly the tasks whose status it is named by, in list
      order. */
  lemma BucketMembers(ts: seq<Task>, key: string)
    ensures forall t :: t in Bucket(ts, key) <==> t in ts && StatusName(t.status) == key
    ensures forall t :: multiset(Bucket(ts, key))[t] == if StatusName(t.status) == key then multiset(ts)[t] else 0
    ensures IsSubsequence(Bucket(ts, key), ts)
  {
    FilterMembers(ts, InBucket(key));
    FilterOrder(ts, InBucket(key));
  }

  lemma BucketSnoc(ts: seq<Task>, t: Task, key: string)
    ensures Bucket(ts + [t], key) == Bucket(ts, key) + (if StatusName(t.status) == key then [t] else [])
  {
    FilterSnoc(ts, t, InBucket(key));
  }

  /** Only `wip` names no bucket. */
  lemma BucketKeyOf(s: Status)
    ensures StatusName(s) in BucketKeys <==> s != Wip
  {
  }

  /** What `byStatus` computes: the three buckets, each the order-preserving
      filter of the list by its name, or the error the first `wip` task
      raises, since no bucket is named `wip`. */
  function Grouping(ts: seq<Task>): (g: Outcome<map<string, seq<Task>>>)
    ensures g.Ok? <==> forall t :: t in ts ==> t.status != Wip
    ensures g.Err? ==> g.msg == MissingBucket
  {
    if forall t :: t in ts ==> StatusName(t.status) in BucketKeys then
      Ok(map k | k in BucketKeys :: Bucket(ts, k))
    else
      Err(MissingBucket)
  }

  /** `byStatus`: visits the tasks in list order and appends each one to
      the bucket named by its status. */
  method ByStatus(tasks: seq<Task>) returns (r: Outcome<map<string, seq<Task>>>)
    ensures r == Grouping(tasks)
  {
    var groups: map<string, seq<Task>> := map["todo" := [], "in_progress" := [], "done" := []];
    for i := 0 to |tasks|
      invariant groups.Keys == BucketKeys
      invariant groups["todo"] == Bucket(tasks[..i], "todo")
      invariant groups["in_progress"] == Bucket(tasks[..i], "in_progress")
      invariant groups["done"] == Bucket(tasks[..i], "done")
      invariant forall j :: 0 <= j < i ==> tasks[j].status != Wip
    {
      var key := StatusName(tasks[i].status);
      BucketKeyOf(tasks[i].status);
      if key !in groups {
        assert tasks[i] in tasks;
        return Err(MissingBucket);
      }
      assert tasks[..i + 1] == tasks[..i] + [tasks[i]];
      BucketSnoc(tasks[..i], tasks[i], "todo");
      BucketSnoc(tasks[..i], tasks[i], "in_progress");
      BucketSnoc(tasks[..i], tasks[i], "done");
      groups := groups[key := groups[key] + [tasks[i]]];
    }
    assert tasks[..|tasks|] == tasks;
    assert groups == map k | k in BucketKeys :: Bucket(tasks, k);
    r := Ok(groups);
  }

  /** As written, no task ever lands in the `in_progress` bucket, and a
      successful grouping holds every task exactly once. */
  lemma {:induction false} GroupingPartitions(ts: seq<Task>)
    requires Grouping(ts).Ok?
    ensures var g := Grouping(ts).value;
      && g.Keys == BucketKeys
      && g["in_progress"] == []
      && |g["todo"]| + |g["done"]| == |ts|
      && (forall t :: t in ts ==> t in g[StatusName(t.status)])
  {
    var g := Grouping(ts).value;
    assert g["todo"] == Bucket(ts, "todo") && g["in_progress"] == Bucket(ts, "in_progress") && g["done"] == Bucket(ts, "done");
    NoInProgress(ts);
    forall t | t in ts
      ensures t in g[StatusName(t.status)]
    {
      BucketOfStatus(ts, t, t.status);
    }
    FilterPartition(ts, InBucket("todo"), InBucket("in_progress"), InBucket("done"));
  }

  /** No status is named `in_progress`, so that bucket stays empty. */
  lemma NoInProgress(ts: seq<Task>)
    ensures Bucket(ts, "in_progress") == []
  {
    BucketMembers(ts, "in_progress");
  }

  /** The column the page renders for status `s`: `byStatus[s]`, which is
      undefined when there is no such bucket. */
  function Column(groups: map<string, seq<Task>>, s: Status): Option<seq<Task>>
  {
    if StatusName(s) in groups then Some(groups[StatusName(s)]) else None
  }

  /** As written, the page can never show a board: either grouping throws
      (some task is `wip`), or it succeeds and the `wip` column it then
      reads is undefined. */
  lemma AsWrittenBoardFails(ts: seq<Task>)
    ensures Grouping(ts).Err? || Column(Grouping(ts).value, Wip) == None
  {
  }

  /** A `todo` task advanced once is `wip`, and a list holding it cannot be
      grouped. */
  lemma AdvancedTaskBreaksGrouping(t: Task)
    requires t.status == Todo
    ensures Grouping([t.(status := NextStatus(t.status))]).Err?
  {
    NextStatusCycle(t.status);
    var advanced := t.(status := NextStatus(t.status));
    assert advanced in [advanced];
  }

  /** The bucket names the statuses actually take. */
  const StatusKeys: set<string> := {"todo", "wip", "done"}

  /** The grouping evidently intended: one bucket per status. */
  function IntendedGrouping(ts: seq<Task>): (g: map<string, seq<Task>>)
    ensures g.Keys == StatusKeys
    ensures forall s: Status :: Column(g, s).Some?
  {
    map k | k in StatusKeys :: Bucket(ts, k)
  }

  /** The intended column of a status is that status's bucket. */
  lemma IntendedColumn(ts: seq<Task>, s: Status)
    ensures IntendedGrouping(ts)[StatusName(s)] == Bucket(ts, StatusName(s))
  {
  }

  /** A task of the list is in the bucket of a status exactly when it has
      that status. */
  lemma BucketOfStatus(ts: seq<Task>, t: Task, s: Status)
    requires t in ts
    ensures t in Bucket(ts, StatusName(s)) <==> s == t.status
  {
    BucketMembers(ts, StatusName(s));
  }

  /** Each task sits in exactly one bucket of the intended grouping, the
      one named by its status, and the buckets' sizes add up to the list's. */
  lemma {:induction false} IntendedGroupingPartitions(ts: seq<Task>)
    ensures var g := IntendedGrouping(ts);
      && (forall t, s: Status :: t in ts ==> (t in g[StatusName(s)] <==> s == t.status))
      && |g["todo"]| + |g["wip"]| + |g["done"]| == |ts|
  {
    var g := IntendedGrouping(ts);
    forall t, s: Status | t in ts
      ensures t in g[StatusName(s)] <==> s == t.status
    {
      IntendedColumn(ts, s);
      BucketOfStatus(ts, t, s);
    }
    IntendedColumn(ts, Todo);
    IntendedColumn(ts, Wip);
    IntendedColumn(ts, Done);
    FilterPartition(ts, InBucket("todo"), InBucket("wip"), InBucket("done"));
  }

  // ---------------------------------------------------------------------
  // The controller

  /** `err.message || "Failed to load"`. */
  function LoadError(msg: string): (m: string)
    ensures m != ""
    ensures msg != "" ==> m == msg
    ensures msg == "" ==> m == LoadFailed
  {
    if msg != "" then msg else LoadFailed
  }

  class TasksView {
    var tasks: seq<Task>
    var users: seq<User>
    var loading: bool
    var error: Option<string>

    /** The initial component state: nothing cached, still loading. */
    constructor()
      ensures tasks == [] && users == [] && loading && error == None
    {
      tasks := [];
      users := [];
      loading := true;
      error := None;
    }

    /** `load`: lists the tasks and, best effort, the roster. A failed
        roster fetch degrades to an empty roster; a failed task fetch keeps
        the previous tasks and roster and records the error. Either way
        loading ends. */
    method Load(listed: Outcome<seq<Task>>, roster: Outcome<seq<User>>) returns (sent: seq<Api.Endpoint>)
      modifies this
      ensures sent == [Api.ListTasks, Api.ListUsers]
      ensures !loading
      ensures listed.Ok? ==>
        && tasks == listed.value
        && users == (if roster.Ok? then roster.value else [])
        && error == None
      ensures listed.Err? ==>
        && tasks == old(tasks) && users == old(users)
        && error == Some(LoadError(listed.msg))
    {
      sent := [Api.ListTasks, Api.ListUsers];
      error := None;
      match listed {
        case Ok(t) =>
          var u := match roster
            case Ok(v) => v
            case Err(_) => [];
          tasks := t;
          users := u;
        case Err(msg) =>
          error := Some(LoadError(msg));
      }
      loading := false;
    }

    /** `createTask`: a title that trims to nothing is dropped without a
        call; otherwise the trimmed title and the untouched description are
        sent, and on success the server's task goes in front of the cache. */
    method CreateTask(title: string, description: string, reply: Outcome<Task>)
      returns (sent: Option<Api.Endpoint>, result: Outcome<()>)
      modifies this
      ensures users == old(users) && loading == old(loading) && error == old(error)
      ensures Text.Trim(title) == [] ==> sent == None && result == Ok(()) && tasks == old(tasks)
      ensures Text.Trim(title) != [] ==>
        sent == Some(Api.CreateTask(TaskPatch(Some(Text.Trim(title)), Some(description), None, None)))
      ensures Text.Trim(title) != [] && reply.Ok? ==>
        result == Ok(()) && tasks == [reply.value] + old(tasks)
      ensures Text.Trim(title) != [] && reply.Err? ==>
        result == Err(reply.msg) && tasks == old(tasks)
    {
      var trimmed := Text.Trim(title);
      if trimmed == [] {
        return None, Ok(());
      }
      sent := Some(Api.CreateTask(TaskPatch(Some(trimmed), Some(description), None, None)));
      match reply
      case Ok(created) =>
        tasks := [created] + tasks;
        result := Ok(());
      case Err(msg) =>
        result := Err(msg);
    }

    /** `toggleStatus`: asks the server to move the task one step round the
        cycle and puts the server's answer in place of every task with that
        id. */
    method ToggleStatus(task: Task, reply: Outcome<Task>) returns (sent: Api.Endpoint, result: Outcome<()>)
      modifies this
      ensures users == old(users) && loading == old(loading) && error == old(error)
      ensures sent == Api.UpdateTask(task.id, TaskPatch(None, None, Some(NextStatus(task.status)), None))
      ensures reply.Ok? ==> result == Ok(()) && tasks == ReplaceById(old(tasks), task.id, reply.value)
      ensures reply.Err? ==> result == Err(reply.msg) && tasks == old(tasks)
    {
      sent := Api.UpdateTask(task.id, TaskPatch(None, None, Some(NextStatus(task.status)), None));
      match reply
      case Ok(updated) =>
        tasks := ReplaceById(tasks, task.id, updated);
        result := Ok(());
      case Err(msg) =>
        result := Err(msg);
    }

    /** `deleteTask`: only a confirmed delete removes the task. */
    method DeleteTask(task: Task, reply: Outcome<()>) returns (sent: Api.Endpoint, result: Outcome<()>)
      modifies this
      ensures users == old(users) && loading == old(loading) && error == old(error)
      ensures sent == Api.DeleteTask(task.id)
      ensures reply.Ok? ==> result == Ok(()) && tasks == RemoveById(old(tasks), task.id)
      ensures reply.Err? ==> result == Err(reply.msg) && tasks == old(tasks)
    {
      sent := Api.DeleteTask(task.id);
      match reply
      case Ok(_) =>
        tasks := RemoveById(tasks, task.id);
        result := Ok(());
      case Err(msg) =>
        result := Err(msg);
    }

    /** `assignUser`: replaces the assignee list with the one id given,
        unchecked, and puts the server's answer in place of the task. */
    method AssignUser(task: Task, userId: string, reply: Outcome<Task>) returns (sent: Api.Endpoint, result: Outcome<()>)
      modifies this
      ensures users == old(users) && loading == old(loading) && error == old(error)
      ensures sent == Api.UpdateTask(task.id, TaskPatch(None, None, None, Some([userId])))
      ensures reply.Ok? ==> result == Ok(()) && tasks == ReplaceById(old(tasks), task.id, reply.value)
      ensures reply.Err? ==> result == Err(reply.msg) && tasks == old(tasks)
    {
      sent := Api.UpdateTask(task.id, TaskPatch(None, None, None, Some([userId])));
      match reply
      case Ok(updated) =>
        tasks := ReplaceById(tasks, task.id, updated);
        result := Ok(());
      case Err(msg) =>
        result := Err(msg);
    }
  }
}
