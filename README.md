# Task board front end: session, board controller and API gateway

This project models the client-side core of a Next.js task board. The React, `fetch` and `localStorage` layers are stripped away. Three pieces remain, each proved against its own specification.

- **Session store** (`AuthProvider`, app/lib/auth.tsx). This is the class `Session.SessionStore`. Its fields are `user`, `token` and `storage`; `storage` is the browser's key-value store as a `map<string, string>`.
  - Its methods are the restore effect, `storeSession`, `login`, `register` and `logout`. `hasRole` is a function of the class.
  - `Valid()` is the both-or-neither invariant: a user and a token are present together or not at all. Every method of the model keeps it. The source keeps it only when a stored user entry is a user object; see "Left out".
  - Navigation is returned as a route: `/tasks` after login or register, `/login` after logout.
- **Board controller** (`TasksView`, app/pages/tasks.tsx). This is the class `Board.TasksView`. Its fields are `tasks`, `users`, `loading` and `error`.
  - Each handler receives the outcome of the server call it awaits (`Ok(value)` or `Err(message)`). It returns the call it made, as an `Api.Endpoint`.
  - The cache changes only when the outcome is `Ok` (confirmation-first).
  - The list transforms are pure functions: replace by id, remove by id, the active-user filter and the status buckets. Lemmas state what they mean.
  - `byStatus` is the loop method `Board.ByStatus`. It is proved equal to the function `Board.Grouping`.
- **API gateway** (app/lib/api.ts). It is modelled as pure functions:
  - the header merge;
  - the URL and cache mode of a request;
  - how a response settles, including the error-message fallback;
  - the `api` table, `Api.Describe`. It is proved injective through the inverse reading `Api.Recognize`.
  - The token is read from the same storage map that the session store writes. The model therefore proves a cross-component property: after logout no bearer token is sent.

The shapes in types.ts are the datatypes of module `Types`. `Role` and `Task.status` are enumerations, with their string literals and a parse function for each. `User` always has an `active` flag. `AuthResponse` always holds both a token and a user. Only `Task.description` is optional.

The user entry in storage is written with `JSON.stringify` and read with `JSON.parse`. JSON is not modelled. Module `UserCodec` stands in for it with a small self-delimiting text format and proves the one fact the session store relies on: reading back a written user gives the same user.

In these places the model follows the code exactly as written, even where the behaviour may be unexpected:
- `byStatus` creates buckets `todo`, `in_progress` and `done`, but a status is `wip`, not `in_progress`. See "Findings".
- A failed task fetch leaves `tasks` and `users` as they were. This is the previous snapshot, or the initial empty lists.
- A failed request's message is the body text, or else `statusText`.
- The two listings pass no method, so they are GETs only by `fetch`'s default.
- The restore effect tests the two entries for truthiness, so an empty stored token counts as absent.

## Model

| member | source | states |
|---|---|---|
| `Types.RoleLiterals` | types.ts:1 | a role is exactly `"admin"` or `"user"`, and parsing a literal gives the role that prints as it |
| `Types.StatusLiterals` | types.ts:19 | a status is exactly `"todo"`, `"wip"` or `"done"`, and parsing a literal gives the status that prints as it |
| `Sequences.FilterMembers` | app/pages/tasks.tsx:64 | `filter` keeps exactly the elements satisfying the predicate, each with its multiplicity, and drops all others |
| `Sequences.FilterOrder` | app/pages/tasks.tsx:112 | `filter` keeps the relative order of what it keeps (the result is a subsequence of the input) |
| `Sequences.FilterSnoc` | app/pages/tasks.tsx:43 | filtering a list extended by one element extends the filtered list by that element exactly when it satisfies the predicate |
| `Sequences.FilterPartition` | app/pages/tasks.tsx:41-45 | three mutually exclusive predicates that cover a list split it: the filtered lengths add up to the list's length |
| `Text.TrimStart` | app/pages/tasks.tsx:48 | drops exactly the leading ECMAScript white space: the result is a suffix, the dropped prefix is all white space, the result does not start with white space |
| `Text.TrimEnd` | app/pages/tasks.tsx:48 | the same at the end of the string |
| `Text.Trim` | app/pages/tasks.tsx:48 | `trim()` returns a slice of the input with only white space outside it and no white space at either end |
| `Text.TrimEmpty` | app/pages/tasks.tsx:48-50 | a title trims to the empty string exactly when it is all white space, which is when `createTask` returns early |
| `Text.TrimIdempotent` | app/pages/tasks.tsx:48 | trimming a trimmed title changes nothing |
| `UserCodec.EncodeField` | app/lib/auth.tsx:36 | a written text field has length `2n + 1` |
| `UserCodec.DecodeEncodeField` | app/lib/auth.tsx:28 | a field read back from the front of any text is the field written, and the rest is left over |
| `UserCodec.EncodeUser` | app/lib/auth.tsx:36 | the stored user entry is never the empty string, so the restore effect never treats it as absent |
| `UserCodec.DecodeEncodeUser` | app/lib/auth.tsx:28 | reading back a stored user gives the same user |
| `Api.SentToken` | app/lib/api.ts:6-13 | the token sent is the stored `"token"` entry exactly when that entry is present and non-empty |
| `Api.ComposeHeaders` | app/lib/api.ts:10-14 | headers are the caller's keys plus `Content-Type`, plus `Authorization` when a token is stored; `Content-Type` defaults to `application/json` unless the caller sets it; every caller header other than `Authorization` is kept; a stored token makes `Authorization` `Bearer <token>` over any caller value; with no token every caller header is kept |
| `Api.BearerExactlyWhenStored` | app/lib/api.ts:6-14 | without a caller `Authorization`, the header is present exactly when a non-empty token is stored, and its value is `Bearer ` followed by that token |
| `Api.BuildRequest` | app/lib/api.ts:8-16 | the URL is `API_URL` followed by the path, the method and body pass through, the headers are the merged headers, and the cache mode is always `no-store` |
| `Api.ErrorMessage` | app/lib/api.ts:20 | the error message is the body text when it is non-empty, otherwise the status text |
| `Api.Settle` | app/lib/api.ts:18-23 | a response fails exactly when it is not ok, with the fallback message; an ok response resolves with its parsed body |
| `Api.FailureMessage` | app/lib/api.ts:18-21 | a non-ok response always fails, and its message is empty only if both the body and the status text are |
| `Api.Describe` | app/lib/api.ts:26-75 | no endpoint passes headers of its own; a body always comes with an explicit method; only DELETE has a method and no body |
| `Api.RecognizeDescribe` | app/lib/api.ts:26-75 | each operation's path, method and body identify that operation and its arguments, and an id is carried verbatim after `/tasks/` or `/users/` |
| `Api.DescribeInjective` | app/lib/api.ts:26-75 | no two operations (or arguments) produce the same request |
| `Api.EndpointMethods` | app/lib/api.ts:28-74 | only `listTasks` and `listUsers` are GETs; login, register, createTask, updateTask and addUser POST; deleteTask and deleteUser DELETE; setUserActive PATCHes |
| `Session.StoredSession` | app/lib/auth.tsx:23-30 | a stored session is found only when both entries are present and non-empty, and then it is the stored token and the stored user |
| `Session.Persisted` | app/lib/auth.tsx:32-37 | storing a session writes the `"token"` and `"user"` keys from the same response and leaves every other key as it was |
| `Session.Cleared` | app/lib/auth.tsx:51-57 | logging out removes exactly the `"token"` and `"user"` keys and leaves every other entry as it was |
| `Session.ReloadRestoresSession` | app/lib/auth.tsx:23-37 | after `storeSession`, the restore effect finds the same token and user, unless the token is empty |
| `Session.ReloadAfterLogout` | app/lib/auth.tsx:23-57 | after logout, the restore effect finds no session |
| `Session.LogoutRevokesBearer` | app/lib/api.ts:6-14 | after logout, a request carries an `Authorization` header only if its caller supplied one |
| `Session.LoginSendsBearer` | app/lib/api.ts:6-14 | after login or register with a non-empty token, every request carries `Bearer <token>` whatever the caller passed |
| `Session.SessionStore.constructor` | app/lib/auth.tsx:19-20 | the provider mounts with no user and no token, which satisfies the invariant |
| `Session.SessionStore.Restore` | app/lib/auth.tsx:23-30 | when a session is stored, both fields take the stored token and user; otherwise both stay as they were; storage is only read; the invariant is kept |
| `Session.SessionStore.StoreSession` | app/lib/auth.tsx:32-37 | both fields are set from one response and both keys are written |
| `Session.SessionStore.Login` | app/lib/auth.tsx:39-43 | sends `POST /auth/login` with the credentials; on success stores the session and returns `/tasks`; on failure propagates the message and changes nothing in memory or storage |
| `Session.SessionStore.Register` | app/lib/auth.tsx:45-49 | the same as login, against `/auth/register` |
| `Session.SessionStore.Logout` | app/lib/auth.tsx:51-57 | always clears both fields and both keys, returns `/login`, and afterwards no role is held |
| `Session.SessionStore.HasRole` | app/lib/auth.tsx:59 | false for every role without a session; otherwise true exactly for the user's role |
| `Board.IndexOf` | app/pages/tasks.tsx:57 | `indexOf` gives the first position of the status in the list, or -1 when it is absent |
| `Board.NextStatusCycle` | app/pages/tasks.tsx:56-57 | the next status is todo→wip, wip→done, done→todo; it always differs from the current one; three steps return to the start |
| `Board.ReplaceById` | app/pages/tasks.tsx:59 | length is kept; each task with the id becomes the server's task; every other task stays in its position |
| `Board.LastResponseWins` | app/pages/tasks.tsx:58-59 | two updates of one task applied in turn leave the whole of the last one in the cache, not a merge |
| `Board.ReplaceIdempotent` | app/pages/tasks.tsx:68-69 | applying the same server answer twice is the same as applying it once |
| `Board.RemoveById` | app/pages/tasks.tsx:64 | no task with the id remains; every other task is kept as often as it occurred and in its relative order |
| `Board.AssignableUsers` | app/pages/tasks.tsx:112 | the candidates are exactly the roster's active users, each as often as it occurs in the roster, in roster order |
| `Board.BucketMembers` | app/pages/tasks.tsx:41-45 | a bucket holds exactly the tasks whose status has the bucket's name, each as often as it occurs in the list, in list order |
| `Board.BucketSnoc` | app/pages/tasks.tsx:43 | visiting one more task appends it to its status's bucket and to no other |
| `Board.BucketKeyOf` | app/pages/tasks.tsx:42 | of the three statuses, only `wip` has no bucket |
| `Board.Grouping` | app/pages/tasks.tsx:41-45 | grouping succeeds exactly when no task is `wip`, and otherwise fails with the error that `push` on an undefined bucket raises |
| `Board.ByStatus` | app/pages/tasks.tsx:41-45 | the loop returns the buckets `todo`, `in_progress` and `done`, each the order-preserving filter of the tasks by that name, or fails at a `wip` task |
| `Board.GroupingPartitions` | app/pages/tasks.tsx:41-45 | when grouping succeeds, `in_progress` is always empty and every task is in the bucket of its status, so `todo` and `done` together hold the whole list |
| `Board.AsWrittenBoardFails` | app/pages/tasks.tsx:84-93 | either grouping throws, or the `wip` column the page reads is undefined |
| `Board.AdvancedTaskBreaksGrouping` | app/pages/tasks.tsx:42-57 | a `todo` task advanced once is `wip`, and a list holding it cannot be grouped |
| `Board.IntendedGrouping` | app/pages/tasks.tsx:42 | the intended buckets are named `todo`, `wip` and `done`, and every status has a column |
| `Board.IntendedGroupingPartitions` | app/pages/tasks.tsx:41-45 | in the intended grouping each task is in exactly one bucket, the one for its status, and the bucket sizes add up to the list's |
| `Board.LoadError` | app/pages/tasks.tsx:33 | the load error is never empty: it is the thrown message, or `Failed to load` when that is empty |
| `Board.TasksView.constructor` | app/pages/tasks.tsx:17-20 | the view starts with no tasks, no users, no error, and loading |
| `Board.TasksView.Load` | app/pages/tasks.tsx:23-37 | lists tasks and users. A failed roster fetch only empties the roster. A failed task fetch keeps the old tasks and users and records the message or `Failed to load`. The error is cleared when the task fetch succeeds, and loading always ends |
| `Board.TasksView.CreateTask` | app/pages/tasks.tsx:47-53 | a title that trims to nothing sends nothing and changes nothing. Otherwise the trimmed title and the untrimmed description are sent. On success the server's task is put in front of the old list; on failure the list is unchanged |
| `Board.TasksView.ToggleStatus` | app/pages/tasks.tsx:55-60 | sends the next status for the task's id; on success each task with that id becomes the server's task; on failure nothing changes |
| `Board.TasksView.DeleteTask` | app/pages/tasks.tsx:62-65 | sends the delete for the task's id; only on success is every task with that id removed |
| `Board.TasksView.AssignUser` | app/pages/tasks.tsx:67-70 | sends an update whose assignee list is exactly the one given id, unchecked; on success the server's task replaces the cached one; on failure nothing changes |

## Left out

- Network I/O is not modelled. A server call is a parameter: `Ok(value)` or `Err(message)`. A request is a value; `fetch`, response objects and `res.json()` are left out.
- `Promise.all` in `load` is modelled as two independent outcomes. Interleaved completions of concurrent handlers are not modelled. Each handler captures an old `tasks`, so two concurrent handlers can race on a stale closure; only a sequential call order is captured.
- React machinery is left out: `useState`, the once-only timing of `useEffect`, `useMemo` and the router. State is class fields, and navigation is a returned route.
- JSON is not modelled. The user entry is written and read with the stand-in codec in `UserCodec`.
- Session.SessionStore.Restore: a stored user entry that does not decode to a user leaves the session unchanged, so the invariant holds for the model only. In the source, `JSON.parse` throws on malformed text after `setToken` has run. Well-formed text that is not a user object, such as `null`, `0` or `[]`, parses without error. The effect then sets the token together with a `null` or non-user `user`; for `null` this is the partial session that `Valid()` rules out.
- The `typeof window` guards are left out: storage is always available.
- `useAuth`'s error outside a provider is left out.
- Board.TasksView.CreateTask: the title and description arrive as strings. The `FormData` lookup and its `|| ""` default for a missing field are not modelled.
- The server's answer is trusted as given. For example, a created task is not checked to be `todo`.
- The `as any` cast in `assignUser` is reflected only in sending the assignee list as bare ids. The mistyped `http<Task[]>` of `listUsers` is ignored: the roster is a list of `User`.
- Api.ComposeHeaders: header names are compared as plain object keys. `fetch`'s case-insensitive header normalisation is not modelled.
- `addUser`, `deleteUser` and `setUserActive` are modelled only as endpoint descriptors. Their callers, the admin pages, are not part of this model.
- app/pages/login.tsx, app/components/Navbar.tsx and app/components/Protected.tsx are not part of this model. They only call `login`, `hasRole("admin")` and `logout`, or test `user` for null.
- Strings are sequences of Unicode scalar values, not of UTF-16 code units, so a lone surrogate cannot be represented. `trim()` is not affected, because every white-space character lies in the Basic Multilingual Plane.
- JSX rendering is left out. The exceptions are the active-user filter and the column lookup `byStatus[s]`.

## Findings

| source | as written | input that shows it | evidently intended | confidence | as-written member | corrected member |
|---|---|---|---|---|---|---|
| app/pages/tasks.tsx:42 | `byStatus` starts with buckets `todo`, `in_progress` and `done`, but a task's status is `todo`, `wip` or `done`, so `groups[t.status].push(t)` throws for a `wip` task, and the page's `byStatus["wip"].map` throws even when no task is `wip` | a single `todo` task after one press of "Next" (status `wip`); or any list once loading finished without error | buckets named `todo`, `wip` and `done`, so that every task is in exactly one column | high; not executed | `Board.AsWrittenBoardFails` | `Board.IntendedGroupingPartitions` |

`Board.ByStatus` and `Board.Grouping` keep the code's behaviour, since that is what the controller does. `Board.IntendedGrouping` is the corrected grouping, and `Board.IntendedGroupingPartitions` proves the partition property about it.
