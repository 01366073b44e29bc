# Todo client session and list synchronisation

A model of the client-side state machine inside the `App` component of the
React todo client: restoring a stored session on mount, logging in and out,
fetching the list, and adding, toggling, renaming and deleting items. Each
handler is a pure transition from the component's state, the server's
outcome and (for delete) the confirm answer to the settled state plus the
requests it sent. Nothing is optimistic: the list changes only after the
server reports success.

- `Wrappers` — `Option`, standing for `null` and for a missing storage key.
- `Text` — JavaScript's `trim` over the exact ECMAScript whitespace set,
  and the blank-input guard `!x.trim()`.
- `TodoList` — the `Todo` record, replace-by-id (`todos.map`) and
  filter-by-id (`todos.filter`), and lemmas about length, order and ids.
- `App` — the `State` record (every `useState` slot plus the two
  `localStorage` keys), the `Response` outcome type (ok with a payload,
  non-ok with an optional `error` string, or an exception), the `Request`
  type, the exact error strings, and one function per handler.
- `Lifecycle` — events, a run over a sequence of events, the invariant
  every step keeps, and lemmas relating several handlers.

Inputs that stand for the outside world: every server reply is a
`Response` argument; `localStorage` is the `storage` field of the state;
`window.confirm` is a `bool` argument. A login's follow-up list fetch is
reported as a `ListCall` request in the login's `sent` list, and its reply
is applied later by `FetchTodos` (the source does not await it).

Two behaviours of the code that a reader might not expect, both modelled
as written:
- The error slot is cleared only when a login starts and on logout. A
  successful fetch, add, toggle, rename or delete leaves an earlier error
  in place.
- The mount effect tests the stored values for truthiness, so an empty
  stored token counts as missing. `LoginThenMount` shows the consequence:
  a login that returns an empty token stores a session that the next mount
  ignores.

## Model

| member | source | states |
|---|---|---|
| Text.Trim | react-node-todo-app/Frontend/src/App.js:84 | `trim` returns the input with its surrounding whitespace removed: a contiguous piece of it, preceded and followed only by whitespace, that neither starts nor ends with whitespace |
| Text.TrimStart | react-node-todo-app/Frontend/src/App.js:84 | the result is a suffix of the input, everything dropped is whitespace, and it does not start with whitespace |
| Text.TrimEnd | react-node-todo-app/Frontend/src/App.js:84 | the result is a prefix of the input, everything dropped is whitespace, and it does not end with whitespace |
| Text.BlankIffAllWhitespace | react-node-todo-app/Frontend/src/App.js:84 | the `!x.trim()` guard rejects a string exactly when every character is whitespace (both directions) |
| Text.TrimIdempotent | react-node-todo-app/Frontend/src/App.js:135 | trimming a trimmed string changes nothing |
| TodoList.CountId | react-node-todo-app/Frontend/src/App.js:172 | the number of items with an id is at most the length, and zero exactly when the id does not occur |
| TodoList.ReplaceById | react-node-todo-app/Frontend/src/App.js:125 | replace-by-id keeps the length; positions with the id hold the server's object and every other position is unchanged |
| TodoList.RemoveById | react-node-todo-app/Frontend/src/App.js:172 | filter-by-id leaves no item with the id and shrinks the list by exactly the number of matches |
| TodoList.RemoveByIdMembers | react-node-todo-app/Frontend/src/App.js:172 | an item survives filter-by-id exactly when it was in the list with another id (both directions) |
| TodoList.RemoveByIdAppend | react-node-todo-app/Frontend/src/App.js:172 | filtering a concatenation is the concatenation of the filtered parts, so survivors keep their relative order |
| TodoList.RemoveByIdAbsent | react-node-todo-app/Frontend/src/App.js:172 | filtering out an id that does not occur returns the list unchanged |
| TodoList.RemoveByIdIdempotent | react-node-todo-app/Frontend/src/App.js:172 | deleting the same id twice removes no more than once |
| TodoList.ReplaceByIdAbsent | react-node-todo-app/Frontend/src/App.js:125 | updating an id that does not occur returns the list unchanged |
| TodoList.ReplaceByIdKeepsIds | react-node-todo-app/Frontend/src/App.js:149 | when the server echoes the id, every position keeps its id and the set of ids is unchanged |
| TodoList.RemoveAfterReplace | react-node-todo-app/Frontend/src/App.js:123-172 | deleting after an in-place update removes the same items as deleting directly, when the id is echoed |
| TodoList.AppendThenRemove | react-node-todo-app/Frontend/src/App.js:99-172 | appending an item with a fresh id and then filtering that id out gives back the original list |
| App.ServerMessageOr | react-node-todo-app/Frontend/src/App.js:49 | `data.error \|\| fallback`: the server's message when it is a non-empty string, otherwise the fallback, and never empty when the fallback is not |
| App.Initial | react-node-todo-app/Frontend/src/App.js:6-17 | the first render has no user, an empty list, no error, nothing loading, empty forms, no draft |
| App.Restore | react-node-todo-app/Frontend/src/App.js:20-27 | the mount effect adopts the stored user and fetches with the stored token exactly when the token is non-empty and a user is stored; only `user` changes |
| App.Mount | react-node-todo-app/Frontend/src/App.js:5-27 | after mounting the list is empty, there is no error, and a user is set exactly when the stored token is non-empty and a user is stored |
| App.Login | react-node-todo-app/Frontend/src/App.js:29-56 | credentials are posted; success stores and adopts the session, empties the form, clears the error and requests a list fetch with the new token; failure keeps the session and storage and sets the server's message, `Login failed` or the network message; loading ends false |
| App.Logout | react-node-todo-app/Frontend/src/App.js:58-64 | both storage keys removed, user, list and error cleared, no request, nothing else changed |
| App.FetchTodos | react-node-todo-app/Frontend/src/App.js:66-81 | success replaces the list with the server's list, so no stale item survives; failure keeps the list and sets `Failed to fetch todos` or `Network error` |
| App.AddTodo | react-node-todo-app/Frontend/src/App.js:83-110 | a blank input is a complete no-op with no request; otherwise the untrimmed input is posted, success appends the server's item after all earlier ones (length plus one) and clears the input, failure keeps list and input and sets the server's message, `Failed to add todo` or `Network error`; loading ends false; the error is not cleared on success |
| App.ToggleComplete | react-node-todo-app/Frontend/src/App.js:112-132 | the PUT carries exactly the negated flag; success replaces the items with the id by the server's object and leaves the others in place; failure only sets `Failed to update todo` or `Network error` |
| App.EditTodo | react-node-todo-app/Frontend/src/App.js:134-158 | a blank draft is a no-op and the draft stays open; otherwise the draft text is sent, success replaces by id and closes the draft, failure keeps list and draft and only sets the error |
| App.DeleteTodo | react-node-todo-app/Frontend/src/App.js:160-179 | a declined confirm is a no-op with no request; success yields the list filtered by the id (so, with `RemoveByIdMembers` and `RemoveByIdAppend`, no item with the id is left and every other item survives in its original order) and shrinks it by the number of matches; failure only sets `Failed to delete todo` or `Network error` |
| App.StartEdit | react-node-todo-app/Frontend/src/App.js:181-184 | the draft becomes the todo's id and title; nothing else changes |
| App.CancelEdit | react-node-todo-app/Frontend/src/App.js:186-189 | the draft becomes no id and empty text; nothing else changes |
| Lifecycle.Step | react-node-todo-app/Frontend/src/App.js:214-337 | each typing event (username, password, new-todo input, draft input) sends nothing and changes only its own input, the draft text only while a draft is open; every other event is its handler |
| Lifecycle.Run | react-node-todo-app/Frontend/src/App.js:20-189 | any sequence of events keeps a settled state settled, and without a mount or login no session appears |
| Lifecycle.StepKeepsSettled | react-node-todo-app/Frontend/src/App.js:29-189 | every handler keeps: nothing loading, a closed draft has empty text, an adopted user is the stored user with a stored token |
| Lifecycle.StepKeepsSignedOut | react-node-todo-app/Frontend/src/App.js:20-64 | no event other than the mount effect or a login sets a user |
| Lifecycle.FetchRetryAfterFailure | react-node-todo-app/Frontend/src/App.js:66-81 | a failed fetch keeps the old list, and a later success replaces it wholesale, ending where a first-time success would apart from the stale error |
| Lifecycle.MountIsSettled | react-node-todo-app/Frontend/src/App.js:6-27 | the initial and mounted states satisfy the invariant |
| Lifecycle.AuthenticatedCallsCarryToken | react-node-todo-app/Frontend/src/App.js:83-179 | while a user is set, every request other than the login itself carries a stored token |
| Lifecycle.LogoutThenMount | react-node-todo-app/Frontend/src/App.js:20-64 | after logout a fresh mount finds nothing and starts unauthenticated with no request |
| Lifecycle.LoginThenMount | react-node-todo-app/Frontend/src/App.js:20-47 | a login that returns a non-empty token persists a session the next mount adopts and fetches with; one that returns an empty token is ignored by the mount |
| Lifecycle.FailedLoginKeepsStorage | react-node-todo-app/Frontend/src/App.js:42-52 | a failed login does not change what the next mount restores |
| Lifecycle.StartEditReplacesDraft | react-node-todo-app/Frontend/src/App.js:181-184 | starting a second edit replaces the first without a cancel |
| Lifecycle.CancelEditForgetsDraft | react-node-todo-app/Frontend/src/App.js:181-189 | cancelling after starting an edit leaves the same state as cancelling without one |
| Lifecycle.AddThenDeleteRestoresList | react-node-todo-app/Frontend/src/App.js:97-172 | adding an item with a fresh id and then deleting it restores the earlier list |
| Lifecycle.ToggleThenDelete | react-node-todo-app/Frontend/src/App.js:123-172 | deleting after a successful toggle gives the same list as deleting directly |
| Lifecycle.EditRetryAfterFailure | react-node-todo-app/Frontend/src/App.js:134-157 | a failed save keeps the draft, so a retry ends where a first-time success would, apart from the stale error |

## Left out

- Rendering, CSS classes and `data-testid` wiring (App.js:191-387). The
  `onChange` setters of the four inputs appear only as events in
  `Lifecycle.Step`. The screen switch (App.js:191) is not modelled: any
  handler may fire in any state, and the mount effect may occur in the
  middle of a run, both over-approximations of what the UI allows. The add button's disabled state (App.js:298) repeats
  the blank guard and the `loading` flag and is not modelled separately.
- `fetch`, URL and header construction, and `response.json()`. Each reply
  is a `Response` value. A body that fails to parse is the exception
  outcome `NetworkFailure`.
- JSON serialisation of the stored user record. Storage holds the `User`
  value itself.
- `window.confirm` is the `confirmed` argument of `DeleteTodo`.
- Async interleaving. Each handler is one atomic step, so the stale reads
  of `todos` by handlers that overlap in time are not modelled. The
  `loading = true` moment of login and add is not observable between
  steps. Only its final `false` value is modelled.
- The default argument of `fetchTodos` (read the token from storage) is
  never used by any caller, so the list request always carries the token
  passed to it.
- Values the server might send that are not strings or records, such as
  a non-string `error` field or a missing `user`, are not modelled.
- `cypress/support/e2e.js` is test glue with no logic.
