# Collaborative workspace: a Dafny model of its core

The system is a small collaborative workspace. A FastAPI backend stores users and
tasks and serves one shared document over a WebSocket channel. A Next.js client
shows a task board, a document editor and pages guarded by role. This project
models the parts of both that hold logic:

- **`ConnectionManager`** (`connection_manager.dfy`): the server's roster of
  live sockets. Covers `disconnect`, `broadcast`, `update_cursor` and
  `get_presence`. The roster is a `seq` field of the class `Manager`. Every
  message sent on any socket goes into one ordered log in `Transport`; one
  socket's outbox is `Outbox(log, w)`.
- **`DocumentWs`** (`document_ws.dfy`): the document channel handler.
  - As written, the handler never gets past the join. The entry is appended,
    then building `init` fails on `get_presence` (first Findings row). That
    failure is outside the `try`, so the entry stays in the roster, nothing is
    sent and no message is read. `JoinedAsWritten` models this.
  - With the corrected presence list, a socket joins, receives `init`, and the
    others get a presence message. Then come the `update`, `cursor` and ignored
    messages of the receive loop, and the clean-up on disconnect. A pure state
    machine over (document, roster, sent log) specifies this handler: `Joined`,
    `Handled`, `Left` and `Session`.
  - The class `DocumentEndpoint` runs the corrected steps imperatively, and each
    of its methods is proved to refine that machine.
- **`Users`** (`users.dfy`): `create_user`, `login` and `logout` over the stored
  user list, with their HTTP status codes.
- **`Auth`** (`auth.dfy`): `require_role`.
- **`Tasks`** (`tasks.dfy`): listing, creating, replacing and deleting tasks by
  id.
- **`TaskBoard`** (`task_board.dfy`): the client's three-column task board. A
  Viewer's every change is turned into a warning toast.
- **`DocumentPage`** (`document_page.dfy`): the client's document editor, which
  saves to and loads from the browser's local storage.
- **`AuthGuard`** (`auth_guard.dfy`): the client's decision to show a spinner,
  nothing or the page, and where to redirect.

`Common` (`common.dfy`) holds what several modules share:
- `Option`, `Result` and `Outcome`;
- the HTTP status codes and the three roles;
- `FindFirst`, which models Python's `next(...)` over a generator and the
  loops that stop at the first match.

Where the code and its design description differ, the model follows the code,
except where a Findings row corrects it:

- On disconnect, the handler only removes the socket's entries from the roster.
  It broadcasts no presence message (backend/routes/ws/document_ws.py:62-63).
- An `update` stores the client's data with `lastEditedBy` and `lastUpdated`
  overwritten, and broadcasts that whole stamped document
  (backend/routes/ws/document_ws.py:42-52). It does not send the content
  alone.
- A cursor move broadcasts the presence list to every socket except the mover
  (backend/routes/ws/document_ws.py:59). It does not go to all participants.
- The backend tests expect a Viewer to get 403 when creating, updating or
  deleting a task. `tasks.py` has no role check, so the model has none either.
- The backend tests read the task list from the `data` key of the response
  (backend/tests/test_backend.py:154-156). `get_tasks` returns the bare list
  (backend/routes/api/tasks.py:12), and the model follows the code.
- The design mentions a reconnecting client with back-off and a presence
  tracker. Neither appears in the client's source: the document page uses only
  local storage.

## Model

| member | source | states |
|---|---|---|
| Common.FindFirst | backend/routes/api/users.py:34 | The index `next(...)` stops at: a match with no earlier match; None exactly when nothing matches |
| Common.FindFirstAppend | backend/utils/auth.py:11-13 | Appending entries never changes a first match that was already in the list; without one, the first match is the appended part's, shifted by the old length |
| ConnectionManager.Without | backend/utils/connection_manager.py:12-16 | `disconnect` keeps exactly the entries of other sockets; length drops by the number of entries of `ws`; the roster is unchanged when `ws` is absent |
| ConnectionManager.WithoutAppend | backend/utils/connection_manager.py:14-16 | Disconnecting works piecewise, so the remaining entries keep their relative order |
| ConnectionManager.OccurrencesInUniqueRoster | backend/tests/test_connection_manager.py:17-41 | In a roster without repeated sockets, a socket has one entry when connected and none otherwise, so disconnecting it shortens the list by one |
| ConnectionManager.WithCursor | backend/utils/connection_manager.py:25-30 | `update_cursor` sets the cursor of the first entry of `ws` only; length, sockets, users and every other entry stay unchanged; with no entry nothing changes |
| ConnectionManager.Presence | backend/utils/connection_manager.py:32-37 | One presence item per roster entry, in roster order, with that entry's user and cursor (the corrected `get_presence`) |
| ConnectionManager.PresenceAsWritten | backend/utils/connection_manager.py:32-37 | `get_presence` as written: a KeyError on the first entry, so an empty list only for an empty roster (no contract; used by `DocumentWs.JoinedAsWritten`) |
| ConnectionManager.Manager.GetPresence | backend/utils/connection_manager.py:32-37 | The corrected presence list of the current roster, read without changing it (no contract; `Presence` states it) |
| ConnectionManager.NoOccurrences | backend/utils/connection_manager.py:15 | A socket has no entry exactly when no entry holds it |
| ConnectionManager.OccurrencesSnoc | backend/routes/ws/document_ws.py:14-18 | Appending an entry adds one entry for its own socket and none for any other |
| ConnectionManager.JoinKeepsSocketsUnique | backend/routes/ws/document_ws.py:14-18 | Appending an entry for a socket that has none keeps the roster free of repeated sockets |
| ConnectionManager.WithoutLeavesNoEntry | backend/utils/connection_manager.py:12-16 | After `disconnect(ws)`, `ws` has no entry left |
| ConnectionManager.KeptLastStaysUnique | backend/utils/connection_manager.py:14-16 | Keeping an entry whose socket is not repeated after the other survivors keeps sockets unique |
| ConnectionManager.LeaveKeepsSocketsUnique | backend/utils/connection_manager.py:12-16 | Disconnecting keeps the roster free of repeated sockets |
| ConnectionManager.Deliveries | backend/utils/connection_manager.py:18-23 | One delivery per entry whose socket is not the sender, in roster order (no contract; `OutboxOfDeliveries` and `Manager.Broadcast` state it) |
| ConnectionManager.PresenceAfterCursorMove | backend/utils/connection_manager.py:25-37 | After a cursor move, the presence list differs from the old one only at the moved entry |
| ConnectionManager.OutboxAppend | backend/utils/connection_manager.py:18-23 | A socket's outbox over two stretches of sending is the two outboxes in order |
| ConnectionManager.OutboxOfDeliveries | backend/utils/connection_manager.py:18-23 | A broadcast sends nothing to the sender and one copy to each other socket for each of its roster entries |
| ConnectionManager.BroadcastReachesEachOtherOnce | backend/utils/connection_manager.py:18-23 | With unique sockets, a broadcast reaches every connected socket except the sender exactly once; with no sender it reaches every socket |
| ConnectionManager.Repeat | backend/utils/connection_manager.py:20-23 | `n` copies of a message |
| ConnectionManager.Transport.SendJson | backend/utils/connection_manager.py:23 | `send_json` appends one delivery to the sent log |
| ConnectionManager.Manager.Disconnect | backend/utils/connection_manager.py:12-16 | The roster becomes `Without(old roster, ws)` |
| ConnectionManager.Manager.constructor | backend/utils/connection_manager.py:5-6 | A new manager starts with an empty roster |
| ConnectionManager.Manager.Broadcast | backend/utils/connection_manager.py:18-23 | The loop sends exactly `Deliveries(roster, msg, sender)`, in roster order, and changes no roster |
| ConnectionManager.Manager.UpdateCursor | backend/utils/connection_manager.py:25-30 | The loop with `break` leaves the roster equal to `WithCursor(old roster, ws, position)` |
| ConnectionManager.ConnectAndDisconnectScenario | backend/tests/test_connection_manager.py:17-41 | The unit test's scenario: the cursor reads 5, only the other socket gets the ping, and one entry remains after a disconnect |
| DocumentWs.UserName | backend/routes/ws/document_ws.py:12 | The `user` query parameter, `"unknown"` when absent (no contract) |
| DocumentWs.Snapshot | backend/routes/ws/document_ws.py:22-26 | The stored document, or an empty object when none is stored (no contract) |
| DocumentWs.JoinedAsWritten | backend/routes/ws/document_ws.py:11-36 | The join with `get_presence` as written: the entry is appended, then the step stops at the first failing presence list (no contract; `JoinAsWrittenLeavesGhostEntry` states it) |
| DocumentWs.JoinAsWrittenLeavesGhostEntry | backend/routes/ws/document_ws.py:11-38 | As written, every join crashes: the entry stays for good and nothing is sent. With the corrected presence, the newcomer is sent its `init`, and after any session and disconnect no entry is left |
| DocumentWs.Joined | backend/routes/ws/document_ws.py:11-36 | The corrected join: the entry, `init` to the newcomer, presence to the others (no contract; `JoinRegistersAndGreets` and `JoinAnnouncesToOthers` state it) |
| DocumentWs.Handled | backend/routes/ws/document_ws.py:40-60 | One message of the corrected receive loop (no contract; the `update`, `cursor` and other-message lemmas state it) |
| DocumentWs.Left | backend/routes/ws/document_ws.py:62-63 | The disconnect clean-up (no contract; `LeaveRemovesEveryEntry` states it) |
| DocumentWs.Session | backend/routes/ws/document_ws.py:38-60 | The corrected receive loop over a sequence of messages (no contract; the session lemmas state it) |
| DocumentWs.ConnectionKeepsSocketsUnique | backend/routes/ws/document_ws.py:11-63 | A socket that joins without an entry keeps the roster free of repeated sockets through its join, its session and its disconnect |
| DocumentWs.JoinAnnouncesOnceToEachOther | backend/routes/ws/document_ws.py:33-36 | In a roster free of repeated sockets, every socket already connected gets the newcomer's presence message exactly once |
| DocumentWs.Stamped | backend/routes/ws/document_ws.py:42-46 | The stored document has the client's keys plus `lastEditedBy` set to the connection's user (whatever the client sent) and `lastUpdated` set to the handling time; other values are kept |
| DocumentWs.JoinRegistersAndGreets | backend/routes/ws/document_ws.py:11-29 | Joining appends one entry (the user, no cursor) and leaves the others; the newcomer's only new message is `init` with the stored document and a presence list that includes itself |
| DocumentWs.JoinAnnouncesToOthers | backend/routes/ws/document_ws.py:33-36 | After a join, every other socket gets the presence message once for each of its entries, and the newcomer does not |
| DocumentWs.UpdateReplacesAndRebroadcasts | backend/routes/ws/document_ws.py:42-52 | `update` replaces the stored document with the stamped data and sends it to every socket but the sender; the roster is unchanged |
| DocumentWs.CursorMovesOnlyOwnEntry | backend/routes/ws/document_ws.py:54-60 | `cursor` moves only this socket's first entry, leaves the document alone, and sends the new presence to the others |
| DocumentWs.OtherMessageIgnored | backend/routes/ws/document_ws.py:38-60 | A message whose type is neither `update` nor `cursor` changes no state and sends nothing |
| DocumentWs.LeaveRemovesEveryEntry | backend/routes/ws/document_ws.py:62-63 | On disconnect, every entry of the socket leaves the roster and nothing is sent or stored |
| DocumentWs.SameSocketsSameOccurrences | backend/routes/ws/document_ws.py:54-60 | Rosters with the same sockets in the same places give each socket the same number of entries |
| DocumentWs.WithoutForgetsSocketEntries | backend/routes/ws/document_ws.py:62-63 | Removing a socket forgets every change made to that socket's entries |
| DocumentWs.SessionTouchesOnlyOwnEntries | backend/routes/ws/document_ws.py:38-60 | Over any sequence of messages, the handler changes the roster only in its own socket's entries |
| DocumentWs.SessionSendsNothingToSender | backend/routes/ws/document_ws.py:38-60 | Nothing the receive loop broadcasts comes back to the socket it serves |
| DocumentWs.SessionLastWriterWins | backend/routes/ws/document_ws.py:42-46 | After a session, the stored document is the last `update` it received, stamped |
| DocumentWs.SessionWithoutUpdateKeepsDocument | backend/routes/ws/document_ws.py:38-60 | A session without `update` messages leaves the stored document as it was |
| DocumentWs.ConnectionLeavesNoTrace | backend/routes/ws/document_ws.py:11-63 | After join, any messages and disconnect, the roster is the old one without the socket; it is exactly the old one when the socket was new |
| DocumentWs.ConnectionHearsOnlyInit | backend/routes/ws/document_ws.py:11-63 | Over a whole connection, the socket's own handler sends it exactly one message: its `init`; messages from other connections' handlers are not counted |
| DocumentWs.DocumentEndpoint.Join | backend/routes/ws/document_ws.py:11-36 | The join steps take the server state to `Joined`, with the user name defaulting to `"unknown"` |
| DocumentWs.DocumentEndpoint.Handle | backend/routes/ws/document_ws.py:40-60 | One received message takes the server state to `Handled` |
| DocumentWs.DocumentEndpoint.Leave | backend/routes/ws/document_ws.py:62-63 | Disconnect takes the server state to `Left` |
| DocumentWs.DocumentEndpoint.Serve | backend/routes/ws/document_ws.py:11-63 | The whole coroutine (join, the receive loop over the inbox, disconnect) takes the state to `Left(Session(Joined(...)))` |
| Users.CreateUserChecksFieldsFirst | backend/routes/api/users.py:26-27 | A missing or empty creator, username or password gets 400 whatever users are stored |
| Users.Given | backend/routes/api/users.py:26 | Python truthiness of an optional string: present and non-empty (no contract; `CreateUserChecksFieldsFirst` and `Logout` state its use) |
| Users.UsernameTaken | backend/routes/api/users.py:39 | Some stored user already has the name (no contract; `CreateUserAdminGate`, `CreateUserSuccess` and `Logout` state its use) |
| Users.CreateUserAdminGate | backend/routes/api/users.py:30-40 | With all fields given, 403 happens exactly when the first user with the creator's name is missing or not an Admin; a duplicate name gets 400 only after that check passes |
| Users.CreateUserSuccess | backend/routes/api/users.py:43-50 | A created user gets id `len(users)+1`, the requested name and password, the role `"Viewer"` unless one is given, and a name nobody had |
| Users.CreateUserKeepsNamesUnique | backend/routes/api/users.py:39-50 | Creating users keeps user names unique |
| Users.CreateUserDecision | backend/routes/api/users.py:20-54 | The outcome of `create_user`, with the checks in the code's order (no contract; the four `CreateUser` lemmas state it) |
| Users.LoginAsWritten | backend/routes/api/users.py:64-79 | `login` as written, with its 401 re-raised as 500 (no contract; `WrongPasswordIsServerErrorAsWritten` and `UserStore.Login` state it) |
| Users.UserStore.CreateUser | backend/routes/api/users.py:17-59 | The outcome is `CreateUserDecision`; the list grows by exactly the new user on success and is unchanged on any error |
| Users.WrongPasswordIsServerErrorAsWritten | backend/routes/api/users.py:76-79 | As written, a wrong password against the seeded admin gets 500 |
| Users.UserStore.Login | backend/routes/api/users.py:61-79 | Returns the name and role of the first user whose name and password both match, and 401 exactly when none does; it agrees with the code as written except that the code reports 500 |
| Users.Logout | backend/routes/api/users.py:81-105 | 400 exactly when the name is missing or empty, 404 exactly when no user has it, success otherwise; the list is only read |
| Auth.RequireRole | backend/utils/auth.py:5-20 | 401 exactly when no user has the name, 403 exactly when the first such user's role is not allowed, success exactly when it is |
| Auth.FirstNamedIsUnique | backend/utils/auth.py:11-13 | Only one user is the first with a given name |
| Auth.RequireRoleMonotone | backend/utils/auth.py:18-20 | Allowing more roles never turns a success into a failure |
| Auth.RequireRoleIgnoresLaterUsers | backend/utils/auth.py:11-13 | Users stored after the first with a name do not change the decision |
| Auth.CreatorCheckIsAdminRoleCheck | backend/routes/api/users.py:30-36 | The creator check in `create_user` is the Admin role check, with its 401 folded into 403 |
| Auth.CreatedUserIsUsable | backend/routes/api/users.py:43-74 | A newly created user can log in with its password and passes the role check exactly for its own role |
| Tasks.Updated | backend/routes/api/tasks.py:28-44 | Replaces the first task with the id by the body under the path id; length and every other task unchanged; no change when absent |
| Tasks.WithId | backend/routes/api/tasks.py:19-20 | The dumped body with its id set, also used by `update_task` (no contract; `Updated`, `CreateFresh` and `UpdateThenFind` state its use) |
| Tasks.Deleted | backend/routes/api/tasks.py:46-60 | Removes the first task with the id; one shorter, with the order of the rest kept; no change when absent |
| Tasks.MaxIdOfSequential | backend/routes/api/tasks.py:20 | In a list with ids `1..n`, the largest id is its length |
| Tasks.CreateFreshAgreesWhileSequential | backend/routes/api/tasks.py:14-26 | Until a task is deleted, the corrected creation gives the same list as `len(tasks)+1`, and ids stay `1..n` |
| Tasks.CreatedAsWritten | backend/routes/api/tasks.py:14-26 | `create_task` as written: the body appended under id `len(tasks)+1` (no contract; `IdRepeatsAfterDelete` and `CreateFreshAgreesWhileSequential` state it) |
| Tasks.CreateThenDeleteRestores | backend/routes/api/tasks.py:14-60 | Deleting the task just created (as written) restores the list when its id was new |
| Tasks.UpdateThenFind | backend/routes/api/tasks.py:28-44 | An update keeps ids unique, and reading the id back gives the new body |
| Tasks.IdRepeatsAfterDelete | backend/routes/api/tasks.py:20 | With ids `len(tasks)+1`, deleting task 1 of `[1, 2]` and then creating a task gives two tasks with id 2 |
| Tasks.MaxId | backend/routes/api/tasks.py:20 | An upper bound of every stored id |
| Tasks.CreateFresh | backend/routes/api/tasks.py:14-26 | Creation with an id above every stored one: the new id is not in use, and unique ids stay unique |
| Tasks.TaskStore.GetTasks | backend/routes/api/tasks.py:8-12 | Returns the stored list unchanged |
| Tasks.TaskStore.Create | backend/routes/api/tasks.py:14-26 | Appends one task at the end, earlier tasks unchanged, with the corrected id (one above every stored id), so unique ids stay unique |
| Tasks.TaskStore.Update | backend/routes/api/tasks.py:28-44 | The loop leaves the list equal to `Updated`, and returns the new task, or 404 exactly when the id is absent |
| Tasks.TaskStore.Delete | backend/routes/api/tasks.py:46-60 | The loop leaves the list equal to `Deleted`, and reports 404 exactly when the id is absent |
| TaskBoard.IsJsWhitespace | frontend/app/dashboard/board/page.tsx:31 | The characters `trim()` removes: ECMAScript white space and line terminators (no contract; `TrimStart` and `TrimEnd` state its use) |
| TaskBoard.Trim | frontend/app/dashboard/board/page.tsx:31 | `trim()` (no contract; `TrimmedNonEmpty` states it) |
| TaskBoard.TrimStart | frontend/app/dashboard/board/page.tsx:31 | Empty exactly when the title is all white space; otherwise it starts with a character that is not white space |
| TaskBoard.TrimEnd | frontend/app/dashboard/board/page.tsx:31 | Empty exactly when the title is all white space |
| TaskBoard.TrimmedNonEmpty | frontend/app/dashboard/board/page.tsx:31 | `title.trim()` is truthy exactly when the title has a character that is not JavaScript white space |
| TaskBoard.AddTask | frontend/app/dashboard/board/page.tsx:32-37 | The board with one `todo` task appended under id `length+1` (no contract; `AddTaskKeepsIds` and `HandleAddTask` state it) |
| TaskBoard.TasksByStatus | frontend/app/dashboard/board/page.tsx:53-55 | A column is never longer than the board; the column lemmas state the rest |
| TaskBoard.MoveLeftTarget | frontend/app/dashboard/board/page.tsx:70 | The "Move Left" target (no contract; `MoveButtonsStepOneColumn` states it) |
| TaskBoard.MoveRightTarget | frontend/app/dashboard/board/page.tsx:82 | The "Move Right" target (no contract; `MoveButtonsStepOneColumn` states it) |
| TaskBoard.MoveTask | frontend/app/dashboard/board/page.tsx:48-50 | Every task with the id gets the new status; ids, titles, length, order and the other tasks are unchanged |
| TaskBoard.ColumnHoldsItsStatus | frontend/app/dashboard/board/page.tsx:53-55 | A column holds a task exactly when the task is on the board with the column's status |
| TaskBoard.ColumnSnoc | frontend/app/dashboard/board/page.tsx:53-55 | A task added at the end joins the end of its own column and no other |
| TaskBoard.ColumnKeepsOrder | frontend/app/dashboard/board/page.tsx:53-55 | The filter distributes over concatenation, so a column lists its tasks in board order |
| TaskBoard.MoveButtonsStepOneColumn | frontend/app/dashboard/board/page.tsx:68-91 | Move-left exists except from To Do and goes back one column; move-right exists except from Done and goes forward one; each undoes the other |
| TaskBoard.ShownSnoc | frontend/app/dashboard/board/page.tsx:53-61 | A task added at the end shows in exactly one column |
| TaskBoard.ColumnsPartitionBoard | frontend/app/dashboard/board/page.tsx:53-61 | The three columns hold every task exactly once between them |
| TaskBoard.AddTaskKeepsIds | frontend/app/dashboard/board/page.tsx:32-37 | Adding keeps ids `1..n` sequential, and the new id is one nobody has |
| TaskBoard.MovedTaskShowsInTarget | frontend/app/dashboard/board/page.tsx:42-55 | After a move, the task shows in its target column and in no other |
| TaskBoard.MoveTaskRoundTrip | frontend/app/dashboard/board/page.tsx:42-51 | Moving is idempotent, and moving back to the old status restores the board |
| TaskBoard.TaskBoard.constructor | frontend/app/dashboard/board/page.tsx:14-23 | Starts with the three seeded tasks, an empty title and no toast |
| TaskBoard.TaskBoard.HandleAddTask | frontend/app/dashboard/board/page.tsx:25-40 | A Viewer gets the toast and nothing else; a blank title changes nothing; otherwise one `todo` task with the next id and the untrimmed title is appended and the input cleared; the new id is one no earlier task has |
| TaskBoard.TaskBoard.HandleMoveTask | frontend/app/dashboard/board/page.tsx:42-51 | A Viewer gets the toast and tasks stay; otherwise tasks become `MoveTask(old tasks, id, status)` |
| TaskBoard.TaskBoard.HandleTitleChange | frontend/app/dashboard/board/page.tsx:122-128 | A Viewer's typing leaves the title and sets the toast; anyone else's replaces the title |
| TaskBoard.TaskBoard.HandleTitleClick | frontend/app/dashboard/board/page.tsx:129 | Clicking the input warns a Viewer and changes nothing else |
| TaskBoard.TaskBoard.DismissToast | frontend/app/dashboard/board/page.tsx:101-107 | Closing the toast hides it and changes nothing else |
| DocumentPage.Loaded | frontend/app/dashboard/doc/page.tsx:18-23 | On mount, the stored text replaces the content only when there is one and it is non-empty; `SaveThenLoad`, `LoadIdempotent` and `SaveAndReopen` state what this means for saving and reopening |
| DocumentPage.SaveThenLoad | frontend/app/dashboard/doc/page.tsx:19-40 | Saving then loading yields the saved text, except that an empty text is not restored |
| DocumentPage.LoadIdempotent | frontend/app/dashboard/doc/page.tsx:18-23 | Mounting twice is the same as mounting once |
| DocumentPage.LocalStorage.GetItem | frontend/app/dashboard/doc/page.tsx:19 | The stored value under the key, or none |
| DocumentPage.LocalStorage.SetItem | frontend/app/dashboard/doc/page.tsx:40 | Stores the value under the key and leaves the other keys |
| DocumentPage.DocumentPage.constructor | frontend/app/dashboard/doc/page.tsx:7-15 | Content starts as the default text, with no toast and no message |
| DocumentPage.DocumentPage.Mount | frontend/app/dashboard/doc/page.tsx:18-23 | Content becomes `Loaded(old content, storage)` |
| DocumentPage.DocumentPage.HandleContentChange | frontend/app/dashboard/doc/page.tsx:25-31 | A Viewer's edit leaves the content and sets the toast; anyone else's replaces the content wholesale |
| DocumentPage.DocumentPage.HandleSave | frontend/app/dashboard/doc/page.tsx:33-45 | A Viewer's save writes nothing and sets the toast; anyone else's stores the content under `"document_content"` and sets the success message |
| DocumentPage.DocumentPage.HandleTextareaClick | frontend/app/dashboard/doc/page.tsx:47-51 | A click or focus warns a Viewer and changes nothing else |
| DocumentPage.DocumentPage.DismissToast | frontend/app/dashboard/doc/page.tsx:55-61 | Closing the warning hides it |
| DocumentPage.DocumentPage.DismissSaveMessage | frontend/app/dashboard/doc/page.tsx:63-70 | Closing the success toast clears the message |
| DocumentPage.SaveAndReopen | frontend/app/dashboard/doc/page.tsx:12-45 | After an editor's save, a page opened on the same storage shows the saved text (the default when it was empty), whatever a Viewer's page did in between |
| AuthGuard.Guard | frontend/components/AuthGuard.tsx:17-57 | Spinner exactly while loading; the page exactly when loaded, signed in and the role is not rejected; `/login` exactly when loaded with no user; `/menu` exactly when a signed-in user's role is rejected |
| AuthGuard.RoleRejected | frontend/components/AuthGuard.tsx:28 | The role test repeated at line 52: a list is given, the user has a role, and it is not in the list (no contract; `Guard`, `NoListAdmitsEveryUser` and `WiderListAdmitsMore` state it) |
| AuthGuard.NeverStranded | frontend/components/AuthGuard.tsx:17-57 | A redirect happens exactly when nothing is rendered |
| AuthGuard.NoListAdmitsEveryUser | frontend/components/AuthGuard.tsx:28-57 | With no allowed-roles list, every signed-in user sees the page, with no redirect |
| AuthGuard.WiderListAdmitsMore | frontend/components/AuthGuard.tsx:28-54 | Widening the allowed-roles list never hides a page that was shown |

## Left out

- Reading and writing the JSON files (backend/utils/file_ops.py), its lock and
  its atomic rename are not modelled. Each store is an in-memory field, and
  each handler that writes the file writes that field instead.
- The clock is not modelled. `datetime.now()` becomes an input: each received
  message carries the time it was handled at.
- The activity log (`add_activity`) is not modelled. In the user routes and the
  document handler it only records logging. In the task routes it does more:
  see the `Tasks.TaskStore` lines below.
- Concurrency is not modelled. The asynchronous handlers of different sockets
  could interleave at each `await`. The model runs one socket's whole coroutine
  at a time (`DocumentEndpoint.Serve`); the steps `Join`, `Handle` and `Leave`
  can be composed in any order.
- Failures of `send_json`, and socket objects themselves, are not modelled.
  Sockets are identities, and sending always succeeds.
- Only string values in JSON objects are modelled. Document data, and messages
  that are not `update`/`cursor`, are maps from strings to strings. A cursor
  position is any JSON value in the code (backend/routes/ws/document_ws.py:55),
  stored and broadcast as it is; the model keeps only integer positions and
  an absent position.
- Messages without `type` or `data`, or with a `data` that is not an object,
  are not modelled. The server's KeyError on these ends the connection without
  running the clean-up, and the model does not include that path.
- The JSON document API (backend/routes/api/document.py), the activity API,
  app wiring and seed data are not part of this model.
- Client-side fetches, session restore, the router and toast timers are not
  modelled. This includes the 3000 ms timeout that clears the save message.
- Tasks are not limited by role. The backend tests expect Viewers to be refused
  with 403 on tasks, but `tasks.py` never checks a role, so the model follows
  the code.
- Pydantic validation of request bodies is not modelled. Bodies are well-typed
  values, and task ids in a body are ignored, as in the code.
- The client's reconnect with back-off and its presence tracker are left out:
  they are not part of the client's source.
- Tasks.TaskStore.Create: uses the corrected id (see Findings). The id the code
  computes, `len(tasks) + 1`, is `Tasks.CreatedAsWritten`. The two agree as long
  as no task was deleted.
- Tasks.TaskStore.Create: answers with the created task. As written, the
  activity line reads the key `assigned_to`, but a dumped task has
  `assignedTo` (backend/routes/api/tasks.py:25, backend/models/schemas.py:20).
  That KeyError comes after the list was written, so the task is stored but the
  client gets 500.
- Tasks.TaskStore.Update: answers with the updated task. As written, the same
  KeyError on `assigned_to` (backend/routes/api/tasks.py:41) comes after the
  write, so the update is stored but the client gets 500.
- Tasks.TaskStore.Delete: answers with success. As written, the same KeyError
  on `assigned_to` (backend/routes/api/tasks.py:57) comes after the write, so
  the task is gone but the client gets 500.
- DocumentWs.Joined: uses the corrected `get_presence`. As written, the join
  stops at the KeyError; that is `DocumentWs.JoinedAsWritten`.
- DocumentWs.Handled: its `cursor` branch broadcasts the corrected presence
  list. As written it would raise KeyError after moving the cursor. As written,
  the receive loop is never reached anyway, because every join crashes first.
- DocumentWs.Session: the corrected receive loop. As written it never runs.
- DocumentWs.JoinRegistersAndGreets: about the corrected join. As written, the
  newcomer gets no `init` (see `JoinAsWrittenLeavesGhostEntry`).
- DocumentWs.JoinAnnouncesToOthers: about the corrected join. As written, no
  presence message is sent.
- DocumentWs.JoinAnnouncesOnceToEachOther: about the corrected join. As written,
  no presence message is sent.
- DocumentWs.CursorMovesOnlyOwnEntry: about the corrected `cursor` branch. As
  written, the presence broadcast raises KeyError after the cursor moves.
- DocumentWs.ConnectionLeavesNoTrace: about the corrected handler. As written,
  the entry is never removed and stays in the roster
  (`JoinAsWrittenLeavesGhostEntry`).
- DocumentWs.ConnectionHearsOnlyInit: about the corrected handler. As written,
  the socket is sent nothing. The lemma also counts only what the socket's own
  handler sends. While the socket is connected, the other connections' handlers
  keep running, and their join presence, `update` and `cursor` broadcasts
  (backend/routes/ws/document_ws.py:33-36, 49-52, 57-60) also reach it.
- DocumentWs.ConnectionKeepsSocketsUnique: about the corrected handler. As
  written, a socket id that joins twice stays in the roster twice.
- DocumentWs.DocumentEndpoint.Join: refines the corrected `Joined`, not the
  crashing join as written.
- DocumentWs.DocumentEndpoint.Handle: refines the corrected `Handled`, whose
  `cursor` branch uses the corrected presence list.
- DocumentWs.DocumentEndpoint.Serve: composes the corrected join, loop and
  disconnect. As written, the coroutine ends at the join.
- DocumentPage.LocalStorage: models one page's view of storage. Other browser
  tabs writing to the same storage are not modelled.

## Findings

| source | as written | input that shows it | evidently intended | confidence | as-written member | corrected member |
|---|---|---|---|---|---|---|
| backend/utils/connection_manager.py:35 | `get_presence` reads the key `"username"`, but roster entries store the name under `"user"` (backend/routes/ws/document_ws.py:16) | Any join: the roster holds the newcomer, so building `init` raises KeyError after the entry was appended, outside the `try`; the socket stays in the roster for good and gets no `init` | One presence item per entry, carrying the entry's user and cursor | high, not executed | DocumentWs.JoinAsWrittenLeavesGhostEntry | ConnectionManager.Presence |
| backend/routes/api/users.py:76-79 | The 401 for a bad login is raised inside `try` and caught by `except Exception`, which re-raises it as 500 | Login as `admin123` with password `wrong` | 401 Unauthorized, as the backend test expects | high, not executed | Users.WrongPasswordIsServerErrorAsWritten | Users.UserStore.Login |
| backend/routes/api/tasks.py:20 | A new task's id is `len(tasks) + 1` | Tasks with ids 1 and 2; delete 1, then create: both tasks have id 2 | Ids that are unique among stored tasks | medium, not executed | Tasks.IdRepeatsAfterDelete | Tasks.CreateFresh |
