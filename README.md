# Task list client: verified model of its state controller and HTTP gateways

A mobile client keeps a list of tasks, each with a photo and a location, in step with a REST
backend. This project models its core in Dafny:

- **the task controller** (`useTodos`). It holds the task list, four busy flags (loading,
  creating, updating, deleting) and an error cell. It loads the list, puts a newly created
  task first, and flips or removes a task *optimistically*: the list changes before the
  backend answers. On failure the controller puts back a by-value snapshot of the whole list.
  A 401 or 403 from the backend signs the user out.
- **the gateways** (`todoService`, `imageService`, `authService`). Each turns an HTTP status
  and body into a thrown error with a message, or shapes a successful body into a result.
  The image gateway also derives the upload's file name from the local path.
- **the upload hook** (`useImageUpload`). It holds an `uploading` flag and an error cell
  around one image upload, and maps the gateway's error to a message for the user.

Each HTTP exchange is an input value. A gateway call made by a controller is an input
`Reply<T> = Ok(value) | Thrown(error)`. The controller logs every request it sends in its
`sent` field and counts calls to `signOut` in `signOuts`. The signed-in user is passed to each
operation.

Files: `foundation.dfy` holds modules `Wrappers` (Option), `Js` (JavaScript truthiness, `||`,
`??`) and `Http` (the thrown error, `Reply`, a response). The other files are `types.dfy`,
`todo_service.dfy`, `image_service.dfy`, `auth_service.dfy`, `image_upload.dfy`,
`task_list.dfy` (the list transforms the controller uses) and `use_todos.dfy` (the
controller class).

## Model

| member | source | states |
|---|---|---|
| `Types.CompletedOnly` | hooks/useTodos.ts:116-118 | the toggle's update body sets `completed` and no other field |
| `TodoService.GetTodosRequest` | services/todo.service.ts:5-10 | fetching is a GET of `/todos` with the bearer token and no body |
| `TodoService.CreateTodoRequest` | services/todo.service.ts:36-54 | the create body always has `completed` false, `photoUri` set to the uploaded image URL, the title, and the location copied field by field |
| `TodoService.UpdateTodoRequest` | services/todo.service.ts:76-84 | an update is a PATCH of `/todos/<id>` whose body is exactly the given partial task |
| `TodoService.DeleteTodoRequest` | services/todo.service.ts:105-111 | a delete is a DELETE of `/todos/<id>` with no body |
| `TodoService.RequestNamesTask` | services/todo.service.ts:77 | the path of an update or delete gives back the task id; the fetch path names no task |
| `TodoService.Classify` | services/todo.service.ts:56-68 | a failure is "unauthorized" exactly on 401/403, a server fault exactly on status ≥ 500, and quotes the body exactly when the operation is not a fetch, the status is in neither class and the body is non-empty |
| `TodoService.Describe` | services/todo.service.ts:56-68 | every failure message is non-empty; the session message is used exactly for "unauthorized" and the server message exactly for a server fault; a quoted body follows the prefix "Error al … la tarea: " |
| `TodoService.InterpretDescribe` | services/todo.service.ts:56-68 | every message the gateway can throw is non-empty, and reading it back gives the kind of failure and the quoted body: no two kinds share a message |
| `TodoService.FailureError` | services/todo.service.ts:13-21 | a non-ok response's error always carries the response status and the body text as details |
| `TodoService.FailureErrorExplains` | services/todo.service.ts:86-98 | the thrown message is non-empty and identifies the status class of the response |
| `TodoService.GetTodos` | services/todo.service.ts:12-27 | a non-ok fetch throws the fetch error; an ok one whose body does not parse rejects with the parse error; otherwise it returns `data`, or `[]` when `data` is missing or falsy |
| `TodoService.FetchIgnoresBody` | services/todo.service.ts:12-22 | a failed fetch never quotes the body: its message depends only on the status and is one of three fixed texts |
| `TodoService.ItemOf` | services/todo.service.ts:71-72 | the result is `data` when truthy, otherwise the whole body |
| `TodoService.CreateTodo` | services/todo.service.ts:56-72 | a non-ok create throws the create error; an ok one whose body does not parse rejects with the parse error; otherwise it returns `data` or the whole body |
| `TodoService.UpdateTodo` | services/todo.service.ts:86-102 | a non-ok update throws the update error; an ok one whose body does not parse (such as an empty body) rejects with the parse error; otherwise it returns `data` or the whole body |
| `TodoService.DeleteTodo` | services/todo.service.ts:113-127 | a delete succeeds exactly when the status is ok, otherwise throws the delete error |
| `TodoService.UnauthorizedForEveryOp` | services/todo.service.ts:17-18 | for all four operations, 401 or 403 gives that operation's session message |
| `TodoService.QuotedBody` | services/todo.service.ts:65-66 | create, update and delete quote a non-empty body as "Error al … la tarea: body"; an empty body keeps the default message |
| `ImageService.Split` | services/image.service.ts:12 | splitting at "/" gives at least one piece, and no piece holds a slash |
| `ImageService.JoinSplit` | services/image.service.ts:12 | joining the pieces with "/" gives back the path |
| `ImageService.SplitJoin` | services/image.service.ts:12 | splitting the join of slash-free pieces gives back the pieces |
| `ImageService.SplitAtSlash` | services/image.service.ts:12 | splitting `a/b` gives the pieces of `a` followed by those of `b` |
| `ImageService.LastSegment` | services/image.service.ts:12 | the popped piece holds no slash, and a path without a slash is its own last piece |
| `ImageService.LastSegmentCons` | services/image.service.ts:12 | a path without a slash is its own last segment; otherwise the first character does not affect the last segment |
| `ImageService.LastSegmentIsSuffix` | services/image.service.ts:12 | the popped piece is the slash-free end of the path, preceded by a slash unless it is the whole path |
| `ImageService.FileName` | services/image.service.ts:12 | the file name is the last path segment when that is non-empty and `photo.jpg` otherwise; it is never empty, holds no slash, and is `photo.jpg` only when the last segment is empty or is itself `photo.jpg` |
| `ImageService.FileNameOfPath` | services/image.service.ts:12 | the name for `dir/base` is `base`, and a path ending in "/" gets `photo.jpg` |
| `ImageService.FormFields` | services/image.service.ts:13-21 | the form holds the same descriptor `{uri, name, "image/jpeg"}` under "file" and then "image" |
| `ImageService.BackendMessage` | services/image.service.ts:40-44 | the backend message is the first truthy of message, error, title and detail, and it is falsy only if all four are |
| `ImageService.IsNonEmptyString` | services/image.service.ts:46 | `backendMessage && typeof backendMessage === "string"` holds exactly for a truthy string |
| `ImageService.UploadFailureMessage` | services/image.service.ts:33-53 | a parsed body is quoted only when its backend message is a non-empty string; an unparsable body is quoted when non-empty; otherwise the default message stays |
| `ImageService.NonStringMessageSuppresses` | services/image.service.ts:40-48 | a truthy non-string `message` hides a string `error`, leaving the default message |
| `ImageService.UploadFailure` | services/image.service.ts:31-35 | the upload error carries the response status and the body text as details |
| `ImageService.ResolveUrl` | services/image.service.ts:59 | the URL is `data.url` unless that is null or undefined, else the top-level `url` |
| `ImageService.UploadImage` | services/image.service.ts:31-65 | a non-ok upload throws the upload error; an ok one whose body does not parse rejects with the parse error; otherwise it returns the resolved URL unchanged when truthy and otherwise throws the "no valid URL" error; a returned URL is always truthy |
| `ImageService.EmptyNestedUrlDoesNotFallThrough` | services/image.service.ts:59-63 | an empty `data.url` is not replaced by the top-level `url`, so the upload fails |
| `AuthService.LoginFailureMessage` | services/auth.service.ts:23-29 | the message is "Email o contraseña incorrectos." exactly on 401/403, the server message exactly on status ≥ 500, the default otherwise |
| `AuthService.Login` | services/auth.service.ts:13-40 | a thrown fetch or parse error is rethrown unchanged; a non-ok status throws its message with the status attached; an ok body yields `data` if truthy, else the whole body |
| `AuthService.LoginFailureIdentifiesClass` | services/auth.service.ts:31-33 | a failed login's error carries the response status, no details, and the non-empty message of its status class |
| `ImageUpload.IsServerFault` | hooks/useImageUpload.ts:22-24 | `status && status >= 500` holds exactly when a status is present and is at least 500 |
| `ImageUpload.IsUnauthorized` | hooks/useImageUpload.ts:26 | a 401 or 403 has a status and is never also a server fault |
| `ImageUpload.UploadErrorMessage` | hooks/useImageUpload.ts:22-29 | status ≥ 500 gives the server message and 401/403 the unauthorized one; a missing or other status gives the error's message, or the fallback when that is empty; never empty |
| `ImageUpload.GatewayFailureMessages` | hooks/useImageUpload.ts:22-29 | for each failure of the image gateway the hook shows the server, unauthorized or gateway message by status class; the missing-URL failure shows its own text, and an unparsable success body is the parse error itself |
| `ImageUpload.UploadState.constructor` | hooks/useImageUpload.ts:11-12 | the hook starts not uploading and with no error |
| `ImageUpload.UploadState.UploadImage` | hooks/useImageUpload.ts:14-35 | the gateway's outcome is returned or rethrown unchanged; `uploading` is false afterwards; the error is cleared on success and set to the mapped message on failure |
| `TaskList.FindById` | hooks/useTodos.ts:103-104 | the result is absent exactly when no task has the id, and is otherwise a task of the list with that id |
| `TaskList.FindByIdIsFirst` | hooks/useTodos.ts:103 | what is found is the first task with the id: the one with no match before it |
| `TaskList.Flip` | hooks/useTodos.ts:108 | the flipped task has `completed` negated and every other field unchanged |
| `TaskList.Toggled` | hooks/useTodos.ts:106-110 | the optimistic list has the same length and order; every task with the id is flipped, every other task is unchanged |
| `TaskList.ToggledTwice` | hooks/useTodos.ts:106-110 | toggling the same id twice gives back the list |
| `TaskList.ToggledAbsent` | hooks/useTodos.ts:106-110 | toggling an id no task has leaves the list unchanged |
| `TaskList.ToggledKeepsAllButCompleted` | hooks/useTodos.ts:106-110 | at every position only `completed` can differ, and it differs exactly where the id matches |
| `TaskList.Without` | hooks/useTodos.ts:135 | the list after a delete is no longer and holds no task with the id |
| `TaskList.WithoutMembers` | hooks/useTodos.ts:135 | a task survives exactly when it was in the list and does not have the id |
| `TaskList.WithoutIsSubsequence` | hooks/useTodos.ts:135 | the survivors keep their original relative order |
| `TaskList.WithoutAppend` | hooks/useTodos.ts:135 | removing from a concatenation removes from each part in place |
| `TaskList.WithoutAbsent` | hooks/useTodos.ts:135 | deleting an id no task has leaves the list unchanged |
| `TaskList.WithoutLength` | hooks/useTodos.ts:135 | a delete drops exactly as many tasks as have the id |
| `TaskList.WithoutToggled` | hooks/useTodos.ts:106-135 | deleting after toggling the same id is the same as deleting |
| `UseTodos.SessionToken` | hooks/useTodos.ts:53 | `!user?.token` is false exactly for a signed-in user whose token is present and non-empty, and then that token is the one sent |
| `UseTodos.ErrorStatus` | hooks/useTodos.ts:37 | the status is the error's own when present, else `response.status`; it is missing only when both are |
| `UseTodos.GatewayErrorStatus` | services/todo.service.ts:13-15 | the status of every task-gateway failure is the response's own status |
| `UseTodos.UnparsableUpdateKeepsSession` | services/todo.service.ts:101-102 | an ok update whose body does not parse rejects with the parse error, which has no status and so never signs out; the controller shows its message or the fallback |
| `UseTodos.ForcesSignOut` | hooks/useTodos.ts:37-39 | the user is signed out exactly on a 401 or 403, read from the error's own status when it has one and from `response.status` only otherwise |
| `UseTodos.ApiErrorMessage` | hooks/useTodos.ts:37-47 | 401/403 (from `status`, else `response.status`) gives the session message; otherwise the error's message, or the fallback when it is empty |
| `UseTodos.GatewayFailureHandling` | hooks/useTodos.ts:37-47 | for any task-gateway failure: sign-out happens exactly on 401/403, the session message appears exactly then, and otherwise the gateway's message is shown, never the fallback |
| `UseTodos.TodoStore.constructor` | hooks/useTodos.ts:26-31 | the controller starts with no tasks, no error and every busy flag false |
| `UseTodos.TodoStore.HandleApiError` | hooks/useTodos.ts:33-50 | stores the mapped message and signs out once exactly when the error's status is 401 or 403 |
| `UseTodos.TodoStore.LoadTodos` | hooks/useTodos.ts:52-68 | without a token: empties the list and sends nothing, leaving the flag and error alone. With one: sends one fetch and leaves `isLoading` false; on success the list is exactly the fetched one and the error is cleared; on failure the list is unchanged and the error is handled |
| `UseTodos.TodoStore.CreateTodo` | hooks/useTodos.ts:70-96 | without a token nothing changes. With one: sends one create and leaves `isCreating` false; on success the new task is put first; on failure the list is unchanged, the error is handled and rethrown |
| `UseTodos.TodoStore.ToggleTodo` | hooks/useTodos.ts:98-128 | nothing changes without a token or when no task has the id. Otherwise one update carrying only the negated flag of the first match is sent; on success the list is `Toggled`; on failure it is exactly the list before |
| `UseTodos.TodoStore.DeleteTodo` | hooks/useTodos.ts:130-151 | nothing changes without a token. Otherwise the delete is sent even for an absent id; on success the list is `Without` the id; on failure it is exactly the list before; `isDeleting` is false afterwards |

## Left out

- `fetch`, `FormData`, `response.text()`, `response.json()`, `JSON.stringify` and `JSON.parse` are foreign code. Their results are inputs: a `Response` value, a `Reply` for a call that may throw, and an `Option` that is `None` where `JSON.parse` throws.
- On an ok status the body's parse is a `Reply`: a body that is not JSON (an empty or HTML body) rejects with the parse error. A successful response whose JSON is not an object (for example the literal `null`, where `json.data` throws) is not modelled. Bodies are records whose `data` field is absent when missing or falsy. `whole` is the body itself read as the entity, as the source returns it unchecked.
- JavaScript numbers inside parsed bodies are integers here; `NaN` and fractions are not modelled, since those values are only tested for truthiness.
- `API_URL` is configuration outside this model; request paths are relative to it.
- React machinery is not modelled: `useState`, `useCallback` and the `tasks` value captured by each callback, and the `useEffect` that loads on mount.
- Concurrency is not modelled: each operation runs to completion before the next starts. Overlapping toggles or deletes, where a later rollback can undo another update, cannot be expressed.
- `UseTodos.TodoStore.LoadTodos`: does not state that `isLoading` is true while the request is pending, because an atomic operation has no pending interval; only the state before and after is visible.
- `UseTodos.TodoStore.CreateTodo`: does not state that `isCreating` is true while the request is pending, for the same reason.
- `UseTodos.TodoStore.ToggleTodo`: does not state that the toggled list and `isUpdating` are visible while the request is pending; the toggled list is what a success leaves, for the same reason.
- `UseTodos.TodoStore.DeleteTodo`: does not state that the shortened list and `isDeleting` are visible while the request is pending, for the same reason.
- `ImageUpload.UploadState.UploadImage`: does not state that `uploading` is true while the upload is pending, for the same reason.
- `console.error` logging is left out. What `signOut` does inside the auth context is not part of this model; it is counted as an event.
- Location coordinates are floating point. They are `real` pairs carried through unchanged and never computed on.
- utils/storage.ts (session persistence), the screens under app/ (form validation, camera, location, the upload-then-create flow) and the UI components are not part of this model.
