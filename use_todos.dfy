/**
 * The task controller (hooks/useTodos.ts): the task list, four busy flags and an error cell,
 * updated by load, create, toggle and delete. Toggle and delete change the list before the
 * gateway answers and put back a by-value snapshot when it fails. The signed-in user and
 * the outcome of each gateway call are inputs; `signOut` is a counted event, and every
 * request issued to the gateway is logged.
 */
module UseTodos {
  import opened Wrappers
  import opened Types
  import opened Http
  import TodoService
  import opened TaskList

  const SessionExpiredMessage: string := "Sesión expirada o token inválido. " + "Vuelve a iniciar sesión."

  const LoadFallback: string := "Error al obtener las tareas"
  const CreateFallback: string := "Error al crear la tarea"
  const UpdateFallback: string := "Error al actualizar la tarea"
  const DeleteFallback: string := "Error al eliminar la tarea"

  /** `user?.token` as a condition: a user whose token is present and non-empty. */
  function SessionToken(user: Option<User>): (token: Option<string>)
    ensures token.Some? <==> user.Some? && user.value.token.Some? && user.value.token.value != ""
    ensures token.Some? ==> token == user.value.token
  {
    if user.Some? && user.value.token.Some? && user.value.token.value != "" then user.value.token else None
  }

  /** `err?.status ?? err?.response?.status`. */
  function ErrorStatus(e: Error): (status: Option<int>)
    ensures status.None? <==> e.status.None? && e.responseStatus.None?
    ensures e.status.Some? ==> status == e.status
    ensures e.status.None? ==> status == e.responseStatus
  {
    if e.status.Some? then e.status else e.responseStatus
  }

  /** Whether handling the error signs the user out. */
  function ForcesSignOut(e: Error): (b: bool)
    ensures e.status.Some? ==> (b <==> e.status.value == 401 || e.status.value == 403)
    ensures e.status.None? ==> (b <==> e.responseStatus == Some(401) || e.responseStatus == Some(403))
  {
    ErrorStatus(e) == Some(401) || ErrorStatus(e) == Some(403)
  }

  /** The message `handleApiError` stores for an error. */
  function ApiErrorMessage(e: Error, fallback: string): (m: string)
    ensures ForcesSignOut(e) ==> m == SessionExpiredMessage
    ensures !ForcesSignOut(e) && e.message != "" ==> m == e.message
    ensures !ForcesSignOut(e) && e.message == "" ==> m == fallback
  {
    if ForcesSignOut(e) then SessionExpiredMessage
    else if e.message != "" then e.message
    else fallback
  }

  /**
   * End to end for every task operation: a gateway failure signs the user out exactly on a
   * 401 or 403, the stored message is the session message exactly then, and otherwise the
   * gateway's own message is shown, never the controller's fallback.
   */
  lemma {:induction false} GatewayFailureHandling(op: TodoService.Op, status: int, text: string, fallback: string)
    ensures var e := TodoService.FailureError(op, status, text);
      && (ForcesSignOut(e) <==> status == 401 || status == 403)
      && (ApiErrorMessage(e, fallback) == SessionExpiredMessage <==> status == 401 || status == 403)
      && (status != 401 && status != 403 ==> ApiErrorMessage(e, fallback) == e.message)
  {
    var e := TodoService.FailureError(op, status, text);
    TodoService.FailureErrorExplains(op, status, text);
    TodoService.MessageShapes(op);
    assert SessionExpiredMessage[0] == 'S' && SessionExpiredMessage[18] == 't';
    var f := TodoService.Classify(op, status, text);
    if f.Rejected? {
      assert e.message[0] == TodoService.RejectedPrefix(op)[0] == 'E';
    }
  }

  /** The status a task-gateway failure carries is the response's own, so only a 401 or 403 response signs out. */
  lemma GatewayErrorStatus(op: TodoService.Op, status: int, text: string)
    ensures ErrorStatus(TodoService.FailureError(op, status, text)) == Some(status)
  {
  }

  /**
   * An ok response whose body does not parse rejects with the parse error. Such an error
   * (a `SyntaxError`) has no status, so it never signs out; the parse error's message, or the
   * fallback, is shown. That the toggle is then rolled back is `TodoStore.ToggleTodo`'s failure case.
   */
  lemma UnparsableUpdateKeepsSession(status: int, text: string, e: Error)
    requires IsOk(status) && e.status.None? && e.responseStatus.None?
    ensures TodoService.UpdateTodo(Response(status, text, Thrown(e))) == Thrown(e)
    ensures !ForcesSignOut(e)
    ensures ApiErrorMessage(e, UpdateFallback) == (if e.message != "" then e.message else UpdateFallback)
  {
  }

  class TodoStore {
    var tasks: seq<Task>
    var isLoading: bool
    var isCreating: bool
    var isUpdating: bool
    var isDeleting: bool
    var error: Option<string>
    /** How many times `signOut` has been called. */
    var signOuts: nat
    /** The requests issued to the task gateway, oldest first. */
    var sent: seq<TodoService.Request>

    constructor ()
      ensures tasks == [] && error.None? && signOuts == 0 && sent == []
      ensures !isLoading && !isCreating && !isUpdating && !isDeleting
    {
      tasks := [];
      isLoading, isCreating, isUpdating, isDeleting := false, false, false, false;
      error := None;
      signOuts := 0;
      sent := [];
    }

    /** `handleApiError`: a 401 or 403 stores the session message and signs out; anything else stores the error's message or the fallback. */
    method HandleApiError(e: Error, fallback: string)
      modifies this`error, this`signOuts
      ensures error == Some(ApiErrorMessage(e, fallback))
      ensures signOuts == old(signOuts) + (if ForcesSignOut(e) then 1 else 0)
    {
      var status := ErrorStatus(e);
      if status == Some(401) || status == Some(403) {
        error := Some(SessionExpiredMessage);
        signOuts := signOuts + 1;
        return;
      }
      var message := if e.message != "" then e.message else fallback;
      error := Some(message);
    }

    /**
     * `loadTodos`: without a token the list is emptied and nothing else happens; otherwise the
     * error is cleared, the list is fetched and replaces the current one, and a failure leaves
     * the list as it was.
     */
    method LoadTodos(user: Option<User>, fetched: Reply<seq<Task>>)
      modifies this
      ensures isCreating == old(isCreating) && isUpdating == old(isUpdating) && isDeleting == old(isDeleting)
      ensures SessionToken(user).None? ==>
        && tasks == []
        && isLoading == old(isLoading) && error == old(error)
        && signOuts == old(signOuts) && sent == old(sent)
      ensures SessionToken(user).Some? ==>
        && !isLoading
        && sent == old(sent) + [TodoService.GetTodosRequest(SessionToken(user).value)]
        && (fetched.Ok? ==> tasks == fetched.value && error.None? && signOuts == old(signOuts))
        && (fetched.Thrown? ==>
              && tasks == old(tasks)
              && error == Some(ApiErrorMessage(fetched.error, LoadFallback))
              && signOuts == old(signOuts) + (if ForcesSignOut(fetched.error) then 1 else 0))
    {
      var token := SessionToken(user);
      if token.None? {
        tasks := [];
        return;
      }
      isLoading := true;
      error := None;
      sent := sent + [TodoService.GetTodosRequest(token.value)];
      match fetched {
        case Ok(fetchedTodos) =>
          tasks := fetchedTodos;
        case Thrown(e) =>
          HandleApiError(e, LoadFallback);
      }
      isLoading := false;
    }

    /**
     * `createTodo`: without a token nothing happens; otherwise the task the gateway returns
     * is put first, and a failure leaves the list as it was and is rethrown.
     */
    method CreateTodo(user: Option<User>, title: string, imageUrl: string, location: Location, created: Reply<Task>)
      returns (rethrown: Option<Error>)
      modifies this
      ensures SessionToken(user).None? ==> unchanged(this) && rethrown.None?
      ensures SessionToken(user).Some? ==>
        && !isCreating
        && isLoading == old(isLoading) && isUpdating == old(isUpdating) && isDeleting == old(isDeleting)
        && sent == old(sent) + [TodoService.CreateTodoRequest(SessionToken(user).value, title, imageUrl, location)]
        && (created.Ok? ==>
              && tasks == [created.value] + old(tasks)
              && error.None? && signOuts == old(signOuts) && rethrown.None?)
        && (created.Thrown? ==>
              && tasks == old(tasks)
              && error == Some(ApiErrorMessage(created.error, CreateFallback))
              && signOuts == old(signOuts) + (if ForcesSignOut(created.error) then 1 else 0)
              && rethrown == Some(created.error))
    {
      rethrown := None;
      var token := SessionToken(user);
      if token.None? {
        return;
      }
      isCreating := true;
      error := None;
      sent := sent + [TodoService.CreateTodoRequest(token.value, title, imageUrl, location)];
      match created {
        case Ok(newTask) =>
          tasks := [newTask] + tasks;
        case Thrown(e) =>
          HandleApiError(e, CreateFallback);
          rethrown := Some(e);
      }
      isCreating := false;
    }

    /**
     * `toggleTodo`: without a token, or when no task has the id, nothing happens. Otherwise
     * every task with the id has `completed` flipped, an update carrying only the first such
     * task's negated flag is sent, and a failure puts back the list as it was before.
     */
    method ToggleTodo(user: Option<User>, id: string, updated: Reply<Task>)
      modifies this
      ensures SessionToken(user).None? || !HasId(old(tasks), id) ==> unchanged(this)
      ensures SessionToken(user).Some? && HasId(old(tasks), id) ==>
        && !isUpdating
        && isLoading == old(isLoading) && isCreating == old(isCreating) && isDeleting == old(isDeleting)
        && sent == old(sent) + [TodoService.UpdateTodoRequest(SessionToken(user).value, id,
                                  CompletedOnly(!FindById(old(tasks), id).value.completed))]
        && (updated.Ok? ==>
              && tasks == Toggled(old(tasks), id)
              && error.None? && signOuts == old(signOuts))
        && (updated.Thrown? ==>
              && tasks == old(tasks)
              && error == Some(ApiErrorMessage(updated.error, UpdateFallback))
              && signOuts == old(signOuts) + (if ForcesSignOut(updated.error) then 1 else 0))
    {
      var token := SessionToken(user);
      if token.None? {
        return;
      }
      var previousTasks := tasks;
      var taskToUpdate := FindById(previousTasks, id);
      if taskToUpdate.None? {
        return;
      }
      tasks := Toggled(previousTasks, id);
      isUpdating := true;
      error := None;
      sent := sent + [TodoService.UpdateTodoRequest(token.value, id, CompletedOnly(!taskToUpdate.value.completed))];
      if updated.Thrown? {
        tasks := previousTasks;
        HandleApiError(updated.error, UpdateFallback);
      }
      isUpdating := false;
    }

    /**
     * `deleteTodo`: without a token nothing happens. Otherwise every task with the id is
     * dropped and the delete is sent even when no task has the id; a failure puts back the
     * list as it was before.
     */
    method DeleteTodo(user: Option<User>, id: string, deleted: Reply<()>)
      modifies this
      ensures SessionToken(user).None? ==> unchanged(this)
      ensures SessionToken(user).Some? ==>
        && !isDeleting
        && isLoading == old(isLoading) && isCreating == old(isCreating) && isUpdating == old(isUpdating)
        && sent == old(sent) + [TodoService.DeleteTodoRequest(SessionToken(user).value, id)]
        && (deleted.Ok? ==>
              && tasks == Without(old(tasks), id)
              && error.None? && signOuts == old(signOuts))
        && (deleted.Thrown? ==>
              && tasks == old(tasks)
              && error == Some(ApiErrorMessage(deleted.error, DeleteFallback))
              && signOuts == old(signOuts) + (if ForcesSignOut(deleted.error) then 1 else 0))
    {
      var token := SessionToken(user);
      if token.None? {
        return;
      }
      var previousTasks := tasks;
      tasks := Without(previousTasks, id);
      isDeleting := true;
      error := None;
      sent := sent + [TodoService.DeleteTodoRequest(token.value, id)];
      if deleted.Thrown? {
        tasks := previousTasks;
        HandleApiError(deleted.error, DeleteFallback);
      }
      isDeleting := false;
    }
  }
}
