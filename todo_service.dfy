/**
 * The task gateway (services/todo.service.ts): the request each operation issues, how a
 * non-ok status and its body text become the thrown error, and how a successful body is
 * shaped into the result. The HTTP exchange itself is an input: a `Response` value.
 */
module TodoService {
  import opened Wrappers
  import opened Types
  import opened Http

  /** The four gateway operations. */
  datatype Op = Fetch | Create | Update | Delete

  /** The four kinds of failure the gateway's messages tell apart. */
  datatype Failure = Unauthorized | ServerFault | Rejected(body: string) | Generic

  // ---------------------------------------------------------------- requests

  datatype Method = GET | POST | PATCH | DELETE

  /** The JSON body of a create request. */
  datatype NewTask = NewTask(title: string, completed: bool, location: Location, photoUri: string)

  datatype Body = NoBody | NewTaskBody(task: NewTask) | PatchBody(patch: Patch)

  /** An outgoing request: method, path below the API root, bearer token and body. */
  datatype Request = Request(httpMethod: Method, path: string, bearer: string, body: Body)

  function GetTodosRequest(token: string): (r: Request)
    ensures r.httpMethod == GET && r.path == "/todos" && r.bearer == token && r.body == NoBody
  {
    Request(GET, "/todos", token, NoBody)
  }

  /**
   * The create request: a new task is always sent as not completed, its photo is the
   * already-uploaded image URL and its location is copied field by field.
   */
  function CreateTodoRequest(token: string, title: string, imageUrl: string, location: Location): (r: Request)
    ensures r.httpMethod == POST && r.path == "/todos" && r.bearer == token && r.body.NewTaskBody?
    ensures r.body.task.title == title && !r.body.task.completed && r.body.task.photoUri == imageUrl
    ensures r.body.task.location.latitude == location.latitude
    ensures r.body.task.location.longitude == location.longitude
  {
    var body := NewTask(title, false, Location(location.latitude, location.longitude), imageUrl);
    Request(POST, "/todos", token, NewTaskBody(body))
  }

  /** The update request: its body is exactly the given partial task. */
  function UpdateTodoRequest(token: string, id: string, updates: Patch): (r: Request)
    ensures r.httpMethod == PATCH && r.path == "/todos/" + id && r.bearer == token
    ensures r.body == PatchBody(updates)
  {
    Request(PATCH, "/todos/" + id, token, PatchBody(updates))
  }

  function DeleteTodoRequest(token: string, id: string): (r: Request)
    ensures r.httpMethod == DELETE && r.path == "/todos/" + id && r.bearer == token && r.body == NoBody
  {
    Request(DELETE, "/todos/" + id, token, NoBody)
  }

  /** The task id a per-task path names, read back from the path. */
  function PathTaskId(path: string): (id: Option<string>)
    ensures id.Some? ==> path == "/todos/" + id.value
  {
    if |path| >= 7 && path[..7] == "/todos/" then Some(path[7..]) else None
  }

  /** A request's path identifies the task it updates or deletes. */
  lemma RequestNamesTask(token: string, id: string, updates: Patch)
    ensures PathTaskId(UpdateTodoRequest(token, id, updates).path) == Some(id)
    ensures PathTaskId(DeleteTodoRequest(token, id).path) == Some(id)
    ensures PathTaskId(GetTodosRequest(token).path).None?
  {
    var p := "/todos/" + id;
    assert p[..7] == "/todos/" && p[7..] == id;
  }

  // ---------------------------------------------------------------- errors

  /** The action each operation's messages use. */
  function Action(op: Op): string {
    match op
    case Fetch => "obtener"
    case Create => "crear"
    case Update => "actualizar"
    case Delete => "eliminar"
  }

  /** What the messages say is acted on: all tasks when fetching, one task otherwise. */
  function Object(op: Op): string {
    if op == Fetch then "las tareas" else "la tarea"
  }

  /** The message `new Error(...)` starts with, kept when nothing more specific applies. */
  function DefaultMessage(op: Op): string {
    "Error al " + Action(op) + " " + Object(op)
  }

  /** The message for a 401 or 403. */
  function UnauthorizedMessage(op: Op): string {
    "Sesión expirada o no autorizada al " + Action(op) + " tareas."
  }

  /** The message for a status of 500 or more. */
  function ServerMessage(op: Op): string {
    "Error del servidor al " + Action(op) + " " + Object(op) + "."
  }

  /** The text placed before a quoted response body: the default message and ": ". */
  function RejectedPrefix(op: Op): string {
    DefaultMessage(op) + ": "
  }

  /** Whether the operation quotes a non-empty response body; fetching never does. */
  predicate QuotesBody(op: Op) {
    op != Fetch
  }

  /** How a non-ok status and the body text are classified. */
  function Classify(op: Op, status: int, text: string): (f: Failure)
    ensures f == Unauthorized <==> status == 401 || status == 403
    ensures f == ServerFault <==> status >= 500
    ensures f.Rejected? <==> QuotesBody(op) && status != 401 && status != 403 && status < 500 && text != ""
    ensures f.Rejected? ==> f.body == text
  {
    if status == 401 || status == 403 then Unauthorized
    else if status >= 500 then ServerFault
    else if QuotesBody(op) && text != "" then Rejected(text)
    else Generic
  }

  /** The message a failure of the given kind carries. */
  function Describe(op: Op, f: Failure): (m: string)
    ensures m != ""
    ensures m == UnauthorizedMessage(op) <==> f == Unauthorized
    ensures m == ServerMessage(op) <==> f == ServerFault
    ensures f.Rejected? ==> |m| >= |RejectedPrefix(op)| && m[..|RejectedPrefix(op)|] == RejectedPrefix(op)
  {
    MessageShapes(op);
    var prefix := RejectedPrefix(op);
    assert prefix[0] == 'E' && prefix[6] == 'a';
    match f
    case Unauthorized => UnauthorizedMessage(op)
    case ServerFault => ServerMessage(op)
    case Rejected(body) => RejectedPrefix(op) + body
    case Generic => DefaultMessage(op)
  }

  /** A failure the operation can actually report: only operations that quote bodies reject with one, and never an empty one. */
  predicate Reportable(op: Op, f: Failure) {
    f.Rejected? ==> QuotesBody(op) && f.body != ""
  }

  /** Reads the kind of failure back from a message. */
  function Interpret(op: Op, message: string): Failure {
    if message == UnauthorizedMessage(op) then Unauthorized
    else if message == ServerMessage(op) then ServerFault
    else if message == DefaultMessage(op) then Generic
    else if QuotesBody(op) && |message| > |RejectedPrefix(op)| && message[..|RejectedPrefix(op)|] == RejectedPrefix(op)
    then Rejected(message[|RejectedPrefix(op)|..])
    else Generic
  }

  /** The three fixed messages differ in their first or seventh character. */
  lemma MessageShapes(op: Op)
    ensures |UnauthorizedMessage(op)| > 6 && UnauthorizedMessage(op)[0] == 'S'
    ensures |ServerMessage(op)| > 6 && ServerMessage(op)[0] == 'E' && ServerMessage(op)[6] == 'd'
    ensures |DefaultMessage(op)| > 6 && DefaultMessage(op)[0] == 'E' && DefaultMessage(op)[6] == 'a'
  {
  }

  /** The message the gateway throws is never empty and names exactly one kind of failure, with the quoted body recoverable. */
  lemma {:induction false} InterpretDescribe(op: Op, f: Failure)
    requires Reportable(op, f)
    ensures Describe(op, f) != ""
    ensures Interpret(op, Describe(op, f)) == f
  {
    MessageShapes(op);
    var m := Describe(op, f);
    var prefix := RejectedPrefix(op);
    match f
    case Unauthorized =>
    case ServerFault =>
    case Generic =>
    case Rejected(body) =>
      assert m[0] == prefix[0] && m[6] == prefix[6];
      assert |m| > |DefaultMessage(op)|;
      assert m[..|prefix|] == prefix;
      assert m[|prefix|..] == body;
  }

  /** The error object thrown for a non-ok response: status and body text are always attached. */
  function FailureError(op: Op, status: int, text: string): (e: Error)
    ensures e.status == Some(status) && e.details == Some(text) && e.responseStatus.None?
    ensures e.message == Describe(op, Classify(op, status, text))
  {
    Error(Describe(op, Classify(op, status, text)), Some(status), Some(text), None)
  }

  /** Every failure error names its status class unambiguously and, where quoted, the body. */
  lemma FailureErrorExplains(op: Op, status: int, text: string)
    ensures FailureError(op, status, text).message != ""
    ensures Interpret(op, FailureError(op, status, text).message) == Classify(op, status, text)
  {
    InterpretDescribe(op, Classify(op, status, text));
  }

  // ---------------------------------------------------------------- responses

  /** The parsed body of a fetch: `data` is `None` when missing or falsy. */
  datatype ListBody = ListBody(data: Option<seq<Task>>)

  /**
   * The parsed body of a create or update: `data` is `None` when missing or falsy, and
   * `whole` is the body object itself, which is what is returned in that case.
   */
  datatype ItemBody = ItemBody(data: Option<Task>, whole: Task)

  /**
   * `getTodos`: the listed tasks, `[]` when `data` is missing or falsy. An ok response whose
   * body does not parse rejects with the parse error.
   */
  function GetTodos(response: Response<Reply<ListBody>>): (r: Reply<seq<Task>>)
    ensures IsOk(response.status) && response.json.Thrown? ==> r == Thrown(response.json.error)
    ensures IsOk(response.status) && response.json.Ok? && response.json.value.data.Some?
            ==> r == Ok(response.json.value.data.value)
    ensures IsOk(response.status) && response.json.Ok? && response.json.value.data.None? ==> r == Ok([])
    ensures !IsOk(response.status) ==> r == Thrown(FailureError(Fetch, response.status, response.text))
  {
    if !IsOk(response.status) then Thrown(FailureError(Fetch, response.status, response.text))
    else
      match response.json
      case Thrown(e) => Thrown(e)
      case Ok(body) => Ok(body.data.GetOr([]))
  }

  /** A failed fetch never quotes the body: its message depends on the status alone. */
  lemma FetchIgnoresBody(status: int, text1: string, text2: string, json1: Reply<ListBody>, json2: Reply<ListBody>)
    requires !IsOk(status)
    ensures GetTodos(Response(status, text1, json1)).error.message == GetTodos(Response(status, text2, json2)).error.message
    ensures GetTodos(Response(status, text1, json1)).error.message
            in {DefaultMessage(Fetch), UnauthorizedMessage(Fetch), ServerMessage(Fetch)}
  {
  }

  /** `json.data || json`. */
  function ItemOf(body: ItemBody): (t: Task)
    ensures body.data.Some? ==> t == body.data.value
    ensures body.data.None? ==> t == body.whole
  {
    body.data.GetOr(body.whole)
  }

  /**
   * `createTodo`'s result, for the response to `CreateTodoRequest`. An ok response whose body
   * does not parse rejects with the parse error.
   */
  function CreateTodo(response: Response<Reply<ItemBody>>): (r: Reply<Task>)
    ensures IsOk(response.status) && response.json.Ok? ==> r == Ok(ItemOf(response.json.value))
    ensures IsOk(response.status) && response.json.Thrown? ==> r == Thrown(response.json.error)
    ensures !IsOk(response.status) ==> r == Thrown(FailureError(Create, response.status, response.text))
  {
    if !IsOk(response.status) then Thrown(FailureError(Create, response.status, response.text))
    else
      match response.json
      case Thrown(e) => Thrown(e)
      case Ok(body) => Ok(ItemOf(body))
  }

  /**
   * `updateTodo`'s result, for the response to `UpdateTodoRequest`. An ok response whose body
   * does not parse rejects with the parse error.
   */
  function UpdateTodo(response: Response<Reply<ItemBody>>): (r: Reply<Task>)
    ensures IsOk(response.status) && response.json.Ok? ==> r == Ok(ItemOf(response.json.value))
    ensures IsOk(response.status) && response.json.Thrown? ==> r == Thrown(response.json.error)
    ensures !IsOk(response.status) ==> r == Thrown(FailureError(Update, response.status, response.text))
  {
    if !IsOk(response.status) then Thrown(FailureError(Update, response.status, response.text))
    else
      match response.json
      case Thrown(e) => Thrown(e)
      case Ok(body) => Ok(ItemOf(body))
  }

  /** `deleteTodo`'s result: nothing on success, the body is not read. */
  function DeleteTodo(response: Response<()>): (r: Reply<()>)
    ensures IsOk(response.status) <==> r.Ok?
    ensures !IsOk(response.status) ==> r == Thrown(FailureError(Delete, response.status, response.text))
  {
    if !IsOk(response.status) then Thrown(FailureError(Delete, response.status, response.text))
    else Ok(())
  }

  /** For every operation, a 401 or 403 gives that operation's session message. */
  lemma UnauthorizedForEveryOp(op: Op, status: int, text: string)
    requires status == 401 || status == 403
    ensures FailureError(op, status, text).message == UnauthorizedMessage(op)
  {
  }

  /** Create, update and delete quote a non-empty body below 500 (other than 401/403); an empty body keeps the default. */
  lemma QuotedBody(op: Op, status: int, text: string)
    requires op != Fetch && status != 401 && status != 403 && status < 500
    ensures text != "" ==> FailureError(op, status, text).message == RejectedPrefix(op) + text
    ensures text == "" ==> FailureError(op, status, text).message == DefaultMessage(op)
  {
  }
}
