/**
 * The login gateway (services/auth.service.ts): the message a failed login carries and the
 * payload a successful one returns. The fetch and the JSON parse are one input: what they
 * resolved to, or what they threw.
 */
module AuthService {
  import opened Wrappers
  import opened Http

  datatype Account = Account(email: string, name: string)

  /** The session a successful login yields. */
  datatype AuthResponse = AuthResponse(token: string, user: Account)

  /** The parsed body: `data` is `None` when missing or falsy, `whole` is the body object itself. */
  datatype LoginBody = LoginBody(data: Option<AuthResponse>, whole: AuthResponse)

  const DefaultMessage: string := "Error al iniciar sesión"

  const BadCredentialsMessage: string := "Email o contraseña incorrectos."

  const ServerMessage: string := "Error del servidor al iniciar sesión. " + "Intenta nuevamente más tarde."

  /** The message of a failed login: each status class has its own. */
  function LoginFailureMessage(status: int): (m: string)
    ensures m == BadCredentialsMessage <==> status == 401 || status == 403
    ensures m == ServerMessage <==> status >= 500
    ensures m == DefaultMessage <==> status != 401 && status != 403 && status < 500
  {
    assert BadCredentialsMessage[0] == 'E' && BadCredentialsMessage[1] == 'm';
    assert ServerMessage[6] == 'd' && DefaultMessage[6] == 'a' && DefaultMessage[1] == 'r';
    if status == 401 || status == 403 then BadCredentialsMessage
    else if status >= 500 then ServerMessage
    else DefaultMessage
  }

  /** `login`'s result, for the outcome of the fetch and parse. */
  function Login(outcome: Reply<Response<LoginBody>>): (r: Reply<AuthResponse>)
    ensures outcome.Thrown? ==> r == Thrown(outcome.error)
    ensures outcome.Ok? && !IsOk(outcome.value.status)
            ==> r == Thrown(Error(LoginFailureMessage(outcome.value.status), Some(outcome.value.status), None, None))
    ensures outcome.Ok? && IsOk(outcome.value.status) && outcome.value.json.data.Some?
            ==> r == Ok(outcome.value.json.data.value)
    ensures outcome.Ok? && IsOk(outcome.value.status) && outcome.value.json.data.None?
            ==> r == Ok(outcome.value.json.whole)
  {
    match outcome
    case Thrown(e) => Thrown(e)
    case Ok(response) =>
      if !IsOk(response.status) then
        Thrown(Error(LoginFailureMessage(response.status), Some(response.status), None, None))
      else
        Ok(response.json.data.GetOr(response.json.whole))
  }

  /** A failed login's status can be read back from its error: the error says which class it fell in. */
  lemma LoginFailureIdentifiesClass(status: int, text: string, json: LoginBody)
    requires !IsOk(status)
    ensures Login(Ok(Response(status, text, json))).Thrown?
    ensures Login(Ok(Response(status, text, json))).error.status == Some(status)
    ensures Login(Ok(Response(status, text, json))).error.details.None?
    ensures Login(Ok(Response(status, text, json))).error.message == LoginFailureMessage(status)
    ensures Login(Ok(Response(status, text, json))).error.message != ""
  {
  }
}
