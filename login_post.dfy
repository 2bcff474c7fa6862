/** The `users`-table view of authentication: the credentials of one login attempt and the
    errors `validate_credentials` can report. The validator itself (its password hashing and its
    uniform-time handling of unknown users) is not part of this model; handlers receive it as a
    function. */
module Authentication {
  import opened Wrappers
  import opened Ids

  /** `Credentials`. */
  datatype Credentials = Credentials(username: string, password: string)

  /** `AuthError`: wrong username or password alike, or an internal failure. */
  datatype AuthError = InvalidCredentials | UnexpectedError

  /** The shape of `validate_credentials`: the user id, or why there is none. */
  type Validator = Credentials -> Result<Uuid, AuthError>
}

/** `POST /login`: every outcome is a 303 redirect; a valid login goes to `/`, anything else back to
    `/login`. */
module LoginPost {
  import opened Wrappers
  import opened Http
  import opened Authentication

  /** The urlencoded body of `POST /login`. */
  datatype FormData = FormData(username: string, password: string)

  /** `LoginError`, with its `Display` text and the status its `ResponseError` reports. */
  datatype LoginError = AuthError | UnexpectedError {
    function Message(): string {
      match this
      case AuthError => "Authentication failed"
      case UnexpectedError => "Something went wrong"
    }

    function StatusCode(): nat {
      StatusSeeOther
    }
  }

  /** `InternalError::from_response(error, response)`: the error is kept for logging, the
      response is what the client gets. */
  datatype InternalError = InternalError(cause: LoginError, response: Response)

  const SuccessLocation: string := "/"
  const FailureLocation: string := "/login"

  /** `login`, against the credential validator `validate`. */
  function Login(form: FormData, validate: Validator): (r: Result<Response, InternalError>)
    ensures var outcome := validate(Credentials(form.username, form.password));
      && (r.Ok? <==> outcome.Ok?)
      && (r.Ok? ==> r.value == SeeOther("/"))
      && (r.Err? ==> r.error.response == SeeOther("/login"))
      && (r.Err? ==> (r.error.cause == LoginError.AuthError <==> outcome.error == InvalidCredentials))
      && (r.Err? ==> (r.error.cause == LoginError.UnexpectedError <==> outcome.error == AuthError.UnexpectedError))
  {
    var credentials := Credentials(form.username, form.password);
    match validate(credentials)
    case Ok(userId) => Ok(SeeOther(SuccessLocation))
    case Err(error) =>
      var loginError :=
        if error.InvalidCredentials? then LoginError.AuthError else LoginError.UnexpectedError;
      Err(InternalError(loginError, SeeOther(FailureLocation)))
  }

  /** The response actix sends for what `login` returns. */
  function Rendered(r: Result<Response, InternalError>): Response {
    match r
    case Ok(response) => response
    case Err(e) => e.response
  }

  /** Every login attempt is answered with a 303 whose `Location` is `/` or `/login`, with no
      query string and an empty body: no flash message, error text or tag leaves the handler. */
  lemma LoginAlwaysRedirects(form: FormData, validate: Validator)
    ensures var response := Rendered(Login(form, validate));
      && response.status == StatusSeeOther
      && response.location in {Some(SuccessLocation), Some(FailureLocation)}
      && response.body == ""
  {
  }

  /** The validator is consulted about exactly the submitted username and password: two
      validators that agree on those credentials give the same outcome. */
  lemma LoginUsesFormCredentials(form: FormData, validate: Validator, other: Validator)
    requires validate(Credentials(form.username, form.password)) == other(Credentials(form.username, form.password))
    ensures Login(form, validate) == Login(form, other)
  {
  }

  /** The `Display` text of each `LoginError`, and the 303 status it reports for every variant. */
  lemma LoginErrorDisplayAndStatus(e: LoginError)
    ensures e.AuthError? ==> e.Message() == "Authentication failed"
    ensures e.UnexpectedError? ==> e.Message() == "Something went wrong"
    ensures e.StatusCode() == 303
  {
  }
}
