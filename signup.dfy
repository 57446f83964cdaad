/** The sign-up page's error reporting: the message chosen for a failed sign-up, and the toast
    the submit handler shows. What `JSON.parse` makes of an error message is part of the
    error value. */
module Signup {
  import opened Wrappers

  const ALREADY_REGISTERED := "This email is already registered. Please try signing in instead."
  const INVALID_INPUT := "Invalid input. Please check your details."
  const INVALID_FORMAT := "Invalid email or password format."
  const GENERIC_FAILURE := "Failed to create account"
  const USER_EXISTS_CODE := "user_already_exists"

  /** `JSON.parse(error.message)`: not JSON at all, `null`, or a value whose `code` and
      `message` fields are read ("" when absent or falsy). */
  datatype ParsedMessage = NotJson | JsonNull | JsonValue(code: string, message: string)

  /** What `signUp` rejects with: an `AuthApiError`, another `AuthError`, or anything else. */
  datatype SignUpError = ApiError(message: string, status: int, parsed: ParsedMessage)
                         | OtherAuthError(message: string)
                         | NotAuthError

  /** What escapes `getErrorMessage` when it throws. */
  datatype Thrown = SyntaxError | TypeError

  datatype Toast = Toast(title: string, description: string, destructive: bool)

  /** The choice made once the body is known: the code first, then the status, then the
      body's message, then the error's own. */
  function MessageFor(code: string, bodyMessage: string, status: int, message: string): (m: string)
    ensures code == USER_EXISTS_CODE ==> m == ALREADY_REGISTERED
    ensures code != USER_EXISTS_CODE && status == 422 ==> m == INVALID_INPUT
    ensures code != USER_EXISTS_CODE && status == 400 ==> m == INVALID_FORMAT
    ensures code != USER_EXISTS_CODE && status != 422 && status != 400 ==>
              m == if bodyMessage != "" then bodyMessage else message
  {
    if code == USER_EXISTS_CODE then ALREADY_REGISTERED
    else if status == 422 then INVALID_INPUT
    else if status == 400 then INVALID_FORMAT
    else if bodyMessage != "" then bodyMessage
    else message
  }

  /** `getErrorMessage(error)` as written: the message of an API error is parsed as JSON, and
      a message that is not JSON (or is `null`) makes it throw. */
  function ErrorMessageAsWritten(e: SignUpError): (r: Result<string, Thrown>)
    requires !e.NotAuthError?
    ensures r.Failure? <==> e.ApiError? && !e.parsed.JsonValue?
    ensures e.OtherAuthError? ==> r == Success(e.message)
    ensures e.ApiError? && e.parsed.JsonValue? && e.parsed.code == USER_EXISTS_CODE ==>
              r == Success(ALREADY_REGISTERED)
    ensures e.ApiError? && e.parsed.JsonValue? && e.parsed.code != USER_EXISTS_CODE && e.status == 422 ==>
              r == Success(INVALID_INPUT)
    ensures e.ApiError? && e.parsed.JsonValue? && e.parsed.code != USER_EXISTS_CODE && e.status == 400 ==>
              r == Success(INVALID_FORMAT)
    ensures e.ApiError? && e.parsed.JsonValue? && e.parsed.code != USER_EXISTS_CODE && e.status != 422 && e.status != 400 ==>
              r == Success(if e.parsed.message != "" then e.parsed.message else e.message)
  {
    match e
    case OtherAuthError(message) => Success(message)
    case ApiError(message, status, parsed) =>
      match parsed
      case NotJson => Failure(SyntaxError)
      case JsonNull => Failure(TypeError)
      case JsonValue(code, bodyMessage) => Success(MessageFor(code, bodyMessage, status, message))
  }

  /** The catch block of `handleSubmit` as written: `None` when `getErrorMessage` throws, so
      the rejection escapes the handler and no toast is shown. */
  function FailureToastAsWritten(e: SignUpError): (t: Option<Toast>)
    ensures e.NotAuthError? ==> t == Some(Toast("Error", GENERIC_FAILURE, true))
    ensures t.None? <==> e.ApiError? && !e.parsed.JsonValue?
  {
    if e.NotAuthError? then Some(Toast("Error", GENERIC_FAILURE, true))
    else
      match ErrorMessageAsWritten(e)
      case Success(m) => Some(Toast("Error", m, true))
      case Failure(_) => None
  }

  /** An API error with a plain-text message, such as the "User already registered" that the
      auth service reports, makes the handler reject without telling the user anything. */
  lemma PlainTextMessageShowsNothing(status: int)
    ensures FailureToastAsWritten(ApiError("User already registered", status, NotJson)).None?
    ensures ErrorMessageAsWritten(ApiError("User already registered", status, NotJson)) == Failure(SyntaxError)
  {
  }

  /** `getErrorMessage(error)` as intended: a message that does not parse to an object has no
      code and no body message, and the choice goes on by status. */
  function ErrorMessage(e: SignUpError): (m: string)
    requires !e.NotAuthError?
    ensures m != "" || e.message == ""
    ensures e.OtherAuthError? ==> m == e.message
    ensures e.ApiError? && !e.parsed.JsonValue? ==>
              m == if e.status == 422 then INVALID_INPUT else if e.status == 400 then INVALID_FORMAT else e.message
    ensures e.ApiError? && e.parsed.JsonValue? && e.parsed.code == USER_EXISTS_CODE ==> m == ALREADY_REGISTERED
    ensures e.ApiError? && e.parsed.JsonValue? && e.parsed.code != USER_EXISTS_CODE && e.status == 422 ==>
              m == INVALID_INPUT
    ensures e.ApiError? && e.parsed.JsonValue? && e.parsed.code != USER_EXISTS_CODE && e.status == 400 ==>
              m == INVALID_FORMAT
    ensures e.ApiError? && e.parsed.JsonValue? && e.parsed.code != USER_EXISTS_CODE && e.status != 422 && e.status != 400 ==>
              m == if e.parsed.message != "" then e.parsed.message else e.message
  {
    match e
    case OtherAuthError(message) => message
    case ApiError(message, status, parsed) =>
      if parsed.JsonValue? then MessageFor(parsed.code, parsed.message, status, message)
      else MessageFor("", "", status, message)
  }

  /** Where the message does parse, the intended choice is the written one. */
  lemma ErrorMessageAgrees(e: SignUpError)
    requires !e.NotAuthError? && ErrorMessageAsWritten(e).Success?
    ensures ErrorMessage(e) == ErrorMessageAsWritten(e).value
  {
  }

  /** The catch block of `handleSubmit` with the intended message: every failure is reported. */
  function FailureToast(e: SignUpError): (t: Toast)
    ensures t.title == "Error" && t.destructive
    ensures e.NotAuthError? ==> t.description == GENERIC_FAILURE
    ensures !e.NotAuthError? ==> t.description == ErrorMessage(e)
    ensures FailureToastAsWritten(e).Some? ==> FailureToastAsWritten(e) == Some(t)
  {
    if e.NotAuthError? then Toast("Error", GENERIC_FAILURE, true)
    else Toast("Error", ErrorMessage(e), true)
  }

  /** With the correction the plain-text case is reported by its status. */
  lemma PlainTextMessageReported(message: string)
    ensures FailureToast(ApiError(message, 422, NotJson)) == Toast("Error", INVALID_INPUT, true)
    ensures FailureToast(ApiError(message, 400, NotJson)) == Toast("Error", INVALID_FORMAT, true)
  {
  }
}
