/**
 * The sign-up form's submit handler: two local checks, in order, before the
 * registration request, and the error message the form shows afterwards.
 */
module SignupPage {
  import opened Wrappers

  datatype SignupForm = SignupForm(name: string, email: string, password: string, confirmPassword: string)

  /** The JSON body of POST /auth/register. */
  datatype RegisterBody = RegisterBody(name: string, email: string, password: string)

  const MinPasswordLength: nat := 6
  const MismatchError: string := "Passwords do not match"
  const LengthError: string := "Password must be at least 6 characters long"
  const NoDataError: string := "Registration failed. Please try again."
  const FailedError: string := "Registration failed"

  /** The local checks of `handleSubmit`: a mismatch first, then the length;
      a form that passes both yields the request body. */
  function Validate(form: SignupForm): (r: Result<RegisterBody, string>)
    ensures r.Ok? <==> form.password == form.confirmPassword && |form.password| >= MinPasswordLength
    ensures form.password != form.confirmPassword ==> r == Err(MismatchError)
    ensures form.password == form.confirmPassword && |form.password| < MinPasswordLength ==> r == Err(LengthError)
    ensures r.Ok? ==> r.value.name == form.name && r.value.email == form.email && r.value.password == form.password
  {
    if form.password != form.confirmPassword then Err(MismatchError)
    else if |form.password| < MinPasswordLength then Err(LengthError)
    else Ok(RegisterBody(form.name, form.email, form.password))
  }

  /** When both checks fail, the mismatch is the one reported. */
  lemma MismatchReportedFirst(form: SignupForm)
    requires form.password != form.confirmPassword && |form.password| < MinPasswordLength
    ensures Validate(form) == Err(MismatchError)
  {
  }

  /** A sent body carries exactly the three fields, with a password of at least
      six characters that equals the confirmation the user typed. */
  lemma SentBodyIsConfirmed(form: SignupForm)
    requires Validate(form).Ok?
    ensures Validate(form).value == RegisterBody(form.name, form.email, form.confirmPassword)
    ensures |Validate(form).value.password| >= MinPasswordLength
  {
  }

  /** How the registration request ended. */
  datatype RegisterResponse =
    | Data                             // a response body: stored, then a redirect
    | NoData                           // an empty response body
    | Failure(message: Option<string>) // an error, with the server's message if any

  /** The error the form shows once a sent request has ended. */
  function ResponseError(response: RegisterResponse): (e: string)
    ensures response.Data? <==> e == ""
    ensures response.NoData? ==> e == NoDataError
    ensures response.Failure? ==>
      e == (if response.message.Some? && response.message.value != "" then response.message.value else FailedError)
  {
    match response
    case Data => ""
    case NoData => NoDataError
    case Failure(m) => if m.Some? && m.value != "" then m.value else FailedError
  }

  /** The form's state that `handleSubmit` writes. */
  class SignupState {
    var error: string
    var loading: bool

    constructor ()
      ensures error == "" && !loading
    {
      error, loading := "", false;
    }

    /** `handleSubmit`: clear the error, run the checks (no request on failure),
        otherwise mark loading, send, record the outcome and clear loading. */
    method HandleSubmit(form: SignupForm, response: RegisterResponse) returns (sent: Option<RegisterBody>)
      modifies this
      ensures sent.Some? <==> Validate(form).Ok?
      ensures sent.Some? ==> sent.value == Validate(form).value
      ensures sent.None? ==> error == Validate(form).error && loading == old(loading)
      ensures sent.Some? ==> error == ResponseError(response) && !loading
    {
      error := "";
      if form.password != form.confirmPassword {
        error := MismatchError;
        return None;
      }
      if |form.password| < MinPasswordLength {
        error := LengthError;
        return None;
      }
      loading := true;
      sent := Some(RegisterBody(form.name, form.email, form.password));
      match response {
        case Data =>
        case NoData =>
          error := NoDataError;
        case Failure(m) =>
          error := if m.Some? && m.value != "" then m.value else FailedError;
      }
      loading := false;
    }
  }
}
