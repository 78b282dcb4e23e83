/**
 * The login / sign-up page: the credential rules, the mapping from a failed
 * call's HTTP status to the message shown, and the page's mode, error and
 * loading state across a submit.
 */
module AuthPage {
  import opened Wrappers

  datatype Mode = LoginMode | RegisterMode

  const InvalidCredentialsMessage: string := "Invalid login or password"
  const LoginTakenMessage: string := "Login is already used by other user"
  const ServerErrorMessage: string := "Server error, please try again later"

  /**
   * The message for a failed call, from the response's status (none when the
   * call got no response): 401 and 404 are bad credentials, 409 a taken
   * login, anything else a server error.
   */
  function ErrorMessage(status: Option<int>): (m: string)
    ensures m == InvalidCredentialsMessage <==> status == Some(401) || status == Some(404)
    ensures m == LoginTakenMessage <==> status == Some(409)
    ensures m == ServerErrorMessage <==> !(status == Some(401) || status == Some(404) || status == Some(409))
  {
    if status == Some(401) || status == Some(404) then InvalidCredentialsMessage
    else if status == Some(409) then LoginTakenMessage
    else ServerErrorMessage
  }

  const MinLoginLength: nat := 5
  const MinPasswordLength: nat := 6

  /**
   * A required field with a minimum length: an empty value gets the
   * "required" message, a shorter one the length message.
   */
  function LengthRule(value: string, minLength: nat, requiredMessage: string, tooShortMessage: string): (e: Option<string>)
    ensures e.None? <==> |value| >= minLength && value != ""
    ensures e.Some? && value == "" ==> e.value == requiredMessage
    ensures e.Some? && value != "" ==> e.value == tooShortMessage
  {
    if value == "" then Some(requiredMessage)
    else if |value| < minLength then Some(tooShortMessage)
    else None
  }

  function LoginError(login: string): (e: Option<string>)
    ensures e.None? <==> |login| >= MinLoginLength
  {
    LengthRule(login, MinLoginLength, "Enter login", "Login should be at least 5 symbols")
  }

  function PasswordError(password: string): (e: Option<string>)
    ensures e.None? <==> |password| >= MinPasswordLength
  {
    LengthRule(password, MinPasswordLength, "Enter password", "Password should be at least 6 symbols")
  }

  /** `location.state?.from?.pathname || '/'` */
  function RedirectTarget(from: Option<string>): (target: string)
    ensures target != ""
    ensures from.Some? && from.value != "" ==> target == from.value
    ensures from.None? || from.value == "" ==> target == "/"
  {
    OrIfFalsy(from, "/")
  }

  /** The one provider call a submit makes. */
  datatype AuthCall = LoginCall(login: string, password: string) | RegisterCall(login: string, password: string)

  /** How the call ended: success, or an error with the response's status if any. */
  datatype CallOutcome = Succeeded | Failed(status: Option<int>)

  /** The page's state. */
  class AuthPageState {
    var mode: Mode
    var error: Option<string>
    var isLoading: bool

    constructor ()
      ensures mode == LoginMode && error.None? && !isLoading
    {
      mode := LoginMode;
      error := None;
      isLoading := false;
    }

    /** Switching tabs sets the mode and clears the error. */
    method SwitchMode(m: Mode)
      modifies this
      ensures mode == m && error.None? && isLoading == old(isLoading)
    {
      mode := m;
      error := None;
    }

    /**
     * Pressing submit: when either field breaks its rule nothing happens;
     * otherwise the error is cleared, loading starts and exactly one call is
     * made — register in register mode, login in login mode.
     */
    method BeginSubmit(login: string, password: string) returns (call: Option<AuthCall>)
      modifies this
      ensures call.Some? <==> LoginError(login).None? && PasswordError(password).None?
      ensures call.None? ==> mode == old(mode) && error == old(error) && isLoading == old(isLoading)
      ensures call.Some? ==> mode == old(mode) && error.None? && isLoading
      ensures call.Some? ==> (call.value.RegisterCall? <==> mode == RegisterMode)
      ensures call.Some? ==> call.value.login == login && call.value.password == password
    {
      if LoginError(login).Some? || PasswordError(password).Some? {
        return None;
      }
      error := None;
      isLoading := true;
      if mode == RegisterMode {
        call := Some(RegisterCall(login, password));
      } else {
        call := Some(LoginCall(login, password));
      }
    }

    /**
     * The call has ended: on success the page navigates to the redirect
     * target; on failure the status's message is shown. Loading ends on both
     * paths.
     */
    method FinishSubmit(outcome: CallOutcome, from: Option<string>) returns (navigateTo: Option<string>)
      modifies this
      ensures !isLoading && mode == old(mode)
      ensures outcome.Succeeded? ==> navigateTo == Some(RedirectTarget(from)) && error == old(error)
      ensures outcome.Failed? ==> navigateTo.None? && error == Some(ErrorMessage(outcome.status))
    {
      navigateTo := None;
      match outcome {
        case Succeeded =>
          navigateTo := Some(RedirectTarget(from));
        case Failed(status) =>
          error := Some(ErrorMessage(status));
      }
      isLoading := false;
    }

    /** The submit button's caption; it is disabled exactly while loading. */
    function ButtonLabel(): (caption: string)
      reads this
      ensures isLoading ==> caption == "Loading..."
      ensures !isLoading ==> (caption == "Log In" <==> mode == LoginMode)
      ensures !isLoading ==> (caption == "Sign Up" <==> mode == RegisterMode)
    {
      if isLoading then "Loading..."
      else
        assert "Log In"[0] != "Sign Up"[0];
        match mode
        case LoginMode => "Log In"
        case RegisterMode => "Sign Up"
    }
  }

  /**
   * A login rejected with 401 after the page was opened: the page ends not
   * loading, showing the bad-credentials message, and does not navigate.
   */
  method RejectedLogin() returns (shown: Option<string>, loading: bool, dest: Option<string>)
    ensures shown == Some(InvalidCredentialsMessage) && !loading && dest.None?
  {
    var page := new AuthPageState();
    var call := page.BeginSubmit("alice", "secret");
    assert call == Some(LoginCall("alice", "secret"));
    dest := page.FinishSubmit(Failed(Some(401)), None);
    shown := page.error;
    loading := page.isLoading;
  }
}
