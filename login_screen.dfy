/** The sign-in / registration form of `screens/LoginScreen.js`. The form's
    state fields are updated in place by the handlers; the identity service's
    answer to `loginUser` / `registerUser` is a parameter. */
module LoginScreen {
  import opened Common

  /** How the identity service answered a login or registration call. */
  datatype AuthOutcome = AuthOk | AuthFailed(code: string, message: string)

  const MISSING_FIELDS: string := "Missing Fields"
  const SUCCESS_TITLE: string := "Success! \U{1F389}"

  /** The checks of `handleLogin` before the call; `None` lets it through. */
  function LoginCheck(email: string, password: string): (a: Option<Alert>)
    ensures a.None? <==> email != "" && password != ""
    ensures a.Some? ==> a.value.title == MISSING_FIELDS
  {
    if email == "" || password == "" then Some(Alert(MISSING_FIELDS, "Please enter both email and password."))
    else None
  }

  /** The checks of `handleRegister`, in their order; `None` lets it through. */
  function RegisterCheck(email: string, password: string, confirm: string): (a: Option<Alert>)
    ensures a.None? <==> email != "" && password != "" && confirm != "" && |password| >= 6 && password == confirm
    ensures (email == "" || password == "" || confirm == "") <==> a.Some? && a.value.title == MISSING_FIELDS
    ensures (email != "" && password != "" && confirm != "" && |password| < 6) <==>
              a.Some? && a.value.title == "Weak Password"
    ensures (email != "" && password != "" && confirm != "" && |password| >= 6 && password != confirm) <==>
              a.Some? && a.value.title == "Password Mismatch"
  {
    if email == "" || password == "" || confirm == "" then Some(Alert(MISSING_FIELDS, "Please fill in all fields."))
    else if |password| < 6 then Some(Alert("Weak Password", "Password must be at least 6 characters long."))
    else if password != confirm then Some(Alert("Password Mismatch", "Passwords do not match."))
    else None
  }

  /** The message of a failed registration, by error code. */
  function RegisterErrorMessage(code: string): (m: string)
    ensures code == "auth/email-already-in-use" ==> m == "This email is already registered. Please login instead."
    ensures code == "auth/invalid-email" ==> m == "Please enter a valid email address."
    ensures code == "auth/weak-password" ==> m == "Password is too weak. Please use a stronger password."
    ensures code !in {"auth/email-already-in-use", "auth/invalid-email", "auth/weak-password"} ==>
              m == "Registration failed. Please try again."
  {
    if code == "auth/email-already-in-use" then "This email is already registered. Please login instead."
    else if code == "auth/invalid-email" then "Please enter a valid email address."
    else if code == "auth/weak-password" then "Password is too weak. Please use a stronger password."
    else "Registration failed. Please try again."
  }

  /** The message of a failed login: the error's own message, or a default. */
  function LoginErrorMessage(message: string): (m: string)
    ensures m != ""
    ensures message != "" ==> m == message
  {
    OrDefault(message, "Invalid email or password.")
  }

  class LoginForm {
    var isLogin: bool
    var email: string
    var password: string
    var confirmPassword: string
    var showPassword: bool
    var showConfirmPassword: bool
    var loading: bool
    /** `setIsLoggedIn(true)` has been called. */
    var loggedIn: bool
    /** The alert on screen, and whether its OK button signs the user in. */
    var alert: Option<Alert>
    var alertOkSignsIn: bool

    constructor ()
      ensures isLogin && email == "" && password == "" && confirmPassword == ""
      ensures !showPassword && !showConfirmPassword && !loading && !loggedIn
      ensures alert.None? && !alertOkSignsIn
    {
      isLogin, email, password, confirmPassword := true, "", "", "";
      showPassword, showConfirmPassword, loading, loggedIn := false, false, false, false;
      alert, alertOkSignsIn := None, false;
    }

    /** `handleLogin`; `called` tells whether `loginUser` was invoked. */
    method HandleLogin(outcome: AuthOutcome) returns (called: bool)
      modifies this
      ensures called <==> LoginCheck(email, password).None?
      ensures !called ==> alert == LoginCheck(email, password) && !alertOkSignsIn
      ensures !called ==> loading == old(loading) && loggedIn == old(loggedIn)
      ensures called ==> !loading
      ensures called && outcome.AuthOk? ==> loggedIn && alert == old(alert) && alertOkSignsIn == old(alertOkSignsIn)
      ensures called && outcome.AuthFailed? ==> loggedIn == old(loggedIn) && !alertOkSignsIn
      ensures called && outcome.AuthFailed? ==> alert == Some(Alert("Login Failed", LoginErrorMessage(outcome.message)))
      ensures isLogin == old(isLogin) && email == old(email) && password == old(password)
      ensures confirmPassword == old(confirmPassword)
      ensures showPassword == old(showPassword) && showConfirmPassword == old(showConfirmPassword)
    {
      var check := LoginCheck(email, password);
      if check.Some? {
        alert, alertOkSignsIn := check, false;
        return false;
      }
      called := true;
      loading := true;
      match outcome {
        case AuthOk =>
          loggedIn := true;
        case AuthFailed(_, message) =>
          alert, alertOkSignsIn := Some(Alert("Login Failed", LoginErrorMessage(message))), false;
      }
      loading := false;
    }

    /** `handleRegister`; `called` tells whether `registerUser` was invoked. A
        success shows an alert whose OK button signs the user in. */
    method HandleRegister(outcome: AuthOutcome) returns (called: bool)
      modifies this
      ensures called <==> RegisterCheck(email, password, confirmPassword).None?
      ensures !called ==> alert == RegisterCheck(email, password, confirmPassword) && !alertOkSignsIn
      ensures !called ==> loading == old(loading)
      ensures called ==> !loading
      ensures called && outcome.AuthOk? ==>
                alert == Some(Alert(SUCCESS_TITLE, "Your account has been created successfully.")) && alertOkSignsIn
      ensures called && outcome.AuthFailed? ==>
                alert == Some(Alert("Registration Failed", RegisterErrorMessage(outcome.code))) && !alertOkSignsIn
      ensures loggedIn == old(loggedIn)
      ensures isLogin == old(isLogin) && email == old(email) && password == old(password)
      ensures confirmPassword == old(confirmPassword)
      ensures showPassword == old(showPassword) && showConfirmPassword == old(showConfirmPassword)
    {
      var check := RegisterCheck(email, password, confirmPassword);
      if check.Some? {
        alert, alertOkSignsIn := check, false;
        return false;
      }
      called := true;
      loading := true;
      match outcome {
        case AuthOk =>
          alert := Some(Alert(SUCCESS_TITLE, "Your account has been created successfully."));
          alertOkSignsIn := true;
        case AuthFailed(code, _) =>
          alert := Some(Alert("Registration Failed", RegisterErrorMessage(code)));
          alertOkSignsIn := false;
      }
      loading := false;
    }

    /** Pressing OK on the alert on screen: only the registration-success
        alert calls `setIsLoggedIn(true)`. */
    method PressAlertOk()
      modifies this`alert, this`alertOkSignsIn, this`loggedIn
      ensures loggedIn == (old(loggedIn) || (old(alert).Some? && old(alertOkSignsIn)))
      ensures alert.None? && !alertOkSignsIn
    {
      if alert.Some? && alertOkSignsIn {
        loggedIn := true;
      }
      alert, alertOkSignsIn := None, false;
    }

    /** `toggleMode` */
    method ToggleMode()
      modifies this
      ensures isLogin == !old(isLogin)
      ensures password == "" && confirmPassword == "" && !showPassword && !showConfirmPassword
      ensures email == old(email) && loading == old(loading) && loggedIn == old(loggedIn)
      ensures alert == old(alert) && alertOkSignsIn == old(alertOkSignsIn)
    {
      isLogin := !isLogin;
      password := "";
      confirmPassword := "";
      showPassword := false;
      showConfirmPassword := false;
    }
  }

  /** A client of the form: signing in happens only through a successful
      identity-service call. Starting signed out, after a login attempt and a
      press of OK the user is signed in exactly when the login call was made
      and succeeded. */
  method LoginThenOk(email: string, password: string, outcome: AuthOutcome) returns (signedIn: bool)
    ensures signedIn <==> email != "" && password != "" && outcome.AuthOk?
  {
    var form := new LoginForm();
    form.email, form.password := email, password;
    var called := form.HandleLogin(outcome);
    form.PressAlertOk();
    signedIn := form.loggedIn;
  }

  /** The same for registration: the user is signed in only after the
      registration call succeeded and the success alert's OK was pressed, and
      a registration that fails the form's checks never reaches the call. */
  method RegisterThenOk(email: string, password: string, confirm: string, outcome: AuthOutcome)
    returns (signedIn: bool)
    ensures signedIn <==> RegisterCheck(email, password, confirm).None? && outcome.AuthOk?
    ensures signedIn ==> |password| >= 6 && password == confirm
  {
    var form := new LoginForm();
    form.isLogin := false;
    form.email, form.password, form.confirmPassword := email, password, confirm;
    var called := form.HandleRegister(outcome);
    form.PressAlertOk();
    signedIn := form.loggedIn;
  }
}
