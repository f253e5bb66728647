/** The login form (src/pages/LoginScreen.js): two validators, the submit guard, and the
    mock sign-in that a 1500 ms timer completes. */
module LoginScreen {
  import opened Shared
  import opened EmailPatterns
  import opened GlobalSlice

  const MinPasswordLength := 6
  const MockToken := "fake-jwt-token"
  const MockUserName := "User Name"

  /** The error `validateEmail` shows: required, then `EMAIL_REGEX`. */
  function LoginEmailError(text: string): (err: string)
    ensures err == "" <==> AuthEmailAccepts(text)
    ensures text == "" ==> err == "Email is required"
    ensures text != "" && err != "" ==> err == "Invalid email format"
  {
    if text == "" then "Email is required"
    else if !AuthEmailAccepts(text) then "Invalid email format"
    else ""
  }

  /** The error `validatePassword` shows: required, then at least six characters. */
  function LoginPasswordError(text: string): (err: string)
    ensures err == "" <==> |text| >= MinPasswordLength
    ensures text == "" ==> err == "Password is required"
    ensures text != "" && err != "" ==> err == "Password must be at least 6 characters"
  {
    if text == "" then "Password is required"
    else if |text| < MinPasswordLength then "Password must be at least 6 characters"
    else ""
  }

  /** `handleLogin`'s guard, on the values and errors of the render it runs in. */
  predicate LoginProceeds(email: string, password: string, emailError: string, passwordError: string) {
    email != "" && password != "" && emailError == "" && passwordError == ""
  }

  /** The Sign In button's `disabled`. */
  predicate SignInDisabled(email: string, password: string, isLoading: bool) {
    email == "" || password == "" || isLoading
  }

  /** The button and the guard test different things. A login the guard lets through
      while nothing loads had an enabled button; a disabled button with nothing loading
      means the guard refuses too; but an enabled button does not mean the login starts,
      as for `a` with `123456`, whose e-mail error is shown. */
  lemma SignInButtonAndGuard(email: string, password: string, emailError: string,
                             passwordError: string)
    ensures LoginProceeds(email, password, emailError, passwordError) ==>
      !SignInDisabled(email, password, false)
    ensures SignInDisabled(email, password, false) ==>
      !LoginProceeds(email, password, emailError, passwordError)
    ensures !SignInDisabled("a", "123456", false)
    ensures !LoginProceeds("a", "123456", LoginEmailError("a"), LoginPasswordError("123456"))
  {
  }

  /** What the timer callback closes over: the e-mail and the effective dark mode of
      the render in which the login started. */
  datatype PendingLogin = PendingLogin(email: string, darkMode: bool)

  datatype LoginState = LoginState(
    email: string, password: string, isLoading: bool, emailError: string,
    passwordError: string, pending: Option<PendingLogin>, route: Option<Route>)

  /** A filled field shows its own validator's error. */
  predicate Consistent(l: LoginState) {
    && (l.email != "" ==> l.emailError == LoginEmailError(l.email))
    && (l.password != "" ==> l.passwordError == LoginPasswordError(l.password))
  }

  /** When the errors are those of the fields, the login starts exactly for an e-mail
      of the form `x@y` without whitespace and a password of six or more characters. */
  lemma ProceedsOnlyWhenValid(l: LoginState)
    requires Consistent(l)
    ensures LoginProceeds(l.email, l.password, l.emailError, l.passwordError) <==>
      (exists a, b :: AuthEmailSplit(l.email, a, b)) && |l.password| >= MinPasswordLength
  {
    AuthEmailShape(l.email);
  }

  class LoginForm {
    const store: Store
    var email: string
    var password: string
    var isLoading: bool
    var emailError: string
    var passwordError: string
    /** The mock login the 1500 ms timer will complete, if one is scheduled. */
    var pending: Option<PendingLogin>
    var route: Option<Route>

    function Local(): LoginState
      reads this
    {
      LoginState(email, password, isLoading, emailError, passwordError, pending, route)
    }

    ghost predicate Valid()
      reads this
    {
      Consistent(Local())
    }

    constructor (store: Store)
      ensures this.store == store && Valid()
      ensures Local() == LoginState("", "", false, "", "", None, None)
    {
      this.store := store;
      email, password, isLoading, emailError, passwordError := "", "", false, "", "";
      pending, route := None, None;
    }

    method ValidateEmail(text: string)
      requires Valid()
      modifies this
      ensures Valid()
      ensures Local() == old(Local()).(email := text, emailError := LoginEmailError(text))
    {
      email := text;
      emailError := LoginEmailError(text);
    }

    method ValidatePassword(text: string)
      requires Valid()
      modifies this
      ensures Valid()
      ensures Local() == old(Local()).(password := text, passwordError := LoginPasswordError(text))
    {
      password := text;
      passwordError := LoginPasswordError(text);
    }

    /** `handleLogin`: empty fields get their "required" error; the guard reads the
        errors as they were before, and when it passes, loading starts and the timer is
        scheduled with the current e-mail and dark mode. The store is not touched. */
    method HandleLogin()
      requires Valid()
      modifies this
      ensures Valid()
      ensures var go := LoginProceeds(old(email), old(password), old(emailError), old(passwordError));
        Local() == old(Local()).(
          emailError := if old(email) == "" then "Email is required" else old(emailError),
          passwordError := if old(password) == "" then "Password is required" else old(passwordError),
          isLoading := go || old(isLoading),
          pending := if go then Some(PendingLogin(old(email), old(store.isDarkMode))) else old(pending))
      ensures LoginProceeds(old(email), old(password), old(emailError), old(passwordError)) ==>
        AuthEmailAccepts(old(email)) && |old(password)| >= MinPasswordLength
    {
      var go := LoginProceeds(email, password, emailError, passwordError);
      if email == "" { emailError := "Email is required"; }
      if password == "" { passwordError := "Password is required"; }
      if !go {
        return;
      }
      isLoading := true;
      pending := Some(PendingLogin(email, store.isDarkMode));
    }

    /** The timer callback: stores the mock token, the captured e-mail, a user with that
        e-mail and the captured dark mode, navigates Home and stops loading. With no
        login scheduled nothing happens. */
    method LoginTimerFires()
      modifies this, store
      ensures old(pending) == None ==>
        Local() == old(Local()) && store.Snapshot() == old(store.Snapshot())
      ensures old(pending).Some? ==>
        var p := old(pending).value;
        && store.Snapshot() == old(store.Snapshot()).(authToken := MockToken, email := p.email,
             userDetails := User(MockUserName, p.email), isDarkMode := p.darkMode)
        && Local() == old(Local()).(isLoading := false, pending := None, route := Some(Home))
    {
      if pending == None {
        return;
      }
      var p := pending.value;
      store.SetAuthToken(MockToken);
      store.SetEmail(p.email);
      store.SetUserDetails(User(MockUserName, p.email));
      store.SetDarkMode(p.darkMode);
      route := Some(Home);
      isLoading := false;
      pending := None;
    }
  }
}
